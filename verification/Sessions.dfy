/**
 The server's session (src/ws/server/session.rs): the loop as a class whose arms update its fields,
 and what each turn does to the session as a value.
 */
module Sessions {
  import opened Basics
  import opened Scheduler
  import opened Frames
  import opened Noise
  import opened Receiving
  import opened Links
  import opened Drains
  import Heartbeat

  datatype SessionCmd = Send(frame: Frame, priority: MessagePriority) | Close

  /** What the select of the loop comes up with: a message (None when it is not Binary), a command, the heartbeat. */
  datatype Select = Incoming(packet: Option<Packet>, inboxOpen: bool) | Command(cmd: SessionCmd) | HeartbeatDue

  datatype Settings = Settings(maxBytes: nat, heartbeat: Heartbeat.Config)

  /** A session between two turns; `open` until an arm breaks. */
  datatype Session = Session(
    line: Line,
    acc: Acc,
    sched: Wfq<Frame>,
    inbox: seq<Frame>,
    deadline: nat,
    waitingForPong: bool,
    open: bool)

  ghost function Starting(line: Line, cfg: Settings, now: nat): Session {
    Session(line, Acc(0, []), NewWfq(), [], now + cfg.heartbeat.interval, false, true)
  }

  /** A decoded frame: a Ping queues a Pong and sends nothing, others but Pongs go to the inbox. */
  ghost function AfterFrame(v: Session, frame: Frame, inboxOpen: bool): Session {
    if frame.kind.Ping? then v.(sched := v.sched.Enqueued(PONG, RealTime.Index()))
    else if frame.kind.Pong? then v
    else if inboxOpen then v.(inbox := v.inbox + [frame])
    else v.(open := false)
  }

  /** The heartbeat put off, and the packet through the cipher and the accumulator. */
  ghost function AfterPacket(v: Session, packet: Packet, cfg: Settings, now: nat): Session {
    var plain := Opened(v.line.state, packet, packet.Len());
    v.(line := v.line.(state := AfterOpen(v.line.state, packet, packet.Len())),
       acc := if plain.Ok? then v.acc.AfterFeed(plain.value, cfg.maxBytes) else v.acc,
       deadline := now + cfg.heartbeat.interval,
       waitingForPong := false)
  }

  ghost function AfterIncoming(v: Session, packet: Packet, inboxOpen: bool, cfg: Settings, now: nat): Session {
    match Received(v.line.state, v.acc, packet, cfg.maxBytes)
    case Err(_) => AfterPacket(v, packet, cfg, now).(open := false)
    case Ok(None) => AfterPacket(v, packet, cfg, now)
    case Ok(Some(frame)) => AfterFrame(AfterPacket(v, packet, cfg, now), frame, inboxOpen)
  }

  ghost function AfterSend(v: Session, frame: Frame, priority: MessagePriority): Session {
    var flushed := Flush(v.line, v.sched.Enqueued(frame, priority.Index()));
    v.(line := flushed.line, sched := flushed.sched, open := flushed.ok)
  }

  /** A missed deadline: a Ping the first time, whether or not it can be sent, and the end the second. */
  ghost function AfterMiss(v: Session, cfg: Settings, now: nat): Session {
    if v.waitingForPong then v.(open := false)
    else v.(line := Sent(v.line, PING), waitingForPong := true, deadline := now + cfg.heartbeat.timeout)
  }

  /** One turn of the loop. */
  ghost function AfterTurn(v: Session, select: Select, cfg: Settings, now: nat): Session {
    if !v.open then v
    else match select
      case Incoming(None, _) => v.(open := false)
      case Incoming(Some(packet), inboxOpen) => AfterIncoming(v, packet, inboxOpen, cfg, now)
      case Command(Send(frame, priority)) => AfterSend(v, frame, priority)
      case Command(Close) => v.(open := false)
      case HeartbeatDue => if now < v.deadline then v else AfterMiss(v, cfg, now)
  }

  /** What the select comes up with in each turn, and when. */
  type Script = seq<(Select, nat)>

  ghost function AfterTurns(v: Session, script: Script, cfg: Settings): Session {
    if |script| == 0 then v
    else
      var last := script[|script| - 1];
      AfterTurn(AfterTurns(v, script[..|script| - 1], cfg), last.0, cfg, last.1)
  }

  /** A session that has ended stays as it is. */
  lemma {:induction false} EndedStays(v: Session, script: Script, k: nat, cfg: Settings)
    requires k <= |script| && !AfterTurns(v, script[..k], cfg).open
    ensures AfterTurns(v, script, cfg) == AfterTurns(v, script[..k], cfg)
  {
    if k < |script| {
      assert script[..|script| - 1][..k] == script[..k];
      EndedStays(v, script[..|script| - 1], k, cfg);
    } else {
      assert script[..k] == script;
    }
  }

  lemma OneMoreTurn(v: Session, script: Script, k: nat, cfg: Settings)
    requires k < |script|
    ensures AfterTurns(v, script[..k + 1], cfg) == AfterTurn(AfterTurns(v, script[..k], cfg), script[k].0, cfg, script[k].1)
  {
    assert script[..k + 1][..k] == script[..k];
  }

  class ServerSession {
    const link: Link
    const acc: FrameAccumulator
    const scheduler: WfqScheduler<Frame>
    const cfg: Settings
    var inbox: seq<Frame>
    var heartbeatDeadline: nat
    var waitingForPong: bool

    ghost predicate Valid()
      reads scheduler.queues, scheduler.credits
    {
      scheduler.Valid()
    }

    ghost function View(open: bool): Session
      requires Valid()
      reads this, link, link.noise, acc, scheduler.queues, scheduler.credits
    {
      Session(link.View(), acc.View(), scheduler.View(), inbox, heartbeatDeadline, waitingForPong, open)
    }

    constructor (link: Link, cfg: Settings, now: nat)
      ensures Valid() && this.link == link && this.cfg == cfg
      ensures fresh(acc) && fresh(scheduler.queues) && fresh(scheduler.credits)
      ensures View(true) == Starting(link.View(), cfg, now)
    {
      this.link, this.cfg := link, cfg;
      acc := new FrameAccumulator();
      scheduler := new WfqScheduler<Frame>();
      heartbeatDeadline, waitingForPong := now + cfg.heartbeat.interval, false;
      inbox := [];
    }

    /** A WebSocket message; anything but Binary ends the loop. */
    method OnIncoming(packet: Option<Packet>, inboxOpen: bool, now: nat) returns (go: bool)
      requires Valid()
      modifies this, link.noise, acc, scheduler.queues
      ensures Valid() && View(go) == AfterTurn(old(View(true)), Incoming(packet, inboxOpen), cfg, now)
    {
      if packet.None? {
        return false;
      }
      heartbeatDeadline := now + cfg.heartbeat.interval;
      waitingForPong := false;
      var frame := ReceivePacket(packet.value, link.noise, acc, cfg.maxBytes);
      if frame.Err? {
        return false;
      }
      if frame.value.None? {
        return true;
      }
      go := OnFrame(frame.value.value, inboxOpen);
    }

    /** A decoded frame. */
    method OnFrame(frame: Frame, inboxOpen: bool) returns (go: bool)
      requires Valid()
      modifies this`inbox, scheduler.queues
      ensures Valid() && View(go) == AfterFrame(old(View(true)), frame, inboxOpen)
    {
      match frame.kind {
        case Ping => scheduler.Enqueue(PONG, RealTime);
        case Pong =>
        case _ =>
          if !inboxOpen {
            return false;
          }
          inbox := inbox + [frame];
      }
      return true;
    }

    /** A Send command: its frame is queued, and everything queued is sent. */
    method OnSend(frame: Frame, priority: MessagePriority) returns (go: bool)
      requires Valid()
      modifies link, link.noise, scheduler.queues, scheduler.credits
      ensures Valid() && View(go) == AfterSend(old(View(true)), frame, priority)
    {
      scheduler.Enqueue(frame, priority);
      go := Drain(link, scheduler);
    }

    /** The heartbeat arm; a Ping that cannot be sent is not an error. */
    method OnHeartbeat(now: nat) returns (go: bool)
      requires Valid() && now >= heartbeatDeadline
      modifies this`heartbeatDeadline, this`waitingForPong, link, link.noise
      ensures Valid() && View(go) == AfterMiss(old(View(true)), cfg, now)
    {
      if waitingForPong {
        return false;
      }
      var _ := link.SendFrame(PING);
      waitingForPong := true;
      heartbeatDeadline := now + cfg.heartbeat.timeout;
      return true;
    }

    /** One turn of the loop. */
    method OnSelect(select: Select, now: nat) returns (go: bool)
      requires Valid()
      modifies this, link, link.noise, acc, scheduler.queues, scheduler.credits
      ensures Valid() && View(go) == AfterTurn(old(View(true)), select, cfg, now)
    {
      match select {
        case Incoming(packet, inboxOpen) => go := OnIncoming(packet, inboxOpen, now);
        case Command(cmd) =>
          match cmd {
            case Send(frame, priority) => go := OnSend(frame, priority);
            case Close => go := false;
          }
        case HeartbeatDue =>
          go := true;
          if now >= heartbeatDeadline {
            go := OnHeartbeat(now);
          }
      }
    }

    /** The session loop: turn after turn, until an arm breaks. */
    method Run(script: Script) returns (go: bool)
      requires Valid()
      modifies this, link, link.noise, acc, scheduler.queues, scheduler.credits
      ensures Valid() && View(go) == AfterTurns(old(View(true)), script, cfg)
    {
      ghost var start := View(true);
      go := true;
      var k := 0;
      assert script[..0] == [];
      while go && k < |script|
        invariant Valid() && k <= |script|
        invariant View(go) == AfterTurns(start, script[..k], cfg)
      {
        go := OnSelect(script[k].0, script[k].1);
        OneMoreTurn(start, script, k, cfg);
        k := k + 1;
      }
      if go {
        assert script[..k] == script;
      } else {
        EndedStays(start, script, k, cfg);
      }
    }
  }
}
