/**
 What a server session guarantees over any number of turns: its Pongs, its inbox, its wire, its
 heartbeat (src/ws/server/session.rs).
 */
module SessionRuns {
  import opened Basics
  import opened Scheduler
  import opened Frames
  import opened Noise
  import opened ReceivePath
  import opened Receiving
  import opened Links
  import opened Drains
  import opened Sessions
  import Heartbeat

  /** The Pongs that wait in the scheduler. */
  ghost function Waiting(v: Session): nat {
    |v.sched.realTime.queue|
  }

  /** Every select point: classes 1 to 3 are empty, class 0 holds only Pongs, and the credits are full. */
  ghost predicate AtSelect(v: Session) {
    v.sched == PongQueue(Waiting(v))
  }

  /** The frame a turn decodes, if any. */
  ghost function DecodedIn(v: Session, select: Select, cfg: Settings): seq<Frame> {
    if !v.open || !select.Incoming? || select.packet.None? then []
    else match Received(v.line.state, v.acc, select.packet.value, cfg.maxBytes)
      case Ok(Some(frame)) => [frame]
      case Ok(None) => []
      case Err(_) => []
  }

  /** The frames a turn serves from the scheduler: a Send's own, and the Pongs around it. */
  ghost function ServedIn(v: Session, select: Select): seq<Frame> {
    if v.open && select.Command? && select.cmd.Send? then AfterPongs(Waiting(v), select.cmd.frame, select.cmd.priority) else []
  }

  /** The frames a turn hands to the line: those it serves, and the heartbeat's Ping. */
  ghost function OfferedIn(v: Session, select: Select, now: nat): seq<Frame> {
    if v.open && select.HeartbeatDue? && now >= v.deadline && !v.waitingForPong then [PING] else ServedIn(v, select)
  }

  ghost function Decoded(v: Session, script: Script, cfg: Settings): seq<Frame> {
    if |script| == 0 then []
    else
      var init, last := script[..|script| - 1], script[|script| - 1];
      Decoded(v, init, cfg) + DecodedIn(AfterTurns(v, init, cfg), last.0, cfg)
  }

  ghost function Served(v: Session, script: Script, cfg: Settings): seq<Frame> {
    if |script| == 0 then []
    else
      var init, last := script[..|script| - 1], script[|script| - 1];
      Served(v, init, cfg) + ServedIn(AfterTurns(v, init, cfg), last.0)
  }

  ghost function Offered(v: Session, script: Script, cfg: Settings): seq<Frame> {
    if |script| == 0 then []
    else
      var init, last := script[..|script| - 1], script[|script| - 1];
      Offered(v, init, cfg) + OfferedIn(AfterTurns(v, init, cfg), last.0, last.1)
  }

  ghost function SentBy(select: Select): seq<Frame> {
    if select.Command? && select.cmd.Send? then [select.cmd.frame] else []
  }

  /** The frames of the Send commands. */
  ghost function SendFrames(script: Script): seq<Frame> {
    if |script| == 0 then [] else SendFrames(script[..|script| - 1]) + SentBy(script[|script| - 1].0)
  }

  ghost function Pings(fs: seq<Frame>): nat {
    if |fs| == 0 then 0 else Pings(fs[..|fs| - 1]) + if fs[|fs| - 1].kind.Ping? then 1 else 0
  }

  /** The frames that are not the heartbeat's. */
  ghost function ForInbox(fs: seq<Frame>): seq<Frame> {
    if |fs| == 0 then []
    else ForInbox(fs[..|fs| - 1]) + if fs[|fs| - 1].kind.Ping? || fs[|fs| - 1].kind.Pong? then [] else [fs[|fs| - 1]]
  }

  // ------------------------------------------------------------------
  // Pongs, order and inbox
  // ------------------------------------------------------------------

  /** What is kept of a session open so far: the Pongs owed, what was served and what was delivered. */
  ghost predicate Kept(v: Session, t: Session, decoded: seq<Frame>, served: seq<Frame>, asked: seq<Frame>) {
    && AtSelect(t)
    && Pongs(served) + Waiting(t) == Waiting(v) + Pings(decoded) + Pongs(asked)
    && Others(served) == Others(asked)
    && t.inbox == v.inbox + ForInbox(decoded)
  }

  lemma DecodedSnoc(fs: seq<Frame>, frame: Frame)
    ensures Pings(fs + [frame]) == Pings(fs) + (if frame.kind.Ping? then 1 else 0)
    ensures ForInbox(fs + [frame]) == ForInbox(fs) + (if frame.kind.Ping? || frame.kind.Pong? then [] else [frame])
  {
    assert (fs + [frame])[..|fs|] == fs;
  }

  lemma FrameKeeps(v: Session, t: Session, decoded: seq<Frame>, served: seq<Frame>, asked: seq<Frame>, frame: Frame, inboxOpen: bool)
    requires Kept(v, t, decoded, served, asked) && AfterFrame(t, frame, inboxOpen).open
    ensures Kept(v, AfterFrame(t, frame, inboxOpen), decoded + [frame], served, asked)
  {
    DecodedSnoc(decoded, frame);
    if frame.kind.Ping? {
      assert Copies(PONG, Waiting(t)) + [PONG] == Copies(PONG, Waiting(t) + 1);
    } else if !frame.kind.Pong? {
      assert v.inbox + (ForInbox(decoded) + [frame]) == (v.inbox + ForInbox(decoded)) + [frame];
    }
  }

  lemma IncomingKeeps(v: Session, t: Session, decoded: seq<Frame>, served: seq<Frame>, asked: seq<Frame>, packet: Packet, inboxOpen: bool, cfg: Settings, now: nat)
    requires t.open && Kept(v, t, decoded, served, asked) && AfterIncoming(t, packet, inboxOpen, cfg, now).open
    ensures Kept(v, AfterIncoming(t, packet, inboxOpen, cfg, now), decoded + DecodedIn(t, Incoming(Some(packet), inboxOpen), cfg), served, asked)
  {
    var fed := AfterPacket(t, packet, cfg, now);
    assert decoded + [] == decoded;
    match Received(t.line.state, t.acc, packet, cfg.maxBytes)
    case Ok(Some(frame)) => FrameKeeps(v, fed, decoded, served, asked, frame, inboxOpen);
    case Ok(None) =>
    case Err(_) =>
  }

  lemma SendKeeps(v: Session, t: Session, decoded: seq<Frame>, served: seq<Frame>, asked: seq<Frame>, frame: Frame, priority: MessagePriority)
    requires Kept(v, t, decoded, served, asked) && AfterSend(t, frame, priority).open
    ensures Kept(v, AfterSend(t, frame, priority), decoded, served + AfterPongs(Waiting(t), frame, priority), asked + [frame])
  {
    FlushIs(t.line, t.sched.Enqueued(frame, priority.Index()));
    PongsAfterPongs(Waiting(t), frame, priority);
    PongsAppend(served, AfterPongs(Waiting(t), frame, priority));
    PongsAppend(asked, [frame]);
    OthersAfterPongs(Waiting(t), frame, priority);
    OthersAppend(served, AfterPongs(Waiting(t), frame, priority));
    OthersAppend(asked, [frame]);
    assert NewWfq<Frame>() == PongQueue(0) by {
      assert Copies(PONG, 0) == [];
    }
  }

  lemma TurnKeeps(v: Session, t: Session, decoded: seq<Frame>, served: seq<Frame>, asked: seq<Frame>, select: Select, cfg: Settings, now: nat)
    requires t.open && Kept(v, t, decoded, served, asked) && AfterTurn(t, select, cfg, now).open
    ensures Kept(v, AfterTurn(t, select, cfg, now), decoded + DecodedIn(t, select, cfg), served + ServedIn(t, select), asked + SentBy(select))
  {
    assert decoded + [] == decoded && served + [] == served && asked + [] == asked;
    match select
    case Incoming(Some(packet), inboxOpen) => IncomingKeeps(v, t, decoded, served, asked, packet, inboxOpen, cfg, now);
    case Incoming(None, _) =>
    case Command(Send(frame, priority)) => SendKeeps(v, t, decoded, served, asked, frame, priority);
    case Command(Close) =>
    case HeartbeatDue =>
  }

  /**
   As long as the session goes on: the Pongs served and those waiting are one for every Ping decoded,
   besides any the application sends itself; apart from Pongs, what is served is the frames of the
   Send commands, each once and in order; the inbox gets every other frame decoded, in order.
   */
  lemma {:induction false} SelectPoint(v: Session, script: Script, cfg: Settings)
    requires AtSelect(v) && AfterTurns(v, script, cfg).open
    ensures Kept(v, AfterTurns(v, script, cfg), Decoded(v, script, cfg), Served(v, script, cfg), SendFrames(script))
  {
    if |script| == 0 {
      assert v.inbox + [] == v.inbox;
    } else {
      var init, last := script[..|script| - 1], script[|script| - 1];
      SelectPoint(v, init, cfg);
      TurnKeeps(v, AfterTurns(v, init, cfg), Decoded(v, init, cfg), Served(v, init, cfg), SendFrames(init), last.0, cfg, last.1);
    }
  }

  // ------------------------------------------------------------------
  // The wire
  // ------------------------------------------------------------------

  /** A Send leaves the session open exactly when the line affords its frame and the Pongs that go with it. */
  lemma SendGoesOn(v: Session, frame: Frame, priority: MessagePriority, cfg: Settings, now: nat)
    requires v.open && AtSelect(v) && Ready(v.line.state)
    ensures var out := Plain(AfterPongs(Waiting(v), frame, priority));
            AfterTurn(v, Command(Send(frame, priority)), cfg, now).open <==> Affords(v.line, |out|)
  {
    SendLine(v, frame, priority);
    SentAllIs(v.line, AfterPongs(Waiting(v), frame, priority));
  }

  lemma SendLine(v: Session, frame: Frame, priority: MessagePriority)
    requires AtSelect(v)
    ensures var out, t := AfterPongs(Waiting(v), frame, priority), AfterSend(v, frame, priority);
            t.line == SentAll(v.line, out) && (t.open <==> SendsAll(v.line, out))
  {
    DrainPongsAndFrame(Waiting(v), frame, priority);
    FlushIs(v.line, v.sched.Enqueued(frame, priority.Index()));
  }

  /** What was added to a line is exactly these chunks' packets; receiving may have moved the session on, or stopped it. */
  ghost predicate Exactly(l: Line, chunks: seq<seq<byte>>, l': Line)
    requires Ready(l.state)
  {
    var s := l.state.value;
    && Affords(l, |chunks|) && l'.left == l.left - |chunks|
    && l'.wire == l.wire + Seals(s.keys, s.role, s.sendNonce, chunks)
    && (l'.state.Some? ==> Ready(l'.state) && SameSession(s, l'.state.value) && l'.state.value.sendNonce == s.sendNonce + |chunks|)
  }

  ghost predicate SameSession(s: NoiseState, t: NoiseState)
    requires s.Transport? && t.Transport?
  {
    s.keys == t.keys && s.role == t.role
  }

  /** Exactly the chunks' packets when the line affords them, and otherwise fewer. */
  ghost predicate Carries(l: Line, chunks: seq<seq<byte>>, l': Line)
    requires Ready(l.state)
  {
    if Affords(l, |chunks|) then Exactly(l, chunks, l') else FallsShort(l, chunks, l')
  }

  lemma ReceiveCarries(l: Line, chunks: seq<seq<byte>>, l': Line, packet: Packet, room: nat)
    requires Ready(l.state) && Carries(l, chunks, l')
    ensures Carries(l, chunks, l'.(state := AfterOpen(l'.state, packet, room)))
  {
  }

  lemma ExactlyTwice(l: Line, a: seq<seq<byte>>, mid: Line, b: seq<seq<byte>>)
    requires Ready(l.state) && Exactly(l, a, mid) && mid.state.Some?
    ensures Affords(mid, |b|) <==> Affords(l, |a + b|)
    ensures Affords(mid, |b|) ==> Exactly(l, a + b, Carried(mid, b))
  {
    var s := l.state.value;
    if Affords(mid, |b|) {
      SealsAppend(s, a, b);
      Assoc(l.wire, Seals(s.keys, s.role, s.sendNonce, a), Seals(s.keys, s.role, s.sendNonce + |a|, b));
    }
  }

  lemma ExactlyThenShort(l: Line, a: seq<seq<byte>>, mid: Line, b: seq<seq<byte>>, l': Line)
    requires Ready(l.state) && Exactly(l, a, mid) && mid.state.Some? && FallsShort(mid, b, l')
    ensures FallsShort(l, a + b, l')
  {
    assert FallsShort(Carried(l, a), b, l');
    ShortAfter(l, a, b, l');
  }

  lemma {:induction false} BrokenAll(l: Line, frames: seq<Frame>)
    requires Broken(l)
    ensures Broken(SentAll(l, frames)) && SentAll(l, frames).wire == l.wire
    decreases |frames|
  {
    if |frames| > 0 {
      BrokenStays(l, frames[0]);
      if Sends(l, frames[0]) {
        BrokenAll(Sent(l, frames[0]), frames[1..]);
      }
    }
  }

  lemma OfferCarries(l: Line, a: seq<seq<byte>>, mid: Line, frames: seq<Frame>)
    requires Ready(l.state) && Carries(l, a, mid)
    requires mid.state.None? ==> !Affords(l, |a|)
    ensures Carries(l, a + Plain(frames), SentAll(mid, frames))
    ensures Affords(l, |a + Plain(frames)|) ==> SentAll(mid, frames).state.Some?
  {
    var b := Plain(frames);
    if Affords(l, |a|) {
      ExactlyTwice(l, a, mid, b);
      SentAllIs(mid, frames);
      if !Affords(mid, |b|) {
        SentAllShort(mid, frames);
        ExactlyThenShort(l, a, mid, b, SentAll(mid, frames));
      }
    } else {
      BrokenAll(mid, frames);
      ShortBefore(l, a, b, mid);
    }
  }

  /** `next` is what the line has come to once `a` and then the chunks of these frames were handed to it. */
  ghost predicate Moves(l: Line, a: seq<seq<byte>>, frames: seq<Frame>, next: Line, open: bool)
    requires Ready(l.state)
  {
    forall all | all == a + Plain(frames) :: Carries(l, all, next) && (open && next.state.None? ==> !Affords(l, |all|))
  }

  lemma NoneOffered(l: Line, a: seq<seq<byte>>, next: Line, open: bool)
    requires Ready(l.state) && Carries(l, a, next) && (open && next.state.None? ==> !Affords(l, |a|))
    ensures Moves(l, a, [], next, open)
  {
    assert a + Plain([]) == a;
  }

  lemma OfferMoves(l: Line, a: seq<seq<byte>>, mid: Line, frames: seq<Frame>, open: bool)
    requires Ready(l.state) && Carries(l, a, mid)
    requires mid.state.None? ==> !Affords(l, |a|)
    ensures Moves(l, a, frames, SentAll(mid, frames), open)
  {
    OfferCarries(l, a, mid, frames);
  }

  lemma IncomingMoves(l: Line, a: seq<seq<byte>>, v: Session, packet: Packet, inboxOpen: bool, cfg: Settings, now: nat)
    requires Ready(l.state) && Carries(l, a, v.line) && v.open
    requires v.line.state.None? ==> !Affords(l, |a|)
    ensures var t := AfterIncoming(v, packet, inboxOpen, cfg, now); Moves(l, a, [], t.line, t.open)
  {
    var t := AfterIncoming(v, packet, inboxOpen, cfg, now);
    assert t.line == v.line.(state := AfterOpen(v.line.state, packet, packet.Len()));
    assert t.open ==> Opened(v.line.state, packet, packet.Len()).Ok?;
    ReceiveCarries(l, a, v.line, packet, packet.Len());
    NoneOffered(l, a, t.line, t.open);
  }

  /** One turn hands its frames to the line, and its packet, if one came, to the session's receiving half. */
  lemma TurnMoves(l: Line, a: seq<seq<byte>>, v: Session, select: Select, cfg: Settings, now: nat)
    requires Ready(l.state) && Carries(l, a, v.line) && AtSelect(v) && v.open
    requires v.line.state.None? ==> !Affords(l, |a|)
    ensures var t := AfterTurn(v, select, cfg, now); Moves(l, a, OfferedIn(v, select, now), t.line, t.open)
  {
    match select
    case Incoming(Some(packet), inboxOpen) => IncomingMoves(l, a, v, packet, inboxOpen, cfg, now);
    case Incoming(None, _) => NoneOffered(l, a, v.line, false);
    case Command(Send(frame, priority)) =>
      SendLine(v, frame, priority);
      OfferMoves(l, a, v.line, AfterPongs(Waiting(v), frame, priority), AfterSend(v, frame, priority).open);
    case Command(Close) => NoneOffered(l, a, v.line, false);
    case HeartbeatDue =>
      var t := AfterTurn(v, select, cfg, now);
      if t.line == v.line && OfferedIn(v, select, now) == [] {
        NoneOffered(l, a, v.line, t.open);
      } else {
        PingLine(v.line);
        OfferMoves(l, a, v.line, [PING], true);
      }
  }

  lemma PingLine(l: Line)
    ensures SentAll(l, [PING]) == Sent(l, PING)
  {
    assert [PING][1..] == [];
  }

  /**
   The wire, over any turns: it gets the packets of exactly the frames offered, the scheduler's and the
   heartbeat's Pings in their order, if and only if the sends and the nonces last for all of them; if
   they do not, it gets part of those packets, from the first on.
   */
  lemma {:induction false} WireIs(v: Session, script: Script, cfg: Settings)
    requires AtSelect(v) && v.open && Ready(v.line.state)
    ensures var out, t := Plain(Offered(v, script, cfg)), AfterTurns(v, script, cfg);
            && Carries(v.line, out, t.line)
            && (t.open && t.line.state.None? ==> !Affords(v.line, |out|))
  {
    if |script| == 0 {
      assert v.line.wire + [] == v.line.wire;
    } else {
      var init, last := script[..|script| - 1], script[|script| - 1];
      var mid := AfterTurns(v, init, cfg);
      WireIs(v, init, cfg);
      PlainAppend(Offered(v, init, cfg), OfferedIn(mid, last.0, last.1));
      if mid.open {
        SelectPoint(v, init, cfg);
        TurnMoves(v.line, Plain(Offered(v, init, cfg)), mid, last.0, cfg, last.1);
      } else {
        NoneOffered(v.line, Plain(Offered(v, init, cfg)), mid.line, false);
      }
    }
  }

  // ------------------------------------------------------------------
  // The heartbeat
  // ------------------------------------------------------------------

  /** What a turn is to the heartbeat. */
  ghost function Beat(select: Select): Heartbeat.Event {
    match select
    case Incoming(_, _) => Heartbeat.Message
    case Command(_) => Heartbeat.Command
    case HeartbeatDue => Heartbeat.Fire
  }

  /** The time of the last turn. */
  ghost function TimeOf(script: Script, start: nat): nat {
    if |script| == 0 then start else script[|script| - 1].1
  }

  /** Time never goes back from one turn to the next. */
  ghost predicate Timed(script: Script, start: nat) {
    |script| > 0 ==>
      && TimeOf(script[..|script| - 1], start) <= script[|script| - 1].1
      && Timed(script[..|script| - 1], start)
  }

  /** The turns as a run of the heartbeat: the time between two turns, and what the turn is. */
  ghost function Beats(script: Script, start: nat): seq<Heartbeat.Event>
    requires Timed(script, start)
  {
    if |script| == 0 then []
    else
      var init, last := script[..|script| - 1], script[|script| - 1];
      Beats(init, start) + [Heartbeat.Late(last.1 - TimeOf(init, start))] + [Beat(last.0)]
  }

  /** The heartbeat has closed the session, and no Binary message has come for at least interval + timeout. */
  ghost predicate Silent(cfg: Heartbeat.Config, start: nat, beats: seq<Heartbeat.Event>, now: nat) {
    var b := Heartbeat.Run(cfg, Heartbeat.Started(cfg, start), beats);
    b.closed && now - b.lastRecv >= cfg.interval + cfg.timeout
  }

  lemma TurnBeats(v: Session, select: Select, cfg: Settings, now: nat)
    requires v.open
    ensures var t := AfterTurn(v, select, cfg, now);
            t.open || select.HeartbeatDue? ==>
              Heartbeat.Arm(cfg.heartbeat, now, v.deadline, v.waitingForPong, Beat(select), t.deadline, t.waitingForPong, t.open)
  {
  }

  /** What has become of the heartbeat after some turns: it goes on, or the last turn was its end. */
  ghost predicate Beaten(t: Session, ended: bool, cfg: Heartbeat.Config, start: nat, beats: seq<Heartbeat.Event>, now: nat) {
    && (t.open ==> Heartbeat.Follows(cfg, start, beats, now, t.deadline, t.waitingForPong))
    && (ended ==> Silent(cfg, start, beats, now))
  }

  lemma TurnBeaten(v: Session, select: Select, cfg: Settings, start: nat, beats: seq<Heartbeat.Event>, before: nat, now: nat)
    requires v.open && before <= now && Heartbeat.Follows(cfg.heartbeat, start, beats, before, v.deadline, v.waitingForPong)
    ensures var t := AfterTurn(v, select, cfg, now);
            Beaten(t, !t.open && select.HeartbeatDue?, cfg.heartbeat, start, beats + [Heartbeat.Late(now - before)] + [Beat(select)], now)
  {
    var t := AfterTurn(v, select, cfg, now);
    if t.open || select.HeartbeatDue? {
      TurnBeats(v, select, cfg, now);
      Heartbeat.ArmFollows(cfg.heartbeat, start, beats, before, v.deadline, v.waitingForPong, now, Beat(select), t.deadline, t.waitingForPong, t.open);
    }
  }

  lemma BeatsSnoc(script: Script, start: nat)
    requires |script| > 0 && Timed(script, start)
    ensures var init, last := script[..|script| - 1], script[|script| - 1];
            Beats(script, start) == Beats(init, start) + [Heartbeat.Late(last.1 - TimeOf(init, start))] + [Beat(last.0)]
  {
  }

  /** Whether the last turn was the end, and by the heartbeat. */
  ghost predicate EndedByHeartbeat(v: Session, script: Script, cfg: Settings) {
    && |script| > 0 && script[|script| - 1].0.HeartbeatDue?
    && AfterTurns(v, script[..|script| - 1], cfg).open && !AfterTurns(v, script, cfg).open
  }

  /**
   The deadline and the flag follow a run of the heartbeat, so all that holds of its runs holds here;
   a session that the heartbeat ends has had no message for at least interval + timeout.
   */
  lemma {:induction false} HeartbeatFollows(line: Line, script: Script, cfg: Settings, start: nat)
    requires Timed(script, start)
    ensures var v := Starting(line, cfg, start);
            Beaten(AfterTurns(v, script, cfg), EndedByHeartbeat(v, script, cfg), cfg.heartbeat, start, Beats(script, start), TimeOf(script, start))
  {
    var v := Starting(line, cfg, start);
    if |script| > 0 {
      var init, last := script[..|script| - 1], script[|script| - 1];
      var mid := AfterTurns(v, init, cfg);
      HeartbeatFollows(line, init, cfg, start);
      BeatsSnoc(script, start);
      if mid.open {
        TurnBeaten(mid, last.0, cfg, start, Beats(init, start), TimeOf(init, start), last.1);
      }
    }
  }
}
