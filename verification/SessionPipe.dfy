/**
 The server's session as one end of the pipe: its turns are runs of the pipe's atomic steps, so what is
 proved of every interleaving there holds of the loop (src/ws/server/session.rs).
 */
module SessionPipe {
  import opened Basics
  import opened Scheduler
  import opened Frames
  import opened Noise
  import opened ReceivePath
  import opened Receiving
  import opened Links
  import opened Drains
  import Commands
  import opened Sessions
  import opened SessionRuns
  import P = Pipe
  import SchedulerRuns
  import C = ClientDrain

  /** A step of this end. */
  function Ours(act: P.Act): seq<P.Event> {
    [P.Event(true, act)]
  }

  function Pushes(n: nat): seq<P.Event> {
    Copies(P.Event(true, P.Push), n)
  }

  lemma {:induction false} RunAppend(net: P.Net, a: seq<P.Event>, b: seq<P.Event>)
    ensures P.Run(net, a + b) == P.Run(P.Run(net, a), b)
    decreases |b|
  {
    if |b| == 0 {
      assert a + b == a;
    } else {
      RunAppend(net, a, b[..|b| - 1]);
      assert (a + b)[..|a + b| - 1] == a + b[..|b| - 1];
    }
  }

  lemma OneStep(net: P.Net, act: P.Act)
    ensures P.Run(net, Ours(act)) == P.StepHere(net, act)
  {
    assert Ours(act)[..0] == [];
    assert P.Run(net, []) == net;
  }

  /** All that is pending reaches the channel. */
  lemma {:induction false} PushAll(net: P.Net)
    requires net.here.alive
    ensures P.Run(net, Pushes(|net.here.pending|))
         == net.(here := net.here.(pending := []), outbound := net.outbound + net.here.pending)
    decreases |net.here.pending|
  {
    var e := net.here;
    if |e.pending| == 0 {
      assert net.outbound + [] == net.outbound;
    } else {
      var next := P.StepHere(net, P.Push);
      PushAll(next);
      OneStep(net, P.Push);
      RunAppend(net, Ours(P.Push), Pushes(|e.pending| - 1));
      assert Ours(P.Push) + Pushes(|e.pending| - 1) == Pushes(|e.pending|);
      assert (net.outbound + [e.pending[0]]) + e.pending[1..] == net.outbound + e.pending;
    }
  }

  /** This end of the pipe once a frame has been sealed and its packets have gone out. */
  ghost function Gone(net: P.Net, s: P.Sent, l: Line): P.Net {
    net.(here := net.here.(noise := Sent(l, s.Frame()).state, sent := net.here.sent + [s], sealed := net.here.sealed + FrameChunks(s.Frame())),
         outbound := net.outbound + Added(l, Sent(l, s.Frame())))
  }

  /** What one line has more than another. */
  ghost function Added(l: Line, l': Line): seq<Packet> {
    if |l.wire| <= |l'.wire| then l'.wire[|l.wire|..] else []
  }

  lemma {:induction false} PacketEach(state: State, chunks: seq<seq<byte>>)
    requires EncryptAll(state, chunks).Ok?
    ensures |EncryptAll(state, chunks).value| == |chunks|
    decreases |chunks|
  {
    if |chunks| > 0 {
      PacketEach(AfterWrite(state, chunks[0], |chunks[0]| + TAG), chunks[1..]);
    }
  }

  lemma SealAndPush(net: P.Net, s: P.Sent, l: Line)
    requires net.here.alive && net.here.pending == [] && net.here.noise == l.state && Sends(l, s.Frame())
    ensures var sealed := net.(here := P.Seal(net.here, s));
            P.Run(sealed, Pushes(|FrameChunks(s.Frame())|)) == Gone(net, s, l)
  {
    var sealed := net.(here := P.Seal(net.here, s));
    PacketEach(l.state, FrameChunks(s.Frame()));
    PushAll(sealed);
    assert Sent(l, s.Frame()).wire[|l.wire|..] == sealed.here.pending;
  }

  // ------------------------------------------------------------------
  // A session and its end of the pipe
  // ------------------------------------------------------------------

  /** An end that is between two turns, with this line, scheduler and accumulator. */
  ghost predicate Matches(e: P.Endpoint, l: Line, s: Wfq<Frame>, acc: Acc, maxBytes: nat) {
    e.alive && e.pending == [] && e.noise == l.state && e.sched == s && e.acc == acc && e.maxBytes == maxBytes
  }

  ghost predicate Shows(e: P.Endpoint, v: Session, cfg: Settings) {
    e.pending == [] && if v.open then Matches(e, v.line, v.sched, v.acc, cfg.maxBytes) else !e.alive
  }

  /** What has passed this end: frames handed to the cipher, packets sent and taken, frames decoded. */
  ghost predicate Moved(net: P.Net, net': P.Net, l: Line, l': Line, frames: seq<Frame>, decoded: seq<Frame>, taken: nat) {
    && net'.there == net.there
    && l.wire <= l'.wire && net'.outbound == net.outbound + Added(l, l')
    && P.FramesOf(net'.here.sent) == P.FramesOf(net.here.sent) + frames
    && net'.here.received == net.here.received + decoded
    && taken <= |net.inbound| && net'.inbound == net.inbound[taken..]
  }

  lemma NotMoved(net: P.Net, net': P.Net, l: Line, l': Line)
    requires l'.wire == l.wire && net' == net.(here := net'.here)
    requires net'.here.sent == net.here.sent && net'.here.received == net.here.received
    ensures Moved(net, net', l, l', [], [], 0)
  {
    assert net.outbound + [] == net.outbound && net.inbound[0..] == net.inbound;
    assert P.FramesOf(net.here.sent) + [] == P.FramesOf(net.here.sent) && net.here.received + [] == net.here.received;
  }

  lemma MovedTwice(net: P.Net, mid: P.Net, net': P.Net, l: Line, m: Line, l': Line,
                   f: seq<Frame>, g: seq<Frame>, d: seq<Frame>, d': seq<Frame>, j: nat, k: nat)
    requires Moved(net, mid, l, m, f, d, j) && Moved(mid, net', m, l', g, d', k)
    ensures Moved(net, net', l, l', f + g, d + d', j + k)
  {
    assert Added(l, l') == Added(l, m) + Added(m, l');
    Assoc(net.outbound, Added(l, m), Added(m, l'));
    Assoc(P.FramesOf(net.here.sent), f, g);
    Assoc(net.here.received, d, d');
    assert net.inbound[j..][k..] == net.inbound[j + k..];
  }

  lemma GoneMoved(net: P.Net, s: P.Sent, l: Line)
    requires Sends(l, s.Frame())
    ensures Moved(net, Gone(net, s, l), l, Sent(l, s.Frame()), [s.Frame()], [], 0)
  {
    assert P.FramesOf(net.here.sent + [s]) == P.FramesOf(net.here.sent) + [s.Frame()];
    assert net.inbound[0..] == net.inbound && net.here.received + [] == net.here.received;
  }

  /** The steps of one round of a drain: the next frame is sealed, and its packets go out. */
  ghost function RoundEvents(frame: Frame): seq<P.Event> {
    Ours(P.Transmit) + Pushes(|FrameChunks(frame)|)
  }

  lemma RoundSteps(net: P.Net, l: Line, s: Wfq<Frame>, acc: Acc, maxBytes: nat)
    requires Matches(net.here, l, s, acc, maxBytes) && NextExit(l, s).Going?
    ensures var net' := P.Run(net, RoundEvents(s.Popped().value.item));
            && Matches(net'.here, NextLine(l, s), s.AfterPop(), acc, maxBytes)
            && Moved(net, net', l, NextLine(l, s), [s.Popped().value.item], [], 0)
  {
    var popped, out := net.(here := net.here.(sched := s.AfterPop())), P.FromQueue(s.Popped().value);
    OneStep(net, P.Transmit);
    RunAppend(net, Ours(P.Transmit), Pushes(|FrameChunks(out.Frame())|));
    SealAndPush(popped, out, l);
    GoneMoved(popped, out, l);
  }

  /** The steps of a drain: a round for every frame, and a last look at the scheduler. */
  ghost function FlushEvents(frames: seq<Frame>): seq<P.Event> {
    if |frames| == 0 then Ours(P.Transmit) else RoundEvents(frames[0]) + FlushEvents(frames[1..])
  }

  /** A drain whose frames can all be sent. */
  lemma {:induction false} FlushSteps(net: P.Net, l: Line, s: Wfq<Frame>, acc: Acc, maxBytes: nat)
    requires Matches(net.here, l, s, acc, maxBytes) && SendsAll(l, Drained(s))
    ensures var net' := P.Run(net, FlushEvents(Drained(s)));
            && Matches(net'.here, SentAll(l, Drained(s)), NewWfq(), acc, maxBytes)
            && Moved(net, net', l, SentAll(l, Drained(s)), Drained(s), [], 0)
    decreases s.Len()
  {
    PopSomeIffQueued(s);
    if s.Popped().None? {
      OneStep(net, P.Transmit);
      NotMoved(net, P.Run(net, Ours(P.Transmit)), l, l);
    } else {
      var frame, rest := s.Popped().value.item, Drained(s.AfterPop());
      assert Drained(s) == [frame] + rest && Drained(s)[1..] == rest;
      RoundSteps(net, l, s, acc, maxBytes);
      var mid := P.Run(net, RoundEvents(frame));
      FlushSteps(mid, NextLine(l, s), s.AfterPop(), acc, maxBytes);
      RunAppend(net, RoundEvents(frame), FlushEvents(rest));
      MovedTwice(net, mid, P.Run(net, FlushEvents(Drained(s))), l, NextLine(l, s), SentAll(l, Drained(s)), [frame], rest, [], [], 0, 0);
    }
  }

  // ------------------------------------------------------------------
  // Turns
  // ------------------------------------------------------------------

  /** The packet a turn takes. */
  ghost function TakenIn(v: Session, select: Select): seq<Packet> {
    if v.open && select.Incoming? && select.packet.Some? then [select.packet.value] else []
  }

  /** Two nets, and what one turn has made of the first. */
  ghost predicate Turned(net: P.Net, net': P.Net, v: Session, select: Select, cfg: Settings, now: nat) {
    var t := AfterTurn(v, select, cfg, now);
    && Shows(net'.here, t, cfg)
    && Moved(net, net', v.line, t.line, OfferedIn(v, select, now), DecodedIn(v, select, cfg), |TakenIn(v, select)|)
  }

  lemma StopSteps(net: P.Net, l: Line, l': Line)
    requires net.here.alive && net.here.pending == [] && l'.wire == l.wire
    ensures var net' := P.Run(net, Ours(P.Stop)); !net'.here.alive && net'.here.pending == [] && Moved(net, net', l, l', [], [], 0)
  {
    OneStep(net, P.Stop);
    NotMoved(net, P.Run(net, Ours(P.Stop)), l, l');
  }

  ghost function SendEvents(v: Session, frame: Frame, priority: MessagePriority): seq<P.Event> {
    Ours(P.Enqueue(frame, priority)) + FlushEvents(AfterPongs(Waiting(v), frame, priority))
  }

  ghost function FrameEvents(frame: Frame, inboxOpen: bool): seq<P.Event> {
    if frame.kind.Ping? then Ours(P.Enqueue(PONG, RealTime))
    else if frame.kind.Pong? || inboxOpen then []
    else Ours(P.Stop)
  }

  /** The steps a turn is at its end of the pipe. */
  ghost function TurnEvents(v: Session, select: Select, cfg: Settings, now: nat): seq<P.Event> {
    if !v.open then []
    else match select
      case Incoming(None, _) => Ours(P.Stop)
      case Incoming(Some(packet), inboxOpen) => Ours(P.Deliver) + AnswerEvents(Received(v.line.state, v.acc, packet, cfg.maxBytes), inboxOpen)
      case Command(Send(frame, priority)) => SendEvents(v, frame, priority)
      case Command(Close) => Ours(P.Stop)
      case HeartbeatDue =>
        if now < v.deadline then []
        else if v.waitingForPong then Ours(P.Stop)
        else Ours(P.Beat) + Pushes(|FrameChunks(PING)|)
  }

  ghost function AnswerEvents(got: Result<Option<Frame>, ReceiveError>, inboxOpen: bool): seq<P.Event> {
    match got
    case Ok(Some(frame)) => FrameEvents(frame, inboxOpen)
    case Ok(None) => []
    case Err(_) => []
  }

  /** A frame is queued, and then everything queued is sent. */
  lemma EnqueueAndFlush(net: P.Net, l: Line, s: Wfq<Frame>, acc: Acc, maxBytes: nat, frame: Frame, priority: MessagePriority)
    requires Matches(net.here, l, s, acc, maxBytes)
    requires SendsAll(l, Drained(s.Enqueued(frame, priority.Index())))
    ensures var out := Drained(s.Enqueued(frame, priority.Index()));
            var net' := P.Run(net, Ours(P.Enqueue(frame, priority)) + FlushEvents(out));
            Matches(net'.here, SentAll(l, out), NewWfq(), acc, maxBytes) && Moved(net, net', l, SentAll(l, out), out, [], 0)
  {
    var act, queued := P.Enqueue(frame, priority), s.Enqueued(frame, priority.Index());
    var mid, out := P.StepHere(net, act), Drained(queued);
    OneStep(net, act);
    NotMoved(net, mid, l, l);
    FlushSteps(mid, l, queued, acc, maxBytes);
    RunAppend(net, Ours(act), FlushEvents(out));
    MovedTwice(net, mid, P.Run(mid, FlushEvents(out)), l, l, SentAll(l, out), [], out, [], [], 0, 0);
    assert [] + out == out;
  }

  lemma SendSteps(net: P.Net, v: Session, frame: Frame, priority: MessagePriority, cfg: Settings, now: nat)
    requires v.open && AtSelect(v) && Shows(net.here, v, cfg)
    requires SendsAll(v.line, AfterPongs(Waiting(v), frame, priority))
    ensures Turned(net, P.Run(net, SendEvents(v, frame, priority)), v, Command(Send(frame, priority)), cfg, now)
  {
    DrainPongsAndFrame(Waiting(v), frame, priority);
    FlushIs(v.line, v.sched.Enqueued(frame, priority.Index()));
    EnqueueAndFlush(net, v.line, v.sched, v.acc, cfg.maxBytes, frame, priority);
  }

  lemma PingSteps(net: P.Net, v: Session, cfg: Settings, now: nat)
    requires v.open && Shows(net.here, v, cfg) && now >= v.deadline && !v.waitingForPong && Sends(v.line, PING)
    ensures Turned(net, P.Run(net, Ours(P.Beat) + Pushes(|FrameChunks(PING)|)), v, HeartbeatDue, cfg, now)
  {
    OneStep(net, P.Beat);
    RunAppend(net, Ours(P.Beat), Pushes(|FrameChunks(PING)|));
    SealAndPush(net, P.Heartbeat, v.line);
    GoneMoved(net, P.Heartbeat, v.line);
  }

  /** The pipe's receiving step and the session's receive arm. */
  lemma ReceiveIs(e: P.Endpoint, v: Session, packet: Packet, cfg: Settings, now: nat)
    requires Matches(e, v.line, v.sched, v.acc, cfg.maxBytes)
    ensures var t, fed, got := P.Receive(e, packet), AfterPacket(v, packet, cfg, now), Received(v.line.state, v.acc, packet, cfg.maxBytes);
            && t.sent == e.sent && t.pending == []
            && t.received == e.received + (if got.Ok? && got.value.Some? then [got.value.value] else [])
            && (if got.Ok? then Matches(t, fed.line, fed.sched, fed.acc, cfg.maxBytes) else !t.alive)
  {
    assert e.received + [] == e.received;
  }

  lemma DeliverSteps(net: P.Net, v: Session, packet: Packet, cfg: Settings, now: nat)
    requires Matches(net.here, v.line, v.sched, v.acc, cfg.maxBytes) && |net.inbound| > 0 && net.inbound[0] == packet
    ensures var net', fed, got := P.Run(net, Ours(P.Deliver)), AfterPacket(v, packet, cfg, now), Received(v.line.state, v.acc, packet, cfg.maxBytes);
            && Moved(net, net', v.line, fed.line, [], if got.Ok? && got.value.Some? then [got.value.value] else [], 1)
            && (if got.Ok? then Matches(net'.here, fed.line, fed.sched, fed.acc, cfg.maxBytes) else !net'.here.alive)
            && net'.here.pending == []
  {
    OneStep(net, P.Deliver);
    ReceiveIs(net.here, v, packet, cfg, now);
    assert net.outbound + [] == net.outbound;
    assert P.FramesOf(net.here.sent) + [] == P.FramesOf(net.here.sent);
  }

  /** What a decoded frame leads to after it was delivered. */
  lemma FrameSteps(net: P.Net, v: Session, frame: Frame, inboxOpen: bool, cfg: Settings)
    requires v.open && Shows(net.here, v, cfg)
    ensures var t, net' := AfterFrame(v, frame, inboxOpen), P.Run(net, FrameEvents(frame, inboxOpen));
            Shows(net'.here, t, cfg) && Moved(net, net', v.line, t.line, [], [], 0)
  {
    if frame.kind.Ping? {
      OneStep(net, P.Enqueue(PONG, RealTime));
      NotMoved(net, P.Run(net, Ours(P.Enqueue(PONG, RealTime))), v.line, v.line);
    } else if frame.kind.Pong? || inboxOpen {
      NotMoved(net, net, v.line, v.line);
    } else {
      StopSteps(net, v.line, v.line);
    }
  }

  /** A packet that completes a frame. */
  lemma DecodedSteps(net: P.Net, v: Session, packet: Packet, inboxOpen: bool, cfg: Settings, now: nat, frame: Frame)
    requires v.open && Shows(net.here, v, cfg) && |net.inbound| > 0 && net.inbound[0] == packet
    requires Received(v.line.state, v.acc, packet, cfg.maxBytes) == Ok(Some(frame))
    ensures var fed, net' := AfterPacket(v, packet, cfg, now), P.Run(net, Ours(P.Deliver) + FrameEvents(frame, inboxOpen));
            var t := AfterFrame(fed, frame, inboxOpen);
            Shows(net'.here, t, cfg) && Moved(net, net', v.line, t.line, [], [frame], 1)
  {
    var fed, mid := AfterPacket(v, packet, cfg, now), P.Run(net, Ours(P.Deliver));
    DeliverSteps(net, v, packet, cfg, now);
    FrameSteps(mid, fed, frame, inboxOpen, cfg);
    RunAppend(net, Ours(P.Deliver), FrameEvents(frame, inboxOpen));
    MovedTwice(net, mid, P.Run(mid, FrameEvents(frame, inboxOpen)), v.line, fed.line, fed.line, [], [], [frame], [], 1, 0);
    assert [frame] + [] == [frame];
  }

  lemma IncomingSteps(net: P.Net, v: Session, packet: Packet, inboxOpen: bool, cfg: Settings, now: nat)
    requires v.open && Shows(net.here, v, cfg) && |net.inbound| > 0 && net.inbound[0] == packet
    ensures var got := Received(v.line.state, v.acc, packet, cfg.maxBytes);
            Turned(net, P.Run(net, Ours(P.Deliver) + AnswerEvents(got, inboxOpen)), v, Incoming(Some(packet), inboxOpen), cfg, now)
  {
    assert Ours(P.Deliver) + [] == Ours(P.Deliver);
    match Received(v.line.state, v.acc, packet, cfg.maxBytes)
    case Ok(Some(frame)) => DecodedSteps(net, v, packet, inboxOpen, cfg, now, frame);
    case Ok(None) => DeliverSteps(net, v, packet, cfg, now);
    case Err(_) => DeliverSteps(net, v, packet, cfg, now);
  }

  /** One turn of the session is a run of steps of its end of the pipe. */
  lemma TurnSteps(net: P.Net, v: Session, select: Select, cfg: Settings, now: nat)
    requires v.open && AtSelect(v) && Shows(net.here, v, cfg) && SendsAll(v.line, OfferedIn(v, select, now))
    requires TakenIn(v, select) <= net.inbound
    ensures Turned(net, P.Run(net, TurnEvents(v, select, cfg, now)), v, select, cfg, now)
  {
    match select
    case Incoming(Some(packet), inboxOpen) =>
      assert TakenIn(v, select)[0] == packet;
      IncomingSteps(net, v, packet, inboxOpen, cfg, now);
    case Incoming(None, _) => StopSteps(net, v.line, v.line);
    case Command(Send(frame, priority)) => SendSteps(net, v, frame, priority, cfg, now);
    case Command(Close) => StopSteps(net, v.line, v.line);
    case HeartbeatDue =>
      if now < v.deadline {
        NotMoved(net, net, v.line, v.line);
      } else if v.waitingForPong {
        StopSteps(net, v.line, v.line);
      } else {
        PingSteps(net, v, cfg, now);
      }
  }

  // ------------------------------------------------------------------
  // Any number of turns
  // ------------------------------------------------------------------

  ghost function Taken(v: Session, script: Script, cfg: Settings): seq<Packet> {
    if |script| == 0 then []
    else
      var init, last := script[..|script| - 1], script[|script| - 1];
      Taken(v, init, cfg) + TakenIn(AfterTurns(v, init, cfg), last.0)
  }

  ghost predicate TurnedTo(net: P.Net, net': P.Net, l: Line, t: Session, offered: seq<Frame>, decoded: seq<Frame>, taken: nat, cfg: Settings) {
    Shows(net'.here, t, cfg) && Moved(net, net', l, t.line, offered, decoded, taken)
  }

  /** Two nets, and what the turns have made of the first. */
  ghost predicate TurnedAll(net: P.Net, net': P.Net, v: Session, script: Script, cfg: Settings) {
    forall t, offered, decoded, taken
      | t == AfterTurns(v, script, cfg) && offered == Offered(v, script, cfg) && decoded == Decoded(v, script, cfg) && taken == |Taken(v, script, cfg)|
      :: TurnedTo(net, net', v.line, t, offered, decoded, taken, cfg)
  }

  /** Where the first turns leave a line that affords what all of them offer. */
  lemma NextAffords(v: Session, init: Script, more: seq<Frame>, cfg: Settings)
    requires v.open && AtSelect(v) && Ready(v.line.state) && AfterTurns(v, init, cfg).open
    requires Affords(v.line, |Plain(Offered(v, init, cfg) + more)|)
    ensures var mid := AfterTurns(v, init, cfg);
            AtSelect(mid) && Ready(mid.line.state) && Affords(mid.line, |Plain(more)|) && SendsAll(mid.line, more)
  {
    var mid := AfterTurns(v, init, cfg);
    PlainAppend(Offered(v, init, cfg), more);
    SelectPoint(v, init, cfg);
    WireIs(v, init, cfg);
    ExactlyTwice(v.line, Plain(Offered(v, init, cfg)), mid.line, Plain(more));
    SentAllIs(mid.line, more);
  }

  lemma NextTaken(all: seq<Packet>, a: seq<Packet>, b: seq<Packet>)
    requires a + b <= all
    ensures a <= all && b <= all[|a|..]
  {
    assert all[..|a|] == (a + b)[..|a|] == a;
    assert all[|a|..][..|b|] == (a + b)[|a|..] == b;
  }

  lemma TurnedTwice(net: P.Net, mid: P.Net, net': P.Net, l: Line, m: Session, t: Session,
                    o: seq<Frame>, o': seq<Frame>, d: seq<Frame>, d': seq<Frame>, j: nat, k: nat, cfg: Settings)
    requires TurnedTo(net, mid, l, m, o, d, j, cfg) && TurnedTo(mid, net', m.line, t, o', d', k, cfg)
    ensures TurnedTo(net, net', l, t, o + o', d + d', j + k, cfg)
  {
    MovedTwice(net, mid, net', l, m.line, t.line, o, o', d, d', j, k);
  }

  lemma TurnedIs(net: P.Net, net': P.Net, v: Session, select: Select, cfg: Settings, now: nat)
    requires Turned(net, net', v, select, cfg, now)
    ensures TurnedTo(net, net', v.line, AfterTurn(v, select, cfg, now), OfferedIn(v, select, now), DecodedIn(v, select, cfg), |TakenIn(v, select)|, cfg)
  {
  }

  lemma OneMore(net: P.Net, mid: P.Net, net': P.Net, v: Session, script: Script, cfg: Settings)
    requires |script| > 0 && TurnedAll(net, mid, v, script[..|script| - 1], cfg)
    requires Turned(mid, net', AfterTurns(v, script[..|script| - 1], cfg), script[|script| - 1].0, cfg, script[|script| - 1].1)
    ensures TurnedAll(net, net', v, script, cfg)
  {
    var init, last := script[..|script| - 1], script[|script| - 1];
    var m := AfterTurns(v, init, cfg);
    TurnedIs(mid, net', m, last.0, cfg, last.1);
    var o, d, k := OfferedIn(m, last.0, last.1), DecodedIn(m, last.0, cfg), |TakenIn(m, last.0)|;
    assert TurnedTo(net, mid, v.line, m, Offered(v, init, cfg), Decoded(v, init, cfg), |Taken(v, init, cfg)|, cfg);
    TurnedTwice(net, mid, net', v.line, m, AfterTurn(m, last.0, cfg, last.1),
                Offered(v, init, cfg), o, Decoded(v, init, cfg), d, |Taken(v, init, cfg)|, k, cfg);
  }

  /** What the turns so far leave is where the next one starts. */
  lemma TurnStarts(net: P.Net, mid: P.Net, v: Session, script: Script, cfg: Settings)
    requires |script| > 0 && TurnedAll(net, mid, v, script[..|script| - 1], cfg) && Taken(v, script, cfg) <= net.inbound
    ensures var m := AfterTurns(v, script[..|script| - 1], cfg);
            Shows(mid.here, m, cfg) && TakenIn(m, script[|script| - 1].0) <= mid.inbound
  {
    var init, last := script[..|script| - 1], script[|script| - 1];
    var m := AfterTurns(v, init, cfg);
    assert TurnedTo(net, mid, v.line, m, Offered(v, init, cfg), Decoded(v, init, cfg), |Taken(v, init, cfg)|, cfg);
    NextTaken(net.inbound, Taken(v, init, cfg), TakenIn(m, last.0));
  }

  lemma NoTurn(mid: P.Net, m: Session, select: Select, cfg: Settings, now: nat)
    requires Shows(mid.here, m, cfg) && !m.open
    ensures Turned(mid, mid, m, select, cfg, now)
  {
    NotMoved(mid, mid, m.line, m.line);
  }

  lemma NextTurn(net: P.Net, mid: P.Net, v: Session, script: Script, cfg: Settings)
    requires |script| > 0 && TurnedAll(net, mid, v, script[..|script| - 1], cfg) && Taken(v, script, cfg) <= net.inbound
    requires v.open && AtSelect(v) && Ready(v.line.state) && Affords(v.line, |Plain(Offered(v, script, cfg))|)
    ensures var last := script[|script| - 1];
            TurnedAll(net, P.Run(mid, TurnEvents(AfterTurns(v, script[..|script| - 1], cfg), last.0, cfg, last.1)), v, script, cfg)
  {
    var init, last := script[..|script| - 1], script[|script| - 1];
    var m := AfterTurns(v, init, cfg);
    TurnStarts(net, mid, v, script, cfg);
    if m.open {
      NextAffords(v, init, OfferedIn(m, last.0, last.1), cfg);
      TurnSteps(mid, m, last.0, cfg, last.1);
    } else {
      NoTurn(mid, m, last.0, cfg, last.1);
    }
    OneMore(net, mid, P.Run(mid, TurnEvents(m, last.0, cfg, last.1)), v, script, cfg);
  }

  lemma Before(net: P.Net, v: Session, script: Script, cfg: Settings)
    requires |script| > 0 && Ready(v.line.state)
    requires Affords(v.line, |Plain(Offered(v, script, cfg))|) && Taken(v, script, cfg) <= net.inbound
    ensures var init := script[..|script| - 1];
            Affords(v.line, |Plain(Offered(v, init, cfg))|) && Taken(v, init, cfg) <= net.inbound
  {
    var init, last := script[..|script| - 1], script[|script| - 1];
    var m := AfterTurns(v, init, cfg);
    PlainAppend(Offered(v, init, cfg), OfferedIn(m, last.0, last.1));
    NextTaken(net.inbound, Taken(v, init, cfg), TakenIn(m, last.0));
  }

  lemma NoneTurned(net: P.Net, v: Session, cfg: Settings)
    requires Shows(net.here, v, cfg)
    ensures TurnedAll(net, net, v, [], cfg)
  {
    NotMoved(net, net, v.line, v.line);
    assert TurnedTo(net, net, v.line, v, [], [], 0, cfg);
  }

  /** The steps any number of turns are. */
  ghost function Events(v: Session, script: Script, cfg: Settings): seq<P.Event> {
    if |script| == 0 then []
    else
      var init, last := script[..|script| - 1], script[|script| - 1];
      Events(v, init, cfg) + TurnEvents(AfterTurns(v, init, cfg), last.0, cfg, last.1)
  }

  /** As long as its sends last, the session is a run of its end of the pipe. */
  lemma {:induction false} SessionSteps(net: P.Net, v: Session, script: Script, cfg: Settings)
    requires v.open && AtSelect(v) && Ready(v.line.state) && Shows(net.here, v, cfg)
    requires Affords(v.line, |Plain(Offered(v, script, cfg))|) && Taken(v, script, cfg) <= net.inbound
    ensures TurnedAll(net, P.Run(net, Events(v, script, cfg)), v, script, cfg)
    decreases |script|
  {
    if |script| == 0 {
      NoneTurned(net, v, cfg);
    } else {
      var init, last := script[..|script| - 1], script[|script| - 1];
      Before(net, v, script, cfg);
      SessionSteps(net, v, init, cfg);
      NextTurn(net, P.Run(net, Events(v, init, cfg)), v, script, cfg);
      RunAppend(net, Events(v, init, cfg), TurnEvents(AfterTurns(v, init, cfg), last.0, cfg, last.1));
    }
  }

  // ------------------------------------------------------------------
  // The client's drain
  // ------------------------------------------------------------------

  /** The commands taken in a round. */
  lemma {:induction false} QueuedSteps(net: P.Net, l: Line, s: Wfq<Frame>, acc: Acc, maxBytes: nat, cmds: seq<Commands.ClientCmd>) returns (evs: seq<P.Event>)
    requires Matches(net.here, l, s, acc, maxBytes)
    ensures var net' := P.Run(net, evs); Matches(net'.here, l, C.QueuedAll(s, cmds), acc, maxBytes) && Moved(net, net', l, l, [], [], 0)
    decreases |cmds|
  {
    if |cmds| == 0 {
      evs := [];
      NotMoved(net, net, l, l);
    } else {
      var init, last := cmds[..|cmds| - 1], cmds[|cmds| - 1];
      evs := QueuedSteps(net, l, s, acc, maxBytes, init);
      if last.Send? {
        var mid, act := P.Run(net, evs), P.Enqueue(last.frame, last.priority);
        OneStep(mid, act);
        NotMoved(mid, P.StepHere(mid, act), l, l);
        RunAppend(net, evs, Ours(act));
        MovedTwice(net, mid, P.StepHere(mid, act), l, l, l, [], [], [], [], 0, 0);
        evs := evs + Ours(act);
      }
    }
  }

  /** A round that sends its frame and takes the commands that have arrived. */
  lemma DrainRound(net: P.Net, l: Line, s: Wfq<Frame>, acc: Acc, maxBytes: nat, cmds: seq<Commands.ClientCmd>) returns (evs: seq<P.Event>)
    requires Matches(net.here, l, s, acc, maxBytes) && NextExit(l, s).Going?
    ensures var net' := P.Run(net, evs);
            && Matches(net'.here, NextLine(l, s), C.QueuedAll(s.AfterPop(), cmds), acc, maxBytes)
            && Moved(net, net', l, NextLine(l, s), [s.Popped().value.item], [], 0)
  {
    var frame := s.Popped().value.item;
    var first := RoundEvents(frame);
    RoundSteps(net, l, s, acc, maxBytes);
    var mid := P.Run(net, first);
    var more := QueuedSteps(mid, NextLine(l, s), s.AfterPop(), acc, maxBytes, cmds);
    evs := first + more;
    RunAppend(net, first, more);
    MovedTwice(net, mid, P.Run(net, evs), l, NextLine(l, s), NextLine(l, s), [frame], [], [], [], 0, 0);
    assert [frame] + [] == [frame];
  }

  /** What a drain has made of a net. */
  ghost predicate DrainedTo(net: P.Net, net': P.Net, l: Line, o: C.Outcome, frames: seq<Frame>, acc: Acc, maxBytes: nat) {
    Matches(net'.here, o.line, o.sched, acc, maxBytes) && Moved(net, net', l, o.line, frames, [], 0)
  }

  lemma DrainMore(net: P.Net, mid: P.Net, net': P.Net, l: Line, m: Line, o: C.Outcome, out: Out<Frame>, rest: seq<Out<Frame>>, acc: Acc, maxBytes: nat)
    requires Moved(net, mid, l, m, [out.item], [], 0) && DrainedTo(mid, net', m, o, C.Items(rest), acc, maxBytes)
    ensures DrainedTo(net, net', l, o, C.Items([out] + rest), acc, maxBytes)
  {
    MovedTwice(net, mid, net', l, m, o.line, [out.item], C.Items(rest), [], [], 0, 0);
    assert C.Items([out] + rest) == [out.item] + C.Items(rest);
  }

  /** The client's drain, while its sends succeed, is a run of its end of the pipe. */
  lemma {:induction false} DrainSteps(net: P.Net, l: Line, s: Wfq<Frame>, arrivals: seq<seq<Commands.ClientCmd>>, acc: Acc, maxBytes: nat) returns (evs: seq<P.Event>)
    requires Matches(net.here, l, s, acc, maxBytes) && !C.Drain(l, s, arrivals).exit.SendError?
    ensures DrainedTo(net, P.Run(net, evs), l, C.Drain(l, s, arrivals), C.Items(C.Taken(l, s, arrivals)), acc, maxBytes)
    decreases |arrivals|, s.Len()
  {
    PopSomeIffQueued(s);
    if s.Popped().None? {
      evs := Ours(P.Transmit);
      OneStep(net, P.Transmit);
      NotMoved(net, P.Run(net, evs), l, l);
      SchedulerRuns.RunCons(s, C.POP, []);
      assert [C.POP] + [] == [C.POP];
      assert C.Taken(l, s, arrivals) == [];
      assert C.Items([]) == [];
    } else {
      evs := DrainOn(net, l, s, arrivals, acc, maxBytes);
    }
  }

  lemma DrainOn(net: P.Net, l: Line, s: Wfq<Frame>, arrivals: seq<seq<Commands.ClientCmd>>, acc: Acc, maxBytes: nat) returns (evs: seq<P.Event>)
    requires Matches(net.here, l, s, acc, maxBytes) && NextExit(l, s).Going? && !C.Drain(l, s, arrivals).exit.SendError?
    ensures DrainedTo(net, P.Run(net, evs), l, C.Drain(l, s, arrivals), C.Items(C.Taken(l, s, arrivals)), acc, maxBytes)
    decreases |arrivals|, s.Len(), 0
  {
    PopSomeIffQueued(s);
    var next, out, cmds := NextLine(l, s), s.Popped().value, if |arrivals| == 0 then [] else arrivals[0];
    var t := C.QueuedAll(s.AfterPop(), cmds);
    var first := DrainRound(net, l, s, acc, maxBytes, cmds);
    var mid, more := P.Run(net, first), [];
    TakenCons(l, s, arrivals);
    if C.AnyCloses(cmds) {
      NotMoved(mid, mid, next, next);
      assert C.Items([]) == [];
      evs := first + [];
      assert evs == first;
      DrainMore(net, mid, mid, l, next, C.Drain(l, s, arrivals), out, [], acc, maxBytes);
    } else {
      var rest := if |arrivals| == 0 then arrivals else arrivals[1..];
      more := DrainSteps(mid, next, t, rest, acc, maxBytes);
      evs := first + more;
      RunAppend(net, first, more);
      DrainMore(net, mid, P.Run(net, evs), l, next, C.Drain(l, s, arrivals), out, C.Taken(next, t, rest), acc, maxBytes);
    }
  }

  /** The frame of a round comes before those of the rounds after it. */
  lemma TakenCons(l: Line, s: Wfq<Frame>, arrivals: seq<seq<Commands.ClientCmd>>)
    requires NextExit(l, s).Going?
    ensures var next, out := NextLine(l, s), s.Popped().value;
            C.Taken(l, s, arrivals) ==
              [out] + (if |arrivals| == 0 then C.Taken(next, s.AfterPop(), arrivals)
                       else if C.AnyCloses(arrivals[0]) then []
                       else C.Taken(next, C.QueuedAll(s.AfterPop(), arrivals[0]), arrivals[1..]))
  {
    PopSomeIffQueued(s);
    var next := NextLine(l, s);
    if |arrivals| == 0 {
      SchedulerRuns.RunCons(s, C.POP, C.Ops(next, s.AfterPop(), arrivals));
    } else if C.AnyCloses(arrivals[0]) {
      C.RoundRun(s, arrivals[0], []);
      assert [C.POP] + C.SendOps(arrivals[0]) + [] == [C.POP] + C.SendOps(arrivals[0]);
    } else {
      var t := C.QueuedAll(s.AfterPop(), arrivals[0]);
      C.RoundRun(s, arrivals[0], C.Ops(next, t, arrivals[1..]));
    }
  }

  // ------------------------------------------------------------------
  // End to end
  // ------------------------------------------------------------------

  /** Only the peer moves. */
  ghost predicate PeerOnly(evs: seq<P.Event>) {
    forall ev | ev in evs :: !ev.here
  }

  lemma {:induction false} PeerMoves(net: P.Net, evs: seq<P.Event>)
    requires PeerOnly(evs)
    ensures P.Run(net, evs).here == net.here
  {
    if |evs| > 0 {
      PeerMoves(net, evs[..|evs| - 1]);
      assert evs[|evs| - 1] in evs;
    }
  }

  /** A session just started by the server. */
  ghost function First(keys: Keys, left: nat, cfg: Settings, now: nat): Session {
    Starting(Line(Some(Transport(Responder, keys, 0, 0)), [], left), cfg, now)
  }

  ghost function Between(keys: Keys, peerMax: nat, cfg: Settings, evs: seq<P.Event>): P.Net {
    P.Run(P.Start(Responder, keys, cfg.maxBytes, peerMax), evs)
  }

  /** What has come of a session's frames and its peer's. */
  ghost predicate Delivered(net: P.Net, offered: seq<Frame>, decoded: seq<Frame>) {
    && decoded <= P.FramesOf(net.there.sent)
    && net.there.received <= offered
    && (net.there.alive && net.outbound == [] ==> net.there.received == offered)
  }

  lemma DeliveredBetween(keys: Keys, peerMax: nat, cfg: Settings, evs: seq<P.Event>)
    ensures var net := Between(keys, peerMax, cfg, evs);
            net.here.pending == [] ==> Delivered(net, P.FramesOf(net.here.sent), net.here.received)
  {
    P.RunKeeps(Responder, keys, cfg.maxBytes, peerMax, evs);
    P.Delivery(Responder, keys, cfg.maxBytes, peerMax, evs);
  }

  /** A stretch of steps of the peer, and then some turns of the session. */
  datatype Segment = Segment(peer: seq<P.Event>, turns: Script)

  ghost function AllTurns(segments: seq<Segment>): Script {
    if |segments| == 0 then [] else AllTurns(segments[..|segments| - 1]) + segments[|segments| - 1].turns
  }

  /** The session after the segments. */
  ghost function AfterSegments(v: Session, segments: seq<Segment>, cfg: Settings): Session {
    AfterTurns(v, AllTurns(segments), cfg)
  }

  /** The run of the pipe in which session and peer take turns. */
  ghost function Interleaved(v: Session, segments: seq<Segment>, cfg: Settings): seq<P.Event> {
    if |segments| == 0 then []
    else
      var init, last := segments[..|segments| - 1], segments[|segments| - 1];
      Interleaved(v, init, cfg) + last.peer + Events(AfterSegments(v, init, cfg), last.turns, cfg)
  }

  /** What comes in during each segment is, in order, what is in flight to the session then. */
  ghost predicate Feasible(keys: Keys, peerMax: nat, v: Session, segments: seq<Segment>, cfg: Settings) {
    |segments| > 0 ==>
      var init, last := segments[..|segments| - 1], segments[|segments| - 1];
      && Feasible(keys, peerMax, v, init, cfg) && PeerOnly(last.peer)
      && Taken(AfterSegments(v, init, cfg), last.turns, cfg) <= Between(keys, peerMax, cfg, Interleaved(v, init, cfg) + last.peer).inbound
  }

  lemma {:induction false} TurnsAppend(v: Session, a: Script, b: Script, cfg: Settings)
    ensures AfterTurns(v, a + b, cfg) == AfterTurns(AfterTurns(v, a, cfg), b, cfg)
    ensures Offered(v, a + b, cfg) == Offered(v, a, cfg) + Offered(AfterTurns(v, a, cfg), b, cfg)
    ensures Decoded(v, a + b, cfg) == Decoded(v, a, cfg) + Decoded(AfterTurns(v, a, cfg), b, cfg)
    decreases |b|
  {
    if |b| == 0 {
      assert a + b == a;
    } else {
      var init, last, m := b[..|b| - 1], b[|b| - 1], AfterTurns(v, a, cfg);
      assert (a + b)[..|a + b| - 1] == a + init;
      TurnsAppend(v, a, init, cfg);
      var t := AfterTurns(m, init, cfg);
      Assoc(Offered(v, a, cfg), Offered(m, init, cfg), OfferedIn(t, last.0, last.1));
      Assoc(Decoded(v, a, cfg), Decoded(m, init, cfg), DecodedIn(t, last.0, cfg));
    }
  }

  /** A session that has ended takes no step and hands over nothing. */
  lemma {:induction false} EndedEvents(v: Session, script: Script, cfg: Settings)
    requires !v.open
    ensures AfterTurns(v, script, cfg) == v && Events(v, script, cfg) == [] && Offered(v, script, cfg) == [] && Decoded(v, script, cfg) == []
  {
    if |script| > 0 {
      EndedEvents(v, script[..|script| - 1], cfg);
    }
  }

  /** This end of the net is where these turns leave the session, and has sealed and decoded what they have. */
  ghost predicate Stands(net: P.Net, v: Session, script: Script, cfg: Settings) {
    && Shows(net.here, AfterTurns(v, script, cfg), cfg)
    && P.FramesOf(net.here.sent) == Offered(v, script, cfg)
    && net.here.received == Decoded(v, script, cfg)
  }

  lemma StandsOn(net: P.Net, net': P.Net, v: Session, a: Script, b: Script, cfg: Settings)
    requires Stands(net, v, a, cfg) && TurnedAll(net, net', AfterTurns(v, a, cfg), b, cfg)
    ensures Stands(net', v, a + b, cfg)
  {
    var m := AfterTurns(v, a, cfg);
    TurnsAppend(v, a, b, cfg);
    assert TurnedTo(net, net', m.line, AfterTurns(m, b, cfg), Offered(m, b, cfg), Decoded(m, b, cfg), |Taken(m, b, cfg)|, cfg);
  }

  /** Some more turns, with what is in flight. */
  lemma TurnsStand(net: P.Net, v: Session, a: Script, b: Script, cfg: Settings)
    requires v.open && AtSelect(v) && Ready(v.line.state) && Stands(net, v, a, cfg)
    requires Affords(v.line, |Plain(Offered(v, a + b, cfg))|) && Taken(AfterTurns(v, a, cfg), b, cfg) <= net.inbound
    ensures Stands(P.Run(net, Events(AfterTurns(v, a, cfg), b, cfg)), v, a + b, cfg)
  {
    var m := AfterTurns(v, a, cfg);
    TurnsAppend(v, a, b, cfg);
    if m.open {
      NextAffords(v, a, Offered(m, b, cfg), cfg);
      SessionSteps(net, m, b, cfg);
      StandsOn(net, P.Run(net, Events(m, b, cfg)), v, a, b, cfg);
    } else {
      EndedEvents(m, b, cfg);
      assert Offered(v, a, cfg) + [] == Offered(v, a, cfg) && Decoded(v, a, cfg) + [] == Decoded(v, a, cfg);
    }
  }

  lemma AffordsFirst(l: Line, v: Session, a: Script, b: Script, cfg: Settings)
    requires Ready(l.state) && Affords(l, |Plain(Offered(v, a + b, cfg))|)
    ensures Affords(l, |Plain(Offered(v, a, cfg))|)
  {
    TurnsAppend(v, a, b, cfg);
    PlainAppend(Offered(v, a, cfg), Offered(AfterTurns(v, a, cfg), b, cfg));
  }

  lemma {:induction false} SegmentsStand(keys: Keys, peerMax: nat, left: nat, now: nat, segments: seq<Segment>, cfg: Settings)
    requires var v := First(keys, left, cfg, now);
             Feasible(keys, peerMax, v, segments, cfg) && Affords(v.line, |Plain(Offered(v, AllTurns(segments), cfg))|)
    ensures var v := First(keys, left, cfg, now);
            Stands(Between(keys, peerMax, cfg, Interleaved(v, segments, cfg)), v, AllTurns(segments), cfg)
    decreases |segments|
  {
    var v := First(keys, left, cfg, now);
    StartsAtSelect(v.line, cfg, now);
    if |segments| > 0 {
      var init, last := segments[..|segments| - 1], segments[|segments| - 1];
      AffordsFirst(v.line, v, AllTurns(init), last.turns, cfg);
      SegmentsStand(keys, peerMax, left, now, init, cfg);
      var start, before := P.Start(Responder, keys, cfg.maxBytes, peerMax), Interleaved(v, init, cfg);
      RunAppend(start, before, last.peer);
      PeerMoves(P.Run(start, before), last.peer);
      TurnsStand(P.Run(start, before + last.peer), v, AllTurns(init), last.turns, cfg);
      RunAppend(start, before + last.peer, Events(AfterSegments(v, init, cfg), last.turns, cfg));
    }
  }

  /**
   A session and its peer, in any interleaving of the session's turns with the peer's steps. While what
   the session offers can be sent, it decodes a prefix of what the peer has sent, and the peer decodes a
   prefix of what the session offered, all of it once nothing is on its way and the peer still runs.
   */
  lemma SessionDelivers(keys: Keys, peerMax: nat, left: nat, now: nat, segments: seq<Segment>, cfg: Settings)
    requires var v := First(keys, left, cfg, now);
             Feasible(keys, peerMax, v, segments, cfg) && Affords(v.line, |Plain(Offered(v, AllTurns(segments), cfg))|)
    ensures var v := First(keys, left, cfg, now);
            Delivered(Between(keys, peerMax, cfg, Interleaved(v, segments, cfg)),
                      Offered(v, AllTurns(segments), cfg), Decoded(v, AllTurns(segments), cfg))
  {
    var v := First(keys, left, cfg, now);
    SegmentsStand(keys, peerMax, left, now, segments, cfg);
    DeliveredBetween(keys, peerMax, cfg, Interleaved(v, segments, cfg));
  }

  lemma StartsAtSelect(line: Line, cfg: Settings, now: nat)
    ensures AtSelect(Starting(line, cfg, now))
  {
    assert Copies(PONG, 0) == [];
  }
}
