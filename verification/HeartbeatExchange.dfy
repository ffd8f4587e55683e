/**
 What the heartbeat's frames do at the other end: a Ping is answered by one Pong, a Pong only puts off the
 deadline, and neither reaches the application (src/ws/server/session.rs, src/ws/client/connection_loop.rs).
 */
module HeartbeatExchange {
  import opened Basics
  import opened Scheduler
  import opened Frames
  import opened Noise
  import opened ReceivePath
  import opened Receiving
  import opened Links
  import opened Drains
  import opened Sessions
  import opened SessionRuns
  import opened WireFormat

  /** A Ping queues one Pong in the first class, whether or not the inbox is open, and changes nothing else. */
  lemma PingIsAnswered(v: Session, inboxOpen: bool)
    ensures AfterFrame(v, PING, inboxOpen) == v.(sched := v.sched.(realTime := Lane(v.sched.realTime.queue + [PONG], v.sched.realTime.credits)))
  {
  }

  /** A Pong changes nothing more. */
  lemma PongIsTaken(v: Session, inboxOpen: bool)
    ensures AfterFrame(v, PONG, inboxOpen) == v
  {
  }

  /** A frame of a few bytes is one packet, and a receiver between frames decodes it at once. */
  lemma OnePacket(f: Frame)
    requires |EncodeFrame(f)| <= 65519
    ensures FrameChunks(f) == [EncodeFrame(f)]
  {
  }

  /** The next packet a session in transport mode opens, if it carries the encoding of a frame. */
  ghost function NextPacket(s: NoiseState, f: Frame): Packet
    requires s.Transport?
  {
    Sealed(s.keys, s.role.Other(), s.recvNonce, EncodeFrame(f))
  }

  lemma NextOpens(s: NoiseState, f: Frame)
    requires s.Transport? && s.recvNonce < NONCES && |EncodeFrame(f)| <= 65519
    ensures var packet := NextPacket(s, f);
            && Opened(Some(s), packet, packet.Len()) == Ok(EncodeFrame(f))
            && AfterOpen(Some(s), packet, packet.Len()) == Some(s.(recvNonce := s.recvNonce + 1))
  {
  }

  lemma WholeFrameFed(f: Frame, maxBytes: nat)
    requires |EncodeFrame(f)| <= 65519 && |Postcard(f)| <= maxBytes
    ensures Acc(0, []).Feed(EncodeFrame(f), maxBytes) == Ok(Some(Postcard(f)))
    ensures Acc(0, []).AfterFeed(EncodeFrame(f), maxBytes) == Acc(0, [])
  {
    var bs := EncodeFrame(f);
    assert bs[..4] == Prefix(Postcard(f)) && bs[4..] == Postcard(f);
    assert |Postcard(f)| % U32 == |Postcard(f)|;
    assert Postcard(f)[..|Postcard(f)|] == Postcard(f);
  }

  /** A session that can take a frame of its peer's, and is between two frames. */
  ghost predicate Listens(u: Session, maxBytes: nat) {
    u.open && u.acc == Acc(0, []) && Finished(u.line.state) && u.line.state.value.recvNonce < NONCES && maxBytes >= 3
  }

  lemma FrameArrives(u: Session, f: Frame, peer: Settings, inboxOpen: bool, later: nat)
    requires Listens(u, peer.maxBytes) && |EncodeFrame(f)| <= 65519 && |Postcard(f)| <= peer.maxBytes
    ensures var s := u.line.state.value;
            var taken := u.(line := u.line.(state := Some(s.(recvNonce := s.recvNonce + 1))),
                            deadline := later + peer.heartbeat.interval, waitingForPong := false);
            AfterTurn(u, Incoming(Some(NextPacket(s, f)), inboxOpen), peer, later) == AfterFrame(taken, f, inboxOpen)
  {
    var s := u.line.state.value;
    PacketArrives(u, f, peer, later);
    assert AfterTurn(u, Incoming(Some(NextPacket(s, f)), inboxOpen), peer, later)
           == AfterIncoming(u, NextPacket(s, f), inboxOpen, peer, later);
  }

  /** The packet of a small frame is opened, completes the frame and leaves the accumulator empty. */
  lemma PacketArrives(u: Session, f: Frame, peer: Settings, later: nat)
    requires Listens(u, peer.maxBytes) && |EncodeFrame(f)| <= 65519 && |Postcard(f)| <= peer.maxBytes
    ensures var s := u.line.state.value;
            && Received(u.line.state, u.acc, NextPacket(s, f), peer.maxBytes) == Ok(Some(f))
            && AfterPacket(u, NextPacket(s, f), peer, later)
               == u.(line := u.line.(state := Some(s.(recvNonce := s.recvNonce + 1))),
                     deadline := later + peer.heartbeat.interval, waitingForPong := false)
  {
    var s := u.line.state.value;
    NextOpens(s, f);
    WholeFrameFed(f, peer.maxBytes);
    DecodeWhole(f);
    assert AfterPacket(u, NextPacket(s, f), peer, later).acc == u.acc;
  }

  /** The packet a frame becomes on a line, and what is left of the line. */
  lemma SentAsOne(l: Line, f: Frame)
    requires Ready(l.state) && Affords(l, 1) && |EncodeFrame(f)| <= 65519
    ensures var s := l.state.value;
            && Sent(l, f).wire == l.wire + [Sealed(s.keys, s.role, s.sendNonce, EncodeFrame(f))]
            && Sent(l, f).state == Some(s.(sendNonce := s.sendNonce + 1))
  {
    OnePacket(f);
    SentIs(l, f);
  }

  /** The last packet of a line. */
  ghost function Newest(l: Line): Packet
    requires |l.wire| > 0
  {
    l.wire[|l.wire| - 1]
  }

  lemma MissSends(v: Session, cfg: Settings, now: nat)
    requires v.open && !v.waitingForPong && now >= v.deadline && Ready(v.line.state) && Affords(v.line, 1)
    ensures var t, s := AfterTurn(v, HeartbeatDue, cfg, now), v.line.state.value;
            && t.open && t.waitingForPong && t.deadline == now + cfg.heartbeat.timeout
            && t.line.wire == v.line.wire + [Sealed(s.keys, s.role, s.sendNonce, EncodeFrame(PING))]
            && t.line.state == Some(s.(sendNonce := s.sendNonce + 1))
  {
    HeartbeatBytes();
    SentAsOne(v.line, PING);
  }

  /**
   A missed deadline and its answer. The loop whose deadline is missed adds one packet to its wire; at a
   peer in step with it that is between two frames, the packet puts the peer's deadline off and queues one
   Pong, and its inbox and its other classes stay as they are.
   */
  lemma MissIsAnswered(v: Session, cfg: Settings, now: nat, u: Session, peer: Settings, inboxOpen: bool, later: nat)
    requires v.open && !v.waitingForPong && now >= v.deadline && Ready(v.line.state) && Affords(v.line, 1)
    requires Listens(u, peer.maxBytes) && InStep(v.line.state.value, u.line.state.value)
    ensures var t := AfterTurn(v, HeartbeatDue, cfg, now);
            && t.open && t.waitingForPong && t.deadline == now + cfg.heartbeat.timeout
            && |t.line.wire| == |v.line.wire| + 1
            && var w := AfterTurn(u, Incoming(Some(Newest(t.line)), inboxOpen), peer, later);
               w == u.(line := u.line.(state := w.line.state), deadline := later + peer.heartbeat.interval, waitingForPong := false,
                       sched := u.sched.Enqueued(PONG, 0))
               && InStepAfter(t.line.state, w.line.state)
  {
    var s := u.line.state.value;
    MissSends(v, cfg, now);
    HeartbeatBytes();
    assert Newest(AfterTurn(v, HeartbeatDue, cfg, now).line) == NextPacket(s, PING);
    FrameArrives(u, PING, peer, inboxOpen, later);
  }

  /** And the Pong, once it is sent back, puts off the deadline of the loop that waits for it. */
  lemma AnswerPutsOff(u: Session, w: Session, cfg: Settings, inboxOpen: bool, now: nat)
    requires Ready(u.line.state) && Affords(u.line, 1)
    requires Listens(w, cfg.maxBytes) && InStep(u.line.state.value, w.line.state.value)
    ensures var sent := Sent(u.line, PONG);
            && |sent.wire| == |u.line.wire| + 1
            && var t := AfterTurn(w, Incoming(Some(Newest(sent)), inboxOpen), cfg, now);
               t == w.(line := w.line.(state := t.line.state), deadline := now + cfg.heartbeat.interval, waitingForPong := false)
               && InStepAfter(sent.state, t.line.state)
  {
    HeartbeatBytes();
    SentAsOne(u.line, PONG);
    assert Newest(Sent(u.line, PONG)) == NextPacket(w.line.state.value, PONG);
    FrameArrives(w, PONG, cfg, inboxOpen, now);
  }

  // ------------------------------------------------------------------
  // Over any turns
  // ------------------------------------------------------------------

  /** A turn in which the deadline is missed for the first time. */
  ghost predicate FirstMiss(v: Session, select: Select, now: nat) {
    v.open && select.HeartbeatDue? && now >= v.deadline && !v.waitingForPong
  }

  ghost function FirstMisses(v: Session, script: Script, cfg: Settings): nat {
    if |script| == 0 then 0
    else
      var init, last := script[..|script| - 1], script[|script| - 1];
      FirstMisses(v, init, cfg) + if FirstMiss(AfterTurns(v, init, cfg), last.0, last.1) then 1 else 0
  }

  /** The frames of the Send commands a session takes while it is open. */
  ghost function Asked(v: Session, script: Script, cfg: Settings): seq<Frame> {
    if |script| == 0 then []
    else
      var init, last := script[..|script| - 1], script[|script| - 1];
      Asked(v, init, cfg) + if AfterTurns(v, init, cfg).open then SentBy(last.0) else []
  }

  lemma {:induction false} PingsAppend(a: seq<Frame>, b: seq<Frame>)
    ensures Pings(a + b) == Pings(a) + Pings(b)
    decreases |b|
  {
    if |b| == 0 {
      assert a + b == a;
    } else {
      LastApart(a, b);
      PingsAppend(a, b[..|b| - 1]);
      DecodedSnoc(a + b[..|b| - 1], b[|b| - 1]);
    }
  }

  lemma {:induction false} NoPingsInCopies(n: nat)
    ensures Pings(Copies(PONG, n)) == 0
  {
    if n > 0 {
      assert Copies(PONG, n)[..n - 1] == Copies(PONG, n - 1);
      NoPingsInCopies(n - 1);
    }
  }

  lemma PingsAfterPongs(n: nat, frame: Frame, priority: MessagePriority)
    ensures Pings(AfterPongs(n, frame, priority)) == Pings([frame])
  {
    var first := if priority.RealTime? || n < 8 then n else 8;
    NoPingsInCopies(first);
    NoPingsInCopies(n - first);
    PingsAppend(Copies(PONG, first), [frame]);
    PingsAppend(Copies(PONG, first) + [frame], Copies(PONG, n - first));
  }

  lemma TurnPings(v: Session, select: Select, now: nat)
    ensures Pings(OfferedIn(v, select, now)) == (if FirstMiss(v, select, now) then 1 else 0) + if v.open then Pings(SentBy(select)) else 0
  {
    if FirstMiss(v, select, now) {
      DecodedSnoc([], PING);
      assert [] + [PING] == [PING];
    } else if v.open && select.Command? && select.cmd.Send? {
      PingsAfterPongs(Waiting(v), select.cmd.frame, select.cmd.priority);
    }
  }

  /** The Pings a session hands to its line, apart from those the application sends, are one for each deadline missed for the first time. */
  lemma {:induction false} PingsAreMisses(v: Session, script: Script, cfg: Settings)
    ensures Pings(Offered(v, script, cfg)) == FirstMisses(v, script, cfg) + Pings(Asked(v, script, cfg))
  {
    if |script| > 0 {
      var init, last := script[..|script| - 1], script[|script| - 1];
      var m := AfterTurns(v, init, cfg);
      PingsAreMisses(v, init, cfg);
      TurnPings(m, last.0, last.1);
      PingsAppend(Offered(v, init, cfg), OfferedIn(m, last.0, last.1));
      PingsAppend(Asked(v, init, cfg), if m.open then SentBy(last.0) else []);
    }
  }

  // ------------------------------------------------------------------
  // What ends a session
  // ------------------------------------------------------------------

  /** A frame for an inbox that is closed. */
  ghost predicate Unwanted(frame: Frame, inboxOpen: bool) {
    (frame.kind == Message || frame.kind == Event) && !inboxOpen
  }

  /** A packet that does not open, does not reassemble or does not decode, or that completes a frame nobody takes. */
  ghost predicate BadPacket(v: Session, packet: Packet, inboxOpen: bool, cfg: Settings) {
    var got := Received(v.line.state, v.acc, packet, cfg.maxBytes);
    got.Err? || (got.value.Some? && Unwanted(got.value.value, inboxOpen))
  }

  /**
   A turn ends the session exactly when it is a message that is not Binary, a bad packet, a Close, a Send
   whose frames cannot all be sent, or the second deadline missed in a row.
   */
  lemma EndsIff(v: Session, select: Select, cfg: Settings, now: nat)
    requires v.open && AtSelect(v)
    ensures !AfterTurn(v, select, cfg, now).open <==>
              || select == Command(Close)
              || (select.Incoming? && select.packet == None)
              || (select.Incoming? && select.packet.Some? && BadPacket(v, select.packet.value, select.inboxOpen, cfg))
              || (select.Command? && select.cmd.Send? && !SendsAll(v.line, AfterPongs(Waiting(v), select.cmd.frame, select.cmd.priority)))
              || (select.HeartbeatDue? && now >= v.deadline && v.waitingForPong)
  {
    if select.Command? && select.cmd.Send? {
      SendLine(v, select.cmd.frame, select.cmd.priority);
    }
  }
}
