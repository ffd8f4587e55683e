/**
 Two endpoints joined by ordered channels, in any interleaving of their atomic steps: scheduling,
 encoding, chunking and encrypting on the way out, decrypting, reassembling and decoding on the
 way in (the two message loops, src/ws/client/connection_loop.rs and src/ws/server/session.rs).
 */
module Pipe {
  import opened Basics
  import opened Scheduler
  import opened SchedulerRuns
  import opened Frames
  import opened Noise
  import opened ReceivePath

  /** A frame handed to the cipher: one taken from the scheduler, or a heartbeat Ping. */
  datatype Sent = FromQueue(out: Out<Frame>) | Heartbeat {
    function Frame(): Frame {
      match this
      case FromQueue(out) => out.item
      case Heartbeat => PING
    }
  }

  /** Which error arm ended the endpoint's loop. */
  datatype Fault = NoFault | EncryptFault | OpenFault | FrameFault

  datatype Endpoint = Endpoint(
    role: Role,
    maxBytes: nat,
    noise: State,
    sched: Wfq<Frame>,
    pending: seq<Packet>,      // packets encrypted but not yet given to the channel
    acc: Acc,
    alive: bool,
    fault: Fault,
    enqueued: seq<Out<Frame>>, // Send commands taken so far, with their class
    refused: seq<Sent>,        // frames the cipher could not seal
    sent: seq<Sent>,
    sealed: seq<seq<byte>>,    // the plaintext of every packet sealed so far
    openedCount: nat,          // packets opened so far
    received: seq<Frame>)

  datatype Act = Enqueue(frame: Frame, priority: MessagePriority) | Transmit | Beat | Push | Deliver | Stop

  /** The endpoint after handing one frame to encode_frame and encrypt_chunked. */
  ghost function Seal(e: Endpoint, s: Sent): Endpoint {
    SealChunks(e, s, FrameChunks(s.Frame()))
  }

  ghost function SealChunks(e: Endpoint, s: Sent, chunks: seq<seq<byte>>): Endpoint {
    match EncryptAll(e.noise, chunks)
    case Ok(packets) =>
      e.(noise := AfterEncryptAll(e.noise, chunks), pending := packets, sent := e.sent + [s], sealed := e.sealed + chunks)
    case Err(_) =>
      var refused := e.(noise := AfterEncryptAll(e.noise, chunks), refused := e.refused + [s]);
      if s.Heartbeat? then refused else refused.(alive := false, fault := EncryptFault)
  }

  /** The endpoint after receiving one packet. */
  ghost function Receive(e: Endpoint, packet: Packet): Endpoint {
    match Opened(e.noise, packet, packet.Len())
    case Err(_) => e.(noise := AfterOpen(e.noise, packet, packet.Len()), alive := false, fault := OpenFault)
    case Ok(plain) =>
      var open := e.(noise := AfterOpen(e.noise, packet, packet.Len()), openedCount := e.openedCount + 1);
      match Take(Live(e.acc, e.received), plain, e.maxBytes)
      case Live(acc, frames) => open.(acc := acc, received := frames)
      case Dead(_) => open.(acc := e.acc.AfterFeed(plain, e.maxBytes), alive := false, fault := FrameFault)
  }

  /** Both endpoints and the packets in flight each way. */
  datatype Net = Net(here: Endpoint, there: Endpoint, outbound: seq<Packet>, inbound: seq<Packet>) {
    function Swapped(): Net {
      Net(there, here, inbound, outbound)
    }
  }

  /** One atomic step of the endpoint `here`; a step that is not enabled changes nothing. */
  ghost function StepHere(net: Net, act: Act): Net {
    var e := net.here;
    if !e.alive then net
    else match act
      case Enqueue(frame, priority) =>
        net.(here := e.(sched := e.sched.Enqueued(frame, priority.Index()), enqueued := e.enqueued + [Out(priority.Index(), frame)]))
      case Transmit =>
        if |e.pending| > 0 then net
        else if e.sched.Popped().None? then net.(here := e.(sched := e.sched.AfterPop()))
        else net.(here := Seal(e.(sched := e.sched.AfterPop()), FromQueue(e.sched.Popped().value)))
      case Beat => if |e.pending| > 0 then net else net.(here := Seal(e, Heartbeat))
      case Push =>
        if |e.pending| == 0 then net
        else net.(here := e.(pending := e.pending[1..]), outbound := net.outbound + [e.pending[0]])
      case Deliver =>
        if |net.inbound| == 0 then net
        else net.(here := Receive(e, net.inbound[0]), inbound := net.inbound[1..])
      case Stop => net.(here := e.(alive := false))
  }

  /** A step of either endpoint. */
  datatype Event = Event(here: bool, act: Act)

  ghost function Step(net: Net, ev: Event): Net {
    if ev.here then StepHere(net, ev.act) else StepHere(net.Swapped(), ev.act).Swapped()
  }

  ghost function Run(net: Net, evs: seq<Event>): Net {
    if |evs| == 0 then net else Step(Run(net, evs[..|evs| - 1]), evs[|evs| - 1])
  }

  /** An endpoint that has just finished the handshake. */
  ghost function Fresh(role: Role, keys: Keys, maxBytes: nat): Endpoint {
    Endpoint(role, maxBytes, Some(Transport(role, keys, 0, 0)), NewWfq(), [], Acc(0, []), true, NoFault, [], [], [], [], 0, [])
  }

  ghost function Start(role: Role, keys: Keys, maxHere: nat, maxThere: nat): Net {
    Net(Fresh(role, keys, maxHere), Fresh(role.Other(), keys, maxThere), [], [])
  }

  // ------------------------------------------------------------------
  // The invariant
  // ------------------------------------------------------------------

  ghost function FramesOf(sent: seq<Sent>): (fs: seq<Frame>)
    ensures |fs| == |sent| && forall k | 0 <= k < |sent| :: fs[k] == sent[k].Frame()
  {
    seq(|sent|, k requires 0 <= k < |sent| => sent[k].Frame())
  }

  ghost function FromQueues(sent: seq<Sent>): seq<Out<Frame>> {
    if |sent| == 0 then []
    else FromQueues(sent[..|sent| - 1]) + if sent[|sent| - 1].FromQueue? then [sent[|sent| - 1].out] else []
  }

  /** The frames that could not be sealed and came from the scheduler; there is at most one, since it ends the loop. */
  ghost function Lost(e: Endpoint): seq<Out<Frame>> {
    FromQueues(e.refused)
  }

  /** An endpoint by itself: its nonces count what it sealed and opened, and a fault has a cause. */
  ghost predicate Sound(e: Endpoint, keys: Keys, peer: Endpoint) {
    && |e.sealed| <= NONCES
    && (e.noise.Some? ==> e.noise == Some(Transport(e.role, keys, |e.sealed|, e.openedCount)))
    && (e.noise.None? || e.fault != NoFault ==> |e.refused| > 0 || !AllFit(FramesOf(peer.sent), e.maxBytes))
    && (e.alive ==> e.fault == NoFault)
  }

  /** After `n` packets there are not enough nonces left for the frame. */
  ghost predicate Overflows(n: nat, frame: Frame) {
    forall chunks | chunks == FrameChunks(frame) :: TooMany(n, chunks)
  }

  ghost predicate TooMany(n: nat, chunks: seq<seq<byte>>) {
    n + |chunks| > NONCES
  }

  /** A frame is refused for want of nonces and for nothing else, and the fault says whether one from the scheduler was. */
  ghost predicate Refusals(e: Endpoint) {
    && (|e.refused| > 0 ==> e.noise.None? && Overflows(|e.sealed|, e.refused[0].Frame()))
    && (e.alive && e.noise.None? ==> |e.refused| > 0)
    && (e.alive ==> e.fault == NoFault)
    && forall lost | lost == Lost(e) :: LosesOne(e.fault, lost)
  }

  ghost predicate LosesOne(fault: Fault, lost: seq<Out<Frame>>) {
    |lost| == if fault.EncryptFault? then 1 else 0
  }

  /** The direction from `s` to `r`: in flight is exactly what was sealed and not yet opened, and `r` has decoded what it opened. */
  ghost predicate Flow(s: Endpoint, r: Endpoint, flight: seq<Packet>, keys: Keys) {
    && r.received <= FramesOf(s.sent)
    && (r.alive ==>
          && r.openedCount <= |s.sealed|
          && flight + s.pending == Seals(keys, s.role, r.openedCount, s.sealed[r.openedCount..])
          && Consume(FRESH, s.sealed[..r.openedCount], r.maxBytes) == Live(r.acc, r.received))
  }

  /** Per class, what was enqueued is what was sent, then what was lost, then what is queued. */
  ghost predicate Ordered(e: Endpoint) {
    forall lost | lost == Lost(e) :: OrderedWith(e, lost)
  }

  ghost predicate OrderedWith(e: Endpoint, lost: seq<Out<Frame>>) {
    forall i | 0 <= i < COUNT :: Of(i, e.enqueued) == Of(i, FromQueues(e.sent)) + Of(i, lost) + e.sched.At(i).queue
  }

  /** What was sealed is the chunks of what was sent. */
  ghost predicate Accounted(e: Endpoint) {
    e.sealed == Plain(FramesOf(e.sent))
  }

  ghost predicate Inv(net: Net, keys: Keys) {
    && net.there.role == net.here.role.Other()
    && Accounted(net.here) && Accounted(net.there)
    && Sound(net.here, keys, net.there) && Sound(net.there, keys, net.here)
    && Flow(net.here, net.there, net.outbound, keys) && Flow(net.there, net.here, net.inbound, keys)
    && Ordered(net.here) && Ordered(net.there)
    && Refusals(net.here) && Refusals(net.there)
  }

  // ------------------------------------------------------------------
  // Sending keeps it
  // ------------------------------------------------------------------

  lemma SentSnoc(sent: seq<Sent>, s: Sent)
    ensures FramesOf(sent + [s]) == FramesOf(sent) + [s.Frame()]
    ensures Plain(FramesOf(sent + [s])) == Plain(FramesOf(sent)) + FrameChunks(s.Frame())
  {
    var fs := FramesOf(sent + [s]);
    assert fs == FramesOf(sent) + [s.Frame()];
    assert fs[..|fs| - 1] == FramesOf(sent);
  }

  lemma AllFitGrows(fs: seq<Frame>, f: Frame, maxBytes: nat)
    requires AllFit(fs + [f], maxBytes)
    ensures AllFit(fs, maxBytes)
  {
    assert forall g | g in fs :: g in fs + [f];
  }

  /** Sealing either numbers the packets after those before, or fails for want of nonces. */
  lemma SealEffect(e: Endpoint, s: Sent, chunks: seq<seq<byte>>, r: Endpoint, keys: Keys)
    requires e.alive && Sound(e, keys, r) && Sealable(chunks)
    ensures var t, n := SealChunks(e, s, chunks), |e.sealed|;
            if e.noise.Some? && n + |chunks| <= NONCES then
              t == e.(noise := Some(Transport(e.role, keys, n + |chunks|, e.openedCount)),
                      pending := Seals(keys, e.role, n, chunks), sent := e.sent + [s], sealed := e.sealed + chunks)
            else
              && (e.noise.Some? ==> n + |chunks| > NONCES)
              && t == e.(noise := None, refused := e.refused + [s], alive := s.Heartbeat?, fault := if s.Heartbeat? then NoFault else EncryptFault)
  {
    if e.noise.Some? {
      EncryptSeals(e.noise.value, chunks);
    } else {
      assert EncryptAll(e.noise, chunks).Err?;
    }
  }

  lemma SealKeepsSound(e: Endpoint, s: Sent, chunks: seq<seq<byte>>, r: Endpoint, keys: Keys)
    requires e.alive && Sound(e, keys, r) && Sound(r, keys, e) && Sealable(chunks)
    ensures Sound(SealChunks(e, s, chunks), keys, r) && Sound(r, keys, SealChunks(e, s, chunks))
  {
    SealEffect(e, s, chunks, r, keys);
    assert FramesOf(e.sent + [s]) == FramesOf(e.sent) + [s.Frame()];
    if AllFit(FramesOf(e.sent + [s]), r.maxBytes) {
      AllFitGrows(FramesOf(e.sent), s.Frame(), r.maxBytes);
    }
  }

  lemma SealKeepsFlow(e: Endpoint, s: Sent, chunks: seq<seq<byte>>, r: Endpoint, flight: seq<Packet>, keys: Keys)
    requires e.alive && |e.pending| == 0 && Sound(e, keys, r) && Flow(e, r, flight, keys) && Sealable(chunks)
    ensures Flow(SealChunks(e, s, chunks), r, flight, keys)
  {
    SealEffect(e, s, chunks, r, keys);
    assert FramesOf(e.sent + [s]) == FramesOf(e.sent) + [s.Frame()];
    if r.alive && SealChunks(e, s, chunks).sent != e.sent {
      FlightGrows(e.sealed, chunks, r.openedCount, flight, keys, e.role);
      assert (e.sealed + chunks)[..r.openedCount] == e.sealed[..r.openedCount];
    }
  }

  lemma FlightGrows(plain: seq<seq<byte>>, chunks: seq<seq<byte>>, n: nat, flight: seq<Packet>, keys: Keys, role: Role)
    requires n <= |plain| && flight + [] == Seals(keys, role, n, plain[n..])
    ensures n <= |plain + chunks|
    ensures flight + Seals(keys, role, |plain|, chunks) == Seals(keys, role, n, (plain + chunks)[n..])
  {
    assert flight == flight + [];
    assert (plain + chunks)[n..] == plain[n..] + chunks;
  }

  lemma SealKeepsAccount(e: Endpoint, s: Sent, r: Endpoint, keys: Keys)
    requires e.alive && Sound(e, keys, r) && Accounted(e) && Sealable(FrameChunks(s.Frame()))
    ensures Accounted(Seal(e, s))
  {
    SealEffect(e, s, FrameChunks(s.Frame()), r, keys);
    SentSnoc(e.sent, s);
  }

  lemma RefusedSnoc(refused: seq<Sent>, s: Sent)
    ensures FromQueues(refused + [s]) == FromQueues(refused) + if s.FromQueue? then [s.out] else []
  {
    assert (refused + [s])[..|refused|] == refused;
  }

  lemma SealKeepsRefusals(e: Endpoint, s: Sent, chunks: seq<seq<byte>>, r: Endpoint, keys: Keys)
    requires e.alive && Sound(e, keys, r) && Refusals(e) && Sealable(chunks) && chunks == FrameChunks(s.Frame())
    ensures Refusals(SealChunks(e, s, chunks))
    ensures Lost(e) == []
    ensures Lost(SealChunks(e, s, chunks)) == if SealChunks(e, s, chunks).refused != e.refused && s.FromQueue? then [s.out] else []
  {
    SealEffect(e, s, chunks, r, keys);
    RefusedSnoc(e.refused, s);
    assert LosesOne(e.fault, Lost(e));
    var t := SealChunks(e, s, chunks);
    if t.refused != e.refused && e.refused == [] {
      assert t.refused[0] == s && TooMany(|e.sealed|, chunks);
    }
  }

  /** Taking the next frame from the scheduler and sealing it keeps the class order: it goes to `sent` or is lost. */
  lemma SealKeepsOrder(e: Endpoint, chunks: seq<seq<byte>>, r: Endpoint, keys: Keys)
    requires e.alive && Sound(e, keys, r) && OrderedWith(e, []) && e.sched.Popped().Some? && Sealable(chunks)
    ensures var out := e.sched.Popped().value;
            var t := SealChunks(e.(sched := e.sched.AfterPop()), FromQueue(out), chunks);
            OrderedWith(t, if t.refused != e.refused then [out] else [])
  {
    var out, popped := e.sched.Popped().value, e.(sched := e.sched.AfterPop());
    var t := SealChunks(popped, FromQueue(out), chunks);
    var lost := if t.refused != e.refused then [out] else [];
    SealEffect(popped, FromQueue(out), chunks, r, keys);
    FromQueuesSnoc(e.sent, out);
    forall i | 0 <= i < COUNT
      ensures Of(i, t.enqueued) == Of(i, FromQueues(t.sent)) + Of(i, lost) + t.sched.At(i).queue
    {
      StepFifo(e.sched, Next, i);
      assert Of(i, e.enqueued) == Of(i, FromQueues(e.sent)) + Of(i, []) + e.sched.At(i).queue;
      OneMoreOut(Of(i, e.enqueued), FromQueues(e.sent), out, e.sched.At(i).queue, popped.sched.At(i).queue, i);
    }
  }

  lemma FromQueuesSnoc(sent: seq<Sent>, out: Out<Frame>)
    ensures FromQueues(sent + [FromQueue(out)]) == FromQueues(sent) + [out]
  {
    assert (sent + [FromQueue(out)])[..|sent + [FromQueue(out)]| - 1] == sent;
  }

  /** An item moved from the head of its class's queue to the end of what left the scheduler. */
  lemma OneMoreOut(all: seq<Frame>, outs: seq<Out<Frame>>, out: Out<Frame>, queue: seq<Frame>, rest: seq<Frame>, i: nat)
    requires all == Of(i, outs) + [] + queue && Of(i, [out]) + rest == queue + []
    ensures all == Of(i, outs + [out]) + [] + rest
    ensures all == Of(i, outs) + Of(i, [out]) + rest
  {
    OfAppend(i, outs, [out]);
    assert queue + [] == queue && Of(i, outs) + [] == Of(i, outs);
    assert Of(i, outs) + (Of(i, [out]) + rest) == (Of(i, outs) + Of(i, [out])) + rest;
    assert Of(i, outs + [out]) + [] == Of(i, outs + [out]);
  }

  lemma EnqueueKeepsOrder(e: Endpoint, frame: Frame, priority: MessagePriority)
    requires Ordered(e)
    ensures Ordered(e.(sched := e.sched.Enqueued(frame, priority.Index()), enqueued := e.enqueued + [Out(priority.Index(), frame)]))
  {
    var out, lost := Out(priority.Index(), frame), Lost(e);
    assert OrderedWith(e, lost);
    forall i | 0 <= i < COUNT
      ensures Of(i, e.enqueued + [out])
           == Of(i, FromQueues(e.sent)) + Of(i, lost) + e.sched.Enqueued(frame, priority.Index()).At(i).queue
    {
      OfAppend(i, e.enqueued, [out]);
      var front, queue := Of(i, FromQueues(e.sent)) + Of(i, lost), e.sched.At(i).queue;
      assert Of(i, e.enqueued) == front + queue;
      EnqueuedQueue(e.sched, out, i);
      assert front + (queue + Of(i, [out])) == (front + queue) + Of(i, [out]);
    }
  }

  lemma TransmitKeeps(net: Net, keys: Keys)
    requires Inv(net, keys) && net.here.alive && |net.here.pending| == 0 && net.here.sched.Popped().Some?
    ensures Inv(net.(here := Seal(net.here.(sched := net.here.sched.AfterPop()), FromQueue(net.here.sched.Popped().value))), keys)
  {
    var e, r, s := net.here, net.there, FromQueue(net.here.sched.Popped().value);
    var popped, chunks := e.(sched := e.sched.AfterPop()), FrameChunks(s.Frame());
    FrameSealable(s.Frame());
    SealKeepsSound(popped, s, chunks, r, keys);
    SealKeepsFlow(popped, s, chunks, r, net.outbound, keys);
    SealKeepsAccount(popped, s, r, keys);
    SealKeepsRefusals(popped, s, chunks, r, keys);
    assert OrderedWith(e, []);
    SealKeepsOrder(e, chunks, r, keys);
    SealEffect(popped, s, chunks, r, keys);
  }

  lemma BeatKeepsOrder(e: Endpoint, chunks: seq<seq<byte>>, r: Endpoint, keys: Keys)
    requires e.alive && Sound(e, keys, r) && OrderedWith(e, []) && Sealable(chunks)
    ensures OrderedWith(SealChunks(e, Heartbeat, chunks), [])
  {
    var t := SealChunks(e, Heartbeat, chunks);
    SealEffect(e, Heartbeat, chunks, r, keys);
    assert (e.sent + [Heartbeat])[..|e.sent + [Heartbeat]| - 1] == e.sent;
    assert FromQueues(e.sent + [Heartbeat]) == FromQueues(e.sent) + [] == FromQueues(e.sent);
    forall i | 0 <= i < COUNT ensures Of(i, t.enqueued) == Of(i, FromQueues(t.sent)) + Of(i, []) + t.sched.At(i).queue {
      assert Of(i, e.enqueued) == Of(i, FromQueues(e.sent)) + Of(i, []) + e.sched.At(i).queue;
    }
  }

  /** Nothing is handed over, so nothing is refused or taken from the scheduler. */
  lemma NothingSealed(e: Endpoint, t: Endpoint)
    requires Refusals(e) && Ordered(e)
    requires t.refused == e.refused && t.sealed == e.sealed && t.sent == e.sent && t.enqueued == e.enqueued && t.sched == e.sched
    requires e.noise.None? ==> t.noise.None?
    requires t.alive ==> e.alive && t.fault == NoFault && (t.noise.None? ==> e.noise.None?)
    requires t.fault.EncryptFault? <==> e.fault.EncryptFault?
    ensures Refusals(t) && Ordered(t)
  {
    assert LosesOne(e.fault, Lost(e)) && OrderedWith(e, Lost(e));
    assert Lost(t) == Lost(e);
    forall i | 0 <= i < COUNT
      ensures Of(i, t.enqueued) == Of(i, FromQueues(t.sent)) + Of(i, Lost(t)) + t.sched.At(i).queue
    {
    }
  }

  lemma BeatKeeps(net: Net, keys: Keys)
    requires Inv(net, keys) && net.here.alive && |net.here.pending| == 0
    ensures Inv(net.(here := Seal(net.here, Heartbeat)), keys)
  {
    var e, r, chunks := net.here, net.there, FrameChunks(PING);
    FrameSealable(PING);
    SealKeepsSound(e, Heartbeat, chunks, r, keys);
    SealKeepsFlow(e, Heartbeat, chunks, r, net.outbound, keys);
    SealKeepsAccount(e, Heartbeat, r, keys);
    SealKeepsRefusals(e, Heartbeat, chunks, r, keys);
    assert OrderedWith(e, []);
    BeatKeepsOrder(e, chunks, r, keys);
    SealEffect(e, Heartbeat, chunks, r, keys);
  }

  lemma PushKeeps(net: Net, keys: Keys)
    requires Inv(net, keys) && |net.here.pending| > 0
    ensures Inv(net.(here := net.here.(pending := net.here.pending[1..]), outbound := net.outbound + [net.here.pending[0]]), keys)
  {
    var e := net.here;
    NothingSealed(e, e.(pending := e.pending[1..]));
    assert (net.outbound + [e.pending[0]]) + e.pending[1..] == net.outbound + e.pending;
  }

  // ------------------------------------------------------------------
  // Receiving keeps it
  // ------------------------------------------------------------------

  /** The next packet in flight is the next sealed chunk. */
  lemma NextInFlight(r: Endpoint, s: Endpoint, flight: seq<Packet>, keys: Keys)
    requires r.alive && |flight| > 0 && Flow(s, r, flight, keys)
    ensures r.openedCount < |s.sealed| && flight[0] == Sealed(keys, s.role, r.openedCount, s.sealed[r.openedCount])
    ensures flight[1..] + s.pending == Seals(keys, s.role, r.openedCount + 1, s.sealed[r.openedCount + 1..])
  {
    var plain, n := s.sealed, r.openedCount;
    assert (flight + s.pending)[0] == flight[0];
    assert (flight + s.pending)[1..] == flight[1..] + s.pending;
    assert plain[n..][1..] == plain[n + 1..];
  }

  /** Receiving it moves the receiver one chunk on, or stops it on a frame that does not fit. */
  lemma ReceiveEffect(r: Endpoint, s: Endpoint, flight: seq<Packet>, keys: Keys)
    requires r.alive && |flight| > 0 && s.role == r.role.Other()
    requires Sound(r, keys, s) && Sound(s, keys, r) && Flow(s, r, flight, keys) && Accounted(s)
    ensures var t := Receive(r, flight[0]);
            if r.noise.None? then t == r.(alive := false, fault := OpenFault)
            else
              && t == r.(noise := Some(r.noise.value.(recvNonce := r.openedCount + 1)), openedCount := r.openedCount + 1,
                         acc := t.acc, received := t.received, alive := t.alive, fault := t.fault)
              && t.received <= FramesOf(s.sent)
              && (if t.alive then Consume(FRESH, s.sealed[..r.openedCount + 1], r.maxBytes) == Live(t.acc, t.received) && t.fault == NoFault
                  else !AllFit(FramesOf(s.sent), r.maxBytes))
  {
    var n := r.openedCount;
    NextInFlight(r, s, flight, keys);
    PlainSizes(FramesOf(s.sent), n);
    if r.noise.Some? {
      OpenNext(r, keys, s.role, s.sealed[n]);
      NextDecoded(r, s);
    }
  }

  /** The packet the nonce counter waits for opens, and what it carries is accumulated and perhaps decoded. */
  lemma OpenNext(r: Endpoint, keys: Keys, from: Role, chunk: seq<byte>)
    requires r.noise == Some(Transport(r.role, keys, |r.sealed|, r.openedCount)) && r.openedCount < NONCES
    requires from == r.role.Other() && |chunk| <= MAX_CHUNK_PLAIN
    ensures var t, rx := Receive(r, Sealed(keys, from, r.openedCount, chunk)), Take(Live(r.acc, r.received), chunk, r.maxBytes);
            && t == r.(noise := Some(r.noise.value.(recvNonce := r.openedCount + 1)), openedCount := r.openedCount + 1,
                       acc := t.acc, received := rx.frames, alive := t.alive, fault := t.fault)
            && (if rx.Live? then t.acc == rx.acc && t.alive == r.alive && t.fault == r.fault else !t.alive)
  {
    assert Take(Live(r.acc, r.received), chunk, r.maxBytes).Dead? ==>
             Take(Live(r.acc, r.received), chunk, r.maxBytes).frames == r.received;
  }

  /** One more of the sender's chunks at a receiver that has consumed those before it. */
  lemma NextDecoded(r: Endpoint, s: Endpoint)
    requires Accounted(s) && r.openedCount < |s.sealed|
    requires Consume(FRESH, s.sealed[..r.openedCount], r.maxBytes) == Live(r.acc, r.received)
    ensures var rx := Take(Live(r.acc, r.received), s.sealed[r.openedCount], r.maxBytes);
            && Consume(FRESH, s.sealed[..r.openedCount + 1], r.maxBytes) == rx
            && rx.frames <= FramesOf(s.sent)
            && (rx.Dead? ==> !AllFit(FramesOf(s.sent), r.maxBytes))
  {
    ConsumeSnoc(FRESH, s.sealed, r.openedCount + 1, r.maxBytes);
    StreamDecodes(FramesOf(s.sent), r.openedCount + 1, r.maxBytes);
  }

  lemma {:induction false} PlainSizes(fs: seq<Frame>, k: nat)
    requires k < |Plain(fs)|
    ensures |Plain(fs)[k]| <= MAX_CHUNK_PLAIN
  {
    var init := fs[..|fs| - 1];
    if k < |Plain(init)| {
      PlainSizes(init, k);
    } else {
      FrameSealable(fs[|fs| - 1]);
      assert Plain(fs)[k] == FrameChunks(fs[|fs| - 1])[k - |Plain(init)|];
    }
  }

  lemma DeliverKeeps(net: Net, keys: Keys)
    requires Inv(net, keys) && net.here.alive && |net.inbound| > 0
    ensures Inv(net.(here := Receive(net.here, net.inbound[0]), inbound := net.inbound[1..]), keys)
  {
    NextInFlight(net.here, net.there, net.inbound, keys);
    ReceiveEffect(net.here, net.there, net.inbound, keys);
    NothingSealed(net.here, Receive(net.here, net.inbound[0]));
  }

  // ------------------------------------------------------------------
  // Every run keeps it
  // ------------------------------------------------------------------

  lemma EnqueueKeeps(net: Net, frame: Frame, priority: MessagePriority, keys: Keys)
    requires Inv(net, keys) && net.here.alive
    ensures Inv(StepHere(net, Enqueue(frame, priority)), keys)
  {
    EnqueueKeepsOrder(net.here, frame, priority);
    var t := StepHere(net, Enqueue(frame, priority)).here;
    assert LosesOne(net.here.fault, Lost(net.here)) && Lost(t) == Lost(net.here);
  }

  /** A pop of an empty scheduler only gives it its credits back. */
  lemma EmptyPop<T>(s: Wfq<T>, i: nat)
    requires i < COUNT && s.Popped().None?
    ensures s.AfterPop().At(i).queue == s.At(i).queue
  {
    PopSomeIffQueued(s);
  }

  lemma EmptyKeepsOrder(e: Endpoint)
    requires Refusals(e) && Ordered(e) && e.sched.Popped().None?
    ensures Refusals(e.(sched := e.sched.AfterPop())) && Ordered(e.(sched := e.sched.AfterPop()))
  {
    var t, lost := e.(sched := e.sched.AfterPop()), Lost(e);
    assert Lost(t) == lost && LosesOne(e.fault, lost) && OrderedWith(e, lost);
    forall i | 0 <= i < COUNT
      ensures Of(i, t.enqueued) == Of(i, FromQueues(t.sent)) + Of(i, lost) + t.sched.At(i).queue
    {
      EmptyPop(e.sched, i);
    }
  }

  lemma EmptyKeeps(net: Net, keys: Keys)
    requires Inv(net, keys) && net.here.alive && net.here.sched.Popped().None?
    ensures Inv(net.(here := net.here.(sched := net.here.sched.AfterPop())), keys)
  {
    EmptyKeepsOrder(net.here);
  }

  lemma StepHereKeeps(net: Net, act: Act, keys: Keys)
    requires Inv(net, keys)
    ensures Inv(StepHere(net, act), keys)
  {
    var e := net.here;
    if e.alive {
      match act
      case Enqueue(frame, priority) => EnqueueKeeps(net, frame, priority, keys);
      case Transmit =>
        if |e.pending| == 0 {
          if e.sched.Popped().Some? {
            TransmitKeeps(net, keys);
          } else {
            EmptyKeeps(net, keys);
          }
        }
      case Beat =>
        if |e.pending| == 0 {
          BeatKeeps(net, keys);
        }
      case Push =>
        if |e.pending| > 0 {
          PushKeeps(net, keys);
        }
      case Deliver =>
        if |net.inbound| > 0 {
          DeliverKeeps(net, keys);
        }
      case Stop => NothingSealed(e, e.(alive := false));
    }
  }

  lemma {:induction false} RunKeeps(role: Role, keys: Keys, maxHere: nat, maxThere: nat, evs: seq<Event>)
    ensures Inv(Run(Start(role, keys, maxHere, maxThere), evs), keys)
  {
    var start := Start(role, keys, maxHere, maxThere);
    if |evs| == 0 {
      assert FramesOf([]) == [] && Seals(keys, role, 0, []) == [] && Seals(keys, role.Other(), 0, []) == [];
    } else {
      var ev, before := evs[|evs| - 1], Run(start, evs[..|evs| - 1]);
      RunKeeps(role, keys, maxHere, maxThere, evs[..|evs| - 1]);
      StepHereKeeps(if ev.here then before else before.Swapped(), ev.act, keys);
    }
  }

  // ------------------------------------------------------------------
  // End to end
  // ------------------------------------------------------------------

  /** Nothing encrypted is still on its way from `s`. */
  ghost predicate Drained(s: Endpoint, flight: seq<Packet>) {
    |flight| == 0 && |s.pending| == 0
  }

  /**
   Delivery, over every interleaving and for frames of every size: what an endpoint has decoded is a
   prefix of what the other has sent, and once nothing is on its way a receiver still running has
   decoded exactly what was sent, all of it fitted, and it waits for a new frame.
   */
  lemma Delivery(role: Role, keys: Keys, maxHere: nat, maxThere: nat, evs: seq<Event>)
    ensures var net := Run(Start(role, keys, maxHere, maxThere), evs);
            && net.there.received <= FramesOf(net.here.sent)
            && (net.there.alive && Drained(net.here, net.outbound) ==>
                  && net.there.received == FramesOf(net.here.sent) && net.there.acc == Acc(0, [])
                  && AllFit(FramesOf(net.here.sent), net.there.maxBytes))
  {
    RunKeeps(role, keys, maxHere, maxThere, evs);
    var net := Run(Start(role, keys, maxHere, maxThere), evs);
    if net.there.alive && Drained(net.here, net.outbound) {
      var n := net.there.openedCount;
      assert |net.outbound + net.here.pending| == |net.here.sealed| - n;
      StreamDecodes(FramesOf(net.here.sent), n, net.there.maxBytes);
    }
  }

  /** Every frame handed to the cipher, in order. */
  ghost function HandedOver(e: Endpoint): seq<Frame> {
    FramesOf(e.sent + e.refused)
  }

  lemma HandedOverIs(e: Endpoint)
    ensures HandedOver(e) == FramesOf(e.sent) + FramesOf(e.refused)
  {
  }

  lemma {:induction false} PlainLonger(a: seq<Frame>, b: seq<Frame>)
    ensures |Plain(a + b)| >= |Plain(a)| + (if |b| > 0 then |FrameChunks(b[0])| else 0)
    decreases |b|
  {
    if |b| == 0 {
      assert a + b == a;
    } else {
      var init := b[..|b| - 1];
      PlainLonger(a, init);
      assert (a + b)[..|a + b| - 1] == a + init;
    }
  }

  lemma RefusedIff(e: Endpoint, keys: Keys, peer: Endpoint)
    requires Sound(e, keys, peer) && Refusals(e) && Accounted(e)
    ensures e.refused == [] <==> |Plain(HandedOver(e))| <= NONCES
  {
    HandedOverIs(e);
    PlainLonger(FramesOf(e.sent), FramesOf(e.refused));
    if e.refused == [] {
      assert FramesOf(e.sent) + FramesOf(e.refused) == FramesOf(e.sent);
    } else {
      assert TooMany(|e.sealed|, FrameChunks(e.refused[0].Frame()));
    }
  }

  /**
   The cipher refuses no frame if and only if all the frames handed to it make at most 2^64 - 1 packets;
   refusing a frame from the scheduler, and nothing else, is the encryption fault, and it loses that frame.
   */
  lemma EncryptFaultIff(role: Role, keys: Keys, maxHere: nat, maxThere: nat, evs: seq<Event>)
    ensures var e := Run(Start(role, keys, maxHere, maxThere), evs).here;
            && (e.refused == [] <==> |Plain(HandedOver(e))| <= NONCES)
            && (e.fault.EncryptFault? <==> Lost(e) != [])
  {
    RunKeeps(role, keys, maxHere, maxThere, evs);
    var net := Run(Start(role, keys, maxHere, maxThere), evs);
    RefusedIff(net.here, keys, net.there);
    assert LosesOne(net.here.fault, Lost(net.here));
  }

  /** No error arm is taken while every frame received fits and the nonces last for every frame handed over. */
  lemma NoErrorArm(role: Role, keys: Keys, maxHere: nat, maxThere: nat, evs: seq<Event>)
    ensures var net := Run(Start(role, keys, maxHere, maxThere), evs);
            AllFit(FramesOf(net.there.sent), net.here.maxBytes) && |Plain(HandedOver(net.here))| <= NONCES
            ==> net.here.fault == NoFault && net.here.refused == []
  {
    RunKeeps(role, keys, maxHere, maxThere, evs);
    EncryptFaultIff(role, keys, maxHere, maxThere, evs);
  }

  /** Command-to-wire order: in each class, frames reach the wire in the order they were enqueued, none skipped. */
  lemma WireOrder(role: Role, keys: Keys, maxHere: nat, maxThere: nat, evs: seq<Event>, i: nat)
    requires i < COUNT
    ensures var e := Run(Start(role, keys, maxHere, maxThere), evs).here;
            && Of(i, e.enqueued) == Of(i, FromQueues(e.sent)) + Of(i, Lost(e)) + e.sched.At(i).queue
            && (e.alive ==> Lost(e) == [])
  {
    RunKeeps(role, keys, maxHere, maxThere, evs);
    var e := Run(Start(role, keys, maxHere, maxThere), evs).here;
    assert LosesOne(e.fault, Lost(e)) && OrderedWith(e, Lost(e));
  }
}
