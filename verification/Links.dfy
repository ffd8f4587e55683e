/**
 The sending half of a WebSocket stream behind a Noise session: encode a frame, encrypt it in chunks
 and send the packets (src/ws/server/session.rs, src/ws/client/connection_loop.rs).
 */
module Links {
  import opened Basics
  import opened Frames
  import opened Noise
  import opened ReceivePath

  /** The session's state, what the stream has accepted so far, and how many more messages it accepts. */
  datatype Line = Line(state: State, wire: seq<Packet>, left: nat)

  /** Whether the whole frame goes out: it can be encrypted, and the stream accepts all its packets. */
  ghost predicate Sends(l: Line, frame: Frame) {
    var packets := EncryptAll(l.state, FrameChunks(frame));
    packets.Ok? && |packets.value| <= l.left
  }

  /** The line after a frame is handed to it. */
  ghost function Sent(l: Line, frame: Frame): Line {
    match EncryptAll(l.state, FrameChunks(frame))
    case Err(_) => l.(state := AfterEncryptAll(l.state, FrameChunks(frame)))
    case Ok(packets) => Accepted(l.(state := AfterEncryptAll(l.state, FrameChunks(frame))), packets)
  }

  /** The packets go out in order, as many as the stream accepts. */
  ghost function Accepted(l: Line, packets: seq<Packet>): Line {
    if |packets| <= l.left then Line(l.state, l.wire + packets, l.left - |packets|)
    else Line(l.state, l.wire + packets[..l.left], 0)
  }

  /** Frames handed over one after another, until one fails. */
  ghost predicate SendsAll(l: Line, frames: seq<Frame>)
    decreases |frames|
  {
    |frames| > 0 ==> Sends(l, frames[0]) && SendsAll(Sent(l, frames[0]), frames[1..])
  }

  ghost function SentAll(l: Line, frames: seq<Frame>): Line
    decreases |frames|
  {
    if |frames| == 0 then l
    else if !Sends(l, frames[0]) then Sent(l, frames[0])
    else SentAll(Sent(l, frames[0]), frames[1..])
  }

  class Link {
    const noise: NoiseSession
    var wire: seq<Packet>
    var sendsLeft: nat

    ghost function View(): Line
      reads this, noise
    {
      Line(noise.state, wire, sendsLeft)
    }

    constructor (noise: NoiseSession, sendsLeft: nat)
      ensures this.noise == noise && View() == Line(noise.state, [], sendsLeft)
    {
      this.noise := noise;
      this.wire := [];
      this.sendsLeft := sendsLeft;
    }

    /** One message; a stream that has failed once accepts no more. */
    method Send(packet: Packet) returns (ok: bool)
      modifies this
      ensures ok <==> old(sendsLeft) > 0
      ensures wire == old(wire) + if ok then [packet] else []
      ensures sendsLeft == if ok then old(sendsLeft) - 1 else 0
    {
      ok := sendsLeft > 0;
      if ok {
        wire := wire + [packet];
        sendsLeft := sendsLeft - 1;
      }
    }

    /** Encode and encrypt one frame and send its packets; false exactly when encryption or a send fails. */
    method SendFrame(frame: Frame) returns (ok: bool)
      modifies this, noise
      ensures View() == Sent(old(View()), frame) && (ok <==> Sends(old(View()), frame))
    {
      var packets := noise.EncryptChunked(EncodeFrame(frame));
      if packets.Err? {
        return false;
      }
      for i := 0 to |packets.value|
        invariant noise.state == AfterEncryptAll(old(noise.state), FrameChunks(frame))
        invariant wire == old(wire) + packets.value[..i] && sendsLeft == old(sendsLeft) - i
      {
        var sent := Send(packets.value[i]);
        if !sent {
          return false;
        }
        assert packets.value[..i + 1] == packets.value[..i] + [packets.value[i]];
      }
      assert packets.value[..|packets.value|] == packets.value;
      return true;
    }
  }

  // ------------------------------------------------------------------
  // What a line carries, and when it can
  // ------------------------------------------------------------------

  /** The handshake is over, and the nonces used so far exist. */
  ghost predicate Ready(state: State) {
    Finished(state) && state.value.sendNonce <= NONCES
  }

  /** Enough sends and enough nonces for `n` more packets. */
  ghost predicate Affords(l: Line, n: nat)
    requires Ready(l.state)
  {
    n <= l.left && l.state.value.sendNonce + n <= NONCES
  }

  /** The line once it has sealed and sent these chunks, numbered from its next nonce. */
  ghost function Carried(l: Line, chunks: seq<seq<byte>>): Line
    requires Ready(l.state) && Affords(l, |chunks|)
  {
    var s := l.state.value;
    Line(Some(s.(sendNonce := s.sendNonce + |chunks|)), l.wire + Seals(s.keys, s.role, s.sendNonce, chunks), l.left - |chunks|)
  }

  /** One frame goes out exactly when the line affords its chunks. */
  lemma SentIs(l: Line, frame: Frame)
    requires Ready(l.state)
    ensures var chunks := FrameChunks(frame);
            && (Sends(l, frame) <==> Affords(l, |chunks|))
            && (Sends(l, frame) ==> Sent(l, frame) == Carried(l, chunks))
  {
    FrameSealable(frame);
    EncryptSeals(l.state.value, FrameChunks(frame));
  }

  lemma CarriedTwice(l: Line, a: seq<seq<byte>>, b: seq<seq<byte>>)
    requires Ready(l.state) && Affords(l, |a|)
    ensures Affords(Carried(l, a), |b|) <==> Affords(l, |a + b|)
    ensures Affords(l, |a + b|) ==> Carried(Carried(l, a), b) == Carried(l, a + b)
  {
    if Affords(l, |a + b|) {
      var s := l.state.value;
      SealsAppend(s, a, b);
      Assoc(l.wire, Seals(s.keys, s.role, s.sendNonce, a), Seals(s.keys, s.role, s.sendNonce + |a|, b));
    }
  }

  lemma PlainSnoc(frames: seq<Frame>, last: Frame)
    ensures Plain(frames + [last]) == Plain(frames) + FrameChunks(last)
  {
    assert (frames + [last])[..|frames|] == frames;
  }

  lemma PlainGrows(a: seq<Frame>, init: seq<Frame>, last: Frame)
    requires Plain(a + init) == Plain(a) + Plain(init)
    ensures Plain((a + init) + [last]) == Plain(a) + Plain(init + [last])
  {
    PlainSnoc(a + init, last);
    PlainSnoc(init, last);
    Assoc(Plain(a), Plain(init), FrameChunks(last));
  }

  lemma {:induction false} PlainAppend(a: seq<Frame>, b: seq<Frame>)
    ensures Plain(a + b) == Plain(a) + Plain(b)
    decreases |b|
  {
    if |b| == 0 {
      assert a + b == a;
    } else {
      var init, last := b[..|b| - 1], b[|b| - 1];
      PlainAppend(a, init);
      PlainGrows(a, init, last);
      LastApart(a, b);
    }
  }

  lemma PlainOne(frame: Frame)
    ensures Plain([frame]) == FrameChunks(frame)
  {
    assert [frame][..0] == [];
    assert Plain([frame]) == Plain([]) + FrameChunks(frame);
  }

  lemma PlainCons(frames: seq<Frame>)
    requires |frames| > 0
    ensures Plain(frames) == FrameChunks(frames[0]) + Plain(frames[1..])
  {
    PlainOne(frames[0]);
    PlainAppend([frames[0]], frames[1..]);
    assert [frames[0]] + frames[1..] == frames;
  }

  /** Any list of frames goes out exactly when the line affords all their chunks, and then it carries just those. */
  lemma {:induction false} SentAllIs(l: Line, frames: seq<Frame>)
    requires Ready(l.state)
    ensures SendsAll(l, frames) <==> Affords(l, |Plain(frames)|)
    ensures SendsAll(l, frames) ==> SentAll(l, frames) == Carried(l, Plain(frames))
    decreases |frames|
  {
    if |frames| == 0 {
      assert l.wire + [] == l.wire;
    } else {
      var chunks := FrameChunks(frames[0]);
      SentIs(l, frames[0]);
      PlainCons(frames);
      if Sends(l, frames[0]) {
        SentAllIs(Sent(l, frames[0]), frames[1..]);
        CarriedTwice(l, chunks, Plain(frames[1..]));
      }
    }
  }

  lemma SealsAppend(s: NoiseState, a: seq<seq<byte>>, b: seq<seq<byte>>)
    requires s.Transport?
    ensures Seals(s.keys, s.role, s.sendNonce, a + b) == Seals(s.keys, s.role, s.sendNonce, a) + Seals(s.keys, s.role, s.sendNonce + |a|, b)
  {
  }

  /** A line that takes fewer packets than `chunks` would make: only the first of them, in order. */
  ghost predicate FallsShort(l: Line, chunks: seq<seq<byte>>, l': Line)
    requires Ready(l.state)
  {
    var s := l.state.value;
    && l.wire <= l'.wire <= l.wire + Seals(s.keys, s.role, s.sendNonce, chunks)
    && |l'.wire| < |l.wire| + |chunks|
    && Broken(l')
  }

  lemma SentShort(l: Line, frame: Frame)
    requires Ready(l.state) && !Sends(l, frame)
    ensures FallsShort(l, FrameChunks(frame), Sent(l, frame))
  {
    var s, chunks := l.state.value, FrameChunks(frame);
    FrameSealable(frame);
    EncryptSeals(s, chunks);
    var packets := Seals(s.keys, s.role, s.sendNonce, chunks);
    if EncryptAll(l.state, chunks).Ok? {
      assert Sent(l, frame).wire == l.wire + packets[..l.left];
    }
  }

  lemma ShortBefore(l: Line, a: seq<seq<byte>>, b: seq<seq<byte>>, l': Line)
    requires Ready(l.state) && FallsShort(l, a, l')
    ensures FallsShort(l, a + b, l')
  {
    SealsAppend(l.state.value, a, b);
  }

  lemma ShortAfter(l: Line, a: seq<seq<byte>>, b: seq<seq<byte>>, l': Line)
    requires Ready(l.state) && Affords(l, |a|) && FallsShort(Carried(l, a), b, l')
    ensures FallsShort(l, a + b, l')
  {
    var s := l.state.value;
    SealsAppend(s, a, b);
    Assoc(l.wire, Seals(s.keys, s.role, s.sendNonce, a), Seals(s.keys, s.role, s.sendNonce + |a|, b));
  }

  /** When it cannot, what it does carry falls short. */
  lemma {:induction false} SentAllShort(l: Line, frames: seq<Frame>)
    requires Ready(l.state) && !SendsAll(l, frames)
    ensures FallsShort(l, Plain(frames), SentAll(l, frames))
    decreases |frames|
  {
    var chunks := FrameChunks(frames[0]);
    SentIs(l, frames[0]);
    PlainCons(frames);
    if Sends(l, frames[0]) {
      SentAllShort(Sent(l, frames[0]), frames[1..]);
      ShortAfter(l, chunks, Plain(frames[1..]), SentAll(l, frames));
    } else {
      SentShort(l, frames[0]);
      ShortBefore(l, chunks, Plain(frames[1..]), SentAll(l, frames));
    }
  }

  /** No packet can go out any more. */
  ghost predicate Broken(l: Line) {
    l.state.None? || l.left == 0
  }

  /** A broken line stays so and takes nothing on. */
  lemma BrokenStays(l: Line, frame: Frame)
    requires Broken(l)
    ensures Broken(Sent(l, frame)) && Sent(l, frame).wire == l.wire && Sent(l, frame).left == l.left
  {
    FrameSealable(frame);
    if l.state.None? {
      assert EncryptAll(l.state, FrameChunks(frame)).Err?;
    } else if EncryptAll(l.state, FrameChunks(frame)).Ok? {
      var packets := EncryptAll(l.state, FrameChunks(frame)).value;
      assert l.wire + packets[..0] == l.wire && l.wire + [] == l.wire;
    }
  }

  lemma PlainSealable(frames: seq<Frame>)
    ensures forall k | 0 <= k < |Plain(frames)| :: |Plain(frames)[k]| <= MAX_CHUNK_PLAIN
    decreases |frames|
  {
    if |frames| > 0 {
      PlainSealable(frames[1..]);
      PlainCons(frames);
      FrameSealable(frames[0]);
    }
  }

  /**
   What a line carries, its peer reads back: the packets added to the wire open in order to the chunks
   of the frames, a fresh receiver with room for the frames decodes them all, and the ends stay in step.
   */
  lemma SentIsDecoded(l: Line, r: NoiseState, frames: seq<Frame>, maxBytes: nat)
    requires Ready(l.state) && InStep(l.state.value, r) && SendsAll(l, frames) && AllFit(frames, maxBytes)
    ensures OpensTo(l, r, Plain(frames), SentAll(l, frames))
    ensures Consume(FRESH, Plain(frames), maxBytes) == Live(Acc(0, []), frames)
  {
    SentAllIs(l, frames);
    PlainSealable(frames);
    CarriedOpens(l, r, Plain(frames));
    StreamDecodes(frames, |Plain(frames)|, maxBytes);
    assert Plain(frames)[..|Plain(frames)|] == Plain(frames);
  }

  /** What was added to the wire opens at `r` to the chunks, and leaves the two ends in step. */
  ghost predicate OpensTo(l: Line, r: NoiseState, chunks: seq<seq<byte>>, l': Line) {
    && l.wire <= l'.wire
    && var packets := l'.wire[|l.wire|..];
       DecryptAll(Some(r), packets) == Ok(Flatten(chunks)) && InStepAfter(l'.state, AfterDecryptAll(Some(r), packets))
  }

  lemma CarriedOpens(l: Line, r: NoiseState, chunks: seq<seq<byte>>)
    requires Ready(l.state) && InStep(l.state.value, r) && Affords(l, |chunks|)
    requires forall k | 0 <= k < |chunks| :: |chunks[k]| <= MAX_CHUNK_PLAIN
    ensures OpensTo(l, r, chunks, Carried(l, chunks))
  {
    var s := l.state.value;
    SealedRoundTrip(s, r, chunks);
    EncryptSeals(s, chunks);
    assert Carried(l, chunks).wire[|l.wire|..] == Seals(s.keys, s.role, s.sendNonce, chunks);
  }
}
