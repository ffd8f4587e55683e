/**
 The receive path of both message loops as a fold over decrypted chunks: accumulate, decode,
 stop at the first error. What it makes of the chunks of any list of frames.
 */
module ReceivePath {
  import opened Basics
  import opened Frames
  import opened Noise

  /** Live while no error arm has been taken; `frames` are those decoded so far. */
  datatype Rx = Live(acc: Acc, frames: seq<Frame>) | Dead(frames: seq<Frame>)

  /** One decrypted chunk: `feed`, then `decode_frame` when a payload is complete. */
  ghost function Take(rx: Rx, chunk: seq<byte>, maxBytes: nat): Rx {
    match rx
    case Dead(_) => rx
    case Live(acc, frames) =>
      match acc.Feed(chunk, maxBytes)
      case Err(_) => Dead(frames)
      case Ok(None) => Live(acc.AfterFeed(chunk, maxBytes), frames)
      case Ok(Some(payload)) =>
        match DecodeFrame(payload)
        case None => Dead(frames)
        case Some(f) => Live(acc.AfterFeed(chunk, maxBytes), frames + [f])
  }

  ghost function Consume(rx: Rx, chunks: seq<seq<byte>>, maxBytes: nat): Rx {
    if |chunks| == 0 then rx
    else Take(Consume(rx, chunks[..|chunks| - 1], maxBytes), chunks[|chunks| - 1], maxBytes)
  }

  const FRESH: Rx := Live(Acc(0, []), [])

  /** The plaintext chunks one frame is sent as. */
  ghost function FrameChunks(f: Frame): seq<seq<byte>> {
    Chunks(EncodeFrame(f))
  }

  /** The plaintext chunks of a list of frames sent one after another. */
  ghost function Plain(fs: seq<Frame>): seq<seq<byte>> {
    if |fs| == 0 then [] else Plain(fs[..|fs| - 1]) + FrameChunks(fs[|fs| - 1])
  }

  /** The frame's encoding is within the receiver's limit and its length survives the 32-bit prefix. */
  ghost predicate Fits(f: Frame, maxBytes: nat) {
    |Postcard(f)| <= maxBytes && |Postcard(f)| < U32
  }

  ghost predicate AllFit(fs: seq<Frame>, maxBytes: nat) {
    forall f | f in fs :: Fits(f, maxBytes)
  }

  lemma {:induction false} ConsumeAppend(rx: Rx, a: seq<seq<byte>>, b: seq<seq<byte>>, maxBytes: nat)
    ensures Consume(rx, a + b, maxBytes) == Consume(Consume(rx, a, maxBytes), b, maxBytes)
  {
    if |b| == 0 {
      assert a + b == a;
    } else {
      ConsumeAppend(rx, a, b[..|b| - 1], maxBytes);
      assert (a + b)[..|a + b| - 1] == a + b[..|b| - 1];
    }
  }

  /** The `k`-th chunk taken after those before it. */
  lemma ConsumeSnoc(rx: Rx, cs: seq<seq<byte>>, k: nat, maxBytes: nat)
    requires 0 < k <= |cs|
    ensures Consume(rx, cs[..k], maxBytes) == Take(Consume(rx, cs[..k - 1], maxBytes), cs[k - 1], maxBytes)
    ensures k == 1 ==> Consume(rx, cs[..k - 1], maxBytes) == rx
  {
    assert cs[..k][..k - 1] == cs[..k - 1];
  }

  lemma {:induction false} DeadStays(frames: seq<Frame>, chunks: seq<seq<byte>>, maxBytes: nat)
    ensures Consume(Dead(frames), chunks, maxBytes) == Dead(frames)
  {
    if |chunks| > 0 {
      DeadStays(frames, chunks[..|chunks| - 1], maxBytes);
    }
  }

  ghost function Min(a: nat, b: nat): nat {
    if a < b then a else b
  }

  /** The chunks are the consecutive full-size slices of `e`, the last one what is left. */
  ghost predicate Sliced(chunks: seq<seq<byte>>, e: seq<byte>) {
    && |e| <= MAX_CHUNK_PLAIN * |chunks|
    && forall k | 0 <= k < |chunks| ::
         && MAX_CHUNK_PLAIN * k < |e|
         && chunks[k] == e[MAX_CHUNK_PLAIN * k..Min(MAX_CHUNK_PLAIN * k + MAX_CHUNK_PLAIN, |e|)]
  }

  lemma {:induction false} ChunksSliced(e: seq<byte>)
    ensures Sliced(Chunks(e), e)
  {
    if |e| > MAX_CHUNK_PLAIN {
      var rest := e[MAX_CHUNK_PLAIN..];
      ChunksSliced(rest);
      forall k | 0 <= k < |Chunks(e)|
        ensures MAX_CHUNK_PLAIN * k < |e|
        ensures Chunks(e)[k] == e[MAX_CHUNK_PLAIN * k..Min(MAX_CHUNK_PLAIN * k + MAX_CHUNK_PLAIN, |e|)]
      {
        if k > 0 {
          assert Chunks(e)[k] == Chunks(rest)[k - 1];
          assert MAX_CHUNK_PLAIN * (k - 1) + MAX_CHUNK_PLAIN == MAX_CHUNK_PLAIN * k;
        }
      }
    }
  }

  /** A payload on its way: its bytes, the length its prefix declares, and what that many bytes decode to. */
  datatype Transfer = Transfer(payload: seq<byte>, declared: nat, decoded: Option<Frame>) {
    ghost predicate Valid() {
      && declared <= |payload| && |payload| > 0
      && DecodeFrame(payload[..declared]) == decoded
      && (decoded.Some? ==> declared == |payload|)
    }

    /** The receiver once `m` payload bytes have arrived. */
    ghost function Midway(m: nat, frames: seq<Frame>): Rx
      requires m <= |payload|
    {
      if m < declared then Live(Acc(declared, payload[..m]), frames)
      else match decoded
        case Some(f) => Live(Acc(0, []), frames + [f])
        case None => Dead(frames)
    }
  }

  /** The first chunk, at an idle receiver. */
  lemma FirstChunk(t: Transfer, prefix: seq<byte>, chunk: seq<byte>, frames: seq<Frame>, maxBytes: nat)
    requires t.Valid() && |prefix| == 4 && FromLe32(prefix) == t.declared
    requires 4 <= |chunk| <= 4 + |t.payload| && chunk == (prefix + t.payload)[..|chunk|]
    ensures Take(Live(Acc(0, []), frames), chunk, maxBytes)
         == if t.declared > maxBytes then Dead(frames) else t.Midway(|chunk| - 4, frames)
  {
    var m := |chunk| - 4;
    assert chunk[..4] == prefix && chunk[4..] == t.payload[..m];
    assert m >= t.declared ==> t.payload[..m][..t.declared] == t.payload[..t.declared];
  }

  /** A later chunk, at a receiver that waits for more. */
  lemma NextChunk(t: Transfer, m: nat, chunk: seq<byte>, frames: seq<Frame>, maxBytes: nat)
    requires t.Valid() && m < t.declared && m + |chunk| <= |t.payload| && chunk == t.payload[m..m + |chunk|]
    ensures Take(t.Midway(m, frames), chunk, maxBytes)
         == if m + |chunk| > maxBytes then Dead(frames) else t.Midway(m + |chunk|, frames)
  {
    var n := m + |chunk|;
    assert t.payload[..m] + chunk == t.payload[..n];
    assert n >= t.declared ==> t.payload[..n][..t.declared] == t.payload[..t.declared];
  }

  /** Payload bytes in the first `k` > 0 chunks. */
  ghost function Arrived(t: Transfer, k: nat): (m: nat)
    requires k > 0
    ensures m <= |t.payload|
  {
    Min(MAX_CHUNK_PLAIN * k - 4, |t.payload|)
  }

  /** Every chunk but the first is the payload slice from where the chunks before it end. */
  lemma SliceAt(t: Transfer, prefix: seq<byte>, cs: seq<seq<byte>>, k: nat)
    requires |prefix| == 4 && Sliced(cs, prefix + t.payload) && 1 < k <= |cs|
    ensures Arrived(t, k) == Arrived(t, k - 1) + |cs[k - 1]| && Arrived(t, k - 1) < |t.payload|
    ensures cs[k - 1] == t.payload[Arrived(t, k - 1)..Arrived(t, k)]
  {
    var e := prefix + t.payload;
    assert Arrived(t, k - 1) == MAX_CHUNK_PLAIN * (k - 1) - 4;
    assert e[4..] == t.payload;
  }

  /** After `k` > 0 chunks the receiver is where its byte count says, or dead because the payload is over the limit or undecodable. */
  ghost predicate OnCourse(rx: Rx, t: Transfer, k: nat, frames: seq<Frame>, maxBytes: nat)
    requires k > 0
  {
    || (rx == Dead(frames) && (|t.payload| > maxBytes || t.decoded.None?))
    || (rx == t.Midway(Arrived(t, k), frames) && t.declared <= maxBytes)
  }

  lemma StaysOnCourse(rx: Rx, t: Transfer, prefix: seq<byte>, cs: seq<seq<byte>>, k: nat, frames: seq<Frame>, maxBytes: nat)
    requires t.Valid() && |prefix| == 4 && Sliced(cs, prefix + t.payload) && 1 < k <= |cs|
    requires OnCourse(rx, t, k - 1, frames, maxBytes)
    ensures OnCourse(Take(rx, cs[k - 1], maxBytes), t, k, frames, maxBytes)
  {
    SliceAt(t, prefix, cs, k);
    if rx != Dead(frames) && Arrived(t, k - 1) < t.declared {
      NextChunk(t, Arrived(t, k - 1), cs[k - 1], frames, maxBytes);
    }
  }

  lemma {:induction false} WithinFrame(t: Transfer, prefix: seq<byte>, cs: seq<seq<byte>>, k: nat, frames: seq<Frame>, maxBytes: nat)
    requires t.Valid() && |prefix| == 4 && FromLe32(prefix) == t.declared
    requires Sliced(cs, prefix + t.payload) && 0 < k <= |cs|
    ensures OnCourse(Consume(Live(Acc(0, []), frames), cs[..k], maxBytes), t, k, frames, maxBytes)
    decreases k
  {
    var idle := Live(Acc(0, []), frames);
    ConsumeSnoc(idle, cs, k, maxBytes);
    if k == 1 {
      FirstChunk(t, prefix, cs[0], frames, maxBytes);
    } else {
      WithinFrame(t, prefix, cs, k - 1, frames, maxBytes);
      StaysOnCourse(Consume(idle, cs[..k - 1], maxBytes), t, prefix, cs, k, frames, maxBytes);
    }
  }

  /** A payload cut to the length its prefix declares: the whole of it below 2^32, less from there on. */
  lemma DeclaredLength(p: seq<byte>)
    ensures var n := |p| % U32; n <= |p| && n == FromLe32(Prefix(p)) && (if |p| < U32 then p[..n] == p else n < |p|)
  {
    if |p| < U32 {
      assert |p| % U32 == |p|;
    }
  }

  lemma FrameDeclared(f: Frame, n: nat)
    requires n == |Postcard(f)| % U32
    ensures n <= |Postcard(f)| && DecodeFrame(Postcard(f)[..n]) == if |Postcard(f)| < U32 then Some(f) else None
  {
    DeclaredLength(Postcard(f));
    if |Postcard(f)| < U32 {
      DecodeWhole(f);
    } else {
      CutShortFails(f, n);
    }
  }

  /** The length the prefix of a frame declares is its own exactly when it is below 2^32; cut short, it does not decode. */
  lemma FrameTransfer(f: Frame) returns (t: Transfer)
    ensures t.Valid() && t.payload == Postcard(f) && EncodeFrame(f) == Prefix(Postcard(f)) + t.payload
    ensures t.declared == |Postcard(f)| % U32 == FromLe32(Prefix(Postcard(f)))
    ensures t.decoded == if |Postcard(f)| < U32 then Some(f) else None
  {
    var n := |Postcard(f)| % U32;
    FrameDeclared(f, n);
    DeclaredLength(Postcard(f));
    t := Transfer(Postcard(f), n, DecodeFrame(Postcard(f)[..n]));
  }

  /** A whole frame at an idle receiver: decoded if it fits, fatal otherwise; short of its last chunk, nothing is decoded. */
  lemma OneFrame(f: Frame, k: nat, frames: seq<Frame>, maxBytes: nat)
    requires k <= |FrameChunks(f)|
    ensures var rx := Consume(Live(Acc(0, []), frames), FrameChunks(f)[..k], maxBytes);
            if k < |FrameChunks(f)| then rx.frames == frames && (Fits(f, maxBytes) ==> rx.Live?)
            else rx == if Fits(f, maxBytes) then Live(Acc(0, []), frames + [f]) else Dead(frames)
  {
    var t := FrameTransfer(f);
    var cs := FrameChunks(f);
    ChunksSliced(EncodeFrame(f));
    SlicedFrame(t, Prefix(Postcard(f)), cs, k, frames, maxBytes);
  }

  lemma SlicedFrame(t: Transfer, prefix: seq<byte>, cs: seq<seq<byte>>, k: nat, frames: seq<Frame>, maxBytes: nat)
    requires t.Valid() && |prefix| == 4 && FromLe32(prefix) == t.declared == |t.payload| % U32
    requires t.decoded.Some? <==> |t.payload| < U32
    requires Sliced(cs, prefix + t.payload) && k <= |cs|
    ensures var rx := Consume(Live(Acc(0, []), frames), cs[..k], maxBytes);
            var fits := |t.payload| <= maxBytes && |t.payload| < U32;
            if k < |cs| then rx.frames == frames && (fits ==> rx.Live?)
            else rx == if fits then Live(Acc(0, []), frames + [t.decoded.value]) else Dead(frames)
  {
    if k > 0 {
      WithinFrame(t, prefix, cs, k, frames, maxBytes);
      assert k < |cs| ==> Arrived(t, k) < |t.payload|;
      assert k == |cs| ==> Arrived(t, k) == |t.payload|;
    } else {
      assert cs[..0] == [];
    }
  }

  ghost predicate Streamed(rx: Rx, fs: seq<Frame>, complete: bool, maxBytes: nat) {
    && rx.frames <= fs
    && (AllFit(fs, maxBytes) ==> rx.Live?)
    && (complete && rx.Live? ==> rx == Live(Acc(0, []), fs) && AllFit(fs, maxBytes))
  }

  lemma NextFrame(mid: Rx, init: seq<Frame>, f: Frame, k: nat, maxBytes: nat)
    requires Streamed(mid, init, true, maxBytes) && 0 < k <= |FrameChunks(f)|
    ensures Streamed(Consume(mid, FrameChunks(f)[..k], maxBytes), init + [f], k == |FrameChunks(f)|, maxBytes)
  {
    if mid.Live? {
      OneFrame(f, k, init, maxBytes);
    } else {
      DeadStays(mid.frames, FrameChunks(f)[..k], maxBytes);
    }
    assert AllFit(init + [f], maxBytes) ==> AllFit(init, maxBytes) && Fits(f, maxBytes) by {
      assert forall g | g in init :: g in init + [f];
      assert f in init + [f];
    }
  }

  /**
   Any prefix of the chunks of any list of frames: what is decoded is a prefix of the frames; the
   receiver stays live if they all fit; live after the last chunk, it is idle with exactly the frames.
   */
  lemma {:induction false} StreamDecodes(fs: seq<Frame>, n: nat, maxBytes: nat)
    requires n <= |Plain(fs)|
    ensures Streamed(Consume(FRESH, Plain(fs)[..n], maxBytes), fs, n == |Plain(fs)|, maxBytes)
  {
    if |fs| > 0 {
      var init, f := fs[..|fs| - 1], fs[|fs| - 1];
      assert fs == init + [f];
      var base := |Plain(init)|;
      if n <= base {
        StreamDecodes(init, n, maxBytes);
        assert Plain(fs)[..n] == Plain(init)[..n];
        ChunksShape(EncodeFrame(f));
      } else {
        StreamDecodes(init, base, maxBytes);
        assert Plain(init)[..base] == Plain(init);
        assert Plain(fs)[..n] == Plain(init) + FrameChunks(f)[..n - base];
        ConsumeAppend(FRESH, Plain(init), FrameChunks(f)[..n - base], maxBytes);
        NextFrame(Consume(FRESH, Plain(init), maxBytes), init, f, n - base, maxBytes);
      }
    } else {
      assert Plain(fs)[..n] == [];
    }
  }

  /** A non-empty list of chunks of legal size, fewer than 2^48. */
  ghost predicate Sealable(chunks: seq<seq<byte>>) {
    0 < |chunks| < 0x1_0000_0000_0000 && forall k | 0 <= k < |chunks| :: |chunks[k]| <= MAX_CHUNK_PLAIN
  }

  lemma FrameSealable(f: Frame)
    ensures Sealable(FrameChunks(f))
  {
    ChunksShape(EncodeFrame(f));
    EncodedSize(f);
  }

  lemma EncodedSize(f: Frame)
    ensures |EncodeFrame(f)| <= 24 + |f.data|
  {
    Capacities();
    VarintShort(f.id, 5, 15);
    VarintShort(KindIndex(f.kind), 5, 15);
    VarintShort(|f.data|, 10, 1);
  }

  lemma {:induction false} VarintShort(n: nat, width: nat, last: nat)
    requires last < 128 && n < Capacity(width, last)
    ensures |Varint(n)| <= width
    decreases width
  {
    if n >= 128 {
      VarintShort(n / 128, width - 1, last);
    }
  }
}
