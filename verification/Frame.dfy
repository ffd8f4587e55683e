/**
 Frames (src/frame.rs): the postcard form of a frame, its length prefix, and the accumulator
 that reassembles a frame from the pieces the Noise layer cut it into.
 */
module Frames {
  import opened Basics

  /** A byte vector; its length fits Rust's isize. */
  type Bytes = s: seq<byte> | |s| < 0x8000_0000_0000_0000

  datatype FrameKind = Message | Event | Ping | Pong

  datatype Frame = Frame(id: u32, kind: FrameKind, data: Bytes)

  /** The heartbeat's frames. */
  const PING: Frame := Frame(0, Ping, [])
  const PONG: Frame := Frame(0, Pong, [])

  // ------------------------------------------------------------------
  // Postcard
  // ------------------------------------------------------------------

  /** Little-endian base 128, the high bit of a byte saying that more follow. */
  function Varint(n: nat): (bs: seq<byte>)
    ensures |bs| > 0
  {
    if n < 128 then [n] else [128 + n % 128] + Varint(n / 128)
  }

  /** One more than the largest value of `width` varint bytes whose last is at most `last`. */
  function Capacity(width: nat, last: nat): (n: nat)
    ensures width > 0 ==> n > 0
  {
    if width == 0 then 0 else if width == 1 then last + 1 else 128 * Capacity(width - 1, last)
  }

  /** Reads a varint of at most `width` bytes whose byte number `width` is at most `last`; None is a decoding error. */
  function TakeVarint(bs: seq<byte>, width: nat, last: nat): (r: Option<(nat, seq<byte>)>)
    requires last < 128
    ensures r.Some? ==> r.value.0 < Capacity(width, last)
    decreases width
  {
    if width == 0 || |bs| == 0 then None
    else if bs[0] < 128 then
      if width == 1 && bs[0] > last then None else Some((bs[0], bs[1..]))
    else match TakeVarint(bs[1..], width - 1, last)
      case None => None
      case Some(p) => Some((bs[0] - 128 + 128 * p.0, p.1))
  }

  lemma {:induction false} VarintRoundTrip(n: nat, rest: seq<byte>, width: nat, last: nat)
    requires last < 128 && n < Capacity(width, last)
    ensures TakeVarint(Varint(n) + rest, width, last) == Some((n, rest))
    decreases width
  {
    var bs := Varint(n) + rest;
    if n < 128 {
      assert bs[1..] == rest;
    } else {
      assert bs[1..] == Varint(n / 128) + rest;
      assert width > 1;
      VarintRoundTrip(n / 128, rest, width - 1, last);
    }
  }

  /** A varint cut short does not decode. */
  lemma {:induction false} VarintCutShort(n: nat, k: nat, width: nat, last: nat)
    requires k < |Varint(n)| && last < 128
    ensures TakeVarint(Varint(n)[..k], width, last) == None
    decreases width
  {
    if k > 0 && width > 0 {
      assert Varint(n)[..k][1..] == Varint(n / 128)[..k - 1];
      VarintCutShort(n / 128, k - 1, width - 1, last);
    }
  }

  /** The last varint byte of a u32 carries 4 bits, that of a usize 1 bit. */
  lemma Capacities()
    ensures Capacity(5, 15) == U32
    ensures Capacity(10, 1) == 0x1_0000_0000_0000_0000
  {
    assert Capacity(2, 15) == 128 * 16 && Capacity(3, 15) == 128 * 128 * 16;
    assert Capacity(2, 1) == 256 && Capacity(3, 1) == 128 * 256 && Capacity(4, 1) == 128 * 128 * 256;
    assert Capacity(5, 1) == 128 * 128 * 128 * 256 && Capacity(6, 1) == 128 * 128 * 128 * 128 * 256;
    assert Capacity(7, 1) == 128 * Capacity(6, 1) && Capacity(8, 1) == 128 * Capacity(7, 1);
    assert Capacity(9, 1) == 128 * Capacity(8, 1) && Capacity(10, 1) == 128 * Capacity(9, 1);
  }

  function KindIndex(kind: FrameKind): nat {
    match kind
    case Message => 0
    case Event => 1
    case Ping => 2
    case Pong => 3
  }

  function KindFromIndex(i: nat): Option<FrameKind> {
    if i == 0 then Some(Message)
    else if i == 1 then Some(Event)
    else if i == 2 then Some(Ping)
    else if i == 3 then Some(Pong)
    else None
  }

  /** The postcard bytes of a frame: id, kind and data length as varints, then the data. */
  function Postcard(f: Frame): (bs: seq<byte>)
    ensures |bs| >= 3
  {
    Varint(f.id) + (Varint(KindIndex(f.kind)) + (Varint(|f.data|) + f.data))
  }

  /** Decode a frame; bytes after it are ignored, and None is a decoding error. */
  function DecodeFrame(bs: seq<byte>): Option<Frame> {
    Capacities();
    match TakeVarint(bs, 5, 15)
    case None => None
    case Some((id, afterId)) =>
      match TakeVarint(afterId, 5, 15)
      case None => None
      case Some((kind, afterKind)) =>
        match TakeVarint(afterKind, 10, 1)
        case None => None
        case Some((len, afterLen)) =>
          if KindFromIndex(kind).None? || len > |afterLen| || len >= 0x8000_0000_0000_0000 then None
          else Some(Frame(id, KindFromIndex(kind).value, afterLen[..len]))
  }

  /** Decoding undoes encoding, whatever bytes follow. */
  lemma DecodeEncode(f: Frame, junk: seq<byte>)
    ensures DecodeFrame(Postcard(f) + junk) == Some(f)
  {
    Capacities();
    var tail3 := f.data + junk;
    var tail2 := Varint(|f.data|) + tail3;
    var tail1 := Varint(KindIndex(f.kind)) + tail2;
    assert Postcard(f) + junk == Varint(f.id) + tail1;
    VarintRoundTrip(f.id, tail1, 5, 15);
    VarintRoundTrip(KindIndex(f.kind), tail2, 5, 15);
    VarintRoundTrip(|f.data|, tail3, 10, 1);
    assert tail3[..|f.data|] == f.data;
  }

  lemma DecodeWhole(f: Frame)
    ensures DecodeFrame(Postcard(f)) == Some(f)
  {
    DecodeEncode(f, []);
    assert Postcard(f) + [] == Postcard(f);
  }

  /** Two frames with the same bytes are the same frame. */
  lemma PostcardInjective(f: Frame, g: Frame)
    requires Postcard(f) == Postcard(g)
    ensures f == g
  {
    DecodeWhole(f);
    DecodeWhole(g);
  }

  /** A frame cut short anywhere does not decode: no proper prefix of an encoding passes for a frame. */
  lemma CutShortFails(f: Frame, k: nat)
    requires k < |Postcard(f)|
    ensures DecodeFrame(Postcard(f)[..k]) == None
  {
    Capacities();
    var a, b, c := Varint(f.id), Varint(KindIndex(f.kind)), Varint(|f.data|);
    var bs := Postcard(f)[..k];
    if k < |a| {
      assert bs == a[..k];
      VarintCutShort(f.id, k, 5, 15);
    } else {
      var k1 := k - |a|;
      var rest1 := (b + (c + f.data))[..k1];
      assert bs == a + rest1;
      VarintRoundTrip(f.id, rest1, 5, 15);
      if k1 < |b| {
        assert rest1 == b[..k1];
        VarintCutShort(KindIndex(f.kind), k1, 5, 15);
      } else {
        var k2 := k1 - |b|;
        var rest2 := (c + f.data)[..k2];
        assert rest1 == b + rest2;
        VarintRoundTrip(KindIndex(f.kind), rest2, 5, 15);
        if k2 < |c| {
          assert rest2 == c[..k2];
          VarintCutShort(|f.data|, k2, 10, 1);
        } else {
          assert rest2 == c + f.data[..k2 - |c|];
          VarintRoundTrip(|f.data|, f.data[..k2 - |c|], 10, 1);
        }
      }
    }
  }

  // ------------------------------------------------------------------
  // Length prefix
  // ------------------------------------------------------------------

  /** The four little-endian bytes of a u32. */
  function ToLe32(n: u32): (bs: seq<byte>)
    ensures |bs| == 4
  {
    [n % 256, n / 0x100 % 256, n / 0x1_0000 % 256, n / 0x100_0000]
  }

  function FromLe32(bs: seq<byte>): (n: u32)
    requires |bs| == 4
  {
    bs[0] as int + 0x100 * bs[1] as int + 0x1_0000 * bs[2] as int + 0x100_0000 * bs[3] as int
  }

  lemma Le32RoundTrip(n: u32)
    ensures FromLe32(ToLe32(n)) == n
  {
    var q1 := n / 0x100;
    var q2 := q1 / 0x100;
    assert n / 0x1_0000 == q2 && n / 0x100_0000 == q2 / 0x100;
  }

  /** The prefix that announces `payload`: its length truncated to 32 bits. */
  function Prefix(payload: seq<byte>): (bs: seq<byte>)
    ensures |bs| == 4 && FromLe32(bs) == |payload| % U32
  {
    Le32RoundTrip(|payload| % U32);
    ToLe32(|payload| % U32)
  }

  /** What goes to the cipher: the postcard form behind four bytes that give its length. */
  function EncodeFrame(f: Frame): (bs: seq<byte>)
    ensures |bs| >= 7
  {
    Prefix(Postcard(f)) + Postcard(f)
  }

  // ------------------------------------------------------------------
  // Reassembly
  // ------------------------------------------------------------------

  datatype FeedError = TooShort | PayloadTooLarge

  /** The accumulator's two fields as a value. */
  datatype Acc = Acc(expectedLen: nat, buffer: seq<byte>) {
    predicate Idle() {
      expectedLen == 0 && |buffer| == 0
    }

    /** What `feed` answers: a complete payload, or None when more is needed. */
    ghost function Feed(chunk: seq<byte>, maxBytes: nat): Result<Option<seq<byte>>, FeedError> {
      if expectedLen == 0 then
        if |chunk| < 4 then Err(TooShort)
        else
          var len := FromLe32(chunk[..4]);
          if len > maxBytes then Err(PayloadTooLarge) else Acc(len, chunk[4..]).Complete()
      else
        if |buffer| + |chunk| > maxBytes then Err(PayloadTooLarge) else Acc(expectedLen, buffer + chunk).Complete()
    }

    ghost function Complete(): Result<Option<seq<byte>>, FeedError> {
      if |buffer| >= expectedLen then Ok(Some(buffer[..expectedLen])) else Ok(None)
    }

    /** The state `feed` leaves. */
    ghost function AfterFeed(chunk: seq<byte>, maxBytes: nat): Acc {
      if expectedLen == 0 then
        if |chunk| < 4 then this
        else
          var len := FromLe32(chunk[..4]);
          if len > maxBytes then Acc(len, buffer) else Acc(len, chunk[4..]).AfterComplete()
      else
        if |buffer| + |chunk| > maxBytes then Acc(expectedLen, buffer + chunk)
        else Acc(expectedLen, buffer + chunk).AfterComplete()
    }

    ghost function AfterComplete(): Acc {
      if |buffer| >= expectedLen then Acc(0, []) else this
    }

    /** Idle and empty, or waiting for more with a bounded buffer. */
    ghost predicate Bounded(maxBytes: nat) {
      Idle() || |buffer| < expectedLen <= maxBytes
    }
  }

  /** Whatever bytes arrive, an answer that is not an error leaves the accumulator idle or waiting with a bounded buffer. */
  lemma FeedBounded(a: Acc, chunk: seq<byte>, maxBytes: nat)
    requires a.Bounded(maxBytes)
    ensures a.Feed(chunk, maxBytes).Ok? ==> a.AfterFeed(chunk, maxBytes).Bounded(maxBytes)
    ensures a.Feed(chunk, maxBytes).Ok? ==> (a.Feed(chunk, maxBytes).value.Some? <==> a.AfterFeed(chunk, maxBytes).Idle())
    ensures a.Feed(chunk, maxBytes).Ok? && a.Feed(chunk, maxBytes).value.Some? ==> |a.Feed(chunk, maxBytes).value.value| <= maxBytes
  {
  }

  class FrameAccumulator {
    var expectedLen: nat
    var buffer: seq<byte>

    ghost function View(): Acc
      reads this
    {
      Acc(expectedLen, buffer)
    }

    constructor ()
      ensures View() == Acc(0, [])
    {
      expectedLen, buffer := 0, [];
    }

    /** Feed a decrypted chunk: Some(bytes) when a frame is complete, None when more data is needed. */
    method Feed(chunk: seq<byte>, maxBytes: nat) returns (r: Result<Option<seq<byte>>, FeedError>)
      modifies this
      ensures r == old(View()).Feed(chunk, maxBytes)
      ensures View() == old(View()).AfterFeed(chunk, maxBytes)
    {
      if expectedLen == 0 {
        if |chunk| < 4 {
          return Err(TooShort);
        }
        expectedLen := FromLe32(chunk[..4]);
        if expectedLen > maxBytes {
          return Err(PayloadTooLarge);
        }
        buffer := [];
        buffer := buffer + chunk[4..];
        assert buffer == chunk[4..];
      } else {
        buffer := buffer + chunk;
        if |buffer| > maxBytes {
          return Err(PayloadTooLarge);
        }
      }
      if |buffer| >= expectedLen {
        var complete := buffer[..expectedLen];
        expectedLen := 0;
        buffer := [];
        return Ok(Some(complete));
      }
      return Ok(None);
    }
  }

  /** Feeding pieces one after another: the answers up to and including the first error. */
  ghost function FeedAll(a: Acc, pieces: seq<seq<byte>>, maxBytes: nat): seq<Result<Option<seq<byte>>, FeedError>>
    decreases |pieces|
  {
    if |pieces| == 0 then []
    else
      var r := a.Feed(pieces[0], maxBytes);
      [r] + if r.Err? then [] else FeedAll(a.AfterFeed(pieces[0], maxBytes), pieces[1..], maxBytes)
  }

  /** The answers a caller hopes for: None for every piece but the last, then the payload. */
  ghost function Delivered(n: nat, payload: seq<byte>): seq<Result<Option<seq<byte>>, FeedError>>
    requires n > 0
  {
    Copies(Ok(None), n - 1) + [Ok(Some(payload))]
  }

  lemma DeliveredOne(payload: seq<byte>)
    ensures Delivered(1, payload) == [Ok(Some(payload))]
  {
    assert Copies<Result<Option<seq<byte>>, FeedError>>(Ok(None), 0) == [];
  }

  /** Continuing a frame of which `have` has arrived: delivery happens at the last piece exactly when that piece is not empty. */
  lemma {:induction false} ContinueDelivers(payload: seq<byte>, have: nat, pieces: seq<seq<byte>>, maxBytes: nat)
    requires have < |payload| <= maxBytes && |pieces| > 0
    requires payload[have..] == Flatten(pieces)
    ensures FeedAll(Acc(|payload|, payload[..have]), pieces, maxBytes) == Delivered(|pieces|, payload) <==> |pieces[|pieces| - 1]| > 0
    decreases |pieces|
  {
    var a, p := Acc(|payload|, payload[..have]), pieces[0];
    var got := have + |p|;
    assert Flatten(pieces)[..|p|] == p;
    assert payload[..have] + p == payload[..got];
    if |pieces| == 1 {
      assert Flatten(pieces[1..]) == [];
      assert p == payload[have..] && payload[..have] + p == payload;
      DeliveredOne(payload);
      assert FeedAll(a, pieces, maxBytes) == [Ok(Some(payload))];
    } else if got < |payload| {
      assert Flatten(pieces[1..]) == Flatten(pieces)[|p|..] == payload[got..];
      assert a.Feed(p, maxBytes) == Ok(None);
      ContinueDelivers(payload, got, pieces[1..], maxBytes);
      DeliveredUnfold(|pieces|, payload, FeedAll(Acc(|payload|, payload[..got]), pieces[1..], maxBytes));
    } else {
      assert FeedAll(a, pieces, maxBytes)[0].value.Some?;
      assert Delivered(|pieces|, payload)[0] == Ok(None);
      assert Flatten(pieces[1..]) == Flatten(pieces)[|p|..] == [];
      LastEmpty(pieces[1..]);
    }
  }

  lemma {:induction false} LastEmpty(pieces: seq<seq<byte>>)
    requires |pieces| > 0 && Flatten(pieces) == []
    ensures pieces[|pieces| - 1] == []
  {
    if |pieces| > 1 {
      assert |Flatten(pieces)| == |pieces[0]| + |Flatten(pieces[1..])|;
      LastEmpty(pieces[1..]);
    }
  }

  /** The first piece, when it holds the prefix but not the whole: the accumulator waits with what follows the prefix. */
  lemma FirstPiece(payload: seq<byte>, p: seq<byte>, maxBytes: nat)
    requires 0 < |payload| <= maxBytes && |payload| < U32
    requires 4 <= |p| <= 4 + |payload| && p == (Prefix(payload) + payload)[..|p|]
    ensures var have := |p| - 4;
            && Acc(0, []).Feed(p, maxBytes) == (if have < |payload| then Ok(None) else Ok(Some(payload)))
            && Acc(0, []).AfterFeed(p, maxBytes) == (if have < |payload| then Acc(|payload|, payload[..have]) else Acc(0, []))
  {
    assert p[..4] == Prefix(payload) && p[4..] == payload[..|p| - 4];
    assert payload[..|payload|] == payload;
  }

  /**
   Reassembly: a prefixed payload that fits is delivered whole at its last piece, and nothing before,
   exactly when the first piece holds the whole prefix and the last of several pieces is not empty.
   */
  lemma Reassembly(payload: seq<byte>, pieces: seq<seq<byte>>, maxBytes: nat)
    requires 0 < |payload| <= maxBytes && |payload| < U32
    requires |pieces| > 0 && Flatten(pieces) == Prefix(payload) + payload
    ensures FeedAll(Acc(0, []), pieces, maxBytes) == Delivered(|pieces|, payload)
       <==> |pieces[0]| >= 4 && (|pieces| > 1 ==> |pieces[|pieces| - 1]| > 0)
  {
    var a, p, whole := Acc(0, []), pieces[0], Prefix(payload) + payload;
    assert whole[..|p|] == p && Flatten(pieces[1..]) == whole[|p|..];
    assert |pieces| == 1 ==> |p| == |whole|;
    if |p| < 4 {
      assert FeedAll(a, pieces, maxBytes)[0].Err?;
    } else {
      FirstPiece(payload, p, maxBytes);
      var rest := FeedAll(a.AfterFeed(p, maxBytes), pieces[1..], maxBytes);
      assert FeedAll(a, pieces, maxBytes) == [a.Feed(p, maxBytes)] + rest;
      if |p| < |whole| {
        assert whole[|p|..] == payload[|p| - 4..];
        ContinueDelivers(payload, |p| - 4, pieces[1..], maxBytes);
        DeliveredUnfold(|pieces|, payload, rest);
      } else if |pieces| > 1 {
        assert Delivered(|pieces|, payload)[0] == Ok(None);
        LastEmpty(pieces[1..]);
      } else {
        assert rest == [];
      }
    }
  }

  lemma DeliveredUnfold(n: nat, payload: seq<byte>, rest: seq<Result<Option<seq<byte>>, FeedError>>)
    requires n > 1
    ensures [Ok(None)] + rest == Delivered(n, payload) <==> rest == Delivered(n - 1, payload)
  {
    assert Delivered(n, payload) == [Ok(None)] + Delivered(n - 1, payload);
    assert ([Ok(None)] + rest)[1..] == rest;
    assert Delivered(n, payload)[1..] == Delivered(n - 1, payload);
  }
}
