/** The bytes of a frame (src/frame.rs), read by the value of each place and not by this project's own decoder. */
module WireFormat {
  import opened Basics
  import opened Frames

  /** Digits to base 256, the least significant first. */
  function LeastFirst(bs: seq<byte>): nat {
    if |bs| == 0 then 0 else bs[0] + 256 * LeastFirst(bs[1..])
  }

  /** Digits to base 128 in the low seven bits of each byte, the least significant first. */
  function Groups(bs: seq<byte>): nat {
    if |bs| == 0 then 0 else bs[0] % 128 + 128 * Groups(bs[1..])
  }

  /** The bytes of a varint: the high bit says that more follow, and no byte is spent on nothing. */
  ghost predicate IsVarint(bs: seq<byte>, n: nat) {
    && |bs| > 0 && Groups(bs) == n
    && (forall k | 0 <= k < |bs| - 1 :: bs[k] >= 128)
    && bs[|bs| - 1] < 128 && (|bs| > 1 ==> bs[|bs| - 1] > 0)
  }

  lemma VarintIs(n: nat)
    ensures IsVarint(Varint(n), n)
  {
    if n < 128 {
      assert Varint(n)[1..] == [];
    } else {
      VarintIs(n / 128);
      assert Varint(n)[1..] == Varint(n / 128);
      assert (128 + n % 128) % 128 == n % 128;
      VarintNotZero(n / 128);
    }
  }

  /** A varint of one byte is zero only for zero. */
  lemma VarintNotZero(n: nat)
    requires n > 0
    ensures Varint(n)[|Varint(n)| - 1] > 0
  {
    if n >= 128 {
      VarintNotZero(n / 128);
    }
  }

  /** There is one way to write each number. */
  lemma {:induction false} VarintUnique(a: seq<byte>, b: seq<byte>, n: nat)
    requires IsVarint(a, n) && IsVarint(b, n)
    ensures a == b
    decreases |a|
  {
    assert a == [a[0]] + a[1..] && b == [b[0]] + b[1..];
    assert Groups(a) % 128 == a[0] % 128 && Groups(b) % 128 == b[0] % 128;
    if |a| > 1 && |b| > 1 {
      VarintUnique(a[1..], b[1..], n / 128);
    } else if |a| > 1 {
      LongIsLarge(a);
    } else if |b| > 1 {
      LongIsLarge(b);
    }
  }

  lemma {:induction false} LongIsLarge(a: seq<byte>)
    requires |a| > 0 && IsVarint(a, Groups(a))
    ensures |a| > 1 ==> Groups(a) >= 128
    ensures |a| == 1 ==> Groups(a) == a[0]
    decreases |a|
  {
    if |a| > 1 {
      LongIsLarge(a[1..]);
    } else {
      assert a[1..] == [];
    }
  }

  /** The byte of each kind: its place in the declaration of the kinds. */
  ghost predicate IsKind(b: byte, kind: FrameKind) {
    && (b == 0 <==> kind == Message)
    && (b == 1 <==> kind == Event)
    && (b == 2 <==> kind == Ping)
    && (b == 3 <==> kind == Pong)
  }

  /** The postcard form: a varint of the id, the kind's byte, a varint of the number of data bytes, the data. */
  lemma PostcardLayout(f: Frame) returns (i: nat, j: nat)
    ensures i < j <= |Postcard(f)|
    ensures IsVarint(Postcard(f)[..i], f.id) && IsKind(Postcard(f)[i], f.kind)
    ensures IsVarint(Postcard(f)[i + 1..j], |f.data|) && Postcard(f)[j..] == f.data
  {
    var id, kind, count := Varint(f.id), Varint(KindIndex(f.kind)), Varint(|f.data|);
    VarintIs(f.id);
    VarintIs(|f.data|);
    i, j := |id|, |id| + 1 + |count|;
    var bs := Postcard(f);
    assert bs == id + (kind + (count + f.data)) && |kind| == 1;
    assert bs == (id + kind + count) + f.data;
    assert bs[..i] == id && bs[i] == kind[0];
    assert bs[j..] == f.data;
    assert bs[i + 1..j] == count;
  }

  /** Reading four bytes least significant first is reading them by place value. */
  lemma ReadsLeastFirst(bs: seq<byte>)
    requires |bs| == 4
    ensures FromLe32(bs) == LeastFirst(bs)
  {
    assert bs[1..][1..] == bs[2..] && bs[2..][1..] == bs[3..] && bs[3..][1..] == [];
    assert LeastFirst(bs[3..]) == bs[3];
    assert LeastFirst(bs[2..]) == bs[2] + 256 * LeastFirst(bs[3..]);
    assert LeastFirst(bs[1..]) == bs[1] + 256 * LeastFirst(bs[2..]);
  }

  /** What goes to the cipher: four bytes that give the payload's length, least significant first, and then the payload. */
  lemma EncodedLayout(f: Frame)
    ensures LeastFirst(EncodeFrame(f)[..4]) == |Postcard(f)| % 0x1_0000_0000
    ensures EncodeFrame(f)[4..] == Postcard(f)
  {
    ReadsLeastFirst(Prefix(Postcard(f)));
    assert EncodeFrame(f)[..4] == Prefix(Postcard(f));
  }

  /** The heartbeat's frames, byte by byte. */
  lemma HeartbeatBytes()
    ensures EncodeFrame(PING) == [3, 0, 0, 0, 0, 2, 0]
    ensures EncodeFrame(PONG) == [3, 0, 0, 0, 0, 3, 0]
  {
    assert Postcard(PING) == [0] + ([2] + ([0] + [])) && Postcard(PONG) == [0] + ([3] + ([0] + []));
  }
}
