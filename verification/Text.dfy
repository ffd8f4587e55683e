/**
 The string operations of Rust's standard library that the models use, on sequences of characters.
 */
module Text {
  import opened Basics

  /** The Unicode White_Space property. */
  predicate IsWhite(c: char) {
    || '\U{9}' <= c <= '\U{D}' || c == ' ' || c == '\U{85}' || c == '\U{A0}' || c == '\U{1680}'
    || '\U{2000}' <= c <= '\U{200A}' || c == '\U{2028}' || c == '\U{2029}' || c == '\U{202F}'
    || c == '\U{205F}' || c == '\U{3000}'
  }

  function TrimStart(s: string): (r: string)
    ensures |r| <= |s| && (|r| == |s| ==> r == s)
  {
    if |s| > 0 && IsWhite(s[0]) then TrimStart(s[1..]) else s
  }

  function TrimEnd(s: string): (r: string)
    ensures |r| <= |s| && (|r| == |s| ==> r == s)
  {
    if |s| > 0 && IsWhite(s[|s| - 1]) then TrimEnd(s[..|s| - 1]) else s
  }

  /** Without the white space at its two ends; a trim that loses no character changes nothing. */
  function Trim(s: string): (r: string)
    ensures |r| <= |s| && (|r| == |s| ==> r == s)
  {
    TrimEnd(TrimStart(s))
  }

  /** Without the copies of `c` at its end. */
  function TrimEndChar(s: string, c: char): string {
    if |s| > 0 && s[|s| - 1] == c then TrimEndChar(s[..|s| - 1], c) else s
  }

  function StripPrefix(s: string, prefix: string): Option<string> {
    if prefix <= s then Some(s[|prefix|..]) else None
  }

  /** The position of the first `c`. */
  function Find(s: string, c: char): (r: Option<nat>)
    ensures r.Some? ==> r.value < |s| && s[r.value] == c && c !in s[..r.value]
    ensures r.None? ==> c !in s
  {
    if |s| == 0 then None
    else if s[0] == c then Some(0)
    else match Find(s[1..], c)
      case None => None
      case Some(i) => assert s[..i + 1] == [s[0]] + s[1..][..i]; Some(i + 1)
  }

  /** The lines joined by newlines. */
  function Join(lines: seq<string>): string {
    if |lines| == 0 then ""
    else if |lines| == 1 then lines[0]
    else lines[0] + "\n" + Join(lines[1..])
  }

  /** Whether `sub` occurs in `s`. */
  predicate Contains(s: string, sub: string) {
    sub <= s || (|s| > 0 && Contains(s[1..], sub))
  }

  /** Without the copies of a non-empty `prefix` at its start. */
  function TrimStartMatches(s: string, prefix: string): string
    requires |prefix| > 0
  {
    if prefix <= s then TrimStartMatches(s[|prefix|..], prefix) else s
  }

  lemma TrimEndCharStops(s: string, c: char)
    requires c !in s
    ensures TrimEndChar(s, c) == s
  {
    assert |s| > 0 ==> s[|s| - 1] in s;
  }

  lemma {:induction false} TrimStartSnoc(s: string, c: char)
    requires IsWhite(c)
    ensures TrimStart(s + [c]) == if TrimStart(s) == "" then "" else TrimStart(s) + [c]
  {
    if |s| > 0 && IsWhite(s[0]) {
      assert (s + [c])[1..] == s[1..] + [c];
      TrimStartSnoc(s[1..], c);
    } else if |s| == 0 {
      assert (s + [c])[1..] == "";
    }
  }

  /** A string without white space is left alone. */
  lemma TrimNothing(s: string)
    requires forall c | c in s :: !IsWhite(c)
    ensures Trim(s) == s
  {
    assert |s| > 0 ==> s[0] in s && s[|s| - 1] in s;
  }

  lemma PrefixAcrossBlank(a: string, b: string, word: string)
    requires ' ' !in word
    ensures word <= a + " " + b <==> word <= a
  {
    var s := a + " " + b;
    assert s[|a|] == ' ';
    assert |word| <= |a| ==> s[..|word|] == a[..|word|];
  }

  /** A word without a blank cannot straddle one. */
  lemma {:induction false} ContainsAcrossBlank(a: string, b: string, word: string)
    requires ' ' !in word && |word| > 0
    ensures Contains(a + " " + b, word) <==> Contains(a, word) || Contains(b, word)
  {
    PrefixAcrossBlank(a, b, word);
    if |a| > 0 {
      assert (a + " " + b)[1..] == a[1..] + " " + b;
      ContainsAcrossBlank(a[1..], b, word);
    } else {
      assert (a + " " + b)[1..] == b;
    }
  }

  // ------------------------------------------------------------------
  // What these operations do
  // ------------------------------------------------------------------

  /** The pieces between the copies of `c`. */
  function Split(s: string, c: char): seq<string>
    decreases |s|
  {
    match Find(s, c)
    case None => [s]
    case Some(i) => [s[..i]] + Split(s[i + 1..], c)
  }

  lemma FindFirst(a: string, c: char, b: string)
    requires c !in a
    ensures Find(a + [c] + b, c) == Some(|a|)
  {
    var s := a + [c] + b;
    assert s[|a|] == c;
  }

  lemma SplitFirst(a: string, c: char, b: string)
    requires c !in a
    ensures Split(a + [c] + b, c) == [a] + Split(b, c)
  {
    var s := a + [c] + b;
    FindFirst(a, c, b);
    assert s[..|a|] == a && s[|a| + 1..] == b;
  }

  /** Joined lines, cut at the newlines, are the lines. */
  lemma {:induction false} SplitJoin(lines: seq<string>)
    requires |lines| > 0 && forall line | line in lines :: '\n' !in line
    ensures Split(Join(lines), '\n') == lines
    decreases |lines|
  {
    assert lines[0] in lines;
    if |lines| > 1 {
      SplitJoin(lines[1..]);
      SplitFirst(lines[0], '\n', Join(lines[1..]));
      assert lines[0] + "\n" + Join(lines[1..]) == lines[0] + ['\n'] + Join(lines[1..]);
      assert [lines[0]] + lines[1..] == lines;
    }
  }

  predicate AllWhite(s: string) {
    forall c | c in s :: IsWhite(c)
  }

  /** What is cut from the start is white, and what is left does not begin with white space. */
  lemma {:induction false} TrimStartIs(s: string) returns (i: nat)
    ensures i <= |s| && TrimStart(s) == s[i..] && AllWhite(s[..i]) && (i < |s| ==> !IsWhite(s[i]))
  {
    i := 0;
    if |s| > 0 && IsWhite(s[0]) {
      var k := TrimStartIs(s[1..]);
      i := k + 1;
      assert s[..i] == [s[0]] + s[1..][..k];
    }
  }

  lemma {:induction false} TrimEndIs(s: string) returns (j: nat)
    ensures j <= |s| && TrimEnd(s) == s[..j] && AllWhite(s[j..]) && (j > 0 ==> !IsWhite(s[j - 1]))
  {
    j := |s|;
    if |s| > 0 && IsWhite(s[|s| - 1]) {
      j := TrimEndIs(s[..|s| - 1]);
      assert s[j..] == s[..|s| - 1][j..] + [s[|s| - 1]];
    }
  }

  /** Trimming cuts white space from both ends, and all there is. */
  lemma TrimIs(s: string) returns (i: nat, j: nat)
    ensures i <= j <= |s| && Trim(s) == s[i..j] && AllWhite(s[..i]) && AllWhite(s[j..])
    ensures i < j ==> !IsWhite(s[i]) && !IsWhite(s[j - 1])
  {
    i := TrimStartIs(s);
    var k := TrimEndIs(s[i..]);
    j := i + k;
    assert s[i..][..k] == s[i..j] && s[i..][k..] == s[j..];
  }

  /** What is cut is copies of `c`, and all of them. */
  lemma {:induction false} TrimEndCharIs(s: string, c: char) returns (j: nat)
    ensures j <= |s| && TrimEndChar(s, c) == s[..j] && (j > 0 ==> s[j - 1] != c) && s[j..] == Copies(c, |s| - j)
  {
    j := |s|;
    if |s| > 0 && s[|s| - 1] == c {
      j := TrimEndCharIs(s[..|s| - 1], c);
      assert s[j..] == s[..|s| - 1][j..] + [c];
    }
  }

  /** What is cut is copies of the prefix, and all of them. */
  lemma {:induction false} TrimStartMatchesIs(s: string, prefix: string) returns (n: nat)
    requires |prefix| > 0
    ensures s == Flatten(Copies(prefix, n)) + TrimStartMatches(s, prefix) && !(prefix <= TrimStartMatches(s, prefix))
  {
    n := 0;
    if prefix <= s {
      var k := TrimStartMatchesIs(s[|prefix|..], prefix);
      n := k + 1;
      assert Copies(prefix, n)[1..] == Copies(prefix, k);
      assert s == prefix + s[|prefix|..];
    }
  }

  /** `sub` stands in `s` at position `i`. */
  predicate StandsAt(s: string, sub: string, i: nat) {
    i + |sub| <= |s| && s[i..i + |sub|] == sub
  }

  lemma {:induction false} ContainsIff(s: string, sub: string)
    ensures Contains(s, sub) <==> exists i: nat :: StandsAt(s, sub, i)
  {
    if sub <= s {
      assert StandsAt(s, sub, 0);
    } else if |s| > 0 {
      ContainsIff(s[1..], sub);
      if Contains(s, sub) {
        var i: nat :| StandsAt(s[1..], sub, i);
        assert s[i + 1..i + 1 + |sub|] == s[1..][i..i + |sub|];
        assert StandsAt(s, sub, i + 1);
      }
      forall i: nat | StandsAt(s, sub, i) ensures StandsAt(s[1..], sub, i - 1) {
        assert s[0..|sub|] == s[..|sub|];
        assert i > 0;
        assert s[1..][i - 1..i - 1 + |sub|] == s[i..i + |sub|];
      }
    }
  }
}
