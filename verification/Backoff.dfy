/**
 Reconnection delays (src/ws/client/backoff.rs), in seconds, with exact arithmetic in place of f64.
 */
module Backoff {
  import opened Basics

  type Duration = d: real | d >= 0.0

  /** A Duration holds less than this many seconds. */
  const LIMIT: real := 18446744073709551616.0

  const I32_MAX: nat := 0x7FFF_FFFF

  datatype Strategy =
    | Constant(delay: Duration)
    | Linear(initial: Duration, step: Duration, cap: Duration)
    | Exponential(initial: Duration, multiplier: real, cap: Duration)
  {
    /** The wait before attempt number `attempt`; None is a panic in the Duration arithmetic. */
    function NextDelay(attempt: nat): Option<Duration> {
      match this
      case Constant(delay) => Some(delay)
      case Linear(initial, step, cap) =>
        if attempt == 0 then Some(0.0) else Capped(initial + step * (attempt - 1) as real, cap)
      case Exponential(initial, multiplier, cap) =>
        if attempt == 0 then Some(0.0)
        else match Powi(multiplier, AsI32(attempt - 1))
          case None => None
          case Some(factor) => Capped(initial * factor, cap)
    }
  }

  /** The overflow check comes before the cap. */
  function Capped(secs: real, cap: Duration): Option<Duration> {
    if 0.0 <= secs < LIMIT then Some(Min(secs, cap)) else None
  }

  function Min(a: real, b: real): real {
    if a <= b then a else b
  }

  /** The cast of a u32 to an i32 wraps. */
  function AsI32(n: nat): int {
    if n <= I32_MAX then n else n - 0x1_0000_0000
  }

  function Pow(m: real, e: nat): real {
    if e == 0 then 1.0 else m * Pow(m, e - 1)
  }

  /** An integer power; None is infinite. */
  function Powi(m: real, e: int): Option<real> {
    if e >= 0 then Some(Pow(m, e))
    else if Pow(m, -e) == 0.0 then None
    else Some(1.0 / Pow(m, -e))
  }

  const DEFAULT := Exponential(2.0, 2.0, 30.0)

  // ------------------------------------------------------------------
  // Growing delays
  // ------------------------------------------------------------------

  /** A strategy whose uncapped delay never shrinks from one attempt to the next. */
  predicate Growing(s: Strategy) {
    s.Exponential? ==> s.multiplier >= 1.0
  }

  /** The attempts whose exponent, if there is one, survives the cast to i32. */
  predicate InRange(s: Strategy, attempt: nat) {
    1 <= attempt && (s.Exponential? ==> attempt <= I32_MAX + 1)
  }

  lemma {:induction false} PowMonotone(m: real, a: nat, b: nat)
    requires m >= 1.0 && a <= b
    ensures 1.0 <= Pow(m, a) <= Pow(m, b)
    decreases b
  {
    if a < b {
      PowMonotone(m, a, b - 1);
      assert m * Pow(m, b - 1) >= 1.0 * Pow(m, b - 1);
    } else if b > 0 {
      PowMonotone(m, b - 1, b - 1);
      assert m * Pow(m, b - 1) >= 1.0 * Pow(m, b - 1);
    }
  }

  lemma MulLe(c: real, a: real, b: real)
    requires c >= 0.0 && a <= b
    ensures c * a <= c * b
  {
  }

  /** What the arithmetic would give with no limit and no cap. */
  function Uncapped(s: Strategy, attempt: nat): real
    requires attempt > 0
  {
    match s
    case Constant(delay) => delay
    case Linear(initial, step, _) => initial + step * (attempt - 1) as real
    case Exponential(initial, multiplier, _) => initial * Pow(multiplier, attempt - 1)
  }

  lemma UncappedMonotone(s: Strategy, a: nat, b: nat)
    requires Growing(s) && 1 <= a <= b
    ensures 0.0 <= Uncapped(s, a) <= Uncapped(s, b)
  {
    match s
    case Constant(_) =>
    case Linear(_, step, _) => MulLe(step, 0.0, (a - 1) as real); MulLe(step, (a - 1) as real, (b - 1) as real);
    case Exponential(initial, multiplier, _) =>
      PowMonotone(multiplier, a - 1, b - 1);
      MulLe(initial, 0.0, Pow(multiplier, a - 1));
      MulLe(initial, Pow(multiplier, a - 1), Pow(multiplier, b - 1));
  }

  /** In range, the delay is the uncapped delay if that fits a Duration, then capped. */
  lemma InRangeDelay(s: Strategy, attempt: nat)
    requires !s.Constant? && Growing(s) && InRange(s, attempt)
    ensures s.NextDelay(attempt) == if Uncapped(s, attempt) < LIMIT then Some(Min(Uncapped(s, attempt), s.cap)) else None
  {
    UncappedMonotone(s, attempt, attempt);
  }

  lemma {:induction false} PowNotNegative(m: real, e: nat)
    requires m >= 0.0
    ensures Pow(m, e) >= 0.0
  {
    if e > 0 {
      PowNotNegative(m, e - 1);
      MulLe(m, 0.0, Pow(m, e - 1));
    }
  }

  /** A multiplier below 1 is accepted, and so is one below 0. */
  predicate NotNegative(s: Strategy) {
    s.Exponential? ==> s.multiplier >= 0.0
  }

  lemma UncappedNotNegative(s: Strategy, attempt: nat)
    requires NotNegative(s) && attempt > 0
    ensures Uncapped(s, attempt) >= 0.0
  {
    match s
    case Constant(_) =>
    case Linear(_, step, _) => MulLe(step, 0.0, (attempt - 1) as real);
    case Exponential(initial, multiplier, _) =>
      PowNotNegative(multiplier, attempt - 1);
      MulLe(initial, 0.0, Pow(multiplier, attempt - 1));
  }

  /**
   Computing a delay panics exactly when the uncapped delay does not fit a Duration, however small the
   cap: when it is negative, which takes a negative multiplier, or 2^64 seconds or more.
   */
  lemma PanicsIff(s: Strategy, attempt: nat)
    requires !s.Constant? && InRange(s, attempt)
    ensures s.NextDelay(attempt).None? <==> Uncapped(s, attempt) < 0.0 || Uncapped(s, attempt) >= LIMIT
    ensures NotNegative(s) ==> (s.NextDelay(attempt).None? <==> Uncapped(s, attempt) >= LIMIT)
  {
    if NotNegative(s) {
      UncappedNotNegative(s, attempt);
    }
  }

  /** Delays never shrink, and once the cap is reached they stay there, for as long as the arithmetic does not overflow. */
  lemma DelaysGrow(s: Strategy, a: nat, b: nat)
    requires Growing(s) && InRange(s, a) && InRange(s, b) && a <= b
    requires s.NextDelay(b).Some?
    ensures s.NextDelay(a).Some? && s.NextDelay(a).value <= s.NextDelay(b).value
    ensures !s.Constant? && s.NextDelay(a).value == s.cap ==> s.NextDelay(b).value == s.cap
  {
    if !s.Constant? {
      UncappedMonotone(s, a, b);
      InRangeDelay(s, a);
      InRangeDelay(s, b);
    }
  }

  /** Once computing a delay overflows, it overflows at every later attempt in range. */
  lemma OverflowStays(s: Strategy, a: nat, b: nat)
    requires Growing(s) && InRange(s, a) && InRange(s, b) && a <= b && s.NextDelay(a).None?
    ensures s.NextDelay(b).None?
  {
    if s.NextDelay(b).Some? {
      DelaysGrow(s, a, b);
    }
  }

  /** One step's growth of a delay. */
  function Grown(s: Strategy, d: real): real {
    match s
    case Constant(_) => d
    case Linear(_, step, _) => d + step
    case Exponential(_, multiplier, _) => d * multiplier
  }

  lemma UncappedStep(s: Strategy, attempt: nat)
    requires attempt > 0
    ensures Uncapped(s, attempt + 1) == Grown(s, Uncapped(s, attempt))
  {
    if s.Exponential? {
      var p := Pow(s.multiplier, attempt - 1);
      assert Pow(s.multiplier, attempt) == s.multiplier * p;
      assert s.initial * (s.multiplier * p) == (s.initial * p) * s.multiplier;
    }
  }

  /** Growing and then capping is the same as capping, growing and capping again. */
  lemma GrowThenCap(s: Strategy, u: real)
    requires !s.Constant? && Growing(s) && u >= 0.0
    ensures Min(Grown(s, u), s.cap) == Min(Grown(s, Min(u, s.cap)), s.cap)
  {
    if s.Exponential? && s.cap < u {
      MulLe(s.cap, 1.0, s.multiplier);
      MulLe(s.multiplier, s.cap, u);
    }
  }

  lemma DelayOf(s: Strategy, attempt: nat)
    requires !s.Constant? && Growing(s) && InRange(s, attempt) && s.NextDelay(attempt).Some?
    ensures 0.0 <= Uncapped(s, attempt) < LIMIT && s.NextDelay(attempt).value == Min(Uncapped(s, attempt), s.cap)
  {
    InRangeDelay(s, attempt);
    UncappedMonotone(s, attempt, attempt);
  }

  /** The delays as a client sees them: each is the one before it, grown once and capped. */
  lemma CappedRecurrence(s: Strategy, attempt: nat)
    requires !s.Constant? && Growing(s) && InRange(s, attempt) && InRange(s, attempt + 1) && s.NextDelay(attempt + 1).Some?
    ensures s.NextDelay(attempt).Some?
    ensures s.NextDelay(attempt + 1).value == Min(Grown(s, s.NextDelay(attempt).value), s.cap)
  {
    DelaysGrow(s, attempt, attempt + 1);
    var d, d' := s.NextDelay(attempt).value, s.NextDelay(attempt + 1).value;
    var u := Uncapped(s, attempt);
    DelayOf(s, attempt);
    assert d == Min(u, s.cap);
    DelayOf(s, attempt + 1);
    UncappedStep(s, attempt);
    assert d' == Min(Grown(s, u), s.cap);
    GrowThenCap(s, u);
  }

  // ------------------------------------------------------------------
  // The delays, one after another
  // ------------------------------------------------------------------

  /** A constant strategy waits the same before every attempt, the first included; the others make the first one at once. */
  lemma FirstDelays(delay: Duration, initial: Duration, step: Duration, multiplier: real, cap: Duration, attempt: nat)
    requires initial < LIMIT
    ensures Constant(delay).NextDelay(attempt) == Some(delay)
    ensures Linear(initial, step, cap).NextDelay(0) == Some(0.0) && Exponential(initial, multiplier, cap).NextDelay(0) == Some(0.0)
    ensures Linear(initial, step, cap).NextDelay(1) == Some(if initial <= cap then initial else cap)
    ensures Exponential(initial, multiplier, cap).NextDelay(1) == Some(if initial <= cap then initial else cap)
  {
  }

  /** Each linear delay is the one before it and a step more, and no longer than the cap. */
  lemma LinearSteps(initial: Duration, step: Duration, cap: Duration, n: nat)
    requires n > 0 && Linear(initial, step, cap).NextDelay(n + 1).Some?
    ensures var s := Linear(initial, step, cap);
            && s.NextDelay(n).Some?
            && var next := s.NextDelay(n).value + step; s.NextDelay(n + 1).value == if next <= cap then next else cap
  {
    CappedRecurrence(Linear(initial, step, cap), n);
  }

  /** Each exponential delay is the one before it times the multiplier, and no longer than the cap. */
  lemma ExponentialSteps(initial: Duration, multiplier: real, cap: Duration, n: nat)
    requires 0 < n <= 0x7FFF_FFFF && multiplier >= 1.0 && Exponential(initial, multiplier, cap).NextDelay(n + 1).Some?
    ensures var s := Exponential(initial, multiplier, cap);
            && s.NextDelay(n).Some?
            && var next := s.NextDelay(n).value * multiplier; s.NextDelay(n + 1).value == if next <= cap then next else cap
  {
    CappedRecurrence(Exponential(initial, multiplier, cap), n);
  }

  // ------------------------------------------------------------------
  // The default: 2 seconds, doubling, capped at 30
  // ------------------------------------------------------------------

  lemma {:induction false} PowAdd(m: real, a: nat, b: nat)
    ensures Pow(m, a + b) == Pow(m, a) * Pow(m, b)
  {
    if a > 0 {
      PowAdd(m, a - 1, b);
      assert m * (Pow(m, a - 1) * Pow(m, b)) == (m * Pow(m, a - 1)) * Pow(m, b);
    }
  }

  lemma PowersOfTwo()
    ensures Pow(2.0, 1) == 2.0 && Pow(2.0, 2) == 4.0 && Pow(2.0, 3) == 8.0 && Pow(2.0, 4) == 16.0
    ensures Pow(2.0, 5) == 32.0 && Pow(2.0, 64) == LIMIT && Pow(2.0, 63) * 2.0 == LIMIT
  {
    assert Pow(2.0, 2) == 2.0 * Pow(2.0, 1) && Pow(2.0, 3) == 2.0 * Pow(2.0, 2);
    assert Pow(2.0, 4) == 2.0 * Pow(2.0, 3) && Pow(2.0, 5) == 2.0 * Pow(2.0, 4);
    PowAdd(2.0, 4, 4);
    PowAdd(2.0, 8, 8);
    PowAdd(2.0, 16, 16);
    PowAdd(2.0, 32, 32);
    assert Pow(2.0, 64) == 2.0 * Pow(2.0, 63);
  }

  lemma DefaultUncapped(attempt: nat)
    requires 1 <= attempt <= 0x8000_0000
    ensures DEFAULT.NextDelay(attempt) == if Pow(2.0, attempt) < LIMIT then Some(Min(Pow(2.0, attempt), 30.0)) else None
  {
    InRangeDelay(DEFAULT, attempt);
    assert Uncapped(DEFAULT, attempt) == Pow(2.0, attempt);
  }

  /** Past 2^31 the exponent wraps to a negative number, and the waits are shorter than a second. */
  lemma DefaultWraps(attempt: nat)
    requires 0x8000_0000 < attempt < 0x1_0000_0000
    ensures DEFAULT.NextDelay(attempt) == Powi(2.0, attempt - 0x1_0000_0000)
    ensures DEFAULT.NextDelay(attempt).Some? && 0.0 < DEFAULT.NextDelay(attempt).value < 1.0
  {
    var e := 0x1_0000_0000 - attempt;
    PowMonotone(2.0, 1, e);
    PowersOfTwo();
    assert AsI32(attempt - 1) == -(e + 1);
    Halved(Pow(2.0, e));
    assert Pow(2.0, e + 1) == 2.0 * Pow(2.0, e);
  }

  /**
   The default delays in full. They are 2, 4, 8 and 16 seconds and then 30; attempts 64 to 2^31
   panic, because the conversion to a Duration comes before the cap.
   */
  lemma DefaultSchedule(attempt: nat)
    requires attempt <= 0x8000_0000
    ensures DEFAULT.NextDelay(attempt) ==
              if attempt == 0 then Some(0.0)
              else if attempt <= 4 then Some(Pow(2.0, attempt))
              else if attempt <= 63 then Some(30.0)
              else None
  {
    PowersOfTwo();
    if attempt > 0 {
      DefaultUncapped(attempt);
      if attempt <= 4 {
        PowMonotone(2.0, attempt, 4);
      } else if attempt <= 63 {
        PowMonotone(2.0, 5, attempt);
        PowMonotone(2.0, attempt, 63);
      } else {
        PowMonotone(2.0, 64, attempt);
      }
    }
  }

  /** Of all u32 attempts, exactly those from 64 to 2^31 panic. */
  lemma DefaultPanicsIff(attempt: nat)
    requires attempt < 0x1_0000_0000
    ensures DEFAULT.NextDelay(attempt).None? <==> 64 <= attempt <= 0x8000_0000
  {
    if attempt <= 0x8000_0000 {
      DefaultSchedule(attempt);
    } else {
      DefaultWraps(attempt);
    }
  }

  lemma Halved(p: real)
    requires p >= 2.0
    ensures 2.0 * (1.0 / (2.0 * p)) == 1.0 / p < 1.0
  {
  }
}
