/**
 Runs of the scheduler: any interleaving of enqueues and pops. FIFO and conservation, the
 service-delay bound and its tightness, weighted fairness and its tightness.
 */
module SchedulerRuns {
  import opened Basics
  import opened Scheduler

  datatype Op<T> = Push(item: T, priority: MessagePriority) | Next

  /** What one operation serves: nothing or one item. */
  ghost function Serves<T>(s: Wfq<T>, op: Op<T>): seq<Out<T>> {
    if op.Next? && s.Popped().Some? then [s.Popped().value] else []
  }

  /** The state one operation leaves. */
  ghost function Step<T>(s: Wfq<T>, op: Op<T>): Wfq<T> {
    match op
    case Push(item, priority) => s.Enqueued(item, priority.Index())
    case Next => s.AfterPop()
  }

  /** Everything a run serves, in order. */
  ghost function Served<T>(s: Wfq<T>, ops: seq<Op<T>>): seq<Out<T>>
    decreases |ops|
  {
    if |ops| == 0 then [] else Serves(s, ops[0]) + Served(Step(s, ops[0]), ops[1..])
  }

  /** The state a run leaves. */
  ghost function After<T>(s: Wfq<T>, ops: seq<Op<T>>): Wfq<T>
    decreases |ops|
  {
    if |ops| == 0 then s else After(Step(s, ops[0]), ops[1..])
  }

  /** The items of one class among those served, in order. */
  ghost function Of<T>(i: nat, outs: seq<Out<T>>): seq<T> {
    if |outs| == 0 then []
    else (if outs[0].cls == i then [outs[0].item] else []) + Of(i, outs[1..])
  }

  ghost function Pushed<T>(i: nat, ops: seq<Op<T>>): seq<T> {
    if |ops| == 0 then []
    else (if ops[0].Push? && ops[0].priority.Index() == i then [ops[0].item] else []) + Pushed(i, ops[1..])
  }

  ghost function Pops<T>(ops: seq<Op<T>>): nat {
    if |ops| == 0 then 0 else (if ops[0].Next? then 1 else 0) + Pops(ops[1..])
  }

  lemma OfCons<T>(i: nat, out: Out<T>, rest: seq<Out<T>>)
    ensures Of(i, [out] + rest) == (if out.cls == i then [out.item] else []) + Of(i, rest)
  {
    assert ([out] + rest)[1..] == rest;
  }

  lemma {:induction false} OfAppend<T>(i: nat, a: seq<Out<T>>, b: seq<Out<T>>)
    ensures Of(i, a + b) == Of(i, a) + Of(i, b)
    decreases |a|
  {
    if |a| == 0 {
      assert a + b == b;
    } else {
      FirstApart(a, b);
      OfAppend(i, a[1..], b);
      OfCons(i, a[0], a[1..] + b);
      OfCons(i, a[0], a[1..]);
      Assoc(if a[0].cls == i then [a[0].item] else [], Of(i, a[1..]), Of(i, b));
    }
  }

  /** A run that begins with `op`. */
  lemma RunCons<T>(s: Wfq<T>, op: Op<T>, rest: seq<Op<T>>)
    ensures Served(s, [op] + rest) == Serves(s, op) + Served(Step(s, op), rest)
    ensures After(s, [op] + rest) == After(Step(s, op), rest)
  {
    assert ([op] + rest)[1..] == rest;
  }

  lemma PushedCons<T>(i: nat, op: Op<T>, rest: seq<Op<T>>)
    ensures Pushed(i, [op] + rest) == Pushed(i, [op]) + Pushed(i, rest)
  {
    assert ([op] + rest)[1..] == rest && [op][1..] == [];
  }

  lemma {:induction false} AfterAppend<T>(s: Wfq<T>, a: seq<Op<T>>, b: seq<Op<T>>)
    ensures After(s, a + b) == After(After(s, a), b)
    decreases |a|
  {
    if |a| == 0 {
      assert a + b == b;
    } else {
      AfterAppend(Step(s, a[0]), a[1..], b);
      assert (a + b)[1..] == a[1..] + b;
    }
  }

  /** One operation keeps each class in order: what it serves comes from the head, what it pushes joins the tail. */
  lemma StepFifo<T>(s: Wfq<T>, op: Op<T>, i: nat)
    requires i < COUNT
    ensures Of(i, Serves(s, op)) + Step(s, op).At(i).queue == s.At(i).queue + Pushed(i, [op])
  {
    if op.Next? && s.Popped().Some? {
      var out := s.Popped().value;
      assert Of(i, [out]) == if out.cls == i then [out.item] else [];
    }
  }

  lemma Regroup<T>(out1: seq<T>, mid: seq<T>, before: seq<T>, in1: seq<T>, out2: seq<T>, end: seq<T>, in2: seq<T>)
    requires out1 + mid == before + in1 && out2 + end == mid + in2
    ensures (out1 + out2) + end == before + (in1 + in2)
  {
    calc {
      (out1 + out2) + end;
      out1 + (out2 + end);
      out1 + (mid + in2);
      (out1 + mid) + in2;
      (before + in1) + in2;
      before + (in1 + in2);
    }
  }

  /** Per class, what was served followed by what is still queued is what was queued followed by what was pushed. */
  lemma {:induction false} Fifo<T>(s: Wfq<T>, ops: seq<Op<T>>, i: nat)
    requires i < COUNT
    ensures Of(i, Served(s, ops)) + After(s, ops).At(i).queue == s.At(i).queue + Pushed(i, ops)
    decreases |ops|
  {
    if |ops| > 0 {
      var op, rest, t := ops[0], ops[1..], Step(s, ops[0]);
      Fifo(t, rest, i);
      FirstApart(ops, []);
      FifoCons(s, op, rest, i);
    } else {
      assert s.At(i).queue + [] == s.At(i).queue;
    }
  }

  lemma FifoCons<T>(s: Wfq<T>, op: Op<T>, rest: seq<Op<T>>, i: nat)
    requires i < COUNT
    requires var t := Step(s, op); Of(i, Served(t, rest)) + After(t, rest).At(i).queue == t.At(i).queue + Pushed(i, rest)
    ensures Of(i, Served(s, [op] + rest)) + After(s, [op] + rest).At(i).queue == s.At(i).queue + Pushed(i, [op] + rest)
  {
    var t := Step(s, op);
    RunCons(s, op, rest);
    PushedCons(i, op, rest);
    StepFifo(s, op, i);
    OfAppend(i, Serves(s, op), Served(t, rest));
    Regroup(Of(i, Serves(s, op)), t.At(i).queue, s.At(i).queue, Pushed(i, [op]),
            Of(i, Served(t, rest)), After(t, rest).At(i).queue, Pushed(i, rest));
  }

  // ------------------------------------------------------------------
  // Service delay
  // ------------------------------------------------------------------

  /** The total weight of the classes above class `i`. */
  ghost function WeightAbove(i: nat): nat
    requires i < COUNT
  {
    if i == 0 then 0 else WeightAbove(i - 1) + Weight(i - 1)
  }

  /** The credits left to the classes above class `i`. */
  ghost function CreditsAbove<T>(s: Wfq<T>, i: nat): nat
    requires i <= COUNT
  {
    if i == 0 then 0 else CreditsAbove(s, i - 1) + s.At(i - 1).credits
  }

  ghost function Credits<T>(s: Wfq<T>): nat {
    s.realTime.credits + s.normal.credits + s.stream.credits + s.bulk.credits
  }

  lemma SumsUnfolded<T>(s: Wfq<T>, i: nat)
    requires i < COUNT
    ensures WeightAbove(i) == if i == 0 then 0 else if i == 1 then 8 else if i == 2 then 12 else 14
    ensures CreditsAbove(s, i) ==
            (if i > 0 then s.realTime.credits else 0) + (if i > 1 then s.normal.credits else 0) + (if i > 2 then s.stream.credits else 0)
  {
    assert i > 0 ==> CreditsAbove(s, i) == CreditsAbove(s, i - 1) + s.At(i - 1).credits;
    assert i > 1 ==> CreditsAbove(s, i - 1) == CreditsAbove(s, i - 2) + s.At(i - 2).credits;
    assert i > 2 ==> WeightAbove(i - 1) == WeightAbove(i - 2) + Weight(i - 2);
  }

  /** Pops until the item at position `p` of class `i` has left, at most, given the credits of `s`. */
  ghost function Measure<T>(s: Wfq<T>, i: nat, p: nat): nat
    requires i < COUNT
  {
    var c := s.At(i).credits;
    if p < c then CreditsAbove(s, i) + p + 1 else Credits(s) + Later(i, p - c)
  }

  /** Pops from the start of a round, at most, until the item at position `p` of class `i` has left. */
  ghost function Later(i: nat, p: nat): nat
    requires i < COUNT
  {
    15 * (p / Weight(i)) + WeightAbove(i) + p % Weight(i) + 1
  }

  /** The delay bound over all credit states: 29 for the head of Bulk. */
  ghost function Bound(i: nat, p: nat): nat
    requires i < COUNT
  {
    15 - Weight(i) + Later(i, p)
  }

  lemma DivUnique(n: nat, w: nat, q: nat, r: nat)
    requires r < w && n == w * q + r
    ensures n / w == q && n % w == r
  {
    var q', r' := n / w, n % w;
    if q' > q {
      MulMonotone(w, q + 1, q');
    } else if q' < q {
      MulMonotone(w, q' + 1, q);
    }
  }

  lemma MulMonotone(w: nat, x: nat, y: nat)
    requires x <= y
    ensures w * x <= w * y
  {
  }

  /** An item `c` places nearer leaves at least `c` pops earlier; a full weight nearer, exactly one round earlier. */
  lemma LaterDrops(i: nat, p: nat, c: nat)
    requires i < COUNT && c <= Weight(i) && c <= p
    ensures Later(i, p - c) + c <= Later(i, p)
    ensures c == Weight(i) ==> Later(i, p - c) + 15 == Later(i, p)
  {
    var w := Weight(i);
    var q, r := p / w, p % w;
    if r >= c {
      DivUnique(p - c, w, q, r - c);
    } else {
      assert q >= 1 by {
        assert q == 0 ==> p == r;
      }
      assert w * (q - 1) == w * q - w;
      DivUnique(p - c, w, q - 1, r - c + w);
    }
  }

  lemma WithinRound(i: nat, p: nat)
    requires i < COUNT && p < Weight(i)
    ensures Later(i, p) == WeightAbove(i) + p + 1
  {
    DivUnique(p, Weight(i), 0, p);
  }

  lemma CreditsBounded<T>(s: Wfq<T>, i: nat)
    requires s.Valid() && i < COUNT
    ensures s.At(i).credits <= Weight(i) && CreditsAbove(s, i) <= WeightAbove(i)
    ensures Credits(s) <= 15 - Weight(i) + s.At(i).credits
  {
    SumsUnfolded(s, i);
  }

  /** The bound is the measure of the worst credit state, in which class `i` alone has spent its credits. */
  lemma MeasureAtMostBound<T>(s: Wfq<T>, i: nat, p: nat)
    requires s.Valid() && i < COUNT
    ensures Measure(s, i, p) <= Bound(i, p)
    ensures s.At(i).credits == 0 && Credits(s) == 15 - Weight(i) ==> Measure(s, i, p) == Bound(i, p)
  {
    CreditsBounded(s, i);
    if p >= s.At(i).credits {
      LaterDrops(i, p, s.At(i).credits);
    } else {
      WithinRound(i, p);
    }
  }

  /** Starting a new round does not raise the measure, and keeps it when no credits are forfeited. */
  lemma RoundKeepsMeasure<T>(s: Wfq<T>, i: nat, p: nat)
    requires i < COUNT && p < |s.At(i).queue|
    ensures Measure(s.Round(), i, p) <= Measure(s, i, p)
    ensures Credits(s) == 0 || s.First() < COUNT ==> Measure(s.Round(), i, p) == Measure(s, i, p)
  {
    if s.First() == COUNT {
      SumsUnfolded(s, i);
      SumsUnfolded(s.Refilled(), i);
      assert s.At(i).credits == 0 && Credits(s.Refilled()) == 15;
      if p >= Weight(i) {
        LaterDrops(i, p, Weight(i));
      } else {
        WithinRound(i, p);
      }
    }
  }

  /** The state after charging class `k`. */
  ghost function ChargedAt<T>(s: Wfq<T>, k: nat): Wfq<T>
    requires k < COUNT && s.At(k).Ready()
  {
    s.With(k, s.At(k).Charged())
  }

  /** Within a round, charging another class lowers the measure of an item by exactly one, if its own class must wait. */
  lemma ChargeOther<T>(s: Wfq<T>, i: nat, p: nat, k: nat)
    requires i < COUNT && k < COUNT && k != i && s.At(k).Ready()
    requires s.At(i).credits > p ==> k < i
    ensures Measure(ChargedAt(s, k), i, p) == Measure(s, i, p) - 1
  {
    SumsUnfolded(s, i);
    SumsUnfolded(ChargedAt(s, k), i);
  }

  /** Charging its own class moves an item one place forward and lowers its measure by exactly one. */
  lemma ChargeOwn<T>(s: Wfq<T>, i: nat, p: nat)
    requires i < COUNT && s.At(i).Ready() && p > 0
    ensures Measure(ChargedAt(s, i), i, p - 1) == Measure(s, i, p) - 1
  {
    var c := s.At(i).credits;
    SumsUnfolded(s, i);
    SumsUnfolded(ChargedAt(s, i), i);
    assert Credits(ChargedAt(s, i)) == Credits(s) - 1;
    assert (p - 1) - (c - 1) == p - c;
  }

  /** A pop that leaves an item of class `i` waiting lowers its measure by at least one, whichever class it serves. */
  lemma PopLowersMeasure<T>(s: Wfq<T>, i: nat, p: nat)
    requires i < COUNT && p < |s.At(i).queue|
    ensures s.Popped().Some?
    ensures s.Popped().value.cls != i ==> Measure(s.AfterPop(), i, p) == Measure(s.Round(), i, p) - 1 < Measure(s, i, p)
    ensures s.Popped().value.cls == i && p > 0 ==>
              Measure(s.AfterPop(), i, p - 1) == Measure(s.Round(), i, p) - 1 < Measure(s, i, p)
  {
    var t := s.Round();
    assert t.First() < COUNT;
    RoundKeepsMeasure(s, i, p);
    if t.First() != i {
      ChargeOther(t, i, p, t.First());
    } else if p > 0 {
      ChargeOwn(t, i, p);
    }
  }

  /** Any run with as many pops as the measure serves the item, whatever is pushed meanwhile. */
  lemma {:induction false} ServedWithinMeasure<T>(s: Wfq<T>, ops: seq<Op<T>>, i: nat, p: nat)
    requires i < COUNT && p < |s.At(i).queue|
    requires Pops(ops) >= Measure(s, i, p)
    ensures |Of(i, Served(s, ops))| > p
    decreases |ops|
  {
    assert |ops| > 0;
    var t, rest := Step(s, ops[0]), Served(Step(s, ops[0]), ops[1..]);
    if ops[0].Push? {
      PushKeepsMeasure(s, ops[0].item, ops[0].priority.Index(), i, p);
      ServedWithinMeasure(t, ops[1..], i, p);
      assert Served(s, ops) == [] + rest == rest;
    } else {
      PopLowersMeasure(s, i, p);
      OfCons(i, s.Popped().value, rest);
      var own := s.Popped().value.cls == i;
      if !own || p > 0 {
        PopLengths(s);
        ServedWithinMeasure(t, ops[1..], i, if own then p - 1 else p);
      }
    }
  }

  lemma PushKeepsMeasure<T>(s: Wfq<T>, item: T, k: nat, i: nat, p: nat)
    requires i < COUNT && k < COUNT
    ensures Measure(s.Enqueued(item, k), i, p) == Measure(s, i, p)
    ensures |s.Enqueued(item, k).At(i).queue| >= |s.At(i).queue|
  {
    SumsUnfolded(s, i);
    SumsUnfolded(s.Enqueued(item, k), i);
  }

  /**
   Delay bound: from any state, in any run with Bound(i, p) pops, the item at position `p` of
   class `i` has left, and it left as the item number `p` that class `i` was served.
   */
  lemma DelayBound<T>(s: Wfq<T>, ops: seq<Op<T>>, i: nat, p: nat)
    requires s.Valid() && i < COUNT && p < |s.At(i).queue|
    requires Pops(ops) >= Bound(i, p)
    ensures |Of(i, Served(s, ops))| > p
    ensures Of(i, Served(s, ops))[p] == s.At(i).queue[p]
  {
    MeasureAtMostBound(s, i, p);
    ServedWithinMeasure(s, ops, i, p);
    Fifo(s, ops, i);
    var served, final := Of(i, Served(s, ops)), After(s, ops).At(i).queue;
    assert (served + final)[p] == (s.At(i).queue + Pushed(i, ops))[p];
  }

  /** The credits never exceed the weights, so the bound holds in every state a run from a new scheduler reaches. */
  lemma {:induction false} RunsStayValid<T>(s: Wfq<T>, ops: seq<Op<T>>)
    requires s.Valid()
    ensures After(s, ops).Valid()
    decreases |ops|
  {
    if |ops| > 0 {
      RunsStayValid(Step(s, ops[0]), ops[1..]);
    }
  }

  // Tightness

  /** The first of `n` pops, then the rest. */
  lemma NextThen<T>(s: Wfq<T>, n: nat)
    requires n > 0 && s.Popped().Some?
    ensures Served(s, Copies(Op<T>.Next, n)) == [s.Popped().value] + Served(s.AfterPop(), Copies(Op<T>.Next, n - 1))
    ensures After(s, Copies(Op<T>.Next, n)) == After(s.AfterPop(), Copies(Op<T>.Next, n - 1))
  {
    assert Copies(Op<T>.Next, n)[1..] == Copies(Op<T>.Next, n - 1);
  }

  lemma EnqueuedQueue<T>(s: Wfq<T>, out: Out<T>, i: nat)
    requires i < COUNT && out.cls < COUNT
    ensures s.Enqueued(out.item, out.cls).At(i).queue == s.At(i).queue + Of(i, [out])
  {
    OfCons(i, out, []);
    assert [out] + [] == [out];
  }

  /** With `n` items or more in every queue, fewer pops than the measure do not serve the item. */
  lemma {:induction false} WaitsOutMeasure<T>(s: Wfq<T>, n: nat, i: nat, p: nat)
    requires i < COUNT && p < |s.At(i).queue|
    requires n < Measure(s, i, p)
    requires Deep(s, n)
    ensures |Of(i, Served(s, Copies(Op<T>.Next, n)))| <= p
    decreases n
  {
    if n > 0 {
      PopExactMeasure(s, i, p);
      PopLengths(s);
      WaitsOutMeasure(s.AfterPop(), n - 1, i, if s.Popped().value.cls == i then p - 1 else p);
      NextThen(s, n);
      OfCons(i, s.Popped().value, Served(s.AfterPop(), Copies(Op<T>.Next, n - 1)));
    }
  }

  /** A pop shortens the served queue by one and no other. */
  lemma PopLengths<T>(s: Wfq<T>)
    requires s.Popped().Some?
    ensures forall k | 0 <= k < COUNT ::
              |s.AfterPop().At(k).queue| == |s.At(k).queue| - if k == s.Popped().value.cls then 1 else 0
  {
  }

  /** When every class is backlogged no credits are forfeited, so a pop lowers the measure by exactly one. */
  lemma PopExactMeasure<T>(s: Wfq<T>, i: nat, p: nat)
    requires i < COUNT && p < |s.At(i).queue|
    requires Deep(s, 1)
    requires Measure(s, i, p) > 1
    ensures s.Popped().Some?
    ensures s.Popped().value.cls != i ==> Measure(s.AfterPop(), i, p) == Measure(s, i, p) - 1
    ensures s.Popped().value.cls == i ==> p > 0 && Measure(s.AfterPop(), i, p - 1) == Measure(s, i, p) - 1
  {
    NothingForfeited(s);
    RoundKeepsMeasure(s, i, p);
    PopLowersMeasure(s, i, p);
    SumsUnfolded(s.Round(), i);
  }

  lemma NothingForfeited<T>(s: Wfq<T>)
    requires Deep(s, 1)
    ensures s.First() == COUNT ==> Credits(s) == 0
  {
  }

  /** Every class has at least `n` items queued. */
  ghost predicate Deep<T>(s: Wfq<T>, n: nat) {
    |s.realTime.queue| >= n && |s.normal.queue| >= n && |s.stream.queue| >= n && |s.bulk.queue| >= n
  }

  /** Nothing is queued except in classes `i` and `j`. */
  ghost predicate OnlyQueued<T>(s: Wfq<T>, i: nat, j: nat) {
    && (i == 0 || j == 0 || |s.realTime.queue| == 0) && (i == 1 || j == 1 || |s.normal.queue| == 0)
    && (i == 2 || j == 2 || |s.stream.queue| == 0) && (i == 3 || j == 3 || |s.bulk.queue| == 0)
  }

  ghost function PriorityOf(i: nat): (pr: MessagePriority)
    requires i < COUNT
    ensures pr.Index() == i
  {
    if i == 0 then RealTime else if i == 1 then Normal else if i == 2 then Stream else Bulk
  }

  /** Pushing `n` copies of `x` to one class. */
  ghost function Fill<T>(x: T, i: nat, n: nat): seq<Op<T>>
    requires i < COUNT
  {
    Copies(Push(x, PriorityOf(i)), n)
  }

  lemma {:induction false} FillOne<T>(s: Wfq<T>, x: T, i: nat, n: nat)
    requires i < COUNT
    ensures After(s, Fill(x, i, n)) == s.With(i, Lane(s.At(i).queue + Copies(x, n), s.At(i).credits))
    decreases n
  {
    if n == 0 {
      assert s.At(i).queue + Copies(x, 0) == s.At(i).queue;
    } else {
      assert Fill(x, i, n)[1..] == Fill(x, i, n - 1);
      FillOne(s.Enqueued(x, i), x, i, n - 1);
      assert (s.At(i).queue + [x]) + Copies(x, n - 1) == s.At(i).queue + Copies(x, n);
    }
  }

  /** When `i` is the first ready class, `pop` takes from it and spends one of its credits. */
  lemma PopOnly<T>(s: Wfq<T>, i: nat, j: nat)
    requires i < COUNT && i <= j && s.At(i).Ready() && OnlyQueued(s, i, j)
    ensures s.Popped() == Some(Out(i, s.At(i).queue[0])) && s.AfterPop() == s.With(i, s.At(i).Charged())
  {
  }

  /** Serving class `i` alone as often as it has credits spends exactly its credits. */
  lemma {:induction false} SpendAlone<T>(s: Wfq<T>, i: nat, n: nat)
    requires i < COUNT && n <= s.At(i).credits && |s.At(i).queue| == n
    requires OnlyQueued(s, i, i)
    ensures After(s, Copies(Op<T>.Next, n)) == s.With(i, Lane([], s.At(i).credits - n))
    decreases n
  {
    if n > 0 {
      PopOnly(s, i, i);
      NextThen(s, n);
      SpendAlone(s.AfterPop(), i, n - 1);
    }
  }

  /** A run from a new scheduler that leaves it empty with class `i` out of credits and the others full. */
  ghost function Spend<T>(x: T, i: nat): seq<Op<T>>
    requires i < COUNT
  {
    Fill(x, i, Weight(i)) + Copies(Op<T>.Next, Weight(i))
  }

  lemma SpendSpends<T>(x: T, i: nat)
    requires i < COUNT
    ensures After(NewWfq(), Spend(x, i)) == NewWfq<T>().With(i, Lane([], 0))
  {
    FillOne(NewWfq<T>(), x, i, Weight(i));
    var s := After(NewWfq(), Fill(x, i, Weight(i)));
    assert s.At(i).queue == Copies(x, Weight(i));
    SpendAlone(s, i, Weight(i));
    AfterAppend(NewWfq(), Fill(x, i, Weight(i)), Copies(Op<T>.Next, Weight(i)));
  }

  /** Pushing `n` copies of `x` to each of the classes below `k`. */
  ghost function FillBelow<T>(x: T, k: nat, n: nat): seq<Op<T>>
    requires k <= COUNT
  {
    if k == 0 then [] else FillBelow(x, k - 1, n) + Fill(x, k - 1, n)
  }

  lemma {:induction false} FillBelowFills<T>(s: Wfq<T>, x: T, k: nat, n: nat)
    requires k <= COUNT
    ensures var t := After(s, FillBelow(x, k, n));
            forall j | 0 <= j < COUNT :: t.At(j) == if j < k then Lane(s.At(j).queue + Copies(x, n), s.At(j).credits) else s.At(j)
  {
    if k > 0 {
      FillBelowFills(s, x, k - 1, n);
      FillOne(After(s, FillBelow(x, k - 1, n)), x, k - 1, n);
      AfterAppend(s, FillBelow(x, k - 1, n), Fill(x, k - 1, n));
    }
  }

  /** The delay bound is attained, for every class and every position, in a state the scheduler can reach. */
  lemma DelayBoundTight<T>(x: T, i: nat, p: nat)
    requires i < COUNT
    ensures exists setup: seq<Op<T>> :: WaitsUntilBound(setup, i, p)
  {
    var n := Bound(i, p) + p;
    var setup := Spend(x, i) + FillBelow(x, COUNT, n);
    SpendSpends(x, i);
    FillBelowFills(After(NewWfq(), Spend(x, i)), x, COUNT, n);
    AfterAppend(NewWfq(), Spend(x, i), FillBelow(x, COUNT, n));
    var s := After(NewWfq(), setup);
    assert |s.At(0).queue| == |s.At(1).queue| == |s.At(2).queue| == |s.At(3).queue| == n;
    assert s.At(0).credits + s.At(1).credits + s.At(2).credits + s.At(3).credits == 15 - Weight(i);
    RunsStayValid(NewWfq(), setup);
    MeasureAtMostBound(s, i, p);
    WaitsOutMeasure(s, Bound(i, p) - 1, i, p);
    assert WaitsUntilBound(setup, i, p);
  }

  /** After `setup` the item at position `p` of class `i` is still queued when Bound(i, p) - 1 pops have been made. */
  ghost predicate WaitsUntilBound<T>(setup: seq<Op<T>>, i: nat, p: nat)
    requires i < COUNT
  {
    var s := After(NewWfq(), setup);
    p < |s.At(i).queue| && |Of(i, Served(s, Copies(Op<T>.Next, Bound(i, p) - 1)))| <= p
  }

  // ------------------------------------------------------------------
  // Fairness
  // ------------------------------------------------------------------

  /** Class `i` has something queued at every pop of the run. */
  ghost predicate Backlogged<T>(s: Wfq<T>, ops: seq<Op<T>>, i: nat)
    requires i < COUNT
    decreases |ops|
  {
    |ops| > 0 ==>
      && (ops[0].Next? ==> |s.At(i).queue| > 0)
      && Backlogged(Step(s, ops[0]), ops[1..], i)
  }

  /** How often the credits are reset during the run. */
  ghost function Resets<T>(s: Wfq<T>, ops: seq<Op<T>>): nat
    decreases |ops|
  {
    if |ops| == 0 then 0
    else (if ops[0].Next? && s.First() == COUNT then 1 else 0) + Resets(Step(s, ops[0]), ops[1..])
  }

  /** The credits class `i` has spent between two states. */
  ghost function Spent<T>(s: Wfq<T>, t: Wfq<T>, i: nat): int
    requires i < COUNT
  {
    s.At(i).credits as int - t.At(i).credits as int
  }

  lemma StepServes<T>(s: Wfq<T>, op: Op<T>, i: nat)
    requires i < COUNT && (op.Next? ==> |s.At(i).queue| > 0)
    ensures |Of(i, Serves(s, op))| == (if op.Next? && s.First() == COUNT then Weight(i) else 0) + Spent(s, Step(s, op), i)
  {
    if op.Next? {
      OfCons(i, s.Popped().value, []);
      assert [s.Popped().value] + [] == Serves(s, op);
    }
  }

  lemma ResetsCons<T>(s: Wfq<T>, op: Op<T>, rest: seq<Op<T>>)
    ensures Resets(s, [op] + rest) == (if op.Next? && s.First() == COUNT then 1 else 0) + Resets(Step(s, op), rest)
  {
    assert ([op] + rest)[1..] == rest;
  }

  /** Credits and resets of one step and of the steps after it add up. */
  lemma RoundsSum(first: int, rest: int, reset: int, resets: int, w: int, spent: int, later: int)
    requires first == reset * w + spent && rest == resets * w + later
    ensures first + rest == (reset + resets) * w + (spent + later)
  {
  }

  lemma OfLengths<T>(i: nat, a: seq<Out<T>>, b: seq<Out<T>>)
    ensures |Of(i, a + b)| == |Of(i, a)| + |Of(i, b)|
  {
    OfAppend(i, a, b);
  }

  lemma RoundsCons<T>(s: Wfq<T>, op: Op<T>, rest: seq<Op<T>>, i: nat)
    requires i < COUNT && (op.Next? ==> |s.At(i).queue| > 0)
    requires var t := Step(s, op); |Of(i, Served(t, rest))| == Resets(t, rest) * Weight(i) + Spent(t, After(t, rest), i)
    ensures |Of(i, Served(s, [op] + rest))| == Resets(s, [op] + rest) * Weight(i) + Spent(s, After(s, [op] + rest), i)
  {
    var t, w := Step(s, op), Weight(i);
    var reset := if op.Next? && s.First() == COUNT then 1 else 0;
    RunCons(s, op, rest);
    ResetsCons(s, op, rest);
    StepServes(s, op, i);
    OfLengths(i, Serves(s, op), Served(t, rest));
    RoundsSum(|Of(i, Serves(s, op))|, |Of(i, Served(t, rest))|, reset, Resets(t, rest), w, Spent(s, t, i), Spent(t, After(t, rest), i));
  }

  /** A class backlogged throughout is served its weight once per reset, plus the credits it spent. */
  lemma {:induction false} ServedByRounds<T>(s: Wfq<T>, ops: seq<Op<T>>, i: nat)
    requires i < COUNT && Backlogged(s, ops, i)
    ensures |Of(i, Served(s, ops))| == Resets(s, ops) * Weight(i) + Spent(s, After(s, ops), i)
    decreases |ops|
  {
    if |ops| > 0 {
      ServedByRounds(Step(s, ops[0]), ops[1..], i);
      FirstApart(ops, []);
      RoundsCons(s, ops[0], ops[1..], i);
    }
  }

  /** The exact service difference of two backlogged classes, whatever happens in between. */
  lemma ServiceDifference<T>(s: Wfq<T>, ops: seq<Op<T>>, i: nat, j: nat)
    requires i < COUNT && j < COUNT && Backlogged(s, ops, i) && Backlogged(s, ops, j)
    ensures Difference(Served(s, ops), i, j)
         == Spent(s, After(s, ops), i) * Weight(j) - Spent(s, After(s, ops), j) * Weight(i)
  {
    ServedByRounds(s, ops, i);
    ServedByRounds(s, ops, j);
    Distribute(Resets(s, ops), Weight(i), Weight(j), Spent(s, After(s, ops), i));
    Distribute(Resets(s, ops), Weight(j), Weight(i), Spent(s, After(s, ops), j));
  }

  /** Service of class `i` against class `j`, scaled by the weights: zero when exactly proportional. */
  ghost function Difference<T>(outs: seq<Out<T>>, i: nat, j: nat): int
    requires i < COUNT && j < COUNT
  {
    |Of(i, outs)| * Weight(j) - |Of(j, outs)| * Weight(i)
  }

  lemma Distribute(r: int, w: int, v: int, d: int)
    ensures (r * w + d) * v == r * (w * v) + d * v
  {
    assert (r * w) * v == r * (w * v);
  }

  lemma Scale(d: int, lo: int, hi: int, w: int)
    requires lo <= d <= hi && w >= 0
    ensures lo * w <= d * w <= hi * w
  {
  }

  /** Fairness: over any window in which classes `i` and `j` stay backlogged, and from full credits. */
  lemma Fairness<T>(s: Wfq<T>, ops: seq<Op<T>>, i: nat, j: nat)
    requires s.Valid() && i < COUNT && j < COUNT && Backlogged(s, ops, i) && Backlogged(s, ops, j)
    ensures var d, unit := Difference(Served(s, ops), i, j), Weight(i) * Weight(j);
            -2 * unit <= d <= 2 * unit && (s.FullCredits() ==> -unit <= d <= unit)
  {
    RunsStayValid(s, ops);
    ServiceDifference(s, ops, i, j);
    var t := After(s, ops);
    var wi: int, wj: int := Weight(i), Weight(j);
    var di, dj := Spent(s, t, i), Spent(s, t, j);
    assert wi * wj == wj * wi && (-wi) * wj == -(wi * wj) && (-wj) * wi == -(wi * wj);
    Scale(di, -wi, wi, wj);
    Scale(dj, -wj, wj, wi);
    if s.FullCredits() {
      Scale(di, 0, wi, wj);
      Scale(dj, 0, wj, wi);
    }
  }

  /** With classes `i` < `j` alone queued, `i` is served while it has credits, and after a reset when neither has. */
  lemma PopHigher<T>(s: Wfq<T>, i: nat, j: nat)
    requires i < j < COUNT && |s.At(i).queue| > 0 && OnlyQueued(s, i, j)
    requires s.At(i).credits == 0 ==> s.At(j).credits == 0
    ensures s.Popped() == Some(Out(i, s.At(i).queue[0]))
    ensures var c := s.At(i).credits;
            && s.AfterPop().At(i) == Lane(s.At(i).queue[1..], if c > 0 then c - 1 else Weight(i) - 1)
            && s.AfterPop().At(j).queue == s.At(j).queue
            && (c > 0 ==> s.AfterPop().At(j).credits == s.At(j).credits)
            && OnlyQueued(s.AfterPop(), i, j)
  {
    PopOnly(if s.At(i).credits > 0 then s else s.Refilled(), i, j);
  }

  /** With classes `i` < `j` alone backlogged, class `i` is served first, and again after the reset if `j` has no credits. */
  /** A run in which class `j` waits while every pop serves class `i`. */
  ghost predicate ServesHigher<T>(s: Wfq<T>, ops: seq<Op<T>>, i: nat, j: nat)
    requires i < COUNT && j < COUNT
  {
    Backlogged(s, ops, i) && Backlogged(s, ops, j) && |Of(i, Served(s, ops))| == |ops| && Of(j, Served(s, ops)) == []
  }

  ghost predicate PopsServeHigher<T>(s: Wfq<T>, n: nat, i: nat, j: nat)
    requires i < COUNT && j < COUNT
  {
    forall ops | ops == Copies(Op<T>.Next, n) :: ServesHigher(s, ops, i, j)
  }

  lemma OneMoreHigher<T>(s: Wfq<T>, i: nat, j: nat, n: nat)
    requires i < COUNT && j < COUNT && i != j && n > 0
    requires s.Popped().Some? && s.Popped().value.cls == i && |s.At(i).queue| > 0 && |s.At(j).queue| > 0
    requires PopsServeHigher(s.AfterPop(), n - 1, i, j)
    ensures PopsServeHigher(s, n, i, j)
  {
    assert ServesHigher(s.AfterPop(), Copies(Op<T>.Next, n - 1), i, j);
    OneServed(s, i, j, n);
  }

  lemma {:induction false} HigherServedAlone<T>(s: Wfq<T>, i: nat, j: nat, n: nat, rounds: nat)
    requires i < j < COUNT
    requires |s.At(i).queue| >= n && |s.At(j).queue| > 0
    requires OnlyQueued(s, i, j)
    requires n == s.At(i).credits + rounds * Weight(i) && rounds <= 1
    requires rounds == 1 ==> s.At(j).credits == 0
    ensures PopsServeHigher(s, n, i, j)
    decreases n
  {
    if n > 0 {
      PopHigher(s, i, j);
      HigherServedAlone(s.AfterPop(), i, j, n - 1, if s.At(i).credits > 0 then rounds else 0);
      OneMoreHigher(s, i, j, n);
    }
  }

  /** One more pop at the front of a run of pops, serving class `i`. */
  lemma OneServed<T>(s: Wfq<T>, i: nat, j: nat, n: nat)
    requires i < COUNT && j < COUNT && i != j && n > 0
    requires s.Popped().Some? && s.Popped().value.cls == i && |s.At(i).queue| > 0 && |s.At(j).queue| > 0
    ensures forall k | k == i || k == j ::
              Backlogged(s, Copies(Op<T>.Next, n), k) == Backlogged(s.AfterPop(), Copies(Op<T>.Next, n - 1), k)
    ensures |Of(i, Served(s, Copies(Op<T>.Next, n)))| == 1 + |Of(i, Served(s.AfterPop(), Copies(Op<T>.Next, n - 1)))|
    ensures Of(j, Served(s, Copies(Op<T>.Next, n))) == Of(j, Served(s.AfterPop(), Copies(Op<T>.Next, n - 1)))
  {
    assert Copies(Op<T>.Next, n)[1..] == Copies(Op<T>.Next, n - 1);
    NextThen(s, n);
    OfCons(i, s.Popped().value, Served(s.AfterPop(), Copies(Op<T>.Next, n - 1)));
    OfCons(j, s.Popped().value, Served(s.AfterPop(), Copies(Op<T>.Next, n - 1)));
  }

  /** The factor 2 is attained by a reachable run, for every pair of classes. */
  lemma FairnessTight<T>(x: T, i: nat, j: nat)
    requires i < j < COUNT
    ensures exists setup: seq<Op<T>>, ops: seq<Op<T>> :: AttainsFactorTwo(setup, ops, i, j)
  {
    var n := 2 * Weight(i);
    var a, b := Fill(x, i, n), Fill(x, j, 1);
    SpendSpends(x, j);
    var s1 := After(NewWfq(), Spend(x, j));
    FillOne(s1, x, i, n);
    var s2 := After(s1, a);
    FillOne(s2, x, j, 1);
    AfterAppend(NewWfq(), Spend(x, j), a);
    AfterAppend(NewWfq(), Spend(x, j) + a, b);
    var setup := Spend(x, j) + a + b;
    var s := After(NewWfq(), setup);
    HigherServedAlone(s, i, j, n, 1);
    assert ServesHigher(s, Copies(Op<T>.Next, n), i, j);
    assert n * Weight(j) - 0 * Weight(i) == 2 * (Weight(i) * Weight(j));
    assert AttainsFactorTwo(setup, Copies(Op<T>.Next, n), i, j);
  }

  /** After `setup`, a run in which both classes stay backlogged and the difference is 2·W[i]·W[j]. */
  ghost predicate AttainsFactorTwo<T>(setup: seq<Op<T>>, ops: seq<Op<T>>, i: nat, j: nat)
    requires i < COUNT && j < COUNT
  {
    var s := After(NewWfq(), setup);
    && Backlogged(s, ops, i) && Backlogged(s, ops, j)
    && Difference(Served(s, ops), i, j) == 2 * (Weight(i) * Weight(j))
  }

  ghost predicate AllBacklogged<T>(s: Wfq<T>, ops: seq<Op<T>>) {
    Backlogged(s, ops, 0) && Backlogged(s, ops, 1) && Backlogged(s, ops, 2) && Backlogged(s, ops, 3)
  }

  /** In a fully backlogged run every pop spends one credit, and resets happen only at zero credits. */
  lemma {:induction false} CreditsByPops<T>(s: Wfq<T>, ops: seq<Op<T>>)
    requires s.Valid() && AllBacklogged(s, ops)
    ensures Credits(After(s, ops)) + Pops(ops) == Credits(s) + 15 * Resets(s, ops)
    ensures if Pops(ops) > 0 then Credits(After(s, ops)) < 15 else After(s, ops).At(0).credits == s.At(0).credits && Credits(After(s, ops)) == Credits(s)
    decreases |ops|
  {
    if |ops| > 0 {
      CreditsByPops(Step(s, ops[0]), ops[1..]);
    }
  }

  /** `n` full rounds with all four classes backlogged serve exactly 8n, 4n, 2n and n items. */
  lemma FullRounds<T>(s: Wfq<T>, ops: seq<Op<T>>, n: nat)
    requires s.FullCredits() && AllBacklogged(s, ops) && Pops(ops) == 15 * n
    ensures forall i | 0 <= i < COUNT :: |Of(i, Served(s, ops))| == n * Weight(i)
  {
    CreditsByPops(s, ops);
    RunsStayValid(s, ops);
    var r, t := Resets(s, ops), After(s, ops);
    forall i | 0 <= i < COUNT
      ensures |Of(i, Served(s, ops))| == n * Weight(i)
    {
      ServedByRounds(s, ops, i);
      assert r == (if n == 0 then 0 else n - 1);
      assert (n - 1) * Weight(i) + Weight(i) == n * Weight(i);
      assert t.At(i).credits == if n == 0 then Weight(i) else 0;
    }
  }
}
