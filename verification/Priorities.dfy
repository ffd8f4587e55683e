/**
 The scheduler by the names of the priorities (src/scheduler.rs): which goes first, and how much of each
 goes in a round. Nothing here speaks of class numbers.
 */
module Priorities {
  import opened Basics
  import opened Scheduler
  import opened SchedulerRuns

  /** RealTime before Normal before Stream before Bulk. */
  predicate MoreUrgent(a: MessagePriority, b: MessagePriority) {
    match a
    case RealTime => !b.RealTime?
    case Normal => b.Stream? || b.Bulk?
    case Stream => b.Bulk?
    case Bulk => false
  }

  ghost predicate OnlyPushes<T>(ops: seq<Op<T>>) {
    forall op | op in ops :: op.Push?
  }

  lemma {:induction false} PushesQueue<T>(s: Wfq<T>, ops: seq<Op<T>>, i: nat)
    requires i < COUNT && OnlyPushes(ops)
    ensures After(s, ops).At(i).queue == s.At(i).queue + Pushed(i, ops)
    ensures After(s, ops).At(i).credits == s.At(i).credits
    decreases |ops|
  {
    if |ops| == 0 {
      assert s.At(i).queue + [] == s.At(i).queue;
    } else {
      assert ops[0] in ops && forall op | op in ops[1..] :: op in ops;
      PushesQueue(Step(s, ops[0]), ops[1..], i);
      FirstApart(ops, []);
      PushedCons(i, ops[0], ops[1..]);
      StepFifo(s, ops[0], i);
      Assoc(s.At(i).queue, Pushed(i, [ops[0]]), Pushed(i, ops[1..]));
    }
  }

  /** The first push with this class, if any. */
  lemma {:induction false} FirstPushed<T>(i: nat, ops: seq<Op<T>>) returns (k: nat)
    requires OnlyPushes(ops) && |Pushed(i, ops)| > 0
    ensures k < |ops| && ops[k].priority.Index() == i && ops[k].item == Pushed(i, ops)[0]
    ensures forall j | 0 <= j < k :: ops[j].priority.Index() != i
    decreases |ops|
  {
    assert ops[0] in ops && forall op | op in ops[1..] :: op in ops;
    k := 0;
    if ops[0].priority.Index() != i {
      var rest := FirstPushed(i, ops[1..]);
      k := rest + 1;
    }
  }

  lemma {:induction false} NonePushed<T>(i: nat, ops: seq<Op<T>>)
    requires OnlyPushes(ops) && |Pushed(i, ops)| == 0
    ensures forall k | 0 <= k < |ops| :: ops[k].priority.Index() != i
    decreases |ops|
  {
    if |ops| > 0 {
      assert ops[0] in ops && forall op | op in ops[1..] :: op in ops;
      NonePushed(i, ops[1..]);
    }
  }

  lemma UrgentIsLower(a: MessagePriority, b: MessagePriority)
    ensures MoreUrgent(a, b) <==> a.Index() < b.Index()
    ensures a == b <==> a.Index() == b.Index()
  {
  }

  /**
   After any pushes to a new scheduler, the first item served is one that was pushed with nothing more
   urgent, and nothing before it at its own priority.
   */
  lemma MostUrgentFirst<T>(ops: seq<Op<T>>) returns (k: nat)
    requires OnlyPushes(ops) && |ops| > 0
    ensures k < |ops| && After(NewWfq(), ops).Popped().Some? && After(NewWfq(), ops).Popped().value.item == ops[k].item
    ensures forall j | 0 <= j < |ops| :: !MoreUrgent(ops[j].priority, ops[k].priority)
    ensures forall j | 0 <= j < k :: ops[j].priority != ops[k].priority
  {
    var s := After(NewWfq(), ops);
    forall i | 0 <= i < COUNT ensures s.At(i).queue == Pushed(i, ops) && s.At(i).credits == Weight(i) {
      PushesQueue(NewWfq<T>(), ops, i);
    }
    assert ops[0] in ops;
    SomethingPushed(ops);
    var first := s.First();
    FirstOfFull(s, ops);
    k := FirstPushed(first, ops);
    forall j | 0 <= j < |ops| ensures !MoreUrgent(ops[j].priority, ops[k].priority) && ops[j].priority.Index() >= first {
      var c := ops[j].priority.Index();
      UrgentIsLower(ops[j].priority, ops[k].priority);
      if c < first {
        NonePushed(c, ops);
      }
    }
    forall j | 0 <= j < k ensures ops[j].priority != ops[k].priority {
      UrgentIsLower(ops[j].priority, ops[k].priority);
    }
  }

  lemma SomethingPushed<T>(ops: seq<Op<T>>)
    requires OnlyPushes(ops) && |ops| > 0
    ensures |Pushed(ops[0].priority.Index(), ops)| > 0
  {
    assert ops[0] in ops;
  }

  /** With every credit there, the first class with anything queued is served. */
  lemma FirstOfFull<T>(s: Wfq<T>, ops: seq<Op<T>>)
    requires OnlyPushes(ops) && |ops| > 0
    requires forall i | 0 <= i < COUNT :: s.At(i).queue == Pushed(i, ops) && s.At(i).credits == Weight(i)
    ensures s.First() < COUNT && s.Popped() == Some(Out(s.First(), s.At(s.First()).queue[0]))
    ensures forall c | 0 <= c < s.First() :: |Pushed(c, ops)| == 0
  {
    SomethingPushed(ops);
    var c := ops[0].priority.Index();
    assert s.At(c).Ready();
    assert s.At(0).Ready() <==> |Pushed(0, ops)| > 0;
    assert s.At(1).Ready() <==> |Pushed(1, ops)| > 0;
    assert s.At(2).Ready() <==> |Pushed(2, ops)| > 0;
    assert s.At(3).Ready() <==> |Pushed(3, ops)| > 0;
  }

  // ------------------------------------------------------------------
  // Shares
  // ------------------------------------------------------------------

  /** Every item is its own priority. */
  ghost predicate Labelled(ops: seq<Op<MessagePriority>>) {
    forall op | op in ops && op.Push? :: op.item == op.priority
  }

  /** What is queued in each class is that class's priority. */
  ghost predicate Sorted(s: Wfq<MessagePriority>) {
    forall i, k | 0 <= i < COUNT && 0 <= k < |s.At(i).queue| :: s.At(i).queue[k].Index() == i
  }

  lemma StepSorted(s: Wfq<MessagePriority>, op: Op<MessagePriority>)
    requires Sorted(s) && (op.Push? ==> op.item == op.priority)
    ensures Sorted(Step(s, op))
    ensures forall out | out in Serves(s, op) :: out.item.Index() == out.cls
  {
    if op.Push? {
      PushSorted(s, op);
    } else {
      PopSorted(s);
    }
  }

  lemma PushSorted(s: Wfq<MessagePriority>, op: Op<MessagePriority>)
    requires Sorted(s) && op.Push? && op.item == op.priority
    ensures Sorted(Step(s, op))
  {
    var t := Step(s, op);
    forall i, k | 0 <= i < COUNT && 0 <= k < |t.At(i).queue| ensures t.At(i).queue[k].Index() == i {
      if k < |s.At(i).queue| {
        assert t.At(i).queue[k] == s.At(i).queue[k];
      } else {
        assert i == op.priority.Index();
      }
    }
  }

  lemma PopSorted(s: Wfq<MessagePriority>)
    requires Sorted(s)
    ensures Sorted(s.AfterPop())
    ensures s.Popped().Some? ==> s.Popped().value.item.Index() == s.Popped().value.cls
  {
    var t := s.AfterPop();
    if s.Popped().Some? {
      var c := s.Popped().value.cls;
      assert s.Round().At(c).queue == s.At(c).queue;
      assert s.At(c).queue[0].Index() == c;
    }
    forall i, k | 0 <= i < COUNT && 0 <= k < |t.At(i).queue| ensures t.At(i).queue[k].Index() == i {
      var taken := if s.Popped().Some? && s.Popped().value.cls == i then 1 else 0;
      assert t.At(i).queue == s.At(i).queue[taken..];
      assert t.At(i).queue[k] == s.At(i).queue[k + taken];
    }
  }

  /** How many of the items served have this priority. */
  ghost function Count(p: MessagePriority, outs: seq<Out<MessagePriority>>): nat {
    if |outs| == 0 then 0 else (if outs[0].item == p then 1 else 0) + Count(p, outs[1..])
  }

  lemma {:induction false} ServedSorted(s: Wfq<MessagePriority>, ops: seq<Op<MessagePriority>>)
    requires Sorted(s) && Labelled(ops)
    ensures forall out | out in Served(s, ops) :: out.item.Index() == out.cls
    ensures Sorted(After(s, ops))
    decreases |ops|
  {
    if |ops| > 0 {
      assert ops[0] in ops && forall op | op in ops[1..] :: op in ops;
      StepSorted(s, ops[0]);
      ServedSorted(Step(s, ops[0]), ops[1..]);
    }
  }

  lemma {:induction false} CountIs(p: MessagePriority, outs: seq<Out<MessagePriority>>)
    requires forall out | out in outs :: out.item.Index() == out.cls
    ensures Count(p, outs) == |Of(p.Index(), outs)|
  {
    if |outs| > 0 {
      assert outs[0] in outs && forall out | out in outs[1..] :: out in outs;
      CountIs(p, outs[1..]);
      UrgentIsLower(outs[0].item, p);
    }
  }

  /**
   The shares by name: from a new scheduler filled with any pushes, `n` full rounds with all four
   priorities backlogged serve 8n RealTime, 4n Normal, 2n Stream and n Bulk items.
   */
  lemma RoundShares(setup: seq<Op<MessagePriority>>, ops: seq<Op<MessagePriority>>, n: nat)
    requires OnlyPushes(setup) && Labelled(setup) && Labelled(ops)
    requires AllBacklogged(After(NewWfq(), setup), ops) && Pops(ops) == 15 * n
    ensures var outs := Served(After(NewWfq(), setup), ops);
            Count(RealTime, outs) == 8 * n && Count(Normal, outs) == 4 * n && Count(Stream, outs) == 2 * n && Count(Bulk, outs) == n
  {
    var s := After(NewWfq(), setup);
    forall i | 0 <= i < COUNT ensures s.At(i).credits == Weight(i) {
      PushesQueue(NewWfq<MessagePriority>(), setup, i);
    }
    assert s.At(0).credits == 8 && s.At(1).credits == 4 && s.At(2).credits == 2 && s.At(3).credits == 1;
    ServedSorted(NewWfq(), setup);
    ServedSorted(s, ops);
    FullRounds(s, ops, n);
    var outs := Served(s, ops);
    CountIs(RealTime, outs);
    CountIs(Normal, outs);
    CountIs(Stream, outs);
    CountIs(Bulk, outs);
    assert |Of(0, outs)| == n * 8 && |Of(1, outs)| == n * 4 && |Of(2, outs)| == n * 2 && |Of(3, outs)| == n * 1;
  }
}
