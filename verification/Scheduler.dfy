/**
 The credit-based weighted fair queuing scheduler (src/scheduler.rs): the class whose arrays
 are updated in place, and the value-level step functions it is proved against.
 */
module Scheduler {
  import opened Basics

  datatype MessagePriority = RealTime | Normal | Stream | Bulk {
    function Index(): (i: nat)
      ensures i < COUNT
    {
      match this
      case RealTime => 0
      case Normal => 1
      case Stream => 2
      case Bulk => 3
    }
  }

  const COUNT: nat := 4

  /** What each class may send in one round. */
  const WFQ_WEIGHTS: seq<nat> := [8, 4, 2, 1]

  ghost function Weight(i: nat): (w: nat)
    requires i < COUNT
    ensures w == WFQ_WEIGHTS[i] && w > 0
  {
    if i == 0 then 8 else if i == 1 then 4 else if i == 2 then 2 else 1
  }

  /** An item together with the index of the queue it left. */
  datatype Out<T> = Out(cls: nat, item: T)

  /** One priority level: its queue and the credits it has left in this round. */
  datatype Lane<T> = Lane(queue: seq<T>, credits: nat) {
    predicate Ready() {
      credits > 0 && |queue| > 0
    }

    /** The head removed and one credit charged. */
    ghost function Charged(): Lane<T>
      requires Ready()
    {
      Lane(queue[1..], credits - 1)
    }

    ghost function Joined(item: T): Lane<T> {
      Lane(queue + [item], credits)
    }
  }

  /** The scheduler's state as a value. */
  datatype Wfq<T> = Wfq(realTime: Lane<T>, normal: Lane<T>, stream: Lane<T>, bulk: Lane<T>) {
    ghost function At(i: nat): Lane<T>
      requires i < COUNT
    {
      if i == 0 then realTime else if i == 1 then normal else if i == 2 then stream else bulk
    }

    ghost function With(i: nat, lane: Lane<T>): (s: Wfq<T>)
      requires i < COUNT
    {
      if i == 0 then this.(realTime := lane)
      else if i == 1 then this.(normal := lane)
      else if i == 2 then this.(stream := lane)
      else this.(bulk := lane)
    }

    ghost predicate Valid() {
      realTime.credits <= 8 && normal.credits <= 4 && stream.credits <= 2 && bulk.credits <= 1
    }

    ghost predicate FullCredits() {
      realTime.credits == 8 && normal.credits == 4 && stream.credits == 2 && bulk.credits == 1
    }

    /** The first class that has both credits and items, or COUNT. */
    ghost function First(): (r: nat)
      ensures r <= COUNT
    {
      if realTime.Ready() then 0
      else if normal.Ready() then 1
      else if stream.Ready() then 2
      else if bulk.Ready() then 3
      else COUNT
    }

    /** The same queues at the start of a new round. */
    ghost function Refilled(): Wfq<T> {
      Wfq(Lane(realTime.queue, 8), Lane(normal.queue, 4), Lane(stream.queue, 2), Lane(bulk.queue, 1))
    }

    /** The state in which the next item is chosen: this one, or a new round when no class is ready. */
    ghost function Round(): Wfq<T> {
      if First() < COUNT then this else Refilled()
    }

    ghost function Enqueued(item: T, i: nat): Wfq<T>
      requires i < COUNT
    {
      With(i, At(i).Joined(item))
    }

    /** What one call of `pop` serves. */
    ghost function Popped(): Option<Out<T>> {
      var s := Round();
      var i := s.First();
      if i < COUNT then Some(Out(i, s.At(i).queue[0])) else None
    }

    /** The state one call of `pop` leaves. */
    ghost function AfterPop(): Wfq<T> {
      var s := Round();
      var i := s.First();
      if i < COUNT then s.With(i, s.At(i).Charged()) else s
    }

    ghost function Len(): nat {
      |realTime.queue| + |normal.queue| + |stream.queue| + |bulk.queue|
    }
  }

  ghost function NewWfq<T>(): Wfq<T> {
    Wfq(Lane([], 8), Lane([], 4), Lane([], 2), Lane([], 1))
  }

  /** `pop` serves something exactly when something is queued; an empty scheduler gets its credits back. */
  lemma PopSomeIffQueued<T>(s: Wfq<T>)
    ensures s.Popped().Some? <==> s.Len() > 0
    ensures s.Popped().Some? ==> s.AfterPop().Len() == s.Len() - 1
    ensures s.Popped().None? ==> s.AfterPop() == NewWfq()
  {
  }

  /** A left-to-right scan that stops at `i` has found the first ready class. */
  lemma FirstIs<T>(s: Wfq<T>, i: nat)
    requires i <= COUNT && (i < COUNT ==> s.At(i).Ready())
    requires forall j | 0 <= j < i :: !s.At(j).Ready()
    ensures s.First() == i
  {
    assert i > 0 ==> !s.At(0).Ready();
    assert i > 1 ==> !s.At(1).Ready();
    assert i > 2 ==> !s.At(2).Ready();
    assert i > 3 ==> !s.At(3).Ready();
  }

  class WfqScheduler<T> {
    const queues: array<seq<T>>
    const credits: array<nat>

    ghost predicate Valid()
      reads queues, credits
    {
      && queues.Length == COUNT && credits.Length == COUNT
      && (queues as object) != (credits as object)
      && View().Valid()
    }

    ghost function View(): Wfq<T>
      requires queues.Length == COUNT && credits.Length == COUNT
      reads queues, credits
    {
      Wfq(Lane(queues[0], credits[0]), Lane(queues[1], credits[1]), Lane(queues[2], credits[2]), Lane(queues[3], credits[3]))
    }

    constructor ()
      ensures Valid() && fresh(queues) && fresh(credits)
      ensures View() == NewWfq()
    {
      queues := new seq<T>[COUNT](_ => []);
      credits := new nat[COUNT](i requires 0 <= i < COUNT => WFQ_WEIGHTS[i]);
    }

    /** The item goes to the back of the queue of its priority. */
    method Enqueue(item: T, priority: MessagePriority)
      requires Valid()
      modifies queues
      ensures Valid()
      ensures View() == old(View()).Enqueued(item, priority.Index())
    {
      var i := priority.Index();
      queues[i] := queues[i] + [item];
    }

    /** Charges class `i` one credit and removes the head of its queue. */
    method TakeFrom(i: nat) returns (item: T)
      requires Valid() && i < COUNT && View().At(i).Ready()
      modifies queues, credits
      ensures Valid()
      ensures item == old(View()).At(i).queue[0]
      ensures View() == old(View()).With(i, old(View()).At(i).Charged())
    {
      credits[i] := credits[i] - 1;
      item := queues[i][0];
      queues[i] := queues[i][1..];
    }

    /** Serve one item: a scan for a class that may still send this round, and if there is none a new round. */
    method Pop() returns (r: Option<T>)
      requires Valid()
      modifies queues, credits
      ensures Valid()
      ensures View() == old(View()).AfterPop()
      ensures r == match old(View()).Popped() case None => None case Some(out) => Some(out.item)
    {
      for i := 0 to COUNT
        invariant Valid() && View() == old(View())
        invariant forall j | 0 <= j < i :: !View().At(j).Ready()
      {
        if credits[i] > 0 && |queues[i]| > 0 {
          FirstIs(View(), i);
          var item := TakeFrom(i);
          return Some(item);
        }
      }
      FirstIs(View(), COUNT);
      forall k | 0 <= k < COUNT {
        credits[k] := WFQ_WEIGHTS[k];
      }
      for i := 0 to COUNT
        invariant Valid() && View() == old(View()).Refilled()
        invariant forall j | 0 <= j < i :: !View().At(j).Ready()
      {
        if |queues[i]| > 0 {
          FirstIs(View(), i);
          var item := TakeFrom(i);
          return Some(item);
        }
      }
      FirstIs(View(), COUNT);
      return None;
    }

    /** Whether nothing waits in any class. */
    method IsEmpty() returns (r: bool)
      requires Valid()
      ensures r <==> View().Len() == 0
    {
      for i := 0 to COUNT
        invariant forall j | 0 <= j < i :: |View().At(j).queue| == 0
      {
        if |queues[i]| > 0 {
          return false;
        }
      }
      assert |View().At(0).queue| == |View().At(1).queue| == |View().At(2).queue| == |View().At(3).queue| == 0;
      return true;
    }

    /** How many items wait, all classes together. */
    method Len() returns (n: nat)
      requires Valid()
      ensures n == View().Len()
    {
      n := 0;
      for i := 0 to COUNT
        invariant i == 1 ==> n == |queues[0]|
        invariant i == 2 ==> n == |queues[0]| + |queues[1]|
        invariant i == 3 ==> n == |queues[0]| + |queues[1]| + |queues[2]|
        invariant i == 4 ==> n == View().Len()
        invariant i == 0 ==> n == 0
      {
        n := n + |queues[i]|;
      }
    }
  }
}
