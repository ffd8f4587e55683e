/**
 Draining a scheduler onto a line: the frames leave in the scheduler's order until it is empty or a
 send fails (src/ws/server/session.rs, src/ws/client/connection_loop.rs).
 */
module Drains {
  import opened Basics
  import opened Scheduler
  import opened SchedulerRuns
  import opened Frames
  import opened Links

  /** Everything the scheduler serves until it is empty, when nothing is pushed meanwhile. */
  ghost function Drained<T>(s: Wfq<T>): seq<T>
    decreases s.Len()
  {
    PopSomeIffQueued(s);
    if s.Popped().None? then [] else [s.Popped().value.item] + Drained(s.AfterPop())
  }

  /** Only class 0 holds items, all of them `x`. */
  ghost predicate OnlyCopies<T>(s: Wfq<T>, x: T, n: nat) {
    s.realTime.queue == Copies(x, n) && |s.normal.queue| == 0 && |s.stream.queue| == 0 && |s.bulk.queue| == 0
  }

  lemma {:induction false} DrainCopies<T>(s: Wfq<T>, x: T, n: nat)
    requires OnlyCopies(s, x, n)
    ensures Drained(s) == Copies(x, n)
    decreases n
  {
    if n > 0 {
      assert Copies(x, n)[1..] == Copies(x, n - 1);
      assert s.Round().First() == 0;
      DrainCopies(s.AfterPop(), x, n - 1);
      assert [x] + Copies(x, n - 1) == Copies(x, n);
    }
  }

  /** `n` copies of `x` in class 0 and one other item in class `i`, which has credits. */
  ghost predicate CopiesAndOne<T>(s: Wfq<T>, x: T, n: nat, i: nat, item: T) {
    && 0 < i < COUNT && s.At(i).credits > 0 && s.At(i).queue == [item]
    && s.realTime.queue == Copies(x, n) && OnlyQueued(s, 0, i)
  }

  /** The item of the lower class leaves once class 0 is out of credits or empty; the rest of class 0 follows it. */
  lemma {:induction false} DrainAround<T>(s: Wfq<T>, x: T, n: nat, i: nat, item: T)
    requires CopiesAndOne(s, x, n, i, item)
    ensures var first := if s.realTime.credits < n then s.realTime.credits else n;
            Drained(s) == Copies(x, first) + [item] + Copies(x, n - first)
    decreases n
  {
    var c := s.realTime.credits;
    if n > 0 && c > 0 {
      PopCopy(s, x, n, i, item);
      DrainAround(s.AfterPop(), x, n - 1, i, item);
      var first := if c - 1 < n - 1 then c - 1 else n - 1;
      ConsCopies(x, first, item, Copies(x, n - 1 - first));
    } else {
      PopItem(s, x, n, i, item);
      DrainCopies(s.AfterPop(), x, n);
      assert Copies(x, 0) + [item] + Copies(x, n) == [item] + Copies(x, n);
    }
  }

  lemma ConsCopies<T>(x: T, n: nat, item: T, rest: seq<T>)
    ensures [x] + (Copies(x, n) + [item] + rest) == Copies(x, n + 1) + [item] + rest
  {
    assert [x] + Copies(x, n) == Copies(x, n + 1);
    assert [x] + (Copies(x, n) + [item] + rest) == ([x] + Copies(x, n)) + [item] + rest;
  }

  lemma PopCopy<T>(s: Wfq<T>, x: T, n: nat, i: nat, item: T)
    requires CopiesAndOne(s, x, n, i, item) && n > 0 && s.realTime.credits > 0
    ensures s.Popped() == Some(Out(0, x)) && CopiesAndOne(s.AfterPop(), x, n - 1, i, item)
    ensures s.AfterPop().realTime.credits == s.realTime.credits - 1
  {
    assert Copies(x, n)[1..] == Copies(x, n - 1);
  }

  lemma PopItem<T>(s: Wfq<T>, x: T, n: nat, i: nat, item: T)
    requires CopiesAndOne(s, x, n, i, item) && (n == 0 || s.realTime.credits == 0)
    ensures s.Popped() == Some(Out(i, item)) && OnlyCopies(s.AfterPop(), x, n)
  {
  }

  /** The order in which `n` waiting Pongs and one frame of the given priority go out, from full credits. */
  ghost function AfterPongs(n: nat, frame: Frame, priority: MessagePriority): seq<Frame> {
    var first := if priority.RealTime? || n < 8 then n else 8;
    Copies(PONG, first) + [frame] + Copies(PONG, n - first)
  }

  /** A scheduler with full credits that holds nothing but `n` Pongs in class 0. */
  ghost function PongQueue(n: nat): Wfq<Frame> {
    NewWfq<Frame>().With(0, Lane(Copies(PONG, n), 8))
  }

  /** A frame that is not RealTime goes out after at most 8 of the waiting Pongs. */
  lemma DrainPongsAndFrame(n: nat, frame: Frame, priority: MessagePriority)
    ensures Drained(PongQueue(n).Enqueued(frame, priority.Index())) == AfterPongs(n, frame, priority)
  {
    var s := PongQueue(n).Enqueued(frame, priority.Index());
    if priority.RealTime? {
      DrainRealTime(s, n, frame);
      assert Copies(PONG, n) + [frame] + Copies(PONG, 0) == Copies(PONG, n) + [frame];
    } else {
      assert s.At(priority.Index()).queue == [] + [frame] == [frame];
      DrainAround(s, PONG, n, priority.Index(), frame);
    }
  }

  lemma {:induction false} DrainRealTime<T>(s: Wfq<T>, n: nat, item: T)
    requires |s.normal.queue| == 0 && |s.stream.queue| == 0 && |s.bulk.queue| == 0
    requires |s.realTime.queue| == n + 1 && s.realTime.queue[n] == item
    ensures Drained(s) == s.realTime.queue
    decreases n
  {
    var t := s.AfterPop();
    assert s.Round().First() == 0;
    if n > 0 {
      DrainRealTime(t, n - 1, item);
    } else {
      DrainCopies(t, item, 0);
    }
    assert [s.realTime.queue[0]] + s.realTime.queue[1..] == s.realTime.queue;
  }

  /** Pong frames among those given. */
  ghost function Pongs(fs: seq<Frame>): nat {
    if |fs| == 0 then 0 else Pongs(fs[..|fs| - 1]) + if fs[|fs| - 1].kind.Pong? then 1 else 0
  }

  lemma {:induction false} PongsAppend(a: seq<Frame>, b: seq<Frame>)
    ensures Pongs(a + b) == Pongs(a) + Pongs(b)
  {
    if |b| == 0 {
      assert a + b == a;
    } else {
      PongsAppend(a, b[..|b| - 1]);
      assert (a + b)[..|a + b| - 1] == a + b[..|b| - 1];
    }
  }

  lemma {:induction false} PongsOfCopies(n: nat)
    ensures Pongs(Copies(PONG, n)) == n
  {
    if n > 0 {
      assert Copies(PONG, n)[..n - 1] == Copies(PONG, n - 1);
      PongsOfCopies(n - 1);
    }
  }

  lemma PongsAfterPongs(n: nat, frame: Frame, priority: MessagePriority)
    ensures Pongs(AfterPongs(n, frame, priority)) == n + Pongs([frame])
  {
    var first := if priority.RealTime? || n < 8 then n else 8;
    PongsOfCopies(first);
    PongsOfCopies(n - first);
    PongsAppend(Copies(PONG, first), [frame]);
    PongsAppend(Copies(PONG, first) + [frame], Copies(PONG, n - first));
  }

  /** The frames that are not Pongs. */
  ghost function Others(fs: seq<Frame>): seq<Frame> {
    if |fs| == 0 then [] else Others(fs[..|fs| - 1]) + if fs[|fs| - 1].kind.Pong? then [] else [fs[|fs| - 1]]
  }

  lemma OthersSnoc(fs: seq<Frame>, f: Frame)
    ensures Others(fs + [f]) == Others(fs) + if f.kind.Pong? then [] else [f]
  {
    assert (fs + [f])[..|fs|] == fs;
  }

  lemma {:induction false} OthersAppend(a: seq<Frame>, b: seq<Frame>)
    ensures Others(a + b) == Others(a) + Others(b)
    decreases |b|
  {
    if |b| == 0 {
      assert a + b == a;
    } else {
      LastApart(a, b);
      OthersAppend(a, b[..|b| - 1]);
      OthersSnoc(a + b[..|b| - 1], b[|b| - 1]);
    }
  }

  lemma {:induction false} OthersOfCopies(n: nat)
    ensures Others(Copies(PONG, n)) == []
  {
    if n > 0 {
      assert Copies(PONG, n)[..n - 1] == Copies(PONG, n - 1);
      OthersOfCopies(n - 1);
    }
  }

  lemma OthersAfterPongs(n: nat, frame: Frame, priority: MessagePriority)
    ensures Others(AfterPongs(n, frame, priority)) == Others([frame])
  {
    var first := if priority.RealTime? || n < 8 then n else 8;
    OthersOfCopies(first);
    OthersOfCopies(n - first);
    OthersAppend(Copies(PONG, first), [frame]);
    OthersAppend(Copies(PONG, first) + [frame], Copies(PONG, n - first));
  }

  // ------------------------------------------------------------------
  // Onto a line
  // ------------------------------------------------------------------

  /** Whether a drain goes on, and how it ended: the scheduler ran empty, a send or the cipher failed, or a command closed the stream. */
  datatype Exit = Going | Clean | SendError | Disconnect

  /** The exit one round comes to before the channel is looked at. */
  ghost function NextExit(l: Line, s: Wfq<Frame>): Exit {
    if s.Popped().None? then Clean else if Sends(l, s.Popped().value.item) then Going else SendError
  }

  ghost function NextLine(l: Line, s: Wfq<Frame>): Line {
    if s.Popped().None? then l else Sent(l, s.Popped().value.item)
  }

  /** One round of either drain: the next frame is taken and sent. */
  method TakeAndSend(link: Link, scheduler: WfqScheduler<Frame>) returns (exit: Exit)
    requires scheduler.Valid()
    modifies link, link.noise, scheduler.queues, scheduler.credits
    ensures scheduler.Valid() && scheduler.View() == old(scheduler.View()).AfterPop()
    ensures link.View() == NextLine(old(link.View()), old(scheduler.View()))
    ensures exit == NextExit(old(link.View()), old(scheduler.View()))
  {
    var next := scheduler.Pop();
    if next.None? {
      return Clean;
    }
    var ok := link.SendFrame(next.value);
    exit := if ok then Going else SendError;
  }

  /** What a whole drain leaves, and whether it succeeded. */
  datatype Flushed = Flushed(line: Line, sched: Wfq<Frame>, ok: bool)

  ghost function Flush(l: Line, s: Wfq<Frame>): Flushed
    decreases s.Len()
  {
    PopSomeIffQueued(s);
    match NextExit(l, s)
    case Going => Flush(NextLine(l, s), s.AfterPop())
    case _ => Flushed(NextLine(l, s), s.AfterPop(), NextExit(l, s).Clean?)
  }

  /** Send everything queued. */
  method Drain(link: Link, scheduler: WfqScheduler<Frame>) returns (ok: bool)
    requires scheduler.Valid()
    modifies link, link.noise, scheduler.queues, scheduler.credits
    ensures scheduler.Valid()
    ensures Flushed(link.View(), scheduler.View(), ok) == Flush(old(link.View()), old(scheduler.View()))
  {
    while true
      invariant scheduler.Valid()
      invariant Flush(link.View(), scheduler.View()) == Flush(old(link.View()), old(scheduler.View()))
      decreases scheduler.View().Len()
    {
      PopSomeIffQueued(scheduler.View());
      var exit := TakeAndSend(link, scheduler);
      if !exit.Going? {
        return exit.Clean?;
      }
    }
  }

  /**
   A drain succeeds exactly when every frame it serves can be sent, in the order served; the line then
   carries them all, and the scheduler is empty with full credits. A drain that fails stops at the
   first frame that cannot be sent.
   */
  lemma {:induction false} FlushIs(l: Line, s: Wfq<Frame>)
    ensures Flush(l, s).ok <==> SendsAll(l, Drained(s))
    ensures Flush(l, s).line == SentAll(l, Drained(s))
    ensures Flush(l, s).ok ==> Flush(l, s).sched == NewWfq()
    decreases s.Len()
  {
    PopSomeIffQueued(s);
    if s.Popped().Some? {
      var frame, rest := s.Popped().value.item, Drained(s.AfterPop());
      assert Drained(s) == [frame] + rest && Drained(s)[1..] == rest;
      if Sends(l, frame) {
        FlushIs(Sent(l, frame), s.AfterPop());
      }
    }
  }
}
