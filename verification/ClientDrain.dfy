/**
 The drain loop of the client (src/ws/client/connection_loop.rs): everything queued is sent, and after
 each frame the commands that have arrived meanwhile are taken from the channel.
 */
module ClientDrain {
  import opened Basics
  import opened Scheduler
  import opened SchedulerRuns
  import opened Frames
  import opened Commands
  import opened Links
  import opened Drains

  /** What a command taken inside the drain does to the scheduler. */
  ghost function Queued(s: Wfq<Frame>, cmd: ClientCmd): Wfq<Frame> {
    if cmd.Send? then s.Enqueued(cmd.frame, cmd.priority.Index()) else s
  }

  ghost function QueuedAll(s: Wfq<Frame>, cmds: seq<ClientCmd>): Wfq<Frame> {
    if |cmds| == 0 then s else Queued(QueuedAll(s, cmds[..|cmds| - 1]), cmds[|cmds| - 1])
  }

  predicate Closes(cmd: ClientCmd) {
    cmd.EndpointChanged? || cmd.Reconnect?
  }

  ghost predicate AnyCloses(cmds: seq<ClientCmd>) {
    exists k | 0 <= k < |cmds| :: Closes(cmds[k])
  }

  /** Take every command that has arrived: Sends are queued, and EndpointChanged or Reconnect ask for a disconnect. */
  method TakeArrivals(scheduler: WfqScheduler<Frame>, cmds: seq<ClientCmd>) returns (disconnect: bool)
    requires scheduler.Valid()
    modifies scheduler.queues
    ensures scheduler.Valid() && scheduler.View() == QueuedAll(old(scheduler.View()), cmds)
    ensures disconnect <==> AnyCloses(cmds)
  {
    disconnect := false;
    assert cmds[..0] == [];
    for j := 0 to |cmds|
      invariant scheduler.Valid() && scheduler.View() == QueuedAll(old(scheduler.View()), cmds[..j])
      invariant disconnect <==> exists k | 0 <= k < j :: Closes(cmds[k])
    {
      assert cmds[..j + 1][..j] == cmds[..j];
      match cmds[j] {
        case Send(f, p) => scheduler.Enqueue(f, p);
        case EndpointChanged => disconnect := true;
        case Reconnect => disconnect := true;
        case WakeUp =>
      }
    }
    assert cmds[..|cmds|] == cmds;
  }

  /** What a drain comes to. */
  datatype Outcome = Outcome(line: Line, sched: Wfq<Frame>, exit: Exit)

  /** The drain loop; `arrivals[k]` are the commands that have arrived once frame number `k` is sent. */
  ghost function Drain(l: Line, s: Wfq<Frame>, arrivals: seq<seq<ClientCmd>>): Outcome
    decreases |arrivals|, s.Len()
  {
    PopSomeIffQueued(s);
    var exit, next := NextExit(l, s), NextLine(l, s);
    if !exit.Going? then Outcome(next, s.AfterPop(), exit)
    else if |arrivals| == 0 then Drain(next, s.AfterPop(), arrivals)
    else if AnyCloses(arrivals[0]) then Outcome(next, QueuedAll(s.AfterPop(), arrivals[0]), Disconnect)
    else Drain(next, QueuedAll(s.AfterPop(), arrivals[0]), arrivals[1..])
  }

  /** One round: the next frame is sent, and the commands that have arrived by then are taken. */
  method OneRound(link: Link, scheduler: WfqScheduler<Frame>, arrivals: seq<seq<ClientCmd>>, k: nat) returns (exit: Exit)
    requires scheduler.Valid() && k <= |arrivals|
    modifies link, link.noise, scheduler.queues, scheduler.credits
    ensures scheduler.Valid()
    ensures var outcome := Drain(old(link.View()), old(scheduler.View()), arrivals[k..]);
            if exit.Going? then
              && outcome == Drain(link.View(), scheduler.View(), arrivals[if k < |arrivals| then k + 1 else k..])
              && (k == |arrivals| ==> scheduler.View().Len() < old(scheduler.View()).Len())
            else outcome == Outcome(link.View(), scheduler.View(), exit)
  {
    PopSomeIffQueued(scheduler.View());
    exit := TakeAndSend(link, scheduler);
    if exit.Going? && k < |arrivals| {
      assert arrivals[k..][1..] == arrivals[k + 1..];
      var disconnect := TakeArrivals(scheduler, arrivals[k]);
      if disconnect {
        exit := Disconnect;
      }
    }
  }

  /** A Send command sets off a drain. */
  method DrainSends(link: Link, scheduler: WfqScheduler<Frame>, frame: Frame, priority: MessagePriority, arrivals: seq<seq<ClientCmd>>)
      returns (exit: Exit)
    requires scheduler.Valid()
    modifies link, link.noise, scheduler.queues, scheduler.credits
    ensures scheduler.Valid()
    ensures Outcome(link.View(), scheduler.View(), exit)
         == Drain(old(link.View()), old(scheduler.View()).Enqueued(frame, priority.Index()), arrivals)
  {
    scheduler.Enqueue(frame, priority);
    var k := 0;
    assert arrivals[0..] == arrivals;
    while true
      invariant scheduler.Valid() && k <= |arrivals|
      invariant Drain(link.View(), scheduler.View(), arrivals[k..])
             == Drain(old(link.View()), old(scheduler.View()).Enqueued(frame, priority.Index()), arrivals)
      decreases |arrivals| - k, scheduler.View().Len()
    {
      exit := OneRound(link, scheduler, arrivals, k);
      if !exit.Going? {
        return;
      }
      if k < |arrivals| {
        k := k + 1;
      }
    }
  }

  // ------------------------------------------------------------------
  // What a drain does
  // ------------------------------------------------------------------

  /** The pushes the Sends among some commands make. */
  ghost function SendOps(cmds: seq<ClientCmd>): seq<Op<Frame>> {
    if |cmds| == 0 then []
    else
      var last := cmds[|cmds| - 1];
      SendOps(cmds[..|cmds| - 1]) + if last.Send? then [Push(last.frame, last.priority)] else []
  }

  const POP: Op<Frame> := Next

  /** A drain as a run of the scheduler: a pop, the Sends that have arrived, and so on. */
  ghost function Ops(l: Line, s: Wfq<Frame>, arrivals: seq<seq<ClientCmd>>): seq<Op<Frame>>
    decreases |arrivals|, s.Len()
  {
    PopSomeIffQueued(s);
    if !NextExit(l, s).Going? then [POP]
    else if |arrivals| == 0 then [POP] + Ops(NextLine(l, s), s.AfterPop(), arrivals)
    else if AnyCloses(arrivals[0]) then [POP] + SendOps(arrivals[0])
    else [POP] + SendOps(arrivals[0]) + Ops(NextLine(l, s), QueuedAll(s.AfterPop(), arrivals[0]), arrivals[1..])
  }

  /** The frames a drain hands to the line, in order; the last of them may have failed. */
  ghost function Taken(l: Line, s: Wfq<Frame>, arrivals: seq<seq<ClientCmd>>): seq<Out<Frame>> {
    Served(s, Ops(l, s, arrivals))
  }

  ghost function Items(outs: seq<Out<Frame>>): seq<Frame> {
    seq(|outs|, i requires 0 <= i < |outs| => outs[i].item)
  }

  lemma {:induction false} SendOpsRun(s: Wfq<Frame>, cmds: seq<ClientCmd>)
    ensures After(s, SendOps(cmds)) == QueuedAll(s, cmds) && Served(s, SendOps(cmds)) == []
  {
    if |cmds| > 0 {
      var init, last := cmds[..|cmds| - 1], cmds[|cmds| - 1];
      SendOpsRun(s, init);
      var op: seq<Op<Frame>> := if last.Send? then [Push(last.frame, last.priority)] else [];
      AfterAppend(s, SendOps(init), op);
      ServedAppend(s, SendOps(init), op);
      assert op != [] ==> op[1..] == [];
    }
  }

  lemma {:induction false} ServedAppend(s: Wfq<Frame>, a: seq<Op<Frame>>, b: seq<Op<Frame>>)
    ensures Served(s, a + b) == Served(s, a) + Served(After(s, a), b)
    decreases |a|
  {
    if |a| == 0 {
      assert a + b == b;
    } else {
      var t := Step(s, a[0]);
      FirstApart(a, b);
      ServedAppend(t, a[1..], b);
      RunCons(s, a[0], a[1..] + b);
      RunCons(s, a[0], a[1..]);
      Assoc(Serves(s, a[0]), Served(t, a[1..]), Served(After(s, a), b));
    }
  }

  lemma ItemsCons(out: Out<Frame>, outs: seq<Out<Frame>>)
    ensures |Items([out] + outs)| > 0 && Items([out] + outs)[0] == out.item && Items([out] + outs)[1..] == Items(outs)
  {
  }

  lemma QueuedRun(s: Wfq<Frame>, cmds: seq<ClientCmd>, rest: seq<Op<Frame>>)
    ensures After(s, SendOps(cmds) + rest) == After(QueuedAll(s, cmds), rest)
    ensures Served(s, SendOps(cmds) + rest) == Served(QueuedAll(s, cmds), rest)
  {
    SendOpsRun(s, cmds);
    AfterAppend(s, SendOps(cmds), rest);
    ServedAppend(s, SendOps(cmds), rest);
    assert [] + Served(QueuedAll(s, cmds), rest) == Served(QueuedAll(s, cmds), rest);
  }

  /** The round's pop and pushes, then the rest. */
  lemma RoundRun(s: Wfq<Frame>, cmds: seq<ClientCmd>, rest: seq<Op<Frame>>)
    ensures var t := QueuedAll(s.AfterPop(), cmds);
            && After(s, [POP] + SendOps(cmds) + rest) == After(t, rest)
            && Served(s, [POP] + SendOps(cmds) + rest) == Serves(s, POP) + Served(t, rest)
  {
    QueuedRun(s.AfterPop(), cmds, rest);
    RunCons(s, POP, SendOps(cmds) + rest);
    Assoc([POP], SendOps(cmds), rest);
  }

  /** What is said of an outcome: where the scheduler stands, what the line carries, and when it failed. */
  ghost predicate Explained(l: Line, s: Wfq<Frame>, o: Outcome, end: Wfq<Frame>, taken: seq<Out<Frame>>) {
    && o.sched == end
    && o.line == SentAll(l, Items(taken))
    && (o.exit.SendError? <==> !SendsAll(l, Items(taken)))
    && (o.exit.Clean? ==> o.sched == NewWfq())
    && !o.exit.Going?
  }

  lemma ExplainedMore(l: Line, s: Wfq<Frame>, t: Wfq<Frame>, o: Outcome, end: Wfq<Frame>, rest: seq<Out<Frame>>)
    requires NextExit(l, s).Going? && Explained(NextLine(l, s), t, o, end, rest)
    ensures Explained(l, s, o, end, Serves(s, POP) + rest)
  {
    ItemsCons(s.Popped().value, rest);
  }

  /**
   A drain is a run of the scheduler, so what is proved of runs (order, delay, fairness) holds of it. It
   fails exactly when a frame it takes cannot be sent; the line carries the frames taken, in order, up to
   that one; and a clean exit leaves an empty scheduler with full credits.
   */
  lemma {:induction false} DrainIs(l: Line, s: Wfq<Frame>, arrivals: seq<seq<ClientCmd>>)
    ensures Explained(l, s, Drain(l, s, arrivals), After(s, Ops(l, s, arrivals)), Taken(l, s, arrivals))
    decreases |arrivals|, s.Len()
  {
    PopSomeIffQueued(s);
    var next := NextLine(l, s);
    if !NextExit(l, s).Going? {
      LastRound(l, s);
    } else if |arrivals| == 0 {
      DrainIs(next, s.AfterPop(), arrivals);
      RunCons(s, POP, Ops(next, s.AfterPop(), arrivals));
      ExplainedMore(l, s, s.AfterPop(), Drain(l, s, arrivals), After(s, Ops(l, s, arrivals)), Taken(next, s.AfterPop(), arrivals));
    } else {
      var t := QueuedAll(s.AfterPop(), arrivals[0]);
      if AnyCloses(arrivals[0]) {
        RoundRun(s, arrivals[0], []);
        assert [POP] + SendOps(arrivals[0]) + [] == [POP] + SendOps(arrivals[0]);
        assert Explained(next, t, Outcome(next, t, Disconnect), t, []);
        ExplainedMore(l, s, t, Outcome(next, t, Disconnect), t, []);
      } else {
        DrainIs(next, t, arrivals[1..]);
        RoundRun(s, arrivals[0], Ops(next, t, arrivals[1..]));
        ExplainedMore(l, s, t, Drain(l, s, arrivals), After(s, Ops(l, s, arrivals)), Taken(next, t, arrivals[1..]));
      }
    }
  }

  lemma LastRound(l: Line, s: Wfq<Frame>)
    requires !NextExit(l, s).Going?
    ensures Explained(l, s, Outcome(NextLine(l, s), s.AfterPop(), NextExit(l, s)), After(s, [POP]), Served(s, [POP]))
  {
    PopSomeIffQueued(s);
    assert Served(s, [POP]) == Serves(s, POP) + [] == Serves(s, POP);
    if s.Popped().Some? {
      ItemsCons(s.Popped().value, []);
      assert Serves(s, POP) == [s.Popped().value] + [];
    }
  }

  // ------------------------------------------------------------------
  // Which commands it consumes, and where their frames are
  // ------------------------------------------------------------------

  /** The rounds in which a frame was sent. */
  ghost function Rounds(l: Line, s: Wfq<Frame>, arrivals: seq<seq<ClientCmd>>): nat
    decreases |arrivals|, s.Len()
  {
    PopSomeIffQueued(s);
    if !NextExit(l, s).Going? then 0
    else if |arrivals| == 0 then 1 + Rounds(NextLine(l, s), s.AfterPop(), arrivals)
    else if AnyCloses(arrivals[0]) then 1
    else 1 + Rounds(NextLine(l, s), QueuedAll(s.AfterPop(), arrivals[0]), arrivals[1..])
  }

  /** The commands taken in the first `n` rounds. */
  ghost function Consumed(arrivals: seq<seq<ClientCmd>>, n: nat): seq<ClientCmd> {
    Flatten(arrivals[..if n <= |arrivals| then n else |arrivals|])
  }

  lemma {:induction false} SendOpsAppend(a: seq<ClientCmd>, b: seq<ClientCmd>)
    ensures SendOps(a + b) == SendOps(a) + SendOps(b)
    decreases |b|
  {
    if |b| == 0 {
      assert a + b == a;
    } else {
      LastApart(a, b);
      SendOpsAppend(a, b[..|b| - 1]);
      SendOpsSnoc(a + b[..|b| - 1], b[|b| - 1]);
    }
  }

  lemma SendOpsSnoc(cmds: seq<ClientCmd>, last: ClientCmd)
    ensures SendOps(cmds + [last]) == SendOps(cmds) + if last.Send? then [Push(last.frame, last.priority)] else []
  {
    assert (cmds + [last])[..|cmds|] == cmds;
  }

  lemma {:induction false} PushedAppend(i: nat, a: seq<Op<Frame>>, b: seq<Op<Frame>>)
    ensures Pushed(i, a + b) == Pushed(i, a) + Pushed(i, b)
    decreases |a|
  {
    if |a| == 0 {
      assert a + b == b;
    } else {
      FirstApart(a, b);
      PushedAppend(i, a[1..], b);
      PushedCons(i, a[0], a[1..] + b);
      PushedCons(i, a[0], a[1..]);
      Assoc(Pushed(i, [a[0]]), Pushed(i, a[1..]), Pushed(i, b));
    }
  }

  lemma ConsumedCons(arrivals: seq<seq<ClientCmd>>, n: nat)
    requires |arrivals| > 0
    ensures Consumed(arrivals, n + 1) == arrivals[0] + Consumed(arrivals[1..], n)
  {
    var m := if n + 1 <= |arrivals| then n + 1 else |arrivals|;
    assert arrivals[..m][1..] == arrivals[1..][..m - 1];
  }

  lemma PopThen(i: nat, rest: seq<Op<Frame>>)
    ensures Pushed(i, [POP] + rest) == Pushed(i, rest)
  {
    assert ([POP] + rest)[1..] == rest;
  }

  lemma RoundPushes(i: nat, cmds: seq<ClientCmd>, rest: seq<Op<Frame>>, more: seq<ClientCmd>)
    requires Pushed(i, rest) == Pushed(i, SendOps(more))
    ensures Pushed(i, [POP] + SendOps(cmds) + rest) == Pushed(i, SendOps(cmds + more))
  {
    SendOpsAppend(cmds, more);
    PushedAppend(i, SendOps(cmds), SendOps(more));
    PushedAppend(i, SendOps(cmds), rest);
    PopThen(i, SendOps(cmds) + rest);
    Assoc([POP], SendOps(cmds), rest);
  }

  /** The frames pushed during a drain are those of the Sends it consumed. */
  lemma {:induction false} Pushes(i: nat, l: Line, s: Wfq<Frame>, arrivals: seq<seq<ClientCmd>>)
    ensures Pushed(i, Ops(l, s, arrivals)) == Pushed(i, SendOps(Consumed(arrivals, Rounds(l, s, arrivals))))
    decreases |arrivals|, s.Len()
  {
    PopSomeIffQueued(s);
    var next := NextLine(l, s);
    if !NextExit(l, s).Going? {
      assert arrivals[..0] == [] && [POP][1..] == [];
    } else if |arrivals| == 0 {
      Pushes(i, next, s.AfterPop(), arrivals);
      PushedAppend(i, [POP], Ops(next, s.AfterPop(), arrivals));
      assert [POP][1..] == [];
    } else if AnyCloses(arrivals[0]) {
      ConsumedCons(arrivals, 0);
      assert arrivals[1..][..0] == [];
      RoundPushes(i, arrivals[0], [], []);
      assert [POP] + SendOps(arrivals[0]) + [] == [POP] + SendOps(arrivals[0]);
    } else {
      var t := QueuedAll(s.AfterPop(), arrivals[0]);
      Pushes(i, next, t, arrivals[1..]);
      ConsumedCons(arrivals, Rounds(next, t, arrivals[1..]));
      RoundPushes(i, arrivals[0], Ops(next, t, arrivals[1..]), Consumed(arrivals[1..], Rounds(next, t, arrivals[1..])));
    }
  }

  /**
   Conservation: in each class, what was queued and what the drain consumed since is what it took, in
   order, and then what is queued. Nothing is lost but a frame that could not be sent, the last taken.
   */
  lemma NothingLost(i: nat, l: Line, s: Wfq<Frame>, arrivals: seq<seq<ClientCmd>>)
    requires i < COUNT
    ensures Of(i, Taken(l, s, arrivals)) + Drain(l, s, arrivals).sched.At(i).queue
         == s.At(i).queue + Pushed(i, SendOps(Consumed(arrivals, Rounds(l, s, arrivals))))
    ensures |Taken(l, s, arrivals)| == Rounds(l, s, arrivals) + if Drain(l, s, arrivals).exit.SendError? then 1 else 0
  {
    DrainIs(l, s, arrivals);
    Fifo(s, Ops(l, s, arrivals), i);
    Pushes(i, l, s, arrivals);
    CountTaken(l, s, arrivals);
  }

  lemma {:induction false} CountTaken(l: Line, s: Wfq<Frame>, arrivals: seq<seq<ClientCmd>>)
    ensures |Taken(l, s, arrivals)| == Rounds(l, s, arrivals) + if Drain(l, s, arrivals).exit.SendError? then 1 else 0
    decreases |arrivals|, s.Len()
  {
    PopSomeIffQueued(s);
    var next := NextLine(l, s);
    if !NextExit(l, s).Going? {
      RunCons(s, POP, []);
      assert [POP] + [] == [POP];
    } else if |arrivals| == 0 {
      CountTaken(next, s.AfterPop(), arrivals);
      RunCons(s, POP, Ops(next, s.AfterPop(), arrivals));
    } else {
      var t := QueuedAll(s.AfterPop(), arrivals[0]);
      if AnyCloses(arrivals[0]) {
        RoundRun(s, arrivals[0], []);
        assert [POP] + SendOps(arrivals[0]) + [] == [POP] + SendOps(arrivals[0]);
      } else {
        CountTaken(next, t, arrivals[1..]);
        RoundRun(s, arrivals[0], Ops(next, t, arrivals[1..]));
      }
    }
  }

  /** An EndpointChanged or Reconnect has arrived by the end of round `n`. */
  ghost predicate Cut(arrivals: seq<seq<ClientCmd>>, n: nat) {
    exists k | 0 <= k < n && k < |arrivals| :: AsksToClose(arrivals[k])
  }

  /** None has arrived before the last of the first `n` rounds. */
  ghost predicate CutLast(arrivals: seq<seq<ClientCmd>>, n: nat) {
    forall k | 0 <= k < n - 1 && k < |arrivals| :: !AsksToClose(arrivals[k])
  }

  predicate AsksToClose(cmds: seq<ClientCmd>) {
    EndpointChanged in cmds || Reconnect in cmds
  }

  lemma ClosesIs(cmds: seq<ClientCmd>)
    ensures AnyCloses(cmds) <==> AsksToClose(cmds)
  {
    if EndpointChanged in cmds {
      var k :| 0 <= k < |cmds| && cmds[k] == EndpointChanged;
      assert Closes(cmds[k]);
    }
    if Reconnect in cmds {
      var k :| 0 <= k < |cmds| && cmds[k] == Reconnect;
      assert Closes(cmds[k]);
    }
  }

  lemma CutCons(arrivals: seq<seq<ClientCmd>>, n: nat)
    requires |arrivals| > 0 && !AsksToClose(arrivals[0]) && CutLast(arrivals[1..], n)
    ensures Cut(arrivals, n + 1) <==> Cut(arrivals[1..], n)
    ensures CutLast(arrivals, n + 1)
  {
    if Cut(arrivals[1..], n) {
      var k :| 0 <= k < n && k < |arrivals| - 1 && AsksToClose(arrivals[1..][k]);
      assert AsksToClose(arrivals[k + 1]);
    }
    if Cut(arrivals, n + 1) {
      var k :| 0 <= k < n + 1 && k < |arrivals| && AsksToClose(arrivals[k]);
      assert AsksToClose(arrivals[1..][k - 1]);
    }
    forall k | 0 <= k < n && k < |arrivals| ensures !AsksToClose(arrivals[k]) {
      if k > 0 {
        assert !AsksToClose(arrivals[1..][k - 1]);
      }
    }
  }

  /** A drain is cut off exactly by the first EndpointChanged or Reconnect it takes, in the round that takes it. */
  lemma {:induction false} CutOff(l: Line, s: Wfq<Frame>, arrivals: seq<seq<ClientCmd>>)
    ensures var n := Rounds(l, s, arrivals);
            && (Drain(l, s, arrivals).exit.Disconnect? <==> Cut(arrivals, n))
            && CutLast(arrivals, n)
    decreases |arrivals|, s.Len()
  {
    PopSomeIffQueued(s);
    var next := NextLine(l, s);
    if |arrivals| > 0 {
      ClosesIs(arrivals[0]);
    }
    if NextExit(l, s).Going? {
      if |arrivals| == 0 {
        CutOff(next, s.AfterPop(), arrivals);
      } else if !AnyCloses(arrivals[0]) {
        var t := QueuedAll(s.AfterPop(), arrivals[0]);
        CutOff(next, t, arrivals[1..]);
        CutCons(arrivals, Rounds(next, t, arrivals[1..]));
      }
    }
  }
}
