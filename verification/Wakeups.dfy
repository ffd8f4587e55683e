/** What the users can rely on: the cancel ends the loop, and a wakeup is lost only to a full channel. */
module Wakeups {
  import opened Basics
  import opened Commands
  import opened Lifecycle
  import opened LifecycleTraces

  // ------------------------------------------------------------------
  // After the cancel
  // ------------------------------------------------------------------

  function Connects(log: seq<Entry>): nat {
    if |log| == 0 then 0 else Connects(log[..|log| - 1]) + (if log[|log| - 1] == Pub(Connecting) then 1 else 0)
  }

  /** How many times Connecting can still be published once the token is cancelled. */
  function Budget(pc: Pc): nat {
    if pc.ReadUrl? || pc.Backoff? || pc.Dial? then 1 else 0
  }

  predicate Spends(s: State, move: Move) {
    && move.to.shared.cancelled
    && (if move.said == Some(Pub(Connecting)) then 1 else 0) + Budget(move.to.pc) <= Budget(s.pc)
  }

  lemma AdvanceSpends(cfg: Config, s: State)
    requires s.shared.cancelled && (s.pc.VersionReturned? ==> s.pc.error == None || s.pc.error == Some(Error))
    ensures Spends(s, Advanced(cfg, s))
  {
  }

  lemma CmdSpends(s: State, cmd: ClientCmd)
    requires s.shared.cancelled
    ensures Spends(s, OnCmd(s, cmd))
  {
  }

  lemma DecisionSpends(s: State, decision: Decision)
    requires s.shared.cancelled
    ensures Spends(s, Decided(s, decision))
  {
  }

  lemma StepSpends(cfg: Config, s: State, act: Act)
    requires s.shared.cancelled && (s.pc.VersionReturned? ==> s.pc.error == None || s.pc.error == Some(Error))
    ensures Spends(s, Next(cfg, s, act))
  {
    match act
    case Advance => AdvanceSpends(cfg, s);
    case TakeCmd => if |s.shared.chan| > 0 { CmdSpends(Received(s), s.shared.chan[0]); }
    case Peer(decision) => DecisionSpends(s, decision);
    case _ =>
  }

  lemma MoveSpends(h: History, move: Move)
    requires Spends(h.now, move)
    ensures Connects(Then(h, move).log) + Budget(Then(h, move).now.pc) <= Connects(h.log) + Budget(h.now.pc)
  {
    if move.said.Some? {
      assert (h.log + [move.said.value])[..|h.log|] == h.log;
    }
  }

  lemma OneMoreStep(cfg: Config, acts: seq<Act>)
    requires |acts| > 0 && Run(cfg, acts[..|acts| - 1]).now.shared.cancelled
    ensures var h, h' := Run(cfg, acts[..|acts| - 1]), Run(cfg, acts);
            h'.now.shared.cancelled && Connects(h'.log) + Budget(h'.now.pc) <= Connects(h.log) + Budget(h.now.pc)
  {
    var h, act := Run(cfg, acts[..|acts| - 1]), acts[|acts| - 1];
    CallerArmUnreachable(cfg, acts[..|acts| - 1]);
    StepSpends(cfg, h.now, act);
    MoveSpends(h, Next(cfg, h.now, act));
  }

  /**
   After the cancel, whatever the users and the peer do, Connecting is published at most once more, and
   not at all unless the loop was between reading the endpoint and dialling.
   */
  lemma {:induction false} AtMostOneMoreConnect(cfg: Config, before: seq<Act>, acts: seq<Act>)
    requires before <= acts && Run(cfg, before).now.shared.cancelled
    ensures Run(cfg, acts).now.shared.cancelled
    ensures Connects(Run(cfg, acts).log) + Budget(Run(cfg, acts).now.pc)
            <= Connects(Run(cfg, before).log) + Budget(Run(cfg, before).now.pc)
    decreases |acts|
  {
    if |before| < |acts| {
      AtMostOneMoreConnect(cfg, before, acts[..|acts| - 1]);
      OneMoreStep(cfg, acts);
    } else {
      assert before == acts;
    }
  }

  lemma StepCancels(cfg: Config, s: State, act: Act)
    requires !s.shared.cancelled
    ensures Next(cfg, s, act).said != Some(SawCancel)
  {
    match act
    case Advance => assert Advanced(cfg, s).said != Some(SawCancel);
    case TakeCmd => if |s.shared.chan| > 0 { assert OnCmd(Received(s), s.shared.chan[0]).said != Some(SawCancel); }
    case Peer(decision) => assert Decided(s, decision).said != Some(SawCancel);
    case _ =>
  }

  /** The loop only ever sees a cancel that has happened. */
  lemma {:induction false} SawCancelMeans(cfg: Config, acts: seq<Act>)
    ensures SawCancel in Run(cfg, acts).log ==> Run(cfg, acts).now.shared.cancelled
  {
    if |acts| > 0 {
      var before := acts[..|acts| - 1];
      SawCancelMeans(cfg, before);
      if Run(cfg, before).now.shared.cancelled {
        OneMoreStep(cfg, acts);
      } else {
        StepCancels(cfg, Run(cfg, before).now, acts[|acts| - 1]);
      }
    }
  }

  // ------------------------------------------------------------------
  // No lost wakeup
  // ------------------------------------------------------------------

  /** A loop parked for a reason that no longer holds has a releasing command coming, unless the channel was full when it was sent. */
  ghost predicate Awaited(s: State) {
    && (s.pc.ParkNoUrl? && s.shared.url ==> EndpointChanged in s.shared.chan || s.shared.urlSetters > 0 || s.shared.lostEndpoint)
    && (s.pc.ParkNoAuto? && s.shared.auto ==> Reconnect in s.shared.chan || s.shared.autoSetters > 0 || s.shared.lostReconnect)
  }

  /** The loop parks only for a reason that holds, and otherwise keeps what it shares as it is. */
  ghost predicate LoopMove(s: State, t: State) {
    && (t.pc.ParkNoUrl? ==> (t.shared == s.shared && s.pc.ParkNoUrl?) || !t.shared.url)
    && (t.pc.ParkNoAuto? ==> (t.shared == s.shared && s.pc.ParkNoAuto?) || !t.shared.auto)
  }

  lemma AdvanceMoves(cfg: Config, s: State)
    ensures LoopMove(s, Advanced(cfg, s).to)
  {
  }

  lemma CmdMoves(s: State, cmd: ClientCmd)
    ensures LoopMove(s, OnCmd(s, cmd).to)
    ensures OnCmd(s, cmd).to.pc.ParkNoUrl? ==> !cmd.EndpointChanged?
    ensures OnCmd(s, cmd).to.pc.ParkNoAuto? ==> !cmd.Reconnect?
  {
  }

  lemma CancelMoves(s: State)
    ensures LoopMove(s, OnCancel(s).to)
  {
  }

  lemma DecisionMoves(s: State, decision: Decision)
    ensures LoopMove(s, Decided(s, decision).to)
  {
  }

  lemma UserAwaits(cfg: Config, s: State, act: UserAct)
    requires Awaited(s)
    ensures Awaited(s.(shared := UserStep(cfg, s.shared, act)))
  {
  }

  lemma InTail<T>(x: T, xs: seq<T>)
    requires x in xs && xs[0] != x
    ensures x in xs[1..]
  {
    assert xs == [xs[0]] + xs[1..];
  }

  lemma CmdAwaits(s: State)
    requires Awaited(s) && |s.shared.chan| > 0 && Receives(s.pc)
    ensures Awaited(OnCmd(Received(s), s.shared.chan[0]).to)
  {
    var chan := s.shared.chan;
    CmdMoves(Received(s), chan[0]);
    if !chan[0].EndpointChanged? && EndpointChanged in chan { InTail(EndpointChanged, chan); }
    if !chan[0].Reconnect? && Reconnect in chan { InTail(Reconnect, chan); }
  }

  lemma StepAwaits(cfg: Config, s: State, act: Act)
    requires Awaited(s)
    ensures Awaited(Next(cfg, s, act).to)
  {
    match act
    case Advance => AdvanceMoves(cfg, s);
    case TakeCmd => if |s.shared.chan| > 0 && Receives(s.pc) { CmdAwaits(s); }
    case SeeCancel => CancelMoves(s);
    case Peer(decision) => DecisionMoves(s, decision);
    case User(userAct) => UserAwaits(cfg, s, userAct);
    case _ =>
  }

  /** In every run a parked loop is awaited: losing a wakeup takes a full channel. */
  lemma {:induction false} NoLostWakeup(cfg: Config, acts: seq<Act>)
    ensures Awaited(Run(cfg, acts).now)
  {
    if |acts| > 0 {
      NoLostWakeup(cfg, acts[..|acts| - 1]);
      StepAwaits(cfg, Run(cfg, acts[..|acts| - 1]).now, acts[|acts| - 1]);
    }
  }
}
