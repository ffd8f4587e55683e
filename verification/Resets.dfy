/**
 When a reconnect resets the failure count. The comment on `reconnect` (src/ws/client/mod.rs:121)
 promises that it always does.
 */
module Resets {
  import opened Basics
  import opened Commands
  import opened Lifecycle
  import opened LifecycleTraces
  import opened Scenarios
  import Panics
  import Stranding

  /** A history continued. */
  ghost function More(cfg: Config, h: History, acts: seq<Act>): History {
    if |acts| == 0 then h
    else Then(More(cfg, h, acts[..|acts| - 1]), Next(cfg, More(cfg, h, acts[..|acts| - 1]).now, acts[|acts| - 1]))
  }

  /** The loop comes to the head of its loop with the last of these actions, and not before. */
  ghost predicate NextTop(cfg: Config, h: History, acts: seq<Act>) {
    && More(cfg, h, acts).now.pc.Top?
    && forall k | 0 <= k < |acts| :: !More(cfg, h, acts[..k]).now.pc.Top?
  }

  ghost predicate EndsInLost(log: seq<Entry>) {
    |log| > 0 && log[|log| - 1] == Failed(Lost)
  }

  /** Between a reconnect taken at `place`, with `n` failures, and the next head of the loop. */
  ghost predicate Course(place: Pc, n: nat, h: History) {
    var pc, attempt := h.now.pc, h.now.attempt;
    match place
    case ParkVersion =>
      if pc.Top? then attempt == OneMore(n)
      else (pc == VersionReturned(None) || pc == Failing(VersionReleased)) && attempt == n
    case ParkNoUrl => pc.Returned? || ((pc.Top? || pc.ParkNoUrl?) && attempt == n)
    case InMessages(_) =>
      || pc.Returned?
      || ((pc.InMessages? || pc.AfterMessages? || pc.ParkNoAuto?) && attempt == 0)
      || (pc.Top? && attempt == if EndsInLost(h.log) then 1 else 0)
    case _ => pc.Top? && attempt == 0
  }

  lemma VersionCourse(cfg: Config, n: nat, h: History, act: Act)
    requires Course(ParkVersion, n, h) && !h.now.pc.Top?
    ensures Course(ParkVersion, n, Then(h, Next(cfg, h.now, act)))
  {
  }

  lemma ParkedCourse(cfg: Config, n: nat, h: History, act: Act)
    requires Course(ParkNoUrl, n, h) && !h.now.pc.Top?
    ensures Course(ParkNoUrl, n, Then(h, Next(cfg, h.now, act)))
  {
  }

  lemma MessagesCourse(cfg: Config, draining: bool, n: nat, h: History, act: Act)
    requires Course(InMessages(draining), n, h) && !h.now.pc.Top?
    ensures Course(InMessages(draining), n, Then(h, Next(cfg, h.now, act)))
  {
  }

  lemma {:induction false} CourseKept(cfg: Config, place: Pc, n: nat, h: History, acts: seq<Act>)
    requires Course(place, n, h)
    requires forall k | 0 <= k < |acts| :: !More(cfg, h, acts[..k]).now.pc.Top?
    ensures Course(place, n, More(cfg, h, acts))
  {
    if |acts| > 0 {
      var init, act := acts[..|acts| - 1], acts[|acts| - 1];
      forall k | 0 <= k < |init| ensures !More(cfg, h, init[..k]).now.pc.Top? {
        assert acts[..k] == init[..k];
      }
      CourseKept(cfg, place, n, h, init);
      var before := More(cfg, h, init);
      match place
      case ParkVersion => VersionCourse(cfg, n, before, act);
      case ParkNoUrl => ParkedCourse(cfg, n, before, act);
      case InMessages(draining) => MessagesCourse(cfg, draining, n, before, act);
      case _ =>
    }
  }

  /** The auto-reconnect flag as the loop reads it, if these actions let it leave a connection. */
  ghost function AutoRead(cfg: Config, h: History, acts: seq<Act>): Option<bool> {
    if |acts| == 0 then None
    else
      var init := acts[..|acts| - 1];
      FlagAfter(AutoRead(cfg, h, init), More(cfg, h, init).now, acts[|acts| - 1])
  }

  ghost function FlagAfter(flag: Option<bool>, s: State, act: Act): Option<bool> {
    if flag.None? && s.pc.AfterMessages? && act.Advance? then Some(s.shared.auto) else flag
  }

  /** A connection on its way out: once the flag has been read it says whether the loss is counted. */
  ghost predicate OnTheWayOut(flag: Option<bool>, h: History) {
    var pc := h.now.pc;
    || pc.Returned?
    || ((pc.InMessages? || pc.AfterMessages?) && flag.None?)
    || (pc.ParkNoAuto? && flag == Some(false))
    || (pc.Top? && flag == Some(EndsInLost(h.log)))
  }

  lemma OutStep(cfg: Config, flag: Option<bool>, h: History, act: Act)
    requires OnTheWayOut(flag, h) && !h.now.pc.Top?
    ensures OnTheWayOut(FlagAfter(flag, h.now, act), Then(h, Next(cfg, h.now, act)))
  {
  }

  lemma {:induction false} OutKept(cfg: Config, h: History, acts: seq<Act>)
    requires OnTheWayOut(None, h)
    requires forall k | 0 <= k < |acts| :: !More(cfg, h, acts[..k]).now.pc.Top?
    ensures OnTheWayOut(AutoRead(cfg, h, acts), More(cfg, h, acts))
  {
    if |acts| > 0 {
      var init := acts[..|acts| - 1];
      forall k | 0 <= k < |init| ensures !More(cfg, h, init[..k]).now.pc.Top? {
        assert acts[..k] == init[..k];
      }
      OutKept(cfg, h, init);
      OutStep(cfg, AutoRead(cfg, h, init), More(cfg, h, init), acts[|acts| - 1]);
    }
  }

  /** The attempt number at the next head of the loop after a reconnect has been taken in state `s`; `auto` is the flag as read on the way. */
  function AttemptAfterReconnect(s: State, auto: Option<bool>): nat {
    match s.pc
    case ParkVersion => OneMore(s.attempt)
    case ParkNoUrl => s.attempt
    case InMessages(_) => if auto == Some(true) then 1 else 0
    case _ => 0
  }

  lemma CourseStarts(cfg: Config, s: State, log: seq<Entry>)
    requires Receives(s.pc) && !s.pc.ParkVersionCaller? && |s.shared.chan| > 0 && s.shared.chan[0] == Reconnect
    requires s.pc.InMessages? || s.pc.ParkNoAuto? ==> s.attempt == 0
    ensures Course(s.pc, s.attempt, Then(History(s, log), Next(cfg, s, TakeCmd)))
  {
  }

  /** What is left of the call `reconnect`: the state with the command taken. */
  ghost function Taken(cfg: Config, acts: seq<Act>): History {
    Then(Run(cfg, acts), Next(cfg, Run(cfg, acts).now, TakeCmd))
  }

  ghost predicate TakesReconnect(s: State) {
    Receives(s.pc) && |s.shared.chan| > 0 && s.shared.chan[0] == Reconnect
  }

  /**
   In every run, whatever happens next: the attempt number a reconnect leads to. It resets the count
   in backoff, after Unauthorized and while auto-reconnect is off; it does nothing to a loop without
   an endpoint; it adds a failure to a version mismatch; and it makes one of a connection it ends,
   unless auto-reconnect is off.
   */
  lemma ReconnectLeadsTo(cfg: Config, acts: seq<Act>, rest: seq<Act>)
    requires TakesReconnect(Run(cfg, acts).now) && NextTop(cfg, Taken(cfg, acts), rest)
    ensures More(cfg, Taken(cfg, acts), rest).now.attempt
         == AttemptAfterReconnect(Run(cfg, acts).now, AutoRead(cfg, Taken(cfg, acts), rest))
  {
    var h := Run(cfg, acts);
    RunKeeps(cfg, acts);
    CallerArmUnreachable(cfg, acts);
    CourseStarts(cfg, h.now, h.log);
    CourseKept(cfg, h.now.pc, h.now.attempt, Taken(cfg, acts), rest);
    if h.now.pc.InMessages? {
      OutKept(cfg, Taken(cfg, acts), rest);
    }
  }

  /** Where a reconnect resets the count. */
  predicate ResetsCount(s: State, auto: Option<bool>) {
    match s.pc
    case ParkVersion => s.attempt % U32 == U32 - 1
    case ParkNoUrl => s.attempt == 0
    case InMessages(_) => auto != Some(true)
    case _ => true
  }

  lemma OneMoreIsZero(n: nat)
    ensures OneMore(n) == 0 <==> n % U32 == U32 - 1
  {
  }

  lemma ZeroIff(s: State, auto: Option<bool>)
    ensures AttemptAfterReconnect(s, auto) == 0 <==> ResetsCount(s, auto)
  {
    OneMoreIsZero(s.attempt);
  }

  /** A connection on its way out while auto-reconnect stays as it is. */
  ghost predicate FlagStands(auto: bool, flag: Option<bool>, s: State) {
    s.shared.auto == auto && (flag.Some? ==> flag.value == auto)
  }

  predicate SetsAuto(act: Act) {
    act.User? && act.act.StoreAuto?
  }

  lemma CmdLeavesAuto(s: State, cmd: ClientCmd)
    ensures OnCmd(s, cmd).to.shared.auto == s.shared.auto
  {
  }

  lemma DecisionLeavesAuto(s: State, decision: Decision)
    ensures Decided(s, decision).to.shared.auto == s.shared.auto
  {
  }

  lemma AdvanceLeavesAuto(cfg: Config, s: State)
    ensures Advanced(cfg, s).to.shared.auto == s.shared.auto
  {
  }

  lemma AutoUnset(cfg: Config, s: State, act: Act)
    requires !SetsAuto(act)
    ensures Next(cfg, s, act).to.shared.auto == s.shared.auto
  {
    match act
    case TakeCmd =>
      if Receives(s.pc) && |s.shared.chan| > 0 {
        CmdLeavesAuto(Received(s), s.shared.chan[0]);
      }
    case Peer(decision) => DecisionLeavesAuto(s, decision);
    case Advance => AdvanceLeavesAuto(cfg, s);
    case _ =>
  }

  lemma FlagStep(cfg: Config, auto: bool, flag: Option<bool>, h: History, act: Act)
    requires FlagStands(auto, flag, h.now) && !SetsAuto(act)
    ensures FlagStands(auto, FlagAfter(flag, h.now, act), Then(h, Next(cfg, h.now, act)).now)
  {
    AutoUnset(cfg, h.now, act);
  }

  /** The flag read is the flag there was, if nobody sets it meanwhile. */
  lemma {:induction false} FlagKept(cfg: Config, auto: bool, h: History, acts: seq<Act>)
    requires h.now.shared.auto == auto && forall act | act in acts :: !SetsAuto(act)
    ensures FlagStands(auto, AutoRead(cfg, h, acts), More(cfg, h, acts).now)
  {
    if |acts| > 0 {
      var init := acts[..|acts| - 1];
      FlagKept(cfg, auto, h, init);
      FlagStep(cfg, auto, AutoRead(cfg, h, init), More(cfg, h, init), acts[|acts| - 1]);
    }
  }

  /** On its way from an ended connection to the head of the loop the loop reads the flag, and counts the loss if it is on. */
  lemma LossIsRead(cfg: Config, acts: seq<Act>, rest: seq<Act>)
    requires TakesReconnect(Run(cfg, acts).now) && Run(cfg, acts).now.pc.InMessages? && NextTop(cfg, Taken(cfg, acts), rest)
    ensures AutoRead(cfg, Taken(cfg, acts), rest) == Some(EndsInLost(More(cfg, Taken(cfg, acts), rest).log))
  {
    OutStep(cfg, None, Run(cfg, acts), TakeCmd);
    OutKept(cfg, Taken(cfg, acts), rest);
  }

  /** Whether an ended connection counts as lost is the auto-reconnect flag, if nobody sets it meanwhile. */
  lemma LostIffAuto(cfg: Config, acts: seq<Act>, rest: seq<Act>)
    requires TakesReconnect(Run(cfg, acts).now) && Run(cfg, acts).now.pc.InMessages? && NextTop(cfg, Taken(cfg, acts), rest)
    requires forall act | act in rest :: !SetsAuto(act)
    ensures AutoRead(cfg, Taken(cfg, acts), rest) == Some(Run(cfg, acts).now.shared.auto)
    ensures EndsInLost(More(cfg, Taken(cfg, acts), rest).log) == Run(cfg, acts).now.shared.auto
  {
    LossIsRead(cfg, acts, rest);
    AutoUnset(cfg, Run(cfg, acts).now, TakeCmd);
    FlagKept(cfg, Run(cfg, acts).now.shared.auto, Taken(cfg, acts), rest);
  }

  /**
   So a reconnect that is taken resets the count exactly in backoff, after Unauthorized and while
   auto-reconnect is off; for a loop without an endpoint whose count is zero anyway; on a connection, when
   the loop then reads that auto-reconnect is off; and when the counter wraps.
   */
  lemma ReconnectResetsIff(cfg: Config, acts: seq<Act>, rest: seq<Act>)
    requires TakesReconnect(Run(cfg, acts).now) && NextTop(cfg, Taken(cfg, acts), rest)
    ensures More(cfg, Taken(cfg, acts), rest).now.attempt == 0
       <==> ResetsCount(Run(cfg, acts).now, AutoRead(cfg, Taken(cfg, acts), rest))
    ensures (forall act | act in rest :: !SetsAuto(act)) ==>
              (More(cfg, Taken(cfg, acts), rest).now.attempt == 0
               <==> ResetsCount(Run(cfg, acts).now, Some(Run(cfg, acts).now.shared.auto)))
  {
    var s := Run(cfg, acts).now;
    ReconnectLeadsTo(cfg, acts, rest);
    ZeroIff(s, AutoRead(cfg, Taken(cfg, acts), rest));
    ZeroIff(s, Some(s.shared.auto));
    if s.pc.InMessages? && forall act | act in rest :: !SetsAuto(act) {
      LostIffAuto(cfg, acts, rest);
    }
  }

  // ------------------------------------------------------------------
  // A reconnect that is never taken
  // ------------------------------------------------------------------

  /** The call `reconnect` does something exactly when the channel has room, and then it queues the command behind those there are. */
  lemma CallQueuesIff(cfg: Config, s: State)
    ensures var t := Next(cfg, s, User(TrySend(Reconnect))).to;
            && (t != s <==> |s.shared.chan| < cfg.capacity)
            && t.shared.chan == s.shared.chan + (if |s.shared.chan| < cfg.capacity then [Reconnect] else [])
  {
    var chan := s.shared.chan;
    assert chan + [] == chan;
    assert |chan + [Reconnect]| != |chan|;
  }

  /** One failed attempt, and events that fill the channel while the loop backs off. */
  ghost function CrowdedBackoff(cfg: Config): seq<Act> {
    GETS_ENDPOINT + Panics.FailedRound(cfg, 0) + [Advance, Advance] + Copies(User(TrySend(Stranding.EVENT)), cfg.capacity)
  }

  lemma CrowdedBackoffIs(cfg: Config)
    requires cfg.capacity > 0 && cfg.backoff(0).Some? && cfg.backoff(1).Some? && cfg.backoff(1).value > 0.0
    ensures Steps(cfg, Initial(), CrowdedBackoff(cfg))
         == Stranding.WithChan(Trying(Backoff(cfg.backoff(1).value), 1), Copies(Stranding.EVENT, cfg.capacity))
  {
    var waiting, events := Trying(Backoff(cfg.backoff(1).value), 1), Copies(Stranding.EVENT, cfg.capacity);
    EndpointGiven(cfg);
    Panics.RoundFails(cfg, 0);
    Attempted(cfg, 1);
    Stranding.Fill(cfg, waiting, cfg.capacity);
    assert waiting.shared.chan + events == events;
    Chain(cfg, Initial(), GETS_ENDPOINT, Trying(Top, 0), Panics.FailedRound(cfg, 0), Trying(Top, 1));
    Chain(cfg, Initial(), GETS_ENDPOINT + Panics.FailedRound(cfg, 0), Trying(Top, 1), [Advance, Advance], waiting);
    Chain(cfg, Initial(), GETS_ENDPOINT + Panics.FailedRound(cfg, 0) + [Advance, Advance], waiting,
          Copies(User(TrySend(Stranding.EVENT)), cfg.capacity), Stranding.WithChan(waiting, events));
  }

  /** For every capacity, a reconnect called in backoff is dropped, and the loop goes on at attempt 1. */
  lemma DroppedInBackoff(cfg: Config)
    requires cfg.capacity > 0 && cfg.backoff(0).Some? && cfg.backoff(1).Some? && cfg.backoff(1).value > 0.0
    ensures var s := Run(cfg, CrowdedBackoff(cfg)).now;
            var t := Run(cfg, CrowdedBackoff(cfg) + [User(TrySend(Reconnect))] + [TakeCmd]).now;
            && s.pc.Backoff? && s.attempt == 1
            && t.pc.Top? && t.attempt == 1 && Reconnect !in t.shared.chan
  {
    var a, s := CrowdedBackoff(cfg), Stranding.WithChan(Trying(Backoff(cfg.backoff(1).value), 1), Copies(Stranding.EVENT, cfg.capacity));
    CrowdedBackoffIs(cfg);
    CallQueuesIff(cfg, s);
    OneStep(cfg, s, User(TrySend(Reconnect)));
    OneStep(cfg, s, TakeCmd);
    RunIsSteps(cfg, a);
    Reaches(cfg, a, s, [User(TrySend(Reconnect))], s, [TakeCmd], Next(cfg, s, TakeCmd).to);
  }

  // ------------------------------------------------------------------
  // Runs in which it is not kept
  // ------------------------------------------------------------------

  /** A server of another version; then a reconnect. */
  const MISMATCH: seq<Act> := [Advance, Peer(Connect(true)), Peer(Version(VersionRejected)), User(TrySend(Reconnect))]
  const RELEASED: seq<Act> := [TakeCmd, Advance, Advance]

  lemma MismatchPath(cfg: Config, d: State, queued: State)
    requires cfg.capacity > 0 && d == Trying(Dial, 0)
    requires queued == d.(pc := ParkVersion, shared := d.shared.(chan := [Reconnect]))
    ensures Steps(cfg, d, MISMATCH) == queued && Steps(cfg, queued, RELEASED) == d.(pc := Top, attempt := 1)
  {
    Path(cfg, MISMATCH, [d, d.(pc := InConnect), d.(pc := InVersion), d.(pc := ParkVersion), queued]);
    Path(cfg, RELEASED,
         [queued, d.(pc := VersionReturned(None)), d.(pc := Failing(VersionReleased)), d.(pc := Top, attempt := 1)]);
  }

  lemma MismatchCounted(cfg: Config)
    requires cfg.capacity > 0 && cfg.backoff(0).Some?
    ensures var s, t := Run(cfg, FirstDial(cfg) + MISMATCH).now, Run(cfg, FirstDial(cfg) + MISMATCH + RELEASED).now;
            && s.pc.ParkVersion? && s.attempt == 0 && s.shared.chan == [Reconnect]
            && t.pc.Top? && t.attempt == 1
  {
    var d := Trying(Dial, 0);
    var queued := d.(pc := ParkVersion, shared := d.shared.(chan := [Reconnect]));
    FirstDialled(cfg);
    MismatchPath(cfg, d, queued);
    Reaches(cfg, FirstDial(cfg), d, MISMATCH, queued, RELEASED, d.(pc := Top, attempt := 1));
  }

  /** A connection that is online, with auto-reconnect on; then a reconnect. */
  const ONLINE: seq<Act> :=
    [Advance, Peer(Connect(true)), Peer(Version(Accepted)), Peer(Noise(true)), Peer(Payload(false)), Advance, User(TrySend(Reconnect))]
  const RECONNECTED: seq<Act> := [TakeCmd, Advance]

  lemma OnlinePath(cfg: Config, on: State)
    requires on == State(InMessages(false), 0, true, Trying(Dial, 0).shared) && cfg.capacity > 0
    ensures Steps(cfg, Trying(Dial, 0), ONLINE) == on.(shared := on.shared.(chan := [Reconnect]))
  {
    var d := Trying(Dial, 0);
    Path(cfg, ONLINE,
         [d, d.(pc := InConnect), d.(pc := InVersion), d.(pc := InNoise), d.(pc := InPayload), d.(pc := Authed), on,
          on.(shared := on.shared.(chan := [Reconnect]))]);
  }

  lemma ReconnectedPath(cfg: Config, on: State)
    requires on == State(InMessages(false), 0, true, Trying(Dial, 0).shared)
    ensures Steps(cfg, on.(shared := on.shared.(chan := [Reconnect])), RECONNECTED) == on.(pc := Top, attempt := 1)
  {
    Path(cfg, RECONNECTED, [on.(shared := on.shared.(chan := [Reconnect])), on.(pc := AfterMessages), on.(pc := Top, attempt := 1)]);
  }

  lemma OnlineCounted(cfg: Config)
    requires cfg.capacity > 0 && cfg.backoff(0).Some?
    ensures var s, t := Run(cfg, FirstDial(cfg) + ONLINE).now, Run(cfg, FirstDial(cfg) + ONLINE + RECONNECTED).now;
            && s.pc == InMessages(false) && s.attempt == 0 && s.shared.chan == [Reconnect]
            && t.pc.Top? && t.attempt == 1
  {
    var on := State(InMessages(false), 0, true, Trying(Dial, 0).shared);
    var queued := on.(shared := on.shared.(chan := [Reconnect]));
    FirstDialled(cfg);
    OnlinePath(cfg, on);
    ReconnectedPath(cfg, on);
    Reaches(cfg, FirstDial(cfg), Trying(Dial, 0), ONLINE, queued, RECONNECTED, on.(pc := Top, attempt := 1));
  }

  /** Two runs, the second going on from the first. */
  lemma Reaches(cfg: Config, a: seq<Act>, s: State, b: seq<Act>, t: State, c: seq<Act>, u: State)
    requires Steps(cfg, Initial(), a) == s && Steps(cfg, s, b) == t && Steps(cfg, t, c) == u
    ensures Run(cfg, a + b).now == t && Run(cfg, a + b + c).now == u
  {
    RunIsSteps(cfg, a + b);
    RunIsSteps(cfg, a + b + c);
    StepsAppend(cfg, Initial(), a, b);
    StepsAppend(cfg, Initial(), a + b, c);
  }

  /** A failed attempt, the endpoint cleared, then a reconnect: the count and the wait are untouched. */
  const CLEARED: seq<Act> :=
    [Advance, Peer(Connect(false)), User(WriteUrl(false)), Advance, Advance, Advance, Advance, User(TrySend(Reconnect)), TakeCmd]

  lemma IgnoredWithoutEndpoint(cfg: Config)
    requires cfg.capacity > 0 && cfg.backoff(0).Some?
    ensures var t := Run(cfg, FirstDial(cfg) + CLEARED).now; t.pc.ParkNoUrl? && t.attempt == 1 && t.shared.chan == []
  {
    var d := Trying(Dial, 0);
    var e := d.(pc := Erroring(NoConnection), shared := d.shared.(url := false, urlSetters := 1));
    var parked := e.(pc := ParkNoUrl, attempt := 1);
    FirstDialled(cfg);
    Path(cfg, CLEARED,
         [d, d.(pc := InConnect), d.(pc := Erroring(NoConnection)), e, e.(pc := Failing(NoConnection)), e.(pc := Top, attempt := 1),
          e.(pc := ReadUrl, attempt := 1), parked, parked.(shared := e.shared.(chan := [Reconnect])), parked]);
    RunIsSteps(cfg, FirstDial(cfg) + CLEARED);
    Chain(cfg, Initial(), FirstDial(cfg), d, CLEARED, parked);
  }
}
