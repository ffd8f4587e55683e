/** What every run of the connection loop publishes: properties of whole logs, and what they say of the loop. */
module LifecycleTraces {
  import opened Basics
  import opened Commands
  import opened Lifecycle

  // ------------------------------------------------------------------
  // What the watcher's memory means
  // ------------------------------------------------------------------

  predicate EndsIn(log: seq<Entry>, e: Entry) {
    |log| > 0 && log[|log| - 1] == e
  }

  function Before(log: seq<Entry>): seq<Entry> {
    if |log| == 0 then [] else log[..|log| - 1]
  }

  /** The log ends with the entries that lead to each stage, one directly after the other. */
  predicate Connected(log: seq<Entry>) {
    EndsIn(log, Pub(Connecting))
  }

  predicate Greeted(log: seq<Entry>) {
    EndsIn(log, Pub(Handshaking)) && Connected(Before(log))
  }

  predicate Secured(log: seq<Entry>) {
    EndsIn(log, Pub(Authenticating)) && Greeted(Before(log))
  }

  predicate Asked(log: seq<Entry>) {
    EndsIn(log, Pub(WaitingForAuth)) && Secured(Before(log))
  }

  predicate Passed(log: seq<Entry>) {
    (EndsIn(log, NoPayload) && Secured(Before(log))) || (EndsIn(log, Outcome(Success)) && Asked(Before(log)))
  }

  /** How many attempts have failed since the last reset. */
  function Failures(log: seq<Entry>): nat {
    if |log| == 0 || Resets(log[|log| - 1]) then 0
    else Failures(log[..|log| - 1]) + (if log[|log| - 1].Failed? then 1 else 0)
  }

  predicate Reaches(log: seq<Entry>, stage: Stage) {
    match stage
    case SConnecting => Connected(log)
    case SHandshaking => Greeted(log)
    case SAuthenticating => Secured(log)
    case SWaiting => Asked(log)
    case SPassed => Passed(log)
    case SSlept(attempt, delay) => EndsIn(log, Slept(attempt, delay))
    case _ => true
  }

  lemma {:induction false} StageMeans(backoff: Delays, log: seq<Entry>)
    ensures Reaches(log, Watch(backoff, log).stage)
  {
    if |log| > 0 {
      var before, e := log[..|log| - 1], log[|log| - 1];
      StageMeans(backoff, before);
      assert Before(log) == before && EndsIn(log, e);
    }
  }

  lemma {:induction false} FailuresMeans(backoff: Delays, log: seq<Entry>)
    ensures Watch(backoff, log).failures == Failures(log) % U32
  {
    if |log| > 0 {
      FailuresMeans(backoff, log[..|log| - 1]);
    }
  }

  lemma {:induction false} OnlineMeans(backoff: Delays, log: seq<Entry>)
    ensures Watch(backoff, log).online <==> Pub(Online) in log
  {
    if |log| > 0 {
      OnlineMeans(backoff, log[..|log| - 1]);
      assert log == log[..|log| - 1] + [log[|log| - 1]];
    }
  }

  lemma {:induction false} WatchOk(backoff: Delays, log: seq<Entry>, i: nat)
    requires Watch(backoff, log).ok && i < |log|
    ensures Allowed(backoff, Watch(backoff, log[..i]), log[i])
  {
    var before := log[..|log| - 1];
    if i < |log| - 1 {
      assert before[..i] == log[..i];
      WatchOk(backoff, before, i);
    }
  }

  /** Every entry of a run's log was allowed where it stands. */
  lemma EntryAllowed(cfg: Config, acts: seq<Act>, i: nat)
    requires i < |Run(cfg, acts).log|
    ensures var log := Run(cfg, acts).log; Allowed(cfg.backoff, Watch(cfg.backoff, log[..i]), log[i])
  {
    RunKeeps(cfg, acts);
    WatchOk(cfg.backoff, Run(cfg, acts).log, i);
  }

  lemma StageAfter(backoff: Delays, log: seq<Entry>, i: nat)
    requires i < |log|
    ensures Watch(backoff, log[..i + 1]).stage == NextStage(Watch(backoff, log[..i]).stage, log[i])
  {
    assert log[..i + 1][..i] == log[..i];
  }

  // ------------------------------------------------------------------
  // Published-state properties
  // ------------------------------------------------------------------

  lemma SecuredMeans(log: seq<Entry>)
    requires Secured(log)
    ensures var n := |log|;
            n >= 3 && log[n - 1] == Pub(Authenticating) && log[n - 2] == Pub(Handshaking) && log[n - 3] == Pub(Connecting)
  {
  }

  lemma PassedMeans(log: seq<Entry>)
    requires Passed(log)
    ensures Earned(log)
  {
    if log[|log| - 1] == NoPayload {
      SecuredMeans(Before(log));
    } else {
      SecuredMeans(Before(Before(log)));
    }
  }

  /** Connecting, Handshaking and Authenticating, then either no payload, or WaitingForAuth and outcome Success. */
  predicate Earned(log: seq<Entry>) {
    var n := |log|;
    || (n >= 4 && log[n - 1] == NoPayload
        && log[n - 2] == Pub(Authenticating) && log[n - 3] == Pub(Handshaking) && log[n - 4] == Pub(Connecting))
    || (n >= 5 && log[n - 1] == Outcome(Success) && log[n - 2] == Pub(WaitingForAuth)
        && log[n - 3] == Pub(Authenticating) && log[n - 4] == Pub(Handshaking) && log[n - 5] == Pub(Connecting))
  }

  /** Every Online comes straight after the entries that earn it, in their order and with nothing between. */
  lemma OnlineIsEarned(cfg: Config, acts: seq<Act>, i: nat)
    requires i < |Run(cfg, acts).log| && Run(cfg, acts).log[i] == Pub(Online)
    ensures Earned(Run(cfg, acts).log[..i])
  {
    var before := Run(cfg, acts).log[..i];
    EntryAllowed(cfg, acts, i);
    StageMeans(cfg.backoff, before);
    PassedMeans(before);
  }

  /** Unauthorized is left only by WakeUp, Reconnect, EndpointChanged or the cancel. */
  lemma UnauthorizedHolds(cfg: Config, acts: seq<Act>, i: nat)
    requires i + 1 < |Run(cfg, acts).log| && Run(cfg, acts).log[i] == Pub(Unauthorized)
    ensures var next := Run(cfg, acts).log[i + 1];
            || next == Pub(Unauthorized) || next == SawCancel
            || (next.Woken? && next.place == AtUnauthorized && next.cmd in {WakeUp, Reconnect, EndpointChanged})
  {
    EntryAllowed(cfg, acts, i + 1);
    StageAfter(cfg.backoff, Run(cfg, acts).log, i);
  }

  /** VersionMismatch is left only by Reconnect, EndpointChanged or the cancel. */
  lemma VersionMismatchHolds(cfg: Config, acts: seq<Act>, i: nat)
    requires i + 1 < |Run(cfg, acts).log| && Run(cfg, acts).log[i] == Pub(VersionMismatch)
    ensures var next := Run(cfg, acts).log[i + 1];
            next == SawCancel || (next.Woken? && next.place == AtVersion && next.cmd in {Reconnect, EndpointChanged})
  {
    EntryAllowed(cfg, acts, i + 1);
    StageAfter(cfg.backoff, Run(cfg, acts).log, i);
  }

  /** Whatever ends a VersionMismatch, the attempt then counts as failed. */
  lemma ReleaseFails(cfg: Config, acts: seq<Act>, i: nat)
    requires i + 2 < |Run(cfg, acts).log| && Run(cfg, acts).log[i] == Pub(VersionMismatch)
    ensures Run(cfg, acts).log[i + 2] == Failed(VersionReleased)
  {
    VersionMismatchHolds(cfg, acts, i);
    EntryAllowed(cfg, acts, i + 2);
    StageAfter(cfg.backoff, Run(cfg, acts).log, i);
    StageAfter(cfg.backoff, Run(cfg, acts).log, i + 1);
  }

  /** So a Reconnect that ends a VersionMismatch does not reset the failure count but adds to it. */
  lemma ReleaseAddsFailure(cfg: Config, acts: seq<Act>, i: nat)
    requires i + 2 < |Run(cfg, acts).log| && Run(cfg, acts).log[i] == Pub(VersionMismatch)
    ensures var log := Run(cfg, acts).log; Failures(log[..i + 3]) == Failures(log[..i]) + 1
  {
    var log := Run(cfg, acts).log;
    VersionMismatchHolds(cfg, acts, i);
    ReleaseFails(cfg, acts, i);
    FailuresStep(log, i);
    FailuresStep(log, i + 1);
    FailuresStep(log, i + 2);
  }

  lemma FailuresStep(log: seq<Entry>, i: nat)
    requires i < |log|
    ensures Failures(log[..i + 1]) == if Resets(log[i]) then 0 else Failures(log[..i]) + (if log[i].Failed? then 1 else 0)
  {
    assert log[..i + 1][..i] == log[..i];
  }

  /** `handle_version_handshake` hands its caller nothing or an Error, never a VersionMismatch; the caller's own arm for that is dead. */
  lemma CallerArmUnreachable(cfg: Config, acts: seq<Act>)
    ensures var s := Run(cfg, acts).now;
            && !s.pc.ParkVersionCaller?
            && (s.pc.VersionReturned? ==> s.pc.error == None || s.pc.error == Some(Error))
  {
    RunKeeps(cfg, acts);
  }

  // ------------------------------------------------------------------
  // Retry accounting
  // ------------------------------------------------------------------

  /** `reconnect_attempt` is the number of failures since the last reset, a lost connection counting as one. */
  lemma AttemptCountsFailures(cfg: Config, acts: seq<Act>)
    ensures Run(cfg, acts).now.attempt == Failures(Run(cfg, acts).log) % U32
  {
    RunKeeps(cfg, acts);
    FailuresMeans(cfg.backoff, Run(cfg, acts).log);
  }

  /** Reconnecting is published only after some Online, with the failures so far and the delay they call for. */
  lemma ReconnectingMeans(cfg: Config, acts: seq<Act>, i: nat)
    requires i < |Run(cfg, acts).log|
    requires Run(cfg, acts).log[i].Pub? && Run(cfg, acts).log[i].state.Reconnecting?
    ensures var before := Run(cfg, acts).log[..i]; var state := Run(cfg, acts).log[i].state;
            && Pub(Online) in before
            && state.attempt == Failures(before) % U32
            && cfg.backoff(state.attempt) == Some(state.delay) && state.delay > 0.0
  {
    EntryAllowed(cfg, acts, i);
    FailuresMeans(cfg.backoff, Run(cfg, acts).log[..i]);
    OnlineMeans(cfg.backoff, Run(cfg, acts).log[..i]);
  }

  /** Every Connecting whose attempt number has a positive delay comes straight after that delay was slept out in full. */
  lemma ConnectingWaited(cfg: Config, acts: seq<Act>, i: nat)
    requires i < |Run(cfg, acts).log| && Run(cfg, acts).log[i] == Pub(Connecting)
    ensures var log := Run(cfg, acts).log; var n := Failures(log[..i]) % U32;
            && cfg.backoff(n).Some?
            && (cfg.backoff(n).value > 0.0 ==> i > 0 && log[i - 1] == Slept(n, cfg.backoff(n).value))
  {
    var log := Run(cfg, acts).log;
    EntryAllowed(cfg, acts, i);
    FailuresMeans(cfg.backoff, log[..i]);
    StageMeans(cfg.backoff, log[..i]);
    if i > 0 {
      assert log[..i][i - 1..][0] == log[i - 1];
    }
  }
}
