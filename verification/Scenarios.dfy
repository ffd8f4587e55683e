/** Concrete runs of the connection loop, step by step. */
module Scenarios {
  import opened Basics
  import opened Commands
  import opened Lifecycle

  /** The state after more steps. */
  ghost function Steps(cfg: Config, s: State, acts: seq<Act>): State {
    if |acts| == 0 then s else Next(cfg, Steps(cfg, s, acts[..|acts| - 1]), acts[|acts| - 1]).to
  }

  lemma {:induction false} StepsAppend(cfg: Config, s: State, a: seq<Act>, b: seq<Act>)
    ensures Steps(cfg, s, a + b) == Steps(cfg, Steps(cfg, s, a), b)
  {
    if |b| == 0 {
      assert a + b == a;
    } else {
      assert (a + b)[..|a + b| - 1] == a + b[..|b| - 1];
      StepsAppend(cfg, s, a, b[..|b| - 1]);
    }
  }

  lemma Chain(cfg: Config, s: State, a: seq<Act>, t: State, b: seq<Act>, u: State)
    requires Steps(cfg, s, a) == t && Steps(cfg, t, b) == u
    ensures Steps(cfg, s, a + b) == u
  {
    StepsAppend(cfg, s, a, b);
  }

  lemma {:induction false} RunIsSteps(cfg: Config, acts: seq<Act>)
    ensures Run(cfg, acts).now == Steps(cfg, Initial(), acts)
  {
    if |acts| > 0 {
      RunIsSteps(cfg, acts[..|acts| - 1]);
    }
  }

  lemma OneStep(cfg: Config, s: State, act: Act)
    ensures Steps(cfg, s, [act]) == Next(cfg, s, act).to
  {
    assert [act][..0] == [];
    assert Steps(cfg, s, [act]) == Next(cfg, Steps(cfg, s, []), act).to;
  }

  lemma TwoSteps(cfg: Config, s: State, first: Act, second: Act)
    ensures Steps(cfg, s, [first, second]) == Next(cfg, Next(cfg, s, first).to, second).to
  {
    assert [first, second][..1] == [first];
    OneStep(cfg, s, first);
  }

  /** A run whose states are given one by one. */
  lemma {:induction false} Path(cfg: Config, acts: seq<Act>, states: seq<State>)
    requires |states| == |acts| + 1
    requires forall k | 0 <= k < |acts| :: Next(cfg, states[k], acts[k]).to == states[k + 1]
    ensures Steps(cfg, states[0], acts) == states[|acts|]
  {
    var n := |acts|;
    if n > 0 {
      forall k | 0 <= k < n - 1 ensures Next(cfg, states[..n][k], acts[..n - 1][k]).to == states[..n][k + 1] {
        assert Next(cfg, states[k], acts[k]).to == states[k + 1];
      }
      Path(cfg, acts[..n - 1], states[..n]);
    }
  }

  // ------------------------------------------------------------------
  // From the start to a dial
  // ------------------------------------------------------------------

  const PARKS: seq<Act> := [Advance, Advance]
  const SETS_ENDPOINT: seq<Act> := [User(WriteUrl(true)), User(SendEndpoint)]

  lemma Parks(cfg: Config)
    ensures Steps(cfg, Initial(), PARKS) == Initial().(pc := ParkNoUrl)
  {
    TwoSteps(cfg, Initial(), Advance, Advance);
    assert Next(cfg, Initial(), Advance).to == Initial().(pc := ReadUrl);
  }

  const GETS_ENDPOINT := PARKS + SETS_ENDPOINT + [TakeCmd]

  lemma EndpointGiven(cfg: Config)
    requires cfg.capacity > 0
    ensures Steps(cfg, Initial(), GETS_ENDPOINT) == Trying(Top, 0)
  {
    var s := Initial();
    var parked := s.(pc := ParkNoUrl);
    var told := parked.(shared := parked.shared.(url := true, chan := [EndpointChanged]));
    Parks(cfg);
    TwoSteps(cfg, parked, User(WriteUrl(true)), User(SendEndpoint));
    Chain(cfg, s, PARKS, parked, SETS_ENDPOINT, told);
    OneStep(cfg, told, TakeCmd);
    Chain(cfg, s, PARKS + SETS_ENDPOINT, told, [TakeCmd], Trying(Top, 0));
  }

  /** The state of a loop that has only ever failed to connect. */
  ghost function Trying(pc: Pc, n: nat): State {
    State(pc, n, false, Initial().shared.(url := true))
  }

  ghost function Waiting(cfg: Config, n: nat): Pc {
    match cfg.backoff(n)
    case None => Panicked
    case Some(delay) => if delay == 0.0 then Dial else Backoff(delay)
  }

  lemma Attempted(cfg: Config, n: nat)
    ensures Steps(cfg, Trying(Top, n), [Advance, Advance]) == Trying(Waiting(cfg, n), n)
  {
    TwoSteps(cfg, Trying(Top, n), Advance, Advance);
    assert Next(cfg, Trying(Top, n), Advance).to == Trying(ReadUrl, n);
  }

  lemma Waited(cfg: Config, n: nat, wait: seq<Act>)
    requires cfg.backoff(n).Some? && wait == if cfg.backoff(n) == Some(0.0) then [] else [SleepDone]
    ensures Steps(cfg, Trying(Waiting(cfg, n), n), wait) == Trying(Dial, n)
  {
    if |wait| == 1 {
      OneStep(cfg, Trying(Waiting(cfg, n), n), SleepDone);
    }
  }

  /** The steps from the head of the loop to the dial at attempt `n`. */
  ghost function ToDial(cfg: Config, n: nat): seq<Act> {
    [Advance, Advance] + if cfg.backoff(n) == Some(0.0) then [] else [SleepDone]
  }

  lemma Dialled(cfg: Config, n: nat)
    requires cfg.backoff(n).Some?
    ensures Steps(cfg, Trying(Top, n), ToDial(cfg, n)) == Trying(Dial, n)
  {
    var wait: seq<Act> := if cfg.backoff(n) == Some(0.0) then [] else [SleepDone];
    Attempted(cfg, n);
    Waited(cfg, n, wait);
    Chain(cfg, Trying(Top, n), [Advance, Advance], Trying(Waiting(cfg, n), n), wait, Trying(Dial, n));
  }

  /** A first attempt that reaches the dial. */
  ghost function FirstDial(cfg: Config): seq<Act> {
    GETS_ENDPOINT + ToDial(cfg, 0)
  }

  lemma FirstDialled(cfg: Config)
    requires cfg.capacity > 0 && cfg.backoff(0).Some?
    ensures Steps(cfg, Initial(), FirstDial(cfg)) == Trying(Dial, 0)
  {
    EndpointGiven(cfg);
    Dialled(cfg, 0);
    Chain(cfg, Initial(), GETS_ENDPOINT, Trying(Top, 0), ToDial(cfg, 0), Trying(Dial, 0));
  }
}

/** A panic in the backoff arithmetic. */
module Panics {
  import opened Basics
  import opened Lifecycle
  import opened LifecycleTraces
  import opened Scenarios
  import Backoff

  /** One attempt that fails to connect. */
  ghost function FailedRound(cfg: Config, n: nat): seq<Act> {
    ToDial(cfg, n) + [Advance, Peer(Connect(false))] + [Advance, Advance]
  }

  ghost function FailedRounds(cfg: Config, n: nat): seq<Act> {
    if n == 0 then [] else FailedRounds(cfg, n - 1) + FailedRound(cfg, n - 1)
  }

  lemma Refused(cfg: Config, n: nat)
    ensures Steps(cfg, Trying(Dial, n), [Advance, Peer(Connect(false))]) == Trying(Erroring(NoConnection), n)
  {
    TwoSteps(cfg, Trying(Dial, n), Advance, Peer(Connect(false)));
    assert Next(cfg, Trying(Dial, n), Advance).to == Trying(InConnect, n);
  }

  lemma Counted(cfg: Config, n: nat)
    requires n < U32 - 1
    ensures Steps(cfg, Trying(Erroring(NoConnection), n), [Advance, Advance]) == Trying(Top, n + 1)
  {
    TwoSteps(cfg, Trying(Erroring(NoConnection), n), Advance, Advance);
    assert Next(cfg, Trying(Erroring(NoConnection), n), Advance).to == Trying(Failing(NoConnection), n);
  }

  lemma RoundFails(cfg: Config, n: nat)
    requires n < U32 - 1 && cfg.backoff(n).Some?
    ensures Steps(cfg, Trying(Top, n), FailedRound(cfg, n)) == Trying(Top, n + 1)
  {
    var b, c := [Advance, Peer(Connect(false))], [Advance, Advance];
    Dialled(cfg, n);
    Refused(cfg, n);
    Counted(cfg, n);
    Chain(cfg, Trying(Top, n), ToDial(cfg, n), Trying(Dial, n), b, Trying(Erroring(NoConnection), n));
    Chain(cfg, Trying(Top, n), ToDial(cfg, n) + b, Trying(Erroring(NoConnection), n), c, Trying(Top, n + 1));
  }

  lemma {:induction false} RoundsFail(cfg: Config, n: nat)
    requires n < U32 && forall k | 0 <= k < n :: cfg.backoff(k).Some?
    ensures Steps(cfg, Trying(Top, 0), FailedRounds(cfg, n)) == Trying(Top, n)
  {
    if n > 0 {
      RoundsFail(cfg, n - 1);
      RoundFails(cfg, n - 1);
      Chain(cfg, Trying(Top, 0), FailedRounds(cfg, n - 1), Trying(Top, n - 1), FailedRound(cfg, n - 1), Trying(Top, n));
    }
  }

  /** A server that cannot be reached: the loop parks, is given an endpoint, and fails attempt after attempt. */
  ghost function Unreachable(cfg: Config, n: nat): seq<Act> {
    GETS_ENDPOINT + FailedRounds(cfg, n) + [Advance, Advance]
  }

  /** A strategy with a first delay that panics ends the loop on a server that stays unreachable for that many attempts. */
  lemma UnreachablePanics(cfg: Config, n: nat)
    requires cfg.capacity > 0 && n < U32
    requires (forall k | 0 <= k < n :: cfg.backoff(k).Some?) && cfg.backoff(n).None?
    ensures Run(cfg, Unreachable(cfg, n)).now == Trying(Panicked, n)
  {
    RunIsSteps(cfg, Unreachable(cfg, n));
    EndpointGiven(cfg);
    RoundsFail(cfg, n);
    Attempted(cfg, n);
    Chain(cfg, Initial(), GETS_ENDPOINT, Trying(Top, 0), FailedRounds(cfg, n), Trying(Top, n));
    Chain(cfg, Initial(), GETS_ENDPOINT + FailedRounds(cfg, n), Trying(Top, n), [Advance, Advance], Trying(Panicked, n));
  }

  const DEFAULT_DELAYS: Delays := n => Backoff.DEFAULT.NextDelay(n)

  /** A loop that has panicked asked for a delay that does not exist. */
  lemma PanicMeans(cfg: Config, acts: seq<Act>)
    requires Run(cfg, acts).now.pc.Panicked?
    ensures cfg.backoff(Failures(Run(cfg, acts).log) % U32).None?
  {
    RunKeeps(cfg, acts);
    FailuresMeans(cfg.backoff, Run(cfg, acts).log);
  }

  lemma NoDelayFrom(backoff: Delays, failures: nat, n: nat)
    requires backoff(failures % U32).None? && forall k | 0 <= k < n :: backoff(k).Some?
    ensures failures >= n
  {
    assert failures % U32 <= failures;
  }

  /** If the first `n` delays exist, a panic took `n` failures without a reset. */
  lemma PanicNeeds(cfg: Config, acts: seq<Act>, n: nat)
    requires Run(cfg, acts).now.pc.Panicked?
    requires forall k | 0 <= k < n :: cfg.backoff(k).Some?
    ensures Failures(Run(cfg, acts).log) >= n
  {
    PanicMeans(cfg, acts);
    NoDelayFrom(cfg.backoff, Failures(Run(cfg, acts).log), n);
  }

  lemma DefaultDelays(cfg: Config)
    requires cfg.backoff == DEFAULT_DELAYS
    ensures forall k | 0 <= k < 64 :: cfg.backoff(k).Some?
    ensures cfg.backoff(64).None?
  {
    forall k | 0 <= k < 64 ensures cfg.backoff(k).Some? {
      Backoff.DefaultPanicsIff(k);
    }
    Backoff.DefaultPanicsIff(64);
  }

  /** With the default strategy a panic takes 64 failures without a reset. */
  lemma DefaultPanicNeeds(cfg: Config, acts: seq<Act>)
    requires cfg.backoff == DEFAULT_DELAYS && Run(cfg, acts).now.pc.Panicked?
    ensures Failures(Run(cfg, acts).log) >= 64
  {
    DefaultDelays(cfg);
    PanicNeeds(cfg, acts, 64);
  }

  /** And 64 are enough: a server that cannot be reached ends the loop for good. */
  lemma DefaultPanics(cfg: Config)
    requires cfg.backoff == DEFAULT_DELAYS && cfg.capacity > 0
    ensures Run(cfg, Unreachable(cfg, 64)).now.pc.Panicked?
  {
    DefaultDelays(cfg);
    UnreachablePanics(cfg, 64);
  }
}
