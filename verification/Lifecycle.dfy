/**
 The client's connection loop (src/ws/client/connection_loop.rs) and the user calls that reach it
 (src/ws/client/mod.rs), as atomic steps in any interleaving.
 */
module Lifecycle {
  import opened Basics
  import opened Backoff
  import opened Commands

  /** The published connection states. */
  datatype Published =
    | Disconnected | Connecting | Reconnecting(attempt: nat, delay: Duration) | Handshaking | Authenticating
    | WaitingForAuth | Online | Unauthorized | VersionMismatch | Error

  datatype AuthOutcome = Success | Rejected | OtherOutcome

  /** Why an attempt counts as failed. */
  datatype Failure = NoConnection | NoVersion | VersionReleased | NoNoise | NoAuth | Lost

  /** Where the loop takes commands while it waits. */
  datatype Place = NoEndpoint | InBackoff | AtVersion | AtUnauthorized | NoAutoReconnect

  /** What the loop does, in order: what it publishes, and what decides its course. */
  datatype Entry =
    | Pub(state: Published)
    | Failed(why: Failure)
    | Slept(attempt: nat, delay: Duration)
    | Woken(place: Place, cmd: ClientCmd)
    | NoPayload
    | Outcome(outcome: AuthOutcome)
    | SawCancel

  /** Where the loop is. */
  datatype Pc =
    | Top | ReadUrl | ParkNoUrl | Backoff(delay: Duration) | Dial | InConnect | Erroring(why: Failure) | Failing(why: Failure)
    | InVersion | ParkVersion | VersionReturned(error: Option<Published>) | ParkVersionCaller
    | InNoise | InPayload | InAuth | Authed | Rejecting | RejectedOnce | ParkUnauthorized
    | InMessages(draining: bool) | AfterMessages | ParkNoAuto | Returned | Panicked

  /** A backoff strategy: the delay before an attempt, or a panic. */
  type Delays = nat -> Option<Duration>

  datatype Config = Config(backoff: Delays, capacity: nat)

  /**
   What the loop shares with the user's threads: the endpoint, the auto-reconnect flag, the bounded
   command channel and the cancel token. `urlSetters` and `autoSetters` count the calls between their
   write and their `try_send`; `lostEndpoint` and `lostReconnect` say whether such a `try_send` found
   the channel full since the loop last read the endpoint or the flag.
   */
  datatype Shared = Shared(
    url: bool,
    auto: bool,
    chan: seq<ClientCmd>,
    urlSetters: nat,
    autoSetters: nat,
    lostEndpoint: bool,
    lostReconnect: bool,
    cancelled: bool)

  datatype State = State(pc: Pc, attempt: nat, everConnected: bool, shared: Shared)

  /** What a step does: the new state, and the entry it logs, if any. */
  datatype Move = Move(to: State, said: Option<Entry>)

  datatype Reply = Accepted | VersionRejected | BadReply

  /** What the peer and the authentication handler decide. */
  datatype Decision = Connect(ok: bool) | Version(reply: Reply) | Noise(ok: bool) | Payload(some: bool) | Auth(outcome: AuthOutcome)

  /** What the users do; `TrySend` also stands for an awaited send, which goes through once there is room. */
  datatype UserAct =
    | WriteUrl(present: bool) | SendEndpoint | StoreAuto(on: bool) | SendReconnect | TrySend(cmd: ClientCmd) | Shutdown

  datatype Act =
    | Advance | TakeCmd | SeeCancel | SleepDone | DrainEnds | LeaveMessages
    | Peer(decision: Decision)
    | User(act: UserAct)

  /** The attempt counter is a u32, and wraps. */
  function OneMore(attempt: nat): nat {
    (attempt + 1) % U32
  }

  ghost function Initial(): State {
    State(Top, 0, false, Shared(false, true, [], 0, 0, false, false, false))
  }

  ghost function Say(s: State, e: Entry, pc: Pc): Move {
    Move(s.(pc := pc), Some(e))
  }

  ghost function Go(s: State, pc: Pc): Move {
    Move(s.(pc := pc), None)
  }

  ghost function Stay(s: State): Move {
    Move(s, None)
  }

  /** The loop reads the endpoint, and if there is one computes the delay. */
  ghost function ReadEndpoint(cfg: Config, s: State): Move {
    if !s.shared.url then Say(s, Pub(Disconnected), ParkNoUrl)
    else match cfg.backoff(s.attempt)
      case None => Go(s, Panicked)
      case Some(delay) =>
        if delay == 0.0 then Go(s, Dial)
        else if s.everConnected then Say(s, Pub(Reconnecting(s.attempt, delay)), Backoff(delay))
        else Go(s, Backoff(delay))
  }

  /** The steps with nothing to decide. */
  ghost function Advanced(cfg: Config, s: State): Move {
    match s.pc
    case Top => Go(s, if s.shared.cancelled then Returned else ReadUrl)
    case ReadUrl => ReadEndpoint(cfg, s.(shared := s.shared.(lostEndpoint := false)))
    case Dial => Say(s, Pub(Connecting), InConnect)
    case Erroring(why) => Say(s, Pub(Error), Failing(why))
    case Failing(why) => Say(s.(attempt := OneMore(s.attempt)), Failed(why), Top)
    case VersionReturned(error) =>
      (match error
       case None => Go(s, Failing(VersionReleased))
       case Some(state) => Say(s, Pub(state), if state.VersionMismatch? then ParkVersionCaller else Failing(NoVersion)))
    case Authed => Say(s.(attempt := 0, everConnected := true), Pub(Online), InMessages(false))
    case Rejecting => Say(s, Pub(Unauthorized), RejectedOnce)
    case RejectedOnce => Say(s, Pub(Unauthorized), ParkUnauthorized)
    case AfterMessages =>
      if s.shared.auto then Say(s.(attempt := 1), Failed(Lost), Top)
      else Go(s.(shared := s.shared.(lostReconnect := false)), ParkNoAuto)
    case _ => Stay(s)
  }

  /** Where the loop can receive a command. */
  predicate Receives(pc: Pc) {
    pc.ParkNoUrl? || pc.Backoff? || pc.ParkVersion? || pc.ParkVersionCaller? || pc.ParkUnauthorized? || pc.InMessages? || pc.ParkNoAuto?
  }

  /** The loop has received `cmd` at a place where it waits. */
  ghost function OnCmd(s: State, cmd: ClientCmd): Move {
    var endpointOrReconnect := cmd.EndpointChanged? || cmd.Reconnect?;
    match s.pc
    case ParkNoUrl => if cmd.EndpointChanged? then Say(s, Woken(NoEndpoint, cmd), Top) else Stay(s)
    case Backoff(_) => Say(if endpointOrReconnect then s.(attempt := 0) else s, Woken(InBackoff, cmd), Top)
    case ParkVersion => if endpointOrReconnect then Say(s, Woken(AtVersion, cmd), VersionReturned(None)) else Stay(s)
    case ParkVersionCaller => if cmd.Send? then Stay(s) else Say(s.(attempt := 0), Woken(AtVersion, cmd), Top)
    case ParkUnauthorized => if cmd.Send? then Stay(s) else Say(s.(attempt := 0), Woken(AtUnauthorized, cmd), Top)
    case InMessages(draining) =>
      if draining || cmd.WakeUp? then Stay(s)
      else if cmd.Send? then Go(s, InMessages(true))
      else Say(s, Pub(Disconnected), AfterMessages)
    case ParkNoAuto => if endpointOrReconnect then Say(s, Woken(NoAutoReconnect, cmd), Top) else Stay(s)
    case _ => Stay(s)
  }

  /** The loop has seen the cancel at a place where it waits. */
  ghost function OnCancel(s: State): Move {
    if s.pc.ParkVersion? then Say(s, SawCancel, VersionReturned(None))
    else if s.pc.InMessages? then if s.pc.draining then Stay(s) else Say(s, Pub(Disconnected), AfterMessages)
    else if Receives(s.pc) then Say(s, SawCancel, Returned)
    else Stay(s)
  }

  ghost function Decided(s: State, decision: Decision): Move {
    match decision
    case Connect(ok) =>
      if !s.pc.InConnect? then Stay(s) else if ok then Say(s, Pub(Handshaking), InVersion) else Go(s, Erroring(NoConnection))
    case Version(reply) =>
      if !s.pc.InVersion? then Stay(s)
      else (match reply
            case Accepted => Say(s, Pub(Authenticating), InNoise)
            case VersionRejected => Say(s, Pub(VersionMismatch), ParkVersion)
            case BadReply => Go(s, VersionReturned(Some(Error))))
    case Noise(ok) => if !s.pc.InNoise? then Stay(s) else Go(s, if ok then InPayload else Failing(NoNoise))
    case Payload(some) =>
      if !s.pc.InPayload? then Stay(s) else if some then Say(s, Pub(WaitingForAuth), InAuth) else Say(s, NoPayload, Authed)
    case Auth(outcome) =>
      if !s.pc.InAuth? then Stay(s)
      else Say(s, Outcome(outcome), match outcome
                                    case Success => Authed
                                    case Rejected => Rejecting
                                    case OtherOutcome => Erroring(NoAuth))
  }

  /** The decision each place waits for. */
  predicate Fits(pc: Pc, decision: Decision) {
    match decision
    case Connect(_) => pc.InConnect?
    case Version(_) => pc.InVersion?
    case Noise(_) => pc.InNoise?
    case Payload(_) => pc.InPayload?
    case Auth(_) => pc.InAuth?
  }

  /** A `try_send`; `lost` is what remains if the channel is full. */
  function Pushed(cfg: Config, s: Shared, cmd: ClientCmd, lost: Shared): Shared {
    if |s.chan| < cfg.capacity then s.(chan := s.chan + [cmd]) else lost
  }

  function UserStep(cfg: Config, s: Shared, act: UserAct): Shared {
    match act
    case WriteUrl(present) => s.(url := present, urlSetters := s.urlSetters + 1)
    case SendEndpoint =>
      if s.urlSetters == 0 then s
      else var t := s.(urlSetters := s.urlSetters - 1); Pushed(cfg, t, EndpointChanged, t.(lostEndpoint := true))
    case StoreAuto(on) => s.(auto := on, autoSetters := if on then s.autoSetters + 1 else s.autoSetters)
    case SendReconnect =>
      if s.autoSetters == 0 then s
      else var t := s.(autoSetters := s.autoSetters - 1); Pushed(cfg, t, Reconnect, t.(lostReconnect := true))
    case TrySend(cmd) => Pushed(cfg, s, cmd, s)
    case Shutdown => s.(cancelled := true)
  }

  /** The state once the first command has been received. */
  ghost function Received(s: State): State
    requires |s.shared.chan| > 0
  {
    s.(shared := s.shared.(chan := s.shared.chan[1..]))
  }

  /** One atomic step; a step that is not enabled changes nothing. */
  ghost function Next(cfg: Config, s: State, act: Act): Move {
    match act
    case Advance => Advanced(cfg, s)
    case TakeCmd => if Receives(s.pc) && |s.shared.chan| > 0 then OnCmd(Received(s), s.shared.chan[0]) else Stay(s)
    case SeeCancel => if s.shared.cancelled then OnCancel(s) else Stay(s)
    case SleepDone => if s.pc.Backoff? then Say(s, Slept(s.attempt, s.pc.delay), Dial) else Stay(s)
    case DrainEnds => if s.pc.InMessages? then Go(s, InMessages(false)) else Stay(s)
    case LeaveMessages => if s.pc.InMessages? then Say(s, Pub(Disconnected), AfterMessages) else Stay(s)
    case Peer(decision) => Decided(s, decision)
    case User(userAct) => Stay(s.(shared := UserStep(cfg, s.shared, userAct)))
  }

  /** A run: the state it ends in, and its log. */
  datatype History = History(now: State, log: seq<Entry>)

  ghost function Then(h: History, move: Move): History {
    History(move.to, if move.said.Some? then h.log + [move.said.value] else h.log)
  }

  ghost function Run(cfg: Config, acts: seq<Act>): History {
    if |acts| == 0 then History(Initial(), [])
    else Then(Run(cfg, acts[..|acts| - 1]), Next(cfg, Run(cfg, acts[..|acts| - 1]).now, acts[|acts| - 1]))
  }

  // ------------------------------------------------------------------
  // The monitor
  // ------------------------------------------------------------------

  /** How far the latest entries have come on the way to Online, or the latest entry itself where it matters. */
  datatype Stage =
    | SConnecting | SHandshaking | SAuthenticating | SWaiting | SPassed | SUnauthorized | SMismatch
    | SVersionLeft | SSlept(attempt: nat, delay: Duration) | SOther

  /** What a watcher of the log remembers: the stage, the failures since the last reset, whether Online was ever published, and whether every entry was allowed. */
  datatype Monitor = Monitor(stage: Stage, failures: nat, online: bool, ok: bool)

  function Unseen(): Monitor {
    Monitor(SOther, 0, false, true)
  }

  /** The entries that set the failure count back to zero. */
  predicate Resets(e: Entry) {
    || e == Pub(Online)
    || (e.Woken? && e.place.AtUnauthorized?)
    || (e.Woken? && e.place.InBackoff? && (e.cmd.Reconnect? || e.cmd.EndpointChanged?))
  }

  function NextStage(stage: Stage, e: Entry): Stage {
    match e
    case Pub(state) =>
      if state.Connecting? then SConnecting
      else if state.Handshaking? && stage.SConnecting? then SHandshaking
      else if state.Authenticating? && stage.SHandshaking? then SAuthenticating
      else if state.WaitingForAuth? && stage.SAuthenticating? then SWaiting
      else if state.Unauthorized? then SUnauthorized
      else if state.VersionMismatch? then SMismatch
      else SOther
    case NoPayload => if stage.SAuthenticating? then SPassed else SOther
    case Outcome(outcome) => if outcome.Success? && stage.SWaiting? then SPassed else SOther
    case Slept(attempt, delay) => SSlept(attempt, delay)
    case Woken(place, _) => if place.AtVersion? then SVersionLeft else SOther
    case SawCancel => if stage.SMismatch? then SVersionLeft else SOther
    case Failed(_) => SOther
  }

  function NextFailures(failures: nat, e: Entry): nat {
    if Resets(e) then 0 else if e.Failed? then OneMore(failures) else failures
  }

  predicate Released(e: Entry, place: Place) {
    e == SawCancel || (e.Woken? && e.place == place && (e.cmd.Reconnect? || e.cmd.EndpointChanged? || (e.cmd.WakeUp? && place == AtUnauthorized)))
  }

  /** The attempt about to be made has no delay, or its delay has just been slept out. */
  predicate MayConnect(backoff: Delays, m: Monitor) {
    match backoff(m.failures)
    case None => false
    case Some(delay) => delay == 0.0 || m.stage == SSlept(m.failures, delay)
  }

  /** What may come next. */
  predicate Allowed(backoff: Delays, m: Monitor, e: Entry) {
    if m.stage == SUnauthorized then e == Pub(Unauthorized) || Released(e, AtUnauthorized)
    else if m.stage == SMismatch then Released(e, AtVersion)
    else if m.stage == SVersionLeft then e == Failed(VersionReleased)
    else if !e.Pub? then true
    else if e.state.Online? then m.stage == SPassed
    else if e.state.Connecting? then MayConnect(backoff, m)
    else if e.state.Reconnecting? then
      m.online && e.state.attempt == m.failures && e.state.delay > 0.0 && backoff(m.failures) == Some(e.state.delay)
    else true
  }

  function Watched(backoff: Delays, m: Monitor, e: Entry): Monitor {
    Monitor(NextStage(m.stage, e), NextFailures(m.failures, e), m.online || e == Pub(Online), m.ok && Allowed(backoff, m, e))
  }

  // ------------------------------------------------------------------
  // The invariant
  // ------------------------------------------------------------------

  /** What the watcher has just seen, wherever the loop can be. */
  ghost predicate At(backoff: Delays, pc: Pc, m: Monitor) {
    match pc
    case Backoff(delay) => Free(m) && delay > 0.0 && backoff(m.failures) == Some(delay)
    case Dial => Free(m) && MayConnect(backoff, m)
    case InConnect => m.stage == SConnecting
    case InVersion => m.stage == SHandshaking
    case ParkVersion => m.stage == SMismatch
    case VersionReturned(error) => if error.None? then m.stage == SVersionLeft else Free(m) && error.value == Error
    case Failing(why) => if why == VersionReleased then m.stage == SVersionLeft else Free(m)
    case Erroring(why) => Free(m) && why != VersionReleased
    case ParkVersionCaller => false
    case InNoise => m.stage == SAuthenticating
    case InPayload => m.stage == SAuthenticating
    case InAuth => m.stage == SWaiting
    case Authed => m.stage == SPassed
    case RejectedOnce => m.stage == SUnauthorized
    case ParkUnauthorized => m.stage == SUnauthorized
    case InMessages(_) => Free(m) && m.failures == 0
    case AfterMessages => Free(m) && m.failures == 0
    case ParkNoAuto => Free(m) && m.failures == 0
    case Panicked => backoff(m.failures).None?
    case Returned => true
    case _ => Free(m)
  }

  /** The last state published is not a terminal one. */
  predicate Free(m: Monitor) {
    !m.stage.SUnauthorized? && !m.stage.SMismatch? && !m.stage.SVersionLeft?
  }

  ghost predicate Inv(backoff: Delays, s: State, m: Monitor) {
    && m.ok
    && s.attempt == m.failures
    && s.everConnected == m.online
    && At(backoff, s.pc, m)
    && (s.pc.Returned? ==> s.shared.cancelled)
  }

  /** The watcher after a move. */
  ghost function Heard(backoff: Delays, m: Monitor, move: Move): Monitor {
    if move.said.Some? then Watched(backoff, m, move.said.value) else m
  }

  /** A move keeps the invariant, as the watcher hears it. */
  ghost predicate Keeps(backoff: Delays, m: Monitor, move: Move) {
    Inv(backoff, move.to, Heard(backoff, m, move))
  }

  lemma ReconnectingKeeps(cfg: Config, s: State, m: Monitor, delay: Duration)
    requires Inv(cfg.backoff, s, m) && s.pc.ReadUrl? && s.everConnected && delay > 0.0 && cfg.backoff(s.attempt) == Some(delay)
    ensures Keeps(cfg.backoff, m, Say(s, Pub(Reconnecting(s.attempt, delay)), Backoff(delay)))
  {
  }

  lemma ReadUrlKeeps(cfg: Config, s: State, m: Monitor)
    requires Inv(cfg.backoff, s, m) && s.pc.ReadUrl?
    ensures Keeps(cfg.backoff, m, Advanced(cfg, s))
  {
    var t := s.(shared := s.shared.(lostEndpoint := false));
    if !s.shared.url {
      assert Advanced(cfg, s) == Say(t, Pub(Disconnected), ParkNoUrl);
    } else if cfg.backoff(s.attempt).Some? && cfg.backoff(s.attempt).value != 0.0 && s.everConnected {
      ReconnectingKeeps(cfg, t, m, cfg.backoff(s.attempt).value);
    }
  }

  lemma ErrorKeeps(cfg: Config, s: State, m: Monitor, why: Failure)
    requires Inv(cfg.backoff, s, m) && Free(m) && why != VersionReleased
    ensures Keeps(cfg.backoff, m, Say(s, Pub(Error), Failing(why)))
  {
  }

  lemma ErroringKeeps(cfg: Config, s: State, m: Monitor)
    requires Inv(cfg.backoff, s, m) && s.pc.Erroring?
    ensures Keeps(cfg.backoff, m, Advanced(cfg, s))
  {
    ErrorKeeps(cfg, s, m, s.pc.why);
  }

  lemma FailingKeeps(cfg: Config, s: State, m: Monitor)
    requires Inv(cfg.backoff, s, m) && s.pc.Failing?
    ensures Keeps(cfg.backoff, m, Advanced(cfg, s))
  {
  }

  lemma VersionReturnedKeeps(cfg: Config, s: State, m: Monitor)
    requires Inv(cfg.backoff, s, m) && s.pc.VersionReturned?
    ensures Keeps(cfg.backoff, m, Advanced(cfg, s))
  {
    match s.pc.error
    case None => assert Advanced(cfg, s) == Go(s, Failing(VersionReleased));
    case Some(_) =>
      ErrorKeeps(cfg, s, m, NoVersion);
      assert Advanced(cfg, s) == Say(s, Pub(Error), Failing(NoVersion));
  }

  lemma AuthedKeeps(cfg: Config, s: State, m: Monitor)
    requires Inv(cfg.backoff, s, m) && s.pc.Authed?
    ensures Keeps(cfg.backoff, m, Advanced(cfg, s))
  {
  }

  lemma RejectedKeeps(cfg: Config, s: State, m: Monitor)
    requires Inv(cfg.backoff, s, m) && (s.pc.Rejecting? || s.pc.RejectedOnce?)
    ensures Keeps(cfg.backoff, m, Advanced(cfg, s))
  {
  }

  lemma AfterMessagesKeeps(cfg: Config, s: State, m: Monitor)
    requires Inv(cfg.backoff, s, m) && s.pc.AfterMessages?
    ensures Keeps(cfg.backoff, m, Advanced(cfg, s))
  {
  }

  lemma AdvanceKeeps(cfg: Config, s: State, m: Monitor)
    requires Inv(cfg.backoff, s, m)
    ensures Keeps(cfg.backoff, m, Advanced(cfg, s))
  {
    match s.pc
    case Top =>
    case ReadUrl => ReadUrlKeeps(cfg, s, m);
    case Dial =>
    case Erroring(_) => ErroringKeeps(cfg, s, m);
    case Failing(_) => FailingKeeps(cfg, s, m);
    case VersionReturned(_) => VersionReturnedKeeps(cfg, s, m);
    case Authed => AuthedKeeps(cfg, s, m);
    case Rejecting => RejectedKeeps(cfg, s, m);
    case RejectedOnce => RejectedKeeps(cfg, s, m);
    case AfterMessages => AfterMessagesKeeps(cfg, s, m);
    case _ => assert Advanced(cfg, s) == Stay(s);
  }

  lemma TerminalCmdKeeps(cfg: Config, s: State, m: Monitor, cmd: ClientCmd)
    requires Inv(cfg.backoff, s, m) && (s.pc.ParkVersion? || s.pc.ParkUnauthorized?)
    ensures Keeps(cfg.backoff, m, OnCmd(s, cmd))
  {
  }

  lemma ParkedCmdKeeps(cfg: Config, s: State, m: Monitor, cmd: ClientCmd)
    requires Inv(cfg.backoff, s, m) && (s.pc.ParkNoUrl? || s.pc.ParkNoAuto?)
    ensures Keeps(cfg.backoff, m, OnCmd(s, cmd))
  {
  }

  lemma BackoffCmdKeeps(cfg: Config, s: State, m: Monitor, cmd: ClientCmd)
    requires Inv(cfg.backoff, s, m) && s.pc.Backoff?
    ensures Keeps(cfg.backoff, m, OnCmd(s, cmd))
  {
  }

  lemma MessagesCmdKeeps(cfg: Config, s: State, m: Monitor, cmd: ClientCmd)
    requires Inv(cfg.backoff, s, m) && s.pc.InMessages?
    ensures Keeps(cfg.backoff, m, OnCmd(s, cmd))
  {
  }

  lemma CmdKeeps(cfg: Config, s: State, m: Monitor, cmd: ClientCmd)
    requires Inv(cfg.backoff, s, m)
    ensures Keeps(cfg.backoff, m, OnCmd(s, cmd))
  {
    match s.pc
    case ParkVersion => TerminalCmdKeeps(cfg, s, m, cmd);
    case ParkUnauthorized => TerminalCmdKeeps(cfg, s, m, cmd);
    case ParkNoUrl => ParkedCmdKeeps(cfg, s, m, cmd);
    case ParkNoAuto => ParkedCmdKeeps(cfg, s, m, cmd);
    case Backoff(_) => BackoffCmdKeeps(cfg, s, m, cmd);
    case InMessages(_) => MessagesCmdKeeps(cfg, s, m, cmd);
    case ParkVersionCaller =>
    case _ => assert OnCmd(s, cmd) == Stay(s);
  }

  lemma MessagesEnd(cfg: Config, s: State, m: Monitor)
    requires Inv(cfg.backoff, s, m) && s.pc.InMessages?
    ensures Keeps(cfg.backoff, m, Say(s, Pub(Disconnected), AfterMessages))
  {
  }

  lemma ReturnKeeps(cfg: Config, s: State, m: Monitor)
    requires Inv(cfg.backoff, s, m) && s.shared.cancelled && Receives(s.pc) && !s.pc.ParkVersion? && !s.pc.InMessages?
    ensures Keeps(cfg.backoff, m, Say(s, SawCancel, Returned))
  {
  }

  lemma CancelKeeps(cfg: Config, s: State, m: Monitor)
    requires Inv(cfg.backoff, s, m) && s.shared.cancelled
    ensures Keeps(cfg.backoff, m, OnCancel(s))
  {
    if s.pc.InMessages? {
      MessagesEnd(cfg, s, m);
    } else if Receives(s.pc) && !s.pc.ParkVersion? {
      ReturnKeeps(cfg, s, m);
    }
  }

  lemma SleepKeeps(cfg: Config, s: State, m: Monitor)
    requires Inv(cfg.backoff, s, m) && s.pc.Backoff?
    ensures Keeps(cfg.backoff, m, Say(s, Slept(s.attempt, s.pc.delay), Dial))
  {
  }

  lemma ConnectKeeps(cfg: Config, s: State, m: Monitor, ok: bool)
    requires Inv(cfg.backoff, s, m) && s.pc.InConnect?
    ensures Keeps(cfg.backoff, m, Decided(s, Connect(ok)))
  {
  }

  lemma VersionKeeps(cfg: Config, s: State, m: Monitor, reply: Reply)
    requires Inv(cfg.backoff, s, m) && s.pc.InVersion?
    ensures Keeps(cfg.backoff, m, Decided(s, Version(reply)))
  {
  }

  lemma NoiseKeeps(cfg: Config, s: State, m: Monitor, ok: bool)
    requires Inv(cfg.backoff, s, m) && s.pc.InNoise?
    ensures Keeps(cfg.backoff, m, Decided(s, Noise(ok)))
  {
  }

  lemma PayloadKeeps(cfg: Config, s: State, m: Monitor, some: bool)
    requires Inv(cfg.backoff, s, m) && s.pc.InPayload?
    ensures Keeps(cfg.backoff, m, Decided(s, Payload(some)))
  {
  }

  lemma OutcomeKeeps(cfg: Config, s: State, m: Monitor, outcome: AuthOutcome)
    requires Inv(cfg.backoff, s, m) && s.pc.InAuth?
    ensures Keeps(cfg.backoff, m, Decided(s, Auth(outcome)))
  {
  }

  lemma DecidedKeeps(cfg: Config, s: State, m: Monitor, decision: Decision)
    requires Inv(cfg.backoff, s, m)
    ensures Keeps(cfg.backoff, m, Decided(s, decision))
  {
    match decision
    case Connect(ok) => if s.pc.InConnect? { ConnectKeeps(cfg, s, m, ok); }
    case Version(reply) => if s.pc.InVersion? { VersionKeeps(cfg, s, m, reply); }
    case Noise(ok) => if s.pc.InNoise? { NoiseKeeps(cfg, s, m, ok); }
    case Payload(some) => if s.pc.InPayload? { PayloadKeeps(cfg, s, m, some); }
    case Auth(outcome) => if s.pc.InAuth? { OutcomeKeeps(cfg, s, m, outcome); }
  }

  lemma UserKeeps(cfg: Config, s: State, m: Monitor, act: UserAct)
    requires Inv(cfg.backoff, s, m)
    ensures Keeps(cfg.backoff, m, Stay(s.(shared := UserStep(cfg, s.shared, act))))
  {
  }

  lemma StepKeeps(cfg: Config, s: State, m: Monitor, act: Act)
    requires Inv(cfg.backoff, s, m)
    ensures Keeps(cfg.backoff, m, Next(cfg, s, act))
  {
    match act
    case Advance => AdvanceKeeps(cfg, s, m);
    case TakeCmd => if Receives(s.pc) && |s.shared.chan| > 0 { CmdKeeps(cfg, Received(s), m, s.shared.chan[0]); }
    case SeeCancel => if s.shared.cancelled { CancelKeeps(cfg, s, m); }
    case SleepDone => if s.pc.Backoff? { SleepKeeps(cfg, s, m); }
    case DrainEnds =>
    case LeaveMessages => if s.pc.InMessages? { MessagesEnd(cfg, s, m); }
    case Peer(decision) => DecidedKeeps(cfg, s, m, decision);
    case User(userAct) => UserKeeps(cfg, s, m, userAct);
  }

  /** The watcher after a whole log. */
  function Watch(backoff: Delays, log: seq<Entry>): Monitor {
    if |log| == 0 then Unseen() else Watched(backoff, Watch(backoff, log[..|log| - 1]), log[|log| - 1])
  }

  lemma {:induction false} RunKeeps(cfg: Config, acts: seq<Act>)
    ensures Inv(cfg.backoff, Run(cfg, acts).now, Watch(cfg.backoff, Run(cfg, acts).log))
  {
    if |acts| > 0 {
      RunKeeps(cfg, acts[..|acts| - 1]);
      var before, act := Run(cfg, acts[..|acts| - 1]), acts[|acts| - 1];
      StepKeeps(cfg, before.now, Watch(cfg.backoff, before.log), act);
      var move := Next(cfg, before.now, act);
      assert Run(cfg, acts).log[..|before.log|] == before.log;
    }
  }
}
