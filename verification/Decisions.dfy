/**
 What the peer's decisions and the users' commands lead to, over every run of the connection loop
 (src/ws/client/connection_loop.rs).
 */
module Decisions {
  import opened Basics
  import opened Commands
  import opened Lifecycle
  import opened LifecycleTraces
  import opened Scenarios
  import Backoff

  // ------------------------------------------------------------------
  // What makes a client Online
  // ------------------------------------------------------------------

  /** The decisions the loop has taken since it last published Connecting, in order. */
  ghost function Decisions(cfg: Config, acts: seq<Act>): seq<Decision> {
    if |acts| == 0 then []
    else
      var init, last := acts[..|acts| - 1], acts[|acts| - 1];
      DecisionsAfter(Decisions(cfg, init), Run(cfg, init).now.pc, last, Next(cfg, Run(cfg, init).now, last).said)
  }

  ghost function DecisionsAfter(before: seq<Decision>, pc: Pc, act: Act, said: Option<Entry>): seq<Decision> {
    if said == Some(Pub(Connecting)) then []
    else if act.Peer? && Fits(pc, act.decision) then before + [act.decision]
    else before
  }

  const SECURED: seq<Decision> := [Connect(true), Version(Accepted), Noise(true)]

  /** The server accepted the version, the Noise handshake succeeded, and there was no payload to send or the outcome was Success. */
  ghost predicate Granted(ds: seq<Decision>) {
    ds == SECURED + [Payload(false)] || ds == SECURED + [Payload(true)] + [Auth(Success)]
  }

  /** The decisions behind each place on the way to Online. */
  ghost predicate LedTo(pc: Pc, ds: seq<Decision>) {
    match pc
    case InConnect => ds == []
    case InVersion => ds == [Connect(true)]
    case InNoise => ds == [Connect(true), Version(Accepted)]
    case InPayload => ds == SECURED
    case InAuth => ds == SECURED + [Payload(true)]
    case Authed => Granted(ds)
    case _ => true
  }

  lemma DecidedLed(s: State, decision: Decision, ds: seq<Decision>)
    requires LedTo(s.pc, ds)
    ensures LedTo(Decided(s, decision).to.pc, DecisionsAfter(ds, s.pc, Peer(decision), Decided(s, decision).said))
  {
    assert [Connect(true)] + [Version(Accepted)] == [Connect(true), Version(Accepted)];
    assert [Connect(true), Version(Accepted)] + [Noise(true)] == SECURED;
    assert [] + [decision] == [decision];
  }

  /** The loop's other steps come to none of these places, but for the dial. */
  lemma OthersLed(cfg: Config, s: State, act: Act, ds: seq<Decision>)
    requires LedTo(s.pc, ds) && !act.Peer?
    ensures LedTo(Next(cfg, s, act).to.pc, DecisionsAfter(ds, s.pc, act, Next(cfg, s, act).said))
  {
    match act
    case Advance => AdvancedLed(cfg, s, ds);
    case TakeCmd => if Receives(s.pc) && |s.shared.chan| > 0 { CmdLed(Received(s), s.shared.chan[0], ds); }
    case _ =>
  }

  lemma AdvancedLed(cfg: Config, s: State, ds: seq<Decision>)
    requires LedTo(s.pc, ds)
    ensures LedTo(Advanced(cfg, s).to.pc, DecisionsAfter(ds, s.pc, Advance, Advanced(cfg, s).said))
  {
  }

  lemma CmdLed(s: State, cmd: ClientCmd, ds: seq<Decision>)
    requires Receives(s.pc)
    ensures LedTo(OnCmd(s, cmd).to.pc, DecisionsAfter(ds, s.pc, TakeCmd, OnCmd(s, cmd).said))
  {
  }

  lemma {:induction false} RunLed(cfg: Config, acts: seq<Act>)
    ensures LedTo(Run(cfg, acts).now.pc, Decisions(cfg, acts))
  {
    if |acts| > 0 {
      var init, last := acts[..|acts| - 1], acts[|acts| - 1];
      RunLed(cfg, init);
      if last.Peer? {
        DecidedLed(Run(cfg, init).now, last.decision, Decisions(cfg, init));
      } else {
        OthersLed(cfg, Run(cfg, init).now, last, Decisions(cfg, init));
      }
    }
  }

  lemma CmdSilent(s: State, cmd: ClientCmd)
    ensures OnCmd(s, cmd).said != Some(Pub(Online))
  {
  }

  lemma DecidedSilent(s: State, decision: Decision)
    ensures Decided(s, decision).said != Some(Pub(Online))
  {
  }

  lemma AdvancedOnline(cfg: Config, s: State)
    ensures Advanced(cfg, s).said == Some(Pub(Online)) ==> s.pc.Authed? || (s.pc.VersionReturned? && s.pc.error == Some(Online))
  {
  }

  lemma OnlineFrom(cfg: Config, s: State, act: Act)
    requires Next(cfg, s, act).said == Some(Pub(Online)) && (s.pc.VersionReturned? ==> s.pc.error != Some(Online))
    ensures s.pc.Authed?
  {
    match act
    case Advance => AdvancedOnline(cfg, s);
    case TakeCmd => CmdSilent(Received(s), s.shared.chan[0]);
    case Peer(decision) => DecidedSilent(s, decision);
    case _ =>
  }

  /**
   Online is published only on an attempt on which the connection was opened, the server accepted the
   version, the Noise handshake succeeded, and the authentication was not needed or succeeded: these
   decisions, in this order, and no other.
   */
  lemma OnlineIsGranted(cfg: Config, acts: seq<Act>, act: Act)
    requires Next(cfg, Run(cfg, acts).now, act).said == Some(Pub(Online))
    ensures Granted(Decisions(cfg, acts))
  {
    RunLed(cfg, acts);
    CallerArmUnreachable(cfg, acts);
    OnlineFrom(cfg, Run(cfg, acts).now, act);
  }

  // ------------------------------------------------------------------
  // Where each decision leads
  // ------------------------------------------------------------------

  /** Where a run comes to with some more actions, and what it logs on the way. */
  ghost predicate GoesOn(cfg: Config, acts: seq<Act>, more: seq<Act>, pc: Pc, attempt: nat, said: seq<Entry>) {
    forall h, t | h == Run(cfg, acts) && t == Run(cfg, acts + more) :: ComesTo(h, t, pc, attempt, said)
  }

  ghost predicate ComesTo(h: History, t: History, pc: Pc, attempt: nat, said: seq<Entry>) {
    t.now.pc == pc && t.now.attempt == attempt && t.log == h.log + said
  }

  /** The run has come to this state. */
  ghost predicate RunIn(cfg: Config, acts: seq<Act>, s: State) {
    forall h | h == Run(cfg, acts) :: IsIn(h, s)
  }

  ghost predicate IsIn(h: History, s: State) {
    h.now == s
  }

  function SaidBy(move: Move): seq<Entry> {
    if move.said.Some? then [move.said.value] else []
  }

  lemma RunOne(cfg: Config, acts: seq<Act>, a: Act)
    ensures Run(cfg, acts + [a]) == Then(Run(cfg, acts), Next(cfg, Run(cfg, acts).now, a))
  {
    assert (acts + [a])[..|acts|] == acts;
  }

  lemma OneMove(cfg: Config, acts: seq<Act>, s: State, a: Act, m: Move)
    requires RunIn(cfg, acts, s) && Next(cfg, s, a) == m
    ensures RunIn(cfg, acts + [a], m.to) && Run(cfg, acts + [a]).log == Run(cfg, acts).log + SaidBy(m)
    ensures GoesOn(cfg, acts, [a], m.to.pc, m.to.attempt, SaidBy(m))
  {
    assert IsIn(Run(cfg, acts), s);
    RunOne(cfg, acts, a);
    assert Run(cfg, acts).log + [] == Run(cfg, acts).log;
  }

  lemma TwoMoves(cfg: Config, acts: seq<Act>, s: State, a: Act, m: Move, b: Act, n: Move, said: seq<Entry>)
    requires RunIn(cfg, acts, s) && Next(cfg, s, a) == m && Next(cfg, m.to, b) == n && said == SaidBy(m) + SaidBy(n)
    ensures RunIn(cfg, acts + [a, b], n.to) && Run(cfg, acts + [a, b]).log == Run(cfg, acts).log + said
    ensures GoesOn(cfg, acts, [a, b], n.to.pc, n.to.attempt, said)
  {
    assert acts + [a, b] == (acts + [a]) + [b];
    OneMove(cfg, acts, s, a, m);
    OneMove(cfg, acts + [a], m.to, b, n);
    Assoc(Run(cfg, acts).log, SaidBy(m), SaidBy(n));
    assert IsIn(Run(cfg, acts + [a, b]), n.to);
  }

  lemma ThreeMoves(cfg: Config, acts: seq<Act>, s: State, a: Act, m: Move, b: Act, n: Move, c: Act, o: Move, said: seq<Entry>)
    requires RunIn(cfg, acts, s) && Next(cfg, s, a) == m && Next(cfg, m.to, b) == n && Next(cfg, n.to, c) == o
    requires said == SaidBy(m) + SaidBy(n) + SaidBy(o)
    ensures GoesOn(cfg, acts, [a, b, c], o.to.pc, o.to.attempt, said)
  {
    var first := SaidBy(m) + SaidBy(n);
    assert acts + [a, b, c] == (acts + [a, b]) + [c];
    TwoMoves(cfg, acts, s, a, m, b, n, first);
    OneMove(cfg, acts + [a, b], n.to, c, o);
    Assoc(Run(cfg, acts).log, first, SaidBy(o));
    assert IsIn(Run(cfg, acts + [a, b, c]), o.to);
  }

  /** The attempt after one more failure. */
  function Counted(s: State): State {
    s.(attempt := (s.attempt + 1) % 0x1_0000_0000)
  }

  /** An Error and a failure. */
  lemma ErrorThenFailed(cfg: Config, s: State, why: Failure)
    requires s.pc == Erroring(why)
    ensures Next(cfg, s, Advance) == Say(s, Pub(Error), Failing(why))
    ensures Next(cfg, s.(pc := Failing(why)), Advance) == Say(Counted(s), Failed(why), Top)
  {
  }

  lemma ErrorSaid(cfg: Config, t: State, why: Failure, n: Move, o: Move)
    requires t.pc == Erroring(why) && n == Next(cfg, t, Advance) && o == Next(cfg, n.to, Advance)
    ensures SaidBy(n) + SaidBy(o) == [Pub(Error), Failed(why)] && o.to.pc == Top && o.to.attempt == Counted(t).attempt
  {
    ErrorThenFailed(cfg, t, why);
  }

  /** A connection that cannot be opened is an Error and a failure. */
  lemma ConnectFails(cfg: Config, acts: seq<Act>, s: State)
    requires RunIn(cfg, acts, s) && s.pc.InConnect?
    ensures GoesOn(cfg, acts, [Peer(Connect(false)), Advance, Advance], Top, Counted(s).attempt,
                   [Pub(Error), Failed(NoConnection)])
  {
    var m := Next(cfg, s, Peer(Connect(false)));
    var n := Next(cfg, m.to, Advance);
    var o := Next(cfg, n.to, Advance);
    ConnectSaid(cfg, s, m, n, o);
    ThreeMoves(cfg, acts, s, Peer(Connect(false)), m, Advance, n, Advance, o, [Pub(Error), Failed(NoConnection)]);
  }

  lemma ConnectSaid(cfg: Config, s: State, m: Move, n: Move, o: Move)
    requires s.pc.InConnect? && m == Next(cfg, s, Peer(Connect(false))) && n == Next(cfg, m.to, Advance) && o == Next(cfg, n.to, Advance)
    ensures SaidBy(m) + SaidBy(n) + SaidBy(o) == [Pub(Error), Failed(NoConnection)] && o.to.pc == Top && o.to.attempt == Counted(s).attempt
  {
    ConnectMoves(cfg, s);
    ErrorSaid(cfg, m.to, NoConnection, n, o);
  }

  lemma ConnectMoves(cfg: Config, s: State)
    requires s.pc.InConnect?
    ensures Next(cfg, s, Peer(Connect(false))) == Move(s.(pc := Erroring(NoConnection)), None)
  {
  }

  /** A reply that is neither word is an Error and a failure. */
  lemma ReplyFails(cfg: Config, acts: seq<Act>, s: State)
    requires RunIn(cfg, acts, s) && s.pc.InVersion?
    ensures GoesOn(cfg, acts, [Peer(Version(BadReply)), Advance, Advance], Top, Counted(s).attempt,
                   [Pub(Error), Failed(NoVersion)])
  {
    var m := Next(cfg, s, Peer(Version(BadReply)));
    var n := Next(cfg, m.to, Advance);
    var o := Next(cfg, n.to, Advance);
    BadReplySaid(cfg, s, m, n, o);
    ThreeMoves(cfg, acts, s, Peer(Version(BadReply)), m, Advance, n, Advance, o, [Pub(Error), Failed(NoVersion)]);
  }

  lemma BadReplySaid(cfg: Config, s: State, m: Move, n: Move, o: Move)
    requires s.pc.InVersion? && m == Next(cfg, s, Peer(Version(BadReply))) && n == Next(cfg, m.to, Advance) && o == Next(cfg, n.to, Advance)
    ensures SaidBy(m) + SaidBy(n) + SaidBy(o) == [Pub(Error), Failed(NoVersion)] && o.to.pc == Top && o.to.attempt == Counted(s).attempt
  {
    ReplyMoves(cfg, s);
  }

  lemma ReplyMoves(cfg: Config, s: State)
    requires s.pc.InVersion?
    ensures Next(cfg, s, Peer(Version(BadReply))) == Move(s.(pc := VersionReturned(Some(Error))), None)
    ensures Next(cfg, s, Peer(Version(VersionRejected))) == Say(s, Pub(VersionMismatch), ParkVersion)
    ensures var t := s.(pc := VersionReturned(Some(Error)));
            && Next(cfg, t, Advance) == Say(t, Pub(Error), Failing(NoVersion))
            && Next(cfg, t.(pc := Failing(NoVersion)), Advance) == Say(Counted(t), Failed(NoVersion), Top)
  {
  }

  /** A rejected version is published as a mismatch, and waited out. */
  lemma ReplyRejects(cfg: Config, acts: seq<Act>, s: State)
    requires RunIn(cfg, acts, s) && s.pc.InVersion?
    ensures GoesOn(cfg, acts, [Peer(Version(VersionRejected))], ParkVersion, s.attempt, [Pub(VersionMismatch)])
  {
    ReplyMoves(cfg, s);
    OneMove(cfg, acts, s, Peer(Version(VersionRejected)), Say(s, Pub(VersionMismatch), ParkVersion));
  }

  /** A Noise handshake that fails is a failure, and nothing is published. */
  lemma NoiseFails(cfg: Config, acts: seq<Act>, s: State)
    requires RunIn(cfg, acts, s) && s.pc.InNoise?
    ensures GoesOn(cfg, acts, [Peer(Noise(false)), Advance], Top, Counted(s).attempt, [Failed(NoNoise)])
  {
    var t := s.(pc := Failing(NoNoise));
    NoiseMoves(cfg, s);
    TwoMoves(cfg, acts, s, Peer(Noise(false)), Move(t, None), Advance, Say(Counted(t), Failed(NoNoise), Top), [Failed(NoNoise)]);
  }

  lemma NoiseMoves(cfg: Config, s: State)
    requires s.pc.InNoise?
    ensures var t := s.(pc := Failing(NoNoise));
            Next(cfg, s, Peer(Noise(false))) == Move(t, None) && Next(cfg, t, Advance) == Say(Counted(t), Failed(NoNoise), Top)
  {
  }

  /** An authentication that fails otherwise than by a rejection is an Error and a failure. */
  lemma AuthFails(cfg: Config, acts: seq<Act>, s: State)
    requires RunIn(cfg, acts, s) && s.pc.InAuth?
    ensures GoesOn(cfg, acts, [Peer(Auth(OtherOutcome)), Advance, Advance], Top, Counted(s).attempt,
                   [Outcome(OtherOutcome), Pub(Error), Failed(NoAuth)])
  {
    var m := Next(cfg, s, Peer(Auth(OtherOutcome)));
    var n := Next(cfg, m.to, Advance);
    var o := Next(cfg, n.to, Advance);
    AuthSaid(cfg, s, m, n, o);
    ThreeMoves(cfg, acts, s, Peer(Auth(OtherOutcome)), m, Advance, n, Advance, o, [Outcome(OtherOutcome), Pub(Error), Failed(NoAuth)]);
  }

  lemma AuthSaid(cfg: Config, s: State, m: Move, n: Move, o: Move)
    requires s.pc.InAuth? && m == Next(cfg, s, Peer(Auth(OtherOutcome))) && n == Next(cfg, m.to, Advance) && o == Next(cfg, n.to, Advance)
    ensures SaidBy(m) + SaidBy(n) + SaidBy(o) == [Outcome(OtherOutcome), Pub(Error), Failed(NoAuth)]
    ensures o.to.pc == Top && o.to.attempt == Counted(s).attempt
  {
    AuthMoves(cfg, s);
    ErrorSaid(cfg, m.to, NoAuth, n, o);
    Assoc(SaidBy(m), SaidBy(n), SaidBy(o));
  }

  lemma AuthMoves(cfg: Config, s: State)
    requires s.pc.InAuth?
    ensures Next(cfg, s, Peer(Auth(OtherOutcome))) == Say(s, Outcome(OtherOutcome), Erroring(NoAuth))
    ensures Next(cfg, s, Peer(Auth(Rejected))) == Say(s, Outcome(Rejected), Rejecting)
    ensures Next(cfg, s, Peer(Auth(Success))) == Say(s, Outcome(Success), Authed)
  {
  }

  /** A rejection is published twice and waited out; it is not counted. */
  lemma AuthRejects(cfg: Config, acts: seq<Act>, s: State)
    requires RunIn(cfg, acts, s) && s.pc.InAuth?
    ensures GoesOn(cfg, acts, [Peer(Auth(Rejected)), Advance, Advance], ParkUnauthorized, s.attempt,
                   [Outcome(Rejected), Pub(Unauthorized), Pub(Unauthorized)])
  {
    AuthMoves(cfg, s);
    RejectedMoves(cfg, s);
    ThreeMoves(cfg, acts, s, Peer(Auth(Rejected)), Say(s, Outcome(Rejected), Rejecting), Advance, Say(s, Pub(Unauthorized), RejectedOnce),
               Advance, Say(s, Pub(Unauthorized), ParkUnauthorized), [Outcome(Rejected), Pub(Unauthorized), Pub(Unauthorized)]);
  }

  lemma RejectedMoves(cfg: Config, s: State)
    ensures Next(cfg, s.(pc := Rejecting), Advance) == Say(s, Pub(Unauthorized), RejectedOnce)
    ensures Next(cfg, s.(pc := RejectedOnce), Advance) == Say(s, Pub(Unauthorized), ParkUnauthorized)
  {
  }

  /** The decisions that make a client Online do so, and clear the count. */
  lemma GrantedGoesOnline(cfg: Config, acts: seq<Act>, s: State)
    requires RunIn(cfg, acts, s)
    ensures s.pc.InPayload? ==>
              GoesOn(cfg, acts, [Peer(Payload(false)), Advance], InMessages(false), 0, [NoPayload, Pub(Online)])
    ensures s.pc.InAuth? ==>
              GoesOn(cfg, acts, [Peer(Auth(Success)), Advance], InMessages(false), 0, [Outcome(Success), Pub(Online)])
  {
    var on := s.(attempt := 0, everConnected := true);
    AuthedMoves(cfg, s);
    if s.pc.InPayload? {
      TwoMoves(cfg, acts, s, Peer(Payload(false)), Say(s, NoPayload, Authed), Advance, Say(on, Pub(Online), InMessages(false)),
               [NoPayload, Pub(Online)]);
    } else if s.pc.InAuth? {
      AuthMoves(cfg, s);
      TwoMoves(cfg, acts, s, Peer(Auth(Success)), Say(s, Outcome(Success), Authed), Advance, Say(on, Pub(Online), InMessages(false)),
               [Outcome(Success), Pub(Online)]);
    }
  }

  lemma AuthedMoves(cfg: Config, s: State)
    ensures s.pc.InPayload? ==> Next(cfg, s, Peer(Payload(false))) == Say(s, NoPayload, Authed)
    ensures Next(cfg, s.(pc := Authed), Advance) == Say(s.(attempt := 0, everConnected := true), Pub(Online), InMessages(false))
  {
  }

  /** Online, and while auto-reconnect is off, the count is zero. */
  lemma CountedFromZero(cfg: Config, acts: seq<Act>, s: State)
    requires RunIn(cfg, acts, s) && (s.pc.InMessages? || s.pc.ParkNoAuto?)
    ensures s.attempt == 0
  {
    assert IsIn(Run(cfg, acts), s);
    RunKeeps(cfg, acts);
  }

  /** A connection that ends is published; it counts as the first failure, or is waited out if auto-reconnect is off. */
  lemma ConnectionEnds(cfg: Config, acts: seq<Act>, s: State)
    requires RunIn(cfg, acts, s) && s.pc.InMessages?
    ensures if s.shared.auto then GoesOn(cfg, acts, [LeaveMessages, Advance], Top, 1, [Pub(Disconnected), Failed(Lost)])
            else GoesOn(cfg, acts, [LeaveMessages, Advance], ParkNoAuto, 0, [Pub(Disconnected)])
  {
    CountedFromZero(cfg, acts, s);
    LostMoves(cfg, s);
    TwoMoves(cfg, acts, s, LeaveMessages, Say(s, Pub(Disconnected), AfterMessages), Advance, Next(cfg, s.(pc := AfterMessages), Advance),
             if s.shared.auto then [Pub(Disconnected), Failed(Lost)] else [Pub(Disconnected)]);
  }

  lemma LostMoves(cfg: Config, s: State)
    requires s.pc.InMessages?
    ensures Next(cfg, s, LeaveMessages) == Say(s, Pub(Disconnected), AfterMessages)
    ensures Next(cfg, s.(pc := AfterMessages), Advance) ==
              if s.shared.auto then Say(s.(attempt := 1), Failed(Lost), Top)
              else Move(s.(pc := ParkNoAuto, shared := s.shared.(lostReconnect := false)), None)
  {
  }

  // ------------------------------------------------------------------
  // Where each command leads
  // ------------------------------------------------------------------

  const TO_RECONNECT: set<ClientCmd> := {Reconnect, EndpointChanged}

  /** `cmd` is what the loop takes next. */
  predicate TakesNext(s: State, cmd: ClientCmd) {
    |s.shared.chan| > 0 && s.shared.chan[0] == cmd
  }

  /** A command that is taken at a place and changes nothing there. */
  ghost predicate Ignored(cfg: Config, acts: seq<Act>, s: State) {
    GoesOn(cfg, acts, [TakeCmd], s.pc, s.attempt, [])
  }

  lemma Takes(cfg: Config, acts: seq<Act>, s: State, cmd: ClientCmd)
    requires RunIn(cfg, acts, s) && TakesNext(s, cmd) && Receives(s.pc)
    ensures var m := OnCmd(Received(s), cmd);
            Next(cfg, s, TakeCmd) == m && GoesOn(cfg, acts, [TakeCmd], m.to.pc, m.to.attempt, SaidBy(m))
  {
    OneMove(cfg, acts, s, TakeCmd, OnCmd(Received(s), cmd));
  }

  /** Without an endpoint the loop waits for EndpointChanged alone; the count stands. */
  lemma WithoutEndpoint(cfg: Config, acts: seq<Act>, s: State, cmd: ClientCmd)
    requires RunIn(cfg, acts, s) && s.pc.ParkNoUrl? && TakesNext(s, cmd)
    ensures if cmd == EndpointChanged then GoesOn(cfg, acts, [TakeCmd], Top, s.attempt, [Woken(NoEndpoint, cmd)])
            else Ignored(cfg, acts, s)
  {
    Takes(cfg, acts, s, cmd);
  }

  /** Every command ends a backoff; Reconnect and EndpointChanged clear the count. */
  lemma BackingOff(cfg: Config, acts: seq<Act>, s: State, cmd: ClientCmd)
    requires RunIn(cfg, acts, s) && s.pc.Backoff? && TakesNext(s, cmd)
    ensures GoesOn(cfg, acts, [TakeCmd], Top, if cmd in TO_RECONNECT then 0 else s.attempt, [Woken(InBackoff, cmd)])
  {
    Takes(cfg, acts, s, cmd);
  }

  lemma ReleaseMoves(cfg: Config, s: State, cmd: ClientCmd)
    requires s.pc.ParkVersion?
    ensures if cmd in TO_RECONNECT then OnCmd(s, cmd) == Say(s, Woken(AtVersion, cmd), VersionReturned(None)) else OnCmd(s, cmd) == Move(s, None)
    ensures Next(cfg, s.(pc := VersionReturned(None)), Advance) == Move(s.(pc := Failing(VersionReleased)), None)
    ensures Next(cfg, s.(pc := Failing(VersionReleased)), Advance) == Say(Counted(s), Failed(VersionReleased), Top)
  {
  }

  lemma MismatchTaken(cfg: Config, s: State, cmd: ClientCmd)
    requires s.pc.ParkVersion? && TakesNext(s, cmd) && cmd in TO_RECONNECT
    ensures Next(cfg, s, TakeCmd) == Say(Received(s), Woken(AtVersion, cmd), VersionReturned(None))
  {
    ReleaseMoves(cfg, Received(s), cmd);
  }

  lemma MismatchMoves(cfg: Config, s: State, cmd: ClientCmd, m: Move, n: Move, o: Move)
    requires s.pc.ParkVersion? && TakesNext(s, cmd) && cmd in TO_RECONNECT
    requires m == Next(cfg, s, TakeCmd) && n == Next(cfg, m.to, Advance) && o == Next(cfg, n.to, Advance)
    ensures o.to.pc == Top && o.to.attempt == Counted(s).attempt
    ensures SaidBy(m) + SaidBy(n) + SaidBy(o) == [Woken(AtVersion, cmd), Failed(VersionReleased)]
  {
    MismatchTaken(cfg, s, cmd);
    ReleaseMoves(cfg, Received(s), cmd);
  }

  lemma MismatchEnds(cfg: Config, acts: seq<Act>, s: State, cmd: ClientCmd)
    requires RunIn(cfg, acts, s) && s.pc.ParkVersion? && TakesNext(s, cmd) && cmd in TO_RECONNECT
    ensures GoesOn(cfg, acts, [TakeCmd, Advance, Advance], Top, Counted(s).attempt, [Woken(AtVersion, cmd), Failed(VersionReleased)])
  {
    var m := Next(cfg, s, TakeCmd);
    var n := Next(cfg, m.to, Advance);
    var o := Next(cfg, n.to, Advance);
    MismatchMoves(cfg, s, cmd, m, n, o);
    ThreeMoves(cfg, acts, s, TakeCmd, m, Advance, n, Advance, o, [Woken(AtVersion, cmd), Failed(VersionReleased)]);
  }

  /** Reconnect and EndpointChanged end a version mismatch, as one more failure. */
  lemma Mismatched(cfg: Config, acts: seq<Act>, s: State, cmd: ClientCmd)
    requires RunIn(cfg, acts, s) && s.pc.ParkVersion? && TakesNext(s, cmd)
    ensures if cmd in TO_RECONNECT
            then GoesOn(cfg, acts, [TakeCmd, Advance, Advance], Top, Counted(s).attempt,
                        [Woken(AtVersion, cmd), Failed(VersionReleased)])
            else Ignored(cfg, acts, s)
  {
    if cmd in TO_RECONNECT {
      MismatchEnds(cfg, acts, s, cmd);
    } else {
      ReleaseMoves(cfg, Received(s), cmd);
      Takes(cfg, acts, s, cmd);
    }
  }

  /** WakeUp, Reconnect and EndpointChanged end Unauthorized, and clear the count. */
  lemma NotAuthorized(cfg: Config, acts: seq<Act>, s: State, cmd: ClientCmd)
    requires RunIn(cfg, acts, s) && s.pc.ParkUnauthorized? && TakesNext(s, cmd)
    ensures if cmd in TO_RECONNECT + {WakeUp} then GoesOn(cfg, acts, [TakeCmd], Top, 0, [Woken(AtUnauthorized, cmd)])
            else Ignored(cfg, acts, s)
  {
    Takes(cfg, acts, s, cmd);
  }

  /** Without auto-reconnect the loop waits for Reconnect or EndpointChanged. */
  lemma WithoutAuto(cfg: Config, acts: seq<Act>, s: State, cmd: ClientCmd)
    requires RunIn(cfg, acts, s) && s.pc.ParkNoAuto? && TakesNext(s, cmd)
    ensures if cmd in TO_RECONNECT then GoesOn(cfg, acts, [TakeCmd], Top, 0, [Woken(NoAutoReconnect, cmd)])
            else Ignored(cfg, acts, s)
  {
    CountedFromZero(cfg, acts, s);
    Takes(cfg, acts, s, cmd);
  }

  /** Online, Reconnect and EndpointChanged end the connection, a Send begins a drain and WakeUp does nothing; inside a drain no command ends it. */
  lemma WhileOnline(cfg: Config, acts: seq<Act>, s: State, cmd: ClientCmd)
    requires RunIn(cfg, acts, s) && s.pc.InMessages? && TakesNext(s, cmd)
    ensures if s.pc.draining || cmd == WakeUp then Ignored(cfg, acts, s)
            else if cmd in TO_RECONNECT then GoesOn(cfg, acts, [TakeCmd], AfterMessages, 0, [Pub(Disconnected)])
            else GoesOn(cfg, acts, [TakeCmd], InMessages(true), 0, [])
  {
    CountedFromZero(cfg, acts, s);
    Takes(cfg, acts, s, cmd);
  }

  /** Once a drain is over commands are heard again. */
  lemma DrainIsOver(cfg: Config, acts: seq<Act>, s: State)
    requires RunIn(cfg, acts, s) && s.pc.InMessages?
    ensures GoesOn(cfg, acts, [DrainEnds], InMessages(false), 0, [])
  {
    CountedFromZero(cfg, acts, s);
    OneMove(cfg, acts, s, DrainEnds, Move(s.(pc := InMessages(false)), None));
  }

  // ------------------------------------------------------------------
  // The cancel
  // ------------------------------------------------------------------

  /** The cancel seen, and the loop's own steps after it. */
  const CANCELLED: seq<Act> := [SeeCancel, Advance, Advance, Advance, SeeCancel]

  lemma ReturnedStays(cfg: Config, s: State)
    requires s.pc.Returned?
    ensures Next(cfg, s, Advance) == Stay(s) && Next(cfg, s, SeeCancel) == Stay(s)
  {
  }

  lemma CancelAtOnce(cfg: Config, s: State)
    requires s.shared.cancelled && Receives(s.pc) && !s.pc.ParkVersion? && !s.pc.InMessages?
    ensures Steps(cfg, s, CANCELLED).pc == Returned
  {
    var t := s.(pc := Returned);
    ReturnedStays(cfg, t);
    Path(cfg, CANCELLED, [s, t, t, t, t, t]);
  }

  lemma CancelMismatch(cfg: Config, s: State)
    requires s.shared.cancelled && s.pc.ParkVersion?
    ensures Steps(cfg, s, CANCELLED).pc == Returned
  {
    var top := Counted(s).(pc := Top);
    var t := top.(pc := Returned);
    ReleaseMoves(cfg, s, WakeUp);
    ReturnedStays(cfg, t);
    Path(cfg, CANCELLED, [s, s.(pc := VersionReturned(None)), s.(pc := Failing(VersionReleased)), top, t, t]);
  }

  lemma CancelOnline(cfg: Config, s: State)
    requires s.shared.cancelled && s.pc == InMessages(false)
    ensures Steps(cfg, s, CANCELLED).pc == Returned
  {
    LostMoves(cfg, s);
    var after := s.(pc := AfterMessages);
    if s.shared.auto {
      var t := s.(attempt := 1, pc := Returned);
      ReturnedStays(cfg, t);
      Path(cfg, CANCELLED, [s, after, s.(attempt := 1, pc := Top), t, t, t]);
    } else {
      var parked := s.(pc := ParkNoAuto, shared := s.shared.(lostReconnect := false));
      Path(cfg, CANCELLED, [s, after, parked, parked, parked, parked.(pc := Returned)]);
    }
  }

  /** A `shutdown` while the loop waits for a command anywhere but in a drain makes it return, with no help from outside. */
  lemma ShutdownReturns(cfg: Config, s: State)
    requires Receives(s.pc) && s.pc != InMessages(true)
    ensures Steps(cfg, s, [User(Shutdown)] + CANCELLED).pc == Returned
  {
    var t := s.(shared := s.shared.(cancelled := true));
    OneStep(cfg, s, User(Shutdown));
    StepsAppend(cfg, s, [User(Shutdown)], CANCELLED);
    if s.pc.ParkVersion? {
      CancelMismatch(cfg, t);
    } else if s.pc.InMessages? {
      CancelOnline(cfg, t);
    } else {
      CancelAtOnce(cfg, t);
    }
  }

  // ------------------------------------------------------------------
  // How an attempt begins
  // ------------------------------------------------------------------

  lemma ToEndpoint(cfg: Config, s: State)
    requires s.pc.Top? && !s.shared.cancelled
    ensures Next(cfg, s, Advance) == Move(s.(pc := ReadUrl), None)
  {
  }

  /** The state once the endpoint has been looked at. */
  function Looked(s: State): State {
    s.(pc := ReadUrl, shared := s.shared.(lostEndpoint := false))
  }

  /** Without an endpoint the loop says that it is disconnected and waits. */
  lemma NoEndpointYet(cfg: Config, acts: seq<Act>, s: State)
    requires RunIn(cfg, acts, s) && s.pc.Top? && !s.shared.cancelled && !s.shared.url
    ensures GoesOn(cfg, acts, [Advance, Advance], ParkNoUrl, s.attempt, [Pub(Disconnected)])
  {
    ToEndpoint(cfg, s);
    TwoMoves(cfg, acts, s, Advance, Move(s.(pc := ReadUrl), None), Advance, Say(Looked(s), Pub(Disconnected), ParkNoUrl), [Pub(Disconnected)]);
  }

  /** With one, and a delay, the delay is waited out, and announced exactly if the client has been Online before. */
  lemma DelayAhead(cfg: Config, acts: seq<Act>, s: State, delay: Backoff.Duration)
    requires RunIn(cfg, acts, s) && s.pc.Top? && !s.shared.cancelled && s.shared.url
    requires cfg.backoff(s.attempt) == Some(delay) && delay > 0.0
    ensures GoesOn(cfg, acts, [Advance, Advance], Pc.Backoff(delay), s.attempt,
                   if Pub(Online) in Run(cfg, acts).log then [Pub(Reconnecting(s.attempt, delay))] else [])
  {
    EverOnline(cfg, acts, s);
    ToEndpoint(cfg, s);
    var t := Looked(s);
    var m := if s.everConnected then Say(t, Pub(Reconnecting(s.attempt, delay)), Pc.Backoff(delay)) else Go(t, Pc.Backoff(delay));
    TwoMoves(cfg, acts, s, Advance, Move(s.(pc := ReadUrl), None), Advance, m,
             if s.everConnected then [Pub(Reconnecting(s.attempt, delay))] else []);
  }

  lemma EverOnline(cfg: Config, acts: seq<Act>, s: State)
    requires RunIn(cfg, acts, s)
    ensures s.everConnected <==> Pub(Online) in Run(cfg, acts).log
  {
    assert IsIn(Run(cfg, acts), s);
    RunKeeps(cfg, acts);
    OnlineMeans(cfg.backoff, Run(cfg, acts).log);
  }

  /** Without a delay, or once it is over, the loop says that it is connecting. */
  lemma Dials(cfg: Config, acts: seq<Act>, s: State)
    requires RunIn(cfg, acts, s)
    ensures s.pc.Top? && !s.shared.cancelled && s.shared.url && cfg.backoff(s.attempt) == Some(0.0) ==>
              GoesOn(cfg, acts, [Advance, Advance, Advance], InConnect, s.attempt, [Pub(Connecting)])
    ensures s.pc.Backoff? ==>
              GoesOn(cfg, acts, [SleepDone, Advance], InConnect, s.attempt, [Slept(s.attempt, s.pc.delay), Pub(Connecting)])
  {
    if s.pc.Backoff? {
      TwoMoves(cfg, acts, s, SleepDone, Say(s, Slept(s.attempt, s.pc.delay), Dial), Advance, Say(s, Pub(Connecting), InConnect),
               [Slept(s.attempt, s.pc.delay), Pub(Connecting)]);
    } else if s.pc.Top? && !s.shared.cancelled && s.shared.url && cfg.backoff(s.attempt) == Some(0.0) {
      var t := Looked(s);
      ToEndpoint(cfg, s);
      ThreeMoves(cfg, acts, s, Advance, Move(s.(pc := ReadUrl), None), Advance, Move(t.(pc := Dial), None),
                 Advance, Say(t, Pub(Connecting), InConnect), [Pub(Connecting)]);
    }
  }
}
