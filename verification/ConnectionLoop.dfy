/**
 The connection loop as it is written (src/ws/client/connection_loop.rs): nested loops that update
 `reconnect_attempt` and `ever_connected`. Over any schedule, that is any list of the machine's
 actions, the loop does what the Lifecycle machine does, action by action.
 */
module ConnectionLoop {
  import opened Basics
  import opened Commands
  import opened Lifecycle
  import Delay = Backoff

  function PlaceOf(pc: Pc): Place {
    match pc
    case ParkVersion => AtVersion
    case ParkUnauthorized => AtUnauthorized
    case ParkNoAuto => NoAutoReconnect
    case Backoff(_) => InBackoff
    case _ => NoEndpoint
  }

  /** The commands that wake the loop at each place. */
  predicate Wakes(place: Place, cmd: ClientCmd) {
    match place
    case NoEndpoint => cmd.EndpointChanged?
    case InBackoff => true
    case AtVersion => cmd.EndpointChanged? || cmd.Reconnect?
    case AtUnauthorized => cmd.WakeUp? || cmd.Reconnect? || cmd.EndpointChanged?
    case NoAutoReconnect => cmd.Reconnect? || cmd.EndpointChanged?
  }

  /** The places where the loop waits for a command and nothing else, or also for its delay to end. */
  predicate Parked(pc: Pc) {
    pc.ParkNoUrl? || pc.Backoff? || pc.ParkVersion? || pc.ParkUnauthorized? || pc.ParkNoAuto?
  }

  /** The wakings that also reset the attempt count. */
  predicate ResetsOn(pc: Pc, cmd: ClientCmd) {
    pc.ParkUnauthorized? || (pc.Backoff? && (cmd.Reconnect? || cmd.EndpointChanged?))
  }

  lemma ParkedCmd(s: State, cmd: ClientCmd)
    requires Parked(s.pc)
    ensures OnCmd(s, cmd) ==
              if !Wakes(PlaceOf(s.pc), cmd) then Stay(s)
              else Lifecycle.Say(if ResetsOn(s.pc, cmd) then s.(attempt := 0) else s, Woken(PlaceOf(s.pc), cmd), OnceWoken(s.pc))
  {
  }

  /** Where the cancel leads; `handle_version_handshake` returns to its caller either way. */
  function OnceCancelled(pc: Pc): Pc {
    if pc.ParkVersion? then VersionReturned(None) else Returned
  }

  function OnceWoken(pc: Pc): Pc {
    if pc.ParkVersion? then VersionReturned(None) else Top
  }

  /** The places where the loop waits for something. */
  predicate Waits(pc: Pc) {
    || pc.InConnect? || pc.InVersion? || pc.InNoise? || pc.InPayload? || pc.InAuth?
    || pc.InMessages? || Parked(pc) || pc.ParkVersionCaller?
  }

  predicate Over(pc: Pc) {
    pc.Returned? || pc.Panicked?
  }

  /** The actions that are the loop's business at each place. */
  predicate Applies(pc: Pc, shared: Shared, act: Act) {
    match act
    case Advance => !Waits(pc) && !Over(pc)
    case TakeCmd => Receives(pc) && |shared.chan| > 0
    case SeeCancel => shared.cancelled && Receives(pc) && pc != InMessages(true)
    case SleepDone => pc.Backoff?
    case DrainEnds => pc.InMessages?
    case LeaveMessages => pc.InMessages?
    case Peer(decision) => Fits(pc, decision)
    case User(_) => false
  }

  lemma Skipped(cfg: Config, s: State, act: Act)
    requires !Applies(s.pc, s.shared, act) && !act.User?
    ensures Next(cfg, s, act) == Stay(s)
  {
    match act
    case Peer(decision) => assert Decided(s, decision) == Stay(s);
    case SeeCancel => assert s.shared.cancelled ==> OnCancel(s) == Stay(s);
    case Advance => assert Advanced(cfg, s) == Stay(s);
    case _ =>
  }

  /** Once the loop is over, its log and its counter stand. */
  lemma {:induction false} OverStays(cfg: Config, acts: seq<Act>, n: nat)
    requires n <= |acts| && Over(Run(cfg, acts[..n]).now.pc)
    ensures var h, t := Run(cfg, acts[..n]), Run(cfg, acts);
            t.log == h.log && t.now.pc == h.now.pc && t.now.attempt == h.now.attempt
  {
    if n < |acts| {
      var init := acts[..|acts| - 1];
      assert init[..n] == acts[..n];
      OverStays(cfg, init, n);
      OverStep(cfg, Run(cfg, init).now, acts[|acts| - 1]);
    } else {
      assert acts[..n] == acts;
    }
  }

  lemma OverStep(cfg: Config, s: State, act: Act)
    requires Over(s.pc)
    ensures var move := Next(cfg, s, act); move.said.None? && move.to.pc == s.pc && move.to.attempt == s.attempt
  {
    if !act.User? {
      Skipped(cfg, s, act);
    }
  }

  /** What the machine has come to after `n` actions of a schedule. */
  ghost predicate ComesTo(cfg: Config, schedule: seq<Act>, n: nat, h: History)
    requires n <= |schedule|
  {
    forall played | played == schedule[..n] :: RunIs(cfg, played, h)
  }

  ghost predicate RunIs(cfg: Config, acts: seq<Act>, h: History) {
    Run(cfg, acts) == h
  }

  lemma ComesToNext(cfg: Config, schedule: seq<Act>, n: nat, h: History, next: History)
    requires n < |schedule| && ComesTo(cfg, schedule, n, h)
    requires Then(h, Next(cfg, h.now, schedule[n])) == next
    ensures ComesTo(cfg, schedule, n + 1, next)
  {
    assert RunIs(cfg, schedule[..n], h);
    assert schedule[..n + 1][..n] == schedule[..n];
  }

  /** What ends a wait, as it is logged. */
  ghost predicate Ends(pc: Pc, next: Pc, e: Entry) {
    || (e == SawCancel && next == OnceCancelled(pc))
    || (e.Woken? && e.place == PlaceOf(pc) && Wakes(e.place, e.cmd) && next == OnceWoken(pc))
    || (pc.Backoff? && e.Slept? && e.delay == pc.delay && next == Dial)
  }

  class Background {
    const cfg: Config
    var reconnectAttempt: nat
    var everConnected: bool
    var shared: Shared
    var log: seq<Entry>
    /** What happens from now on. */
    var script: seq<Act>
    /** All that ever happens. */
    ghost const schedule: seq<Act>

    ghost function Now(pc: Pc): History
      reads this
    {
      History(State(pc, reconnectAttempt, everConnected, shared), log)
    }

    /** How much of the schedule has been played. */
    ghost function Played(): nat
      requires |script| <= |schedule|
      reads this`script
    {
      |schedule| - |script|
    }

    /** On what has been played, the machine has come to the same place, with the same variables and the same log. */
    ghost predicate At(pc: Pc)
      reads this
    {
      |script| <= |schedule| && script == schedule[Played()..] && ComesTo(cfg, schedule, Played(), Now(pc))
    }

    /** `act` has been taken off the schedule but not yet played. */
    ghost predicate Pending(act: Act, before: History)
      reads this`script
    {
      |script| < |schedule| && script == schedule[Played()..] && schedule[Played() - 1] == act
      && ComesTo(cfg, schedule, Played() - 1, before)
    }

    /** The loop is over, or the schedule is played out. */
    ghost predicate Stopped(pc: Pc)
      reads this`script
    {
      Over(pc) || script == []
    }

    constructor (cfg: Config, script: seq<Act>)
      ensures this.cfg == cfg && this.script == script == this.schedule && At(Top)
    {
      this.cfg := cfg;
      this.script := script;
      this.schedule := script;
      reconnectAttempt := 0;
      everConnected := false;
      shared := Shared(false, true, [], 0, 0, false, false, false);
      log := [];
    }

    /** Publish or record an entry. */
    method Say(e: Entry)
      modifies this`log
      ensures log == old(log) + [e]
    {
      log := log + [e];
    }

    /** The next action is taken off the schedule. */
    method Pop(ghost pc: Pc)
      requires At(pc) && |script| > 0
      modifies this`script
      ensures script == old(script)[1..] && Pending(old(script)[0], Now(pc))
    {
      script := script[1..];
    }

    /** The pending action has been played. */
    lemma Took(act: Act, before: History, pc: Pc)
      requires Pending(act, before) && Then(before, Next(cfg, before.now, act)) == Now(pc)
      ensures At(pc)
    {
      ComesToNext(cfg, schedule, Played() - 1, before, Now(pc));
    }

    /** Waits at `pc` for the first action that is the loop's business there; meanwhile the users act, and the rest passes by. */
    method Await(pc: Pc) returns (act: Option<Act>)
      requires At(pc)
      modifies this`shared, this`script
      ensures At(pc) && |script| <= |old(script)|
      ensures if act.Some? then |script| > 0 && script[0] == act.value && Applies(pc, shared, act.value) else script == []
    {
      while |script| > 0
        invariant At(pc) && |script| <= |old(script)|
        decreases |script|
      {
        if Applies(pc, shared, script[0]) {
          return Some(script[0]);
        }
        PassBy(pc);
      }
      act := None;
    }

    /** A user's action, or one that is nobody's business here. */
    method PassBy(ghost pc: Pc)
      requires At(pc) && |script| > 0 && !Applies(pc, shared, script[0])
      modifies this`shared, this`script
      ensures At(pc) && script == old(script)[1..]
    {
      ghost var before := Now(pc);
      var act := script[0];
      Pop(pc);
      if act.User? {
        shared := UserStep(cfg, shared, act.act);
      } else {
        Skipped(cfg, before.now, act);
      }
      Took(act, before, pc);
    }

    /** Whether the loop's own next step is scheduled. */
    method Own(pc: Pc) returns (go: bool)
      requires At(pc) && !Waits(pc) && !Over(pc)
      modifies this`shared, this`script
      ensures At(pc) && |script| <= |old(script)|
      ensures if go then |script| > 0 && script[0] == Advance else script == []
    {
      var act := Await(pc);
      go := act != None;
    }

    method Receive() returns (cmd: ClientCmd)
      requires |shared.chan| > 0
      modifies this`shared
      ensures cmd == old(shared.chan[0]) && shared == old(shared).(chan := old(shared.chan)[1..])
    {
      cmd := shared.chan[0];
      shared := shared.(chan := shared.chan[1..]);
    }

    /** The endpoint is read, and the delay computed. */
    method ReadEndpoint() returns (next: Pc)
      requires At(ReadUrl)
      modifies this`shared, this`log, this`script
      ensures At(next) && |script| <= |old(script)|
      ensures next == ReadUrl ==> script == [] && log == old(log)
      ensures next != ReadUrl ==>
                && next == (if !shared.url then ParkNoUrl
                            else match cfg.backoff(reconnectAttempt)
                              case None => Panicked
                              case Some(delay) => if delay == 0.0 then Dial else Backoff(delay))
                && log == old(log) + (if next.ParkNoUrl? then [Pub(Disconnected)]
                                      else if next.Backoff? && everConnected then [Pub(Reconnecting(reconnectAttempt, next.delay))]
                                      else [])
    {
      var go := Own(ReadUrl);
      if !go { return ReadUrl; }
      ghost var before := Now(ReadUrl);
      Pop(ReadUrl);
      shared := shared.(lostEndpoint := false);
      if !shared.url {
        Say(Pub(Disconnected));
        next := ParkNoUrl;
      } else {
        var delay := cfg.backoff(reconnectAttempt);
        if delay.None? {
          next := Panicked;
        } else if delay.value > 0.0 {
          if everConnected {
            Say(Pub(Reconnecting(reconnectAttempt, delay.value)));
          }
          next := Backoff(delay.value);
        } else {
          next := Dial;
        }
      }
      Took(Advance, before, next);
    }

    /** The cancel arm of a wait. */
    method SeeCancel(pc: Pc)
      requires At(pc) && Parked(pc) && shared.cancelled && |script| > 0 && script[0] == Act.SeeCancel
      modifies this`log, this`script
      ensures At(OnceCancelled(pc)) && script == old(script)[1..] && log == old(log) + [SawCancel]
    {
      ghost var before := Now(pc);
      Pop(pc);
      Say(SawCancel);
      Took(Act.SeeCancel, before, OnceCancelled(pc));
    }

    /** The command arm of a wait. */
    method TakeCmd(pc: Pc) returns (woken: bool)
      requires At(pc) && Parked(pc) && |shared.chan| > 0 && |script| > 0 && script[0] == Act.TakeCmd
      modifies this`reconnectAttempt, this`shared, this`log, this`script
      ensures At(if woken then OnceWoken(pc) else pc) && script == old(script)[1..]
      ensures woken <==> Wakes(PlaceOf(pc), old(shared.chan[0]))
      ensures log == old(log) + if woken then [Woken(PlaceOf(pc), old(shared.chan[0]))] else []
    {
      ghost var before := Now(pc);
      Pop(pc);
      var cmd := Receive();
      woken := Wakes(PlaceOf(pc), cmd);
      if woken {
        Say(Woken(PlaceOf(pc), cmd));
        if ResetsOn(pc, cmd) {
          reconnectAttempt := 0;
        }
      }
      ParkedCmd(before.now.(shared := shared), cmd);
      Took(Act.TakeCmd, before, if woken then OnceWoken(pc) else pc);
    }

    method SleepOut(delay: Delay.Duration)
      requires At(Backoff(delay)) && |script| > 0 && script[0] == SleepDone
      modifies this`log, this`script
      ensures At(Dial) && script == old(script)[1..] && log == old(log) + [Slept(reconnectAttempt, delay)]
    {
      ghost var before := Now(Backoff(delay));
      Pop(Backoff(delay));
      Say(Slept(reconnectAttempt, delay));
      Took(SleepDone, before, Dial);
    }

    /** The loop waits until the cancel, a command that wakes it there or, in backoff, the end of the delay; or for ever. */
    method Park(pc: Pc) returns (next: Pc)
      requires At(pc) && Parked(pc)
      modifies this`reconnectAttempt, this`shared, this`log, this`script
      ensures At(next) && |script| <= |old(script)|
      ensures if next == pc then script == [] && log == old(log)
              else |script| < |old(script)| && |log| == |old(log)| + 1 && log[..|old(log)|] == old(log) && Ends(pc, next, log[|old(log)|])
    {
      while true
        invariant At(pc) && |script| <= |old(script)| && log == old(log)
        decreases |script|
      {
        var act := Await(pc);
        if act == None { return pc; }
        match act.value {
          case SeeCancel =>
            SeeCancel(pc);
            return OnceCancelled(pc);
          case TakeCmd =>
            var woken := TakeCmd(pc);
            if woken { return OnceWoken(pc); }
          case SleepDone =>
            SleepOut(pc.delay);
            return Dial;
        }
      }
    }

    /** The decision this place waits for, unless it never comes. */
    method AwaitDecision(pc: Pc) returns (decision: Option<Decision>)
      requires At(pc) && (pc.InConnect? || pc.InVersion? || pc.InNoise? || pc.InPayload? || pc.InAuth?)
      modifies this`shared, this`script
      ensures At(pc) && |script| <= |old(script)|
      ensures if decision.Some? then Fits(pc, decision.value) && |script| > 0 && script[0] == Peer(decision.value) else script == []
    {
      var act := Await(pc);
      decision := if act == None then None else Some(act.value.decision);
    }

    /** The attempt has failed: one more. */
    method Fail(why: Failure) returns (next: Pc)
      requires At(Failing(why))
      modifies this`reconnectAttempt, this`shared, this`log, this`script
      ensures At(next) && |script| <= |old(script)|
      ensures if next == Failing(why) then script == [] && log == old(log) else next == Top && log == old(log) + [Failed(why)]
    {
      var go := Own(Failing(why));
      if !go { return Failing(why); }
      ghost var before := Now(Failing(why));
      Pop(Failing(why));
      reconnectAttempt := OneMore(reconnectAttempt);
      Say(Failed(why));
      Took(Advance, before, Top);
      next := Top;
    }

    method FailWithError(why: Failure) returns (next: Pc)
      requires At(Erroring(why))
      modifies this`reconnectAttempt, this`shared, this`log, this`script
      ensures At(next) && |script| <= |old(script)|
      ensures if next == Top then log == old(log) + [Pub(Error)] + [Failed(why)] else script == [] && (next == Erroring(why) || next == Failing(why))
    {
      var go := Own(Erroring(why));
      if !go { return Erroring(why); }
      ghost var before := Now(Erroring(why));
      Pop(Erroring(why));
      Say(Pub(Error));
      Took(Advance, before, Failing(why));
      next := Fail(why);
    }

    /** The connection is opened; on success the version handshake begins. */
    method Connect() returns (next: Pc)
      requires At(Dial)
      modifies this`shared, this`log, this`script
      ensures At(next) && |script| <= |old(script)|
      ensures next == Erroring(NoConnection) ==> |script| < |old(script)| && log == old(log) + [Pub(Connecting)]
      ensures next == InVersion ==> |script| < |old(script)| && log == old(log) + [Pub(Connecting)] + [Pub(Handshaking)]
      ensures next != InVersion && next != Erroring(NoConnection) ==> script == [] && (next == Dial || next == InConnect)
    {
      var go := Own(Dial);
      if !go { return Dial; }
      ghost var before := Now(Dial);
      Pop(Dial);
      Say(Pub(Connecting));
      Took(Advance, before, InConnect);
      var decision := AwaitDecision(InConnect);
      if decision == None { return InConnect; }
      next := OnConnect(decision.value.ok);
    }

    method OnConnect(ok: bool) returns (next: Pc)
      requires At(InConnect) && |script| > 0 && script[0] == Peer(Decision.Connect(ok))
      modifies this`log, this`script
      ensures At(next) && script == old(script)[1..]
      ensures next == (if ok then InVersion else Erroring(NoConnection)) && log == old(log) + if ok then [Pub(Handshaking)] else []
    {
      ghost var before := Now(InConnect);
      Pop(InConnect);
      if ok {
        Say(Pub(Handshaking));
      }
      next := if ok then InVersion else Erroring(NoConnection);
      Took(Peer(Decision.Connect(ok)), before, next);
    }

    method OnReply(reply: Reply) returns (next: Pc)
      requires At(InVersion) && |script| > 0 && script[0] == Peer(Version(reply))
      modifies this`log, this`script
      ensures At(next) && script == old(script)[1..]
      ensures match reply
              case Accepted => next == InNoise && log == old(log) + [Pub(Authenticating)]
              case VersionRejected => next == ParkVersion && log == old(log) + [Pub(VersionMismatch)]
              case BadReply => next == VersionReturned(Some(Error)) && log == old(log)
    {
      ghost var before := Now(InVersion);
      Pop(InVersion);
      match reply {
        case Accepted =>
          Say(Pub(Authenticating));
          next := InNoise;
        case VersionRejected =>
          Say(Pub(VersionMismatch));
          next := ParkVersion;
        case BadReply =>
          next := VersionReturned(Some(Error));
      }
      Took(Peer(Version(reply)), before, next);
    }

    /** Hello and reply; a mismatch is waited out here, and Err(None) is what the caller gets once it is over. */
    method HandleVersion() returns (next: Pc, ghost reply: Option<Reply>)
      requires At(InVersion)
      modifies this`reconnectAttempt, this`shared, this`log, this`script
      ensures At(next) && |script| <= |old(script)|
      ensures match reply
              case None => next == InVersion && script == [] && log == old(log)
              case Some(Accepted) => next == InNoise && log == old(log) + [Pub(Authenticating)]
              case Some(BadReply) => next == VersionReturned(Some(Error)) && log == old(log)
              case Some(VersionRejected) =>
                var published := old(log) + [Pub(VersionMismatch)];
                if next == ParkVersion then script == [] && log == published
                else next == VersionReturned(None) && |log| == |published| + 1 && log[..|published|] == published
                     && Ends(ParkVersion, next, log[|published|])
    {
      var decision := AwaitDecision(InVersion);
      if decision == None { return InVersion, None; }
      reply := Some(decision.value.reply);
      next := OnReply(decision.value.reply);
      if next.ParkVersion? {
        next := Park(ParkVersion);
      }
    }

    /** The caller's side of a failed version handshake; its arm for a VersionMismatch is never needed. */
    method VersionFailed(error: Option<Published>) returns (next: Pc)
      requires At(VersionReturned(error)) && (error.Some? ==> error.value == Error)
      modifies this`reconnectAttempt, this`shared, this`log, this`script
      ensures At(next) && |script| <= |old(script)|
      ensures if next == Top
              then log == old(log) + (if error.Some? then [Pub(Error)] else []) + [Failed(if error.Some? then NoVersion else VersionReleased)]
              else script == []
    {
      var go := Own(VersionReturned(error));
      if !go { return VersionReturned(error); }
      ghost var before := Now(VersionReturned(error));
      Pop(VersionReturned(error));
      var why := if error.Some? then NoVersion else VersionReleased;
      if error.Some? {
        Say(Pub(error.value));
      } else {
        assert log + [] == log;
      }
      Took(Advance, before, Failing(why));
      next := Fail(why);
    }

    /** A handshake that fails is a failure of the attempt; only one that succeeds goes on to the authentication. */
    method HandleNoise() returns (next: Pc)
      requires At(InNoise)
      modifies this`shared, this`script
      ensures At(next) && |script| <= |old(script)|
      ensures next == InNoise ==> script == []
      ensures next != InNoise ==>
                && |script| < |schedule|
                && ((next == InPayload && schedule[Played() - 1] == Peer(Noise(true)))
                    || (next == Failing(NoNoise) && schedule[Played() - 1] == Peer(Noise(false))))
    {
      var decision := AwaitDecision(InNoise);
      if decision == None { return InNoise; }
      ghost var before := Now(InNoise);
      Pop(InNoise);
      next := if decision.value.ok then InPayload else Failing(NoNoise);
      Took(Peer(decision.value), before, next);
    }

    /** Whether there is a payload to send. */
    method AskPayload() returns (next: Pc)
      requires At(InPayload)
      modifies this`shared, this`log, this`script
      ensures At(next) && |script| <= |old(script)|
      ensures match next
              case InPayload => script == [] && log == old(log)
              case InAuth => log == old(log) + [Pub(WaitingForAuth)]
              case Authed => log == old(log) + [NoPayload]
              case _ => false
    {
      var decision := AwaitDecision(InPayload);
      if decision == None { return InPayload; }
      ghost var before := Now(InPayload);
      Pop(InPayload);
      Say(if decision.value.some then Pub(WaitingForAuth) else NoPayload);
      next := if decision.value.some then InAuth else Authed;
      Took(Peer(decision.value), before, next);
    }

    /** Where an outcome of the authentication leads. */
    function OnceDecided(outcome: AuthOutcome): Pc {
      match outcome
      case Success => Authed
      case Rejected => Rejecting
      case OtherOutcome => Erroring(NoAuth)
    }

    method AwaitOutcome() returns (next: Pc, outcome: Option<AuthOutcome>)
      requires At(InAuth)
      modifies this`shared, this`log, this`script
      ensures At(next) && |script| <= |old(script)|
      ensures match outcome
              case None => next == InAuth && script == [] && log == old(log)
              case Some(o) => next == OnceDecided(o) && log == old(log) + [Outcome(o)]
    {
      var decision := AwaitDecision(InAuth);
      if decision == None { return InAuth, None; }
      ghost var before := Now(InAuth);
      Pop(InAuth);
      outcome := Some(decision.value.outcome);
      Say(Outcome(decision.value.outcome));
      next := OnceDecided(decision.value.outcome);
      Took(Peer(decision.value), before, next);
    }

    /** Unauthorized is published twice, by `handle_auth` and by its caller. */
    method PublishUnauthorized() returns (next: Pc)
      requires At(Rejecting)
      modifies this`shared, this`log, this`script
      ensures At(next) && |script| <= |old(script)|
      ensures if next == ParkUnauthorized then log == old(log) + [Pub(Unauthorized)] + [Pub(Unauthorized)]
              else script == [] && (next == Rejecting || next == RejectedOnce)
    {
      var go := Own(Rejecting);
      if !go { return Rejecting; }
      PublishOnce(Rejecting, RejectedOnce);
      go := Own(RejectedOnce);
      if !go { return RejectedOnce; }
      PublishOnce(RejectedOnce, ParkUnauthorized);
      next := ParkUnauthorized;
    }

    method PublishOnce(pc: Pc, next: Pc)
      requires At(pc) && |script| > 0 && script[0] == Advance
      requires (pc == Rejecting && next == RejectedOnce) || (pc == RejectedOnce && next == ParkUnauthorized)
      modifies this`log, this`script
      ensures At(next) && script == old(script)[1..] && log == old(log) + [Pub(Unauthorized)]
    {
      ghost var before := Now(pc);
      Pop(pc);
      Say(Pub(Unauthorized));
      Took(Advance, before, next);
    }

    method GoOnline() returns (next: Pc)
      requires At(Authed)
      modifies this`reconnectAttempt, this`everConnected, this`shared, this`log, this`script
      ensures At(next) && |script| <= |old(script)|
      ensures if next == InMessages(false) then reconnectAttempt == 0 && everConnected && log == old(log) + [Pub(Online)]
              else next == Authed && script == []
    {
      var go := Own(Authed);
      if !go { return Authed; }
      ghost var before := Now(Authed);
      Pop(Authed);
      reconnectAttempt := 0;
      everConnected := true;
      Say(Pub(Online));
      Took(Advance, before, InMessages(false));
      next := InMessages(false);
    }

    /**
     From the Noise handshake on: Online when there is no payload or its outcome is Success, a failure
     with its Error for any other outcome, and for a rejection Unauthorized until something ends it.
     */
    method HandleAuth() returns (next: Pc)
      requires At(InPayload)
      modifies this`reconnectAttempt, this`everConnected, this`shared, this`log, this`script
      ensures At(next) && |script| <= |old(script)|
      ensures next == InMessages(false) ==>
                || log == old(log) + [NoPayload] + [Pub(Online)]
                || log == old(log) + [Pub(WaitingForAuth)] + [Outcome(Success)] + [Pub(Online)]
      ensures next == Top || next == Returned ==>
                var asked := old(log) + [Pub(WaitingForAuth)];
                var rejected := asked + [Outcome(Rejected)] + [Pub(Unauthorized)] + [Pub(Unauthorized)];
                || (next == Top && log == asked + [Outcome(OtherOutcome)] + [Pub(Error)] + [Failed(NoAuth)])
                || (|log| == |rejected| + 1 && log[..|rejected|] == rejected && Ends(ParkUnauthorized, next, log[|rejected|]))
      ensures next == Top || next == InMessages(false) || next == Returned || script == []
    {
      next := AskPayload();
      var outcome: Option<AuthOutcome> := Some(Success);
      if next.InAuth? {
        next, outcome := AwaitOutcome();
      }
      if next.InPayload? || outcome == None { return; }
      match outcome.value {
        case Success => next := GoOnline();
        case OtherOutcome => next := FailWithError(NoAuth);
        case Rejected => next := HandleRejection();
      }
    }

    method HandleRejection() returns (next: Pc)
      requires At(Rejecting)
      modifies this`reconnectAttempt, this`shared, this`log, this`script
      ensures At(next) && |script| <= |old(script)| && next != InMessages(false)
      ensures next == Top || next == Returned ==>
                var rejected := old(log) + [Pub(Unauthorized)] + [Pub(Unauthorized)];
                |log| == |rejected| + 1 && log[..|rejected|] == rejected && Ends(ParkUnauthorized, next, log[|rejected|])
      ensures next == Top || next == Returned || script == []
    {
      next := PublishUnauthorized();
      if next.ParkUnauthorized? {
        next := Park(ParkUnauthorized);
      }
    }

    /** From the version handshake to Online, or to a reason to begin again or stop. */
    method Secure() returns (next: Pc)
      requires At(InVersion)
      modifies this`reconnectAttempt, this`everConnected, this`shared, this`log, this`script
      ensures At(next) && |script| <= |old(script)|
      ensures next == Top || next == InMessages(false) || Stopped(next)
    {
      ghost var reply;
      next, reply := HandleVersion();
      if next.VersionReturned? {
        next := VersionFailed(next.error);
        return;
      }
      if !next.InNoise? { return; }
      next := HandleNoise();
      if next.Failing? {
        next := Fail(NoNoise);
        return;
      }
      if next.InPayload? {
        next := HandleAuth();
      }
    }

    /** Whether a command ends the message loop; inside a drain none does. */
    predicate EndsMessages(draining: bool, cmd: ClientCmd) {
      !draining && (cmd.Reconnect? || cmd.EndpointChanged?)
    }

    /** One command taken in the message loop. */
    method MessageCmd(draining: bool) returns (next: Pc)
      requires At(InMessages(draining)) && |shared.chan| > 0 && |script| > 0 && script[0] == Act.TakeCmd
      modifies this`shared, this`log, this`script
      ensures At(next) && script == old(script)[1..]
      ensures var cmd := old(shared.chan[0]);
              if EndsMessages(draining, cmd) then next == AfterMessages && log == old(log) + [Pub(Disconnected)]
              else next == InMessages(draining || cmd.Send?) && log == old(log)
    {
      ghost var before := Now(InMessages(draining));
      Pop(InMessages(draining));
      var cmd := Receive();
      if EndsMessages(draining, cmd) {
        Say(Pub(Disconnected));
        next := AfterMessages;
      } else {
        next := InMessages(draining || cmd.Send?);
      }
      Took(Act.TakeCmd, before, next);
    }

    /** The message loop is left for another reason: the cancel, the heartbeat, the peer or an error. */
    method LeaveLoop(draining: bool)
      requires At(InMessages(draining)) && |script| > 0
      requires script[0].LeaveMessages? || (script[0].SeeCancel? && shared.cancelled && !draining)
      modifies this`log, this`script
      ensures At(AfterMessages) && script == old(script)[1..] && log == old(log) + [Pub(Disconnected)]
    {
      ghost var before := Now(InMessages(draining));
      ghost var act := script[0];
      Pop(InMessages(draining));
      Say(Pub(Disconnected));
      Took(act, before, AfterMessages);
    }

    method EndDrain(draining: bool)
      requires At(InMessages(draining)) && |script| > 0 && script[0] == DrainEnds
      modifies this`script
      ensures At(InMessages(false)) && script == old(script)[1..]
    {
      ghost var before := Now(InMessages(draining));
      Pop(InMessages(draining));
      Took(DrainEnds, before, InMessages(false));
    }

    /**
     The message loop as far as the lifecycle goes. It publishes Disconnected once, when it ends, and
     ends only for the cancel, for a cause outside, or for `last`, a command that ends it outside a drain;
     `cause` is the last action played.
     */
    method MessageLoop() returns (next: Pc, ghost cause: Act, ghost last: Option<ClientCmd>)
      requires At(InMessages(false))
      modifies this`shared, this`log, this`script
      ensures At(next) && |script| <= |old(script)|
      ensures if next == AfterMessages then log == old(log) + [Pub(Disconnected)] else next.InMessages? && script == [] && log == old(log)
      ensures next == AfterMessages ==> |script| < |schedule| && schedule[Played() - 1] == cause
      ensures next == AfterMessages ==>
                || cause == LeaveMessages || (cause == Act.SeeCancel && shared.cancelled)
                || (cause == Act.TakeCmd && last.Some? && (last.value.Reconnect? || last.value.EndpointChanged?))
    {
      next, cause, last := InMessages(false), LeaveMessages, None;
      while next.InMessages?
        invariant At(next) && |script| <= |old(script)|
        invariant if next == AfterMessages then log == old(log) + [Pub(Disconnected)] else next.InMessages? && log == old(log)
        invariant next == AfterMessages ==> |script| < |schedule| && schedule[Played() - 1] == cause
        invariant next == AfterMessages ==>
                    || cause == LeaveMessages || (cause == Act.SeeCancel && shared.cancelled)
                    || (cause == Act.TakeCmd && last.Some? && (last.value.Reconnect? || last.value.EndpointChanged?))
        decreases |script|, next.InMessages?
      {
        var act := Await(next);
        if act == None { return; }
        cause := act.value;
        match act.value {
          case TakeCmd =>
            last := Some(shared.chan[0]);
            next := MessageCmd(next.draining);
          case DrainEnds =>
            EndDrain(next.draining);
            next := InMessages(false);
          case LeaveMessages =>
            LeaveLoop(next.draining);
            next := AfterMessages;
          case SeeCancel =>
            LeaveLoop(next.draining);
            next := AfterMessages;
        }
      }
    }

    /** After the message loop: reconnect at once, or wait to be told to. */
    method AfterDisconnect() returns (next: Pc)
      requires At(AfterMessages)
      modifies this`reconnectAttempt, this`shared, this`log, this`script
      ensures At(next) && |script| <= |old(script)|
      ensures next == AfterMessages ==> script == [] && log == old(log)
      ensures next != AfterMessages ==>
                if shared.auto then next == Top && reconnectAttempt == 1 && log == old(log) + [Failed(Lost)]
                else next == ParkNoAuto && log == old(log)
    {
      var go := Own(AfterMessages);
      if !go { return AfterMessages; }
      ghost var before := Now(AfterMessages);
      Pop(AfterMessages);
      if shared.auto {
        reconnectAttempt := 1;
        Say(Failed(Lost));
        next := Top;
      } else {
        shared := shared.(lostReconnect := false);
        next := ParkNoAuto;
      }
      Took(Advance, before, next);
    }

    /** From Online to the next round. */
    method StayOnline() returns (next: Pc)
      requires At(InMessages(false))
      modifies this`reconnectAttempt, this`shared, this`log, this`script
      ensures At(next) && |script| <= |old(script)|
      ensures next == Top || Stopped(next)
    {
      ghost var cause, last;
      next, cause, last := MessageLoop();
      if next.InMessages? { return; }
      next := AfterDisconnect();
      if next.ParkNoAuto? {
        next := Park(ParkNoAuto);
      }
    }

    /** The cancel is looked at, once a round. */
    method CheckCancel() returns (next: Pc)
      requires At(Top)
      modifies this`shared, this`script
      ensures At(next)
      ensures if next == Top then script == [] else |script| < |old(script)| && next == if shared.cancelled then Returned else ReadUrl
    {
      var go := Own(Top);
      if !go { return Top; }
      ghost var before := Now(Top);
      Pop(Top);
      next := if shared.cancelled then Returned else ReadUrl;
      Took(Advance, before, next);
    }

    /** From the head of the loop to the dial, or to a reason to begin again or stop. */
    method Begin() returns (next: Pc)
      requires At(Top)
      modifies this`reconnectAttempt, this`shared, this`log, this`script
      ensures At(next) && |script| <= |old(script)|
      ensures (next == Top && |script| < |old(script)|) || (next == Dial && |script| < |old(script)|) || Stopped(next)
    {
      next := CheckCancel();
      if next.ReadUrl? {
        next := ReadEndpoint();
        if Parked(next) {
          next := Park(next);
        }
      }
    }

    /** From the head of the loop to the version handshake, or to a reason to begin again or stop. */
    method Reach() returns (next: Pc)
      requires At(Top)
      modifies this`reconnectAttempt, this`shared, this`log, this`script
      ensures At(next) && |script| <= |old(script)|
      ensures ((next == Top || next == InVersion) && |script| < |old(script)|) || Stopped(next)
    {
      next := Begin();
      if next == Dial {
        next := Connect();
        if next.Erroring? {
          next := FailWithError(NoConnection);
        }
      }
    }

    /** The whole loop, until it is over or the schedule is played out. */
    method Rounds() returns (end: Pc)
      requires At(Top)
      modifies this`reconnectAttempt, this`everConnected, this`shared, this`log, this`script
      ensures At(end) && Stopped(end)
    {
      end := Top;
      while end == Top && |script| > 0
        invariant At(end) && (end == Top || Stopped(end))
        decreases |script|, end == Top
      {
        end := Reach();
        if end == InVersion && |script| > 0 {
          end := Secure();
          if end == InMessages(false) {
            end := StayOnline();
          }
        }
      }
    }

    /**
     The loop does what the machine does. Whatever the schedule, and however the users' actions fall
     between its own steps, its log, its place and its counter are the machine's on the whole schedule,
     so everything proved of the machine's runs holds of it.
     */
    method Loop() returns (end: Pc)
      requires At(Top)
      modifies this`reconnectAttempt, this`everConnected, this`shared, this`log, this`script
      ensures var machine := Run(cfg, schedule);
              && log == machine.log && end == machine.now.pc && reconnectAttempt == machine.now.attempt
              && (Over(end) || (script == [] && Now(end) == machine))
    {
      end := Rounds();
      assert RunIs(cfg, schedule[..Played()], Now(end));
      if Over(end) {
        OverStays(cfg, schedule, Played());
      } else {
        assert schedule[..Played()] == schedule;
      }
    }
  }
}
