/** When a wakeup is lost: exactly when the channel is full of commands that do not wake the loop. */
module Stranding {
  import opened Basics
  import opened Commands
  import opened Lifecycle
  import opened Scenarios
  import Frames
  import Scheduler

  ghost function WithChan(s: State, chan: seq<ClientCmd>): State {
    s.(shared := s.shared.(chan := chan))
  }

  /** The commands that end each of the two waits. */
  predicate Wakes(pc: Pc, cmd: ClientCmd) {
    cmd.EndpointChanged? || (pc.ParkNoAuto? && cmd.Reconnect?)
  }

  ghost predicate WakerQueued(s: State) {
    exists k | 0 <= k < |s.shared.chan| :: Wakes(s.pc, s.shared.chan[k])
  }

  lemma {:induction false} TopWaits(cfg: Config, s: State, n: nat)
    requires s.pc.Top?
    ensures Steps(cfg, s, Copies(TakeCmd, n)) == s
  {
    if n > 0 {
      TopWaits(cfg, s, n - 1);
      assert Copies(TakeCmd, n)[..n - 1] == Copies(TakeCmd, n - 1);
    }
  }

  lemma ParkedTakes(cfg: Config, s: State)
    requires (s.pc.ParkNoUrl? || s.pc.ParkNoAuto?) && |s.shared.chan| > 0
    ensures var next := Next(cfg, s, TakeCmd).to;
            if Wakes(s.pc, s.shared.chan[0]) then next.pc.Top? else next == Received(s)
  {
  }

  lemma TakesFirst(cfg: Config, s: State, n: nat)
    requires n > 0
    ensures Steps(cfg, s, Copies(TakeCmd, n)) == Steps(cfg, Next(cfg, s, TakeCmd).to, Copies(TakeCmd, n - 1))
  {
    OneStep(cfg, s, TakeCmd);
    assert Copies(TakeCmd, n) == [TakeCmd] + Copies(TakeCmd, n - 1);
    StepsAppend(cfg, s, [TakeCmd], Copies(TakeCmd, n - 1));
  }

  /** A parked loop left to take the commands that are queued wakes up if one of them wakes it, and otherwise empties the channel. */
  lemma {:induction false} DrainParked(cfg: Config, s: State)
    requires s.pc.ParkNoUrl? || s.pc.ParkNoAuto?
    ensures var t := Steps(cfg, s, Copies(TakeCmd, |s.shared.chan|));
            if WakerQueued(s) then t.pc.Top? else t == WithChan(s, [])
    decreases |s.shared.chan|
  {
    var n := |s.shared.chan|;
    if n > 0 {
      ParkedTakes(cfg, s);
      TakesFirst(cfg, s, n);
      if Wakes(s.pc, s.shared.chan[0]) {
        TopWaits(cfg, Next(cfg, s, TakeCmd).to, n - 1);
      } else {
        DrainParked(cfg, Received(s));
        WakerInTail(s);
      }
    }
  }

  lemma WakerInTail(s: State)
    requires |s.shared.chan| > 0 && !Wakes(s.pc, s.shared.chan[0])
    ensures WakerQueued(s) <==> WakerQueued(Received(s))
  {
    if WakerQueued(s) {
      var k :| 0 <= k < |s.shared.chan| && Wakes(s.pc, s.shared.chan[k]);
      assert Received(s).shared.chan[k - 1] == s.shared.chan[k];
    }
    if WakerQueued(Received(s)) {
      var k :| 0 <= k < |Received(s).shared.chan| && Wakes(s.pc, Received(s).shared.chan[k]);
      assert s.shared.chan[k + 1] == Received(s).shared.chan[k];
    }
  }

  /** Parked for a reason that no longer holds, with nothing in the channel and nobody about to send. */
  ghost predicate Stranded(s: State) {
    && s.shared.chan == [] && !s.shared.cancelled
    && ((s.pc.ParkNoUrl? && s.shared.url && s.shared.urlSetters == 0)
        || (s.pc.ParkNoAuto? && s.shared.auto && s.shared.autoSetters == 0))
  }

  /** A stranded loop does nothing of itself. */
  lemma StrandedStays(cfg: Config, s: State, act: Act)
    requires Stranded(s) && !act.User?
    ensures Next(cfg, s, act) == Stay(s)
  {
  }

  /** The one setter whose write has ended the reason to park, just before its `try_send`. */
  ghost predicate AboutToWake(s: State, act: UserAct) {
    && !s.shared.cancelled
    && ((s.pc.ParkNoUrl? && s.shared.url && s.shared.urlSetters == 1 && act == SendEndpoint)
        || (s.pc.ParkNoAuto? && s.shared.auto && s.shared.autoSetters == 1 && act == SendReconnect))
  }

  /** The state once the setter has sent, or failed to, and the loop has taken what is queued. */
  ghost function Settled(cfg: Config, s: State, act: UserAct): State {
    var told := Next(cfg, s, User(act)).to;
    Steps(cfg, told, Copies(TakeCmd, |told.shared.chan|))
  }

  /**
   The exact condition, at the `try_send` of `set_endpoint` or `set_auto_reconnect`: the loop is
   stranded if and only if the channel is full and holds no command that wakes it; otherwise it wakes.
   */
  lemma StrandedIff(cfg: Config, s: State, act: UserAct)
    requires AboutToWake(s, act)
    ensures Stranded(Settled(cfg, s, act)) <==> |s.shared.chan| >= cfg.capacity && !WakerQueued(s)
    ensures !Stranded(Settled(cfg, s, act)) ==> Settled(cfg, s, act).pc.Top?
  {
    var told := Next(cfg, s, User(act)).to;
    DrainParked(cfg, told);
    var chan := s.shared.chan;
    if |chan| < cfg.capacity {
      assert Wakes(told.pc, told.shared.chan[|chan|]);
    } else {
      assert told.shared.chan == chan;
      assert WakerQueued(told) <==> WakerQueued(s);
    }
  }

  // ------------------------------------------------------------------
  // Both losses, reached from the start
  // ------------------------------------------------------------------

  /** The Send command of a pushed event. */
  const EVENT := ClientCmd.Send(Frames.Frame(0, Frames.Event, []), Scheduler.Normal)

  lemma {:induction false} Fill(cfg: Config, s: State, n: nat)
    requires |s.shared.chan| + n <= cfg.capacity
    ensures Steps(cfg, s, Copies(User(TrySend(EVENT)), n)) == WithChan(s, s.shared.chan + Copies(EVENT, n))
  {
    if n == 0 {
      assert s.shared.chan + Copies(EVENT, 0) == s.shared.chan;
    } else {
      Fill(cfg, s, n - 1);
      assert Copies(User(TrySend(EVENT)), n)[..n - 1] == Copies(User(TrySend(EVENT)), n - 1);
      assert s.shared.chan + Copies(EVENT, n) == (s.shared.chan + Copies(EVENT, n - 1)) + [EVENT];
    }
  }

  /** Events fill the channel, a setter writes and sends, the loop takes the events. */
  ghost function Crowded(cfg: Config, write: UserAct, send: UserAct): seq<Act> {
    Copies(User(TrySend(EVENT)), cfg.capacity) + [User(write)] + [User(send)] + Copies(TakeCmd, cfg.capacity)
  }

  lemma CrowdedStrands(cfg: Config, s: State, write: UserAct, send: UserAct)
    requires s.shared.chan == [] && AboutToWake(Next(cfg, s, User(write)).to, send) && Next(cfg, s, User(write)).to.pc == s.pc
    requires (write == WriteUrl(true) && send == SendEndpoint) || (write == StoreAuto(true) && send == SendReconnect)
    ensures Stranded(Steps(cfg, s, Crowded(cfg, write, send)))
  {
    var events, fills := Copies(EVENT, cfg.capacity), Copies(User(TrySend(EVENT)), cfg.capacity);
    Fill(cfg, s, cfg.capacity);
    assert s.shared.chan + events == events;
    var full := WithChan(s, events);
    var ready := Next(cfg, full, User(write)).to;
    var told := Next(cfg, ready, User(send)).to;
    assert ready.shared.chan == events && !WakerQueued(ready);
    StrandedIff(cfg, ready, send);
    assert told.shared.chan == events;
    OneStep(cfg, full, User(write));
    OneStep(cfg, ready, User(send));
    Chain(cfg, s, fills, full, [User(write)], ready);
    Chain(cfg, s, fills + [User(write)], ready, [User(send)], told);
    Chain(cfg, s, fills + [User(write)] + [User(send)], told, Copies(TakeCmd, cfg.capacity), Settled(cfg, ready, send));
  }

  /** Whatever its capacity, a full channel can strand the loop that waits for an endpoint. */
  lemma LostEndpoint(cfg: Config)
    ensures Stranded(Run(cfg, PARKS + Crowded(cfg, WriteUrl(true), SendEndpoint)).now)
  {
    Parks(cfg);
    var parked := Initial().(pc := ParkNoUrl);
    CrowdedStrands(cfg, parked, WriteUrl(true), SendEndpoint);
    RunIsSteps(cfg, PARKS + Crowded(cfg, WriteUrl(true), SendEndpoint));
    StepsAppend(cfg, Initial(), PARKS, Crowded(cfg, WriteUrl(true), SendEndpoint));
  }

  /** Online, then disconnected with auto-reconnect off. */
  const LOSES_CONNECTION: seq<Act> :=
    [Advance, Peer(Connect(true)), Peer(Version(Accepted)), Peer(Noise(true)), Peer(Payload(false)), Advance,
     User(StoreAuto(false)), LeaveMessages, Advance]

  lemma LosesConnection(cfg: Config)
    ensures Steps(cfg, Trying(Dial, 0), LOSES_CONNECTION) ==
              State(ParkNoAuto, 0, true, Trying(Dial, 0).shared.(auto := false))
  {
    var t := Trying(Dial, 0);
    var on := State(InMessages(false), 0, true, t.shared);
    var off := State(InMessages(false), 0, true, t.shared.(auto := false));
    Path(cfg, LOSES_CONNECTION,
         [t, t.(pc := InConnect), t.(pc := InVersion), t.(pc := InNoise), t.(pc := InPayload), t.(pc := Authed), on, off,
          off.(pc := AfterMessages), off.(pc := ParkNoAuto)]);
  }

  /** And the loop that waits for auto-reconnect. */
  lemma LostReconnect(cfg: Config)
    requires cfg.capacity > 0 && cfg.backoff(0).Some?
    ensures Stranded(Run(cfg, FirstDial(cfg) + LOSES_CONNECTION + Crowded(cfg, StoreAuto(true), SendReconnect)).now)
  {
    FirstDialled(cfg);
    LosesConnection(cfg);
    var parked := State(ParkNoAuto, 0, true, Trying(Dial, 0).shared.(auto := false));
    Chain(cfg, Initial(), FirstDial(cfg), Trying(Dial, 0), LOSES_CONNECTION, parked);
    CrowdedStrands(cfg, parked, StoreAuto(true), SendReconnect);
    RunIsSteps(cfg, FirstDial(cfg) + LOSES_CONNECTION + Crowded(cfg, StoreAuto(true), SendReconnect));
    StepsAppend(cfg, Initial(), FirstDial(cfg) + LOSES_CONNECTION, Crowded(cfg, StoreAuto(true), SendReconnect));
  }
}
