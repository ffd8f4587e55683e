/**
 The heartbeat both message loops keep (src/ws/client/connection_loop.rs, src/ws/server/session.rs):
 a deadline pushed out by every Binary message, a Ping when it is first missed, a close when missed again.
 */
module Heartbeat {

  /** The heartbeat's variables, the clock, and the time of the last Binary message (or of the loop's start). */
  datatype Beat = Beat(now: nat, deadline: nat, waitingForPong: bool, lastRecv: nat, closed: bool)

  datatype Config = Config(interval: nat, timeout: nat)

  /**
   Tick: time passes, up to the deadline at most. Late: time passes unhindered, as when the loop is
   held up in a send. Message: a Binary message arrives. Command: a command is handled. Fire: the
   heartbeat arm runs if the deadline is due.
   */
  datatype Event = Tick(d: nat) | Late(d: nat) | Message | Command | Fire

  ghost function Started(cfg: Config, now: nat): Beat {
    Beat(now, now + cfg.interval, false, now, false)
  }

  ghost function Step(cfg: Config, b: Beat, ev: Event): Beat {
    if b.closed then b
    else match ev
      case Tick(d) => if b.now + d <= b.deadline then b.(now := b.now + d) else b
      case Late(d) => b.(now := b.now + d)
      case Message => b.(deadline := b.now + cfg.interval, waitingForPong := false, lastRecv := b.now)
      case Command => b
      case Fire =>
        if b.now < b.deadline then b
        else if b.waitingForPong then b.(closed := true)
        else b.(waitingForPong := true, deadline := b.now + cfg.timeout)
  }

  /** One arm of a loop, at time `now`, does to its deadline and flag what the event does; `open` says whether the loop goes on. */
  ghost predicate Arm(cfg: Config, now: nat, deadline: nat, waiting: bool, ev: Event, deadline': nat, waiting': bool, open: bool) {
    var b := Step(cfg, Beat(now, deadline, waiting, now, false), ev);
    b.deadline == deadline' && b.waitingForPong == waiting' && b.closed == !open
  }

  ghost function Run(cfg: Config, b: Beat, evs: seq<Event>): Beat {
    if |evs| == 0 then b else Step(cfg, Run(cfg, b, evs[..|evs| - 1]), evs[|evs| - 1])
  }

  /** The deadline is an interval after the last message, or a timeout after a Ping sent no earlier than that. */
  ghost predicate Inv(cfg: Config, b: Beat) {
    && b.lastRecv <= b.now
    && (if b.waitingForPong then b.deadline >= b.lastRecv + cfg.interval + cfg.timeout else b.deadline == b.lastRecv + cfg.interval)
    && (b.closed ==> b.now >= b.lastRecv + cfg.interval + cfg.timeout)
  }

  lemma {:induction false} RunKeeps(cfg: Config, start: nat, evs: seq<Event>)
    ensures Inv(cfg, Run(cfg, Started(cfg, start), evs))
  {
    if |evs| > 0 {
      RunKeeps(cfg, start, evs[..|evs| - 1]);
    }
  }

  /** A heartbeat close happens only when no Binary message has arrived for at least interval + timeout. */
  lemma CloseMeansSilence(cfg: Config, start: nat, evs: seq<Event>)
    ensures var b := Run(cfg, Started(cfg, start), evs);
            b.closed ==> b.now - b.lastRecv >= cfg.interval + cfg.timeout
  {
    RunKeeps(cfg, start, evs);
  }

  /** A loop at time `now` whose deadline and flag are those of a run from `start`. */
  ghost predicate Follows(cfg: Config, start: nat, evs: seq<Event>, now: nat, deadline: nat, waiting: bool) {
    forall b | b == Run(cfg, Started(cfg, start), evs) :: Matches(b, now, deadline, waiting)
  }

  ghost predicate Matches(b: Beat, now: nat, deadline: nat, waiting: bool) {
    b.now == now && b.deadline == deadline && b.waitingForPong == waiting && !b.closed
  }

  /** The run goes on with each arm the loop takes, and an arm that closes has a reason. */
  lemma ArmFollows(cfg: Config, start: nat, evs: seq<Event>, before: nat, deadline: nat, waiting: bool,
                   now: nat, ev: Event, deadline': nat, waiting': bool, open: bool)
    requires Follows(cfg, start, evs, before, deadline, waiting) && before <= now
    requires Arm(cfg, now, deadline, waiting, ev, deadline', waiting', open) && !ev.Late? && !ev.Tick?
    ensures var evs' := evs + [Late(now - before)] + [ev]; var b := Run(cfg, Started(cfg, start), evs');
            if open then Follows(cfg, start, evs', now, deadline', waiting')
            else b.closed && now - b.lastRecv >= cfg.interval + cfg.timeout
  {
    assert Matches(Run(cfg, Started(cfg, start), evs), before, deadline, waiting);
    var mid := evs + [Late(now - before)];
    assert mid[..|evs|] == evs && (mid + [ev])[..|mid|] == mid;
    RunKeeps(cfg, start, mid + [ev]);
  }

  ghost predicate Punctual(evs: seq<Event>) {
    forall ev | ev in evs :: !ev.Late?
  }

  /** While no deadline is passed before it fires, both deadlines are exact. */
  lemma {:induction false} PunctualKeeps(cfg: Config, start: nat, evs: seq<Event>)
    requires Punctual(evs)
    ensures var b := Run(cfg, Started(cfg, start), evs);
            && b.now <= b.deadline
            && b.deadline == b.lastRecv + cfg.interval + (if b.waitingForPong then cfg.timeout else 0)
            && (b.closed ==> b.waitingForPong && b.now == b.deadline)
  {
    if |evs| > 0 {
      assert evs[|evs| - 1] in evs;
      PunctualKeeps(cfg, start, evs[..|evs| - 1]);
    }
  }

  /**
   A silent connection ends on time: whatever commands are handled, an open connection is never later
   than lastRecv + interval + timeout, and a closed one was closed at exactly that moment.
   */
  lemma SilenceEnds(cfg: Config, start: nat, evs: seq<Event>)
    requires Punctual(evs)
    ensures var b := Run(cfg, Started(cfg, start), evs);
            && b.now <= b.lastRecv + cfg.interval + cfg.timeout
            && (b.closed ==> b.now == b.lastRecv + cfg.interval + cfg.timeout)
  {
    PunctualKeeps(cfg, start, evs);
  }

  /** Time is never stuck: an open connection can let a unit of time pass, or its heartbeat arm is due and moves it on. */
  lemma NeverStuck(cfg: Config, start: nat, evs: seq<Event>)
    requires Punctual(evs)
    ensures var b := Run(cfg, Started(cfg, start), evs);
            b.closed || Step(cfg, b, Tick(1)).now == b.now + 1 || Step(cfg, b, Fire) != b
  {
    PunctualKeeps(cfg, start, evs);
  }

  /** Left alone from its last message, a connection sends one Ping at the interval and closes at the timeout after it. */
  lemma SilentRun(cfg: Config, start: nat)
    ensures var evs := [Tick(cfg.interval), Fire, Tick(cfg.timeout), Fire];
            Run(cfg, Started(cfg, start), evs) ==
              Beat(start + cfg.interval + cfg.timeout, start + cfg.interval + cfg.timeout, true, start, true)
  {
    var b := Started(cfg, start);
    assert Run(cfg, b, []) == b;
    var e1, e2, e3 := [Tick(cfg.interval)], [Tick(cfg.interval), Fire], [Tick(cfg.interval), Fire, Tick(cfg.timeout)];
    assert e1[..0] == [] && e2[..1] == e1 && e3[..2] == e2 && [Tick(cfg.interval), Fire, Tick(cfg.timeout), Fire][..3] == e3;
    assert Run(cfg, b, e1).now == start + cfg.interval;
    assert Run(cfg, b, e2).waitingForPong;
    assert Run(cfg, b, e3).now == start + cfg.interval + cfg.timeout;
  }
}
