/**
 Request/response correlation (src/ws/client/mod.rs): concurrent `request` callers, the pending map,
 the dispatcher and the clear-all on a disconnect, as atomic steps in any interleaving.
 */
module Correlation {
  import opened Basics
  import opened Frames

  /** How a request ended other than with an answer. */
  datatype Failure = Dropped | TimedOut

  datatype Outcome = Answer(frame: nat) | Failed(why: Failure) | Refused | Abandoned

  /**
   Where a caller of `request` is: it has taken an id; it has inserted its sender and is sending its
   command; it awaits the answer; its wait has failed and it is about to remove its entry; it has returned.
   */
  datatype Phase = Allocated | Queued | Waiting | Failing(why: Failure) | Finished(outcome: Outcome)

  /** The one-shot channel as its receiver sees it: the sender still lives, it sent the frame received as number `frame`, or it was dropped. */
  datatype Slot = Empty | Filled(frame: nat) | Closed

  /** `since` is how many frames had been received when the request was inserted. */
  datatype Request = Request(id: u32, phase: Phase, slot: Slot, since: nat)

  /** A sender the dispatcher has taken out of the map for the latest received frame. */
  datatype State = State(
    nextId: u32,
    reqs: seq<Request>,
    pending: map<u32, nat>,
    hand: Option<nat>,
    received: seq<Frame>,
    ended: bool)

  datatype Act =
    | Start | Insert(k: nat) | Enqueue(k: nat) | Refuse(k: nat) | Complete(k: nat) | Expire(k: nat) | Cleanup(k: nat) | Abandon(k: nat)
    | Recv(frame: Frame) | Deliver | ClearEntry(id: u32) | LoopEnds

  ghost function Initial(): State {
    State(2, [], map[], None, [], false)
  }

  function IdOf(k: nat): u32 {
    (2 + k) % U32
  }

  function Successor(id: u32): u32 {
    (id + 1) % U32
  }

  /** Whether the receiver of a request in this phase still exists. */
  predicate Listening(p: Phase) {
    p.Queued? || p.Waiting?
  }

  ghost predicate Well(s: State) {
    && (forall id | id in s.pending :: s.pending[id] < |s.reqs|)
    && (s.hand.Some? ==> s.hand.value < |s.reqs| && |s.received| > 0)
  }

  ghost function SetPhase(s: State, k: nat, p: Phase): State
    requires k < |s.reqs|
  {
    s.(reqs := s.reqs[k := s.reqs[k].(phase := p)])
  }

  /** The sender of request `k` is dropped. */
  ghost function CloseSlot(s: State, k: nat): State
    requires k < |s.reqs|
  {
    s.(reqs := s.reqs[k := s.reqs[k].(slot := Closed)])
  }

  ghost function RemoveEntry(s: State, id: u32): State
    requires Well(s)
  {
    if id in s.pending then CloseSlot(s, s.pending[id]).(pending := s.pending - {id}) else s
  }

  ghost function InsertEntry(s: State, k: nat): State
    requires Well(s) && k < |s.reqs|
  {
    var id := s.reqs[k].id;
    var cleared := if id in s.pending then CloseSlot(s, s.pending[id]) else s;
    cleared.(pending := s.pending[id := k], reqs := cleared.reqs[k := s.reqs[k].(phase := Queued, since := |s.received|)])
  }

  ghost function Dispatch(s: State, frame: Frame): State {
    var got := s.(received := s.received + [frame]);
    if frame.kind == Message && frame.id > 0 && frame.id in s.pending
    then got.(hand := Some(s.pending[frame.id]), pending := s.pending - {frame.id})
    else got
  }

  ghost function DeliverHand(s: State): State
    requires Well(s) && s.hand.Some?
  {
    var k := s.hand.value;
    var r := s.reqs[k];
    var slot := if Listening(r.phase) then Filled(|s.received| - 1) else Closed;
    s.(hand := None, reqs := s.reqs[k := r.(slot := slot)])
  }

  ghost predicate PhaseIs(s: State, k: nat, p: Phase) {
    k < |s.reqs| && s.reqs[k].phase == p
  }

  /** One atomic step; a step that is not enabled changes nothing. */
  ghost function Next(s: State, act: Act): State
    requires Well(s)
  {
    match act
    case Start => s.(nextId := Successor(s.nextId), reqs := s.reqs + [Request(s.nextId, Allocated, Empty, 0)])
    case Insert(k) => if PhaseIs(s, k, Allocated) then InsertEntry(s, k) else s
    case Enqueue(k) => if PhaseIs(s, k, Queued) then SetPhase(s, k, Waiting) else s
    case Refuse(k) => if PhaseIs(s, k, Queued) && s.ended then SetPhase(s, k, Finished(Refused)) else s
    case Complete(k) =>
      if !PhaseIs(s, k, Waiting) then s
      else (match s.reqs[k].slot
            case Empty => s
            case Filled(f) => SetPhase(s, k, Finished(Answer(f)))
            case Closed => SetPhase(s, k, Failing(Dropped)))
    case Expire(k) => if PhaseIs(s, k, Waiting) then SetPhase(s, k, Failing(TimedOut)) else s
    case Cleanup(k) =>
      if k < |s.reqs| && s.reqs[k].phase.Failing?
      then RemoveEntry(SetPhase(s, k, Finished(Failed(s.reqs[k].phase.why))), s.reqs[k].id)
      else s
    case Abandon(k) => if k < |s.reqs| && Listening(s.reqs[k].phase) then SetPhase(s, k, Finished(Abandoned)) else s
    case Recv(frame) => if s.hand.None? && !s.ended then Dispatch(s, frame) else s
    case Deliver => if s.hand.Some? then DeliverHand(s) else s
    case ClearEntry(id) => if s.hand.None? && !s.ended then RemoveEntry(s, id) else s
    case LoopEnds => if s.hand.None? then s.(ended := true) else s
  }

  // ------------------------------------------------------------------
  // The invariant
  // ------------------------------------------------------------------

  ghost predicate Ids(s: State) {
    s.nextId == IdOf(|s.reqs|) && forall k | 0 <= k < |s.reqs| :: s.reqs[k].id == IdOf(k)
  }

  ghost predicate Answers(s: State, f: nat, r: Request) {
    f < |s.received| && s.received[f].kind == Message && s.received[f].id == r.id && r.id > 0 && r.since <= f
  }

  /** The sender of request `k` is in the map. */
  ghost predicate InMap(s: State, k: nat)
    requires k < |s.reqs|
  {
    s.reqs[k].id in s.pending && s.pending[s.reqs[k].id] == k
  }

  /** A living sender of an inserted request is in exactly one place: its own entry, or the dispatcher's hand. */
  ghost predicate Owned(s: State, k: nat)
    requires k < |s.reqs|
  {
    var r := s.reqs[k];
    if r.phase.Allocated? then r.slot.Empty? && !InMap(s, k) && s.hand != Some(k)
    else if r.slot.Empty? then InMap(s, k) != (s.hand == Some(k))
    else !InMap(s, k) && s.hand != Some(k)
  }

  ghost predicate ReqOk(s: State, k: nat)
    requires k < |s.reqs|
  {
    var r := s.reqs[k];
    && Owned(s, k)
    && r.since <= |s.received|
    && (s.hand == Some(k) ==> |s.received| > 0 && Answers(s, |s.received| - 1, r))
    && (r.slot.Filled? ==> Answers(s, r.slot.frame, r) && (s.hand.Some? ==> r.slot.frame < |s.received| - 1))
    && (r.phase.Finished? && r.phase.outcome.Answer? ==> r.slot == Filled(r.phase.outcome.frame))
    && (r.phase.Finished? && r.phase.outcome.Failed? ==> !InMap(s, k))
  }

  ghost predicate Entries(s: State) {
    forall id | id in s.pending :: s.pending[id] < |s.reqs| && s.reqs[s.pending[id]].id == id
  }

  ghost predicate Distinct(s: State) {
    forall j, k | 0 <= j < k < |s.reqs| && s.reqs[j].slot.Filled? :: s.reqs[j].slot != s.reqs[k].slot
  }

  ghost predicate Inv(s: State) {
    && Well(s) && Ids(s) && Entries(s) && Distinct(s)
    && forall k | 0 <= k < |s.reqs| :: ReqOk(s, k)
  }

  lemma EntryOwner(s: State, id: u32)
    requires Inv(s) && id in s.pending
    ensures InMap(s, s.pending[id]) && s.reqs[s.pending[id]].slot.Empty? && !s.reqs[s.pending[id]].phase.Allocated?
  {
    assert ReqOk(s, s.pending[id]);
  }

  lemma SetPhaseKeeps(s: State, k: nat, p: Phase)
    requires Inv(s) && k < |s.reqs| && !s.reqs[k].phase.Allocated? && !p.Allocated?
    requires p.Finished? && p.outcome.Answer? ==> s.reqs[k].slot == Filled(p.outcome.frame)
    requires p.Finished? && p.outcome.Failed? ==> !InMap(s, k)
    ensures Inv(SetPhase(s, k, p))
  {
    var s' := SetPhase(s, k, p);
    forall j | 0 <= j < |s'.reqs| ensures ReqOk(s', j) {
      assert ReqOk(s, j);
    }
  }

  lemma RemoveEntryKeeps(s: State, id: u32)
    requires Inv(s)
    ensures Inv(RemoveEntry(s, id))
    ensures forall j | 0 <= j < |s.reqs| && s.reqs[j].id == id :: !InMap(RemoveEntry(s, id), j)
  {
    if id in s.pending {
      var s' := RemoveEntry(s, id);
      EntryOwner(s, id);
      forall j | 0 <= j < |s'.reqs| ensures ReqOk(s', j) {
        assert ReqOk(s, j);
      }
    }
  }

  lemma CleanupKeeps(s: State, k: nat)
    requires Inv(s) && k < |s.reqs| && s.reqs[k].phase.Failing?
    ensures Inv(Next(s, Cleanup(k)))
  {
    var id, p := s.reqs[k].id, Finished(Failed(s.reqs[k].phase.why));
    var removed := RemoveEntry(s, id);
    RemoveEntryKeeps(s, id);
    SetPhaseKeeps(removed, k, p);
    assert Next(s, Cleanup(k)).reqs == SetPhase(removed, k, p).reqs;
  }

  /** Inserting a sender whose id is not in the map. */
  lemma InsertNewKeeps(s: State, k: nat)
    requires Inv(s) && PhaseIs(s, k, Allocated) && s.reqs[k].id !in s.pending
    ensures Inv(InsertEntry(s, k))
  {
    var s' := InsertEntry(s, k);
    forall j | 0 <= j < |s'.reqs| ensures ReqOk(s', j) {
      assert ReqOk(s, j);
    }
  }

  lemma InsertKeeps(s: State, k: nat)
    requires Inv(s) && PhaseIs(s, k, Allocated)
    ensures Inv(InsertEntry(s, k))
  {
    var id := s.reqs[k].id;
    var removed := RemoveEntry(s, id);
    RemoveEntryKeeps(s, id);
    assert ReqOk(s, k);
    assert removed.reqs[k] == s.reqs[k];
    InsertNewKeeps(removed, k);
    assert InsertEntry(s, k).pending == InsertEntry(removed, k).pending;
    assert InsertEntry(s, k).reqs == InsertEntry(removed, k).reqs;
  }

  lemma DispatchKeeps(s: State, frame: Frame)
    requires Inv(s) && s.hand.None?
    ensures Inv(Dispatch(s, frame))
  {
    var s' := Dispatch(s, frame);
    forall j | 0 <= j < |s'.reqs| ensures ReqOk(s', j) {
      assert ReqOk(s, j);
    }
  }

  lemma DeliverKeeps(s: State)
    requires Inv(s) && s.hand.Some?
    ensures Inv(DeliverHand(s))
  {
    var s' := DeliverHand(s);
    forall j | 0 <= j < |s'.reqs| ensures ReqOk(s', j) {
      assert ReqOk(s, j);
      assert ReqOk(s, s.hand.value);
    }
    forall j, k | 0 <= j < k < |s'.reqs| && s'.reqs[j].slot.Filled? ensures s'.reqs[j].slot != s'.reqs[k].slot {
      assert ReqOk(s, j) && ReqOk(s, k);
    }
  }

  lemma StartKeeps(s: State)
    requires Inv(s)
    ensures Inv(Next(s, Start))
  {
    var s' := Next(s, Start);
    forall j | 0 <= j < |s'.reqs| ensures ReqOk(s', j) {
      if j < |s.reqs| {
        assert ReqOk(s, j);
      }
    }
  }

  lemma StepKeeps(s: State, act: Act)
    requires Inv(s)
    ensures Inv(Next(s, act))
  {
    match act
    case Start => StartKeeps(s);
    case Insert(k) => if PhaseIs(s, k, Allocated) { InsertKeeps(s, k); }
    case Enqueue(k) => if PhaseIs(s, k, Queued) { SetPhaseKeeps(s, k, Waiting); }
    case Refuse(k) => if PhaseIs(s, k, Queued) && s.ended { SetPhaseKeeps(s, k, Finished(Refused)); }
    case Complete(k) =>
      if PhaseIs(s, k, Waiting) {
        if s.reqs[k].slot.Filled? {
          SetPhaseKeeps(s, k, Finished(Answer(s.reqs[k].slot.frame)));
        } else if s.reqs[k].slot.Closed? {
          SetPhaseKeeps(s, k, Failing(Dropped));
        }
      }
    case Expire(k) => if PhaseIs(s, k, Waiting) { SetPhaseKeeps(s, k, Failing(TimedOut)); }
    case Cleanup(k) => if k < |s.reqs| && s.reqs[k].phase.Failing? { CleanupKeeps(s, k); }
    case Abandon(k) => if k < |s.reqs| && Listening(s.reqs[k].phase) { SetPhaseKeeps(s, k, Finished(Abandoned)); }
    case Recv(frame) => if s.hand.None? && !s.ended { DispatchKeeps(s, frame); }
    case Deliver => if s.hand.Some? { DeliverKeeps(s); }
    case ClearEntry(id) => if s.hand.None? && !s.ended { RemoveEntryKeeps(s, id); }
    case LoopEnds =>
      if s.hand.None? {
        var s' := s.(ended := true);
        forall j | 0 <= j < |s'.reqs| ensures ReqOk(s', j) { assert ReqOk(s, j); }
      }
  }
}

/** What every run of the correlation machine guarantees its callers. */
module CorrelationRuns {
  import opened Basics
  import opened Frames
  import opened Correlation

  /** The state after a run from `s`; any list of actions is a run, and every state on it satisfies the invariant. */
  ghost function Run(s: State, acts: seq<Act>): (r: State)
    requires Inv(s)
    ensures Inv(r)
  {
    if |acts| == 0 then s
    else
      var before := Run(s, acts[..|acts| - 1]);
      StepKeeps(before, acts[|acts| - 1]);
      Next(before, acts[|acts| - 1])
  }

  lemma RunAppend(s: State, acts: seq<Act>, act: Act)
    requires Inv(s)
    ensures Run(s, acts + [act]) == Next(Run(s, acts), act)
  {
    assert (acts + [act])[..|acts|] == acts;
  }

  ghost function After(acts: seq<Act>): (s: State)
    ensures Inv(s)
  {
    Run(Initial(), acts)
  }

  ghost predicate Unfinished(s: State, k: nat)
    requires k < |s.reqs|
  {
    !s.reqs[k].phase.Finished?
  }

  /** A request that returned without removing its entry: its command was refused, or its caller dropped the future. */
  ghost predicate LeftBehind(s: State, k: nat)
    requires k < |s.reqs|
  {
    s.reqs[k].phase == Finished(Refused) || s.reqs[k].phase == Finished(Abandoned)
  }

  /** Two requests share an id exactly when a multiple of 2^32 allocations lies between them. */
  lemma SameIdIff(j: nat, k: nat)
    ensures IdOf(j) == IdOf(k) <==> (j - k) % U32 == 0
  {
  }

  /** No other request's entry is request `k`'s. */
  ghost predicate Alone(s: State, k: nat) {
    && k < |s.reqs| && s.reqs[k].id == IdOf(k)
    && (forall j | 0 <= j < |s.reqs| && j != k :: s.reqs[j].id != IdOf(k))
    && (forall id | id in s.pending && s.pending[id] == k :: id == IdOf(k))
  }

  lemma AloneWhileDistinct(s: State, k: nat)
    requires Inv(s) && k < |s.reqs| <= U32
    ensures Alone(s, k)
  {
    forall j | 0 <= j < |s.reqs| && j != k ensures s.reqs[j].id != IdOf(k) {
      SameIdIff(j, k);
    }
  }

  lemma EntryHolder(s: State, id: u32)
    requires Inv(s) && id in s.pending
    ensures var k := s.pending[id];
            && k < |s.reqs| && s.reqs[k].id == id == IdOf(k) && s.reqs[k].slot.Empty?
            && (Unfinished(s, k) || LeftBehind(s, k))
  {
    assert ReqOk(s, s.pending[id]);
  }

  /**
   Every entry of the pending map belongs to the one request whose sender it holds, which is
   unanswered; while at most 2^32 ids have been taken no other request has its id.
   */
  lemma OneOwner(acts: seq<Act>, id: u32)
    requires id in After(acts).pending
    ensures var s := After(acts); var k := s.pending[id];
            && k < |s.reqs| && s.reqs[k].id == id && s.reqs[k].slot.Empty?
            && (Unfinished(s, k) || LeftBehind(s, k))
            && (|s.reqs| <= U32 ==> forall j | 0 <= j < |s.reqs| && s.reqs[j].id == id :: j == k)
  {
    var s := After(acts);
    EntryHolder(s, id);
    if |s.reqs| <= U32 {
      AloneWhileDistinct(s, s.pending[id]);
    }
  }

  /** A request that awaits an answer which has neither come nor been ruled out can still be answered: its sender is in the map or in the dispatcher's hand, not both. */
  lemma StillAnswerable(acts: seq<Act>, k: nat)
    requires k < |After(acts).reqs|
    ensures var s := After(acts);
            Listening(s.reqs[k].phase) && s.reqs[k].slot.Empty? ==> InMap(s, k) != (s.hand == Some(k))
  {
    assert ReqOk(After(acts), k);
  }

  /** An answered request got the data of a Message frame with its own id, received after it was inserted. */
  lemma AnswerIsOwn(acts: seq<Act>, k: nat, f: nat)
    requires PhaseIs(After(acts), k, Finished(Answer(f)))
    ensures var s := After(acts);
            && f < |s.received| && s.received[f].kind == Message
            && s.received[f].id == s.reqs[k].id == IdOf(k) && IdOf(k) > 0
            && s.reqs[k].since <= f
  {
    assert ReqOk(After(acts), k);
  }

  /** No frame answers two requests. */
  lemma AnswersDistinct(acts: seq<Act>, j: nat, k: nat, f: nat)
    requires PhaseIs(After(acts), j, Finished(Answer(f))) && PhaseIs(After(acts), k, Finished(Answer(f)))
    ensures j == k
  {
    assert ReqOk(After(acts), j) && ReqOk(After(acts), k);
  }

  lemma StepFinished(s: State, k: nat, act: Act)
    requires Well(s) && k < |s.reqs| && s.reqs[k].phase.Finished?
    ensures k < |Next(s, act).reqs| && Next(s, act).reqs[k].phase == s.reqs[k].phase
  {
  }

  /** A request finishes at most once: whatever happens next, its outcome stands. */
  lemma {:induction false} FinishOnce(s: State, k: nat, acts: seq<Act>)
    requires Inv(s) && k < |s.reqs| && s.reqs[k].phase.Finished?
    ensures k < |Run(s, acts).reqs| && Run(s, acts).reqs[k].phase == s.reqs[k].phase
  {
    if |acts| > 0 {
      FinishOnce(s, k, acts[..|acts| - 1]);
      StepFinished(Run(s, acts[..|acts| - 1]), k, acts[|acts| - 1]);
    }
  }

  lemma StepClosed(s: State, k: nat, act: Act)
    requires Well(s) && k < |s.reqs| && s.reqs[k].slot.Closed? && s.hand != Some(k)
    ensures k < |Next(s, act).reqs| && Next(s, act).reqs[k].slot.Closed?
  {
  }

  /** A closed channel stays closed. */
  lemma {:induction false} ClosedStays(s: State, k: nat, acts: seq<Act>)
    requires Inv(s) && k < |s.reqs| && s.reqs[k].slot.Closed?
    ensures k < |Run(s, acts).reqs| && Run(s, acts).reqs[k].slot.Closed?
  {
    if |acts| > 0 {
      ClosedStays(s, k, acts[..|acts| - 1]);
      var before := Run(s, acts[..|acts| - 1]);
      assert ReqOk(before, k);
      StepClosed(before, k, acts[|acts| - 1]);
    }
  }

  /**
   A request cleared by a disconnect is never completed by a later connection: after its entry is
   cleared no run answers it, whatever frames arrive and whichever ids are taken again.
   */
  lemma ClearedNeverAnswered(before: seq<Act>, id: u32, after: seq<Act>)
    requires var s := After(before); id in s.pending && s.hand.None? && !s.ended
    ensures var s := After(before); var k := s.pending[id];
            var r := Run(After(before + [ClearEntry(id)]), after);
            k < |r.reqs| && !(r.reqs[k].phase.Finished? && r.reqs[k].phase.outcome.Answer?)
  {
    var s := After(before);
    assert (before + [ClearEntry(id)])[..|before|] == before;
    var cleared := After(before + [ClearEntry(id)]);
    EntryOwner(s, id);
    ClosedStays(cleared, s.pending[id], after);
    assert ReqOk(Run(cleared, after), s.pending[id]);
  }

  lemma RunThree(s: State, a: Act, b: Act, c: Act)
    requires Inv(s) && Inv(Next(s, a)) && Inv(Next(Next(s, a), b))
    ensures Run(s, [a, b, c]) == Next(Next(Next(s, a), b), c)
  {
    assert [a] == [] + [a] && [a, b] == [a] + [b] && [a, b, c] == [a, b] + [c];
    RunAppend(s, [], a);
    RunAppend(s, [a], b);
    RunAppend(s, [a, b], c);
  }

  lemma Delivered(s: State, frame: Frame)
    requires Well(s) && frame.kind == Message && frame.id > 0 && frame.id in s.pending
    requires s.reqs[s.pending[frame.id]].phase == Waiting
    ensures DeliverHand(Dispatch(s, frame)).reqs[s.pending[frame.id]].slot == Filled(|s.received|)
    ensures PhaseIs(DeliverHand(Dispatch(s, frame)), s.pending[frame.id], Waiting)
  {
  }

  /** A frame for a waiting request, once dispatched, is its answer, unless its wait expires first. */
  lemma AnswerArrives(acts: seq<Act>, frame: Frame)
    requires var s := After(acts);
             && frame.kind == Message && frame.id > 0 && frame.id in s.pending
             && s.hand.None? && !s.ended && s.reqs[s.pending[frame.id]].phase == Waiting
    ensures var s := After(acts);
            PhaseIs(Run(s, [Recv(frame), Deliver, Complete(s.pending[frame.id])]), s.pending[frame.id], Finished(Answer(|s.received|)))
  {
    var s := After(acts);
    DispatchKeeps(s, frame);
    DeliverKeeps(Dispatch(s, frame));
    RunThree(s, Recv(frame), Deliver, Complete(s.pending[frame.id]));
    Delivered(s, frame);
  }

  // ------------------------------------------------------------------
  // The other ends of a request
  // ------------------------------------------------------------------

  lemma RunTwo(s: State, a: Act, b: Act)
    requires Inv(s) && Inv(Next(s, a))
    ensures Run(s, [a, b]) == Next(Next(s, a), b)
  {
    assert [a] == [] + [a] && [a, b] == [a] + [b];
    RunAppend(s, [], a);
    RunAppend(s, [a], b);
  }

  lemma CleanedUp(s: State, k: nat, why: Failure)
    requires Inv(s) && PhaseIs(s, k, Failing(why))
    ensures PhaseIs(Next(s, Cleanup(k)), k, Finished(Failed(why))) && s.reqs[k].id !in Next(s, Cleanup(k)).pending
  {
  }

  /** A wait that runs out ends as timed out, and its id is no longer in the map. */
  lemma TimesOut(acts: seq<Act>, k: nat)
    requires PhaseIs(After(acts), k, Waiting)
    ensures var t := Run(After(acts), [Expire(k), Cleanup(k)]);
            PhaseIs(t, k, Finished(Failed(TimedOut))) && IdOf(k) !in t.pending
  {
    var s := After(acts);
    StepKeeps(s, Expire(k));
    RunTwo(s, Expire(k), Cleanup(k));
    CleanedUp(Next(s, Expire(k)), k, TimedOut);
  }

  /** A wait whose sender is gone ends as dropped, and its id is no longer in the map. */
  lemma FindsDropped(acts: seq<Act>, k: nat)
    requires PhaseIs(After(acts), k, Waiting) && After(acts).reqs[k].slot == Closed
    ensures var t := Run(After(acts), [Complete(k), Cleanup(k)]);
            PhaseIs(t, k, Finished(Failed(Dropped))) && IdOf(k) !in t.pending
  {
    var s := After(acts);
    StepKeeps(s, Complete(k));
    RunTwo(s, Complete(k), Cleanup(k));
    CleanedUp(Next(s, Complete(k)), k, Dropped);
  }

  /** A command that cannot be queued because the loop has ended refuses its request, and leaves its entry behind. */
  lemma RefusedOnceEnded(acts: seq<Act>, k: nat)
    requires PhaseIs(After(acts), k, Queued)
    ensures var s, t := After(acts), Next(After(acts), Refuse(k));
            && (if s.ended then PhaseIs(t, k, Finished(Refused)) else t == s)
            && t.pending == s.pending
  {
  }

  lemma GivesUp(s: State, k: nat)
    requires Inv(s) && k < |s.reqs| && Listening(s.reqs[k].phase)
    ensures Inv(Next(s, Abandon(k))) && Next(s, Abandon(k)) == SetPhase(s, k, Finished(Abandoned))
  {
    StepKeeps(s, Abandon(k));
  }

  /** A dispatched frame whose caller has given up fills no slot. */
  lemma UnheardFrame(s: State, frame: Frame)
    requires Inv(s) && s.hand.None? && !s.ended && frame.kind == Message && frame.id > 0 && frame.id in s.pending
    requires s.reqs[s.pending[frame.id]].phase == Finished(Abandoned)
    ensures Inv(Next(s, Recv(frame)))
    ensures var k, d := s.pending[frame.id], Next(Next(s, Recv(frame)), Deliver);
            frame.id !in d.pending && d.reqs == s.reqs[k := s.reqs[k].(slot := Closed)]
  {
    DispatchKeeps(s, frame);
  }

  /** A caller that gives up leaves its entry behind; a frame for it is then no answer to anyone. */
  lemma GivenUp(acts: seq<Act>, frame: Frame)
    requires var s := After(acts);
             frame.kind == Message && frame.id > 0 && frame.id in s.pending && s.hand.None? && !s.ended
             && Listening(s.reqs[s.pending[frame.id]].phase)
    ensures var k := After(acts).pending[frame.id];
            var t := Run(After(acts), [Abandon(k), Recv(frame), Deliver]);
            PhaseIs(t, k, Finished(Abandoned)) && frame.id !in t.pending
            && forall j | 0 <= j < |t.reqs| :: t.reqs[j].slot.Filled? ==> j < |After(acts).reqs| && After(acts).reqs[j].slot == t.reqs[j].slot
  {
    var s := After(acts);
    var k := s.pending[frame.id];
    var given := Next(s, Abandon(k));
    GivesUp(s, k);
    UnheardFrame(given, frame);
    RunThree(s, Abandon(k), Recv(frame), Deliver);
  }

  // ------------------------------------------------------------------
  // Ids taken again
  // ------------------------------------------------------------------

  ghost predicate NotDropped(r: Request) {
    && r.phase != Failing(Dropped) && r.phase != Finished(Failed(Dropped))
    && (r.slot.Closed? ==> r.phase.Failing? || r.phase.Finished?)
  }

  lemma StepNotDropped(s: State, k: nat, act: Act)
    requires Well(s) && Alone(s, k) && NotDropped(s.reqs[k]) && act != ClearEntry(IdOf(k))
    requires s.reqs[k].phase.Allocated? ==> s.reqs[k].slot.Empty? && IdOf(k) !in s.pending && s.hand != Some(k)
    ensures k < |Next(s, act).reqs| && NotDropped(Next(s, act).reqs[k])
  {
    match act
    case Insert(j) => InsertNotDropped(s, k, j);
    case Cleanup(j) => CleanupNotDropped(s, k, j);
    case ClearEntry(id) => assert id in s.pending ==> s.pending[id] != k;
    case _ =>
  }

  lemma InsertNotDropped(s: State, k: nat, j: nat)
    requires Well(s) && Alone(s, k) && NotDropped(s.reqs[k])
    requires s.reqs[k].phase.Allocated? ==> s.reqs[k].slot.Empty? && IdOf(k) !in s.pending && s.hand != Some(k)
    ensures NotDropped(Next(s, Insert(j)).reqs[k])
  {
  }

  lemma CleanupNotDropped(s: State, k: nat, j: nat)
    requires Well(s) && Alone(s, k) && NotDropped(s.reqs[k])
    ensures NotDropped(Next(s, Cleanup(j)).reqs[k])
  {
  }

  /**
   While at most 2^32 ids have been taken, only a clear drops a request: one whose entry no clear
   has removed never fails for want of its sender, whatever the other callers do.
   */
  lemma {:induction false} OnlyClearsDrop(acts: seq<Act>, k: nat)
    requires k < |After(acts).reqs| <= U32 && ClearEntry(IdOf(k)) !in acts
    ensures NotDropped(After(acts).reqs[k])
  {
    if |acts| > 0 {
      var before, act := After(acts[..|acts| - 1]), acts[|acts| - 1];
      if k < |before.reqs| {
        StepGrows(before, act);
        OnlyClearsDrop(acts[..|acts| - 1], k);
        AloneWhileDistinct(before, k);
        AllocatedUnused(before, k);
        StepNotDropped(before, k, act);
      } else {
        StepNew(before, k, act);
      }
    }
  }

  lemma StepGrows(s: State, act: Act)
    requires Well(s)
    ensures |s.reqs| <= |Next(s, act).reqs|
  {
  }

  lemma StepNew(s: State, k: nat, act: Act)
    requires Well(s) && |s.reqs| <= k < |Next(s, act).reqs|
    ensures NotDropped(Next(s, act).reqs[k])
  {
  }

  lemma AllocatedUnused(s: State, k: nat)
    requires Inv(s) && Alone(s, k)
    ensures s.reqs[k].phase.Allocated? ==> s.reqs[k].slot.Empty? && IdOf(k) !in s.pending && s.hand != Some(k)
  {
    assert ReqOk(s, k);
  }

  lemma {:induction false} StartsOnly(n: nat)
    ensures var s := After(Copies(Start, n));
            && |s.reqs| == n && s.pending == map[] && s.hand.None?
            && forall k | 0 <= k < n :: s.reqs[k].phase == Allocated
  {
    if n > 0 {
      StartsOnly(n - 1);
      assert Copies(Start, n)[..n - 1] == Copies(Start, n - 1);
    }
  }

  lemma FirstComes(s: State, j: nat)
    requires Well(s) && PhaseIs(s, j, Allocated) && s.pending == map[]
    ensures Well(Next(s, Insert(j)))
    ensures var w := Next(Next(s, Insert(j)), Enqueue(j));
            && PhaseIs(w, j, Waiting) && w.pending == map[s.reqs[j].id := j] && |w.reqs| == |s.reqs|
            && forall k | 0 <= k < |s.reqs| && k != j :: w.reqs[k] == s.reqs[k]
  {
  }

  /** A newcomer with the id of a waiting request. */
  lemma Usurp(w: State, j: nat, k: nat)
    requires Well(w) && j < k && PhaseIs(w, j, Waiting) && PhaseIs(w, k, Allocated)
    requires w.reqs[k].id in w.pending && w.pending[w.reqs[k].id] == j
    ensures var u := Next(w, Insert(k));
            |u.reqs| == |w.reqs| && u.reqs[j] == w.reqs[j].(slot := Closed)
  {
  }

  /** Request 0 waits, alone in the map, when request 2^32 takes its id. */
  lemma AllIdsTaken(acts: seq<Act>)
    requires acts == Copies(Start, U32 + 1) + [Insert(0)] + [Enqueue(0)]
    ensures var w := After(acts);
            && |w.reqs| == U32 + 1 && w.pending == map[2 := 0]
            && PhaseIs(w, 0, Waiting) && PhaseIs(w, U32, Allocated) && w.reqs[U32].id == 2
  {
    var starts := Copies(Start, U32 + 1);
    StartsOnly(U32 + 1);
    RunAppend(Initial(), starts, Insert(0));
    RunAppend(Initial(), starts + [Insert(0)], Enqueue(0));
    SameIdIff(0, U32);
    FirstComes(After(starts), 0);
  }

  lemma FindsClosed(s: State, k: nat)
    requires Well(s) && PhaseIs(s, k, Waiting) && s.reqs[k].slot == Closed
    ensures |Next(s, Complete(k)).reqs| == |s.reqs| && PhaseIs(Next(s, Complete(k)), k, Failing(Dropped))
  {
  }

  /** With every id taken, the next request drops the first. */
  lemma NewcomerDrops(acts: seq<Act>)
    requires acts == Copies(Start, U32 + 1) + [Insert(0)] + [Enqueue(0)] + [Insert(U32)]
    ensures |After(acts).reqs| == U32 + 1 && PhaseIs(After(acts), 0, Waiting) && After(acts).reqs[0].slot == Closed
  {
    var a2 := Copies(Start, U32 + 1) + [Insert(0)] + [Enqueue(0)];
    AllIdsTaken(a2);
    Usurp(After(a2), 0, U32);
    RunAppend(Initial(), a2, Insert(U32));
  }

  /** One id more, and a newcomer drops a request that was waiting with the same id, with no disconnect at all. */
  lemma ReuseDrops()
    ensures var acts := Copies(Start, U32 + 1) + [Insert(0)] + [Enqueue(0)] + [Insert(U32)] + [Complete(0)];
            |After(acts).reqs| == U32 + 1 && PhaseIs(After(acts), 0, Failing(Dropped))
  {
    var a3 := Copies(Start, U32 + 1) + [Insert(0)] + [Enqueue(0)] + [Insert(U32)];
    NewcomerDrops(a3);
    FindsClosed(After(a3), 0);
    RunAppend(Initial(), a3, Complete(0));
  }

  /** A request that is given id 0 is never answered, since a Message frame with id 0 is an event. */
  lemma IdZeroUnanswered(acts: seq<Act>, k: nat, f: nat)
    requires k % U32 == U32 - 2
    ensures !PhaseIs(After(acts), k, Finished(Answer(f)))
  {
    if PhaseIs(After(acts), k, Finished(Answer(f))) {
      AnswerIsOwn(acts, k, f);
    }
  }
}

/** The client's fields that `request` and `dispatch_frame` update, and their updates. */
module Correlator {
  import opened Basics
  import opened Scheduler
  import opened Frames
  import opened Correlation
  import opened CorrelationRuns

  /** What `dispatch_frame` does besides answering a request. */
  datatype Effect = NoEffect | ToHandler(data: Bytes) | TrySend(frame: Frame, priority: MessagePriority)

  class Client {
    var nextId: u32
    var reqs: seq<Request>
    var pending: map<u32, nat>
    var received: seq<Frame>
    ghost var ended: bool

    /** The dispatcher holds no sender between two frames. */
    ghost function View(): State
      reads this
    {
      State(nextId, reqs, pending, None, received, ended)
    }

    constructor ()
      ensures View() == Initial()
    {
      nextId := 2;
      reqs := [];
      pending := map[];
      received := [];
      ended := false;
    }

    /** The id counter is read and bumped in one atomic step, and wraps. */
    method TakeId() returns (k: nat)
      requires Inv(View())
      modifies this
      ensures View() == Next(old(View()), Start) && Inv(View())
      ensures k == |old(reqs)| && reqs[k].id == IdOf(k)
    {
      StepKeeps(View(), Start);
      k := |reqs|;
      reqs := reqs + [Request(nextId, Allocated, Empty, 0)];
      nextId := if nextId == 0xFFFF_FFFF then 0 else nextId + 1;
    }

    /** Inserting a sender drops the one the map held under the same id. */
    method Insert(k: nat)
      requires Inv(View()) && PhaseIs(View(), k, Allocated)
      modifies this
      ensures View() == Next(old(View()), Act.Insert(k)) && Inv(View())
    {
      StepKeeps(View(), Act.Insert(k));
      assert ReqOk(View(), k);
      var r := reqs[k];
      if r.id in pending {
        reqs := reqs[pending[r.id] := reqs[pending[r.id]].(slot := Closed)];
      }
      pending := pending[r.id := k];
      reqs := reqs[k := r.(phase := Queued, since := |received|)];
    }

    /**
     A received frame: a Message with a non-zero id answers the request whose sender the map holds,
     if any, and the entry is removed; any other Message or Event goes to the handler, a Ping queues
     a Pong in the first class, and a Pong does nothing.
     */
    method DispatchFrame(frame: Frame) returns (effect: Effect)
      requires Inv(View()) && !ended
      modifies this
      ensures View() == AfterDispatch(old(View()), frame) && Inv(View())
      ensures effect == match frame.kind
                        case Message => if frame.id > 0 then NoEffect else ToHandler(frame.data)
                        case Event => ToHandler(frame.data)
                        case Pong => NoEffect
                        case Ping => TrySend(Frame(0, Pong, []), RealTime)
    {
      DispatchSteps(View(), frame);
      received := received + [frame];
      effect := NoEffect;
      if frame.kind == Message && frame.id > 0 {
        if frame.id in pending {
          var k := pending[frame.id];
          pending := pending - {frame.id};
          reqs := reqs[k := reqs[k].(slot := if Listening(reqs[k].phase) then Filled(|received| - 1) else Closed)];
        }
      } else if frame.kind == Message || frame.kind == Event {
        effect := ToHandler(frame.data);
      } else if frame.kind == Ping {
        effect := TrySend(PONG, RealTime);
      }
    }

    method RemoveOne(id: u32)
      requires Well(View()) && id in pending
      modifies this
      ensures View() == RemoveEntry(old(View()), id)
    {
      reqs := reqs[pending[id] := reqs[pending[id]].(slot := Closed)];
      pending := pending - {id};
    }

    /** The disconnect: entries are removed one at a time until none is left, and exactly the senders the map held are dropped. */
    method ClearAll() returns (ghost acts: seq<Act>)
      requires Inv(View()) && !ended
      modifies this
      ensures pending == map[] && Inv(View())
      ensures |reqs| == |old(reqs)|
      ensures forall k | 0 <= k < |reqs| ::
                reqs[k] == if InMap(old(View()), k) then old(reqs)[k].(slot := Closed) else old(reqs)[k]
      ensures View() == Run(old(View()), acts) && forall act | act in acts :: act.ClearEntry?
    {
      acts := [];
      while pending != map[]
        invariant ClearRun(old(View()), acts, View())
        decreases pending
      {
        var id :| id in pending;
        ClearOne(old(View()), acts, View(), id);
        acts := acts + [ClearEntry(id)];
        RemoveOne(id);
      }
      NoneLeft(old(View()), View());
    }

    /** A caller whose wait failed removes its entry and returns the failure. */
    method ReturnFailure(k: nat) returns (why: Failure)
      requires Inv(View()) && k < |reqs| && reqs[k].phase.Failing?
      modifies this
      ensures View() == Next(old(View()), Cleanup(k)) && Inv(View())
      ensures why == old(reqs)[k].phase.why && reqs[k].phase == Finished(Failed(why))
      ensures reqs[k].id !in pending
    {
      StepKeeps(View(), Cleanup(k));
      why := reqs[k].phase.why;
      var id := reqs[k].id;
      reqs := reqs[k := reqs[k].(phase := Finished(Failed(why)))];
      if id in pending {
        reqs := reqs[pending[id] := reqs[pending[id]].(slot := Closed)];
        pending := pending - {id};
      }
    }
  }

  /** Some entries of `s` have been removed in `t`, their senders dropped, and nothing else has changed in the requests. */
  ghost predicate PartlyCleared(s: State, t: State) {
    && |t.reqs| == |s.reqs|
    && (forall k | 0 <= k < |s.reqs| :: InMap(t, k) ==> InMap(s, k))
    && (forall k | 0 <= k < |s.reqs| ::
          t.reqs[k] == if InMap(s, k) && !InMap(t, k) then s.reqs[k].(slot := Closed) else s.reqs[k])
  }

  ghost predicate ClearRun(s: State, acts: seq<Act>, t: State) {
    && Inv(s) && t == Run(s, acts) && (forall act | act in acts :: act.ClearEntry?)
    && t.hand.None? && !t.ended && PartlyCleared(s, t)
  }

  lemma PartlyClearedStep(s: State, t: State, id: u32)
    requires Well(t) && Entries(t) && id in t.pending && PartlyCleared(s, t)
    ensures PartlyCleared(s, RemoveEntry(t, id))
  {
    var u := RemoveEntry(t, id);
    forall k | 0 <= k < |s.reqs|
      ensures InMap(u, k) <==> InMap(t, k) && k != t.pending[id]
      ensures u.reqs[k] == if k == t.pending[id] then t.reqs[k].(slot := Closed) else t.reqs[k]
    {
    }
  }

  lemma ClearIsRemove(t: State, id: u32)
    requires Well(t) && t.hand.None? && !t.ended
    ensures Next(t, ClearEntry(id)) == RemoveEntry(t, id)
    ensures RemoveEntry(t, id).hand.None? && !RemoveEntry(t, id).ended
  {
  }

  lemma AllClears(acts: seq<Act>, id: u32)
    requires forall act | act in acts :: act.ClearEntry?
    ensures forall act | act in acts + [ClearEntry(id)] :: act.ClearEntry?
  {
  }

  lemma ClearOne(s: State, acts: seq<Act>, t: State, id: u32)
    requires ClearRun(s, acts, t) && id in t.pending
    ensures Inv(t) && ClearRun(s, acts + [ClearEntry(id)], RemoveEntry(t, id))
  {
    PartlyClearedStep(s, t, id);
    ClearIsRemove(t, id);
    AllClears(acts, id);
    RunAppend(s, acts, ClearEntry(id));
  }

  lemma NoneLeft(s: State, t: State)
    requires PartlyCleared(s, t) && t.pending == map[]
    ensures |t.reqs| == |s.reqs|
    ensures forall k | 0 <= k < |s.reqs| :: t.reqs[k] == if InMap(s, k) then s.reqs[k].(slot := Closed) else s.reqs[k]
  {
    forall k | 0 <= k < |s.reqs| ensures !InMap(t, k) {
    }
  }

  /** The dispatcher takes the sender out of the map and uses it at once. */
  ghost function AfterDispatch(s: State, frame: Frame): State
    requires Inv(s)
  {
    StepKeeps(s, Recv(frame));
    Next(Next(s, Recv(frame)), Deliver)
  }

  lemma DispatchSteps(s: State, frame: Frame)
    requires Inv(s) && s.hand.None? && !s.ended
    ensures Inv(AfterDispatch(s, frame))
    ensures var k := if frame.id in s.pending then s.pending[frame.id] else 0;
            AfterDispatch(s, frame) ==
              if frame.kind == Message && frame.id > 0 && frame.id in s.pending
              then s.(received := s.received + [frame], pending := s.pending - {frame.id},
                      reqs := s.reqs[k := s.reqs[k].(slot := if Listening(s.reqs[k].phase) then Filled(|s.received|) else Closed)])
              else s.(received := s.received + [frame])
  {
    DispatchKeeps(s, frame);
    StepKeeps(Dispatch(s, frame), Deliver);
  }
}
