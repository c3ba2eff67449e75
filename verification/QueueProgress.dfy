/**
 * From wherever a message is, one idle worker can bring it to an end: a schedule of that worker
 * alone recovers its lock if there is one, takes it up, and cancels it or writes its outcome.
 */
module QueueProgress {
  import opened Basics
  import opened OutboundRow
  import opened QueueMachine
  import opened QueueInvariants
  import opened QueueRuns
  import opened QueueSteps
  import opened QueueGuarantees

  // ----- taking a message up

  function Moved(s: State, w: Id, phase: Phase, id: Id, op: RowOp): State
    requires id in s.rows
  {
    s.(rows := s.rows[id := Effect(s.rows[id], op)], trace := s.trace + [Wrote(id, op)], workers := s.workers[w := phase])
  }

  /** An idle worker takes up a pending message: it ends up having acquired and about to load it. */
  function TakeUp(w: Id, id: Id, companyId: Id, now: int): seq<Action> {
    [StartCron(w, now, None), SelectBatch(w, Some([Target(id, companyId)]))] + [AcquireNext(w, now, Answered)]
  }

  lemma TakesUp(s: State, w: Id, id: Id, now: int)
    requires PhaseOf(s, w) == Idle && id in s.rows && Guard(s.rows[id], Acquire(w, now))
    ensures var row := s.rows[id];
      Run(s, TakeUp(w, id, row.draft.companyId, now))
        == Moved(s, w, Holding(Held(id, row.draft.companyId, row.attempts + 1, |s.trace|), Loading, []), id, Acquire(w, now))
  {
    hide Run, Step, Effect, Guard;
    var target := Target(id, s.rows[id].draft.companyId);
    var s2 := Enter(Enter(s, w, Selecting), w, Looping([target]));
    ReachesLoop(s, w, now, target);
    RunSnoc(s, [StartCron(w, now, None), SelectBatch(w, Some([target]))], AcquireNext(w, now, Answered));
    AcquiresHead(s2, w, now, target);
    EnterThrice(s, w, Selecting, Looping([target]),
                Holding(Held(id, target.companyId, s.rows[id].attempts + 1, |s.trace|), Loading, []));
  }

  lemma ReachesLoop(s: State, w: Id, now: int, target: Target)
    requires PhaseOf(s, w) == Idle
    ensures Run(s, [StartCron(w, now, None), SelectBatch(w, Some([target]))])
         == Enter(Enter(s, w, Selecting), w, Looping([target]))
  {
    hide Run;
    TwoSteps(s, StartCron(w, now, None), SelectBatch(w, Some([target])));
  }

  lemma EnterThrice(s: State, w: Id, a: Phase, b: Phase, d: Phase)
    ensures s.workers[w := a][w := b][w := d] == s.workers[w := d]
  {
  }

  lemma AcquiresHead(s: State, w: Id, now: int, target: Target)
    requires PhaseOf(s, w) == Looping([target]) && Matches(s, target.id, target.companyId, Acquire(w, now))
    ensures Step(s, AcquireNext(w, now, Answered))
         == Moved(s, w, Holding(Held(target.id, target.companyId, s.rows[target.id].attempts + 1, |s.trace|), Loading, []),
                  target.id, Acquire(w, now))
  {
    assert [target][1..] == [];
    assert s.logs + [] == s.logs;
  }

  // ----- recovering a lock

  function RecoverLocks(w: Id, target: Target, now: int): seq<Action> {
    [StartCron(w, now, Some([target])), RecoverNext(w, Answered)] + [RecoverNext(w, Answered), SelectBatch(w, None)]
  }

  /** Once the lock has timed out, any idle worker gives the message back, and is idle again. */
  lemma Recovers(s: State, w: Id, id: Id, now: int)
    requires PhaseOf(s, w) == Idle && id in s.rows && Guard(s.rows[id], RecoverLock(now - LOCK_TIMEOUT_MS, now))
    ensures Run(s, RecoverLocks(w, Target(id, s.rows[id].draft.companyId), now))
         == Moved(s, w, Idle, id, RecoverLock(now - LOCK_TIMEOUT_MS, now))
  {
    hide Run, Step, Effect, Guard;
    var target := Target(id, s.rows[id].draft.companyId);
    var op := RecoverLock(now - LOCK_TIMEOUT_MS, now);
    var s1 := Enter(s, w, Recovering(now - LOCK_TIMEOUT_MS, now, [target]));
    var s2 := Moved(s1, w, Recovering(now - LOCK_TIMEOUT_MS, now, []), id, op);
    RunAppend(s, [StartCron(w, now, Some([target])), RecoverNext(w, Answered)], [RecoverNext(w, Answered), SelectBatch(w, None)]);
    TwoSteps(s, StartCron(w, now, Some([target])), RecoverNext(w, Answered));
    StartsRecovery(s, w, now, target);
    RecoversHead(s1, w, now, target);
    TwoSteps(s2, RecoverNext(w, Answered), SelectBatch(w, None));
    EndsRecovery(s2, w, now);
    assert Enter(Enter(s2, w, Selecting), w, Idle) == Moved(s, w, Idle, id, op);
  }

  lemma StartsRecovery(s: State, w: Id, now: int, target: Target)
    requires PhaseOf(s, w) == Idle
    ensures Step(s, StartCron(w, now, Some([target]))) == Enter(s, w, Recovering(now - LOCK_TIMEOUT_MS, now, [target]))
  {
  }

  lemma RecoversHead(s: State, w: Id, now: int, target: Target)
    requires PhaseOf(s, w) == Recovering(now - LOCK_TIMEOUT_MS, now, [target])
    requires Matches(s, target.id, target.companyId, RecoverLock(now - LOCK_TIMEOUT_MS, now))
    ensures Step(s, RecoverNext(w, Answered))
         == Moved(s, w, Recovering(now - LOCK_TIMEOUT_MS, now, []), target.id, RecoverLock(now - LOCK_TIMEOUT_MS, now))
  {
    assert [target][1..] == [];
    assert s.logs + [] == s.logs;
  }

  lemma EndsRecovery(s: State, w: Id, now: int)
    requires PhaseOf(s, w) == Recovering(now - LOCK_TIMEOUT_MS, now, [])
    ensures Step(Step(s, RecoverNext(w, Answered)), SelectBatch(w, None)) == Enter(Enter(s, w, Selecting), w, Idle)
  {
  }

  // ----- from the acquisition to the end

  const REFUSED := Refused("UNEXPECTED_PROVIDER_ERROR", false)

  function Finish(w: Id): seq<Action> {
    [LoadMessage(w, true), ReadCompany(w, true)] + [ReadCustomer(w, true), WriteCancel(w, Answered)]
    + [CallProvider(w, NotSent, REFUSED), WriteOutcome(w, 0, Answered)]
  }

  /** The worker holds the message at one of the stages, with the lock still its own. */
  predicate HoldsAt(s: State, w: Id, id: Id, stages: Stage -> bool) {
    match PhaseOf(s, w)
    case Holding(held, stage, _) =>
      && held.id == id && id in s.rows && s.rows[id].draft.companyId == held.companyId && IsLockedBy(s.rows[id], w)
      && stages(stage)
    case _ => false
  }

  predicate Ended(s: State, w: Id, id: Id) {
    id in s.rows && s.rows[id].status.IsTerminal() && PhaseOf(s, w).Looping?
  }

  predicate ToBeLoaded(stage: Stage) { stage.Loading? }

  predicate FirstRead(stage: Stage) {
    stage.Sending? || stage.ReadingCompany?
  }

  predicate SecondRead(stage: Stage) {
    stage.Sending? || stage.Cancelling? || (stage.ReadingCustomer? && stage.message.customerId.Some?)
  }

  predicate Checked(stage: Stage) { stage.Sending? || stage.Cancelling? }

  predicate ToBeSent(stage: Stage) { stage.Sending? }

  predicate RefusedForGood(stage: Stage) {
    stage.Settling? && stage.answer.Refused? && !stage.answer.retryable
  }

  lemma LoadingGoesOn(s: State, w: Id, id: Id)
    requires HoldsAt(s, w, id, ToBeLoaded)
    ensures var t := LoadMessageStep(s, w, true); HoldsAt(t, w, id, FirstRead) && t.trace == s.trace
  {
  }

  lemma CompanyGoesOn(s: State, w: Id, id: Id)
    requires HoldsAt(s, w, id, FirstRead) && WorkerOk(s, w)
    ensures var t := ReadCompanyStep(s, w, true); HoldsAt(t, w, id, SecondRead) && t.trace == s.trace
  {
    hide HeldOk, ClearedSince, Update;
  }

  lemma CustomerGoesOn(s: State, w: Id, id: Id)
    requires HoldsAt(s, w, id, SecondRead)
    ensures var t := ReadCustomerStep(s, w, true); HoldsAt(t, w, id, Checked) && t.trace == s.trace
  {
    hide CustomerFound;
  }

  /** No lock was recovered and no message released after an error. */
  predicate NoFaults(before: seq<Event>, after: seq<Event>, id: Id) {
    FaultsOf(TallyOf(after, id)) == FaultsOf(TallyOf(before, id))
  }

  lemma CancellationEnds(s: State, w: Id, id: Id)
    requires HoldsAt(s, w, id, Checked)
    ensures var t := WriteCancelStep(s, w, Answered);
      (HoldsAt(t, w, id, ToBeSent) || Ended(t, w, id)) && NoFaults(s.trace, t.trace, id)
  {
    if PhaseOf(s, w).stage.Cancelling? { TallySnoc(s.trace, Wrote(id, Cancel(w, PhaseOf(s, w).stage.code)), id); }
  }

  lemma CallGoesOn(s: State, w: Id, id: Id)
    requires HoldsAt(s, w, id, ToBeSent) || Ended(s, w, id)
    ensures var t := CallProviderStep(s, w, NotSent, REFUSED);
      (HoldsAt(t, w, id, RefusedForGood) || Ended(t, w, id)) && t.trace == s.trace
  {
  }

  lemma OutcomeEnds(s: State, w: Id, id: Id)
    requires HoldsAt(s, w, id, RefusedForGood) || Ended(s, w, id)
    ensures var t := WriteOutcomeStep(s, w, 0, Answered); Ended(t, w, id) && NoFaults(s.trace, t.trace, id)
  {
    hide TallyOf, LogsFor;
    if PhaseOf(s, w).Holding? {
      var Holding(held, Settling(message, answer), _) := PhaseOf(s, w);
      TallySnoc(s.trace, Wrote(id, OutcomeOp(w, message, answer, 0)), id);
    }
  }

  lemma ChecksGoOn(s: State, w: Id, id: Id)
    requires Inv(s) && HoldsAt(s, w, id, ToBeLoaded)
    ensures var t := Step(Step(Step(s, LoadMessage(w, true)), ReadCompany(w, true)), ReadCustomer(w, true));
      HoldsAt(t, w, id, Checked) && t.trace == s.trace
  {
    var s1 := Step(s, LoadMessage(w, true));
    StepKeepsInv(s, LoadMessage(w, true));
    hide Inv, HoldsAt, WorkerOk, LoadMessageStep, ReadCompanyStep, ReadCustomerStep;
    WorkerIsOk(s1, w);
    LoadingGoesOn(s, w, id);
    CompanyGoesOn(s1, w, id);
    CustomerGoesOn(Step(s1, ReadCompany(w, true)), w, id);
  }

  lemma WritesGoOn(s: State, w: Id, id: Id)
    requires HoldsAt(s, w, id, Checked)
    ensures var t := Step(Step(Step(s, WriteCancel(w, Answered)), CallProvider(w, NotSent, REFUSED)), WriteOutcome(w, 0, Answered));
      Ended(t, w, id) && NoFaults(s.trace, t.trace, id)
  {
    var s1 := Step(s, WriteCancel(w, Answered));
    var s2 := Step(s1, CallProvider(w, NotSent, REFUSED));
    hide HoldsAt, Ended, TallyOf, WriteCancelStep, CallProviderStep, WriteOutcomeStep;
    CancellationEnds(s, w, id);
    CallGoesOn(s1, w, id);
    OutcomeEnds(s2, w, id);
  }

  lemma Finishes(s: State, w: Id, id: Id)
    requires Inv(s) && HoldsAt(s, w, id, ToBeLoaded)
    ensures var t := Run(s, Finish(w)); Ended(t, w, id) && NoFaults(s.trace, t.trace, id)
  {
    hide Run, Step, Inv, HoldsAt, Ended, TallyOf, Finish;
    FinishIsSixSteps(s, w);
    ChecksGoOn(s, w, id);
    WritesGoOn(Step(Step(Step(s, LoadMessage(w, true)), ReadCompany(w, true)), ReadCustomer(w, true)), w, id);
  }

  lemma FinishIsSixSteps(s: State, w: Id)
    ensures Run(s, Finish(w))
         == Step(Step(Step(Step(Step(Step(s, LoadMessage(w, true)), ReadCompany(w, true)), ReadCustomer(w, true)),
                           WriteCancel(w, Answered)), CallProvider(w, NotSent, REFUSED)), WriteOutcome(w, 0, Answered))
  {
    hide Run, Step;
    var a, b := [LoadMessage(w, true), ReadCompany(w, true)], [ReadCustomer(w, true), WriteCancel(w, Answered)];
    var d := [CallProvider(w, NotSent, REFUSED), WriteOutcome(w, 0, Answered)];
    RunAppend(s, a + b, d);
    RunAppend(s, a, b);
    TwoSteps(s, a[0], a[1]);
    TwoSteps(Run(s, a), b[0], b[1]);
    TwoSteps(Run(s, a + b), d[0], d[1]);
  }

  // ----- every message can end

  ghost predicate OnlyBy(w: Id, actions: seq<Action>) {
    forall k :: 0 <= k < |actions| ==> ActorOf(actions[k]) == Some(w)
  }

  /** Some schedule of the worker alone ends the message with so many lock recoveries and error releases on the way. */
  ghost predicate CanEnd(s: State, w: Id, id: Id, faults: nat) {
    exists more :: OnlyBy(w, more) && EndsBy(s, more, id, faults)
  }

  predicate EndsBy(s: State, more: seq<Action>, id: Id, faults: nat) {
    var t := Run(s, more);
    id in t.rows && t.rows[id].status.IsTerminal()
    && FaultsOf(TallyOf(t.trace, id)) == FaultsOf(TallyOf(s.trace, id)) + faults
  }

  lemma PendingIsReady(row: Row, t: Tally, w: Id)
    requires RowOk(row, t) && row.status == Pending
    ensures Guard(row, Acquire(w, row.availableAt))
  {
  }

  lemma ProcessingTimesOut(row: Row, t: Tally)
    requires RowOk(row, t) && row.status == Processing
    ensures row.lockedAt.Some?
    ensures var now := row.lockedAt.value + LOCK_TIMEOUT_MS; Guard(row, RecoverLock(now - LOCK_TIMEOUT_MS, now))
  {
  }

  function ToTheEnd(w: Id, id: Id, companyId: Id, now: int): seq<Action> {
    TakeUp(w, id, companyId, now) + Finish(w)
  }

  lemma TakenUp(s: State, w: Id, id: Id, now: int)
    requires PhaseOf(s, w) == Idle && id in s.rows && Guard(s.rows[id], Acquire(w, now))
    ensures var t := Run(s, TakeUp(w, id, s.rows[id].draft.companyId, now));
      && HoldsAt(t, w, id, ToBeLoaded) && t.trace == s.trace + [Wrote(id, Acquire(w, now))]
      && NoFaults(s.trace, t.trace, id)
  {
    hide Run;
    TakesUp(s, w, id, now);
    TallySnoc(s.trace, Wrote(id, Acquire(w, now)), id);
  }

  lemma PendingMessagesEnd(s: State, w: Id, id: Id)
    requires Inv(s) && PhaseOf(s, w) == Idle && id in s.rows && s.rows[id].status == Pending
    ensures var more := ToTheEnd(w, id, s.rows[id].draft.companyId, s.rows[id].availableAt);
      OnlyBy(w, more) && EndsBy(s, more, id, 0)
  {
    hide Run, Inv, HoldsAt, TallyOf, Guard, RowOk;
    var row := s.rows[id];
    RowIsOk(s, id);
    PendingIsReady(row, TallyOf(s.trace, id), w);
    var take := TakeUp(w, id, row.draft.companyId, row.availableAt);
    TakenUp(s, w, id, row.availableAt);
    RunKeepsInv(s, take);
    RunAppend(s, take, Finish(w));
    Finishes(Run(s, take), w, id);
  }

  function RecoveryOf(s: State, w: Id, id: Id): seq<Action>
    requires id in s.rows
  {
    var row := s.rows[id];
    match row.lockedAt
    case Some(at) => RecoverLocks(w, Target(id, row.draft.companyId), at + LOCK_TIMEOUT_MS)
    case None => []
  }

  /** A lock that nobody gives up times out, and costs one fault. */
  lemma LocksAreGivenBack(s: State, w: Id, id: Id)
    requires Inv(s) && PhaseOf(s, w) == Idle && id in s.rows && s.rows[id].status == Processing
    ensures var t := Run(s, RecoveryOf(s, w, id));
      && Inv(t) && PhaseOf(t, w) == Idle && id in t.rows && t.rows[id].status == Pending
      && t.rows[id].draft == s.rows[id].draft && t.rows[id].customerId == s.rows[id].customerId
      && s.trace <= t.trace && FaultsOf(TallyOf(t.trace, id)) == FaultsOf(TallyOf(s.trace, id)) + 1
    ensures OnlyBy(w, RecoveryOf(s, w, id))
  {
    hide Run, Inv, TallyOf, Guard, RowOk;
    var row := s.rows[id];
    RowIsOk(s, id);
    ProcessingTimesOut(row, TallyOf(s.trace, id));
    var now := row.lockedAt.value + LOCK_TIMEOUT_MS;
    Recovers(s, w, id, now);
    RunKeepsInv(s, RecoveryOf(s, w, id));
    TallySnoc(s.trace, Wrote(id, RecoverLock(now - LOCK_TIMEOUT_MS, now)), id);
  }

  /**
   * A message that has not ended can still end: an idle worker gets it there alone, without any fault if
   * it is pending, and with the one recovery that its lock needs if it is being processed.
   */
  lemma EveryMessageCanEnd(actions: seq<Action>, w: Id, id: Id)
    requires var s := Run(EMPTY, actions); id in s.rows && PhaseOf(s, w) == Idle
    ensures var s := Run(EMPTY, actions); CanEnd(s, w, id, if s.rows[id].status == Processing then 1 else 0)
  {
    hide Run, Inv, EndsBy, RecoverLocks, TakeUp, Finish;
    EveryRunIsOk(actions);
    var s := Run(EMPTY, actions);
    match s.rows[id].status
    case Pending => PendingMessagesEnd(s, w, id);
    case Processing => ProcessingMessagesEnd(s, w, id);
    case _ => EndedAlready(s, w, id);
  }

  lemma EndedAlready(s: State, w: Id, id: Id)
    requires id in s.rows && s.rows[id].status.IsTerminal()
    ensures CanEnd(s, w, id, 0)
  {
    assert OnlyBy(w, []) && EndsBy(s, [], id, 0);
  }

  lemma ProcessingMessagesEnd(s: State, w: Id, id: Id)
    requires Inv(s) && PhaseOf(s, w) == Idle && id in s.rows && s.rows[id].status == Processing
    ensures CanEnd(s, w, id, 1)
  {
    hide Run, Inv, TallyOf, RecoverLocks, TakeUp, Finish;
    var recovery := RecoveryOf(s, w, id);
    LocksAreGivenBack(s, w, id);
    var t := Run(s, recovery);
    PendingMessagesEnd(t, w, id);
    var more := ToTheEnd(w, id, t.rows[id].draft.companyId, t.rows[id].availableAt);
    RunAppend(s, recovery, more);
    assert OnlyBy(w, recovery + more) && EndsBy(s, recovery + more, id, 1);
  }
}
