/**
 * What the environment of the queue may decide, and what follows for the locks: without expired locks to find
 * nothing is recovered, and with every call answered nothing is released after an error.
 */
module Deployments {
  import opened Basics
  import opened OutboundRow
  import opened QueueGuarantees
  import opened QueueInvariants
  import opened QueueMachine
  import opened QueueMoves
  import opened QueueRuns
  import opened QueueSteps

  /** The query for expired locks finds some: a worker crashed, stalled, or never learned that it had acquired a message. */
  predicate FindsExpired(a: Action) { a.StartCron? && a.found.Some? && a.found.value != [] }

  /** A database call fails while a worker processes a message: a read, or a write whose answer it needs. */
  predicate ProcessingFails(a: Action) {
    match a
    case LoadMessage(_, answered) => !answered
    case ReadCompany(_, answered) => !answered
    case ReadCustomer(_, answered) => !answered
    case WriteCancel(_, reply) => reply != Answered
    case WriteOutcome(_, _, reply) => reply != Answered
    case _ => false
  }

  /** The message went out, and the worker is told that it may try again. */
  predicate IsMisreported(a: Action) {
    a.CallProvider? && a.fate == WentOut && a.answer.Refused? && a.answer.retryable
  }

  /** What may happen where the queue is deployed. */
  datatype Deployment = Deployment(expiring: bool, failing: bool, misreporting: bool) {
    predicate Allows(a: Action) {
      && (FindsExpired(a) ==> expiring)
      && (ProcessingFails(a) ==> failing)
      && (IsMisreported(a) ==> misreporting)
    }

    ghost predicate Allowed(actions: seq<Action>) {
      forall k :: 0 <= k < |actions| ==> Allows(actions[k])
    }
  }

  /** At least as much may happen. */
  predicate Includes(more: Deployment, less: Deployment) {
    (less.expiring ==> more.expiring) && (less.failing ==> more.failing) && (less.misreporting ==> more.misreporting)
  }

  lemma AllowingMore(more: Deployment, less: Deployment, actions: seq<Action>)
    requires Includes(more, less) && less.Allowed(actions)
    ensures more.Allowed(actions)
  {
    forall k | 0 <= k < |actions| ensures more.Allows(actions[k]) { assert less.Allows(actions[k]); }
  }

  lemma AllowedParts(d: Deployment, a: seq<Action>, b: seq<Action>)
    requires d.Allowed(a) && d.Allowed(b)
    ensures d.Allowed(a + b)
  {
  }

  // ----- nothing to recover

  /** A worker goes through the candidates that its query found. */
  predicate CandidatesFollow(a: Action, before: Phase, after: Phase) {
    after.Recovering? ==>
      || before == after
      || (a.StartCron? && a.found == Some(after.candidates))
      || (before.Recovering? && before.candidates != [] && after.candidates == before.candidates[1..])
  }

  lemma QueriesFindCandidates(s: State, a: Action, w: Id)
    requires ActorOf(a) == Some(w)
    ensures CandidatesFollow(a, PhaseOf(s, w), PhaseOf(Step(s, a), w))
  {
    hide Matches, Effect, LogsFor, Sendable, CustomerFound, IsLockedBy, OutcomeOp;
    match a
    case StartCron(_, _, _) =>
    case RecoverNext(_, _) =>
    case SelectBatch(_, _) =>
    case Crash(_) =>
    case _ => OtherPhasesFollow(s, a, w);
  }

  lemma OtherPhasesFollow(s: State, a: Action, w: Id)
    requires ActorOf(a) == Some(w) && !a.StartCron? && !a.RecoverNext? && !a.SelectBatch? && !a.Crash?
    ensures PhaseOf(Step(s, a), w).Recovering? ==> PhaseOf(Step(s, a), w) == PhaseOf(s, w)
  {
    hide Update, Attempt, Matches, Effect, LogsFor, Sendable, CustomerFound, IsLockedBy, OutcomeOp;
  }

  predicate NothingToRecover(phase: Phase) { phase.Recovering? ==> phase.candidates == [] }

  lemma {:induction false} NobodyHasCandidates(actions: seq<Action>, w: Id)
    requires forall k :: 0 <= k < |actions| ==> !FindsExpired(actions[k])
    ensures NothingToRecover(PhaseOf(Run(EMPTY, actions), w))
    decreases |actions|
  {
    hide Step;
    if actions != [] {
      hide Run;
      var init, last := actions[..|actions| - 1], actions[|actions| - 1];
      assert actions == init + [last] && !FindsExpired(actions[|actions| - 1]);
      NobodyHasCandidates(init, w);
      RunSnoc(EMPTY, init, last);
      if ActorOf(last) == Some(w) {
        QueriesFindCandidates(Run(EMPTY, init), last, w);
      } else {
        OthersLeaveMyPhase(Run(EMPTY, init), last, w);
      }
    }
  }

  lemma RecoveriesNeedCandidates(s: State, a: Action)
    requires RequestOf(s, a).Write? && RequestOf(s, a).op.RecoverLock?
    ensures a.RecoverNext? && !NothingToRecover(PhaseOf(s, a.worker))
  {
  }

  // ----- nothing to release

  /** A worker that is to release a message after an error has lost its lock. */
  ghost predicate ReleasesNothing(s: State, w: Id) {
    PhaseOf(s, w).Holding? && PhaseOf(s, w).stage.Releasing? ==>
      PhaseOf(s, w).held.id in s.rows && !IsLockedBy(s.rows[PhaseOf(s, w).held.id], w)
  }

  predicate IsReleasing(phase: Phase) { phase.Holding? && phase.stage.Releasing? }

  lemma LoadingMeetsALostLock(s: State, w: Id)
    requires !IsReleasing(PhaseOf(s, w)) && IsReleasing(PhaseOf(LoadMessageStep(s, w, true), w)) && WorkerOk(s, w)
    ensures var t := LoadMessageStep(s, w, true); t.rows == s.rows && ReleasesNothing(t, w)
  {
    hide Untouched;
  }

  lemma ReadsDoNotRelease(s: State, w: Id)
    requires !IsReleasing(PhaseOf(s, w)) && WorkerOk(s, w)
    ensures !IsReleasing(PhaseOf(ReadCompanyStep(s, w, true), w)) && !IsReleasing(PhaseOf(ReadCustomerStep(s, w, true), w))
  {
    hide Untouched, CustomerFound, ClearedSince;
  }

  lemma OthersDoNotRelease(s: State, a: Action, w: Id)
    requires ActorOf(a) == Some(w) && !IsReleasing(PhaseOf(s, w)) && !ProcessingFails(a)
    requires !a.LoadMessage? && !a.ReadCompany? && !a.ReadCustomer?
    ensures !IsReleasing(PhaseOf(Step(s, a), w))
  {
    hide Update, Matches, Effect, LogsFor, Sendable, OutcomeOp;
  }

  lemma AnsweredStepsReleaseNothing(s: State, a: Action, w: Id)
    requires Inv(s) && ActorOf(a) == Some(w) && !ProcessingFails(a) && !IsReleasing(PhaseOf(s, w))
    ensures ReleasesNothing(Step(s, a), w)
  {
    WorkerIsOk(s, w);
    hide Inv, WorkerOk, ReleasesNothing, LoadMessageStep, ReadCompanyStep, ReadCustomerStep;
    match a
    case LoadMessage(_, _) =>
      if IsReleasing(PhaseOf(Step(s, a), w)) { LoadingMeetsALostLock(s, w); } else { NotReleasing(Step(s, a), w); }
    case ReadCompany(_, _) =>
      ReadsDoNotRelease(s, w);
      NotReleasing(Step(s, a), w);
    case ReadCustomer(_, _) =>
      ReadsDoNotRelease(s, w);
      NotReleasing(Step(s, a), w);
    case _ =>
      hide Step;
      OthersDoNotRelease(s, a, w);
      NotReleasing(Step(s, a), w);
  }

  lemma NotReleasing(s: State, w: Id)
    requires !IsReleasing(PhaseOf(s, w))
    ensures ReleasesNothing(s, w)
  {
  }

  lemma LocksComeFromAcquiring(row: Row, op: RowOp, w: Id)
    requires !IsLockedBy(row, w) && Guard(row, op) && IsLockedBy(Effect(row, op), w)
    ensures op.Acquire? && op.worker == w
  {
  }

  lemma AcquirersLoop(s: State, a: Action)
    requires RequestOf(s, a).Write? && RequestOf(s, a).op.Acquire?
    ensures a.AcquireNext? && RequestOf(s, a).op.worker == a.worker && PhaseOf(s, a.worker).Looping?
  {
  }

  /** A lock that is lost is not regained by a worker that holds on. */
  lemma LostLocksStayLost(s: State, a: Action, w: Id)
    requires Inv(s) && ReleasesNothing(s, w) && IsReleasing(PhaseOf(s, w)) && PhaseOf(Step(s, a), w) == PhaseOf(s, w)
    ensures ReleasesNothing(Step(s, a), w)
  {
    hide Step, Inv, RequestOf, IsLockedBy, Effect, Guard;
    var id := PhaseOf(s, w).held.id;
    if a.Insert? {
      InsertsLeaveRows(s, a, id);
    } else if a.DeleteCustomer? {
      DeletionsDetachRows(s, a, id);
      DetachingLocksNothing(s.rows[id], w);
    } else {
      StepOnRow(s, a, id);
      if IsLockedBy(Step(s, a).rows[id], w) {
        LocksComeFromAcquiring(s.rows[id], RequestOf(s, a).op, w);
        AcquirersLoop(s, a);
        assert false;
      }
    }
  }

  lemma DetachingLocksNothing(row: Row, w: Id)
    ensures IsLockedBy(row.(customerId := None), w) <==> IsLockedBy(row, w)
  {
  }

  /** From a release on, the worker either waits or has gone on. */
  lemma ReleasersKeepTheirPhase(s: State, a: Action, w: Id)
    requires ActorOf(a) == Some(w) && IsReleasing(PhaseOf(s, w)) && IsReleasing(PhaseOf(Step(s, a), w))
    ensures PhaseOf(Step(s, a), w) == PhaseOf(s, w)
  {
    hide Update, Matches, Effect, LogsFor, Sendable, OutcomeOp, CustomerFound;
  }

  lemma StepReleasesNothing(s: State, a: Action, w: Id)
    requires Inv(s) && ReleasesNothing(s, w) && !ProcessingFails(a)
    ensures ReleasesNothing(Step(s, a), w)
  {
    hide Step, Inv, ReleasesNothing, IsReleasing;
    if ActorOf(a) != Some(w) { OthersLeaveMyPhase(s, a, w); }
    if !IsReleasing(PhaseOf(Step(s, a), w)) {
      NotReleasing(Step(s, a), w);
    } else if !IsReleasing(PhaseOf(s, w)) {
      AnsweredStepsReleaseNothing(s, a, w);
    } else {
      if ActorOf(a) == Some(w) { ReleasersKeepTheirPhase(s, a, w); }
      LostLocksStayLost(s, a, w);
    }
  }

  lemma {:induction false} NobodyReleases(actions: seq<Action>, w: Id)
    requires forall k :: 0 <= k < |actions| ==> !ProcessingFails(actions[k])
    ensures ReleasesNothing(Run(EMPTY, actions), w)
    decreases |actions|
  {
    hide Step, ReleasesNothing, Inv, ProcessingFails;
    if actions == [] {
      NobodyHoldsYet(w);
    } else {
      hide Run;
      var init, last := actions[..|actions| - 1], actions[|actions| - 1];
      assert actions == init + [last] && !ProcessingFails(actions[|actions| - 1]);
      assert forall k :: 0 <= k < |init| ==> init[k] == actions[k];
      NobodyReleases(init, w);
      EveryRunIsOk(init);
      StepReleasesNothing(Run(EMPTY, init), last, w);
      RunSnoc(EMPTY, init, last);
    }
  }

  lemma NobodyHoldsYet(w: Id)
    ensures ReleasesNothing(Run(EMPTY, []), w)
  {
  }

  lemma ReleasesNeedTheLock(s: State, a: Action)
    requires RequestOf(s, a).Write? && RequestOf(s, a).op.ReleaseAfterError?
    ensures a.WriteRelease? && RequestOf(s, a).op.worker == a.worker && IsReleasing(PhaseOf(s, a.worker))
    ensures RequestOf(s, a).id == PhaseOf(s, a.worker).held.id
  {
  }

  lemma ReleasedRowsWereLocked(row: Row, op: RowOp)
    requires op.ReleaseAfterError? && Guard(row, op)
    ensures IsLockedBy(row, op.worker)
  {
  }

  // ----- the faults on the trace

  predicate IsFault(event: Event) { event.Wrote? && (event.op.RecoverLock? || event.op.ReleaseAfterError?) }

  /** A fault on the trace has its decision in the schedule. */
  lemma StepsFaultAsDecided(actions: seq<Action>, a: Action)
    requires forall k :: 0 <= k < |actions| ==> !FindsExpired(actions[k])
    requires forall k :: 0 <= k < |actions| ==> !ProcessingFails(actions[k])
    ensures var s, t := Run(EMPTY, actions), Step(Run(EMPTY, actions), a);
      |t.trace| == |s.trace| + 1 ==> !IsFault(t.trace[|s.trace|])
  {
    hide Run, Step, RequestOf, Guard, NothingToRecover, IsLockedBy;
    var s := Run(EMPTY, actions);
    StepAddsOneEvent(s, a);
    var t := Step(s, a);
    if |t.trace| == |s.trace| + 1 && IsFault(t.trace[|s.trace|]) {
      var op := t.trace[|s.trace|].op;
      if op.RecoverLock? {
        RecoveriesNeedCandidates(s, a);
        NobodyHasCandidates(actions, a.worker);
      } else {
        ReleasesNeedTheLock(s, a);
        NobodyReleases(actions, a.worker);
        ReleasedRowsWereLocked(s.rows[RequestOf(s, a).id], op);
      }
      assert false;
    }
  }

  /** Where no expired locks are found and every call of a worker is answered, there are no faults. */
  lemma {:induction false} NoFaultsWithoutDecisions(actions: seq<Action>, k: nat)
    requires forall j :: 0 <= j < |actions| ==> !FindsExpired(actions[j])
    requires forall j :: 0 <= j < |actions| ==> !ProcessingFails(actions[j])
    requires k < |Run(EMPTY, actions).trace|
    ensures !IsFault(Run(EMPTY, actions).trace[k])
    decreases |actions|
  {
    hide Step, FindsExpired, ProcessingFails, IsFault;
    if actions != [] {
      hide Run;
      var init, last := actions[..|actions| - 1], actions[|actions| - 1];
      assert actions == init + [last];
      assert forall j :: 0 <= j < |init| ==> init[j] == actions[j];
      RunSnoc(EMPTY, init, last);
      StepAddsOneEvent(Run(EMPTY, init), last);
      if k < |Run(EMPTY, init).trace| {
        NoFaultsWithoutDecisions(init, k);
      } else {
        StepsFaultAsDecided(init, last);
      }
    }
  }
}
