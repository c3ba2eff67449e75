/**
 * How often the provider is called for one message: at most once for each attempt, and after an answered call
 * again only if a lock was recovered, the message released after an error, or the answer allowed a retry.
 */
module RepeatedCalls {
  import opened Basics
  import opened Deployments
  import opened OutboundRow
  import opened QueueCalls
  import opened QueueGuarantees
  import opened QueueInvariants
  import opened QueueMachine
  import opened QueueMoves
  import opened QueueOptOut
  import opened QueueRuns
  import opened QueueSteps

  // ----- calls and attempts

  predicate IsAcquisition(event: Event, id: Id) { event.Wrote? && event.id == id && event.op.Acquire? }

  function CallSites(trace: seq<Event>, id: Id): set<nat> {
    set k: nat | k < |trace| && trace[k].Called? && trace[k].id == id
  }

  function AcquisitionSites(trace: seq<Event>, id: Id): set<nat> {
    set k: nat | k < |trace| && IsAcquisition(trace[k], id)
  }

  lemma {:induction false} AcquisitionsAreCounted(trace: seq<Event>, id: Id)
    ensures |AcquisitionSites(trace, id)| == TallyOf(trace, id).acquired
    decreases |trace|
  {
    if trace == [] {
      assert AcquisitionSites(trace, id) == {};
    } else {
      var n := |trace| - 1;
      AcquisitionsAreCounted(trace[..n], id);
      assert AcquisitionSites(trace, id)
          == AcquisitionSites(trace[..n], id) + if IsAcquisition(trace[n], id) then {n} else {};
    }
  }

  /** As many calls as different acquisitions. */
  lemma {:induction false} NoMoreCallsThanSites(trace: seq<Event>, calls: set<nat>, sites: set<nat>)
    requires forall k :: k in calls ==> k < |trace| && trace[k].Called? && trace[k].since in sites
    requires forall j, k :: j in calls && k in calls && j != k ==> trace[j].since != trace[k].since
    ensures |calls| <= |sites|
    decreases |calls|
  {
    if k: nat :| k in calls {
      NoMoreCallsThanSites(trace, calls - {k}, sites - {trace[k].since});
    }
  }

  /** What the call on the trace was made by. */
  lemma CallsHaveAcquisitions(actions: seq<Action>, k: nat)
    requires k < |Run(EMPTY, actions).trace| && Run(EMPTY, actions).trace[k].Called?
    ensures var trace := Run(EMPTY, actions).trace;
      && trace[k].since < k && IsAcquisition(trace[trace[k].since], trace[k].id)
      && trace[trace[k].since].op.worker == trace[k].worker
  {
    hide Run, Step, Blocked;
    var n := EventHasAMoment(EMPTY, actions, k);
    var u, trace := Run(EMPTY, actions[..n]), Run(EMPTY, actions).trace;
    MomentsAreEarlier(actions, n);
    CallsRespectConsent(actions[..n], actions[n], trace[k].worker, trace[k].id, trace[k].since);
    assert u.trace[trace[k].since] == trace[trace[k].since];
  }

  lemma MomentsAreEarlier(actions: seq<Action>, n: nat)
    requires n < |actions|
    ensures Run(EMPTY, actions[..n]).trace <= Step(Run(EMPTY, actions[..n]), actions[n]).trace <= Run(EMPTY, actions).trace
  {
    hide Run, Step;
    assert actions == actions[..n] + [actions[n]] + actions[n + 1..];
    StepAddsOneEvent(Run(EMPTY, actions[..n]), actions[n]);
    RunSnoc(EMPTY, actions[..n], actions[n]);
    RunAppend(EMPTY, actions[..n] + [actions[n]], actions[n + 1..]);
    RunExtendsTrace(Run(EMPTY, actions[..n] + [actions[n]]), actions[n + 1..]);
  }

  /** A message is called for at most once in each of its attempts. */
  lemma CallsAreAttempts(actions: seq<Action>, id: Id)
    requires id in Run(EMPTY, actions).rows
    ensures |CallSites(Run(EMPTY, actions).trace, id)| <= Run(EMPTY, actions).rows[id].attempts
  {
    hide Run, TallyOf;
    var trace := Run(EMPTY, actions).trace;
    AttemptsAreConserved(actions, id);
    AcquisitionsAreCounted(trace, id);
    forall k | k in CallSites(trace, id) ensures trace[k].since in AcquisitionSites(trace, id) {
      CallsHaveAcquisitions(actions, k);
    }
    forall j, k | j in CallSites(trace, id) && k in CallSites(trace, id) && j != k ensures trace[j].since != trace[k].since {
      if j < k { OneCallPerAcquisition(actions, j, k); } else { OneCallPerAcquisition(actions, k, j); }
    }
    NoMoreCallsThanSites(trace, CallSites(trace, id), AcquisitionSites(trace, id));
  }

  // ----- the first write after an acquisition

  predicate ByRecovery(op: RowOp) { op.RecoverLock? }

  /** How an acquisition can end whose call was answered so. */
  predicate Ends(answer: Answer, op: RowOp) {
    op.RecoverLock? || op.ReleaseAfterError? ||
    match answer
    case Accepted(_, _) => op.MarkSent?
    case Refused(_, retryable) => op.MarkFailed? || (retryable && op.ReleaseForRetry?)
  }

  function EndsAfter(answer: Answer): RowOp -> bool { op => Ends(answer, op) }

  /** If the row was written to after the acquisition at all, the first time it was so. */
  ghost predicate FirstWriteIs(trace: seq<Event>, since: nat, id: Id, fine: RowOp -> bool) {
    forall k :: since < k < |trace| && trace[k].Wrote? && trace[k].id == id && Untouched(trace[..k], since, id) ==> fine(trace[k].op)
  }

  lemma FirstWriteStays(trace: seq<Event>, longer: seq<Event>, since: nat, id: Id, fine: RowOp -> bool)
    requires FirstWriteIs(trace, since, id, fine) && trace <= longer && |longer| <= |trace| + 1
    requires |longer| == |trace| + 1 && longer[|trace|].Wrote? && longer[|trace|].id == id && Untouched(trace, since, id) ==>
      fine(longer[|trace|].op)
    ensures FirstWriteIs(longer, since, id, fine)
  {
    hide Untouched;
    forall k | since < k < |longer| && longer[k].Wrote? && longer[k].id == id && Untouched(longer[..k], since, id)
      ensures fine(longer[k].op)
    {
      assert longer[..k] == trace[..k];
      if k == |trace| { assert trace[..k] == trace; } else { assert longer[k] == trace[k]; }
    }
  }

  lemma {:induction false} UntouchedSinceTheLast(trace: seq<Event>, since: nat, id: Id)
    requires since < |trace| && IsAcquisition(trace[since], id) && Untouched(trace, since, id)
    ensures TallyOf(trace, id).last == Some(trace[since].op)
    decreases |trace|
  {
    if since < |trace| - 1 { UntouchedSinceTheLast(trace[..|trace| - 1], since, id); }
  }

  lemma LockedWhileUntouched(row: Row, t: Tally, op: RowOp)
    requires RowOk(row, t) && t.last.Some? && t.last.value.Acquire? && Guard(row, op)
    ensures op.RecoverLock? || (IsOwnWrite(op) && op.worker == t.last.value.worker && IsLockedBy(row, op.worker))
  {
  }

  lemma OwnWritesAreOfWorkers(s: State, a: Action)
    requires RequestOf(s, a).Write? && IsOwnWrite(RequestOf(s, a).op)
    ensures IsWorkerWrite(a) && ActorOf(a) == Some(a.worker)
  {
  }

  lemma SameAcquisition(trace: seq<Event>, since: nat, other: nat, id: Id)
    requires since < |trace| && IsAcquisition(trace[since], id) && Untouched(trace, since, id)
    requires other < |trace| && IsAcquisition(trace[other], id) && Untouched(trace, other, id)
    ensures since == other
  {
  }

  /** The worker writes by this very acquisition. */
  predicate WritesBy(s: State, a: Action, w: Id, since: nat) {
    && IsWorkerWrite(a) && a.worker == w && RequestOf(s, a).Write?
    && PhaseOf(s, w).Holding? && PhaseOf(s, w).held.since == since
  }

  /** Whoever writes first after an acquisition recovers the lock, or is the worker that made it. */
  lemma WhoWritesFirst(s: State, a: Action, w: Id, since: nat, id: Id, op: RowOp)
    requires Inv(s) && since < |s.trace| && IsAcquisition(s.trace[since], id) && s.trace[since].op.worker == w
    requires Untouched(s.trace, since, id) && Step(s, a).trace == s.trace + [Wrote(id, op)]
    ensures op.RecoverLock? || (WritesBy(s, a, w, since) && RequestOf(s, a).op == op)
  {
    hide Step, Inv, RequestOf, Untouched, TallyOf, Guard, RowOk, Outcomes, IsOwnWrite, IsWorkerWrite, IsLockedBy;
    StepAddsOneEvent(s, a);
    assert Step(s, a).trace[|s.trace|] == Wrote(id, op);
    RowIsOk(s, id);
    UntouchedSinceTheLast(s.trace, since, id);
    LockedWhileUntouched(s.rows[id], TallyOf(s.trace, id), op);
    if !op.RecoverLock? {
      OwnWritesAreOfWorkers(s, a);
      WorkersWriteTheirRow(s, a);
      WorkerIsOk(s, w);
      SameAcquisition(s.trace, since, PhaseOf(s, w).held.since, id);
    }
  }

  // ----- until the outcome is known

  ghost predicate NotSettled(s: State, w: Id) {
    PhaseOf(s, w).Holding? && !PhaseOf(s, w).stage.Releasing? ==>
      FirstWriteIs(s.trace, PhaseOf(s, w).held.since, PhaseOf(s, w).held.id, ByRecovery)
  }

  /** After its write a worker has no more to do with the message, but perhaps to release it. */
  lemma WritesMoveOn(s: State, a: Action)
    requires IsWorkerWrite(a) && RequestOf(s, a).Write?
    ensures PhaseOf(Step(s, a), a.worker).Looping?
         || (PhaseOf(Step(s, a), a.worker).Holding? && PhaseOf(Step(s, a), a.worker).stage.Releasing?)
  {
    hide Update, OutcomeOp;
  }

  /** A stage is entered by acquiring, or from an earlier stage of the same acquisition. */
  lemma StagesFollow(s: State, a: Action, w: Id)
    requires ActorOf(a) == Some(w) && PhaseOf(Step(s, a), w).Holding? && !PhaseOf(Step(s, a), w).stage.Releasing?
    ensures var before, held := PhaseOf(s, w), PhaseOf(Step(s, a), w).held;
      held.since == |s.trace| || (before.Holding? && before.held == held && !before.stage.Releasing?)
  {
    hide Step, RequestOf, LoadedBy, CustomerFound;
    WorkersMove(s, a);
  }

  lemma AcquisitionsAreFresh(trace: seq<Event>, since: nat, id: Id, fine: RowOp -> bool)
    requires since + 1 >= |trace|
    ensures FirstWriteIs(trace, since, id, fine)
  {
  }

  lemma StepKeepsNotSettled(s: State, a: Action, w: Id)
    requires Inv(s) && NotSettled(s, w)
    ensures NotSettled(Step(s, a), w)
  {
    hide Step, Inv, RequestOf, FirstWriteIs, Untouched, IsWorkerWrite, Guard;
    var t := Step(s, a);
    StepAddsOneEvent(s, a);
    if PhaseOf(t, w).Holding? && !PhaseOf(t, w).stage.Releasing? {
      if ActorOf(a) == Some(w) { StagesFollow(s, a, w); } else { OthersLeaveMyPhase(s, a, w); }
      var held := PhaseOf(t, w).held;
      if held.since == |s.trace| {
        AcquisitionsAreFresh(t.trace, held.since, held.id, ByRecovery);
      } else {
        WorkerIsOk(s, w);
        FirstWriteIsRecovery(s, a, w);
        FirstWriteStays(s.trace, t.trace, held.since, held.id, ByRecovery);
      }
    }
  }

  lemma FirstWriteIsRecovery(s: State, a: Action, w: Id)
    requires Inv(s) && PhaseOf(s, w).Holding? && !PhaseOf(s, w).stage.Releasing? && HeldOk(s, w, PhaseOf(s, w).held)
    requires PhaseOf(Step(s, a), w).Holding? && !PhaseOf(Step(s, a), w).stage.Releasing?
    ensures var held, t := PhaseOf(s, w).held, Step(s, a);
      (|t.trace| == |s.trace| + 1 && t.trace[|s.trace|].Wrote? && t.trace[|s.trace|].id == held.id
       && Untouched(s.trace, held.since, held.id)) ==>
        ByRecovery(t.trace[|s.trace|].op)
  {
    hide Step, Inv, RequestOf, Untouched, IsWorkerWrite, Guard, IsLockedBy;
    var held, t := PhaseOf(s, w).held, Step(s, a);
    StepAddsOneEvent(s, a);
    if |t.trace| == |s.trace| + 1 && t.trace[|s.trace|].Wrote? && t.trace[|s.trace|].id == held.id
       && Untouched(s.trace, held.since, held.id)
    {
      assert t.trace == s.trace + [t.trace[|s.trace|]];
      WhoWritesFirst(s, a, w, held.since, held.id, t.trace[|s.trace|].op);
      if WritesBy(s, a, w, held.since) { WritesMoveOn(s, a); }
    }
  }

  lemma {:induction false} NotSettledInEveryRun(actions: seq<Action>, w: Id)
    ensures NotSettled(Run(EMPTY, actions), w)
    decreases |actions|
  {
    hide Step, NotSettled, Inv;
    if actions == [] {
      NobodyHolds(w);
    } else {
      hide Run;
      var init, last := actions[..|actions| - 1], actions[|actions| - 1];
      assert actions == init + [last];
      NotSettledInEveryRun(init, w);
      EveryRunIsOk(init);
      StepKeepsNotSettled(Run(EMPTY, init), last, w);
      RunSnoc(EMPTY, init, last);
    }
  }

  lemma NobodyHolds(w: Id)
    ensures NotSettled(Run(EMPTY, []), w)
  {
  }

  // ----- after an answered call

  /** The call of the acquisition was answered so; what is written first fits the answer, or is a fault. */
  ghost predicate HasAnswer(s: State, w: Id, id: Id, since: nat, answer: Answer) {
    && since < |s.trace| && IsAcquisition(s.trace[since], id) && s.trace[since].op.worker == w
    && FirstWriteIs(s.trace, since, id, EndsAfter(answer))
    && (PhaseOf(s, w).Holding? && PhaseOf(s, w).held.since == since ==> Remembers(PhaseOf(s, w).stage, answer))
  }

  predicate Remembers(stage: Stage, answer: Answer) { stage.Releasing? || (stage.Settling? && stage.answer == answer) }

  lemma AnswersAreWritten(s: State, a: Action, w: Id, since: nat, answer: Answer)
    requires WritesBy(s, a, w, since) && Remembers(PhaseOf(s, w).stage, answer)
    ensures EndsAfter(answer)(RequestOf(s, a).op)
  {
  }

  lemma AnswersAreRemembered(s: State, a: Action, w: Id, since: nat, answer: Answer)
    requires ActorOf(a) == Some(w) && since < |s.trace|
    requires PhaseOf(s, w).Holding? && PhaseOf(s, w).held.since == since ==> Remembers(PhaseOf(s, w).stage, answer)
    requires PhaseOf(Step(s, a), w).Holding? && PhaseOf(Step(s, a), w).held.since == since
    ensures Remembers(PhaseOf(Step(s, a), w).stage, answer)
  {
    hide Step, RequestOf, LoadedBy, CustomerFound;
    WorkersMove(s, a);
  }

  lemma FirstWriteFits(s: State, a: Action, w: Id, id: Id, since: nat, answer: Answer, op: RowOp)
    requires Inv(s) && HasAnswer(s, w, id, since, answer) && Untouched(s.trace, since, id)
    requires Step(s, a).trace == s.trace + [Wrote(id, op)]
    ensures EndsAfter(answer)(op)
  {
    hide Step, Inv, RequestOf, FirstWriteIs, Untouched, Remembers, EndsAfter, IsWorkerWrite;
    WhoWritesFirst(s, a, w, since, id, op);
    if op.RecoverLock? { RecoveryEnds(answer, op); } else { AnswersAreWritten(s, a, w, since, answer); }
  }

  lemma StepKeepsTheAnswer(s: State, a: Action, w: Id, id: Id, since: nat, answer: Answer)
    requires Inv(s) && HasAnswer(s, w, id, since, answer)
    ensures HasAnswer(Step(s, a), w, id, since, answer)
  {
    hide Step, Inv, RequestOf, FirstWriteIs, Untouched, Remembers, EndsAfter, IsWorkerWrite, Guard;
    var t := Step(s, a);
    StepAddsOneEvent(s, a);
    if |t.trace| == |s.trace| + 1 && t.trace[|s.trace|].Wrote? && t.trace[|s.trace|].id == id
       && Untouched(s.trace, since, id)
    {
      assert t.trace == s.trace + [Wrote(id, t.trace[|s.trace|].op)];
      FirstWriteFits(s, a, w, id, since, answer, t.trace[|s.trace|].op);
    }
    FirstWriteStays(s.trace, t.trace, since, id, EndsAfter(answer));
    if PhaseOf(t, w).Holding? && PhaseOf(t, w).held.since == since {
      if ActorOf(a) == Some(w) { AnswersAreRemembered(s, a, w, since, answer); } else { OthersLeaveMyPhase(s, a, w); }
    }
  }

  lemma RecoveryEnds(answer: Answer, op: RowOp)
    requires op.RecoverLock?
    ensures EndsAfter(answer)(op)
  {
  }

  lemma {:induction false} RunKeepsTheAnswer(s: State, more: seq<Action>, w: Id, id: Id, since: nat, answer: Answer)
    requires Inv(s) && HasAnswer(s, w, id, since, answer)
    ensures HasAnswer(Run(s, more), w, id, since, answer)
    decreases more
  {
    hide Step, Inv, HasAnswer;
    if more != [] {
      StepKeepsTheAnswer(s, more[0], w, id, since, answer);
      StepKeepsInv(s, more[0]);
      RunKeepsTheAnswer(Step(s, more[0]), more[1..], w, id, since, answer);
    }
  }

  /**
   * The action at this position called the provider for the message, by this acquisition; the call had this fate
   * and was answered so.
   */
  predicate CallsAt(actions: seq<Action>, i: nat, w: Id, id: Id, since: nat, fate: Fate, answer: Answer) {
    && i < |actions| && actions[i] == CallProvider(w, fate, answer)
    && Step(Run(EMPTY, actions[..i]), actions[i]).trace == Run(EMPTY, actions[..i]).trace + [Called(w, id, since)]
  }

  lemma AnswerArrives(s: State, w: Id, fate: Fate, answer: Answer, id: Id, since: nat)
    requires Step(s, CallProvider(w, fate, answer)).trace == s.trace + [Called(w, id, since)]
    ensures PhaseOf(s, w).Holding? && PhaseOf(s, w).held.since == since && PhaseOf(s, w).held.id == id
    ensures PhaseOf(s, w).stage.Sending?
    ensures var t := Step(s, CallProvider(w, fate, answer));
      PhaseOf(t, w).Holding? && PhaseOf(t, w).held.since == since && Remembers(PhaseOf(t, w).stage, answer)
  {
    hide Sendable;
    assert Step(s, CallProvider(w, fate, answer)).trace[|s.trace|] == Called(w, id, since);
  }

  lemma FirstWritesWeaken(trace: seq<Event>, since: nat, id: Id, answer: Answer)
    requires FirstWriteIs(trace, since, id, ByRecovery)
    ensures FirstWriteIs(trace, since, id, EndsAfter(answer))
  {
    hide Untouched;
  }

  lemma AnsweredFromTheCall(actions: seq<Action>, i: nat, w: Id, id: Id, since: nat, fate: Fate, answer: Answer)
    requires CallsAt(actions, i, w, id, since, fate, answer)
    ensures HasAnswer(Step(Run(EMPTY, actions[..i]), actions[i]), w, id, since, answer)
  {
    hide Run, Step, FirstWriteIs, Remembers, Inv, Blocked, EndsAfter;
    var s := Run(EMPTY, actions[..i]);
    var t := Step(s, actions[i]);
    CallsRespectConsent(actions[..i], actions[i], w, id, since);
    NotSettledInEveryRun(actions[..i], w);
    AnswerArrives(s, w, fate, answer, id, since);
    FirstWriteStays(s.trace, t.trace, since, id, ByRecovery);
    FirstWritesWeaken(t.trace, since, id, answer);
    assert t.trace[since] == s.trace[since];
  }

  lemma {:induction false} FirstWriteExists(trace: seq<Event>, since: nat, id: Id, last: nat) returns (k: nat)
    requires since < last < |trace| && trace[last].Wrote? && trace[last].id == id
    ensures since < k <= last && trace[k].Wrote? && trace[k].id == id && Untouched(trace[..k], since, id)
    decreases last
  {
    if earlier: nat :| since < earlier < last && trace[earlier].Wrote? && trace[earlier].id == id {
      k := FirstWriteExists(trace, since, id, earlier);
    } else {
      k := last;
    }
  }

  predicate IsOutcome(op: RowOp) { op.MarkSent? || op.MarkFailed? }

  lemma OutcomesAreTheEnd(s: State, id: Id)
    requires Inv(s) && TallyOf(s.trace, id).last.Some? && IsOutcome(TallyOf(s.trace, id).last.value)
    ensures id in s.rows && s.rows[id].status.IsTerminal()
  {
    hide Inv, TallyOf, Outcomes;
    RowIsOk(s, id);
  }

  /** The state in which the outcome of the message had just been written. */
  lemma OutcomeMoment(actions: seq<Action>, k: nat, id: Id) returns (n: nat)
    requires var trace := Run(EMPTY, actions).trace;
      k < |trace| && trace[k].Wrote? && trace[k].id == id && IsOutcome(trace[k].op)
    ensures n <= |actions|
    ensures var v := Run(EMPTY, actions[..n]);
      |v.trace| == k + 1 && id in v.rows && v.rows[id].status.IsTerminal()
  {
    hide Run, Step, Inv, TallyOf;
    var before := EventHasAMoment(EMPTY, actions, k);
    n := before + 1;
    var u, v := Run(EMPTY, actions[..before]), Run(EMPTY, actions[..n]);
    assert actions[..n] == actions[..before] + [actions[before]];
    RunSnoc(EMPTY, actions[..before], actions[before]);
    EveryRunIsOk(actions[..n]);
    TallySnoc(u.trace, Run(EMPTY, actions).trace[k], id);
    OutcomesAreTheEnd(v, id);
  }

  /** A message whose outcome was written is not acquired again. */
  lemma SettledMessagesRest(actions: seq<Action>, k: nat, id: Id, later: nat)
    requires var trace := Run(EMPTY, actions).trace;
      k < later < |trace| && trace[k].Wrote? && trace[k].id == id && IsOutcome(trace[k].op)
    ensures !IsAcquisition(Run(EMPTY, actions).trace[later], id)
  {
    hide Run, Inv, Succeeds;
    var n := OutcomeMoment(actions, k, id);
    var v := Run(EMPTY, actions[..n]);
    assert actions == actions[..n] + actions[n..];
    EveryRunIsOk(actions[..n]);
    EveryRunIsOk(actions);
    RunAppend(EMPTY, actions[..n], actions[n..]);
    RunExtendsTrace(v, actions[n..]);
    RunSucceeds(v, actions[n..], id);
    if IsAcquisition(Run(EMPTY, actions).trace[later], id) { EndedMessagesRest(v, Run(EMPTY, actions), id, later); }
  }

  /** The lock of the message was recovered, or it was released after an error. */
  predicate FaultBetween(trace: seq<Event>, since: nat, later: nat, id: Id) {
    exists k :: since < k < later && k < |trace| && IsFault(trace[k]) && trace[k].id == id
  }

  predicate RetryBetween(trace: seq<Event>, since: nat, later: nat, id: Id) {
    exists k :: since < k < later && k < |trace| && trace[k].Wrote? && trace[k].id == id && trace[k].op.ReleaseForRetry?
  }

  predicate MayRetry(answer: Answer) { answer.Refused? && answer.retryable }

  /**
   * After an answered call the message is acquired again only if something freed it in between: a fault, that is a
   * recovered lock or a release after an error, or the retry that this very answer allowed.
   */
  lemma AnsweredMessagesNeedAReason(actions: seq<Action>, i: nat, w: Id, id: Id, since: nat, fate: Fate, answer: Answer,
                                    later: nat)
    requires CallsAt(actions, i, w, id, since, fate, answer)
    requires since < later < |Run(EMPTY, actions).trace| && IsAcquisition(Run(EMPTY, actions).trace[later], id)
    ensures var trace := Run(EMPTY, actions).trace;
      FaultBetween(trace, since, later, id) || (MayRetry(answer) && RetryBetween(trace, since, later, id))
  {
    hide Run, Step, Inv, Untouched;
    AnsweredFromTheCall(actions, i, w, id, since, fate, answer);
    assert actions == actions[..i] + [actions[i]] + actions[i + 1..];
    RunSnoc(EMPTY, actions[..i], actions[i]);
    RunAppend(EMPTY, actions[..i] + [actions[i]], actions[i + 1..]);
    EveryRunIsOk(actions[..i] + [actions[i]]);
    RunKeepsTheAnswer(Run(EMPTY, actions[..i] + [actions[i]]), actions[i + 1..], w, id, since, answer);
    var trace := Run(EMPTY, actions).trace;
    var k := FirstWriteExists(trace, since, id, later);
    assert Ends(answer, trace[k].op);
    if IsOutcome(trace[k].op) { SettledMessagesRest(actions, k, id, later); }
    assert IsFault(trace[k]) || trace[k].op.ReleaseForRetry?;
  }

  /** Once the provider has accepted a call for a message, the message is acquired again only after a fault. */
  lemma AcceptedMessagesNeedAFault(actions: seq<Action>, i: nat, w: Id, id: Id, since: nat, fate: Fate, answer: Answer,
                                   later: nat)
    requires CallsAt(actions, i, w, id, since, fate, answer) && answer.Accepted?
    requires since < later < |Run(EMPTY, actions).trace| && IsAcquisition(Run(EMPTY, actions).trace[later], id)
    ensures FaultBetween(Run(EMPTY, actions).trace, since, later, id)
  {
    hide Run, Step, CallsAt;
    AnsweredMessagesNeedAReason(actions, i, w, id, since, fate, answer, later);
  }

  /** What lets a message be called for again after this call. */
  predicate ReasonBetween(trace: seq<Event>, since: nat, later: nat, id: Id, answer: Answer) {
    FaultBetween(trace, since, later, id) || (MayRetry(answer) && RetryBetween(trace, since, later, id))
  }

  /**
   * Two calls for one message, whatever their fates, belong to different acquisitions; between them there was a
   * fault, or the retry that the answer to the call of the first acquisition allowed.
   */
  lemma CalledTwiceNeedsAReason(actions: seq<Action>, i: nat, j: nat, v: Id, w: Id, id: Id, since: nat, later: nat,
                                one: Fate, other: Fate, first: Answer, second: Answer)
    requires i != j
    requires CallsAt(actions, i, v, id, since, one, first) && CallsAt(actions, j, w, id, later, other, second)
    ensures since != later
    ensures var trace := Run(EMPTY, actions).trace;
      if since < later then ReasonBetween(trace, since, later, id, first) else ReasonBetween(trace, later, since, id, second)
  {
    hide Run, Step;
    CallsAreSeen(actions, i, v, id, since, one, first);
    CallsAreSeen(actions, j, w, id, later, other, second);
    var a, b := |Run(EMPTY, actions[..i]).trace|, |Run(EMPTY, actions[..j]).trace|;
    if i < j { MomentsDiffer(actions, i, j); } else { MomentsDiffer(actions, j, i); }
    if a < b { OneCallPerAcquisition(actions, a, b); } else { OneCallPerAcquisition(actions, b, a); }
    CallsHaveAcquisitions(actions, a);
    CallsHaveAcquisitions(actions, b);
    if since < later {
      AnsweredMessagesNeedAReason(actions, i, v, id, since, one, first, later);
    } else {
      AnsweredMessagesNeedAReason(actions, j, w, id, later, other, second, since);
    }
  }

  lemma CallsAreSeen(actions: seq<Action>, i: nat, w: Id, id: Id, since: nat, fate: Fate, answer: Answer)
    requires CallsAt(actions, i, w, id, since, fate, answer)
    ensures var n, trace := |Run(EMPTY, actions[..i]).trace|, Run(EMPTY, actions).trace;
      n < |trace| && trace[n] == Called(w, id, since)
  {
    hide Run, Step;
    MomentsAreEarlier(actions, i);
    var s := Run(EMPTY, actions[..i]);
    assert Step(s, actions[i]).trace[|s.trace|] == Called(w, id, since);
  }

  /** An action that adds to the trace leaves it longer for the later ones. */
  lemma MomentsDiffer(actions: seq<Action>, i: nat, j: nat)
    requires i < j < |actions|
    requires |Step(Run(EMPTY, actions[..i]), actions[i]).trace| == |Run(EMPTY, actions[..i]).trace| + 1
    ensures |Run(EMPTY, actions[..i]).trace| < |Run(EMPTY, actions[..j]).trace|
  {
    hide Run, Step;
    assert actions[..j][..i] == actions[..i];
    MomentsAreEarlier(actions[..j], i);
  }
}
