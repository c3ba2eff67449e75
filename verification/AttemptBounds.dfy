/**
 * How often a message can be attempted: `maxAttempts` and the faults bound the attempts, that bound is reached,
 * and without it there is none, since neither recovery nor error release looks at `maxAttempts`.
 */
module AttemptBounds {
  import opened Basics
  import opened Deployments
  import opened OutboundRow
  import opened QueueGuarantees
  import opened QueueInvariants
  import opened QueueMachine
  import opened QueueProgress
  import opened QueueRuns
  import opened QueueSteps
  import opened Text

  /** What makes an attempt end without an outcome: a crash, an error, a refusal that may be retried. */
  datatype Interruption = Crashed | Errored | Retried

  const RETRY_LATER := Refused("PROVIDER_TEMPORARY_ERROR", true)

  /** One attempt of an idle worker, until the message is pending and the worker idle again. */
  function Round(w: Id, id: Id, row: Row, why: Interruption): seq<Action> {
    var target := Target(id, row.draft.companyId);
    TakeUp(w, id, row.draft.companyId, row.availableAt) +
    match why
    case Crashed => [Crash(w)] + RecoverLocks(w, target, row.availableAt + LOCK_TIMEOUT_MS)
    case Errored => [LoadMessage(w, false), WriteRelease(w, 0, Answered)] + [AcquireNext(w, 0, Answered)]
    case Retried =>
      [LoadMessage(w, true), CallProvider(w, NotSent, RETRY_LATER)] + [WriteOutcome(w, 0, Answered), AcquireNext(w, 0, Answered)]
  }

  function GivenBack(w: Id, row: Row, why: Interruption): RowOp {
    match why
    case Crashed => RecoverLock(row.availableAt, row.availableAt + LOCK_TIMEOUT_MS)
    case Errored => ReleaseAfterError(w, 0)
    case Retried => ReleaseForRetry(w, 0, row.attempts + 1, RETRY_LATER.code)
  }

  function RowAfter(w: Id, row: Row, why: Interruption): Row {
    Effect(Effect(row, Acquire(w, row.availableAt)), GivenBack(w, row, why))
  }

  function After(s: State, w: Id, id: Id, why: Interruption): State
    requires id in s.rows
  {
    var row := s.rows[id];
    s.(rows := s.rows[id := RowAfter(w, row, why)],
       trace := s.trace + [Wrote(id, Acquire(w, row.availableAt)), Wrote(id, GivenBack(w, row, why))],
       workers := s.workers[w := Idle])
  }

  /** A retry is possible only for a message that can be sent, and before the last attempt. */
  predicate Possible(row: Row, why: Interruption) {
    row.status == Pending &&
    (why == Retried ==> row.customerId == None && Sendable(row.draft) && row.attempts + 1 < row.draft.maxAttempts)
  }

  // ----- one round

  function Taken(s: State, w: Id, id: Id): State
    requires id in s.rows
  {
    var row := s.rows[id];
    Moved(s, w, Holding(Held(id, row.draft.companyId, row.attempts + 1, |s.trace|), Loading, []), id, Acquire(w, row.availableAt))
  }

  lemma MovedTwice(s: State, w: Id, id: Id, a: Phase, b: Phase, op: RowOp, back: RowOp)
    requires id in s.rows
    ensures Moved(Moved(s, w, a, id, op), w, b, id, back)
         == s.(rows := s.rows[id := Effect(Effect(s.rows[id], op), back)], trace := s.trace + [Wrote(id, op), Wrote(id, back)],
               workers := s.workers[w := b])
  {
    hide Effect;
    assert s.trace + [Wrote(id, op)] + [Wrote(id, back)] == s.trace + [Wrote(id, op), Wrote(id, back)];
  }

  lemma TakenLocksTimeOut(w: Id, row: Row)
    ensures Guard(Effect(row, Acquire(w, row.availableAt)), RecoverLock(row.availableAt, row.availableAt + LOCK_TIMEOUT_MS))
  {
  }

  lemma CrashStops(s: State, w: Id, id: Id, phase: Phase, op: RowOp)
    requires id in s.rows
    ensures Step(Moved(s, w, phase, id, op), Crash(w)) == Moved(s, w, Idle, id, op)
  {
    hide Effect;
  }

  lemma EffectsKeepTheDraft(row: Row, op: RowOp)
    ensures Effect(row, op).draft == row.draft
  {
  }

  lemma CrashRound(s: State, w: Id, id: Id)
    requires id in s.rows
    ensures var row := s.rows[id];
      Run(Taken(s, w, id), [Crash(w)] + RecoverLocks(w, Target(id, row.draft.companyId), row.availableAt + LOCK_TIMEOUT_MS))
        == After(s, w, id, Crashed)
  {
    hide Run, Step, Effect, Guard, RecoverLocks;
    var row := s.rows[id];
    var op, now := Acquire(w, row.availableAt), row.availableAt + LOCK_TIMEOUT_MS;
    var stopped := Moved(s, w, Idle, id, op);
    OneStep(Taken(s, w, id), Crash(w));
    CrashStops(s, w, id, PhaseOf(Taken(s, w, id), w), op);
    RunAppend(Taken(s, w, id), [Crash(w)], RecoverLocks(w, Target(id, row.draft.companyId), now));
    TakenLocksTimeOut(w, row);
    EffectsKeepTheDraft(row, op);
    Recovers(stopped, w, id, now);
    MovedTwice(s, w, id, Idle, Idle, op, RecoverLock(row.availableAt, now));
  }

  /** A worker that holds the row it acquired writes to it and is done with it. */
  lemma WriteGoesThrough(s: State, id: Id, companyId: Id, op: RowOp, customerId: Option<Id>)
    requires Matches(s, id, companyId, op) && LogsFor(id, customerId, op) == []
    ensures Update(s, id, companyId, op, customerId)
         == s.(rows := s.rows[id := Effect(s.rows[id], op)], trace := s.trace + [Wrote(id, op)])
  {
    hide Effect, Guard;
    assert s.logs + [] == s.logs;
  }

  lemma AcquiredIsLocked(w: Id, row: Row)
    ensures var taken := Effect(row, Acquire(w, row.availableAt));
      IsLockedBy(taken, w) && taken.draft == row.draft && taken.attempts == row.attempts + 1 && taken.customerId == row.customerId
  {
  }

  lemma EndsTheLoop(s: State, w: Id)
    requires PhaseOf(s, w) == Looping([])
    ensures Step(s, AcquireNext(w, 0, Answered)) == Enter(s, w, Idle)
  {
  }

  lemma EnterTwice(s: State, w: Id, a: Phase, b: Phase)
    ensures Enter(Enter(s, w, a), w, b) == Enter(s, w, b)
  {
  }

  lemma FailsToLoad(s: State, w: Id, held: Held)
    requires PhaseOf(s, w) == Holding(held, Loading, [])
    ensures Step(s, LoadMessage(w, false)) == Enter(s, w, Holding(held, Releasing, []))
  {
  }

  lemma ReleaseGoesThrough(s: State, w: Id, held: Held)
    requires PhaseOf(s, w) == Holding(held, Releasing, []) && held.id in s.rows
    requires IsLockedBy(s.rows[held.id], w) && s.rows[held.id].draft.companyId == held.companyId
    ensures Step(s, WriteRelease(w, 0, Answered)) == Moved(s, w, Looping([]), held.id, ReleaseAfterError(w, 0))
  {
    WriteGoesThrough(s, held.id, held.companyId, ReleaseAfterError(w, 0), None);
    hide Effect, Update;
  }

  lemma ErrorRound(s: State, w: Id, id: Id)
    requires id in s.rows
    ensures Run(Taken(s, w, id), [LoadMessage(w, false), WriteRelease(w, 0, Answered)] + [AcquireNext(w, 0, Answered)])
         == After(s, w, id, Errored)
  {
    hide Run, Step, Effect, IsLockedBy;
    var row, t := s.rows[id], Taken(s, w, id);
    var held, op := Held(id, row.draft.companyId, row.attempts + 1, |s.trace|), Acquire(w, row.availableAt);
    AcquiredIsLocked(w, row);
    FailsToLoad(t, w, held);
    var u := Enter(t, w, Holding(held, Releasing, []));
    ReleaseGoesThrough(u, w, held);
    var v := Moved(u, w, Looping([]), id, ReleaseAfterError(w, 0));
    EndsTheLoop(v, w);
    RunSnoc(t, [LoadMessage(w, false), WriteRelease(w, 0, Answered)], AcquireNext(w, 0, Answered));
    TwoSteps(t, LoadMessage(w, false), WriteRelease(w, 0, Answered));
    MovedTwice(s, w, id, Idle, Idle, op, ReleaseAfterError(w, 0));
    assert Enter(v, w, Idle).workers == s.workers[w := Idle];
  }

  lemma LoadsToSend(s: State, w: Id, held: Held)
    requires PhaseOf(s, w) == Holding(held, Loading, []) && held.id in s.rows
    requires IsLockedBy(s.rows[held.id], w) && s.rows[held.id].draft.companyId == held.companyId
    requires s.rows[held.id].customerId == None
    ensures Step(s, LoadMessage(w, true)) == Enter(s, w, Holding(held, Sending(s.rows[held.id]), []))
  {
  }

  lemma IsRefused(s: State, w: Id, held: Held, message: Row)
    requires PhaseOf(s, w) == Holding(held, Sending(message), []) && Sendable(message.draft)
    ensures Step(s, CallProvider(w, NotSent, RETRY_LATER)) == Enter(s, w, Holding(held, Settling(message, RETRY_LATER), []))
  {
    hide Sendable;
  }

  lemma IsRetried(s: State, w: Id, held: Held, message: Row, answer: Answer)
    requires PhaseOf(s, w) == Holding(held, Settling(message, answer), []) && held.id in s.rows
    requires answer.Refused? && answer.retryable
    requires IsLockedBy(s.rows[held.id], w) && s.rows[held.id].draft.companyId == held.companyId
    requires message.attempts < message.draft.maxAttempts
    ensures Step(s, WriteOutcome(w, 0, Answered))
         == Moved(s, w, Looping([]), held.id, ReleaseForRetry(w, 0, message.attempts, answer.code))
  {
    WriteGoesThrough(s, held.id, held.companyId, ReleaseForRetry(w, 0, message.attempts, answer.code), message.customerId);
    hide Effect, Update;
  }

  lemma RetryRound(s: State, w: Id, id: Id)
    requires id in s.rows && Possible(s.rows[id], Retried)
    ensures Run(Taken(s, w, id), [LoadMessage(w, true), CallProvider(w, NotSent, RETRY_LATER)]
                                 + [WriteOutcome(w, 0, Answered), AcquireNext(w, 0, Answered)])
         == After(s, w, id, Retried)
  {
    hide Run, Step, Effect, IsLockedBy, Sendable;
    var row, t := s.rows[id], Taken(s, w, id);
    var held, op := Held(id, row.draft.companyId, row.attempts + 1, |s.trace|), Acquire(w, row.availableAt);
    var message, back := t.rows[id], ReleaseForRetry(w, 0, row.attempts + 1, RETRY_LATER.code);
    AcquiredIsLocked(w, row);
    LoadsToSend(t, w, held);
    var sending := Enter(t, w, Holding(held, Sending(message), []));
    IsRefused(sending, w, held, message);
    EnterTwice(t, w, Holding(held, Sending(message), []), Holding(held, Settling(message, RETRY_LATER), []));
    var settling := Enter(t, w, Holding(held, Settling(message, RETRY_LATER), []));
    IsRetried(settling, w, held, message, RETRY_LATER);
    var v := Moved(settling, w, Looping([]), id, back);
    EndsTheLoop(v, w);
    RunAppend(t, [LoadMessage(w, true), CallProvider(w, NotSent, RETRY_LATER)],
              [WriteOutcome(w, 0, Answered), AcquireNext(w, 0, Answered)]);
    TwoSteps(t, LoadMessage(w, true), CallProvider(w, NotSent, RETRY_LATER));
    TwoSteps(settling, WriteOutcome(w, 0, Answered), AcquireNext(w, 0, Answered));
    MovedTwice(s, w, id, Idle, Idle, op, back);
    assert Enter(v, w, Idle).workers == s.workers[w := Idle];
  }

  lemma TakesUpPending(s: State, w: Id, id: Id)
    requires Inv(s) && PhaseOf(s, w) == Idle && id in s.rows && s.rows[id].status == Pending
    ensures Run(s, TakeUp(w, id, s.rows[id].draft.companyId, s.rows[id].availableAt)) == Taken(s, w, id)
  {
    hide Run, Inv, TakeUp, TallyOf, RowOk, Outcomes, Guard;
    RowIsOk(s, id);
    PendingIsReady(s.rows[id], TallyOf(s.trace, id), w);
    TakesUp(s, w, id, s.rows[id].availableAt);
  }

  lemma RoundRuns(s: State, w: Id, id: Id, why: Interruption)
    requires Inv(s) && PhaseOf(s, w) == Idle && id in s.rows && Possible(s.rows[id], why)
    ensures Run(s, Round(w, id, s.rows[id], why)) == After(s, w, id, why)
  {
    hide Run, Inv, After, Taken, TakeUp, RecoverLocks, Sendable;
    var row := s.rows[id];
    var take := TakeUp(w, id, row.draft.companyId, row.availableAt);
    TakesUpPending(s, w, id);
    match why
    case Crashed =>
      CrashRound(s, w, id);
      RunAppend(s, take, [Crash(w)] + RecoverLocks(w, Target(id, row.draft.companyId), row.availableAt + LOCK_TIMEOUT_MS));
    case Errored =>
      ErrorRound(s, w, id);
      RunAppend(s, take, [LoadMessage(w, false), WriteRelease(w, 0, Answered)] + [AcquireNext(w, 0, Answered)]);
    case Retried =>
      RetryRound(s, w, id);
      RunAppend(s, take, [LoadMessage(w, true), CallProvider(w, NotSent, RETRY_LATER)]
                         + [WriteOutcome(w, 0, Answered), AcquireNext(w, 0, Answered)]);
  }

  /** Ready for another round: the same message, one attempt and one interruption more. */
  predicate OneMore(s: State, t: State, w: Id, id: Id, why: Interruption) {
    && id in s.rows && id in t.rows && PhaseOf(t, w) == Idle
    && var before, after := s.rows[id], t.rows[id];
    && after.status == Pending && after.draft == before.draft && after.customerId == before.customerId
    && after.attempts == before.attempts + 1
    && FaultsOf(TallyOf(t.trace, id)) == FaultsOf(TallyOf(s.trace, id)) + (if why == Retried then 0 else 1)
  }

  lemma RoundCounts(s: State, w: Id, id: Id, why: Interruption)
    requires id in s.rows
    ensures OneMore(s, After(s, w, id, why), w, id, why)
  {
    var row := s.rows[id];
    var take, back := Wrote(id, Acquire(w, row.availableAt)), Wrote(id, GivenBack(w, row, why));
    assert s.trace + [take, back] == (s.trace + [take]) + [back];
    TallySnoc(s.trace, take, id);
    TallySnoc(s.trace + [take], back, id);
    hide TallyOf;
  }

  // ----- any number of rounds

  function Rounds(s: State, w: Id, id: Id, why: Interruption, n: nat): seq<Action>
    decreases n
  {
    if n == 0 || id !in s.rows then []
    else
      var round := Round(w, id, s.rows[id], why);
      round + Rounds(Run(s, round), w, id, why, n - 1)
  }

  lemma {:induction false} RoundsAddUp(s: State, w: Id, id: Id, why: Interruption, n: nat)
    requires Inv(s) && PhaseOf(s, w) == Idle && id in s.rows && s.rows[id].status == Pending
    requires why == Retried && n > 0 ==>
      s.rows[id].customerId == None && Sendable(s.rows[id].draft) && s.rows[id].attempts + n < s.rows[id].draft.maxAttempts
    ensures var t := Run(s, Rounds(s, w, id, why, n));
      && Inv(t) && PhaseOf(t, w) == Idle && id in t.rows && t.rows[id].status == Pending && t.rows[id].draft == s.rows[id].draft
      && t.rows[id].attempts == s.rows[id].attempts + n
      && FaultsOf(TallyOf(t.trace, id)) == FaultsOf(TallyOf(s.trace, id)) + (if why == Retried then 0 else n)
    decreases n
  {
    hide Run, Inv, Round, After, Sendable, TallyOf, Effect;
    if n == 0 {
      NoActions(s);
    } else {
      var round := Round(w, id, s.rows[id], why);
      var t := Run(s, round);
      RoundRuns(s, w, id, why);
      RoundCounts(s, w, id, why);
      RunKeepsInv(s, round);
      RoundsAddUp(t, w, id, why, n - 1);
      RunAppend(s, round, Rounds(t, w, id, why, n - 1));
    }
  }

  lemma NoActions(s: State)
    ensures Run(s, []) == s
  {
  }

  /**
   * Attempts have no bound of their own: from every reachable state a pending message can be attempted any
   * number of times more, each attempt ending in a lock that is recovered, or each in an error.
   */
  lemma AttemptsHaveNoBound(actions: seq<Action>, w: Id, id: Id, why: Interruption, n: nat)
    requires var s := Run(EMPTY, actions); id in s.rows && s.rows[id].status == Pending && PhaseOf(s, w) == Idle
    requires why != Retried
    ensures var s, t := Run(EMPTY, actions), Run(Run(EMPTY, actions), Rounds(Run(EMPTY, actions), w, id, why, n));
      && id in t.rows && t.rows[id].status == Pending && t.rows[id].attempts == s.rows[id].attempts + n
      && FaultsOf(TallyOf(t.trace, id)) == FaultsOf(TallyOf(s.trace, id)) + n
  {
    hide Run, Inv, Rounds, TallyOf;
    EveryRunIsOk(actions);
    RoundsAddUp(Run(EMPTY, actions), w, id, why, n);
  }

  // ----- the bound is reached

  lemma InsertAlone(id: Id, draft: Draft)
    requires draft.customerId == None
    ensures var s := Run(EMPTY, [Insert(id, draft)]);
      s == EMPTY.(rows := map[id := NewRow(draft.(key := Trim(draft.key)))])
  {
    hide Trim;
    OneStep(EMPTY, Insert(id, draft));
  }

  /** After so many retries and so many faults, one attempt more: all that the bound allows. */
  function ToTheBound(w: Id, id: Id, draft: Draft, faults: nat): seq<Action> {
    var s := Run(EMPTY, [Insert(id, draft)]);
    var retries := Rounds(s, w, id, Retried, AtLeastOne(draft.maxAttempts) - 1);
    var t := Run(s, retries);
    var interrupted := Rounds(t, w, id, Crashed, faults);
    var u := Run(t, interrupted);
    [Insert(id, draft)] + (retries + (interrupted +
      if id in u.rows then TakeUp(w, id, u.rows[id].draft.companyId, u.rows[id].availableAt) else []))
  }

  /** The bound of `AttemptsAreConserved` is the best one: for every `maxAttempts` and number of faults a run reaches it. */
  lemma BoundIsReached(w: Id, id: Id, draft: Draft, faults: nat)
    requires draft.customerId == None && Sendable(draft)
    ensures var t := Run(EMPTY, ToTheBound(w, id, draft, faults));
      && id in t.rows && t.rows[id].draft.maxAttempts == draft.maxAttempts
      && FaultsOf(TallyOf(t.trace, id)) == faults
      && t.rows[id].attempts == AtLeastOne(draft.maxAttempts) + faults
  {
    hide Run, Rounds, Inv, TallyOf, Trim, TakeUp;
    var s := Run(EMPTY, [Insert(id, draft)]);
    InsertAlone(id, draft);
    EveryRunIsOk([Insert(id, draft)]);
    NothingCounted(id);
    var retries := Rounds(s, w, id, Retried, AtLeastOne(draft.maxAttempts) - 1);
    RoundsAddUp(s, w, id, Retried, AtLeastOne(draft.maxAttempts) - 1);
    var t := Run(s, retries);
    var interrupted := Rounds(t, w, id, Crashed, faults);
    RoundsAddUp(t, w, id, Crashed, faults);
    var u := Run(t, interrupted);
    var take := TakeUp(w, id, u.rows[id].draft.companyId, u.rows[id].availableAt);
    OneMoreAttempt(u, w, id);
    RunAppend(t, interrupted, take);
    RunAppend(s, retries, interrupted + take);
    RunAppend(EMPTY, [Insert(id, draft)], retries + (interrupted + take));
  }

  lemma NothingCounted(id: Id)
    ensures FaultsOf(TallyOf([], id)) == 0
  {
  }

  lemma OneMoreAttempt(s: State, w: Id, id: Id)
    requires Inv(s) && PhaseOf(s, w) == Idle && id in s.rows && s.rows[id].status == Pending
    ensures var t := Run(s, TakeUp(w, id, s.rows[id].draft.companyId, s.rows[id].availableAt));
      && id in t.rows && t.rows[id].draft == s.rows[id].draft && t.rows[id].attempts == s.rows[id].attempts + 1
      && t.trace == s.trace + [Wrote(id, Acquire(w, s.rows[id].availableAt))]
      && FaultsOf(TallyOf(t.trace, id)) == FaultsOf(TallyOf(s.trace, id))
  {
    hide Run, Inv, TallyOf, Outcomes, TakeUp;
    RowIsOk(s, id);
    PendingIsReady(s.rows[id], TallyOf(s.trace, id), w);
    TakesUp(s, w, id, s.rows[id].availableAt);
    TallySnoc(s.trace, Wrote(id, Acquire(w, s.rows[id].availableAt)), id);
  }

  // ----- together

  ghost predicate WithinMaxAttempts(s: State) {
    forall id :: id in s.rows ==> s.rows[id].attempts <= AtLeastOne(s.rows[id].draft.maxAttempts)
  }

  lemma OthersAreNotCounted(t: Tally, event: Event, id: Id)
    requires !IsFault(event)
    ensures FaultsOf(CountEvent(t, event, id)) == FaultsOf(t)
  {
  }

  lemma {:induction false} NoFaultsCounted(trace: seq<Event>, id: Id)
    requires forall k :: 0 <= k < |trace| ==> !IsFault(trace[k])
    ensures FaultsOf(TallyOf(trace, id)) == 0
    decreases |trace|
  {
    hide TallyOf, CountEvent, IsFault;
    if trace == [] {
      NothingCounted(id);
    } else {
      var init, last := trace[..|trace| - 1], trace[|trace| - 1];
      assert trace == init + [last];
      assert !IsFault(trace[|trace| - 1]);
      NoFaultsCounted(init, id);
      TallySnoc(init, last, id);
      OthersAreNotCounted(TallyOf(init, id), last, id);
    }
  }

  /** A deployment in which nothing but this may happen. */
  function OnlyFor(why: Interruption): Deployment { Deployment(why == Crashed, why == Errored, why == Retried) }

  lemma RoundIsAllowed(w: Id, id: Id, row: Row, why: Interruption)
    ensures OnlyFor(why).Allowed(Round(w, id, row, why))
  {
  }

  lemma TakeUpIsAllowed(d: Deployment, w: Id, id: Id, companyId: Id, now: int)
    ensures d.Allowed(TakeUp(w, id, companyId, now))
  {
  }

  /** A message of one attempt only, interrupted once, and taken up again. */
  function SecondAttempt(w: Id, id: Id, draft: Draft, why: Interruption): seq<Action> {
    var s := Run(EMPTY, [Insert(id, draft)]);
    if id !in s.rows then []
    else
      var t := After(s, w, id, why);
      [Insert(id, draft)] + (Round(w, id, s.rows[id], why)
                             + TakeUp(w, id, t.rows[id].draft.companyId, t.rows[id].availableAt))
  }

  lemma SecondAttemptHappens(w: Id, id: Id, draft: Draft, why: Interruption)
    requires draft.customerId == None && draft.maxAttempts == 1 && why != Retried
    ensures OnlyFor(why).Allowed(SecondAttempt(w, id, draft, why))
    ensures !WithinMaxAttempts(Run(EMPTY, SecondAttempt(w, id, draft, why)))
  {
    hide Run, Inv, TallyOf, Trim, TakeUp, Round, Effect;
    var s := Run(EMPTY, [Insert(id, draft)]);
    InsertAlone(id, draft);
    EveryRunIsOk([Insert(id, draft)]);
    var round, t := Round(w, id, s.rows[id], why), After(s, w, id, why);
    RoundRuns(s, w, id, why);
    RoundCounts(s, w, id, why);
    RunKeepsInv(s, round);
    OneMoreAttempt(t, w, id);
    var take := TakeUp(w, id, t.rows[id].draft.companyId, t.rows[id].availableAt);
    RunAppend(s, round, take);
    RunAppend(EMPTY, [Insert(id, draft)], round + take);
    RoundIsAllowed(w, id, s.rows[id], why);
    TakeUpIsAllowed(OnlyFor(why), w, id, t.rows[id].draft.companyId, t.rows[id].availableAt);
    AllowedParts(OnlyFor(why), round, take);
    AllowedParts(OnlyFor(why), [Insert(id, draft)], round + take);
  }

  /**
   * In all runs that a deployment allows every message stays within `maxAttempts` if and only if no expired lock is
   * ever found and no database call fails while a message is processed.
   */
  lemma AttemptsAreBoundedExactlyWhen(d: Deployment)
    ensures (forall actions :: d.Allowed(actions) ==> WithinMaxAttempts(Run(EMPTY, actions))) <==> !d.expiring && !d.failing
  {
    hide Run, SecondAttempt, TallyOf, WithinMaxAttempts;
    if d.expiring || d.failing {
      var why := if d.expiring then Crashed else Errored;
      var draft := Draft(Id("a"), None, None, None, "", TextPayload, 0, 1);
      SecondAttemptHappens(Id("a"), Id("a"), draft, why);
      AllowingMore(d, OnlyFor(why), SecondAttempt(Id("a"), Id("a"), draft, why));
    } else {
      forall actions | d.Allowed(actions) ensures WithinMaxAttempts(Run(EMPTY, actions)) { StaysWithin(d, actions); }
    }
  }

  lemma StaysWithin(d: Deployment, actions: seq<Action>)
    requires !d.expiring && !d.failing && d.Allowed(actions)
    ensures WithinMaxAttempts(Run(EMPTY, actions))
  {
    hide Run, TallyOf, FindsExpired, ProcessingFails, IsFault;
    forall k | 0 <= k < |actions| ensures !FindsExpired(actions[k]) && !ProcessingFails(actions[k]) {
      assert d.Allows(actions[k]);
    }
    forall k | 0 <= k < |Run(EMPTY, actions).trace| ensures !IsFault(Run(EMPTY, actions).trace[k]) {
      NoFaultsWithoutDecisions(actions, k);
    }
    forall id | id in Run(EMPTY, actions).rows
      ensures Run(EMPTY, actions).rows[id].attempts <= AtLeastOne(Run(EMPTY, actions).rows[id].draft.maxAttempts)
    {
      AttemptsAreConserved(actions, id);
      NoFaultsCounted(Run(EMPTY, actions).trace, id);
    }
  }
}
