/**
 * When a message can reach its customer twice: exactly in deployments where expired locks are found, where database
 * calls fail during processing, or where a message goes out and the worker is told that it may try again.
 */
module RepeatedDeliveries {
  import opened AttemptBounds
  import opened Basics
  import opened Deployments
  import opened OutboundRow
  import opened QueueInvariants
  import opened QueueMachine
  import opened QueueProgress
  import opened QueueRuns
  import opened QueueSteps
  import opened RepeatedCalls
  import opened Text

  /** No two calls sent the message out, whatever the worker was told. */
  ghost predicate DeliveredOnce(actions: seq<Action>) {
    forall i, j, v, w, id, since, later, first, second ::
      (CallsAt(actions, i, v, id, since, WentOut, first) && CallsAt(actions, j, w, id, later, WentOut, second)) ==>
        i == j
  }

  const ACCEPTED := Accepted(Evolution, Id("m"))
  const TIMED_OUT := Refused("PROVIDER_TIMEOUT", true)

  /** What the worker is told of the call that sends the message out. */
  function Told(why: Interruption): Answer { if why == Retried then TIMED_OUT else ACCEPTED }

  // ----- a call that sends the message out, and a message that is pending all the same

  function Message(w: Id, row: Row): Row { Effect(row, Acquire(w, row.availableAt)) }

  function HeldBy(s: State, id: Id): Held
    requires id in s.rows
  {
    Held(id, s.rows[id].draft.companyId, s.rows[id].attempts + 1, |s.trace|)
  }

  function Ready(s: State, w: Id, id: Id): State
    requires id in s.rows
  {
    Enter(Taken(s, w, id), w, Holding(HeldBy(s, id), Sending(Message(w, s.rows[id])), []))
  }

  function GetReady(w: Id, id: Id, row: Row): seq<Action> {
    TakeUp(w, id, row.draft.companyId, row.availableAt) + [LoadMessage(w, true)]
  }

  predicate CanGoOut(s: State, w: Id, id: Id) {
    && PhaseOf(s, w) == Idle && id in s.rows && s.rows[id].status == Pending
    && s.rows[id].customerId == None && Sendable(s.rows[id].draft)
  }

  lemma GetsReady(s: State, w: Id, id: Id)
    requires Inv(s) && CanGoOut(s, w, id)
    ensures Run(s, GetReady(w, id, s.rows[id])) == Ready(s, w, id)
  {
    hide Run, Step, Inv, TakeUp, Sendable, IsLockedBy, Effect;
    var row := s.rows[id];
    TakesUpPending(s, w, id);
    RunSnoc(s, TakeUp(w, id, row.draft.companyId, row.availableAt), LoadMessage(w, true));
    AcquiredIsLocked(w, row);
    LoadsToSend(Taken(s, w, id), w, HeldBy(s, id));
  }

  function JustCalled(s: State, w: Id, id: Id, answer: Answer): State
    requires id in s.rows
  {
    Enter(Taken(s, w, id).(trace := Taken(s, w, id).trace + [Called(w, id, |s.trace|)]), w,
          Holding(HeldBy(s, id), Settling(Message(w, s.rows[id]), answer), []))
  }

  lemma IsAnswered(s: State, w: Id, held: Held, message: Row, answer: Answer)
    requires PhaseOf(s, w) == Holding(held, Sending(message), []) && Sendable(message.draft)
    ensures Step(s, CallProvider(w, WentOut, answer))
         == Enter(s.(trace := s.trace + [Called(w, held.id, held.since)]), w, Holding(held, Settling(message, answer), []))
  {
    hide Sendable;
  }

  lemma CallIsAnswered(s: State, w: Id, id: Id, answer: Answer)
    requires id in s.rows && Sendable(s.rows[id].draft)
    ensures Step(Ready(s, w, id), CallProvider(w, WentOut, answer)) == JustCalled(s, w, id, answer)
  {
    hide Step, Sendable, Effect, Moved;
    EffectsKeepTheDraft(s.rows[id], Acquire(w, s.rows[id].availableAt));
    IsAnswered(Ready(s, w, id), w, HeldBy(s, id), Message(w, s.rows[id]), answer);
    EnterTwice(Taken(s, w, id), w, Holding(HeldBy(s, id), Sending(Message(w, s.rows[id])), []),
               Holding(HeldBy(s, id), Settling(Message(w, s.rows[id]), answer), []));
  }

  /**
   * The worker crashes before it can write the outcome; or that write is lost and the message released; or the
   * answer was lost on the way, and the message is released for a retry.
   */
  function GiveBack(w: Id, id: Id, row: Row, why: Interruption): seq<Action> {
    match why
    case Crashed => [Crash(w)] + RecoverLocks(w, Target(id, row.draft.companyId), row.availableAt + LOCK_TIMEOUT_MS)
    case Errored => [WriteOutcome(w, 0, LostBefore), WriteRelease(w, 0, Answered)] + [AcquireNext(w, 0, Answered)]
    case Retried => [WriteOutcome(w, 0, Answered), AcquireNext(w, 0, Answered)]
  }

  function FreedBy(w: Id, row: Row, why: Interruption): RowOp {
    if why == Retried then ReleaseForRetry(w, 0, row.attempts + 1, TIMED_OUT.code) else GivenBack(w, row, why)
  }

  function RowFreed(w: Id, row: Row, why: Interruption): Row { Effect(Message(w, row), FreedBy(w, row, why)) }

  function GivenUp(s: State, w: Id, id: Id, why: Interruption): State
    requires id in s.rows
  {
    Moved(JustCalled(s, w, id, Told(why)), w, Idle, id, FreedBy(w, s.rows[id], why))
  }

  lemma CrashStopsAnyone(s: State, w: Id)
    ensures Step(s, Crash(w)) == Enter(s, w, Idle)
  {
  }

  lemma CrashGivesBack(s: State, w: Id, id: Id)
    requires id in s.rows
    ensures Run(JustCalled(s, w, id, ACCEPTED), GiveBack(w, id, s.rows[id], Crashed)) == GivenUp(s, w, id, Crashed)
  {
    hide Run, Step, Effect, Guard, RecoverLocks;
    var row, called := s.rows[id], JustCalled(s, w, id, ACCEPTED);
    var now := row.availableAt + LOCK_TIMEOUT_MS;
    var stopped := Enter(called, w, Idle);
    CrashStopsAnyone(called, w);
    OneStep(called, Crash(w));
    RunAppend(called, [Crash(w)], RecoverLocks(w, Target(id, row.draft.companyId), now));
    TakenLocksTimeOut(w, row);
    EffectsKeepTheDraft(row, Acquire(w, row.availableAt));
    Recovers(stopped, w, id, now);
    assert Moved(stopped, w, Idle, id, RecoverLock(row.availableAt, now)).workers == s.workers[w := Idle];
  }

  lemma OutcomeIsLost(s: State, w: Id, held: Held, message: Row)
    requires PhaseOf(s, w) == Holding(held, Settling(message, ACCEPTED), [])
    ensures Step(s, WriteOutcome(w, 0, LostBefore)) == Enter(s, w, Holding(held, Releasing, []))
  {
  }

  lemma AfterTheCall(s: State, w: Id, id: Id, answer: Answer)
    requires id in s.rows
    ensures var t, held, message := JustCalled(s, w, id, answer), HeldBy(s, id), Message(w, s.rows[id]);
      && PhaseOf(t, w) == Holding(held, Settling(message, answer), [])
      && id in t.rows && t.rows[id] == message && IsLockedBy(message, w) && message.draft == s.rows[id].draft
      && message.attempts == s.rows[id].attempts + 1
  {
    hide Effect, IsLockedBy;
    AcquiredIsLocked(w, s.rows[id]);
  }

  lemma ErrorGivesBack(s: State, w: Id, id: Id)
    requires id in s.rows
    ensures Run(JustCalled(s, w, id, ACCEPTED), GiveBack(w, id, s.rows[id], Errored)) == GivenUp(s, w, id, Errored)
  {
    hide Run, Step, Effect, IsLockedBy, JustCalled, Message;
    var row, called, held := s.rows[id], JustCalled(s, w, id, ACCEPTED), HeldBy(s, id);
    AfterTheCall(s, w, id, ACCEPTED);
    OutcomeIsLost(called, w, held, Message(w, row));
    var u := Enter(called, w, Holding(held, Releasing, []));
    ReleaseGoesThrough(u, w, held);
    var v := Moved(u, w, Looping([]), id, ReleaseAfterError(w, 0));
    EndsTheLoop(v, w);
    RunSnoc(called, [WriteOutcome(w, 0, LostBefore), WriteRelease(w, 0, Answered)], AcquireNext(w, 0, Answered));
    TwoSteps(called, WriteOutcome(w, 0, LostBefore), WriteRelease(w, 0, Answered));
    EnterThrice(called, w, Holding(held, Releasing, []), Looping([]), Idle);
  }

  lemma RetryGivesBack(s: State, w: Id, id: Id)
    requires id in s.rows && s.rows[id].attempts + 1 < s.rows[id].draft.maxAttempts
    ensures Run(JustCalled(s, w, id, TIMED_OUT), GiveBack(w, id, s.rows[id], Retried)) == GivenUp(s, w, id, Retried)
  {
    hide Run, Step, Effect, IsLockedBy, JustCalled, Message;
    var row, called, held := s.rows[id], JustCalled(s, w, id, TIMED_OUT), HeldBy(s, id);
    AfterTheCall(s, w, id, TIMED_OUT);
    IsRetried(called, w, held, Message(w, row), TIMED_OUT);
    var v := Moved(called, w, Looping([]), id, ReleaseForRetry(w, 0, row.attempts + 1, TIMED_OUT.code));
    EndsTheLoop(v, w);
    TwoSteps(called, WriteOutcome(w, 0, Answered), AcquireNext(w, 0, Answered));
    EnterThrice(called, w, Looping([]), Looping([]), Idle);
  }

  /** Another attempt is left, where the interruption leaves it to `maxAttempts`. */
  predicate HasRoom(row: Row, why: Interruption) { why == Retried ==> row.attempts + 1 < row.draft.maxAttempts }

  lemma GivenUpGoesOutAgain(s: State, w: Id, id: Id, why: Interruption)
    requires CanGoOut(s, w, id)
    ensures var t := GivenUp(s, w, id, why); CanGoOut(t, w, id) && t.rows[id] == RowFreed(w, s.rows[id], why)
  {
    hide Sendable;
  }

  // ----- twice

  function SendsOut(w: Id, why: Interruption): seq<Action> { [CallProvider(w, WentOut, Told(why))] }

  function FirstHalf(w: Id, id: Id, row: Row, why: Interruption): seq<Action> {
    GetReady(w, id, row) + SendsOut(w, why) + GiveBack(w, id, row, why)
  }

  lemma FirstHalfRuns(s: State, w: Id, id: Id, why: Interruption)
    requires Inv(s) && CanGoOut(s, w, id) && HasRoom(s.rows[id], why)
    ensures Run(s, FirstHalf(w, id, s.rows[id], why)) == GivenUp(s, w, id, why)
  {
    hide Run, Step, Inv, GetReady, GiveBack, Sendable, Ready, JustCalled, GivenUp;
    var row := s.rows[id];
    GetsReady(s, w, id);
    RunSnoc(s, GetReady(w, id, row), CallProvider(w, WentOut, Told(why)));
    CallIsAnswered(s, w, id, Told(why));
    RunAppend(s, GetReady(w, id, row) + SendsOut(w, why), GiveBack(w, id, row, why));
    match why
    case Crashed => CrashGivesBack(s, w, id);
    case Errored => ErrorGivesBack(s, w, id);
    case Retried => RetryGivesBack(s, w, id);
  }

  lemma ReadyTrace(s: State, w: Id, id: Id, answer: Answer)
    requires id in s.rows
    ensures JustCalled(s, w, id, answer).trace == Ready(s, w, id).trace + [Called(w, id, |s.trace|)]
  {
    hide Effect;
  }

  function Twice(w: Id, id: Id, draft: Draft, why: Interruption): seq<Action> {
    var row := NewRow(draft.(key := Trim(draft.key)));
    [Insert(id, draft)] + FirstHalf(w, id, row, why) + GetReady(w, id, RowFreed(w, row, why)) + SendsOut(w, Crashed)
  }

  lemma InsertedGoesOut(w: Id, id: Id, draft: Draft)
    requires draft.customerId == None && Sendable(draft)
    ensures var s := Run(EMPTY, [Insert(id, draft)]);
      Inv(s) && CanGoOut(s, w, id) && s.rows[id] == NewRow(draft.(key := Trim(draft.key)))
  {
    hide Run, Inv, Trim;
    InsertAlone(id, draft);
    EveryRunIsOk([Insert(id, draft)]);
  }

  /** A call in the middle of a schedule. */
  lemma CallAfter(before: seq<Action>, rest: seq<Action>, s: State, w: Id, id: Id, why: Interruption)
    requires id in s.rows && Sendable(s.rows[id].draft) && Run(EMPTY, before) == Ready(s, w, id)
    ensures CallsAt(before + SendsOut(w, why) + rest, |before|, w, id, |s.trace|, WentOut, Told(why))
  {
    hide Run, Step, Ready, JustCalled, Sendable;
    var actions := before + SendsOut(w, why) + rest;
    assert actions[..|before|] == before && actions[|before|] == CallProvider(w, WentOut, Told(why));
    CallIsAnswered(s, w, id, Told(why));
    ReadyTrace(s, w, id, Told(why));
  }

  lemma CanGoOutMeans(s: State, w: Id, id: Id)
    requires CanGoOut(s, w, id)
    ensures id in s.rows && Sendable(s.rows[id].draft)
  {
  }

  /** A message that goes out twice, and the second time is accepted. */
  lemma TwiceHappens(w: Id, id: Id, draft: Draft, why: Interruption)
    requires draft.customerId == None && Sendable(draft) && (why == Retried ==> draft.maxAttempts >= 2)
    ensures !DeliveredOnce(Twice(w, id, draft, why))
    ensures OnlyFor(why).Allowed(Twice(w, id, draft, why))
  {
    hide Run, Step, Inv, GetReady, GiveBack, SendsOut, Sendable, Ready, JustCalled, GivenUp, Effect, Trim, CallsAt, CanGoOut;
    var insert := [Insert(id, draft)];
    var s := Run(EMPTY, insert);
    InsertedGoesOut(w, id, draft);
    CanGoOutMeans(s, w, id);
    var row, again := s.rows[id], RowFreed(w, s.rows[id], why);
    var first, second := insert + GetReady(w, id, row), insert + FirstHalf(w, id, row, why) + GetReady(w, id, again);
    GetsReady(s, w, id);
    RunAppend(EMPTY, insert, GetReady(w, id, row));
    FirstHalfRuns(s, w, id, why);
    RunAppend(EMPTY, insert, FirstHalf(w, id, row, why));
    var t := GivenUp(s, w, id, why);
    GivenUpGoesOutAgain(s, w, id, why);
    CanGoOutMeans(t, w, id);
    EveryRunIsOk(insert + FirstHalf(w, id, row, why));
    GetsReady(t, w, id);
    RunAppend(EMPTY, insert + FirstHalf(w, id, row, why), GetReady(w, id, again));
    var all := Twice(w, id, draft, why);
    var rest := GiveBack(w, id, row, why) + GetReady(w, id, again) + SendsOut(w, Crashed);
    assert all == first + SendsOut(w, why) + rest && all == second + SendsOut(w, Crashed) + [];
    CallAfter(first, rest, s, w, id, why);
    CallAfter(second, [], t, w, id, Crashed);
    assert |first| < |second| by { SomethingIsSent(w, why); }
    TwiceIsAllowed(w, id, draft, why);
  }

  lemma SomethingIsSent(w: Id, why: Interruption)
    ensures |SendsOut(w, why)| == 1
  {
  }

  lemma TwiceIsAllowed(w: Id, id: Id, draft: Draft, why: Interruption)
    ensures OnlyFor(why).Allowed(Twice(w, id, draft, why))
  {
    var row := NewRow(draft.(key := Trim(draft.key)));
    var again := RowFreed(w, row, why);
    hide Trim, RowFreed;
    ReadyIsAllowed(OnlyFor(why), w, id, row);
    ReadyIsAllowed(OnlyFor(why), w, id, again);
    GiveBackIsAllowed(w, id, row, why);
    hide GetReady, GiveBack;
    AllowedParts(OnlyFor(why), GetReady(w, id, row), SendsOut(w, why));
    AllowedParts(OnlyFor(why), GetReady(w, id, row) + SendsOut(w, why), GiveBack(w, id, row, why));
    AllowedParts(OnlyFor(why), [Insert(id, draft)], FirstHalf(w, id, row, why));
    AllowedParts(OnlyFor(why), [Insert(id, draft)] + FirstHalf(w, id, row, why), GetReady(w, id, again));
    AllowedParts(OnlyFor(why), [Insert(id, draft)] + FirstHalf(w, id, row, why) + GetReady(w, id, again), SendsOut(w, Crashed));
  }

  lemma ReadyIsAllowed(d: Deployment, w: Id, id: Id, row: Row)
    ensures d.Allowed(GetReady(w, id, row))
  {
    TakeUpIsAllowed(d, w, id, row.draft.companyId, row.availableAt);
    hide TakeUp;
    AllowedParts(d, TakeUp(w, id, row.draft.companyId, row.availableAt), [LoadMessage(w, true)]);
  }

  lemma GiveBackIsAllowed(w: Id, id: Id, row: Row, why: Interruption)
    ensures OnlyFor(why).Allowed(GiveBack(w, id, row, why))
  {
  }

  // ----- together

  /** Where none of the three happens, a call that sent the message out is the last one for it. */
  lemma NoReasonToCallAgain(d: Deployment, actions: seq<Action>, i: nat, w: Id, id: Id, since: nat, answer: Answer, later: nat)
    requires d == Deployment(false, false, false) && d.Allowed(actions)
    requires CallsAt(actions, i, w, id, since, WentOut, answer)
    ensures !ReasonBetween(Run(EMPTY, actions).trace, since, later, id, answer)
  {
    hide Run, Step, FindsExpired, ProcessingFails, IsFault;
    assert d.Allows(actions[i]);
    forall k | 0 <= k < |actions| ensures !FindsExpired(actions[k]) && !ProcessingFails(actions[k]) {
      assert d.Allows(actions[k]);
    }
    forall k: nat | k < |Run(EMPTY, actions).trace| ensures !IsFault(Run(EMPTY, actions).trace[k]) {
      NoFaultsWithoutDecisions(actions, k);
    }
  }

  lemma DeliversOnce(d: Deployment, actions: seq<Action>)
    requires d == Deployment(false, false, false) && d.Allowed(actions)
    ensures DeliveredOnce(actions)
  {
    hide Run, CallsAt, ReasonBetween;
    forall i, j, v, w, id, since, later, first, second |
      CallsAt(actions, i, v, id, since, WentOut, first) && CallsAt(actions, j, w, id, later, WentOut, second)
      ensures i == j
    {
      if i != j {
        CalledTwiceNeedsAReason(actions, i, j, v, w, id, since, later, WentOut, WentOut, first, second);
        NoReasonToCallAgain(d, actions, i, v, id, since, first, later);
        NoReasonToCallAgain(d, actions, j, w, id, later, second, since);
      }
    }
  }

  /**
   * In all runs that a deployment allows every message goes out at most once, if and only if no expired lock is ever
   * found, no database call fails while a message is processed, and no call that sent a message out is answered with
   * an error that allows a retry, as a timeout is.
   */
  lemma DeliveredOnceExactlyWhen(d: Deployment)
    ensures (forall actions :: d.Allowed(actions) ==> DeliveredOnce(actions)) <==> d == Deployment(false, false, false)
  {
    hide Run, Twice, CallsAt, DeliveredOnce;
    if d == Deployment(false, false, false) {
      forall actions | d.Allowed(actions) ensures DeliveredOnce(actions) { DeliversOnce(d, actions); }
    } else {
      var why := if d.expiring then Crashed else if d.failing then Errored else Retried;
      var draft := Draft(Id("a"), None, None, Some(Id("a")), "", TextPayload, 0, 2);
      TwiceHappens(Id("a"), Id("a"), draft, why);
      AllowingMore(d, OnlyFor(why), Twice(Id("a"), Id("a"), draft, why));
    }
  }
}
