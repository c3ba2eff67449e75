/**
 * What an opt-out means for messages that are already queued. It stops every later acquisition,
 * with one exception: deleting the customer clears the reference that the consent check follows.
 */
module QueueOptOut {
  import opened Basics
  import opened Consent
  import opened DeliveryOrder
  import opened OutboundRow
  import opened Text
  import opened QueueMachine
  import opened QueueInvariants
  import opened QueueRuns
  import opened QueueSteps
  import opened QueueGuarantees
  import opened QueueProgress

  lemma {:induction false} BlockedPersists(trace: seq<Event>, c: Id, q: nat, p: nat)
    requires q <= p <= |trace| && Blocked(trace[..q], c)
    requires forall k :: q <= k < p ==> trace[k] != ConsentSet(c, true)
    ensures Blocked(trace[..p], c)
    decreases p
  {
    if q < p {
      BlockedPersists(trace, c, q, p - 1);
      assert trace[..p] == trace[..p - 1] + [trace[p - 1]];
      BlockedSnoc(trace[..p - 1], trace[p - 1], c);
    }
  }

  /**
   * Whoever is called was not opted out at some moment after the acquisition that makes the call,
   * unless the customer had been deleted. The message is the one acquired at `since`.
   */
  lemma CallsRespectConsent(actions: seq<Action>, a: Action, w: Id, id: Id, since: nat)
    requires var s := Run(EMPTY, actions); Step(s, a).trace == s.trace + [Called(w, id, since)]
    ensures var s := Run(EMPTY, actions);
      && id in s.rows && since < |s.trace|
      && s.trace[since].Wrote? && s.trace[since].id == id && s.trace[since].op.Acquire? && s.trace[since].op.worker == w
      && match s.rows[id].draft.customerId
         case None => true
         case Some(c) => c in s.retired || exists p :: since < p <= |s.trace| && !Blocked(s.trace[..p], c)
  {
    hide Run, Step, Inv, Blocked;
    EveryRunIsOk(actions);
    var s := Run(EMPTY, actions);
    StepAddsOneEvent(s, a);
    assert Step(s, a).trace[|s.trace|] == Called(w, id, since);
    WorkerIsOk(s, w);
  }

  /**
   * An opt-out that is on record at position `q` and not followed by a grant stops every
   * acquisition made after it, as long as the customer has not been deleted.
   */
  lemma OptOutHolds(actions: seq<Action>, a: Action, c: Id, q: nat, w: Id, id: Id, since: nat)
    requires var s := Run(EMPTY, actions);
      && q <= since && q <= |s.trace| && Blocked(s.trace[..q], c)
      && (forall k :: q <= k < |s.trace| ==> s.trace[k] != ConsentSet(c, true))
      && Step(s, a).trace == s.trace + [Called(w, id, since)]
    ensures var s := Run(EMPTY, actions);
      id in s.rows && (s.rows[id].draft.customerId == Some(c) ==> c in s.retired)
  {
    hide Run, Step, Blocked;
    var s := Run(EMPTY, actions);
    CallsRespectConsent(actions, a, w, id, since);
    if s.rows[id].draft.customerId == Some(c) && c !in s.retired {
      var p :| since < p <= |s.trace| && !Blocked(s.trace[..p], c);
      BlockedPersists(s.trace, c, q, p);
    }
  }

  // ----- the exact condition

  predicate Releases(a: Action, c: Id) {
    (a.SetConsent? && a.customerId == c && a.granted) || (a.DeleteCustomer? && a.customerId == c)
  }

  ghost predicate NeverReleases(actions: seq<Action>, c: Id) {
    forall k :: 0 <= k < |actions| ==> !Releases(actions[k], c)
  }

  /** The trace shows a call for the message by an acquisition made at or after position `q`. */
  ghost predicate CalledFrom(trace: seq<Event>, q: nat, id: Id) {
    exists k :: 0 <= k < |trace| && trace[k].Called? && trace[k].id == id && trace[k].since >= q
  }

  /** From the state on, some schedule without a grant or deletion of the customer gets the message sent out. */
  ghost predicate CanStillBeCalled(s: State, id: Id, c: Id) {
    exists more :: NeverReleases(more, c) && CalledFrom(Run(s, more).trace, |s.trace|, id)
  }

  ghost predicate CallsArePast(s: State) {
    forall k :: 0 <= k < |s.trace| && s.trace[k].Called? ==> s.trace[k].since < |s.trace|
  }

  lemma StepCallsForThePast(s: State, a: Action)
    requires Inv(s) && CallsArePast(s)
    ensures CallsArePast(Step(s, a))
  {
    hide Step, Inv;
    var t := Step(s, a);
    StepAddsOneEvent(s, a);
    if |t.trace| == |s.trace| + 1 && t.trace[|s.trace|].Called? { WorkerIsOk(s, a.worker); }
    forall k | 0 <= k < |t.trace| && t.trace[k].Called? ensures t.trace[k].since < |t.trace| {
      if k < |s.trace| { assert t.trace[k] == s.trace[k]; }
    }
  }

  lemma {:induction false} NoCallFromTheFuture(s: State, actions: seq<Action>)
    requires Inv(s) && CallsArePast(s)
    ensures CallsArePast(Run(s, actions))
    decreases actions
  {
    hide Step, Inv, CallsArePast;
    if actions != [] {
      StepKeepsInv(s, actions[0]);
      StepCallsForThePast(s, actions[0]);
      NoCallFromTheFuture(Step(s, actions[0]), actions[1..]);
    }
  }

  // ----- what a call after the opt-out would need

  /** An event on the trace was added at some moment of the schedule. */
  lemma {:induction false} EventHasAMoment(s: State, more: seq<Action>, k: nat) returns (n: nat)
    requires |s.trace| <= k < |Run(s, more).trace|
    ensures n < |more| && s.trace <= Run(s, more[..n]).trace && |Run(s, more[..n]).trace| == k
    ensures Step(Run(s, more[..n]), more[n]).trace == Run(s, more[..n]).trace + [Run(s, more).trace[k]]
    decreases |more|
  {
    hide Step;
    if more == [] {
      assert false;
    } else {
      hide Run;
      var init, last := more[..|more| - 1], more[|more| - 1];
      assert more == init + [last];
      RunSnoc(s, init, last);
      RunExtendsTrace(s, init);
      StepAddsOneEvent(Run(s, init), last);
      if k < |Run(s, init).trace| {
        n := EventHasAMoment(s, init, k);
        assert init[..n] == more[..n];
      } else {
        n := |more| - 1;
      }
    }
  }

  /** While nobody grants or deletes, an opt-out on record stays on record and its customer stays. */
  lemma {:induction false} OptOutLasts(s: State, more: seq<Action>, c: Id)
    requires Blocked(s.trace, c) && c !in s.retired && NeverReleases(more, c)
    ensures c !in Run(s, more).retired && s.trace <= Run(s, more).trace
    ensures forall p :: |s.trace| <= p <= |Run(s, more).trace| ==> Blocked(Run(s, more).trace[..p], c)
    decreases |more|
  {
    if more == [] {
      assert s.trace[..|s.trace|] == s.trace;
    } else {
      hide Run, Step, Blocked;
      var init, last := more[..|more| - 1], more[|more| - 1];
      assert more == init + [last];
      assert forall k :: 0 <= k < |init| ==> init[k] == more[k];
      OptOutLasts(s, init, c);
      RunSnoc(s, init, last);
      assert !Releases(more[|more| - 1], c);
      OptOutStays(Run(s, init), last, c, |s.trace|);
    }
  }

  lemma OptOutStays(s: State, a: Action, c: Id, q: nat)
    requires c !in s.retired && !Releases(a, c)
    requires q <= |s.trace| && forall p :: q <= p <= |s.trace| ==> Blocked(s.trace[..p], c)
    ensures c !in Step(s, a).retired && s.trace <= Step(s, a).trace
    ensures forall p :: q <= p <= |Step(s, a).trace| ==> Blocked(Step(s, a).trace[..p], c)
  {
    hide Step, Blocked;
    StepAddsOneEvent(s, a);
    OnlyDeletionRetires(s, a);
    var t := Step(s, a);
    assert s.trace[..|s.trace|] == s.trace;
    assert t.trace[..|t.trace|] == t.trace;
    forall p | q <= p <= |t.trace| ensures Blocked(t.trace[..p], c) {
      if p <= |s.trace| {
        assert t.trace[..p] == s.trace[..p];
      } else {
        assert t.trace == s.trace + [t.trace[|s.trace|]];
        BlockedSnoc(s.trace, t.trace[|s.trace|], c);
      }
    }
  }

  /** Each acquisition on the trace has been counted. */
  lemma {:induction false} AcquisitionsCount(trace: seq<Event>, q: nat, k: nat, id: Id)
    requires q <= k < |trace| && trace[k].Wrote? && trace[k].id == id && trace[k].op.Acquire?
    ensures TallyOf(trace[..q], id).acquired < TallyOf(trace, id).acquired
    decreases |trace|
  {
    var n := |trace| - 1;
    assert trace[..q] == trace[..n][..q];
    AcquiredGrows(trace[..n], q, id);
    if k < n { AcquisitionsCount(trace[..n], q, k, id); }
  }

  lemma {:induction false} AcquiredGrows(trace: seq<Event>, q: nat, id: Id)
    requires q <= |trace|
    ensures TallyOf(trace[..q], id).acquired <= TallyOf(trace, id).acquired
    decreases |trace|
  {
    if q == |trace| {
      assert trace[..q] == trace;
    } else {
      assert trace[..q] == trace[..|trace| - 1][..q];
      AcquiredGrows(trace[..|trace| - 1], q, id);
    }
  }

  /** A message that has ended is not acquired again. */
  lemma EndedMessagesRest(s: State, u: State, id: Id, since: nat)
    requires Inv(s) && Inv(u) && s.trace <= u.trace && id in s.rows && id in u.rows
    requires Succeeds(s.rows[id], u.rows[id]) && |s.trace| <= since < |u.trace|
    requires u.trace[since].Wrote? && u.trace[since].id == id && u.trace[since].op.Acquire?
    ensures !s.rows[id].status.IsTerminal()
  {
    hide Inv, TallyOf, LockColumnsAgree, ReceiptColumnsAgree, Outcomes, CanAdvance, Rank, LastUpdateExplains;
    RowIsOk(s, id);
    RowIsOk(u, id);
    AcquisitionsCount(u.trace, |s.trace|, since, id);
    assert u.trace[..|s.trace|] == s.trace;
  }

  lemma LateCallsAreNew(s: State, longer: seq<Event>, k: nat)
    requires CallsArePast(s) && s.trace <= longer && k < |longer| && longer[k].Called? && longer[k].since >= |s.trace|
    ensures k >= |s.trace|
  {
  }

  /** The schedule from `s` on that makes the call, and what the worker that makes it knows. */
  lemma CallsNeedAFreshAcquisition(s: State, more: seq<Action>, id: Id) returns (u: State, message: Row, since: nat)
    requires Inv(s) && CallsArePast(s) && id in s.rows && CalledFrom(Run(s, more).trace, |s.trace|, id)
    ensures Inv(u) && s.trace <= u.trace && id in u.rows && Succeeds(s.rows[id], u.rows[id])
    ensures exists n :: 0 <= n <= |more| && u == Run(s, more[..n])
    ensures |s.trace| <= since < |u.trace|
    ensures u.trace[since].Wrote? && u.trace[since].id == id && u.trace[since].op.Acquire?
    ensures Sendable(message.draft) && message.draft == s.rows[id].draft && ClearedSince(u.trace, since, message.customerId)
    ensures message.customerId.Some? ==> message.customerId == message.draft.customerId
    ensures message.customerId.None? && message.draft.customerId.Some? ==> message.draft.customerId.value in u.retired
  {
    hide Run, Step, Inv, Succeeds, ClearedSince, Untouched, Sendable, IsLockedBy;
    var trace := Run(s, more).trace;
    RunExtendsTrace(s, more);
    var k :| 0 <= k < |trace| && trace[k].Called? && trace[k].id == id && trace[k].since >= |s.trace|;
    LateCallsAreNew(s, trace, k);
    var n := EventHasAMoment(s, more, k);
    u, since := Run(s, more[..n]), trace[k].since;
    RunKeepsInv(s, more[..n]);
    RunSucceeds(s, more[..n], id);
    StepAddsOneEvent(u, more[n]);
    assert Step(u, more[n]).trace[|u.trace|] == trace[k];
    WorkerIsOk(u, trace[k].worker);
    message := PhaseOf(u, trace[k].worker).stage.message;
    SucceedingKeepsDraft(s.rows[id], u.rows[id]);
  }

  lemma SucceedingKeepsDraft(now: Row, later: Row)
    requires Succeeds(now, later)
    ensures later.draft == now.draft
  {
  }

  const NO_ANSWER := Refused("UNEXPECTED_PROVIDER_ERROR", true)

  function SendOut(w: Id): seq<Action> { [LoadMessage(w, true), CallProvider(w, NoEffect, NO_ANSWER)] }

  lemma SendsOut(s: State, w: Id, held: Held)
    requires PhaseOf(s, w) == Holding(held, Loading, [])
    requires held.id in s.rows && s.rows[held.id].draft.companyId == held.companyId && IsLockedBy(s.rows[held.id], w)
    requires s.rows[held.id].customerId == None && Sendable(s.rows[held.id].draft)
    ensures Run(s, SendOut(w)).trace == s.trace + [Called(w, held.id, held.since)]
  {
    hide Run, Sendable, RefusalBeforeCall;
    TwoSteps(s, LoadMessage(w, true), CallProvider(w, NoEffect, NO_ANSWER));
    assert PhaseOf(LoadMessageStep(s, w, true), w) == Holding(held, Sending(s.rows[held.id]), []);
  }

  function TakeUpAndSend(s: State, w: Id, id: Id): seq<Action>
    requires id in s.rows
  {
    TakeUp(w, id, s.rows[id].draft.companyId, s.rows[id].availableAt) + SendOut(w)
  }

  /** A message whose reference was cleared goes out without any consent check. */
  lemma DetachedMessagesGoOut(s: State, w: Id, id: Id)
    requires Inv(s) && PhaseOf(s, w) == Idle && id in s.rows && s.rows[id].status == Pending
    requires s.rows[id].customerId == None && Sendable(s.rows[id].draft)
    ensures var trace := Run(s, TakeUpAndSend(s, w, id)).trace;
      trace == s.trace + [Wrote(id, Acquire(w, s.rows[id].availableAt)), Called(w, id, |s.trace|)]
  {
    hide Run, Inv, Sendable, RowOk, TallyOf, Outcomes;
    var row := s.rows[id];
    var now := row.availableAt;
    var take := TakeUp(w, id, row.draft.companyId, now);
    RowIsOk(s, id);
    PendingIsReady(row, TallyOf(s.trace, id), w);
    TakesUp(s, w, id, now);
    RunAppend(s, take, SendOut(w));
    SendsOut(Run(s, take), w, Held(id, row.draft.companyId, row.attempts + 1, |s.trace|));
  }

  lemma CalledJustNow(trace: seq<Event>, longer: seq<Event>, w: Id, id: Id, now: int, q: nat)
    requires longer == trace + [Wrote(id, Acquire(w, now)), Called(w, id, |trace|)] && q <= |trace|
    ensures CalledFrom(longer, q, id)
  {
    assert longer[|trace| + 1] == Called(w, id, |trace|);
  }

  /** Also when it is being processed: its lock times out, and any worker takes it up again. */
  lemma DetachedMessagesCanBeCalled(s: State, w: Id, id: Id, c: Id)
    requires Inv(s) && PhaseOf(s, w) == Idle && id in s.rows && !s.rows[id].status.IsTerminal()
    requires s.rows[id].customerId == None && Sendable(s.rows[id].draft)
    ensures CanStillBeCalled(s, id, c)
  {
    hide Run, Inv, Sendable, TallyOf;
    if s.rows[id].status == Pending {
      DetachedMessagesGoOut(s, w, id);
      CalledJustNow(s.trace, Run(s, TakeUpAndSend(s, w, id)).trace, w, id, s.rows[id].availableAt, |s.trace|);
      assert NeverReleases(TakeUpAndSend(s, w, id), c);
    } else {
      var recovery := RecoveryOf(s, w, id);
      LocksAreGivenBack(s, w, id);
      var t := Run(s, recovery);
      DetachedMessagesGoOut(t, w, id);
      RunAppend(s, recovery, TakeUpAndSend(t, w, id));
      CalledJustNow(t.trace, Run(t, TakeUpAndSend(t, w, id)).trace, w, id, t.rows[id].availableAt, |s.trace|);
      assert NeverReleases(recovery + TakeUpAndSend(t, w, id), c);
    }
  }

  /** Neither does a referenced message go out, nor one that cannot be sent, nor one that has ended. */
  lemma OthersAreNotCalled(s: State, more: seq<Action>, id: Id, c: Id)
    requires Inv(s) && CallsArePast(s) && id in s.rows && s.rows[id].draft.customerId == Some(c)
    requires Blocked(s.trace, c) && NeverReleases(more, c) && CalledFrom(Run(s, more).trace, |s.trace|, id)
    ensures s.rows[id].customerId == None && Sendable(s.rows[id].draft) && !s.rows[id].status.IsTerminal()
  {
    hide Run, Inv, Succeeds, Sendable, Blocked, CallsArePast, CalledFrom;
    var u, message, since := CallsNeedAFreshAcquisition(s, more, id);
    EndedMessagesRest(s, u, id, since);
    if s.rows[id].customerId != None {
      ReferencedCustomersStay(s, id, c);
      var n :| 0 <= n <= |more| && u == Run(s, more[..n]);
      OptOutLasts(s, more[..n], c);
    }
  }

  lemma ReferencedCustomersStay(s: State, id: Id, c: Id)
    requires Inv(s) && id in s.rows && s.rows[id].draft.customerId == Some(c) && s.rows[id].customerId != None
    ensures c !in s.retired
  {
    assert ReferenceOk(s, s.rows[id]) && ConsentOk(s, c);
  }

  /**
   * Exactly which messages an opt-out on record does not stop: those that have lost their reference to the
   * customer, can be sent at all and have not ended. For them a schedule that neither grants nor deletes
   * calls the provider; for every other message no such schedule does.
   */
  lemma OptOutStopsExactlyReferencedMessages(actions: seq<Action>, id: Id, c: Id, w: Id)
    requires var s := Run(EMPTY, actions);
      id in s.rows && s.rows[id].draft.customerId == Some(c) && Blocked(s.trace, c) && PhaseOf(s, w) == Idle
    ensures var s := Run(EMPTY, actions);
      var row := s.rows[id];
      CanStillBeCalled(s, id, c) <==> row.customerId == None && Sendable(row.draft) && !row.status.IsTerminal()
  {
    hide Run, Inv, Sendable, Blocked, CallsArePast, CalledFrom;
    var s := Run(EMPTY, actions);
    EveryRunIsOk(actions);
    NobodyCalledAtFirst(actions);
    var row := s.rows[id];
    if row.customerId == None && Sendable(row.draft) && !row.status.IsTerminal() {
      DetachedMessagesCanBeCalled(s, w, id, c);
    } else {
      forall more | NeverReleases(more, c) ensures !CalledFrom(Run(s, more).trace, |s.trace|, id) {
        if CalledFrom(Run(s, more).trace, |s.trace|, id) { OthersAreNotCalled(s, more, id, c); }
      }
    }
  }

  lemma NobodyCalledAtFirst(actions: seq<Action>)
    ensures CallsArePast(Run(EMPTY, actions))
  {
    hide Run, Inv;
    EmptyOk();
    NoCallFromTheFuture(EMPTY, actions);
  }

  // ----- a run in which the opt-out does not hold

  /** A customer with a queued message opts out and is then deleted. */
  function DeletedAfterOptOut(c: Id, customer: Customer, id: Id, draft: Draft): seq<Action> {
    [CreateCustomer(c, customer), Insert(id, draft)] + [SetConsent(customer.companyId, c, false, 1), DeleteCustomer(c)]
  }

  lemma DeletionDetachesTheMessage(c: Id, customer: Customer, id: Id, draft: Draft)
    requires customer.consent != OptedOut && draft.companyId == customer.companyId && Trim(draft.key) == draft.key
    requires draft.customerId == Some(c)
    ensures var s := Run(EMPTY, DeletedAfterOptOut(c, customer, id, draft));
      s.rows == map[id := NewRow(draft).(customerId := None)] && s.trace == [ConsentSet(c, false)] && s.workers == map[]
  {
    hide Run;
    var s2 := EMPTY.(customers := map[c := customer], rows := map[id := NewRow(draft)]);
    CustomerAndMessage(c, customer, id, draft);
    RunAppend(EMPTY, [CreateCustomer(c, customer), Insert(id, draft)],
              [SetConsent(customer.companyId, c, false, 1), DeleteCustomer(c)]);
    TwoSteps(s2, SetConsent(customer.companyId, c, false, 1), DeleteCustomer(c));
  }

  /** The message still goes out: the deletion cleared what the consent check looks at. */
  lemma DeletionUndoesAnOptOut(c: Id, customer: Customer, id: Id, draft: Draft)
    requires customer.consent != OptedOut && draft.companyId == customer.companyId && Trim(draft.key) == draft.key
    requires draft.customerId == Some(c) && Sendable(draft)
    ensures var s := Run(EMPTY, DeletedAfterOptOut(c, customer, id, draft));
      && id in s.rows && s.rows[id].draft == draft && s.rows[id].status == Pending
      && s.trace == [ConsentSet(c, false)] && Blocked(s.trace, c)
      && CanStillBeCalled(s, id, c)
  {
    hide Run, CanStillBeCalled, Sendable, DeletedAfterOptOut, Trim;
    DeletionDetachesTheMessage(c, customer, id, draft);
    BlockedSnoc([], ConsentSet(c, false), c);
    OptOutStopsExactlyReferencedMessages(DeletedAfterOptOut(c, customer, id, draft), id, c, c);
  }

  lemma CustomerAndMessage(c: Id, customer: Customer, id: Id, draft: Draft)
    requires customer.consent != OptedOut && draft.companyId == customer.companyId && draft.customerId == Some(c)
    requires Trim(draft.key) == draft.key
    ensures Run(EMPTY, [CreateCustomer(c, customer), Insert(id, draft)])
         == EMPTY.(customers := map[c := customer], rows := map[id := NewRow(draft)])
  {
    var s1 := EMPTY.(customers := map[c := customer]);
    assert EMPTY.trace + [] == EMPTY.trace;
    assert CreateCustomerStep(EMPTY, c, customer) == s1;
    assert !KeyTaken(s1, draft.companyId, draft.key);
    TwoSteps(EMPTY, CreateCustomer(c, customer), Insert(id, draft));
  }
}
