/** Every step of the queue machine keeps the invariant, action by action. */
module QueueSteps {
  import opened Basics
  import opened Consent
  import opened DeliveryOrder
  import opened OutboundRow
  import opened Text
  import opened QueueMachine
  import opened QueueMoves
  import opened QueueInvariants

  /** A change that leaves rows, logs and references alone and only adds to the trace. */
  lemma TraceGrows(s: State, t: State, event: Event)
    requires Inv(s) && !event.Wrote?
    requires t.rows == s.rows && t.logs == s.logs && t.workers == s.workers && t.retired == s.retired
    requires t.trace == s.trace + [event]
    requires forall id :: id in s.rows ==> ReferenceOk(t, s.rows[id])
    requires forall c :: ConsentOk(t, c)
    ensures Inv(t)
  {
    forall id ensures RowHistoryOk(t, id) {
      assert RowHistoryOk(s, id);
      TallySnoc(s.trace, event, id);
    }
    forall w ensures WorkerOk(t, w) {
      assert WorkerOk(s, w);
      WorkerUndisturbed(s, t, w);
    }
  }

  /** A change of customers or policies only. */
  lemma OnlyCustomersChange(s: State, t: State)
    requires Inv(s)
    requires t.rows == s.rows && t.logs == s.logs && t.workers == s.workers && t.trace == s.trace
    requires s.retired == t.retired
    requires forall id :: id in s.rows ==> ReferenceOk(t, s.rows[id])
    requires forall c :: ConsentOk(t, c)
    ensures Inv(t)
  {
    forall id ensures RowHistoryOk(t, id) { assert RowHistoryOk(s, id); }
    forall w ensures WorkerOk(t, w) {
      assert WorkerOk(s, w);
      WorkerUndisturbed(s, t, w);
    }
  }

  // ----- a move of a worker

  /** The code has checked what it must before it asks for a write. */
  lemma RequestsAreIssued(s: State, a: Action)
    requires Inv(s) && RequestOf(s, a).Write?
    ensures var Write(id, companyId, op, _) := RequestOf(s, a);
      && (op.Acquire? ==> a.AcquireNext? && op.worker == a.worker && PhaseOf(s, a.worker).Looping?)
      && (Matches(s, id, companyId, op) ==> Issued(s.rows[id], op))
  {
    if a.WriteOutcome? { OutcomesAreIssued(s, a.worker, a.now); }
  }

  lemma OutcomesAreIssued(s: State, w: Id, now: int)
    requires WorkerOk(s, w) && PhaseOf(s, w).Holding? && PhaseOf(s, w).stage.Settling?
    ensures var Holding(held, Settling(message, answer), _) := PhaseOf(s, w);
      var op := OutcomeOp(w, message, answer, now);
      Matches(s, held.id, held.companyId, op) ==> Issued(s.rows[held.id], op)
  {
  }

  lemma CallKeepsInv(s: State, w: Id, id: Id, since: nat)
    requires Inv(s)
    ensures Inv(s.(trace := s.trace + [Called(w, id, since)]))
  {
    var event := Called(w, id, since);
    var asked := s.(trace := s.trace + [event]);
    forall c ensures ConsentOk(asked, c) {
      assert ConsentOk(s, c);
      BlockedSnoc(s.trace, event, c);
    }
    hide RowHistoryOk, WorkerOk, KeysOk, Blocked;
    forall id | id in s.rows ensures ReferenceOk(asked, s.rows[id]) { assert ReferenceOk(s, s.rows[id]); }
    TraceGrows(s, asked, event);
  }

  lemma RequestKeepsInv(s: State, a: Action)
    requires Inv(s)
    ensures Inv(Requested(s, RequestOf(s, a)))
  {
    hide RequestOf, Inv, Update;
    match RequestOf(s, a)
    case Nothing =>
    case Write(id, companyId, op, customerId) =>
      RequestsAreIssued(s, a);
      UpdateKeepsInv(s, id, companyId, op, customerId);
    case Call(w, id, since) => CallKeepsInv(s, w, id, since);
  }

  /** A stage after the first is entered rightly, and by the acquisition that was held before. */
  lemma StagesAreEnteredRightly(s: State, t: State, w: Id)
    requires WorkerOk(s, w) && ReferencesOk(s) && ConsentsOk(s) && Entered(s, t, w)
    requires PhaseOf(t, w).Holding? && PhaseOf(t, w).stage != Loading
    ensures PhaseOf(s, w).Holding? && PhaseOf(s, w).held == PhaseOf(t, w).held
    ensures PhaseOf(s, w).held.id in s.rows && StageOk(s, PhaseOf(t, w).held, PhaseOf(t, w).stage)
  {
    var held, stage := PhaseOf(t, w).held, PhaseOf(t, w).stage;
    assert held.id in s.rows ==> ReferenceOk(s, s.rows[held.id]);
    if stage.Sending? && stage.message.customerId.Some? {
      assert ConsentOk(s, stage.message.customerId.value);
      assert s.trace[..|s.trace|] == s.trace;
    }
  }

  lemma StageStaysOk(s: State, t: State, held: Held, stage: Stage)
    requires SameReferences(s, t) && s.trace <= t.trace
    requires held.id in s.rows && StageOk(s, held, stage)
    ensures held.id in t.rows && StageOk(t, held, stage)
  {
    hide ClearedSince;
    match stage
    case Sending(message) => StillCleared(s.trace, t.trace, held.since, message.customerId);
    case Settling(message, _) => StillCleared(s.trace, t.trace, held.since, message.customerId);
    case _ =>
  }

  lemma RequestsKeepDrafts(s: State, request: Request)
    ensures var t := Requested(s, request); SameReferences(s, t) && s.trace <= t.trace && t.workers == s.workers
  {
    if request.Write? { UpdateKeepsDrafts(s, request.id, request.companyId, request.op, request.customerId); }
  }

  lemma AcquisitionIsHeld(s: State, t: State, w: Id, held: Held)
    requires AcquiredBy(s, t, w, held)
    ensures HeldOk(t, w, held)
  {
  }

  /** The new phase fits the state that the request left behind. */
  lemma EntersRightly(s: State, u: State, t: State, w: Id)
    requires Inv(s) && Inv(u) && Entered(s, t, w)
    requires SameReferences(s, u) && s.trace <= u.trace && u.workers == s.workers && t == Enter(u, w, PhaseOf(t, w))
    ensures Inv(t)
  {
    hide RowsOk, KeysOk, StageOk, HeldOk, SameReferences, AcquiredBy, LoadedBy, ReadsCustomer, CustomerFound, IsEligible;
    hide ReferencesOk, ConsentsOk;
    assert WorkerOk(u, w) && WorkerOk(s, w);
    assert PhaseOf(u, w) == PhaseOf(s, w);
    var phase := PhaseOf(t, w);
    if phase.Holding? && phase != PhaseOf(s, w) {
      if phase.stage == Loading {
        AcquisitionIsHeld(s, t, w, phase.held);
        EnteringKeepsHeldOk(u, w, phase);
      } else {
        StagesAreEnteredRightly(s, t, w);
        StageStaysOk(s, u, phase.held, phase.stage);
      }
    }
    EnterKeepsInv(u, w, phase);
  }

  lemma EnteringKeepsHeldOk(u: State, w: Id, phase: Phase)
    requires phase.Holding? && phase.stage == Loading && HeldOk(Enter(u, w, phase), w, phase.held)
    ensures HeldOk(u, w, phase.held) && phase.held.id in u.rows && StageOk(u, phase.held, phase.stage)
  {
  }

  lemma WorkerStepKeepsInv(s: State, a: Action)
    requires Inv(s) && ActorOf(a).Some?
    ensures Inv(Step(s, a))
  {
    hide Step, Inv, Entered, RequestOf, Requested;
    WorkersMove(s, a);
    if Step(s, a) != s {
      RequestKeepsInv(s, a);
      RequestsKeepDrafts(s, RequestOf(s, a));
      EntersRightly(s, Requested(s, RequestOf(s, a)), Step(s, a), a.worker);
    }
  }

  // ----- everybody else

  /** The insert went through: the key was free and the customer, if any, is there. */
  predicate Inserted(s: State, id: Id, stored: Draft) {
    && id !in s.rows && !KeyTaken(s, stored.companyId, stored.key) && IsTrimmed(stored.key)
    && (stored.customerId.Some? ==> CustomerFound(s, stored.customerId.value, stored.companyId))
  }

  function WithRow(s: State, id: Id, stored: Draft): State { s.(rows := s.rows[id := NewRow(stored)]) }

  lemma InsertAddsARow(s: State, id: Id, draft: Draft)
    ensures var stored, t := draft.(key := Trim(draft.key)), InsertStep(s, id, draft);
      t == s || (Inserted(s, id, stored) && t == WithRow(s, id, stored))
  {
    hide KeyTaken, CustomerFound, Trim;
    TrimIsIdempotent(draft.key);
  }

  lemma NewRowKeepsKeys(s: State, id: Id, stored: Draft)
    requires KeysOk(s) && Inserted(s, id, stored)
    ensures KeysOk(WithRow(s, id, stored))
  {
    hide IsTrimmed, CustomerFound;
  }

  lemma NewRowKeepsReferences(s: State, id: Id, stored: Draft)
    requires ReferencesOk(s) && Inserted(s, id, stored)
    ensures ReferencesOk(WithRow(s, id, stored))
  {
    hide KeyTaken, IsTrimmed;
    var t := WithRow(s, id, stored);
    forall other | other in t.rows ensures ReferenceOk(t, t.rows[other]) {
      if other != id { assert ReferenceOk(s, s.rows[other]); }
    }
  }

  lemma NewRowKeepsHistories(s: State, id: Id, stored: Draft)
    requires RowsOk(s) && id !in s.rows
    ensures RowsOk(WithRow(s, id, stored))
  {
    var t := WithRow(s, id, stored);
    NewRowOk(stored);
    hide RowOk;
    forall other ensures RowHistoryOk(t, other) { assert RowHistoryOk(s, other); }
  }

  lemma NewRowKeepsOthers(s: State, id: Id, stored: Draft)
    requires ConsentsOk(s) && WorkersOk(s) && id !in s.rows
    ensures var t := WithRow(s, id, stored); ConsentsOk(t) && WorkersOk(t)
  {
    var t := WithRow(s, id, stored);
    hide WorkerOk, Blocked;
    forall c ensures ConsentOk(t, c) { assert ConsentOk(s, c); }
    forall w ensures WorkerOk(t, w) {
      assert WorkerOk(s, w);
      if PhaseOf(s, w).Holding? { HoldersHaveRows(s, w); }
      WorkerUndisturbed(s, t, w);
    }
  }

  lemma InsertKeepsInv(s: State, id: Id, draft: Draft)
    requires Inv(s)
    ensures Inv(InsertStep(s, id, draft))
  {
    hide InsertStep, WithRow, RowsOk, ReferencesOk, KeysOk, ConsentsOk, WorkersOk, KeyTaken, IsTrimmed, CustomerFound;
    var stored := draft.(key := Trim(draft.key));
    InsertAddsARow(s, id, draft);
    if InsertStep(s, id, draft) != s {
      NewRowKeepsHistories(s, id, stored);
      NewRowKeepsReferences(s, id, stored);
      NewRowKeepsKeys(s, id, stored);
      NewRowKeepsOthers(s, id, stored);
    }
  }

  lemma SetConsentKeepsInv(s: State, companyId: Id, customerId: Id, granted: bool, now: int)
    requires Inv(s)
    ensures Inv(SetConsentStep(s, companyId, customerId, granted, now))
  {
    var t := SetConsentStep(s, companyId, customerId, granted, now);
    if CustomerFound(s, customerId, companyId) {
      var event := ConsentSet(customerId, granted);
      forall c ensures ConsentOk(t, c) {
        assert ConsentOk(s, c);
        BlockedSnoc(s.trace, event, c);
      }
      forall id | id in s.rows ensures ReferenceOk(t, s.rows[id]) { assert ReferenceOk(s, s.rows[id]); }
      TraceGrows(s, t, event);
    }
  }

  lemma CreateCustomerKeepsInv(s: State, c: Id, customer: Customer)
    requires Inv(s)
    ensures Inv(CreateCustomerStep(s, c, customer))
  {
    var t := CreateCustomerStep(s, c, customer);
    if c !in s.customers && c !in s.retired {
      var event := ConsentSet(c, false);
      forall other ensures ConsentOk(t, other) {
        assert ConsentOk(s, other);
        BlockedSnoc(s.trace, event, other);
        assert s.trace + [] == s.trace;
      }
      forall id | id in s.rows ensures ReferenceOk(t, s.rows[id]) { assert ReferenceOk(s, s.rows[id]); }
      if customer.consent == OptedOut {
        TraceGrows(s, t, event);
      } else {
        OnlyCustomersChange(s, t);
      }
    }
  }

  lemma EditCustomerKeepsInv(s: State, c: Id, phone: string, active: bool)
    requires Inv(s)
    ensures Inv(EditCustomerStep(s, c, phone, active))
  {
    var t := EditCustomerStep(s, c, phone, active);
    forall other ensures ConsentOk(t, other) { assert ConsentOk(s, other); }
    forall id | id in s.rows ensures ReferenceOk(t, s.rows[id]) { assert ReferenceOk(s, s.rows[id]); }
    OnlyCustomersChange(s, t);
  }

  lemma SetPolicyKeepsInv(s: State, companyId: Id, policy: Option<UnknownPolicy>)
    requires Inv(s)
    ensures Inv(SetPolicyStep(s, companyId, policy))
  {
    var t := SetPolicyStep(s, companyId, policy);
    forall other ensures ConsentOk(t, other) { assert ConsentOk(s, other); }
    forall id | id in s.rows ensures ReferenceOk(t, s.rows[id]) { assert ReferenceOk(s, s.rows[id]); }
    OnlyCustomersChange(s, t);
  }

  lemma DetachKeepsRowOk(row: Row, c: Id, t: Tally)
    requires RowOk(row, t)
    ensures RowOk(Detached(row, c), t)
  {
  }

  lemma DeletionKeepsWorkers(s: State, c: Id)
    requires Inv(s) && c in s.customers
    ensures WorkersOk(DeleteCustomerStep(s, c))
  {
    var t := DeleteCustomerStep(s, c);
    forall w ensures WorkerOk(t, w) {
      assert WorkerOk(s, w);
      if PhaseOf(s, w).Holding? {
        var id := PhaseOf(s, w).held.id;
        assert t.rows[id] == Detached(s.rows[id], c);
      }
      WorkerUndisturbed(s, t, w);
    }
  }

  lemma DeletionDetaches(s: State, c: Id)
    requires c in s.customers
    ensures var t := DeleteCustomerStep(s, c);
      t.rows.Keys == s.rows.Keys && forall id :: id in s.rows ==> t.rows[id] == Detached(s.rows[id], c)
  {
  }

  lemma DetachedReferenceIsOk(s: State, c: Id, row: Row)
    requires ReferenceOk(s, row) && c in s.customers
    ensures ReferenceOk(DeleteCustomerStep(s, c), Detached(row, c))
  {
  }

  lemma DeletionKeepsReferences(s: State, c: Id)
    requires ReferencesOk(s) && c in s.customers
    ensures ReferencesOk(DeleteCustomerStep(s, c))
  {
    hide DeleteCustomerStep, Detached, ReferenceOk;
    var t := DeleteCustomerStep(s, c);
    DeletionDetaches(s, c);
    forall id | id in t.rows ensures ReferenceOk(t, t.rows[id]) {
      assert ReferenceOk(s, s.rows[id]);
      DetachedReferenceIsOk(s, c, s.rows[id]);
    }
  }

  lemma DeletionKeepsKeys(s: State, c: Id)
    requires KeysOk(s) && c in s.customers
    ensures KeysOk(DeleteCustomerStep(s, c))
  {
    hide DeleteCustomerStep, IsTrimmed;
    DeletionDetaches(s, c);
  }

  lemma DeleteCustomerKeepsInv(s: State, c: Id)
    requires Inv(s)
    ensures Inv(DeleteCustomerStep(s, c))
  {
    var t := DeleteCustomerStep(s, c);
    if c in s.customers {
      forall id ensures RowHistoryOk(t, id) {
        assert RowHistoryOk(s, id);
        if id in s.rows { DetachKeepsRowOk(s.rows[id], c, TallyOf(s.trace, id)); }
      }
      forall other ensures ConsentOk(t, other) { assert ConsentOk(s, other); }
      DeletionKeepsReferences(s, c);
      DeletionKeepsKeys(s, c);
      DeletionKeepsWorkers(s, c);
    }
  }

  lemma ReceiptIsItsRequest(s: State, a: Action)
    requires a.ApplyReceipt?
    ensures Step(s, a) == Requested(s, RequestOf(s, a))
  {
    hide Update, CanAdvance;
  }

  lemma OutsiderStepKeepsInv(s: State, a: Action)
    requires Inv(s) && ActorOf(a) == None
    ensures Inv(Step(s, a))
  {
    hide Inv, Requested, RequestOf;
    hide InsertStep, ApplyReceiptStep, SetConsentStep, CreateCustomerStep, EditCustomerStep, DeleteCustomerStep, SetPolicyStep;
    match a
    case Insert(id, draft) => InsertKeepsInv(s, id, draft);
    case ApplyReceipt(_, _, _, _, _, _, _, _) =>
      ReceiptIsItsRequest(s, a);
      RequestKeepsInv(s, a);
    case SetConsent(companyId, c, granted, now) => SetConsentKeepsInv(s, companyId, c, granted, now);
    case CreateCustomer(c, customer) => CreateCustomerKeepsInv(s, c, customer);
    case EditCustomer(c, phone, active) => EditCustomerKeepsInv(s, c, phone, active);
    case DeleteCustomer(c) => DeleteCustomerKeepsInv(s, c);
    case SetPolicy(companyId, policy) => SetPolicyKeepsInv(s, companyId, policy);
  }

  lemma StepKeepsInv(s: State, a: Action)
    requires Inv(s)
    ensures Inv(Step(s, a))
  {
    hide Inv, Step;
    match ActorOf(a)
    case None => OutsiderStepKeepsInv(s, a);
    case Some(_) => WorkerStepKeepsInv(s, a);
  }

  /** What a step of a worker must not touch: the customers, and every worker but itself. */
  predicate OthersUntouched(s: State, t: State, a: Action, w: Id) {
    && t.customers == s.customers && t.retired == s.retired
    && (ActorOf(a) != Some(w) ==> PhaseOf(t, w) == PhaseOf(s, w))
  }

  lemma RequestsLeaveOthersAlone(s: State, request: Request)
    ensures var t := Requested(s, request); t.workers == s.workers && t.customers == s.customers && t.retired == s.retired
  {
  }

  lemma WorkersLeaveOthersAlone(s: State, a: Action, w: Id)
    requires ActorOf(a).Some?
    ensures OthersUntouched(s, Step(s, a), a, w)
  {
    hide Step, RequestOf, Requested, Entered;
    WorkersMove(s, a);
    RequestsLeaveOthersAlone(s, RequestOf(s, a));
  }

  lemma OutsidersLeaveWorkersAlone(s: State, a: Action)
    requires ActorOf(a) == None
    ensures Step(s, a).workers == s.workers
  {
    hide Matches, Effect, CanAdvance, KeyTaken, CustomerFound, Trim;
    match a
    case Insert(_, _) =>
    case ApplyReceipt(_, _, _, _, _, _, _, _) =>
    case SetConsent(_, _, _, _) =>
    case CreateCustomer(_, _) =>
    case EditCustomer(_, _, _) =>
    case DeleteCustomer(_) =>
    case SetPolicy(_, _) =>
  }

  lemma OthersLeaveMyPhase(s: State, a: Action, w: Id)
    requires ActorOf(a) != Some(w)
    ensures PhaseOf(Step(s, a), w) == PhaseOf(s, w)
  {
    hide Step;
    match ActorOf(a)
    case None => OutsidersLeaveWorkersAlone(s, a);
    case Some(_) => WorkersLeaveOthersAlone(s, a, w);
  }

  lemma OnlyDeletionRetires(s: State, a: Action)
    ensures Step(s, a).retired == s.retired
         || (a.DeleteCustomer? && Step(s, a).retired == s.retired + {a.customerId})
  {
    if ActorOf(a).Some? {
      hide Step;
      WorkersLeaveOthersAlone(s, a, ActorOf(a).value);
    }
  }

  // ----- what a step adds to the trace

  /** At most one event, with a reason: a call by a worker that is sending, a consent change as asked for. */
  predicate AddsOneEvent(s: State, a: Action, t: State) {
    && s.trace <= t.trace && |t.trace| <= |s.trace| + 1
    && (|t.trace| == |s.trace| + 1 ==>
          match t.trace[|s.trace|]
          case Called(w, id, since) => a.CallProvider? && a.worker == w && SendsBy(s, w, id, since)
          case ConsentSet(c, granted) => granted ==> a.SetConsent? && a.customerId == c && a.granted
          case Wrote(id, op) => RequestOf(s, a).Write? && RequestOf(s, a).id == id && RequestOf(s, a).op == op
                                && id in s.rows && Guard(s.rows[id], op))
  }

  predicate SendsBy(s: State, w: Id, id: Id, since: nat) {
    match PhaseOf(s, w)
    case Holding(held, Sending(message), _) => held.id == id && held.since == since && Sendable(message.draft)
    case _ => false
  }

  lemma CallsAreOfSenders(s: State, a: Action)
    ensures RequestOf(s, a).Call? ==>
      && a.CallProvider? && RequestOf(s, a).worker == a.worker
      && SendsBy(s, a.worker, RequestOf(s, a).id, RequestOf(s, a).since)
  {
  }

  lemma RequestAddsOneEvent(s: State, a: Action)
    ensures AddsOneEvent(s, a, Requested(s, RequestOf(s, a)))
  {
    hide RequestOf, Guard, Effect, SendsBy;
    CallsAreOfSenders(s, a);
  }

  lemma OutsiderAddsOneEvent(s: State, a: Action)
    requires ActorOf(a) == None
    ensures AddsOneEvent(s, a, Step(s, a))
  {
    if a.ApplyReceipt? {
      hide Step, RequestOf, Requested, AddsOneEvent;
      ReceiptIsItsRequest(s, a);
      RequestAddsOneEvent(s, a);
    } else {
      hide RequestOf, Update, CustomerFound, KeyTaken, WithConsent, Trim;
    }
  }

  lemma StepAddsOneEvent(s: State, a: Action)
    ensures AddsOneEvent(s, a, Step(s, a))
  {
    hide Step, RequestOf, Requested;
    match ActorOf(a)
    case None => OutsiderAddsOneEvent(s, a);
    case Some(_) =>
      WorkersMove(s, a);
      RequestAddsOneEvent(s, a);
  }

  lemma {:induction false} RunExtendsTrace(s: State, actions: seq<Action>)
    ensures s.trace <= Run(s, actions).trace
    decreases actions
  {
    hide Step;
    if actions != [] {
      StepAddsOneEvent(s, actions[0]);
      RunExtendsTrace(Step(s, actions[0]), actions[1..]);
    }
  }

  // ----- what a step does to one row

  /** A row changes only by the write that the step asked for, and only if its guard holds. */
  lemma StepOnRow(s: State, a: Action, id: Id)
    requires !a.Insert? && !a.DeleteCustomer? && id in s.rows
    ensures var t, request := Step(s, a), RequestOf(s, a);
      && id in t.rows
      && (t.rows[id] != s.rows[id] ==>
            && request.Write? && request.id == id && s.rows[id].draft.companyId == request.companyId
            && Guard(s.rows[id], request.op) && t.rows[id] == Effect(s.rows[id], request.op))
  {
    hide Step, RequestOf, Entered;
    match ActorOf(a)
    case Some(_) => WorkersMove(s, a);
    case None => OutsidersWriteByReceipt(s, a);
    RequestOnRow(s, RequestOf(s, a), id);
  }

  lemma OutsidersWriteByReceipt(s: State, a: Action)
    requires ActorOf(a) == None && !a.Insert? && !a.DeleteCustomer?
    ensures Step(s, a).rows == Requested(s, RequestOf(s, a)).rows
  {
    hide Update, CanAdvance, CustomerFound, WithConsent;
  }

  lemma RequestOnRow(s: State, request: Request, id: Id)
    requires id in s.rows
    ensures var t := Requested(s, request);
      && id in t.rows
      && (t.rows[id] != s.rows[id] ==>
            && request.Write? && request.id == id && s.rows[id].draft.companyId == request.companyId
            && Guard(s.rows[id], request.op) && t.rows[id] == Effect(s.rows[id], request.op))
  {
    hide Guard, Effect;
  }

  lemma {:induction false} RunKeepsInv(s: State, actions: seq<Action>)
    requires Inv(s)
    ensures Inv(Run(s, actions))
    decreases actions
  {
    hide Step, Inv;
    if actions != [] {
      StepKeepsInv(s, actions[0]);
      RunKeepsInv(Step(s, actions[0]), actions[1..]);
    }
  }

  /** Every schedule keeps the invariant. */
  lemma EveryRunIsOk(actions: seq<Action>)
    ensures Inv(Run(EMPTY, actions))
  {
    hide Run, Inv;
    EmptyOk();
    RunKeepsInv(EMPTY, actions);
  }
}
