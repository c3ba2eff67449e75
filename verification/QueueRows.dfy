/** What a message goes through, step by step and column by column: when exactly a step changes its row, and to what. */
module QueueRows {
  import opened Basics
  import opened Consent
  import opened DeliveryOrder
  import opened OutboundRow
  import opened QueueGuarantees
  import opened QueueInvariants
  import opened QueueLogs
  import opened QueueMachine
  import opened QueueMoves
  import opened QueueSteps
  import opened Text

  /** The worker is about to settle this message, which it still has locked. */
  predicate Settles(s: State, w: Id, id: Id, row: Row) {
    && PhaseOf(s, w).Holding? && PhaseOf(s, w).held.id == id && PhaseOf(s, w).held.companyId == row.draft.companyId
    && row.status == Processing && row.lockedBy == Some(w)
  }

  /** What is left of a lock after it was given up: nothing. */
  predicate IsFree(row: Row) { row.processingAt == None && row.lockedAt == None && row.lockedBy == None }

  /** Locked by the worker for one more attempt, if it is due; the row stays as it is otherwise. */
  predicate Acquires(s: State, w: Id, now: int, reply: Reply, id: Id, before: Row, after: Row) {
    if PhaseOf(s, w).Looping? && PhaseOf(s, w).batch != [] && PhaseOf(s, w).batch[0] == Target(id, before.draft.companyId)
       && before.status == Pending && before.lockedAt == None && before.availableAt <= now && reply != LostBefore
    then after == before.(status := Processing, attempts := before.attempts + 1, processingAt := Some(now), lockedAt := Some(now),
                          lockedBy := Some(w))
    else after == before
  }

  predicate Recovers(s: State, w: Id, reply: Reply, id: Id, before: Row, after: Row) {
    if PhaseOf(s, w).Recovering? && PhaseOf(s, w).candidates != []
       && PhaseOf(s, w).candidates[0] == Target(id, before.draft.companyId)
       && before.status == Processing && before.lockedAt.Some? && before.lockedAt.value + 300_000 <= PhaseOf(s, w).now
       && reply != LostBefore
    then IsFree(after) && after == before.(status := Pending, availableAt := PhaseOf(s, w).now, processingAt := None,
                                           lockedAt := None, lockedBy := None, lastErrorCode := Some("WORKER_LOCK_EXPIRED"))
    else after == before
  }

  predicate Cancels(s: State, w: Id, reply: Reply, id: Id, before: Row, after: Row) {
    if Settles(s, w, id, before) && PhaseOf(s, w).stage.Cancelling? && reply != LostBefore
    then IsFree(after) && after == before.(status := Cancelled, processingAt := None, lockedAt := None, lockedBy := None,
                                           sentAt := None, failedAt := None,
                                           lastErrorCode := Some(PhaseOf(s, w).stage.code))
    else after == before
  }

  /** Sent as the provider said; pending again after the delay of the attempt, while there are attempts left; or failed. */
  predicate Concludes(answer: Answer, now: int, before: Row, after: Row) {
    && IsFree(after)
    && after == before.(status := after.status, processingAt := None, lockedAt := None, lockedBy := None,
                        availableAt := after.availableAt, sentAt := after.sentAt, failedAt := after.failedAt,
                        provider := after.provider, providerMessageId := after.providerMessageId,
                        lastErrorCode := after.lastErrorCode)
    && match answer
       case Accepted(provider, messageId) =>
         && after.status == Sent && after.sentAt == Some(now) && after.failedAt == None && after.lastErrorCode == None
         && after.provider == Some(provider) && after.providerMessageId == Some(messageId)
         && after.availableAt == before.availableAt
       case Refused(code, retryable) =>
         && after.lastErrorCode == Some(code)
         && after.provider == before.provider && after.providerMessageId == before.providerMessageId
         && if retryable && before.attempts < before.draft.maxAttempts
            then after.status == Pending && after.sentAt == before.sentAt && after.failedAt == before.failedAt
                 && after.availableAt == now + (if before.attempts == 1 then 60_000
                                                else if before.attempts == 2 then 300_000 else 900_000)
            else after.status == Failed && after.failedAt == Some(now) && after.sentAt == None
                 && after.availableAt == before.availableAt
  }

  predicate WritesOutcome(s: State, w: Id, now: int, reply: Reply, id: Id, before: Row, after: Row) {
    if Settles(s, w, id, before) && PhaseOf(s, w).stage.Settling? && reply != LostBefore
    then Concludes(PhaseOf(s, w).stage.answer, now, before, after) else after == before
  }

  predicate ReleasesRow(s: State, w: Id, now: int, reply: Reply, id: Id, before: Row, after: Row) {
    if Settles(s, w, id, before) && PhaseOf(s, w).stage.Releasing? && reply != LostBefore
    then IsFree(after) && after == before.(status := Pending, availableAt := now + 60_000, processingAt := None,
                                           lockedAt := None, lockedBy := None, lastErrorCode := Some("WORKER_PROCESSING_ERROR"))
    else after == before
  }

  /** The row of message `id` before and after the action. */
  predicate RowChanges(s: State, a: Action, id: Id, before: Row, after: Row) {
    match a
    case AcquireNext(w, now, reply) => Acquires(s, w, now, reply, id, before, after)
    case RecoverNext(w, reply) => Recovers(s, w, reply, id, before, after)
    case WriteCancel(w, reply) => Cancels(s, w, reply, id, before, after)
    case WriteOutcome(w, now, reply) => WritesOutcome(s, w, now, reply, id, before, after)
    case WriteRelease(w, now, reply) => ReleasesRow(s, w, now, reply, id, before, after)
    case ApplyReceipt(target, _, _, _, event, at, _, code) =>
      if target == id && ReceiptFits(before, a) then ReceiptStored(before, after, event, at, code) else after == before
    case DeleteCustomer(c) =>
      if before.customerId == Some(c) && c in s.customers then after == before.(customerId := None) else after == before
    case _ => after == before
  }

  // ----- the worker

  lemma Written(s: State, id: Id, companyId: Id, op: RowOp, customerId: Option<Id>, target: Id)
    requires target in s.rows
    ensures var t := Update(s, id, companyId, op, customerId);
      target in t.rows && t.rows[target] == if target == id && s.rows[id].draft.companyId == companyId && Guard(s.rows[id], op)
                                            then Effect(s.rows[id], op) else s.rows[target]
  {
    hide Guard, Effect;
  }

  lemma RequestedRow(s: State, a: Action, id: Id)
    requires ActorOf(a).Some? && id in s.rows
    ensures var t := Step(s, a);
      && id in t.rows
      && match RequestOf(s, a)
         case Write(target, companyId, op, _) =>
           t.rows[id] == if target == id && s.rows[id].draft.companyId == companyId && Guard(s.rows[id], op)
                         then Effect(s.rows[id], op) else s.rows[id]
         case _ => t.rows[id] == s.rows[id]
  {
    hide Step, RequestOf, Entered, Guard, Effect, Update;
    WorkersMove(s, a);
    match RequestOf(s, a)
    case Write(target, companyId, op, customerId) => Written(s, target, companyId, op, customerId, id);
    case _ =>
  }

  lemma AcquisitionsAndRecoveries(s: State, a: Action, id: Id)
    requires (a.AcquireNext? || a.RecoverNext?) && id in s.rows
    requires PhaseOf(s, a.worker).Recovering? ==> PhaseOf(s, a.worker).expiredAt == PhaseOf(s, a.worker).now - 300_000
    ensures id in Step(s, a).rows && RowChanges(s, a, id, s.rows[id], Step(s, a).rows[id])
  {
    RequestedRow(s, a, id);
    hide Step;
  }

  lemma CancellationsAndReleases(s: State, a: Action, id: Id)
    requires (a.WriteCancel? || a.WriteRelease?) && id in s.rows
    ensures id in Step(s, a).rows && RowChanges(s, a, id, s.rows[id], Step(s, a).rows[id])
  {
    RequestedRow(s, a, id);
    hide Step;
  }

  lemma OutcomeConcludes(w: Id, message: Row, answer: Answer, now: int, row: Row)
    requires message.attempts == row.attempts && message.draft == row.draft
    ensures Concludes(answer, now, row, Effect(row, OutcomeOp(w, message, answer, now)))
  {
  }

  lemma OutcomeGuard(w: Id, message: Row, answer: Answer, now: int, row: Row)
    ensures Guard(row, OutcomeOp(w, message, answer, now)) <==> row.status == Processing && row.lockedBy == Some(w)
  {
  }

  lemma RequestedOutcome(s: State, a: Action)
    requires a.WriteOutcome?
    ensures RequestOf(s, a) == match PhaseOf(s, a.worker)
      case Holding(held, Settling(message, answer), _) =>
        if a.reply == LostBefore then Nothing
        else Write(held.id, held.companyId, OutcomeOp(a.worker, message, answer, a.now), message.customerId)
      case _ => Nothing
  {
    hide OutcomeOp;
  }

  lemma OutcomesChangeRows(s: State, a: Action, id: Id)
    requires Inv(s) && a.WriteOutcome? && id in s.rows
    ensures id in Step(s, a).rows && RowChanges(s, a, id, s.rows[id], Step(s, a).rows[id])
  {
    WorkerIsOk(s, a.worker);
    RequestedRow(s, a, id);
    RequestedOutcome(s, a);
    hide Step, RequestOf, Inv, OutcomeOp, Guard, Effect, Concludes, ClearedSince, Untouched, IsLockedBy;
    match PhaseOf(s, a.worker)
    case Holding(held, Settling(message, answer), _) =>
      OutcomeGuard(a.worker, message, answer, a.now, s.rows[id]);
      if Settles(s, a.worker, id, s.rows[id]) { OutcomeConcludes(a.worker, message, answer, a.now, s.rows[id]); }
    case _ =>
  }

  lemma QuietSteps(s: State, a: Action, id: Id)
    requires ActorOf(a).Some? && id in s.rows
    requires !a.AcquireNext? && !a.RecoverNext? && !a.WriteCancel? && !a.WriteOutcome? && !a.WriteRelease?
    ensures id in Step(s, a).rows && RowChanges(s, a, id, s.rows[id], Step(s, a).rows[id])
  {
    RequestedRow(s, a, id);
    hide Step, Sendable;
  }

  lemma OutsideSteps(s: State, a: Action, id: Id)
    requires ActorOf(a) == None && !a.ApplyReceipt? && id in s.rows
    ensures id in Step(s, a).rows && RowChanges(s, a, id, s.rows[id], Step(s, a).rows[id])
  {
    hide KeyTaken, CustomerFound, WithConsent, Trim;
  }

  /** In every run: all that ever changes a message, exactly when, and to what. */
  lemma RowsChangeOnlySo(actions: seq<Action>, a: Action, id: Id)
    requires id in Run(EMPTY, actions).rows
    ensures var s, t := Run(EMPTY, actions), Step(Run(EMPTY, actions), a);
      id in t.rows && RowChanges(s, a, id, s.rows[id], t.rows[id])
  {
    hide Run, Step, Inv, RowChanges;
    EveryRunIsOk(actions);
    var s := Run(EMPTY, actions);
    if a.ApplyReceipt? {
      ReceiptsChangeRows(actions, a, id);
    } else if ActorOf(a) == None {
      OutsideSteps(s, a, id);
    } else if a.AcquireNext? || a.RecoverNext? {
      WorkerIsOk(s, a.worker);
      AcquisitionsAndRecoveries(s, a, id);
    } else if a.WriteCancel? || a.WriteRelease? {
      CancellationsAndReleases(s, a, id);
    } else if a.WriteOutcome? {
      OutcomesChangeRows(s, a, id);
    } else {
      QuietSteps(s, a, id);
    }
  }

  lemma ReceiptsChangeRows(actions: seq<Action>, a: Action, id: Id)
    requires a.ApplyReceipt? && id in Run(EMPTY, actions).rows
    ensures var s, t := Run(EMPTY, actions), Step(Run(EMPTY, actions), a);
      id in t.rows && RowChanges(s, a, id, s.rows[id], t.rows[id])
  {
    hide Run, Step, ReceiptFits, ReceiptStored;
    ReceiptsOnlyMoveDelivery(actions, a, id);
  }

  // ----- messages, logs and customers come and go

  /** A message that nothing has happened to yet. */
  predicate IsUntouched(row: Row) {
    && row.status == Pending && row.attempts == 0
    && row.customerId == row.draft.customerId && row.availableAt == row.draft.scheduledAt
    && row.processingAt == None && row.lockedAt == None && row.lockedBy == None && row.sentAt == None && row.failedAt == None
    && row.provider == None && row.providerMessageId == None && row.delivery == None && row.deliveredAt == None
    && row.readAt == None && row.lastErrorCode == None
  }

  /** The key of the draft is free once trimmed, and its customer is one of the company. */
  predicate MayStart(s: State, draft: Draft) {
    && (forall other :: other in s.rows && s.rows[other].draft.companyId == draft.companyId ==>
          s.rows[other].draft.key != Trim(draft.key))
    && (draft.customerId.Some? ==>
          draft.customerId.value in s.customers && s.customers[draft.customerId.value].companyId == draft.companyId)
  }

  lemma InsertsStart(s: State, a: Action, id: Id)
    requires a.Insert? && id !in s.rows
    ensures var t := Step(s, a);
      && (id in t.rows <==> a.id == id && MayStart(s, a.draft))
      && (id in t.rows ==> t.rows[id].draft == a.draft.(key := Trim(a.draft.key)) && IsUntouched(t.rows[id]))
  {
    hide Trim;
  }

  lemma OthersStartNothing(s: State, a: Action, id: Id)
    requires !a.Insert? && id !in s.rows
    ensures id !in Step(s, a).rows
  {
    if ActorOf(a).Some? {
      hide Step, RequestOf, Entered;
      WorkersMove(s, a);
      RequestsAddNoRows(s, RequestOf(s, a), id);
    } else {
      hide Matches, Effect, LogsFor, CanAdvance, WithConsent;
    }
  }

  /** An insert is stored, with its key trimmed, exactly when the key is free and its customer is one of the company. */
  lemma MessagesStartOnlySo(s: State, a: Action, id: Id)
    requires id !in s.rows
    ensures var t := Step(s, a);
      && (id in t.rows <==> a.Insert? && a.id == id && MayStart(s, a.draft))
      && (id in t.rows ==> t.rows[id].draft == a.draft.(key := Trim(a.draft.key)) && IsUntouched(t.rows[id]))
  {
    hide Step, MayStart, IsUntouched, Trim;
    if a.Insert? { InsertsStart(s, a, id); } else { OthersStartNothing(s, a, id); }
  }

  lemma RequestsAddNoRows(s: State, request: Request, id: Id)
    requires id !in s.rows
    ensures id !in Requested(s, request).rows
  {
    hide Guard, Effect, LogsFor;
  }

  lemma LogsOfAnUpdate(s: State, id: Id, companyId: Id, op: RowOp, customerId: Option<Id>)
    ensures Update(s, id, companyId, op, customerId).logs
         == s.logs + (if Matches(s, id, companyId, op) then LogsFor(id, customerId, op) else [])
  {
    hide Matches, Effect;
  }

  /** The log that the outcome of a message is told in, if it is final. */
  function FinalLog(id: Id, customerId: Option<Id>, now: int, status: Status): seq<Log> {
    match status
    case Sent => [Log(id, customerId, LogSent, Some(now))]
    case Failed => [Log(id, customerId, LogFailed, None)]
    case _ => []
  }

  lemma LogsOfAnOutcome(id: Id, customerId: Option<Id>, w: Id, message: Row, answer: Answer, now: int, row: Row)
    ensures var op := OutcomeOp(w, message, answer, now);
      LogsFor(id, customerId, op) == FinalLog(id, customerId, now, Effect(row, op).status)
  {
  }

  lemma RequestedLogs(s: State, a: Action)
    requires ActorOf(a).Some?
    ensures Step(s, a).logs == Requested(s, RequestOf(s, a)).logs
  {
    hide Step, RequestOf, Update, Entered;
    WorkersMove(s, a);
  }

  /**
   * A message that an outcome finishes gets one log, with the customer as it was loaded; nothing else ever makes or
   * changes a log.
   */
  lemma LogsChangeOnlySo(actions: seq<Action>, a: Action)
    ensures var s, t := Run(EMPTY, actions), Step(Run(EMPTY, actions), a);
      if a.WriteOutcome? && PhaseOf(s, a.worker).Holding? && PhaseOf(s, a.worker).stage.Settling? && a.reply != LostBefore
         && PhaseOf(s, a.worker).held.id in s.rows
         && Settles(s, a.worker, PhaseOf(s, a.worker).held.id, s.rows[PhaseOf(s, a.worker).held.id])
      then
        var id := PhaseOf(s, a.worker).held.id;
        && id in t.rows
        && t.logs == s.logs + FinalLog(id, PhaseOf(s, a.worker).stage.message.customerId, a.now, t.rows[id].status)
      else t.logs == s.logs
  {
    hide Run;
    EveryRunIsOk(actions);
    var s := Run(EMPTY, actions);
    if !a.WriteOutcome? { OnlyOutcomesLog(s, a); } else { OutcomesLogThemselves(s, a); }
  }

  lemma OutcomesLogThemselves(s: State, a: Action)
    requires a.WriteOutcome?
    ensures var t, phase := Step(s, a), PhaseOf(s, a.worker);
      if phase.Holding? && phase.stage.Settling? && a.reply != LostBefore
         && phase.held.id in s.rows && Settles(s, a.worker, phase.held.id, s.rows[phase.held.id])
      then phase.held.id in t.rows
           && t.logs == s.logs + FinalLog(phase.held.id, phase.stage.message.customerId, a.now, t.rows[phase.held.id].status)
      else t.logs == s.logs
  {
    RequestedLogs(s, a);
    if PhaseOf(s, a.worker).Holding? && PhaseOf(s, a.worker).held.id in s.rows { RequestedRow(s, a, PhaseOf(s, a.worker).held.id); }
    RequestedOutcome(s, a);
    hide Step, RequestOf, Update, OutcomeOp, Guard, Effect, LogsFor, FinalLog;
    match PhaseOf(s, a.worker)
    case Holding(held, Settling(message, answer), _) =>
      var op := OutcomeOp(a.worker, message, answer, a.now);
      LogsOfAnUpdate(s, held.id, held.companyId, op, message.customerId);
      if held.id in s.rows {
        OutcomeGuard(a.worker, message, answer, a.now, s.rows[held.id]);
        LogsOfAnOutcome(held.id, message.customerId, a.worker, message, answer, a.now, s.rows[held.id]);
      }
    case _ =>
  }

  /** What becomes of a customer: consent, phone and activity by management, and nobody by the queue. */
  predicate CustomerChanges(s: State, a: Action, c: Id, before: Customer, after: Customer) {
    match a
    case SetConsent(companyId, customerId, granted, now) =>
      if customerId == c && before.companyId == companyId
      then after == before.(consent := if granted then Granted else OptedOut,
                            grantedAt := if granted then Some(now) else before.grantedAt,
                            optedOutAt := if granted then None else Some(now))
      else after == before
    case EditCustomer(customerId, phone, active) =>
      after == if customerId == c then before.(phone := phone, active := active) else before
    case _ => after == before
  }

  /** Customers are added under unused identifiers, changed by management, and never come back once deleted. */
  predicate CustomersChange(s: State, t: State, a: Action, c: Id) {
    && (c in t.customers <==> if c in s.customers then a != DeleteCustomer(c)
                              else a.CreateCustomer? && a.customerId == c && c !in s.retired)
    && (c in s.customers && c in t.customers ==> CustomerChanges(s, a, c, s.customers[c], t.customers[c]))
    && (c !in s.customers && c in t.customers ==> t.customers[c] == a.customer)
    && (c in t.retired <==> c in s.retired || (c in s.customers && a == DeleteCustomer(c)))
  }

  lemma ChangesOfACustomer(s: State, a: Action, c: Id)
    requires a.SetConsent? || a.EditCustomer?
    ensures CustomersChange(s, Step(s, a), a, c)
  {
  }

  lemma ComingAndGoing(s: State, a: Action, c: Id)
    requires a.CreateCustomer? || a.DeleteCustomer?
    ensures CustomersChange(s, Step(s, a), a, c)
  {
  }

  lemma SameCustomers(s: State, t: State, a: Action, c: Id)
    requires !a.SetConsent? && !a.EditCustomer? && !a.CreateCustomer? && !a.DeleteCustomer?
    requires t.customers == s.customers && t.retired == s.retired
    ensures CustomersChange(s, t, a, c)
  {
  }

  lemma CustomersChangeOnlySo(s: State, a: Action, c: Id)
    ensures CustomersChange(s, Step(s, a), a, c)
  {
    hide Step, CustomersChange;
    if a.SetConsent? || a.EditCustomer? {
      ChangesOfACustomer(s, a, c);
    } else if a.CreateCustomer? || a.DeleteCustomer? {
      ComingAndGoing(s, a, c);
    } else {
      OthersLeaveCustomers(s, a);
      SameCustomers(s, Step(s, a), a, c);
    }
  }

  lemma OthersLeaveCustomers(s: State, a: Action)
    requires !a.SetConsent? && !a.EditCustomer? && !a.CreateCustomer? && !a.DeleteCustomer?
    ensures Step(s, a).customers == s.customers && Step(s, a).retired == s.retired
  {
    if ActorOf(a).Some? {
      hide Step, RequestOf, Entered, Requested;
      WorkersMove(s, a);
      RequestsLeaveCustomers(s, RequestOf(s, a));
    } else if !a.SetPolicy? {
      ReceiptsAndInsertsLeaveCustomers(s, a);
    }
  }

  lemma ReceiptsAndInsertsLeaveCustomers(s: State, a: Action)
    requires a.ApplyReceipt? || a.Insert?
    ensures var t := Step(s, a); t.customers == s.customers && t.retired == s.retired && t.policies == s.policies
  {
    hide Matches, Effect, LogsFor, CanAdvance, KeyTaken, Trim;
  }

  lemma RequestsLeaveCustomers(s: State, request: Request)
    ensures var t := Requested(s, request);
      t.customers == s.customers && t.retired == s.retired && t.policies == s.policies
  {
    hide Guard, Effect, LogsFor;
  }

  /** The policy of a company is the one that was set last. */
  lemma PoliciesChangeOnlySo(s: State, a: Action, companyId: Id)
    ensures var t := Step(s, a);
      var before := if companyId in s.policies then Some(s.policies[companyId]) else None;
      (if companyId in t.policies then Some(t.policies[companyId]) else None)
      == if a.SetPolicy? && a.companyId == companyId then a.policy else before
  {
    if ActorOf(a).Some? {
      hide Step, RequestOf, Entered, Requested;
      WorkersMove(s, a);
      RequestsLeaveCustomers(s, RequestOf(s, a));
    } else if a.ApplyReceipt? || a.Insert? {
      ReceiptsAndInsertsLeaveCustomers(s, a);
    } else {
      hide Update, InsertStep;
      hide StartCronStep, RecoverNextStep, SelectBatchStep, AcquireNextStep, LoadMessageStep, ReadCompanyStep, ReadCustomerStep;
      hide WriteCancelStep, CallProviderStep, WriteOutcomeStep, WriteReleaseStep;
    }
  }
}
