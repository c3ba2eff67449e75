/**
 * What every step of the queue machine keeps: the history of each row explains its columns, the
 * references between rows and customers hold, the idempotency key is unique, the trace and the
 * consent column agree, and each worker is where its acquisition says it is.
 */
module QueueInvariants {
  import opened Basics
  import opened Consent
  import opened OutboundRow
  import opened Text
  import opened QueueMachine

  // ----- histories

  function CountEvent(t: Tally, event: Event, id: Id): Tally {
    if event.Wrote? && event.id == id then Count(t, event.op) else t
  }

  function TallyOf(trace: seq<Event>, id: Id): Tally
    decreases |trace|
  {
    if trace == [] then NO_UPDATES
    else CountEvent(TallyOf(trace[..|trace| - 1], id), trace[|trace| - 1], id)
  }

  lemma TallySnoc(trace: seq<Event>, event: Event, id: Id)
    ensures TallyOf(trace + [event], id) == CountEvent(TallyOf(trace, id), event, id)
  {
    assert (trace + [event])[..|trace|] == trace;
  }

  /** The outcomes logged for one message, oldest first. */
  function Outcomes(logs: seq<Log>, id: Id): seq<LogOutcome>
    decreases |logs|
  {
    if logs == [] then []
    else
      var earlier, last := Outcomes(logs[..|logs| - 1], id), logs[|logs| - 1];
      if last.messageId == id then earlier + [last.outcome] else earlier
  }

  lemma OutcomesAfter(logs: seq<Log>, id: Id, customerId: Option<Id>, op: RowOp, other: Id)
    ensures Outcomes(logs + LogsFor(id, customerId, op), other)
         == Outcomes(logs, other) + (if other != id then [] else if op.MarkSent? then [LogSent]
                                     else if op.MarkFailed? then [LogFailed] else [])
  {
    var added := LogsFor(id, customerId, op);
    if added == [] {
      assert logs + added == logs;
    } else {
      assert (logs + added)[..|logs|] == logs;
    }
  }

  /** Whether the last consent change recorded for the customer withdrew it. */
  predicate Blocked(trace: seq<Event>, customerId: Id)
    decreases |trace|
  {
    trace != [] &&
    var last := trace[|trace| - 1];
    if last.ConsentSet? && last.customerId == customerId then !last.granted
    else Blocked(trace[..|trace| - 1], customerId)
  }

  lemma BlockedSnoc(trace: seq<Event>, event: Event, customerId: Id)
    ensures Blocked(trace + [event], customerId)
        <==> if event.ConsentSet? && event.customerId == customerId then !event.granted else Blocked(trace, customerId)
  {
    assert (trace + [event])[..|trace|] == trace;
  }

  // ----- the invariant

  function ExpectedOutcomes(status: Status): seq<LogOutcome> {
    match status
    case Sent => [LogSent]
    case Failed => [LogFailed]
    case _ => []
  }

  predicate RowHistoryOk(s: State, id: Id) {
    if id in s.rows
    then RowOk(s.rows[id], TallyOf(s.trace, id)) && Outcomes(s.logs, id) == ExpectedOutcomes(s.rows[id].status)
    else TallyOf(s.trace, id) == NO_UPDATES && Outcomes(s.logs, id) == []
  }

  ghost predicate RowsOk(s: State) {
    forall id :: RowHistoryOk(s, id)
  }

  /** A message's customer exists in its company; only a deletion clears the reference. */
  predicate ReferenceOk(s: State, row: Row) {
    match row.customerId
    case Some(c) => row.draft.customerId == Some(c) && CustomerFound(s, c, row.draft.companyId)
    case None => row.draft.customerId.Some? ==> row.draft.customerId.value in s.retired
  }

  ghost predicate ReferencesOk(s: State) {
    forall id :: id in s.rows ==> ReferenceOk(s, s.rows[id])
  }

  predicate SameKey(a: Draft, b: Draft) {
    a.companyId == b.companyId && a.key == b.key
  }

  /** Keys are stored trimmed, and a company has at most one message for each. */
  ghost predicate KeysOk(s: State) {
    && (forall id :: id in s.rows ==> IsTrimmed(s.rows[id].draft.key))
    && forall a, b :: a in s.rows && b in s.rows && SameKey(s.rows[a].draft, s.rows[b].draft) ==> a == b
  }

  predicate ConsentOk(s: State, c: Id) {
    if c in s.customers then c !in s.retired && (Blocked(s.trace, c) <==> s.customers[c].consent == OptedOut)
    else c in s.retired || !Blocked(s.trace, c)
  }

  ghost predicate ConsentsOk(s: State) {
    forall c :: ConsentOk(s, c)
  }

  /** Nothing was written to the row after position `since` of the trace. */
  ghost predicate Untouched(trace: seq<Event>, since: nat, id: Id) {
    forall k :: since < k < |trace| && trace[k].Wrote? ==> trace[k].id != id
  }

  /**
   * The acquisition is on the trace; attempts have not fallen since; and while the row is still
   * locked by this worker, it is locked by this acquisition and nobody wrote to it since.
   */
  ghost predicate HeldOk(s: State, w: Id, held: Held) {
    && held.id in s.rows
    && s.rows[held.id].draft.companyId == held.companyId
    && held.since < |s.trace|
    && s.trace[held.since].Wrote? && s.trace[held.since].id == held.id
    && s.trace[held.since].op.Acquire? && s.trace[held.since].op.worker == w
    && held.token <= s.rows[held.id].attempts
    && (IsLockedBy(s.rows[held.id], w) ==>
          s.rows[held.id].attempts == held.token && Untouched(s.trace, held.since, held.id))
  }

  /** The copy of the row that the worker loaded. */
  predicate MessageOk(s: State, held: Held, message: Row)
    requires held.id in s.rows
  {
    && message.draft == s.rows[held.id].draft
    && message.attempts == held.token
    && (message.customerId.Some? ==> message.customerId == message.draft.customerId)
    && (message.customerId.None? && message.draft.customerId.Some? ==> message.draft.customerId.value in s.retired)
  }

  /** At some moment after the acquisition the customer was not opted out. */
  ghost predicate ClearedSince(trace: seq<Event>, since: nat, customerId: Option<Id>) {
    customerId.Some? ==> exists p :: since < p <= |trace| && !Blocked(trace[..p], customerId.value)
  }

  ghost predicate StageOk(s: State, held: Held, stage: Stage)
    requires held.id in s.rows
  {
    match stage
    case Loading => true
    case Releasing => true
    case ReadingCompany(message) => MessageOk(s, held, message) && message.customerId.Some?
    case ReadingCustomer(message, _) => MessageOk(s, held, message) && message.customerId.Some?
    case Cancelling(message, _) => MessageOk(s, held, message) && message.customerId.Some?
    case Sending(message) => MessageOk(s, held, message) && ClearedSince(s.trace, held.since, message.customerId)
    case Settling(message, _) => MessageOk(s, held, message) && ClearedSince(s.trace, held.since, message.customerId)
  }

  ghost predicate WorkerOk(s: State, w: Id) {
    match PhaseOf(s, w)
    case Holding(held, stage, _) => HeldOk(s, w, held) && StageOk(s, held, stage)
    case Recovering(expiredAt, now, _) => expiredAt == now - LOCK_TIMEOUT_MS
    case _ => true
  }

  ghost predicate WorkersOk(s: State) {
    forall w :: WorkerOk(s, w)
  }

  ghost predicate Inv(s: State) {
    RowsOk(s) && ReferencesOk(s) && KeysOk(s) && ConsentsOk(s) && WorkersOk(s)
  }

  lemma RowIsOk(s: State, id: Id)
    requires Inv(s)
    ensures RowHistoryOk(s, id)
  {
  }

  lemma WorkerIsOk(s: State, w: Id)
    requires Inv(s)
    ensures WorkerOk(s, w)
  {
  }

  lemma EmptyOk()
    ensures Inv(EMPTY)
  {
    forall id ensures RowHistoryOk(EMPTY, id) {}
    forall c ensures ConsentOk(EMPTY, c) {}
    forall w ensures WorkerOk(EMPTY, w) {}
  }

  // ----- a worker is not disturbed by what others do

  /** What the rest of the system may do to the row a worker holds. */
  ghost predicate HeldRowKept(s: State, t: State, w: Id, held: Held)
    requires held.id in s.rows
  {
    && held.id in t.rows
    && t.rows[held.id].draft == s.rows[held.id].draft
    && t.rows[held.id].attempts >= s.rows[held.id].attempts
    && (IsLockedBy(t.rows[held.id], w) ==>
          && IsLockedBy(s.rows[held.id], w) && t.rows[held.id].attempts == s.rows[held.id].attempts
          && forall k :: |s.trace| <= k < |t.trace| && t.trace[k].Wrote? ==> t.trace[k].id != held.id)
  }

  lemma WorkerUndisturbed(s: State, t: State, w: Id)
    requires WorkerOk(s, w) && PhaseOf(t, w) == PhaseOf(s, w)
    requires s.trace <= t.trace && s.retired <= t.retired
    requires PhaseOf(s, w).Holding? ==> HeldRowKept(s, t, w, PhaseOf(s, w).held)
    ensures WorkerOk(t, w)
  {
    match PhaseOf(s, w)
    case Holding(held, stage, _) =>
      assert t.trace[held.since] == s.trace[held.since];
      if IsLockedBy(t.rows[held.id], w) {
        forall k | held.since < k < |t.trace| && t.trace[k].Wrote? ensures t.trace[k].id != held.id {
          if k < |s.trace| { assert t.trace[k] == s.trace[k]; }
        }
      }
      match stage {
        case Sending(message) => StillCleared(s.trace, t.trace, held.since, message.customerId);
        case Settling(message, _) => StillCleared(s.trace, t.trace, held.since, message.customerId);
        case _ =>
      }
    case _ =>
  }

  lemma StillCleared(a: seq<Event>, b: seq<Event>, since: nat, customerId: Option<Id>)
    requires a <= b && ClearedSince(a, since, customerId)
    ensures ClearedSince(b, since, customerId)
  {
    if customerId.Some? {
      var p :| since < p <= |a| && !Blocked(a[..p], customerId.value);
      assert b[..p] == a[..p];
    }
  }

  // ----- writing a row

  /** An outcome is reached when it is logged. */
  lemma EffectOutcome(row: Row, t: Tally, op: RowOp)
    requires RowOk(row, t) && Guard(row, op)
    ensures ExpectedOutcomes(Effect(row, op).status)
         == ExpectedOutcomes(row.status) + (if op.MarkSent? then [LogSent] else if op.MarkFailed? then [LogFailed] else [])
  {
  }

  lemma UpdateKeepsHistory(s: State, id: Id, companyId: Id, op: RowOp, customerId: Option<Id>)
    requires RowHistoryOk(s, id) && Matches(s, id, companyId, op) && Issued(s.rows[id], op)
    ensures RowHistoryOk(Update(s, id, companyId, op, customerId), id)
  {
    hide RowOk, Guard, Issued, Effect, Outcomes, TallyOf, LogsFor, ExpectedOutcomes, Count;
    TallySnoc(s.trace, Wrote(id, op), id);
    OutcomesAfter(s.logs, id, customerId, op, id);
    UpdateKeepsRowOk(s.rows[id], TallyOf(s.trace, id), op);
    EffectOutcome(s.rows[id], TallyOf(s.trace, id), op);
  }

  lemma UpdateLeavesHistory(s: State, id: Id, companyId: Id, op: RowOp, customerId: Option<Id>, other: Id)
    requires RowHistoryOk(s, other) && other != id
    ensures RowHistoryOk(Update(s, id, companyId, op, customerId), other)
  {
    hide RowOk, Matches, Effect, Outcomes, TallyOf, LogsFor, ExpectedOutcomes;
    TallySnoc(s.trace, Wrote(id, op), other);
    OutcomesAfter(s.logs, id, customerId, op, other);
  }

  lemma UpdateKeepsRows(s: State, id: Id, companyId: Id, op: RowOp, customerId: Option<Id>)
    requires RowsOk(s)
    requires Matches(s, id, companyId, op) ==> Issued(s.rows[id], op)
    ensures RowsOk(Update(s, id, companyId, op, customerId))
  {
    var t := Update(s, id, companyId, op, customerId);
    hide RowHistoryOk, Effect, Issued, LogsFor;
    if Matches(s, id, companyId, op) {
      forall other ensures RowHistoryOk(t, other) {
        assert RowHistoryOk(s, other);
        if other == id {
          UpdateKeepsHistory(s, id, companyId, op, customerId);
        } else {
          UpdateLeavesHistory(s, id, companyId, op, customerId, other);
        }
      }
    }
  }

  /** Nobody's draft or reference differs. */
  ghost predicate SameReferences(s: State, t: State) {
    && t.customers == s.customers && t.retired == s.retired
    && t.rows.Keys == s.rows.Keys
    && forall id :: id in s.rows ==> t.rows[id].draft == s.rows[id].draft && t.rows[id].customerId == s.rows[id].customerId
  }

  lemma EffectKeepsReferences(row: Row, op: RowOp)
    ensures Effect(row, op).draft == row.draft && Effect(row, op).customerId == row.customerId
  {
  }

  lemma UpdateKeepsDrafts(s: State, id: Id, companyId: Id, op: RowOp, customerId: Option<Id>)
    ensures SameReferences(s, Update(s, id, companyId, op, customerId))
  {
    hide Effect, Guard, LogsFor;
    if id in s.rows { EffectKeepsReferences(s.rows[id], op); }
  }

  lemma SameReferencesAreOk(s: State, t: State)
    requires SameReferences(s, t) && ReferencesOk(s)
    ensures ReferencesOk(t)
  {
    forall id | id in t.rows ensures ReferenceOk(t, t.rows[id]) { assert ReferenceOk(s, s.rows[id]); }
  }

  lemma SameDraftsKeepKeys(s: State, t: State)
    requires SameReferences(s, t) && KeysOk(s)
    ensures KeysOk(t)
  {
    hide IsTrimmed;
  }

  lemma UpdateKeepsReferences(s: State, id: Id, companyId: Id, op: RowOp, customerId: Option<Id>)
    requires ReferencesOk(s) && KeysOk(s)
    ensures var t := Update(s, id, companyId, op, customerId);
      && ReferencesOk(t) && KeysOk(t)
  {
    hide Update, ReferencesOk, KeysOk, SameReferences;
    UpdateKeepsDrafts(s, id, companyId, op, customerId);
    SameReferencesAreOk(s, Update(s, id, companyId, op, customerId));
    SameDraftsKeepKeys(s, Update(s, id, companyId, op, customerId));
  }

  lemma UpdateKeepsConsents(s: State, id: Id, companyId: Id, op: RowOp, customerId: Option<Id>)
    requires ConsentsOk(s)
    ensures ConsentsOk(Update(s, id, companyId, op, customerId))
  {
    var t := Update(s, id, companyId, op, customerId);
    forall c ensures ConsentOk(t, c) {
      assert ConsentOk(s, c);
      BlockedSnoc(s.trace, Wrote(id, op), c);
    }
  }

  lemma EffectOnHeldRow(row: Row, t: Tally, op: RowOp, w: Id)
    requires RowOk(row, t) && Guard(row, op)
    requires op.Acquire? ==> op.worker != w
    ensures Effect(row, op).draft == row.draft && Effect(row, op).attempts >= row.attempts && !IsLockedBy(Effect(row, op), w)
  {
  }

  lemma UpdateKeepsWorker(s: State, id: Id, companyId: Id, op: RowOp, customerId: Option<Id>, w: Id)
    requires RowHistoryOk(s, id) && WorkerOk(s, w)
    requires op.Acquire? && op.worker == w ==> !PhaseOf(s, w).Holding?
    ensures WorkerOk(Update(s, id, companyId, op, customerId), w)
  {
    hide WorkerOk, Effect, Guard, RowOk, IsLockedBy, Outcomes, TallyOf, LogsFor;
    var t := Update(s, id, companyId, op, customerId);
    if PhaseOf(s, w).Holding? {
      HoldersHaveRows(s, w);
      if Matches(s, id, companyId, op) { EffectOnHeldRow(s.rows[id], TallyOf(s.trace, id), op, w); }
    }
    WorkerUndisturbed(s, t, w);
  }

  lemma HoldersHaveRows(s: State, w: Id)
    requires WorkerOk(s, w) && PhaseOf(s, w).Holding?
    ensures PhaseOf(s, w).held.id in s.rows
  {
  }

  lemma UpdateKeepsWorkers(s: State, id: Id, companyId: Id, op: RowOp, customerId: Option<Id>)
    requires RowsOk(s) && WorkersOk(s)
    requires op.Acquire? ==> !PhaseOf(s, op.worker).Holding?
    ensures WorkersOk(Update(s, id, companyId, op, customerId))
  {
    hide Update, WorkerOk, RowHistoryOk;
    forall w ensures WorkerOk(Update(s, id, companyId, op, customerId), w) {
      assert WorkerOk(s, w);
      assert RowHistoryOk(s, id);
      UpdateKeepsWorker(s, id, companyId, op, customerId, w);
    }
  }

  lemma UpdateKeepsInv(s: State, id: Id, companyId: Id, op: RowOp, customerId: Option<Id>)
    requires Inv(s)
    requires op.Acquire? ==> !PhaseOf(s, op.worker).Holding?
    requires Matches(s, id, companyId, op) ==> Issued(s.rows[id], op)
    ensures Inv(Update(s, id, companyId, op, customerId))
  {
    hide Update, RowsOk, ReferencesOk, KeysOk, ConsentsOk, WorkersOk;
    UpdateKeepsRows(s, id, companyId, op, customerId);
    UpdateKeepsReferences(s, id, companyId, op, customerId);
    UpdateKeepsConsents(s, id, companyId, op, customerId);
    UpdateKeepsWorkers(s, id, companyId, op, customerId);
  }

  // ----- moving one worker

  lemma EnterKeepsInv(s: State, w: Id, phase: Phase)
    requires Inv(s)
    requires phase.Holding? ==> HeldOk(s, w, phase.held) && StageOk(s, phase.held, phase.stage)
    requires phase.Recovering? ==> phase.expiredAt == phase.now - LOCK_TIMEOUT_MS
    ensures Inv(Enter(s, w, phase))
  {
    var t := Enter(s, w, phase);
    forall id ensures RowHistoryOk(t, id) { assert RowHistoryOk(s, id); }
    forall c ensures ConsentOk(t, c) { assert ConsentOk(s, c); }
    forall v ensures WorkerOk(t, v) {
      assert WorkerOk(s, v);
      if v != w { WorkerUndisturbed(s, t, v); }
    }
    forall id | id in t.rows ensures ReferenceOk(t, t.rows[id]) { assert ReferenceOk(s, s.rows[id]); }
  }
}
