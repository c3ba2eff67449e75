/** What holds in every run of the outbound queue, whatever the schedule. */
module QueueGuarantees {
  import opened Basics
  import opened DeliveryOrder
  import opened OutboundRow
  import opened QueueMachine
  import opened QueueMoves
  import opened QueueInvariants
  import opened QueueRuns
  import opened QueueSteps

  // ----- locking

  predicate IsWorkerWrite(a: Action) {
    a.WriteCancel? || a.WriteOutcome? || a.WriteRelease?
  }

  function MessageOf(stage: Stage): Option<Row> {
    match stage
    case Cancelling(message, _) => Some(message)
    case Settling(message, _) => Some(message)
    case _ => None
  }

  /** The row is still held by the very acquisition: the lock, the attempt and an untouched row. */
  ghost predicate StillHeld(s: State, w: Id, held: Held) {
    && held.id in s.rows
    && IsLockedBy(s.rows[held.id], w)
    && s.rows[held.id].attempts == held.token
    && held.since < |s.trace|
    && s.trace[held.since].Wrote? && s.trace[held.since].id == held.id
    && s.trace[held.since].op.Acquire? && s.trace[held.since].op.worker == w
    && Untouched(s.trace, held.since, held.id)
  }

  /**
   * The lock is only a worker id, and workers stall, crash and have their locks recovered; still, a
   * write of a worker that changes anything changes just the row it acquired, while that very
   * acquisition still holds it: nobody wrote to the row since, and its attempts are those loaded.
   */
  lemma WritesAreFenced(actions: seq<Action>, a: Action)
    requires IsWorkerWrite(a)
    ensures var s := Run(EMPTY, actions);
      var t := Step(s, a);
      t.rows != s.rows || t.logs != s.logs || t.trace != s.trace ==>
        && PhaseOf(s, a.worker).Holding?
        && var Holding(held, stage, _) := PhaseOf(s, a.worker);
        && StillHeld(s, a.worker, held)
        && (MessageOf(stage).Some? ==> MessageOf(stage).value.attempts == s.rows[held.id].attempts)
        && held.id in t.rows && t.rows == s.rows[held.id := t.rows[held.id]]
        && !IsLockedBy(t.rows[held.id], a.worker)
  {
    hide Run, Step, RequestOf, Inv, Untouched, Entered, Update, IsLockedBy;
    EveryRunIsOk(actions);
    var s := Run(EMPTY, actions);
    WorkersMove(s, a);
    if RequestOf(s, a) != Nothing {
      WorkersWriteTheirRow(s, a);
      UpdateIsFenced(s, a.worker, RequestOf(s, a).op, RequestOf(s, a).customerId);
    }
  }

  lemma WorkersWriteTheirRow(s: State, a: Action)
    requires IsWorkerWrite(a) && RequestOf(s, a) != Nothing
    ensures PhaseOf(s, a.worker).Holding?
    ensures var held, request := PhaseOf(s, a.worker).held, RequestOf(s, a);
      && request.Write? && request.id == held.id && request.companyId == held.companyId
      && IsOwnWrite(request.op) && request.op.worker == a.worker
  {
  }

  predicate IsOwnWrite(op: RowOp) {
    op.Cancel? || op.ReleaseAfterError? || op.ReleaseForRetry? || op.MarkSent? || op.MarkFailed?
  }

  lemma OwnWritesNeedTheLock(row: Row, op: RowOp)
    requires IsOwnWrite(op) && Guard(row, op)
    ensures IsLockedBy(row, op.worker) && !IsLockedBy(Effect(row, op), op.worker)
  {
  }

  lemma UpdateIsFenced(s: State, w: Id, op: RowOp, customerId: Option<Id>)
    requires Inv(s) && PhaseOf(s, w).Holding? && IsOwnWrite(op) && op.worker == w
    ensures var Holding(held, stage, _) := PhaseOf(s, w);
      var t := Update(s, held.id, held.companyId, op, customerId);
      && (MessageOf(stage).Some? ==> MessageOf(stage).value.attempts == held.token)
      && (t != s ==> StillHeld(s, w, held) && held.id in t.rows && t.rows == s.rows[held.id := t.rows[held.id]]
                     && !IsLockedBy(t.rows[held.id], w))
  {
    hide Inv, Guard, Effect, IsLockedBy, IsOwnWrite, ClearedSince, LogsFor;
    WorkerIsOk(s, w);
    var held := PhaseOf(s, w).held;
    if Matches(s, held.id, held.companyId, op) { OwnWritesNeedTheLock(s.rows[held.id], op); }
  }

  /** Recovery takes a lock away only after it has been held for the whole timeout. */
  lemma LocksLastTheirTimeout(actions: seq<Action>, w: Id, reply: Reply, id: Id)
    requires id in Run(EMPTY, actions).rows
    ensures var s := Run(EMPTY, actions);
      var t := Step(s, RecoverNext(w, reply));
      && id in t.rows
      && (t.rows[id] != s.rows[id] ==>
            s.rows[id].lockedAt.Some? && s.rows[id].lockedAt.value + 300_000 <= t.rows[id].availableAt
            && t.rows[id].status == Pending && t.rows[id].lockedBy == None && t.rows[id].attempts == s.rows[id].attempts)
  {
    hide Run, Step, Inv;
    EveryRunIsOk(actions);
    WorkerIsOk(Run(EMPTY, actions), w);
    StepOnRow(Run(EMPTY, actions), RecoverNext(w, reply), id);
  }

  lemma PendingRowsWait(row: Row, t: Tally, now: int)
    requires RowOk(row, t) && row.status == Pending && row.availableAt <= now
    ensures match t.last
            case None => row.draft.scheduledAt <= now
            case Some(ReleaseForRetry(_, at, n, _)) =>
              n == row.attempts && at + (if n == 1 then 60_000 else if n == 2 then 300_000 else 900_000) <= now
            case Some(ReleaseAfterError(_, at)) => at + 60_000 <= now
            case Some(op) => op.RecoverLock? && op.at <= now
  {
  }

  /** A message is not taken up again before the delay of its last release has passed. */
  lemma RetriesWait(actions: seq<Action>, w: Id, now: int, reply: Reply, id: Id)
    requires id in Run(EMPTY, actions).rows
    ensures var s := Run(EMPTY, actions);
      var t := Step(s, AcquireNext(w, now, reply));
      && id in t.rows
      && (t.rows[id] != s.rows[id] ==>
            t.rows[id].attempts == s.rows[id].attempts + 1 && t.rows[id].lockedBy == Some(w) && t.rows[id].lockedAt == Some(now)
            && match TallyOf(s.trace, id).last
               case None => s.rows[id].draft.scheduledAt <= now
               case Some(ReleaseForRetry(_, at, n, _)) =>
                 n == s.rows[id].attempts && at + (if n == 1 then 60_000 else if n == 2 then 300_000 else 900_000) <= now
               case Some(ReleaseAfterError(_, at)) => at + 60_000 <= now
               case Some(op) => op.RecoverLock? && op.at <= now)
  {
    hide Run, Step, Inv, RowOk, Outcomes;
    EveryRunIsOk(actions);
    var s := Run(EMPTY, actions);
    RowIsOk(s, id);
    StepOnRow(s, AcquireNext(w, now, reply), id);
    if Guard(s.rows[id], Acquire(w, now)) { PendingRowsWait(s.rows[id], TallyOf(s.trace, id), now); }
  }

  // ----- the life of a row

  /** Logs, locks, sending time and receipts follow from the status, in every run. */
  lemma StatusTellsTheStory(actions: seq<Action>, id: Id)
    ensures var s := Run(EMPTY, actions);
      if id !in s.rows then Outcomes(s.logs, id) == []
      else var row := s.rows[id];
        && Outcomes(s.logs, id) == (match row.status case Sent => [LogSent] case Failed => [LogFailed] case _ => [])
        && (row.lockedAt.Some? <==> row.status == Processing)
        && (row.lockedBy.Some? <==> row.status == Processing)
        && (row.processingAt.Some? <==> row.status == Processing)
        && (row.sentAt.Some? <==> row.status == Sent)
        && (row.delivery.Some? ==> row.status == Sent)
  {
    hide Run, Inv;
    EveryRunIsOk(actions);
    RowIsOk(Run(EMPTY, actions), id);
  }

  /** What can become of a row in later states. */
  predicate Succeeds(now: Row, later: Row) {
    && later.draft == now.draft
    && now.attempts <= later.attempts
    && Rank(now.delivery) <= Rank(later.delivery)
    && (Rank(now.delivery) == Rank(later.delivery) ==> now.delivery == later.delivery)
    && (forall event :: !CanAdvance(now.delivery, event) ==> !CanAdvance(later.delivery, event))
    && (now.status.IsTerminal() ==>
          later.status == now.status && later.attempts == now.attempts && later.sentAt == now.sentAt
          && later.provider == now.provider && later.providerMessageId == now.providerMessageId)
  }

  lemma UpdateSucceeds(row: Row, t: Tally, op: RowOp)
    requires RowOk(row, t) && Guard(row, op) && Issued(row, op)
    ensures Succeeds(row, Effect(row, op))
  {
    if op.Deliver? {
      forall event | !CanAdvance(row.delivery, event) ensures !CanAdvance(Some(op.event), event) {
        SettledForGood(row.delivery, event, [op.event]);
      }
    }
  }

  lemma InsertsLeaveRows(s: State, a: Action, id: Id)
    requires a.Insert? && id in s.rows
    ensures id in Step(s, a).rows && Step(s, a).rows[id] == s.rows[id]
  {
    hide KeyTaken, CustomerFound;
  }

  lemma DeletionsDetachRows(s: State, a: Action, id: Id)
    requires a.DeleteCustomer? && id in s.rows
    ensures id in Step(s, a).rows
    ensures Step(s, a).rows[id] == s.rows[id] || Step(s, a).rows[id] == s.rows[id].(customerId := None)
  {
  }

  lemma ManagementKeepsStatus(s: State, a: Action, id: Id)
    requires (a.Insert? || a.DeleteCustomer?) && id in s.rows
    ensures id in Step(s, a).rows && Step(s, a).rows[id].status == s.rows[id].status
  {
    hide Step;
    if a.Insert? { InsertsLeaveRows(s, a, id); } else { DeletionsDetachRows(s, a, id); }
  }

  lemma ManagementSucceeds(s: State, a: Action, id: Id)
    requires (a.Insert? || a.DeleteCustomer?) && id in s.rows
    ensures id in Step(s, a).rows && Succeeds(s.rows[id], Step(s, a).rows[id])
  {
    hide Step, CanAdvance, Rank;
    if a.Insert? { InsertsLeaveRows(s, a, id); } else { DeletionsDetachRows(s, a, id); }
  }

  lemma StaysAsItIs(row: Row)
    ensures Succeeds(row, row)
  {
  }

  lemma StepSucceeds(s: State, a: Action, id: Id)
    requires Inv(s) && id in s.rows
    ensures id in Step(s, a).rows && Succeeds(s.rows[id], Step(s, a).rows[id])
  {
    hide Step, Inv, Succeeds, RequestOf, Effect, Guard, Issued, RowOk;
    if a.Insert? || a.DeleteCustomer? {
      ManagementSucceeds(s, a, id);
    } else {
      StepOnRow(s, a, id);
      if Step(s, a).rows[id] == s.rows[id] {
        StaysAsItIs(s.rows[id]);
      } else {
        RowIsOk(s, id);
        RequestsAreIssued(s, a);
        UpdateSucceeds(s.rows[id], TallyOf(s.trace, id), RequestOf(s, a).op);
      }
    }
  }

  lemma {:induction false} RunSucceeds(s: State, more: seq<Action>, id: Id)
    requires Inv(s) && id in s.rows
    ensures id in Run(s, more).rows && Succeeds(s.rows[id], Run(s, more).rows[id])
    decreases more
  {
    hide Step, Inv;
    if more != [] {
      hide Succeeds;
      StepSucceeds(s, more[0], id);
      StepKeepsInv(s, more[0]);
      RunSucceeds(Step(s, more[0]), more[1..], id);
      SucceedsTwice(s.rows[id], Step(s, more[0]).rows[id], Run(s, more).rows[id]);
    }
  }

  lemma SucceedsTwice(now: Row, next: Row, later: Row)
    requires Succeeds(now, next) && Succeeds(next, later)
    ensures Succeeds(now, later)
  {
  }

  /** SENT, FAILED and CANCELLED are final, logs included; a row never disappears or changes its draft. */
  lemma TerminalStatesAreFinal(actions: seq<Action>, more: seq<Action>, id: Id)
    requires id in Run(EMPTY, actions).rows
    ensures var s, t := Run(EMPTY, actions), Run(EMPTY, actions + more);
      && id in t.rows && t.rows[id].draft == s.rows[id].draft
      && (s.rows[id].status.IsTerminal() ==>
            t.rows[id].status == s.rows[id].status && t.rows[id].sentAt == s.rows[id].sentAt
            && t.rows[id].attempts == s.rows[id].attempts && Outcomes(t.logs, id) == Outcomes(s.logs, id))
  {
    EveryRunIsOk(actions);
    EveryRunIsOk(actions + more);
    RunAppend(EMPTY, actions, more);
    RunSucceeds(Run(EMPTY, actions), more, id);
    assert RowHistoryOk(Run(EMPTY, actions), id) && RowHistoryOk(Run(EMPTY, actions + more), id);
  }

  /** The row after a receipt: the delivery status, the columns of this event, and nothing else. */
  predicate ReceiptStored(before: Row, after: Row, event: Receipt, at: int, code: string) {
    && after.delivery == Some(event)
    && after.deliveredAt == (if event == DeliveredReceipt then Some(at) else before.deliveredAt)
    && after.readAt == (if event == ReadReceipt then Some(at) else before.readAt)
    && after.failedAt == (if event == FailedReceipt then Some(at) else before.failedAt)
    && after.lastErrorCode == (if event == FailedReceipt then Some(code) else before.lastErrorCode)
    && after == before.(delivery := after.delivery, deliveredAt := after.deliveredAt, readAt := after.readAt,
                        failedAt := after.failedAt, lastErrorCode := after.lastErrorCode)
  }

  /** The receipt is for this message, and its delivery status is still the one that was read. */
  predicate ReceiptFits(row: Row, a: Action)
    requires a.ApplyReceipt?
  {
    && a.companyId == row.draft.companyId && row.provider == Some(MetaCloud) && row.providerMessageId == Some(a.messageId)
    && row.delivery == a.expected && CanAdvance(row.delivery, a.event) && a.sentAtSeen.Some?
  }

  lemma EffectStores(row: Row, op: RowOp)
    requires op.Deliver? && op.sentAtSeen.Some?
    ensures ReceiptStored(row, Effect(row, op), op.event, op.at, op.code)
  {
  }

  lemma SentByMeta(row: Row, t: Tally)
    requires RowOk(row, t)
    ensures row.sentAt.Some? <==> row.provider.Some?
  {
  }

  lemma OtherRowsStay(s: State, a: Action, id: Id)
    requires a.ApplyReceipt? && id in s.rows
    ensures var t := Step(s, a);
      t.logs == s.logs && t.workers == s.workers && id in t.rows && (a.id != id ==> t.rows[id] == s.rows[id])
  {
    hide CanAdvance, Effect, Guard;
  }

  lemma FittingReceipts(s: State, a: Action, id: Id)
    requires a.ApplyReceipt? && id in s.rows && RowOk(s.rows[id], TallyOf(s.trace, id)) && a.id == id
    ensures var t := Step(s, a);
      && id in t.rows
      && if ReceiptFits(s.rows[id], a) then ReceiptStored(s.rows[id], t.rows[id], a.event, a.at, a.code)
         else t.rows[id] == s.rows[id]
  {
    SentByMeta(s.rows[id], TallyOf(s.trace, id));
    hide CanAdvance, TallyOf, Effect, ReceiptStored, RowOk, LogsFor;
    if a.sentAtSeen.Some? {
      EffectStores(s.rows[id], Deliver(a.messageId, a.expected, a.event, a.at, a.sentAtSeen, a.code));
    }
  }

  /**
   * A receipt takes effect exactly when it fits, on a message that was sent; then it moves the delivery status forward
   * and stores the time of its own event, and a failure its code. It touches nothing the queue decides on.
   */
  lemma ReceiptsOnlyMoveDelivery(actions: seq<Action>, a: Action, id: Id)
    requires a.ApplyReceipt? && id in Run(EMPTY, actions).rows
    ensures var s := Run(EMPTY, actions);
      var t := Step(s, a);
      && id in t.rows && t.logs == s.logs && t.workers == s.workers
      && var before, after := s.rows[id], t.rows[id];
      && (after != before <==> a.id == id && ReceiptFits(before, a))
      && (after != before ==> before.status == Sent && ReceiptStored(before, after, a.event, a.at, a.code))
  {
    hide Run, Step, Inv, RowOk, Outcomes, ReceiptStored, ReceiptFits;
    EveryRunIsOk(actions);
    var s := Run(EMPTY, actions);
    RowIsOk(s, id);
    OtherRowsStay(s, a, id);
    if a.id == id { FittingReceipts(s, a, id); }
    if a.id == id && ReceiptFits(s.rows[id], a) { FittingRowsAreSent(s.rows[id], TallyOf(s.trace, id), a); }
  }

  lemma FittingRowsAreSent(row: Row, t: Tally, a: Action)
    requires a.ApplyReceipt? && RowOk(row, t) && ReceiptFits(row, a)
    ensures row.status == Sent && forall after, at, code :: ReceiptStored(row, after, a.event, at, code) ==> after != row
  {
  }

  // ----- attempts

  function FaultsOf(t: Tally): nat { t.recovered + t.errored }

  function UpdatesOf(t: Tally): nat {
    t.acquired + t.retried + t.recovered + t.errored + t.sent + t.failed + t.cancelled
  }

  function AtLeastOne(n: int): nat { if n < 1 then 1 else n }

  /**
   * Attempts are accounted for release by release. `maxAttempts` bounds the retries and not the
   * attempts, since recovery and error release do not look at it.
   */
  lemma AttemptsAreConserved(actions: seq<Action>, id: Id)
    requires id in Run(EMPTY, actions).rows
    ensures var s := Run(EMPTY, actions);
      var row, t := s.rows[id], TallyOf(s.trace, id);
      && row.attempts == t.acquired
      && row.attempts == t.retried + t.recovered + t.errored + (if row.status == Pending then 0 else 1)
      && t.retried <= AtLeastOne(row.draft.maxAttempts) - 1
      && row.attempts <= AtLeastOne(row.draft.maxAttempts) + FaultsOf(t)
  {
    hide Run, Inv;
    EveryRunIsOk(actions);
    RowIsOk(Run(EMPTY, actions), id);
  }

  /**
   * With `f` lock recoveries and error releases a row is written at most 2 * (maxAttempts + f) times,
   * and it is terminal by the last of them: finitely many faults force an end.
   */
  lemma FiniteFaultsForceAnEnd(actions: seq<Action>, id: Id)
    requires id in Run(EMPTY, actions).rows
    ensures var s := Run(EMPTY, actions);
      var row, t := s.rows[id], TallyOf(s.trace, id);
      var most := 2 * (AtLeastOne(row.draft.maxAttempts) + FaultsOf(t));
      && UpdatesOf(t) <= most
      && (UpdatesOf(t) == most ==> row.status.IsTerminal())
      && UpdatesOf(t) == 2 * row.attempts - (if row.status == Processing then 1 else 0)
  {
    hide Run, Inv;
    EveryRunIsOk(actions);
    RowIsOk(Run(EMPTY, actions), id);
  }

  // ----- one message per key

  lemma {:induction false} LogPositions(logs: seq<Log>, i: nat, j: nat)
    requires i < j < |logs| && logs[i].messageId == logs[j].messageId
    ensures |Outcomes(logs, logs[i].messageId)| >= 2
    decreases |logs|
  {
    var shorter := logs[..|logs| - 1];
    if j < |shorter| {
      LogPositions(shorter, i, j);
    } else {
      LogPosition(shorter, i);
    }
  }

  lemma {:induction false} LogPosition(logs: seq<Log>, i: nat)
    requires i < |logs|
    ensures |Outcomes(logs, logs[i].messageId)| >= 1
    decreases |logs|
  {
    if i < |logs| - 1 {
      LogPosition(logs[..|logs| - 1], i);
    }
  }

  /** In every run a company has at most one message for a key, and at most one log for that message. */
  lemma OneMessageAndOneLogPerKey(actions: seq<Action>, a: Id, b: Id, i: nat, j: nat)
    ensures var s := Run(EMPTY, actions);
      && (a in s.rows && b in s.rows && SameKey(s.rows[a].draft, s.rows[b].draft) ==> a == b)
      && (i < |s.logs| ==> s.logs[i].messageId in s.rows)
      && (i < j < |s.logs| && s.logs[i].messageId in s.rows && s.logs[j].messageId in s.rows ==>
            !SameKey(s.rows[s.logs[i].messageId].draft, s.rows[s.logs[j].messageId].draft))
  {
    EveryRunIsOk(actions);
    var s := Run(EMPTY, actions);
    if i < |s.logs| {
      LogPosition(s.logs, i);
      assert RowHistoryOk(s, s.logs[i].messageId);
    }
    if i < j < |s.logs| && s.logs[i].messageId == s.logs[j].messageId {
      LogPositions(s.logs, i, j);
      assert false;
    }
  }
}
