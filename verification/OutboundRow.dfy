/**
 * One row of the outbound message table and the conditional updates that may touch it.
 * Each update is a pair of a guard (the `where` of the update) and an effect (its `data`).
 */
module OutboundRow {
  import opened Basics
  import opened DeliveryOrder

  datatype Status = Pending | Processing | Sent | Failed | Cancelled {
    predicate IsTerminal() { Sent? || Failed? || Cancelled? }
  }

  datatype Provider = Evolution | MetaCloud

  /** The kind of a message, and whether the worker can read its stored payload; a text has none. */
  datatype Payload = TextPayload | ImagePayload(readable: bool) | TemplatePayload(readable: bool) | OtherPayload

  /** The columns written once, when the message is enqueued. */
  datatype Draft = Draft(
    companyId: Id,
    customerId: Option<Id>,
    automationId: Option<Id>,
    channelId: Option<Id>,
    key: string,
    payload: Payload,
    scheduledAt: int,
    maxAttempts: int)

  /** `customerId` repeats the draft's until the customer is deleted, which clears it. */
  datatype Row = Row(
    draft: Draft,
    customerId: Option<Id>,
    status: Status,
    attempts: nat,
    availableAt: int,
    processingAt: Option<int>,
    lockedAt: Option<int>,
    lockedBy: Option<Id>,
    sentAt: Option<int>,
    failedAt: Option<int>,
    provider: Option<Provider>,
    providerMessageId: Option<Id>,
    delivery: Option<Receipt>,
    deliveredAt: Option<int>,
    readAt: Option<int>,
    lastErrorCode: Option<string>)

  function NewRow(draft: Draft): Row {
    Row(draft, draft.customerId, Pending, 0, draft.scheduledAt,
        None, None, None, None, None, None, None, None, None, None, None)
  }

  const LOCK_TIMEOUT_MS := 300_000
  const ERROR_DELAY_MS := 60_000

  function BackoffMs(attempts: nat): int {
    if attempts == 1 then 60_000 else if attempts == 2 then 300_000 else 900_000
  }

  datatype RowOp =
    | Acquire(worker: Id, at: int)
    | RecoverLock(expiredAt: int, at: int)
    | Cancel(worker: Id, code: string)
    | ReleaseAfterError(worker: Id, at: int)
    | ReleaseForRetry(worker: Id, at: int, attempts: nat, code: string)
    | MarkSent(worker: Id, at: int, provider: Provider, messageId: Id)
    | MarkFailed(worker: Id, at: int, code: string)
    | Deliver(messageId: Id, expected: Option<Receipt>, event: Receipt, at: int, sentAtSeen: Option<int>, code: string)

  predicate IsLockedBy(row: Row, worker: Id) {
    row.status == Processing && row.lockedBy == Some(worker)
  }

  predicate Guard(row: Row, op: RowOp) {
    match op
    case Acquire(_, at) => row.status == Pending && row.lockedAt == None && row.availableAt <= at
    case RecoverLock(expiredAt, _) => row.status == Processing && row.lockedAt.Some? && row.lockedAt.value <= expiredAt
    case Cancel(worker, _) => IsLockedBy(row, worker)
    case ReleaseAfterError(worker, _) => IsLockedBy(row, worker)
    case ReleaseForRetry(worker, _, _, _) => IsLockedBy(row, worker)
    case MarkSent(worker, _, _, _) => IsLockedBy(row, worker)
    case MarkFailed(worker, _, _) => IsLockedBy(row, worker)
    case Deliver(messageId, expected, _, _, _, _) =>
      row.provider == Some(MetaCloud) && row.providerMessageId == Some(messageId) && row.delivery == expected
  }

  function Unlocked(row: Row): Row {
    row.(processingAt := None, lockedAt := None, lockedBy := None)
  }

  function Effect(row: Row, op: RowOp): Row {
    match op
    case Acquire(worker, at) =>
      row.(status := Processing, processingAt := Some(at), lockedAt := Some(at), lockedBy := Some(worker),
           attempts := row.attempts + 1)
    case RecoverLock(_, at) =>
      Unlocked(row).(status := Pending, availableAt := at, lastErrorCode := Some("WORKER_LOCK_EXPIRED"))
    case Cancel(_, code) =>
      Unlocked(row).(status := Cancelled, sentAt := None, failedAt := None, lastErrorCode := Some(code))
    case ReleaseAfterError(_, at) =>
      Unlocked(row).(status := Pending, availableAt := at + ERROR_DELAY_MS,
                     lastErrorCode := Some("WORKER_PROCESSING_ERROR"))
    case ReleaseForRetry(_, at, attempts, code) =>
      Unlocked(row).(status := Pending, availableAt := at + BackoffMs(attempts), lastErrorCode := Some(code))
    case MarkSent(_, at, provider, messageId) =>
      Unlocked(row).(status := Sent, sentAt := Some(at), failedAt := None, provider := Some(provider),
                     providerMessageId := Some(messageId), lastErrorCode := None)
    case MarkFailed(_, at, code) =>
      Unlocked(row).(status := Failed, failedAt := Some(at), sentAt := None, lastErrorCode := Some(code))
    case Deliver(_, _, event, at, sentAtSeen, code) =>
      var moved := row.(delivery := Some(event));
      match event
      case SentReceipt => if sentAtSeen == None then moved.(sentAt := Some(at)) else moved
      case DeliveredReceipt => moved.(deliveredAt := Some(at))
      case ReadReceipt => moved.(readAt := Some(at))
      case FailedReceipt => moved.(failedAt := Some(at), lastErrorCode := Some(code))
  }

  /**
   * What the queue's updates did to one row so far: how often each took effect, and the last
   * one that did. Delivery receipts are not counted here.
   */
  datatype Tally = Tally(acquired: nat, retried: nat, recovered: nat, errored: nat,
                         sent: nat, failed: nat, cancelled: nat, last: Option<RowOp>)

  const NO_UPDATES := Tally(0, 0, 0, 0, 0, 0, 0, None)

  function Count(t: Tally, op: RowOp): Tally {
    match op
    case Acquire(_, _) => t.(acquired := t.acquired + 1, last := Some(op))
    case RecoverLock(_, _) => t.(recovered := t.recovered + 1, last := Some(op))
    case Cancel(_, _) => t.(cancelled := t.cancelled + 1, last := Some(op))
    case ReleaseAfterError(_, _) => t.(errored := t.errored + 1, last := Some(op))
    case ReleaseForRetry(_, _, _, _) => t.(retried := t.retried + 1, last := Some(op))
    case MarkSent(_, _, _, _) => t.(sent := t.sent + 1, last := Some(op))
    case MarkFailed(_, _, _) => t.(failed := t.failed + 1, last := Some(op))
    case Deliver(_, _, _, _, _, _) => t
  }

  function One(b: bool): nat { if b then 1 else 0 }

  /** The lock columns are filled together, and exactly while the row is being processed. */
  predicate LockColumnsAgree(row: Row) {
    && row.lockedAt == row.processingAt
    && (row.lockedAt.Some? <==> row.status == Processing)
    && (row.lockedBy.Some? <==> row.status == Processing)
  }

  /** Only a sent message carries a provider reference, a sending time or a receipt. */
  predicate ReceiptColumnsAgree(row: Row) {
    && (row.sentAt.Some? <==> row.status == Sent)
    && (row.provider.Some? <==> row.status == Sent)
    && (row.providerMessageId.Some? <==> row.status == Sent)
    && (row.delivery.Some? ==> row.provider == Some(MetaCloud))
    && (row.failedAt.Some? <==> row.status == Failed || row.delivery == Some(FailedReceipt))
    && (row.deliveredAt.Some? ==> row.delivery.Some? && row.delivery.value in {DeliveredReceipt, ReadReceipt})
    && (row.delivery == Some(DeliveredReceipt) ==> row.deliveredAt.Some?)
    && (row.readAt.Some? <==> row.delivery == Some(ReadReceipt))
  }

  /** Where a row is in its life follows from the last update that took effect. */
  predicate LastUpdateExplains(row: Row, last: Option<RowOp>) {
    match last
    case None => row.status == Pending && row.availableAt == row.draft.scheduledAt
    case Some(Acquire(worker, at)) => row.status == Processing && row.lockedBy == Some(worker) && row.lockedAt == Some(at)
    case Some(RecoverLock(_, at)) => row.status == Pending && row.availableAt == at
    case Some(ReleaseAfterError(_, at)) => row.status == Pending && row.availableAt == at + ERROR_DELAY_MS
    case Some(ReleaseForRetry(_, at, attempts, _)) =>
      row.status == Pending && attempts == row.attempts && row.availableAt == at + BackoffMs(attempts)
    case Some(Cancel(_, code)) => row.status == Cancelled && row.lastErrorCode == Some(code)
    case Some(MarkSent(_, at, provider, messageId)) =>
      row.status == Sent && row.sentAt == Some(at) && row.provider == Some(provider)
      && row.providerMessageId == Some(messageId)
    case Some(MarkFailed(_, at, _)) => row.status == Failed && row.failedAt == Some(at)
    case Some(Deliver(_, _, _, _, _, _)) => false
  }

  predicate TallyExplains(row: Row, t: Tally) {
    && row.attempts == t.acquired
    && t.acquired == t.retried + t.recovered + t.errored + One(row.status != Pending)
    && (t.retried == 0 || t.retried < row.draft.maxAttempts)
    && t.sent == One(row.status == Sent)
    && t.failed == One(row.status == Failed)
    && t.cancelled == One(row.status == Cancelled)
    && LastUpdateExplains(row, t.last)
  }

  predicate RowOk(row: Row, t: Tally) {
    LockColumnsAgree(row) && ReceiptColumnsAgree(row) && TallyExplains(row, t)
  }

  /** What the code has checked before it issues the update. */
  predicate Issued(row: Row, op: RowOp) {
    match op
    case ReleaseForRetry(_, _, attempts, _) => attempts == row.attempts < row.draft.maxAttempts
    case Deliver(_, expected, event, _, sentAtSeen, _) =>
      CanAdvance(expected, event) && (sentAtSeen.Some? <==> row.sentAt.Some?)
    case _ => true
  }

  lemma NewRowOk(draft: Draft)
    ensures RowOk(NewRow(draft), NO_UPDATES)
  {
  }

  lemma UpdateKeepsRowOk(row: Row, t: Tally, op: RowOp)
    requires RowOk(row, t) && Guard(row, op)
    requires Issued(row, op)
    ensures RowOk(Effect(row, op), Count(t, op))
  {
    match op
    case Deliver(_, _, event, _, _, _) =>
      assert row.status == Sent && t.last.value.MarkSent?;
    case _ =>
  }
}
