/**
 * The outbound queue as a state machine: one table, any number of workers, the delivery webhook,
 * enqueues and customer management, interleaved one database call or provider call at a time.
 *
 * An action names everything the environment decides: which actor moves, what its clock says,
 * which candidates a query returned, how the provider answered, and whether the caller of a write
 * ever learned that it took effect. Actions that do not fit the state they meet do nothing, so
 * every sequence of actions is a schedule.
 */
module QueueMachine {
  import opened Basics
  import opened Consent
  import opened DeliveryOrder
  import opened OutboundRow
  import opened Text

  datatype LogOutcome = LogSent | LogFailed

  datatype Log = Log(messageId: Id, customerId: Option<Id>, outcome: LogOutcome, sentAt: Option<int>)

  datatype Target = Target(id: Id, companyId: Id)

  /**
   * The acquisition a worker is busy with. `token` and `since` are for the proofs only: the
   * attempt this acquisition is, and the length of the trace when it was made.
   */
  datatype Held = Held(id: Id, companyId: Id, token: nat, since: nat)

  datatype Answer =
    | Accepted(provider: Provider, messageId: Id)
    | Refused(code: string, retryable: bool)

  /** What became of a call: never sent; sent and not acted on; or the message went out, whatever was answered. */
  datatype Fate = NotSent | NoEffect | WentOut

  /** Where a worker stands in the processing of the message it acquired. */
  datatype Stage =
    | Loading
    | ReadingCompany(message: Row)
    | ReadingCustomer(message: Row, policy: UnknownPolicy)
    | Cancelling(message: Row, code: string)
    | Sending(message: Row)
    | Settling(message: Row, answer: Answer)
    | Releasing

  /** `Idle` is the state in which the source's `isRunning` is false. */
  datatype Phase =
    | Idle
    | Recovering(expiredAt: int, now: int, candidates: seq<Target>)
    | Selecting
    | Looping(batch: seq<Target>)
    | Holding(held: Held, stage: Stage, rest: seq<Target>)

  datatype Event =
    | Wrote(id: Id, op: RowOp)
    | Called(worker: Id, id: Id, since: nat)
    | ConsentSet(customerId: Id, granted: bool)

  datatype State = State(
    rows: map<Id, Row>,
    logs: seq<Log>,
    customers: map<Id, Customer>,
    retired: set<Id>,
    policies: map<Id, UnknownPolicy>,
    workers: map<Id, Phase>,
    trace: seq<Event>)

  const EMPTY := State(map[], [], map[], {}, map[], map[], [])

  datatype Action =
    // the worker
    | StartCron(worker: Id, now: int, found: Option<seq<Target>>)
    | RecoverNext(worker: Id, reply: Reply)
    | SelectBatch(worker: Id, found: Option<seq<Target>>)
    | AcquireNext(worker: Id, now: int, reply: Reply)
    | LoadMessage(worker: Id, answered: bool)
    | ReadCompany(worker: Id, answered: bool)
    | ReadCustomer(worker: Id, answered: bool)
    | WriteCancel(worker: Id, reply: Reply)
    | CallProvider(worker: Id, fate: Fate, answer: Answer)
    | WriteOutcome(worker: Id, now: int, reply: Reply)
    | WriteRelease(worker: Id, now: int, reply: Reply)
    | Crash(worker: Id)
    // everybody else
    | Insert(id: Id, draft: Draft)
    | ApplyReceipt(id: Id, companyId: Id, messageId: Id, expected: Option<Receipt>, event: Receipt,
                   at: int, sentAtSeen: Option<int>, code: string)
    | SetConsent(companyId: Id, customerId: Id, granted: bool, now: int)
    | CreateCustomer(customerId: Id, customer: Customer)
    | EditCustomer(customerId: Id, phone: string, active: bool)
    | DeleteCustomer(customerId: Id)
    | SetPolicy(companyId: Id, policy: Option<UnknownPolicy>)

  function PhaseOf(s: State, worker: Id): Phase {
    if worker in s.workers then s.workers[worker] else Idle
  }

  function Enter(s: State, worker: Id, phase: Phase): State {
    s.(workers := s.workers[worker := phase])
  }

  predicate Matches(s: State, id: Id, companyId: Id, op: RowOp) {
    id in s.rows && s.rows[id].draft.companyId == companyId && Guard(s.rows[id], op)
  }

  /** The log row that the same transaction creates when the update matched. */
  function LogsFor(id: Id, customerId: Option<Id>, op: RowOp): seq<Log> {
    match op
    case MarkSent(_, at, _, _) => [Log(id, customerId, LogSent, Some(at))]
    case MarkFailed(_, _, _) => [Log(id, customerId, LogFailed, None)]
    case _ => []
  }

  function Update(s: State, id: Id, companyId: Id, op: RowOp, customerId: Option<Id>): State {
    if !Matches(s, id, companyId, op) then s
    else s.(rows := s.rows[id := Effect(s.rows[id], op)],
            logs := s.logs + LogsFor(id, customerId, op),
            trace := s.trace + [Wrote(id, op)])
  }

  /** A write as its caller sees it: lost before it took effect, or made. */
  function Attempt(before: State, reply: Reply, after: State): State {
    if reply == LostBefore then before else after
  }

  // ----- the worker

  /** An idle worker starts; one that is already running skips this execution. */
  function StartCronStep(s: State, w: Id, now: int, found: Option<seq<Target>>): State {
    if PhaseOf(s, w) != Idle then s
    else match found
      case Some(candidates) => Enter(s, w, Recovering(now - LOCK_TIMEOUT_MS, now, candidates))
      case None => Enter(s, w, Selecting)
  }

  function RecoverNextStep(s: State, w: Id, reply: Reply): State {
    match PhaseOf(s, w)
    case Recovering(expiredAt, now, candidates) =>
      if candidates == [] then Enter(s, w, Selecting)
      else
        var target := candidates[0];
        var written := Update(s, target.id, target.companyId, RecoverLock(expiredAt, now), None);
        Enter(Attempt(s, reply, written), w, Recovering(expiredAt, now, candidates[1..]))
    case _ => s
  }

  function SelectBatchStep(s: State, w: Id, found: Option<seq<Target>>): State {
    if PhaseOf(s, w) != Selecting then s
    else match found
      case Some(batch) => Enter(s, w, Looping(batch))
      case None => Enter(s, w, Idle)
  }

  function AcquireNextStep(s: State, w: Id, now: int, reply: Reply): State {
    match PhaseOf(s, w)
    case Looping(batch) =>
      if batch == [] then Enter(s, w, Idle)
      else
        var target, rest := batch[0], batch[1..];
        var written := Update(s, target.id, target.companyId, Acquire(w, now), None);
        if reply == Answered && Matches(s, target.id, target.companyId, Acquire(w, now)) then
          var held := Held(target.id, target.companyId, written.rows[target.id].attempts, |s.trace|);
          Enter(written, w, Holding(held, Loading, rest))
        else
          Enter(Attempt(s, reply, written), w, Looping(rest))
    case _ => s
  }

  function LoadMessageStep(s: State, w: Id, answered: bool): State {
    match PhaseOf(s, w)
    case Holding(held, Loading, rest) =>
      if answered && held.id in s.rows && s.rows[held.id].draft.companyId == held.companyId
         && IsLockedBy(s.rows[held.id], w)
      then
        var message := s.rows[held.id];
        Enter(s, w, Holding(held, if message.customerId == None then Sending(message) else ReadingCompany(message), rest))
      else
        Enter(s, w, Holding(held, Releasing, rest))
    case _ => s
  }

  const NOT_ELIGIBLE := "CUSTOMER_NOT_ELIGIBLE"
  const NOT_FOUND := "CUSTOMER_NOT_FOUND"

  function ReadCompanyStep(s: State, w: Id, answered: bool): State {
    match PhaseOf(s, w)
    case Holding(held, ReadingCompany(message), rest) =>
      if !answered then Enter(s, w, Holding(held, Releasing, rest))
      else if message.draft.companyId !in s.policies then
        Enter(s, w, Holding(held, Cancelling(message, NOT_ELIGIBLE), rest))
      else
        Enter(s, w, Holding(held, ReadingCustomer(message, s.policies[message.draft.companyId]), rest))
    case _ => s
  }

  predicate CustomerFound(s: State, customerId: Id, companyId: Id) {
    customerId in s.customers && s.customers[customerId].companyId == companyId
  }

  function ReadCustomerStep(s: State, w: Id, answered: bool): State {
    match PhaseOf(s, w)
    case Holding(held, ReadingCustomer(message, policy), rest) =>
      if !answered || message.customerId == None then Enter(s, w, Holding(held, Releasing, rest))
      else if !CustomerFound(s, message.customerId.value, message.draft.companyId) then
        Enter(s, w, Holding(held, Cancelling(message, NOT_FOUND), rest))
      else if !IsEligible(s.customers[message.customerId.value], policy) then
        Enter(s, w, Holding(held, Cancelling(message, NOT_ELIGIBLE), rest))
      else
        Enter(s, w, Holding(held, Sending(message), rest))
    case _ => s
  }

  /** After a write of the worker: on to the next message, or to the release when the write threw. */
  function AfterWrite(held: Held, rest: seq<Target>, reply: Reply): Phase {
    if reply == Answered then Looping(rest) else Holding(held, Releasing, rest)
  }

  function WriteCancelStep(s: State, w: Id, reply: Reply): State {
    match PhaseOf(s, w)
    case Holding(held, Cancelling(message, code), rest) =>
      var written := Update(s, held.id, held.companyId, Cancel(w, code), None);
      Enter(Attempt(s, reply, written), w, AfterWrite(held, rest, reply))
    case _ => s
  }

  /** A message that cannot be routed or whose payload is invalid is refused without a call. */
  predicate Sendable(draft: Draft) {
    draft.channelId.Some?
    && match draft.payload
       case TextPayload => true
       case ImagePayload(readable) => readable
       case TemplatePayload(readable) => readable
       case OtherPayload => false
  }

  function RefusalBeforeCall(draft: Draft): Answer
    requires !Sendable(draft)
  {
    Refused(if draft.channelId == None then "PROVIDER_CONFIGURATION_ERROR"
            else if draft.payload.ImagePayload? then "INVALID_IMAGE_PAYLOAD"
            else if draft.payload.TemplatePayload? then "INVALID_TEMPLATE_PAYLOAD"
            else "UNSUPPORTED_MESSAGE_TYPE", false)
  }

  /**
   * Nothing is sent when the media of the message could not be resolved. Only a call that was acted on is
   * accepted; a refusal may also stand for an answer that was lost after the message went out.
   */
  function CallProviderStep(s: State, w: Id, fate: Fate, answer: Answer): State {
    match PhaseOf(s, w)
    case Holding(held, Sending(message), rest) =>
      if !Sendable(message.draft) then
        Enter(s, w, Holding(held, Settling(message, RefusalBeforeCall(message.draft)), rest))
      else if answer.Accepted? && fate != WentOut then s
      else
        var asked := if fate != NotSent then s.(trace := s.trace + [Called(w, held.id, held.since)]) else s;
        Enter(asked, w, Holding(held, Settling(message, answer), rest))
    case _ => s
  }

  function OutcomeOp(w: Id, message: Row, answer: Answer, now: int): RowOp {
    match answer
    case Accepted(provider, messageId) => MarkSent(w, now, provider, messageId)
    case Refused(code, retryable) =>
      if retryable && message.attempts < message.draft.maxAttempts
      then ReleaseForRetry(w, now, message.attempts, code)
      else MarkFailed(w, now, code)
  }

  function WriteOutcomeStep(s: State, w: Id, now: int, reply: Reply): State {
    match PhaseOf(s, w)
    case Holding(held, Settling(message, answer), rest) =>
      var written := Update(s, held.id, held.companyId, OutcomeOp(w, message, answer, now), message.customerId);
      Enter(Attempt(s, reply, written), w, AfterWrite(held, rest, reply))
    case _ => s
  }

  /** The release swallows its own errors: whatever happened, the worker goes on. */
  function WriteReleaseStep(s: State, w: Id, now: int, reply: Reply): State {
    match PhaseOf(s, w)
    case Holding(held, Releasing, rest) =>
      var written := Update(s, held.id, held.companyId, ReleaseAfterError(w, now), None);
      Enter(Attempt(s, reply, written), w, Looping(rest))
    case _ => s
  }

  // ----- everybody else

  predicate KeyTaken(s: State, companyId: Id, key: string) {
    exists id :: id in s.rows && s.rows[id].draft.companyId == companyId && s.rows[id].draft.key == key
  }

  /** The insert of an upsert, which stores the key trimmed: refused by the unique key, by a reused row id, or by a missing customer. */
  function InsertStep(s: State, id: Id, draft: Draft): State {
    var stored := draft.(key := Trim(draft.key));
    if id in s.rows || KeyTaken(s, stored.companyId, stored.key) then s
    else if stored.customerId.Some? && !CustomerFound(s, stored.customerId.value, stored.companyId) then s
    else s.(rows := s.rows[id := NewRow(stored)])
  }

  function ApplyReceiptStep(s: State, id: Id, companyId: Id, op: RowOp): State
    requires op.Deliver?
  {
    if !CanAdvance(op.expected, op.event) then s
    else if id in s.rows && (op.sentAtSeen.Some? <==> s.rows[id].sentAt.Some?) then Update(s, id, companyId, op, None)
    else s
  }

  function SetConsentStep(s: State, companyId: Id, customerId: Id, granted: bool, now: int): State {
    if !CustomerFound(s, customerId, companyId) then s
    else s.(customers := s.customers[customerId := WithConsent(s.customers[customerId], granted, now)],
            trace := s.trace + [ConsentSet(customerId, granted)])
  }

  /** Customer ids are never used twice. A customer may be created with any consent. */
  function CreateCustomerStep(s: State, c: Id, customer: Customer): State {
    if c in s.customers || c in s.retired then s
    else s.(customers := s.customers[c := customer],
            trace := s.trace + (if customer.consent == OptedOut then [ConsentSet(c, false)] else []))
  }

  function EditCustomerStep(s: State, c: Id, phone: string, active: bool): State {
    if c !in s.customers then s
    else s.(customers := s.customers[c := s.customers[c].(phone := phone, active := active)])
  }

  function Detached(row: Row, c: Id): Row {
    if row.customerId == Some(c) then row.(customerId := None) else row
  }

  /** Deleting a customer clears the reference its messages hold. */
  function DeleteCustomerStep(s: State, c: Id): State {
    if c !in s.customers then s
    else s.(customers := s.customers - {c}, retired := s.retired + {c},
            rows := map id | id in s.rows :: Detached(s.rows[id], c))
  }

  function SetPolicyStep(s: State, companyId: Id, policy: Option<UnknownPolicy>): State {
    match policy
    case Some(p) => s.(policies := s.policies[companyId := p])
    case None => s.(policies := s.policies - {companyId})
  }

  function Step(s: State, a: Action): State {
    match a
    case StartCron(w, now, found) => StartCronStep(s, w, now, found)
    case RecoverNext(w, reply) => RecoverNextStep(s, w, reply)
    case SelectBatch(w, found) => SelectBatchStep(s, w, found)
    case AcquireNext(w, now, reply) => AcquireNextStep(s, w, now, reply)
    case LoadMessage(w, answered) => LoadMessageStep(s, w, answered)
    case ReadCompany(w, answered) => ReadCompanyStep(s, w, answered)
    case ReadCustomer(w, answered) => ReadCustomerStep(s, w, answered)
    case WriteCancel(w, reply) => WriteCancelStep(s, w, reply)
    case CallProvider(w, fate, answer) => CallProviderStep(s, w, fate, answer)
    case WriteOutcome(w, now, reply) => WriteOutcomeStep(s, w, now, reply)
    case WriteRelease(w, now, reply) => WriteReleaseStep(s, w, now, reply)
    case Crash(w) => Enter(s, w, Idle)
    case Insert(id, draft) => InsertStep(s, id, draft)
    case ApplyReceipt(id, companyId, messageId, expected, event, at, sentAtSeen, code) =>
      ApplyReceiptStep(s, id, companyId, Deliver(messageId, expected, event, at, sentAtSeen, code))
    case SetConsent(companyId, c, granted, now) => SetConsentStep(s, companyId, c, granted, now)
    case CreateCustomer(c, customer) => CreateCustomerStep(s, c, customer)
    case EditCustomer(c, phone, active) => EditCustomerStep(s, c, phone, active)
    case DeleteCustomer(c) => DeleteCustomerStep(s, c)
    case SetPolicy(companyId, policy) => SetPolicyStep(s, companyId, policy)
  }

  /** The worker an action belongs to. */
  function ActorOf(a: Action): Option<Id> {
    match a
    case StartCron(w, _, _) => Some(w)
    case RecoverNext(w, _) => Some(w)
    case SelectBatch(w, _) => Some(w)
    case AcquireNext(w, _, _) => Some(w)
    case LoadMessage(w, _) => Some(w)
    case ReadCompany(w, _) => Some(w)
    case ReadCustomer(w, _) => Some(w)
    case WriteCancel(w, _) => Some(w)
    case CallProvider(w, _, _) => Some(w)
    case WriteOutcome(w, _, _) => Some(w)
    case WriteRelease(w, _, _) => Some(w)
    case Crash(w) => Some(w)
    case _ => None
  }

  function Run(s: State, actions: seq<Action>): State
    decreases actions
  {
    if actions == [] then s else Run(Step(s, actions[0]), actions[1..])
  }
}
