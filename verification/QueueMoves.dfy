/**
 * What one step of a worker amounts to: it asks for at most one change outside, and it moves on
 * from a phase that the next one requires. Nearly everything about single steps follows from this.
 */
module QueueMoves {
  import opened Basics
  import opened Consent
  import opened DeliveryOrder
  import opened OutboundRow
  import opened QueueMachine

  /** What a step asks of the database or of the provider, once it gets that far. */
  datatype Request =
    | Nothing
    | Write(id: Id, companyId: Id, op: RowOp, customerId: Option<Id>)
    | Call(worker: Id, id: Id, since: nat)

  function Requested(s: State, request: Request): State {
    match request
    case Nothing => s
    case Write(id, companyId, op, customerId) => Update(s, id, companyId, op, customerId)
    case Call(worker, id, since) => s.(trace := s.trace + [Called(worker, id, since)])
  }

  /** A write that is lost on the way is not made. */
  function Unless(reply: Reply, id: Id, companyId: Id, op: RowOp, customerId: Option<Id>): Request {
    if reply == LostBefore then Nothing else Write(id, companyId, op, customerId)
  }

  function RequestOf(s: State, a: Action): Request {
    match a
    case RecoverNext(w, reply) =>
      (match PhaseOf(s, w)
       case Recovering(expiredAt, now, candidates) =>
         if candidates == [] then Nothing
         else Unless(reply, candidates[0].id, candidates[0].companyId, RecoverLock(expiredAt, now), None)
       case _ => Nothing)
    case AcquireNext(w, now, reply) =>
      (match PhaseOf(s, w)
       case Looping(batch) =>
         if batch == [] then Nothing else Unless(reply, batch[0].id, batch[0].companyId, Acquire(w, now), None)
       case _ => Nothing)
    case WriteCancel(w, reply) =>
      (match PhaseOf(s, w)
       case Holding(held, Cancelling(_, code), _) => Unless(reply, held.id, held.companyId, Cancel(w, code), None)
       case _ => Nothing)
    case CallProvider(w, fate, answer) =>
      (match PhaseOf(s, w)
       case Holding(held, Sending(message), _) =>
         if Sendable(message.draft) && fate != NotSent && (answer.Accepted? ==> fate == WentOut)
         then Call(w, held.id, held.since) else Nothing
       case _ => Nothing)
    case WriteOutcome(w, now, reply) =>
      (match PhaseOf(s, w)
       case Holding(held, Settling(message, answer), _) =>
         Unless(reply, held.id, held.companyId, OutcomeOp(w, message, answer, now), message.customerId)
       case _ => Nothing)
    case WriteRelease(w, now, reply) =>
      (match PhaseOf(s, w)
       case Holding(held, Releasing, _) => Unless(reply, held.id, held.companyId, ReleaseAfterError(w, now), None)
       case _ => Nothing)
    case ApplyReceipt(id, companyId, messageId, expected, event, at, sentAtSeen, code) =>
      if CanAdvance(expected, event) && id in s.rows && (sentAtSeen.Some? <==> s.rows[id].sentAt.Some?)
      then Write(id, companyId, Deliver(messageId, expected, event, at, sentAtSeen, code), None) else Nothing
    case _ => Nothing
  }

  /** The step made the change it asked for, and moved its own worker at most. */
  predicate Moves(s: State, t: State, w: Id, request: Request) {
    (t == s && request == Nothing) || t == Enter(Requested(s, request), w, PhaseOf(t, w))
  }

  /** A worker gets to a stage from the one before it, with what it read in between. */
  predicate Entered(s: State, t: State, w: Id) {
    PhaseOf(t, w) == PhaseOf(s, w) ||
    match PhaseOf(t, w)
    case Recovering(expiredAt, now, _) =>
      expiredAt == now - LOCK_TIMEOUT_MS
      || (PhaseOf(s, w).Recovering? && PhaseOf(s, w).expiredAt == expiredAt && PhaseOf(s, w).now == now)
    case Holding(held, Loading, rest) => PhaseOf(s, w).Looping? && AcquiredBy(s, t, w, held)
    case Holding(held, ReadingCompany(message), rest) =>
      PhaseOf(s, w) == Holding(held, Loading, rest) && LoadedBy(s, w, held, message) && message.customerId.Some?
    case Holding(held, ReadingCustomer(message, policy), rest) =>
      && PhaseOf(s, w) == Holding(held, ReadingCompany(message), rest)
      && message.draft.companyId in s.policies && s.policies[message.draft.companyId] == policy
    case Holding(held, Cancelling(message, code), rest) =>
      || (PhaseOf(s, w) == Holding(held, ReadingCompany(message), rest)
          && code == NOT_ELIGIBLE && message.draft.companyId !in s.policies)
      || (ReadsCustomer(s, w, held, message, rest)
          && if CustomerFound(s, message.customerId.value, message.draft.companyId)
             then code == NOT_ELIGIBLE && !IsEligible(s.customers[message.customerId.value], PhaseOf(s, w).stage.policy)
             else code == NOT_FOUND)
    case Holding(held, Sending(message), rest) =>
      || (PhaseOf(s, w) == Holding(held, Loading, rest) && LoadedBy(s, w, held, message) && message.customerId == None)
      || (ReadsCustomer(s, w, held, message, rest)
          && CustomerFound(s, message.customerId.value, message.draft.companyId)
          && IsEligible(s.customers[message.customerId.value], PhaseOf(s, w).stage.policy))
    case Holding(held, Settling(message, answer), rest) =>
      && PhaseOf(s, w) == Holding(held, Sending(message), rest)
      && (answer.Accepted? ==> t.trace == s.trace + [Called(w, held.id, held.since)])
    case Holding(held, Releasing, rest) =>
      PhaseOf(s, w).Holding? && PhaseOf(s, w).held == held && PhaseOf(s, w).rest == rest
    case _ => true
  }

  /** The row was locked by this step, which is the acquisition that the worker remembers. */
  predicate AcquiredBy(s: State, t: State, w: Id, held: Held) {
    && held.since == |s.trace| && |t.trace| == |s.trace| + 1
    && t.trace[held.since].Wrote? && t.trace[held.since].id == held.id
    && t.trace[held.since].op.Acquire? && t.trace[held.since].op.worker == w
    && held.id in t.rows && t.rows[held.id].draft.companyId == held.companyId && t.rows[held.id].attempts == held.token
  }

  /** The message is the row as the worker, which still held its lock, loaded it. */
  predicate LoadedBy(s: State, w: Id, held: Held, message: Row) {
    held.id in s.rows && message == s.rows[held.id] && message.draft.companyId == held.companyId && IsLockedBy(message, w)
  }

  predicate ReadsCustomer(s: State, w: Id, held: Held, message: Row, rest: seq<Target>) {
    match PhaseOf(s, w)
    case Holding(before, ReadingCustomer(loaded, _), later) =>
      before == held && loaded == message && later == rest && message.customerId.Some?
    case _ => false
  }

  lemma RecoverNextMoves(s: State, w: Id, reply: Reply)
    ensures var t := RecoverNextStep(s, w, reply); Moves(s, t, w, RequestOf(s, RecoverNext(w, reply))) && Entered(s, t, w)
  {
    hide Matches, Effect;
  }

  lemma AcquireNextMoves(s: State, w: Id, now: int, reply: Reply)
    ensures Moves(s, AcquireNextStep(s, w, now, reply), w, RequestOf(s, AcquireNext(w, now, reply)))
  {
    hide Matches, Effect;
  }

  lemma AcquireNextEnters(s: State, w: Id, now: int, reply: Reply)
    ensures Entered(s, AcquireNextStep(s, w, now, reply), w)
  {
    hide Guard, LoadedBy, ReadsCustomer, CustomerFound, IsEligible;
  }

  lemma LoadMessageMoves(s: State, w: Id, answered: bool)
    ensures var t := LoadMessageStep(s, w, answered); Moves(s, t, w, Nothing) && Entered(s, t, w)
  {
    hide Update;
  }

  lemma ReadCompanyMoves(s: State, w: Id, answered: bool)
    ensures var t := ReadCompanyStep(s, w, answered); Moves(s, t, w, Nothing) && Entered(s, t, w)
  {
    hide Update;
  }

  lemma ReadCustomerMoves(s: State, w: Id, answered: bool)
    ensures var t := ReadCustomerStep(s, w, answered); Moves(s, t, w, Nothing) && Entered(s, t, w)
  {
    hide Update, CustomerFound, IsEligible;
  }

  lemma WriteCancelMoves(s: State, w: Id, reply: Reply)
    ensures var t := WriteCancelStep(s, w, reply); Moves(s, t, w, RequestOf(s, WriteCancel(w, reply))) && Entered(s, t, w)
  {
    hide Matches, Effect;
  }

  lemma CallProviderMoves(s: State, w: Id, fate: Fate, answer: Answer)
    ensures Moves(s, CallProviderStep(s, w, fate, answer), w, RequestOf(s, CallProvider(w, fate, answer)))
  {
    hide Update, Sendable;
  }

  lemma CallProviderEnters(s: State, w: Id, fate: Fate, answer: Answer)
    ensures Entered(s, CallProviderStep(s, w, fate, answer), w)
  {
    hide Sendable, LoadedBy, AcquiredBy, ReadsCustomer, CustomerFound, IsEligible;
  }

  lemma WriteOutcomeMoves(s: State, w: Id, now: int, reply: Reply)
    ensures var t := WriteOutcomeStep(s, w, now, reply);
      Moves(s, t, w, RequestOf(s, WriteOutcome(w, now, reply))) && Entered(s, t, w)
  {
    hide Matches, Effect, OutcomeOp;
  }

  lemma WriteReleaseMoves(s: State, w: Id, now: int, reply: Reply)
    ensures var t := WriteReleaseStep(s, w, now, reply);
      Moves(s, t, w, RequestOf(s, WriteRelease(w, now, reply))) && Entered(s, t, w)
  {
    hide Matches, Effect;
  }

  lemma StartsAndSelections(s: State, a: Action)
    requires a.StartCron? || a.SelectBatch? || a.Crash?
    ensures var t := Step(s, a); Moves(s, t, a.worker, Nothing) && Entered(s, t, a.worker)
  {
    hide Update, LoadedBy, AcquiredBy, ReadsCustomer, CustomerFound, IsEligible, IsLockedBy;
    hide RecoverNextStep, AcquireNextStep, LoadMessageStep, ReadCompanyStep, ReadCustomerStep;
    hide WriteCancelStep, CallProviderStep, WriteOutcomeStep, WriteReleaseStep;
  }

  /** Every step of a worker is such a move. */
  lemma WorkersMove(s: State, a: Action)
    requires ActorOf(a).Some?
    ensures ActorOf(a) == Some(a.worker)
    ensures Moves(s, Step(s, a), a.worker, RequestOf(s, a)) && Entered(s, Step(s, a), a.worker)
  {
    hide Moves, Entered;
    hide RecoverNextStep, AcquireNextStep, LoadMessageStep, ReadCompanyStep, ReadCustomerStep;
    hide WriteCancelStep, CallProviderStep, WriteOutcomeStep, WriteReleaseStep;
    match a
    case RecoverNext(w, reply) => RecoverNextMoves(s, w, reply);
    case AcquireNext(w, now, reply) =>
      AcquireNextMoves(s, w, now, reply);
      AcquireNextEnters(s, w, now, reply);
    case LoadMessage(w, answered) => LoadMessageMoves(s, w, answered);
    case ReadCompany(w, answered) => ReadCompanyMoves(s, w, answered);
    case ReadCustomer(w, answered) => ReadCustomerMoves(s, w, answered);
    case WriteCancel(w, reply) => WriteCancelMoves(s, w, reply);
    case CallProvider(w, fate, answer) =>
      CallProviderMoves(s, w, fate, answer);
      CallProviderEnters(s, w, fate, answer);
    case WriteOutcome(w, now, reply) => WriteOutcomeMoves(s, w, now, reply);
    case WriteRelease(w, now, reply) => WriteReleaseMoves(s, w, now, reply);
    case _ => StartsAndSelections(s, a);
  }
}
