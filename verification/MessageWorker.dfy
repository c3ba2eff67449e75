/**
 * The queue worker. Its methods follow the source; every wait for the database or the provider is
 * one step of the queue machine, with any steps of the others in between. So whatever the worker
 * does is a run of the machine, and everything proved of those runs holds of it.
 */
module MessageWorker {
  import opened Basics
  import opened Consent
  import opened OutboundRow
  import opened QueueDatabase
  import opened QueueEligibility
  import opened QueueInvariants
  import opened QueueMachine
  import opened QueueSteps

  /** The locks that worker `w` recovered, by the answers it got, in a script that starts from nothing. */
  ghost function RecoveredBy(script: seq<Action>, w: Id): nat
    decreases |script|
  {
    if script == [] then 0
    else
      var earlier, a := script[..|script| - 1], script[|script| - 1];
      var s := Run(EMPTY, earlier);
      RecoveredBy(earlier, w)
      + One(a == RecoverNext(w, Answered) && PhaseOf(s, w).Recovering? && PhaseOf(s, w).candidates != []
            && Matches(s, PhaseOf(s, w).candidates[0].id, PhaseOf(s, w).candidates[0].companyId,
                       RecoverLock(PhaseOf(s, w).expiredAt, PhaseOf(s, w).now)))
  }

  lemma {:induction false} OthersRecoverForThemselves(script: seq<Action>, longer: seq<Action>, w: Id)
    requires script <= longer
    requires forall k :: |script| <= k < |longer| ==> !longer[k].RecoverNext? || longer[k].worker != w
    ensures RecoveredBy(longer, w) == RecoveredBy(script, w)
    decreases |longer|
  {
    if |longer| > |script| {
      OthersRecoverForThemselves(script, longer[..|longer| - 1], w);
    } else {
      assert longer == script;
    }
  }

  lemma StartsRecovering(s: State, w: Id, now: int, found: Option<seq<Target>>)
    requires PhaseOf(s, w) == Idle
    ensures var phase := PhaseOf(Step(s, StartCron(w, now, found)), w);
      phase == (if found == None then Selecting else Recovering(now - LOCK_TIMEOUT_MS, now, found.value))
  {
  }

  lemma StopsRecovering(s: State, w: Id)
    requires PhaseOf(s, w).Recovering? && PhaseOf(s, w).candidates == []
    ensures PhaseOf(Step(s, RecoverNext(w, Answered)), w) == Selecting
  {
  }

  lemma SelectsBatch(s: State, w: Id, found: Option<seq<Target>>)
    requires PhaseOf(s, w) == Selecting
    ensures PhaseOf(Step(s, SelectBatch(w, found)), w) == (if found == None then Idle else Looping(found.value))
  {
  }

  lemma StopsLooping(s: State, w: Id, now: int)
    requires PhaseOf(s, w) == Looping([])
    ensures PhaseOf(Step(s, AcquireNext(w, now, Answered)), w) == Idle
  {
  }

  lemma TriesTheFirst(s: State, w: Id, now: int, reply: Reply)
    requires PhaseOf(s, w).Looping? && PhaseOf(s, w).batch != []
    ensures var rest, next := PhaseOf(s, w).batch[1..], PhaseOf(Step(s, AcquireNext(w, now, reply)), w);
      next == Looping(rest) || (next.Holding? && next.stage.Loading? && next.rest == rest)
  {
    hide Effect, Guard;
  }

  lemma NothingRecovered(script: seq<Action>, a: Action, w: Id)
    requires a.RecoverNext? ==> PhaseOf(Run(EMPTY, script), w).Recovering? && PhaseOf(Run(EMPTY, script), w).candidates == []
    ensures RecoveredBy(script + [a], w) == RecoveredBy(script, w)
  {
    hide Run, Step, Matches;
    assert (script + [a])[..|script|] == script;
  }

  /** At position `p` of the script the worker, with these targets left, tried to acquire the first of them. */
  predicate Tries(script: seq<Action>, p: nat, w: Id, left: seq<Target>) {
    && p < |script| && script[p].AcquireNext? && script[p].worker == w
    && left != [] && PhaseOf(Run(EMPTY, script[..p]), w) == Looping(left)
  }

  lemma StillTries(earlier: seq<Action>, later: seq<Action>, p: nat, w: Id, left: seq<Target>)
    requires earlier <= later && Tries(earlier, p, w, left)
    ensures Tries(later, p, w, left)
  {
    hide Run;
    assert later[..p] == earlier[..p];
  }

  /** From position `first` on, the batch so far was tried message by message, once each. */
  ghost predicate TriedInOrder(script: seq<Action>, first: nat, tries: seq<nat>, w: Id, batch: seq<Target>) {
    && |tries| <= |batch|
    && (forall k :: 0 <= k < |tries| ==> first <= tries[k] < |script| && Tries(script, tries[k], w, batch[k..]))
    && (forall j, k :: 0 <= j < k < |tries| ==> tries[j] < tries[k])
  }

  lemma StillTried(earlier: seq<Action>, later: seq<Action>, first: nat, tries: seq<nat>, w: Id, batch: seq<Target>)
    requires earlier <= later && TriedInOrder(earlier, first, tries, w, batch)
    ensures TriedInOrder(later, first, tries, w, batch)
  {
    hide Tries;
    forall k | 0 <= k < |tries| ensures Tries(later, tries[k], w, batch[k..]) {
      StillTries(earlier, later, tries[k], w, batch[k..]);
    }
  }

  lemma NothingTried(script: seq<Action>, first: nat, w: Id, batch: seq<Target>)
    ensures TriedInOrder(script, first, [], w, batch)
  {
  }

  lemma TriedOneMore(earlier: seq<Action>, later: seq<Action>, first: nat, tries: seq<nat>, p: nat, w: Id, batch: seq<Target>)
    requires earlier <= later && TriedInOrder(earlier, first, tries, w, batch) && |tries| < |batch|
    requires first <= |earlier| <= p && Tries(later, p, w, batch[|tries|..])
    ensures TriedInOrder(later, first, tries + [p], w, batch)
  {
    StillTried(earlier, later, first, tries, w, batch);
  }

  /** The row carries the outcome that the answer stands for. */
  predicate Reflects(answer: Answer, at: int, before: Row, after: Row) {
    match answer
    case Accepted(provider, messageId) =>
      after.status == Sent && after.sentAt == Some(at) && after.provider == Some(provider) && after.providerMessageId == Some(messageId)
    case Refused(code, retryable) =>
      && after.lastErrorCode == Some(code) && after.attempts == before.attempts
      && if retryable && before.attempts < before.draft.maxAttempts
         then after.status == Pending && after.availableAt == at + BackoffMs(before.attempts)
         else after.status == Failed && after.failedAt == Some(at)
  }

  lemma EffectReflects(w: Id, row: Row, message: Row, answer: Answer, now: int)
    requires message.draft == row.draft && message.attempts == row.attempts
    ensures Reflects(answer, now, row, Effect(row, OutcomeOp(w, message, answer, now)))
  {
  }

  lemma OutcomesNeedTheLock(w: Id, row: Row, message: Row, answer: Answer, now: int)
    requires IsLockedBy(row, w)
    ensures Guard(row, OutcomeOp(w, message, answer, now))
  {
  }

  lemma OutcomeIsWritten(s: State, w: Id, now: int)
    requires WorkerOk(s, w) && PhaseOf(s, w).Holding? && PhaseOf(s, w).stage.Settling?
    requires IsLockedBy(s.rows[PhaseOf(s, w).held.id], w)
    ensures var t, id := Step(s, WriteOutcome(w, now, Answered)), PhaseOf(s, w).held.id;
      id in t.rows && Reflects(PhaseOf(s, w).stage.answer, now, s.rows[id], t.rows[id])
  {
    hide ClearedSince, Untouched, LogsFor, OutcomeOp, Effect, Guard, Reflects;
    var Holding(held, Settling(message, answer), _) := PhaseOf(s, w);
    OutcomesNeedTheLock(w, s.rows[held.id], message, answer, now);
    EffectReflects(w, s.rows[held.id], message, answer, now);
  }

  lemma CancellationIsWritten(s: State, w: Id)
    requires WorkerOk(s, w) && PhaseOf(s, w).Holding? && PhaseOf(s, w).stage.Cancelling?
    requires IsLockedBy(s.rows[PhaseOf(s, w).held.id], w)
    ensures var t, id := Step(s, WriteCancel(w, Answered)), PhaseOf(s, w).held.id;
      id in t.rows && t.rows[id].status == Cancelled && t.rows[id].lastErrorCode == Some(PhaseOf(s, w).stage.code)
  {
    hide Untouched, LogsFor, StageOk;
  }

  lemma HeldRowExists(script: seq<Action>, w: Id)
    requires PhaseOf(Run(EMPTY, script), w).Holding?
    ensures WorkerOk(Run(EMPTY, script), w) && PhaseOf(Run(EMPTY, script), w).held.id in Run(EMPTY, script).rows
  {
    hide Run, Inv;
    EveryRunIsOk(script);
    WorkerIsOk(Run(EMPTY, script), w);
  }

  /** What cannot be sent is refused for good, without a call. */
  predicate RefusedUnsent(draft: Draft, answer: Answer) {
    && (draft.channelId == None ==> answer == Refused("PROVIDER_CONFIGURATION_ERROR", false))
    && (draft.channelId.Some? && draft.payload == ImagePayload(false) ==> answer == Refused("INVALID_IMAGE_PAYLOAD", false))
    && (draft.channelId.Some? && draft.payload == TemplatePayload(false) ==> answer == Refused("INVALID_TEMPLATE_PAYLOAD", false))
    && (draft.channelId.Some? && draft.payload == OtherPayload ==> answer == Refused("UNSUPPORTED_MESSAGE_TYPE", false))
  }

  lemma RefusalsBeforeCalls(draft: Draft, answer: Answer)
    ensures RefusedUnsent(draft, if Sendable(draft) then answer else RefusalBeforeCall(draft))
    ensures !Sendable(draft) ==> RefusalBeforeCall(draft).Refused?
  {
  }

  lemma CompanyIsRead(s: State, w: Id, answered: bool)
    requires PhaseOf(s, w).Holding? && PhaseOf(s, w).stage.ReadingCompany?
    ensures var before, after := PhaseOf(s, w), PhaseOf(Step(s, ReadCompany(w, answered)), w);
      && after.Holding? && after.held == before.held && after.rest == before.rest
      && (after.stage.ReadingCustomer? || after.stage.Releasing? || (after.stage.Cancelling? && after.stage.code == NOT_ELIGIBLE))
  {
  }

  lemma CustomerIsRead(s: State, w: Id, answered: bool)
    requires PhaseOf(s, w).Holding? && PhaseOf(s, w).stage.ReadingCustomer?
    ensures var before, after := PhaseOf(s, w), PhaseOf(Step(s, ReadCustomer(w, answered)), w);
      && after.Holding? && after.held == before.held && after.rest == before.rest
      && (after.stage.Sending? || after.stage.Releasing?
          || (after.stage.Cancelling? && after.stage.code in {NOT_FOUND, NOT_ELIGIBLE}))
  {
    hide CustomerFound, IsEligible;
  }

  /** After a write the worker goes on, or has something to release; the row is still there. */
  lemma WriteSettles(s: State, a: Action, id: Id)
    requires a.WriteCancel? || a.WriteOutcome?
    requires PhaseOf(s, a.worker).Holding? && id in s.rows
    requires if a.WriteCancel? then PhaseOf(s, a.worker).stage.Cancelling? else PhaseOf(s, a.worker).stage.Settling?
    ensures PhaseOf(Step(s, a), a.worker) == AfterWrite(PhaseOf(s, a.worker).held, PhaseOf(s, a.worker).rest, a.reply)
    ensures id in Step(s, a).rows
  {
    hide Guard, Effect;
  }

  lemma AnswerIsKept(s: State, w: Id, fate: Fate, answer: Answer)
    requires PhaseOf(s, w).Holding? && PhaseOf(s, w).stage.Sending? && (answer.Accepted? ==> fate == WentOut)
    ensures var t, message := Step(s, CallProvider(w, fate, answer)), PhaseOf(s, w).stage.message;
      PhaseOf(t, w) == PhaseOf(s, w).(stage := Settling(message, if Sendable(message.draft) then answer
                                                                 else RefusalBeforeCall(message.draft)))
  {
    hide Sendable, RefusalBeforeCall;
  }

  class Worker {
    const workerId: Id
    const database: Database
    var isRunning: bool

    constructor (workerId: Id, database: Database)
      requires database.Valid() && PhaseOf(database.state, workerId) == Idle
      ensures Ready() && !isRunning && this.workerId == workerId && this.database == database
    {
      this.workerId := workerId;
      this.database := database;
      isRunning := false;
    }

    function Phase(): Phase
      reads this, database
    {
      PhaseOf(database.state, workerId)
    }

    /** `isRunning` is the worker's own memory of being busy. */
    ghost predicate Ready()
      reads this, database
    {
      database.Valid() && (isRunning <==> Phase() != Idle)
    }

    /**
     * One execution of the cron job: at most one at a time, and it always comes to an end. Each message of the
     * selected batch is tried once, in order: `tries` are the positions of the acquisitions in the script.
     */
    method HandleCron(enabled: bool) returns (ghost batch: Option<seq<Target>>, ghost tries: seq<nat>)
      requires Ready()
      modifies this, database
      ensures Ready()
      ensures old(database.script) <= database.script
      ensures !enabled || old(isRunning) ==> database.script == old(database.script) && isRunning == old(isRunning)
      ensures enabled && !old(isRunning) ==>
        && !isRunning
        && SelectBatch(workerId, batch) in database.script[|old(database.script)|..]
        && |tries| == (if batch == None then 0 else |batch.value|)
        && (batch.Some? ==> TriedInOrder(database.script, |old(database.script)|, tries, workerId, batch.value))
    {
      hide Step, Run, TriedInOrder, PhaseOf, OnlyInserts;
      batch, tries := None, [];
      if !enabled { return; }
      if isRunning { return; }
      isRunning := true;
      var _ := RecoverExpiredLocks();
      var found := FindMessages();
      batch := found;
      ghost var selected := database.script;
      if found != None { tries := ProcessBatch(found.value, |old(database.script)|); }
      isRunning := false;
      assert database.script[|selected| - 1] == SelectBatch(workerId, batch);
    }

    /** The loop over the messages, which no message can break off. */
    method ProcessBatch(batch: seq<Target>, ghost first: nat) returns (ghost tries: seq<nat>)
      requires database.Valid() && Phase() == Looping(batch) && first <= |database.script| && isRunning
      modifies database
      ensures database.Valid() && Phase() == Idle
      ensures old(database.script) < database.script
      ensures |tries| == |batch| && TriedInOrder(database.script, first, tries, workerId, batch)
    {
      hide Step, Run, TriedInOrder, PhaseOf, OnlyInserts;
      tries := [];
      NothingTried(database.script, first, workerId, batch);
      while Phase().batch != []
        invariant database.Valid() && old(database.script) <= database.script
        invariant |tries| <= |batch| && Phase() == Looping(batch[|tries|..])
        invariant TriedInOrder(database.script, first, tries, workerId, batch)
        decreases |Phase().batch|
      {
        ghost var before := database.script;
        ghost var p := AcquireAndProcess();
        TriedOneMore(before, database.script, first, tries, p, workerId, batch);
        tries := tries + [p];
      }
      StopsLooping(database.state, workerId, 0);
      StillTried(database.script, database.script + [AcquireNext(workerId, 0, Answered)], first, tries, workerId, batch);
      database.Do(AcquireNext(workerId, 0, Answered));
    }

    /** The pending messages that are due, by priority; nothing when the query fails. */
    method FindMessages() returns (found: Option<seq<Target>>)
      requires database.Valid() && Phase() == Selecting && isRunning
      modifies database
      ensures database.Valid() && old(database.script) < database.script
      ensures Phase() == (if found == None then Idle else Looping(found.value))
      ensures database.script[|database.script| - 1] == SelectBatch(workerId, found)
    {
      hide Step, Run;
      database.Others(Some(workerId));
      found := *;
      SelectsBatch(database.state, workerId, found);
      database.Do(SelectBatch(workerId, found));
    }

    /** Gives back the locks that have been held too long, one update at a time, and counts them. */
    method RecoverExpiredLocks() returns (recoveredCount: nat)
      requires database.Valid() && Phase() == Idle && isRunning
      modifies database
      ensures database.Valid() && Phase() == Selecting
      ensures old(database.script) < database.script
      ensures RecoveredBy(database.script, workerId) == RecoveredBy(old(database.script), workerId) + recoveredCount
    {
      hide Step, Run, RecoveredBy;
      recoveredCount := 0;
      var now: int := *;
      var found: Option<seq<Target>> := *;
      NothingRecovered(database.script, StartCron(workerId, now, found), workerId);
      StartsRecovering(database.state, workerId, now, found);
      database.Do(StartCron(workerId, now, found));
      if found == None { return; }
      while Phase().candidates != []
        invariant database.Valid() && Phase().Recovering?
        invariant old(database.script) < database.script
        invariant RecoveredBy(database.script, workerId) == RecoveredBy(old(database.script), workerId) + recoveredCount
        decreases |Phase().candidates|
      {
        var count := RecoverNextLock();
        recoveredCount := recoveredCount + count;
      }
      NothingRecovered(database.script, RecoverNext(workerId, Answered), workerId);
      StopsRecovering(database.state, workerId);
      database.Do(RecoverNext(workerId, Answered));
    }

    method RecoverNextLock() returns (count: nat)
      requires database.Valid() && Phase().Recovering? && Phase().candidates != []
      modifies database
      ensures database.Valid() && old(database.script) < database.script
      ensures Phase() == old(Phase()).(candidates := old(Phase()).candidates[1..])
      ensures RecoveredBy(database.script, workerId) == RecoveredBy(old(database.script), workerId) + count
    {
      database.Others(Some(workerId));
      OthersRecoverForThemselves(old(database.script), database.script, workerId);
      var reply: Reply := *;
      var target, op := Phase().candidates[0], RecoverLock(Phase().expiredAt, Phase().now);
      count := if reply == Answered && Matches(database.state, target.id, target.companyId, op) then 1 else 0;
      ghost var script := database.script;
      database.Do(RecoverNext(workerId, reply));
      assert database.script[..|script|] == script;
    }

    /** One message of the batch: acquire it, check the customer, send it and settle the outcome. */
    method AcquireAndProcess() returns (ghost p: nat)
      requires database.Valid() && Phase().Looping? && Phase().batch != []
      modifies database
      ensures database.Valid() && Phase() == Looping(old(Phase()).batch[1..])
      ensures old(database.script) < database.script && |old(database.script)| <= p
      ensures Tries(database.script, p, workerId, old(Phase()).batch)
    {
      hide Step, Run, Tries;
      ghost var left := Phase().batch;
      p := Acquire();
      ghost var acquired := database.script;
      if Phase().Holding? {  // acquired, and the answer arrived
        LoadMessage();
        if !Phase().stage.Releasing? {
          var isEligible; ghost var before;
          isEligible, before := RevalidateCustomerEligibility();
          if isEligible { ghost var b, answer, at := ProcessMessage(); }
        }
        if Phase().Holding? { ReleaseAfterProcessingError(); }  // something threw
      }
      StillTries(acquired, database.script, p, workerId, left);
    }

    method Acquire() returns (ghost p: nat)
      requires database.Valid() && Phase().Looping? && Phase().batch != []
      modifies database
      ensures database.Valid() && old(database.script) < database.script
      ensures var rest := old(Phase()).batch[1..];
        Phase() == Looping(rest) || (Phase().Holding? && Phase().stage.Loading? && Phase().rest == rest)
      ensures |old(database.script)| <= p && Tries(database.script, p, workerId, old(Phase()).batch)
    {
      hide Run;
      var now: int, reply: Reply := *, *;
      database.Others(Some(workerId));
      p := |database.script|;
      ghost var before := database.script;
      TriesTheFirst(database.state, workerId, now, reply);
      database.Do(AcquireNext(workerId, now, reply));
      assert database.script[..p] == before;
    }

    method LoadMessage()
      requires database.Valid() && Phase().Holding? && Phase().stage.Loading?
      modifies database
      ensures database.Valid() && old(database.script) < database.script
      ensures Phase().Holding? && Phase().rest == old(Phase()).rest
      ensures Phase().stage.Sending? || Phase().stage.ReadingCompany? || Phase().stage.Releasing?
    {
      hide Run, IsLockedBy;
      var loaded: bool := *;
      database.Others(Some(workerId));
      database.Do(QueueMachine.LoadMessage(workerId, loaded));
    }

    /**
     * False when the message was cancelled, or when a call threw. In the first case the cancellation, made on
     * what `before` led to, is the last step: if the worker still had the lock, the row is cancelled, and why.
     */
    method RevalidateCustomerEligibility() returns (isEligible: bool, ghost before: seq<Action>)
      requires database.Valid() && Phase().Holding? && (Phase().stage.Sending? || Phase().stage.ReadingCompany?)
      modifies database
      ensures database.Valid() && old(database.script) <= database.script
      ensures isEligible ==> Phase().Holding? && Phase().stage.Sending? && Phase().rest == old(Phase()).rest
      ensures isEligible ==> Phase().held == old(Phase()).held && MayContact()
      ensures !isEligible ==> Settled(old(Phase()).rest)
      ensures !isEligible && Phase().Looping? ==>
        && database.script == before + [WriteCancel(workerId, Answered)] && old(database.script) <= before
        && CancelledIfLocked(before, old(Phase()).held)
    {
      hide Step, Run, WorkerOk, WasEligible;
      before := database.script;
      WorkersHaveSeen(database.script, workerId);
      if Phase().stage.Sending? { return true, before; }  // no customer to check

      ReadCompany();
      if Phase().stage.ReadingCustomer? { ReadCustomer(); }
      WorkersHaveSeen(database.script, workerId);
      if Phase().stage.Sending? { return true, before; }
      if Phase().stage.Cancelling? { before := CancelMessage(); }
      return false, before;
    }

    /** If the message is for a customer, that customer was eligible at moments after the acquisition. */
    ghost predicate MayContact()
      requires Phase().Holding? && Phase().stage.Sending?
      reads this, database
    {
      var message := Phase().stage.message;
      message.customerId.Some? ==>
        WasEligible(database.script, Phase().held.since, message.draft.companyId, message.customerId.value)
    }

    /** The row is cancelled with the code of a reason that held at a moment after the acquisition. */
    ghost predicate CancelledIfLocked(before: seq<Action>, held: Held)
      reads this, database
    {
      var s := Run(EMPTY, before);
      held.id in s.rows && held.id in database.state.rows
      && (IsLockedBy(s.rows[held.id], workerId) ==>
            var row := database.state.rows[held.id];
            && row.status == Cancelled && row.draft.customerId.Some? && row.lastErrorCode.Some?
            && MustCancel(before, held.since, row.draft.companyId, row.draft.customerId.value, row.lastErrorCode.value))
    }

    /** The current message is done with, or waits only for its release. */
    predicate Settled(rest: seq<Target>)
      reads this, database
    {
      Phase() == Looping(rest) || (Phase().Holding? && Phase().stage.Releasing? && Phase().rest == rest)
    }

    method ReadCompany()
      requires database.Valid() && Phase().Holding? && Phase().stage.ReadingCompany?
      modifies database
      ensures database.Valid() && old(database.script) < database.script
      ensures Phase().Holding? && Phase().rest == old(Phase()).rest && Phase().held == old(Phase()).held
      ensures Phase().stage.ReadingCustomer? || CancellingFor({NOT_ELIGIBLE}) || Phase().stage.Releasing?
    {
      hide Run;
      var answered: bool := *;
      database.Others(Some(workerId));
      CompanyIsRead(database.state, workerId, answered);
      database.Do(QueueMachine.ReadCompany(workerId, answered));
    }

    method ReadCustomer()
      requires database.Valid() && Phase().Holding? && Phase().stage.ReadingCustomer?
      modifies database
      ensures database.Valid() && old(database.script) < database.script
      ensures Phase().Holding? && Phase().rest == old(Phase()).rest && Phase().held == old(Phase()).held
      ensures Phase().stage.Sending? || CancellingFor({NOT_FOUND, NOT_ELIGIBLE}) || Phase().stage.Releasing?
    {
      hide Run;
      var answered: bool := *;
      database.Others(Some(workerId));
      CustomerIsRead(database.state, workerId, answered);
      database.Do(QueueMachine.ReadCustomer(workerId, answered));
    }

    predicate CancellingFor(codes: set<string>)
      reads this, database
    {
      Phase().Holding? && Phase().stage.Cancelling? && Phase().stage.code in codes
    }

    method CancelMessage() returns (ghost before: seq<Action>)
      requires database.Valid() && CancellingFor({NOT_FOUND, NOT_ELIGIBLE})
      modifies database
      ensures database.Valid() && old(database.script) < database.script
      ensures Settled(old(Phase()).rest)
      ensures Phase().Looping? ==>
        && database.script == before + [WriteCancel(workerId, Answered)] && old(database.script) <= before
        && CancelledIfLocked(before, old(Phase()).held)
    {
      hide Step, Run, WorkerOk, MustCancel;
      var reply: Reply := *;
      database.Others(Some(workerId));
      before := database.script;
      HeldRowExists(before, workerId);
      ghost var id := Phase().held.id;
      WriteSettles(database.state, WriteCancel(workerId, reply), id);
      if reply == Answered && IsLockedBy(database.state.rows[id], workerId) {
        CancellationIsWritten(database.state, workerId);
        CancellationsAreJustified(before, WriteCancel(workerId, reply), id);
      }
      database.Do(WriteCancel(workerId, reply));
    }

    /**
     * Calls the provider, unless the message cannot be sent, and writes down the outcome. Once that was
     * answered it is the last step, on what `before` led to: if the worker still had the lock, the row
     * reflects the answer; and only a call that was made can have been accepted.
     */
    method ProcessMessage() returns (ghost before: seq<Action>, ghost answer: Answer, ghost at: int)
      requires database.Valid() && Phase().Holding? && Phase().stage.Sending?
      modifies database
      ensures database.Valid() && old(database.script) < database.script
      ensures Settled(old(Phase()).rest)
      ensures Phase().Looping? ==>
        && database.script == before + [WriteOutcome(workerId, at, Answered)]
        && old(database.script) < before && ReflectedIfLocked(before, answer, at, old(Phase()).held.id)
      ensures RefusedUnsent(old(Phase()).stage.message.draft, answer)
      ensures answer.Accepted? ==> CallProvider(workerId, WentOut, answer) in database.script[|old(database.script)|..]
    {
      hide Step, Run, Sendable, RefusalBeforeCall, ReflectedIfLocked, RefusedUnsent;
      answer := SendMessage();
      ghost var sent := database.script;
      before, at := MarkOutcome();
      assert answer.Accepted? ==> database.script[|sent| - 1] == CallProvider(workerId, WentOut, answer);
    }

    predicate ReflectedIfLocked(before: seq<Action>, answer: Answer, at: int, id: Id)
      reads this, database
    {
      var s := Run(EMPTY, before);
      id in s.rows && id in database.state.rows
      && (IsLockedBy(s.rows[id], workerId) ==> Reflects(answer, at, s.rows[id], database.state.rows[id]))
    }

    method SendMessage() returns (ghost answer: Answer)
      requires database.Valid() && Phase().Holding? && Phase().stage.Sending?
      modifies database
      ensures database.Valid() && old(database.script) < database.script
      ensures Phase() == old(Phase()).(stage := Settling(old(Phase()).stage.message, answer))
      ensures RefusedUnsent(old(Phase()).stage.message.draft, answer)
      ensures answer.Accepted? ==> database.script[|database.script| - 1] == CallProvider(workerId, WentOut, answer)
    {
      hide Step, Run, Sendable, RefusalBeforeCall, RefusedUnsent;
      var fate: Fate, reply: Answer := *, *;
      if reply.Accepted? { fate := WentOut; }  // only a call that was acted on is accepted
      database.Others(Some(workerId));
      AnswerIsKept(database.state, workerId, fate, reply);
      database.Do(CallProvider(workerId, fate, reply));
      answer := Phase().stage.answer;
      RefusalsBeforeCalls(old(Phase()).stage.message.draft, reply);
    }

    /** Sent, released for a retry, or failed. */
    method MarkOutcome() returns (ghost before: seq<Action>, ghost at: int)
      requires database.Valid() && Phase().Holding? && Phase().stage.Settling?
      modifies database
      ensures database.Valid() && old(database.script) < database.script
      ensures Settled(old(Phase()).rest)
      ensures Phase().Looping? ==>
        && database.script == before + [WriteOutcome(workerId, at, Answered)] && old(database.script) <= before
        && ReflectedIfLocked(before, old(Phase()).stage.answer, at, old(Phase()).held.id)
    {
      hide Step, Run, WorkerOk, Reflects;
      var now: int, reply: Reply := *, *;
      database.Others(Some(workerId));
      before, at := database.script, now;
      HeldRowExists(before, workerId);
      ghost var id := Phase().held.id;
      WriteSettles(database.state, WriteOutcome(workerId, now, reply), id);
      if reply == Answered && IsLockedBy(database.state.rows[id], workerId) { OutcomeIsWritten(database.state, workerId, now); }
      database.Do(WriteOutcome(workerId, now, reply));
    }

    method ReleaseAfterProcessingError()
      requires database.Valid() && Phase().Holding? && Phase().stage.Releasing?
      modifies database
      ensures database.Valid() && old(database.script) < database.script
      ensures Phase() == Looping(old(Phase()).rest)
    {
      var now: int, reply: Reply := *, *;
      database.Others(Some(workerId));
      database.Do(WriteRelease(workerId, now, reply));
    }
  }
}
