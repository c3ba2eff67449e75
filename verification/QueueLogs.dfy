/** Each log tells the outcome of its message truthfully, for good. */
module QueueLogs {
  import opened Basics
  import opened OutboundRow
  import opened QueueMachine
  import opened QueueMoves
  import opened QueueInvariants
  import opened QueueSteps
  import opened QueueGuarantees

  /** Outcome, sending time and customer of a log are those of its message. */
  predicate LogOk(s: State, log: Log) {
    && log.messageId in s.rows
    && var row := s.rows[log.messageId];
    && (match log.outcome
        case LogSent => row.status == Sent && log.sentAt.Some? && log.sentAt == row.sentAt
        case LogFailed => row.status == Failed && log.sentAt == None)
    && (log.customerId.Some? ==> log.customerId == row.draft.customerId)
  }

  predicate LogsOk(s: State) { forall k :: 0 <= k < |s.logs| ==> LogOk(s, s.logs[k]) }

  predicate IsOutcome(op: RowOp) { op.MarkSent? || op.MarkFailed? }

  lemma OutcomesAreWrittenAsSuch(s: State, a: Action)
    ensures RequestOf(s, a).Write? && IsOutcome(RequestOf(s, a).op) ==> a.WriteOutcome?
  {
  }

  lemma OtherRequestsLogNothing(s: State, request: Request)
    requires request.Write? ==> !IsOutcome(request.op)
    ensures Requested(s, request).logs == s.logs
  {
    hide Effect, Guard;
  }

  lemma OutsidersLogNothing(s: State, a: Action)
    requires ActorOf(a) == None
    ensures Step(s, a).logs == s.logs
  {
    hide Guard, Effect, KeyTaken, CustomerFound;
  }

  lemma OnlyOutcomesLog(s: State, a: Action)
    requires !a.WriteOutcome?
    ensures Step(s, a).logs == s.logs
  {
    hide Step, RequestOf, Requested, Entered;
    match ActorOf(a)
    case None => OutsidersLogNothing(s, a);
    case Some(_) =>
      WorkersMove(s, a);
      OutcomesAreWrittenAsSuch(s, a);
      OtherRequestsLogNothing(s, RequestOf(s, a));
  }

  /** The log that an update creates agrees with the row that it leaves. */
  lemma UpdateLogs(s: State, id: Id, companyId: Id, op: RowOp, customerId: Option<Id>)
    requires id in s.rows && (customerId.Some? ==> customerId == s.rows[id].draft.customerId)
    ensures var t := Update(s, id, companyId, op, customerId);
      t.logs == s.logs || (|t.logs| == |s.logs| + 1 && s.logs <= t.logs && LogOk(t, t.logs[|s.logs|]))
  {
  }

  lemma LogOkByRows(s: State, t: State, log: Log)
    requires LogOk(s, log) && t.rows == s.rows
    ensures LogOk(t, log)
  {
  }

  lemma OutcomesLog(s: State, a: Action)
    requires Inv(s) && a.WriteOutcome?
    ensures var t := Step(s, a);
      t.logs == s.logs || (|t.logs| == |s.logs| + 1 && s.logs <= t.logs && LogOk(t, t.logs[|s.logs|]))
  {
    WorkerIsOk(s, a.worker);
    hide Inv, Step, Update, LogOk, Entered, ClearedSince, Untouched, OutcomeOp;
    WorkersMove(s, a);
    if RequestOf(s, a).Write? {
      var Write(id, companyId, op, customerId) := RequestOf(s, a);
      UpdateLogs(s, id, companyId, op, customerId);
      var u := Update(s, id, companyId, op, customerId);
      if u.logs != s.logs { LogOkByRows(u, Step(s, a), u.logs[|s.logs|]); }
    }
  }

  lemma LogStaysOk(s: State, t: State, log: Log)
    requires LogOk(s, log) && log.messageId in t.rows && Succeeds(s.rows[log.messageId], t.rows[log.messageId])
    ensures LogOk(t, log)
  {
  }

  lemma StepKeepsLogsOk(s: State, a: Action)
    requires Inv(s) && LogsOk(s)
    ensures LogsOk(Step(s, a))
  {
    hide Step, Inv, LogOk, Succeeds;
    var t := Step(s, a);
    if a.WriteOutcome? { OutcomesLog(s, a); } else { OnlyOutcomesLog(s, a); }
    forall k | 0 <= k < |t.logs| ensures LogOk(t, t.logs[k]) {
      if k < |s.logs| {
        assert t.logs[k] == s.logs[k];
        assert LogOk(s, s.logs[k]);
        assert s.logs[k].messageId in s.rows by { LogsHaveRows(s, s.logs[k]); }
        StepSucceeds(s, a, s.logs[k].messageId);
        LogStaysOk(s, t, s.logs[k]);
      }
    }
  }

  lemma LogsHaveRows(s: State, log: Log)
    requires LogOk(s, log)
    ensures log.messageId in s.rows
  {
  }

  lemma {:induction false} RunKeepsLogsOk(s: State, actions: seq<Action>)
    requires Inv(s) && LogsOk(s)
    ensures LogsOk(Run(s, actions))
    decreases actions
  {
    hide Step, Inv, LogsOk;
    if actions != [] {
      StepKeepsLogsOk(s, actions[0]);
      StepKeepsInv(s, actions[0]);
      RunKeepsLogsOk(Step(s, actions[0]), actions[1..]);
    }
  }

  /** In every run, every log ever created agrees with its message: outcome, sending time, customer. */
  lemma LogsAgreeWithMessages(actions: seq<Action>, k: nat)
    requires k < |Run(EMPTY, actions).logs|
    ensures LogOk(Run(EMPTY, actions), Run(EMPTY, actions).logs[k])
  {
    EmptyOk();
    RunKeepsLogsOk(EMPTY, actions);
  }
}
