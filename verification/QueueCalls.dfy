/** Provider calls and acquisitions: at most one call each, and none sent without. */
module QueueCalls {
  import opened Basics
  import opened OutboundRow
  import opened QueueMachine
  import opened QueueMoves
  import opened QueueInvariants
  import opened QueueSteps
  import opened QueueGuarantees
  import opened QueueOptOut

  /** The acquisition has not called the provider yet. */
  predicate BeforeTheCall(stage: Stage) { !stage.Settling? && !stage.Releasing? }

  ghost predicate NotYetCalled(trace: seq<Event>, since: nat) {
    forall k :: 0 <= k < |trace| && trace[k].Called? ==> trace[k].since != since
  }

  ghost predicate CalledBy(trace: seq<Event>, w: Id, held: Held) {
    exists k :: 0 <= k < |trace| && trace[k] == Called(w, held.id, held.since)
  }

  ghost predicate CallOk(s: State, w: Id) {
    match PhaseOf(s, w)
    case Holding(held, stage, _) =>
      && (BeforeTheCall(stage) ==> NotYetCalled(s.trace, held.since))
      && (stage.Settling? && stage.answer.Accepted? ==> CalledBy(s.trace, w, held))
    case _ => true
  }

  ghost predicate CallsDiffer(trace: seq<Event>) {
    forall j, k :: 0 <= j < k < |trace| && trace[j].Called? && trace[k].Called? ==> trace[j].since != trace[k].since
  }

  ghost predicate CallsOk(s: State) { CallsDiffer(s.trace) && CallsArePast(s) && forall w :: CallOk(s, w) }

  /** A worker gets to a stage before the call from such a stage, or by acquiring; an accepted answer comes from a call. */
  lemma CallsHappenInSending(s: State, a: Action, w: Id)
    requires ActorOf(a) == Some(w)
    ensures var t := Step(s, a);
      match PhaseOf(t, w)
      case Holding(held, stage, _) =>
        var before := PhaseOf(s, w);
        && (BeforeTheCall(stage) ==>
              || (stage.Loading? && held.since == |s.trace|)
              || (before.Holding? && before.held == held && BeforeTheCall(before.stage)))
        && (stage.Settling? && stage.answer.Accepted? ==>
              || (before == PhaseOf(t, w))
              || (before.Holding? && before.held == held && t.trace == s.trace + [Called(w, held.id, held.since)]))
        && (a.CallProvider? ==> t.trace == s.trace || stage.Settling?)
      case _ => true
  {
    hide Step, RequestOf, Requested, LoadedBy, CustomerFound;
    WorkersMove(s, a);
    if a.CallProvider? { CallersSettle(s, w, a.fate, a.answer); }
  }

  lemma CallersSettle(s: State, w: Id, fate: Fate, answer: Answer)
    ensures var t := Step(s, CallProvider(w, fate, answer));
      t.trace == s.trace || (PhaseOf(t, w).Holding? && PhaseOf(t, w).stage.Settling?)
  {
    hide Sendable;
  }

  lemma CallsStay(trace: seq<Event>, longer: seq<Event>, w: Id, held: Held)
    requires trace <= longer && CalledBy(trace, w, held)
    ensures CalledBy(longer, w, held)
  {
    var k :| 0 <= k < |trace| && trace[k] == Called(w, held.id, held.since);
    assert longer[k] == trace[k];
  }

  lemma StillNotCalled(trace: seq<Event>, longer: seq<Event>, since: nat)
    requires trace <= longer && |longer| <= |trace| + 1 && NotYetCalled(trace, since)
    requires |longer| == |trace| + 1 && longer[|trace|].Called? ==> longer[|trace|].since != since
    ensures NotYetCalled(longer, since)
  {
    forall k | 0 <= k < |longer| && longer[k].Called? ensures longer[k].since != since {
      if k < |trace| { assert longer[k] == trace[k]; }
    }
  }

  lemma AcquisitionsAreNew(s: State)
    requires CallsArePast(s)
    ensures NotYetCalled(s.trace, |s.trace|)
  {
  }

  lemma OwnStepKeepsCallOk(s: State, a: Action, w: Id)
    requires Inv(s) && CallsOk(s) && ActorOf(a) == Some(w)
    ensures CallOk(Step(s, a), w)
  {
    hide Step, Inv;
    var t := Step(s, a);
    CallsHappenInSending(s, a, w);
    StepAddsOneEvent(s, a);
    assert CallOk(s, w);
    match PhaseOf(t, w)
    case Holding(held, stage, _) =>
      if BeforeTheCall(stage) {
        if PhaseOf(s, w).Holding? && PhaseOf(s, w).held == held && BeforeTheCall(PhaseOf(s, w).stage) {
        } else {
          AcquisitionsAreNew(s);
        }
        StillNotCalled(s.trace, t.trace, held.since);
      }
      if stage.Settling? && stage.answer.Accepted? {
        if PhaseOf(s, w) == PhaseOf(t, w) {
          CallsStay(s.trace, t.trace, w, held);
        } else {
          assert t.trace[|s.trace|] == Called(w, held.id, held.since);
        }
      }
    case _ =>
  }

  /** Two workers never hold by the same acquisition. */
  lemma AcquisitionsDiffer(s: State, v: Id, w: Id)
    requires Inv(s) && v != w && PhaseOf(s, v).Holding? && PhaseOf(s, w).Holding?
    ensures PhaseOf(s, v).held.since != PhaseOf(s, w).held.since
  {
    hide Inv;
    WorkerIsOk(s, v);
    WorkerIsOk(s, w);
  }

  lemma OthersKeepCallOk(s: State, a: Action, w: Id)
    requires Inv(s) && CallsOk(s) && ActorOf(a) != Some(w)
    ensures CallOk(Step(s, a), w)
  {
    hide Step, Inv, RequestOf, Guard;
    var t := Step(s, a);
    OthersLeaveMyPhase(s, a, w);
    StepAddsOneEvent(s, a);
    assert CallOk(s, w);
    match PhaseOf(s, w)
    case Holding(held, stage, _) =>
      if BeforeTheCall(stage) {
        if |t.trace| == |s.trace| + 1 && t.trace[|s.trace|].Called? { AcquisitionsDiffer(s, a.worker, w); }
        StillNotCalled(s.trace, t.trace, held.since);
      }
      if stage.Settling? && stage.answer.Accepted? { CallsStay(s.trace, t.trace, w, held); }
    case _ =>
  }

  lemma StepKeepsCallsDiffer(s: State, a: Action)
    requires Inv(s) && CallsOk(s)
    ensures CallsDiffer(Step(s, a).trace)
  {
    hide Step, Inv;
    var t := Step(s, a);
    StepAddsOneEvent(s, a);
    if |t.trace| == |s.trace| + 1 && t.trace[|s.trace|].Called? { assert CallOk(s, a.worker); }
    forall j, k | 0 <= j < k < |t.trace| && t.trace[j].Called? && t.trace[k].Called?
      ensures t.trace[j].since != t.trace[k].since
    {
      assert t.trace[j] == s.trace[j];
      if k < |s.trace| { assert t.trace[k] == s.trace[k]; }
    }
  }

  lemma StepKeepsCallsOk(s: State, a: Action)
    requires Inv(s) && CallsOk(s)
    ensures CallsOk(Step(s, a))
  {
    hide Step, Inv, CallOk, CallsDiffer;
    StepKeepsCallsDiffer(s, a);
    StepCallsForThePast(s, a);
    forall w ensures CallOk(Step(s, a), w) {
      if ActorOf(a) == Some(w) { OwnStepKeepsCallOk(s, a, w); } else { OthersKeepCallOk(s, a, w); }
    }
  }

  lemma {:induction false} RunKeepsCallsOk(s: State, actions: seq<Action>)
    requires Inv(s) && CallsOk(s)
    ensures CallsOk(Run(s, actions))
    decreases actions
  {
    hide Step, Inv, CallsOk;
    if actions != [] {
      StepKeepsCallsOk(s, actions[0]);
      StepKeepsInv(s, actions[0]);
      RunKeepsCallsOk(Step(s, actions[0]), actions[1..]);
    }
  }

  lemma CallsOkInEveryRun(actions: seq<Action>)
    ensures CallsOk(Run(EMPTY, actions))
  {
    EmptyOk();
    RunKeepsCallsOk(EMPTY, actions);
  }

  /** An acquisition calls the provider at most once: two calls on the trace belong to different acquisitions. */
  lemma OneCallPerAcquisition(actions: seq<Action>, j: nat, k: nat)
    requires var trace := Run(EMPTY, actions).trace; j < k < |trace| && trace[j].Called? && trace[k].Called?
    ensures var trace := Run(EMPTY, actions).trace; trace[j].since != trace[k].since
  {
    CallsOkInEveryRun(actions);
  }

  lemma OnlySendingMakesSent(row: Row, op: RowOp)
    requires row.status != Sent && Effect(row, op).status == Sent
    ensures op.MarkSent?
    ensures var after := Effect(row, op);
      after.provider == Some(op.provider) && after.providerMessageId == Some(op.messageId) && after.sentAt == Some(op.at)
  {
  }

  lemma SentOutcomesAreAnswers(s: State, a: Action)
    requires RequestOf(s, a).Write? && RequestOf(s, a).op.MarkSent?
    ensures a.WriteOutcome? && PhaseOf(s, a.worker).Holding? && PhaseOf(s, a.worker).held.id == RequestOf(s, a).id
    ensures PhaseOf(s, a.worker).stage.Settling? && PhaseOf(s, a.worker).stage.answer.Accepted?
    ensures var op, answer := RequestOf(s, a).op, PhaseOf(s, a.worker).stage.answer;
      op.provider == answer.provider && op.messageId == answer.messageId && op.at == a.now
  {
  }

  lemma SentByItsWorker(s: State, a: Action, id: Id)
    requires Inv(s) && id in s.rows && s.rows[id].status != Sent
    requires id in Step(s, a).rows && Step(s, a).rows[id].status == Sent
    ensures a.WriteOutcome? && PhaseOf(s, a.worker).Holding? && PhaseOf(s, a.worker).held.id == id
    ensures PhaseOf(s, a.worker).stage.Settling? && PhaseOf(s, a.worker).stage.answer.Accepted?
    ensures Step(s, a).rows[id].provider == Some(PhaseOf(s, a.worker).stage.answer.provider)
    ensures Step(s, a).rows[id].providerMessageId == Some(PhaseOf(s, a.worker).stage.answer.messageId)
    ensures Step(s, a).rows[id].sentAt == Some(a.now)
  {
    hide Step, RequestOf, Effect, Guard, Inv;
    if a.Insert? || a.DeleteCustomer? {
      ManagementKeepsStatus(s, a, id);
      assert false;
    } else {
      StepOnRow(s, a, id);
      OnlySendingMakesSent(s.rows[id], RequestOf(s, a).op);
      SentOutcomesAreAnswers(s, a);
    }
  }

  /**
   * A message becomes SENT only by the worker that holds it, after a call that this very acquisition made,
   * and with the provider and message id of the answer to that call.
   */
  lemma SentMeansCalled(actions: seq<Action>, a: Action, id: Id)
    requires var s := Run(EMPTY, actions);
      && id in s.rows && s.rows[id].status != Sent
      && id in Step(s, a).rows && Step(s, a).rows[id].status == Sent
    ensures var s, t := Run(EMPTY, actions), Step(Run(EMPTY, actions), a);
      && a.WriteOutcome? && PhaseOf(s, a.worker).Holding?
      && var held := PhaseOf(s, a.worker).held;
      && held.id == id && StillHeld(s, a.worker, held) && CalledBy(s.trace, a.worker, held)
      && t.rows[id].sentAt == Some(a.now)
      && PhaseOf(s, a.worker).stage.Settling? && PhaseOf(s, a.worker).stage.answer.Accepted?
      && var Accepted(provider, messageId) := PhaseOf(s, a.worker).stage.answer;
      && t.rows[id].provider == Some(provider) && t.rows[id].providerMessageId == Some(messageId)
  {
    hide Step, Run, StillHeld, CalledBy, Inv, NotYetCalled, CallsDiffer, CallsArePast;
    var s := Run(EMPTY, actions);
    EveryRunIsOk(actions);
    CallsOkInEveryRun(actions);
    SentByItsWorker(s, a, id);
    WritesAreFenced(actions, a);
    assert CallOk(s, a.worker);
  }

  /** A text, or an image or a template whose payload is readable. */
  predicate CanBeRead(payload: Payload) { payload in {TextPayload, ImagePayload(true), TemplatePayload(true)} }

  lemma OutsidersCallNobody(s: State, a: Action)
    requires ActorOf(a) == None
    ensures forall k :: |s.trace| <= k < |Step(s, a).trace| ==> !Step(s, a).trace[k].Called?
  {
    hide Matches, Effect, LogsFor, KeyTaken, CustomerFound;
  }

  lemma OnlyCallRequestsCall(s: State, request: Request, called: Event)
    requires Requested(s, request).trace == s.trace + [called] && called.Called?
    ensures request == Call(called.worker, called.id, called.since)
  {
    hide Matches, Effect, LogsFor;
    assert Requested(s, request).trace[|s.trace|] == called;
  }

  lemma SendersRequestCalls(s: State, a: Action, w: Id, id: Id, since: nat)
    requires RequestOf(s, a) == Call(w, id, since)
    ensures a.CallProvider? && a.worker == w && PhaseOf(s, w).Holding? && PhaseOf(s, w).stage.Sending?
    ensures PhaseOf(s, w).held.id == id && PhaseOf(s, w).held.since == since
    ensures var draft := PhaseOf(s, w).stage.message.draft; draft.channelId.Some? && CanBeRead(draft.payload) && a.fate != NotSent
  {
  }

  lemma CallersSend(s: State, a: Action, w: Id, id: Id, since: nat)
    requires Step(s, a).trace == s.trace + [Called(w, id, since)]
    ensures a.CallProvider? && a.worker == w && PhaseOf(s, w).Holding? && PhaseOf(s, w).stage.Sending?
    ensures PhaseOf(s, w).held.id == id && PhaseOf(s, w).held.since == since
    ensures var draft := PhaseOf(s, w).stage.message.draft; draft.channelId.Some? && CanBeRead(draft.payload) && a.fate != NotSent
  {
    hide Step, Entered, RequestOf, Update;
    if ActorOf(a) == None { OutsidersCallNobody(s, a); }
    assert Step(s, a).trace[|s.trace|] == Called(w, id, since);
    WorkersMove(s, a);
    OnlyCallRequestsCall(s, RequestOf(s, a), Called(w, id, since));
    SendersRequestCalls(s, a, w, id, since);
  }

  /** The provider is called only for a message that has a channel and a payload that can be read. */
  lemma CallsAreRoutable(actions: seq<Action>, a: Action, w: Id, id: Id, since: nat)
    requires var s := Run(EMPTY, actions); Step(s, a).trace == s.trace + [Called(w, id, since)]
    ensures var s := Run(EMPTY, actions);
      id in s.rows && s.rows[id].draft.channelId.Some? && CanBeRead(s.rows[id].draft.payload)
  {
    hide Run, Step, Inv;
    EveryRunIsOk(actions);
    var s := Run(EMPTY, actions);
    CallersSend(s, a, w, id, since);
    WorkerIsOk(s, w);
  }
}
