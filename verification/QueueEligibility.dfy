/** Whoever is sent to was eligible, under the policy of its company, at moments after the acquisition that sends. */
module QueueEligibility {
  import opened Basics
  import opened Consent
  import opened OutboundRow
  import opened QueueMachine
  import opened QueueMoves
  import opened QueueInvariants
  import opened QueueRuns
  import opened QueueSteps
  import opened QueueGuarantees

  /** The state after the first `i` actions. */
  function At(actions: seq<Action>, i: nat): State
    requires i <= |actions|
  {
    Run(EMPTY, actions[..i])
  }

  /** At moment `i`, after the acquisition, the company had the policy. */
  predicate PolicyAt(actions: seq<Action>, i: nat, since: nat, companyId: Id, policy: UnknownPolicy) {
    i <= |actions| && since < |At(actions, i).trace|
    && companyId in At(actions, i).policies && At(actions, i).policies[companyId] == policy
  }

  ghost predicate PolicyWasRead(actions: seq<Action>, since: nat, companyId: Id, policy: UnknownPolicy) {
    exists i :: PolicyAt(actions, i, since, companyId, policy)
  }

  /** At moment `j` the customer was an active one of the company and had granted consent, or needed none under the policy. */
  predicate EligibleAt(actions: seq<Action>, j: nat, companyId: Id, c: Id, policy: UnknownPolicy) {
    && j <= |actions| && c in At(actions, j).customers
    && var customer := At(actions, j).customers[c];
    && customer.companyId == companyId && customer.active
    && (customer.consent == Granted || (customer.consent == Unknown && policy == AllowUnknownWithDeclaration))
  }

  ghost predicate WasEligible(actions: seq<Action>, since: nat, companyId: Id, c: Id) {
    exists i, j, policy :: i <= j && PolicyAt(actions, i, since, companyId, policy) && EligibleAt(actions, j, companyId, c, policy)
  }

  /** At moment `j` the customer was not in the company. */
  predicate MissingAt(actions: seq<Action>, j: nat, since: nat, companyId: Id, c: Id) {
    && j <= |actions| && since < |At(actions, j).trace|
    && (c in At(actions, j).customers ==> At(actions, j).customers[c].companyId != companyId)
  }

  predicate NoPolicyAt(actions: seq<Action>, i: nat, since: nat, companyId: Id) {
    i <= |actions| && since < |At(actions, i).trace| && companyId !in At(actions, i).policies
  }

  /** At moment `j` the customer was in the company, but inactive, opted out, or unknown under a policy that blocks. */
  predicate IneligibleAt(actions: seq<Action>, j: nat, companyId: Id, c: Id, policy: UnknownPolicy) {
    && j <= |actions| && c in At(actions, j).customers
    && var customer := At(actions, j).customers[c];
    && customer.companyId == companyId
    && (!customer.active || customer.consent == OptedOut || (customer.consent == Unknown && policy == BlockUnknown))
  }

  /** The reason that the code of a cancellation stands for. */
  ghost predicate MustCancel(actions: seq<Action>, since: nat, companyId: Id, c: Id, code: string) {
    || (code == "CUSTOMER_NOT_FOUND" && exists j :: MissingAt(actions, j, since, companyId, c))
    || (code == "CUSTOMER_NOT_ELIGIBLE" && exists i :: NoPolicyAt(actions, i, since, companyId))
    || (code == "CUSTOMER_NOT_ELIGIBLE"
        && exists i, j, policy ::
             i <= j && PolicyAt(actions, i, since, companyId, policy) && IneligibleAt(actions, j, companyId, c, policy))
  }

  /** What a worker that got so far has seen. */
  ghost predicate HasSeen(actions: seq<Action>, phase: Phase) {
    match phase
    case Holding(held, ReadingCustomer(message, policy), _) =>
      PolicyWasRead(actions, held.since, message.draft.companyId, policy)
    case Holding(held, Sending(message), _) =>
      message.customerId.Some? ==> WasEligible(actions, held.since, message.draft.companyId, message.customerId.value)
    case Holding(held, Cancelling(message, code), _) =>
      message.customerId.Some? ==> MustCancel(actions, held.since, message.draft.companyId, message.customerId.value, code)
    case _ => true
  }

  lemma ReasonsStay(actions: seq<Action>, a: Action, since: nat, companyId: Id, c: Id, code: string)
    requires MustCancel(actions, since, companyId, c, code)
    ensures MustCancel(actions + [a], since, companyId, c, code)
  {
    hide Run;
    forall i | 0 <= i <= |actions| ensures At(actions + [a], i) == At(actions, i) {
      assert (actions + [a])[..i] == actions[..i];
    }
    if code == NOT_FOUND && exists j :: MissingAt(actions, j, since, companyId, c) {
      var j :| MissingAt(actions, j, since, companyId, c);
      assert MissingAt(actions + [a], j, since, companyId, c);
    } else if i :| NoPolicyAt(actions, i, since, companyId) {
      assert NoPolicyAt(actions + [a], i, since, companyId);
    } else {
      var i, j, policy :|
        i <= j && PolicyAt(actions, i, since, companyId, policy) && IneligibleAt(actions, j, companyId, c, policy);
      assert PolicyAt(actions + [a], i, since, companyId, policy) && IneligibleAt(actions + [a], j, companyId, c, policy);
    }
  }

  lemma EarlierMomentsStay(actions: seq<Action>, a: Action, phase: Phase)
    requires HasSeen(actions, phase)
    ensures HasSeen(actions + [a], phase)
  {
    hide Run;
    forall i | 0 <= i <= |actions| ensures At(actions + [a], i) == At(actions, i) {
      assert (actions + [a])[..i] == actions[..i];
    }
    match phase
    case Holding(held, ReadingCustomer(message, policy), _) =>
      var i :| PolicyAt(actions, i, held.since, message.draft.companyId, policy);
      assert PolicyAt(actions + [a], i, held.since, message.draft.companyId, policy);
    case Holding(held, Sending(message), _) =>
      if message.customerId.Some? {
        var companyId, c := message.draft.companyId, message.customerId.value;
        var i, j, policy :|
          i <= j && PolicyAt(actions, i, held.since, companyId, policy) && EligibleAt(actions, j, companyId, c, policy);
        assert PolicyAt(actions + [a], i, held.since, companyId, policy) && EligibleAt(actions + [a], j, companyId, c, policy);
      }
    case Holding(held, Cancelling(message, code), _) =>
      if message.customerId.Some? {
        ReasonsStay(actions, a, held.since, message.draft.companyId, message.customerId.value, code);
      }
    case _ =>
  }

  /** A worker starts to read the customer with the company's policy, and to send when the customer is eligible under it. */
  lemma StagesAreEntered(s: State, a: Action, w: Id)
    requires ActorOf(a) == Some(w)
    ensures match PhaseOf(Step(s, a), w)
      case Holding(held, ReadingCustomer(message, policy), rest) =>
        || PhaseOf(s, w) == PhaseOf(Step(s, a), w)
        || (PhaseOf(s, w) == Holding(held, ReadingCompany(message), rest)
            && message.draft.companyId in s.policies && s.policies[message.draft.companyId] == policy)
      case Holding(held, Sending(message), rest) =>
        || PhaseOf(s, w) == PhaseOf(Step(s, a), w)
        || message.customerId == None
        || (PhaseOf(s, w).Holding? && PhaseOf(s, w).held == held && PhaseOf(s, w).stage.ReadingCustomer?
            && PhaseOf(s, w).stage.message == message
            && CustomerFound(s, message.customerId.value, message.draft.companyId)
            && IsEligible(s.customers[message.customerId.value], PhaseOf(s, w).stage.policy))
      case _ => true
  {
    hide Step, Requested, RequestOf, IsEligible, CustomerFound;
    WorkersMove(s, a);
  }

  /** A cancellation is entered with the code that fits what was read. */
  lemma CancellingIsEntered(s: State, a: Action, w: Id)
    requires ActorOf(a) == Some(w)
    ensures match PhaseOf(Step(s, a), w)
      case Holding(held, Cancelling(message, code), rest) =>
        || PhaseOf(s, w) == PhaseOf(Step(s, a), w)
        || (PhaseOf(s, w) == Holding(held, ReadingCompany(message), rest)
            && code == NOT_ELIGIBLE && message.draft.companyId !in s.policies)
        || (PhaseOf(s, w).Holding? && PhaseOf(s, w).held == held && PhaseOf(s, w).stage.ReadingCustomer?
            && PhaseOf(s, w).stage.message == message && message.customerId.Some?
            && if CustomerFound(s, message.customerId.value, message.draft.companyId)
               then code == NOT_ELIGIBLE && !IsEligible(s.customers[message.customerId.value], PhaseOf(s, w).stage.policy)
               else code == NOT_FOUND)
      case _ => true
  {
    hide Step, Requested, RequestOf, IsEligible, CustomerFound;
    WorkersMove(s, a);
  }

  lemma HoldersAcquired(actions: seq<Action>, w: Id)
    ensures PhaseOf(Run(EMPTY, actions), w).Holding? ==>
      PhaseOf(Run(EMPTY, actions), w).held.since < |Run(EMPTY, actions).trace|
  {
    hide Run, Inv;
    EveryRunIsOk(actions);
    WorkerIsOk(Run(EMPTY, actions), w);
  }

  lemma OwnStepSees(actions: seq<Action>, a: Action, w: Id)
    requires ActorOf(a) == Some(w) && HasSeen(actions, PhaseOf(Run(EMPTY, actions), w))
    ensures HasSeen(actions + [a], PhaseOf(Run(EMPTY, actions + [a]), w))
  {
    hide Run, Step, IsEligible, CustomerFound, MustCancel, EligibleAt;
    var s := Run(EMPTY, actions);
    var n := |actions|;
    RunSnoc(EMPTY, actions, a);
    StagesAreEntered(s, a, w);
    EarlierMomentsStay(actions, a, PhaseOf(s, w));
    HoldersAcquired(actions, w);
    assert (actions + [a])[..n] == actions;
    assert At(actions + [a], n) == s;
    match PhaseOf(Step(s, a), w)
    case Holding(held, ReadingCustomer(message, policy), _) =>
      if PhaseOf(s, w) != PhaseOf(Step(s, a), w) {
        assert PolicyAt(actions + [a], n, held.since, message.draft.companyId, policy);
      }
    case Holding(held, Sending(message), _) =>
      if PhaseOf(s, w) != PhaseOf(Step(s, a), w) && message.customerId.Some? {
        var companyId, c, policy := message.draft.companyId, message.customerId.value, PhaseOf(s, w).stage.policy;
        var i :| PolicyAt(actions, i, held.since, companyId, policy);
        LatestMoment(actions, a, i, companyId, c, policy, held.since);
      }
    case Holding(held, Cancelling(message, code), _) =>
      if PhaseOf(s, w) != PhaseOf(Step(s, a), w) && message.customerId.Some? { OwnCancellationIsDue(actions, a, w); }
    case _ =>
  }

  lemma OwnCancellationIsDue(actions: seq<Action>, a: Action, w: Id)
    requires ActorOf(a) == Some(w) && HasSeen(actions, PhaseOf(Run(EMPTY, actions), w))
    requires PhaseOf(Step(Run(EMPTY, actions), a), w) != PhaseOf(Run(EMPTY, actions), w)
    requires PhaseOf(Step(Run(EMPTY, actions), a), w).Holding? && PhaseOf(Step(Run(EMPTY, actions), a), w).stage.Cancelling?
    requires PhaseOf(Step(Run(EMPTY, actions), a), w).stage.message.customerId.Some?
    ensures var Holding(held, Cancelling(message, code), _) := PhaseOf(Step(Run(EMPTY, actions), a), w);
      MustCancel(actions + [a], held.since, message.draft.companyId, message.customerId.value, code)
  {
    hide Run, Step;
    var s, n := Run(EMPTY, actions), |actions|;
    var Holding(held, Cancelling(message, code), _) := PhaseOf(Step(s, a), w);
    var companyId, c := message.draft.companyId, message.customerId.value;
    CancellingIsEntered(s, a, w);
    HoldersAcquired(actions, w);
    assert (actions + [a])[..n] == actions;
    if PhaseOf(s, w).stage.ReadingCompany? {
      assert NoPolicyAt(actions + [a], n, held.since, companyId);
    } else if CustomerFound(s, c, companyId) {
      var policy := PhaseOf(s, w).stage.policy;
      var i: nat :| PolicyAt(actions, i, held.since, companyId, policy);
      assert (actions + [a])[..i] == actions[..i];
      assert PolicyAt(actions + [a], i, held.since, companyId, policy) && IneligibleAt(actions + [a], n, companyId, c, policy);
    } else {
      assert MissingAt(actions + [a], n, held.since, companyId, c);
    }
  }

  /** The policy was read before, the customer just now. */
  lemma LatestMoment(actions: seq<Action>, a: Action, i: nat, companyId: Id, c: Id, policy: UnknownPolicy, since: nat)
    requires PolicyAt(actions, i, since, companyId, policy)
    requires CustomerFound(Run(EMPTY, actions), c, companyId) && IsEligible(Run(EMPTY, actions).customers[c], policy)
    ensures WasEligible(actions + [a], since, companyId, c)
  {
    hide Run;
    assert (actions + [a])[..|actions|] == actions;
    assert (actions + [a])[..i] == actions[..i];
    assert PolicyAt(actions + [a], i, since, companyId, policy);
    assert EligibleAt(actions + [a], |actions|, companyId, c, policy);
  }

  lemma {:induction false} WorkersHaveSeen(actions: seq<Action>, w: Id)
    ensures HasSeen(actions, PhaseOf(Run(EMPTY, actions), w))
    decreases |actions|
  {
    hide Step, Run;
    if actions == [] {
      NobodyWorksAtFirst(w);
    } else {
      var init, last := actions[..|actions| - 1], actions[|actions| - 1];
      assert actions == init + [last];
      WorkersHaveSeen(init, w);
      if ActorOf(last) == Some(w) {
        OwnStepSees(init, last, w);
      } else {
        RunSnoc(EMPTY, init, last);
        OthersLeaveMyPhase(Run(EMPTY, init), last, w);
        EarlierMomentsStay(init, last, PhaseOf(Run(EMPTY, init), w));
      }
    }
  }

  lemma NobodyWorksAtFirst(w: Id)
    ensures PhaseOf(Run(EMPTY, []), w) == Idle
  {
  }

  /**
   * A provider is called for a customer only if, after the acquisition that calls, the company had a policy and later
   * the customer was active, with consent granted, or unknown under a policy that allows it. A message without a customer, and
   * one whose customer was deleted, are the exceptions.
   */
  lemma CallsAreToEligibleCustomers(actions: seq<Action>, a: Action, w: Id, id: Id, since: nat)
    requires var s := Run(EMPTY, actions); Step(s, a).trace == s.trace + [Called(w, id, since)]
    ensures var s := Run(EMPTY, actions);
      && id in s.rows
      && match s.rows[id].draft.customerId
         case None => true
         case Some(c) => c in s.retired || WasEligible(actions, since, s.rows[id].draft.companyId, c)
  {
    hide Step, Run, Inv, WasEligible;
    EveryRunIsOk(actions);
    var s := Run(EMPTY, actions);
    StepAddsOneEvent(s, a);
    assert Step(s, a).trace[|s.trace|] == Called(w, id, since);
    WorkerIsOk(s, w);
    WorkersHaveSeen(actions, w);
  }

  lemma OnlyCancellingMakesCancelled(row: Row, op: RowOp)
    requires row.status != Cancelled && Effect(row, op).status == Cancelled
    ensures op.Cancel? && Effect(row, op).lastErrorCode == Some(op.code) && Effect(row, op).draft == row.draft
  {
  }

  lemma CancellationsAreOfTheirStage(s: State, a: Action)
    requires RequestOf(s, a).Write? && RequestOf(s, a).op.Cancel?
    ensures a.WriteCancel? && PhaseOf(s, a.worker).Holding? && PhaseOf(s, a.worker).held.id == RequestOf(s, a).id
    ensures PhaseOf(s, a.worker).stage.Cancelling? && PhaseOf(s, a.worker).stage.code == RequestOf(s, a).op.code
  {
  }

  lemma CancelledByItsWorker(s: State, a: Action, id: Id)
    requires Inv(s) && id in s.rows && s.rows[id].status != Cancelled
    requires id in Step(s, a).rows && Step(s, a).rows[id].status == Cancelled
    ensures a.WriteCancel? && PhaseOf(s, a.worker).Holding? && PhaseOf(s, a.worker).held.id == id
    ensures PhaseOf(s, a.worker).stage.Cancelling? && Step(s, a).rows[id].lastErrorCode == Some(PhaseOf(s, a.worker).stage.code)
    ensures Step(s, a).rows[id].draft == s.rows[id].draft
  {
    hide Step, RequestOf, Effect, Guard, Inv;
    if a.Insert? || a.DeleteCustomer? {
      ManagementKeepsStatus(s, a, id);
      assert false;
    } else {
      StepOnRow(s, a, id);
      OnlyCancellingMakesCancelled(s.rows[id], RequestOf(s, a).op);
      CancellationsAreOfTheirStage(s, a);
    }
  }

  /**
   * A message is cancelled only for a reason, and its error code tells which: after the acquisition its
   * customer was not in the company, or not eligible under the policy, or the company had none.
   */
  lemma CancellationsAreJustified(actions: seq<Action>, a: Action, id: Id)
    ensures var s, t := Run(EMPTY, actions), Step(Run(EMPTY, actions), a);
      id in s.rows && s.rows[id].status != Cancelled && id in t.rows && t.rows[id].status == Cancelled ==>
        && a.WriteCancel? && PhaseOf(s, a.worker).Holding? && PhaseOf(s, a.worker).held.id == id
        && t.rows[id].lastErrorCode.Some? && t.rows[id].draft.customerId.Some?
        && MustCancel(actions, PhaseOf(s, a.worker).held.since, t.rows[id].draft.companyId, t.rows[id].draft.customerId.value,
                      t.rows[id].lastErrorCode.value)
  {
    hide Step, Run, Inv, MustCancel;
    var s, t := Run(EMPTY, actions), Step(Run(EMPTY, actions), a);
    if id in s.rows && s.rows[id].status != Cancelled && id in t.rows && t.rows[id].status == Cancelled {
      EveryRunIsOk(actions);
      CancelledByItsWorker(s, a, id);
      WorkerIsOk(s, a.worker);
      WorkersHaveSeen(actions, a.worker);
    }
  }
}
