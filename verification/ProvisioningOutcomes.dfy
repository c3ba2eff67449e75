/** What provisioning leaves in the table of channels, step by step, and why a call is refused. */
module ProvisioningOutcomes {
  import opened Basics
  import opened ProvisioningGuarantees
  import opened ProvisioningInvariants
  import opened ProvisioningMachine

  // ----- rows

  /** The row shows what the service reported; a phone that was known stays known. */
  predicate Reports(before: Channel, after: Channel, snapshot: Snapshot) {
    && after.connection == snapshot.connection
    && after.connectedPhone == (if snapshot.connectedPhone == None then before.connectedPhone else snapshot.connectedPhone)
    && after == before.(connection := after.connection, connectedPhone := after.connectedPhone)
  }

  /** The row of channel `id` before and after the action. */
  predicate RowChanges(s: State, a: Action, id: Id, before: Channel, after: Channel) {
    match a
    case SetActive(channel, isActive) =>
      if channel == id then after.isActive == isActive && after == before.(isActive := after.isActive) else after == before
    case Observe(channel, snapshot) => if channel == id then Reports(before, after, snapshot) else after == before
    case Synchronize(c, reply) =>
      if c in s.calls && s.calls[c].phase.Synchronizing? && s.calls[c].phase.channel == id && reply != LostBefore
      then Reports(before, after, s.calls[c].phase.snapshot) else after == before
    case MarkError(c, reply) =>
      if c in s.calls && s.calls[c].phase == MarkingError(id) && reply != LostBefore
      then after.connection == Error && after == before.(connection := after.connection) else after == before
    case _ => after == before
  }

  lemma OthersChangeRows(s: State, a: Action, id: Id)
    requires !IsCall(a) && id in s.channels
    ensures id in OtherStep(s, a).channels && RowChanges(s, a, id, s.channels[id], OtherStep(s, a).channels[id])
  {
    hide SetLimitStep, RemoveInstanceStep, RowChanges;
    match a
    case SetLimit(companyId, limit) => LimitsChangeNoRow(s, a, id);
    case RemoveInstance(name) => LimitsChangeNoRow(s, a, id);
    case _ => AdministrationChangesRows(s, a, id);
  }

  lemma LimitsChangeNoRow(s: State, a: Action, id: Id)
    requires (a.SetLimit? || a.RemoveInstance?) && id in s.channels
    ensures OtherStep(s, a).channels == s.channels && RowChanges(s, a, id, s.channels[id], s.channels[id])
  {
    hide HighestOf, Larger, RemoveInstanceStep;
    if a.RemoveInstance? { RemovalFrame(s, a.name); }
  }

  lemma AdministrationChangesRows(s: State, a: Action, id: Id)
    requires (a.SetActive? || a.Observe?) && id in s.channels
    ensures id in OtherStep(s, a).channels && RowChanges(s, a, id, s.channels[id], OtherStep(s, a).channels[id])
  {
  }

  lemma SynchronizingChangesRows(s: State, c: Id, reply: Reply, id: Id)
    requires c in s.calls && id in s.channels
    requires s.calls[c].phase.Synchronizing? ==> IsMine(s, s.calls[c], s.calls[c].phase.channel)
    ensures var a := Synchronize(c, reply);
      var t := MakeMove(s, c, SynchronizeMove(s, s.calls[c], reply));
      id in t.channels && RowChanges(s, a, id, s.channels[id], t.channels[id])
  {
  }

  lemma MarkingChangesRows(s: State, c: Id, reply: Reply, id: Id)
    requires c in s.calls && id in s.channels
    requires s.calls[c].phase.MarkingError? ==> IsMine(s, s.calls[c], s.calls[c].phase.channel)
    ensures var a := MarkError(c, reply);
      var t := MakeMove(s, c, MarkErrorMove(s, s.calls[c], reply));
      id in t.channels && RowChanges(s, a, id, s.channels[id], t.channels[id])
  {
  }

  lemma CommitsLeaveRows(s: State, c: Id, a: Action, id: Id)
    requires c in s.calls && a.Commit? && id in s.channels
    ensures var t := MakeMove(s, c, MoveOf(s, s.calls[c], a)); id in t.channels && t.channels[id] == s.channels[id]
  {
    hide MaySerialize, AfterTransaction;
  }

  lemma CreationsLeaveRows(s: State, c: Id, a: Action, id: Id)
    requires c in s.calls && a.CreateInstance? && id in s.channels
    ensures var t := MakeMove(s, c, MoveOf(s, s.calls[c], a)); id in t.channels && t.channels[id] == s.channels[id]
  {
    hide InstanceExists;
  }

  lemma CallsChangeRows(s: State, a: Action, id: Id)
    requires IsCall(a) && a.call in s.calls && PhaseOk(s, s.calls[a.call]) && id in s.channels
    ensures var t := MakeMove(s, a.call, MoveOf(s, s.calls[a.call], a));
      id in t.channels && RowChanges(s, a, id, s.channels[id], t.channels[id])
  {
    hide ApplyEffect, Counted, HadInstance, HighestOf, SynchronizeMove, MarkErrorMove, CommitMove, CreateInstanceMove;
    hide BeginMove, FindAgainMove, InspectMove, ConfigureMove;
    var call := s.calls[a.call];
    match a
    case Synchronize(c, reply) => SynchronizingChangesRows(s, c, reply, id);
    case MarkError(c, reply) => MarkingChangesRows(s, c, reply, id);
    case Commit(_, _, _, _) => CommitsLeaveRows(s, a.call, a, id);
    case CreateInstance(_, _, _) => CreationsLeaveRows(s, a.call, a, id);
    case Start(_, _, _) => StartsDoNotMove(s, call, a);
    case _ =>
      QuietEffects(s, call, a);
      NothingIsApplied(s);
  }

  lemma StartsDoNotMove(s: State, call: Call, a: Action)
    requires a.Start?
    ensures MoveOf(s, call, a) == Stay
  {
  }

  lemma NothingIsApplied(s: State)
    ensures ApplyEffect(s, NoEffect) == s
  {
  }

  /** Everything that ever changes a channel, column by column: activity, reports and the mark of a failed call. */
  lemma ChannelsChangeOnlySo(actions: seq<Action>, a: Action, id: Id)
    requires id in Run(EMPTY, actions).channels
    ensures var s, t := Run(EMPTY, actions), Step(Run(EMPTY, actions), a);
      id in t.channels && RowChanges(s, a, id, s.channels[id], t.channels[id])
  {
    hide Run, OtherStep, MakeMove, RowChanges, PhaseOk, ChannelsUnique, InstancesOk, LimitsOk, CommittedOk;
    EveryRunIsOk(actions);
    var s := Run(EMPTY, actions);
    if !IsCall(a) {
      OthersChangeRows(s, a, id);
    } else if !a.Start? && a.call in s.calls {
      assert PhaseOk(s, s.calls[a.call]);
      CallsChangeRows(s, a, id);
    } else {
      NobodyChangesRows(s, a, id);
    }
  }

  lemma NobodyChangesRows(s: State, a: Action, id: Id)
    requires id in s.channels && IsCall(a) && (a.Start? || a.call !in s.calls)
    ensures id in Step(s, a).channels && RowChanges(s, a, id, s.channels[id], Step(s, a).channels[id])
  {
    hide OtherStep, MakeMove;
  }

  /** A channel starts inactive, being provisioned, without a phone, for the company and the key of its call. */
  lemma ChannelsStartEmpty(actions: seq<Action>, a: Action, id: Id)
    requires id !in Run(EMPTY, actions).channels && id in Step(Run(EMPTY, actions), a).channels
    ensures var s, t := Run(EMPTY, actions), Step(Run(EMPTY, actions), a);
      && a.Commit? && a.call in s.calls && id == a.id
      && var channel := t.channels[id];
      && channel.companyId == s.calls[a.call].companyId && channel.key == s.calls[a.call].key
      && channel.instanceName == a.instanceName && !channel.isActive
      && channel.connection == Provisioning && channel.connectedPhone == None
  {
    hide Run, Step, CommitMove, ChannelsUnique, InstancesOk, LimitsOk, CommittedOk, CallsOk;
    EveryRunIsOk(actions);
    var s := Run(EMPTY, actions);
    AddingStepsReserve(s, a, id);
    ReservedUnderItsName(s, s.calls[a.call], a);
  }

  lemma ReservedUnderItsName(s: State, call: Call, a: Action)
    requires a.Commit?
    ensures var move := CommitMove(s, call, a.ending, a.id, a.instanceName);
      move.Move? && move.effect.Reserved? ==> move.effect.instanceName == a.instanceName && move.effect.row.id == a.id
  {
    hide MaySerialize, KeysFree, AfterTransaction;
  }

  // ----- refusals

  /** The state after the first `i` actions. */
  function At(actions: seq<Action>, i: nat): State
    requires i <= |actions|
  {
    Run(EMPTY, actions[..i])
  }

  /** At moment `i`, when the call was under way, the company had no channel under the key. */
  predicate NoneAt(actions: seq<Action>, i: nat, c: Id, companyId: Id, key: string) {
    && i <= |actions| && c in At(actions, i).calls
    && forall id :: id in At(actions, i).channels ==>
         !(At(actions, i).channels[id].companyId == companyId && At(actions, i).channels[id].key == key)
  }

  /** The limit that the company was given last; none is zero. */
  function LimitInForce(actions: seq<Action>, companyId: Id): int
    decreases |actions|
  {
    if actions == [] then 0
    else
      var last := actions[|actions| - 1];
      if last.SetLimit? && last.companyId == companyId then (if last.limit.Some? then last.limit.value else 0)
      else LimitInForce(actions[..|actions| - 1], companyId)
  }

  lemma EffectsLeaveLimits(s: State, effect: Effect)
    ensures ApplyEffect(s, effect).limits == s.limits && ApplyEffect(s, effect).highest == s.highest
  {
  }

  lemma CallsLeaveLimits(s: State, c: Id, move: Move)
    requires c in s.calls
    ensures MakeMove(s, c, move).limits == s.limits && MakeMove(s, c, move).highest == s.highest
  {
    hide ApplyEffect;
    if move.Move? { EffectsLeaveLimits(s, move.effect); }
  }

  lemma OthersLeaveLimits(s: State, a: Action)
    requires !IsCall(a) && !a.SetLimit?
    ensures OtherStep(s, a).limits == s.limits && OtherStep(s, a).highest == s.highest
  {
    hide ApplyEffect, Observed, RemoveInstanceStep;
    match a
    case SetActive(channel, isActive) =>
      if channel in s.channels { EffectsLeaveLimits(s, Wrote(channel, s.channels[channel].(isActive := isActive))); }
    case Observe(channel, snapshot) =>
      if channel in s.channels { EffectsLeaveLimits(s, Wrote(channel, Observed(s.channels[channel], snapshot))); }
    case RemoveInstance(name) => RemovalFrame(s, name);
  }

  lemma OnlySettingChangesLimits(s: State, a: Action)
    requires !a.SetLimit?
    ensures Step(s, a).limits == s.limits && Step(s, a).highest == s.highest
  {
    hide MoveOf, MakeMove, OtherStep;
    if !IsCall(a) {
      OthersLeaveLimits(s, a);
    } else if !a.Start? && a.call in s.calls {
      CallsLeaveLimits(s, a.call, MoveOf(s, s.calls[a.call], a));
    }
  }

  lemma SettingALimit(s: State, a: Action, companyId: Id)
    requires a.SetLimit?
    ensures var t := Step(s, a);
      && LimitOf(t, companyId) == (if a.companyId != companyId then LimitOf(s, companyId)
                                   else if a.limit.Some? then a.limit.value else 0)
      && (HighestOf(t, companyId) == HighestOf(s, companyId)
          || (a.companyId == companyId && a.limit == Some(HighestOf(t, companyId))))
  {
  }

  lemma {:induction false} LimitsAreThoseSet(actions: seq<Action>, companyId: Id)
    ensures LimitOf(Run(EMPTY, actions), companyId) == LimitInForce(actions, companyId)
    ensures HighestOf(Run(EMPTY, actions), companyId) == 0
         || SetLimit(companyId, Some(HighestOf(Run(EMPTY, actions), companyId))) in actions
    decreases |actions|
  {
    hide Step, Run, LimitOf, HighestOf;
    if actions == [] {
      NoLimitsAtFirst(companyId);
    } else {
      var init, last := actions[..|actions| - 1], actions[|actions| - 1];
      assert actions == init + [last];
      LimitsAreThoseSet(init, companyId);
      RunSnoc(EMPTY, init, last);
      if last.SetLimit? {
        SettingALimit(Run(EMPTY, init), last, companyId);
      } else {
        OnlySettingChangesLimits(Run(EMPTY, init), last);
        SameLimits(Run(EMPTY, init), Run(EMPTY, actions), companyId);
      }
    }
  }

  lemma NoLimitsAtFirst(companyId: Id)
    ensures LimitOf(Run(EMPTY, []), companyId) == 0 && HighestOf(Run(EMPTY, []), companyId) == 0
  {
  }

  lemma SameLimits(s: State, t: State, companyId: Id)
    requires t.limits == s.limits && t.highest == s.highest
    ensures LimitOf(t, companyId) == LimitOf(s, companyId) && HighestOf(t, companyId) == HighestOf(s, companyId)
  {
  }

  /** A company that has channels was once given a limit of at least so many. */
  lemma ChannelsWereAllowed(actions: seq<Action>, companyId: Id, channels: set<Id>)
    requires channels != {}
    requires forall id :: id in channels <==>
      id in Run(EMPTY, actions).channels && Run(EMPTY, actions).channels[id].companyId == companyId
    ensures exists limit :: SetLimit(companyId, Some(limit)) in actions && |channels| <= limit
  {
    hide Run, HighestOf, ChannelsUnique, InstancesOk, CommittedOk, CallsOk;
    EveryRunIsOk(actions);
    LimitsAreThoseSet(actions, companyId);
    assert channels == ChannelsOf(Run(EMPTY, actions), companyId);
    var highest := HighestOf(Run(EMPTY, actions), companyId);
    assert |ChannelsOf(Run(EMPTY, actions), companyId)| <= highest;
    assert SetLimit(companyId, Some(highest)) in actions;
  }

  /** The channels of the company at moment `i`, and its limit then. */
  ghost predicate SeenAt(actions: seq<Action>, i: nat, companyId: Id, counted: set<Id>, limit: int) {
    && i <= |actions|
    && var s := At(actions, i);
    && (forall id :: id in counted <==> id in s.channels && s.channels[id].companyId == companyId)
    && limit == LimitInForce(actions[..i], companyId)
  }

  /** A decision to reserve, or a refusal for the limit, rests on what a transaction saw at one moment of the call. */
  ghost predicate Explained(actions: seq<Action>, c: Id, call: Call) {
    match call.phase
    case Deciding(_, view) =>
      && (exists i :: SeenAt(actions, i, call.companyId, view.counted, view.limit)
                      && (view.existing == None ==> NoneAt(actions, i, c, call.companyId, call.key)))
    case Refused(LimitReached) =>
      exists i, counted, limit ::
        && SeenAt(actions, i, call.companyId, counted, limit) && NoneAt(actions, i, c, call.companyId, call.key)
        && limit <= |counted|
    case _ => true
  }

  lemma StaysExplained(actions: seq<Action>, a: Action, c: Id, call: Call)
    requires Explained(actions, c, call)
    ensures Explained(actions + [a], c, call)
  {
    hide Run, LimitInForce;
    forall i | 0 <= i <= |actions| ensures At(actions + [a], i) == At(actions, i) && (actions + [a])[..i] == actions[..i] {
      assert (actions + [a])[..i] == actions[..i];
    }
    match call.phase
    case Deciding(_, view) =>
      var i :| SeenAt(actions, i, call.companyId, view.counted, view.limit)
               && (view.existing == None ==> NoneAt(actions, i, c, call.companyId, call.key));
      assert SeenAt(actions + [a], i, call.companyId, view.counted, view.limit);
      assert view.existing == None ==> NoneAt(actions + [a], i, c, call.companyId, call.key);
    case Refused(LimitReached) =>
      var i, counted, limit :|
        && SeenAt(actions, i, call.companyId, counted, limit) && NoneAt(actions, i, c, call.companyId, call.key)
        && limit <= |counted|;
      assert SeenAt(actions + [a], i, call.companyId, counted, limit)
          && NoneAt(actions + [a], i, c, call.companyId, call.key);
    case _ =>
  }

  lemma MovesAreDecided(s: State, call: Call, a: Action)
    requires MoveOf(s, call, a).Move?
    ensures match MoveOf(s, call, a).phase
      case Deciding(_, view) =>
        && view.counted == ChannelsOf(s, call.companyId) && view.limit == LimitOf(s, call.companyId)
        && IsFor(s, view.existing, call.companyId, call.key)
      case Refused(LimitReached) =>
        call.phase.Deciding? && call.phase.view.existing == None && call.phase.view.limit <= |call.phase.view.counted|
      case _ => true
  {
    hide IsFor, ChannelsOf, LimitOf, InstanceExists, KeysFree, MaySerialize, Observed, IsOfCompany;
  }

  lemma SeenNow(actions: seq<Action>, a: Action, c: Id, call: Call, view: View)
    requires c in Run(EMPTY, actions).calls
    requires var s := Run(EMPTY, actions);
      && view.counted == ChannelsOf(s, call.companyId) && view.limit == LimitOf(s, call.companyId)
      && IsFor(s, view.existing, call.companyId, call.key)
    ensures SeenAt(actions + [a], |actions|, call.companyId, view.counted, view.limit)
    ensures view.existing == None ==> NoneAt(actions + [a], |actions|, c, call.companyId, call.key)
  {
    hide Run, LimitInForce;
    LimitsAreThoseSet(actions, call.companyId);
    assert (actions + [a])[..|actions|] == actions;
  }

  lemma OwnStepIsExplained(actions: seq<Action>, a: Action)
    requires IsCall(a) && !a.Start? && a.call in Run(EMPTY, actions).calls
    requires Explained(actions, a.call, Run(EMPTY, actions).calls[a.call])
    ensures a.call in Run(EMPTY, actions + [a]).calls && Explained(actions + [a], a.call, Run(EMPTY, actions + [a]).calls[a.call])
  {
    hide Run, Step, MoveOf, SeenAt, NoneAt, ChannelsOf, LimitOf, IsFor;
    var s, c := Run(EMPTY, actions), a.call;
    var call := s.calls[c];
    RunSnoc(EMPTY, actions, a);
    MoveLeads(s, a);
    StaysExplained(actions, a, c, call);
    if MoveOf(s, call, a).Move? {
      MovesAreDecided(s, call, a);
      match MoveOf(s, call, a).phase
      case Deciding(_, view) => SeenNow(actions, a, c, call, view);
      case _ =>
    }
  }

  lemma {:induction false} CallsAreExplained(actions: seq<Action>, c: Id)
    ensures c in Run(EMPTY, actions).calls ==> Explained(actions, c, Run(EMPTY, actions).calls[c])
    decreases |actions|
  {
    hide Step, Run, Explained;
    if actions == [] {
      NoCallsAtFirst();
    } else {
      var init, last := actions[..|actions| - 1], actions[|actions| - 1];
      assert actions == init + [last];
      CallsAreExplained(init, c);
      RunSnoc(EMPTY, init, last);
      var s := Run(EMPTY, init);
      if c in s.calls {
        if IsCall(last) && last.call == c {
          if last.Start? { StartedCallsStay(s, last); StaysExplained(init, last, c, s.calls[c]); }
          else { OwnStepIsExplained(init, last); }
        } else {
          OthersKeepMyCall(s, last, c);
          StaysExplained(init, last, c, s.calls[c]);
        }
      } else {
        CallsStartReserving(s, last, c);
        NothingToExplain(actions, c, Step(s, last));
      }
    }
  }

  lemma NoCallsAtFirst()
    ensures Run(EMPTY, []).calls == map[]
  {
  }

  lemma StartedCallsStay(s: State, a: Action)
    requires a.Start? && a.call in s.calls
    ensures Step(s, a) == s
  {
  }

  lemma CallsStartReserving(s: State, a: Action, c: Id)
    requires c !in s.calls
    ensures c in Step(s, a).calls ==> Step(s, a).calls[c].phase == Reserving(1)
  {
    hide MoveOf, OtherStep, ApplyEffect;
    if !IsCall(a) {
      OthersLeaveCalls(s, a);
    } else if !a.Start? && a.call in s.calls && MoveOf(s, s.calls[a.call], a).Move? {
      EffectLeavesCalls(s, MoveOf(s, s.calls[a.call], a).effect);
    }
  }

  lemma NothingToExplain(actions: seq<Action>, c: Id, t: State)
    requires c in t.calls ==> t.calls[c].phase == Reserving(1)
    ensures c in t.calls ==> Explained(actions, c, t.calls[c])
  {
  }

  /** A call is refused for the limit only if, while it was under way, its company really had that many channels. */
  lemma LimitRefusalsAreRight(actions: seq<Action>, c: Id)
    requires c in Run(EMPTY, actions).calls && Run(EMPTY, actions).calls[c].phase == Refused(LimitReached)
    ensures var call := Run(EMPTY, actions).calls[c];
      exists i, counted, limit ::
        && SeenAt(actions, i, call.companyId, counted, limit) && NoneAt(actions, i, c, call.companyId, call.key)
        && limit <= |counted|
  {
    hide Run, SeenAt, NoneAt;
    CallsAreExplained(actions, c);
  }

  // ----- what a call does after others interfered

  /** After a violated key the call takes up the channel that another one reserved, or starts over; only a failed read ends it. */
  lemma SecondLooksDecide(s: State, c: Id, answered: bool, found: Option<Id>)
    requires c in s.calls && s.calls[c].phase.FindingAgain? && IsFor(s, found, s.calls[c].companyId, s.calls[c].key)
    ensures var t, attempt := Step(s, FindAgain(c, answered, found)), s.calls[c].phase.attempt;
      && t.channels == s.channels && c in t.calls
      && var phase := t.calls[c].phase;
      && (phase == Refused(LookupFailed) <==> !answered)
      && (answered && found.Some? ==> phase == Inspecting(found.value))
      && (answered && found == None ==> phase == if attempt < 3 then Reserving(attempt + 1) else Refused(ReservationUnavailable))
  {
    hide IsFor;
  }

  /** A call can stop anywhere, and then nothing of it goes on. */
  lemma CrashesStop(s: State, c: Id, a: Action)
    requires c in s.calls && IsCall(a) && a.call == c
    ensures var t := Step(s, Crash(c));
      && t == s.(calls := t.calls) && c in t.calls && (t.calls[c].phase == Crashed || t.calls[c].phase == s.calls[c].phase)
      && (!s.calls[c].phase.Provisioned? && !s.calls[c].phase.Refused? ==> t.calls[c].phase == Crashed)
      && (t.calls[c].phase == Crashed ==> Step(t, a) == t)
  {
    hide BeginMove, CommitMove, FindAgainMove, InspectMove, CreateInstanceMove, ConfigureMove, SynchronizeMove, MarkErrorMove;
    assert Step(s, Crash(c)) == MakeMove(s, c, if IsOver(s.calls[c].phase) then Stay else To(Crashed));
    if Step(s, Crash(c)).calls[c].phase == Crashed { CrashedCallsStay(Step(s, Crash(c)), c, a); }
  }

  lemma CrashedCallsStay(s: State, c: Id, a: Action)
    requires c in s.calls && s.calls[c].phase == Crashed && IsCall(a) && a.call == c
    ensures Step(s, a) == s
  {
    assert MoveOf(s, s.calls[c], a) == Stay;
  }
}
