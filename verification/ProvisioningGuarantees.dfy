/** What provisioning guarantees in every run. */
module ProvisioningGuarantees {
  import opened Basics
  import opened ProvisioningMachine
  import opened ProvisioningInvariants

  lemma {:induction false} RunAppend(s: State, a: seq<Action>, b: seq<Action>)
    ensures Run(s, a + b) == Run(Run(s, a), b)
    decreases a
  {
    hide Step;
    if a == [] {
      assert a + b == b;
    } else {
      assert (a + b)[1..] == a[1..] + b;
      RunAppend(Step(s, a[0]), a[1..], b);
    }
  }

  lemma RunSnoc(s: State, actions: seq<Action>, a: Action)
    ensures Run(s, actions + [a]) == Step(Run(s, actions), a)
  {
    hide Step;
    RunAppend(s, actions, [a]);
    assert [a][1..] == [];
    assert Run(Step(Run(s, actions), a), []) == Step(Run(s, actions), a);
  }

  // ----- one step

  lemma GoKeepsChannels(s: State, c: Id, effect: Effect, phase: Phase)
    requires c in s.calls && EffectOk(s, effect)
    ensures ChannelsStay(s, MakeMove(s, c, Move(phase, effect)))
  {
    hide EffectOk, ApplyEffect, ChannelsStay, Accounted;
    EffectGrows(s, effect);
    EffectLeavesCalls(s, effect);
    SameChannelsStay(s, ApplyEffect(s, effect), Go(ApplyEffect(s, effect), c, phase));
  }

  lemma SameChannelsStay(s: State, mid: State, t: State)
    requires ChannelsStay(s, mid) && t.channels == mid.channels
    ensures ChannelsStay(s, t)
  {
  }

  lemma UpdatesKeepChannels(s: State, id: Id, channel: Channel)
    requires id in s.channels && HasKey(channel, s.channels[id].companyId, s.channels[id].key)
    requires channel.instanceName == s.channels[id].instanceName
    ensures ChannelsStay(s, UpdateStep(s, id, channel)) && UpdateStep(s, id, channel).channels.Keys == s.channels.Keys
  {
  }

  lemma UnchangedChannelsStay(s: State, t: State)
    requires t.channels == s.channels
    ensures ChannelsStay(s, t) && t.channels.Keys == s.channels.Keys
  {
  }

  lemma ObservedKeepsKey(channel: Channel, snapshot: Snapshot)
    ensures HasKey(Observed(channel, snapshot), channel.companyId, channel.key)
    ensures Observed(channel, snapshot).instanceName == channel.instanceName
  {
  }

  lemma OtherStepsKeepChannels(s: State, a: Action)
    requires !IsCall(a)
    ensures ChannelsStay(s, OtherStep(s, a)) && OtherStep(s, a).channels.Keys == s.channels.Keys
  {
    hide UpdateStep, HighestOf, ChannelsStay, Observed;
    match a
    case SetLimit(companyId, limit) => UnchangedChannelsStay(s, SetLimitStep(s, companyId, limit));
    case SetActive(channel, isActive) =>
      if channel in s.channels { UpdatesKeepChannels(s, channel, s.channels[channel].(isActive := isActive)); }
      else { UnchangedChannelsStay(s, s); }
    case Observe(channel, snapshot) =>
      if channel in s.channels {
        ObservedKeepsKey(s.channels[channel], snapshot);
        UpdatesKeepChannels(s, channel, Observed(s.channels[channel], snapshot));
      } else {
        UnchangedChannelsStay(s, s);
      }
    case RemoveInstance(name) => UnchangedChannelsStay(s, RemoveInstanceStep(s, name));
  }

  lemma CallStepKeepsChannels(s: State, a: Action)
    requires Inv(s) && IsCall(a) && a.call in s.calls
    ensures ChannelsStay(s, MakeMove(s, a.call, MoveOf(s, s.calls[a.call], a)))
  {
    hide MoveOf, EffectOk, PhaseOk, ChannelsUnique, InstancesOk, LimitsOk;
    var call := s.calls[a.call];
    assert PhaseOk(s, call);
    MoveEffectIsOk(s, call, a);
    var move := MoveOf(s, call, a);
    if move.Move? { GoKeepsChannels(s, a.call, move.effect, move.phase); }
  }

  lemma StepKeepsChannels(s: State, a: Action)
    requires Inv(s)
    ensures ChannelsStay(s, Step(s, a))
  {
    hide MoveOf, MakeMove, OtherStep, Inv;
    if !IsCall(a) {
      OtherStepsKeepChannels(s, a);
    } else if !a.Start? && a.call in s.calls {
      CallStepKeepsChannels(s, a);
    }
  }

  lemma {:induction false} RunKeepsChannels(s: State, more: seq<Action>)
    requires Inv(s)
    ensures ChannelsStay(s, Run(s, more))
    decreases more
  {
    hide Step, Inv;
    if more != [] {
      StepKeepsChannels(s, more[0]);
      StepKeepsInv(s, more[0]);
      RunKeepsChannels(Step(s, more[0]), more[1..]);
    }
  }

  lemma SetLimitLeavesCalls(s: State, companyId: Id, limit: Option<int>)
    ensures SetLimitStep(s, companyId, limit).calls == s.calls
  {
    hide HighestOf, Larger;
  }

  lemma UpdateLeavesCalls(s: State, id: Id, channel: Channel)
    ensures UpdateStep(s, id, channel).calls == s.calls
  {
  }

  lemma OthersLeaveCalls(s: State, a: Action)
    requires !IsCall(a)
    ensures OtherStep(s, a).calls == s.calls
  {
    hide SetLimitStep, UpdateStep, Observed, RemoveInstanceStep;
    match a
    case SetLimit(companyId, limit) => SetLimitLeavesCalls(s, companyId, limit);
    case SetActive(channel, isActive) =>
      if channel in s.channels { UpdateLeavesCalls(s, channel, s.channels[channel].(isActive := isActive)); }
    case Observe(channel, snapshot) =>
      if channel in s.channels { UpdateLeavesCalls(s, channel, Observed(s.channels[channel], snapshot)); }
    case RemoveInstance(name) => RemovalFrame(s, name);
  }

  lemma OthersKeepMyCall(s: State, a: Action, c: Id)
    requires c in s.calls && !(IsCall(a) && a.call == c)
    ensures c in Step(s, a).calls && Step(s, a).calls[c] == s.calls[c]
  {
    hide MoveOf, OtherStep, ApplyEffect;
    if !IsCall(a) {
      OthersLeaveCalls(s, a);
    } else if !a.Start? && a.call in s.calls && MoveOf(s, s.calls[a.call], a).Move? {
      EffectLeavesCalls(s, MoveOf(s, s.calls[a.call], a).effect);
    }
  }

  /** The move of a call, seen at the call alone. */
  lemma MoveLeads(s: State, a: Action)
    requires IsCall(a) && !a.Start? && a.call in s.calls
    ensures var t, move := Step(s, a), MoveOf(s, s.calls[a.call], a);
      && a.call in t.calls
      && t.calls[a.call] == (if move.Stay? then s.calls[a.call] else s.calls[a.call].(phase := move.phase))
  {
    hide MoveOf, ApplyEffect;
    var move := MoveOf(s, s.calls[a.call], a);
    if move.Move? { EffectLeavesCalls(s, move.effect); }
  }

  // ----- keys

  /** A key has one channel for all time: a later channel of the same key is the same one, under the same instance name. */
  lemma OneChannelPerKey(actions: seq<Action>, more: seq<Action>, a: Id, b: Id, companyId: Id, key: string)
    requires a in Run(EMPTY, actions).channels && HasKey(Run(EMPTY, actions).channels[a], companyId, key)
    requires b in Run(EMPTY, actions + more).channels && HasKey(Run(EMPTY, actions + more).channels[b], companyId, key)
    ensures a == b
    ensures Run(EMPTY, actions + more).channels[b].instanceName == Run(EMPTY, actions).channels[a].instanceName
  {
    hide Run, InstancesOk, LimitsOk, CommittedOk, CallsOk;
    RunAppend(EMPTY, actions, more);
    EveryRunIsOk(actions);
    RunKeepsChannels(Run(EMPTY, actions), more);
    EveryRunIsOk(actions + more);
  }

  predicate WorksOn(phase: Phase, channel: Id) {
    match phase
    case Inspecting(c) => c == channel
    case CreatingInstance(c) => c == channel
    case InspectingAgain(c) => c == channel
    case Configuring(c) => c == channel
    case Synchronizing(c, _) => c == channel
    case MarkingError(c) => c == channel
    case Provisioned(c) => c == channel
    case _ => false
  }

  lemma WorkersOwnTheirChannel(s: State, c: Id, channel: Id)
    requires Inv(s) && c in s.calls && WorksOn(s.calls[c].phase, channel)
    ensures IsMine(s, s.calls[c], channel)
  {
    hide ChannelsUnique, InstancesOk, LimitsOk, CommittedOk, Counted;
    assert PhaseOk(s, s.calls[c]);
  }

  /** Calls past the reservation have the same channel exactly when they have the same company and key. */
  lemma SameKeySameChannel(actions: seq<Action>, c: Id, d: Id, a: Id, b: Id)
    requires var s := Run(EMPTY, actions);
      c in s.calls && d in s.calls && WorksOn(s.calls[c].phase, a) && WorksOn(s.calls[d].phase, b)
    ensures var s := Run(EMPTY, actions);
      a == b <==> s.calls[c].companyId == s.calls[d].companyId && s.calls[c].key == s.calls[d].key
  {
    hide Run, InstancesOk, LimitsOk, CommittedOk, CallsOk;
    EveryRunIsOk(actions);
    WorkersOwnTheirChannel(Run(EMPTY, actions), c, a);
    WorkersOwnTheirChannel(Run(EMPTY, actions), d, b);
  }

  lemma BeginFinds(s: State, c: Id, found: Option<Id>, id: Id)
    requires ChannelsUnique(s) && c in s.calls && s.calls[c].phase.Reserving?
    requires id in s.channels && HasKey(s.channels[id], s.calls[c].companyId, s.calls[c].key)
    ensures var t := Step(s, Begin(c, true, found));
      t.channels == s.channels && c in t.calls && t.calls[c].companyId == s.calls[c].companyId
      && (t.calls[c].phase.Deciding? ==> t.calls[c].phase.view.existing == Some(id))
  {
  }

  lemma CommitResumes(s: State, c: Id, ending: Ending, other: Id, name: Id)
    requires c in s.calls && s.calls[c].phase.Deciding? && s.calls[c].phase.view.existing.Some?
    ensures var t := Step(s, Commit(c, ending, other, name));
      && t.channels == s.channels
      && (ending == Committed ==> t.calls[c].phase == Inspecting(s.calls[c].phase.view.existing.value))
  {
  }

  /** A call that comes back after a lost answer finds the channel that was reserved, and reserves no other. */
  lemma LostReservationsAreResumed(actions: seq<Action>, c: Id, id: Id, found: Option<Id>, ending: Ending, other: Id, name: Id)
    requires var s := Run(EMPTY, actions);
      && c in s.calls && s.calls[c].phase.Reserving? && id in s.channels
      && HasKey(s.channels[id], s.calls[c].companyId, s.calls[c].key)
    ensures var t := Step(Run(EMPTY, actions), Begin(c, true, found));
      c in t.calls
      && (t.calls[c].phase.Deciding? ==>
            && t.calls[c].phase.view.existing == Some(id)
            && var u := Step(t, Commit(c, ending, other, name));
               u.channels == t.channels && (ending == Committed ==> u.calls[c].phase == Inspecting(id)))
  {
    hide Step, Run;
    EveryRunIsOk(actions);
    BeginFinds(Run(EMPTY, actions), c, found, id);
    var t := Step(Run(EMPTY, actions), Begin(c, true, found));
    if t.calls[c].phase.Deciding? { CommitResumes(t, c, ending, other, name); }
  }

  // ----- instances

  /**
   * Instances are accounted for: those created under a name are those removed from outside and those still
   * there, and only names of channels are ever used, each by one channel.
   */
  lemma InstancesAreAccountedFor(actions: seq<Action>, name: Id, a: Id, b: Id)
    ensures var s := Run(EMPTY, actions);
      && s.instancesCreated[name] == s.instancesRemoved[name] + s.instances[name]
      && (name in s.instancesCreated ==> exists id :: id in s.channels && s.channels[id].instanceName == name)
      && (a in s.channels && b in s.channels && s.channels[a].instanceName == s.channels[b].instanceName ==> a == b)
  {
    hide Run, LimitsOk, CommittedOk, CallsOk;
    EveryRunIsOk(actions);
    assert InstancesOk(Run(EMPTY, actions));
  }

  /** A call succeeds only once the instance of its channel was created; it is there unless somebody removed it. */
  lemma ProvisionedMeansInstance(actions: seq<Action>, c: Id)
    requires c in Run(EMPTY, actions).calls && Run(EMPTY, actions).calls[c].phase.Provisioned?
    ensures var s := Run(EMPTY, actions);
      var channel := s.calls[c].phase.channel;
      && channel in s.channels && HasKey(s.channels[channel], s.calls[c].companyId, s.calls[c].key)
      && var name := s.channels[channel].instanceName;
      && name in s.instancesCreated
      && (name in s.instances || name in s.instancesRemoved)
  {
    hide Run, LimitsOk, CommittedOk, ChannelsUnique;
    EveryRunIsOk(actions);
    var s := Run(EMPTY, actions);
    assert PhaseOk(s, s.calls[c]);
    var name := s.channels[s.calls[c].phase.channel].instanceName;
    assert s.instancesCreated[name] == s.instancesRemoved[name] + s.instances[name];
  }

  // ----- the limit

  lemma OnlyReservationsAdd(s: State, effect: Effect, id: Id)
    requires EffectOk(s, effect) && id !in s.channels && id in ApplyEffect(s, effect).channels
    ensures effect.Reserved? && effect.row.id == id
  {
    hide HighestOf, ChannelsOf;
  }

  lemma ReservationsAreCommits(s: State, call: Call, a: Action)
    requires MoveOf(s, call, a).Move? && MoveOf(s, call, a).effect.Reserved?
    ensures a.Commit? && call.phase.Deciding? && MoveOf(s, call, a).effect.row == RowOf(call, a.id)
    ensures CommitMove(s, call, a.ending, a.id, a.instanceName) == MoveOf(s, call, a)
  {
    hide IsFor, InstanceExists, ChannelsOf, LimitOf, MaySerialize, KeysFree, Observed, AfterTransaction;
  }

  lemma AddingStepsAreCalls(s: State, a: Action, id: Id)
    requires id !in s.channels && id in Step(s, a).channels
    ensures IsCall(a) && !a.Start? && a.call in s.calls
    ensures Step(s, a) == MakeMove(s, a.call, MoveOf(s, s.calls[a.call], a)) && MoveOf(s, s.calls[a.call], a).Move?
  {
    hide MoveOf, OtherStep;
    if !IsCall(a) { OtherStepsKeepChannels(s, a); }
  }

  lemma AddingStepsReserve(s: State, a: Action, id: Id)
    requires Inv(s) && id !in s.channels && id in Step(s, a).channels
    ensures a.Commit? && a.call in s.calls && s.calls[a.call].phase.Deciding?
    ensures var move := CommitMove(s, s.calls[a.call], a.ending, a.id, a.instanceName);
      move.Move? && move.effect.Reserved? && move.effect.row == RowOf(s.calls[a.call], id)
      && Step(s, a) == MakeMove(s, a.call, move)
  {
    hide Step, MoveOf, CommitMove, PhaseOk, EffectOk, ApplyEffect, ChannelsUnique, InstancesOk, LimitsOk;
    AddingStepsAreCalls(s, a, id);
    var call := s.calls[a.call];
    assert PhaseOk(s, call);
    MoveEffectIsOk(s, call, a);
    OnlyReservationsAdd(s, MoveOf(s, call, a).effect, id);
    ReservationsAreCommits(s, call, a);
  }

  /**
   * A reservation that adds a channel leaves the company within the limit that its transaction read, though
   * it counted in a snapshot: had another transaction added a channel since, the two would conflict and the
   * commit would have been refused. So a company never has more channels than the highest limit it was given.
   */
  lemma ReservationsRespectTheLimit(actions: seq<Action>, a: Action, id: Id, companyId: Id)
    requires id !in Run(EMPTY, actions).channels && id in Step(Run(EMPTY, actions), a).channels
    ensures var s := Run(EMPTY, actions);
      var t := Step(s, a);
      && a.Commit? && a.call in s.calls && s.calls[a.call].phase.Deciding?
      && var call := s.calls[a.call];
      && call.phase.view.counted == ChannelsOf(s, call.companyId)
      && |ChannelsOf(t, call.companyId)| == |ChannelsOf(s, call.companyId)| + 1 <= call.phase.view.limit
      && !t.channels[id].isActive
      && |ChannelsOf(t, companyId)| <= HighestOf(t, companyId)
  {
    hide Step, Run, PhaseOk, ChannelsOf, HighestOf, MaySerialize, KeysFree;
    var s := Run(EMPTY, actions);
    EveryRunIsOk(actions);
    StepKeepsInv(s, a);
    AddingStepsReserve(s, a, id);
    var call := s.calls[a.call];
    assert PhaseOk(s, call);
    ReservationIsOk(s, call, a.ending, a.id, a.instanceName);
    MoveCounts(s, a.call, CommitMove(s, call, a.ending, a.id, a.instanceName), call.companyId);
    assert |ChannelsOf(Step(s, a), companyId)| <= HighestOf(Step(s, a), companyId);
  }

  lemma MoveCounts(s: State, c: Id, move: Move, companyId: Id)
    requires c in s.calls && move.Move? && move.effect.Reserved? && EffectOk(s, move.effect)
    ensures |ChannelsOf(MakeMove(s, c, move), companyId)|
         == |ChannelsOf(s, companyId)| + (if move.effect.row.companyId == companyId then 1 else 0)
    ensures var id := move.effect.row.id;
      id in MakeMove(s, c, move).channels && !MakeMove(s, c, move).channels[id].isActive
  {
    hide EffectOk;
    EffectCounts(s, move.effect, companyId);
    assert ChannelsOf(MakeMove(s, c, move), companyId) == ChannelsOf(ApplyEffect(s, move.effect), companyId);
  }

  /**
   * For a reservation that is about to commit, whatever committed since its snapshot: it is in conflict with
   * none of it if and only if the channels it counted are still all channels of its company.
   */
  lemma ConflictsAreMissedChannels(actions: seq<Action>, c: Id, id: Id)
    requires c in Run(EMPTY, actions).calls && Run(EMPTY, actions).calls[c].phase.Deciding?
    ensures var s := Run(EMPTY, actions);
      var call := s.calls[c];
      MaySerialize(s, call.phase.view.started, Reservation(call, RowOf(call, id))) <==>
        ChannelsOf(s, call.companyId) == call.phase.view.counted
  {
    hide Run, ChannelsUnique, InstancesOk, LimitsOk, MaySerialize, ChannelsOf, HighestOf;
    EveryRunIsOk(actions);
    var s := Run(EMPTY, actions);
    assert PhaseOk(s, s.calls[c]);
    SerializableMeansCounted(s, s.calls[c], s.calls[c].phase.view, RowOf(s.calls[c], id));
  }

  // ----- activity

  /** The effect makes no channel active. */
  predicate KeepsInactive(s: State, effect: Effect, id: Id) {
    var t := ApplyEffect(s, effect);
    id in t.channels && t.channels[id].isActive ==> id in s.channels && s.channels[id].isActive
  }

  lemma CommitsNeverActivate(s: State, call: Call, ending: Ending, other: Id, name: Id, id: Id)
    ensures var move := CommitMove(s, call, ending, other, name); move.Move? ==> KeepsInactive(s, move.effect, id)
  {
    hide MaySerialize, KeysFree, AfterTransaction;
  }

  lemma CreationsNeverActivate(s: State, call: Call, reply: Reply, refuses: bool, id: Id)
    ensures var move := CreateInstanceMove(s, call, reply, refuses); move.Move? ==> KeepsInactive(s, move.effect, id)
  {
    hide InstanceExists;
  }

  lemma SynchronizingNeverActivates(s: State, call: Call, reply: Reply, id: Id)
    ensures var move := SynchronizeMove(s, call, reply); move.Move? ==> KeepsInactive(s, move.effect, id)
  {
  }

  lemma MarkingNeverActivates(s: State, call: Call, reply: Reply, id: Id)
    ensures var move := MarkErrorMove(s, call, reply); move.Move? ==> KeepsInactive(s, move.effect, id)
  {
  }

  lemma MovesNeverActivate(s: State, call: Call, a: Action, id: Id)
    requires MoveOf(s, call, a).Move?
    ensures KeepsInactive(s, MoveOf(s, call, a).effect, id)
  {
    hide CommitMove, CreateInstanceMove, SynchronizeMove, MarkErrorMove, ApplyEffect, KeepsInactive;
    match a
    case Commit(_, ending, other, name) => CommitsNeverActivate(s, call, ending, other, name, id);
    case CreateInstance(_, reply, refuses) => CreationsNeverActivate(s, call, reply, refuses, id);
    case Synchronize(_, reply) => SynchronizingNeverActivates(s, call, reply, id);
    case MarkError(_, reply) => MarkingNeverActivates(s, call, reply, id);
    case _ =>
      QuietEffects(s, call, a);
      NothingActivates(s, id);
  }

  lemma NothingActivates(s: State, id: Id)
    ensures KeepsInactive(s, NoEffect, id)
  {
  }

  lemma OnlySetActiveActivates(s: State, a: Action, id: Id)
    requires id in Step(s, a).channels && Step(s, a).channels[id].isActive
    requires id in s.channels ==> !s.channels[id].isActive
    ensures a == SetActive(id, true)
  {
    hide MoveOf;
    if IsCall(a) && !a.Start? && a.call in s.calls {
      if MoveOf(s, s.calls[a.call], a).Move? { MovesNeverActivate(s, s.calls[a.call], a, id); }
    }
  }

  /** Provisioning never makes a channel active: an active channel was set so by the routing administration. */
  lemma {:induction false} ProvisioningNeverActivates(actions: seq<Action>, id: Id)
    requires id in Run(EMPTY, actions).channels && Run(EMPTY, actions).channels[id].isActive
    ensures SetActive(id, true) in actions
    decreases |actions|
  {
    hide Step;
    if actions != [] {
      var init, last := actions[..|actions| - 1], actions[|actions| - 1];
      assert actions == init + [last];
      RunSnoc(EMPTY, init, last);
      var s := Run(EMPTY, init);
      if id in s.channels && s.channels[id].isActive {
        ProvisioningNeverActivates(init, id);
      } else {
        OnlySetActiveActivates(s, last, id);
      }
    }
  }
}
