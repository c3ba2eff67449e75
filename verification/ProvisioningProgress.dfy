/** A call that meets no failure provisions its channel, in every state that allows one more or has it already. */
module ProvisioningProgress {
  import opened Basics
  import opened ProvisioningGuarantees
  import opened ProvisioningInvariants
  import opened ProvisioningMachine

  /** The company has the channel of the key, or may have one more under this identifier and name. */
  predicate MayHave(s: State, companyId: Id, key: string, found: Option<Id>, id: Id, name: Id) {
    match found
    case Some(channel) => IsFor(s, found, companyId, key)
    case None =>
      && |ChannelsOf(s, companyId)| < LimitOf(s, companyId)
      && id !in s.channels
      && forall other :: other in s.channels ==>
           !HasKey(s.channels[other], companyId, key) && s.channels[other].instanceName != name
  }

  function ChannelFor(found: Option<Id>, id: Id): Id { if found.Some? then found.value else id }

  function Reserve(c: Id, found: Option<Id>, id: Id, name: Id): seq<Action> {
    [Begin(c, true, found), Commit(c, Committed, id, name)]
  }

  function Ensure(s: State, c: Id, channel: Id): seq<Action> {
    if InstanceExists(s, channel) then [Inspect(c, true)] else [Inspect(c, true), CreateInstance(c, Answered, true)]
  }

  function Settle(c: Id, snapshot: Snapshot): seq<Action> { [Configure(c, Some(snapshot)), Synchronize(c, Answered)] }

  lemma RunsOne(s: State, a: Action)
    ensures Run(s, [a]) == Step(s, a)
  {
    hide Step;
    assert [a][1..] == [];
    assert Run(Step(s, a), []) == Step(s, a);
  }

  lemma RunsTwo(s: State, a: Action, b: Action)
    ensures Run(s, [a, b]) == Step(Step(s, a), b)
  {
    hide Step;
    assert [a, b][1..] == [b];
    RunsOne(Step(s, a), b);
  }

  lemma Begins(s: State, c: Id, companyId: Id, key: string, found: Option<Id>, id: Id, name: Id)
    requires c in s.calls && s.calls[c] == Call(companyId, key, Reserving(1)) && MayHave(s, companyId, key, found, id, name)
    ensures var view := View(|s.committed|, found, LimitOf(s, companyId), ChannelsOf(s, companyId));
      Step(s, Begin(c, true, found)) == s.(calls := s.calls[c := Call(companyId, key, Deciding(1, view))])
  {
    hide ChannelsOf, LimitOf;
  }

  lemma Commits(s: State, c: Id, companyId: Id, key: string, found: Option<Id>, id: Id, name: Id)
    requires c in s.calls && MayHave(s, companyId, key, found, id, name)
    requires var view := View(|s.committed|, found, LimitOf(s, companyId), ChannelsOf(s, companyId));
      s.calls[c] == Call(companyId, key, Deciding(1, view))
    ensures var t, channel := Step(s, Commit(c, Committed, id, name)), ChannelFor(found, id);
      && c in t.calls && t.calls[c] == Call(companyId, key, Inspecting(channel))
      && channel in t.channels && HasKey(t.channels[channel], companyId, key)
  {
    hide ChannelsOf, LimitOf, Conflict;
  }

  lemma Reserves(s: State, c: Id, companyId: Id, key: string, found: Option<Id>, id: Id, name: Id)
    requires c in s.calls && s.calls[c] == Call(companyId, key, Reserving(1)) && MayHave(s, companyId, key, found, id, name)
    ensures var t, channel := Run(s, Reserve(c, found, id, name)), ChannelFor(found, id);
      && c in t.calls && t.calls[c] == Call(companyId, key, Inspecting(channel))
      && channel in t.channels && HasKey(t.channels[channel], companyId, key)
  {
    hide Step, Run, MayHave;
    Begins(s, c, companyId, key, found, id, name);
    var t := Step(s, Begin(c, true, found));
    assert MayHave(t, companyId, key, found, id, name) && LimitOf(t, companyId) == LimitOf(s, companyId)
        && ChannelsOf(t, companyId) == ChannelsOf(s, companyId) by { SameTables(s, t, companyId, key, found, id, name); }
    Commits(t, c, companyId, key, found, id, name);
    RunsTwo(s, Begin(c, true, found), Commit(c, Committed, id, name));
  }

  lemma SameTables(s: State, t: State, companyId: Id, key: string, found: Option<Id>, id: Id, name: Id)
    requires t.channels == s.channels && t.limits == s.limits && MayHave(s, companyId, key, found, id, name)
    ensures MayHave(t, companyId, key, found, id, name) && LimitOf(t, companyId) == LimitOf(s, companyId)
    ensures ChannelsOf(t, companyId) == ChannelsOf(s, companyId)
  {
    assert ChannelsOf(t, companyId) == ChannelsOf(s, companyId);
  }

  lemma Inspects(s: State, c: Id, channel: Id)
    requires c in s.calls && s.calls[c].phase == Inspecting(channel)
    ensures var next := if InstanceExists(s, channel) then Configuring(channel) else CreatingInstance(channel);
      Step(s, Inspect(c, true)) == Go(s, c, next)
  {
    hide InstanceExists;
  }

  lemma Creates(s: State, c: Id, channel: Id)
    requires c in s.calls && s.calls[c].phase == CreatingInstance(channel) && channel in s.channels && !InstanceExists(s, channel)
    ensures var t := Step(s, CreateInstance(c, Answered, true));
      t.channels == s.channels && t.calls == s.calls[c := s.calls[c].(phase := Configuring(channel))]
  {
    hide InstanceExists, ApplyEffect;
    EffectLeavesCalls(s, InstanceMade(s.channels[channel].instanceName));
    MadeInstancesLeaveRows(s, s.channels[channel].instanceName);
  }

  lemma MadeInstancesLeaveRows(s: State, name: Id)
    ensures ApplyEffect(s, InstanceMade(name)).channels == s.channels
  {
  }

  lemma Ensures(s: State, c: Id, companyId: Id, key: string, channel: Id)
    requires c in s.calls && s.calls[c] == Call(companyId, key, Inspecting(channel)) && channel in s.channels
    ensures var t := Run(s, Ensure(s, c, channel));
      c in t.calls && t.calls[c] == Call(companyId, key, Configuring(channel)) && t.channels == s.channels
  {
    hide Run, Step, MoveOf;
    Inspects(s, c, channel);
    if InstanceExists(s, channel) {
      RunsOne(s, Inspect(c, true));
    } else {
      Creates(Step(s, Inspect(c, true)), c, channel);
      RunsTwo(s, Inspect(c, true), CreateInstance(c, Answered, true));
    }
  }

  lemma ConfiguresFirst(s: State, c: Id, channel: Id, snapshot: Snapshot)
    requires c in s.calls && s.calls[c].phase == Configuring(channel)
    ensures Step(s, Configure(c, Some(snapshot))) == Go(s, c, Synchronizing(channel, snapshot))
  {
  }

  lemma Synchronizes(s: State, c: Id, channel: Id, snapshot: Snapshot)
    requires c in s.calls && s.calls[c].phase == Synchronizing(channel, snapshot)
    requires channel in s.channels && HasKey(s.channels[channel], s.calls[c].companyId, s.calls[c].key)
    ensures var t := Step(s, Synchronize(c, Answered));
      && c in t.calls && t.calls[c].phase == Provisioned(channel) && channel in t.channels
      && HasKey(t.channels[channel], s.calls[c].companyId, s.calls[c].key) && t.channels[channel].connection == snapshot.connection
  {
  }

  lemma Settles(s: State, c: Id, companyId: Id, key: string, channel: Id, snapshot: Snapshot)
    requires c in s.calls && s.calls[c] == Call(companyId, key, Configuring(channel))
    requires channel in s.channels && HasKey(s.channels[channel], companyId, key)
    ensures var t := Run(s, Settle(c, snapshot));
      && c in t.calls && t.calls[c].phase == Provisioned(channel)
      && channel in t.channels && HasKey(t.channels[channel], companyId, key)
      && t.channels[channel].connection == snapshot.connection
  {
    hide Run, Step;
    ConfiguresFirst(s, c, channel, snapshot);
    Synchronizes(Go(s, c, Synchronizing(channel, snapshot)), c, channel, snapshot);
    RunsTwo(s, Configure(c, Some(snapshot)), Synchronize(c, Answered));
  }

  lemma Starts(s: State, c: Id, companyId: Id, key: string)
    requires c !in s.calls
    ensures Step(s, Start(c, companyId, key)) == s.(calls := s.calls[c := Call(companyId, key, Reserving(1))])
  {
  }

  /**
   * From every state a new call that meets no failure is provisioned by its own steps alone: with the channel that the
   * key has, or, when it has none and the company is below its limit, with a new one.
   */
  lemma EveryCallCanSucceed(s: State, c: Id, companyId: Id, key: string, found: Option<Id>, id: Id, name: Id, snapshot: Snapshot)
    returns (mine: seq<Action>)
    requires c !in s.calls && MayHave(s, companyId, key, found, id, name)
    ensures forall k :: 0 <= k < |mine| ==> IsCall(mine[k]) && mine[k].call == c
    ensures var t, channel := Run(s, mine), ChannelFor(found, id);
      && c in t.calls && t.calls[c].phase == Provisioned(channel)
      && channel in t.channels && HasKey(t.channels[channel], companyId, key)
      && t.channels[channel].connection == snapshot.connection
  {
    hide Step, Run, MayHave;
    var channel := ChannelFor(found, id);
    Starts(s, c, companyId, key);
    var s1 := Step(s, Start(c, companyId, key));
    SameTables(s, s1, companyId, key, found, id, name);
    RunsOne(s, Start(c, companyId, key));
    Reserves(s1, c, companyId, key, found, id, name);
    var s2 := Run(s1, Reserve(c, found, id, name));
    Ensures(s2, c, companyId, key, channel);
    var s3 := Run(s2, Ensure(s2, c, channel));
    Settles(s3, c, companyId, key, channel, snapshot);
    mine := [Start(c, companyId, key)] + Reserve(c, found, id, name);
    RunAppend(s, [Start(c, companyId, key)], Reserve(c, found, id, name));
    RunAppend(s, mine, Ensure(s2, c, channel));
    RunAppend(s, mine + Ensure(s2, c, channel), Settle(c, snapshot));
    mine := mine + Ensure(s2, c, channel) + Settle(c, snapshot);
  }

  /** A company at its limit gets no channel under a new key: the call is refused, and says why. */
  lemma FullCompaniesAreRefused(s: State, c: Id, companyId: Id, key: string, ending: Ending, id: Id, name: Id)
    requires c in s.calls && s.calls[c] == Call(companyId, key, Reserving(1))
    requires forall other :: other in s.channels ==> !(s.channels[other].companyId == companyId && s.channels[other].key == key)
    requires LimitOf(s, companyId) <= |ChannelsOf(s, companyId)|
    ensures var t := Run(s, [Begin(c, true, None), Commit(c, ending, id, name)]);
      t.channels == s.channels && c in t.calls && t.calls[c].phase == Refused(LimitReached)
  {
    hide Run, LimitOf, ChannelsOf;
    var t := Step(s, Begin(c, true, None));
    assert t.calls[c].phase == Deciding(1, View(|s.committed|, None, LimitOf(s, companyId), ChannelsOf(s, companyId)));
    RunsTwo(s, Begin(c, true, None), Commit(c, ending, id, name));
  }
}
