/**
 * When a channel can get a second external instance. A call inspects the name and creates the instance when
 * there was none, in two requests; a second call of the same key may do so in between.
 */
module InstanceUniqueness {
  import opened Basics
  import opened ProvisioningMachine
  import opened ProvisioningInvariants
  import opened ProvisioningGuarantees

  /** The external service refuses every creation under a name that exists. */
  predicate ServiceRefuses(actions: seq<Action>) {
    forall k :: 0 <= k < |actions| && actions[k].CreateInstance? ==> actions[k].refuses
  }

  /** The call has found no instance and not yet asked for one. */
  predicate IsCreating(s: State, c: Id, channel: Id) { c in s.calls && s.calls[c].phase == CreatingInstance(channel) }

  /** Two calls stand between inspection and creation for the same channel. */
  ghost predicate Overlap(s: State) {
    exists c, d, channel :: c != d && IsCreating(s, c, channel) && IsCreating(s, d, channel)
  }

  ghost predicate CallsNeverOverlap(actions: seq<Action>) {
    forall i :: 0 <= i <= |actions| ==> !Overlap(Run(EMPTY, actions[..i]))
  }

  /** The step makes an instance under the name. */
  predicate Makes(s: State, a: Action, name: Id) {
    && a.CreateInstance? && a.call in s.calls && s.calls[a.call].phase.CreatingInstance?
    && NamedBy(s, s.calls[a.call].phase.channel, name)
    && a.reply != LostBefore && !(a.refuses && name in s.instances)
  }

  predicate NamedBy(s: State, channel: Id, name: Id) { channel in s.channels && s.channels[channel].instanceName == name }

  lemma OtherStepsMakeNone(s: State, a: Action, name: Id)
    requires !IsCall(a)
    ensures OtherStep(s, a).instances[name] <= s.instances[name]
  {
    hide HighestOf, Observed;
    if a.RemoveInstance? && a.name in s.instances { OneMoves(s.instancesRemoved, s.instances, a.name, name); }
  }

  lemma EffectsMakeInstances(s: State, effect: Effect, name: Id)
    ensures ApplyEffect(s, effect).instances[name]
         == s.instances[name] + (if effect == InstanceMade(name) then 1 else 0)
  {
  }

  lemma OnlyCreationMakes(s: State, call: Call, a: Action)
    requires MoveOf(s, call, a).Move? && MoveOf(s, call, a).effect.InstanceMade?
    ensures a.CreateInstance? && MoveOf(s, call, a) == CreateInstanceMove(s, call, a.reply, a.refuses)
  {
    hide IsFor, InstanceExists, ChannelsOf, LimitOf, MaySerialize, KeysFree, Observed, AfterTransaction, CreateInstanceMove;
  }

  /** A step makes at most one instance, and only as told. */
  lemma StepMakes(s: State, a: Action, name: Id)
    ensures var t := Step(s, a);
      if Makes(s, a, name) then t.instances[name] == s.instances[name] + 1 else t.instances[name] <= s.instances[name]
  {
    hide MoveOf, OtherStep, CreateInstanceMove, ApplyEffect;
    if !IsCall(a) {
      OtherStepsMakeNone(s, a, name);
    } else if !a.Start? && a.call in s.calls {
      var call := s.calls[a.call];
      var move := MoveOf(s, call, a);
      if a.CreateInstance? { CreationMakes(s, a, name); }
      if move.Move? {
        EffectsMakeInstances(s, move.effect, name);
        if move.effect.InstanceMade? { OnlyCreationMakes(s, call, a); }
      }
    }
  }

  lemma CreationMakes(s: State, a: Action, name: Id)
    requires a.CreateInstance? && a.call in s.calls
    ensures MoveOf(s, s.calls[a.call], a) == CreateInstanceMove(s, s.calls[a.call], a.reply, a.refuses)
    ensures var move := CreateInstanceMove(s, s.calls[a.call], a.reply, a.refuses);
      Makes(s, a, name) <==> move.Move? && move.effect == InstanceMade(name)
  {
  }

  // ----- with a service that refuses

  ghost predicate AtMostOne(s: State) { forall name :: s.instances[name] <= 1 }

  lemma {:induction false} RefusalKeepsOne(s: State, actions: seq<Action>)
    requires AtMostOne(s) && ServiceRefuses(actions)
    ensures AtMostOne(Run(s, actions))
    decreases actions
  {
    hide Step;
    if actions != [] {
      forall name ensures Step(s, actions[0]).instances[name] <= 1 { StepMakes(s, actions[0], name); }
      RefusalKeepsOne(Step(s, actions[0]), actions[1..]);
    }
  }

  // ----- with calls that do not overlap

  /** Whoever is about to create still finds nothing there. */
  ghost predicate CreatorsFindNothing(s: State) {
    forall c, channel, name :: IsCreating(s, c, channel) && NamedBy(s, channel, name) ==> name !in s.instances
  }

  lemma MovesIntoCreation(s: State, call: Call, a: Action)
    requires MoveOf(s, call, a).Move? && MoveOf(s, call, a).phase.CreatingInstance?
    ensures a.Inspect? && MoveOf(s, call, a).effect == NoEffect
    ensures call.phase == Inspecting(MoveOf(s, call, a).phase.channel) && !InstanceExists(s, MoveOf(s, call, a).phase.channel)
  {
    hide IsFor, ChannelsOf, LimitOf, MaySerialize, KeysFree, Observed;
  }

  /** A call gets between inspection and creation by an inspection that found nothing, or was there before and made nothing. */
  lemma CreatorsInspected(s: State, a: Action, c: Id, channel: Id)
    requires IsCreating(Step(s, a), c, channel)
    ensures
      || (a.Inspect? && a.call == c && c in s.calls && s.calls[c].phase == Inspecting(channel)
          && !InstanceExists(s, channel) && Step(s, a).instances == s.instances)
      || (IsCreating(s, c, channel) && (IsCall(a) && a.call == c ==> !a.CreateInstance? || channel !in s.channels))
  {
    hide MoveOf, OtherStep, ApplyEffect, InstanceExists;
    if !IsCall(a) {
      OthersLeaveCalls(s, a);
    } else if a.Start? {
    } else if a.call in s.calls {
      var call := s.calls[a.call];
      var move := MoveOf(s, call, a);
      if move.Move? { EffectLeavesCalls(s, move.effect); }
      if a.call == c {
        if move.Move? {
          MovesIntoCreation(s, call, a);
          NothingHappens(s);
        } else if a.CreateInstance? {
          CreationMoves(s, call, a);
        }
      }
    }
  }

  lemma NothingHappens(s: State)
    ensures ApplyEffect(s, NoEffect) == s
  {
  }

  lemma CreationMoves(s: State, call: Call, a: Action)
    requires a.CreateInstance? && call.phase.CreatingInstance? && MoveOf(s, call, a) == Stay
    ensures call.phase.channel !in s.channels
  {
  }

  lemma CreatorsKnowTheName(s: State, t: State, c: Id, channel: Id, name: Id)
    requires Inv(s) && ChannelsStay(s, t) && c in s.calls && NamedBy(t, channel, name)
    requires s.calls[c].phase == Inspecting(channel) || s.calls[c].phase == CreatingInstance(channel)
    ensures NamedBy(s, channel, name)
  {
    hide ChannelsUnique, InstancesOk, LimitsOk, CommittedOk;
    assert PhaseOk(s, s.calls[c]);
  }

  lemma NoOtherCreator(s: State, a: Action, c: Id, channel: Id, name: Id)
    requires ChannelsUnique(s) && !Overlap(s)
    requires IsCreating(s, c, channel) && NamedBy(s, channel, name) && Makes(s, a, name)
    ensures a.call == c
  {
    var other := s.calls[a.call].phase.channel;
    assert other == channel;
    assert IsCreating(s, a.call, channel);
  }

  lemma StepKeepsCreatorsApart(s: State, a: Action)
    requires Inv(s) && AtMostOne(s) && CreatorsFindNothing(s) && !Overlap(s)
    ensures AtMostOne(Step(s, a)) && CreatorsFindNothing(Step(s, a))
  {
    hide Step, Overlap, InstancesOk, LimitsOk, CommittedOk, CallsOk;
    var t := Step(s, a);
    forall name ensures t.instances[name] <= 1 {
      StepMakes(s, a, name);
      if Makes(s, a, name) { assert IsCreating(s, a.call, s.calls[a.call].phase.channel); }
    }
    StepKeepsChannels(s, a);
    forall c, channel, name | IsCreating(t, c, channel) && NamedBy(t, channel, name) ensures name !in t.instances {
      CreatorsInspected(s, a, c, channel);
      CreatorsKnowTheName(s, t, c, channel, name);
      StepMakes(s, a, name);
      if IsCreating(s, c, channel) && Makes(s, a, name) {
        NoOtherCreator(s, a, c, channel, name);
        assert false;
      }
    }
  }

  lemma {:induction false} SeparationKeepsOne(actions: seq<Action>)
    requires CallsNeverOverlap(actions)
    ensures AtMostOne(Run(EMPTY, actions)) && CreatorsFindNothing(Run(EMPTY, actions))
    decreases |actions|
  {
    hide Step, Run, Overlap;
    if actions == [] {
      NothingAtFirst();
    } else {
      var init, last := actions[..|actions| - 1], actions[|actions| - 1];
      assert actions == init + [last];
      forall i | 0 <= i <= |init| ensures !Overlap(Run(EMPTY, init[..i])) { assert init[..i] == actions[..i]; }
      SeparationKeepsOne(init);
      EveryRunIsOk(init);
      RunSnoc(EMPTY, init, last);
      assert init[..|init|] == init;
      StepKeepsCreatorsApart(Run(EMPTY, init), last);
    }
  }

  lemma NothingAtFirst()
    ensures AtMostOne(Run(EMPTY, [])) && CreatorsFindNothing(Run(EMPTY, []))
  {
  }

  predicate Unfinished(s: State, c: Id, companyId: Id, key: string) {
    c in s.calls && s.calls[c].companyId == companyId && s.calls[c].key == key && !IsOver(s.calls[c].phase)
  }

  /** Nobody starts a call while another one of the same key is unfinished: then the calls never overlap. */
  ghost predicate OneCallAtATime(s: State) {
    forall c, d, companyId, key :: Unfinished(s, c, companyId, key) && Unfinished(s, d, companyId, key) ==> c == d
  }

  lemma SerialCallsNeverOverlap(actions: seq<Action>)
    requires forall i :: 0 <= i <= |actions| ==> OneCallAtATime(Run(EMPTY, actions[..i]))
    ensures CallsNeverOverlap(actions)
  {
    hide Run, OneCallAtATime;
    forall i | 0 <= i <= |actions| ensures !Overlap(Run(EMPTY, actions[..i])) {
      assert OneCallAtATime(Run(EMPTY, actions[..i]));
      OneAtATimeMeansNoOverlap(actions[..i]);
    }
  }

  lemma OneAtATimeMeansNoOverlap(actions: seq<Action>)
    requires OneCallAtATime(Run(EMPTY, actions))
    ensures !Overlap(Run(EMPTY, actions))
  {
    hide Run;
    var s := Run(EMPTY, actions);
    forall c, d, channel | IsCreating(s, c, channel) && IsCreating(s, d, channel) ensures c == d {
      SameKeySameChannel(actions, c, d, channel, channel);
      assert Unfinished(s, c, s.calls[c].companyId, s.calls[c].key) && Unfinished(s, d, s.calls[c].companyId, s.calls[c].key);
    }
  }

  // ----- with neither

  /** From any state in which two calls overlap, a service that does not refuse ends up with two instances. */
  lemma OverlappingCallsMakeTwo(s: State, c: Id, d: Id, channel: Id)
    requires c != d && IsCreating(s, c, channel) && IsCreating(s, d, channel) && channel in s.channels
    ensures var name := s.channels[channel].instanceName;
      Run(s, [CreateInstance(c, Answered, false), CreateInstance(d, Answered, false)]).instances[name] == s.instances[name] + 2
  {
    hide Run;
    var name := s.channels[channel].instanceName;
    var t := Step(s, CreateInstance(c, Answered, false));
    StepMakes(s, CreateInstance(c, Answered, false), name);
    assert IsCreating(t, d, channel) && t.channels == s.channels;
    StepMakes(t, CreateInstance(d, Answered, false), name);
    RunsTwo(s, CreateInstance(c, Answered, false), CreateInstance(d, Answered, false));
  }

  lemma RunsTwo(s: State, a: Action, b: Action)
    ensures Run(s, [a, b]) == Step(Step(s, a), b)
  {
    hide Step;
    assert [a, b] == [a] + [b];
    RunSnoc(s, [a], b);
    assert [a][1..] == [];
    assert Run(s, [a]) == Run(Step(s, a), []);
  }

  /** Two calls of one key: the first reserves the channel, both inspect before either creates. */
  function OverlappingCalls(c: Id, d: Id, companyId: Id, key: string, id: Id, name: Id): seq<Action> {
    [SetLimit(companyId, Some(1)), Start(c, companyId, key)]
    + [Begin(c, true, None), Commit(c, Committed, id, name)]
    + [Start(d, companyId, key), Begin(d, true, Some(id))]
    + [Commit(d, Committed, id, name), Inspect(c, true)]
    + [Inspect(d, true)]
  }

  lemma FirstCallReserves(c: Id, companyId: Id, key: string, id: Id, name: Id)
    ensures var s := Run(Run(EMPTY, [SetLimit(companyId, Some(1)), Start(c, companyId, key)]),
                         [Begin(c, true, None), Commit(c, Committed, id, name)]);
      && s.channels == map[id := NewChannel(Insertion(id, companyId, key), name)] && s.instances == multiset{}
      && s.calls == map[c := Call(companyId, key, Inspecting(id))]
  {
    hide Run;
    var s1 := Step(EMPTY, SetLimit(companyId, Some(1)));
    var s2 := Step(s1, Start(c, companyId, key));
    RunsTwo(EMPTY, SetLimit(companyId, Some(1)), Start(c, companyId, key));
    assert s2.calls == map[c := Call(companyId, key, Reserving(1))] && s2.channels == map[];
    var s3 := Step(s2, Begin(c, true, None));
    assert ChannelsOf(s2, companyId) == {} && LimitOf(s2, companyId) == 1;
    assert s3.calls[c].phase == Deciding(1, View(0, None, 1, {}));
    var s4 := Step(s3, Commit(c, Committed, id, name));
    RunsTwo(s2, Begin(c, true, None), Commit(c, Committed, id, name));
    assert KeysFree(s3, RowOf(s3.calls[c], id), name);
  }

  lemma SecondCallFinds(s: State, d: Id, companyId: Id, key: string, id: Id)
    requires d !in s.calls && id in s.channels && HasKey(s.channels[id], companyId, key)
    ensures var t := Run(s, [Start(d, companyId, key), Begin(d, true, Some(id))]);
      && t.channels == s.channels && t.instances == s.instances && t.calls.Keys == s.calls.Keys + {d}
      && (forall c :: c in s.calls ==> t.calls[c] == s.calls[c])
      && t.calls[d].companyId == companyId && t.calls[d].key == key
      && t.calls[d].phase.Deciding? && t.calls[d].phase.view.existing == Some(id)
  {
    hide Run, ChannelsOf, LimitOf;
    RunsTwo(s, Start(d, companyId, key), Begin(d, true, Some(id)));
  }

  lemma SecondCallJoins(s: State, c: Id, d: Id, id: Id, name: Id)
    requires c != d && c in s.calls && d in s.calls && s.calls[c].phase == Inspecting(id) && !InstanceExists(s, id)
    requires s.calls[d].phase.Deciding? && s.calls[d].phase.view.existing == Some(id)
    ensures var t := Run(s, [Commit(d, Committed, id, name), Inspect(c, true)]);
      && t.channels == s.channels && t.instances == s.instances
      && t.calls == s.calls[d := s.calls[d].(phase := Inspecting(id))][c := s.calls[c].(phase := CreatingInstance(id))]
  {
    hide Run, MaySerialize, KeysFree;
    var mid := Step(s, Commit(d, Committed, id, name));
    assert mid.calls == s.calls[d := s.calls[d].(phase := Inspecting(id))] && mid.channels == s.channels;
    RunsTwo(s, Commit(d, Committed, id, name), Inspect(c, true));
  }

  /** The two calls do overlap, and the company, the key and the names may be any. */
  lemma OverlapHappens(c: Id, d: Id, companyId: Id, key: string, id: Id, name: Id)
    requires c != d
    ensures var s := Run(EMPTY, OverlappingCalls(c, d, companyId, key, id, name));
      IsCreating(s, c, id) && IsCreating(s, d, id) && NamedBy(s, id, name) && s.instances == multiset{}
  {
    hide Run, Step;
    var p1, p2 := [SetLimit(companyId, Some(1)), Start(c, companyId, key)], [Begin(c, true, None), Commit(c, Committed, id, name)];
    var p3, p4 := [Start(d, companyId, key), Begin(d, true, Some(id))], [Commit(d, Committed, id, name), Inspect(c, true)];
    FirstCallReserves(c, companyId, key, id, name);
    var s := Run(Run(EMPTY, p1), p2);
    SecondCallFinds(s, d, companyId, key, id);
    SecondCallJoins(Run(s, p3), c, d, id, name);
    var t := Run(Run(s, p3), p4);
    RunAppend(EMPTY, p1, p2);
    RunAppend(EMPTY, p1 + p2, p3);
    RunAppend(EMPTY, p1 + p2 + p3, p4);
    RunSnoc(EMPTY, p1 + p2 + p3 + p4, Inspect(d, true));
    SecondInspection(t, d, id);
  }

  lemma SecondInspection(t: State, d: Id, id: Id)
    requires d in t.calls && t.calls[d].phase == Inspecting(id) && !InstanceExists(t, id)
    ensures var u := Step(t, Inspect(d, true));
      u.calls == t.calls[d := t.calls[d].(phase := CreatingInstance(id))] && u.channels == t.channels && u.instances == t.instances
  {
  }

  /** Two instances under one name. */
  lemma TwoInstancesHappen(c: Id, d: Id, companyId: Id, key: string, id: Id, name: Id)
    requires c != d
    ensures Run(EMPTY, OverlappingCalls(c, d, companyId, key, id, name)
                       + [CreateInstance(c, Answered, false), CreateInstance(d, Answered, false)]).instances[name] == 2
  {
    hide Run, Step, OverlappingCalls;
    OverlapHappens(c, d, companyId, key, id, name);
    OverlappingCallsMakeTwo(Run(EMPTY, OverlappingCalls(c, d, companyId, key, id, name)), c, d, id);
    RunAppend(EMPTY, OverlappingCalls(c, d, companyId, key, id, name),
              [CreateInstance(c, Answered, false), CreateInstance(d, Answered, false)]);
  }

  // ----- together

  /** The runs that a deployment allows: one whose service refuses, or whose callers keep calls of a key apart, or both, or neither. */
  ghost predicate Allowed(refusing: bool, separate: bool, actions: seq<Action>) {
    (refusing ==> ServiceRefuses(actions)) && (separate ==> CallsNeverOverlap(actions))
  }

  /**
   * No channel ever gets a second instance if and only if the service refuses names that exist or calls of the
   * same channel never overlap between inspection and creation.
   */
  lemma OneInstanceExactlyWhen(refusing: bool, separate: bool)
    ensures (forall actions :: Allowed(refusing, separate, actions) ==> AtMostOne(Run(EMPTY, actions))) <==> refusing || separate
  {
    hide Run, Step, OverlappingCalls, CallsNeverOverlap, ServiceRefuses;
    if refusing || separate {
      forall actions | Allowed(refusing, separate, actions) ensures AtMostOne(Run(EMPTY, actions)) {
        if refusing { RefusalKeepsOne(EMPTY, actions); } else { SeparationKeepsOne(actions); }
      }
    } else {
      var c, d, name := Id("a"), Id("b"), Id("c");
      TwoInstancesHappen(c, d, c, "", c, name);
      var actions := OverlappingCalls(c, d, c, "", c, name) + [CreateInstance(c, Answered, false), CreateInstance(d, Answered, false)];
      assert Allowed(refusing, separate, actions) && Run(EMPTY, actions).instances[name] == 2;
    }
  }
}
