/** Provisioning as its caller runs it: reserve, ensure the instance, configure, synchronise; every failure is marked. */
module ProvisioningService {
  import opened Basics
  import opened ProvisioningGuarantees
  import opened ProvisioningInvariants
  import opened ProvisioningMachine
  import opened ProvisioningOutcomes

  class ChannelStore {
    var state: State

    /** Everything that happened so far. */
    ghost var script: seq<Action>

    ghost predicate Valid()
      reads this
    {
      state == Run(EMPTY, script)
    }

    constructor ()
      ensures Valid() && script == []
    {
      state := EMPTY;
      script := [];
    }

    method Do(a: Action)
      requires Valid()
      modifies this
      ensures Valid() && script == old(script) + [a] && state == Step(old(state), a)
    {
      RunSnoc(EMPTY, script, a);
      state := Step(state, a);
      script := script + [a];
    }

    /** While a call waits, everybody else may take any number of steps. */
    method Others(me: Id)
      requires Valid() && me in state.calls
      modifies this
      ensures Valid() && old(script) <= script
      ensures forall k :: |old(script)| <= k < |script| ==> !(IsCall(script[k]) && script[k].call == me)
      ensures me in state.calls && state.calls[me] == old(state.calls[me])
    {
      hide Step, Run;
      var steps: int :| 0 <= steps;
      for i := 0 to steps
        invariant Valid() && old(script) <= script
        invariant forall k :: |old(script)| <= k < |script| ==> !(IsCall(script[k]) && script[k].call == me)
        invariant me in state.calls && state.calls[me] == old(state.calls[me])
      {
        var a: Action := *;
        if !(IsCall(a) && a.call == me) {
          OthersKeepMyCall(state, a, me);
          Do(a);
        }
      }
    }
  }

  /** The transactions that a call has begun. */
  function BeginsOf(script: seq<Action>, c: Id): nat {
    if script == [] then 0
    else
      var last := script[|script| - 1];
      BeginsOf(script[..|script| - 1], c) + (if last.Begin? && last.call == c then 1 else 0)
  }

  lemma BeginsSnoc(script: seq<Action>, a: Action, c: Id)
    ensures BeginsOf(script + [a], c) == BeginsOf(script, c) + (if a.Begin? && a.call == c then 1 else 0)
  {
    assert (script + [a])[..|script|] == script;
  }

  lemma {:induction false} OthersBeginForThemselves(script: seq<Action>, longer: seq<Action>, c: Id)
    requires script <= longer
    requires forall k :: |script| <= k < |longer| ==> !(IsCall(longer[k]) && longer[k].call == c)
    ensures BeginsOf(longer, c) == BeginsOf(script, c)
    decreases |longer|
  {
    if |longer| > |script| {
      OthersBeginForThemselves(script, longer[..|longer| - 1], c);
    } else {
      assert longer == script;
    }
  }

  // ----- where the steps of a call lead

  lemma StartLeads(s: State, c: Id, companyId: Id, key: string)
    requires c !in s.calls
    ensures var t := Step(s, Start(c, companyId, key)); c in t.calls && t.calls[c] == Call(companyId, key, Reserving(1))
  {
  }

  lemma BeginLeads(s: State, call: Call, answered: bool, found: Option<Id>)
    requires call.phase.Reserving? && IsFor(s, found, call.companyId, call.key)
    ensures var move := BeginMove(s, call, answered, found);
      && move.Move?
      && (move.phase == Refused(ReservationUnavailable)
          || (move.phase.Deciding? && move.phase.attempt == call.phase.attempt && move.phase.view.existing == found))
  {
    hide IsFor, ChannelsOf, LimitOf;
  }

  /** Reserved, refused, on to the next attempt, or to a second look. */
  predicate AfterAttempt(phase: Phase, attempt: nat) {
    || phase.Inspecting? || (phase.Refused? && phase.why != ProvisioningUnavailable)
    || (phase.Reserving? && phase.attempt == attempt + 1 <= MAX_TRANSACTION_ATTEMPTS)
  }

  predicate MayCommit(s: State, call: Call, id: Id, name: Id)
    requires call.phase.Deciding?
  {
    call.phase.view.existing.Some?
    || (KeysFree(s, RowOf(call, id), name) && MaySerialize(s, call.phase.view.started, Reservation(call, RowOf(call, id))))
  }

  lemma CommitLeads(s: State, call: Call, ending: Ending, id: Id, name: Id)
    requires call.phase.Deciding? && (Commits(ending) ==> MayCommit(s, call, id, name))
    ensures var move := CommitMove(s, call, ending, id, name);
      move.Move? && (AfterAttempt(move.phase, call.phase.attempt) || move.phase == FindingAgain(call.phase.attempt))
  {
    hide KeysFree, MaySerialize;
  }

  lemma FindAgainLeads(s: State, call: Call, answered: bool, found: Option<Id>)
    requires call.phase.FindingAgain? && IsFor(s, found, call.companyId, call.key)
    ensures var move := FindAgainMove(s, call, answered, found);
      move.Move? && AfterAttempt(move.phase, call.phase.attempt)
  {
    hide IsFor;
  }

  lemma InspectLeads(s: State, call: Call, answered: bool)
    requires call.phase.Inspecting? || call.phase.InspectingAgain?
    ensures var move := InspectMove(s, call, answered);
      && move.Move? && move.effect == NoEffect
      && match move.phase
         case Configuring(channel) => channel == call.phase.channel && InstanceExists(s, channel)
         case MarkingError(channel) => true
         case CreatingInstance(channel) => call.phase.Inspecting? && channel == call.phase.channel
         case _ => false
  {
    hide InstanceExists;
  }

  lemma CreateLeads(s: State, call: Call, reply: Reply, refuses: bool)
    requires call.phase.CreatingInstance? && call.phase.channel in s.channels
    ensures var move := CreateInstanceMove(s, call, reply, refuses);
      && move.Move?
      && match move.phase
         case Configuring(channel) => channel == call.phase.channel && move.effect == InstanceMade(s.channels[channel].instanceName)
         case InspectingAgain(channel) => channel == call.phase.channel
         case _ => false
  {
    hide InstanceExists;
  }

  lemma SettlingLeads(s: State, call: Call, configured: Option<Snapshot>, reply: Reply)
    ensures call.phase.Configuring? ==>
      var move := ConfigureMove(call, configured);
      && move.Move?
      && (move.phase.MarkingError? || (configured.Some? && move.phase == Synchronizing(call.phase.channel, configured.value)))
    ensures call.phase.Synchronizing? ==>
      var move := SynchronizeMove(s, call, reply);
      move.Move? && (move.phase.MarkingError? || (reply == Answered && move.phase == Provisioned(call.phase.channel)))
    ensures call.phase.MarkingError? ==>
      var move := MarkErrorMove(s, call, reply); move.Move? && move.phase == Refused(ProvisioningUnavailable)
  {
    hide Observed, IsOfCompany;
  }

  /** After the inspection that found it, or the creation that made it, the instance is there. */
  lemma InstanceIsThere(s: State, a: Action)
    requires (a.Inspect? || a.CreateInstance?) && a.call in s.calls
    requires a.Inspect? ==> s.calls[a.call].phase.Inspecting? || s.calls[a.call].phase.InspectingAgain?
    requires a.CreateInstance? ==> s.calls[a.call].phase.CreatingInstance? && s.calls[a.call].phase.channel in s.channels
    ensures var t := Step(s, a);
      a.call in t.calls && (t.calls[a.call].phase.Configuring? ==> InstanceExists(t, t.calls[a.call].phase.channel))
  {
    hide InspectMove, CreateInstanceMove;
    var call := s.calls[a.call];
    MoveLeads(s, a);
    if a.Inspect? { InspectLeads(s, call, a.answered); } else { CreateLeads(s, call, a.reply, a.refuses); }
  }

  lemma CreatesForAChannel(actions: seq<Action>, c: Id)
    requires c in Run(EMPTY, actions).calls && Run(EMPTY, actions).calls[c].phase.CreatingInstance?
    ensures Run(EMPTY, actions).calls[c].phase.channel in Run(EMPTY, actions).channels
  {
    hide Run, ChannelsUnique, InstancesOk, LimitsOk, CommittedOk;
    EveryRunIsOk(actions);
    assert PhaseOk(Run(EMPTY, actions), Run(EMPTY, actions).calls[c]);
  }

  class MessagingChannelProvisioningService {
    const store: ChannelStore

    constructor (store: ChannelStore)
      ensures this.store == store
    {
      this.store := store;
    }

    predicate IsRunning(c: Id, companyId: Id, key: string)
      reads this, store
    {
      c in store.state.calls && store.state.calls[c].companyId == companyId && store.state.calls[c].key == key
    }

    function Phase(c: Id): Phase
      requires c in store.state.calls
      reads this, store
    {
      store.state.calls[c].phase
    }

    /**
     * One call. Success returns the channel of the key, whose instance was created and is there unless it was removed,
     * and whose row shows what the service reported last. A call that failed after its reservation marked the channel,
     * unless that write was lost; one that is refused for the limit met a company that had reached it.
     */
    method Provision(c: Id, companyId: Id, key: string) returns (r: Result<Id, Refusal>)
      requires store.Valid() && c !in store.state.calls
      modifies store
      ensures store.Valid() && old(store.script) <= store.script && IsRunning(c, companyId, key)
      ensures r.Err? ==> Phase(c) == Refused(r.error)
      ensures r.Ok? ==>
        && Phase(c) == Provisioned(r.value)
        && r.value in store.state.channels && HasKey(store.state.channels[r.value], companyId, key)
        && var name := store.state.channels[r.value].instanceName;
        && name in store.state.instancesCreated
        && (name in store.state.instances || name in store.state.instancesRemoved)
        && exists snapshot :: Configure(c, Some(snapshot)) in store.script[|old(store.script)|..] && Shows(r.value, snapshot)
      ensures r == Err(ProvisioningUnavailable) ==>
        && store.script != []
        && var last := store.script[|store.script| - 1];
        && last.MarkError? && last.call == c && (last.reply != LostBefore ==> IsMarked(companyId, key))
      ensures r == Err(LimitReached) ==> HadReachedLimit(c, companyId, key)
    {
      hide Step, Run, Shows, IsMarked, HadReachedLimit, InstanceExists, BeginsOf;
      StartLeads(store.state, c, companyId, key);
      store.Do(Start(c, companyId, key));
      ReserveChannel(c, companyId, key);
      if Phase(c).Refused? {
        if Phase(c).why == LimitReached { RefusedAtLimit(c, companyId, key); }
        return Err(Phase(c).why);
      }
      EnsureInstance(c, companyId, key);
      ghost var snapshot;
      if Phase(c).Configuring? { snapshot := SynchronizeChannel(c, companyId, key); }
      if Phase(c).MarkingError? {
        MarkProvisioningError(c, companyId, key);
        return Err(ProvisioningUnavailable);
      }
      ProvisionedMeansInstance(store.script, c);
      return Ok(Phase(c).channel);
    }

    /** The row of the channel is what the service reported. */
    predicate Shows(channel: Id, snapshot: Snapshot)
      reads this, store
    {
      && channel in store.state.channels
      && store.state.channels[channel].connection == snapshot.connection
      && (snapshot.connectedPhone.Some? ==> store.state.channels[channel].connectedPhone == snapshot.connectedPhone)
    }

    /** The channel of the key shows an error. */
    predicate IsMarked(companyId: Id, key: string)
      reads this, store
    {
      exists id :: id in store.state.channels && HasKey(store.state.channels[id], companyId, key)
                   && store.state.channels[id].connection == Error
    }

    /** At a moment of the call the company had no channel under the key, and as many as its limit. */
    ghost predicate HadReachedLimit(c: Id, companyId: Id, key: string)
      reads this, store
    {
      exists i, counted, limit ::
        SeenAt(store.script, i, companyId, counted, limit) && NoneAt(store.script, i, c, companyId, key) && limit <= |counted|
    }

    lemma RefusedAtLimit(c: Id, companyId: Id, key: string)
      requires store.Valid() && IsRunning(c, companyId, key) && Phase(c) == Refused(LimitReached)
      ensures HadReachedLimit(c, companyId, key)
    {
      hide Run, SeenAt, NoneAt;
      LimitRefusalsAreRight(store.script, c);
    }

    /** Ends with a channel or a refusal, after at most three transactions. */
    method ReserveChannel(c: Id, companyId: Id, key: string)
      requires store.Valid() && IsRunning(c, companyId, key) && Phase(c) == Reserving(1)
      modifies store
      ensures store.Valid() && old(store.script) <= store.script && IsRunning(c, companyId, key)
      ensures Phase(c).Inspecting? || (Phase(c).Refused? && Phase(c).why != ProvisioningUnavailable)
      ensures BeginsOf(old(store.script), c) < BeginsOf(store.script, c) <= BeginsOf(old(store.script), c) + 3
    {
      hide Step, Run, BeginsOf;
      var attempt := 1;
      while Phase(c).Reserving?
        invariant store.Valid() && old(store.script) <= store.script && IsRunning(c, companyId, key)
        invariant 1 <= attempt <= MAX_TRANSACTION_ATTEMPTS + 1 && AfterAttempt(Phase(c), attempt - 1)
        invariant BeginsOf(store.script, c) == BeginsOf(old(store.script), c) + attempt - 1
        invariant attempt == 1 ==> Phase(c).Reserving?
        decreases MAX_TRANSACTION_ATTEMPTS + 1 - attempt
      {
        Attempt(c, companyId, key);
        attempt := attempt + 1;
      }
    }

    /** One transaction, and a second look when it violated a unique key. */
    method Attempt(c: Id, companyId: Id, key: string)
      requires store.Valid() && IsRunning(c, companyId, key) && Phase(c).Reserving?
      modifies store
      ensures store.Valid() && old(store.script) <= store.script && IsRunning(c, companyId, key)
      ensures AfterAttempt(Phase(c), old(Phase(c).attempt))
      ensures BeginsOf(store.script, c) == BeginsOf(old(store.script), c) + 1
    {
      hide Step, Run, BeginsOf;
      BeginTransaction(c, companyId, key);
      if Phase(c).Deciding? { CommitTransaction(c, companyId, key); }
      if Phase(c).FindingAgain? { FindReserved(c, companyId, key); }
    }

    method BeginTransaction(c: Id, companyId: Id, key: string)
      requires store.Valid() && IsRunning(c, companyId, key) && Phase(c).Reserving?
      modifies store
      ensures store.Valid() && old(store.script) <= store.script && IsRunning(c, companyId, key)
      ensures Phase(c) == Refused(ReservationUnavailable) || (Phase(c).Deciding? && Phase(c).attempt == old(Phase(c).attempt))
      ensures BeginsOf(store.script, c) == BeginsOf(old(store.script), c) + 1
    {
      hide Step, Run, BeginsOf, BeginMove;
      Wait(c);
      var answered: bool := *;
      var found := FindByKey(companyId, key);
      BeginLeads(store.state, store.state.calls[c], answered, found);
      Take(Begin(c, answered, found));
    }

    method CommitTransaction(c: Id, companyId: Id, key: string)
      requires store.Valid() && IsRunning(c, companyId, key) && Phase(c).Deciding?
      modifies store
      ensures store.Valid() && old(store.script) <= store.script && IsRunning(c, companyId, key)
      ensures AfterAttempt(Phase(c), old(Phase(c).attempt)) || Phase(c) == FindingAgain(old(Phase(c).attempt))
      ensures BeginsOf(store.script, c) == BeginsOf(old(store.script), c)
    {
      hide Step, Run, BeginsOf, CommitMove, MayCommit, AfterAttempt, KeysFree;
      Wait(c);
      var id: Id, name: Id := *, *;
      var call := store.state.calls[c];
      assert !Commits(OtherError);
      var ending: Ending :| !Commits(ending) || MayCommit(store.state, call, id, name);  // the database decides
      CommitLeads(store.state, call, ending, id, name);
      Take(Commit(c, ending, id, name));
    }

    method FindReserved(c: Id, companyId: Id, key: string)
      requires store.Valid() && IsRunning(c, companyId, key) && Phase(c).FindingAgain?
      modifies store
      ensures store.Valid() && old(store.script) <= store.script && IsRunning(c, companyId, key)
      ensures AfterAttempt(Phase(c), old(Phase(c).attempt))
      ensures BeginsOf(store.script, c) == BeginsOf(old(store.script), c)
    {
      hide Step, Run, BeginsOf, FindAgainMove, AfterAttempt;
      Wait(c);
      var answered: bool := *;
      var found := FindByKey(companyId, key);
      FindAgainLeads(store.state, store.state.calls[c], answered, found);
      Take(FindAgain(c, answered, found));
    }

    /** Everybody else moves. */
    method Wait(c: Id)
      requires store.Valid() && c in store.state.calls
      modifies store
      ensures store.Valid() && old(store.script) <= store.script
      ensures c in store.state.calls && store.state.calls[c] == old(store.state.calls[c])
      ensures BeginsOf(store.script, c) == BeginsOf(old(store.script), c)
    {
      store.Others(c);
      OthersBeginForThemselves(old(store.script), store.script, c);
    }

    /** One step of a call. */
    method Take(a: Action)
      requires store.Valid() && IsCall(a) && !a.Start? && a.call in store.state.calls
      modifies store
      ensures store.Valid() && store.script == old(store.script) + [a] && store.state == Step(old(store.state), a)
      ensures a.call in store.state.calls
      ensures var move := old(MoveOf(store.state, store.state.calls[a.call], a));
        store.state.calls[a.call] == old(if move.Stay? then store.state.calls[a.call]
                                         else store.state.calls[a.call].(phase := move.phase))
      ensures BeginsOf(store.script, a.call) == BeginsOf(old(store.script), a.call) + (if a.Begin? then 1 else 0)
    {
      hide Step, Run, MoveOf;
      BeginsSnoc(store.script, a, a.call);
      MoveLeads(store.state, a);
      store.Do(a);
    }

    method FindByKey(companyId: Id, key: string) returns (found: Option<Id>)
      ensures IsFor(store.state, found, companyId, key)
    {
      if id: Id :| id in store.state.channels && HasKey(store.state.channels[id], companyId, key) { return Some(id); }
      return None;
    }

    /**
     * Inspects the name, creates the instance when there is none, and inspects again when that failed. Ends
     * with the instance seen or made, or with an error to be marked.
     */
    method EnsureInstance(c: Id, companyId: Id, key: string)
      requires store.Valid() && IsRunning(c, companyId, key) && Phase(c).Inspecting?
      modifies store
      ensures store.Valid() && old(store.script) <= store.script && IsRunning(c, companyId, key)
      ensures Phase(c).Configuring? || Phase(c).MarkingError?
      ensures Phase(c).Configuring? ==> InstanceExists(store.state, Phase(c).channel)
    {
      hide Step, Run, BeginsOf, InspectMove, CreateInstanceMove, InstanceExists;
      var inspected: bool, inspectedAgain: bool, reply: Reply, refuses: bool := *, *, *, *;
      Wait(c);
      InspectLeads(store.state, store.state.calls[c], inspected);
      InstanceIsThere(store.state, Inspect(c, inspected));
      Take(Inspect(c, inspected));
      if !Phase(c).CreatingInstance? { return; }
      Wait(c);
      CreatesForAChannel(store.script, c);
      CreateLeads(store.state, store.state.calls[c], reply, refuses);
      InstanceIsThere(store.state, CreateInstance(c, reply, refuses));
      Take(CreateInstance(c, reply, refuses));
      if !Phase(c).InspectingAgain? { return; }
      Wait(c);
      InspectLeads(store.state, store.state.calls[c], inspectedAgain);
      InstanceIsThere(store.state, Inspect(c, inspectedAgain));
      Take(Inspect(c, inspectedAgain));
    }

    /** Success writes what the configuration reported, and that is the last step. */
    method SynchronizeChannel(c: Id, companyId: Id, key: string) returns (ghost snapshot: Snapshot)
      requires store.Valid() && IsRunning(c, companyId, key) && Phase(c).Configuring?
      modifies store
      ensures store.Valid() && old(store.script) <= store.script && IsRunning(c, companyId, key)
      ensures Phase(c).Provisioned? || Phase(c).MarkingError?
      ensures Phase(c).Provisioned? ==>
        Configure(c, Some(snapshot)) in store.script[|old(store.script)|..] && Shows(Phase(c).channel, snapshot)
    {
      hide Step, Run, BeginsOf, ConfigureMove, SynchronizeMove, Reports;
      var configured: Option<Snapshot>, reply: Reply := *, *;
      snapshot := if configured.Some? then configured.value else Snapshot(UnknownState, None);
      Wait(c);
      SettlingLeads(store.state, store.state.calls[c], configured, reply);
      Take(Configure(c, configured));
      ghost var asked := store.script;
      assert asked[|asked| - 1] == Configure(c, configured);
      if Phase(c).Synchronizing? {
        Wait(c);
        SettlingLeads(store.state, store.state.calls[c], configured, reply);
        SynchronizedRow(store.script, c, reply);
        Take(Synchronize(c, reply));
      }
      assert Configure(c, configured) == store.script[|old(store.script)|..][|asked| - 1 - |old(store.script)|];
    }

    /** Leaves the mark of the failure, unless the write is lost. */
    method MarkProvisioningError(c: Id, companyId: Id, key: string)
      requires store.Valid() && IsRunning(c, companyId, key) && Phase(c).MarkingError?
      modifies store
      ensures store.Valid() && old(store.script) < store.script && IsRunning(c, companyId, key)
      ensures Phase(c) == Refused(ProvisioningUnavailable)
      ensures var last := store.script[|store.script| - 1];
        last.MarkError? && last.call == c && (last.reply != LostBefore ==> IsMarked(companyId, key))
    {
      hide Step, Run, BeginsOf, MarkErrorMove;
      var reply: Reply := *;
      Wait(c);
      SettlingLeads(store.state, store.state.calls[c], None, reply);
      MarkedRow(store.script, c, reply);
      Take(MarkError(c, reply));
    }
  }

  lemma SynchronizedRow(actions: seq<Action>, c: Id, reply: Reply)
    requires c in Run(EMPTY, actions).calls && Run(EMPTY, actions).calls[c].phase.Synchronizing?
    ensures var s, t := Run(EMPTY, actions), Step(Run(EMPTY, actions), Synchronize(c, reply));
      var Synchronizing(channel, snapshot) := s.calls[c].phase;
      reply != LostBefore ==>
        && channel in t.channels && t.channels[channel].connection == snapshot.connection
        && (snapshot.connectedPhone.Some? ==> t.channels[channel].connectedPhone == snapshot.connectedPhone)
  {
    hide Run, Step;
    WorkersHaveChannels(actions, c);
    ChannelsChangeOnlySo(actions, Synchronize(c, reply), Run(EMPTY, actions).calls[c].phase.channel);
  }

  lemma MarkedRow(actions: seq<Action>, c: Id, reply: Reply)
    requires c in Run(EMPTY, actions).calls && Run(EMPTY, actions).calls[c].phase.MarkingError?
    ensures var s, t := Run(EMPTY, actions), Step(Run(EMPTY, actions), MarkError(c, reply));
      var id := s.calls[c].phase.channel;
      reply != LostBefore ==>
        id in t.channels && HasKey(t.channels[id], s.calls[c].companyId, s.calls[c].key) && t.channels[id].connection == Error
  {
    hide Run, Step;
    WorkersHaveChannels(actions, c);
    ChannelsChangeOnlySo(actions, MarkError(c, reply), Run(EMPTY, actions).calls[c].phase.channel);
  }

  lemma WorkersHaveChannels(actions: seq<Action>, c: Id)
    requires c in Run(EMPTY, actions).calls
    requires Run(EMPTY, actions).calls[c].phase.Synchronizing? || Run(EMPTY, actions).calls[c].phase.MarkingError?
    ensures IsMine(Run(EMPTY, actions), Run(EMPTY, actions).calls[c], Run(EMPTY, actions).calls[c].phase.channel)
  {
    hide Run, ChannelsUnique, InstancesOk, LimitsOk, CommittedOk;
    EveryRunIsOk(actions);
    WorkersOwnTheirChannel(Run(EMPTY, actions), c, Run(EMPTY, actions).calls[c].phase.channel);
  }
}
