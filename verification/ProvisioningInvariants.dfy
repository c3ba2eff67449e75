/** What every step of provisioning keeps. */
module ProvisioningInvariants {
  import opened Basics
  import opened ProvisioningMachine

  /** A company has one channel for a key, and no two channels share an instance name. */
  ghost predicate ChannelsUnique(s: State) {
    forall a, b ::
      a in s.channels && b in s.channels
      && (HasKey(s.channels[a], s.channels[b].companyId, s.channels[b].key)
          || s.channels[a].instanceName == s.channels[b].instanceName)
      ==> a == b
  }

  ghost predicate IsNamed(s: State, name: Id) {
    exists id :: id in s.channels && s.channels[id].instanceName == name
  }

  /** Instances created are instances removed or still there, and all are named by channels. */
  ghost predicate InstancesOk(s: State) {
    forall name ::
      && s.instancesCreated[name] == s.instancesRemoved[name] + s.instances[name]
      && (name in s.instancesCreated ==> IsNamed(s, name))
  }

  ghost predicate LimitsOk(s: State) {
    forall companyId ::
      && 0 <= HighestOf(s, companyId) && LimitOf(s, companyId) <= HighestOf(s, companyId)
      && |ChannelsOf(s, companyId)| <= HighestOf(s, companyId)
  }

  /** A committed insertion is in the table, and its transaction had counted the channels of the company. */
  predicate TransactionOk(s: State, transaction: Transaction) {
    transaction.wrote.Some? ==>
      var row := transaction.wrote.value;
      && row.id in s.channels && HasKey(s.channels[row.id], row.companyId, row.key)
      && ChannelCount(row.companyId) in transaction.saw
  }

  predicate CommittedOk(s: State) { forall k :: 0 <= k < |s.committed| ==> TransactionOk(s, s.committed[k]) }

  /** The company's channels inserted by the transactions from position `started` on. */
  function InsertedSince(committed: seq<Transaction>, started: nat, companyId: Id): set<Id> {
    set k | started <= k < |committed| && committed[k].wrote.Some? && committed[k].wrote.value.companyId == companyId
      :: committed[k].wrote.value.id
  }

  /** All channels of the company are those counted and those inserted since. */
  predicate Counted(s: State, companyId: Id, view: View) {
    && view.started <= |s.committed|
    && ChannelsOf(s, companyId) == view.counted + InsertedSince(s.committed, view.started, companyId)
    && view.counted !! InsertedSince(s.committed, view.started, companyId)
  }

  predicate IsMine(s: State, call: Call, channel: Id) {
    channel in s.channels && HasKey(s.channels[channel], call.companyId, call.key)
  }

  predicate HadInstance(s: State, channel: Id) {
    channel in s.channels && s.channels[channel].instanceName in s.instancesCreated
  }

  predicate AttemptOk(attempt: nat) { 1 <= attempt <= MAX_TRANSACTION_ATTEMPTS }

  predicate PhaseOk(s: State, call: Call) {
    match call.phase
    case Reserving(attempt) => AttemptOk(attempt)
    case Deciding(attempt, view) =>
      && AttemptOk(attempt)
      && view.limit <= HighestOf(s, call.companyId)
      && Counted(s, call.companyId, view)
      && (view.existing.Some? ==> IsMine(s, call, view.existing.value))
    case FindingAgain(attempt) => AttemptOk(attempt)
    case Inspecting(channel) => IsMine(s, call, channel)
    case CreatingInstance(channel) => IsMine(s, call, channel)
    case InspectingAgain(channel) => IsMine(s, call, channel)
    case Configuring(channel) => IsMine(s, call, channel) && HadInstance(s, channel)
    case Synchronizing(channel, _) => IsMine(s, call, channel) && HadInstance(s, channel)
    case MarkingError(channel) => IsMine(s, call, channel)
    case Provisioned(channel) => IsMine(s, call, channel) && HadInstance(s, channel)
    case Refused(_) => true
    case Crashed => true
  }

  predicate CallsOk(s: State) { forall c :: c in s.calls ==> PhaseOk(s, s.calls[c]) }

  ghost predicate Inv(s: State) {
    ChannelsUnique(s) && InstancesOk(s) && LimitsOk(s) && CommittedOk(s) && CallsOk(s)
  }

  // ----- effects

  /** What an effect may be: an update keeps company, key, name and activity; an insertion is new and was counted for. */
  ghost predicate EffectOk(s: State, effect: Effect) {
    match effect
    case NoEffect => true
    case Recorded(transaction) => transaction.wrote == None
    case Reserved(row, instanceName, transaction) =>
      && KeysFree(s, row, instanceName)
      && transaction.wrote == Some(row) && ChannelCount(row.companyId) in transaction.saw
      && |ChannelsOf(s, row.companyId)| + 1 <= HighestOf(s, row.companyId)
    case Wrote(id, channel) =>
      && id in s.channels && HasKey(channel, s.channels[id].companyId, s.channels[id].key)
      && channel.instanceName == s.channels[id].instanceName
    case InstanceMade(name) => IsNamed(s, name)
  }

  /** No channel disappears or changes its company, key or instance name. */
  predicate ChannelsStay(s: State, t: State) {
    forall id :: id in s.channels ==>
      && id in t.channels && t.channels[id].companyId == s.channels[id].companyId
      && t.channels[id].key == s.channels[id].key && t.channels[id].instanceName == s.channels[id].instanceName
  }

  /** A company's new channels are those that committed transactions inserted meanwhile. */
  predicate Accounted(s: State, t: State, companyId: Id) {
    && s.committed <= t.committed
    && ChannelsOf(t, companyId) == ChannelsOf(s, companyId) + InsertedSince(t.committed, |s.committed|, companyId)
    && ChannelsOf(s, companyId) !! InsertedSince(t.committed, |s.committed|, companyId)
  }

  /** What a call relies on only grows. */
  ghost predicate Grows(s: State, t: State) {
    && ChannelsStay(s, t)
    && (forall companyId :: Accounted(s, t, companyId) && HighestOf(s, companyId) <= HighestOf(t, companyId))
    && (forall name :: name in s.instancesCreated ==> name in t.instancesCreated)
  }

  lemma NothingInserted(committed: seq<Transaction>, companyId: Id)
    ensures InsertedSince(committed, |committed|, companyId) == {}
  {
  }

  lemma InsertedSnoc(committed: seq<Transaction>, transaction: Transaction, started: nat, companyId: Id)
    requires started <= |committed|
    ensures InsertedSince(committed + [transaction], started, companyId)
         == InsertedSince(committed, started, companyId)
            + (if transaction.wrote.Some? && transaction.wrote.value.companyId == companyId then {transaction.wrote.value.id} else {})
  {
    var longer := committed + [transaction];
    forall id | id in InsertedSince(committed, started, companyId) ensures id in InsertedSince(longer, started, companyId) {
      var k :| started <= k < |committed| && committed[k].wrote.Some? && committed[k].wrote.value.companyId == companyId
               && committed[k].wrote.value.id == id;
      assert longer[k] == committed[k];
    }
    assert longer[|committed|] == transaction;
  }

  lemma InsertedSplit(committed: seq<Transaction>, longer: seq<Transaction>, started: nat, companyId: Id)
    requires committed <= longer && started <= |committed|
    ensures InsertedSince(longer, started, companyId)
         == InsertedSince(committed, started, companyId) + InsertedSince(longer, |committed|, companyId)
  {
    forall id | id in InsertedSince(committed, started, companyId) ensures id in InsertedSince(longer, started, companyId) {
      var k :| started <= k < |committed| && committed[k].wrote.Some? && committed[k].wrote.value.companyId == companyId
               && committed[k].wrote.value.id == id;
      assert longer[k] == committed[k];
    }
  }

  /** No effect: everything that calls rely on is as it was. */
  lemma SameTablesGrow(s: State, t: State)
    requires t.channels == s.channels && t.committed == s.committed
    requires forall companyId :: HighestOf(s, companyId) <= HighestOf(t, companyId)
    requires forall name :: name in s.instancesCreated ==> name in t.instancesCreated
    ensures Grows(s, t)
  {
    hide HighestOf;
    forall companyId ensures Accounted(s, t, companyId) {
      NothingInserted(s.committed, companyId);
      assert ChannelsOf(t, companyId) == ChannelsOf(s, companyId);
    }
  }

  lemma UpdateGrows(s: State, id: Id, channel: Channel)
    requires EffectOk(s, Wrote(id, channel))
    ensures Grows(s, ApplyEffect(s, Wrote(id, channel)))
  {
    var t := ApplyEffect(s, Wrote(id, channel));
    assert t.committed == s.committed && t.highest == s.highest;
    forall companyId ensures Accounted(s, t, companyId) {
      NothingInserted(s.committed, companyId);
      assert ChannelsOf(t, companyId) == ChannelsOf(s, companyId);
    }
  }

  lemma RecordingGrows(s: State, transaction: Transaction)
    requires transaction.wrote == None
    ensures Grows(s, ApplyEffect(s, Recorded(transaction)))
  {
    var t := ApplyEffect(s, Recorded(transaction));
    forall companyId ensures Accounted(s, t, companyId) {
      NothingInserted(s.committed, companyId);
      InsertedSnoc(s.committed, transaction, |s.committed|, companyId);
      assert ChannelsOf(t, companyId) == ChannelsOf(s, companyId);
    }
  }

  lemma ReservationIsCounted(s: State, effect: Effect, companyId: Id)
    requires effect.Reserved? && EffectOk(s, effect)
    ensures Accounted(s, ApplyEffect(s, effect), companyId)
  {
    NothingInserted(s.committed, companyId);
    InsertedSnoc(s.committed, effect.transaction, |s.committed|, companyId);
    ReservationAdds(s, effect, companyId);
    hide ChannelsOf, InsertedSince, KeysFree, HighestOf;
  }

  lemma ReservationGrows(s: State, effect: Effect)
    requires effect.Reserved? && EffectOk(s, effect)
    ensures Grows(s, ApplyEffect(s, effect))
  {
    forall companyId ensures Accounted(s, ApplyEffect(s, effect), companyId) { ReservationIsCounted(s, effect, companyId); }
    hide Accounted, ChannelsOf;
  }

  lemma ReservedChannelIsOfItsCompany(row: Insertion, instanceName: Id)
    ensures NewChannel(row, instanceName).companyId == row.companyId
  {
  }

  lemma ReservationAdds(s: State, effect: Effect, companyId: Id)
    requires effect.Reserved? && EffectOk(s, effect)
    ensures ChannelsOf(ApplyEffect(s, effect), companyId)
         == ChannelsOf(s, companyId) + (if effect.row.companyId == companyId then {effect.row.id} else {})
    ensures effect.row.id !in ChannelsOf(s, companyId)
  {
    hide HighestOf, HasKey, InsertedSince, NewChannel;
    ReservedChannelIsOfItsCompany(effect.row, effect.instanceName);
  }

  lemma EffectGrows(s: State, effect: Effect)
    requires EffectOk(s, effect)
    ensures Grows(s, ApplyEffect(s, effect))
  {
    hide Grows;
    match effect
    case NoEffect => SameTablesGrow(s, ApplyEffect(s, effect));
    case Recorded(transaction) => RecordingGrows(s, transaction);
    case Reserved(_, _, _) => ReservationGrows(s, effect);
    case Wrote(id, channel) => UpdateGrows(s, id, channel);
    case InstanceMade(_) => SameTablesGrow(s, ApplyEffect(s, effect));
  }

  // ----- what effects keep

  lemma EffectKeepsChannelsUnique(s: State, effect: Effect)
    requires ChannelsUnique(s) && EffectOk(s, effect)
    ensures ChannelsUnique(ApplyEffect(s, effect))
  {
    hide ChannelsOf, HighestOf;
  }

  lemma NamesStay(s: State, t: State, name: Id)
    requires ChannelsStay(s, t) && IsNamed(s, name)
    ensures IsNamed(t, name)
  {
    var id :| id in s.channels && s.channels[id].instanceName == name;
    assert t.channels[id].instanceName == name;
  }

  lemma EffectKeepsInstancesOk(s: State, effect: Effect)
    requires InstancesOk(s) && EffectOk(s, effect)
    ensures InstancesOk(ApplyEffect(s, effect))
  {
    hide IsNamed, KeysFree, HighestOf;
    var t := ApplyEffect(s, effect);
    EffectGrows(s, effect);
    forall name
      ensures t.instancesCreated[name] == t.instancesRemoved[name] + t.instances[name]
      ensures name in t.instancesCreated ==> IsNamed(t, name)
    {
      assert s.instancesCreated[name] == s.instancesRemoved[name] + s.instances[name];
      if IsNamed(s, name) { NamesStay(s, t, name); }
    }
  }

  lemma EffectKeepsLimitsOk(s: State, effect: Effect)
    requires LimitsOk(s) && EffectOk(s, effect)
    ensures LimitsOk(ApplyEffect(s, effect))
  {
    hide ChannelsOf, HighestOf, LimitOf, KeysFree;
    var t := ApplyEffect(s, effect);
    forall companyId
      ensures HighestOf(t, companyId) == HighestOf(s, companyId) && LimitOf(t, companyId) == LimitOf(s, companyId)
      ensures |ChannelsOf(t, companyId)| <= HighestOf(s, companyId)
    {
      EffectKeepsLimits(s, effect, companyId);
      EffectCounts(s, effect, companyId);
      assert |ChannelsOf(s, companyId)| <= HighestOf(s, companyId);
    }
  }

  lemma EffectKeepsLimits(s: State, effect: Effect, companyId: Id)
    ensures HighestOf(ApplyEffect(s, effect), companyId) == HighestOf(s, companyId)
    ensures LimitOf(ApplyEffect(s, effect), companyId) == LimitOf(s, companyId)
  {
  }

  lemma EffectCounts(s: State, effect: Effect, companyId: Id)
    requires EffectOk(s, effect)
    ensures |ChannelsOf(ApplyEffect(s, effect), companyId)|
         == |ChannelsOf(s, companyId)| + (if effect.Reserved? && effect.row.companyId == companyId then 1 else 0)
  {
    hide HighestOf, KeysFree;
    if effect.Reserved? {
      ReservationAdds(s, effect, companyId);
    } else {
      assert ChannelsOf(ApplyEffect(s, effect), companyId) == ChannelsOf(s, companyId);
    }
  }

  lemma TransactionStaysOk(s: State, t: State, transaction: Transaction)
    requires ChannelsStay(s, t) && TransactionOk(s, transaction)
    ensures TransactionOk(t, transaction)
  {
  }

  lemma EffectKeepsCommittedOk(s: State, effect: Effect)
    requires CommittedOk(s) && EffectOk(s, effect)
    ensures CommittedOk(ApplyEffect(s, effect))
  {
    hide KeysFree, HighestOf, ChannelsOf;
    var t := ApplyEffect(s, effect);
    EffectGrows(s, effect);
    forall k | 0 <= k < |t.committed| ensures TransactionOk(t, t.committed[k]) {
      if k < |s.committed| {
        assert t.committed[k] == s.committed[k];
        TransactionStaysOk(s, t, s.committed[k]);
      }
    }
  }

  lemma CountedStays(s: State, t: State, companyId: Id, view: View)
    requires Counted(s, companyId, view) && Accounted(s, t, companyId)
    ensures Counted(t, companyId, view)
  {
    hide InsertedSince, ChannelsOf;
    InsertedSplit(s.committed, t.committed, view.started, companyId);
  }

  lemma PhaseStays(s: State, t: State, call: Call)
    requires PhaseOk(s, call) && Grows(s, t)
    ensures PhaseOk(t, call)
  {
    hide Counted, Accounted, HighestOf;
    assert Accounted(s, t, call.companyId);
    if call.phase.Deciding? { CountedStays(s, t, call.companyId, call.phase.view); }
  }

  // ----- moves

  /** Every transaction since the snapshot that inserted a channel of the company conflicts with a reservation. */
  lemma InsertionsConflict(s: State, call: Call, view: View, row: Insertion, k: nat)
    requires CommittedOk(s) && k < |s.committed| && row.companyId == call.companyId
    requires s.committed[k].wrote.Some?
    ensures Conflict(Reservation(call, row), s.committed[k]) <==> s.committed[k].wrote.value.companyId == call.companyId
  {
    var mine, theirs := Reservation(call, row), s.committed[k];
    assert TransactionOk(s, theirs);
    if theirs.wrote.value.companyId == call.companyId {
      assert ChannelCount(call.companyId) in mine.saw && Covers(ChannelCount(call.companyId), theirs.wrote.value);
      assert ChannelCount(call.companyId) in theirs.saw && Covers(ChannelCount(call.companyId), row);
    }
  }

  lemma ReadersDoNotConflict(mine: Transaction, theirs: Transaction)
    requires theirs.wrote == None
    ensures !Conflict(mine, theirs)
  {
  }

  /** A reservation may commit, as far as conflicts go, exactly when it still counts all channels of its company. */
  lemma SerializableMeansCounted(s: State, call: Call, view: View, row: Insertion)
    requires CommittedOk(s) && Counted(s, call.companyId, view) && row.companyId == call.companyId
    ensures MaySerialize(s, view.started, Reservation(call, row)) <==> ChannelsOf(s, call.companyId) == view.counted
  {
    hide Conflict, ChannelsOf, TransactionOk, Reservation;
    var since := InsertedSince(s.committed, view.started, call.companyId);
    forall k: nat | view.started <= k < |s.committed|
      ensures Conflict(Reservation(call, row), s.committed[k])
          <==> s.committed[k].wrote.Some? && s.committed[k].wrote.value.companyId == call.companyId
      ensures Conflict(Reservation(call, row), s.committed[k]) ==> s.committed[k].wrote.value.id in since
    {
      if s.committed[k].wrote == None { ReadersDoNotConflict(Reservation(call, row), s.committed[k]); }
      else { InsertionsConflict(s, call, view, row, k); }
    }
    if id :| id in since {
      assert id in ChannelsOf(s, call.companyId) && id !in view.counted;
      var k: nat :| view.started <= k < |s.committed| && s.committed[k].wrote.Some?
                    && s.committed[k].wrote.value.companyId == call.companyId && s.committed[k].wrote.value.id == id;
      assert Conflict(Reservation(call, row), s.committed[k]);
    } else {
      assert since == {};
    }
  }

  lemma ReservationIsOk(s: State, call: Call, ending: Ending, id: Id, instanceName: Id)
    requires CommittedOk(s) && PhaseOk(s, call)
    requires CommitMove(s, call, ending, id, instanceName).Move? && CommitMove(s, call, ending, id, instanceName).effect.Reserved?
    ensures EffectOk(s, CommitMove(s, call, ending, id, instanceName).effect)
    ensures ChannelsOf(s, call.companyId) == call.phase.view.counted
  {
    hide MaySerialize, KeysFree, ChannelsOf, HighestOf, CommittedOk, Counted;
    SerializableMeansCounted(s, call, call.phase.view, RowOf(call, id));
  }

  lemma CommitEffectIsOk(s: State, call: Call, ending: Ending, id: Id, instanceName: Id)
    requires CommittedOk(s) && PhaseOk(s, call)
    ensures var move := CommitMove(s, call, ending, id, instanceName); move.Move? ==> EffectOk(s, move.effect)
  {
    hide MaySerialize, KeysFree, ChannelsOf, HighestOf, CommittedOk, Counted;
    var move := CommitMove(s, call, ending, id, instanceName);
    if move.Move? && move.effect.Reserved? { ReservationIsOk(s, call, ending, id, instanceName); }
  }

  lemma CreateEffectIsOk(s: State, call: Call, reply: Reply, refuses: bool)
    ensures var move := CreateInstanceMove(s, call, reply, refuses); move.Move? ==> EffectOk(s, move.effect)
  {
    hide InstanceExists;
  }

  lemma SettlingEffectsAreOk(s: State, call: Call, reply: Reply)
    ensures SynchronizeMove(s, call, reply).Move? ==> EffectOk(s, SynchronizeMove(s, call, reply).effect)
    ensures MarkErrorMove(s, call, reply).Move? ==> EffectOk(s, MarkErrorMove(s, call, reply).effect)
  {
  }

  lemma QuietEffects(s: State, call: Call, a: Action)
    requires a.Begin? || a.FindAgain? || a.Inspect? || a.Configure? || a.Crash?
    ensures MoveOf(s, call, a).Move? ==> MoveOf(s, call, a).effect == NoEffect
  {
    hide IsFor, InstanceExists, ChannelsOf, LimitOf;
  }

  lemma MoveEffectIsOk(s: State, call: Call, a: Action)
    requires IsCall(a) && CommittedOk(s) && PhaseOk(s, call)
    ensures MoveOf(s, call, a).Move? ==> EffectOk(s, MoveOf(s, call, a).effect)
  {
    hide EffectOk, CommitMove, CreateInstanceMove, SynchronizeMove, MarkErrorMove, PhaseOk, CommittedOk;
    match a
    case Commit(_, ending, id, instanceName) => CommitEffectIsOk(s, call, ending, id, instanceName);
    case CreateInstance(_, reply, refuses) => CreateEffectIsOk(s, call, reply, refuses);
    case Synchronize(_, reply) => SettlingEffectsAreOk(s, call, reply);
    case MarkError(_, reply) => SettlingEffectsAreOk(s, call, reply);
    case Start(_, _, _) =>
    case _ =>
      QuietEffects(s, call, a);
      NoEffectIsOk(s);
  }

  lemma NoEffectIsOk(s: State)
    ensures EffectOk(s, NoEffect)
  {
  }

  /** The next phase fits the tables after the effect. */
  ghost predicate MoveOk(s: State, call: Call, move: Move) {
    move.Move? ==> PhaseOk(ApplyEffect(s, move.effect), call.(phase := move.phase))
  }

  lemma BeginIsOk(s: State, call: Call, answered: bool, found: Option<Id>)
    requires PhaseOk(s, call) && LimitsOk(s)
    ensures MoveOk(s, call, BeginMove(s, call, answered, found))
  {
    hide HighestOf, LimitOf, ChannelsOf;
    NothingInserted(s.committed, call.companyId);
    assert LimitOf(s, call.companyId) <= HighestOf(s, call.companyId);
  }

  lemma CommitIsOk(s: State, call: Call, ending: Ending, id: Id, instanceName: Id)
    requires PhaseOk(s, call)
    ensures MoveOk(s, call, CommitMove(s, call, ending, id, instanceName))
  {
    hide MaySerialize, KeysFree, ChannelsOf, HighestOf, Counted;
  }

  lemma FindAgainIsOk(s: State, call: Call, answered: bool, found: Option<Id>)
    requires PhaseOk(s, call)
    ensures MoveOk(s, call, FindAgainMove(s, call, answered, found))
  {
    hide HighestOf, ChannelsOf, Counted;
  }

  lemma ExistingWereCreated(s: State, channel: Id)
    requires InstancesOk(s) && InstanceExists(s, channel)
    ensures HadInstance(s, channel)
  {
    var name := s.channels[channel].instanceName;
    assert s.instancesCreated[name] == s.instancesRemoved[name] + s.instances[name];
  }

  lemma InspectIsOk(s: State, call: Call, answered: bool)
    requires PhaseOk(s, call) && InstancesOk(s)
    ensures MoveOk(s, call, InspectMove(s, call, answered))
  {
    hide InstancesOk, HadInstance, InstanceExists, HighestOf, Counted;
    if call.phase.Inspecting? || call.phase.InspectingAgain? {
      if InstanceExists(s, call.phase.channel) { ExistingWereCreated(s, call.phase.channel); }
    }
  }

  lemma CreateIsOk(s: State, call: Call, reply: Reply, refuses: bool)
    requires PhaseOk(s, call)
    ensures MoveOk(s, call, CreateInstanceMove(s, call, reply, refuses))
  {
    hide InstanceExists, HighestOf, Counted;
  }

  lemma SettlingIsOk(s: State, call: Call, configured: Option<Snapshot>, reply: Reply)
    requires PhaseOk(s, call)
    ensures MoveOk(s, call, ConfigureMove(call, configured))
    ensures MoveOk(s, call, SynchronizeMove(s, call, reply))
    ensures MoveOk(s, call, MarkErrorMove(s, call, reply))
  {
    hide HighestOf, Counted;
  }

  lemma MovesAreOk(s: State, call: Call, a: Action)
    requires IsCall(a) && Inv(s) && PhaseOk(s, call)
    ensures MoveOk(s, call, MoveOf(s, call, a))
  {
    hide MoveOk, BeginMove, CommitMove, FindAgainMove, InspectMove, CreateInstanceMove, ConfigureMove, SynchronizeMove, MarkErrorMove;
    match a
    case Begin(_, answered, found) => BeginIsOk(s, call, answered, found);
    case Commit(_, ending, id, instanceName) => CommitIsOk(s, call, ending, id, instanceName);
    case FindAgain(_, answered, found) => FindAgainIsOk(s, call, answered, found);
    case Inspect(_, answered) => InspectIsOk(s, call, answered);
    case CreateInstance(_, reply, refuses) => CreateIsOk(s, call, reply, refuses);
    case Configure(_, configured) => SettlingIsOk(s, call, configured, Answered);
    case Synchronize(_, reply) => SettlingIsOk(s, call, None, reply);
    case MarkError(_, reply) => SettlingIsOk(s, call, None, reply);
    case _ => CrashIsOk(s, call);
  }

  lemma CrashIsOk(s: State, call: Call)
    ensures MoveOk(s, call, To(Crashed)) && MoveOk(s, call, Stay)
  {
  }

  // ----- steps

  lemma CountsIgnoreCalls(s: State, t: State, companyId: Id)
    requires t == s.(calls := t.calls)
    ensures ChannelsOf(t, companyId) == ChannelsOf(s, companyId)
    ensures HighestOf(t, companyId) == HighestOf(s, companyId) && LimitOf(t, companyId) == LimitOf(s, companyId)
  {
  }

  lemma NamesIgnoreCalls(s: State, t: State, name: Id)
    requires t == s.(calls := t.calls)
    ensures IsNamed(t, name) <==> IsNamed(s, name)
  {
    if IsNamed(s, name) {
      var id :| id in s.channels && s.channels[id].instanceName == name;
      assert id in t.channels && t.channels[id].instanceName == name;
    }
  }

  lemma PhasesIgnoreCalls(s: State, t: State, call: Call)
    requires t == s.(calls := t.calls) && PhaseOk(s, call)
    ensures PhaseOk(t, call)
  {
    hide ChannelsOf, HighestOf, InsertedSince;
    CountsIgnoreCalls(s, t, call.companyId);
  }

  /** The tables do not depend on where the calls are. */
  lemma TablesIgnoreCalls(s: State, t: State)
    requires t == s.(calls := t.calls)
    requires ChannelsUnique(s) && InstancesOk(s) && LimitsOk(s) && CommittedOk(s)
    ensures ChannelsUnique(t) && InstancesOk(t) && LimitsOk(t) && CommittedOk(t)
  {
    hide ChannelsOf, HighestOf, LimitOf, IsNamed;
    forall companyId
      ensures 0 <= HighestOf(t, companyId) && LimitOf(t, companyId) <= HighestOf(t, companyId)
      ensures |ChannelsOf(t, companyId)| <= HighestOf(t, companyId)
    {
      CountsIgnoreCalls(s, t, companyId);
      assert |ChannelsOf(s, companyId)| <= HighestOf(s, companyId);
    }
    forall name
      ensures t.instancesCreated[name] == t.instancesRemoved[name] + t.instances[name]
      ensures name in t.instancesCreated ==> IsNamed(t, name)
    {
      NamesIgnoreCalls(s, t, name);
      assert s.instancesCreated[name] == s.instancesRemoved[name] + s.instances[name];
    }
    forall k | 0 <= k < |t.committed| ensures TransactionOk(t, t.committed[k]) {
      assert TransactionOk(s, s.committed[k]);
    }
  }

  lemma EffectLeavesCalls(s: State, effect: Effect)
    ensures ApplyEffect(s, effect).calls == s.calls
  {
  }

  lemma EffectKeepsTables(s: State, effect: Effect)
    requires ChannelsUnique(s) && InstancesOk(s) && LimitsOk(s) && CommittedOk(s) && EffectOk(s, effect)
    ensures var t := ApplyEffect(s, effect);
      ChannelsUnique(t) && InstancesOk(t) && LimitsOk(t) && CommittedOk(t)
  {
    hide ChannelsUnique, InstancesOk, LimitsOk, CommittedOk, EffectOk, ApplyEffect;
    EffectKeepsChannelsUnique(s, effect);
    EffectKeepsInstancesOk(s, effect);
    EffectKeepsLimitsOk(s, effect);
    EffectKeepsCommittedOk(s, effect);
  }

  lemma MoveKeepsInv(s: State, c: Id, move: Move)
    requires Inv(s) && c in s.calls
    requires move.Move? ==> EffectOk(s, move.effect) && MoveOk(s, s.calls[c], move)
    ensures Inv(MakeMove(s, c, move))
  {
    hide ChannelsUnique, InstancesOk, LimitsOk, CommittedOk, EffectOk, ApplyEffect, PhaseOk;
    if move.Move? {
      var mid := ApplyEffect(s, move.effect);
      EffectKeepsTables(s, move.effect);
      EffectGrows(s, move.effect);
      EffectLeavesCalls(s, move.effect);
      var t := Go(mid, c, move.phase);
      TablesIgnoreCalls(mid, t);
      forall d | d in t.calls ensures PhaseOk(t, t.calls[d]) {
        if d != c { PhaseStays(s, mid, s.calls[d]); }
        PhasesIgnoreCalls(mid, t, t.calls[d]);
      }
    }
  }

  lemma StartKeepsInv(s: State, c: Id, companyId: Id, key: string)
    requires Inv(s)
    ensures Inv(StartStep(s, c, companyId, key))
  {
    hide ChannelsUnique, InstancesOk, LimitsOk, CommittedOk;
    hide PhaseOk;
    var t := StartStep(s, c, companyId, key);
    TablesIgnoreCalls(s, t);
    forall d | d in t.calls ensures PhaseOk(t, t.calls[d]) {
      if d in s.calls { PhasesIgnoreCalls(s, t, t.calls[d]); } else { FirstAttemptIsOk(t, t.calls[d]); }
    }
  }

  lemma FirstAttemptIsOk(s: State, call: Call)
    requires call.phase == Reserving(1)
    ensures PhaseOk(s, call)
  {
  }

  /** When the tables are in order and only grow, every call may go on. */
  lemma GrowingKeepsInv(s: State, t: State)
    requires Inv(s) && t.calls == s.calls && Grows(s, t)
    requires ChannelsUnique(t) && InstancesOk(t) && LimitsOk(t) && CommittedOk(t)
    ensures Inv(t)
  {
    hide ChannelsUnique, InstancesOk, LimitsOk, CommittedOk, PhaseOk, Grows;
    forall c | c in t.calls ensures PhaseOk(t, t.calls[c]) { PhaseStays(s, t, s.calls[c]); }
  }

  lemma UpdateKeepsInv(s: State, id: Id, channel: Channel)
    requires Inv(s) && EffectOk(s, Wrote(id, channel))
    ensures Inv(UpdateStep(s, id, channel))
  {
    hide Inv, EffectOk, Grows;
    TablesOfInv(s);
    EffectKeepsTables(s, Wrote(id, channel));
    EffectGrows(s, Wrote(id, channel));
    GrowingKeepsInv(s, UpdateStep(s, id, channel));
  }

  lemma TablesOfInv(s: State)
    requires Inv(s)
    ensures ChannelsUnique(s) && InstancesOk(s) && LimitsOk(s) && CommittedOk(s)
  {
  }

  /** Channels and transactions are untouched. */
  lemma OtherTablesKeepTables(s: State, t: State)
    requires t.channels == s.channels && t.committed == s.committed && ChannelsUnique(s) && CommittedOk(s)
    ensures ChannelsUnique(t) && CommittedOk(t)
    ensures forall companyId :: ChannelsOf(t, companyId) == ChannelsOf(s, companyId)
    ensures forall name :: IsNamed(t, name) <==> IsNamed(s, name)
  {
    assert forall transaction :: TransactionOk(s, transaction) ==> TransactionOk(t, transaction);
    assert forall companyId :: ChannelsOf(t, companyId) == ChannelsOf(s, companyId);
  }

  lemma RemovalFrame(s: State, name: Id)
    ensures var t := RemoveInstanceStep(s, name);
      && t.channels == s.channels && t.committed == s.committed && t.calls == s.calls
      && t.limits == s.limits && t.highest == s.highest && t.instancesCreated == s.instancesCreated
      && forall n :: t.instancesRemoved[n] + t.instances[n] == s.instancesRemoved[n] + s.instances[n]
  {
    if name in s.instances { forall n { OneMoves(s.instancesRemoved, s.instances, name, n); } }
  }

  lemma OneMoves(a: multiset<Id>, b: multiset<Id>, name: Id, n: Id)
    requires name in b
    ensures (a + multiset{name})[n] + (b - multiset{name})[n] == a[n] + b[n]
  {
    if n == name {
      assert (a + multiset{name})[n] == a[n] + 1 && (b - multiset{name})[n] == b[n] - 1;
    } else {
      assert (a + multiset{name})[n] == a[n] && (b - multiset{name})[n] == b[n];
    }
  }

  lemma RemovalBalances(s: State, t: State)
    requires InstancesOk(s)
    requires t.instancesCreated == s.instancesCreated && forall name :: IsNamed(t, name) <==> IsNamed(s, name)
    requires forall n :: t.instancesRemoved[n] + t.instances[n] == s.instancesRemoved[n] + s.instances[n]
    ensures InstancesOk(t)
  {
    hide IsNamed;
    forall n
      ensures t.instancesCreated[n] == t.instancesRemoved[n] + t.instances[n]
      ensures n in t.instancesCreated ==> IsNamed(t, n)
    {
      assert s.instancesCreated[n] == s.instancesRemoved[n] + s.instances[n];
    }
  }

  /** Limits are in order when they only rose and the channels are the same. */
  lemma LimitsStayOk(s: State, t: State)
    requires LimitsOk(s)
    requires forall companyId :: ChannelsOf(t, companyId) == ChannelsOf(s, companyId)
    requires forall companyId :: HighestOf(s, companyId) <= HighestOf(t, companyId) && LimitOf(t, companyId) <= HighestOf(t, companyId)
    ensures LimitsOk(t)
  {
    hide ChannelsOf, HighestOf, LimitOf;
    forall companyId
      ensures 0 <= HighestOf(t, companyId) && LimitOf(t, companyId) <= HighestOf(t, companyId)
      ensures |ChannelsOf(t, companyId)| <= HighestOf(t, companyId)
    {
      assert |ChannelsOf(s, companyId)| <= HighestOf(s, companyId);
    }
  }

  lemma RemovalKeepsInv(s: State, name: Id)
    requires Inv(s)
    ensures Inv(RemoveInstanceStep(s, name))
  {
    hide ChannelsUnique, CommittedOk, CallsOk, InstancesOk, LimitsOk, Grows, ChannelsOf, HighestOf, LimitOf, IsNamed,
      RemoveInstanceStep;
    var t := RemoveInstanceStep(s, name);
    RemovalFrame(s, name);
    OtherTablesKeepTables(s, t);
    SameLimits(s, t);
    RemovalBalances(s, t);
    LimitsBounded(s);
    LimitsStayOk(s, t);
    SameTablesGrow(s, t);
    GrowingKeepsInv(s, t);
  }

  lemma LimitsBounded(s: State)
    requires LimitsOk(s)
    ensures forall companyId :: LimitOf(s, companyId) <= HighestOf(s, companyId)
  {
    hide ChannelsOf, HighestOf, LimitOf;
    forall companyId ensures LimitOf(s, companyId) <= HighestOf(s, companyId) {
      assert |ChannelsOf(s, companyId)| <= HighestOf(s, companyId);
    }
  }

  lemma SameLimits(s: State, t: State)
    requires t.highest == s.highest && t.limits == s.limits
    ensures forall companyId :: HighestOf(t, companyId) == HighestOf(s, companyId) && LimitOf(t, companyId) == LimitOf(s, companyId)
  {
  }

  lemma LimitsMove(s: State, companyId: Id, limit: Option<int>)
    requires LimitsOk(s)
    ensures var t := SetLimitStep(s, companyId, limit);
      forall other :: HighestOf(s, other) <= HighestOf(t, other) && LimitOf(t, other) <= HighestOf(t, other)
  {
    hide ChannelsOf;
    forall other ensures LimitOf(s, other) <= HighestOf(s, other) && 0 <= HighestOf(s, other) {
      assert |ChannelsOf(s, other)| <= HighestOf(s, other);
    }
  }

  lemma SameInstances(s: State, t: State)
    requires t.instances == s.instances && t.instancesCreated == s.instancesCreated && t.instancesRemoved == s.instancesRemoved
    requires InstancesOk(s) && forall name :: IsNamed(t, name) <==> IsNamed(s, name)
    ensures InstancesOk(t)
  {
    hide IsNamed;
    forall n
      ensures t.instancesCreated[n] == t.instancesRemoved[n] + t.instances[n]
      ensures n in t.instancesCreated ==> IsNamed(t, n)
    {
      assert s.instancesCreated[n] == s.instancesRemoved[n] + s.instances[n];
    }
  }

  lemma LimitKeepsInv(s: State, companyId: Id, limit: Option<int>)
    requires Inv(s)
    ensures Inv(SetLimitStep(s, companyId, limit))
  {
    hide ChannelsUnique, CommittedOk, CallsOk, InstancesOk, LimitsOk, Grows, ChannelsOf, HighestOf, LimitOf, IsNamed;
    var t := SetLimitStep(s, companyId, limit);
    OtherTablesKeepTables(s, t);
    LimitsMove(s, companyId, limit);
    SameInstances(s, t);
    LimitsStayOk(s, t);
    SameTablesGrow(s, t);
    GrowingKeepsInv(s, t);
  }

  lemma OtherStepKeepsInv(s: State, a: Action)
    requires Inv(s) && !IsCall(a)
    ensures Inv(OtherStep(s, a))
  {
    hide Inv, SetLimitStep, RemoveInstanceStep, UpdateStep;
    match a
    case SetLimit(companyId, limit) => LimitKeepsInv(s, companyId, limit);
    case SetActive(channel, isActive) =>
      if channel in s.channels { UpdateKeepsInv(s, channel, s.channels[channel].(isActive := isActive)); }
    case Observe(channel, snapshot) =>
      if channel in s.channels { UpdateKeepsInv(s, channel, Observed(s.channels[channel], snapshot)); }
    case RemoveInstance(name) => RemovalKeepsInv(s, name);
  }

  lemma CallStepKeepsInv(s: State, a: Action)
    requires Inv(s) && IsCall(a) && a.call in s.calls
    ensures Inv(MakeMove(s, a.call, MoveOf(s, s.calls[a.call], a)))
  {
    hide ChannelsUnique, InstancesOk, LimitsOk, CommittedOk, MoveOf, MakeMove, PhaseOk, MoveOk, EffectOk;
    var call := s.calls[a.call];
    assert PhaseOk(s, call);
    MoveEffectIsOk(s, call, a);
    MovesAreOk(s, call, a);
    MoveKeepsInv(s, a.call, MoveOf(s, call, a));
  }

  lemma StepKeepsInv(s: State, a: Action)
    requires Inv(s)
    ensures Inv(Step(s, a))
  {
    hide Inv, OtherStep, MakeMove, MoveOf, StartStep;
    if !IsCall(a) {
      OtherStepKeepsInv(s, a);
    } else if a.Start? {
      StartKeepsInv(s, a.call, a.companyId, a.key);
    } else if a.call in s.calls {
      CallStepKeepsInv(s, a);
    }
  }

  lemma {:induction false} RunKeepsInv(s: State, actions: seq<Action>)
    requires Inv(s)
    ensures Inv(Run(s, actions))
    decreases actions
  {
    hide Step, Inv;
    if actions != [] {
      StepKeepsInv(s, actions[0]);
      RunKeepsInv(Step(s, actions[0]), actions[1..]);
    }
  }

  /** Every run keeps the invariant, wherever the calls fail. */
  lemma EveryRunIsOk(actions: seq<Action>)
    ensures Inv(Run(EMPTY, actions))
  {
    hide Run, Step;
    forall companyId ensures ChannelsOf(EMPTY, companyId) == {} {}
    RunKeepsInv(EMPTY, actions);
  }
}
