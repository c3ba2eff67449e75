/**
 * Provisioning a channel: a serializable transaction that reserves it under the company's limit, an external
 * instance created under the reserved name, and updates of the row. Calls run concurrently, may fail at
 * every point, and are resumed by calling again with the same key.
 */
module ProvisioningMachine {
  import opened Basics

  datatype Connection = UnknownState | Provisioning | WaitingQr | Connected | Disconnected | Error

  datatype Channel = Channel(companyId: Id, key: string, instanceName: Id, isActive: bool, connection: Connection,
                             connectedPhone: Option<string>)

  /** What the external service reports about an instance. */
  datatype Snapshot = Snapshot(connection: Connection, connectedPhone: Option<string>)

  // ----- transactions

  /** What a transaction read: a row by its key, a limit, or all channels of a company to count them. */
  datatype Read = ChannelOfKey(companyId: Id, key: string) | LimitRow(companyId: Id) | ChannelCount(companyId: Id)

  datatype Insertion = Insertion(id: Id, companyId: Id, key: string)

  datatype Transaction = Transaction(saw: set<Read>, wrote: Option<Insertion>)

  /**
   * What a transaction saw in its snapshot: how many had committed then, the channel of the key, the limit, and
   * the channels that it counted.
   */
  datatype View = View(started: nat, existing: Option<Id>, limit: int, counted: set<Id>)

  predicate Covers(read: Read, row: Insertion) {
    match read
    case ChannelOfKey(companyId, key) => row.companyId == companyId && row.key == key
    case LimitRow(_) => false
    case ChannelCount(companyId) => row.companyId == companyId
  }

  predicate WritesInto(writer: Transaction, reader: Transaction) {
    writer.wrote.Some? && exists read :: read in reader.saw && Covers(read, writer.wrote.value)
  }

  /** Each of two concurrent transactions wrote what the other had read: no order of the two explains both. */
  predicate Conflict(a: Transaction, b: Transaction) { WritesInto(a, b) && WritesInto(b, a) }

  /** How a transaction ends: committed, committed with the answer lost, or rolled back for one of three reasons. */
  datatype Ending = Committed | CommittedUnheard | SerializationFailure | UniqueViolation | OtherError

  predicate Commits(ending: Ending) { ending == Committed || ending == CommittedUnheard }

  // ----- the state

  datatype Refusal = LimitReached | ReservationUnavailable | LookupFailed | ProvisioningUnavailable

  datatype Phase =
    | Reserving(attempt: nat)
    | Deciding(attempt: nat, view: View)
    | FindingAgain(attempt: nat)
    | Inspecting(channel: Id)
    | CreatingInstance(channel: Id)
    | InspectingAgain(channel: Id)
    | Configuring(channel: Id)
    | Synchronizing(channel: Id, snapshot: Snapshot)
    | MarkingError(channel: Id)
    | Provisioned(channel: Id)
    | Refused(why: Refusal)
    | Crashed

  datatype Call = Call(companyId: Id, key: string, phase: Phase)

  /** `instances` are those of the external service, by name; nothing here says that a name has only one. */
  datatype State = State(
    channels: map<Id, Channel>,
    limits: map<Id, int>,
    instances: multiset<Id>,
    calls: map<Id, Call>,
    // histories
    committed: seq<Transaction>,
    highest: map<Id, int>,
    instancesCreated: multiset<Id>,
    instancesRemoved: multiset<Id>)

  const EMPTY := State(map[], map[], multiset{}, map[], [], map[], multiset{}, multiset{})

  const MAX_TRANSACTION_ATTEMPTS := 3

  /** `refuses`: whether the external service refuses to create an instance under a name that exists. */
  datatype Action =
    | Start(call: Id, companyId: Id, key: string)
    | Begin(call: Id, answered: bool, found: Option<Id>)
    | Commit(call: Id, ending: Ending, id: Id, instanceName: Id)
    | FindAgain(call: Id, answered: bool, found: Option<Id>)
    | Inspect(call: Id, answered: bool)
    | CreateInstance(call: Id, reply: Reply, refuses: bool)
    | Configure(call: Id, configured: Option<Snapshot>)
    | Synchronize(call: Id, reply: Reply)
    | MarkError(call: Id, reply: Reply)
    | Crash(call: Id)
    // everybody else
    | SetLimit(companyId: Id, limit: Option<int>)
    | SetActive(channel: Id, isActive: bool)
    | Observe(channel: Id, snapshot: Snapshot)
    | RemoveInstance(name: Id)

  predicate IsCall(a: Action) {
    a.Start? || a.Begin? || a.Commit? || a.FindAgain? || a.Inspect? || a.CreateInstance? || a.Configure? || a.Synchronize?
    || a.MarkError? || a.Crash?
  }

  function ChannelsOf(s: State, companyId: Id): set<Id> {
    set id | id in s.channels && s.channels[id].companyId == companyId
  }

  predicate HasKey(channel: Channel, companyId: Id, key: string) { channel.companyId == companyId && channel.key == key }

  predicate IsFor(s: State, found: Option<Id>, companyId: Id, key: string) {
    match found
    case Some(id) => id in s.channels && HasKey(s.channels[id], companyId, key)
    case None => forall id :: id in s.channels ==> !HasKey(s.channels[id], companyId, key)
  }

  function LimitOf(s: State, companyId: Id): int { if companyId in s.limits then s.limits[companyId] else 0 }

  /** The two unique keys of the table, and its primary key. */
  predicate KeysFree(s: State, row: Insertion, instanceName: Id) {
    && row.id !in s.channels
    && forall id :: id in s.channels ==>
         !HasKey(s.channels[id], row.companyId, row.key) && s.channels[id].instanceName != instanceName
  }

  /** No transaction that committed after the snapshot conflicts. */
  predicate MaySerialize(s: State, started: nat, mine: Transaction) {
    forall k :: started <= k < |s.committed| ==> !Conflict(mine, s.committed[k])
  }

  // ----- what a call does next: its phase afterwards, and an effect on the tables or the external service

  datatype Effect =
    | NoEffect
    | Recorded(transaction: Transaction)
    | Reserved(row: Insertion, instanceName: Id, transaction: Transaction)
    | Wrote(id: Id, channel: Channel)
    | InstanceMade(name: Id)

  datatype Move = Stay | Move(phase: Phase, effect: Effect)

  function To(phase: Phase): Move { Move(phase, NoEffect) }

  /** The transaction reads everything from one snapshot. */
  function BeginMove(s: State, call: Call, answered: bool, found: Option<Id>): Move {
    match call.phase
    case Reserving(attempt) =>
      if !answered then To(Refused(ReservationUnavailable))
      else if !IsFor(s, found, call.companyId, call.key) then Stay
      else To(Deciding(attempt, View(|s.committed|, found, LimitOf(s, call.companyId), ChannelsOf(s, call.companyId))))
    case _ => Stay
  }

  function Retry(attempt: nat): Phase {
    if attempt < MAX_TRANSACTION_ATTEMPTS then Reserving(attempt + 1) else Refused(ReservationUnavailable)
  }

  function AfterTransaction(attempt: nat, ending: Ending, channel: Id): Phase {
    match ending
    case Committed => Inspecting(channel)
    case CommittedUnheard => Refused(ReservationUnavailable)
    case SerializationFailure => Retry(attempt)
    case UniqueViolation => FindingAgain(attempt)
    case OtherError => Refused(ReservationUnavailable)
  }

  /** A transaction that finds the channel of its key reads nothing else and writes nothing. */
  function Lookup(call: Call): Transaction { Transaction({ChannelOfKey(call.companyId, call.key)}, None) }

  function Reservation(call: Call, row: Insertion): Transaction {
    Transaction({ChannelOfKey(call.companyId, call.key), LimitRow(call.companyId), ChannelCount(call.companyId)}, Some(row))
  }

  function RowOf(call: Call, id: Id): Insertion { Insertion(id, call.companyId, call.key) }

  /** The database refuses to commit a transaction that conflicts, or that violates a unique key. */
  function CommitMove(s: State, call: Call, ending: Ending, id: Id, instanceName: Id): Move {
    match call.phase
    case Deciding(attempt, view) =>
      if view.existing.Some? then
        Move(AfterTransaction(attempt, ending, view.existing.value), if Commits(ending) then Recorded(Lookup(call)) else NoEffect)
      else if |view.counted| >= view.limit then To(Refused(LimitReached))
      else if !Commits(ending) then To(AfterTransaction(attempt, ending, id))
      else
        var row := RowOf(call, id);
        if !KeysFree(s, row, instanceName) || !MaySerialize(s, view.started, Reservation(call, row)) then Stay
        else Move(AfterTransaction(attempt, ending, id), Reserved(row, instanceName, Reservation(call, row)))
    case _ => Stay
  }

  /** After a violated unique key the channel is looked up once more, outside the transaction. */
  function FindAgainMove(s: State, call: Call, answered: bool, found: Option<Id>): Move {
    match call.phase
    case FindingAgain(attempt) =>
      if !answered then To(Refused(LookupFailed))
      else if !IsFor(s, found, call.companyId, call.key) then Stay
      else To(if found.Some? then Inspecting(found.value) else Retry(attempt))
    case _ => Stay
  }

  predicate InstanceExists(s: State, channel: Id) {
    channel in s.channels && s.channels[channel].instanceName in s.instances
  }

  function InspectMove(s: State, call: Call, answered: bool): Move {
    match call.phase
    case Inspecting(channel) =>
      To(if !answered then MarkingError(channel)
         else if InstanceExists(s, channel) then Configuring(channel) else CreatingInstance(channel))
    case InspectingAgain(channel) =>
      To(if answered && InstanceExists(s, channel) then Configuring(channel) else MarkingError(channel))
    case _ => Stay
  }

  function CreateInstanceMove(s: State, call: Call, reply: Reply, refuses: bool): Move {
    match call.phase
    case CreatingInstance(channel) =>
      if channel !in s.channels then Stay
      else
        var refused := refuses && InstanceExists(s, channel);
        Move(if reply == Answered && !refused then Configuring(channel) else InspectingAgain(channel),
             if refused || reply == LostBefore then NoEffect else InstanceMade(s.channels[channel].instanceName))
    case _ => Stay
  }

  function Observed(channel: Channel, snapshot: Snapshot): Channel {
    channel.(connection := snapshot.connection,
             connectedPhone := if snapshot.connectedPhone.Some? then snapshot.connectedPhone else channel.connectedPhone)
  }

  /** The webhook configuration and the QR code: both succeed with a snapshot, or one of them fails. */
  function ConfigureMove(call: Call, configured: Option<Snapshot>): Move {
    match call.phase
    case Configuring(channel) =>
      To(if configured.Some? then Synchronizing(channel, configured.value) else MarkingError(channel))
    case _ => Stay
  }

  predicate IsOfCompany(s: State, channel: Id, companyId: Id) {
    channel in s.channels && s.channels[channel].companyId == companyId
  }

  function SynchronizeMove(s: State, call: Call, reply: Reply): Move {
    match call.phase
    case Synchronizing(channel, snapshot) =>
      var matched := IsOfCompany(s, channel, call.companyId);
      Move(if matched && reply == Answered then Provisioned(channel) else MarkingError(channel),
           if matched && reply != LostBefore then Wrote(channel, Observed(s.channels[channel], snapshot)) else NoEffect)
    case _ => Stay
  }

  /** Errors of this update are swallowed. */
  function MarkErrorMove(s: State, call: Call, reply: Reply): Move {
    match call.phase
    case MarkingError(channel) =>
      Move(Refused(ProvisioningUnavailable),
           if IsOfCompany(s, channel, call.companyId) && reply != LostBefore
           then Wrote(channel, s.channels[channel].(connection := Error)) else NoEffect)
    case _ => Stay
  }

  predicate IsOver(phase: Phase) { phase.Provisioned? || phase.Refused? || phase.Crashed? }

  function MoveOf(s: State, call: Call, a: Action): Move {
    match a
    case Begin(_, answered, found) => BeginMove(s, call, answered, found)
    case Commit(_, ending, id, instanceName) => CommitMove(s, call, ending, id, instanceName)
    case FindAgain(_, answered, found) => FindAgainMove(s, call, answered, found)
    case Inspect(_, answered) => InspectMove(s, call, answered)
    case CreateInstance(_, reply, refuses) => CreateInstanceMove(s, call, reply, refuses)
    case Configure(_, configured) => ConfigureMove(call, configured)
    case Synchronize(_, reply) => SynchronizeMove(s, call, reply)
    case MarkError(_, reply) => MarkErrorMove(s, call, reply)
    case Crash(_) => if IsOver(call.phase) then Stay else To(Crashed)
    case _ => Stay
  }

  // ----- steps

  function NewChannel(row: Insertion, instanceName: Id): Channel {
    Channel(row.companyId, row.key, instanceName, false, Provisioning, None)
  }

  function ApplyEffect(s: State, effect: Effect): State {
    match effect
    case NoEffect => s
    case Recorded(transaction) => s.(committed := s.committed + [transaction])
    case Reserved(row, instanceName, transaction) =>
      s.(channels := s.channels[row.id := NewChannel(row, instanceName)], committed := s.committed + [transaction])
    case Wrote(id, channel) => s.(channels := s.channels[id := channel])
    case InstanceMade(name) =>
      s.(instances := s.instances + multiset{name}, instancesCreated := s.instancesCreated + multiset{name})
  }

  function Go(s: State, c: Id, phase: Phase): State
    requires c in s.calls
  {
    s.(calls := s.calls[c := s.calls[c].(phase := phase)])
  }

  function MakeMove(s: State, c: Id, move: Move): State
    requires c in s.calls
  {
    match move
    case Stay => s
    case Move(phase, effect) => Go(ApplyEffect(s, effect), c, phase)
  }

  function HighestOf(s: State, companyId: Id): int { if companyId in s.highest then s.highest[companyId] else 0 }

  function Larger(a: int, b: int): int { if a < b then b else a }

  function SetLimitStep(s: State, companyId: Id, limit: Option<int>): State {
    match limit
    case None => s.(limits := s.limits - {companyId})
    case Some(l) => s.(limits := s.limits[companyId := l], highest := s.highest[companyId := Larger(HighestOf(s, companyId), l)])
  }

  function RemoveInstanceStep(s: State, name: Id): State {
    if name !in s.instances then s
    else s.(instances := s.instances - multiset{name}, instancesRemoved := s.instancesRemoved + multiset{name})
  }

  function UpdateStep(s: State, id: Id, channel: Channel): State { ApplyEffect(s, Wrote(id, channel)) }

  function OtherStep(s: State, a: Action): State
    requires !IsCall(a)
  {
    match a
    case SetLimit(companyId, limit) => SetLimitStep(s, companyId, limit)
    case SetActive(channel, isActive) =>
      if channel in s.channels then UpdateStep(s, channel, s.channels[channel].(isActive := isActive)) else s
    case Observe(channel, snapshot) =>
      if channel in s.channels then UpdateStep(s, channel, Observed(s.channels[channel], snapshot)) else s
    case RemoveInstance(name) => RemoveInstanceStep(s, name)
  }

  function StartStep(s: State, c: Id, companyId: Id, key: string): State {
    if c in s.calls then s else s.(calls := s.calls[c := Call(companyId, key, Reserving(1))])
  }

  /** Actions that do not fit the state they meet do nothing. */
  function Step(s: State, a: Action): State {
    if !IsCall(a) then OtherStep(s, a)
    else if a.Start? then StartStep(s, a.call, a.companyId, a.key)
    else if a.call in s.calls then MakeMove(s, a.call, MoveOf(s, s.calls[a.call], a))
    else s
  }

  function Run(s: State, actions: seq<Action>): State
    decreases actions
  {
    if actions == [] then s else Run(Step(s, actions[0]), actions[1..])
  }
}
