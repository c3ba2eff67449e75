/** Enqueueing: a transaction that looks a key up, validates, and upserts, among concurrent others. */
module QueueService {
  import opened Basics
  import opened OutboundRow
  import opened QueueMachine
  import opened QueueInvariants
  import opened QueueRows
  import opened QueueSteps
  import opened QueueGuarantees
  import opened QueueDatabase
  import opened Text

  /** `contentAccepted` stands for the field validators of the service. */
  datatype EnqueueInput = EnqueueInput(
    companyId: Id,
    customerId: Option<Id>,
    automationId: Option<Id>,
    key: string,
    contentAccepted: bool,
    payload: Payload,
    scheduledAt: Option<int>,
    maxAttempts: Option<int>)

  datatype EnqueueError = BadRequest | RelationNotFound | NoActiveChannel | KeyConflict | DatabaseFailed

  /** The row that the service asks the database to insert; `maxAttempts` defaults to 3. */
  function DraftOf(input: EnqueueInput, channelId: Option<Id>, scheduledAt: int): Draft {
    Draft(input.companyId, input.customerId, input.automationId, channelId, input.key, input.payload, scheduledAt,
          if input.maxAttempts.Some? then input.maxAttempts.value else 3)
  }

  /** The columns that the input decides, three attempts unless it says otherwise; the key is stored trimmed. */
  predicate IsDraftFor(draft: Draft, input: EnqueueInput) {
    && draft.companyId == input.companyId && draft.customerId == input.customerId && draft.automationId == input.automationId
    && draft.payload == input.payload
    && draft.maxAttempts == (if input.maxAttempts == None then 3 else input.maxAttempts.value)
    && (input.scheduledAt.Some? ==> draft.scheduledAt == input.scheduledAt.value)
  }

  /** The insert that an enqueue issues: the input, with a channel pinned, due at once unless it says when. */
  predicate IsInsertFor(a: Action, input: EnqueueInput, uuid: Id) {
    a.Insert? && a.id == uuid && IsDraftFor(a.draft, input) && a.draft.key == input.key && a.draft.channelId.Some?
  }

  /** What an enqueue asks of its input. */
  predicate IsAccepted(input: EnqueueInput) {
    input.contentAccepted && Trim(input.key) != "" && (input.maxAttempts.Some? ==> 1 <= input.maxAttempts.value)
  }

  /** In some state that the script reaches from position `from` on the key was taken. */
  predicate WasTaken(script: seq<Action>, from: nat, companyId: Id, key: string) {
    exists p :: from <= p <= |script| && KeyTaken(Run(EMPTY, script[..p]), companyId, key)
  }

  /** The customer of the message is not one of the company, or the identifier drawn for it is in use. */
  predicate IsUnrelated(s: State, input: EnqueueInput, uuid: Id) {
    || uuid in s.rows
    || (input.customerId.Some?
        && (input.customerId.value in s.customers ==> s.customers[input.customerId.value].companyId != input.companyId))
  }

  predicate WasUnrelated(script: seq<Action>, from: nat, input: EnqueueInput, uuid: Id) {
    exists p :: from <= p <= |script| && IsUnrelated(Run(EMPTY, script[..p]), input, uuid)
  }

  /** Why an enqueue is refused; `channel` is what the routing answered, `reply` what became of the upsert. */
  predicate HasReason(script: seq<Action>, from: nat, input: EnqueueInput, uuid: Id, channel: Option<Id>, reply: Reply,
                      why: EnqueueError)
  {
    match why
    case BadRequest => !IsAccepted(input)
    case RelationNotFound => WasUnrelated(script, from, input, uuid)
    case NoActiveChannel => channel == None
    case KeyConflict => Trim(input.key) != input.key && WasTaken(script, from, input.companyId, Trim(input.key))
    case DatabaseFailed => reply != Answered
  }

  predicate HasKey(row: Row, companyId: Id, key: string) {
    row.draft.companyId == companyId && row.draft.key == key
  }

  /** The one row of the company under the key. */
  ghost predicate IsTheRow(s: State, id: Id, companyId: Id, key: string) {
    && id in s.rows && HasKey(s.rows[id], companyId, key)
    && forall other :: other in s.rows && HasKey(s.rows[other], companyId, key) ==> other == id
  }

  lemma NoKeyTwice(script: seq<Action>, id: Id, companyId: Id, key: string)
    requires id in Run(EMPTY, script).rows && HasKey(Run(EMPTY, script).rows[id], companyId, key)
    ensures IsTheRow(Run(EMPTY, script), id, companyId, key)
  {
    hide Run;
    EveryRunIsOk(script);
    var rows := Run(EMPTY, script).rows;
    forall other | other in rows && HasKey(rows[other], companyId, key) ensures other == id {
      assert SameKey(rows[other].draft, rows[id].draft);
    }
  }

  lemma StoredKeysAreTrimmed(script: seq<Action>, id: Id, companyId: Id, key: string)
    requires IsTheRow(Run(EMPTY, script), id, companyId, key)
    ensures Trim(key) == key
  {
    hide Run;
    EveryRunIsOk(script);
    assert IsTrimmed(key);
    TrimIsIdempotent(key);
  }

  /** Every run that goes on returns the same row for the key, with the same channel pin. */
  lemma RepeatedEnqueuesReturnTheSameRow(actions: seq<Action>, more: seq<Action>, a: Id, b: Id, companyId: Id, key: string)
    requires a in Run(EMPTY, actions).rows && HasKey(Run(EMPTY, actions).rows[a], companyId, key)
    requires b in Run(EMPTY, actions + more).rows && HasKey(Run(EMPTY, actions + more).rows[b], companyId, key)
    ensures a == b
    ensures Run(EMPTY, actions + more).rows[b].draft.channelId == Run(EMPTY, actions).rows[a].draft.channelId
  {
    TerminalStatesAreFinal(actions, more, a);
    EveryRunIsOk(actions + more);
  }

  class OutboundQueue {
    const database: Database

    constructor (database: Database)
      ensures this.database == database
    {
      this.database := database;
    }

    /**
     * The key is looked up trimmed at first and as given in the upsert; it is stored trimmed. `mine` is the
     * position in the script of the insert that this call issued, if it came that far.
     */
    method Enqueue(input: EnqueueInput, uuid: Id)
      returns (r: Result<Id, EnqueueError>, ghost mine: Option<nat>, ghost channel: Option<Id>, ghost reply: Reply)
      requires database.Valid() && forall channelId, at :: database.drafts(DraftOf(input, channelId, at))
      modifies database
      ensures database.Valid() && old(database.script) <= database.script
      ensures r.Ok? ==> reply == Answered && IsTheRow(database.state, r.value, input.companyId, Trim(input.key))
      ensures !input.contentAccepted && r.Ok? ==> old(KeyTaken(database.state, input.companyId, Trim(input.key)))
      ensures mine.Some? ==>
        |old(database.script)| <= mine.value < |database.script| && IsInsertFor(database.script[mine.value], input, uuid)
      ensures r.Ok? && mine.Some? ==>
        && r.value == uuid && database.state.rows[uuid].draft == database.script[mine.value].draft.(key := Trim(input.key))
        && IsUntouched(database.state.rows[uuid])
      ensures mine.Some? ==> IsAccepted(input) && reply != LostBefore
      ensures r.Err? ==> HasReason(database.script, |old(database.script)|, input, uuid, channel, reply, r.error)
    {
      hide Run, Step, Trim, KeyTaken, CustomerFound, HasKey, IsTheRow, OnlyInserts, IsUntouched, IsDraftFor, IsUnrelated, WasTaken,
        WasUnrelated;
      mine, channel, reply := None, None, Answered;
      var key := Trim(input.key);
      var found := Find(input.companyId, key);
      if found.Some? { return Ok(found.value), mine, channel, reply; }

      if !input.contentAccepted || key == "" || (input.maxAttempts.Some? && input.maxAttempts.value < 1) {
        return Err(BadRequest), mine, channel, reply;
      }
      database.Others(None);
      if input.customerId.Some? && !CustomerFound(database.state, input.customerId.value, input.companyId) {
        UnrelatedNow(database.script, |old(database.script)|, input, uuid);
        return Err(RelationNotFound), mine, channel, reply;
      }
      var routed: Option<Id> := *;
      channel := routed;
      database.Others(None);
      if routed == None { return Err(NoActiveChannel), mine, channel, reply; }

      database.Others(None);
      ghost var later := |database.script|;
      r, mine, reply := Upsert(input, uuid, routed);
      if r.Err? { ReasonsReachBack(database.script, |old(database.script)|, later, input, uuid, channel, reply, r.error); }
    }

    /** By the key as it was given: nothing when it is found, otherwise an insert. */
    method Upsert(input: EnqueueInput, uuid: Id, channel: Option<Id>)
      returns (r: Result<Id, EnqueueError>, ghost mine: Option<nat>, ghost reply: Reply)
      requires database.Valid() && IsAccepted(input) && channel.Some?
      requires forall at :: database.drafts(DraftOf(input, channel, at))
      modifies database
      ensures database.Valid() && old(database.script) <= database.script
      ensures r.Ok? ==> reply == Answered && IsTheRow(database.state, r.value, input.companyId, Trim(input.key))
      ensures mine.Some? ==>
        && |old(database.script)| <= mine.value < |database.script| && reply != LostBefore
        && IsInsertFor(database.script[mine.value], input, uuid)
      ensures r.Ok? && mine.Some? ==>
        && r.value == uuid && database.state.rows[uuid].draft == database.script[mine.value].draft.(key := Trim(input.key))
        && IsUntouched(database.state.rows[uuid])
      ensures r.Err? ==> HasReason(database.script, |old(database.script)|, input, uuid, channel, reply, r.error)
    {
      hide Run, Step, Trim, KeyTaken, CustomerFound, HasKey, IsTheRow, OnlyInserts, IsUntouched, IsDraftFor, IsUnrelated, WasTaken,
        WasUnrelated;
      var clock: int, answer: Reply := *, *;
      mine, reply := None, answer;
      if answer == LostBefore { return Err(DatabaseFailed), mine, reply; }
      var found := Find(input.companyId, input.key);
      if found.Some? {
        StoredKeysAreTrimmed(database.script, found.value, input.companyId, input.key);
        return if answer == Answered then Ok(found.value) else Err(DatabaseFailed), mine, reply;
      }
      mine := Some(|database.script|);
      ghost var draft := DraftOf(input, channel, if input.scheduledAt.Some? then input.scheduledAt.value else clock);
      assert IsDraftFor(draft, input) by { DraftsAreForTheirInput(input, channel, draft.scheduledAt); }
      r := Create(input, uuid, channel, if input.scheduledAt.Some? then input.scheduledAt.value else clock);
      if answer == LostAfter { return Err(DatabaseFailed), mine, reply; }
    }

    method Find(companyId: Id, key: string) returns (found: Option<Id>)
      requires database.Valid()
      ensures found == None <==> !KeyTaken(database.state, companyId, key)
      ensures found.Some? ==> IsTheRow(database.state, found.value, companyId, key)
    {
      hide Run, IsTheRow;
      if id: Id :| id in database.state.rows && database.state.rows[id].draft.companyId == companyId
                   && database.state.rows[id].draft.key == key {
        NoKeyTwice(database.script, id, companyId, key);
        return Some(id);
      }
      return None;
    }

    /** The insert half of the upsert; the unique key may still refuse it. */
    method Create(input: EnqueueInput, uuid: Id, channel: Option<Id>, scheduledAt: int) returns (r: Result<Id, EnqueueError>)
      requires database.Valid() && database.drafts(DraftOf(input, channel, scheduledAt))
      requires input.scheduledAt.Some? ==> scheduledAt == input.scheduledAt.value
      requires !KeyTaken(database.state, input.companyId, input.key)
      modifies database
      ensures database.Valid() && database.script == old(database.script) + [Insert(uuid, DraftOf(input, channel, scheduledAt))]
      ensures r.Ok? <==> uuid !in old(database.state.rows) && uuid in database.state.rows
      ensures r.Ok? ==>
        && r.value == uuid
        && var row := database.state.rows[uuid];
        && IsUntouched(row) && IsDraftFor(row.draft, input)
        && row.draft.key == Trim(input.key) && row.draft.channelId == channel && row.draft.scheduledAt == scheduledAt
        && row.draft == DraftOf(input, channel, scheduledAt).(key := row.draft.key)
        && IsTheRow(database.state, uuid, input.companyId, Trim(input.key))
      ensures r.Err? ==> database.state.rows == old(database.state.rows)
      ensures old(KeyTaken(database.state, input.companyId, Trim(input.key))) ==> r == Err(KeyConflict)
      ensures r.Err? && !old(KeyTaken(database.state, input.companyId, Trim(input.key))) ==> r == Err(RelationNotFound)
      ensures r.Err? ==> HasReason(database.script, |old(database.script)|, input, uuid, channel, Answered, r.error)
    {
      hide Run, Step, InsertStep, KeyTaken, IsTheRow, Trim, OnlyInserts, WasTaken, WasUnrelated, IsUnrelated;
      DraftsAreForTheirInput(input, channel, scheduledAt);
      var draft := DraftOf(input, channel, scheduledAt);
      var taken := KeyTaken(database.state, input.companyId, Trim(input.key));
      var unused := uuid !in database.state.rows;
      InsertInserts(database.state, uuid, draft);
      InsertsHaveReasons(database.script, input, uuid, draft);
      database.Do(Insert(uuid, draft));
      if taken { return Err(KeyConflict); }
      if unused && uuid in database.state.rows {
        NoKeyTwice(database.script, uuid, input.companyId, Trim(input.key));
        return Ok(uuid);
      }
      return Err(RelationNotFound);
    }
  }

  lemma ReasonsReachBack(script: seq<Action>, from: nat, later: nat, input: EnqueueInput, uuid: Id, channel: Option<Id>,
                         reply: Reply, why: EnqueueError)
    requires from <= later && HasReason(script, later, input, uuid, channel, reply, why)
    ensures HasReason(script, from, input, uuid, channel, reply, why)
  {
    hide Run, KeyTaken, IsUnrelated, IsAccepted, Trim;
  }

  lemma UnrelatedNow(script: seq<Action>, from: nat, input: EnqueueInput, uuid: Id)
    requires from <= |script| && input.customerId.Some?
    requires !CustomerFound(Run(EMPTY, script), input.customerId.value, input.companyId)
    ensures WasUnrelated(script, from, input, uuid)
  {
    assert script[..|script|] == script;
    assert IsUnrelated(Run(EMPTY, script[..|script|]), input, uuid);
  }

  /** An insert is refused for a taken key, or for an identifier or a customer that does not fit. */
  lemma InsertsHaveReasons(script: seq<Action>, input: EnqueueInput, uuid: Id, draft: Draft)
    requires draft.companyId == input.companyId && draft.customerId == input.customerId && draft.key == input.key
    ensures var s, t, longer := Run(EMPTY, script), Step(Run(EMPTY, script), Insert(uuid, draft)), script + [Insert(uuid, draft)];
      && (KeyTaken(s, input.companyId, Trim(input.key)) ==> WasTaken(longer, |script|, input.companyId, Trim(input.key)))
      && (!KeyTaken(s, input.companyId, Trim(input.key)) && !(uuid !in s.rows && uuid in t.rows) ==>
            WasUnrelated(longer, |script|, input, uuid))
  {
    hide Run, Step, Trim, KeyTaken, IsUnrelated, MayStart, IsUntouched;
    var s, longer := Run(EMPTY, script), script + [Insert(uuid, draft)];
    assert longer[..|script|] == script;
    Refusals(s, input, uuid, draft);
    if uuid !in s.rows { MessagesStartOnlySo(s, Insert(uuid, draft), uuid); }
    if IsUnrelated(s, input, uuid) { assert IsUnrelated(Run(EMPTY, longer[..|script|]), input, uuid); }
    if KeyTaken(s, input.companyId, Trim(input.key)) {
      assert KeyTaken(Run(EMPTY, longer[..|script|]), input.companyId, Trim(input.key));
    }
  }

  lemma Refusals(s: State, input: EnqueueInput, uuid: Id, draft: Draft)
    requires draft.companyId == input.companyId && draft.customerId == input.customerId && draft.key == input.key
    ensures uuid in s.rows ==> IsUnrelated(s, input, uuid)
    ensures MayStart(s, draft) || KeyTaken(s, input.companyId, Trim(input.key)) || IsUnrelated(s, input, uuid)
  {
    hide Trim;
  }

  lemma DraftsAreForTheirInput(input: EnqueueInput, channel: Option<Id>, at: int)
    requires input.scheduledAt.Some? ==> at == input.scheduledAt.value
    ensures IsDraftFor(DraftOf(input, channel, at), input)
  {
  }

  lemma InsertInserts(s: State, id: Id, draft: Draft)
    ensures var t, stored := Step(s, Insert(id, draft)), draft.(key := Trim(draft.key));
      && (t.rows == s.rows || (id !in s.rows && t.rows == s.rows[id := NewRow(stored)]))
      && (KeyTaken(s, draft.companyId, Trim(draft.key)) || id in s.rows ==> t.rows == s.rows)
  {
    hide Trim;
  }
}
