/** The engine enqueues messages for campaigns and recurring automations; its keys keep them apart. */
module CampaignEngine {
  import opened Basics
  import opened CampaignAudience
  import opened Consent
  import opened IdempotencyKeys
  import opened OutboundRow
  import opened QueueDatabase
  import opened QueueGuarantees
  import opened QueueInvariants
  import opened QueueRuns
  import opened QueueMachine
  import opened QueueMoves
  import opened QueueService
  import opened QueueSteps
  import opened Text

  datatype EngineError = AudienceRefused(reason: AudienceError) | QueueRefused(cause: EnqueueError) | ReadFailed

  /** As the row refers to company, automation and customer now. */
  predicate IsActiveFor(row: Row, companyId: Id, automationId: Id, customerId: Id) {
    && row.draft.companyId == companyId && row.draft.automationId == Some(automationId) && row.customerId == Some(customerId)
    && (row.status == Pending || row.status == Processing)
  }

  /** A message of the automation for the customer is waiting or being processed. */
  predicate HasActive(s: State, companyId: Id, automationId: Id, customerId: Id) {
    exists id :: id in s.rows
      && s.rows[id].draft.companyId == companyId && s.rows[id].draft.automationId == Some(automationId)
      && s.rows[id].customerId == Some(customerId) && s.rows[id].status in {Pending, Processing}
  }

  /** A message of the automation for the customer, or one under the key. */
  predicate Serves(row: Row, companyId: Id, automationId: Id, customerId: Id, key: string) {
    && row.draft.companyId == companyId
    && ((row.draft.automationId == Some(automationId) && row.draft.customerId == Some(customerId)) || row.draft.key == Trim(key))
  }

  predicate Served(s: State, companyId: Id, automationId: Id, customerId: Id, key: string) {
    exists id :: id in s.rows && Serves(s.rows[id], companyId, automationId, customerId, key)
  }

  lemma RowsStay(earlier: seq<Action>, later: seq<Action>, id: Id)
    requires earlier <= later && id in Run(EMPTY, earlier).rows
    ensures id in Run(EMPTY, later).rows && Run(EMPTY, later).rows[id].draft == Run(EMPTY, earlier).rows[id].draft
  {
    assert later == earlier + later[|earlier|..];
    TerminalStatesAreFinal(earlier, later[|earlier|..], id);
  }

  lemma ReferencesNameTheDraft(actions: seq<Action>, id: Id, customerId: Id)
    requires id in Run(EMPTY, actions).rows && Run(EMPTY, actions).rows[id].customerId == Some(customerId)
    ensures Run(EMPTY, actions).rows[id].draft.customerId == Some(customerId)
  {
    EveryRunIsOk(actions);
    assert ReferenceOk(Run(EMPTY, actions), Run(EMPTY, actions).rows[id]);
  }

  lemma RestShrinks<T>(all: set<T>, done: set<T>, x: T)
    requires x in all - done
    ensures |all - (done + {x})| < |all - done|
  {
    assert all - (done + {x}) == (all - done) - {x};
  }

  // ----- at most one message

  datatype Kind = OneOff | Recurring(isBirthday: bool)

  datatype Automation = Automation(companyId: Id, kind: Kind)

  /** Identifiers and dates: some text without colons and blanks. */
  predicate IsPlain(s: string) {
    s != "" && forall k :: 0 <= k < |s| ==> s[k] != ':' && !IsSpace(s[k])
  }

  /** What the engine, the only caller of the queue, hands to it. */
  predicate IsEngineDraft(automations: map<Id, Automation>, draft: Draft) {
    && draft.automationId.Some? && draft.customerId.Some?
    && var a, c := draft.automationId.value, draft.customerId.value;
    && a in automations && draft.companyId == automations[a].companyId
    && IsPlain(a.text) && IsPlain(c.text)
    && HasEngineKey(automations[a].kind, a, c, draft.key)
  }

  predicate HasEngineKey(kind: Kind, a: Id, c: Id, key: string) {
    match kind
    case OneOff => key == CampaignKey(a.text, c.text)
    case Recurring(isBirthday) => HasDate(a, c, isBirthday, key)
  }

  /** The date is the rest of the key after its fixed beginning. */
  predicate HasDate(a: Id, c: Id, isBirthday: bool, key: string) {
    var size := |RecurringKey(a.text, c.text, isBirthday, "")|;
    size < |key| && IsPlain(key[size..]) && key == RecurringKey(a.text, c.text, isBirthday, key[size..])
  }

  /** Every insert of the schedule is one of the engine. */
  predicate OnlyEngineInserts(automations: map<Id, Automation>, actions: seq<Action>) {
    forall k :: 0 <= k < |actions| && actions[k].Insert? ==> IsEngineDraft(automations, actions[k].draft)
  }

  lemma EndsPlain(part: string, rest: string)
    requires part != "" && !IsSpace(part[0]) && rest != "" && !IsSpace(rest[|rest| - 1])
    ensures Join(part, rest) != "" && !IsSpace(Join(part, rest)[0])
    ensures !IsSpace(Join(part, rest)[|Join(part, rest)| - 1])
  {
    hide IsSpace;
    var whole := Join(part, rest);
    assert whole[0] == part[0] && whole[|whole| - 1] == rest[|rest| - 1];
  }

  /** The keys of the engine are stored as they are. */
  lemma EngineKeysAreTrimmed(kind: Kind, a: Id, c: Id, key: string)
    requires IsPlain(a.text) && IsPlain(c.text) && HasEngineKey(kind, a, c, key)
    ensures Trim(key) == key
  {
    hide IsSpace, Join;
    assert !IsSpace("customer"[0]) && !IsSpace("campaign"[0]) && !IsSpace("automation"[0]) by { NotSpaces(); }
    match kind
    case OneOff =>
      EndsPlain("customer", c.text);
      EndsPlain(a.text, Join("customer", c.text));
      EndsPlain("campaign", Join(a.text, Join("customer", c.text)));
      TrimIsIdempotent(key);
    case Recurring(isBirthday) =>
      var date := key[|RecurringKey(a.text, c.text, isBirthday, "")|..];
      NotSpaces();
      EndsPlain(Cycle(isBirthday), date);
      EndsPlain(c.text, Join(Cycle(isBirthday), date));
      EndsPlain("customer", Join(c.text, Join(Cycle(isBirthday), date)));
      EndsPlain(a.text, Join("customer", Join(c.text, Join(Cycle(isBirthday), date))));
      EndsPlain("automation", Join(a.text, Join("customer", Join(c.text, Join(Cycle(isBirthday), date)))));
      TrimIsIdempotent(key);
  }

  lemma NotSpaces()
    ensures !IsSpace("customer"[0]) && !IsSpace("campaign"[0]) && !IsSpace("automation"[0])
    ensures !IsSpace(Cycle(true)[0]) && !IsSpace(Cycle(false)[0])
  {
  }

  lemma OnlyInsertsAddRows(s: State, a: Action, id: Id)
    requires id !in s.rows && id in Step(s, a).rows
    ensures a.Insert? && a.id == id && Step(s, a).rows[id].draft == a.draft.(key := Trim(a.draft.key))
  {
    if ActorOf(a).Some? {
      hide Step, RequestOf, Requested, Entered;
      WorkersMove(s, a);
      RequestsKeepDrafts(s, RequestOf(s, a));
    } else {
      hide Matches, Effect, LogsFor, KeyTaken, CustomerFound, Trim;
    }
  }

  /** Every row is the work of an insert. */
  lemma {:induction false} DraftsComeFromInserts(actions: seq<Action>, id: Id)
    requires id in Run(EMPTY, actions).rows
    ensures exists k :: 0 <= k < |actions| && actions[k].Insert?
              && Run(EMPTY, actions).rows[id].draft == actions[k].draft.(key := Trim(actions[k].draft.key))
    decreases |actions|
  {
    hide Step, Run;
    if actions == [] {
      NoRowsAtFirst();
    } else {
      var init, last := actions[..|actions| - 1], actions[|actions| - 1];
      assert actions == init + [last];
      RunSnoc(EMPTY, init, last);
      if id in Run(EMPTY, init).rows {
        DraftsComeFromInserts(init, id);
        EveryRunIsOk(init);
        StepSucceeds(Run(EMPTY, init), last, id);
        var k :| 0 <= k < |init| && init[k].Insert?
                 && Run(EMPTY, init).rows[id].draft == init[k].draft.(key := Trim(init[k].draft.key));
        assert actions[k] == init[k];
      } else {
        OnlyInsertsAddRows(Run(EMPTY, init), last, id);
        assert actions[|actions| - 1] == last;
      }
    }
  }

  lemma NoRowsAtFirst()
    ensures Run(EMPTY, []).rows == map[]
  {
  }

  lemma RowsAreEngineDrafts(automations: map<Id, Automation>, actions: seq<Action>, id: Id)
    requires OnlyEngineInserts(automations, actions) && id in Run(EMPTY, actions).rows
    ensures IsEngineDraft(automations, Run(EMPTY, actions).rows[id].draft)
  {
    hide Run, HasEngineKey;
    DraftsComeFromInserts(actions, id);
    var k :| 0 <= k < |actions| && actions[k].Insert?
             && Run(EMPTY, actions).rows[id].draft == actions[k].draft.(key := Trim(actions[k].draft.key));
    var draft := actions[k].draft;
    EngineKeysAreTrimmed(automations[draft.automationId.value].kind, draft.automationId.value, draft.customerId.value, draft.key);
  }

  lemma SameKeySameRow(actions: seq<Action>, x: Id, y: Id)
    requires x in Run(EMPTY, actions).rows && y in Run(EMPTY, actions).rows
    requires SameKey(Run(EMPTY, actions).rows[x].draft, Run(EMPTY, actions).rows[y].draft)
    ensures x == y
  {
    EveryRunIsOk(actions);
  }

  /** However often and however concurrently a campaign is dispatched, a customer gets at most one message of it. */
  lemma OneMessagePerCampaignAndCustomer(automations: map<Id, Automation>, actions: seq<Action>, x: Id, y: Id, a: Id, c: Id)
    requires OnlyEngineInserts(automations, actions)
    requires x in Run(EMPTY, actions).rows && y in Run(EMPTY, actions).rows
    requires a in automations && automations[a].kind == OneOff
    requires forall id :: id in {x, y} ==>
      Run(EMPTY, actions).rows[id].draft.automationId == Some(a) && Run(EMPTY, actions).rows[id].draft.customerId == Some(c)
    ensures x == y
  {
    hide Run, CampaignKey;
    assert x in {x, y} && y in {x, y};
    RowsAreEngineDrafts(automations, actions, x);
    RowsAreEngineDrafts(automations, actions, y);
    SameKeySameRow(actions, x, y);
  }

  /** A recurring automation has at most one message for a customer on a date. */
  lemma OneMessagePerCustomerAndDate(automations: map<Id, Automation>, actions: seq<Action>, x: Id, y: Id, a: Id, c: Id,
                                     isBirthday: bool)
    requires OnlyEngineInserts(automations, actions)
    requires x in Run(EMPTY, actions).rows && y in Run(EMPTY, actions).rows
    requires a in automations && automations[a].kind == Recurring(isBirthday)
    requires forall id :: id in {x, y} ==>
      Run(EMPTY, actions).rows[id].draft.automationId == Some(a) && Run(EMPTY, actions).rows[id].draft.customerId == Some(c)
    ensures exists s, t ::
      && IsPlain(s) && IsPlain(t)
      && Run(EMPTY, actions).rows[x].draft.key == RecurringKey(a.text, c.text, isBirthday, s)
      && Run(EMPTY, actions).rows[y].draft.key == RecurringKey(a.text, c.text, isBirthday, t)
      && (s == t <==> x == y)
  {
    hide Run, RecurringKey;
    assert x in {x, y} && y in {x, y};
    RowsAreEngineDrafts(automations, actions, x);
    RowsAreEngineDrafts(automations, actions, y);
    var size := |RecurringKey(a.text, c.text, isBirthday, "")|;
    var s, t := Run(EMPTY, actions).rows[x].draft.key[size..], Run(EMPTY, actions).rows[y].draft.key[size..];
    if s == t { SameKeySameRow(actions, x, y); }
  }

  lemma PlainIsColonFree(s: string)
    requires IsPlain(s)
    ensures ColonFree(s)
  {
  }

  /** No key stands for somebody else: the message found under a campaign's key is that campaign's for that customer. */
  lemma CampaignKeyFindsItsOwn(automations: map<Id, Automation>, actions: seq<Action>, id: Id, a: Id, c: Id)
    requires OnlyEngineInserts(automations, actions) && id in Run(EMPTY, actions).rows
    requires IsPlain(a.text) && IsPlain(c.text)
    requires Run(EMPTY, actions).rows[id].draft.key == CampaignKey(a.text, c.text)
    ensures Run(EMPTY, actions).rows[id].draft.automationId == Some(a) && Run(EMPTY, actions).rows[id].draft.customerId == Some(c)
  {
    hide Run, CampaignKey, RecurringKey, IsPlain;
    RowsAreEngineDrafts(automations, actions, id);
    var draft := Run(EMPTY, actions).rows[id].draft;
    var b, d := draft.automationId.value, draft.customerId.value;
    PlainIsColonFree(a.text);
    PlainIsColonFree(b.text);
    match automations[b].kind
    case OneOff => CampaignKeysAreInjective(a.text, c.text, b.text, d.text);
    case Recurring(isBirthday) =>
      KeyFormatsAreDisjoint(a.text, c.text, b.text, d.text, isBirthday,
                            draft.key[|RecurringKey(b.text, d.text, isBirthday, "")|..]);
  }

  /** Nor under a recurring key: automation, customer and date are its own. */
  lemma RecurringKeyFindsItsOwn(automations: map<Id, Automation>, actions: seq<Action>, id: Id, a: Id, c: Id,
                                isBirthday: bool, date: string)
    requires OnlyEngineInserts(automations, actions) && id in Run(EMPTY, actions).rows
    requires IsPlain(a.text) && IsPlain(c.text)
    requires Run(EMPTY, actions).rows[id].draft.key == RecurringKey(a.text, c.text, isBirthday, date)
    ensures Run(EMPTY, actions).rows[id].draft.automationId == Some(a) && Run(EMPTY, actions).rows[id].draft.customerId == Some(c)
  {
    hide Run, CampaignKey, RecurringKey, IsPlain;
    RowsAreEngineDrafts(automations, actions, id);
    var draft := Run(EMPTY, actions).rows[id].draft;
    var b, d := draft.automationId.value, draft.customerId.value;
    PlainIsColonFree(a.text);
    PlainIsColonFree(b.text);
    PlainIsColonFree(c.text);
    PlainIsColonFree(d.text);
    match automations[b].kind
    case OneOff => KeyFormatsAreDisjoint(b.text, d.text, a.text, c.text, isBirthday, date);
    case Recurring(q) =>
      RecurringKeysAreInjective(a.text, c.text, isBirthday, date, b.text, d.text, q,
                                draft.key[|RecurringKey(b.text, d.text, q, "")|..]);
  }

  ghost predicate IsTheOnlyOne(s: State, x: Id, a: Id, c: Id) {
    forall y ::
      (y in s.rows && s.rows[y].draft.automationId == Some(a) && s.rows[y].draft.customerId == Some(c)) <==> y == x
  }

  /** After a successful dispatch every selected customer has one message of the campaign, and no more. */
  lemma ServedMeansExactlyOne(automations: map<Id, Automation>, actions: seq<Action>, a: Id, c: Id)
    requires OnlyEngineInserts(automations, actions)
    requires a in automations && automations[a].kind == OneOff && IsPlain(a.text) && IsPlain(c.text)
    requires Served(Run(EMPTY, actions), automations[a].companyId, a, c, CampaignKey(a.text, c.text))
    ensures HasExactlyOne(Run(EMPTY, actions), a, c)
  {
    hide Run, CampaignKey, RecurringKey, IsPlain;
    var rows := Run(EMPTY, actions).rows;
    var x :| x in rows && Serves(rows[x], automations[a].companyId, a, c, CampaignKey(a.text, c.text));
    EngineKeysAreTrimmed(OneOff, a, c, CampaignKey(a.text, c.text));
    if rows[x].draft.key == CampaignKey(a.text, c.text) { CampaignKeyFindsItsOwn(automations, actions, x, a, c); }
    forall y | y in rows && rows[y].draft.automationId == Some(a) && rows[y].draft.customerId == Some(c) ensures y == x {
      OneMessagePerCampaignAndCustomer(automations, actions, x, y, a, c);
    }
  }

  // ----- the service

  lemma DateFollows(a: Id, c: Id, isBirthday: bool, date: string)
    requires IsPlain(date)
    ensures HasDate(a, c, isBirthday, RecurringKey(a.text, c.text, isBirthday, date))
  {
    var start, key := RecurringKey(a.text, c.text, isBirthday, ""), RecurringKey(a.text, c.text, isBirthday, date);
    assert start + date == key;
    assert key[|start|..] == date;
  }

  class EngineService {
    const automations: map<Id, Automation>
    const queue: OutboundQueue
    const database: Database

    /** Only the engine calls the queue: whatever is inserted, by whomever, is a draft of the engine. */
    ghost predicate Valid()
      reads this, database
    {
      && database.Valid() && queue.database == database
      && forall draft :: database.drafts(draft) <==> IsEngineDraft(automations, draft)
    }

    constructor (automations: map<Id, Automation>, database: Database)
      requires database.Valid() && forall draft :: database.drafts(draft) <==> IsEngineDraft(automations, draft)
      ensures Valid() && this.automations == automations && this.database == database
    {
      this.automations := automations;
      this.database := database;
      queue := new OutboundQueue(database);
    }

    lemma OnlyTheEngineInserts()
      requires Valid()
      ensures OnlyEngineInserts(automations, database.script)
    {
    }

    /** An automation of the company with this kind of key, and identifiers as they are drawn. */
    predicate IsEngineInput(companyId: Id, automationId: Id, customerId: Id, key: string) {
      && automationId in automations && automations[automationId].companyId == companyId
      && IsPlain(automationId.text) && IsPlain(customerId.text)
      && HasEngineKey(automations[automationId].kind, automationId, customerId, key)
    }

    /** Looks for a message of the automation for the customer that is not finished yet. */
    method FindActive(companyId: Id, automationId: Id, customerId: Id) returns (found: bool)
      requires database.Valid()
      ensures found <==> HasActive(database.state, companyId, automationId, customerId)
      ensures found ==> forall key :: Served(database.state, companyId, automationId, customerId, key)
    {
      if id: Id :| id in database.state.rows && IsActiveFor(database.state.rows[id], companyId, automationId, customerId) {
        ReferencesNameTheDraft(database.script, id, customerId);
        return true;
      }
      return false;
    }

    /**
     * The last part of both ways to enqueue: nothing while a message is active, otherwise the queue decides
     * by the key. `seen` is the script at the moment of the look, `mine` the position of the insert that this
     * call issued, if any: it is for this customer, by this automation, under this key, with a channel. `answered`
     * tells whether the look was answered.
     */
    method EnqueueUnlessActive(companyId: Id, automationId: Id, customerId: Id, key: string, contentAccepted: bool)
      returns (r: Result<(), EngineError>, ghost seen: seq<Action>, ghost mine: Option<nat>, ghost answered: bool)
      requires Valid() && IsEngineInput(companyId, automationId, customerId, key)
      modifies database
      ensures Valid() && old(database.script) <= seen <= database.script
      ensures HasActive(Run(EMPTY, seen), companyId, automationId, customerId) && r != Err(ReadFailed) ==>
        r == Ok(()) && database.script == seen
      ensures r.Ok? ==> Served(database.state, companyId, automationId, customerId, key)
      ensures r == Err(ReadFailed) <==> !answered
      ensures r.Ok? && !HasActive(Run(EMPTY, seen), companyId, automationId, customerId) ==>
        KeyTaken(database.state, companyId, Trim(key))
      ensures mine.Some? ==>
        && |seen| <= mine.value < |database.script|
        && IssuedFor(database.script[mine.value], companyId, automationId, customerId, key)
    {
      hide Run, HasEngineKey, IsPlain;
      mine := None;
      database.Others(None);
      seen := database.script;
      var read: bool := *;
      answered := read;
      if !read { return Err(ReadFailed), seen, mine, answered; }
      var active := FindActive(companyId, automationId, customerId);
      if active { return Ok(()), seen, mine, answered; }
      database.Others(None);
      var uuid: Id, payload: Payload := *, *;
      var input := EnqueueInput(companyId, Some(customerId), Some(automationId), key, contentAccepted, payload, None, None);
      assert forall channelId, at :: IsEngineDraft(automations, DraftOf(input, channelId, at));
      var queued;
      ghost var channel, reply;
      queued, mine, channel, reply := queue.Enqueue(input, uuid);
      if queued.Err? { return Err(QueueRefused(queued.error)), seen, mine, answered; }
      assert Serves(database.state.rows[queued.value], companyId, automationId, customerId, key);
      return Ok(()), seen, mine, answered;
    }

    method EnqueueCampaignMessage(companyId: Id, automationId: Id, customerId: Id, contentAccepted: bool)
      returns (r: Result<(), EngineError>, ghost seen: seq<Action>, ghost mine: Option<nat>)
      requires Valid() && IsEngineInput(companyId, automationId, customerId, CampaignKey(automationId.text, customerId.text))
      modifies database
      ensures Valid() && old(database.script) <= seen <= database.script
      ensures HasActive(Run(EMPTY, seen), companyId, automationId, customerId) && r != Err(ReadFailed) ==>
        r == Ok(()) && database.script == seen
      ensures r.Ok? ==> Served(database.state, companyId, automationId, customerId, CampaignKey(automationId.text, customerId.text))
      ensures mine.Some? ==>
        && |seen| <= mine.value < |database.script|
        && IssuedFor(database.script[mine.value], companyId, automationId, customerId,
                     CampaignKey(automationId.text, customerId.text))
    {
      ghost var answered;
      r, seen, mine, answered := EnqueueUnlessActive(companyId, automationId, customerId,
                                                     CampaignKey(automationId.text, customerId.text), contentAccepted);
    }

    /**
     * `d` is what the reads at the beginning answer. Success means that every eligible customer has exactly one
     * message of the campaign, whatever else was dispatched before or at the same time.
     */
    method EnqueueCampaign(d: Directory, companyId: Id, automationId: Id, input: CampaignRequest, reference: int)
      returns (r: Result<nat, EngineError>)
      requires Valid() && automationId in automations && automations[automationId] == Automation(companyId, OneOff)
      requires IsPlain(automationId.text) && forall c :: c in d.customers ==> IsPlain(c.text)
      modifies database
      ensures Valid() && old(database.script) <= database.script
      ensures r.Ok? ==>
        var selection := DispatchSelection(d, companyId, automationId, input, reference);
        && selection.Ok? && r.value == |selection.value|
        && AllHaveExactlyOne(database.state, automationId, selection.value)
      ensures DispatchSelection(d, companyId, automationId, input, reference).Err? ==>
        r == Err(AudienceRefused(DispatchSelection(d, companyId, automationId, input, reference).error))
        && database.script == old(database.script)
    {
      hide DispatchSelection, Run, AllHaveExactlyOne, IsPlain, CampaignKey, Served, HasActive, IssuedFor, OnlyInserts;
      var selection := SelectEligibleCustomers(d, companyId, automationId, input, reference);
      if selection.Err? { return Err(AudienceRefused(selection.error)); }
      SelectedAreCustomers(d, companyId, automationId, input, reference);
      var eligibleCustomers: set<Id>, done: set<Id> := selection.value, {};
      NobodyYet(database.state, automationId);
      while done != eligibleCustomers
        invariant done <= eligibleCustomers
        invariant Valid() && old(database.script) <= database.script
        invariant AllHaveExactlyOne(database.state, automationId, done)
        decreases |eligibleCustomers - done|
      {
        assert eligibleCustomers - done != {};
        var customerId :| customerId in eligibleCustomers - done;
        ghost var before := database.script;
        var contentAccepted: bool := *;
        var enqueued; ghost var seen, mine;
        enqueued, seen, mine := EnqueueCampaignMessage(companyId, automationId, customerId, contentAccepted);
        if enqueued.Err? { return Err(enqueued.error); }
        OnlyTheEngineInserts();
        OneMoreHasExactlyOne(automations, before, database.script, automationId, done, customerId);
        RestShrinks(eligibleCustomers, done, customerId);
        done := done + {customerId};
      }
      return Ok(|eligibleCustomers|);
    }

    /**
     * A recurring automation: nothing for a customer who may not be contacted; otherwise success means that the
     * customer has a message of the automation, and it is the only one of that date.
     */
    method SendMessage(companyId: Id, automationId: Id, isBirthday: bool, customerId: Id, customer: Customer,
                       policy: Option<UnknownPolicy>, date: string, contentAccepted: bool)
      returns (r: Result<(), EngineError>, ghost mine: Option<nat>)
      requires Valid() && automationId in automations && automations[automationId] == Automation(companyId, Recurring(isBirthday))
      requires IsPlain(automationId.text) && IsPlain(customerId.text) && IsPlain(date)
      modifies database
      ensures Valid() && old(database.script) <= database.script
      ensures policy == None || !customer.active || customer.consent == OptedOut
              || (customer.consent == Unknown && policy == Some(BlockUnknown)) ==>
        r.Ok? && database.script == old(database.script)
      ensures r.Ok? && policy.Some? && customer.active
              && (customer.consent == Granted || (customer.consent == Unknown && policy.value == AllowUnknownWithDeclaration)) ==>
        HasMessage(database.state, automationId, customerId)
      ensures HasAtMostOne(database.state, RecurringKey(automationId.text, customerId.text, isBirthday, date), companyId)
      ensures mine.Some? ==>
        && |old(database.script)| <= mine.value < |database.script|
        && IssuedFor(database.script[mine.value], companyId, automationId, customerId,
                     RecurringKey(automationId.text, customerId.text, isBirthday, date))
    {
      hide Run, IsPlain, RecurringKey, HasDate;
      mine := None;
      KeysAreUnique(database.script);
      if policy == None || !IsEligible(customer, policy.value) { return Ok(()), mine; }
      DateFollows(automationId, customerId, isBirthday, date);
      ghost var seen, answered;
      r, seen, mine, answered := EnqueueUnlessActive(companyId, automationId, customerId,
                                                     RecurringKey(automationId.text, customerId.text, isBirthday, date),
                                                     contentAccepted);
      KeysAreUnique(database.script);
      OnlyTheEngineInserts();
      if r.Ok? { ServedByRecurringKey(automations, database.script, companyId, automationId, customerId, isBirthday, date); }
    }
  }

  /** An insert that is for the customer, by the automation, under the key, with a channel pinned. */
  predicate IssuedFor(a: Action, companyId: Id, automationId: Id, customerId: Id, key: string) {
    && a.Insert? && a.draft.companyId == companyId && a.draft.automationId == Some(automationId)
    && a.draft.customerId == Some(customerId) && a.draft.key == key && a.draft.channelId.Some?
  }

  predicate HasMessage(s: State, automationId: Id, customerId: Id) {
    exists id :: id in s.rows && s.rows[id].draft.automationId == Some(automationId) && s.rows[id].draft.customerId == Some(customerId)
  }

  ghost predicate HasExactlyOne(s: State, automationId: Id, customerId: Id) {
    exists x :: x in s.rows && IsTheOnlyOne(s, x, automationId, customerId)
  }

  ghost predicate AllHaveExactlyOne(s: State, automationId: Id, ids: set<Id>) {
    forall c :: c in ids ==> HasExactlyOne(s, automationId, c)
  }

  lemma NobodyYet(s: State, automationId: Id)
    ensures AllHaveExactlyOne(s, automationId, {})
  {
  }

  lemma OneMoreHasExactlyOne(automations: map<Id, Automation>, earlier: seq<Action>, later: seq<Action>, a: Id, ids: set<Id>, c: Id)
    requires OnlyEngineInserts(automations, later) && earlier <= later && AllHaveExactlyOne(Run(EMPTY, earlier), a, ids)
    requires a in automations && automations[a].kind == OneOff && IsPlain(a.text) && IsPlain(c.text)
    requires Served(Run(EMPTY, later), automations[a].companyId, a, c, CampaignKey(a.text, c.text))
    ensures AllHaveExactlyOne(Run(EMPTY, later), a, ids + {c})
  {
    hide Run, HasExactlyOne, CampaignKey, Served, IsPlain, OnlyEngineInserts;
    ServedMeansExactlyOne(automations, later, a, c);
    forall d | d in ids ensures HasExactlyOne(Run(EMPTY, later), a, d) {
      StaysExactlyOne(automations, earlier, later, a, d);
    }
  }

  ghost predicate HasAtMostOne(s: State, key: string, companyId: Id) {
    forall x, y :: x in s.rows && y in s.rows && HasKey(s.rows[x], companyId, key) && HasKey(s.rows[y], companyId, key) ==> x == y
  }

  lemma KeysAreUnique(actions: seq<Action>)
    ensures forall key, companyId :: HasAtMostOne(Run(EMPTY, actions), key, companyId)
  {
    hide Run;
    EveryRunIsOk(actions);
  }

  lemma SelectedAreCustomers(d: Directory, companyId: Id, automationId: Id, input: CampaignRequest, reference: int)
    ensures var selection := DispatchSelection(d, companyId, automationId, input, reference);
      selection.Ok? ==> selection.value <= d.customers.Keys
  {
    hide BuildAudienceWhere, NormalizeCustomerIds, Satisfies;
  }

  lemma StaysExactlyOne(automations: map<Id, Automation>, earlier: seq<Action>, later: seq<Action>, a: Id, c: Id)
    requires OnlyEngineInserts(automations, later) && earlier <= later && HasExactlyOne(Run(EMPTY, earlier), a, c)
    requires a in automations && automations[a].kind == OneOff
    ensures HasExactlyOne(Run(EMPTY, later), a, c)
  {
    hide Run;
    var x :| x in Run(EMPTY, earlier).rows && IsTheOnlyOne(Run(EMPTY, earlier), x, a, c);
    RowsStay(earlier, later, x);
    var rows := Run(EMPTY, later).rows;
    forall y | y in rows && rows[y].draft.automationId == Some(a) && rows[y].draft.customerId == Some(c) ensures y == x {
      OneMessagePerCampaignAndCustomer(automations, later, x, y, a, c);
    }
  }

  lemma ServedByRecurringKey(automations: map<Id, Automation>, actions: seq<Action>, companyId: Id, a: Id, c: Id,
                             isBirthday: bool, date: string)
    requires OnlyEngineInserts(automations, actions) && IsPlain(a.text) && IsPlain(c.text) && IsPlain(date)
    requires Served(Run(EMPTY, actions), companyId, a, c, RecurringKey(a.text, c.text, isBirthday, date))
    ensures HasMessage(Run(EMPTY, actions), a, c)
  {
    hide Run, RecurringKey, IsPlain, HasDate;
    var key := RecurringKey(a.text, c.text, isBirthday, date);
    var rows := Run(EMPTY, actions).rows;
    var x :| x in rows && Serves(rows[x], companyId, a, c, key);
    DateFollows(a, c, isBirthday, date);
    EngineKeysAreTrimmed(Recurring(isBirthday), a, c, key);
    if rows[x].draft.key == key { RecurringKeyFindsItsOwn(automations, actions, x, a, c, isBirthday, date); }
  }
}
