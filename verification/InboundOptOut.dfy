/**
 * An inbound opt-out command: every customer of the company that is stored under any spelling of
 * the sender's phone is opted out, one consent update after the other, among all other activity.
 */
module InboundOptOut {
  import opened Basics
  import opened Consent
  import opened OutboundRow
  import opened PhoneIdentity
  import opened QueueMachine
  import opened QueueInvariants
  import opened QueueRuns
  import opened QueueSteps
  import opened QueueOptOut
  import opened QueueDatabase

  datatype OptOutResult = Applied | AlreadyOptedOut | CustomerNotFound | NotACommand

  datatype Failure = BadRequest | NotFound | DatabaseError

  /** The customers the query finds. */
  function FoundBy(s: State, companyId: Id, variants: seq<string>): set<Id> {
    set c | c in s.customers && s.customers[c].companyId == companyId && s.customers[c].phone in variants
  }

  /** The action at position `p` of the script recorded the consent change of the customer. */
  predicate Took(script: seq<Action>, p: nat, companyId: Id, c: Id, granted: bool) {
    && p < |script| && script[p].SetConsent? && script[p].companyId == companyId && script[p].customerId == c
    && script[p].granted == granted
    && Run(EMPTY, script[..p + 1]).trace == Run(EMPTY, script[..p]).trace + [ConsentSet(c, granted)]
  }

  /** The length of the trace right after the action at position `p`. */
  function PositionOf(script: seq<Action>, p: nat): nat
    requires p < |script|
  {
    |Run(EMPTY, script[..p + 1]).trace|
  }

  lemma RunGrows(s: State, more: seq<Action>)
    ensures s.trace <= Run(s, more).trace && s.retired <= Run(s, more).retired
    decreases more
  {
    hide Step;
    if more != [] {
      StepAddsOneEvent(s, more[0]);
      OnlyDeletionRetires(s, more[0]);
      RunGrows(Step(s, more[0]), more[1..]);
    }
  }

  /** A customer stays with its company, or is gone. */
  lemma {:induction false} CustomersStay(s: State, more: seq<Action>, c: Id)
    requires Inv(s) && c in s.customers
    ensures var t := Run(s, more);
      if c in t.customers then t.customers[c].companyId == s.customers[c].companyId else c in t.retired
    decreases more
  {
    hide Step, Inv;
    if more != [] {
      var t := Step(s, more[0]);
      CustomerStays(s, more[0], c);
      StepKeepsInv(s, more[0]);
      if c in t.customers {
        CustomersStay(t, more[1..], c);
      } else {
        RunKeepsInv(t, more[1..]);
        RunGrows(t, more[1..]);
        RetiredIsGone(Run(t, more[1..]), c);
      }
    }
  }

  lemma RetiredIsGone(s: State, c: Id)
    requires Inv(s) && c in s.retired
    ensures c !in s.customers
  {
    assert ConsentOk(s, c);
  }

  lemma CustomerStays(s: State, a: Action, c: Id)
    requires c in s.customers
    ensures var t := Step(s, a);
      if c in t.customers then t.customers[c].companyId == s.customers[c].companyId else c in t.retired
  {
    if ActorOf(a).Some? {
      hide Step;
      WorkersLeaveOthersAlone(s, a, ActorOf(a).value);
    } else {
      hide Matches, Effect, LogsFor, KeyTaken;
    }
  }

  /** What the script has grown to since. */
  lemma Grown(earlier: seq<Action>, later: seq<Action>)
    requires earlier <= later
    ensures Run(EMPTY, later) == Run(Run(EMPTY, earlier), later[|earlier|..])
    ensures Inv(Run(EMPTY, earlier)) && Inv(Run(EMPTY, later))
    ensures Run(EMPTY, earlier).trace <= Run(EMPTY, later).trace
    ensures Run(EMPTY, earlier).retired <= Run(EMPTY, later).retired
  {
    hide Run, Inv;
    assert later == earlier + later[|earlier|..];
    RunAppend(EMPTY, earlier, later[|earlier|..]);
    RunGrows(Run(EMPTY, earlier), later[|earlier|..]);
    EveryRunIsOk(earlier);
    EveryRunIsOk(later);
  }

  lemma StillTook(earlier: seq<Action>, later: seq<Action>, p: nat, companyId: Id, c: Id, granted: bool)
    requires earlier <= later && Took(earlier, p, companyId, c, granted)
    ensures Took(later, p, companyId, c, granted) && PositionOf(later, p) == PositionOf(earlier, p)
  {
    hide Run;
    assert later[..p] == earlier[..p] && later[..p + 1] == earlier[..p + 1];
  }

  lemma StillGone(earlier: seq<Action>, later: seq<Action>, c: Id)
    requires earlier <= later && c in Run(EMPTY, earlier).retired
    ensures c in Run(EMPTY, later).retired
  {
    hide Run;
    Grown(earlier, later);
  }

  lemma SetConsentTakes(script: seq<Action>, companyId: Id, c: Id, granted: bool, now: int)
    requires CustomerFound(Run(EMPTY, script), c, companyId)
    ensures Took(script + [SetConsent(companyId, c, granted, now)], |script|, companyId, c, granted)
  {
    hide Run;
    var a := SetConsent(companyId, c, granted, now);
    RunSnoc(EMPTY, script, a);
    assert (script + [a])[..|script|] == script && (script + [a])[..|script| + 1] == script + [a];
    ConsentIsRecorded(Run(EMPTY, script), companyId, c, granted, now);
  }

  lemma ConsentIsRecorded(s: State, companyId: Id, c: Id, granted: bool, now: int)
    requires CustomerFound(s, c, companyId)
    ensures Step(s, SetConsent(companyId, c, granted, now)).trace == s.trace + [ConsentSet(c, granted)]
  {
  }

  /** A customer that was found is still there, or gone for good. */
  lemma FoundOrGone(earlier: seq<Action>, later: seq<Action>, companyId: Id, c: Id)
    requires earlier <= later && CustomerFound(Run(EMPTY, earlier), c, companyId)
    ensures CustomerFound(Run(EMPTY, later), c, companyId) || c in Run(EMPTY, later).retired
  {
    hide Run, Inv;
    Grown(earlier, later);
    CustomersStay(Run(EMPTY, earlier), later[|earlier|..], c);
  }

  class CustomerConsentService {
    const database: Database

    constructor (database: Database)
      ensures this.database == database
    {
      this.database := database;
    }

    /**
     * Grants or withdraws. `written` is the position in the script of the write of this call, if it came that
     * far. Success means that this write took effect; success or not found, that it did or the customer is
     * gone, if it was there before. `replies` are what became of the calls to the database: only a failed one
     * ends in a database error.
     */
    method UpdateConsent(companyId: Id, customerId: Id, status: ConsentStatus)
      returns (r: Result<Customer, Failure>, ghost written: Option<nat>, ghost replies: seq<Reply>)
      requires database.Valid()
      modifies database
      ensures database.Valid() && old(database.script) <= database.script
      ensures status == Unknown <==> r == Err(BadRequest)
      ensures status == Unknown ==> database.script == old(database.script) && written == None
      ensures written.Some? ==>
        |old(database.script)| <= written.value && Took(database.script, written.value, companyId, customerId, status == Granted)
      ensures r.Ok? ==>
        && written.Some?
        && CustomerFound(database.state, customerId, companyId) && r.value == database.state.customers[customerId]
      ensures r.Err? && r.error == NotFound && old(CustomerFound(database.state, customerId, companyId)) ==>
        customerId in database.state.retired
      ensures r == Err(DatabaseError) ==> replies != [] && replies[|replies| - 1] != Answered
      ensures |replies| >= 2 && replies[1] == LostBefore ==> written == None
      ensures r.Ok? ==> forall k :: 0 <= k < |replies| ==> replies[k] == Answered
    {
      hide Run, Step, Inv, Took, CustomerFound, Blocked, OnlyInserts;
      written, replies := None, [];
      if status == Unknown { return Err(BadRequest), written, replies; }
      ghost var start := database.script;
      ghost var answer;
      r, answer := FindFirst(companyId, customerId, start);
      replies := replies + [answer];
      if r.Err? { return; }

      database.Others(None);
      var reply: Reply, now: int := *, *;
      replies := replies + [reply];
      if reply == LostBefore { return Err(DatabaseError), written, replies; }
      var count := if CustomerFound(database.state, customerId, companyId) then 1 else 0;
      ghost var before := database.script;
      if count == 1 {
        SetConsentTakes(before, companyId, customerId, status == Granted, now);
        written := Some(|before|);
      } else {
        NotFoundMeansGone(start, before, companyId, customerId);
      }
      database.Do(SetConsent(companyId, customerId, status == Granted, now));
      ghost var after := database.script;
      if reply == LostAfter { return Err(DatabaseError), written, replies; }
      if count != 1 {
        if CustomerFound(Run(EMPTY, start), customerId, companyId) { StillGone(before, after, customerId); }
        return Err(NotFound), written, replies;
      }

      r, answer := FindFirst(companyId, customerId, start);
      replies := replies + [answer];
      StillTook(after, database.script, |before|, companyId, customerId, status == Granted);
    }

    /** Reads the customer of the company; one that was there when the script was `start` and is not found is gone. */
    method FindFirst(companyId: Id, customerId: Id, ghost start: seq<Action>)
      returns (r: Result<Customer, Failure>, ghost answer: Reply)
      requires database.Valid() && start <= database.script
      modifies database
      ensures database.Valid() && old(database.script) <= database.script
      ensures match r
        case Ok(customer) =>
          && answer == Answered && CustomerFound(database.state, customerId, companyId)
          && customer == database.state.customers[customerId]
        case Err(why) =>
          if answer != Answered then why == DatabaseError
          else why == NotFound && !CustomerFound(database.state, customerId, companyId)
               && (CustomerFound(Run(EMPTY, start), customerId, companyId) ==> customerId in database.state.retired)
    {
      hide Run, Step;
      var reply: Reply := *;
      answer := reply;
      database.Others(None);
      if reply != Answered { return Err(DatabaseError), answer; }
      if !CustomerFound(database.state, customerId, companyId) {
        NotFoundMeansGone(start, database.script, companyId, customerId);
        return Err(NotFound), answer;
      }
      return Ok(database.state.customers[customerId]), answer;
    }
  }

  lemma NotFoundMeansGone(earlier: seq<Action>, later: seq<Action>, companyId: Id, c: Id)
    requires earlier <= later && !CustomerFound(Run(EMPTY, later), c, companyId)
    ensures CustomerFound(Run(EMPTY, earlier), c, companyId) ==> c in Run(EMPTY, later).retired
  {
    hide Run;
    if CustomerFound(Run(EMPTY, earlier), c, companyId) { FoundOrGone(earlier, later, companyId, c); }
  }

  /** What has become of a customer that the query found: opted out before, or by a write of the call, or gone. */
  predicate Handled(script: seq<Action>, scan: seq<Action>, companyId: Id, c: Id, writes: map<Id, nat>) {
    || Blocked(Run(EMPTY, scan).trace, c)
    || c in Run(EMPTY, script).retired
    || (c in writes && |scan| <= writes[c] && Took(script, writes[c], companyId, c, false))
  }

  lemma StaysHandled(earlier: seq<Action>, later: seq<Action>, scan: seq<Action>, companyId: Id, c: Id,
                     writes: map<Id, nat>, more: map<Id, nat>)
    requires earlier <= later && Handled(earlier, scan, companyId, c, writes)
    requires c in writes ==> c in more && more[c] == writes[c]
    ensures Handled(later, scan, companyId, c, more)
  {
    hide Run, Took, Blocked;
    if c in Run(EMPTY, earlier).retired {
      StillGone(earlier, later, c);
    } else if !Blocked(Run(EMPTY, scan).trace, c) {
      StillTook(earlier, later, writes[c], companyId, c, false);
    }
  }

  ghost predicate AllHandled(script: seq<Action>, scan: seq<Action>, companyId: Id, ids: set<Id>, writes: map<Id, nat>) {
    forall c :: c in ids ==> Handled(script, scan, companyId, c, writes)
  }

  /** The writes are opt-outs of these customers, made after the scan. */
  ghost predicate OptOutsOf(script: seq<Action>, scan: seq<Action>, companyId: Id, ids: set<Id>, writes: map<Id, nat>) {
    forall c :: c in writes ==> c in ids && |scan| <= writes[c] && Took(script, writes[c], companyId, c, false)
  }

  /** One customer more: opted out by the write at `p`, or gone. */
  lemma OneMoreHandled(before: seq<Action>, after: seq<Action>, scan: seq<Action>, companyId: Id, ids: set<Id>,
                       handled: set<Id>, writes: map<Id, nat>, c: Id, p: Option<nat>)
    requires before <= after && c in ids && c !in writes
    requires AllHandled(before, scan, companyId, handled, writes) && OptOutsOf(before, scan, companyId, ids, writes)
    requires if p.Some? then |scan| <= p.value && Took(after, p.value, companyId, c, false) else c in Run(EMPTY, after).retired
    ensures var more := if p.Some? then writes[c := p.value] else writes;
      AllHandled(after, scan, companyId, handled + {c}, more) && OptOutsOf(after, scan, companyId, ids, more)
  {
    hide Run, Took, Blocked, Handled;
    var more := if p.Some? then writes[c := p.value] else writes;
    OptOutsStay(before, after, scan, companyId, ids, writes);
    JustHandled(after, scan, companyId, c, more);
    forall h | h in handled && h != c ensures Handled(after, scan, companyId, h, more) {
      StaysHandled(before, after, scan, companyId, h, writes, more);
    }
  }

  lemma JustHandled(script: seq<Action>, scan: seq<Action>, companyId: Id, c: Id, writes: map<Id, nat>)
    requires c in Run(EMPTY, script).retired || (c in writes && |scan| <= writes[c] && Took(script, writes[c], companyId, c, false))
    ensures Handled(script, scan, companyId, c, writes)
  {
  }

  lemma OptOutsStay(before: seq<Action>, after: seq<Action>, scan: seq<Action>, companyId: Id, ids: set<Id>, writes: map<Id, nat>)
    requires before <= after && OptOutsOf(before, scan, companyId, ids, writes)
    ensures OptOutsOf(after, scan, companyId, ids, writes)
  {
    hide Took;
    forall c | c in writes ensures Took(after, writes[c], companyId, c, false) {
      StillTook(before, after, writes[c], companyId, c, false);
    }
  }

  lemma AlreadyBlocked(scan: seq<Action>, companyId: Id, handled: set<Id>)
    requires var s := Run(EMPTY, scan);
      forall c :: c in handled ==> c in s.customers && s.customers[c].consent == OptedOut
    ensures AllHandled(scan, scan, companyId, handled, map[])
  {
    hide Run, Inv, Blocked;
    EveryRunIsOk(scan);
    forall c | c in handled ensures Blocked(Run(EMPTY, scan).trace, c) { OptedOutIsBlocked(Run(EMPTY, scan), c); }
  }

  lemma OptedOutIsBlocked(s: State, c: Id)
    requires Inv(s) && c in s.customers && s.customers[c].consent == OptedOut
    ensures Blocked(s.trace, c)
  {
    assert ConsentOk(s, c);
  }

  class InboundOptOutService {
    const database: Database
    const consents: CustomerConsentService

    constructor (database: Database)
      ensures this.database == database && consents.database == database
    {
      this.database := database;
      consents := new CustomerConsentService(database);
    }

    /**
     * `scan` is the script at the moment of the query, `writes` the positions of the opt-outs that this call
     * wrote. Unless it throws, the command leaves every customer that the query found opted out or gone; it
     * is applied exactly when this call opted somebody out. `failed` tells that a call to the database failed,
     * without which it does not throw.
     */
    method Process(companyId: Id, isCommand: bool, phone: string)
      returns (r: Result<OptOutResult, Failure>, ghost scan: seq<Action>, ghost writes: map<Id, nat>, ghost failed: bool)
      requires database.Valid() && consents.database == database
      modifies database
      ensures database.Valid() && old(database.script) <= scan <= database.script
      ensures isCommand && r.Ok? ==>
        AllHandled(database.script, scan, companyId, FoundBy(Run(EMPTY, scan), companyId, IdentityVariants(phone)), writes)
      ensures OptOutsOf(database.script, scan, companyId, FoundBy(Run(EMPTY, scan), companyId, IdentityVariants(phone)), writes)
      ensures r.Err? ==> failed && r.error == DatabaseError
      ensures r == Ok(NotACommand) <==> !isCommand
      ensures r == Ok(Applied) ==> writes != map[]
      ensures r.Ok? && r != Ok(Applied) ==> writes == map[]
      ensures r == Ok(AlreadyOptedOut) ==>
        && database.script == scan
        && forall c :: c in FoundBy(database.state, companyId, IdentityVariants(phone)) ==>
             database.state.customers[c].consent == OptedOut
    {
      hide Step, Run, IdentityVariants, AllHandled, OptOutsOf, Inv;
      scan, writes, failed := database.script, map[], false;
      NothingHandled(database.script, scan, companyId, FoundBy(database.state, companyId, IdentityVariants(phone)));
      if !isCommand { return Ok(NotACommand), scan, writes, failed; }
      var variants := IdentityVariants(phone);
      if |variants| == 0 {
        NobodyIsFound(database.state, companyId, variants);
        return Ok(CustomerNotFound), scan, writes, failed;
      }

      database.Others(None);
      scan := database.script;
      var answered: bool := *;
      failed := !answered;
      var customers := FoundBy(database.state, companyId, variants);
      NothingHandled(database.script, scan, companyId, customers);
      if !answered { return Err(DatabaseError), scan, writes, failed; }
      if customers == {} { return Ok(CustomerNotFound), scan, writes, failed; }
      var toOptOut := set c | c in customers && database.state.customers[c].consent != OptedOut;
      ghost var handled := customers - toOptOut;
      AlreadyBlocked(scan, companyId, handled);
      if toOptOut == {} {
        assert handled == customers;
        return Ok(AlreadyOptedOut), scan, writes, failed;
      }

      var error, updatedCustomers;
      error, updatedCustomers, writes, failed := OptOutEach(companyId, toOptOut, scan, customers);
      if error.Some? { return Err(error.value), scan, writes, failed; }
      return Ok(if updatedCustomers > 0 then Applied else CustomerNotFound), scan, writes, failed;
    }

    /** The loop over the customers that are to be opted out; it goes on when one of them is gone, and counts the others. */
    method OptOutEach(companyId: Id, targets: set<Id>, ghost scan: seq<Action>, ghost customers: set<Id>)
      returns (error: Option<Failure>, updatedCustomers: nat, ghost writes: map<Id, nat>, ghost failed: bool)
      requires database.Valid() && consents.database == database && scan <= database.script && targets <= customers
      requires forall c :: c in targets ==> CustomerFound(Run(EMPTY, scan), c, companyId)
      requires AllHandled(database.script, scan, companyId, customers - targets, map[])
      modifies database
      ensures database.Valid() && old(database.script) <= database.script
      ensures OptOutsOf(database.script, scan, companyId, customers, writes)
      ensures error == None ==> AllHandled(database.script, scan, companyId, customers, writes)
      ensures error == None ==> updatedCustomers == |writes|
      ensures error.Some? ==> failed && error.value == DatabaseError
    {
      hide Step, Run, AllHandled, OptOutsOf, Inv;
      NothingHandled(database.script, scan, companyId, customers);
      error, updatedCustomers, writes, failed := None, 0, map[], false;
      var toOptOut := targets;
      ghost var handled := customers - targets;
      while toOptOut != {}
        invariant database.Valid() && old(database.script) <= database.script
        invariant toOptOut <= targets && handled + toOptOut == customers && writes.Keys !! toOptOut
        invariant AllHandled(database.script, scan, companyId, handled, writes)
        invariant OptOutsOf(database.script, scan, companyId, customers, writes)
        invariant updatedCustomers == |writes|
        decreases toOptOut
      {
        var c :| c in toOptOut;
        ghost var before := database.script;
        var result; ghost var written;
        result, written, failed := OptOut(companyId, c, scan);
        if result.Err? && result.error != NotFound {
          OptOutsStay(before, database.script, scan, companyId, customers, writes);
          return Some(result.error), updatedCustomers, writes, failed;
        }
        written := if result.Ok? then written else None;
        OneMoreHandled(before, database.script, scan, companyId, customers, handled, writes, c, written);
        if result.Ok? {
          updatedCustomers := updatedCustomers + 1;
          writes := writes[c := written.value];
        }
        toOptOut, handled := toOptOut - {c}, handled + {c};
      }
      assert handled == customers;
    }

    /** One round of the loop. */
    method OptOut(companyId: Id, c: Id, ghost scan: seq<Action>)
      returns (r: Result<Customer, Failure>, ghost written: Option<nat>, ghost failed: bool)
      requires database.Valid() && consents.database == database && scan <= database.script
      requires CustomerFound(Run(EMPTY, scan), c, companyId)
      modifies database
      ensures database.Valid() && old(database.script) <= database.script
      ensures r.Ok? ==>
        written.Some? && |scan| <= written.value && Took(database.script, written.value, companyId, c, false)
      ensures r == Err(NotFound) ==> c in database.state.retired
      ensures r.Err? && r.error != NotFound ==> failed && r.error == DatabaseError
    {
      hide Run, Took;
      ghost var before := database.script;
      FoundOrGone(scan, before, companyId, c);
      ghost var replies;
      r, written, replies := consents.UpdateConsent(companyId, c, OptedOut);
      failed := replies != [] && replies[|replies| - 1] != Answered;
      if c in Run(EMPTY, before).retired { StillGone(before, database.script, c); }
    }
  }

  lemma NothingHandled(script: seq<Action>, scan: seq<Action>, companyId: Id, ids: set<Id>)
    ensures AllHandled(script, scan, companyId, {}, map[]) && OptOutsOf(script, scan, companyId, ids, map[])
  {
  }

  lemma NobodyIsFound(s: State, companyId: Id, variants: seq<string>)
    requires variants == []
    ensures FoundBy(s, companyId, variants) == {}
  {
  }

  /** The query finds exactly the company's customers stored under the sender's identity. */
  lemma FindsEveryStoredSpelling(s: State, companyId: Id, phone: string, c: Id)
    requires IsValid(NormalizePhone(phone))
    requires c in s.customers && s.customers[c].companyId == companyId && IsStoredForm(s.customers[c].phone)
    ensures c in FoundBy(s, companyId, IdentityVariants(phone)) <==> NormalizePhone(s.customers[c].phone) == NormalizePhone(phone)
  {
    VariantsAreTheIdentityClass(phone, s.customers[c].phone);
  }

  lemma TookMeansBlocked(done: seq<Action>, p: nat, companyId: Id, c: Id)
    requires Took(done, p, companyId, c, false)
    ensures var q := PositionOf(done, p);
      q <= |Run(EMPTY, done).trace| && Blocked(Run(EMPTY, done).trace[..q], c)
  {
    hide Run;
    var before, after := Run(EMPTY, done[..p]), Run(EMPTY, done[..p + 1]);
    Grown(done[..p + 1], done);
    BlockedSnoc(before.trace, ConsentSet(c, false), c);
    assert Run(EMPTY, done).trace[..|after.trace|] == after.trace;
  }

  /**
   * End to end: from the write of an opt-out on, and until a grant follows it, no acquisition makes a call for
   * the customer, whatever happens in between; deleting the customer is the one exception.
   */
  lemma ProcessedOptOutsHold(done: seq<Action>, more: seq<Action>, a: Action, p: nat, companyId: Id, c: Id, w: Id, id: Id,
                             since: nat)
    requires Took(done, p, companyId, c, false)
    requires var q, s := PositionOf(done, p), Run(EMPTY, done + more);
      && q <= since
      && (forall k :: q <= k < |s.trace| ==> s.trace[k] != ConsentSet(c, true))
      && Step(s, a).trace == s.trace + [Called(w, id, since)]
    ensures var s := Run(EMPTY, done + more);
      id in s.rows && (s.rows[id].draft.customerId == Some(c) ==> c in s.retired)
  {
    hide Run, Step, Inv;
    var q := PositionOf(done, p);
    Grown(done, done + more);
    TookMeansBlocked(done, p, companyId, c);
    assert Run(EMPTY, done + more).trace[..q] == Run(EMPTY, done).trace[..q];
    OptOutHolds(done + more, a, c, q, w, id, since);
  }
}
