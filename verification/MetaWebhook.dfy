/** The delivery webhook: per event a read, a decision and a compare-and-set, among all other activity. */
module MetaWebhook {
  import opened Basics
  import opened DeliveryOrder
  import opened OutboundRow
  import opened QueueMachine
  import opened QueueInvariants
  import opened QueueRuns
  import opened QueueSteps
  import opened QueueGuarantees
  import opened QueueDatabase

  datatype StatusEvent = StatusEvent(messageId: Id, status: Receipt, timestamp: Option<int>, errorCode: Option<string>)

  datatype Unavailable = Ambiguous | TemporarilyUnavailable

  /** The messages a provider reference is found in. */
  function Correlated(s: State, messageId: Id): set<Id> {
    set id | id in s.rows && s.rows[id].provider == Some(MetaCloud) && s.rows[id].providerMessageId == Some(messageId)
  }

  /**
   * How a call handled an event: it was correlated, in the state that `readAfter` leads to, with `found`; its receipt,
   * if it made one, is at position `written` of the script, and `clock` is the time of a receipt that came without one.
   * `answered` and `reply` are what became of the read and of the write.
   */
  datatype Handling = Handling(readAfter: seq<Action>, answered: bool, found: Option<Id>, written: Option<nat>, clock: int,
                               reply: Reply)

  /** The message found is the only one that the provider knows by this reference. */
  ghost predicate IsCorrelated(s: State, messageId: Id, found: Option<Id>) {
    && (found.Some? ==> found.value in s.rows)
    && forall id :: id in s.rows ==>
         (found == Some(id) <==> s.rows[id].provider == Some(MetaCloud) && s.rows[id].providerMessageId == Some(messageId))
  }

  /** The event was correlated then, and cannot advance its message any more now. */
  ghost predicate Processed(now: State, event: StatusEvent, h: Handling) {
    && IsCorrelated(Run(EMPTY, h.readAfter), event.messageId, h.found)
    && (h.found.Some? ==> h.found.value in now.rows && !CanAdvance(now.rows[h.found.value].delivery, event.status))
  }

  /** Either the event could not advance what was read, or its receipt took effect and stored what the event says. */
  ghost predicate Recorded(script: seq<Action>, event: StatusEvent, h: Handling) {
    h.found.Some? ==>
      var id := h.found.value;
      match h.written
      case None =>
        id in Run(EMPTY, h.readAfter).rows && !CanAdvance(Run(EMPTY, h.readAfter).rows[id].delivery, event.status)
      case Some(p) =>
        && |h.readAfter| <= p < |script|
        && var before, after := Run(EMPTY, script[..p]).rows, Run(EMPTY, script[..p + 1]).rows;
        && id in before && id in after
        && ReceiptStored(before[id], after[id], event.status,
                         if event.timestamp.Some? then event.timestamp.value else h.clock,
                         if event.errorCode.Some? then event.errorCode.value else "META_DELIVERY_FAILED")
  }

  predicate IsReferenced(row: Row, messageId: Id) { row.provider == Some(MetaCloud) && row.providerMessageId == Some(messageId) }

  /** More than one message has the reference. */
  predicate IsAmbiguous(s: State, messageId: Id) {
    exists a, b :: a in s.rows && b in s.rows && a != b && IsReferenced(s.rows[a], messageId) && IsReferenced(s.rows[b], messageId)
  }

  /** Between the read and the write somebody else moved the delivery status. */
  ghost predicate WasOvertaken(script: seq<Action>, h: Handling) {
    && h.found.Some? && h.written.Some? && h.written.value < |script|
    && var read, now := Run(EMPTY, h.readAfter).rows, Run(EMPTY, script[..h.written.value]).rows;
    h.found.value in read && h.found.value in now && now[h.found.value].delivery != read[h.found.value].delivery
  }

  /** Why an event was refused: several messages have its reference; or a call failed, or somebody else was faster. */
  ghost predicate HasReason(script: seq<Action>, event: StatusEvent, h: Handling, why: Unavailable) {
    match why
    case Ambiguous => h.readAfter <= script && IsAmbiguous(Run(EMPTY, h.readAfter), event.messageId)
    case TemporarilyUnavailable => !h.answered || h.reply != Answered || WasOvertaken(script, h)
  }

  lemma LaterRow(earlier: seq<Action>, later: seq<Action>, id: Id)
    requires earlier <= later && id in Run(EMPTY, earlier).rows
    ensures var s, t := Run(EMPTY, earlier), Run(EMPTY, later);
      id in t.rows && Succeeds(s.rows[id], t.rows[id])
  {
    hide Run, Inv, Succeeds;
    assert later == earlier + later[|earlier|..];
    RunAppend(EMPTY, earlier, later[|earlier|..]);
    EveryRunIsOk(earlier);
    RunSucceeds(Run(EMPTY, earlier), later[|earlier|..], id);
  }

  lemma StaysProcessed(earlier: seq<Action>, later: seq<Action>, event: StatusEvent, h: Handling)
    requires earlier <= later && Processed(Run(EMPTY, earlier), event, h)
    ensures Processed(Run(EMPTY, later), event, h)
  {
    hide Run;
    if h.found.Some? { LaterRow(earlier, later, h.found.value); }
  }

  lemma StaysRecorded(earlier: seq<Action>, later: seq<Action>, event: StatusEvent, h: Handling)
    requires earlier <= later && Recorded(earlier, event, h)
    ensures Recorded(later, event, h)
  {
    hide Run, ReceiptStored;
    if h.found.Some? && h.written.Some? {
      assert later[..h.written.value] == earlier[..h.written.value];
      assert later[..h.written.value + 1] == earlier[..h.written.value + 1];
    }
  }

  /** An event that was processed can never again advance its message, in whatever state comes later. */
  lemma AcknowledgedEventsStaySettled(actions: seq<Action>, more: seq<Action>, event: StatusEvent, h: Handling)
    requires Processed(Run(EMPTY, actions), event, h) && h.found.Some?
    ensures var t, id := Run(EMPTY, actions + more), h.found.value;
      && id in t.rows && !CanAdvance(t.rows[id].delivery, event.status)
      && Advance(t.rows[id].delivery, event.status) == t.rows[id].delivery
  {
    StaysProcessed(actions, actions + more, event, h);
  }

  class MetaWebhookService {
    const database: Database

    constructor (database: Database)
      ensures this.database == database
    {
      this.database := database;
    }

    /**
     * Success acknowledges the batch: every event of it was correlated at some moment of this call with no message,
     * or with exactly one, which it can no longer advance; and unless it could not advance it from the start, the
     * time and the error code of the event were stored.
     */
    method Handle(events: seq<StatusEvent>) returns (r: Result<(), Unavailable>, ghost handled: seq<Handling>)
      requires database.Valid()
      modifies database
      ensures database.Valid() && old(database.script) <= database.script
      ensures r.Ok? ==> |handled| == |events|
      ensures r.Err? ==>
        0 < |handled| <= |events| && HasReason(database.script, events[|handled| - 1], handled[|handled| - 1], r.error)
      ensures r.Ok? ==> forall k :: 0 <= k < |events| ==>
        && old(database.script) <= handled[k].readAfter <= database.script
        && Processed(database.state, events[k], handled[k]) && Recorded(database.script, events[k], handled[k])
    {
      hide Recorded, Processed, HasReason;
      handled := [];
      for i := 0 to |events|
        invariant database.Valid() && old(database.script) <= database.script
        invariant |handled| == i
        invariant forall k :: 0 <= k < i ==>
          && old(database.script) <= handled[k].readAfter <= database.script
          && Processed(database.state, events[k], handled[k]) && Recorded(database.script, events[k], handled[k])
      {
        ghost var before := database.script;
        database.Others(None);
        var result; ghost var h;
        result, h := HandleEvent(events[i]);
        if result != None { return Err(result.value), handled + [h]; }
        forall k | 0 <= k < i
          ensures Processed(database.state, events[k], handled[k]) && Recorded(database.script, events[k], handled[k])
        {
          StaysProcessed(before, database.script, events[k], handled[k]);
          StaysRecorded(before, database.script, events[k], handled[k]);
        }
        handled := handled + [h];
      }
      return Ok(()), handled;
    }

    method HandleEvent(event: StatusEvent) returns (error: Option<Unavailable>, ghost h: Handling)
      requires database.Valid()
      modifies database
      ensures database.Valid() && old(database.script) <= database.script
      ensures error == None ==> old(database.script) <= h.readAfter <= database.script
      ensures error == None ==> Processed(database.state, event, h) && Recorded(database.script, event, h)
      ensures error.Some? ==> HasReason(database.script, event, h, error.value)
      ensures error == None ==> h.answered && h.reply == Answered
      ensures h.written.Some? ==> (h.reply == LostBefore <==> h.written.value == |database.script|)
    {
      hide Run, Step, CanAdvance, Guard, Succeeds, ReceiptStored, IsCorrelated, WasOvertaken;
      var answered: bool := *;
      h := Handling(database.script, answered, None, None, 0, Answered);
      if !answered { return Some(TemporarilyUnavailable), h; }
      var matches := Correlated(database.state, event.messageId);
      if |matches| > 1 {
        SeveralCorrelate(database.state, event.messageId);
        return Some(Ambiguous), h;
      }
      if matches == {} {
        NobodyCorrelates(database.state, event.messageId);
        return None, h;
      }
      var id :| id in matches;
      OnlyMember(matches, id);
      h := h.(found := Some(id));
      OnlyOneCorrelates(database.state, event.messageId, id);
      var message := database.state.rows[id];
      if !CanAdvance(message.delivery, event.status) { return None, h; }

      var clock: int := *;
      var timestamp := if event.timestamp.Some? then event.timestamp.value else clock;
      var code := if event.errorCode.Some? then event.errorCode.value else "META_DELIVERY_FAILED";
      database.Others(None);
      h := h.(written := Some(|database.script|), clock := clock);
      var receipt := ApplyReceipt(id, message.draft.companyId, event.messageId, message.delivery, event.status,
                                  timestamp, message.sentAt, code);
      var op := Deliver(event.messageId, message.delivery, event.status, timestamp, message.sentAt, code);
      var count := if Matches(database.state, id, message.draft.companyId, op) then 1 else 0;
      SentWhenCorrelated(h.readAfter, database.script, event.messageId, id);
      if count == 1 { ReceiptTakes(database.script, receipt); }
      var reply: Reply := *;
      h := h.(reply := reply);
      if reply == LostBefore { return Some(TemporarilyUnavailable), h; }
      ghost var before := database.script;
      database.Do(receipt);
      assert database.script[..|before|] == before && database.script[..|before| + 1] == database.script;
      if count != 1 { MissedItsRow(before, database.script, receipt, h); }
      if reply == LostAfter || count != 1 { return Some(TemporarilyUnavailable), h; }
      return None, h;
    }
  }

  lemma SeveralCorrelate(s: State, messageId: Id)
    requires |Correlated(s, messageId)| > 1
    ensures IsAmbiguous(s, messageId)
  {
    var a :| a in Correlated(s, messageId);
    assert |Correlated(s, messageId) - {a}| >= 1;
    var b :| b in Correlated(s, messageId) - {a};
  }

  /** A receipt that misses the message it was made for comes after another one. */
  lemma MissedItsRow(before: seq<Action>, script: seq<Action>, a: Action, h: Handling)
    requires a.ApplyReceipt? && script == before + [a] && h.readAfter <= before && h.written == Some(|before|)
    requires h.found == Some(a.id) && a.id in Correlated(Run(EMPTY, h.readAfter), a.messageId)
    requires Run(EMPTY, h.readAfter).rows[a.id].delivery == a.expected
    requires Run(EMPTY, h.readAfter).rows[a.id].draft.companyId == a.companyId
    requires !Matches(Run(EMPTY, before), a.id, a.companyId, Deliver(a.messageId, a.expected, a.event, a.at, a.sentAtSeen, a.code))
    ensures WasOvertaken(script, h)
  {
    hide Run, CanAdvance, Inv;
    assert script[..|before|] == before;
    EveryRunIsOk(h.readAfter);
    RowIsOk(Run(EMPTY, h.readAfter), a.id);
    LaterRow(h.readAfter, before, a.id);
  }

  lemma NobodyCorrelates(s: State, messageId: Id)
    requires Correlated(s, messageId) == {}
    ensures IsCorrelated(s, messageId, None)
  {
    forall id | id in s.rows ensures !(s.rows[id].provider == Some(MetaCloud) && s.rows[id].providerMessageId == Some(messageId)) {
      assert id !in Correlated(s, messageId);
    }
  }

  lemma OnlyOneCorrelates(s: State, messageId: Id, id: Id)
    requires Correlated(s, messageId) == {id}
    ensures IsCorrelated(s, messageId, Some(id))
  {
    assert id in Correlated(s, messageId);
    forall other | other in s.rows
      ensures other == id <==> s.rows[other].provider == Some(MetaCloud) && s.rows[other].providerMessageId == Some(messageId)
    {
      assert other in Correlated(s, messageId) <==> other == id;
    }
  }

  lemma OnlyMember(ids: set<Id>, id: Id)
    requires id in ids && |ids| <= 1
    ensures ids == {id}
  {
    assert |ids - {id}| == |ids| - 1;
    assert ids - {id} == {};
  }

  /** A correlated message was sent, and stays sent. */
  lemma SentWhenCorrelated(earlier: seq<Action>, later: seq<Action>, messageId: Id, id: Id)
    requires earlier <= later && id in Correlated(Run(EMPTY, earlier), messageId)
    ensures id in Run(EMPTY, later).rows
    ensures Run(EMPTY, earlier).rows[id].sentAt.Some? && Run(EMPTY, later).rows[id].sentAt.Some?
  {
    hide Run, Inv, CanAdvance, Rank;
    EveryRunIsOk(earlier);
    RowIsOk(Run(EMPTY, earlier), id);
    LaterRow(earlier, later, id);
  }

  /** A receipt that matches is stored; it can then not advance its own message again. */
  lemma ReceiptTakes(actions: seq<Action>, a: Action)
    requires a.ApplyReceipt? && a.sentAtSeen.Some? && CanAdvance(a.expected, a.event)
    requires Matches(Run(EMPTY, actions), a.id, a.companyId,
                     Deliver(a.messageId, a.expected, a.event, a.at, a.sentAtSeen, a.code))
    ensures var s, t := Run(EMPTY, actions), Step(Run(EMPTY, actions), a);
      && a.id in t.rows && !CanAdvance(t.rows[a.id].delivery, a.event)
      && ReceiptStored(s.rows[a.id], t.rows[a.id], a.event, a.at, a.code)
  {
    hide Run, Step;
    ReceiptsOnlyMoveDelivery(actions, a, a.id);
    assert ReceiptFits(Run(EMPTY, actions).rows[a.id], a);
  }
}
