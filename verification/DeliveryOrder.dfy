/** The order in which delivery receipts may change a message that was handed to the provider. */
module DeliveryOrder {
  import opened Basics

  datatype Receipt = SentReceipt | DeliveredReceipt | ReadReceipt | FailedReceipt

  predicate CanAdvance(current: Option<Receipt>, next: Receipt) {
    match current
    case None => true
    case Some(SentReceipt) => next != SentReceipt
    case Some(status) => status == DeliveredReceipt && next == ReadReceipt
  }

  /** One event: taken over when it may advance the status, skipped otherwise. */
  function Advance(current: Option<Receipt>, event: Receipt): Option<Receipt> {
    if CanAdvance(current, event) then Some(event) else current
  }

  function Fold(current: Option<Receipt>, events: seq<Receipt>): Option<Receipt>
    decreases events
  {
    if events == [] then current else Fold(Advance(current, events[0]), events[1..])
  }

  lemma {:induction false} FoldAppend(current: Option<Receipt>, a: seq<Receipt>, b: seq<Receipt>)
    ensures Fold(current, a + b) == Fold(Fold(current, a), b)
    decreases a
  {
    if a == [] {
      assert a + b == b;
    } else {
      assert (a + b)[1..] == a[1..] + b;
      FoldAppend(Advance(current, a[0]), a[1..], b);
    }
  }

  function Rank(status: Option<Receipt>): nat {
    match status
    case None => 0
    case Some(SentReceipt) => 1
    case Some(DeliveredReceipt) => 2
    case Some(ReadReceipt) => 3
    case Some(FailedReceipt) => 3
  }

  lemma {:induction false} FoldClimbs(current: Option<Receipt>, events: seq<Receipt>)
    ensures Rank(current) <= Rank(Fold(current, events))
    ensures Rank(current) == Rank(Fold(current, events)) ==> Fold(current, events) == current
    decreases events
  {
    if events != [] {
      FoldClimbs(Advance(current, events[0]), events[1..]);
    }
  }

  /** A status that comes back was never left: comparing values is enough for the compare-and-set. */
  lemma {:induction false} StatusNeverReturns(current: Option<Receipt>, events: seq<Receipt>, k: nat)
    requires k <= |events|
    requires Fold(current, events) == current
    ensures Fold(current, events[..k]) == current
  {
    var mid := Fold(current, events[..k]);
    FoldClimbs(current, events[..k]);
    FoldClimbs(mid, events[k..]);
    FoldAppend(current, events[..k], events[k..]);
    assert events[..k] + events[k..] == events;
  }

  /** An event that cannot advance the status now cannot advance it after any further events. */
  lemma {:induction false} SettledForGood(current: Option<Receipt>, event: Receipt, later: seq<Receipt>)
    requires !CanAdvance(current, event)
    ensures !CanAdvance(Fold(current, later), event)
    decreases later
  {
    if later != [] {
      SettledForGood(Advance(current, later[0]), event, later[1..]);
    }
  }

  lemma {:induction false} ProcessedEventsAreSettled(current: Option<Receipt>, events: seq<Receipt>, k: nat)
    requires k < |events|
    ensures !CanAdvance(Fold(current, events), events[k])
  {
    var before, after := events[..k + 1], events[k + 1..];
    assert before == events[..k] + [events[k]];
    FoldAppend(current, events[..k], [events[k]]);
    assert before + after == events;
    FoldAppend(current, before, after);
    SettledForGood(Fold(current, before), events[k], after);
  }

  lemma {:induction false} NothingLeftToAdvance(current: Option<Receipt>, events: seq<Receipt>)
    requires forall k :: 0 <= k < |events| ==> !CanAdvance(current, events[k])
    ensures Fold(current, events) == current
    decreases events
  {
    if events != [] {
      NothingLeftToAdvance(current, events[1..]);
    }
  }

  /**
   * A batch that failed part-way is delivered again from its start: whatever prefix had been
   * processed already, going through it a second time changes nothing.
   */
  lemma RedeliveryIsIdempotent(current: Option<Receipt>, done: seq<Receipt>, rest: seq<Receipt>)
    ensures Fold(current, done + (done + rest)) == Fold(current, done + rest)
  {
    var reached := Fold(current, done);
    forall k | 0 <= k < |done| ensures !CanAdvance(reached, done[k]) {
      ProcessedEventsAreSettled(current, done, k);
    }
    NothingLeftToAdvance(reached, done);
    FoldAppend(current, done, done + rest);
    FoldAppend(reached, done, rest);
    FoldAppend(current, done, rest);
  }

  /** The first event other than SENT, if there is one. */
  function FirstDecisive(events: seq<Receipt>): Option<Receipt> {
    if events == [] then None
    else if events[0] != SentReceipt then Some(events[0])
    else FirstDecisive(events[1..])
  }

  /** The furthest receipt among those that do not report a failure. */
  function Furthest(events: seq<Receipt>): (r: Option<Receipt>)
    ensures r != Some(FailedReceipt)
    ensures forall e :: e in events && e != FailedReceipt ==> Rank(Some(e)) <= Rank(r)
    ensures r.Some? ==> r.value in events
  {
    if events == [] then None
    else
      var tail := Furthest(events[1..]);
      if events[0] == FailedReceipt || Rank(Some(events[0])) <= Rank(tail) then tail else Some(events[0])
  }

  lemma {:induction false} FoldFromAdvanced(current: Receipt, events: seq<Receipt>)
    requires current != FailedReceipt
    ensures current == SentReceipt && FirstDecisive(events) == Some(FailedReceipt)
        ==> Fold(Some(current), events) == Some(FailedReceipt)
    ensures current != SentReceipt || FirstDecisive(events) != Some(FailedReceipt)
        ==> Fold(Some(current), events) == Furthest([current] + events)
    decreases events
  {
    assert ([current] + events)[1..] == events;
    if events != [] {
      var next := Advance(Some(current), events[0]).value;
      assert ([next] + events[1..])[1..] == events[1..];
      if next == FailedReceipt {
        FailureIsFinal(events[1..]);
      } else {
        FoldFromAdvanced(next, events[1..]);
      }
    }
  }

  lemma {:induction false} FailureIsFinal(events: seq<Receipt>)
    ensures Fold(Some(FailedReceipt), events) == Some(FailedReceipt)
    decreases events
  {
    if events != [] {
      FailureIsFinal(events[1..]);
    }
  }

  /**
   * What any sequence of events folds to: a failure exactly when the first event other than SENT
   * reports one, and the furthest receipt otherwise.
   */
  lemma FoldOutcome(events: seq<Receipt>)
    ensures Fold(None, events) == Some(FailedReceipt) <==> FirstDecisive(events) == Some(FailedReceipt)
    ensures FirstDecisive(events) != Some(FailedReceipt) ==> Fold(None, events) == Furthest(events)
  {
    if events != [] {
      assert [events[0]] + events[1..] == events;
      if events[0] == FailedReceipt {
        FailureIsFinal(events[1..]);
      } else {
        FoldFromAdvanced(events[0], events[1..]);
      }
    }
  }

  /** Without failures neither the order nor the repetition of events matters. */
  lemma OrderAndRepetitionDoNotMatter(a: seq<Receipt>, b: seq<Receipt>)
    requires FailedReceipt !in a && FailedReceipt !in b
    requires forall e :: e in a <==> e in b
    ensures Fold(None, a) == Fold(None, b)
  {
    NoFailureNoDecisiveFailure(a);
    NoFailureNoDecisiveFailure(b);
    FoldOutcome(a);
    FoldOutcome(b);
  }

  lemma {:induction false} NoFailureNoDecisiveFailure(events: seq<Receipt>)
    requires FailedReceipt !in events
    ensures FirstDecisive(events) != Some(FailedReceipt)
    decreases events
  {
    if events != [] {
      NoFailureNoDecisiveFailure(events[1..]);
    }
  }
}
