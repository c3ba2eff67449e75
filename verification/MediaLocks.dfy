/**
 * When content that was not stored can never be stored any more. A pending row holds the key of its content,
 * and only its own call gives the key up; whether the call still can is told by what it does next.
 */
module MediaLocks {
  import opened Basics
  import opened MediaGuarantees
  import opened MediaMachine

  predicate IsPending(s: State, c: Id) { c in s.assets && s.assets[c].status == Pending }

  ghost predicate StaysPending(s: State, c: Id) {
    forall more :: IsPending(Run(s, more), c)
  }

  /** The call is over, or about to throw without looking at its row again. */
  predicate IsPastMarking(phase: Phase) { IsOver(phase) || (phase.Deleting? && !phase.thenMark) }

  predicate IsLocked(s: State, c: Id) { IsPending(s, c) && c in s.calls && IsPastMarking(s.calls[c].phase) }

  // ----- a lock stays

  lemma OwnStepKeepsTheLock(s: State, a: Action)
    requires IsLocked(s, a.call)
    ensures IsLocked(Step(s, a), a.call)
  {
    hide KeyHeld, Prepare, IsMatchingReady, Holds;
  }

  lemma StepKeepsTheLock(s: State, a: Action, c: Id)
    requires Inv(s) && IsLocked(s, c)
    ensures IsLocked(Step(s, a), c)
  {
    hide Step, Inv;
    if a.call == c { OwnStepKeepsTheLock(s, a); } else { OthersKeepMyRow(s, a, c); }
  }

  lemma {:induction false} RunKeepsTheLock(s: State, more: seq<Action>, c: Id)
    requires Inv(s) && IsLocked(s, c)
    ensures IsLocked(Run(s, more), c)
    decreases more
  {
    hide Step, Inv, IsLocked;
    if more != [] {
      StepKeepsTheLock(s, more[0], c);
      StepKeepsInv(s, more[0]);
      RunKeepsTheLock(Step(s, more[0]), more[1..], c);
    }
  }

  // ----- and otherwise the call can still give the key up, or finish

  lemma Rescued(s: State, more: seq<Action>, c: Id)
    requires !IsPending(Run(s, more), c)
    ensures !StaysPending(s, c)
  {
  }

  function Rescue(c: Id, phase: Phase): seq<Action> {
    match phase
    case Uploading => [PutObject(c, LostBefore, Upload("", "", 0)), MarkFailed(c, Answered)]
    case Finalizing(_) => [Finalize(c, Answered)]
    case Confirming(_) => [Reload(c, true), DeleteObject(c, Answered)] + [MarkFailed(c, Answered)]
    case Deleting(_, _) => [DeleteObject(c, Answered), MarkFailed(c, Answered)]
    case _ => [MarkFailed(c, Answered)]
  }

  lemma RunsOne(s: State, a: Action)
    ensures Run(s, [a]) == Step(s, a)
  {
    hide Step;
    assert [a][1..] == [];
    assert Run(Step(s, a), []) == Step(s, a);
  }

  lemma RunsTwo(s: State, a: Action, b: Action)
    ensures Run(s, [a, b]) == Step(Step(s, a), b)
  {
    hide Step;
    assert [a, b] == [a] + [b];
    RunAppend(s, [a], [b]);
    RunsOne(s, a);
    RunsOne(Step(s, a), b);
  }

  lemma MarkingGivesUp(s: State, c: Id)
    requires IsPending(s, c) && c in s.calls && s.calls[c].phase.MarkingFailed?
    ensures !IsPending(Step(s, MarkFailed(c, Answered)), c)
  {
  }

  lemma UploadFails(s: State, c: Id)
    requires IsPending(s, c) && c in s.calls && s.calls[c].phase.Uploading?
    ensures var t := Step(s, PutObject(c, LostBefore, Upload("", "", 0)));
      IsPending(t, c) && c in t.calls && t.calls[c].phase.MarkingFailed?
  {
  }

  lemma DeletionGoesOn(s: State, c: Id)
    requires IsPending(s, c) && c in s.calls && s.calls[c].phase.Deleting? && s.calls[c].phase.thenMark
    ensures var t := Step(s, DeleteObject(c, Answered)); IsPending(t, c) && c in t.calls && t.calls[c].phase.MarkingFailed?
  {
  }

  lemma ConfirmationFindsItPending(s: State, c: Id)
    requires IsPending(s, c) && c in s.calls && s.calls[c].phase.Confirming?
    ensures var t := Step(s, Reload(c, true));
      IsPending(t, c) && c in t.calls && t.calls[c].phase.Deleting? && t.calls[c].phase.thenMark
  {
  }

  lemma FinalizingMakesReady(s: State, c: Id)
    requires IsPending(s, c) && c in s.calls && s.calls[c].phase.Finalizing?
    ensures !IsPending(Step(s, Finalize(c, Answered)), c)
  {
  }

  /** Nobody else is needed: the call itself marks the row as failed, or makes it ready. */
  lemma RescueSucceeds(s: State, c: Id)
    requires CallOk(s, c) && IsPending(s, c) && c in s.calls && !IsPastMarking(s.calls[c].phase)
    ensures !IsPending(Run(s, Rescue(c, s.calls[c].phase)), c)
  {
    PendingMeansUnderWay(s, c);
    hide Run, Step, CallOk, IsPending;
    match s.calls[c].phase
    case Uploading =>
      RunsTwo(s, PutObject(c, LostBefore, Upload("", "", 0)), MarkFailed(c, Answered));
      UploadFails(s, c);
      MarkingGivesUp(Step(s, PutObject(c, LostBefore, Upload("", "", 0))), c);
    case Finalizing(_) =>
      RunsOne(s, Finalize(c, Answered));
      FinalizingMakesReady(s, c);
    case Confirming(_) =>
      ConfirmationFindsItPending(s, c);
      var t := Step(s, Reload(c, true));
      DeletionGoesOn(t, c);
      MarkingGivesUp(Step(t, DeleteObject(c, Answered)), c);
      RunAppend(s, [Reload(c, true), DeleteObject(c, Answered)], [MarkFailed(c, Answered)]);
      RunsTwo(s, Reload(c, true), DeleteObject(c, Answered));
      RunsOne(Step(t, DeleteObject(c, Answered)), MarkFailed(c, Answered));
    case Deleting(_, _) =>
      DeletionGoesOn(s, c);
      RunsTwo(s, DeleteObject(c, Answered), MarkFailed(c, Answered));
      MarkingGivesUp(Step(s, DeleteObject(c, Answered)), c);
    case MarkingFailed(_) =>
      RunsOne(s, MarkFailed(c, Answered));
      MarkingGivesUp(s, c);
  }

  lemma PendingMeansUnderWay(s: State, c: Id)
    requires CallOk(s, c) && IsPending(s, c) && c in s.calls && !IsOver(s.calls[c].phase)
    ensures var phase := s.calls[c].phase;
      phase.Uploading? || phase.Finalizing? || phase.Confirming? || phase.Deleting? || phase.MarkingFailed?
  {
  }

  /**
   * A pending row stays pending in every continuation if and only if its call is over, whatever ended it, or is
   * deleting its upload without marking the row afterwards. In every other case the call can still get it out.
   */
  lemma PendingForGoodExactlyWhen(actions: seq<Action>, c: Id)
    requires IsPending(Run(EMPTY, actions), c)
    ensures var s := Run(EMPTY, actions); c in s.calls && (StaysPending(s, c) <==> IsPastMarking(s.calls[c].phase))
  {
    hide Run, Step, IsPending, IsPastMarking;
    EveryRunIsOk(actions);
    var s := Run(EMPTY, actions);
    CallIsOk(s, c);
    hide Inv, CallOk;
    PendingHasACall(s, c);
    if IsPastMarking(s.calls[c].phase) {
      forall more ensures IsPending(Run(s, more), c) { RunKeepsTheLock(s, more, c); }
    } else {
      RescueSucceeds(s, c);
      Rescued(s, Rescue(c, s.calls[c].phase), c);
    }
  }

  lemma CallIsOk(s: State, c: Id)
    requires Inv(s)
    ensures CallOk(s, c)
  {
  }

  lemma PendingHasACall(s: State, c: Id)
    requires CallOk(s, c) && IsPending(s, c)
    ensures c in s.calls
  {
  }

  // ----- what a lock means for others

  /** A call that has not returned an asset. */
  predicate HasNothing(s: State, d: Id) { d in s.calls ==> !s.calls[d].phase.Returned? }

  lemma FindersMeetTheLock(s: State, a: Action, c: Id, d: Id)
    requires Inv(s) && IsLocked(s, c) && a.Find? && a.call == d && d in s.calls && HasNothing(s, d)
    requires SameContent(s.calls[c].input, s.calls[d].input)
    ensures HasNothing(Step(s, a), d)
  {
    CallIsOk(s, c);
    if a.found.Some? && Holds(s, a.found.value, s.calls[d].input.companyId, s.calls[d].input.checksum) {
      assert SameKey(s.assets[a.found.value], s.assets[c]);
    }
    hide KeysUnique, KeyHeld, CallOk;
  }

  lemma ReloadersMeetTheLock(s: State, a: Action, c: Id, d: Id)
    requires Inv(s) && IsLocked(s, c) && a.Reload? && a.call == d && d in s.calls && HasNothing(s, d)
    requires SameContent(s.calls[c].input, s.calls[d].input)
    ensures HasNothing(Step(s, a), d)
  {
    CallIsOk(s, c);
    CallIsOk(s, d);
    if d in s.assets && s.assets[d].status == Ready { assert SameKey(s.assets[d], s.assets[c]); }
  }

  lemma OtherStepsReturnNothing(s: State, a: Action, d: Id)
    requires HasNothing(s, d) && !(a.call == d && (a.Find? || a.Reload?))
    ensures HasNothing(Step(s, a), d)
  {
    hide KeyHeld, Prepare, IsMatchingReady, Holds;
  }

  lemma StepReturnsNothing(s: State, a: Action, c: Id, d: Id)
    requires Inv(s) && IsLocked(s, c) && HasNothing(s, d)
    requires d in s.calls ==> SameContent(s.calls[c].input, s.calls[d].input)
    ensures HasNothing(Step(s, a), d)
  {
    hide Step, Inv, IsLocked, HasNothing;
    if a.call == d && a.Find? && d in s.calls {
      FindersMeetTheLock(s, a, c, d);
    } else if a.call == d && a.Reload? && d in s.calls {
      ReloadersMeetTheLock(s, a, c, d);
    } else {
      StrangersDoNothing(s, a, d);
      if d in s.calls { OtherStepsReturnNothing(s, a, d); }
    }
  }

  lemma StrangersDoNothing(s: State, a: Action, d: Id)
    ensures d !in s.calls ==> HasNothing(Step(s, a), d)
  {
    hide KeyHeld, Prepare, IsMatchingReady, Holds;
  }

  lemma InputsStay(s: State, a: Action, d: Id)
    requires d in s.calls
    ensures d in Step(s, a).calls && Step(s, a).calls[d].input == s.calls[d].input
  {
    hide KeyHeld, Prepare, IsMatchingReady, Holds;
  }

  lemma {:induction false} CallsStay(s: State, more: seq<Action>, d: Id)
    requires d in s.calls
    ensures d in Run(s, more).calls && Run(s, more).calls[d].input == s.calls[d].input
    decreases more
  {
    hide Step;
    if more != [] {
      InputsStay(s, more[0], d);
      CallsStay(Step(s, more[0]), more[1..], d);
    }
  }

  lemma {:induction false} NobodyReturns(s: State, more: seq<Action>, c: Id, d: Id)
    requires Inv(s) && IsLocked(s, c) && HasNothing(s, d) && c in s.calls
    requires d in Run(s, more).calls && SameContent(s.calls[c].input, Run(s, more).calls[d].input)
    ensures HasNothing(Run(s, more), d)
    decreases more
  {
    hide Step, Inv, IsLocked, HasNothing;
    if more != [] {
      var t := Step(s, more[0]);
      if d in s.calls { CallsStay(s, more, d); }
      StepReturnsNothing(s, more[0], c, d);
      StepKeepsTheLock(s, more[0], c);
      StepKeepsInv(s, more[0]);
      InputsStay(s, more[0], c);
      NobodyReturns(t, more[1..], c, d);
    }
  }

  /**
   * From a lock on, in every continuation: no other call of that content ever gets to upload it, and no call of
   * that content, begun before or after, ever returns an asset that it has not returned already.
   */
  lemma LockedContentIsLost(actions: seq<Action>, more: seq<Action>, c: Id, d: Id)
    requires IsLocked(Run(EMPTY, actions), c)
    ensures var s, t := Run(EMPTY, actions), Run(EMPTY, actions + more);
      && IsLocked(t, c) && t.calls[c].input == s.calls[c].input
      && (d in t.calls && SameContent(s.calls[c].input, t.calls[d].input) ==>
            && (d != c ==> !OccupiesKey(t.calls[d].phase))
            && (HasNothing(s, d) ==> HasNothing(t, d)))
  {
    hide Run, Inv, CallOk, HasNothing, OccupiesKey;
    RunAppend(EMPTY, actions, more);
    EveryRunIsOk(actions);
    EveryRunIsOk(actions + more);
    var s, t := Run(EMPTY, actions), Run(EMPTY, actions + more);
    RunKeepsTheLock(s, more, c);
    CallsStay(s, more, c);
    if d in t.calls && SameContent(s.calls[c].input, t.calls[d].input) {
      if d != c && OccupiesKey(t.calls[d].phase) { OccupantsMeetTheLock(t, c, d); }
      if HasNothing(s, d) { NobodyReturns(s, more, c, d); }
    }
  }

  lemma OccupantsMeetTheLock(s: State, c: Id, d: Id)
    requires Inv(s) && IsLocked(s, c) && d in s.calls && SameContent(s.calls[c].input, s.calls[d].input)
    requires OccupiesKey(s.calls[d].phase)
    ensures d == c
  {
    OccupantsHoldTheKey(s, d);
    CallIsOk(s, c);
    assert SameKey(s.assets[c], s.assets[d]);
  }

  // ----- how content gets locked, and how not

  /** No crash is needed: the insert of a row takes effect, and its answer is lost. */
  function LostInsert(c: Id, input: Input): seq<Action> {
    [Start(c, input), Find(c, 0, true, None), Insert(c, LostAfter)]
  }

  /** Nor a lost answer: the call crashes right after its insert. */
  function CrashedUpload(c: Id, input: Input): seq<Action> {
    [Start(c, input), Find(c, 0, true, None), Insert(c, Answered)] + [Crash(c)]
  }

  lemma FindsNothingAlone(c: Id, input: Input)
    ensures Step(Step(EMPTY, Start(c, input)), Find(c, 0, true, None)) == State(map[], {}, map[c := Call(input, Creating(true))])
  {
  }

  lemma InsertLosesItsAnswer(c: Id, input: Input)
    ensures var t := Step(State(map[], {}, map[c := Call(input, Creating(true))]), Insert(c, LostAfter));
      IsLocked(t, c) && t.calls[c] == Call(input, Threw(NotCreated))
  {
  }

  /** The call throws, and nobody in the company can ever store that content again. */
  lemma LostInsertLocks(c: Id, input: Input)
    ensures var s := Run(EMPTY, LostInsert(c, input));
      IsLocked(s, c) && s.calls[c] == Call(input, Threw(NotCreated)) && StaysPending(s, c)
  {
    hide Run, Step;
    FindsNothingAlone(c, input);
    InsertLosesItsAnswer(c, input);
    RunsThree(EMPTY, Start(c, input), Find(c, 0, true, None), Insert(c, LostAfter));
    PendingForGoodExactlyWhen(LostInsert(c, input), c);
  }

  lemma CrashLocks(c: Id, input: Input)
    ensures var s := Run(EMPTY, CrashedUpload(c, input));
      IsLocked(s, c) && s.calls[c].input == input && StaysPending(s, c)
  {
    hide Run;
    CreatesAlone(c, input);
    RunsThree(EMPTY, Start(c, input), Find(c, 0, true, None), Insert(c, Answered));
    RunAppend(EMPTY, [Start(c, input), Find(c, 0, true, None), Insert(c, Answered)], [Crash(c)]);
    RunsOne(Created(c, input, Uploading), Crash(c));
    PendingForGoodExactlyWhen(CrashedUpload(c, input), c);
  }

  /** The database answered; calls to the storage may have been lost all the same. */
  predicate DatabaseAnswered(a: Action) {
    match a
    case Find(_, _, answered, _) => answered
    case Release(_, _, reply) => reply == Answered
    case Insert(_, reply) => reply == Answered
    case Finalize(_, reply) => reply == Answered
    case Reload(_, answered) => answered
    case MarkFailed(_, reply) => reply == Answered
    case _ => true
  }

  ghost predicate CallsAnswered(actions: seq<Action>, c: Id) {
    forall k :: 0 <= k < |actions| && actions[k].call == c ==> DatabaseAnswered(actions[k])
  }

  ghost predicate NeverCrashes(actions: seq<Action>, c: Id) {
    forall k :: 0 <= k < |actions| && actions[k].call == c ==> !actions[k].Crash?
  }

  /** A pending row belongs to a call that still gets it out. */
  predicate UnderWay(s: State, c: Id) { IsPending(s, c) && c in s.calls ==> !IsPastMarking(s.calls[c].phase) }

  lemma AnsweredStepStaysUnderWay(s: State, a: Action)
    requires CallOk(s, a.call) && UnderWay(s, a.call) && DatabaseAnswered(a) && !a.Crash?
    ensures UnderWay(Step(s, a), a.call)
  {
    hide KeyHeld, Holds, AssetOk, DeletionOk;
  }

  lemma {:induction false} AnsweredRunStaysUnderWay(actions: seq<Action>, c: Id)
    requires CallsAnswered(actions, c) && NeverCrashes(actions, c)
    ensures UnderWay(Run(EMPTY, actions), c)
    decreases |actions|
  {
    hide Step, UnderWay, DatabaseAnswered, Inv, CallOk;
    if actions == [] {
      NothingIsUnderWay(c);
    } else {
      var init, last := actions[..|actions| - 1], actions[|actions| - 1];
      assert actions == init + [last];
      AnsweredRunStaysUnderWay(init, c);
      EveryRunIsOk(init);
      RunAppend(EMPTY, init, [last]);
      RunsOne(Run(EMPTY, init), last);
      CallIsOk(Run(EMPTY, init), c);
      if last.call == c {
        AnsweredStepStaysUnderWay(Run(EMPTY, init), last);
      } else {
        OthersLeaveMeUnderWay(Run(EMPTY, init), last, c);
      }
    }
  }

  lemma NothingIsUnderWay(c: Id)
    ensures UnderWay(Run(EMPTY, []), c)
  {
  }

  lemma OthersLeaveMeUnderWay(s: State, a: Action, c: Id)
    requires Inv(s) && UnderWay(s, c) && a.call != c
    ensures UnderWay(Step(s, a), c)
  {
    hide Step, Inv, IsPastMarking;
    OthersKeepMyRow(s, a, c);
  }

  /** A call whose own database calls were all answered and which did not crash leaves no lock behind. */
  lemma AnsweredCallsLeaveNoLock(actions: seq<Action>, c: Id)
    requires CallsAnswered(actions, c) && NeverCrashes(actions, c)
    ensures !IsLocked(Run(EMPTY, actions), c)
  {
    hide Run;
    AnsweredRunStaysUnderWay(actions, c);
  }

  /** What a deployment allows: that the database loses answers, that calls crash. */
  ghost predicate Allowed(losing: bool, crashing: bool, actions: seq<Action>) {
    forall c :: (losing || CallsAnswered(actions, c)) && (crashing || NeverCrashes(actions, c))
  }

  ghost predicate NothingIsLocked(s: State) { forall c :: !IsLocked(s, c) }

  /** No content is ever locked if and only if the database answers every call and no call crashes. */
  lemma NoLocksExactlyWhen(losing: bool, crashing: bool)
    ensures (forall actions :: Allowed(losing, crashing, actions) ==> NothingIsLocked(Run(EMPTY, actions))) <==> !losing && !crashing
  {
    hide Run, IsLocked, CallsAnswered, NeverCrashes;
    var c, input := Id("a"), Input(Id("a"), "", None);
    if losing {
      LostInsertLocks(c, input);
      LostInsertIsAllowed(c, input, crashing);
      assert !NothingIsLocked(Run(EMPTY, LostInsert(c, input)));
    } else if crashing {
      CrashLocks(c, input);
      CrashIsAllowed(c, input);
      assert !NothingIsLocked(Run(EMPTY, CrashedUpload(c, input)));
    } else {
      forall actions | Allowed(losing, crashing, actions) ensures NothingIsLocked(Run(EMPTY, actions)) {
        forall d ensures !IsLocked(Run(EMPTY, actions), d) { AnsweredCallsLeaveNoLock(actions, d); }
      }
    }
  }

  lemma LostInsertIsAllowed(c: Id, input: Input, crashing: bool)
    ensures Allowed(true, crashing, LostInsert(c, input))
  {
  }

  lemma CrashIsAllowed(c: Id, input: Input)
    ensures Allowed(false, true, CrashedUpload(c, input))
  {
  }
}
