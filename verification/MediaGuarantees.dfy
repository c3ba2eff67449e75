/** What the media machine guarantees in every run, and one way in which it falls short. */
module MediaGuarantees {
  import opened Basics
  import opened MediaMachine

  /** An upload is under way, or a crash left it hanging. */
  predicate OccupiesKey(phase: Phase) {
    match phase
    case Uploading => true
    case Finalizing(_) => true
    case MarkingFailed(_) => true
    case Stopped(at) => at.Uploading? || at.Finalizing? || at.MarkingFailed?
    case _ => false
  }

  predicate SameContent(a: Input, b: Input) { a.companyId == b.companyId && a.checksum == b.checksum }

  lemma OccupantsHoldTheKey(s: State, c: Id)
    requires CallOk(s, c) && c in s.calls && OccupiesKey(s.calls[c].phase)
    ensures Holds(s, c, s.calls[c].input.companyId, s.calls[c].input.checksum) && s.assets[c].status == Pending
  {
    if s.calls[c].phase.Stopped? { assert PhaseOk(s, c, s.calls[c].phase.at); }
  }

  /** The deduplication key is a mutex: a company never has two uploads of the same content in flight. */
  lemma OneUploadPerContent(actions: seq<Action>, c: Id, d: Id)
    requires var s := Run(EMPTY, actions);
      && c in s.calls && d in s.calls && SameContent(s.calls[c].input, s.calls[d].input)
      && OccupiesKey(s.calls[c].phase) && OccupiesKey(s.calls[d].phase)
    ensures c == d
  {
    EveryRunIsOk(actions);
    OccupantsHoldTheKey(Run(EMPTY, actions), c);
    OccupantsHoldTheKey(Run(EMPTY, actions), d);
  }

  lemma {:induction false} RunAppend(s: State, a: seq<Action>, b: seq<Action>)
    ensures Run(s, a + b) == Run(Run(s, a), b)
    decreases a
  {
    if a == [] {
      assert a + b == b;
    } else {
      assert (a + b)[1..] == a[1..] + b;
      RunAppend(Step(s, a[0]), a[1..], b);
    }
  }

  lemma {:induction false} OverStaysOver(s: State, more: seq<Action>, c: Id)
    requires c in s.calls && IsOver(s.calls[c].phase)
    ensures c in Run(s, more).calls && Run(s, more).calls[c] == s.calls[c]
    decreases more
  {
    if more != [] {
      OverStepsNot(s, more[0], c);
      OverStaysOver(Step(s, more[0]), more[1..], c);
    }
  }

  lemma OverStepsNot(s: State, a: Action, c: Id)
    requires c in s.calls && IsOver(s.calls[c].phase)
    ensures c in Step(s, a).calls && Step(s, a).calls[c] == s.calls[c]
  {
  }

  /** The commit could not be confirmed, and the compensating delete took effect. */
  predicate DeletedUnconfirmed(phase: Phase) {
    phase.Threw? && phase.cause.Unconfirmed? && phase.cause.deletion != LostBefore
  }

  lemma ReadyAndStored(s: State, c: Id, phase: Phase)
    requires PhaseOk(s, c, phase) && HasStatus(s, c, {Ready})
    ensures c in s.objects <==> !DeletedUnconfirmed(phase)
  {
  }

  /**
   * The object of a ready asset is in storage, except exactly when the answers of the commit and of the
   * read that should confirm it were both lost and the upload was deleted for that.
   */
  lemma ReadyAssetsAreStored(actions: seq<Action>, c: Id)
    requires c in Run(EMPTY, actions).assets && Run(EMPTY, actions).assets[c].status == Ready
    ensures var s := Run(EMPTY, actions);
      c in s.calls && (c in s.objects <==> !DeletedUnconfirmed(s.calls[c].phase))
  {
    EveryRunIsOk(actions);
    var s := Run(EMPTY, actions);
    assert CallOk(s, c);
    ReadyAndStored(s, c, s.calls[c].phase);
  }

  function Uploaded(c: Id, input: Input, upload: Upload): State {
    State(map[c := NewAsset(input)], {c}, map[c := Call(input, Finalizing(upload))])
  }

  function Created(c: Id, input: Input, phase: Phase): State {
    State(map[c := NewAsset(input)], {}, map[c := Call(input, phase)])
  }

  lemma CreatesAlone(c: Id, input: Input)
    ensures Step(Step(Step(EMPTY, Start(c, input)), Find(c, 0, true, None)), Insert(c, Answered)) == Created(c, input, Uploading)
  {
    var s2 := Step(Step(EMPTY, Start(c, input)), Find(c, 0, true, None));
    assert s2 == State(map[], {}, map[c := Call(input, Creating(true))]);
  }

  lemma PutsAlone(c: Id, input: Input, upload: Upload)
    ensures Step(Created(c, input, Uploading), PutObject(c, Answered, upload)) == Uploaded(c, input, upload)
  {
  }

  lemma UploadsAlone(c: Id, input: Input, upload: Upload)
    ensures Run(Step(EMPTY, Start(c, input)), [Find(c, 0, true, None), Insert(c, Answered), PutObject(c, Answered, upload)])
         == Uploaded(c, input, upload)
  {
    hide Run, Step, Created, Uploaded;
    CreatesAlone(c, input);
    PutsAlone(c, input, upload);
    RunsThree(Step(EMPTY, Start(c, input)), Find(c, 0, true, None), Insert(c, Answered), PutObject(c, Answered, upload));
  }

  lemma CommitUnconfirmed(c: Id, input: Input, upload: Upload)
    ensures var s := Step(Uploaded(c, input, upload), Finalize(c, LostAfter));
      && c in s.calls && s.calls[c].phase == Confirming(upload)
      && c in s.assets && s.assets[c].status == Ready
  {
  }

  lemma UnconfirmedIsDeleted(s: State, c: Id, upload: Upload)
    requires c in s.calls && s.calls[c].phase == Confirming(upload)
    ensures var t := Step(Step(s, Reload(c, false)), DeleteObject(c, Answered)); t.assets == s.assets && c !in t.objects
  {
    hide IsMatchingReady;
  }

  lemma LosesBothAnswers(c: Id, input: Input, upload: Upload)
    ensures var s := Run(Uploaded(c, input, upload), [Finalize(c, LostAfter), Reload(c, false), DeleteObject(c, Answered)]);
      c in s.assets && s.assets[c].status == Ready && c !in s.objects
  {
    hide Run, Step, Uploaded;
    CommitUnconfirmed(c, input, upload);
    UnconfirmedIsDeleted(Step(Uploaded(c, input, upload), Finalize(c, LostAfter)), c, upload);
    RunsThree(Uploaded(c, input, upload), Finalize(c, LostAfter), Reload(c, false), DeleteObject(c, Answered));
  }

  /** That exception happens: both answers are lost, and a ready asset is left without its object. */
  lemma LostAnswersLeaveAReadyAssetWithoutObject(c: Id, input: Input, upload: Upload)
    ensures var s := Run(EMPTY, [Start(c, input), Find(c, 0, true, None), Insert(c, Answered), PutObject(c, Answered, upload),
                                 Finalize(c, LostAfter), Reload(c, false), DeleteObject(c, Answered)]);
      c in s.assets && s.assets[c].status == Ready && c !in s.objects
  {
    hide Step;
    var before := [Find(c, 0, true, None), Insert(c, Answered), PutObject(c, Answered, upload)];
    var after := [Finalize(c, LostAfter), Reload(c, false), DeleteObject(c, Answered)];
    UploadsAlone(c, input, upload);
    LosesBothAnswers(c, input, upload);
    RunAppend(Step(EMPTY, Start(c, input)), before, after);
    assert [Start(c, input), Find(c, 0, true, None), Insert(c, Answered), PutObject(c, Answered, upload),
            Finalize(c, LostAfter), Reload(c, false), DeleteObject(c, Answered)][1..] == before + after;
  }

  lemma RunsThree(s: State, a: Action, b: Action, d: Action)
    ensures Run(s, [a, b, d]) == Step(Step(Step(s, a), b), d)
  {
    hide Step;
    assert [a, b, d][1..] == [b, d] && [b, d][1..] == [d] && [d][1..] == [];
    assert Run(s, [a, b, d]) == Run(Step(s, a), [b, d]);
    assert Run(Step(s, a), [b, d]) == Run(Step(Step(s, a), b), [d]);
    assert Run(Step(Step(s, a), b), [d]) == Run(Step(Step(Step(s, a), b), d), []);
  }

  /**
   * A call that fails after its upload was acknowledged leaves no object behind, unless the delete failed
   * or the asset had been confirmed as ready; one that fails before any upload leaves none at all.
   */
  lemma FailedCallsCleanUp(actions: seq<Action>, c: Id)
    requires c in Run(EMPTY, actions).calls && Run(EMPTY, actions).calls[c].phase.Threw?
    ensures var s := Run(EMPTY, actions);
      match s.calls[c].phase.cause
      case NotReloaded => c in s.objects && HasStatus(s, c, {Ready, DeletePending})
      case NotFinalized(deletion) => (c in s.objects <==> deletion == LostBefore) && !HasStatus(s, c, {Ready})
      case Unconfirmed(deletion) => c in s.objects <==> deletion == LostBefore
      case UploadFailed => !HasStatus(s, c, {Ready})
      case _ => c !in s.objects && !HasStatus(s, c, {Ready})
  {
    EveryRunIsOk(actions);
    assert CallOk(Run(EMPTY, actions), c);
  }

  /** A call that returns its own asset has its object in storage, then and ever after. */
  lemma OwnAssetsStayStored(actions: seq<Action>, more: seq<Action>, c: Id, asset: Asset)
    requires c in Run(EMPTY, actions).calls && Run(EMPTY, actions).calls[c].phase == Returned(c, asset)
    ensures c in Run(EMPTY, actions + more).objects && HasStatus(Run(EMPTY, actions + more), c, {Ready, DeletePending})
  {
    RunAppend(EMPTY, actions, more);
    OverStaysOver(Run(EMPTY, actions), more, c);
    EveryRunIsOk(actions + more);
    assert CallOk(Run(EMPTY, actions + more), c);
  }

  lemma OwnKeyLoss(s: State, a: Action, id: Id)
    requires CallOk(s, id) && a.call == id && id in s.assets && s.assets[id].key.Some?
    ensures var t := Step(s, a);
      && id in t.assets
      && (t.assets[id].key == None ==> a.MarkFailed? && s.assets[id].status == Pending && t.assets[id].status == Failed)
  {
    hide KeyHeld, Prepare, IsMatchingReady;
  }

  lemma OthersKeyLoss(s: State, a: Action, id: Id)
    requires Inv(s) && a.call != id && id in s.assets && s.assets[id].key.Some?
    ensures var t := Step(s, a);
      && id in t.assets
      && (t.assets[id].key == None ==>
            && a.Release? && s.assets[id].status == Ready && t.assets[id].status == DeletePending
            && s.assets[id].expiresAt.Some? && s.assets[id].expiresAt.value <= a.now)
  {
    OthersKeepMyRow(s, a, id);
    if !a.Release? { OnlyReleasesFreeOthers(s, a, id); }
  }

  lemma KeyLoss(s: State, a: Action, id: Id)
    requires Inv(s) && id in s.assets && s.assets[id].key.Some?
    ensures var t := Step(s, a);
      && id in t.assets
      && (t.assets[id].key == None ==>
            || (a.MarkFailed? && a.call == id && s.assets[id].status == Pending && t.assets[id].status == Failed)
            || (a.Release? && a.call != id && s.assets[id].status == Ready && t.assets[id].status == DeletePending
                && s.assets[id].expiresAt.Some? && s.assets[id].expiresAt.value <= a.now))
  {
    assert CallOk(s, id);
    hide Step, CallOk, KeysUnique;
    if a.call == id { OwnKeyLoss(s, a, id); } else { OthersKeyLoss(s, a, id); }
  }

  /**
   * An asset loses its key in two ways only: its own call marks it as failed, or another call finds it
   * expired, which also schedules its deletion.
   */
  lemma KeysAreGivenUpRightly(actions: seq<Action>, a: Action, id: Id)
    requires id in Run(EMPTY, actions).assets && Run(EMPTY, actions).assets[id].key.Some?
    ensures var s := Run(EMPTY, actions);
      var t := Step(s, a);
      && id in t.assets
      && (t.assets[id].key == None ==>
            || (a.MarkFailed? && a.call == id && s.assets[id].status == Pending && t.assets[id].status == Failed)
            || (a.Release? && a.call != id && s.assets[id].status == Ready && t.assets[id].status == DeletePending
                && s.assets[id].expiresAt.Some? && s.assets[id].expiresAt.value <= a.now))
  {
    EveryRunIsOk(actions);
    KeyLoss(Run(EMPTY, actions), a, id);
  }

  /** A lookup that returns reuses an asset that is ready, of the same content, and expires later than the caller's clock says. */
  lemma ReusedAssetsAreFresh(actions: seq<Action>, c: Id, now: int, found: Option<Id>, id: Id, asset: Asset)
    requires var s := Run(EMPTY, actions);
      c in s.calls && (s.calls[c].phase.Looking? || s.calls[c].phase.LookingAgain?)
      && Step(s, Find(c, now, true, found)).calls[c].phase == Returned(id, asset)
    ensures var s := Run(EMPTY, actions);
      && id in s.assets && s.assets[id] == asset && asset.status == Ready
      && (asset.expiresAt == None || now < asset.expiresAt.value)
      && asset.companyId == s.calls[c].input.companyId && asset.checksum == s.calls[c].input.checksum
  {
    EveryRunIsOk(actions);
    var s := Run(EMPTY, actions);
    assert CallOk(s, id);
  }
}
