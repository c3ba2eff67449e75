/** What storing a media file leaves behind, step by step, and how a call ends that meets no failure. */
module MediaOutcomes {
  import opened Basics
  import opened MediaGuarantees
  import opened MediaLocks
  import opened MediaMachine

  // ----- rows and objects

  /** The holder that a call found still is what it saw, and when it is ready it has expired. */
  predicate MayBeReleased(s: State, c: Id, id: Id, now: int) {
    && c in s.calls && s.calls[c].phase.Releasing? && s.calls[c].phase.found == id && id in s.assets
    && var asset, input := s.assets[id], s.calls[c].input;
    && asset.companyId == input.companyId && asset.key == Some(input.checksum)
    && asset.status == s.calls[c].phase.seen.status
    && (asset.status == Ready ==> asset.expiresAt.Some? && asset.expiresAt.value <= now)
  }

  /** The row of asset `id` before and after the action. */
  predicate RowChanges(s: State, a: Action, id: Id, before: Asset, after: Asset) {
    match a
    case Release(c, now, reply) =>
      if MayBeReleased(s, c, id, now) && reply != LostBefore
      then after.key == None && after.status == (if before.status == Ready then DeletePending else before.status)
           && after == before.(key := after.key, status := after.status)
      else after == before
    case Finalize(c, reply) =>
      if c == id && c in s.calls && s.calls[c].phase.Finalizing? && before.status == Pending && reply != LostBefore
      then after.status == Ready && after.upload == Some(s.calls[c].phase.upload)
           && after == before.(status := after.status, upload := after.upload)
      else after == before
    case MarkFailed(c, reply) =>
      if c == id && c in s.calls && s.calls[c].phase.MarkingFailed? && before.status == Pending && reply != LostBefore
      then after.status == Failed && after.key == None && after == before.(status := after.status, key := after.key)
      else after == before
    case _ => after == before
  }

  /** Everything that ever changes an asset, column by column: release, commit and failure mark, each unless it was lost. */
  lemma AssetsChangeOnlySo(s: State, a: Action, id: Id)
    requires id in s.assets
    ensures id in Step(s, a).assets && RowChanges(s, a, id, s.assets[id], Step(s, a).assets[id])
  {
    hide FindStep, InsertStep, PutObjectStep, ReloadStep, DeleteObjectStep, MarkFailedStep, FinalizeStep, ReleaseStep, RowChanges;
    match a
    case Release(_, _, _) => ReleaseChangesRows(s, a, id);
    case Finalize(_, _) => OwnUpdatesChangeRows(s, a, id);
    case MarkFailed(_, _) => OwnUpdatesChangeRows(s, a, id);
    case Insert(_, _) => InsertsLeaveRows(s, a, id);
    case _ => OtherStepsLeaveRows(s, a, id);
  }

  lemma ReleaseChangesRows(s: State, a: Action, id: Id)
    requires id in s.assets && a.Release?
    ensures id in Step(s, a).assets && RowChanges(s, a, id, s.assets[id], Step(s, a).assets[id])
  {
  }

  lemma OwnUpdatesChangeRows(s: State, a: Action, id: Id)
    requires id in s.assets && (a.Finalize? || a.MarkFailed?)
    ensures id in Step(s, a).assets && RowChanges(s, a, id, s.assets[id], Step(s, a).assets[id])
  {
  }

  lemma InsertsLeaveRows(s: State, a: Action, id: Id)
    requires id in s.assets && a.Insert?
    ensures id in Step(s, a).assets && RowChanges(s, a, id, s.assets[id], Step(s, a).assets[id])
  {
    hide KeyHeld;
  }

  lemma OtherStepsLeaveRows(s: State, a: Action, id: Id)
    requires id in s.assets && !a.Release? && !a.Finalize? && !a.MarkFailed? && !a.Insert?
    ensures id in Step(s, a).assets && RowChanges(s, a, id, s.assets[id], Step(s, a).assets[id])
  {
    hide KeyHeld, Prepare, IsMatchingReady, Holds;
  }

  /** The content is under the key of some asset of the company. */
  predicate IsKept(s: State, input: Input) {
    exists id :: id in s.assets && s.assets[id].companyId == input.companyId && s.assets[id].key == Some(input.checksum)
  }

  /** A row comes into being exactly so, pending and with the key of its content. */
  lemma AssetsStartPending(s: State, a: Action, c: Id)
    requires c !in s.assets
    ensures var t := Step(s, a);
      && (c in t.assets <==> a.Insert? && a.call == c && c in s.calls && s.calls[c].phase.Creating?
                              && a.reply != LostBefore && !IsKept(s, s.calls[c].input))
      && (c in t.assets ==>
            var asset, input := t.assets[c], s.calls[c].input;
            && asset.companyId == input.companyId && asset.checksum == input.checksum && asset.key == Some(input.checksum)
            && asset.status == Pending && asset.expiresAt == input.expiresAt && asset.upload == None)
  {
    hide FindStep, ReleaseStep, PutObjectStep, FinalizeStep, ReloadStep, DeleteObjectStep, MarkFailedStep;
    if a.Insert? { SameKeeping(s); } else { OnlyInsertsAdd(s, a, c); }
  }

  lemma SameKeeping(s: State)
    ensures forall input: Input :: KeyHeld(s, input.companyId, input.checksum) <==> IsKept(s, input)
  {
    forall input: Input ensures KeyHeld(s, input.companyId, input.checksum) <==> IsKept(s, input) {
      if KeyHeld(s, input.companyId, input.checksum) {
        var id :| id in s.assets && Holds(s, id, input.companyId, input.checksum);
      }
      if id :| id in s.assets && s.assets[id].companyId == input.companyId && s.assets[id].key == Some(input.checksum) {
        assert Holds(s, id, input.companyId, input.checksum);
      }
    }
  }

  lemma OnlyInsertsAdd(s: State, a: Action, c: Id)
    requires c !in s.assets && !a.Insert?
    ensures c !in Step(s, a).assets
  {
    hide KeyHeld, Prepare, IsMatchingReady;
  }

  /** An object is stored by its upload and removed by its delete, each unless it was lost before it took effect. */
  lemma ObjectsChangeOnlySo(s: State, a: Action, c: Id)
    ensures c in Step(s, a).objects <==>
      || (a.PutObject? && a.call == c && c in s.calls && s.calls[c].phase == Uploading && a.reply != LostBefore)
      || (c in s.objects
          && !(a.DeleteObject? && a.call == c && c in s.calls && s.calls[c].phase.Deleting? && a.reply != LostBefore))
  {
    hide KeyHeld, Prepare, IsMatchingReady, Holds, CanRelease;
  }

  // ----- lookups

  /** What a call does about the holder of the key: wait for it, reuse it, or release the key; and nothing else. */
  lemma LookupsDecide(s: State, c: Id, now: int, id: Id)
    requires c in s.calls && (s.calls[c].phase.Looking? || s.calls[c].phase.LookingAgain?)
    requires Holds(s, id, s.calls[c].input.companyId, s.calls[c].input.checksum)
    ensures var phase, asset := Step(s, Find(c, now, true, Some(id))).calls[c].phase, s.assets[id];
      && (phase == Threw(Conflict) <==> asset.status == Pending)
      && (phase == Returned(id, asset) <==>
            asset.status == Ready && (asset.expiresAt == None || now < asset.expiresAt.value))
      && (phase.Releasing? <==>
            asset.status in {Failed, DeletePending}
            || (asset.status == Ready && asset.expiresAt.Some? && asset.expiresAt.value <= now))
  {
  }

  // ----- a call without failures

  function Store(c: Id, upload: Upload): seq<Action> {
    [Insert(c, Answered), PutObject(c, Answered, upload), Finalize(c, Answered), Reload(c, true)]
  }

  /** A ready asset with the content of the call and its object. */
  predicate IsStored(s: State, c: Id, input: Input, upload: Upload) {
    && c in s.objects && c in s.assets && s.assets[c].status == Ready && s.assets[c].upload == Some(upload)
    && s.assets[c].companyId == input.companyId && s.assets[c].checksum == input.checksum
    && s.assets[c].expiresAt == input.expiresAt
  }

  lemma InsertsPending(s: State, c: Id, input: Input)
    requires c in s.calls && s.calls[c].phase.Creating? && s.calls[c].input == input && c !in s.assets && !IsKept(s, input)
    ensures var t := Step(s, Insert(c, Answered));
      c in t.calls && t.calls[c] == Call(input, Uploading) && c in t.assets && t.assets[c] == NewAsset(input)
  {
    SameKeeping(s);
  }

  lemma PutsTheObject(s: State, c: Id, input: Input, upload: Upload)
    requires c in s.calls && s.calls[c] == Call(input, Uploading)
    ensures var t := Step(s, PutObject(c, Answered, upload));
      c in t.calls && t.calls[c] == Call(input, Finalizing(upload)) && t.assets == s.assets && c in t.objects
  {
  }

  lemma Commits(s: State, c: Id, input: Input, upload: Upload)
    requires c in s.calls && s.calls[c] == Call(input, Finalizing(upload)) && c in s.objects
    requires c in s.assets && s.assets[c] == NewAsset(input)
    ensures var t := Step(s, Finalize(c, Answered));
      c in t.calls && t.calls[c] == Call(input, Reloading(upload)) && IsStored(t, c, input, upload)
  {
  }

  lemma Reloads(s: State, c: Id, input: Input, upload: Upload)
    requires c in s.calls && s.calls[c] == Call(input, Reloading(upload)) && IsStored(s, c, input, upload)
    ensures var t := Step(s, Reload(c, true));
      IsStored(t, c, input, upload) && c in t.calls && t.calls[c].phase == Returned(c, t.assets[c])
  {
  }

  lemma Stores(s: State, c: Id, input: Input, upload: Upload)
    requires c in s.calls && s.calls[c].phase.Creating? && s.calls[c].input == input && c !in s.assets && !IsKept(s, input)
    ensures var t := Run(s, Store(c, upload));
      && IsStored(t, c, input, upload) && c in t.calls && t.calls[c].phase == Returned(c, t.assets[c])
  {
    hide Run, Step, IsKept, IsStored;
    InsertsPending(s, c, input);
    var s1 := Step(s, Insert(c, Answered));
    PutsTheObject(s1, c, input, upload);
    var s2 := Step(s1, PutObject(c, Answered, upload));
    Commits(s2, c, input, upload);
    Reloads(Step(s2, Finalize(c, Answered)), c, input, upload);
    RunsTwo(s, Insert(c, Answered), PutObject(c, Answered, upload));
    RunsTwo(s2, Finalize(c, Answered), Reload(c, true));
    RunAppend(s, [Insert(c, Answered), PutObject(c, Answered, upload)], [Finalize(c, Answered), Reload(c, true)]);
    assert Store(c, upload) == [Insert(c, Answered), PutObject(c, Answered, upload)] + [Finalize(c, Answered), Reload(c, true)];
  }

  lemma FindsNobody(s: State, c: Id, input: Input, now: int)
    requires c !in s.calls && !IsKept(s, input)
    ensures var t := Run(s, [Start(c, input), Find(c, now, true, None)]);
      c in t.calls && t.calls[c] == Call(input, Creating(true)) && t.assets == s.assets && !IsKept(t, input)
  {
    SameKeeping(s);
    RunsTwo(s, Start(c, input), Find(c, now, true, None));
    SameKeeping(Step(s, Start(c, input)));
    hide KeyHeld;
  }

  lemma StartsLooking(s: State, c: Id, input: Input)
    requires c !in s.calls
    ensures Step(s, Start(c, input)) == s.(calls := s.calls[c := Call(input, Looking)])
  {
  }

  lemma FindsTheHolder(s: State, c: Id, input: Input, now: int, id: Id)
    requires c in s.calls && s.calls[c] == Call(input, Looking) && Holds(s, id, input.companyId, input.checksum)
    ensures var t := Step(s, Find(c, now, true, Some(id)));
      && t.assets == s.assets && c in t.calls && t.calls[c].input == input
      && var asset, phase := s.assets[id], t.calls[c].phase;
      && (asset.status == Pending ==> phase == Threw(Conflict))
      && (asset.status == Ready && (asset.expiresAt == None || now < asset.expiresAt.value) ==> phase == Returned(id, asset))
      && (asset.status == Ready && asset.expiresAt.Some? && asset.expiresAt.value <= now ==> phase == Releasing(id, asset, None))
  {
  }

  lemma ReleasesTheKey(s: State, c: Id, input: Input, now: int, id: Id)
    requires KeysUnique(s) && c in s.calls && Holds(s, id, input.companyId, input.checksum)
    requires s.assets[id].status == Ready && s.assets[id].expiresAt.Some? && s.assets[id].expiresAt.value <= now
    requires s.calls[c] == Call(input, Releasing(id, s.assets[id], None))
    ensures var t := Step(s, Release(c, now, Answered));
      && c in t.calls && t.calls[c] == Call(input, Creating(true)) && t.assets.Keys == s.assets.Keys && !IsKept(t, input)
  {
    forall other | other in s.assets && s.assets[other].companyId == input.companyId && s.assets[other].key == Some(input.checksum)
      ensures other == id
    {
      assert SameKey(s.assets[other], s.assets[id]);
    }
  }

  /** An asset of the company with this content, ready, and not expired by the clock. */
  predicate IsReusable(s: State, id: Id, input: Input, now: int) {
    && id in s.assets && s.assets[id].companyId == input.companyId && s.assets[id].key == Some(input.checksum)
    && s.assets[id].status == Ready && (s.assets[id].expiresAt == None || now < s.assets[id].expiresAt.value)
  }

  predicate IsBeingStored(s: State, input: Input) {
    exists id :: id in s.assets && s.assets[id].companyId == input.companyId && s.assets[id].key == Some(input.checksum)
                 && s.assets[id].status == Pending
  }

  /**
   * In every run a new call that meets no failure ends by its own steps alone as its content stands: with the reusable
   * asset if there is one, refused while the content is being stored, and otherwise with an asset of its own.
   */
  lemma EveryCallEnds(actions: seq<Action>, c: Id, input: Input, now: int, upload: Upload) returns (mine: seq<Action>)
    requires c !in Run(EMPTY, actions).calls
    ensures forall k :: 0 <= k < |mine| ==> mine[k].call == c
    ensures var s, t := Run(EMPTY, actions), Run(Run(EMPTY, actions), mine);
      && c in t.calls
      && (IsBeingStored(s, input) ==> t.calls[c].phase == Threw(Conflict))
      && (forall id :: IsReusable(s, id, input, now) ==> t.calls[c].phase == Returned(id, s.assets[id]))
      && (!IsBeingStored(s, input) && (forall id :: !IsReusable(s, id, input, now)) ==>
            IsStored(t, c, input, upload) && t.calls[c].phase == Returned(c, t.assets[c]))
  {
    hide Step, Run, IsStored, KeysUnique;
    var s := Run(EMPTY, actions);
    EveryRunIsOk(actions);
    StartsLooking(s, c, input);
    var started := Step(s, Start(c, input));
    assert CallOk(s, c);
    if id :| id in s.assets && s.assets[id].companyId == input.companyId && s.assets[id].key == Some(input.checksum) {
      assert CallOk(s, id);
      OnlyHolder(s, id, input);
      FindsTheHolder(started, c, input, now, id);
      mine := [Start(c, input), Find(c, now, true, Some(id))];
      RunsTwo(s, Start(c, input), Find(c, now, true, Some(id)));
      if s.assets[id].status == Ready && !IsReusable(s, id, input, now) {
        var found := Run(s, mine);
        SameKeysUnique(s, found);
        ReleasesTheKey(found, c, input, now, id);
        RunAppend(s, mine, [Release(c, now, Answered)]);
        RunsOne(found, Release(c, now, Answered));
        mine := mine + [Release(c, now, Answered)];
        Stores(Run(s, mine), c, input, upload);
        RunAppend(s, mine, Store(c, upload));
        mine := mine + Store(c, upload);
      }
    } else {
      FindsNobody(s, c, input, now);
      mine := [Start(c, input), Find(c, now, true, None)];
      Stores(Run(s, mine), c, input, upload);
      RunAppend(s, mine, Store(c, upload));
      mine := mine + Store(c, upload);
    }
  }

  lemma OnlyHolder(s: State, id: Id, input: Input)
    requires KeysUnique(s) && id in s.assets
    requires s.assets[id].companyId == input.companyId && s.assets[id].key == Some(input.checksum)
    ensures forall other ::
      (other in s.assets && s.assets[other].companyId == input.companyId && s.assets[other].key == Some(input.checksum)) ==>
        other == id
  {
    forall other | other in s.assets && s.assets[other].companyId == input.companyId && s.assets[other].key == Some(input.checksum)
      ensures other == id
    {
      assert SameKey(s.assets[other], s.assets[id]);
    }
  }

  lemma SameKeysUnique(s: State, t: State)
    requires KeysUnique(s) && t.assets == s.assets
    ensures KeysUnique(t)
  {
  }
}
