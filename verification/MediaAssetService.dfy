/** Creating a media asset, one call to the database or the storage after the other, among concurrent others. */
module MediaAssetService {
  import opened Basics
  import opened MediaGuarantees
  import opened MediaMachine

  class MediaStore {
    var state: State

    /** Everything that happened so far. */
    ghost var script: seq<Action>

    ghost predicate Valid()
      reads this
    {
      state == Run(EMPTY, script)
    }

    constructor ()
      ensures Valid() && script == []
    {
      state := EMPTY;
      script := [];
    }

    method Do(a: Action)
      requires Valid()
      modifies this
      ensures Valid() && script == old(script) + [a] && state == Step(old(state), a)
    {
      RunSnoc(EMPTY, script, a);
      state := Step(state, a);
      script := script + [a];
    }

    /** While a call waits, the others may take any number of steps. */
    method Others(me: Id)
      requires Valid() && me in state.calls
      modifies this
      ensures Valid() && old(script) <= script
      ensures forall k :: |old(script)| <= k < |script| ==> script[k].call != me
      ensures me in state.calls && state.calls[me] == old(state.calls[me])
    {
      var steps: int :| 0 <= steps;
      for i := 0 to steps
        invariant Valid() && old(script) <= script
        invariant forall k :: |old(script)| <= k < |script| ==> script[k].call != me
        invariant me in state.calls && state.calls[me] == old(state.calls[me])
      {
        var a: Action := *;
        if a.call != me {
          EveryRunIsOk(script);
          OthersKeepMyRow(state, a, me);
          Do(a);
        }
      }
    }
  }

  lemma RunSnoc(s: State, actions: seq<Action>, a: Action)
    ensures Run(s, actions + [a]) == Step(Run(s, actions), a)
  {
    RunAppend(s, actions, [a]);
    assert [a][1..] == [];
    assert Run(Step(Run(s, actions), a), []) == Step(Run(s, actions), a);
  }

  lemma FindMoves(s: State, c: Id, now: int, answered: bool, found: Option<Id>)
    requires c in s.calls && (s.calls[c].phase.Looking? || s.calls[c].phase.LookingAgain?)
    requires match found
      case Some(id) => Holds(s, id, s.calls[c].input.companyId, s.calls[c].input.checksum)
      case None => !KeyHeld(s, s.calls[c].input.companyId, s.calls[c].input.checksum)
    ensures var t := Step(s, Find(c, now, answered, found));
      var phase := t.calls[c].phase;
      && t.assets == s.assets && t.calls.Keys == s.calls.Keys && t.calls[c].input == s.calls[c].input
      && match phase
         case Threw(_) => true
         case Returned(id, asset) =>
           && id in s.assets && s.assets[id] == asset && asset.status == Ready && Some(id) == found && answered
           && (asset.expiresAt == None || now < asset.expiresAt.value)
         case Releasing(_, _, retry) => retry == if s.calls[c].phase.Looking? then None else Some(s.calls[c].phase.mayRetry)
         case Creating(mayRetry) => s.calls[c].phase.Looking? && mayRetry
         case _ => false
  {
  }

  lemma ReleaseMoves(s: State, c: Id, now: int, reply: Reply)
    requires c in s.calls && s.calls[c].phase.Releasing?
    ensures var t := Step(s, Release(c, now, reply));
      && t.calls.Keys == s.calls.Keys && t.calls[c].input == s.calls[c].input
      && match t.calls[c].phase
         case Threw(_) => true
         case Creating(mayRetry) => s.calls[c].phase.retry != Some(false) && (mayRetry <==> s.calls[c].phase.retry == None)
         case _ => false
  {
  }

  lemma InsertMoves(s: State, c: Id, reply: Reply)
    requires c in s.calls && s.calls[c].phase.Creating?
    ensures var t := Step(s, Insert(c, reply));
      && t.calls.Keys == s.calls.Keys && t.calls[c].input == s.calls[c].input
      && match t.calls[c].phase
         case Threw(_) => true
         case Uploading => true
         case LookingAgain(mayRetry) => mayRetry == s.calls[c].phase.mayRetry
         case _ => false
  {
  }

  lemma PutObjectMoves(s: State, c: Id, reply: Reply, upload: Upload)
    requires c in s.calls && s.calls[c].phase.Uploading?
    ensures var t := Step(s, PutObject(c, reply, upload));
      && t.calls.Keys == s.calls.Keys && t.calls[c].input == s.calls[c].input
      && t.calls[c].phase == (if reply == Answered then Finalizing(upload) else MarkingFailed(UploadFailed))
  {
  }

  lemma FinalizeMoves(s: State, c: Id, reply: Reply)
    requires c in s.calls && s.calls[c].phase.Finalizing?
    ensures var t := Step(s, Finalize(c, reply));
      && t.calls.Keys == s.calls.Keys && t.calls[c].input == s.calls[c].input
      && (t.calls[c].phase.Reloading? || t.calls[c].phase.Confirming?)
  {
  }

  lemma ReloadMoves(s: State, c: Id, answered: bool)
    requires c in s.calls && (s.calls[c].phase.Reloading? || s.calls[c].phase.Confirming?)
    ensures var t := Step(s, Reload(c, answered));
      && t.assets == s.assets && t.calls.Keys == s.calls.Keys && t.calls[c].input == s.calls[c].input
      && match t.calls[c].phase
         case Threw(cause) => cause == NotReloaded
         case Returned(id, asset) => id == c && c in s.assets && s.assets[c] == asset && asset.status == Ready
         case Deleting(_, _) => true
         case _ => false
  {
  }

  lemma DeleteObjectMoves(s: State, c: Id, reply: Reply)
    requires c in s.calls && s.calls[c].phase.Deleting?
    ensures var t := Step(s, DeleteObject(c, reply));
      && t.calls.Keys == s.calls.Keys && t.calls[c].input == s.calls[c].input
      && match t.calls[c].phase
         case Threw(cause) => cause.NotFinalized? || cause.Unconfirmed?
         case MarkingFailed(cause) => cause.NotFinalized? || cause.Unconfirmed?
         case _ => false
  {
  }

  lemma MarkFailedMoves(s: State, c: Id, reply: Reply)
    requires c in s.calls && s.calls[c].phase.MarkingFailed?
    ensures var t := Step(s, MarkFailed(c, reply));
      && t.calls.Keys == s.calls.Keys && t.calls[c].input == s.calls[c].input
      && t.calls[c].phase == Threw(s.calls[c].phase.cause)
  {
  }

  class MediaAssetService {
    const store: MediaStore

    constructor (store: MediaStore)
      ensures this.store == store
    {
      this.store := store;
    }

    predicate IsCall(c: Id)
      reads this, store
    {
      c in store.state.calls
    }

    function Phase(c: Id): Phase
      requires IsCall(c)
      reads this, store
    {
      store.state.calls[c].phase
    }

    function InputOf(c: Id): Input
      requires IsCall(c)
      reads this, store
    {
      store.state.calls[c].input
    }

    /**
     * One call. It returns a ready asset with the content of the company, as it is stored at that moment
     * under the returned identifier, or throws. `acknowledged` tells whether the storage confirmed an upload, and
     * `now` is the clock of the last lookup: an asset of somebody else expires later.
     */
    method Create(c: Id, input: Input)
      returns (r: Result<(Id, Asset), Failure>, ghost acknowledged: bool, ghost now: int)
      requires store.Valid() && !IsCall(c)
      modifies store
      ensures store.Valid() && old(store.script) <= store.script && IsCall(c)
      ensures r.Ok? ==>
        var (id, asset) := r.value;
        && id in store.state.assets && store.state.assets[id] == asset
        && asset.status == Ready && asset.companyId == input.companyId && asset.checksum == input.checksum
        && id in store.state.calls && (id in store.state.objects <==> !DeletedUnconfirmed(store.state.calls[id].phase))
        && (acknowledged ==> id == c && c in store.state.objects)
        && (id != c ==> IsReused(c, id, asset, now))
      ensures r.Err? ==> Phase(c) == Threw(r.error)
      ensures r.Err? && acknowledged ==>
        c !in store.state.objects || r.error == NotReloaded || (AfterDelete(r.error) && r.error.deletion != Answered)
      ensures r.Err? && r.error in {Conflict, NotCreated, DatabaseFailed} ==> c !in store.state.objects
    {
      hide Step, Run;
      acknowledged := false;
      StartsLooking(store.state, c, input);
      store.Do(Start(c, input));
      now := FindAndPrepare(c);
      if Phase(c).Creating? { now := CreatePendingAsset(c); }
      if Phase(c).Uploading? { acknowledged := UploadAndFinalize(c); }
      Conclude(store.script, c);
      match Phase(c)
      case Returned(id, asset) => return Ok((id, asset)), acknowledged, now;
      case Threw(cause) => return Err(cause), acknowledged, now;
    }

    predicate AfterDelete(cause: Failure) { cause.NotFinalized? || cause.Unconfirmed? }

    /** The last step of all was the lookup that found the asset, and by its clock the asset has not expired. */
    ghost predicate IsReused(c: Id, id: Id, asset: Asset, now: int)
      reads this, store
    {
      && store.script != [] && store.script[|store.script| - 1] == Find(c, now, true, Some(id))
      && (asset.expiresAt == None || now < asset.expiresAt.value)
    }

    /** Looks the key up and decides about its holder. */
    method FindAndPrepare(c: Id) returns (ghost clock: int)
      requires store.Valid() && IsCall(c) && (Phase(c).Looking? || Phase(c).LookingAgain?)
      modifies store
      ensures store.Valid() && old(store.script) <= store.script && IsCall(c) && InputOf(c) == old(InputOf(c))
      ensures Phase(c).Threw? || Phase(c).Creating? || (Phase(c).Returned? && ReturnsWhatIsStored(c) && Phase(c).id != c)
      ensures Phase(c).Returned? ==> IsReused(c, Phase(c).id, Phase(c).asset, clock)
      ensures Phase(c).Creating? ==> old(Phase(c).Looking? || (Phase(c).LookingAgain? && Phase(c).mayRetry))
      ensures Phase(c).Creating? && old(Phase(c).LookingAgain?) ==> !Phase(c).mayRetry
    {
      hide Step, Run, PhaseOk;
      store.Others(c);
      var now: int, answered: bool := *, *;
      clock := now;
      var found := FindHolder(c);
      FindMoves(store.state, c, now, answered, found);
      NotYetCreated(store.script, c);
      store.Do(Find(c, now, answered, found));
      if Phase(c).Releasing? {
        store.Others(c);
        var later: int, reply: Reply := *, *;
        ReleaseMoves(store.state, c, later, reply);
        store.Do(Release(c, later, reply));
      }
    }

    predicate ReturnsWhatIsStored(c: Id)
      requires IsCall(c) && Phase(c).Returned?
      reads this, store
    {
      var id, asset := Phase(c).id, Phase(c).asset;
      id in store.state.assets && store.state.assets[id] == asset && asset.status == Ready
      && asset.companyId == InputOf(c).companyId && asset.checksum == InputOf(c).checksum
    }

    method FindHolder(c: Id) returns (found: Option<Id>)
      requires store.Valid() && IsCall(c)
      ensures match found
        case Some(id) => Holds(store.state, id, InputOf(c).companyId, InputOf(c).checksum)
                         && store.state.assets[id].checksum == InputOf(c).checksum
        case None => !KeyHeld(store.state, InputOf(c).companyId, InputOf(c).checksum)
    {
      if id: Id :| id in store.state.assets && Holds(store.state, id, InputOf(c).companyId, InputOf(c).checksum) {
        HolderHasTheContent(store.script, id);
        return Some(id);
      }
      return None;
    }

    /** Inserts the pending row; a refused insert looks again, and inserts once more if that released the key. */
    method CreatePendingAsset(c: Id) returns (ghost now: int)
      requires store.Valid() && IsCall(c) && Phase(c).Creating?
      modifies store
      ensures store.Valid() && old(store.script) <= store.script && IsCall(c) && InputOf(c) == old(InputOf(c))
      ensures Phase(c).Threw? || Phase(c).Uploading? || (Phase(c).Returned? && ReturnsWhatIsStored(c) && Phase(c).id != c)
      ensures Phase(c).Returned? ==> IsReused(c, Phase(c).id, Phase(c).asset, now)
      decreases if Phase(c).mayRetry then 1 else 0
    {
      hide Step, Run;
      store.Others(c);
      now := 0;
      var reply: Reply := *;
      InsertMoves(store.state, c, reply);
      store.Do(Insert(c, reply));
      if Phase(c).LookingAgain? {
        now := FindAndPrepare(c);
        if Phase(c).Creating? { now := CreatePendingAsset(c); }
      }
    }

    method UploadAndFinalize(c: Id) returns (ghost acknowledged: bool)
      requires store.Valid() && IsCall(c) && Phase(c).Uploading?
      modifies store
      ensures store.Valid() && old(store.script) <= store.script && IsCall(c) && InputOf(c) == old(InputOf(c))
      ensures Phase(c).Threw? || (Phase(c).Returned? && ReturnsWhatIsStored(c) && Phase(c).id == c && acknowledged)
      ensures Phase(c).Threw? ==>
        (acknowledged <==> Phase(c).cause.NotReloaded? || Phase(c).cause.NotFinalized? || Phase(c).cause.Unconfirmed?)
    {
      hide Run, Step;
      var reply: Reply, upload: Upload := *, *;
      store.Others(c);
      PutObjectMoves(store.state, c, reply, upload);
      store.Do(PutObject(c, reply, upload));
      acknowledged := reply == Answered;
      if reply != Answered {
        TryMarkFailed(c);
        return;
      }
      var committed: Reply := *;
      store.Others(c);
      FinalizeMoves(store.state, c, committed);
      store.Do(Finalize(c, committed));
      Reconcile(c);
    }

    /** Reloads or confirms, and compensates when the asset is not the ready one that was written. */
    method Reconcile(c: Id)
      requires store.Valid() && IsCall(c) && (Phase(c).Reloading? || Phase(c).Confirming?)
      modifies store
      ensures store.Valid() && old(store.script) <= store.script && IsCall(c) && InputOf(c) == old(InputOf(c))
      ensures Phase(c).Threw? || (Phase(c).Returned? && ReturnsWhatIsStored(c) && Phase(c).id == c)
      ensures Phase(c).Threw? ==> Phase(c).cause.NotReloaded? || Phase(c).cause.NotFinalized? || Phase(c).cause.Unconfirmed?
    {
      hide Run, Step;
      var answered: bool := *;
      store.Others(c);
      ReloadMoves(store.state, c, answered);
      OwnRowHasTheContent(store.script, c);
      store.Do(Reload(c, answered));
      if !Phase(c).Deleting? { return; }
      var reply: Reply := *;
      store.Others(c);
      DeleteObjectMoves(store.state, c, reply);
      store.Do(DeleteObject(c, reply));
      if Phase(c).MarkingFailed? { TryMarkFailed(c); }
    }

    method TryMarkFailed(c: Id)
      requires store.Valid() && IsCall(c) && Phase(c).MarkingFailed?
      modifies store
      ensures store.Valid() && old(store.script) <= store.script && IsCall(c) && InputOf(c) == old(InputOf(c))
      ensures Phase(c) == Threw(old(Phase(c).cause))
    {
      hide Run, Step;
      var reply: Reply := *;
      store.Others(c);
      MarkFailedMoves(store.state, c, reply);
      store.Do(MarkFailed(c, reply));
    }
  }

  lemma StartsLooking(s: State, c: Id, input: Input)
    requires c !in s.calls
    ensures var t := Step(s, Start(c, input)); c in t.calls && t.calls[c] == Call(input, Looking)
  {
  }

  lemma NotYetCreated(actions: seq<Action>, c: Id)
    requires var s := Run(EMPTY, actions); c in s.calls && (s.calls[c].phase.Looking? || s.calls[c].phase.LookingAgain?)
    ensures c !in Run(EMPTY, actions).assets
  {
    EveryRunIsOk(actions);
    assert CallOk(Run(EMPTY, actions), c);
  }

  lemma HolderHasTheContent(actions: seq<Action>, id: Id)
    requires id in Run(EMPTY, actions).assets && Run(EMPTY, actions).assets[id].key.Some?
    ensures Run(EMPTY, actions).assets[id].key == Some(Run(EMPTY, actions).assets[id].checksum)
  {
    EveryRunIsOk(actions);
    assert CallOk(Run(EMPTY, actions), id);
  }

  lemma OwnRowHasTheContent(actions: seq<Action>, c: Id)
    requires c in Run(EMPTY, actions).calls
    ensures var s := Run(EMPTY, actions);
      c in s.assets ==> s.assets[c].companyId == s.calls[c].input.companyId && s.assets[c].checksum == s.calls[c].input.checksum
  {
    EveryRunIsOk(actions);
    assert CallOk(Run(EMPTY, actions), c);
  }

  lemma Conclude(actions: seq<Action>, c: Id)
    requires c in Run(EMPTY, actions).calls
    ensures var s := Run(EMPTY, actions);
      match s.calls[c].phase
      case Threw(cause) =>
        && (cause.NotFinalized? || cause.Unconfirmed? ==> (c in s.objects <==> cause.deletion == LostBefore))
        && (cause in {Conflict, NotCreated, DatabaseFailed} ==> c !in s.objects)
      case Returned(id, _) =>
        && (id == c ==> c in s.objects)
        && (HasStatus(s, id, {Ready}) ==> id in s.calls && (id in s.objects <==> !DeletedUnconfirmed(s.calls[id].phase)))
      case _ => true
  {
    EveryRunIsOk(actions);
    var s := Run(EMPTY, actions);
    assert CallOk(s, c);
    match s.calls[c].phase
    case Threw(_) => FailedCallsCleanUp(actions, c);
    case Returned(id, _) => if HasStatus(s, id, {Ready}) { ReadyAssetsAreStored(actions, id); }
    case _ =>
  }
}
