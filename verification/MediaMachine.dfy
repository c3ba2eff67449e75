/**
 * Storing a media file: a row that locks the content by its deduplication key, an upload, a commit that
 * may be lost, a read that confirms it, and a compensating delete. Any number of calls run at once; every
 * action is one call to the database or the storage, which may fail before or after taking effect.
 */
module MediaMachine {
  import opened Basics

  datatype AssetStatus = Pending | Ready | Failed | DeletePending

  /** What the storage answered to an upload. */
  datatype Upload = Upload(provider: string, bucket: string, sizeBytes: nat)

  /** `key` is the deduplication key; `upload` is filled when the asset becomes ready. */
  datatype Asset = Asset(companyId: Id, checksum: string, key: Option<string>, status: AssetStatus,
                         expiresAt: Option<int>, upload: Option<Upload>)

  datatype Input = Input(companyId: Id, checksum: string, expiresAt: Option<int>)

  /** Why a call throws; the compensating delete ended with the given reply. */
  datatype Failure =
    | Conflict
    | NotCreated
    | DatabaseFailed
    | UploadFailed
    | NotReloaded
    | NotFinalized(deletion: Reply)
    | Unconfirmed(deletion: Reply)

  /** The call that is made next. `retry` is set once an insert was refused, to whether another one may follow. */
  datatype Phase =
    | Looking
    | Releasing(found: Id, seen: Asset, retry: Option<bool>)
    | Creating(mayRetry: bool)
    | LookingAgain(mayRetry: bool)
    | Uploading
    | Finalizing(upload: Upload)
    | Reloading(upload: Upload)
    | Confirming(upload: Upload)
    | Deleting(unconfirmed: bool, thenMark: bool)
    | MarkingFailed(cause: Failure)
    | Returned(id: Id, asset: Asset)
    | Threw(cause: Failure)
    | Stopped(at: Phase)

  /** A call is named by the identifier it draws for its asset, under which its object is stored too. */
  datatype Call = Call(input: Input, phase: Phase)

  datatype State = State(assets: map<Id, Asset>, objects: set<Id>, calls: map<Id, Call>)

  const EMPTY := State(map[], {}, map[])

  datatype Action =
    | Start(call: Id, input: Input)
    | Find(call: Id, now: int, answered: bool, found: Option<Id>)
    | Release(call: Id, now: int, reply: Reply)
    | Insert(call: Id, reply: Reply)
    | PutObject(call: Id, reply: Reply, upload: Upload)
    | Finalize(call: Id, reply: Reply)
    | Reload(call: Id, answered: bool)
    | DeleteObject(call: Id, reply: Reply)
    | MarkFailed(call: Id, reply: Reply)
    | Crash(call: Id)

  function Go(s: State, c: Id, phase: Phase): State
    requires c in s.calls
  {
    s.(calls := s.calls[c := s.calls[c].(phase := phase)])
  }

  function Put(s: State, id: Id, asset: Asset): State { s.(assets := s.assets[id := asset]) }

  predicate Holds(s: State, id: Id, companyId: Id, key: string) {
    id in s.assets && s.assets[id].companyId == companyId && s.assets[id].key == Some(key)
  }

  predicate KeyHeld(s: State, companyId: Id, key: string) {
    exists id :: id in s.assets && Holds(s, id, companyId, key)
  }

  predicate IsExpired(asset: Asset, now: int) { asset.expiresAt.Some? && asset.expiresAt.value <= now }

  /** What to do about the asset that holds the key: wait for it, reuse it, or release the key. */
  function Prepare(found: Id, seen: Asset, now: int, retry: Option<bool>): Phase {
    if seen.status == Pending then Threw(Conflict)
    else if seen.status == Ready && !IsExpired(seen, now) then Returned(found, seen)
    else Releasing(found, seen, retry)
  }

  function FindStep(s: State, c: Id, now: int, answered: bool, found: Option<Id>): State
    requires c in s.calls
  {
    var input, phase := s.calls[c].input, s.calls[c].phase;
    if !phase.Looking? && !phase.LookingAgain? then s
    else if !answered then Go(s, c, Threw(DatabaseFailed))
    else match found
      case Some(id) =>
        if !Holds(s, id, input.companyId, input.checksum) then s
        else Go(s, c, Prepare(id, s.assets[id], now, if phase.Looking? then None else Some(phase.mayRetry)))
      case None =>
        if KeyHeld(s, input.companyId, input.checksum) then s
        else Go(s, c, if phase.Looking? then Creating(true) else Threw(Conflict))
  }

  predicate CanRelease(s: State, input: Input, found: Id, seen: Asset, now: int) {
    && Holds(s, found, input.companyId, input.checksum) && s.assets[found].status == seen.status
    && (seen.status == Ready ==> IsExpired(s.assets[found], now))
  }

  function Released(asset: Asset): Asset {
    asset.(key := None, status := if asset.status == Ready then DeletePending else asset.status)
  }

  function ReleaseStep(s: State, c: Id, now: int, reply: Reply): State
    requires c in s.calls
  {
    match s.calls[c].phase
    case Releasing(found, seen, retry) =>
      var matched := CanRelease(s, s.calls[c].input, found, seen, now);
      var written := if matched && reply != LostBefore then Put(s, found, Released(s.assets[found])) else s;
      Go(written, c,
         if reply != Answered then Threw(DatabaseFailed)
         else if !matched || retry == Some(false) then Threw(Conflict)
         else Creating(retry == None))
    case _ => s
  }

  function NewAsset(input: Input): Asset {
    Asset(input.companyId, input.checksum, Some(input.checksum), Pending, input.expiresAt, None)
  }

  /** The unique key on company and deduplication key refuses a second holder. */
  function InsertStep(s: State, c: Id, reply: Reply): State
    requires c in s.calls
  {
    match s.calls[c].phase
    case Creating(mayRetry) =>
      var input := s.calls[c].input;
      var taken := KeyHeld(s, input.companyId, input.checksum);
      if c in s.assets then Go(s, c, Threw(NotCreated))
      else
        var written := if taken || reply == LostBefore then s else Put(s, c, NewAsset(input));
        Go(written, c, if reply != Answered then Threw(NotCreated) else if taken then LookingAgain(mayRetry) else Uploading)
    case _ => s
  }

  function PutObjectStep(s: State, c: Id, reply: Reply, upload: Upload): State
    requires c in s.calls
  {
    if s.calls[c].phase != Uploading then s
    else
      var stored := if reply == LostBefore then s else s.(objects := s.objects + {c});
      Go(stored, c, if reply == Answered then Finalizing(upload) else MarkingFailed(UploadFailed))
  }

  function FinalizeStep(s: State, c: Id, reply: Reply): State
    requires c in s.calls
  {
    match s.calls[c].phase
    case Finalizing(upload) =>
      var matched := c in s.assets && s.assets[c].status == Pending;
      var written := if matched && reply != LostBefore
                     then Put(s, c, s.assets[c].(status := Ready, upload := Some(upload))) else s;
      Go(written, c, if reply == Answered && matched then Reloading(upload) else Confirming(upload))
    case _ => s
  }

  predicate IsMatchingReady(s: State, c: Id, upload: Upload) {
    c in s.assets && s.assets[c].status == Ready && s.assets[c].upload == Some(upload)
  }

  /** The read after the commit; a failed read is harmless only if the commit was acknowledged. */
  function ReloadStep(s: State, c: Id, answered: bool): State
    requires c in s.calls
  {
    var phase := s.calls[c].phase;
    if !phase.Reloading? && !phase.Confirming? then s
    else if !answered then Go(s, c, if phase.Reloading? then Threw(NotReloaded) else Deleting(true, false))
    else if IsMatchingReady(s, c, phase.upload) then Go(s, c, Returned(c, s.assets[c]))
    else Go(s, c, Deleting(false, c in s.assets && s.assets[c].status == Pending))
  }

  function DeleteObjectStep(s: State, c: Id, reply: Reply): State
    requires c in s.calls
  {
    match s.calls[c].phase
    case Deleting(unconfirmed, thenMark) =>
      var gone := if reply == LostBefore then s else s.(objects := s.objects - {c});
      var cause := if unconfirmed then Unconfirmed(reply) else NotFinalized(reply);
      Go(gone, c, if thenMark then MarkingFailed(cause) else Threw(cause))
    case _ => s
  }

  /** Errors of this update are swallowed. */
  function MarkFailedStep(s: State, c: Id, reply: Reply): State
    requires c in s.calls
  {
    match s.calls[c].phase
    case MarkingFailed(cause) =>
      var matched := c in s.assets && s.assets[c].status == Pending;
      var written := if matched && reply != LostBefore then Put(s, c, s.assets[c].(status := Failed, key := None)) else s;
      Go(written, c, Threw(cause))
    case _ => s
  }

  predicate IsOver(phase: Phase) { phase.Returned? || phase.Threw? || phase.Stopped? }

  function CrashStep(s: State, c: Id): State
    requires c in s.calls
  {
    if IsOver(s.calls[c].phase) then s else Go(s, c, Stopped(s.calls[c].phase))
  }

  /** Actions that do not fit the state they meet do nothing. */
  function Step(s: State, a: Action): State {
    if a.Start? then
      if a.call in s.calls then s else s.(calls := s.calls[a.call := Call(a.input, Looking)])
    else if a.call !in s.calls then s
    else match a
      case Start(_, _) => s
      case Find(c, now, answered, found) => FindStep(s, c, now, answered, found)
      case Release(c, now, reply) => ReleaseStep(s, c, now, reply)
      case Insert(c, reply) => InsertStep(s, c, reply)
      case PutObject(c, reply, upload) => PutObjectStep(s, c, reply, upload)
      case Finalize(c, reply) => FinalizeStep(s, c, reply)
      case Reload(c, answered) => ReloadStep(s, c, answered)
      case DeleteObject(c, reply) => DeleteObjectStep(s, c, reply)
      case MarkFailed(c, reply) => MarkFailedStep(s, c, reply)
      case Crash(c) => CrashStep(s, c)
  }

  function Run(s: State, actions: seq<Action>): State
    decreases actions
  {
    if actions == [] then s else Run(Step(s, actions[0]), actions[1..])
  }

  // ----- the invariant

  /** The key is the checksum or absent: held while pending or ready, given up with the other statuses. */
  predicate AssetOk(asset: Asset, input: Input) {
    && asset.companyId == input.companyId && asset.checksum == input.checksum && asset.expiresAt == input.expiresAt
    && asset.key == if asset.status in {Pending, Ready} then Some(input.checksum) else None
  }

  /** No row and no object yet. */
  predicate Nothing(s: State, c: Id) { c !in s.assets && c !in s.objects }

  predicate HasStatus(s: State, c: Id, statuses: set<AssetStatus>) { c in s.assets && s.assets[c].status in statuses }

  /** Ready with this upload, or given up since because it expired. */
  predicate Committed(s: State, c: Id, upload: Upload) {
    HasStatus(s, c, {Ready, DeletePending}) && s.assets[c].upload == Some(upload)
  }

  predicate DeletionOk(s: State, c: Id, deletion: Reply) { c in s.objects <==> deletion == LostBefore }

  predicate CauseOk(s: State, c: Id, cause: Failure) {
    match cause
    case Conflict => Nothing(s, c)
    case DatabaseFailed => Nothing(s, c)
    case NotCreated => c !in s.objects && (c in s.assets ==> HasStatus(s, c, {Pending}))
    case UploadFailed => HasStatus(s, c, {Pending, Failed})
    case NotReloaded => c in s.objects && HasStatus(s, c, {Ready, DeletePending})
    case NotFinalized(deletion) => DeletionOk(s, c, deletion) && HasStatus(s, c, {Pending, Failed, DeletePending})
    case Unconfirmed(deletion) => DeletionOk(s, c, deletion) && HasStatus(s, c, {Pending, Ready, DeletePending})
  }

  /** Where the row and the object of a call are, told by what the call does next. */
  predicate PhaseOk(s: State, c: Id, phase: Phase) {
    match phase
    case Looking => Nothing(s, c)
    case Releasing(_, seen, _) => Nothing(s, c) && seen.status != Pending
    case Creating(_) => Nothing(s, c)
    case LookingAgain(_) => Nothing(s, c)
    case Uploading => c !in s.objects && HasStatus(s, c, {Pending})
    case Finalizing(_) => c in s.objects && HasStatus(s, c, {Pending})
    case Reloading(upload) => c in s.objects && Committed(s, c, upload)
    case Confirming(upload) => c in s.objects && (HasStatus(s, c, {Pending}) || Committed(s, c, upload))
    case Deleting(unconfirmed, thenMark) =>
      && c in s.objects && HasStatus(s, c, {Pending, Ready, DeletePending}) && !(unconfirmed && thenMark)
      && (!unconfirmed ==> HasStatus(s, c, {Pending, DeletePending}))
      && (thenMark ==> HasStatus(s, c, {Pending}))
    case MarkingFailed(cause) =>
      (cause == UploadFailed || cause.NotFinalized?) && CauseOk(s, c, cause) && HasStatus(s, c, {Pending})
    case Returned(id, asset) =>
      && asset.status == Ready
      && (if id == c then c in s.objects && HasStatus(s, c, {Ready, DeletePending}) else Nothing(s, c))
    case Threw(cause) => CauseOk(s, c, cause)
    case Stopped(at) => !IsOver(at) && PhaseOk(s, c, at)
  }

  ghost predicate CallOk(s: State, c: Id) {
    if c in s.calls
    then PhaseOk(s, c, s.calls[c].phase) && (c in s.assets ==> AssetOk(s.assets[c], s.calls[c].input))
    else Nothing(s, c)
  }

  predicate SameKey(a: Asset, b: Asset) { a.companyId == b.companyId && a.key == b.key && a.key.Some? }

  ghost predicate KeysUnique(s: State) {
    forall a, b :: a in s.assets && b in s.assets && SameKey(s.assets[a], s.assets[b]) ==> a == b
  }

  ghost predicate Inv(s: State) {
    KeysUnique(s) && forall c :: CallOk(s, c)
  }

  /** What a step may do to the row of another call: release it when it was ready. */
  predicate RowKept(s: State, t: State, c: Id) {
    && (c in t.objects <==> c in s.objects)
    && (c in t.assets <==> c in s.assets)
    && (c in s.assets ==>
          t.assets[c] == s.assets[c] || (s.assets[c].status == Ready && t.assets[c] == Released(s.assets[c])))
  }

  lemma PhaseKept(s: State, t: State, c: Id, phase: Phase)
    requires PhaseOk(s, c, phase) && RowKept(s, t, c)
    ensures PhaseOk(t, c, phase)
    decreases phase
  {
    if phase.Stopped? { PhaseKept(s, t, c, phase.at); }
  }

  lemma OthersKeepMyCall(s: State, a: Action, c: Id)
    requires Inv(s) && a.call != c
    ensures RowKept(s, Step(s, a), c) && CallOk(Step(s, a), c)
    ensures c in Step(s, a).calls <==> c in s.calls
    ensures c in s.calls ==> Step(s, a).calls[c] == s.calls[c]
  {
    assert CallOk(s, c);
    OthersKeepMyRow(s, a, c);
    if c in s.calls { PhaseKept(s, Step(s, a), c, s.calls[c].phase); }
  }

  lemma OnlyReleasesFreeOthers(s: State, a: Action, id: Id)
    requires !a.Release? && a.call != id
    ensures var t := Step(s, a);
      && (id in t.assets <==> id in s.assets) && (id in s.assets ==> t.assets[id] == s.assets[id])
      && (id in t.objects <==> id in s.objects)
  {
    hide KeyHeld, Prepare, IsMatchingReady;
  }

  /** Only a ready row is released by another call: a pending one is waited for, the others hold no key. */
  lemma ReleasesAreOfReadyRows(s: State, c: Id, now: int, reply: Reply, found: Id)
    requires c in s.calls && CallOk(s, c) && CallOk(s, found) && c != found
    ensures RowKept(s, ReleaseStep(s, c, now, reply), found)
  {
    hide HasStatus, CauseOk, Committed, DeletionOk;
  }

  lemma OthersKeepMyRow(s: State, a: Action, c: Id)
    requires Inv(s) && a.call != c
    ensures RowKept(s, Step(s, a), c)
    ensures c in Step(s, a).calls <==> c in s.calls
    ensures c in s.calls ==> Step(s, a).calls[c] == s.calls[c]
  {
    assert CallOk(s, c) && CallOk(s, a.call);
    hide CallOk, KeysUnique;
    OthersKeepMyPhase(s, a, c);
    if a.Release? {
      hide ReleaseStep;
      if a.call in s.calls { ReleasesAreOfReadyRows(s, a.call, a.now, a.reply, c); }
    } else {
      hide Step;
      OnlyReleasesFreeOthers(s, a, c);
    }
  }

  lemma OthersKeepMyPhase(s: State, a: Action, c: Id)
    requires a.call != c
    ensures c in Step(s, a).calls <==> c in s.calls
    ensures c in s.calls ==> Step(s, a).calls[c] == s.calls[c]
  {
    hide KeyHeld, Prepare, IsMatchingReady;
  }

  // ----- every step keeps the invariant

  lemma FindKeepsCallOk(s: State, c: Id, now: int, answered: bool, found: Option<Id>)
    requires CallOk(s, c) && c in s.calls
    ensures CallOk(FindStep(s, c, now, answered, found), c)
  {
    hide KeyHeld, AssetOk;
  }

  lemma ReleaseKeepsCallOk(s: State, c: Id, now: int, reply: Reply)
    requires CallOk(s, c) && c in s.calls
    ensures CallOk(ReleaseStep(s, c, now, reply), c)
  {
    hide AssetOk;
  }

  lemma InsertKeepsCallOk(s: State, c: Id, reply: Reply)
    requires CallOk(s, c) && c in s.calls
    ensures CallOk(InsertStep(s, c, reply), c)
  {
    hide KeyHeld;
  }

  lemma PutObjectKeepsCallOk(s: State, c: Id, reply: Reply, upload: Upload)
    requires CallOk(s, c) && c in s.calls
    ensures CallOk(PutObjectStep(s, c, reply, upload), c)
  {
    hide AssetOk;
  }

  lemma FinalizeKeepsCallOk(s: State, c: Id, reply: Reply)
    requires CallOk(s, c) && c in s.calls
    ensures CallOk(FinalizeStep(s, c, reply), c)
  {
  }

  lemma ReloadKeepsCallOk(s: State, c: Id, answered: bool)
    requires CallOk(s, c) && c in s.calls
    ensures CallOk(ReloadStep(s, c, answered), c)
  {
    hide AssetOk;
  }

  lemma DeletionKeepsCallOk(s: State, c: Id, reply: Reply)
    requires CallOk(s, c) && c in s.calls
    ensures CallOk(DeleteObjectStep(s, c, reply), c)
  {
    hide AssetOk;
  }

  lemma MarkFailedKeepsCallOk(s: State, c: Id, reply: Reply)
    requires CallOk(s, c) && c in s.calls
    ensures CallOk(MarkFailedStep(s, c, reply), c)
  {
  }

  lemma StartAndCrashKeepCallOk(s: State, a: Action)
    requires CallOk(s, a.call) && (a.Start? || a.Crash?)
    ensures CallOk(Step(s, a), a.call)
  {
    hide AssetOk;
    hide FindStep, ReleaseStep, InsertStep, PutObjectStep, FinalizeStep, ReloadStep, DeleteObjectStep, MarkFailedStep;
    var t := Step(s, a);
    if a.call in s.calls { PhaseKept(s, t, a.call, s.calls[a.call].phase); }
  }

  lemma OwnStepKeepsCallOk(s: State, a: Action)
    requires CallOk(s, a.call)
    ensures CallOk(Step(s, a), a.call)
  {
    hide CallOk;
    hide FindStep, ReleaseStep, InsertStep, PutObjectStep, FinalizeStep, ReloadStep, DeleteObjectStep, MarkFailedStep;
    if a.Start? || a.Crash? {
      StartAndCrashKeepCallOk(s, a);
    } else if a.call in s.calls {
      match a
      case Find(c, now, answered, found) => FindKeepsCallOk(s, c, now, answered, found);
      case Release(c, now, reply) => ReleaseKeepsCallOk(s, c, now, reply);
      case Insert(c, reply) => InsertKeepsCallOk(s, c, reply);
      case PutObject(c, reply, upload) => PutObjectKeepsCallOk(s, c, reply, upload);
      case Finalize(c, reply) => FinalizeKeepsCallOk(s, c, reply);
      case Reload(c, answered) => ReloadKeepsCallOk(s, c, answered);
      case DeleteObject(c, reply) => DeletionKeepsCallOk(s, c, reply);
      case MarkFailed(c, reply) => MarkFailedKeepsCallOk(s, c, reply);
    }
  }

  /** No row came by a key. */
  ghost predicate KeysOnlyGivenUp(s: State, t: State) {
    forall id :: id in t.assets ==>
      id in s.assets && t.assets[id].companyId == s.assets[id].companyId && t.assets[id].key in {None, s.assets[id].key}
  }

  lemma GivingUpKeepsKeysUnique(s: State, t: State)
    requires KeysUnique(s) && KeysOnlyGivenUp(s, t)
    ensures KeysUnique(t)
  {
  }

  lemma OnlyInsertsTakeKeys(s: State, a: Action)
    requires !a.Insert?
    ensures KeysOnlyGivenUp(s, Step(s, a))
  {
    hide KeyHeld, Prepare, IsMatchingReady;
  }

  lemma InsertKeepsKeysUnique(s: State, c: Id, reply: Reply)
    requires KeysUnique(s) && c in s.calls
    ensures KeysUnique(InsertStep(s, c, reply))
  {
    var input := s.calls[c].input;
    if !KeyHeld(s, input.companyId, input.checksum) {
      assert forall id :: !Holds(s, id, input.companyId, input.checksum);
    }
  }

  lemma StepKeepsKeysUnique(s: State, a: Action)
    requires KeysUnique(s)
    ensures KeysUnique(Step(s, a))
  {
    hide KeysUnique, InsertStep, KeysOnlyGivenUp;
    if a.Insert? {
      if a.call in s.calls { InsertKeepsKeysUnique(s, a.call, a.reply); }
    } else {
      OnlyInsertsTakeKeys(s, a);
      GivingUpKeepsKeysUnique(s, Step(s, a));
    }
  }

  lemma StepKeepsInv(s: State, a: Action)
    requires Inv(s)
    ensures Inv(Step(s, a))
  {
    hide Step, CallOk, KeysUnique;
    StepKeepsKeysUnique(s, a);
    assert CallOk(s, a.call);
    OwnStepKeepsCallOk(s, a);
    forall c ensures CallOk(Step(s, a), c) {
      if c != a.call { OthersKeepMyCall(s, a, c); }
    }
  }

  lemma {:induction false} RunKeepsInv(s: State, actions: seq<Action>)
    requires Inv(s)
    ensures Inv(Run(s, actions))
    decreases actions
  {
    hide Step, Inv;
    if actions != [] {
      StepKeepsInv(s, actions[0]);
      RunKeepsInv(Step(s, actions[0]), actions[1..]);
    }
  }

  /** Every run keeps the invariant, whatever the schedule, the clocks and the losses. */
  lemma EveryRunIsOk(actions: seq<Action>)
    ensures Inv(Run(EMPTY, actions))
  {
    assert forall c :: CallOk(EMPTY, c);
    RunKeepsInv(EMPTY, actions);
  }
}
