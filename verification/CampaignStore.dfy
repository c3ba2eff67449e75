/** Stored campaigns: the scalar filters of each row, and its interest filters in a table of their own. */
module CampaignStore {
  import opened Basics
  import opened CampaignSegmentation

  datatype Kind = Category | Brand

  datatype InterestOption = InterestOption(companyId: Id, kind: Kind, active: bool)

  datatype CampaignRow = CampaignRow(companyId: Id, audience: AudienceType, segmentation: Segmentation, isActive: bool)

  /** What a campaign is configured to, as a reader of both tables sees it. */
  datatype Config = Config(audience: AudienceType, segmentation: Segmentation, categories: set<Id>, brands: set<Id>)

  datatype CampaignInput = CampaignInput(
    audience: Option<AudienceType>,
    fields: SegmentationInput,
    categories: Field<seq<Id>>,
    brands: Field<seq<Id>>,
    isActive: Option<bool>)

  datatype CampaignError = NotFound | Deleted | NameTaken | InvalidInterests | Rejected(reason: Rejection)

  predicate SendsSegmentation(data: CampaignInput) {
    data.fields != NOTHING_SENT || data.categories != Omitted || data.brands != Omitted
  }

  predicate Configures(data: CampaignInput) { data.audience.Some? || SendsSegmentation(data) }

  function ListOf(field: Field<seq<Id>>): seq<Id> { if field.Value? then field.value else [] }

  function SetOf(ids: seq<Id>): set<Id> { set id | id in ids }

  predicate Distinct(ids: seq<Id>) { forall i, j :: 0 <= i < j < |ids| ==> ids[i] != ids[j] }

  /** A stored configuration that dispatch can rely on. */
  predicate ConfigOk(c: Config) {
    && IsNormal(c.segmentation)
    && c.audience != CustomerIds
    && |c.categories| + |c.brands| <= MAX_INTERESTS
    && (c.audience == Segmented <==> HasFilter(c.segmentation) || |c.categories| + |c.brands| > 0)
  }

  /** Each listed option exists, is active in the company, has the kind of its list and is listed once. */
  predicate OptionsAccepted(options: map<Id, InterestOption>, companyId: Id, categories: seq<Id>, brands: seq<Id>) {
    && Distinct(categories + brands)
    && (forall id :: id in categories ==> id in options && options[id] == InterestOption(companyId, Category, true))
    && (forall id :: id in brands ==> id in options && options[id] == InterestOption(companyId, Brand, true))
  }

  /** A group of interests after an update: kept when left out, otherwise what the list says. */
  function Group(current: set<Id>, sent: Field<seq<Id>>): set<Id> {
    if sent == Omitted then current else SetOf(ListOf(sent))
  }

  function GroupSize(current: set<Id>, sent: Field<seq<Id>>): nat {
    if sent == Omitted then |current| else |ListOf(sent)|
  }

  /** The configuration an update asks for. */
  function Requested(current: Config, data: CampaignInput): Result<Config, Rejection> {
    if !Configures(data) then Ok(current)
    else
      var audience := if data.audience.Some? then data.audience.value else current.audience;
      if audience == CustomerIds then Err(AudienceNotConfigurable)
      else if audience != Segmented then
        if SendsSegmentation(data) then Err(FilterNotAllowed) else Ok(Config(audience, NO_SEGMENTATION, {}, {}))
      else match Normalize(Merge(current.segmentation, data.fields))
        case Err(reason) => Err(reason)
        case Ok(segmentation) =>
          var size := GroupSize(current.categories, data.categories) + GroupSize(current.brands, data.brands);
          match CheckAudience(Segmented, segmentation, size)
          case Some(reason) => Err(reason)
          case None =>
            Ok(Config(Segmented, segmentation, Group(current.categories, data.categories), Group(current.brands, data.brands)))
  }

  /**
   * What an update leaves behind when it was checked against `seen` and `current` is stored by the time it writes:
   * audience and scalars as they were checked, and each group of interests that was sent.
   */
  function Written(current: Config, seen: Config, data: CampaignInput): Config
    requires Requested(seen, data).Ok?
  {
    var checked := Requested(seen, data).value;
    if !Configures(data) then current
    else if checked.audience != Segmented then Config(checked.audience, checked.segmentation, {}, {})
    else Config(Segmented, checked.segmentation, Group(current.categories, data.categories), Group(current.brands, data.brands))
  }

  /** Nobody wrote in between: what is stored is what was checked. */
  lemma WrittenOverWhatWasRead(seen: Config, data: CampaignInput)
    requires Requested(seen, data).Ok?
    ensures Written(seen, seen, data) == Requested(seen, data).value
  {
  }

  lemma {:induction false} DistinctSize(ids: seq<Id>)
    ensures |SetOf(ids)| <= |ids|
    ensures |SetOf(ids)| == |ids| <==> Distinct(ids)
    decreases ids
  {
    if ids == [] {
      assert SetOf(ids) == {};
    } else {
      var init, last := ids[..|ids| - 1], ids[|ids| - 1];
      DistinctSize(init);
      assert ids == init + [last];
      assert SetOf(ids) == SetOf(init) + {last};
      if last in init {
        var k :| 0 <= k < |init| && init[k] == last;
        assert ids[k] == ids[|ids| - 1];
      } else {
        assert Distinct(init) <==> Distinct(ids);
      }
    }
  }

  lemma DistinctParts(a: seq<Id>, b: seq<Id>)
    requires Distinct(a + b)
    ensures |SetOf(a)| == |a| && |SetOf(b)| == |b|
  {
    assert forall k :: 0 <= k < |b| ==> b[k] == (a + b)[|a| + k];
    assert forall k :: 0 <= k < |a| ==> a[k] == (a + b)[k];
    DistinctSize(a);
    DistinctSize(b);
  }

  /** An accepted update of a valid configuration is valid again. */
  lemma RequestedIsOk(current: Config, data: CampaignInput)
    requires ConfigOk(current) && Requested(current, data).Ok?
    requires Distinct(ListOf(data.categories) + ListOf(data.brands))
    ensures ConfigOk(Requested(current, data).value)
  {
    DistinctParts(ListOf(data.categories), ListOf(data.brands));
    var merged := Merge(current.segmentation, data.fields);
    if Normalize(merged).Ok? { NormalizedIsNormal(merged); }
  }

  /** The check that dispatch and preview repeat on the stored form never fails and changes nothing. */
  lemma DispatchRecheckPasses(c: Config)
    requires ConfigOk(c)
    ensures Normalize(AsInput(c.segmentation)) == Ok(c.segmentation)
    ensures CheckAudience(c.audience, c.segmentation, |c.categories| + |c.brands|) == None
  {
    StoredFormIsStable(c.segmentation);
  }

  class AutomationService {
    var options: map<Id, InterestOption>
    var campaigns: map<Id, CampaignRow>
    var filters: set<(Id, Id)>  // campaign, interest option

    function Interests(id: Id, kind: Kind): set<Id>
      reads this
    {
      set f | f in filters && f.0 == id && f.1 in options && options[f.1].kind == kind :: f.1
    }

    function Configuration(id: Id): Config
      requires id in campaigns
      reads this
    {
      Config(campaigns[id].audience, campaigns[id].segmentation, Interests(id, Category), Interests(id, Brand))
    }

    ghost predicate Valid()
      reads this
    {
      && (forall f :: f in filters ==> f.0 in campaigns && f.1 in options)
      && (forall id :: id in campaigns ==> ConfigOk(Configuration(id)))
    }

    /** The interest options are kept elsewhere. */
    constructor (options: map<Id, InterestOption>)
      ensures Valid() && campaigns == map[] && this.options == options
    {
      this.options, campaigns, filters := options, map[], {};
    }

    /** The query counts the options found, so a repeated id makes the lists invalid. */
    method AssertValidCampaignInterestOptions(companyId: Id, categories: seq<Id>, brands: seq<Id>) returns (valid: bool)
      ensures valid <==> OptionsAccepted(options, companyId, categories, brands)
    {
      var ids := categories + brands;
      if |ids| == 0 { return true; }
      var found := set id | id in options && id in ids && options[id].companyId == companyId && options[id].active;
      DistinctSize(ids);
      assert found <= SetOf(ids);
      if found != SetOf(ids) { SmallerSubset(found, SetOf(ids)); }
      valid := |found| == |ids|
        && (forall id | id in categories :: id in found && options[id].kind == Category)
        && (forall id | id in brands :: id in found && options[id].kind == Brand);
      if OptionsAccepted(options, companyId, categories, brands) { assert found == SetOf(ids); }
    }

    /** Deletes the filters of one kind and writes the list in their place. */
    method ReplaceCampaignInterestFilterGroup(id: Id, kind: Kind, ids: seq<Id>, replace: bool)
      requires forall i :: i in ids ==> i in options && options[i].kind == kind
      modifies this`filters
      ensures Interests(id, kind) == if replace then SetOf(ids) else old(Interests(id, kind))
      ensures forall k :: k != kind ==> Interests(id, k) == old(Interests(id, k))
      ensures forall other, k :: other != id ==> Interests(other, k) == old(Interests(other, k))
      ensures forall f :: f in filters ==> f in old(filters) || (f.0 == id && f.1 in options)
    {
      if !replace { return; }
      filters := set f | f in filters && !(f.0 == id && f.1 in options && options[f.1].kind == kind);
      filters := filters + set i | i in ids :: (id, i);
    }

    /** Everything but the campaign is as it was. */
    twostate predicate OthersUnchanged(id: Id)
      reads this
    {
      && options == old(options)
      && campaigns.Keys - {id} == old(campaigns.Keys) - {id}
      && forall c :: c in campaigns && c != id ==>
           c in old(campaigns) && campaigns[c] == old(campaigns[c]) && Configuration(c) == old(Configuration(c))
    }

    twostate lemma StaysValid(id: Id)
      requires old(Valid()) && OthersUnchanged(id)
      requires id in campaigns && ConfigOk(Configuration(id))
      requires forall f :: f in filters ==> f in old(filters) || (f.0 == id && f.1 in options)
      ensures Valid()
    {
      forall c | c in campaigns ensures ConfigOk(Configuration(c)) {
        if c != id { assert c in old(campaigns); }
      }
      forall f | f in filters ensures f.0 in campaigns && f.1 in options {
        if f.0 != id { assert f.0 in old(campaigns).Keys - {id}; }
      }
    }

    /** A new campaign: as an update of the empty configuration, which accepts the same requests. */
    method CreateCampaign(id: Id, companyId: Id, data: CampaignInput, nameTaken: bool) returns (error: Option<CampaignError>)
      requires Valid() && id !in campaigns
      modifies this`campaigns, this`filters
      ensures Valid() && OthersUnchanged(id)
      ensures error == None <==>
        && !nameTaken && Created(data).Ok?
        && OptionsAccepted(options, companyId, ListOf(data.categories), ListOf(data.brands))
      ensures error == None ==> id in campaigns && campaigns[id].companyId == companyId && Configuration(id) == Created(data).value
      ensures error == None ==> campaigns[id].isActive
      ensures error != None ==> campaigns == old(campaigns) && filters == old(filters)
    {
      var audience := if data.audience.Some? then data.audience.value else AllEligible;
      if audience == CustomerIds { return Some(Rejected(AudienceNotConfigurable)); }
      var normalized := Normalize(data.fields);
      if normalized.Err? { return Some(Rejected(normalized.error)); }
      var segmentation, categories, brands := normalized.value, ListOf(data.categories), ListOf(data.brands);
      var reason := CheckAudience(audience, segmentation, |categories| + |brands|);
      if reason.Some? { return Some(Rejected(reason.value)); }

      var valid := AssertValidCampaignInterestOptions(companyId, categories, brands);
      if !valid { return Some(InvalidInterests); }
      if nameTaken { return Some(NameTaken); }
      NoFiltersYet(id);
      WriteConfiguration(id, CampaignRow(companyId, audience, segmentation, true), Value(categories), Value(brands));
      CreatedIsOk(data);
      StaysValid(id);
      return None;
    }

    /** The transaction: the interest filters first, then the row. */
    method WriteConfiguration(id: Id, row: CampaignRow, categories: Field<seq<Id>>, brands: Field<seq<Id>>)
      requires forall f :: f in filters ==> f.1 in options
      requires OptionsAccepted(options, row.companyId, ListOf(categories), ListOf(brands))
      modifies this`campaigns, this`filters
      ensures OthersUnchanged(id)
      ensures campaigns == old(campaigns)[id := row]
      ensures Configuration(id) == Config(row.audience, row.segmentation,
        if row.audience == Segmented then Group(old(Interests(id, Category)), categories) else {},
        if row.audience == Segmented then Group(old(Interests(id, Brand)), brands) else {})
      ensures forall f :: f in filters ==> f in old(filters) || (f.0 == id && f.1 in options)
    {
      if row.audience != Segmented {
        filters := set f | f in filters && f.0 != id;
      } else {
        ReplaceCampaignInterestFilterGroup(id, Category, ListOf(categories), categories != Omitted);
        ReplaceCampaignInterestFilterGroup(id, Brand, ListOf(brands), brands != Omitted);
      }
      campaigns := campaigns[id := row];
    }

    lemma NoFiltersYet(id: Id)
      requires Valid() && id !in campaigns
      ensures forall kind :: Interests(id, kind) == {}
    {
    }

    /** A partial update that no other one overlaps; on success the stored configuration is the one that was checked. */
    method UpdateCampaign(id: Id, companyId: Id, data: CampaignInput, nameTaken: bool) returns (error: Option<CampaignError>)
      requires Valid()
      modifies this`campaigns, this`filters
      ensures Valid() && OthersUnchanged(id)
      ensures error == Some(NotFound) <==> id !in old(campaigns) || old(campaigns[id].companyId) != companyId
      ensures error == None <==>
        && id in old(campaigns) && old(campaigns[id].companyId) == companyId && !nameTaken
        && Requested(old(Configuration(id)), data).Ok?
        && OptionsAccepted(options, companyId, ListOf(data.categories), ListOf(data.brands))
      ensures error == None ==>
        && id in campaigns && Configuration(id) == Requested(old(Configuration(id)), data).value
        && campaigns[id].companyId == companyId
        && campaigns[id].isActive == (if data.isActive.Some? then data.isActive.value else old(campaigns[id].isActive))
      ensures error != None ==> campaigns == old(campaigns) && filters == old(filters)
    {
      if id !in campaigns || campaigns[id].companyId != companyId { return Some(NotFound); }
      var seen := Configuration(id);
      error := ApplyUpdate(id, companyId, seen, data, nameTaken);
      if error == None {
        WrittenOverWhatWasRead(seen, data);
        RequestedIsOk(seen, data);
        StaysValid(id);
      }
    }

    /** The rest of an update, checked against what was read before: by now the tables may say something else. */
    method ApplyUpdate(id: Id, companyId: Id, seen: Config, data: CampaignInput, nameTaken: bool)
      returns (error: Option<CampaignError>)
      requires forall f :: f in filters ==> f.1 in options
      requires id in campaigns ==> campaigns[id].companyId == companyId
      modifies this`campaigns, this`filters
      ensures OthersUnchanged(id)
      ensures error != Some(NotFound)
      ensures error == None <==>
        && id in old(campaigns) && !nameTaken && Requested(seen, data).Ok?
        && OptionsAccepted(options, companyId, ListOf(data.categories), ListOf(data.brands))
      ensures error == None ==>
        && id in campaigns && Configuration(id) == Written(old(Configuration(id)), seen, data)
        && campaigns[id].companyId == companyId
        && campaigns[id].isActive == (if data.isActive.Some? then data.isActive.value else old(campaigns[id].isActive))
      ensures error != None ==> campaigns == old(campaigns) && filters == old(filters)
      ensures forall f :: f in filters ==> f in old(filters) || (f.0 == id && f.1 in options)
    {
      hide Normalize, Merge, CheckAudience, HasFilter, GroupSize;
      if !Configures(data) {
        error := UpdateFlags(id, data.isActive, nameTaken);
        return;
      }
      var audience := if data.audience.Some? then data.audience.value else seen.audience;
      if audience == CustomerIds { return Some(Rejected(AudienceNotConfigurable)); }
      if audience != Segmented && SendsSegmentation(data) { return Some(Rejected(FilterNotAllowed)); }
      var checked := CheckConfiguration(seen, audience, data);
      if checked.Err? { return Some(Rejected(checked.error)); }

      var valid := AssertValidCampaignInterestOptions(companyId, ListOf(data.categories), ListOf(data.brands));
      if !valid { return Some(InvalidInterests); }
      if id !in campaigns { return Some(Deleted); }  // the transaction is rolled back, here and below
      if nameTaken { return Some(NameTaken); }
      var isActive := if data.isActive.Some? then data.isActive.value else campaigns[id].isActive;
      WriteConfiguration(id, CampaignRow(companyId, audience, checked.value, isActive), data.categories, data.brands);
      return None;
    }

    /** Nothing about the audience was sent. */
    method UpdateFlags(id: Id, isActive: Option<bool>, nameTaken: bool) returns (error: Option<CampaignError>)
      modifies this`campaigns
      ensures OthersUnchanged(id)
      ensures error == if id !in old(campaigns) then Some(Deleted) else if nameTaken then Some(NameTaken) else None
      ensures error != None ==> campaigns == old(campaigns)
      ensures error == None ==>
        && id in campaigns && Configuration(id) == old(Configuration(id))
        && campaigns[id] == old(campaigns[id]).(isActive := if isActive.Some? then isActive.value else old(campaigns[id].isActive))
    {
      if id !in campaigns { return Some(Deleted); }
      if nameTaken { return Some(NameTaken); }
      if isActive.Some? { campaigns := campaigns[id := campaigns[id].(isActive := isActive.value)]; }
      return None;
    }

    /** Merges the request into the scalars that were read and checks the outcome with the number of interests. */
    method CheckConfiguration(seen: Config, audience: AudienceType, data: CampaignInput)
      returns (r: Result<Segmentation, Rejection>)
      requires audience != CustomerIds && (audience != Segmented ==> !SendsSegmentation(data)) && Configures(data)
      requires audience == if data.audience.Some? then data.audience.value else seen.audience
      ensures var requested := Requested(seen, data);
        match r
        case Err(reason) => requested == Err(reason)
        case Ok(segmentation) =>
          requested.Ok? && requested.value.audience == audience && requested.value.segmentation == segmentation
    {
      var segmentation, size := NO_SEGMENTATION, 0;
      if audience == Segmented {
        var normalized := Normalize(Merge(seen.segmentation, data.fields));
        if normalized.Err? { return Err(normalized.error); }
        segmentation := normalized.value;
        size := GroupSize(seen.categories, data.categories) + GroupSize(seen.brands, data.brands);
      }
      var reason := CheckAudience(audience, segmentation, size);
      return if reason.Some? then Err(reason.value) else Ok(segmentation);
    }
  }

  /** The configuration a creation asks for. */
  function Created(data: CampaignInput): Result<Config, Rejection> {
    var audience := if data.audience.Some? then data.audience.value else AllEligible;
    if audience == CustomerIds then Err(AudienceNotConfigurable)
    else match Normalize(data.fields)
      case Err(reason) => Err(reason)
      case Ok(segmentation) =>
        match CheckAudience(audience, segmentation, |ListOf(data.categories)| + |ListOf(data.brands)|)
        case Some(reason) => Err(reason)
        case None => Ok(Config(audience, segmentation, SetOf(ListOf(data.categories)), SetOf(ListOf(data.brands))))
  }

  lemma CreatedIsOk(data: CampaignInput)
    requires Created(data).Ok? && Distinct(ListOf(data.categories) + ListOf(data.brands))
    ensures ConfigOk(Created(data).value)
  {
    DistinctParts(ListOf(data.categories), ListOf(data.brands));
    NormalizedIsNormal(data.fields);
  }

  lemma SmallerSubset(a: set<Id>, b: set<Id>)
    requires a <= b && a != b
    ensures |a| < |b|
  {
    assert b - a != {};
    assert b == a + (b - a);
  }
}
