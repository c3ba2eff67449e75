/** Whom a campaign reaches: the query that selects candidates, the preview, and what dispatch enqueues. */
module CampaignAudience {
  import opened Basics
  import opened BirthDateWindow
  import opened CampaignSegmentation
  import opened CampaignStore
  import opened Consent
  import opened CustomerProfile
  import opened EcmaCalendar
  import opened Text

  datatype Campaign = Campaign(companyId: Id, isActive: bool, config: Config)

  /** The tables that preview and dispatch read. */
  datatype Directory = Directory(
    campaigns: map<Id, Campaign>,
    customers: map<Id, Profile>,
    policies: map<Id, UnknownPolicy>)

  /** A query on customers: every condition that is present must hold. */
  datatype Where = Where(
    companyId: Id,
    active: Option<bool>,
    ids: Option<set<Id>>,
    interests: seq<set<Id>>,
    gender: Option<Gender>,
    city: Option<string>,
    state: Option<string>,
    birthDate: Option<BirthDateRange>,
    purchasedBefore: Option<int>,
    purchasedAfter: Option<int>)

  predicate SameCity(a: string, b: string) { Upper(a) == Upper(b) }

  /** A comparison with a column that is null does not hold. */
  predicate BornWithin(range: Option<BirthDateRange>, birthDay: Option<int>) {
    range.Some? ==> birthDay.Some? && InRange(range, birthDay.value * MS_PER_DAY)
  }

  predicate PurchasedWithin(before: Option<int>, after: Option<int>, day: Option<int>) {
    && (before.Some? ==> day.Some? && day.value * MS_PER_DAY < before.value)
    && (after.Some? ==> day.Some? && after.value < day.value * MS_PER_DAY)
  }

  predicate Satisfies(id: Id, p: Profile, w: Where) {
    && p.contact.companyId == w.companyId
    && (w.active.Some? ==> p.contact.active == w.active.value)
    && (w.ids.Some? ==> id in w.ids.value)
    && (forall group :: group in w.interests ==> group * p.interests != {})
    && (w.gender.Some? ==> p.gender == w.gender.value)
    && (w.city.Some? ==> p.city.Some? && SameCity(p.city.value, w.city.value))
    && (w.state.Some? ==> p.state == w.state)
    && BornWithin(w.birthDate, p.birthDay)
    && PurchasedWithin(w.purchasedBefore, w.purchasedAfter, p.lastPurchaseDay)
  }

  function InterestGroups(categories: set<Id>, brands: set<Id>): seq<set<Id>> {
    (if categories == {} then [] else [categories]) + (if brands == {} then [] else [brands])
  }

  function SegmentedWhere(companyId: Id, s: Segmentation, categories: set<Id>, brands: set<Id>, reference: int): Where {
    Where(companyId, None, None, InterestGroups(categories, brands), s.gender, s.city, s.state,
          BuildBirthDateRange(s.minAge, s.maxAge, reference), s.lastPurchaseBefore, s.lastPurchaseAfter)
  }

  predicate SharesInterest(wanted: set<Id>, interests: set<Id>) {
    wanted != {} ==> exists option :: option in wanted && option in interests
  }

  /** The customers that a segmentation describes, by age instead of by dates of birth, and without a query. */
  predicate InSegment(p: Profile, companyId: Id, s: Segmentation, categories: set<Id>, brands: set<Id>, reference: int) {
    && p.contact.companyId == companyId
    && (s.gender.Some? ==> p.gender == s.gender.value)
    && (s.city.Some? ==> p.city.Some? && Upper(p.city.value) == Upper(s.city.value))
    && (s.state.Some? ==> p.state == s.state)
    && (s.minAge.Some? || s.maxAge.Some? ==>
          p.birthDay.Some? && InAgeRange(s.minAge, s.maxAge, Age(FromDay(p.birthDay.value), DateOf(reference))))
    && (s.lastPurchaseBefore.Some? ==> p.lastPurchaseDay.Some? && p.lastPurchaseDay.value * 86_400_000 < s.lastPurchaseBefore.value)
    && (s.lastPurchaseAfter.Some? ==> p.lastPurchaseDay.Some? && s.lastPurchaseAfter.value < p.lastPurchaseDay.value * 86_400_000)
    && SharesInterest(categories, p.interests)
    && SharesInterest(brands, p.interests)
  }

  lemma GroupsMeanInterests(categories: set<Id>, brands: set<Id>, interests: set<Id>)
    ensures (forall group :: group in InterestGroups(categories, brands) ==> group * interests != {})
        <==> SharesInterest(categories, interests) && SharesInterest(brands, interests)
  {
    if categories != {} { SharedInterest(categories, interests); }
    if brands != {} { SharedInterest(brands, interests); }
    var groups := InterestGroups(categories, brands);
    assert forall group :: group in groups <==> (group == categories != {} || group == brands != {});
  }

  lemma SharedInterest(wanted: set<Id>, interests: set<Id>)
    requires wanted != {}
    ensures wanted * interests != {} <==> SharesInterest(wanted, interests)
  {
    if wanted * interests != {} {
      var option :| option in wanted * interests;
    }
    if option :| option in wanted && option in interests {
      assert option in wanted * interests;
    }
  }

  /** The segmentation with the ages that the birth date window stands for. */
  function AsComputed(s: Segmentation, reference: int): Segmentation {
    s.(minAge := ComputedMin(s.minAge, reference), maxAge := ComputedMax(s.maxAge, reference))
  }

  lemma AgeConditionIsComputed(birthDay: Option<int>, minAge: Option<int>, maxAge: Option<int>, reference: int)
    ensures BornWithin(BuildBirthDateRange(minAge, maxAge, reference), birthDay)
        <==> (minAge.Some? || maxAge.Some? ==>
                birthDay.Some? && InAgeRange(ComputedMin(minAge, reference), ComputedMax(maxAge, reference),
                                             Age(FromDay(birthDay.value), DateOf(reference))))
  {
    hide FromDay, Age, AnniversaryBoundary, ComputedMin, ComputedMax;
    if birthDay.Some? { WindowMeaning(birthDay.value, reference, minAge, maxAge); }
  }

  /**
   * The query selects exactly the customers in the segment, with the ages that the window stands for; these
   * are the ages asked for exactly when `Date.UTC` takes the target years as they are.
   */
  lemma SegmentIsSelectedExactly(id: Id, p: Profile, companyId: Id, s: Segmentation, categories: set<Id>, brands: set<Id>,
                                 reference: int)
    ensures Satisfies(id, p, SegmentedWhere(companyId, s, categories, brands, reference))
        <==> InSegment(p, companyId, AsComputed(s, reference), categories, brands, reference)
    ensures AsComputed(s, reference) == s <==> TargetYearsAreFull(s.minAge, s.maxAge, reference)
  {
    hide FromDay, Age, InterestGroups, BuildBirthDateRange, BornWithin, InAgeRange, SharesInterest, Upper, TargetYearsAreFull,
      ComputedYears, DateOf;
    GroupsMeanInterests(categories, brands, p.interests);
    AgeConditionIsComputed(p.birthDay, s.minAge, s.maxAge, reference);
    ComputedBounds(s.minAge, s.maxAge, reference);
  }

  /** Pushes the conditions one by one. Whoever satisfies the query is in the segment, and nobody else is. */
  method BuildSegmentedCustomerWhere(companyId: Id, s: Segmentation, categories: set<Id>, brands: set<Id>, reference: int)
    returns (r: Where)
    ensures forall id, p :: Satisfies(id, p, r) <==> InSegment(p, companyId, AsComputed(s, reference), categories, brands, reference)
    ensures r == SegmentedWhere(companyId, s, categories, brands, reference)
  {
    hide Satisfies, InSegment, AsComputed, BuildBirthDateRange;
    var interestConditions := [];
    if categories != {} { interestConditions := interestConditions + [categories]; }
    if brands != {} { interestConditions := interestConditions + [brands]; }
    r := Where(companyId, None, None, interestConditions, s.gender, s.city, s.state,
               BuildBirthDateRange(s.minAge, s.maxAge, reference), s.lastPurchaseBefore, s.lastPurchaseAfter);
    assert r == SegmentedWhere(companyId, s, categories, brands, reference);
    forall id, p
      ensures Satisfies(id, p, r) <==> InSegment(p, companyId, AsComputed(s, reference), categories, brands, reference)
    {
      SegmentIsSelectedExactly(id, p, companyId, s, categories, brands, reference);
    }
  }

  // ----- preview and dispatch

  datatype AudienceError = ContentRequired | CampaignNotFound | InvalidCustomerIds | CannotOverride | IdsDoNotMatch
                         | NotSegmented | InvalidConfiguration(reason: Rejection) | ContentTooLong

  /** `hasContent` is the check of the request itself; `tooLong` are the customers whose personalised text does not fit. */
  datatype CampaignRequest = CampaignRequest(audience: Option<AudienceType>, customerIds: Option<seq<string>>,
                                             hasContent: bool, tooLong: set<Id>)

  const MAX_CUSTOMER_IDS := 500

  function TrimmedIds(customerIds: seq<string>): set<Id> { set text | text in customerIds :: Id(Trim(text)) }

  /** The listed identifiers, trimmed and without repetition; `Err` when there are none, an empty one, or too many. */
  function NormalizeCustomerIds(customerIds: Option<seq<string>>): Result<Option<set<Id>>, AudienceError> {
    match customerIds
    case None => Ok(None)
    case Some(texts) =>
      var ids := TrimmedIds(texts);
      if ids == {} || Id("") in ids || |ids| > MAX_CUSTOMER_IDS then Err(InvalidCustomerIds) else Ok(Some(ids))
  }

  function CheckRequest(config: Config, audience: AudienceType, ids: Option<set<Id>>): Option<AudienceError> {
    if config.audience == Segmented && audience != Segmented then Some(CannotOverride)
    else if (audience == CustomerIds) != ids.Some? then Some(IdsDoNotMatch)
    else None
  }

  function BuildAudienceWhere(companyId: Id, config: Config, audience: AudienceType, ids: Option<set<Id>>, reference: int,
                              activeOnly: bool): Result<Where, AudienceError>
  {
    if audience == Segmented then
      if config.audience != Segmented then Err(NotSegmented)
      else match Normalize(AsInput(config.segmentation))
        case Err(reason) => Err(InvalidConfiguration(reason))
        case Ok(segmentation) =>
          match CheckAudience(audience, segmentation, |config.categories| + |config.brands|)
          case Some(reason) => Err(InvalidConfiguration(reason))
          case None => Ok(SegmentedWhere(companyId, segmentation, config.categories, config.brands, reference))
    else
      Ok(Where(companyId, if activeOnly then Some(true) else None,
               if audience == CustomerIds then ids else None, [], None, None, None, None, None, None))
  }

  function FindMany(d: Directory, w: Where): set<Id> { set id | id in d.customers && Satisfies(id, d.customers[id], w) }

  function EligibleAmong(d: Directory, found: set<Id>, policy: UnknownPolicy): set<Id> {
    set id | id in found && id in d.customers && IsEligible(d.customers[id].contact, policy)
  }

  /** The selection that dispatch enqueues for: all of its eligible candidates. */
  function DispatchSelection(d: Directory, companyId: Id, automationId: Id, input: CampaignRequest, reference: int)
    : Result<set<Id>, AudienceError>
  {
    if !input.hasContent then Err(ContentRequired)
    else if automationId !in d.campaigns || d.campaigns[automationId].companyId != companyId
         || !d.campaigns[automationId].isActive then Err(CampaignNotFound)
    else
      var config := d.campaigns[automationId].config;
      match NormalizeCustomerIds(input.customerIds)
      case Err(e) => Err(e)
      case Ok(ids) =>
        var audience := if input.audience.Some? then input.audience.value else if ids == None then AllEligible else CustomerIds;
        match CheckRequest(config, audience, ids)
        case Some(e) => Err(e)
        case None =>
          match BuildAudienceWhere(companyId, config, audience, ids, reference, true)
          case Err(e) => Err(e)
          case Ok(where) =>
            if companyId !in d.policies then Ok({})
            else
              var eligible := EligibleAmong(d, FindMany(d, where), d.policies[companyId]);
              if eligible * input.tooLong != {} then Err(ContentTooLong) else Ok(eligible)
  }

  datatype Preview = Preview(audience: AudienceType, matched: nat, eligible: nat, blocked: int)

  function PreviewAudience(d: Directory, companyId: Id, automationId: Id, input: CampaignRequest, reference: int)
    : Result<Preview, AudienceError>
  {
    if automationId !in d.campaigns || d.campaigns[automationId].companyId != companyId then Err(CampaignNotFound)
    else
      var config := d.campaigns[automationId].config;
      var audience := if input.audience.Some? then input.audience.value else config.audience;
      match NormalizeCustomerIds(input.customerIds)
      case Err(e) => Err(e)
      case Ok(ids) =>
        match CheckRequest(config, audience, ids)
        case Some(e) => Err(e)
        case None =>
          match BuildAudienceWhere(companyId, config, audience, ids, reference, false)
          case Err(e) => Err(e)
          case Ok(where) =>
            var found := FindMany(d, where);
            var eligible := if companyId in d.policies then |EligibleAmong(d, found, d.policies[companyId])| else 0;
            Ok(Preview(audience, |found|, eligible, |found| - eligible))
  }

  /** Asking for active customers only changes what is found, not who of them is eligible. */
  lemma ActiveOnlyKeepsTheEligible(d: Directory, companyId: Id, config: Config, audience: AudienceType, ids: Option<set<Id>>,
                                   reference: int, policy: UnknownPolicy)
    ensures var active, all := BuildAudienceWhere(companyId, config, audience, ids, reference, true),
                               BuildAudienceWhere(companyId, config, audience, ids, reference, false);
      && (active.Err? <==> all.Err?) && (active.Err? ==> active.error == all.error)
      && (active.Ok? ==> EligibleAmong(d, FindMany(d, active.value), policy) == EligibleAmong(d, FindMany(d, all.value), policy))
  {
    hide SegmentedWhere, Normalize, CheckAudience, SameCity, InRange;
  }

  lemma SubsetSize<T>(a: set<T>, b: set<T>)
    requires a <= b
    ensures |a| <= |b|
  {
    assert b == a + (b - a);
  }

  lemma SameDaySameWhere(companyId: Id, config: Config, audience: AudienceType, ids: Option<set<Id>>, reference: int, now: int,
                         activeOnly: bool)
    requires now / MS_PER_DAY == reference / MS_PER_DAY
    ensures BuildAudienceWhere(companyId, config, audience, ids, now, activeOnly)
         == BuildAudienceWhere(companyId, config, audience, ids, reference, activeOnly)
  {
    hide FromDay, AnniversaryDay, Normalize, CheckAudience;
  }

  lemma SameDaySamePreview(d: Directory, companyId: Id, automationId: Id, input: CampaignRequest, reference: int, now: int)
    requires now / MS_PER_DAY == reference / MS_PER_DAY
    ensures PreviewAudience(d, companyId, automationId, input, now) == PreviewAudience(d, companyId, automationId, input, reference)
  {
    hide BuildAudienceWhere, FindMany, NormalizeCustomerIds, DateOf;
    if automationId in d.campaigns && NormalizeCustomerIds(input.customerIds).Ok? {
      var config, ids := d.campaigns[automationId].config, NormalizeCustomerIds(input.customerIds).value;
      var audience := if input.audience.Some? then input.audience.value else config.audience;
      SameDaySameWhere(companyId, config, audience, ids, reference, now, false);
    }
  }

  /**
   * For an audience that is named in the request, preview and a dispatch on the same day accept the same
   * requests, up to what only dispatch asks for, and dispatch enqueues for exactly as many as preview
   * announced.
   */
  lemma PreviewAgreesWithDispatch(d: Directory, companyId: Id, automationId: Id, input: CampaignRequest, now: int, reference: int)
    requires input.audience.Some? && now / MS_PER_DAY == reference / MS_PER_DAY
    ensures var preview := PreviewAudience(d, companyId, automationId, input, now);
      var dispatch := DispatchSelection(d, companyId, automationId, input, reference);
      && (preview.Ok? ==>
            && preview.value.matched == preview.value.eligible + preview.value.blocked && 0 <= preview.value.blocked
            && (dispatch.Ok? ==> |dispatch.value| == preview.value.eligible))
      && (dispatch.Ok? ==> preview.Ok?)
      && (preview.Ok? && input.hasContent && d.campaigns[automationId].isActive && input.tooLong == {} ==> dispatch.Ok?)
  {
    hide BuildAudienceWhere, FindMany, NormalizeCustomerIds, DateOf;
    SameDaySamePreview(d, companyId, automationId, input, reference, now);
    EligibleAreFound(d, companyId, automationId, input, reference);
    if automationId in d.campaigns && NormalizeCustomerIds(input.customerIds).Ok? {
      var config, ids := d.campaigns[automationId].config, NormalizeCustomerIds(input.customerIds).value;
      var policy := if companyId in d.policies then d.policies[companyId] else BlockUnknown;
      ActiveOnlyKeepsTheEligible(d, companyId, config, input.audience.value, ids, reference, policy);
    }
  }

  lemma EligibleAreFound(d: Directory, companyId: Id, automationId: Id, input: CampaignRequest, reference: int)
    ensures var preview := PreviewAudience(d, companyId, automationId, input, reference);
      preview.Ok? ==> preview.value.eligible <= preview.value.matched
  {
    hide BuildAudienceWhere, FindMany, NormalizeCustomerIds;
    if PreviewAudience(d, companyId, automationId, input, reference).Ok? && companyId in d.policies {
      var config, ids := d.campaigns[automationId].config, NormalizeCustomerIds(input.customerIds).value;
      var audience := if input.audience.Some? then input.audience.value else config.audience;
      var found := FindMany(d, BuildAudienceWhere(companyId, config, audience, ids, reference, false).value);
      SubsetSize(EligibleAmong(d, found, d.policies[companyId]), found);
    }
  }

  lemma PreviewByDefault(d: Directory, companyId: Id, automationId: Id, input: CampaignRequest, now: int)
    requires automationId in d.campaigns && d.campaigns[automationId].companyId == companyId
    requires input.audience == None && ConfigOk(d.campaigns[automationId].config)
    ensures PreviewAudience(d, companyId, automationId, input, now).Ok? <==> input.customerIds == None
    ensures PreviewAudience(d, companyId, automationId, input, now).Ok? ==>
      PreviewAudience(d, companyId, automationId, input, now).value.audience == d.campaigns[automationId].config.audience
  {
    hide FindMany, Normalize, SegmentedWhere, EligibleAmong, IsNormal, TrimmedIds;
    DispatchRecheckPasses(d.campaigns[automationId].config);
  }

  /** No list, or one that names somebody, nobody blank, and at most 500 customers after trimming. */
  predicate IsUsable(customerIds: Option<seq<string>>) {
    customerIds.Some? ==>
      && customerIds.value != []
      && (forall text :: text in customerIds.value ==> Trim(text) != "")
      && |set text | text in customerIds.value :: Id(Trim(text))| <= 500
  }

  lemma UsableLists(customerIds: Option<seq<string>>)
    ensures NormalizeCustomerIds(customerIds).Ok? <==> IsUsable(customerIds)
    ensures NormalizeCustomerIds(customerIds).Ok? ==> (NormalizeCustomerIds(customerIds).value == None <==> customerIds == None)
    ensures NormalizeCustomerIds(customerIds).Err? ==> NormalizeCustomerIds(customerIds).error == InvalidCustomerIds
  {
    hide Trim;
    if customerIds.Some? {
      var texts := customerIds.value;
      if texts != [] { assert Id(Trim(texts[0])) in TrimmedIds(texts); }
      assert Id("") in TrimmedIds(texts) <==> exists text :: text in texts && Trim(text) == "";
    }
  }

  /** The named audience fits the campaign and the list. */
  predicate Fits(config: Config, audience: AudienceType, customerIds: Option<seq<string>>) {
    (audience == Segmented <==> config.audience == Segmented) && (audience == CustomerIds <==> customerIds.Some?)
  }

  /**
   * A request that names its audience is accepted by preview exactly when the campaign is one of the company with a
   * valid configuration that the audience fits, and the list is usable; dispatch also asks for content and an active
   * campaign.
   */
  lemma NamedAudiencesAcceptedExactly(d: Directory, companyId: Id, automationId: Id, input: CampaignRequest, reference: int)
    requires input.audience.Some?
    requires automationId in d.campaigns ==> ConfigOk(d.campaigns[automationId].config)
    ensures var fits := automationId in d.campaigns && d.campaigns[automationId].companyId == companyId
        && Fits(d.campaigns[automationId].config, input.audience.value, input.customerIds) && IsUsable(input.customerIds);
      && (PreviewAudience(d, companyId, automationId, input, reference).Ok? <==> fits)
      && (AcceptedUpToLength(DispatchSelection(d, companyId, automationId, input, reference))
          <==> fits && input.hasContent && d.campaigns[automationId].isActive)
  {
    hide FindMany, Normalize, SegmentedWhere, EligibleAmong, IsNormal, IsUsable, NormalizeCustomerIds, ConfigOk;
    UsableLists(input.customerIds);
    if automationId in d.campaigns && NormalizeCustomerIds(input.customerIds).Ok? {
      var config, ids := d.campaigns[automationId].config, NormalizeCustomerIds(input.customerIds).value;
      StoredCampaignsAreSelectable(companyId, config, input.audience.value, ids, reference, true);
      StoredCampaignsAreSelectable(companyId, config, input.audience.value, ids, reference, false);
      hide BuildAudienceWhere;
      LengthIsCheckedLater(companyId, config, input.audience.value, ids, reference);
    }
  }

  lemma LengthIsCheckedLater(companyId: Id, config: Config, audience: AudienceType, ids: Option<set<Id>>, reference: int)
    ensures BuildAudienceWhere(companyId, config, audience, ids, reference, true) != Err(ContentTooLong)
  {
    hide Normalize, SegmentedWhere;
  }

  /** What dispatch asks of a request before it looks at customers. */
  predicate DispatchAccepts(d: Directory, automationId: Id, input: CampaignRequest)
    requires automationId in d.campaigns
  {
    input.hasContent && d.campaigns[automationId].isActive && IsUsable(input.customerIds)
  }

  predicate AcceptedUpToLength(r: Result<set<Id>, AudienceError>) { r.Ok? || r.error == ContentTooLong }

  lemma DispatchByDefault(d: Directory, companyId: Id, automationId: Id, input: CampaignRequest, reference: int)
    requires automationId in d.campaigns && d.campaigns[automationId].companyId == companyId
    requires input.audience == None && ConfigOk(d.campaigns[automationId].config)
    ensures AcceptedUpToLength(DispatchSelection(d, companyId, automationId, input, reference))
        <==> DispatchAccepts(d, automationId, input) && d.campaigns[automationId].config.audience == AllEligible
  {
    hide FindMany, Normalize, SegmentedWhere, EligibleAmong, IsNormal, TrimmedIds, IsUsable;
    UsableLists(input.customerIds);
  }

  /** With the audience that both take by default, the request is as good as one that names it. */
  lemma NamingTheDefault(d: Directory, companyId: Id, automationId: Id, input: CampaignRequest, now: int)
    requires automationId in d.campaigns && d.campaigns[automationId].config.audience == AllEligible
    requires input.audience == None && input.customerIds == None
    ensures var named := input.(audience := Some(AllEligible));
      && PreviewAudience(d, companyId, automationId, named, now) == PreviewAudience(d, companyId, automationId, input, now)
      && DispatchSelection(d, companyId, automationId, named, now) == DispatchSelection(d, companyId, automationId, input, now)
  {
    hide FindMany, BuildAudienceWhere, EligibleAmong;
  }

  /**
   * For every request without a named audience, with or without a list, the two defaults part ways: preview takes
   * the stored audience, dispatch everybody or those of the list. Preview accepts a stored campaign exactly when
   * there is no list, dispatch exactly when it is stored for everybody; so both accept, and then agree on the
   * customers, if and only if no list is given and the campaign is stored for everybody.
   */
  lemma DefaultAudiencesDiffer(d: Directory, companyId: Id, automationId: Id, input: CampaignRequest, now: int, reference: int)
    requires automationId in d.campaigns && d.campaigns[automationId].companyId == companyId
    requires input.audience == None && ConfigOk(d.campaigns[automationId].config)
    requires now / MS_PER_DAY == reference / MS_PER_DAY
    ensures var preview := PreviewAudience(d, companyId, automationId, input, now);
      var dispatch := DispatchSelection(d, companyId, automationId, input, reference);
      var stored := d.campaigns[automationId].config.audience;
      && (preview.Ok? <==> input.customerIds == None)
      && (AcceptedUpToLength(dispatch) <==> DispatchAccepts(d, automationId, input) && stored == AllEligible)
      && (preview.Ok? && AcceptedUpToLength(dispatch) <==>
            DispatchAccepts(d, automationId, input) && input.customerIds == None && stored == AllEligible)
      && (preview.Ok? && dispatch.Ok? ==> preview.value.audience == AllEligible && |dispatch.value| == preview.value.eligible)
  {
    hide PreviewAudience, DispatchSelection, ConfigOk, DispatchAccepts;
    PreviewByDefault(d, companyId, automationId, input, now);
    DispatchByDefault(d, companyId, automationId, input, reference);
    if input.customerIds == None && d.campaigns[automationId].config.audience == AllEligible {
      var named := input.(audience := Some(AllEligible));
      NamingTheDefault(d, companyId, automationId, input, now);
      NamingTheDefault(d, companyId, automationId, input, reference);
      PreviewAgreesWithDispatch(d, companyId, automationId, named, now, reference);
    }
  }

  /** The audience that a request names, told without queries. */
  predicate InAudience(id: Id, p: Profile, companyId: Id, config: Config, audience: AudienceType, ids: Option<set<Id>>,
                       reference: int)
  {
    p.contact.companyId == companyId
    && match audience
       case AllEligible => true
       case CustomerIds => ids.Some? && id in ids.value
       case Segmented =>
         InSegment(p, companyId, AsComputed(StoredSegmentation(config), reference), config.categories, config.brands, reference)
  }

  function StoredSegmentation(config: Config): Segmentation {
    var normalized := Normalize(AsInput(config.segmentation));
    if normalized.Ok? then normalized.value else NO_SEGMENTATION
  }

  lemma WhereFindsTheAudience(id: Id, p: Profile, companyId: Id, config: Config, audience: AudienceType, ids: Option<set<Id>>,
                              reference: int, activeOnly: bool)
    requires audience == CustomerIds ==> ids.Some?
    requires BuildAudienceWhere(companyId, config, audience, ids, reference, activeOnly).Ok?
    ensures Satisfies(id, p, BuildAudienceWhere(companyId, config, audience, ids, reference, activeOnly).value) <==>
      && InAudience(id, p, companyId, config, audience, ids, reference)
      && (activeOnly && audience != Segmented ==> p.contact.active)
  {
    hide Normalize, DateOf, SegmentedWhere, FromDay, Age, AsComputed;
    if audience == Segmented {
      SegmentIsSelectedExactly(id, p, companyId, StoredSegmentation(config), config.categories, config.brands, reference);
    }
  }

  /** Dispatch enqueues for exactly the eligible customers of the audience. */
  lemma DispatchSelectsExactly(d: Directory, companyId: Id, automationId: Id, input: CampaignRequest, audience: AudienceType,
                               reference: int, id: Id)
    requires input.audience == Some(audience)
    requires DispatchSelection(d, companyId, automationId, input, reference).Ok?
    ensures var ids := if input.customerIds == None then None else Some(TrimmedIds(input.customerIds.value));
      id in DispatchSelection(d, companyId, automationId, input, reference).value <==>
        && id in d.customers && companyId in d.policies
        && InAudience(id, d.customers[id], companyId, d.campaigns[automationId].config, audience, ids, reference)
        && var contact := d.customers[id].contact;
        && contact.active
        && (contact.consent == Granted
            || (contact.consent == Unknown && d.policies[companyId] == AllowUnknownWithDeclaration))
  {
    hide BuildAudienceWhere, InAudience, Satisfies, TrimmedIds, DateOf;
    var config := d.campaigns[automationId].config;
    var ids := NormalizeCustomerIds(input.customerIds).value;
    if id in d.customers {
      WhereFindsTheAudience(id, d.customers[id], companyId, config, audience, ids, reference, true);
    }
  }

  /** A campaign with a valid configuration is never refused for it. */
  lemma StoredCampaignsAreSelectable(companyId: Id, config: Config, audience: AudienceType, ids: Option<set<Id>>,
                                     reference: int, activeOnly: bool)
    requires ConfigOk(config)
    ensures BuildAudienceWhere(companyId, config, audience, ids, reference, activeOnly).Ok?
        <==> (audience == Segmented ==> config.audience == Segmented)
  {
    hide Normalize, SegmentedWhere;
    DispatchRecheckPasses(config);
  }

  // ----- as the engine runs it

  method BuildCampaignAudienceWhere(companyId: Id, config: Config, audience: AudienceType, ids: Option<set<Id>>, reference: int,
                                    activeOnly: bool) returns (r: Result<Where, AudienceError>)
    ensures r == BuildAudienceWhere(companyId, config, audience, ids, reference, activeOnly)
  {
    hide Normalize, CheckAudience, SegmentedWhere, Satisfies, InSegment, AsComputed;
    if audience == Segmented {
      if config.audience != Segmented { return Err(NotSegmented); }
      var normalized := Normalize(AsInput(config.segmentation));
      if normalized.Err? { return Err(InvalidConfiguration(normalized.error)); }
      var reason := CheckAudience(audience, normalized.value, |config.categories| + |config.brands|);
      if reason.Some? { return Err(InvalidConfiguration(reason.value)); }
      var where := BuildSegmentedCustomerWhere(companyId, normalized.value, config.categories, config.brands, reference);
      return Ok(where);
    }
    return Ok(Where(companyId, if activeOnly then Some(true) else None,
                    if audience == CustomerIds then ids else None, [], None, None, None, None, None, None));
  }

  /** The first half of a dispatch: checks, query and eligibility. */
  method SelectEligibleCustomers(d: Directory, companyId: Id, automationId: Id, input: CampaignRequest, reference: int)
    returns (r: Result<set<Id>, AudienceError>)
    ensures r == DispatchSelection(d, companyId, automationId, input, reference)
  {
    hide BuildAudienceWhere, FindMany, NormalizeCustomerIds, EligibleAmong;
    if !input.hasContent { return Err(ContentRequired); }
    if automationId !in d.campaigns || d.campaigns[automationId].companyId != companyId || !d.campaigns[automationId].isActive {
      return Err(CampaignNotFound);
    }
    var config, ids := d.campaigns[automationId].config, NormalizeCustomerIds(input.customerIds);
    if ids.Err? { return Err(ids.error); }
    var audience :=
      if input.audience.Some? then input.audience.value else if ids.value == None then AllEligible else CustomerIds;
    var refused := CheckRequest(config, audience, ids.value);
    if refused.Some? { return Err(refused.value); }
    var where := BuildCampaignAudienceWhere(companyId, config, audience, ids.value, reference, true);
    if where.Err? { return Err(where.error); }
    if companyId !in d.policies { return Ok({}); }
    var eligible := EligibleAmong(d, FindMany(d, where.value), d.policies[companyId]);
    if eligible * input.tooLong != {} { return Err(ContentTooLong); }
    return Ok(eligible);
  }

  method PreviewCampaignAudience(d: Directory, companyId: Id, automationId: Id, input: CampaignRequest, reference: int)
    returns (r: Result<Preview, AudienceError>)
    ensures r == PreviewAudience(d, companyId, automationId, input, reference)
    ensures r.Ok? ==> r.value.matched == r.value.eligible + r.value.blocked && 0 <= r.value.blocked
  {
    hide BuildAudienceWhere, FindMany, NormalizeCustomerIds, EligibleAmong;
    EligibleAreFound(d, companyId, automationId, input, reference);
    if automationId !in d.campaigns || d.campaigns[automationId].companyId != companyId { return Err(CampaignNotFound); }
    var config := d.campaigns[automationId].config;
    var audience := if input.audience.Some? then input.audience.value else config.audience;
    var ids := NormalizeCustomerIds(input.customerIds);
    if ids.Err? { return Err(ids.error); }
    var refused := CheckRequest(config, audience, ids.value);
    if refused.Some? { return Err(refused.value); }
    var where := BuildCampaignAudienceWhere(companyId, config, audience, ids.value, reference, false);
    if where.Err? { return Err(where.error); }
    var customers := FindMany(d, where.value);
    var eligible := if companyId in d.policies then |EligibleAmong(d, customers, d.policies[companyId])| else 0;
    return Ok(Preview(audience, |customers|, eligible, |customers| - eligible));
  }
}
