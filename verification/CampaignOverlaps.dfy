/**
 * Updates of a campaign that overlap. Each is checked against what it read and then written over what it finds,
 * and nothing is checked again inside the transaction.
 */
module CampaignOverlaps {
  import opened Basics
  import opened CampaignAudience
  import opened CampaignSegmentation
  import opened CampaignStore

  /** The service accepts the request from a caller that read `seen`. */
  predicate Accepted(options: map<Id, InterestOption>, companyId: Id, seen: Config, data: CampaignInput) {
    Requested(seen, data).Ok? && OptionsAccepted(options, companyId, ListOf(data.categories), ListOf(data.brands))
  }

  /** Whether the request can be written over any configuration: it does not rest on interests that it keeps. */
  predicate StandsAlone(seen: Config, data: CampaignInput)
    requires Requested(seen, data).Ok?
  {
    var checked := Requested(seen, data).value;
    || !Configures(data)
    || checked.audience != Segmented
    || (data.categories != Omitted && data.brands != Omitted)
    || (HasFilter(checked.segmentation) && ListOf(data.categories) == [] && ListOf(data.brands) == [])
  }

  lemma StandsOverAnything(current: Config, seen: Config, data: CampaignInput)
    requires ConfigOk(current) && ConfigOk(seen)
    requires Requested(seen, data).Ok? && StandsAlone(seen, data)
    requires Distinct(ListOf(data.categories) + ListOf(data.brands))
    ensures ConfigOk(Written(current, seen, data))
  {
    hide IsNormal, Normalize;
    RequestedIsOk(seen, data);
    DistinctParts(ListOf(data.categories), ListOf(data.brands));
  }

  // ----- any number of updates

  /** Which version of the configuration an update read, and what it asked for. */
  datatype Update = Update(read: nat, data: CampaignInput)

  /** The configurations of a campaign, each the work of one update that had read some earlier one. */
  ghost predicate IsHistory(versions: seq<Config>, updates: seq<Update>, companyId: Id) {
    && |versions| == |updates| + 1
    && forall i :: 0 <= i < |updates| ==>
         && updates[i].read <= i
         && (exists options :: Accepted(options, companyId, versions[updates[i].read], updates[i].data))
         && versions[i + 1] == Written(versions[i], versions[updates[i].read], updates[i].data)
  }

  /** Every configuration is valid if each update stands alone or wrote over what it had read. */
  lemma {:induction false} HistoriesStayValid(versions: seq<Config>, updates: seq<Update>, companyId: Id, n: nat)
    requires IsHistory(versions, updates, companyId) && ConfigOk(versions[0]) && n <= |updates|
    requires forall i :: 0 <= i < n ==>
      || StandsAlone(versions[updates[i].read], updates[i].data)
      || versions[updates[i].read] == versions[i]
    ensures forall i :: 0 <= i <= n ==> ConfigOk(versions[i])
  {
    hide ConfigOk, StandsAlone, Requested, Written;
    if n > 0 {
      HistoriesStayValid(versions, updates, companyId, n - 1);
      var seen, current, data := versions[updates[n - 1].read], versions[n - 1], updates[n - 1].data;
      var options :| Accepted(options, companyId, seen, data);
      if StandsAlone(seen, data) {
        StandsOverAnything(current, seen, data);
      } else {
        WrittenOverWhatWasRead(seen, data);
        RequestedIsOk(seen, data);
      }
    }
  }

  // ----- the others are unsafe

  /** No fields and no interests of its own: the audience goes back to everybody. */
  const TO_EVERYBODY := CampaignInput(Some(AllEligible), NOTHING_SENT, Omitted, Omitted, None)

  function Longest(ids: seq<Id>): (r: nat)
    ensures forall id :: id in ids ==> |id.text| <= r
  {
    if ids == [] then 0 else var rest := Longest(ids[1..]); if |ids[0].text| > rest then |ids[0].text| else rest
  }

  /** As many interests as a campaign can have, none of them among `ids`. */
  function Fresh(ids: seq<Id>): (r: seq<Id>)
    ensures |r| == MAX_INTERESTS && Distinct(r) && forall id :: id in r ==> id !in ids
  {
    var longest := Longest(ids);
    var r := seq(MAX_INTERESTS, i requires 0 <= i => Id(seq(longest + 1 + i, _ => 'x')));
    assert forall i :: 0 <= i < |r| ==> |r[i].text| == longest + 1 + i;
    r
  }

  /** Fills one group to the limit and empties the other. */
  function FillOther(data: CampaignInput): CampaignInput {
    var full := Value(Fresh(ListOf(data.categories) + ListOf(data.brands)));
    if data.categories != Omitted then CampaignInput(Some(Segmented), NOTHING_SENT, Null, full, None)
    else CampaignInput(Some(Segmented), NOTHING_SENT, full, Null, None)
  }

  /** An update that spoils `data` when it is committed first. */
  function Spoiler(data: CampaignInput): CampaignInput {
    if ListOf(data.categories) == [] && ListOf(data.brands) == [] then TO_EVERYBODY else FillOther(data)
  }

  function OptionsOf(companyId: Id, a: CampaignInput, b: CampaignInput): map<Id, InterestOption> {
    var categories, brands := ListOf(a.categories) + ListOf(b.categories), ListOf(a.brands) + ListOf(b.brands);
    map id | id in categories + brands :: InterestOption(companyId, if id in categories then Category else Brand, true)
  }

  lemma NothingSentKeeps(stored: Segmentation)
    ensures Merge(stored, NOTHING_SENT) == AsInput(stored)
  {
  }

  lemma FillingIsAccepted(seen: Config, data: CampaignInput)
    requires ConfigOk(seen)
    ensures var other := FillOther(data);
      var left := Config(Segmented, seen.segmentation, SetOf(ListOf(other.categories)), SetOf(ListOf(other.brands)));
      Requested(seen, other) == Ok(left)
  {
    hide Normalize, IsNormal, Fresh, Distinct, AsInput, IsTidy;
    NothingSentKeeps(seen.segmentation);
    StoredFormIsStable(seen.segmentation);
  }

  lemma OptionsAreAccepted(companyId: Id, seen: Config, data: CampaignInput)
    requires Distinct(ListOf(data.categories) + ListOf(data.brands))
    requires Requested(seen, data).Ok? && !StandsAlone(seen, data)
    ensures var other := Spoiler(data);
      var options := OptionsOf(companyId, data, other);
      && OptionsAccepted(options, companyId, ListOf(data.categories), ListOf(data.brands))
      && OptionsAccepted(options, companyId, ListOf(other.categories), ListOf(other.brands))
  {
    hide Requested;
    var other := Spoiler(data);
    assert ListOf(other.categories) + ListOf(other.brands) == ListOf(other.categories)
        || ListOf(other.categories) + ListOf(other.brands) == ListOf(other.brands);
  }

  lemma SpoilerSpoils(seen: Config, data: CampaignInput)
    requires ConfigOk(seen) && Requested(seen, data).Ok? && !StandsAlone(seen, data)
    requires Distinct(ListOf(data.categories) + ListOf(data.brands))
    ensures Requested(seen, Spoiler(data)).Ok? && !ConfigOk(Written(Requested(seen, Spoiler(data)).value, seen, data))
  {
    hide IsNormal, Normalize, Merge;
    var other := Spoiler(data);
    if other != TO_EVERYBODY {
      FillingIsAccepted(seen, data);
      DistinctParts(ListOf(data.categories), ListOf(data.brands));
      DistinctSize(ListOf(other.categories));
      DistinctSize(ListOf(other.brands));
    }
  }

  /**
   * Of two updates that read the same configuration the second one leaves a valid configuration, whatever the first
   * one asked for, if and only if it stands alone.
   */
  lemma SecondUpdateIsSafeExactlyWhen(companyId: Id, seen: Config, data: CampaignInput)
    requires ConfigOk(seen) && Requested(seen, data).Ok?
    requires Distinct(ListOf(data.categories) + ListOf(data.brands))
    ensures StandsAlone(seen, data) <==>
      forall options, other :: Accepted(options, companyId, seen, data) && Accepted(options, companyId, seen, other) ==>
        ConfigOk(Written(Requested(seen, other).value, seen, data))
  {
    hide ConfigOk, Requested, Written, StandsAlone;
    if StandsAlone(seen, data) {
      forall options, other | Accepted(options, companyId, seen, data) && Accepted(options, companyId, seen, other)
        ensures ConfigOk(Written(Requested(seen, other).value, seen, data))
      {
        RequestedIsOk(seen, other);
        StandsOverAnything(Requested(seen, other).value, seen, data);
      }
    } else {
      var other := Spoiler(data);
      SpoilerSpoils(seen, data);
      OptionsAreAccepted(companyId, seen, data);
      assert Accepted(OptionsOf(companyId, data, other), companyId, seen, data);
      assert Accepted(OptionsOf(companyId, data, other), companyId, seen, other);
    }
  }

  /** Two such updates can leave a segmented campaign without any filter, which dispatch refuses. */
  lemma OverlapLosesTheSegment(options: map<Id, InterestOption>, companyId: Id, category: Id, ids: Option<set<Id>>, reference: int)
    ensures var seen := Config(Segmented, NO_SEGMENTATION.(gender := Some(Female)), {category}, {});
      var first := CampaignInput(None, NOTHING_SENT, Value([]), Omitted, None);
      var second := CampaignInput(None, NOTHING_SENT.(gender := Null), Omitted, Omitted, None);
      && ConfigOk(seen)
      && Accepted(options, companyId, seen, first) && Accepted(options, companyId, seen, second)
      && var left := Written(Requested(seen, first).value, seen, second);
         BuildAudienceWhere(companyId, left, Segmented, ids, reference, true) == Err(InvalidConfiguration(FilterRequired))
  {
  }
}
