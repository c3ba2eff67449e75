/** The audience configuration of a campaign: how it is normalised and when it is accepted. */
module CampaignSegmentation {
  import opened Basics
  import opened Text

  datatype Gender = Female | Male | Other | Unspecified

  datatype AudienceType = AllEligible | CustomerIds | Segmented

  datatype Segmentation = Segmentation(
    gender: Option<Gender>,
    city: Option<string>,
    state: Option<string>,
    minAge: Option<int>,
    maxAge: Option<int>,
    lastPurchaseBefore: Option<int>,
    lastPurchaseAfter: Option<int>)

  const NO_SEGMENTATION := Segmentation(None, None, None, None, None, None, None)

  /** A field of a request: left out, sent as null, or sent with a value. */
  datatype Field<+T> = Omitted | Null | Value(value: T)

  /** Dates arrive parsed; `None` stands for a value that is no date. */
  datatype SegmentationInput = SegmentationInput(
    gender: Field<Gender>,
    city: Field<string>,
    state: Field<string>,
    minAge: Field<int>,
    maxAge: Field<int>,
    lastPurchaseBefore: Field<Option<int>>,
    lastPurchaseAfter: Field<Option<int>>)

  const NOTHING_SENT := SegmentationInput(Omitted, Omitted, Omitted, Omitted, Omitted, Omitted, Omitted)

  datatype Rejection = InvalidState | InvalidAge | InvalidDate | AgesOutOfOrder | DatesOutOfOrder
                     | TooManyInterests | FilterRequired | FilterNotAllowed | AudienceNotConfigurable

  const STATE_CODES := {"AC", "AL", "AP", "AM", "BA", "CE", "DF", "ES", "GO", "MA", "MT", "MS", "MG", "PA",
                        "PB", "PR", "PE", "PI", "RJ", "RN", "RS", "RO", "RR", "SC", "SP", "SE", "TO"}

  function UpperChar(c: char): char { if 'a' <= c <= 'z' then c - 'a' + 'A' else c }

  function Upper(s: string): (r: string)
    ensures |r| == |s| && forall k :: 0 <= k < |s| ==> r[k] == UpperChar(s[k])
  {
    if s == "" then "" else [UpperChar(s[0])] + Upper(s[1..])
  }

  /** The codes of small letters are 32 above those of the capitals; nothing else changes. */
  lemma LettersAreCapitalized(c: char)
    ensures UpperChar(c) as int == if 97 <= c as int <= 122 then c as int - 32 else c as int
  {
  }

  function ToOption<T>(field: Field<T>): Option<T> {
    match field
    case Value(v) => Some(v)
    case _ => None
  }

  function NonEmpty(s: string): Option<string> { if s == "" then None else Some(s) }

  function NormalizeCity(field: Field<string>): Option<string> {
    match field
    case Value(v) => NonEmpty(Collapse(Trim(v)))
    case _ => None
  }

  function NormalizeState(field: Field<string>): Option<string> {
    match field
    case Value(v) => NonEmpty(Upper(Trim(v)))
    case _ => None
  }

  predicate AgeAccepted(age: Option<int>) { age.Some? ==> 0 <= age.value <= 120 }

  predicate DateAccepted(field: Field<Option<int>>) { field.Value? ==> field.value.Some? }

  function ReadDate(field: Field<Option<int>>): Option<int> {
    match field
    case Value(v) => v
    case _ => None
  }

  predicate InOrder(low: Option<int>, high: Option<int>) { low.Some? && high.Some? ==> low.value <= high.value }

  function Parts(input: SegmentationInput): Segmentation {
    Segmentation(ToOption(input.gender), NormalizeCity(input.city), NormalizeState(input.state),
                 ToOption(input.minAge), ToOption(input.maxAge),
                 ReadDate(input.lastPurchaseBefore), ReadDate(input.lastPurchaseAfter))
  }

  function Normalize(input: SegmentationInput): Result<Segmentation, Rejection> {
    var n := Parts(input);
    if n.state.Some? && n.state.value !in STATE_CODES then Err(InvalidState)
    else if !AgeAccepted(n.minAge) || !AgeAccepted(n.maxAge) then Err(InvalidAge)
    else if !DateAccepted(input.lastPurchaseBefore) || !DateAccepted(input.lastPurchaseAfter) then Err(InvalidDate)
    else if !InOrder(n.minAge, n.maxAge) then Err(AgesOutOfOrder)
    else if !InOrder(n.lastPurchaseAfter, n.lastPurchaseBefore) then Err(DatesOutOfOrder)
    else Ok(n)
  }

  predicate HasFilter(s: Segmentation) { s != NO_SEGMENTATION }

  const MAX_INTERESTS := 100

  /** The audience, the scalars and the number of interests must fit together. */
  function CheckAudience(audience: AudienceType, s: Segmentation, interests: nat): Option<Rejection> {
    if interests > MAX_INTERESTS then Some(TooManyInterests)
    else if audience == Segmented && !HasFilter(s) && interests == 0 then Some(FilterRequired)
    else if audience != Segmented && (HasFilter(s) || interests > 0) then Some(FilterNotAllowed)
    else None
  }

  // ----- the stored form

  function Sent<T>(stored: Option<T>): Field<T> {
    match stored
    case Some(v) => Value(v)
    case None => Null
  }

  function SentDate(stored: Option<int>): Field<Option<int>> {
    match stored
    case Some(v) => Value(Some(v))
    case None => Null
  }

  /** A stored segmentation read back as input; dispatch normalises it again. */
  function AsInput(s: Segmentation): SegmentationInput {
    SegmentationInput(Sent(s.gender), Sent(s.city), Sent(s.state), Sent(s.minAge), Sent(s.maxAge),
                      SentDate(s.lastPurchaseBefore), SentDate(s.lastPurchaseAfter))
  }

  function Override<T>(base: Field<T>, sent: Field<T>): Field<T> { if sent == Omitted then base else sent }

  /** The stored segmentation with the fields that were sent laid over it. */
  function Merge(stored: Segmentation, data: SegmentationInput): SegmentationInput {
    var base := AsInput(stored);
    SegmentationInput(Override(base.gender, data.gender), Override(base.city, data.city), Override(base.state, data.state),
                      Override(base.minAge, data.minAge), Override(base.maxAge, data.maxAge),
                      Override(base.lastPurchaseBefore, data.lastPurchaseBefore),
                      Override(base.lastPurchaseAfter, data.lastPurchaseAfter))
  }

  predicate IsTidy(s: string) { s != "" && IsTrimmed(s) && IsCollapsed(s) }

  /** What a normalised segmentation looks like. */
  predicate IsNormal(s: Segmentation) {
    && (s.city.Some? ==> IsTidy(s.city.value))
    && (s.state.Some? ==> s.state.value in STATE_CODES)
    && (s.minAge.Some? ==> 0 <= s.minAge.value <= 120) && (s.maxAge.Some? ==> 0 <= s.maxAge.value <= 120)
    && (s.minAge.Some? && s.maxAge.Some? ==> s.minAge.value <= s.maxAge.value)
    && (s.lastPurchaseAfter.Some? && s.lastPurchaseBefore.Some? ==> s.lastPurchaseAfter.value <= s.lastPurchaseBefore.value)
  }

  lemma CollapseTrimmed(s: string)
    requires s != "" && IsTrimmed(s)
    ensures IsTidy(Collapse(s))
  {
    CollapseCollapses(s);
    CollapseKeepsTheEnd(s);
  }

  lemma NormalizedIsNormal(input: SegmentationInput)
    requires Normalize(input).Ok?
    ensures IsNormal(Normalize(input).value)
  {
    if input.city.Value? {
      TrimIsIdempotent(input.city.value);
      if Trim(input.city.value) != "" { CollapseTrimmed(Trim(input.city.value)); }
    }
  }

  lemma StateCodesAreCapitals(code: string)
    requires code in STATE_CODES
    ensures |code| == 2 && 'A' <= code[0] <= 'Z' && 'A' <= code[1] <= 'Z'
  {
  }

  lemma CapitalsStay(code: string)
    requires |code| == 2 && 'A' <= code[0] <= 'Z' && 'A' <= code[1] <= 'Z'
    ensures Upper(Trim(code)) == code
  {
    hide Trim;
    TrimIsIdempotent(code);
  }

  lemma StateCodesStay(code: string)
    requires code in STATE_CODES
    ensures NormalizeState(Value(code)) == Some(code)
  {
    hide Upper, Trim;
    StateCodesAreCapitals(code);
    CapitalsStay(code);
  }

  lemma TidyCitiesStay(city: string)
    requires IsTidy(city)
    ensures NormalizeCity(Value(city)) == Some(city)
  {
    hide Trim, Collapse, IsCollapsed;
    TrimIsIdempotent(city);
    CollapsedStaysCollapsed(city);
  }

  lemma NormalTextIsStable(s: Segmentation)
    requires IsNormal(s)
    ensures NormalizeCity(Sent(s.city)) == s.city && NormalizeState(Sent(s.state)) == s.state
  {
    if s.city.Some? { TidyCitiesStay(s.city.value); }
    if s.state.Some? { StateCodesStay(s.state.value); }
  }

  lemma NormalIsAccepted(s: Segmentation)
    requires IsNormal(s)
    ensures Normalize(AsInput(s)) == Ok(s)
  {
    hide Parts, IsTidy;
    NormalPartsStay(s);
  }

  lemma NormalPartsStay(s: Segmentation)
    requires IsNormal(s)
    ensures Parts(AsInput(s)) == s
  {
    hide NormalizeCity, NormalizeState, IsTidy;
    NormalTextIsStable(s);
  }

  /** Exactly the normal segmentations are accepted as they are: a second normalisation changes nothing. */
  lemma StoredFormIsStable(s: Segmentation)
    ensures IsNormal(s) <==> Normalize(AsInput(s)) == Ok(s)
  {
    if Normalize(AsInput(s)) == Ok(s) { NormalizedIsNormal(AsInput(s)); }
    if IsNormal(s) { NormalIsAccepted(s); }
  }

  /** A partial update, field by field: what was left out stays, null clears, a value replaces. */
  lemma PartialUpdateFieldByField(stored: Segmentation, data: SegmentationInput)
    requires IsNormal(stored) && Normalize(Merge(stored, data)).Ok?
    ensures var n := Normalize(Merge(stored, data)).value;
      && n.gender == (match data.gender case Omitted => stored.gender case Null => None case Value(v) => Some(v))
      && n.minAge == (match data.minAge case Omitted => stored.minAge case Null => None case Value(v) => Some(v))
      && n.maxAge == (match data.maxAge case Omitted => stored.maxAge case Null => None case Value(v) => Some(v))
      && n.lastPurchaseBefore
           == (match data.lastPurchaseBefore case Omitted => stored.lastPurchaseBefore case Null => None case Value(v) => v)
      && n.lastPurchaseAfter
           == (match data.lastPurchaseAfter case Omitted => stored.lastPurchaseAfter case Null => None case Value(v) => v)
      && (data.city == Omitted ==> n.city == stored.city) && (data.city == Null ==> n.city == None)
      && (data.city.Value? && IsTidy(data.city.value) ==> n.city == Some(data.city.value))
      && (data.state == Omitted ==> n.state == stored.state) && (data.state == Null ==> n.state == None)
      && (data.state.Value? && data.state.value in STATE_CODES ==> n.state == Some(data.state.value))
  {
    AcceptedParts(Merge(stored, data));
    hide Normalize, NormalizeCity, NormalizeState, IsNormal, IsTidy;
    MergedText(stored, data);
  }

  lemma AcceptedParts(input: SegmentationInput)
    requires Normalize(input).Ok?
    ensures Normalize(input).value == Parts(input)
  {
  }

  lemma MergedText(stored: Segmentation, data: SegmentationInput)
    requires IsNormal(stored)
    ensures var n := Parts(Merge(stored, data));
      && (data.city == Omitted ==> n.city == stored.city) && (data.city == Null ==> n.city == None)
      && (data.city.Value? && IsTidy(data.city.value) ==> n.city == Some(data.city.value))
      && (data.state == Omitted ==> n.state == stored.state) && (data.state == Null ==> n.state == None)
      && (data.state.Value? && data.state.value in STATE_CODES ==> n.state == Some(data.state.value))
  {
    NormalTextIsStable(stored);
    NoText();
    hide NormalizeCity, NormalizeState, IsNormal, IsTidy;
    if data.city.Value? && IsTidy(data.city.value) { TidyCitiesStay(data.city.value); }
    if data.state.Value? && data.state.value in STATE_CODES { StateCodesStay(data.state.value); }
  }

  lemma NoText()
    ensures NormalizeCity(Null) == None && NormalizeState(Null) == None
  {
  }
}
