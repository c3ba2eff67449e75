/** The customer import: rows are normalised, classified against the file and the company, and the new ones stored. */
module CustomerImport {
  import opened Basics
  import opened CampaignSegmentation
  import opened Consent
  import opened CustomerProfile
  import opened DateParsing
  import opened PhoneIdentity
  import opened Text

  /** The cells of a row; texts are printed and stripped of accents, and empty when the cell is. */
  datatype ImportRow = ImportRow(name: string, phone: string, gender: string, contactConsent: string, city: string,
                                 state: string, birthDate: Cell, lastPurchaseDate: Cell)

  datatype ImportData = ImportData(name: string, phone: string, birthDate: Option<string>, lastPurchaseDate: Option<string>,
                                   gender: Gender, city: Option<string>, state: Option<string>, consent: ConsentStatus)

  datatype ImportError = RequiredName | RequiredPhone | InvalidPhone | InvalidGender | InvalidConsent | InvalidStateCode
                       | InvalidBirthDate | InvalidLastPurchaseDate

  datatype NormalizedRow = NormalizedRow(data: ImportData, errors: seq<ImportError>)

  datatype RowStatus = New | Existing | Invalid | DuplicateInFile

  function Alias(s: string): string { Upper(Collapse(Trim(s))) }

  function ReadGender(s: string): Option<Gender> {
    var alias := Alias(s);
    if alias in {"", "NAO INFORMADO", "UNSPECIFIED"} then Some(Unspecified)
    else if alias in {"F", "FEMININO", "FEMALE"} then Some(Female)
    else if alias in {"M", "MASCULINO", "MALE"} then Some(Male)
    else if alias in {"OUTRO", "OUTROS", "OTHER"} then Some(Other)
    else None
  }

  function ReadConsent(s: string): Option<ConsentStatus> {
    var alias := Alias(s);
    if alias in {"SIM", "S", "TRUE", "1", "X"} then Some(Granted)
    else if alias in {"", "NAO", "N", "FALSE", "0"} then Some(Unknown)
    else if alias in {"OPT_OUT", "OPTOUT", "BLOQUEADO"} then Some(OptedOut)
    else None
  }

  function ToText(parsed: Parsed): Option<string> {
    match parsed
    case Date(iso) => Some(iso)
    case _ => None
  }

  function IfBad(bad: bool, error: ImportError): seq<ImportError> { if bad then [error] else [] }

  function NormalizeRow(row: ImportRow, today: int): NormalizedRow {
    var name, phone := Collapse(Trim(row.name)), NormalizePhone(Trim(row.phone));
    var gender, consent := ReadGender(row.gender), ReadConsent(row.contactConsent);
    var city, state := NormalizeCity(Value(row.city)), NormalizeState(Value(row.state));
    var birth, purchase := NormalizeDate(row.birthDate, today), NormalizeDate(row.lastPurchaseDate, today);
    var stateKnown := state.Some? && state.value in STATE_CODES;
    NormalizedRow(
      ImportData(name, phone, ToText(birth), ToText(purchase), if gender.Some? then gender.value else Unspecified, city,
                 if stateKnown then state else None, if consent.Some? then consent.value else Unknown),
      IfBad(name == "", RequiredName)
      + IfBad(phone == "", RequiredPhone) + IfBad(phone != "" && !IsValid(phone), InvalidPhone)
      + IfBad(gender == None, InvalidGender) + IfBad(consent == None, InvalidConsent)
      + IfBad(state.Some? && !stateKnown, InvalidStateCode)
      + IfBad(birth == BadDate, InvalidBirthDate) + IfBad(purchase == BadDate, InvalidLastPurchaseDate))
  }

  /** A row without errors has a name, a readable gender and consent, real dates, and a valid phone in normal form. */
  lemma ErrorFreeRows(row: ImportRow, today: int)
    ensures var n := NormalizeRow(row, today);
      n.errors == [] <==>
        && Trim(row.name) != "" && IsValid(n.data.phone)
        && ReadGender(row.gender) == Some(n.data.gender) && ReadConsent(row.contactConsent) == Some(n.data.consent)
        && NormalizeState(Value(row.state)) == n.data.state
        && NormalizeDate(row.birthDate, today) == (if n.data.birthDate == None then NoDate else Date(n.data.birthDate.value))
        && NormalizeDate(row.lastPurchaseDate, today)
             == (if n.data.lastPurchaseDate == None then NoDate else Date(n.data.lastPurchaseDate.value))
  {
    hide ReadGender, ReadConsent, NormalizeState, NormalizeDate, Trim, Collapse, NormalizePhone, NormalizeCity;
    assert IsValid(NormalizeRow(row, today).data.phone) ==> NormalizeRow(row, today).data.phone != "";
  }

  /** What is stored of a row without errors: tidy texts, a known state, and the phone in its stored form. */
  lemma CleanRowsAreTidy(row: ImportRow, today: int)
    ensures var data := NormalizeRow(row, today).data;
      NormalizeRow(row, today).errors == [] ==>
        && IsTidy(data.name)
        && (data.city.Some? ==> IsTidy(data.city.value))
        && (data.state.Some? ==> data.state.value in STATE_CODES)
        && IsStoredForm(data.phone) && NormalizePhone(data.phone) == data.phone
  {
    hide ReadGender, ReadConsent, NormalizeState, NormalizeDate, Trim, Collapse, NormalizePhone, IsTidy;
    ErrorFreeRows(row, today);
    if IsValid(NormalizeRow(row, today).data.phone) { ValidPhonesAreNormal(NormalizeRow(row, today).data.phone); }
    TrimIsIdempotent(row.name);
    TrimIsIdempotent(row.city);
    if Trim(row.name) != "" { CollapseTrimmed(Trim(row.name)); }
    if Trim(row.city) != "" { CollapseTrimmed(Trim(row.city)); }
  }

  // ----- classification

  /** Every row is normalised with the clock of its own moment. */
  function NormalizeAll(rows: seq<ImportRow>, clocks: seq<int>): seq<NormalizedRow>
    requires |clocks| == |rows|
  {
    seq(|rows|, i requires 0 <= i < |rows| => NormalizeRow(rows[i], clocks[i]))
  }

  predicate IsClean(row: NormalizedRow) { row.errors == [] }

  function ValidPhones(rows: seq<NormalizedRow>): set<string> { set row | row in rows && IsClean(row) :: row.data.phone }

  function VariantsOf(phones: set<string>): set<string> {
    set phone, v | phone in phones && v in IdentityVariants(phone) :: v
  }

  /** The normal forms of the stored phones that the lookup by variants finds. */
  function ExistingPhones(customers: map<Id, Profile>, companyId: Id, phones: set<string>): set<string> {
    set id | id in customers && customers[id].contact.companyId == companyId
             && customers[id].contact.phone in VariantsOf(phones) :: NormalizePhone(customers[id].contact.phone)
  }

  function StatusOf(rows: seq<NormalizedRow>, existing: set<string>, k: nat): RowStatus
    requires k < |rows|
  {
    if !IsClean(rows[k]) then Invalid
    else if rows[k].data.phone in ValidPhones(rows[..k]) then DuplicateInFile
    else if rows[k].data.phone in existing then Existing
    else New
  }

  /** What the file means for the company: one status a row. */
  function Statuses(customers: map<Id, Profile>, companyId: Id, rows: seq<NormalizedRow>): (r: seq<RowStatus>)
    ensures |r| == |rows|
  {
    var existing := ExistingPhones(customers, companyId, ValidPhones(rows));
    seq(|rows|, k requires 0 <= k < |rows| => StatusOf(rows, existing, k))
  }

  function Count(statuses: seq<RowStatus>, status: RowStatus): nat {
    if statuses == [] then 0
    else Count(statuses[..|statuses| - 1], status) + (if statuses[|statuses| - 1] == status then 1 else 0)
  }

  /** The four statuses partition the rows. */
  lemma {:induction false} CountsAddUp(statuses: seq<RowStatus>)
    ensures Count(statuses, New) + Count(statuses, Existing) + Count(statuses, Invalid) + Count(statuses, DuplicateInFile)
         == |statuses|
  {
    if statuses != [] { CountsAddUp(statuses[..|statuses| - 1]); }
  }

  /** Somebody of the company is stored under a spelling of the phone. */
  predicate IsTaken(customers: map<Id, Profile>, companyId: Id, phone: string) {
    exists id :: id in customers && customers[id].contact.companyId == companyId
                 && customers[id].contact.phone in IdentityVariants(phone)
  }

  /** The lookup for many phones at once answers for each of them alone. */
  lemma LookupAnswersForEach(customers: map<Id, Profile>, companyId: Id, phones: set<string>, phone: string)
    requires phone in phones && forall p :: p in phones ==> IsValid(p)
    ensures phone in ExistingPhones(customers, companyId, phones) <==> IsTaken(customers, companyId, phone)
  {
    ValidPhonesAreNormal(phone);
    forall id | id in customers && customers[id].contact.phone in VariantsOf(phones)
      ensures NormalizePhone(customers[id].contact.phone) == phone
          <==> customers[id].contact.phone in IdentityVariants(phone)
    {
      var stored := customers[id].contact.phone;
      var p :| p in phones && stored in IdentityVariants(p);
      SpellingsShareTheNormalForm(p, phone, stored);
    }
  }

  lemma SpellingsShareTheNormalForm(p: string, phone: string, stored: string)
    requires IsValid(p) && IsValid(phone) && stored in IdentityVariants(p)
    ensures IsStoredForm(stored) && NormalizePhone(stored) == p
    ensures NormalizePhone(stored) == phone <==> stored in IdentityVariants(phone)
  {
    ValidPhonesAreNormal(p);
    ValidPhonesAreNormal(phone);
    VariantsAreTheIdentityClass(p, p);
    VariantsAreTheIdentityClass(p, stored);
    VariantsAreTheIdentityClass(phone, stored);
  }

  lemma CleanRowsHaveValidPhones(file: seq<ImportRow>, clocks: seq<int>)
    requires |clocks| == |file|
    ensures forall p :: p in ValidPhones(NormalizeAll(file, clocks)) ==> IsValid(p)
  {
    hide NormalizeRow;
    forall row | row in NormalizeAll(file, clocks) && IsClean(row) ensures IsValid(row.data.phone) {
      var k :| 0 <= k < |file| && row == NormalizeRow(file[k], clocks[k]);
      ErrorFreeRows(file[k], clocks[k]);
    }
  }

  /** The status of a row, told without the lookup: its own errors, earlier rows of the file, stored spellings. */
  lemma StatusMeaning(customers: map<Id, Profile>, companyId: Id, file: seq<ImportRow>, clocks: seq<int>, k: nat)
    requires |clocks| == |file|
    requires k < |file|
    ensures var rows := NormalizeAll(file, clocks);
      var statuses := Statuses(customers, companyId, rows);
      && (statuses[k] == Invalid <==> !IsClean(rows[k]))
      && (statuses[k] == DuplicateInFile <==>
            IsClean(rows[k]) && exists j :: 0 <= j < k && IsClean(rows[j]) && rows[j].data.phone == rows[k].data.phone)
      && (statuses[k] in {New, Existing} ==> (statuses[k] == Existing <==> IsTaken(customers, companyId, rows[k].data.phone)))
      && (statuses[k] != Invalid ==> IsValid(rows[k].data.phone))
  {
    hide NormalizeRow, ExistingPhones, IsTaken;
    var rows := NormalizeAll(file, clocks);
    CleanRowsHaveValidPhones(file, clocks);
    if IsClean(rows[k]) {
      assert rows[k].data.phone in ValidPhones(rows);
      LookupAnswersForEach(customers, companyId, ValidPhones(rows), rows[k].data.phone);
      EarlierPhones(rows, k);
    }
  }

  lemma EarlierPhones(rows: seq<NormalizedRow>, k: nat)
    requires k < |rows|
    ensures rows[k].data.phone in ValidPhones(rows[..k])
        <==> exists j :: 0 <= j < k && IsClean(rows[j]) && rows[j].data.phone == rows[k].data.phone
  {
    if rows[k].data.phone in ValidPhones(rows[..k]) {
      var row :| row in rows[..k] && IsClean(row) && row.data.phone == rows[k].data.phone;
      var j :| 0 <= j < k && rows[..k][j] == row;
      assert rows[j] == row;
    }
    forall j | 0 <= j < k && IsClean(rows[j]) ensures rows[j].data.phone in ValidPhones(rows[..k]) {
      assert rows[j] == rows[..k][j];
    }
  }

  // ----- the customers afterwards

  function Imported(companyId: Id, data: ImportData, at: int): Profile {
    Profile(Customer(companyId, data.phone, true, data.consent, if data.consent == Granted then Some(at) else None,
                     if data.consent == OptedOut then Some(at) else None),
            data.name, data.gender, data.city, data.state, ReadDay(data.birthDate), ReadDay(data.lastPurchaseDate), {})
  }

  function ReadDay(iso: Option<string>): Option<int> { if iso == None then None else StoredDay(iso.value) }

  /** The words for a gender, without accents and in any case. */
  predicate NamesGender(text: string, gender: Gender) {
    var alias := Upper(Collapse(Trim(text)));
    match gender
    case Female => alias in {"F", "FEMININO", "FEMALE"}
    case Male => alias in {"M", "MASCULINO", "MALE"}
    case Other => alias in {"OUTRO", "OUTROS", "OTHER"}
    case Unspecified => alias in {"", "NAO INFORMADO", "UNSPECIFIED"}
  }

  predicate NamesConsent(text: string, consent: ConsentStatus) {
    var alias := Upper(Collapse(Trim(text)));
    match consent
    case Granted => alias in {"SIM", "S", "TRUE", "1", "X"}
    case OptedOut => alias in {"OPT_OUT", "OPTOUT", "BLOQUEADO"}
    case Unknown => alias in {"", "NAO", "N", "FALSE", "0"}
  }

  /** The customer column by column, each from its own cell. */
  predicate IsFromRow(p: Profile, companyId: Id, row: ImportRow, at: int) {
    && p.contact.companyId == companyId && p.contact.active
    && p.contact.phone == NormalizePhone(Trim(row.phone)) && IsValid(p.contact.phone)
    && p.name == Collapse(Trim(row.name)) && p.name != ""
    && NamesGender(row.gender, p.gender) && NamesConsent(row.contactConsent, p.contact.consent)
    && p.contact.grantedAt == (if p.contact.consent == Granted then Some(at) else None)
    && p.contact.optedOutAt == (if p.contact.consent == OptedOut then Some(at) else None)
    && p.city == (if Trim(row.city) == "" then None else Some(Collapse(Trim(row.city))))
    && p.state == (if Trim(row.state) == "" then None else Some(Upper(Trim(row.state))))
    && (p.state.Some? ==> p.state.value in STATE_CODES)
    && IsDayOf(row.birthDate, p.birthDay) && IsDayOf(row.lastPurchaseDate, p.lastPurchaseDay)
    && p.interests == {}
  }

  lemma WordsAreRead(text: string, gender: Gender, consent: ConsentStatus)
    ensures ReadGender(text) == Some(gender) <==> NamesGender(text, gender)
    ensures ReadConsent(text) == Some(consent) <==> NamesConsent(text, consent)
  {
    hide Upper, Collapse, Trim;
  }

  lemma NameAndPhoneAreStored(row: ImportRow, today: int)
    ensures var data := NormalizeRow(row, today).data;
      data.name == Collapse(Trim(row.name)) && data.phone == NormalizePhone(Trim(row.phone))
  {
    hide ReadGender, ReadConsent, NormalizeDate, NormalizeState, Trim, Collapse, NormalizePhone;
  }

  lemma PlacesAreStored(row: ImportRow, today: int)
    requires NormalizeRow(row, today).errors == []
    ensures var data := NormalizeRow(row, today).data;
      && data.city == (if Trim(row.city) == "" then None else Some(Collapse(Trim(row.city))))
      && data.state == (if Trim(row.state) == "" then None else Some(Upper(Trim(row.state))))
      && (data.state.Some? ==> data.state.value in STATE_CODES)
  {
    hide ReadGender, ReadConsent, NormalizeDate, Trim, Collapse, NormalizePhone;
  }

  lemma DaysAreStored(row: ImportRow, today: int)
    requires NormalizeRow(row, today).errors == []
    ensures var data := NormalizeRow(row, today).data;
      IsDayOf(row.birthDate, ReadDay(data.birthDate)) && IsDayOf(row.lastPurchaseDate, ReadDay(data.lastPurchaseDate))
  {
    hide NormalizeRow, NormalizeDate, IsDayOf, StoredDay, ReadGender, ReadConsent, NormalizeState, IsValid, Trim;
    ErrorFreeRows(row, today);
    StoredDayIsTheDay(row.birthDate, today);
    StoredDayIsTheDay(row.lastPurchaseDate, today);
  }

  /** What is stored of a row without errors. */
  lemma ImportedFromRow(companyId: Id, row: ImportRow, today: int, at: int)
    requires NormalizeRow(row, today).errors == []
    ensures IsFromRow(Imported(companyId, NormalizeRow(row, today).data, at), companyId, row, at)
  {
    NameAndPhoneAreStored(row, today);
    var data := NormalizeRow(row, today).data;
    hide NormalizeRow, NormalizeDate, IsDayOf, ReadGender, ReadConsent, NamesGender, NamesConsent, NormalizeState, IsValid;
    hide Trim, Collapse, NormalizePhone, ReadDay, Upper;
    ErrorFreeRows(row, today);
    WordsAreRead(row.gender, data.gender, data.consent);
    WordsAreRead(row.contactConsent, data.gender, data.consent);
    PlacesAreStored(row, today);
    DaysAreStored(row, today);
  }

  /** Every phone is stored in digits with the country code, as all writers of customers leave it. */
  predicate StoredForms(customers: map<Id, Profile>) {
    forall id :: id in customers ==> IsStoredForm(customers[id].contact.phone)
  }

  predicate SamePerson(a: Customer, b: Customer) {
    a.companyId == b.companyId && NormalizePhone(a.phone) == NormalizePhone(b.phone)
  }

  /** No two stored customers of a company are reached by the same phone. */
  predicate UniqueIdentities(customers: map<Id, Profile>) {
    forall a, b :: a in customers && b in customers && SamePerson(customers[a].contact, customers[b].contact) ==> a == b
  }

  /** The new ones among the first `n` rows were added, each under an identifier of its own, and nothing else changed. */
  ghost predicate AddsFirst(before: map<Id, Profile>, after: map<Id, Profile>, companyId: Id, rows: seq<NormalizedRow>,
                            at: int, place: map<Id, nat>, n: nat)
    requires n <= |rows|
  {
    && place.Keys == after.Keys - before.Keys
    && before.Keys <= after.Keys
    && (forall id :: id in before ==> after[id] == before[id])
    && (forall id :: id in place ==>
          && place[id] < n && Statuses(before, companyId, rows)[place[id]] == New
          && after[id] == Imported(companyId, rows[place[id]].data, at))
    && (forall a, b :: a in place && b in place && place[a] == place[b] ==> a == b)
    && (forall k :: 0 <= k < n && Statuses(before, companyId, rows)[k] == New ==> exists id :: id in place && place[id] == k)
  }

  /** What an execution does to the table. */
  ghost predicate AddsNewRows(before: map<Id, Profile>, after: map<Id, Profile>, companyId: Id, rows: seq<NormalizedRow>,
                              at: int, place: map<Id, nat>)
  {
    AddsFirst(before, after, companyId, rows, at, place, |rows|)
  }

  /** Each new customer is the row of the file in its place. */
  lemma NewCustomersAreTheirRows(before: map<Id, Profile>, after: map<Id, Profile>, companyId: Id, file: seq<ImportRow>,
                                 clocks: seq<int>, at: int, place: map<Id, nat>)
    requires |clocks| == |file| && AddsNewRows(before, after, companyId, NormalizeAll(file, clocks), at, place)
    ensures forall id :: id in place ==>
      place[id] < |file| && id in after && id !in before && IsFromRow(after[id], companyId, file[place[id]], at)
  {
    hide NormalizeRow, Imported, IsFromRow, ExistingPhones, ValidPhones;
    forall id | id in place
      ensures place[id] < |file| && id in after && id !in before && IsFromRow(after[id], companyId, file[place[id]], at)
    {
      ImportedFromRow(companyId, file[place[id]], clocks[place[id]], at);
    }
  }

  /** New rows are somebody new: to the company, and to each other. */
  lemma NewRowsAreNew(customers: map<Id, Profile>, companyId: Id, file: seq<ImportRow>, clocks: seq<int>, k: nat)
    requires |clocks| == |file|
    requires k < |file| && StoredForms(customers)
    ensures var rows := NormalizeAll(file, clocks);
      var phone := rows[k].data.phone;
      Statuses(customers, companyId, rows)[k] == New ==>
        && IsStoredForm(phone) && NormalizePhone(phone) == phone
        && (forall id :: id in customers && customers[id].contact.companyId == companyId ==>
              NormalizePhone(customers[id].contact.phone) != phone)
        && (forall j :: 0 <= j < |file| && j != k && Statuses(customers, companyId, rows)[j] == New ==> rows[j].data.phone != phone)
  {
    hide NormalizeRow, Statuses, NormalizePhone, IdentityVariants;
    var rows := NormalizeAll(file, clocks);
    var phone := rows[k].data.phone;
    StatusMeaning(customers, companyId, file, clocks, k);
    if Statuses(customers, companyId, rows)[k] != New { return; }
    ValidPhonesAreNormal(phone);
    forall id | id in customers && customers[id].contact.companyId == companyId
      ensures NormalizePhone(customers[id].contact.phone) != phone
    {
      VariantsAreTheIdentityClass(phone, customers[id].contact.phone);
    }
    forall j | 0 <= j < |file| && j != k && Statuses(customers, companyId, rows)[j] == New ensures rows[j].data.phone != phone {
      StatusMeaning(customers, companyId, file, clocks, j);
    }
  }

  lemma ImportedIsNew(before: map<Id, Profile>, after: map<Id, Profile>, companyId: Id, file: seq<ImportRow>,
                      clocks: seq<int>, at: int, place: map<Id, nat>, id: Id)
    requires |clocks| == |file| && StoredForms(before) && id in place
    requires AddsNewRows(before, after, companyId, NormalizeAll(file, clocks), at, place)
    ensures place[id] < |file| == |NormalizeAll(file, clocks)|
    ensures var rows := NormalizeAll(file, clocks);
      var phone := rows[place[id]].data.phone;
      && id in after && after[id].contact.companyId == companyId && after[id].contact.phone == phone
      && IsStoredForm(phone) && NormalizePhone(phone) == phone
      && (forall b :: b in before && before[b].contact.companyId == companyId ==> NormalizePhone(before[b].contact.phone) != phone)
      && (forall j :: 0 <= j < |file| && j != place[id] && Statuses(before, companyId, rows)[j] == New ==> rows[j].data.phone != phone)
  {
    hide NormalizeAll, Statuses, NormalizePhone, IsStoredForm, StoredForms, ReadDay;
    NormalizeAllSize(file, clocks);
    NewRowsAreNew(before, companyId, file, clocks, place[id]);
  }

  /** Whoever was imported is nobody else. */
  lemma ImportedDiffers(before: map<Id, Profile>, after: map<Id, Profile>, companyId: Id, file: seq<ImportRow>,
                        clocks: seq<int>, at: int, place: map<Id, nat>, a: Id, b: Id)
    requires |clocks| == |file| && StoredForms(before) && a in place && b in after && a != b
    requires AddsNewRows(before, after, companyId, NormalizeAll(file, clocks), at, place)
    ensures a in after && !SamePerson(after[a].contact, after[b].contact)
  {
    ImportedIsNew(before, after, companyId, file, clocks, at, place, a);
    if b in before {
      hide NormalizeAll, Statuses, NormalizePhone, Imported;
      assert after[b] == before[b];
    } else {
      hide NormalizeAll, Statuses, NormalizePhone, Imported, StoredForms;
      ImportedIsNew(before, after, companyId, file, clocks, at, place, b);
      assert place[a] != place[b];
    }
  }

  /** An import keeps identities unique. */
  lemma ImportKeepsIdentitiesUnique(before: map<Id, Profile>, after: map<Id, Profile>, companyId: Id, file: seq<ImportRow>,
                                    clocks: seq<int>, at: int, place: map<Id, nat>)
    requires |clocks| == |file|
    requires StoredForms(before) && UniqueIdentities(before)
    requires AddsNewRows(before, after, companyId, NormalizeAll(file, clocks), at, place)
    ensures StoredForms(after) && UniqueIdentities(after)
  {
    assert forall id :: id in after <==> id in before || id in place;
    assert forall id :: id in before ==> after[id] == before[id];
    hide AddsNewRows, NormalizeAll, NormalizePhone, IsStoredForm;
    forall id | id in after ensures IsStoredForm(after[id].contact.phone) {
      if id in place { ImportedIsNew(before, after, companyId, file, clocks, at, place, id); }
    }
    forall a, b | a in after && b in after && SamePerson(after[a].contact, after[b].contact) ensures a == b {
      if a != b && a in place { ImportedDiffers(before, after, companyId, file, clocks, at, place, a, b); }
      if a != b && b in place { ImportedDiffers(before, after, companyId, file, clocks, at, place, b, a); }
    }
  }

  lemma NormalizeAllSize(file: seq<ImportRow>, clocks: seq<int>)
    requires |clocks| == |file|
    ensures |NormalizeAll(file, clocks)| == |file|
  {
  }

  lemma SameDaySameRows(file: seq<ImportRow>, clocks: seq<int>, again: seq<int>)
    requires |clocks| == |file| == |again|
    requires forall i :: 0 <= i < |file| ==> TodayUtc(again[i]) == TodayUtc(clocks[i])
    ensures NormalizeAll(file, again) == NormalizeAll(file, clocks)
  {
    hide TodayUtc, Trim, Collapse, NormalizePhone, NormalizeCity, NormalizeState, ReadGender, ReadConsent;
  }

  /** Importing the same file again on the same day imports nothing: exactly the new rows have become existing ones. */
  lemma SecondImportAddsNothing(before: map<Id, Profile>, after: map<Id, Profile>, companyId: Id, file: seq<ImportRow>,
                                clocks: seq<int>, again: seq<int>, at: int, place: map<Id, nat>, k: nat)
    requires |clocks| == |file| == |again|
    requires forall i :: 0 <= i < |file| ==> TodayUtc(again[i]) == TodayUtc(clocks[i])
    requires AddsNewRows(before, after, companyId, NormalizeAll(file, clocks), at, place)
    requires k < |file|
    ensures var first := Statuses(before, companyId, NormalizeAll(file, clocks))[k];
      var second := Statuses(after, companyId, NormalizeAll(file, again))[k];
      second == if first == New then Existing else first
  {
    hide NormalizeAll, Statuses, IsTaken, IdentityVariants;
    SameDaySameRows(file, clocks, again);
    var rows := NormalizeAll(file, clocks);
    assert |rows| == |file| by { NormalizeAllSize(file, clocks); }
    StatusMeaning(before, companyId, file, clocks, k);
    StatusMeaning(after, companyId, file, clocks, k);
    if Statuses(before, companyId, rows)[k] in {New, Existing} {
      assert IsTaken(after, companyId, rows[k].data.phone) by {
        SomebodyIsStored(before, after, companyId, rows, at, place, k);
      }
    }
  }

  lemma SomebodyIsStored(before: map<Id, Profile>, after: map<Id, Profile>, companyId: Id, rows: seq<NormalizedRow>,
                         at: int, place: map<Id, nat>, k: nat)
    requires AddsNewRows(before, after, companyId, rows, at, place)
    requires k < |rows| && IsValid(rows[k].data.phone)
    requires Statuses(before, companyId, rows)[k] == New || IsTaken(before, companyId, rows[k].data.phone)
    ensures IsTaken(after, companyId, rows[k].data.phone)
  {
    hide Statuses;
    var phone := rows[k].data.phone;
    if Statuses(before, companyId, rows)[k] == New {
      var id :| id in place && place[id] == k;
      ValidPhonesAreNormal(phone);
      VariantsAreTheIdentityClass(phone, phone);
      assert after[id].contact.phone == phone;
    } else {
      var id :| id in before && before[id].contact.companyId == companyId && before[id].contact.phone in IdentityVariants(phone);
      assert after[id] == before[id];
    }
  }

  // ----- the service

  datatype ImportSummary = ImportSummary(totalRows: nat, added: nat, existing: nat, invalid: nat, duplicateInFile: nat)

  datatype ImportResult = ImportResult(summary: ImportSummary, rows: seq<NormalizedRow>, statuses: seq<RowStatus>)

  datatype TransactionFailed = TransactionFailed

  function Summarize(statuses: seq<RowStatus>): ImportSummary {
    ImportSummary(|statuses|, Count(statuses, New), Count(statuses, Existing), Count(statuses, Invalid),
                  Count(statuses, DuplicateInFile))
  }

  method PushIf(errors: seq<ImportError>, bad: bool, error: ImportError) returns (r: seq<ImportError>)
    ensures r == errors + IfBad(bad, error)
  {
    if bad { return errors + [error]; }
    return errors;
  }

  method NormalizeCustomerImportRow(row: ImportRow, today: int) returns (r: NormalizedRow)
    ensures r == NormalizeRow(row, today)
  {
    hide ReadGender, ReadConsent, NormalizeState, NormalizeDate, Trim, Collapse, NormalizePhone, NormalizeCity, IsValid, IfBad;
    hide ToText;
    var errors := [];
    var name := Collapse(Trim(row.name));
    errors := PushIf(errors, name == "", RequiredName);
    assert errors == IfBad(name == "", RequiredName);
    var phone := NormalizePhone(Trim(row.phone));
    errors := PushIf(errors, phone == "", RequiredPhone);
    errors := PushIf(errors, phone != "" && !IsValid(phone), InvalidPhone);
    var gender := ReadGender(row.gender);
    errors := PushIf(errors, gender == None, InvalidGender);
    var consent := ReadConsent(row.contactConsent);
    errors := PushIf(errors, consent == None, InvalidConsent);
    var city, state := NormalizeCity(Value(row.city)), NormalizeState(Value(row.state));
    var stateKnown := state.Some? && state.value in STATE_CODES;
    errors := PushIf(errors, state.Some? && !stateKnown, InvalidStateCode);
    var birth := NormalizeDate(row.birthDate, today);
    errors := PushIf(errors, birth == BadDate, InvalidBirthDate);
    var purchase := NormalizeDate(row.lastPurchaseDate, today);
    errors := PushIf(errors, purchase == BadDate, InvalidLastPurchaseDate);
    return NormalizedRow(
      ImportData(name, phone, ToText(birth), ToText(purchase), if gender.Some? then gender.value else Unspecified, city,
                 if stateKnown then state else None, if consent.Some? then consent.value else Unknown),
      errors);
  }

  class CustomerImportService {
    var customers: map<Id, Profile>

    method Classify(companyId: Id, file: seq<ImportRow>, clocks: seq<int>) returns (r: ImportResult)
      requires |clocks| == |file|
      ensures r.rows == NormalizeAll(file, clocks) && r.statuses == Statuses(customers, companyId, r.rows)
      ensures r.summary == Summarize(r.statuses)
      ensures r.summary.totalRows == |file|
           == r.summary.added + r.summary.existing + r.summary.invalid + r.summary.duplicateInFile
    {
      hide NormalizeRow, ExistingPhones, ValidPhones;
      var rows := [];
      for i := 0 to |file|
        invariant |rows| == i && forall j :: 0 <= j < i ==> rows[j] == NormalizeRow(file[j], clocks[j])
      {
        var row := NormalizeCustomerImportRow(file[i], clocks[i]);
        rows := rows + [row];
      }
      assert rows == NormalizeAll(file, clocks);
      var existing := ExistingPhones(customers, companyId, ValidPhones(rows));
      var seenPhones, statuses := {}, [];
      NoPhonesYet(rows);
      for k := 0 to |rows|
        invariant seenPhones == ValidPhones(rows[..k])
        invariant |statuses| == k && forall j :: 0 <= j < k ==> statuses[j] == StatusOf(rows, existing, j)
      {
        var row := rows[k];
        var status;
        if !IsClean(row) {
          status := Invalid;
        } else if row.data.phone in seenPhones {
          status := DuplicateInFile;
        } else if row.data.phone in existing {
          status := Existing;
        } else {
          status := New;
        }
        SeenPhones(rows, k);
        if IsClean(row) { seenPhones := seenPhones + {row.data.phone}; }
        statuses := statuses + [status];
      }
      assert rows[..|rows|] == rows;
      CountsAddUp(statuses);
      return ImportResult(Summarize(statuses), rows, statuses);
    }

    /** Inserts the new rows in one serializable transaction, which the database may refuse as a whole, or for a used identifier. */
    method Execute(companyId: Id, file: seq<ImportRow>, clocks: seq<int>, importedAt: int, uuids: seq<Id>, commits: bool)
      returns (r: Result<ImportResult, TransactionFailed>, ghost place: map<Id, nat>)
      requires |clocks| == |file| == |uuids|
      modifies this
      ensures r.Err? ==> customers == old(customers)
      ensures r.Ok? ==> commits
      ensures r.Err? && commits ==> !AreUnused(uuids, old(customers))
      ensures r.Ok? ==>
        && r.value.rows == NormalizeAll(file, clocks)
        && r.value.statuses == Statuses(old(customers), companyId, r.value.rows)
        && AddsNewRows(old(customers), customers, companyId, r.value.rows, importedAt, place)
        && (forall id :: id in place ==>
              place[id] < |file| && id in customers && IsFromRow(customers[id], companyId, file[place[id]], importedAt))
        && |customers| == |old(customers)| + r.value.summary.added
        && r.value.summary == Summarize(r.value.statuses)
    {
      hide NormalizeAll, Statuses, Imported, Count, IsFromRow, AreUnused;
      var before := customers;
      var preview := Classify(companyId, file, clocks);
      place := map[];
      NormalizeAllSize(file, clocks);
      NothingCounted(preview.statuses);
      NothingAdded(before, companyId, preview.rows, importedAt);
      for k := 0 to |preview.rows|
        invariant preview.statuses == Statuses(before, companyId, preview.rows) && |preview.rows| <= |uuids|
        invariant AddsFirst(before, customers, companyId, preview.rows, importedAt, place, k)
        invariant |customers| == |before| + Count(preview.statuses[..k], New)
        invariant forall id :: id in place ==> place[id] < k && uuids[place[id]] == id
      {
        CountOneMore(preview.statuses, k, New);
        if preview.statuses[k] != New { SkipsOne(before, customers, companyId, preview.rows, importedAt, place, k); }
        if preview.statuses[k] == New {
          if uuids[k] in customers {
            UsedTwice(before, customers, uuids, place, k);
            customers := before;
            return Err(TransactionFailed), map[];
          }
          AddsOneMore(before, customers, companyId, preview.rows, importedAt, place, k, uuids[k]);
          customers := customers[uuids[k] := Imported(companyId, preview.rows[k].data, importedAt)];
          place := place[uuids[k] := k];
        }
      }
      assert preview.statuses[..|preview.rows|] == preview.statuses;
      if !commits {
        customers := before;
        return Err(TransactionFailed), map[];
      }
      NewCustomersAreTheirRows(before, customers, companyId, file, clocks, importedAt, place);
      return Ok(preview), place;
    }
  }

  /** Identifiers that nobody has, each listed once. */
  predicate AreUnused(ids: seq<Id>, customers: map<Id, Profile>) {
    (forall i :: 0 <= i < |ids| ==> ids[i] !in customers) && (forall i, j :: 0 <= i < j < |ids| ==> ids[i] != ids[j])
  }

  lemma UsedTwice(before: map<Id, Profile>, after: map<Id, Profile>, ids: seq<Id>, place: map<Id, nat>, k: nat)
    requires k < |ids| && ids[k] in after && place.Keys == after.Keys - before.Keys
    requires forall id :: id in place ==> place[id] < k && ids[place[id]] == id
    ensures !AreUnused(ids, before)
  {
    if ids[k] !in before { assert ids[k] in place; }
  }

  lemma NothingCounted(statuses: seq<RowStatus>)
    ensures Count(statuses[..0], New) == 0
  {
  }

  lemma CountOneMore(statuses: seq<RowStatus>, k: nat, status: RowStatus)
    requires k < |statuses|
    ensures Count(statuses[..k + 1], status) == Count(statuses[..k], status) + (if statuses[k] == status then 1 else 0)
  {
    assert statuses[..k + 1][..k] == statuses[..k];
  }

  lemma NothingAdded(before: map<Id, Profile>, companyId: Id, rows: seq<NormalizedRow>, at: int)
    ensures AddsFirst(before, before, companyId, rows, at, map[], 0)
  {
  }

  lemma SkipsOne(before: map<Id, Profile>, after: map<Id, Profile>, companyId: Id, rows: seq<NormalizedRow>,
                 at: int, place: map<Id, nat>, k: nat)
    requires k < |rows| && AddsFirst(before, after, companyId, rows, at, place, k)
    requires Statuses(before, companyId, rows)[k] != New
    ensures AddsFirst(before, after, companyId, rows, at, place, k + 1)
  {
    hide Statuses, Imported;
  }

  lemma AddsOneMore(before: map<Id, Profile>, after: map<Id, Profile>, companyId: Id, rows: seq<NormalizedRow>,
                    at: int, place: map<Id, nat>, k: nat, id: Id)
    requires k < |rows| && AddsFirst(before, after, companyId, rows, at, place, k)
    requires Statuses(before, companyId, rows)[k] == New && id !in after
    ensures AddsFirst(before, after[id := Imported(companyId, rows[k].data, at)], companyId, rows, at, place[id := k], k + 1)
  {
    hide Statuses, Imported;
    var longer := place[id := k];
    assert longer.Keys == after[id := Imported(companyId, rows[k].data, at)].Keys - before.Keys;
    forall j | 0 <= j < k + 1 && Statuses(before, companyId, rows)[j] == New ensures exists a :: a in longer && longer[a] == j {
      if j < k {
        var a :| a in place && place[a] == j;
        assert a in longer && longer[a] == j;
      } else {
        assert id in longer && longer[id] == j;
      }
    }
  }

  lemma NoPhonesYet(rows: seq<NormalizedRow>)
    ensures ValidPhones(rows[..0]) == {}
  {
  }

  lemma SeenPhones(rows: seq<NormalizedRow>, k: nat)
    requires k < |rows|
    ensures ValidPhones(rows[..k + 1]) == ValidPhones(rows[..k]) + (if IsClean(rows[k]) then {rows[k].data.phone} else {})
  {
    assert rows[..k + 1] == rows[..k] + [rows[k]];
  }
}
