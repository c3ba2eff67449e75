/** Brazilian phone numbers: one normal form for the spellings that reach the same subscriber. */
module PhoneIdentity {
  import opened Basics
  import opened Text

  function DigitsOnly(s: string): (r: string)
    ensures AllDigits(r)
    ensures AllDigits(s) ==> r == s
  {
    if s == "" then ""
    else if IsDigit(s[0]) then [s[0]] + DigitsOnly(s[1..]) else DigitsOnly(s[1..])
  }

  const COUNTRY_CODE := "55"

  predicate HasCountryCode(s: string) { COUNTRY_CODE <= s }

  function NationalNumber(digits: string): Option<string> {
    if |digits| == 10 || |digits| == 11 then Some(digits)
    else if HasCountryCode(digits) && (|digits| == 12 || |digits| == 13) then Some(digits[2..])
    else None
  }

  /** Area code, then the subscriber number. */
  predicate IsFixedLine(n: string) {
    |n| == 10 && AllDigits(n) && n[0] != '0' && '2' <= n[2] <= '5'
  }

  predicate IsLegacyMobile(n: string) {
    |n| == 10 && AllDigits(n) && n[0] != '0' && '6' <= n[2] <= '9'
  }

  predicate IsCanonicalMobile(n: string) {
    |n| == 11 && AllDigits(n) && n[0] != '0' && n[2] == '9' && '6' <= n[3] <= '9'
  }

  /** Mobile numbers once had eight digits; the ninth is inserted after the area code. */
  function Canonicalize(digits: string): string {
    match NationalNumber(digits)
    case None => digits
    case Some(n) => COUNTRY_CODE + (if IsLegacyMobile(n) then n[..2] + "9" + n[2..] else n)
  }

  function NormalizePhone(phone: string): string {
    Canonicalize(DigitsOnly(phone))
  }

  predicate IsValid(phone: string) {
    && AllDigits(phone) && HasCountryCode(phone)
    && (IsFixedLine(phone[2..]) || IsCanonicalMobile(phone[2..]))
  }

  function IdentityVariants(phone: string): seq<string> {
    var canonical := NormalizePhone(phone);
    if !IsValid(canonical) then []
    else if !IsCanonicalMobile(canonical[2..]) then [canonical]
    else [canonical, COUNTRY_CODE + canonical[2..4] + canonical[5..]]
  }

  // ----- what these promise together

  /** The form in which customers are stored: all digits, with the country code. */
  predicate IsStoredForm(s: string) {
    AllDigits(s) && HasCountryCode(s) && (|s| == 12 || |s| == 13)
  }

  lemma CanonicalizeTwice(digits: string)
    requires AllDigits(digits)
    ensures AllDigits(Canonicalize(digits))
    ensures Canonicalize(Canonicalize(digits)) == Canonicalize(digits)
  {
    var once := Canonicalize(digits);
    if NationalNumber(digits).Some? {
      assert once[2..] == once[|COUNTRY_CODE|..];
      assert NationalNumber(once) == Some(once[2..]);
      assert once == COUNTRY_CODE + once[2..];
    }
  }

  /** Normalising is idempotent on every string. */
  lemma NormalizeIsIdempotent(phone: string)
    ensures NormalizePhone(NormalizePhone(phone)) == NormalizePhone(phone)
  {
    CanonicalizeTwice(DigitsOnly(phone));
  }

  /** A valid phone is its own normal form. */
  lemma ValidPhonesAreNormal(phone: string)
    requires IsValid(phone)
    ensures NormalizePhone(phone) == phone && IsStoredForm(phone)
  {
    assert phone == COUNTRY_CODE + phone[2..];
  }

  /** Without its ninth digit a canonical mobile number is a legacy one, and gets the digit back. */
  lemma NinthDigitOut(mobile: string)
    requires IsCanonicalMobile(mobile)
    ensures var n := mobile[..2] + mobile[3..]; IsLegacyMobile(n) && n[..2] + "9" + n[2..] == mobile
  {
    var n := mobile[..2] + mobile[3..];
    assert n[..2] == mobile[..2] && n[2..] == mobile[3..];
    assert mobile == mobile[..2] + [mobile[2]] + mobile[3..];
  }

  lemma OtherVariantLacksADigit(canonical: string, other: string)
    requires IsValid(canonical) && NormalizePhone(canonical) == canonical
    requires other in IdentityVariants(canonical) && other != canonical
    ensures IsCanonicalMobile(canonical[2..]) && canonical == COUNTRY_CODE + canonical[2..]
    ensures other == COUNTRY_CODE + (canonical[2..][..2] + canonical[2..][3..])
  {
    hide NormalizePhone, AllDigits;
    var m := canonical[2..];
    assert m[..2] == canonical[2..4] && m[3..] == canonical[5..];
  }

  lemma LegacyVariantGrowsBack(canonical: string, legacy: string)
    requires IsValid(canonical) && NormalizePhone(canonical) == canonical
    requires legacy in IdentityVariants(canonical) && legacy != canonical
    ensures IsLegacyMobile(legacy[2..]) && NormalizePhone(legacy) == canonical
  {
    hide NormalizePhone, IdentityVariants, IsValid, IsCanonicalMobile, IsLegacyMobile, IsStoredForm;
    OtherVariantLacksADigit(canonical, legacy);
    NinthDigitOut(canonical[2..]);
    var n := canonical[2..][..2] + canonical[2..][3..];
    assert legacy[2..] == n;
    LegacyIsStored(n);
    StoredFormNormalizes(legacy);
  }

  lemma LegacyIsStored(n: string)
    requires IsLegacyMobile(n)
    ensures IsStoredForm(COUNTRY_CODE + n)
  {
  }

  lemma VariantsAreStoredForms(canonical: string)
    requires IsValid(canonical) && NormalizePhone(canonical) == canonical
    ensures IdentityVariants(canonical)[0] == canonical
    ensures |IdentityVariants(canonical)| == 2 ==> IdentityVariants(canonical)[0] != IdentityVariants(canonical)[1]
    ensures forall v :: v in IdentityVariants(canonical) ==> IsStoredForm(v)
  {
    hide NormalizePhone;
  }

  /** A stored spelling is its own normal form, or a legacy one that lacks the ninth digit. */
  lemma StoredFormNormalizes(stored: string)
    requires IsStoredForm(stored)
    ensures var n := stored[2..];
      NormalizePhone(stored) == if IsLegacyMobile(n) then COUNTRY_CODE + (n[..2] + "9" + n[2..]) else stored
  {
    var n := stored[2..];
    assert stored == COUNTRY_CODE + n;
    assert NationalNumber(stored) == Some(n);
  }

  /** Putting the ninth digit in gives a canonical number whose second variant is the legacy spelling. */
  lemma LegacyIsAVariant(canonical: string, legacy: string)
    requires IsValid(canonical) && NormalizePhone(canonical) == canonical
    requires IsStoredForm(legacy) && IsLegacyMobile(legacy[2..])
    requires canonical == COUNTRY_CODE + (legacy[2..][..2] + "9" + legacy[2..][2..])
    ensures legacy in IdentityVariants(canonical)
  {
    hide NormalizePhone;
    var n := legacy[2..];
    var grown := n[..2] + "9" + n[2..];
    assert canonical[2..] == grown;
    assert grown[..2] + grown[3..] == n;
    assert canonical[2..4] + canonical[5..] == n;
    assert legacy == COUNTRY_CODE + n;
    assert legacy == COUNTRY_CODE + canonical[2..4] + canonical[5..];
  }

  /**
   * The variants of a phone with a valid normal form are exactly the stored spellings with that
   * normal form; they are distinct, and the normal form comes first.
   */
  lemma VariantsAreTheIdentityClass(phone: string, stored: string)
    requires IsValid(NormalizePhone(phone)) && IsStoredForm(stored)
    ensures stored in IdentityVariants(phone) <==> NormalizePhone(stored) == NormalizePhone(phone)
    ensures IdentityVariants(phone)[0] == NormalizePhone(phone)
    ensures |IdentityVariants(phone)| == 2 ==> IdentityVariants(phone)[0] != IdentityVariants(phone)[1]
    ensures forall v :: v in IdentityVariants(phone) ==> IsStoredForm(v)
  {
    var canonical := NormalizePhone(phone);
    NormalizeIsIdempotent(phone);
    assert IdentityVariants(canonical) == IdentityVariants(phone);
    hide NormalizePhone, IdentityVariants, IsValid, IsStoredForm, IsLegacyMobile;
    VariantsAreStoredForms(canonical);
    StoredFormNormalizes(stored);
    if stored in IdentityVariants(canonical) && stored != canonical { LegacyVariantGrowsBack(canonical, stored); }
    if NormalizePhone(stored) == canonical && stored != canonical { LegacyIsAVariant(canonical, stored); }
  }

  /** Two valid phones share a variant exactly when they normalise equally: identity is an equivalence. */
  lemma SharedVariantsMeanSameIdentity(a: string, b: string)
    requires IsValid(NormalizePhone(a)) && IsValid(NormalizePhone(b))
    ensures (exists v :: v in IdentityVariants(a) && v in IdentityVariants(b)) <==> NormalizePhone(a) == NormalizePhone(b)
  {
    if NormalizePhone(a) == NormalizePhone(b) {
      assert IdentityVariants(a)[0] in IdentityVariants(b);
    }
    forall v | v in IdentityVariants(a) && v in IdentityVariants(b) ensures NormalizePhone(a) == NormalizePhone(b) {
      ValidPhonesAreNormal(NormalizePhone(a));
      VariantsAreTheIdentityClass(a, NormalizePhone(a));
      VariantsAreTheIdentityClass(a, v);
      VariantsAreTheIdentityClass(b, NormalizePhone(a));
      VariantsAreTheIdentityClass(b, v);
    }
  }

  // ----- subscribers

  /** Somebody with a number: an area code and eight digits, in front of which mobile numbers have a 9 by now. */
  datatype Subscriber = Landline(area: string, number: string) | Mobile(area: string, number: string)

  predicate IsSubscriber(x: Subscriber) {
    && |x.area| == 2 && AllDigits(x.area) && x.area[0] != '0'
    && |x.number| == 8 && AllDigits(x.number)
    && if x.Landline? then '2' <= x.number[0] <= '5' else '6' <= x.number[0] <= '9'
  }

  function InFull(x: Subscriber): string { "55" + x.area + (if x.Mobile? then "9" else "") + x.number }

  /** With or without the country code, and for a mobile number with or without the ninth digit. */
  predicate Spells(digits: string, x: Subscriber) {
    || digits == InFull(x) || digits == InFull(x)[2..]
    || digits == "55" + x.area + x.number || digits == x.area + x.number
  }

  lemma AreaAndNumber(x: Subscriber)
    requires IsSubscriber(x)
    ensures var n := x.area + x.number;
      AllDigits(n) && n[..2] == x.area && n[2..] == x.number && (IsLegacyMobile(n) <==> x.Mobile?)
  {
    var n := x.area + x.number;
    assert n[..2] == x.area && n[2..] == x.number && n[0] == x.area[0] && n[2] == x.number[0];
  }

  lemma CountryCodeIsAdded(n: string)
    requires AllDigits(n) && (|n| == 10 || |n| == 11)
    ensures IsStoredForm("55" + n) && ("55" + n)[2..] == n && NormalizePhone(n) == NormalizePhone("55" + n)
  {
    assert ("55" + n)[2..] == n;
  }

  lemma LegacyGetsItsDigit(x: Subscriber)
    requires IsSubscriber(x)
    ensures NormalizePhone(x.area + x.number) == InFull(x) && NormalizePhone("55" + x.area + x.number) == InFull(x)
  {
    hide NormalizePhone, IsLegacyMobile, IsStoredForm;
    var n := x.area + x.number;
    AreaAndNumber(x);
    CountryCodeIsAdded(n);
    StoredFormNormalizes("55" + n);
    assert "55" + x.area + x.number == "55" + n;
    assert InFull(x) == if x.Mobile? then "55" + (n[..2] + "9" + n[2..]) else "55" + n;
  }

  lemma FullNumbersStay(x: Subscriber)
    requires IsSubscriber(x)
    ensures NormalizePhone(InFull(x)) == InFull(x) && NormalizePhone(InFull(x)[2..]) == InFull(x) && IsValid(InFull(x))
  {
    var n := InFull(x)[2..];
    assert n == x.area + (if x.Mobile? then "9" else "") + x.number && InFull(x) == "55" + n;
    assert AllDigits(n) && AllDigits(InFull(x)) && HasCountryCode(InFull(x));
  }

  /** Whatever is written between the digits: exactly the spellings of a subscriber have its number in full as normal form. */
  lemma SpellingsNormalize(phone: string, x: Subscriber)
    requires IsSubscriber(x)
    ensures NormalizePhone(phone) == InFull(x) <==> Spells(DigitsOnly(phone), x)
  {
    hide IsSubscriber;
    assert NormalizePhone(DigitsOnly(phone)) == NormalizePhone(phone);
    if Spells(DigitsOnly(phone), x) {
      hide NormalizePhone, InFull;
      LegacyGetsItsDigit(x);
      FullNumbersStay(x);
    }
    if NormalizePhone(phone) == InFull(x) { NormalFormsAreSpelled(DigitsOnly(phone), x); }
  }

  lemma NormalFormsAreSpelled(digits: string, x: Subscriber)
    requires IsSubscriber(x) && AllDigits(digits) && Canonicalize(digits) == InFull(x)
    ensures Spells(digits, x)
  {
    if NationalNumber(digits).Some? {
      var n := NationalNumber(digits).value;
      assert digits == n || digits == "55" + n;
      assert InFull(x)[2..] == (if IsLegacyMobile(n) then n[..2] + "9" + n[2..] else n);
      if IsLegacyMobile(n) { OnlyMobilesGrow(n, x); }
    }
  }

  lemma OnlyMobilesGrow(n: string, x: Subscriber)
    requires IsSubscriber(x) && IsLegacyMobile(n) && InFull(x)[2..] == n[..2] + "9" + n[2..]
    ensures n == x.area + x.number
  {
    var grown := n[..2] + "9" + n[2..];
    assert |grown| == 11 && x.Mobile?;
    assert InFull(x)[2..][..2] == x.area && InFull(x)[2..][3..] == x.number;
    assert grown[..2] == n[..2] && grown[3..] == n[2..];
  }

  /** A phone is valid exactly when it is the number of a subscriber in full. */
  lemma ValidMeansInFull(phone: string)
    ensures IsValid(phone) <==> exists x :: IsSubscriber(x) && phone == InFull(x)
  {
    if IsValid(phone) {
      var n := phone[2..];
      assert phone == "55" + n;
      var x := if |n| == 10 then Landline(n[..2], n[2..]) else Mobile(n[..2], n[3..]);
      assert x.number[0] == phone[if |n| == 10 then 4 else 5];
      assert IsSubscriber(x) && phone == InFull(x);
    }
    forall x | IsSubscriber(x) && phone == InFull(x) ensures IsValid(phone) { FullNumbersStay(x); }
  }
}
