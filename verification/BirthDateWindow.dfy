/** The window of birth dates that an age filter asks the database for. */
module BirthDateWindow {
  import opened Basics
  import opened EcmaCalendar

  /** Bounds in milliseconds: birth dates after `gt` and up to `lte`. */
  datatype BirthDateRange = BirthDateRange(gt: Option<int>, lte: Option<int>)

  function DateOf(ms: int): Civil { FromDay(ms / MS_PER_DAY) }

  /** The day of the anniversary of the reference date so many years ago. */
  function AnniversaryDay(today: Civil, yearsAgo: int): int {
    var targetYear := today.year - yearsAgo;
    var lastDayOfMonth := FromDay(UtcDay(targetYear, today.month + 1, 0)).day;
    UtcDay(targetYear, today.month, Earlier(today.day, lastDayOfMonth))
  }

  function Earlier(a: int, b: int): int { if a < b then a else b }

  /** The last millisecond of that day. */
  function AnniversaryBoundary(reference: int, yearsAgo: int): int {
    AnniversaryDay(DateOf(reference), yearsAgo) * MS_PER_DAY + 86_399_999
  }

  function BuildBirthDateRange(minAge: Option<int>, maxAge: Option<int>, reference: int): Option<BirthDateRange> {
    if minAge == None && maxAge == None then None
    else Some(BirthDateRange(
      if maxAge == None then None else Some(AnniversaryBoundary(reference, maxAge.value + 1)),
      if minAge == None then None else Some(AnniversaryBoundary(reference, minAge.value))))
  }

  predicate InRange(range: Option<BirthDateRange>, birth: int) {
    range == None ||
    ((range.value.gt.Some? ==> range.value.gt.value < birth) && (range.value.lte.Some? ==> birth <= range.value.lte.value))
  }

  /** Completed years: the difference of the years, less one before the birthday. */
  function Age(birth: Civil, today: Civil): int {
    today.year - birth.year
    - (if today.month < birth.month || (today.month == birth.month && today.day < birth.day) then 1 else 0)
  }

  predicate InAgeRange(minAge: Option<int>, maxAge: Option<int>, age: int) {
    (minAge.Some? ==> minAge.value <= age) && (maxAge.Some? ==> age <= maxAge.value)
  }

  /** Years that `Date.UTC` takes as they are. */
  predicate IsFullYear(y: int) { !(0 <= y <= 99) }

  /** The anniversary, moved to the end of the month when that year has no such day. */
  function Anniversary(today: Civil, yearsAgo: int): Civil
    requires 0 <= today.month < 12
  {
    var year := today.year - yearsAgo;
    Civil(year, today.month, Earlier(today.day, DaysInMonth(year, today.month)))
  }

  lemma AnniversaryIsDate(today: Civil, yearsAgo: int)
    requires IsDate(today)
    ensures IsDate(Anniversary(today, yearsAgo))
  {
  }

  lemma BoundaryUsesTheFullYear(today: Civil, yearsAgo: int)
    requires IsDate(today)
    ensures var shifted := Anniversary(today.(year := FullYear(today.year - yearsAgo)), 0);
      AnniversaryDay(today, yearsAgo) == ToDay(shifted) && IsDate(shifted)
  {
    hide FromDay, MakeDay, FullYear;
    var year := FullYear(today.year - yearsAgo);
    DayZeroOfNextMonth(year, today.month);
    hide MonthStart, IsLeap;
  }

  /** The boundary is the anniversary exactly when `Date.UTC` takes the target year as it is. */
  lemma BoundaryIsTheAnniversary(today: Civil, yearsAgo: int)
    requires IsDate(today)
    ensures AnniversaryDay(today, yearsAgo) == ToDay(Anniversary(today, yearsAgo)) <==> IsFullYear(today.year - yearsAgo)
  {
    hide AnniversaryDay, FromDay, ToDay;
    var shifted := Anniversary(today.(year := FullYear(today.year - yearsAgo)), 0);
    var anniversary := Anniversary(today, yearsAgo);
    BoundaryUsesTheFullYear(today, yearsAgo);
    AnniversaryIsDate(today, yearsAgo);
    FromDayOfDate(shifted);
    FromDayOfDate(anniversary);
  }

  /** At least so old means born on or before that anniversary, 29 February on either side included. */
  lemma OldEnoughByTheAnniversary(birth: Civil, today: Civil, years: int)
    requires IsDate(birth) && IsDate(today)
    ensures Precedes(birth, Anniversary(today, years)) <==> years <= Age(birth, today)
  {
  }

  lemma EndOfDay(day: int, boundary: int)
    ensures day * MS_PER_DAY <= boundary * MS_PER_DAY + 86_399_999 <==> day <= boundary
  {
  }

  /** The years that the boundary stands for: 1900 fewer when `Date.UTC` moves the target year. */
  function ComputedYears(today: Civil, years: int): int { today.year - FullYear(today.year - years) }

  lemma BoundaryIsSomeAnniversary(today: Civil, years: int)
    requires IsDate(today)
    ensures AnniversaryDay(today, years) == ToDay(Anniversary(today, ComputedYears(today, years)))
    ensures ComputedYears(today, years) == (if IsFullYear(today.year - years) then years else years - 1900)
  {
    hide AnniversaryDay, ToDay;
    BoundaryUsesTheFullYear(today, years);
  }

  lemma BoundaryDecidesAge(birthDay: int, reference: int, years: int)
    ensures birthDay * MS_PER_DAY <= AnniversaryBoundary(reference, years)
        <==> ComputedYears(DateOf(reference), years) <= Age(FromDay(birthDay), DateOf(reference))
  {
    hide AnniversaryDay, FromDay, ToDay, Age, Anniversary, ComputedYears, Precedes;
    var birth, today := FromDay(birthDay), DateOf(reference);
    var computed := ComputedYears(today, years);
    BoundaryIsSomeAnniversary(today, years);
    AnniversaryIsDate(today, computed);
    EndOfDay(birthDay, AnniversaryDay(today, years));
    ToDayOfFromDay(birthDay);
    DayOrder(birth, Anniversary(today, computed));
    OldEnoughByTheAnniversary(birth, today, computed);
  }

  function ComputedMin(minAge: Option<int>, reference: int): Option<int> {
    if minAge == None then None else Some(ComputedYears(DateOf(reference), minAge.value))
  }

  function ComputedMax(maxAge: Option<int>, reference: int): Option<int> {
    if maxAge == None then None else Some(ComputedYears(DateOf(reference), maxAge.value + 1) - 1)
  }

  lemma LowerBoundIsComputed(birthDay: int, reference: int, minAge: Option<int>, maxAge: Option<int>)
    requires minAge.Some?
    ensures birthDay * MS_PER_DAY <= BuildBirthDateRange(minAge, maxAge, reference).value.lte.value
        <==> ComputedMin(minAge, reference).value <= Age(FromDay(birthDay), DateOf(reference))
  {
    hide AnniversaryBoundary, FromDay, Age, ComputedYears;
    BoundaryDecidesAge(birthDay, reference, minAge.value);
  }

  lemma UpperBoundIsComputed(birthDay: int, reference: int, minAge: Option<int>, maxAge: Option<int>)
    requires maxAge.Some?
    ensures BuildBirthDateRange(minAge, maxAge, reference).value.gt.value < birthDay * MS_PER_DAY
        <==> Age(FromDay(birthDay), DateOf(reference)) <= ComputedMax(maxAge, reference).value
  {
    hide AnniversaryBoundary, FromDay, Age, ComputedYears;
    BoundaryDecidesAge(birthDay, reference, maxAge.value + 1);
  }

  /** For all bounds and dates: a birth date lies in the window exactly when the age lies between the computed bounds. */
  lemma WindowMeaning(birthDay: int, reference: int, minAge: Option<int>, maxAge: Option<int>)
    ensures InRange(BuildBirthDateRange(minAge, maxAge, reference), birthDay * MS_PER_DAY)
        <==> InAgeRange(ComputedMin(minAge, reference), ComputedMax(maxAge, reference), Age(FromDay(birthDay), DateOf(reference)))
  {
    hide AnniversaryBoundary, FromDay, Age, ComputedYears;
    if minAge.Some? { LowerBoundIsComputed(birthDay, reference, minAge, maxAge); }
    if maxAge.Some? { UpperBoundIsComputed(birthDay, reference, minAge, maxAge); }
  }

  // ----- when the window is exact

  /** `Date.UTC` takes the target years of both bounds as they are. */
  predicate TargetYearsAreFull(minAge: Option<int>, maxAge: Option<int>, reference: int) {
    && (minAge.Some? ==> IsFullYear(DateOf(reference).year - minAge.value))
    && (maxAge.Some? ==> IsFullYear(DateOf(reference).year - (maxAge.value + 1)))
  }

  predicate IsEmptyRange(minAge: Option<int>, maxAge: Option<int>) {
    minAge.Some? && maxAge.Some? && maxAge.value < minAge.value
  }

  lemma ComputedBounds(minAge: Option<int>, maxAge: Option<int>, reference: int)
    ensures ComputedMin(minAge, reference) == minAge
         || (minAge.Some? && ComputedMin(minAge, reference) == Some(minAge.value - 1900))
    ensures ComputedMax(maxAge, reference) == maxAge
         || (maxAge.Some? && ComputedMax(maxAge, reference) == Some(maxAge.value - 1900))
    ensures TargetYearsAreFull(minAge, maxAge, reference)
        <==> ComputedMin(minAge, reference) == minAge && ComputedMax(maxAge, reference) == maxAge
  {
    hide FromDay;
  }

  /** Two different ranges, of which one at least is not empty, are told apart by some age. */
  lemma SomeAgeTellsApart(minAge: Option<int>, maxAge: Option<int>, low: Option<int>, high: Option<int>) returns (age: int)
    requires low == minAge || (minAge.Some? && low == Some(minAge.value - 1900))
    requires high == maxAge || (maxAge.Some? && high == Some(maxAge.value - 1900))
    requires !(low == minAge && high == maxAge) && !(IsEmptyRange(minAge, maxAge) && IsEmptyRange(low, high))
    ensures InAgeRange(minAge, maxAge, age) != InAgeRange(low, high, age)
  {
    if IsEmptyRange(minAge, maxAge) {
      age := low.value;
    } else if IsEmptyRange(low, high) {
      age := minAge.value;
    } else if low != minAge {
      age := low.value;
    } else {
      age := maxAge.value;
    }
  }

  /** Somebody has any age: whoever was born on the first of January so many years ago. */
  lemma EveryAgeOccurs(age: int, reference: int) returns (birthDay: int)
    ensures Age(FromDay(birthDay), DateOf(reference)) == age
  {
    hide FromDay, ToDay;
    var today := DateOf(reference);
    var birth := Civil(today.year - age, 0, 1);
    FirstOfJanuaryIsDate(birth.year);
    FromDayOfDate(birth);
    birthDay := ToDay(birth);
  }

  lemma FirstOfJanuaryIsDate(year: int)
    ensures IsDate(Civil(year, 0, 1))
  {
  }

  /** The window classifies the birth date as its age says. */
  predicate ClassifiedRightly(minAge: Option<int>, maxAge: Option<int>, reference: int, birthDay: int) {
    InRange(BuildBirthDateRange(minAge, maxAge, reference), birthDay * MS_PER_DAY)
    <==> InAgeRange(minAge, maxAge, Age(FromDay(birthDay), DateOf(reference)))
  }

  /**
   * The window is exact, for birth dates stored as midnight of their day, if and only if `Date.UTC` takes the
   * target years as they are, or the ages asked for and the computed ones are both empty ranges.
   */
  lemma WindowIsExact(minAge: Option<int>, maxAge: Option<int>, reference: int)
    ensures (forall birthDay :: ClassifiedRightly(minAge, maxAge, reference, birthDay)) <==>
      || TargetYearsAreFull(minAge, maxAge, reference)
      || (IsEmptyRange(minAge, maxAge) && IsEmptyRange(ComputedMin(minAge, reference), ComputedMax(maxAge, reference)))
  {
    hide FromDay, Age, BuildBirthDateRange, InRange, ComputedMin, ComputedMax, TargetYearsAreFull, DateOf;
    var low, high := ComputedMin(minAge, reference), ComputedMax(maxAge, reference);
    ComputedBounds(minAge, maxAge, reference);
    if TargetYearsAreFull(minAge, maxAge, reference) || (IsEmptyRange(minAge, maxAge) && IsEmptyRange(low, high)) {
      forall birthDay ensures ClassifiedRightly(minAge, maxAge, reference, birthDay) {
        WindowMeaning(birthDay, reference, minAge, maxAge);
      }
    } else {
      var age := SomeAgeTellsApart(minAge, maxAge, low, high);
      var birthDay := EveryAgeOccurs(age, reference);
      WindowMeaning(birthDay, reference, minAge, maxAge);
      assert !ClassifiedRightly(minAge, maxAge, reference, birthDay);
    }
  }
}
