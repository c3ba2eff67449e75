/** The dates of an imported spreadsheet: which cells are accepted, and the text they are stored as. */
module DateParsing {
  import opened Basics
  import opened EcmaCalendar
  import opened Text
  import opened BirthDateWindow

  /** A cell holds nothing, something printed as text, or a point in time (`None` is an invalid one). */
  datatype Cell = EmptyCell | TextCell(text: string) | TimeCell(ms: Option<int>)

  datatype Parsed = NoDate | BadDate | Date(iso: string)

  /** Year, month and day as the cell gives them, the month counted from 0; `Unreadable` is three times NaN. */
  datatype Parts = Absent | Unreadable | Parts(date: Civil)

  predicate IsBlank(cell: Cell) {
    match cell
    case EmptyCell => true
    case TextCell(text) => Trim(text) == ""
    case TimeCell(_) => false
  }

  predicate HasIsoForm(s: string) {
    && |s| == 10 && s[4] == '-' && s[7] == '-'
    && AllDigits(s[..4]) && AllDigits(s[5..7]) && AllDigits(s[8..])
  }

  predicate HasBrazilianForm(s: string) {
    && |s| == 10 && s[2] == '/' && s[5] == '/'
    && AllDigits(s[..2]) && AllDigits(s[3..5]) && AllDigits(s[6..])
  }

  function IsoParts(s: string): Civil
    requires HasIsoForm(s)
  {
    Civil(Number(s[..4]), Number(s[5..7]) - 1, Number(s[8..]))
  }

  function BrazilianParts(s: string): Civil
    requires HasBrazilianForm(s)
  {
    Civil(Number(s[6..]), Number(s[3..5]) - 1, Number(s[..2]))
  }

  function TextParts(s: string): Parts {
    if HasIsoForm(s) then Parts(IsoParts(s))
    else if HasBrazilianForm(s) then Parts(BrazilianParts(s))
    else Unreadable
  }

  function DateParts(cell: Cell): Parts {
    match cell
    case EmptyCell => Absent
    case TextCell(text) => if Trim(text) == "" then Absent else TextParts(Trim(text))
    case TimeCell(None) => Absent
    case TimeCell(Some(ms)) => Parts(DateOf(ms))
  }

  /** `toISOString` up to the day: four digits of the year, or a sign and six. */
  function Iso(c: Civil): (s: string)
    requires IsDate(c)
    ensures |s| >= 10
  {
    var year := if 0 <= c.year <= 9999 then Padded(c.year, 4)
                else if c.year < 0 then "-" + Padded(-c.year, 6) else "+" + Padded(c.year, 6);
    year + "-" + Padded(c.month + 1, 2) + "-" + Padded(c.day, 2)
  }

  function TodayUtc(today: int): int {
    var c := DateOf(today);
    UtcDay(c.year, c.month, c.day)
  }

  function NormalizeDate(cell: Cell, today: int): Parsed {
    if IsBlank(cell) then NoDate
    else match DateParts(cell)
      case Absent => NoDate
      case Unreadable => BadDate
      case Parts(parts) =>
        var day := UtcDay(parts.year, parts.month, parts.day);
        if FromDay(day) != parts then BadDate
        else if day > TodayUtc(today) then BadDate
        else Date(Iso(FromDay(day))[..10])
  }

  // ----- which parts survive `Date.UTC`

  lemma FullYearsAreLater(day: int, y: int)
    requires DayFromYear(y) <= day
    ensures y <= FromDay(day).year
  {
    hide DayFromYear;
    YearLength(YearOf(day));
    if YearOf(day) < y { LaterYearsStartLater(YearOf(day) + 1, y); }
  }

  lemma MonthStartsAreNatural(month: int, leap: bool)
    requires 0 <= month <= 12
    ensures 0 <= MonthStart(month, leap)
  {
  }

  /** Exactly the real dates outside the years 0 to 99 come back from `Date.UTC` as they went in. */
  lemma SurvivesUtc(c: Civil)
    ensures FromDay(UtcDay(c.year, c.month, c.day)) == c <==> IsDate(c) && IsFullYear(c.year)
  {
    if IsDate(c) {
      if IsFullYear(c.year) {
        assert UtcDay(c.year, c.month, c.day) == ToDay(c);
        FromDayOfDate(c);
      } else {
        ShortYearsMove(c);
      }
    }
  }

  lemma ShortYearsMove(c: Civil)
    requires IsDate(c) && !IsFullYear(c.year)
    ensures FromDay(UtcDay(c.year, c.month, c.day)).year >= 1900
  {
    hide DayFromYear, MonthStart, FromDay;
    assert c.month / 12 == 0 && c.month % 12 == c.month;
    MonthStartsAreNatural(c.month, IsLeap(FullYear(c.year)));
    assert DayFromYear(FullYear(c.year)) <= UtcDay(c.year, c.month, c.day);
    FullYearsAreLater(UtcDay(c.year, c.month, c.day), FullYear(c.year));
  }

  /** The clock's own day is found exactly when its year is outside 0 to 99. */
  lemma TodayIsToday(today: int)
    ensures TodayUtc(today) == today / 86_400_000 <==> !(0 <= Counted(today / 86_400_000).year <= 99)
  {
    hide FromDay, Counted;
    FromDayCounts(today / MS_PER_DAY);
    SurvivesUtc(DateOf(today));
    ToDayOfFromDay(today / MS_PER_DAY);
  }

  lemma AcceptedParts(cell: Cell, today: int)
    requires DateParts(cell).Parts?
    ensures var c := DateParts(cell).date;
      && (NormalizeDate(cell, today).Date? <==> IsDate(c) && IsFullYear(c.year) && ToDay(c) <= TodayUtc(today))
      && (NormalizeDate(cell, today).Date? ==> NormalizeDate(cell, today).iso == Iso(c)[..10])
  {
    hide FromDay, Iso, TodayUtc, DateOf;
    SurvivesUtc(DateParts(cell).date);
  }

  // ----- dates and their printed forms

  function Brazilian(c: Civil): string
    requires IsDate(c) && 0 <= c.year <= 9999
  {
    Padded(c.day, 2) + "/" + Padded(c.month + 1, 2) + "/" + Padded(c.year, 4)
  }

  lemma DatesAreSmall(c: Civil)
    requires IsDate(c)
    ensures 0 < c.day < 100 && 0 < c.month + 1 < 100
  {
  }

  lemma Powers()
    ensures Power10(2) == 100 && Power10(4) == 10_000 && Power10(6) == 1_000_000
  {
    assert Power10(2) == 10 * Power10(1) && Power10(4) == 10 * Power10(3) && Power10(3) == 10 * Power10(2);
    assert Power10(6) == 10 * Power10(5) && Power10(5) == 10 * Power10(4);
  }

  lemma PrintedFieldsAreRead(c: Civil)
    requires IsDate(c) && 0 <= c.year <= 9999
    ensures Number(Padded(c.year, 4)) == c.year
    ensures Number(Padded(c.month + 1, 2)) == c.month + 1
    ensures Number(Padded(c.day, 2)) == c.day
  {
    hide Number, Padded, Power10;
    DatesAreSmall(c);
    Powers();
    NumberOfPadded(c.year, 4);
    NumberOfPadded(c.month + 1, 2);
    NumberOfPadded(c.day, 2);
  }

  /** A printed ISO date is read as the date it prints. */
  lemma IsoIsRead(c: Civil)
    requires IsDate(c) && 0 <= c.year <= 9999
    ensures HasIsoForm(Iso(c)) && IsoParts(Iso(c)) == c
  {
    hide Number, Padded, IsDate;
    DatesAreSmall(c);
    var s := Iso(c);
    assert s[..4] == Padded(c.year, 4) && s[5..7] == Padded(c.month + 1, 2) && s[8..] == Padded(c.day, 2);
    PrintedFieldsAreRead(c);
  }

  lemma BrazilianIsRead(c: Civil)
    requires IsDate(c) && 0 <= c.year <= 9999
    ensures !HasIsoForm(Brazilian(c)) && HasBrazilianForm(Brazilian(c)) && BrazilianParts(Brazilian(c)) == c
  {
    hide Number, Padded, IsDate;
    DatesAreSmall(c);
    var s := Brazilian(c);
    assert s[..2] == Padded(c.day, 2) && s[3..5] == Padded(c.month + 1, 2) && s[6..] == Padded(c.year, 4);
    assert s[4] != '-';
    PrintedFieldsAreRead(c);
  }

  /** A text in ISO form that reads as a date is the print of that date. */
  lemma IsoIsPrinted(s: string)
    requires HasIsoForm(s) && IsDate(IsoParts(s))
    ensures 0 <= IsoParts(s).year <= 9999 && Iso(IsoParts(s)) == s
  {
    hide Number, Padded, IsDate, Power10;
    Powers();
    PaddedNumber(s[..4]);
    PaddedNumber(s[5..7]);
    PaddedNumber(s[8..]);
    assert s == s[..4] + "-" + s[5..7] + "-" + s[8..];
  }

  lemma BrazilianIsPrinted(s: string)
    requires HasBrazilianForm(s) && IsDate(BrazilianParts(s))
    ensures 0 <= BrazilianParts(s).year <= 9999 && Brazilian(BrazilianParts(s)) == s
  {
    hide Number, Padded, IsDate, Power10;
    Powers();
    PaddedNumber(s[..2]);
    PaddedNumber(s[3..5]);
    PaddedNumber(s[6..]);
    assert s == s[..2] + "/" + s[3..5] + "/" + s[6..];
  }

  // ----- what is accepted

  /** A real date from the year 100 that is not after today. */
  predicate IsImportable(c: Civil, today: int) {
    IsDate(c) && 100 <= c.year <= 9999 && ToDay(c) <= TodayUtc(today)
  }

  predicate Denotes(text: string, c: Civil) {
    IsDate(c) && 0 <= c.year <= 9999 && (text == Iso(c) || text == Brazilian(c))
  }

  lemma DenotedParts(text: string, c: Civil)
    requires Denotes(text, c)
    ensures TextParts(text) == Parts(c) && text != ""
  {
    hide Number, Padded, IsDate;
    if text == Iso(c) { IsoIsRead(c); } else { BrazilianIsRead(c); }
  }

  lemma PartsAreDenoted(text: string)
    requires TextParts(text).Parts? && IsDate(TextParts(text).date)
    ensures Denotes(text, TextParts(text).date)
  {
    hide Number, Padded, IsDate;
    if HasIsoForm(text) { IsoIsPrinted(text); } else { BrazilianIsPrinted(text); }
  }

  lemma FourDigitIso(c: Civil)
    requires IsDate(c) && 0 <= c.year <= 9999
    ensures |Iso(c)| == 10 && Iso(c)[..10] == Iso(c) && Trim(Iso(c)) == Iso(c)
  {
    hide Number, Padded, IsDate;
    DatesAreSmall(c);
    var s := Iso(c);
    assert s[0] == Padded(c.year, 4)[0] && s[9] == Padded(c.day, 2)[1];
    TrimIsIdempotent(s);
  }

  /**
   * A text is accepted exactly when it is the ISO or the day/month/year print of a real date of the
   * year 100 or later that is not after today, and then it is stored as the ISO print of that date.
   */
  lemma TextsAcceptedExactly(text: string, today: int, iso: string)
    ensures NormalizeDate(TextCell(text), today) == Date(iso)
        <==> exists c :: IsImportable(c, today) && Denotes(Trim(text), c) && iso == Iso(c)
  {
    hide TextParts, Iso, Denotes, ToDay, IsDate, TodayUtc;
    var cell := TextCell(text);
    if c :| IsImportable(c, today) && Denotes(Trim(text), c) && iso == Iso(c) {
      DenotedParts(Trim(text), c);
      AcceptedParts(cell, today);
      FourDigitIso(c);
    }
    if NormalizeDate(cell, today) == Date(iso) {
      AcceptedParts(cell, today);
      var c := DateParts(cell).date;
      PartsAreDenoted(Trim(text));
      DenotedYear(Trim(text), c);
      FourDigitIso(c);
      assert IsImportable(c, today) && Denotes(Trim(text), c) && iso == Iso(c);
    }
  }

  lemma DenotedYear(text: string, c: Civil)
    requires Denotes(text, c)
    ensures IsDate(c) && 0 <= c.year <= 9999
  {
  }

  /** A point in time is accepted exactly when its day is not after today and outside the years 0 to 99. */
  lemma TimesAcceptedExactly(ms: int, today: int)
    ensures var c := Counted(ms / 86_400_000);
      && IsDate(c)
      && (NormalizeDate(TimeCell(Some(ms)), today).Date?
          <==> !(0 <= c.year <= 99) && ms / 86_400_000 <= TodayUtc(today))
      && (NormalizeDate(TimeCell(Some(ms)), today).Date? && 0 <= c.year <= 9999
          ==> NormalizeDate(TimeCell(Some(ms)), today) == Date(Iso(c)))
  {
    hide FromDay, Iso, TodayUtc, ToDay, Counted, IsDate;
    FromDayCounts(ms / MS_PER_DAY);
    AcceptedParts(TimeCell(Some(ms)), today);
    ToDayOfFromDay(ms / MS_PER_DAY);
    if 0 <= DateOf(ms).year <= 9999 { FourDigitIso(DateOf(ms)); }
  }

  predicate HasSignedMonthForm(s: string) {
    |s| == 10 && (s[0] == '-' || s[0] == '+') && AllDigits(s[1..7]) && s[7] == '-' && AllDigits(s[8..])
  }

  /** The day that the insert reads from the stored text: a text without a day is read as the first of its month. */
  function StoredDay(iso: string): Option<int> {
    if HasIsoForm(iso) then Some(ToDay(IsoParts(iso)))
    else if HasSignedMonthForm(iso) then
      var year: int := Number(iso[1..7]);
      Some(ToDay(Civil(if iso[0] == '-' then -year else year, Number(iso[8..]) - 1, 1)))
    else None
  }

  /** A signed print, cut off after ten characters, ends with the month. */
  lemma CutOff(sign: string, year: string, month: string, day: string)
    requires |sign| == 1 && |year| == 6 && |month| == 2
    ensures var s := (sign + year + "-" + month + "-" + day)[..10];
      && |s| == 10 && s[0] == sign[0] && s[1..7] == year && s[7] == '-' && s[8..] == month
  {
    var s := (sign + year + "-" + month + "-" + day)[..10];
    assert s == sign + year + "-" + month;
  }

  lemma SignedTextsAreNotIso(s: string)
    requires |s| == 10 && (s[0] == '-' || s[0] == '+')
    ensures !HasIsoForm(s)
  {
    assert s[..4][0] == s[0] && !IsDigit(s[0]);
  }

  lemma SignedMonthIsRead(c: Civil)
    requires IsDate(c) && -1_000_000 < c.year < 1_000_000 && !(0 <= c.year <= 9999)
    ensures HasSignedMonthForm(Iso(c)[..10]) && StoredDay(Iso(c)[..10]) == Some(ToDay(c.(day := 1)))
  {
    hide Number, Padded, IsDate, ToDay, Power10, HasIsoForm;
    DatesAreSmall(c);
    Powers();
    var size := if c.year < 0 then -c.year else c.year;
    var sign := if c.year < 0 then "-" else "+";
    NumberOfPadded(size, 6);
    NumberOfPadded(c.month + 1, 2);
    assert Iso(c) == sign + Padded(size, 6) + "-" + Padded(c.month + 1, 2) + "-" + Padded(c.day, 2);
    CutOff(sign, Padded(size, 6), Padded(c.month + 1, 2), Padded(c.day, 2));
    SignedTextsAreNotIso(Iso(c)[..10]);
  }

  /**
   * The day that a cell shows, counted on the calendar. A year without four digits is cut off with its day, which
   * leaves the first of the month.
   */
  predicate IsDayOf(cell: Cell, day: Option<int>) {
    match cell
    case EmptyCell => day == None
    case TextCell(text) => if Trim(text) == "" then day == None else day.Some? && Denotes(Trim(text), Counted(day.value))
    case TimeCell(None) => day == None
    case TimeCell(Some(ms)) =>
      var c := Counted(ms / 86_400_000);
      && (0 <= c.year <= 9999 ==> day == Some(ms / 86_400_000))
      && (!(0 <= c.year <= 9999) && -1_000_000 < c.year < 1_000_000 ==>
            day.Some? && Counted(day.value) == Civil(c.year, c.month, 1))
  }

  lemma StoredParts(cell: Cell, today: int)
    requires DateParts(cell).Parts? && -1_000_000 < DateParts(cell).date.year < 1_000_000
    ensures var c := DateParts(cell).date;
      NormalizeDate(cell, today).Date? ==>
        StoredDay(NormalizeDate(cell, today).iso) == Some(ToDay(if 0 <= c.year <= 9999 then c else c.(day := 1)))
  {
    hide FromDay, Iso, TodayUtc, ToDay, IsDate, Number;
    var c := DateParts(cell).date;
    AcceptedParts(cell, today);
    if !NormalizeDate(cell, today).Date? { return; }
    if 0 <= c.year <= 9999 {
      FourDigitIso(c);
      IsoIsRead(c);
    } else {
      SignedMonthIsRead(c);
    }
  }

  lemma CountedDates(c: Civil)
    requires IsDate(c)
    ensures Counted(ToDay(c)) == c
  {
    hide FromDay, ToDay;
    FromDayOfDate(c);
    FromDayCounts(ToDay(c));
  }

  lemma FirstOfMonth(c: Civil)
    requires IsDate(c)
    ensures IsDate(c.(day := 1))
  {
    hide MonthStart, IsLeap;
  }

  lemma StoredTimes(ms: int, today: int)
    requires NormalizeDate(TimeCell(Some(ms)), today).Date?
    ensures IsDayOf(TimeCell(Some(ms)), StoredDay(NormalizeDate(TimeCell(Some(ms)), today).iso))
  {
    hide NormalizeDate, StoredDay, FromDay, ToDay, Counted, IsDate;
    var day := ms / MS_PER_DAY;
    FromDayCounts(day);
    ToDayOfFromDay(day);
    if -1_000_000 < FromDay(day).year < 1_000_000 {
      StoredParts(TimeCell(Some(ms)), today);
      FirstOfMonth(FromDay(day));
      CountedDates(FromDay(day).(day := 1));
    }
  }

  lemma StoredTexts(text: string, today: int)
    requires NormalizeDate(TextCell(text), today).Date?
    ensures IsDayOf(TextCell(text), StoredDay(NormalizeDate(TextCell(text), today).iso))
  {
    hide FromDay, TodayUtc, ToDay, Iso, Counted, TextParts, Denotes, IsDate, StoredDay;
    var c := DateParts(TextCell(text)).date;
    AcceptedParts(TextCell(text), today);
    PartsAreDenoted(Trim(text));
    DenotedYear(Trim(text), c);
    StoredParts(TextCell(text), today);
    CountedDates(c);
  }

  /** An accepted cell is stored as the day that it shows, and an empty one as none. */
  lemma StoredDayIsTheDay(cell: Cell, today: int)
    ensures match NormalizeDate(cell, today)
      case Date(iso) => IsDayOf(cell, StoredDay(iso))
      case NoDate => IsDayOf(cell, None)
      case BadDate => true
  {
    hide NormalizeDate, IsDayOf, StoredDay;
    if NormalizeDate(cell, today).Date? {
      match cell
      case TextCell(text) => StoredTexts(text, today);
      case TimeCell(Some(ms)) => StoredTimes(ms, today);
      case _ => EmptyCells(cell, today);
    } else {
      EmptyCells(cell, today);
    }
  }

  lemma EmptyCells(cell: Cell, today: int)
    ensures NormalizeDate(cell, today) == NoDate ==> IsDayOf(cell, None)
    ensures NormalizeDate(cell, today).Date? ==> cell.TextCell? || (cell.TimeCell? && cell.ms.Some?)
  {
    hide FromDay, UtcDay, TodayUtc, Iso, Counted, Number;
  }

  lemma SignedYearsHaveNoForm(c: Civil)
    requires IsDate(c) && !(0 <= c.year <= 9999)
    ensures Iso(c) != "" && (Iso(c)[0] == '-' || Iso(c)[0] == '+') && |Iso(c)| == 13
  {
    hide IsDate;
  }

  lemma SignedTextsAreRefused(s: string, today: int)
    requires |s| == 10 && (s[0] == '-' || s[0] == '+')
    ensures NormalizeDate(TextCell(s), today) != Date(s)
  {
    hide Trim, Number, FromDay, UtcDay, TodayUtc, Iso, IsDate;
    assert !IsDigit(s[0]) && s[..4][0] == s[0] && s[..2][0] == s[0];
    if Trim(s) != s { TrimIsShorter(s); }
  }

  lemma TrimIsShorter(s: string)
    ensures Trim(s) == s || |Trim(s)| < |s|
  {
  }

  /**
   * Importing the stored text again gives the same text exactly when the year has four digits. Other
   * years come only from points in time; their text is cut off in the middle.
   */
  lemma NormalizingAgainIsTheIdentity(cell: Cell, today: int)
    ensures var first := NormalizeDate(cell, today);
      first.Date? ==> (NormalizeDate(TextCell(first.iso), today) == first <==> 0 <= DateParts(cell).date.year <= 9999)
  {
    hide FromDay, Iso, TodayUtc, ToDay, IsDate, TextParts;
    if !NormalizeDate(cell, today).Date? { return; }
    var c := DateParts(cell).date;
    AcceptedParts(cell, today);
    if 0 <= c.year <= 9999 {
      FourDigitIso(c);
      DenotesItsPrint(c);
      DenotedParts(Iso(c), c);
      AcceptedParts(TextCell(Iso(c)), today);
    } else {
      SignedYearsHaveNoForm(c);
      SignedTextsAreRefused(Iso(c)[..10], today);
    }
  }

  lemma DenotesItsPrint(c: Civil)
    requires IsDate(c) && 0 <= c.year <= 9999
    ensures Denotes(Iso(c), c)
  {
  }
}
