/** The calendar check of the contract validator: a date is written to a day number and read back, and only what comes
    back unchanged is accepted. Day numbers follow sections 21.4.1 and 21.4.3.4 of ECMA-262. */
module CalendarDate {
  import opened Basics
  import opened JourneyDomain
  import opened JourneyDatabase

  // ---- years and months as stretches of days ---

  predicate Leap(year: int) {
    year % 4 == 0 && (year % 100 != 0 || year % 400 == 0)
  }

  /** Days from 1 January 1970 to 1 January of the year. */
  function DayFromYear(year: int): int {
    365 * (year - 1970) + (year - 1969) / 4 - (year - 1901) / 100 + (year - 1601) / 400
  }

  /** Days from the start of the year to the start of month `month`, where 0 is January and 12 the next January. */
  function DaysBefore(leap: bool, month: nat): nat
    requires month <= 12
  {
    [0, 31, 59, 90, 120, 151, 181, 212, 243, 273, 304, 334, 365][month] + if leap && month >= 2 then 1 else 0
  }

  function MonthLength(leap: bool, month: nat): nat
    requires month < 12
  {
    if month == 1 then if leap then 29 else 28
    else if month == 3 || month == 5 || month == 8 || month == 10 then 30
    else 31
  }

  lemma MonthStep(leap: bool, month: nat)
    requires month < 12
    ensures DaysBefore(leap, month + 1) == DaysBefore(leap, month) + MonthLength(leap, month)
  {
    assert month == 0 || month == 1 || month == 2 || month == 3 || month == 4 || month == 5 ||
           month == 6 || month == 7 || month == 8 || month == 9 || month == 10 || month == 11;
  }

  lemma LeapDays(leap: bool)
    ensures DaysBefore(leap, 0) == 0
    ensures DaysBefore(leap, 12) == if leap then 366 else 365
  {
  }

  lemma YearLength(year: int)
    ensures DayFromYear(year + 1) == DayFromYear(year) + DaysBefore(Leap(year), 12)
    ensures DaysBefore(Leap(year), 12) >= 365
  {
    LeapDays(Leap(year));
    FourYears(year);
    Century(year);
    FourCenturies(year);
  }

  lemma FourYears(year: int)
    ensures (year - 1968) / 4 == (year - 1969) / 4 + if year % 4 == 0 then 1 else 0
  {
  }

  lemma Century(year: int)
    ensures (year - 1900) / 100 == (year - 1901) / 100 + if year % 100 == 0 then 1 else 0
    ensures year % 100 == 0 ==> year % 4 == 0
  {
  }

  lemma FourCenturies(year: int)
    ensures (year - 1600) / 400 == (year - 1601) / 400 + if year % 400 == 0 then 1 else 0
    ensures year % 400 == 0 ==> year % 100 == 0
  {
  }

  lemma {:induction false} YearsGrow(early: int, late: int)
    requires early <= late
    ensures DayFromYear(early) + 365 * (late - early) <= DayFromYear(late)
    decreases late - early
  {
    hide DayFromYear, DaysBefore, Leap;
    if early < late {
      YearLength(early);
      YearsGrow(early + 1, late);
    }
  }

  lemma {:induction false} MonthsGrow(leap: bool, early: nat, late: nat)
    requires early < late <= 12
    ensures DaysBefore(leap, early) + MonthLength(leap, early) <= DaysBefore(leap, late)
  {
    hide DaysBefore, MonthLength;
    MonthStep(leap, late - 1);
    if early + 1 < late {
      MonthsGrow(leap, early, late - 1);
    }
  }

  // ---- from a date to a day number and back ---

  /** MakeDay: months outside 0 to 11 carry into the year, and any day number is counted from the first. */
  function MakeDay(year: int, month: int, day: int): (time: int) {
    DayFromYear(year + month / 12) + DaysBefore(Leap(year + month / 12), month % 12) + day - 1
  }

  /** Date.UTC: the years 0 to 99 mean 1900 to 1999. */
  function DateUtc(year: int, month: int, day: int): int {
    MakeDay(if 0 <= year <= 99 then 1900 + year else year, month, day)
  }

  /** The largest year that does not begin after the day. */
  function YearOf(day: int): (year: int)
    ensures DayFromYear(year) <= day < DayFromYear(year + 1)
  {
    EarlyEnough(day);
    YearFrom(day, 1969 - if day < 0 then -day else 0)
  }

  lemma EarlyEnough(day: int)
    ensures DayFromYear(1969 - if day < 0 then -day else 0) <= day
  {
  }

  function YearFrom(day: int, year: int): (found: int)
    requires DayFromYear(year) <= day
    ensures DayFromYear(found) <= day < DayFromYear(found + 1)
    decreases day - DayFromYear(year)
  {
    YearsGrow(year, year + 1);
    if DayFromYear(year + 1) <= day then YearFrom(day, year + 1) else year
  }

  function MonthOf(leap: bool, dayInYear: nat): (month: nat)
    requires dayInYear < DaysBefore(leap, 12)
    ensures month < 12 && DaysBefore(leap, month) <= dayInYear < DaysBefore(leap, month + 1)
  {
    MonthFrom(leap, dayInYear, 0)
  }

  function MonthFrom(leap: bool, dayInYear: nat, month: nat): (found: nat)
    requires month < 12 && DaysBefore(leap, month) <= dayInYear < DaysBefore(leap, 12)
    ensures found < 12 && DaysBefore(leap, found) <= dayInYear < DaysBefore(leap, found + 1)
    decreases 12 - month
  {
    if DaysBefore(leap, month + 1) <= dayInYear then MonthFrom(leap, dayInYear, month + 1) else month
  }

  datatype Date = Date(year: int, month: int, day: int)

  /** getUTCFullYear, getUTCMonth and getUTCDate of the start of the day. */
  function ReadDay(day: int): Date {
    var year := YearOf(day);
    YearLength(year);
    var dayInYear := day - DayFromYear(year);
    var month := MonthOf(Leap(year), dayInYear);
    Date(year, month, dayInYear - DaysBefore(Leap(year), month) + 1)
  }

  /** A date of the Gregorian calendar, months counted from 0. */
  predicate RealDate(date: Date) {
    0 <= date.month < 12 && 1 <= date.day <= MonthLength(Leap(date.year), date.month)
  }

  // ---- the two are inverse ---

  /** Every day number reads as a real date, and that date counts back to the same day. */
  lemma ReadIsReal(day: int)
    ensures RealDate(ReadDay(day))
    ensures MakeDay(ReadDay(day).year, ReadDay(day).month, ReadDay(day).day) == day
  {
    hide DayFromYear, DaysBefore, MonthLength, Leap, YearOf, MonthOf;
    var date := ReadDay(day);
    YearLength(date.year);
    MonthStep(Leap(date.year), date.month);
    NoCarry(date.year, date.month);
  }

  lemma NoCarry(year: int, month: int)
    requires 0 <= month < 12
    ensures year + month / 12 == year && month % 12 == month
  {
  }

  /** Only one year holds a day. */
  lemma YearUnique(day: int, year: int)
    requires DayFromYear(year) <= day < DayFromYear(year + 1)
    ensures YearOf(day) == year
  {
    hide DayFromYear, YearOf;
    var found := YearOf(day);
    if found < year {
      YearsGrow(found + 1, year);
    } else if year < found {
      YearsGrow(year + 1, found);
    }
  }

  lemma MonthUnique(leap: bool, dayInYear: nat, month: nat)
    requires month < 12 && dayInYear < DaysBefore(leap, 12)
    requires DaysBefore(leap, month) <= dayInYear < DaysBefore(leap, month) + MonthLength(leap, month)
    ensures MonthOf(leap, dayInYear) == month
  {
    hide DaysBefore, MonthLength, MonthOf;
    var found := MonthOf(leap, dayInYear);
    if found < month {
      MonthsGrow(leap, found, month);
      MonthStep(leap, found);
    } else if month < found {
      MonthsGrow(leap, month, found);
    }
  }

  /** Every real date comes back from its day number. */
  lemma RealComesBack(date: Date)
    requires RealDate(date)
    ensures ReadDay(MakeDay(date.year, date.month, date.day)) == date
  {
    hide DayFromYear, DaysBefore, MonthLength, Leap, YearOf, MonthOf;
    NoCarry(date.year, date.month);
    var leap, day := Leap(date.year), MakeDay(date.year, date.month, date.day);
    MonthsGrow(leap, date.month, 12);
    YearLength(date.year);
    YearUnique(day, date.year);
    MonthUnique(leap, day - DayFromYear(date.year), date.month);
  }

  // ---- the check ---

  /** The largest distance from 1 January 1970, in days, at which a Date is still a number. */
  const LAST_DAY := 100_000_000

  predicate ValidDate(s: string) {
    LocalDate(s) &&
    var year, month, day := Number(s[..4]), Number(s[5..7]), Number(s[8..10]);
    var time := DateUtc(year, month - 1, day);
    -LAST_DAY <= time <= LAST_DAY && ReadDay(time) == Date(year, month - 1, day)
  }

  lemma {:induction false} NumberBelow(s: string)
    ensures |s| == 2 ==> Number(s) < 100
    ensures |s| == 4 ==> Number(s) < 10_000
  {
    if |s| == 2 {
      assert Number(s[..1]) < 10;
    } else if |s| == 4 {
      assert Number(s[..1]) < 10;
      assert s[..2][..1] == s[..1] && s[..3][..2] == s[..2];
      assert Number(s[..2]) < 100;
      assert Number(s[..3]) < 1_000;
    }
  }

  /** However far month and day overflow, a written date is well inside the range of a Date. */
  lemma InRange(year: int, month: int, day: int)
    requires 0 <= year < 10_000 && -1 <= month < 100 && 0 <= day < 100
    ensures -LAST_DAY <= DateUtc(year, month, day) <= LAST_DAY
  {
    hide DaysBefore, MonthLength, Leap;
    var y := (if 0 <= year <= 99 then 1900 + year else year) + month / 12;
    var leap := Leap(y);
    LeapDays(leap);
    MonthsGrow(leap, month % 12, 12);
    YearsGrow(-1, y);
    YearsGrow(y, 10_010);
  }

  /** A two-digit year never comes back: it was read as one of the twentieth century. */
  lemma CenturyLost(year: int, month: int, day: int)
    requires 0 <= year <= 99 && -1 <= month && 0 <= day
    ensures ReadDay(DateUtc(year, month, day)).year > 99
  {
    hide DaysBefore, MonthLength, Leap;
    var time := DateUtc(year, month, day);
    YearsGrow(1899, 1900 + year + month / 12);
    if YearOf(time) + 1 < 1899 {
      YearsGrow(YearOf(time) + 1, 1899);
    }
  }

  lemma LaterCentury(year: int, month: int, day: int)
    requires year > 99
    ensures DateUtc(year, month, day) == MakeDay(year, month, day)
  {
  }

  lemma SameMonths(year: int, month: int)
    requires 1 <= month <= 12
    ensures DaysIn(year, month) == MonthLength(Leap(year), month - 1)
  {
  }

  /** A four-two-two digit text is accepted exactly when it is a date of the Gregorian calendar in a year from 100 to
      9999; section 5.7 of RFC 3339 also allows the years 0000 to 0099. */
  lemma {:induction false} ValidDateExactly(s: string)
    ensures ValidDate(s) <==>
              LocalDate(s) && Number(s[..4]) >= 100 &&
              1 <= Number(s[5..7]) <= 12 && 1 <= Number(s[8..10]) <= DaysIn(Number(s[..4]), Number(s[5..7]))
  {
    hide DateUtc, ReadDay, Number, Leap;
    if LocalDate(s) {
      var year: int, month: int, day: int := Number(s[..4]), Number(s[5..7]), Number(s[8..10]);
      NumberBelow(s[..4]);
      NumberBelow(s[5..7]);
      NumberBelow(s[8..10]);
      InRange(year, month - 1, day);
      ReadIsReal(DateUtc(year, month - 1, day));
      if year <= 99 {
        CenturyLost(year, month - 1, day);
      } else {
        LaterCentury(year, month - 1, day);
        if month >= 1 && RealDate(Date(year, month - 1, day)) {
          RealComesBack(Date(year, month - 1, day));
        }
        if 1 <= month <= 12 {
          SameMonths(year, month);
        }
      }
    }
  }

  /** The server stores dates from year 1 on, so exactly its dates of the first century are refused here. */
  lemma {:induction false} RefusedServerDates(s: string)
    requires CalendarText(s)
    ensures ValidDate(s) <==> Number(s[..4]) >= 100
  {
    ValidDateExactly(s);
  }

  // ---- comparing dates as texts ---

  /** The day a date text names, counted from 1 January 1970. */
  function DayNumber(s: string): int
    requires CalendarText(s)
  {
    MakeDay(Number(s[..4]), Number(s[5..7]) - 1, Number(s[8..10]))
  }

  lemma {:induction false} BeforeSplit(a: string, b: string, n: nat)
    requires n <= |a| && n <= |b|
    ensures Before(a, b) <==> Before(a[..n], b[..n]) || (a[..n] == b[..n] && Before(a[n..], b[n..]))
  {
    if n > 0 {
      BeforeSplit(a[1..], b[1..], n - 1);
      assert a[..n][1..] == a[1..][..n - 1] && b[..n][1..] == b[1..][..n - 1];
      assert a[1..][n - 1..] == a[n..] && b[1..][n - 1..] == b[n..];
      assert a[..n] == [a[0]] + a[1..][..n - 1] && b[..n] == [b[0]] + b[1..][..n - 1];
    }
  }

  predicate Digits(s: string) {
    forall i | 0 <= i < |s| :: IsDigit(s[i])
  }

  /** Digits of equal length compare as the numbers they write. */
  lemma {:induction false} DigitsCompare(a: string, b: string)
    requires |a| == |b| && Digits(a) && Digits(b)
    ensures Before(a, b) <==> Number(a) < Number(b)
    ensures a == b <==> Number(a) == Number(b)
  {
    if a != "" {
      var n := |a| - 1;
      var x, y := a[..n], b[..n];
      DigitsCompare(x, y);
      BeforeSplit(a, b, n);
      assert a[n..] == [a[n]] && b[n..] == [b[n]];
      assert Before([a[n]], [b[n]]) <==> a[n] < b[n];
      assert a == x + [a[n]] && b == y + [b[n]];
      TenTimes(Number(x), Number(y), a[n] as int - '0' as int, b[n] as int - '0' as int);
    }
  }

  lemma TenTimes(x: nat, y: nat, c: int, d: int)
    requires 0 <= c < 10 && 0 <= d < 10
    ensures x * 10 + c < y * 10 + d <==> x < y || (x == y && c < d)
    ensures x * 10 + c == y * 10 + d <==> x == y && c == d
  {
  }

  /** Two dates compare as texts year first, then month, then day. */
  lemma TextCompare(a: string, b: string)
    requires LocalDate(a) && LocalDate(b)
    ensures Before(a, b) <==>
              || Number(a[..4]) < Number(b[..4])
              || (Number(a[..4]) == Number(b[..4]) &&
                  (Number(a[5..7]) < Number(b[5..7]) ||
                   (Number(a[5..7]) == Number(b[5..7]) && Number(a[8..10]) < Number(b[8..10]))))
  {
    hide Number;
    BeforeSplit(a, b, 4);
    DigitsCompare(a[..4], b[..4]);
    BeforeSplit(a[4..], b[4..], 1);
    assert a[4..][..1] == "-" == b[4..][..1] && a[4..][1..] == a[5..] && b[4..][1..] == b[5..];
    assert !Before("-", "-");
    BeforeSplit(a[5..], b[5..], 2);
    assert a[5..][..2] == a[5..7] && b[5..][..2] == b[5..7] && a[5..][2..] == a[7..] && b[5..][2..] == b[7..];
    DigitsCompare(a[5..7], b[5..7]);
    BeforeSplit(a[7..], b[7..], 1);
    assert a[7..][..1] == "-" == b[7..][..1] && a[7..][1..] == a[8..10] && b[7..][1..] == b[8..10];
    DigitsCompare(a[8..10], b[8..10]);
  }

  lemma EarlierDay(y: int, m: int, d: int, year: int, month: int, day: int)
    requires RealDate(Date(y, m, d)) && RealDate(Date(year, month, day))
    requires y < year || (y == year && (m < month || (m == month && d < day)))
    ensures MakeDay(y, m, d) < MakeDay(year, month, day)
  {
    hide DayFromYear, DaysBefore, MonthLength, Leap;
    if y < year {
      YearsGrow(y + 1, year);
      YearLength(y);
      LastOfYear(Leap(y), m, d);
      FirstOfYear(Leap(year), month);
    } else if m < month {
      MonthsGrow(Leap(y), m, month);
    }
  }

  lemma LastOfYear(leap: bool, month: nat, day: int)
    requires month < 12 && day <= MonthLength(leap, month)
    ensures DaysBefore(leap, month) + day <= DaysBefore(leap, 12)
  {
    hide DaysBefore, MonthLength;
    MonthsGrow(leap, month, 12);
  }

  lemma FirstOfYear(leap: bool, month: nat)
    requires month < 12
    ensures DaysBefore(leap, month) >= 0
  {
    LeapDays(leap);
    if month > 0 {
      MonthsGrow(leap, 0, month);
    }
  }

  lemma RealText(s: string)
    requires CalendarText(s)
    ensures RealDate(Date(Number(s[..4]), Number(s[5..7]) - 1, Number(s[8..10])))
  {
    hide Number, Leap;
    SameMonths(Number(s[..4]), Number(s[5..7]));
  }

  /** Of two dates of the calendar the one before the other as a text is the earlier day, which is how client and server
      check that nothing ends before it starts. */
  lemma BeforeIsEarlier(a: string, b: string)
    requires CalendarText(a) && CalendarText(b)
    ensures Before(a, b) <==> DayNumber(a) < DayNumber(b)
  {
    hide Number, MakeDay, Before, RealDate;
    TextCompare(a, b);
    RealText(a);
    RealText(b);
    var y, m, d := Number(a[..4]), Number(a[5..7]) - 1, Number(a[8..10]);
    var year, month, day := Number(b[..4]), Number(b[5..7]) - 1, Number(b[8..10]);
    if Before(a, b) {
      EarlierDay(y, m, d, year, month, day);
    } else if !(y == year && m == month && d == day) {
      EarlierDay(year, month, day, y, m, d);
    }
  }
}
