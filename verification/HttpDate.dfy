/** The civil date of a day count and the IMF-fixdate of an instant (RFC 7231, section 7.1.1.1). */
module HttpDate {
  import opened Arith

  datatype Date = Date(year: int, month: int, day: int)

  // ----- the calendar -----

  predicate Leap(year: int) {
    year % 4 == 0 && (year % 100 != 0 || year % 400 == 0)
  }

  function DaysIn(year: int, month: int): int {
    if month == 2 then (if Leap(year) then 29 else 28)
    else if month == 4 || month == 6 || month == 9 || month == 11 then 30
    else 31
  }

  predicate ValidDate(d: Date) {
    1 <= d.month <= 12 && 1 <= d.day <= DaysIn(d.year, d.month)
  }

  function NextDate(d: Date): Date {
    if d.day < DaysIn(d.year, d.month) then d.(day := d.day + 1)
    else if d.month < 12 then Date(d.year, d.month + 1, 1)
    else Date(d.year + 1, 1, 1)
  }

  // The n-th day after 1 January 1970.
  function DayAfterEpoch(n: nat): Date {
    if n == 0 then Date(1970, 1, 1) else NextDate(DayAfterEpoch(n - 1))
  }

  // ----- the conversion -----

  const ERA_DAYS: int := 146097

  function YearOfEra(doe: int): int {
    (doe - doe / 1460 + doe / 36524 - doe / 146096) / 365
  }

  function DayOfYear(doe: int, yoe: int): int {
    doe - (365 * yoe + yoe / 4 - yoe / 100)
  }

  function MonthPart(doy: int): int {
    (5 * doy + 2) / 153
  }

  function CivilOf(era: int, doe: int): Date {
    var yoe := YearOfEra(doe);
    var doy := DayOfYear(doe, yoe);
    var mp := MonthPart(doy);
    var day := doy - (153 * mp + 2) / 5 + 1;
    var month := if mp < 10 then mp + 3 else mp - 9;
    Date(yoe + era * 400 + (if month <= 2 then 1 else 0), month, day)
  }

  // Days are counted from 1 March of the year 0, in eras of 400 years.
  function Civil(days: nat): Date {
    var z := days + 719468;
    CivilOf(z / ERA_DAYS, z % ERA_DAYS)
  }

  // ----- the day of the era, taken apart -----

  // A day of the era: century, four-year cycle, year within it, day of the
  // year, which begins in March and ends with the leap day.
  datatype Parts = Parts(c: int, q: int, r: int, d: int)

  predicate LongYear(p: Parts) {
    p.r == 3 && (p.q < 24 || p.c == 3)
  }

  predicate InEra(p: Parts) {
    && 0 <= p.c <= 3 && 0 <= p.q <= 24 && 0 <= p.r <= 3 && 0 <= p.d
    && p.d <= (if LongYear(p) then 365 else 364)
  }

  function DayOfEra(p: Parts): int {
    36524 * p.c + 1461 * p.q + 365 * p.r + p.d
  }

  function TakeApart(doe: int): Parts {
    var c := if doe / 36524 > 3 then 3 else doe / 36524;
    var e := doe - 36524 * c;
    var q := e / 1461;
    var f := e - 1461 * q;
    var r := if f / 365 > 3 then 3 else f / 365;
    Parts(c, q, r, f - 365 * r)
  }

  lemma ApartOk(doe: int)
    requires 0 <= doe < ERA_DAYS
    ensures InEra(TakeApart(doe)) && DayOfEra(TakeApart(doe)) == doe
  {
  }

  // The three divisions correct exactly for the leap days before the day.
  lemma YearIs(p: Parts)
    requires InEra(p)
    ensures YearOfEra(DayOfEra(p)) == 100 * p.c + 4 * p.q + p.r
    ensures DayOfYear(DayOfEra(p), YearOfEra(DayOfEra(p))) == p.d
  {
    var doe, y := DayOfEra(p), 100 * p.c + 4 * p.q + p.r;
    var extra := 24 * p.c + p.q + 365 * p.r + p.d;
    var a := doe / 1460;
    assert doe == 1460 * (25 * p.c + p.q) + extra;
    assert 0 <= extra < 2920;
    assert a == 25 * p.c + p.q + (if extra >= 1460 then 1 else 0);
    var last := p.c == 3 && p.q == 24 && p.r == 3 && p.d == 365;
    assert doe / 36524 == p.c + (if last then 1 else 0);
    assert doe / 146096 == if last then 1 else 0;
    var f := doe - a + doe / 36524 - doe / 146096;
    assert f == 365 * y + p.d - (if extra >= 1460 then 1 else 0);
    assert extra >= 1460 ==> p.d >= 1;
    assert p.d == 365 ==> extra >= 1460;
    assert f / 365 == y;
    assert y / 4 == 25 * p.c + p.q && y / 100 == p.c;
  }

  // The first day of each month in a year that begins in March.
  function MonthStart(mp: int): int {
    (153 * mp + 2) / 5
  }

  lemma MonthIs(doy: int)
    requires 0 <= doy <= 365
    ensures var mp := MonthPart(doy);
      0 <= mp <= 11 && MonthStart(mp) <= doy && (mp < 11 ==> doy < MonthStart(mp + 1))
  {
  }

  lemma MonthUnique(doy: int, mp: int)
    requires 0 <= mp <= 11 && MonthStart(mp) <= doy <= 365 && (mp < 11 ==> doy < MonthStart(mp + 1))
    ensures MonthPart(doy) == mp
  {
  }

  // The length of a month of that year, but for February.
  lemma MonthLengths(mp: int, year: int)
    requires 0 <= mp <= 10
    ensures MonthStart(mp + 1) - MonthStart(mp) == DaysIn(year, if mp < 10 then mp + 3 else mp - 9)
    ensures MonthStart(0) == 0 && MonthStart(11) == 337
  {
  }

  // A day of the era as a date.
  function DateOf(era: int, p: Parts): Date {
    var mp := MonthPart(p.d);
    var month := if mp < 10 then mp + 3 else mp - 9;
    Date(400 * era + 100 * p.c + 4 * p.q + p.r + (if month <= 2 then 1 else 0), month, p.d - MonthStart(mp) + 1)
  }

  lemma CivilIs(era: int, p: Parts)
    requires InEra(p)
    ensures CivilOf(era, DayOfEra(p)) == DateOf(era, p)
  {
    hide YearOfEra, DayOfYear, MonthPart;
    YearIs(p);
  }

  // The year that ends with a leap day is followed by the leap year's January.
  lemma LeapIs(era: int, p: Parts)
    requires InEra(p)
    ensures Leap(400 * era + 100 * p.c + 4 * p.q + p.r + 1) <==> LongYear(p)
  {
    var n := 4 * p.q + p.r + 1;
    LeapByParts(era, p.c, n);
    assert n % 4 == 0 <==> p.r == 3;
  }

  lemma LeapByParts(era: int, c: int, n: int)
    requires 0 <= c <= 3 && 1 <= n <= 100
    ensures Leap(400 * era + 100 * c + n) <==> n % 4 == 0 && (n != 100 || c == 3)
  {
    var y := 400 * era + 100 * c + n;
    DivModUnique(y, 4, 100 * era + 25 * c + n / 4, n % 4);
    if n < 100 {
      DivModUnique(y, 100, 4 * era + c, n);
    } else {
      DivModUnique(y, 100, 4 * era + c + 1, 0);
      if c == 3 { DivModUnique(y, 400, era + 1, 0); } else { DivModUnique(y, 400, era, 100 * c + 100); }
    }
  }

  lemma DateOfValid(era: int, p: Parts)
    requires InEra(p)
    ensures ValidDate(DateOf(era, p))
  {
    hide MonthPart, MonthStart, Leap;
    var mp := MonthPart(p.d);
    MonthIs(p.d);
    LeapIs(era, p);
    MonthLengths(if mp < 11 then mp else 10, DateOf(era, p).year);
  }

  // The day after, in parts.
  function NextParts(era: int, p: Parts): (int, Parts) {
    if p.d < (if LongYear(p) then 365 else 364) then (era, p.(d := p.d + 1))
    else if p.r < 3 then (era, Parts(p.c, p.q, p.r + 1, 0))
    else if p.q < 24 then (era, Parts(p.c, p.q + 1, 0, 0))
    else if p.c < 3 then (era, Parts(p.c + 1, 0, 0, 0))
    else (era + 1, Parts(0, 0, 0, 0))
  }

  lemma NextPartsOk(era: int, p: Parts)
    requires InEra(p)
    ensures var (f, n) := NextParts(era, p);
      InEra(n) && f * ERA_DAYS + DayOfEra(n) == era * ERA_DAYS + DayOfEra(p) + 1
  {
  }

  lemma NextPartsDate(era: int, p: Parts)
    requires InEra(p)
    ensures var (f, n) := NextParts(era, p); DateOf(f, n) == NextDate(DateOf(era, p))
  {
    hide MonthPart, MonthStart, Leap;
    var (f, n) := NextParts(era, p);
    var mp, next := MonthPart(p.d), MonthPart(n.d);
    MonthIs(p.d);
    MonthIs(n.d);
    LeapIs(era, p);
    MonthLengths(if mp < 11 then mp else 10, DateOf(era, p).year);
    if n.d == p.d + 1 { NextMonth(p.d); } else { NextMonth(0); LastMonth(p.d); }
  }

  lemma LastMonth(doy: int)
    requires 364 <= doy <= 365
    ensures MonthPart(doy) == 11 && MonthStart(11) == 337
  {
  }

  // From one day of the year to the next, the month stays or the next one begins.
  lemma NextMonth(doy: int)
    requires 0 <= doy <= 364
    ensures MonthPart(0) == 0 && MonthStart(0) == 0
    ensures var mp := MonthPart(doy);
      MonthPart(doy + 1) == if mp < 11 && doy + 1 == MonthStart(mp + 1) then mp + 1 else mp
  {
    hide MonthPart;
    MonthIs(doy);
    MonthUnique(0, 0);
    var mp := MonthPart(doy);
    MonthUnique(doy + 1, if mp < 11 && doy + 1 == MonthStart(mp + 1) then mp + 1 else mp);
  }

  // ----- the theorems -----

  lemma EpochIs()
    ensures Civil(0) == Date(1970, 1, 1)
  {
    var p := Parts(3, 17, 1, 306);
    CivilIs(4, p);
    assert DayOfEra(p) == 719468 - 4 * ERA_DAYS;
  }

  lemma CivilParts(days: nat)
    ensures var z := days + 719468;
      var p := TakeApart(z % ERA_DAYS);
      InEra(p) && DayOfEra(p) == z % ERA_DAYS && Civil(days) == DateOf(z / ERA_DAYS, p)
  {
    hide CivilOf, DateOf, TakeApart, DayOfEra, InEra;
    var z := days + 719468;
    ApartOk(z % ERA_DAYS);
    CivilIs(z / ERA_DAYS, TakeApart(z % ERA_DAYS));
  }

  // Every day count is a date of the calendar.
  lemma CivilValid(days: nat)
    ensures ValidDate(Civil(days))
  {
    hide CivilOf, DateOf, TakeApart, DayOfEra, ValidDate;
    var z := days + 719468;
    CivilParts(days);
    DateOfValid(z / ERA_DAYS, TakeApart(z % ERA_DAYS));
  }

  // The next day count is the next date.
  lemma CivilNext(days: nat)
    ensures Civil(days + 1) == NextDate(Civil(days))
  {
    hide CivilOf, DateOf, TakeApart, DayOfEra, NextDate, NextParts, InEra;
    var z := days + 719468;
    var era, p := z / ERA_DAYS, TakeApart(z % ERA_DAYS);
    CivilParts(days);
    NextPartsOk(era, p);
    NextPartsDate(era, p);
    var (f, n) := NextParts(era, p);
    InEraBound(n);
    assert z + 1 == f * ERA_DAYS + DayOfEra(n);
    assert (z + 1) / ERA_DAYS == f && (z + 1) % ERA_DAYS == DayOfEra(n);
    CivilIs(f, n);
  }

  lemma InEraBound(p: Parts)
    requires InEra(p)
    ensures 0 <= DayOfEra(p) < ERA_DAYS
  {
  }

  // The conversion is the calendar's own count of days from the epoch.
  lemma {:induction false} CivilIsCalendar(days: nat)
    ensures Civil(days) == DayAfterEpoch(days)
  {
    hide Civil, NextDate;
    if days == 0 {
      EpochIs();
    } else {
      CivilIsCalendar(days - 1);
      CivilNext(days - 1);
    }
  }

  predicate Before(a: Date, b: Date) {
    a.year < b.year || (a.year == b.year && (a.month < b.month || (a.month == b.month && a.day < b.day)))
  }

  // Different day counts are different dates, in order.
  lemma {:induction false} CivilOrdered(a: nat, b: nat)
    requires a < b
    ensures Before(Civil(a), Civil(b))
  {
    hide Civil, DaysIn;
    CivilNext(b - 1);
    CivilValid(b - 1);
    if a < b - 1 { CivilOrdered(a, b - 1); }
  }

  // ----- the printed instant -----

  const WEEKDAYS := ["Thu", "Fri", "Sat", "Sun", "Mon", "Tue", "Wed"]
  const MONTHS := ["Jan", "Feb", "Mar", "Apr", "May", "Jun", "Jul", "Aug", "Sep", "Oct", "Nov", "Dec"]

  function Digit(n: nat): char
    requires n < 10
  {
    '0' + n as char
  }

  // {:02}
  function TwoDigits(n: nat): (s: string)
    requires n < 100
    ensures |s| == 2
  {
    [Digit(n / 10), Digit(n % 10)]
  }

  // {}
  function Plain(n: nat): string {
    if n < 10 then [Digit(n)] else Plain(n / 10) + [Digit(n % 10)]
  }

  function Render(secs: nat): string {
    var days, rem := secs / 86400, secs % 86400;
    CivilValid(days);
    CivilFromEpoch(days);
    var d := Civil(days);
    WEEKDAYS[days % 7] + ", " + TwoDigits(d.day) + " " + MONTHS[d.month - 1] + " " + Plain(d.year) + " "
    + TwoDigits(rem / 3600) + ":" + TwoDigits(rem % 3600 / 60) + ":" + TwoDigits(rem % 60) + " GMT"
  }

  lemma CivilFromEpoch(days: nat)
    ensures Civil(days).year >= 1970
  {
    hide Civil;
    EpochIs();
    if days > 0 { CivilOrdered(0, days); }
  }

  lemma {:induction false} PlainInjective(a: nat, b: nat)
    requires Plain(a) == Plain(b)
    ensures a == b
  {
    PlainLength(a);
    PlainLength(b);
    if a >= 10 && b >= 10 {
      var s, t := Plain(a), Plain(b);
      assert s[..|s| - 1] == Plain(a / 10) && t[..|t| - 1] == Plain(b / 10);
      PlainInjective(a / 10, b / 10);
      assert s[|s| - 1] == Digit(a % 10) && t[|t| - 1] == Digit(b % 10);
    } else {
      assert Plain(a)[0] == Plain(b)[0];
    }
  }

  lemma PlainLength(n: nat)
    ensures n < 10 ==> |Plain(n)| == 1
    ensures n >= 10 ==> |Plain(n)| >= 2
  {
    if n >= 10 { PlainLength(n / 10); }
  }

  lemma MonthNames(a: int, b: int)
    requires 0 <= a < 12 && 0 <= b < 12 && MONTHS[a] == MONTHS[b]
    ensures a == b
  {
    assert forall i, j :: 0 <= i < j < 12 ==>
      MONTHS[i][0] != MONTHS[j][0] || MONTHS[i][1] != MONTHS[j][1] || MONTHS[i][2] != MONTHS[j][2];
  }


  // The printed fields, at their places.
  lemma Fields(secs: nat)
    ensures var s, d, rem := Render(secs), Civil(secs / 86400), secs % 86400;
      && |s| == 25 + |Plain(d.year)|
      && s[5..7] == TwoDigits(d.day) && s[8..11] == MONTHS[d.month - 1] && s[12..|s| - 13] == Plain(d.year)
      && s[|s| - 12..|s| - 10] == TwoDigits(rem / 3600) && s[|s| - 9..|s| - 7] == TwoDigits(rem % 3600 / 60)
      && s[|s| - 6..|s| - 4] == TwoDigits(rem % 60)
  {
    hide Civil, Plain, TwoDigits;
    CivilValid(secs / 86400);
    CivilFromEpoch(secs / 86400);
    var d, rem := Civil(secs / 86400), secs % 86400;
    NameLengths(secs / 86400 % 7, d.month - 1);
    Slices(WEEKDAYS[secs / 86400 % 7], TwoDigits(d.day), MONTHS[d.month - 1], Plain(d.year),
           TwoDigits(rem / 3600), TwoDigits(rem % 3600 / 60), TwoDigits(rem % 60));
  }

  lemma NameLengths(w: int, m: int)
    requires 0 <= w < 7 && 0 <= m < 12
    ensures |WEEKDAYS[w]| == 3 == |MONTHS[m]|
  {
  }

  lemma Slices(w: string, d: string, m: string, y: string, hh: string, mm: string, ss: string)
    requires |w| == 3 == |m| && |d| == 2 == |hh| && |mm| == 2 == |ss|
    ensures var s := w + ", " + d + " " + m + " " + y + " " + hh + ":" + mm + ":" + ss + " GMT";
      && |s| == 25 + |y| && s[5..7] == d && s[8..11] == m && s[12..|s| - 13] == y
      && s[|s| - 12..|s| - 10] == hh && s[|s| - 9..|s| - 7] == mm && s[|s| - 6..|s| - 4] == ss
  {
  }

  lemma TwoDigitsInjective(a: nat, b: nat)
    requires a < 100 && b < 100 && TwoDigits(a) == TwoDigits(b)
    ensures a == b
  {
    assert TwoDigits(a)[0] == TwoDigits(b)[0] && TwoDigits(a)[1] == TwoDigits(b)[1];
  }

  // Different seconds print differently: the text says which second it is.
  lemma RenderInjective(a: nat, b: nat)
    requires Render(a) == Render(b)
    ensures a == b
  {
    hide Civil, Plain, TwoDigits, Render;
    var ca, cb := Civil(a / 86400), Civil(b / 86400);
    var ra, rb := a % 86400, b % 86400;
    CivilValid(a / 86400);
    CivilValid(b / 86400);
    CivilFromEpoch(a / 86400);
    CivilFromEpoch(b / 86400);
    Fields(a);
    Fields(b);
    PlainInjective(ca.year, cb.year);
    MonthNames(ca.month - 1, cb.month - 1);
    TwoDigitsInjective(ca.day, cb.day);
    TwoDigitsInjective(ra / 3600, rb / 3600);
    TwoDigitsInjective(ra % 3600 / 60, rb % 3600 / 60);
    TwoDigitsInjective(ra % 60, rb % 60);
    SameTime(ra, rb);
    assert ca == cb;
    if a / 86400 < b / 86400 { CivilOrdered(a / 86400, b / 86400); }
    if b / 86400 < a / 86400 { CivilOrdered(b / 86400, a / 86400); }
  }

  lemma SameTime(a: nat, b: nat)
    requires a / 3600 == b / 3600 && a % 3600 / 60 == b % 3600 / 60 && a % 60 == b % 60
    ensures a == b
  {
    TimeParts(a);
    TimeParts(b);
  }

  lemma TimeParts(x: nat)
    ensures x == 3600 * (x / 3600) + 60 * (x % 3600 / 60) + x % 60
  {
    var y := x % 3600;
    assert x == 3600 * (x / 3600) + y;
    assert y == 60 * (y / 60) + y % 60;
    assert x == 60 * (60 * (x / 3600) + y / 60) + y % 60;
  }

  // 1 January 1970 was a Thursday, and the weekdays follow one another.
  lemma Weekday(secs: nat)
    ensures Render(secs)[..3] == WEEKDAYS[secs / 86400 % 7]
    ensures WEEKDAYS[0] == "Thu"
    ensures Render(secs + 86400)[..3] == WEEKDAYS[(secs / 86400 % 7 + 1) % 7]
  {
    hide Civil, Plain, TwoDigits;
    CivilValid(secs / 86400);
    CivilFromEpoch(secs / 86400);
    CivilValid((secs + 86400) / 86400);
    CivilFromEpoch((secs + 86400) / 86400);
    assert (secs + 86400) / 86400 == secs / 86400 + 1;
  }
}
