/** Gregorian dates and the resolution of dates named in a message
    (app/services/store_schedule.py). */
module Calendar {

  import opened Wrappers

  const MAX_YEAR := 9999

  datatype Date = Date(y: int, m: int, d: int)

  predicate Leap(y: int) {
    y % 4 == 0 && (y % 100 != 0 || y % 400 == 0)
  }

  function DaysIn(y: int, m: int): int {
    if m == 2 then (if Leap(y) then 29 else 28)
    else if m in {4, 6, 9, 11} then 30
    else 31
  }

  /** What `date(y, m, d)` accepts. */
  predicate Valid(c: Date) {
    1 <= c.y <= MAX_YEAR && 1 <= c.m <= 12 && 1 <= c.d <= DaysIn(c.y, c.m)
  }

  predicate Le(a: Date, b: Date) {
    a.y < b.y || (a.y == b.y && (a.m < b.m || (a.m == b.m && a.d <= b.d)))
  }

  // ---------------------------------------------------------------- ordinals

  function DaysBeforeYear(y: int): int {
    (y - 1) * 365 + (y - 1) / 4 - (y - 1) / 100 + (y - 1) / 400
  }

  function DaysBeforeMonth(y: int, m: int): int {
    if m <= 1 then 0 else DaysBeforeMonth(y, m - 1) + DaysIn(y, m - 1)
  }

  function Ordinal(c: Date): int {
    DaysBeforeYear(c.y) + DaysBeforeMonth(c.y, c.m) + c.d
  }

  const MAX_ORDINAL := 3652059

  /** The name of an ordinal day; Monday is 0. */
  function WeekdayOf(ordinal: int): int {
    (ordinal + 6) % 7
  }

  function Weekday(c: Date): int {
    WeekdayOf(Ordinal(c))
  }

  function NextDay(c: Date): Date {
    if c.d < DaysIn(c.y, c.m) then Date(c.y, c.m, c.d + 1)
    else if c.m < 12 then Date(c.y, c.m + 1, 1)
    else Date(c.y + 1, 1, 1)
  }

  lemma {:induction false} Quotients(y: int)
    ensures y / 4 == (y - 1) / 4 + if y % 4 == 0 then 1 else 0
    ensures y / 100 == (y - 1) / 100 + if y % 100 == 0 then 1 else 0
    ensures y / 400 == (y - 1) / 400 + if y % 400 == 0 then 1 else 0
  {
  }

  lemma {:induction false} Multiples(y: int)
    ensures y % 400 == 0 ==> y % 100 == 0
    ensures y % 100 == 0 ==> y % 4 == 0
  {
  }

  lemma {:induction false} LeapDays(y: int)
    requires y >= 1
    ensures y / 4 - y / 100 + y / 400 == (y - 1) / 4 - (y - 1) / 100 + (y - 1) / 400 + if Leap(y) then 1 else 0
  {
    Quotients(y);
    Multiples(y);
  }

  /** The day of the year with which each month begins, counted from 0. */
  lemma {:induction false} MonthStarts(y: int)
    ensures DaysBeforeMonth(y, 1) == 0 && DaysBeforeMonth(y, 2) == 31
    ensures var leapDay := if y % 4 == 0 && (y % 100 != 0 || y % 400 == 0) then 1 else 0;
      && DaysBeforeMonth(y, 3) == 59 + leapDay
      && DaysBeforeMonth(y, 4) == 90 + leapDay
      && DaysBeforeMonth(y, 5) == 120 + leapDay
      && DaysBeforeMonth(y, 6) == 151 + leapDay
      && DaysBeforeMonth(y, 7) == 181 + leapDay
      && DaysBeforeMonth(y, 8) == 212 + leapDay
      && DaysBeforeMonth(y, 9) == 243 + leapDay
      && DaysBeforeMonth(y, 10) == 273 + leapDay
      && DaysBeforeMonth(y, 11) == 304 + leapDay
      && DaysBeforeMonth(y, 12) == 334 + leapDay
  {
    assert DaysBeforeMonth(y, 2) == 31;
    assert DaysBeforeMonth(y, 3) == 59 + if Leap(y) then 1 else 0;
    assert DaysBeforeMonth(y, 5) == DaysBeforeMonth(y, 3) + 61;
    assert DaysBeforeMonth(y, 7) == DaysBeforeMonth(y, 5) + 61;
    assert DaysBeforeMonth(y, 9) == DaysBeforeMonth(y, 7) + 62;
    assert DaysBeforeMonth(y, 11) == DaysBeforeMonth(y, 9) + 61;
  }

  lemma {:induction false} MonthsOfYear(y: int)
    ensures DaysBeforeMonth(y, 13) == if Leap(y) then 366 else 365
  {
    MonthStarts(y);
  }

  lemma {:induction false} YearLength(y: int)
    requires y >= 1
    ensures DaysBeforeYear(y + 1) == DaysBeforeYear(y) + DaysBeforeMonth(y, 13)
  {
    LeapDays(y);
    MonthsOfYear(y);
  }

  lemma {:induction false} MonthsGrow(y: int, m: int, n: int)
    requires 1 <= m < n <= 13
    ensures DaysBeforeMonth(y, m) + DaysIn(y, m) <= DaysBeforeMonth(y, n)
    decreases n
  {
    if m < n - 1 { MonthsGrow(y, m, n - 1); }
  }

  lemma {:induction false} YearsGrow(y: int, z: int)
    requires 1 <= y < z
    ensures DaysBeforeYear(y) + DaysBeforeMonth(y, 13) <= DaysBeforeYear(z)
    decreases z
  {
    YearLength(z - 1);
    if y < z - 1 { YearsGrow(y, z - 1); } else { YearLength(y); }
  }

  lemma {:induction false} OrdinalInYear(c: Date)
    requires Valid(c)
    ensures DaysBeforeYear(c.y) < Ordinal(c) <= DaysBeforeYear(c.y) + DaysBeforeMonth(c.y, 13)
  {
    MonthsGrow(c.y, c.m, 13);
    if c.m > 1 { MonthsGrow(c.y, 1, c.m); }
  }

  /** The day count orders dates as Python compares them, so it determines them. */
  lemma {:induction false} OrdinalOrder(a: Date, b: Date)
    requires Valid(a) && Valid(b)
    ensures Le(a, b) <==> Ordinal(a) <= Ordinal(b)
  {
    OrdinalInYear(a);
    OrdinalInYear(b);
    if a.y < b.y { YearsGrow(a.y, b.y); }
    if b.y < a.y { YearsGrow(b.y, a.y); }
    if a.y == b.y && a.m < b.m { MonthsGrow(a.y, a.m, b.m); }
    if a.y == b.y && b.m < a.m { MonthsGrow(a.y, b.m, a.m); }
  }

  lemma {:induction false} OrdinalUnique(a: Date, b: Date)
    requires Valid(a) && Valid(b) && Ordinal(a) == Ordinal(b)
    ensures a == b
  {
    OrdinalOrder(a, b);
    OrdinalOrder(b, a);
  }

  lemma {:induction false} LastDay()
    ensures Ordinal(Date(MAX_YEAR, 12, 31)) == MAX_ORDINAL
  {
  }

  lemma {:induction false} NextDayIsNext(c: Date)
    requires Valid(c) && Ordinal(c) < MAX_ORDINAL
    ensures Valid(NextDay(c)) && Ordinal(NextDay(c)) == Ordinal(c) + 1
  {
    if c.d == DaysIn(c.y, c.m) && c.m == 12 {
      YearLength(c.y);
      LastDay();
    }
  }

  /** `c + timedelta(days=n)`, away from the last representable day. */
  function AddDays(c: Date, n: nat): (r: Date)
    requires Valid(c) && Ordinal(c) + n <= MAX_ORDINAL
    ensures Valid(r) && Ordinal(r) == Ordinal(c) + n
  {
    if n == 0 then c
    else
      var before := AddDays(c, n - 1);
      NextDayIsNext(before);
      NextDay(before)
  }

  // ---------------------------------------------------------------- the calendar in figures

  /** The dates of the years 1 to 9999, month by month. */
  lemma {:induction false} ValidIff(y: int, m: int, d: int)
    ensures Valid(Date(y, m, d)) <==>
      && 1 <= y <= 9999 && 1 <= d
      && (|| (m == 1 && d <= 31)
          || (m == 2 && (d <= 28 || (d == 29 && y % 4 == 0 && (y % 100 != 0 || y % 400 == 0))))
          || (m == 3 && d <= 31)
          || (m == 4 && d <= 30)
          || (m == 5 && d <= 31)
          || (m == 6 && d <= 30)
          || (m == 7 && d <= 31)
          || (m == 8 && d <= 31)
          || (m == 9 && d <= 30)
          || (m == 10 && d <= 31)
          || (m == 11 && d <= 30)
          || (m == 12 && d <= 31))
  {
    Multiples(y);
  }

  /** 1 January 2000 is number 730120, a Saturday (5). */
  lemma {:induction false} Anchor()
    ensures Ordinal(Date(2000, 1, 1)) == 730120 && Weekday(Date(2000, 1, 1)) == 5
  {
  }

  ghost predicate NothingBetween(a: Date, b: Date) {
    Le(a, b) && a != b && forall c: Date :: Valid(c) && Le(a, c) && Le(c, b) ==> c == a || c == b
  }

  lemma {:induction false} NumbersAreNeighbours(a: Date, b: Date)
    requires Valid(a) && Valid(b) && Ordinal(b) == Ordinal(a) + 1
    ensures NothingBetween(a, b)
  {
    OrdinalOrder(a, b);
    forall c: Date | Valid(c) && Le(a, c) && Le(c, b) ensures c == a || c == b {
      OrdinalOrder(a, c);
      OrdinalOrder(c, b);
      if Ordinal(c) == Ordinal(a) { OrdinalUnique(c, a); } else { OrdinalUnique(c, b); }
    }
  }

  /** Two dates have consecutive numbers exactly when one is the very next after the other. */
  lemma {:induction false} ConsecutiveIff(a: Date, b: Date)
    requires Valid(a) && Valid(b)
    ensures Ordinal(b) == Ordinal(a) + 1 <==> NothingBetween(a, b)
  {
    if Ordinal(b) == Ordinal(a) + 1 {
      NumbersAreNeighbours(a, b);
    }
    if NothingBetween(a, b) {
      AtMostLast(b);
      OrdinalOrder(b, a);
      NextDayIsNext(a);
      OrdinalOrder(a, NextDay(a));
      OrdinalOrder(NextDay(a), b);
    }
  }

  lemma {:induction false} AtMostLast(c: Date)
    requires Valid(c)
    ensures Ordinal(c) <= MAX_ORDINAL
  {
    LastDay();
    OrdinalOrder(c, Date(MAX_YEAR, 12, 31));
  }

  // ---------------------------------------------------------------- weekday names

  function NextOrSameWeekday(reference: Date, weekday: int): (r: Date)
    requires Valid(reference) && Ordinal(reference) + 6 <= MAX_ORDINAL && 0 <= weekday < 7
    ensures Valid(r) && Ordinal(r) == Ordinal(reference) + (weekday - Weekday(reference)) % 7
  {
    AddDays(reference, (weekday - Weekday(reference)) % 7)
  }

  /** The answer is the only day of that name in the week that starts at the reference. */
  lemma {:induction false} WeekdayUnique(reference: Date, weekday: int, c: Date)
    requires Valid(reference) && Ordinal(reference) + 6 <= MAX_ORDINAL && 0 <= weekday < 7 && Valid(c)
    ensures c == NextOrSameWeekday(reference, weekday) <==>
      Weekday(c) == weekday && Ordinal(reference) <= Ordinal(c) <= Ordinal(reference) + 6
  {
    var r := NextOrSameWeekday(reference, weekday);
    SevenDays(Ordinal(reference), weekday, Ordinal(c));
    if Ordinal(c) == Ordinal(r) { OrdinalUnique(c, r); }
  }

  lemma {:induction false} SevenDays(o: int, weekday: int, n: int)
    requires 0 <= weekday < 7
    ensures n == o + (weekday - WeekdayOf(o)) % 7 <==> WeekdayOf(n) == weekday && o <= n <= o + 6
  {
  }

  // ---------------------------------------------------------------- day of month

  function MonthIndex(y: int, m: int): int {
    12 * y + m - 1
  }

  ghost predicate IsEarliest(c: Date, reference: Date, day: int) {
    && Valid(c) && c.d == day && Le(reference, c)
    && forall o: Date :: Valid(o) && o.d == day && Le(reference, o) ==> Le(c, o)
  }

  /** The earliest date from the reference on with that day of the month; 24 months always
      suffice, so None means that the calendar holds no such date at all. */
  method ResolveDayOfMonth(day: nat, reference: Date) returns (r: Option<Date>)
    requires Valid(reference)
    ensures r.Some? ==> IsEarliest(r.value, reference, day)
    ensures r.None? <==> forall c: Date :: Valid(c) && c.d == day ==> !Le(reference, c)
    ensures r.None? ==> !(1 <= day <= 31) || reference.y == MAX_YEAR
  {
    var month, year := reference.m, reference.y;
    ghost var januaries := 0;
    for k := 0 to 24
      invariant 1 <= month <= 12 && MonthIndex(year, month) == MonthIndex(reference.y, reference.m) + k
      invariant forall c: Date :: Valid(c) && c.d == day && Le(reference, c) ==>
        MonthIndex(c.y, c.m) >= MonthIndex(year, month)
      invariant 1 <= day <= 31 && k > 0 && MonthIndex(year, month) > MonthIndex(reference.y + 1, 1) ==>
        reference.y + 1 > MAX_YEAR
    {
      var candidate := Date(year, month, day);
      if Valid(candidate) && Le(reference, candidate) {
        return Some(candidate);
      }
      forall c: Date | Valid(c) && c.d == day && Le(reference, c)
        ensures MonthIndex(c.y, c.m) > MonthIndex(year, month)
      {
        assert MonthIndex(c.y, c.m) == MonthIndex(year, month) ==> c == candidate;
      }
      month := month + 1;
      if month > 12 {
        month := 1;
        year := year + 1;
      }
    }
    r := None;
  }

  // ---------------------------------------------------------------- day and month

  /** The earliest date from the reference on with that day and month, if one lies in the year of
      the reference or the one after. */
  ghost predicate NextOccurrence(day: int, month: int, reference: Date, r: Option<Date>) {
    && (r.Some? ==>
          && Valid(r.value) && r.value.d == day && r.value.m == month
          && Le(reference, r.value) && r.value.y <= reference.y + 1
          && forall c: Date :: Valid(c) && c.d == day && c.m == month && Le(reference, c) ==> Le(r.value, c))
    && (r.None? ==>
          forall c: Date :: Valid(c) && c.d == day && c.m == month && Le(reference, c) ==> c.y > reference.y + 1)
  }

  /** The candidate years, tried in order. */
  method BuildFutureDate(day: int, month: int, reference: Date, year: Option<int>) returns (r: Option<Date>)
    requires Valid(reference)
    ensures year.Some? ==> r == if Valid(Date(year.value, month, day)) then Some(Date(year.value, month, day)) else None
    ensures year.None? ==> NextOccurrence(day, month, reference, r)
  {
    var candidateYears := if year.Some? then [year.value] else [reference.y, reference.y + 1];
    for i := 0 to |candidateYears|
      invariant year.Some? && i > 0 ==> !Valid(Date(year.value, month, day))
      invariant year.None? ==> forall c: Date ::
          Valid(c) && c.d == day && c.m == month && Le(reference, c) ==> c.y >= reference.y + i
    {
      var candidate := Date(candidateYears[i], month, day);
      if Valid(candidate) && (Le(reference, candidate) || year.Some?) {
        return Some(candidate);
      }
    }
    r := None;
  }

  /** The search gives up although the calendar holds such a date. */
  ghost predicate Missed(day: int, month: int, reference: Date) {
    && NextOccurrence(day, month, reference, None)
    && exists c: Date :: Valid(c) && c.d == day && c.m == month && Le(reference, c)
  }

  /** The two-year search misses a date that exists exactly for 29 February when no leap day
      falls between the reference and the end of the next year (or past year 9999). */
  lemma {:induction false} FutureDateMissedIff(day: int, month: int, reference: Date)
    requires Valid(reference) && reference.y + 9 <= MAX_YEAR
    ensures Missed(day, month, reference) <==>
      && day == 29 && month == 2
      && !Leap(reference.y + 1) && !(Leap(reference.y) && Le(reference, Date(reference.y, 2, 29)))
  {
    var next := Date(reference.y + 1, month, day);
    if Valid(Date(2023, month, day)) {
      assert Valid(next) && Le(reference, next);
    } else if day == 29 && month == 2 {
      var leap := SomeLeapYear(reference.y + 2);
      assert Valid(Date(leap, 2, 29)) && Le(reference, Date(leap, 2, 29));
      assert Leap(reference.y + 1) ==> Valid(next) && Le(reference, next);
      assert Leap(reference.y) ==> Valid(Date(reference.y, 2, 29));
    }
  }

  lemma {:induction false} SomeLeapYear(y: int) returns (leap: int)
    ensures y <= leap <= y + 7 && Leap(leap)
  {
    var four := y + (-y) % 4;
    leap := if Leap(four) then four else four + 4;
  }

  /** 1 March 2024: the next 29 February is in 2028, and the search gives up in 2025. */
  lemma {:induction false} FutureDateMissesLeapDay()
    ensures Missed(29, 2, Date(2024, 3, 1))
  {
    assert Valid(Date(2028, 2, 29)) && Le(Date(2024, 3, 1), Date(2028, 2, 29));
  }

  // ---------------------------------------------------------------- a whole message

  /** A day and month with an optional written year, as matched in the text. */
  datatype DayMonth = DayMonth(day: nat, month: nat, year: Option<nat>)

  /** What the patterns find in a message; the patterns themselves are not modelled. */
  datatype Mention = Mention(today: bool, tomorrow: bool, numeric: Option<DayMonth>, named: Option<DayMonth>,
                             dayOnly: Option<nat>, weekday: Option<nat>, nextWeek: bool)

  predicate WrittenYear(dm: Option<DayMonth>, y: int) {
    && dm.Some? && dm.value.year.Some?
    && (dm.value.year.value < 100 ==> y == 2000 + dm.value.year.value)
    && (dm.value.year.value >= 100 ==> y == dm.value.year.value)
  }

  /** What a day and month come to: with a written year that very date, if it is one, and
      otherwise the next occurrence. */
  ghost predicate Resolves(dm: DayMonth, reference: Date, r: Option<Date>) {
    if dm.year.Some? then
      var year := dm.year.value;
      var written := Date(if year < 100 then 2000 + year else year, dm.month, dm.day);
      r == if Valid(written) then Some(written) else None
    else
      NextOccurrence(dm.day, dm.month, reference, r)
  }

  /** No such mention, or one that comes to nothing. */
  ghost predicate Fails(dm: Option<DayMonth>, reference: Date) {
    dm.None? || Resolves(dm.value, reference, None)
  }

  ghost predicate HasDay(day: nat, reference: Date) {
    exists c: Date :: Valid(c) && c.d == day && Le(reference, c)
  }

  method FromDayMonth(dm: Option<DayMonth>, reference: Date) returns (r: Option<Date>)
    requires Valid(reference)
    ensures if dm.Some? then Resolves(dm.value, reference, r) else r.None?
    ensures r.None? <==> Fails(dm, reference)
    ensures r.Some? ==> Valid(r.value) && (Le(reference, r.value) || WrittenYear(dm, r.value.y))
  {
    if dm.None? {
      return None;
    }
    var year := dm.value.year;
    if year.Some? && year.value < 100 {
      year := Some(year.value + 2000);
    }
    r := BuildFutureDate(dm.value.day, dm.value.month, reference,
                         if year.Some? then Some(year.value as int) else None);
  }

  /** Day `n` has that name, in the week from day `o` on or in the one after it. */
  predicate IsWeekdayOf(n: int, o: int, weekday: nat, nextWeek: bool) {
    WeekdayOf(n) == weekday && if nextWeek then o + 7 <= n <= o + 13 else o <= n <= o + 6
  }

  lemma {:induction false} OneOrTwoWeeks(o: int, weekday: nat, n: int)
    requires weekday < 7 && n == o + (weekday - WeekdayOf(o)) % 7
    ensures o <= n && IsWeekdayOf(n, o, weekday, false) && IsWeekdayOf(n + 7, o, weekday, true)
  {
  }

  function ResolveWeekday(weekday: nat, nextWeek: bool, reference: Date): (r: Date)
    requires Valid(reference) && Ordinal(reference) + 13 <= MAX_ORDINAL && weekday < 7
    ensures Valid(r) && Le(reference, r) && IsWeekdayOf(Ordinal(r), Ordinal(reference), weekday, nextWeek)
  {
    var candidate := NextOrSameWeekday(reference, weekday);
    OneOrTwoWeeks(Ordinal(reference), weekday, Ordinal(candidate));
    var r := if nextWeek then AddDays(candidate, 7) else candidate;
    OrdinalOrder(reference, r);
    r
  }

  /** Without a numeric date: the named month, the day alone or the weekday. */
  ghost predicate ResolvesByName(m: Mention, reference: Date, r: Option<Date>) {
    if !Fails(m.named, reference) then Resolves(m.named.value, reference, r)
    else if m.dayOnly.Some? && HasDay(m.dayOnly.value, reference) then
      r.Some? && IsEarliest(r.value, reference, m.dayOnly.value)
    else
      && (r.Some? <==> m.weekday.Some?)
      && (r.Some? ==> Valid(r.value) && IsWeekdayOf(Ordinal(r.value), Ordinal(reference), m.weekday.value, m.nextWeek))
  }

  /** The first mention that comes to a date decides: today, tomorrow, a numeric day and month, a
      named month, a day alone, a weekday. A message never moves an order into the past, except
      by writing a year itself. */
  method ResolveServiceDateReference(m: Mention, reference: Date) returns (r: Option<Date>)
    requires Valid(reference) && Ordinal(reference) + 13 <= MAX_ORDINAL
    requires m.weekday.Some? ==> m.weekday.value < 7
    ensures r.Some? ==> Valid(r.value)
    ensures r.Some? && !Le(reference, r.value) ==> WrittenYear(m.numeric, r.value.y) || WrittenYear(m.named, r.value.y)
    ensures m.today ==> r == Some(reference)
    ensures !m.today && m.tomorrow ==> r.Some? && Ordinal(r.value) == Ordinal(reference) + 1
    ensures !m.today && !m.tomorrow && !Fails(m.numeric, reference) ==> Resolves(m.numeric.value, reference, r)
    ensures !m.today && !m.tomorrow && Fails(m.numeric, reference) ==> ResolvesByName(m, reference, r)
  {
    if m.today {
      OrdinalOrder(reference, reference);
      return Some(reference);
    }
    if m.tomorrow {
      OrdinalOrder(reference, AddDays(reference, 1));
      return Some(AddDays(reference, 1));
    }
    r := FromDayMonth(m.numeric, reference);
    if r.Some? { return; }
    r := FromDayMonth(m.named, reference);
    if r.Some? { return; }
    if m.dayOnly.Some? {
      r := ResolveDayOfMonth(m.dayOnly.value, reference);
      if r.Some? { return; }
    }
    if m.weekday.None? {
      return None;
    }
    var candidate := ResolveWeekday(m.weekday.value, m.nextWeek, reference);
    r := Some(candidate);
  }
}
