/** When the team answers next: the first opening of the store at or after a moment
    (app/application/use_cases/manage_human_handoff.py, `_next_business_opening` and
    `_handoff_expectation_message`). A moment is a day ordinal and the microseconds since
    midnight. */
module Opening {
  import opened Clock
  import opened Capacity
  import Calendar
  import opened Wrappers

  const MINUTE := 60000000
  const DAY := 24 * 60 * MINUTE
  const HORIZON := 14

  /** The absolute moment at which the store opens on a day, if it does. */
  function OpeningOf(shop: Shop, day: int): (r: Option<int>)
    ensures r.Some? <==> Window(shop, day).Some?
    ensures r.Some? ==> day * DAY <= r.value < (day + 1) * DAY
  {
    if Window(shop, day).None? then None else Some(day * DAY + Minutes(Window(shop, day).value.0) * MINUTE)
  }

  /** `moment` is the first opening at or after `reference`. */
  ghost predicate FirstOpening(shop: Shop, reference: int, day: int, moment: int) {
    && OpeningOf(shop, day) == Some(moment) && reference <= moment
    && forall d :: OpeningOf(shop, d).Some? && reference <= OpeningOf(shop, d).value ==>
         moment <= OpeningOf(shop, d).value
  }

  /** No opening of the days from `first` up to `end` is at or after `reference`. */
  ghost predicate NoneSince(shop: Shop, reference: int, first: int, end: int) {
    forall d :: first <= d < end && OpeningOf(shop, d).Some? ==> OpeningOf(shop, d).value < reference
  }

  lemma {:induction false} OneMoreDay(shop: Shop, reference: int, first: int, end: int)
    requires NoneSince(shop, reference, first, end)
    requires OpeningOf(shop, end).Some? ==> OpeningOf(shop, end).value < reference
    ensures NoneSince(shop, reference, first, end + 1)
  {
  }

  lemma {:induction false} DaysApart(a: int, b: int)
    requires a < b
    ensures (a + 1) * DAY <= b * DAY
  {
  }

  lemma {:induction false} FoundFirst(shop: Shop, reference: int, today: int, day: int)
    requires today * DAY <= reference && today <= day
    requires OpeningOf(shop, day).Some? && reference <= OpeningOf(shop, day).value
    requires NoneSince(shop, reference, today, day)
    ensures FirstOpening(shop, reference, day, OpeningOf(shop, day).value)
  {
    forall d | OpeningOf(shop, d).Some? && reference <= OpeningOf(shop, d).value
      ensures OpeningOf(shop, day).value <= OpeningOf(shop, d).value
    {
      if d < today { DaysApart(d, today); }
      if day < d { DaysApart(day, d); }
    }
  }

  /** The search over today and the 13 days that follow. */
  method NextBusinessOpening(shop: Shop, today: int, timeOfDay: int) returns (r: Option<(int, string)>)
    requires 0 <= timeOfDay < DAY
    ensures r.Some? ==> today <= r.value.0 < today + HORIZON
    ensures r.Some? ==> Window(shop, r.value.0).Some? && r.value.1 == Window(shop, r.value.0).value.0
    ensures r.Some? ==> FirstOpening(shop, today * DAY + timeOfDay, r.value.0, OpeningOf(shop, r.value.0).value)
    ensures r.None? <==> NoneSince(shop, today * DAY + timeOfDay, today, today + HORIZON)
  {
    var reference := today * DAY + timeOfDay;
    for offset := 0 to HORIZON
      invariant NoneSince(shop, reference, today, today + offset)
    {
      var candidate := today + offset;
      var window := Window(shop, candidate);
      if window.None? {
        OneMoreDay(shop, reference, today, candidate);
        continue;
      }
      var opening := Minutes(window.value.0) * MINUTE;
      assert OpeningOf(shop, candidate) == Some(candidate * DAY + opening);
      if offset > 0 {
        DaysApart(today, candidate);
      }
      if (offset == 0 && timeOfDay <= opening) || offset > 0 {
        FoundFirst(shop, reference, today, candidate);
        return Some((candidate, window.value.0));
      }
      OneMoreDay(shop, reference, today, candidate);
    }
    r := None;
  }

  datatype Expectation = WithinTwentyMinutes | From(day: int, hour: string) | NotSoon

  predicate OpenAt(shop: Shop, day: int, minute: int) {
    Window(shop, day).Some? && Minutes(Window(shop, day).value.0) <= minute <= Minutes(Window(shop, day).value.1)
  }

  /** What the customer is told: an answer now exactly while the store is open, by the minute,
      and otherwise the first opening to come. */
  method HandoffExpectation(shop: Shop, today: int, timeOfDay: int) returns (r: Expectation)
    requires 0 <= timeOfDay < DAY
    ensures r.WithinTwentyMinutes? <==> OpenAt(shop, today, timeOfDay / MINUTE)
    ensures r.From? ==> Window(shop, r.day).Some? && r.hour == Window(shop, r.day).value.0
    ensures r.From? ==> FirstOpening(shop, today * DAY + timeOfDay, r.day, OpeningOf(shop, r.day).value)
    ensures r.NotSoon? ==> NoneSince(shop, today * DAY + timeOfDay, today, today + HORIZON)
  {
    var window := Window(shop, today);
    if window.Some? {
      var minute := timeOfDay / MINUTE;
      var clock := Format(minute / 60, minute % 60);
      ClockOrder(window.value.0, clock);
      ClockOrder(clock, window.value.1);
      if Leq(window.value.0, clock) && Leq(clock, window.value.1) { return WithinTwentyMinutes; }
    }
    var next := NextBusinessOpening(shop, today, timeOfDay);
    if next.None? { return NotSoon; }
    r := From(next.value.0, next.value.1);
  }

  function FirstWeekday(day: int, w: int): int {
    day + 1 + (w - Calendar.WeekdayOf(day + 1)) % 7
  }

  /** A store with any weekly window opens again within seven days, unless a closed day of the
      calendar gets in the way; so the two-week search then never comes back empty. */
  lemma {:induction false} OpensWithinAWeek(shop: Shop, today: int, w: int)
    requires w in shop.windows && 0 <= w < 7
    requires forall d :: today < d <= today + 7 ==> !(d in shop.overrides && shop.overrides[d].closed)
    ensures today < FirstWeekday(today, w) <= today + 7 && OpeningOf(shop, FirstWeekday(today, w)).Some?
    ensures OpeningOf(shop, FirstWeekday(today, w)).value >= (today + 1) * DAY
  {
    var d := FirstWeekday(today, w);
    assert Calendar.WeekdayOf(d) == w;
    if today + 1 < d { DaysApart(today, d); }
  }
}
