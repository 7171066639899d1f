/** The weekly hours in which the assistant is switched off
    (app/services/store_schedule.py, `ai_auto_schedule_state`). */
module AiSchedule {

  datatype Settings = Settings(enabled: bool, offWeekday: int, offHour: int, offMinute: int,
                               onWeekday: int, onHour: int, onMinute: int)

  const WEEK := 7 * 24 * 60

  function MinuteOfWeek(weekday: int, hour: int, minute: int): (m: int)
    ensures 0 <= m < WEEK
  {
    (weekday % 7) * 24 * 60 + (hour % 24) * 60 + minute % 60
  }

  /** The number of a minute in a week that begins on Monday 00:00. */
  lemma {:induction false} InRange(weekday: int, hour: int, minute: int)
    requires 0 <= weekday < 7 && 0 <= hour < 24 && 0 <= minute < 60
    ensures MinuteOfWeek(weekday, hour, minute) == 60 * (24 * weekday + hour) + minute
  {
    SmallMod(weekday, 7);
    SmallMod(hour, 24);
    SmallMod(minute, 60);
  }

  /** Values out of range are taken round. */
  lemma {:induction false} TakenRound(weekday: int, hour: int, minute: int)
    ensures MinuteOfWeek(weekday + 7, hour + 24, minute + 60) == MinuteOfWeek(weekday, hour, minute)
  {
    AddMod(weekday, 7);
    AddMod(hour, 24);
    AddMod(minute, 60);
  }

  /** The three-way comparison of the code, for minutes of a week of any length. */
  predicate InWindow(off: int, on: int, now: int) {
    if off == on then false
    else if off < on then off <= now < on
    else now >= off || now < on
  }

  predicate Inactive(s: Settings, weekday: int, hour: int, minute: int) {
    s.enabled && InWindow(MinuteOfWeek(s.offWeekday, s.offHour, s.offMinute),
                          MinuteOfWeek(s.onWeekday, s.onHour, s.onMinute),
                          MinuteOfWeek(weekday, hour, minute))
  }

  /** The distance from `b` forward to `a` on a circle of `w` minutes. */
  lemma {:induction false} Circle(a: int, b: int, w: int)
    requires 0 <= a < w && 0 <= b < w
    ensures (a - b) % w == if a >= b then a - b else a - b + w
  {
  }

  lemma {:induction false} SmallMod(x: int, w: int)
    requires 0 <= x < w
    ensures x % w == x
  {
  }

  lemma {:induction false} AddMod(x: int, w: int)
    requires w > 0
    ensures (x + w) % w == x % w
  {
    var q := x / w;
    assert x == q * w + x % w;
    assert x + w == (q + 1) * w + x % w;
    DivUnique(x + w, q + 1, x % w, w);
  }

  lemma {:induction false} DivUnique(x: int, q: int, r: int, w: int)
    requires w > 0 && 0 <= r < w && x == q * w + r
    ensures x % w == r
  {
    var k := x / w - q;
    assert x == (x / w) * w + x % w;
    assert k * w == r - x % w;
    assert k >= 1 ==> k * w >= w;
    assert k <= -1 ==> k * w <= -w;
  }

  /** The comparison is the circular one: fewer minutes since switching off than the window is
      long. Equal times mean that the assistant is never off. */
  lemma {:induction false} InWindowIsCircular(off: int, on: int, now: int, w: int)
    requires 0 <= off < w && 0 <= on < w && 0 <= now < w
    ensures InWindow(off, on, now) <==> (now - off) % w < (on - off) % w
  {
    Circle(now, off, w);
    Circle(on, off, w);
  }

  /** How many of the `n` minutes from `start` on are inside the window. */
  function InactiveMinutes(off: int, on: int, w: int, start: nat, n: nat): nat
    requires w > 0
  {
    if n == 0 then 0
    else InactiveMinutes(off, on, w, start, n - 1) + if InWindow(off, on, (start + n - 1) % w) then 1 else 0
  }

  lemma {:induction false} FirstMinutes(off: int, on: int, w: int, n: nat)
    requires 0 <= off < w && 0 <= on < w && n <= w
    ensures InactiveMinutes(off, on, w, 0, n) ==
      if off == on then 0
      else if off < on then (if n <= off then 0 else if n <= on then n - off else on - off)
      else (if n <= on then n else if n <= off then on else on + n - off)
  {
    if n > 0 {
      FirstMinutes(off, on, w, n - 1);
      SmallMod(n - 1, w);
    }
  }

  /** Moving the first minute of a stretch behind its end. */
  lemma {:induction false} Slide(off: int, on: int, w: int, start: nat, n: nat)
    requires w > 0
    ensures InactiveMinutes(off, on, w, start, n + 1)
         == InactiveMinutes(off, on, w, start + 1, n) + if InWindow(off, on, start % w) then 1 else 0
  {
    if n > 0 { Slide(off, on, w, start, n - 1); }
  }

  /** Any `w` minutes in a row hold exactly one window, wherever they start. */
  lemma {:induction false} OneWindowPerWeek(off: int, on: int, w: int, start: nat)
    requires 0 <= off < w && 0 <= on < w
    ensures InactiveMinutes(off, on, w, start, w) == (on - off) % w
  {
    if start == 0 {
      FirstMinutes(off, on, w, w);
      Circle(on, off, w);
    } else {
      OneWindowPerWeek(off, on, w, start - 1);
      Slide(off, on, w, start - 1, w);
      AddMod(start - 1, w);
    }
  }

  /** With the schedule enabled, the assistant is off exactly from the off time of the week up
      to, and not including, the next on time. */
  lemma {:induction false} InactiveIff(s: Settings, weekday: int, hour: int, minute: int)
    ensures var off := MinuteOfWeek(s.offWeekday, s.offHour, s.offMinute);
      var on := MinuteOfWeek(s.onWeekday, s.onHour, s.onMinute);
      Inactive(s, weekday, hour, minute) <==>
        s.enabled && (MinuteOfWeek(weekday, hour, minute) - off) % WEEK < (on - off) % WEEK
  {
    InWindowIsCircular(MinuteOfWeek(s.offWeekday, s.offHour, s.offMinute),
                       MinuteOfWeek(s.onWeekday, s.onHour, s.onMinute),
                       MinuteOfWeek(weekday, hour, minute), WEEK);
  }
}
