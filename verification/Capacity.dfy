/** Slot capacities and the checks an order must pass before it is stored
    (app/services/store_schedule.py). Days are proleptic ordinals, as in Calendar. */
module Capacity {
  import opened Clock
  import opened Wrappers
  import Calendar
  import Payment

  datatype Mode = All | Only(modo: Payment.Modo)

  /** One line of `slot_capacities`, with its bounds as far as they are readable. */
  datatype Slot = Slot(day: int, from: Option<Time>, to: Option<Time>, mode: Mode, maxOrders: Option<int>)

  /** A date override; `hours` when both its opening and its closing time are readable. */
  datatype DayOverride = DayOverride(closed: bool, hours: Option<(Time, Time)>)

  /** The operational calendar and the weekly windows. */
  datatype Shop = Shop(slots: seq<Slot>, blocked: set<int>, overrides: map<int, DayOverride>,
                       windows: map<int, (Time, Time)>)

  /** A stored order with its delivery row. `iso` says that its date is written AAAA-MM-DD, the
      only form that the capacity query finds; `horario` is the text as it came, "" for none. */
  datatype Order = Order(day: int, iso: bool, horario: string, tipo: Option<string>)

  datatype Refusal = BlockedDay | ClosedDay | Sunday | Full | OutsideHours

  /** A slot and an override as they are read from the texts of the calendar file. */
  function ReadSlot(day: int, timeFrom: string, timeTo: string, mode: Mode, maxOrders: Option<int>): Slot {
    Slot(day, ParseHora(timeFrom), ParseHora(timeTo), mode, maxOrders)
  }

  function ReadOverride(closed: bool, open: string, close: string): DayOverride {
    var opening, closing := ParseHora(open), ParseHora(close);
    DayOverride(closed, if opening.Some? && closing.Some? then Some((opening.value, closing.value)) else None)
  }

  // ---------------------------------------------------------------- counting

  function ModoName(modo: Payment.Modo): string {
    match modo case Retirada => "retirada" case Entrega => "entrega"
  }

  /** `COALESCE(d.tipo, 'retirada') = ?`, unless the slot is for both modes. */
  predicate InMode(slot: Slot, tipo: Option<string>) {
    match slot.mode
    case All => true
    case Only(modo) => (if tipo.Some? then tipo.value else "retirada") == ModoName(modo)
  }

  /** The WHERE clause of the capacity query; texts are compared as texts. */
  predicate Counted(slot: Slot, o: Order) {
    && o.day == slot.day && o.iso && InMode(slot, o.tipo)
    && (slot.from.Some? ==> Leq(slot.from.value, o.horario))
    && (slot.to.Some? ==> Leq(o.horario, slot.to.value))
  }

  function Count(slot: Slot, orders: seq<Order>, n: nat): nat
    requires n <= |orders|
  {
    if n == 0 then 0 else Count(slot, orders, n - 1) + if Counted(slot, orders[n - 1]) then 1 else 0
  }

  function Scheduled(slot: Slot, orders: seq<Order>): nat {
    Count(slot, orders, |orders|)
  }

  /** The limit that a slot enforces; unreadable and negative ones are ignored. */
  predicate Limited(slot: Slot) {
    slot.maxOrders.Some? && slot.maxOrders.value >= 0
  }

  /** The slots that the check looks at for a day, an optional time and a mode. */
  predicate Looked(slot: Slot, day: int, time: Option<string>, mode: Mode) {
    && slot.day == day
    && (mode != All ==> slot.mode in {All, mode})
    && (time.Some? && slot.from.Some? ==> !StrictlyBefore(time.value, slot.from.value))
    && (time.Some? && slot.to.Some? ==> !StrictlyBefore(slot.to.value, time.value))
    && (time.None? ==> slot.from.None? && slot.to.None?)
    && Limited(slot)
  }

  predicate StrictlyBefore(a: string, b: string) {
    Leq(a, b) && a != b
  }

  predicate Exceeded(slot: Slot, orders: seq<Order>, day: int, time: Option<string>, mode: Mode) {
    Looked(slot, day, time, mode) && Scheduled(slot, orders) >= slot.maxOrders.value
  }

  predicate AnyExceeded(shop: Shop, orders: seq<Order>, day: int, time: Option<string>, mode: Mode) {
    exists i :: 0 <= i < |shop.slots| && Exceeded(shop.slots[i], orders, day, time, mode)
  }

  /** The loop over the slots of the day: the first full one that applies, if any. */
  method CapacityViolation(shop: Shop, orders: seq<Order>, day: int, time: Option<string>, mode: Mode)
    returns (r: Option<nat>)
    ensures r.Some? <==> AnyExceeded(shop, orders, day, time, mode)
    ensures r.Some? ==> r.value < |shop.slots| && Exceeded(shop.slots[r.value], orders, day, time, mode)
    ensures r.Some? ==> forall j :: 0 <= j < r.value ==> !Exceeded(shop.slots[j], orders, day, time, mode)
  {
    for i := 0 to |shop.slots|
      invariant forall j :: 0 <= j < i ==> !Exceeded(shop.slots[j], orders, day, time, mode)
    {
      var slot := shop.slots[i];
      if slot.day != day { continue; }
      if mode != All && slot.mode !in {All, mode} { continue; }
      if time.Some? && slot.from.Some? && StrictlyBefore(time.value, slot.from.value) { continue; }
      if time.Some? && slot.to.Some? && StrictlyBefore(slot.to.value, time.value) { continue; }
      if time.None? && (slot.from.Some? || slot.to.Some?) { continue; }
      if slot.maxOrders.None? { continue; }
      var maxOrders := slot.maxOrders.value;
      if maxOrders < 0 { continue; }
      if Scheduled(slot, orders) >= maxOrders {
        return Some(i);
      }
    }
    r := None;
  }

  // ---------------------------------------------------------------- validation

  function Window(shop: Shop, day: int): Option<(Time, Time)> {
    if day in shop.overrides && shop.overrides[day].closed then None
    else if OpenOverride(shop, day) then shop.overrides[day].hours
    else if Calendar.WeekdayOf(day) in shop.windows then Some(shop.windows[Calendar.WeekdayOf(day)])
    else None
  }

  predicate OpenOverride(shop: Shop, day: int) {
    day in shop.overrides && shop.overrides[day].hours.Some?
  }

  function ValidateServiceDate(shop: Shop, orders: seq<Order>, date: Option<int>): Option<Refusal> {
    if date.None? then None
    else
      var day := date.value;
      if day in shop.blocked then Some(BlockedDay)
      else if day in shop.overrides && shop.overrides[day].closed then Some(ClosedDay)
      else if Calendar.WeekdayOf(day) == 6 && !OpenOverride(shop, day) then Some(Sunday)
      else if AnyExceeded(shop, orders, day, None, All) then Some(Full)
      else None
  }

  function ValidateServiceSchedule(shop: Shop, orders: seq<Order>, date: Option<int>,
                                   horario: string): Option<Refusal> {
    var refusal := ValidateServiceDate(shop, orders, date);
    var time := ParseHora(horario);
    if refusal.Some? then refusal
    else if date.None? || time.None? then None
    else
      var window := Window(shop, date.value);
      if window.None? then
        if date.value in shop.overrides && shop.overrides[date.value].closed then Some(ClosedDay)
        else ValidateServiceDate(shop, orders, date)
      else if !(Leq(window.value.0, time.value) && Leq(time.value, window.value.1)) then Some(OutsideHours)
      else if AnyExceeded(shop, orders, date.value, time, All) then Some(Full)
      else None
  }

  // ---------------------------------------------------------------- what an accepted day and hour means

  /** The hours of a day, as the calendar and the week give them: those of a readable override, or
      else those of the weekday; none on a closed day. */
  lemma {:induction false} WindowIs(shop: Shop, day: int)
    ensures day in shop.overrides && shop.overrides[day].closed ==> Window(shop, day) == None
    ensures day in shop.overrides && !shop.overrides[day].closed && shop.overrides[day].hours.Some? ==>
      Window(shop, day) == shop.overrides[day].hours
    ensures !(day in shop.overrides && (shop.overrides[day].closed || shop.overrides[day].hours.Some?)) ==>
      Window(shop, day) == if (day + 6) % 7 in shop.windows then Some(shop.windows[(day + 6) % 7]) else None
  {
  }

  /** The slots that decide about a day without an hour: those of the day without bounds. */
  predicate WholeDaySlot(slot: Slot, day: int) {
    slot.day == day && slot.from.None? && slot.to.None? && slot.maxOrders.Some? && slot.maxOrders.value >= 0
  }

  /** The slots that decide about an hour of the day: those around it, bounds included. */
  predicate SlotAround(slot: Slot, day: int, time: Time) {
    && slot.day == day && slot.maxOrders.Some? && slot.maxOrders.value >= 0
    && (slot.from.Some? ==> Minutes(slot.from.value) <= Minutes(time))
    && (slot.to.Some? ==> Minutes(time) <= Minutes(slot.to.value))
  }

  predicate HasRoom(slot: Slot, orders: seq<Order>) {
    slot.maxOrders.Some? ==> Scheduled(slot, orders) < slot.maxOrders.value
  }

  lemma {:induction false} LookedAround(slot: Slot, day: int, time: Time)
    ensures Looked(slot, day, Some(time), All) <==> SlotAround(slot, day, time)
    ensures Looked(slot, day, None, All) <==> WholeDaySlot(slot, day)
  {
    if slot.from.Some? {
      NotBefore(time, slot.from.value);
      ClockOrder(slot.from.value, time);
    }
    if slot.to.Some? {
      NotBefore(slot.to.value, time);
      ClockOrder(time, slot.to.value);
    }
  }

  lemma {:induction false} RoomIff(shop: Shop, orders: seq<Order>, day: int, time: Time)
    ensures !AnyExceeded(shop, orders, day, None, All) <==>
      forall i :: 0 <= i < |shop.slots| && WholeDaySlot(shop.slots[i], day) ==> HasRoom(shop.slots[i], orders)
    ensures !AnyExceeded(shop, orders, day, Some(time), All) <==>
      forall i :: 0 <= i < |shop.slots| && SlotAround(shop.slots[i], day, time) ==> HasRoom(shop.slots[i], orders)
  {
    forall i | 0 <= i < |shop.slots|
      ensures Exceeded(shop.slots[i], orders, day, None, All) <==>
              WholeDaySlot(shop.slots[i], day) && !HasRoom(shop.slots[i], orders)
      ensures Exceeded(shop.slots[i], orders, day, Some(time), All) <==>
              SlotAround(shop.slots[i], day, time) && !HasRoom(shop.slots[i], orders)
    {
      LookedAround(shop.slots[i], day, time);
    }
  }

  /** A day is accepted exactly when it is not blocked, not closed, no Sunday without hours of its
      own, and no slot for the whole day is full. */
  predicate DayIsGood(shop: Shop, orders: seq<Order>, day: int) {
    && day !in shop.blocked
    && !(day in shop.overrides && shop.overrides[day].closed)
    && ((day + 6) % 7 == 6 ==> day in shop.overrides && shop.overrides[day].hours.Some?)
    && forall i :: 0 <= i < |shop.slots| && WholeDaySlot(shop.slots[i], day) ==> HasRoom(shop.slots[i], orders)
  }

  /** An hour is accepted on a good day exactly when opening and closing enclose it and no slot
      around it is full. */
  predicate HourIsGood(shop: Shop, orders: seq<Order>, day: int, hours: (Time, Time), time: Time) {
    && Minutes(hours.0) <= Minutes(time) <= Minutes(hours.1)
    && forall i :: 0 <= i < |shop.slots| && SlotAround(shop.slots[i], day, time) ==> HasRoom(shop.slots[i], orders)
  }

  lemma {:induction false} DayAcceptedIff(shop: Shop, orders: seq<Order>, day: int)
    ensures ValidateServiceDate(shop, orders, Some(day)).None? <==> DayIsGood(shop, orders, day)
  {
    RoomIff(shop, orders, day, "00:00");
  }

  /** Acceptance, read off the calendar: a good day, and a good hour if one can be read and the day
      has hours; without a date everything is accepted. */
  lemma {:induction false} AcceptedIff(shop: Shop, orders: seq<Order>, day: int, horario: string)
    ensures ValidateServiceSchedule(shop, orders, None, horario).None?
    ensures var time := ParseHora(horario);
      var ownHours := day in shop.overrides && shop.overrides[day].hours.Some?;
      ValidateServiceSchedule(shop, orders, Some(day), horario).None? <==>
        && DayIsGood(shop, orders, day)
        && (time.Some? && ownHours ==>
              HourIsGood(shop, orders, day, shop.overrides[day].hours.value, time.value))
        && (time.Some? && !ownHours && (day + 6) % 7 in shop.windows ==>
              HourIsGood(shop, orders, day, shop.windows[(day + 6) % 7], time.value))
  {
    var time := ParseHora(horario);
    DayAcceptedIff(shop, orders, day);
    WindowIs(shop, day);
    if time.Some? {
      RoomIff(shop, orders, day, time.value);
      if Window(shop, day).Some? {
        ClockOrder(Window(shop, day).value.0, time.value);
        ClockOrder(time.value, Window(shop, day).value.1);
      }
    }
  }

  /** The reason given is the first that holds: blocked, closed, Sunday, full for the day, and then
      outside the hours before full at the hour. */
  lemma {:induction false} FirstReason(shop: Shop, orders: seq<Order>, day: int, horario: string)
    ensures var r, time := ValidateServiceSchedule(shop, orders, Some(day), horario), ParseHora(horario);
      var closed := day in shop.overrides && shop.overrides[day].closed;
      var hours := day in shop.overrides && shop.overrides[day].hours.Some?;
      && (r == Some(BlockedDay) <==> day in shop.blocked)
      && (r == Some(ClosedDay) <==> day !in shop.blocked && closed)
      && (r == Some(Sunday) <==> day !in shop.blocked && !closed && (day + 6) % 7 == 6 && !hours)
      && (r == Some(OutsideHours) <==>
            DayIsGood(shop, orders, day) && time.Some? && Window(shop, day).Some?
            && !(Minutes(Window(shop, day).value.0) <= Minutes(time.value) <= Minutes(Window(shop, day).value.1)))
  {
    var time := ParseHora(horario);
    DayAcceptedIff(shop, orders, day);
    if time.Some? && Window(shop, day).Some? {
      ClockOrder(Window(shop, day).value.0, time.value);
      ClockOrder(time.value, Window(shop, day).value.1);
    }
  }

  /** What the query counts is the number of stored orders in its scope. */
  lemma {:induction false} CountIsCardinal(slot: Slot, orders: seq<Order>, n: nat)
    requires n <= |orders|
    ensures Count(slot, orders, n) == |set i | 0 <= i < n && Counted(slot, orders[i])|
  {
    if n > 0 {
      CountIsCardinal(slot, orders, n - 1);
      var before := set i | 0 <= i < n - 1 && Counted(slot, orders[i]);
      var now := set i | 0 <= i < n && Counted(slot, orders[i]);
      assert now == if Counted(slot, orders[n - 1]) then before + {n - 1} else before;
    }
  }

  /** Once a day and hour passed the check, passing it again with other orders is a matter of room:
      the rest of the calendar does not change. */
  lemma {:induction false} RecheckIff(shop: Shop, before: seq<Order>, after: seq<Order>, day: int, horario: string)
    requires ValidateServiceSchedule(shop, before, Some(day), horario).None?
    ensures var time := ParseHora(horario);
      ValidateServiceSchedule(shop, after, Some(day), horario).None? <==>
        && !AnyExceeded(shop, after, day, None, All)
        && (time.Some? && Window(shop, day).Some? ==> !AnyExceeded(shop, after, day, time, All))
  {
  }

  /** A request for an order: the text of its hour, the form in which its date is stored, and the
      mode of its delivery row. */
  datatype Booking = Booking(day: int, iso: bool, horario: string, tipo: Option<string>)

  /** The order that an accepted request leaves in the database. The hour is parsed for the check
      only; the row keeps the text. */
  function Stored(b: Booking): Order {
    Order(b.day, b.iso, b.horario, b.tipo)
  }

  predicate Accepted(shop: Shop, orders: seq<Order>, b: Booking) {
    ValidateServiceSchedule(shop, orders, Some(b.day), b.horario).None?
  }

  // ---------------------------------------------------------------- never oversold

  ghost predicate WithinLimit(slot: Slot, orders: seq<Order>) {
    Limited(slot) ==> Scheduled(slot, orders) <= slot.maxOrders.value
  }

  lemma {:induction false} StrTotal(a: string, b: string, i: nat)
    requires i <= |a| && i <= |b|
    ensures StrLe(a, b, i) || StrLe(b, a, i)
    ensures StrLe(a, b, i) && StrLe(b, a, i) ==> a[i..] == b[i..]
    decreases |a| - i
  {
    if i < |a| && i < |b| && a[i] == b[i] {
      StrTotal(a, b, i + 1);
      assert a[i..] == [a[i]] + a[i + 1..] && b[i..] == [b[i]] + b[i + 1..];
    }
  }

  /** Skipping what lies strictly before is asking for what comes at or after. */
  lemma {:induction false} NotBefore(a: string, b: string)
    ensures !StrictlyBefore(a, b) <==> Leq(b, a)
  {
    StrTotal(a, b, 0);
    assert a[0..] == a && b[0..] == b;
    if a == b { StrTotal(a, a, 0); }
  }

  lemma {:induction false} CountPrefix(slot: Slot, orders: seq<Order>, o: Order, n: nat)
    requires n <= |orders|
    ensures Count(slot, orders + [o], n) == Count(slot, orders, n)
  {
    if n > 0 { CountPrefix(slot, orders, o, n - 1); }
  }

  lemma {:induction false} CountStored(slot: Slot, orders: seq<Order>, o: Order)
    ensures Scheduled(slot, orders + [o]) == Scheduled(slot, orders) + if Counted(slot, o) then 1 else 0
  {
    CountPrefix(slot, orders, o, |orders|);
  }

  /** A canonical time is stored as it is checked, so whatever counts the order was looked at. */
  lemma {:induction false} CountedIsLooked(slot: Slot, b: Booking)
    requires IsClock(b.horario) && Limited(slot) && Counted(slot, Stored(b))
    ensures Looked(slot, b.day, ParseHora(b.horario), All)
  {
    var t := b.horario;
    ParseStable(t);
    if slot.from.Some? { NotBefore(t, slot.from.value); }
    if slot.to.Some? { NotBefore(slot.to.value, t); }
  }

  /** The timed check of a request looks at the slot. */
  predicate LookedByTime(shop: Shop, slot: Slot, b: Booking) {
    var time := ParseHora(b.horario);
    time.Some? && Window(shop, b.day).Some? && Looked(slot, b.day, time, All)
  }

  /** What the check of an accepted request knows of a slot it looked at: there was room. */
  lemma {:induction false} LookedHasRoom(shop: Shop, orders: seq<Order>, b: Booking, i: nat)
    requires i < |shop.slots| && Accepted(shop, orders, b)
    requires Looked(shop.slots[i], b.day, None, All) || LookedByTime(shop, shop.slots[i], b)
    ensures Scheduled(shop.slots[i], orders) < shop.slots[i].maxOrders.value
  {
    var slot := shop.slots[i];
    if Looked(slot, b.day, None, All) {
      assert !Exceeded(slot, orders, b.day, None, All);
    } else {
      assert !Exceeded(slot, orders, b.day, ParseHora(b.horario), All);
    }
  }

  /** An accepted request with a canonical time, on a day with a window, oversells no slot. */
  lemma {:induction false} AcceptedFits(shop: Shop, orders: seq<Order>, b: Booking, i: nat)
    requires i < |shop.slots| && WithinLimit(shop.slots[i], orders)
    requires Accepted(shop, orders, b) && IsClock(b.horario) && Window(shop, b.day).Some?
    ensures WithinLimit(shop.slots[i], orders + [Stored(b)])
  {
    var slot := shop.slots[i];
    CountStored(slot, orders, Stored(b));
    if Limited(slot) && Counted(slot, Stored(b)) {
      ParseStable(b.horario);
      CountedIsLooked(slot, b);
      LookedHasRoom(shop, orders, b, i);
    }
  }

  /** Requests are checked and stored one after the other; refused ones leave no trace. */
  function Book(shop: Shop, orders: seq<Order>, bookings: seq<Booking>, n: nat): seq<Order>
    requires n <= |bookings|
  {
    if n == 0 then orders else BookOne(shop, Book(shop, orders, bookings, n - 1), bookings[n - 1])
  }

  function BookOne(shop: Shop, orders: seq<Order>, b: Booking): seq<Order> {
    if Accepted(shop, orders, b) then orders + [Stored(b)] else orders
  }

  /** A request with a canonical time for a day that has a store window. */
  predicate Timely(shop: Shop, b: Booking) {
    IsClock(b.horario) && Window(shop, b.day).Some?
  }

  lemma {:induction false} OneBookingFits(shop: Shop, orders: seq<Order>, b: Booking, i: nat)
    requires i < |shop.slots| && WithinLimit(shop.slots[i], orders)
    requires Timely(shop, b)
    ensures WithinLimit(shop.slots[i], BookOne(shop, orders, b))
  {
    if Accepted(shop, orders, b) {
      AcceptedFits(shop, orders, b, i);
    }
  }

  /** Capacity is never oversold, over any run of requests with canonical times on days that have
      a store window. */
  lemma {:induction false} NeverOversold(shop: Shop, orders: seq<Order>, bookings: seq<Booking>, n: nat, i: nat)
    requires n <= |bookings| && i < |shop.slots| && WithinLimit(shop.slots[i], orders)
    requires forall k :: 0 <= k < |bookings| ==> Timely(shop, bookings[k])
    ensures WithinLimit(shop.slots[i], Book(shop, orders, bookings, n))
  {
    if n > 0 {
      NeverOversold(shop, orders, bookings, n - 1, i);
      OneBookingFits(shop, Book(shop, orders, bookings, n - 1), bookings[n - 1], i);
    }
  }

  // ---------------------------------------------------------------- when it is oversold

  /** The check passes the slot by: it has a bound, and the request either gets no timed check or
      its parsed time lies outside the slot. */
  predicate PassedBy(shop: Shop, slot: Slot, b: Booking) {
    var time := ParseHora(b.horario);
    if time.Some? && Window(shop, b.day).Some? then
      || (slot.from.Some? && Minutes(time.value) < Minutes(slot.from.value))
      || (slot.to.Some? && Minutes(slot.to.value) < Minutes(time.value))
    else
      slot.from.Some? || slot.to.Some?
  }

  lemma {:induction false} PassedByIff(shop: Shop, slot: Slot, b: Booking)
    requires Limited(slot) && slot.day == b.day
    ensures PassedBy(shop, slot, b) <==>
      !Looked(slot, b.day, None, All) && !LookedByTime(shop, slot, b)
  {
    var time := ParseHora(b.horario);
    if time.Some? {
      if slot.from.Some? {
        NotBefore(time.value, slot.from.value);
        ClockOrder(slot.from.value, time.value);
      }
      if slot.to.Some? {
        NotBefore(slot.to.value, time.value);
        ClockOrder(time.value, slot.to.value);
      }
    }
  }

  /** Exactly when an accepted request oversells a slot that was within its limit: the slot was at
      its limit and counts the text of the request, but the check passed it by. */
  lemma {:induction false} AcceptedOversellsIff(shop: Shop, orders: seq<Order>, b: Booking, i: nat)
    requires i < |shop.slots| && Limited(shop.slots[i]) && WithinLimit(shop.slots[i], orders)
    requires Accepted(shop, orders, b)
    ensures var slot := shop.slots[i];
      !WithinLimit(slot, orders + [Stored(b)]) <==>
        Scheduled(slot, orders) == slot.maxOrders.value && Counted(slot, Stored(b)) && PassedBy(shop, slot, b)
  {
    var slot := shop.slots[i];
    CountStored(slot, orders, Stored(b));
    if Counted(slot, Stored(b)) {
      PassedByIff(shop, slot, b);
      if !PassedBy(shop, slot, b) {
        LookedHasRoom(shop, orders, b, i);
      }
    }
  }

  lemma {:induction false} EmptyTime(t: string)
    requires IsClock(t)
    ensures !Leq(t, "") && Leq("", t)
  {
  }

  /** A request without a time is accepted although it fills a slot of zero places. */
  lemma {:induction false} UntimedOrderOversells()
    ensures var slot := Slot(4, None, Some("12:00"), All, Some(0)); var shop := Shop([slot], {}, map[], map[]);
      var b := Booking(4, true, "", None);
      Accepted(shop, [], b) && WithinLimit(slot, []) && !WithinLimit(slot, [Stored(b)])
  {
    var slot := Slot(4, None, Some("12:00"), All, Some(0));
    var b := Booking(4, true, "", None);
    assert IsClock("12:00");
    EmptyTime("12:00");
    CountStored(slot, [], Stored(b));
    assert [] + [Stored(b)] == [Stored(b)];
  }

  /** A slot of zero places from some hour on takes in an earlier hour whose text comes later. */
  lemma {:induction false} LateTextOversells(shop: Shop, slot: Slot, b: Booking, time: string, from: string)
    requires shop.slots == [slot] && shop.blocked == {} && shop.overrides == map[] && slot.day == b.day && b.iso
    requires slot.from == Some(from) && slot.to.None? && slot.mode == All && slot.maxOrders == Some(0)
    requires ParseHora(b.horario) == Some(time) && StrictlyBefore(time, from) && Leq(from, b.horario)
    requires Calendar.WeekdayOf(b.day) != 6 && Window(shop, b.day).Some?
    requires Leq(Window(shop, b.day).value.0, time) && Leq(time, Window(shop, b.day).value.1)
    ensures Accepted(shop, [], b) && WithinLimit(slot, []) && !WithinLimit(slot, [Stored(b)])
  {
    assert forall i :: 0 <= i < |shop.slots| ==> shop.slots[i] == slot;
    CountStored(slot, [], Stored(b));
    assert [] + [Stored(b)] == [Stored(b)];
  }

  /** "9:30" is read as half past nine, before a slot that begins at 18:00, but as a text it comes
      after "18:00"; the slot of zero places takes the order in. */
  lemma {:induction false} UnpaddedHourOversells(shop: Shop, slot: Slot, b: Booking)
    requires slot == Slot(4, Some("18:00"), None, All, Some(0)) && b == Booking(4, true, "9:30", None)
    requires shop == Shop([slot], {}, map[], map[3 := ("09:00", "18:00")])
    ensures Window(shop, b.day).Some? && ParseHora(b.horario) == Some("09:30")
    ensures Accepted(shop, [], b) && WithinLimit(slot, []) && !WithinLimit(slot, [Stored(b)])
  {
    HalfPastNine();
    PlainWindow(shop, b.day);
    LateTextOversells(shop, slot, b, "09:30", "18:00");
  }

  lemma {:induction false} PlainWindow(shop: Shop, day: int)
    requires day !in shop.overrides && Calendar.WeekdayOf(day) in shop.windows
    ensures Window(shop, day) == Some(shop.windows[Calendar.WeekdayOf(day)])
  {
  }

  lemma {:induction false} HalfPastNine()
    ensures ParseHora("9:30") == Some("09:30")
    ensures Leq("09:00", "09:30") && Leq("09:30", "18:00") && StrictlyBefore("09:30", "18:00") && Leq("18:00", "9:30")
  {
    assert IsClock("09:00") && IsClock("09:30") && IsClock("18:00");
    ClockOrder("09:00", "09:30");
    ClockOrder("09:30", "18:00");
    NineThirtyParses();
  }

  lemma {:induction false} NineThirtyParses()
    ensures ParseHora("9:30") == Some("09:30")
  {
    var t := "9:30";
    assert Strip(t) == t && Lower(t) == t;
    assert Find(t, 'h', 0) == 4 && Find(t, ':', 0) == 1;
    assert !IsDigit(t[1]);
    assert t[..2] == "9:" && t[2..] == "30" && t[..1] == "9";
    assert Format(9, 30) == "09:30";
  }

  // ---------------------------------------------------------------- what the query sees

  /** The scope of a slot, in minutes. */
  lemma {:induction false} ScopeInMinutes(slot: Slot, o: Order)
    requires IsClock(o.horario)
    ensures Counted(slot, o) <==>
      && o.day == slot.day && o.iso
      && (slot.mode == Only(Payment.Retirada) ==> o.tipo in {None, Some("retirada")})
      && (slot.mode == Only(Payment.Entrega) ==> o.tipo == Some("entrega"))
      && (slot.from.Some? ==> Minutes(slot.from.value) <= Minutes(o.horario))
      && (slot.to.Some? ==> Minutes(o.horario) <= Minutes(slot.to.value))
  {
    if slot.from.Some? { ClockOrder(slot.from.value, o.horario); }
    if slot.to.Some? { ClockOrder(o.horario, slot.to.value); }
  }

  /** An order whose date is not stored as AAAA-MM-DD fills no slot: no check of any date and hour
      ever notices it. */
  lemma {:induction false} OtherDatesUnseen(shop: Shop, orders: seq<Order>, o: Order, date: Option<int>,
                                            horario: string)
    requires !o.iso
    ensures ValidateServiceDate(shop, orders + [o], date) == ValidateServiceDate(shop, orders, date)
    ensures ValidateServiceSchedule(shop, orders + [o], date, horario) ==
            ValidateServiceSchedule(shop, orders, date, horario)
  {
    if date.Some? {
      SameExceeded(shop, orders, o, date.value, None);
      SameExceeded(shop, orders, o, date.value, ParseHora(horario));
    }
  }

  lemma {:induction false} SameExceeded(shop: Shop, orders: seq<Order>, o: Order, day: int, time: Option<string>)
    requires !o.iso
    ensures AnyExceeded(shop, orders + [o], day, time, All) <==> AnyExceeded(shop, orders, day, time, All)
  {
    forall i | 0 <= i < |shop.slots|
      ensures Exceeded(shop.slots[i], orders + [o], day, time, All) <==> Exceeded(shop.slots[i], orders, day, time, All)
    {
      CountStored(shop.slots[i], orders, o);
    }
  }
}
