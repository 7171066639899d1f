/** The per-phone lock registry of the webhook (app/api/routes/webhook.py), as a transition
    system over any number of concurrent requests.

    A guarded section runs without suspension, so it is one step. `asyncio.Lock` is FIFO: a
    release wakes the first waiter, which takes the lock in a later step of its own. */
module PhoneLocks {

  type Phone = string
  type Request = nat
  type LockId = nat

  datatype Entry = Entry(lock: LockId, queued: nat)

  datatype Lock = Lock(locked: bool, waiters: seq<Request>)

  datatype Status = Waiting | Inside

  datatype Flight = Flight(phone: Phone, lock: LockId, status: Status)

  /** What happened to one phone: who came (and did not give up), who entered, how many left,
      and how many were cancelled while waiting. */
  datatype History = History(arrivals: seq<Request>, entered: seq<Request>, releases: nat, cancelled: nat)

  /** The registry, every lock object ever made, the requests under way, and what happened. */
  datatype State = State(registry: map<Phone, Entry>, locks: map<LockId, Lock>, nextLock: LockId,
                         flights: map<Request, Flight>, seen: set<Request>, history: map<Phone, History>)

  const INIT := State(map[], map[], 0, map[], {}, map[])

  function LockAt(s: State, id: LockId): Lock {
    if id in s.locks then s.locks[id] else Lock(false, [])
  }

  function Hist(s: State, p: Phone): History {
    if p in s.history then s.history[p] else History([], [], 0, 0)
  }

  function Without(q: seq<Request>, r: Request): seq<Request> {
    if q == [] then [] else if q[0] == r then q[1..] else [q[0]] + Without(q[1..], r)
  }

  // ---------------------------------------------------------------- steps

  datatype Step = Register(r: Request, p: Phone) | Grant(id: LockId) | Release(r: Request) | Cancel(r: Request)

  predicate Enabled(s: State, step: Step) {
    match step
    case Register(r, p) => r !in s.seen
    case Grant(id) =>
      id in s.locks && !s.locks[id].locked && s.locks[id].waiters != [] && s.locks[id].waiters[0] in s.flights
    case Release(r) => r in s.flights && s.flights[r].status == Inside
    case Cancel(r) => r in s.flights && s.flights[r].status == Waiting
  }

  /** Take or create the entry, count the request, and ask for its lock. */
  function AfterRegister(s: State, r: Request, p: Phone): State {
    var known := p in s.registry;
    var id := if known then s.registry[p].lock else s.nextLock;
    var lock := if known then LockAt(s, id) else Lock(false, []);
    var free := !lock.locked && lock.waiters == [];
    var h := Hist(s, p);
    State(s.registry[p := Entry(id, (if known then s.registry[p].queued else 0) + 1)],
          s.locks[id := if free then Lock(true, []) else lock.(waiters := lock.waiters + [r])],
          if known then s.nextLock else s.nextLock + 1,
          s.flights[r := Flight(p, id, if free then Inside else Waiting)],
          s.seen + {r},
          s.history[p := h.(arrivals := h.arrivals + [r], entered := if free then h.entered + [r] else h.entered)])
  }

  function AfterGrant(s: State, id: LockId): State
    requires Enabled(s, Grant(id))
  {
    var w := s.locks[id].waiters[0];
    var p := s.flights[w].phone;
    var h := Hist(s, p);
    s.(locks := s.locks[id := Lock(true, s.locks[id].waiters[1..])],
       flights := s.flights[w := s.flights[w].(status := Inside)],
       history := s.history[p := h.(entered := h.entered + [w])])
  }

  function AfterRelease(s: State, r: Request): State
    requires Enabled(s, Release(r))
  {
    var p := s.flights[r].phone;
    var id := s.flights[r].lock;
    var locks := if LockAt(s, id).locked then s.locks[id := LockAt(s, id).(locked := false)] else s.locks;
    var h := Hist(s, p);
    var registry :=
      if p !in s.registry then s.registry
      else
        var queued := if s.registry[p].queued == 0 then 0 else s.registry[p].queued - 1;
        var own := s.registry[p].lock;
        if queued == 0 && !(own in locks && locks[own].locked) then s.registry - {p}
        else s.registry[p := Entry(own, queued)];
    s.(registry := registry, locks := locks, flights := s.flights - {r},
       history := s.history[p := h.(releases := h.releases + 1)])
  }

  /** A request that is cancelled at the lock leaves its queue but not the entry's count. */
  function AfterCancel(s: State, r: Request): State
    requires Enabled(s, Cancel(r))
  {
    var p := s.flights[r].phone;
    var id := s.flights[r].lock;
    var lock := LockAt(s, id);
    var h := Hist(s, p);
    s.(locks := s.locks[id := lock.(waiters := Without(lock.waiters, r))], flights := s.flights - {r},
       history := s.history[p := h.(arrivals := Without(h.arrivals, r), cancelled := h.cancelled + 1)])
  }

  function After(s: State, step: Step): State
    requires Enabled(s, step)
  {
    match step
    case Register(r, p) => AfterRegister(s, r, p)
    case Grant(id) => AfterGrant(s, id)
    case Release(r) => AfterRelease(s, r)
    case Cancel(r) => AfterCancel(s, r)
  }

  // ---------------------------------------------------------------- invariant

  /** The requests under way for a phone. */
  function InFlight(s: State, p: Phone): map<Request, Flight> {
    map r | r in s.flights && s.flights[r].phone == p :: s.flights[r]
  }

  predicate NoDup(q: seq<Request>) {
    forall i, k :: 0 <= i < k < |q| ==> q[i] != q[k]
  }

  /** An entry, its lock, the requests under way and the history of one phone agree: the count
      is the requests plus the cancelled ones, the waiters are the waiting requests, the lock is
      held exactly by the last one that entered, and all others entered and left before. */
  ghost predicate Agree(e: Entry, lock: Lock, m: map<Request, Flight>, h: History) {
    && e.queued == |m| + h.cancelled && e.queued > 0
    && (forall r :: r in m ==> m[r].lock == e.lock)
    && (forall r :: r in m && m[r].status == Waiting ==> r in lock.waiters)
    && (forall w :: w in lock.waiters ==> w in m && m[w].status == Waiting)
    && (forall r :: r in m && m[r].status == Inside ==>
          lock.locked && h.entered != [] && r == h.entered[|h.entered| - 1])
    && (lock.locked ==> h.entered != [])
    && (lock.locked ==> h.entered[|h.entered| - 1] in m && m[h.entered[|h.entered| - 1]].status == Inside)
    && NoDup(h.arrivals)
    && h.arrivals == h.entered + lock.waiters
    && |h.entered| == h.releases + (if lock.locked then 1 else 0)
  }

  ghost predicate Idle(m: map<Request, Flight>, h: History) {
    m == map[] && h.cancelled == 0 && h.arrivals == h.entered && |h.entered| == h.releases && NoDup(h.arrivals)
  }

  /** All that the registry and its users know of one phone. */
  datatype PhoneView =
    | Absent(m: map<Request, Flight>, h: History)
    | Present(e: Entry, lock: Lock, m: map<Request, Flight>, h: History)

  function View(s: State, p: Phone): PhoneView {
    if p in s.registry then Present(s.registry[p], LockAt(s, s.registry[p].lock), InFlight(s, p), Hist(s, p))
    else Absent(InFlight(s, p), Hist(s, p))
  }

  ghost predicate ViewOk(v: PhoneView) {
    match v
    case Absent(m, h) => Idle(m, h)
    case Present(e, lock, m, h) => Agree(e, lock, m, h)
  }

  ghost predicate Views(s: State) {
    forall p :: ViewOk(View(s, p))
  }

  /** Lock objects are never shared between phones, and waiters are requests under way. */
  ghost predicate Names(s: State) {
    && (forall p :: p in s.registry ==> s.registry[p].lock in s.locks && s.registry[p].lock < s.nextLock)
    && (forall p, q :: p in s.registry && q in s.registry && p != q ==> s.registry[p].lock != s.registry[q].lock)
    && (forall p, r :: r in Hist(s, p).arrivals ==> r in s.seen)
    && (forall r :: r in s.flights ==> r in s.seen)
    && (forall id, w :: id in s.locks && w in s.locks[id].waiters ==> w in s.flights && s.flights[w].lock == id)
  }

  ghost predicate Inv(s: State) {
    Views(s) && Names(s)
  }

  /** A request under way uses its phone's current lock object, and nobody else does. */
  lemma {:induction false} CurrentLock(s: State, r: Request)
    requires Inv(s) && r in s.flights
    ensures s.flights[r].phone in s.registry && s.registry[s.flights[r].phone].lock == s.flights[r].lock
    ensures s.flights[r].lock in s.locks
    ensures forall q :: q in s.registry && q != s.flights[r].phone ==> s.registry[q].lock != s.flights[r].lock
  {
    var p := s.flights[r].phone;
    assert ViewOk(View(s, p)) && r in InFlight(s, p);
  }

  // ---------------------------------------------------------------- register

  lemma {:induction false} AgreeEnter(e: Entry, lock: Lock, m: map<Request, Flight>, h: History, r: Request, f: Flight)
    requires Agree(e, lock, m, h) || (e.queued == 0 && Idle(m, h) && !lock.locked && lock.waiters == [])
    requires r !in m && r !in h.arrivals && f.lock == e.lock && !lock.locked && lock.waiters == [] && f.status == Inside
    ensures Agree(Entry(e.lock, e.queued + 1), Lock(true, []), m[r := f],
                  h.(arrivals := h.arrivals + [r], entered := h.entered + [r]))
  {
  }

  lemma {:induction false} AgreeQueue(e: Entry, lock: Lock, m: map<Request, Flight>, h: History, r: Request, f: Flight)
    requires Agree(e, lock, m, h)
    requires r !in m && r !in h.arrivals && f.lock == e.lock && f.status == Waiting
    ensures Agree(Entry(e.lock, e.queued + 1), lock.(waiters := lock.waiters + [r]), m[r := f],
                  h.(arrivals := h.arrivals + [r]))
  {
    assert h.entered + (lock.waiters + [r]) == h.arrivals + [r];
    assert |m[r := f]| == |m| + 1;
  }

  lemma {:induction false} RegisterEffect(s: State, r: Request, p: Phone)
    requires Names(s) && r !in s.seen
    ensures var t := AfterRegister(s, r, p); var m, h := InFlight(s, p), Hist(s, p);
      var e := if p in s.registry then s.registry[p] else Entry(s.nextLock, 0);
      var lock := if p in s.registry then LockAt(s, e.lock) else Lock(false, []);
      && t.flights[r] == Flight(p, e.lock, if lock == Lock(false, []) then Inside else Waiting)
      && View(t, p) == if lock == Lock(false, [])
          then Present(Entry(e.lock, e.queued + 1), Lock(true, []), m[r := t.flights[r]],
                       h.(arrivals := h.arrivals + [r], entered := h.entered + [r]))
          else Present(Entry(e.lock, e.queued + 1), lock.(waiters := lock.waiters + [r]), m[r := t.flights[r]],
                       h.(arrivals := h.arrivals + [r]))
  {
    var t := AfterRegister(s, r, p);
    assert InFlight(t, p) == InFlight(s, p)[r := t.flights[r]];
  }

  lemma {:induction false} RegisterOthers(s: State, r: Request, p: Phone, q: Phone)
    requires Names(s) && r !in s.seen && q != p
    ensures View(AfterRegister(s, r, p), q) == View(s, q)
  {
    assert InFlight(AfterRegister(s, r, p), q) == InFlight(s, q);
  }

  lemma {:induction false} RegisterViews(s: State, r: Request, p: Phone)
    requires Inv(s) && Enabled(s, Register(r, p))
    ensures Views(AfterRegister(s, r, p))
  {
    var t := AfterRegister(s, r, p);
    forall q | q != p ensures ViewOk(View(t, q)) {
      RegisterOthers(s, r, p, q);
      assert ViewOk(View(s, q));
    }
    RegisterEffect(s, r, p);
    assert ViewOk(View(s, p));
    match View(s, p)
    case Absent(m, h) =>
      AgreeEnter(Entry(s.nextLock, 0), Lock(false, []), m, h, r, t.flights[r]);
    case Present(e, lock, m, h) =>
      if lock == Lock(false, []) {
        AgreeEnter(e, lock, m, h, r, t.flights[r]);
      } else {
        AgreeQueue(e, lock, m, h, r, t.flights[r]);
      }
  }

  lemma {:induction false} RegisterNames(s: State, r: Request, p: Phone)
    requires Names(s) && Enabled(s, Register(r, p))
    ensures Names(AfterRegister(s, r, p))
  {
    var t := AfterRegister(s, r, p);
    forall q | q != p ensures Hist(t, q) == Hist(s, q) { }
    assert Hist(t, p).arrivals == Hist(s, p).arrivals + [r];
  }

  // ---------------------------------------------------------------- grant

  lemma {:induction false} SplitNoDup(a: seq<Request>, b: seq<Request>)
    requires NoDup(a + b)
    ensures NoDup(b) && forall x :: x in a ==> x !in b
  {
    assert forall k :: 0 <= k < |b| ==> b[k] == (a + b)[|a| + k];
    assert forall k :: 0 <= k < |a| ==> a[k] == (a + b)[k];
  }

  lemma {:induction false} TailMembers(q: seq<Request>)
    requires NoDup(q) && q != []
    ensures q == [q[0]] + q[1..]
    ensures forall x :: x in q[1..] <==> x in q && x != q[0]
  {
  }

  lemma {:induction false} AgreeGrant(e: Entry, lock: Lock, m: map<Request, Flight>, h: History, w: Request)
    requires Agree(e, lock, m, h) && !lock.locked && lock.waiters != [] && w == lock.waiters[0]
    ensures w in m
    ensures Agree(e, Lock(true, lock.waiters[1..]), m[w := m[w].(status := Inside)], h.(entered := h.entered + [w]))
  {
    SplitNoDup(h.entered, lock.waiters);
    TailMembers(lock.waiters);
    assert h.entered + [w] + lock.waiters[1..] == h.arrivals;
    assert w in lock.waiters;
    assert m.Keys == m[w := m[w].(status := Inside)].Keys;
  }

  lemma {:induction false} GrantEffect(s: State, id: LockId, p: Phone)
    requires Names(s) && Enabled(s, Grant(id)) && p == s.flights[s.locks[id].waiters[0]].phone
    requires p in s.registry && s.registry[p].lock == id
    ensures var t := AfterGrant(s, id); var w := s.locks[id].waiters[0]; var m, h := InFlight(s, p), Hist(s, p);
      && w in m
      && View(t, p) == Present(s.registry[p], Lock(true, s.locks[id].waiters[1..]),
                               m[w := m[w].(status := Inside)], h.(entered := h.entered + [w]))
      && (forall q :: q != p ==> View(t, q) == View(s, q))
  {
    var t := AfterGrant(s, id);
    var w := s.locks[id].waiters[0];
    assert InFlight(t, p) == InFlight(s, p)[w := InFlight(s, p)[w].(status := Inside)];
    forall q | q != p ensures View(t, q) == View(s, q) { GrantOthers(s, id, p, q); }
  }

  lemma {:induction false} GrantOthers(s: State, id: LockId, p: Phone, q: Phone)
    requires Names(s) && Enabled(s, Grant(id)) && p == s.flights[s.locks[id].waiters[0]].phone
    requires p in s.registry && s.registry[p].lock == id && q != p
    ensures View(AfterGrant(s, id), q) == View(s, q)
  {
    assert InFlight(AfterGrant(s, id), q) == InFlight(s, q);
  }

  lemma {:induction false} GrantViews(s: State, id: LockId)
    requires Inv(s) && Enabled(s, Grant(id))
    ensures Views(AfterGrant(s, id))
  {
    var w := s.locks[id].waiters[0];
    var p := s.flights[w].phone;
    CurrentLock(s, w);
    GrantEffect(s, id, p);
    assert ViewOk(View(s, p));
    AgreeGrant(s.registry[p], s.locks[id], InFlight(s, p), Hist(s, p), w);
    forall q | q != p ensures ViewOk(View(AfterGrant(s, id), q)) { assert ViewOk(View(s, q)); }
  }

  lemma {:induction false} GrantNames(s: State, id: LockId)
    requires Names(s) && Enabled(s, Grant(id))
    ensures Names(AfterGrant(s, id))
  {
    var t := AfterGrant(s, id);
    forall q ensures Hist(t, q).arrivals == Hist(s, q).arrivals { }
  }

  // ---------------------------------------------------------------- release

  /** The holder leaves; with nobody else counted the phone is idle again. */
  lemma {:induction false} AgreeRelease(e: Entry, lock: Lock, m: map<Request, Flight>, h: History, r: Request)
    requires Agree(e, lock, m, h) && r in m && m[r].status == Inside
    ensures e.queued > 1 ==>
      Agree(Entry(e.lock, e.queued - 1), Lock(false, lock.waiters), m - {r}, h.(releases := h.releases + 1))
    ensures e.queued == 1 ==> Idle(m - {r}, h.(releases := h.releases + 1)) && lock.waiters == []
  {
    assert (m - {r}).Keys == m.Keys - {r};
    assert |m - {r}| == |m| - 1;
    if e.queued == 1 {
      assert |m - {r}| == 0;
      FirstIsIn(lock.waiters);
      assert forall w :: w in lock.waiters ==> w in m - {r};
      assert h.entered + [] == h.entered;
    }
  }

  lemma {:induction false} FirstIsIn(q: seq<Request>)
    ensures q == [] || q[0] in q
  {
  }

  lemma {:induction false} ReleaseEffect(s: State, r: Request, p: Phone)
    requires Names(s) && Enabled(s, Release(r)) && p == s.flights[r].phone
    requires p in s.registry && s.registry[p].lock == s.flights[r].lock && s.registry[p].queued > 0
    requires LockAt(s, s.registry[p].lock).locked
    ensures var t := AfterRelease(s, r); var e := s.registry[p]; var m, h := InFlight(s, p), Hist(s, p);
      && r in m
      && View(t, p) == (if e.queued == 1 then Absent(m - {r}, h.(releases := h.releases + 1))
          else Present(Entry(e.lock, e.queued - 1), Lock(false, LockAt(s, e.lock).waiters), m - {r},
                       h.(releases := h.releases + 1)))
      && (forall q :: q != p ==> View(t, q) == View(s, q))
  {
    var t := AfterRelease(s, r);
    assert InFlight(t, p) == InFlight(s, p) - {r};
    forall q | q != p ensures View(t, q) == View(s, q) { ReleaseOthers(s, r, p, q); }
  }

  lemma {:induction false} ReleaseOthers(s: State, r: Request, p: Phone, q: Phone)
    requires Names(s) && Enabled(s, Release(r)) && p == s.flights[r].phone
    requires p in s.registry && s.registry[p].lock == s.flights[r].lock && q != p
    ensures View(AfterRelease(s, r), q) == View(s, q)
  {
    assert InFlight(AfterRelease(s, r), q) == InFlight(s, q);
  }

  /** Without cancellation at the guard, the missing-entry branch and the clamp at zero are
      never taken: the holder's entry exists, its count is positive and its lock is held. */
  lemma {:induction false} ReleaseBranches(s: State, r: Request)
    requires Inv(s) && Enabled(s, Release(r))
    ensures var p := s.flights[r].phone;
      && p in s.registry && s.registry[p].queued > 0
      && s.registry[p].lock == s.flights[r].lock && LockAt(s, s.flights[r].lock).locked
  {
    CurrentLock(s, r);
    assert ViewOk(View(s, s.flights[r].phone)) && r in InFlight(s, s.flights[r].phone);
  }

  lemma {:induction false} ReleaseViews(s: State, r: Request)
    requires Inv(s) && Enabled(s, Release(r))
    ensures Views(AfterRelease(s, r))
  {
    var p := s.flights[r].phone;
    ReleaseBranches(s, r);
    ReleaseEffect(s, r, p);
    assert ViewOk(View(s, p));
    AgreeRelease(s.registry[p], LockAt(s, s.registry[p].lock), InFlight(s, p), Hist(s, p), r);
    forall q | q != p ensures ViewOk(View(AfterRelease(s, r), q)) { assert ViewOk(View(s, q)); }
  }

  lemma {:induction false} ReleaseNames(s: State, r: Request)
    requires Inv(s) && Enabled(s, Release(r))
    ensures Names(AfterRelease(s, r))
  {
    var t := AfterRelease(s, r);
    ReleaseBranches(s, r);
    forall q ensures Hist(t, q).arrivals == Hist(s, q).arrivals { }
    forall id, w | id in t.locks && w in t.locks[id].waiters ensures w in t.flights && t.flights[w].lock == id {
      assert w in s.locks[id].waiters;
      CurrentLock(s, w);
      assert ViewOk(View(s, s.flights[w].phone));
    }
  }

  // ---------------------------------------------------------------- cancel

  lemma {:induction false} WithoutFacts(q: seq<Request>, r: Request)
    requires NoDup(q) && r in q
    ensures NoDup(Without(q, r))
    ensures forall x :: x in Without(q, r) <==> x in q && x != r
  {
    if q[0] != r {
      assert q == [q[0]] + q[1..];
      WithoutFacts(q[1..], r);
      assert q[0] !in q[1..];
    }
  }

  lemma {:induction false} WithoutAppend(a: seq<Request>, b: seq<Request>, r: Request)
    requires r !in a
    ensures Without(a + b, r) == a + Without(b, r)
  {
    if a == [] {
      assert a + b == b;
    } else {
      assert (a + b)[1..] == a[1..] + b;
      WithoutAppend(a[1..], b, r);
    }
  }

  lemma {:induction false} AgreeCancel(e: Entry, lock: Lock, m: map<Request, Flight>, h: History, r: Request)
    requires Agree(e, lock, m, h) && r in m && m[r].status == Waiting
    ensures Agree(e, lock.(waiters := Without(lock.waiters, r)), m - {r},
                  h.(arrivals := Without(h.arrivals, r), cancelled := h.cancelled + 1))
    ensures forall x :: x in Without(h.arrivals, r) ==> x in h.arrivals
    ensures forall x :: x in Without(lock.waiters, r) <==> x in lock.waiters && x != r
  {
    assert (m - {r}).Keys == m.Keys - {r};
    assert |m - {r}| == |m| - 1;
    SplitNoDup(h.entered, lock.waiters);
    assert r in lock.waiters && r !in h.entered && r in h.arrivals;
    WithoutFacts(lock.waiters, r);
    WithoutFacts(h.arrivals, r);
    WithoutAppend(h.entered, lock.waiters, r);
  }

  lemma {:induction false} CancelEffect(s: State, r: Request, p: Phone)
    requires Names(s) && Enabled(s, Cancel(r)) && p == s.flights[r].phone
    requires p in s.registry && s.registry[p].lock == s.flights[r].lock
    ensures var t := AfterCancel(s, r); var e := s.registry[p]; var lock := LockAt(s, e.lock);
      var m, h := InFlight(s, p), Hist(s, p);
      && r in m
      && View(t, p) == Present(e, lock.(waiters := Without(lock.waiters, r)), m - {r},
                               h.(arrivals := Without(h.arrivals, r), cancelled := h.cancelled + 1))
      && (forall q :: q != p ==> View(t, q) == View(s, q))
  {
    var t := AfterCancel(s, r);
    assert InFlight(t, p) == InFlight(s, p) - {r};
    forall q | q != p ensures View(t, q) == View(s, q) { assert InFlight(t, q) == InFlight(s, q); }
  }

  lemma {:induction false} CancelViews(s: State, r: Request)
    requires Inv(s) && Enabled(s, Cancel(r))
    ensures Views(AfterCancel(s, r))
  {
    var p := s.flights[r].phone;
    CurrentLock(s, r);
    CancelEffect(s, r, p);
    assert ViewOk(View(s, p));
    AgreeCancel(s.registry[p], LockAt(s, s.registry[p].lock), InFlight(s, p), Hist(s, p), r);
    forall q | q != p ensures ViewOk(View(AfterCancel(s, r), q)) { assert ViewOk(View(s, q)); }
  }

  lemma {:induction false} CancelMembers(s: State, r: Request, p: Phone)
    requires Inv(s) && Enabled(s, Cancel(r)) && p == s.flights[r].phone
    ensures forall x :: x in Without(Hist(s, p).arrivals, r) ==> x in Hist(s, p).arrivals
    ensures var waiters := LockAt(s, s.flights[r].lock).waiters;
      forall x :: x in Without(waiters, r) <==> x in waiters && x != r
  {
    CurrentLock(s, r);
    assert ViewOk(View(s, p)) && r in InFlight(s, p);
    AgreeCancel(s.registry[p], LockAt(s, s.registry[p].lock), InFlight(s, p), Hist(s, p), r);
  }

  lemma {:induction false} CancelNames(s: State, r: Request)
    requires Inv(s) && Enabled(s, Cancel(r))
    ensures Names(AfterCancel(s, r))
  {
    var t := AfterCancel(s, r);
    CancelMembers(s, r, s.flights[r].phone);
    forall q | q != s.flights[r].phone ensures Hist(t, q) == Hist(s, q) { }
    forall id, w | id in t.locks && w in t.locks[id].waiters ensures w in t.flights && t.flights[w].lock == id {
      CancelWaiter(s, r, id, w);
    }
  }

  lemma {:induction false} CancelWaiter(s: State, r: Request, id: LockId, w: Request)
    requires Inv(s) && Enabled(s, Cancel(r))
    requires id in AfterCancel(s, r).locks && w in AfterCancel(s, r).locks[id].waiters
    ensures w in AfterCancel(s, r).flights && s.flights[w].lock == id
  {
    CurrentLock(s, r);
    CancelMembers(s, r, s.flights[r].phone);
    assert w in s.locks[id].waiters;
  }

  // ---------------------------------------------------------------- all runs

  lemma {:induction false} StepKeeps(s: State, step: Step)
    requires Inv(s) && Enabled(s, step)
    ensures Inv(After(s, step))
  {
    match step
    case Register(r, p) => RegisterViews(s, r, p); RegisterNames(s, r, p);
    case Grant(id) => GrantViews(s, id); GrantNames(s, id);
    case Release(r) => ReleaseViews(s, r); ReleaseNames(s, r);
    case Cancel(r) => CancelViews(s, r); CancelNames(s, r);
  }

  /** The state after the first `n` steps of a schedule, skipping steps that are not enabled. */
  ghost function Run(s: State, steps: seq<Step>, n: nat): State
    requires n <= |steps|
  {
    if n == 0 then s
    else
      var before := Run(s, steps, n - 1);
      if Enabled(before, steps[n - 1]) then After(before, steps[n - 1]) else before
  }

  /** Whatever the schedule, the registry, the locks and the history agree. */
  lemma {:induction false} EveryRun(s: State, steps: seq<Step>, n: nat)
    requires Inv(s) && n <= |steps|
    ensures Inv(Run(s, steps, n))
  {
    if n > 0 {
      EveryRun(s, steps, n - 1);
      var before := Run(s, steps, n - 1);
      if Enabled(before, steps[n - 1]) { StepKeeps(before, steps[n - 1]); }
    }
  }

  lemma {:induction false} InitInv()
    ensures Inv(INIT)
  {
  }

  /** At most one request of a phone is being dispatched, although entries and lock objects
      come and go; all requests of a phone share one lock object that no other phone uses. */
  lemma {:induction false} MutualExclusion(s: State, r1: Request, r2: Request)
    requires Inv(s) && r1 in s.flights && r2 in s.flights
    ensures s.flights[r1].phone == s.flights[r2].phone <==> s.flights[r1].lock == s.flights[r2].lock
    ensures s.flights[r1].phone == s.flights[r2].phone && s.flights[r1].status == Inside == s.flights[r2].status ==>
      r1 == r2
  {
    CurrentLock(s, r1);
    CurrentLock(s, r2);
    assert ViewOk(View(s, s.flights[r1].phone));
    assert r1 in InFlight(s, s.flights[r1].phone) && r2 in InFlight(s, s.flights[r2].phone);
  }

  /** An entry outlives its requests exactly when one of them was cancelled at the lock. */
  lemma {:induction false} EntryIff(s: State, p: Phone)
    requires Inv(s)
    ensures p in s.registry <==> InFlight(s, p) != map[] || Hist(s, p).cancelled > 0
    ensures p in s.registry ==> s.registry[p].queued == |InFlight(s, p)| + Hist(s, p).cancelled
  {
    assert ViewOk(View(s, p));
  }

  /** Requests of one phone enter in arrival order, and the `i`-th arrival (of those that did
      not give up) is inside exactly when `i` have been released and the lock is taken. */
  lemma {:induction false} ServedInOrder(s: State, p: Phone, i: nat)
    requires Inv(s) && i < |Hist(s, p).arrivals|
    ensures Hist(s, p).entered <= Hist(s, p).arrivals
    ensures var r := Hist(s, p).arrivals[i];
      (r in InFlight(s, p) && s.flights[r].status == Inside) <==>
        i == Hist(s, p).releases && |Hist(s, p).entered| == i + 1
  {
    var h := Hist(s, p);
    var r := h.arrivals[i];
    assert ViewOk(View(s, p));
    if r in InFlight(s, p) && s.flights[r].status == Inside {
      assert h.arrivals[|h.entered| - 1] == h.entered[|h.entered| - 1] == r;
    }
    if i == h.releases && |h.entered| == i + 1 {
      assert r == h.entered[i];
    }
  }

  /** While a request waits, its phone has a request inside or its lock can be granted. */
  lemma {:induction false} NeverStuck(s: State, r: Request)
    requires Inv(s) && r in s.flights && s.flights[r].status == Waiting
    ensures var id := s.flights[r].lock;
      Enabled(s, Grant(id)) || exists x :: Enabled(s, Release(x)) && s.flights[x].phone == s.flights[r].phone
  {
    var p := s.flights[r].phone;
    CurrentLock(s, r);
    assert ViewOk(View(s, p)) && r in InFlight(s, p);
    var lock := LockAt(s, s.flights[r].lock);
    if lock.locked {
      var x := Hist(s, p).entered[|Hist(s, p).entered| - 1];
      assert x in InFlight(s, p) && Enabled(s, Release(x));
    } else {
      assert lock.waiters[0] in lock.waiters;
    }
  }

  function ElementsOf(q: seq<Request>): set<Request> {
    set x | x in q
  }

  lemma {:induction false} DistinctCount(q: seq<Request>)
    requires NoDup(q)
    ensures |ElementsOf(q)| == |q|
  {
    if q != [] {
      var n := |q| - 1;
      DistinctCount(q[..n]);
      assert q == q[..n] + [q[n]];
      assert ElementsOf(q) == ElementsOf(q[..n]) + {q[n]};
    }
  }

  lemma {:induction false} AgreeCount(e: Entry, lock: Lock, m: map<Request, Flight>, h: History)
    requires Agree(e, lock, m, h)
    ensures |m| + h.releases == |h.arrivals|
  {
    SplitNoDup(h.entered, lock.waiters);
    DistinctCount(lock.waiters);
    if lock.locked {
      var holder := h.entered[|h.entered| - 1];
      assert m.Keys == ElementsOf(lock.waiters) + {holder};
      assert holder !in ElementsOf(lock.waiters);
    } else {
      assert m.Keys == ElementsOf(lock.waiters);
    }
  }

  /** The requests under way are the ones that came and have not been released. */
  lemma {:induction false} AheadCount(s: State, p: Phone)
    requires Inv(s)
    ensures |InFlight(s, p)| + Hist(s, p).releases == |Hist(s, p).arrivals|
  {
    assert ViewOk(View(s, p));
    if p in s.registry {
      AgreeCount(s.registry[p], LockAt(s, s.registry[p].lock), InFlight(s, p), Hist(s, p));
    }
  }

  lemma {:induction false} ArrivalsGrow(s: State, steps: seq<Step>, n: nat, p: Phone)
    requires Inv(s) && n <= |steps| && forall i :: 0 <= i < n ==> !steps[i].Cancel?
    ensures Hist(s, p).arrivals <= Hist(Run(s, steps, n), p).arrivals
  {
    if n > 0 {
      ArrivalsGrow(s, steps, n - 1, p);
      var before := Run(s, steps, n - 1);
      if Enabled(before, steps[n - 1]) {
        match steps[n - 1]
        case Register(r, q) =>
        case Grant(id) =>
        case Release(r) =>
      }
    }
  }

  /** A request that finds `k` others of its phone under way is dispatched after exactly `k`
      releases, whatever else is scheduled, as long as nobody is cancelled. */
  lemma {:induction false} EntersAfterThoseAhead(s: State, r: Request, p: Phone, steps: seq<Step>, n: nat)
    requires Inv(s) && Enabled(s, Register(r, p))
    requires n <= |steps| && forall i :: 0 <= i < n ==> !steps[i].Cancel?
    ensures var later := Run(AfterRegister(s, r, p), steps, n);
      (r in InFlight(later, p) && later.flights[r].status == Inside) ==>
        Hist(later, p).releases == Hist(s, p).releases + |InFlight(s, p)|
  {
    var t := AfterRegister(s, r, p);
    StepKeeps(s, Register(r, p));
    EveryRun(t, steps, n);
    ArrivalsGrow(t, steps, n, p);
    AheadCount(s, p);
    var later := Run(t, steps, n);
    var i := |Hist(s, p).arrivals|;
    assert Hist(t, p).arrivals == Hist(s, p).arrivals + [r];
    assert Hist(later, p).arrivals[i] == r;
    ServedInOrder(later, p, i);
  }

  // ---------------------------------------------------------------- the webhook's code

  class PhoneLockRegistry {
    var registry: map<Phone, Entry>
    var locks: map<LockId, Lock>
    var nextLock: LockId
    // The coroutines at the lock, and what has happened; the code itself keeps neither.
    var flights: map<Request, Flight>
    var seen: set<Request>
    var history: map<Phone, History>

    function Now(): State
      reads this
    {
      State(registry, locks, nextLock, flights, seen, history)
    }

    constructor ()
      ensures Now() == INIT && Inv(Now())
    {
      registry, locks, nextLock, flights, seen, history := map[], map[], 0, map[], {}, map[];
      new;
      InitInv();
    }

    /** The guarded section: take or create the phone's entry and count the request. */
    method CountRequest(phone: Phone) returns (id: LockId)
      requires phone in registry ==> registry[phone].lock in locks
      modifies `registry, `locks, `nextLock
      ensures id == if phone in old(registry) then old(registry)[phone].lock else old(nextLock)
      ensures var queued := if phone in old(registry) then old(registry)[phone].queued else 0;
        registry == old(registry)[phone := Entry(id, queued + 1)]
      ensures locks == if phone in old(registry) then old(locks) else old(locks)[id := Lock(false, [])]
      ensures nextLock == if phone in old(registry) then old(nextLock) else old(nextLock) + 1
    {
      if phone !in registry {
        locks := locks[nextLock := Lock(false, [])];
        registry := registry[phone := Entry(nextLock, 0)];
        nextLock := nextLock + 1;
      }
      registry := registry[phone := registry[phone].(queued := registry[phone].queued + 1)];
      id := registry[phone].lock;
    }

    /** The guarded section and the first, non-suspending part of `lock.acquire()`. */
    method AcquireInboundPhoneLock(r: Request, phone: Phone)
      requires phone in registry ==> registry[phone].lock in locks
      modifies this
      ensures Now() == AfterRegister(old(Now()), r, phone)
    {
      var id := CountRequest(phone);
      var h := if phone in history then history[phone] else History([], [], 0, 0);
      seen := seen + {r};
      if !locks[id].locked && locks[id].waiters == [] {
        locks := locks[id := Lock(true, [])];
        flights := flights[r := Flight(phone, id, Inside)];
        history := history[phone := h.(arrivals := h.arrivals + [r], entered := h.entered + [r])];
      } else {
        locks := locks[id := locks[id].(waiters := locks[id].waiters + [r])];
        flights := flights[r := Flight(phone, id, Waiting)];
        history := history[phone := h.(arrivals := h.arrivals + [r])];
      }
    }

    /** The guarded section that follows the dispatch, with its two defensive branches. */
    method ReleaseInboundPhoneLock(r: Request)
      requires Enabled(Now(), Release(r)) && flights[r].lock in locks
      requires flights[r].phone in registry ==> registry[flights[r].phone].lock in locks
      modifies this
      ensures Now() == AfterRelease(old(Now()), r)
    {
      var phone, id := flights[r].phone, flights[r].lock;
      var h := if phone in history then history[phone] else History([], [], 0, 0);
      history := history[phone := h.(releases := h.releases + 1)];
      flights := flights - {r};
      if phone !in registry {
        if locks[id].locked {
          locks := locks[id := locks[id].(locked := false)];
        }
        return;
      }
      if locks[id].locked {
        locks := locks[id := locks[id].(locked := false)];
      }
      var own := registry[phone].lock;
      var queued := if registry[phone].queued == 0 then 0 else registry[phone].queued - 1;
      if queued == 0 && !locks[own].locked {
        registry := registry - {phone};
      } else {
        registry := registry[phone := Entry(own, queued)];
      }
    }
  }

}
