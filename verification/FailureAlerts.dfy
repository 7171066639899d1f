/** Sliding-window alerts on repeated failures of one topic
    (app/application/use_cases/manage_human_handoff.py, `_record_failure_alert_if_needed`). */
module FailureAlerts {

  type Topic = string

  /** The events of the last `n` that lie in the window that ends at `now`, in order. */
  function Recent(times: seq<int>, n: nat, now: int, window: int): seq<int>
    requires n <= |times|
  {
    if n == 0 then []
    else if now - times[n - 1] <= window then Recent(times, n - 1, now, window) + [times[n - 1]]
    else Recent(times, n - 1, now, window)
  }

  predicate Ordered(times: seq<int>) {
    forall i, k :: 0 <= i < k < |times| ==> times[i] <= times[k]
  }

  /** The number of events in the window that ends at event `i`. */
  function Load(times: seq<int>, i: nat, window: int): nat
    requires i < |times|
  {
    |Recent(times, i + 1, times[i], window)|
  }

  predicate Covered(alerts: seq<int>, at: int, window: int) {
    exists a :: a in alerts && 0 <= at - a <= window
  }

  /** The alerts of a topic against all its events: never two in one window, never without
      enough events, and never missing at an event that has enough of them. */
  ghost predicate WellAlerted(times: seq<int>, alerts: seq<int>, threshold: nat, window: int) {
    && Ordered(times) && Apart(alerts, window)
    && Backed(times, alerts, threshold, window) && Complete(times, alerts, threshold, window)
  }

  ghost predicate Apart(alerts: seq<int>, window: int) {
    forall i, k :: 0 <= i < k < |alerts| ==> alerts[k] - alerts[i] > window
  }

  predicate Busy(times: seq<int>, i: nat, threshold: nat, window: int)
    requires i < |times|
  {
    Load(times, i, window) >= threshold
  }

  ghost predicate Backed(times: seq<int>, alerts: seq<int>, threshold: nat, window: int) {
    forall a :: a in alerts ==> exists i: nat :: i < |times| && times[i] == a && Busy(times, i, threshold, window)
  }

  ghost predicate Complete(times: seq<int>, alerts: seq<int>, threshold: nat, window: int) {
    forall i: nat :: i < |times| && Busy(times, i, threshold, window) ==> Covered(alerts, times[i], window)
  }

  lemma {:induction false} RecentPrefix(times: seq<int>, t: int, n: nat, now: int, window: int)
    requires n <= |times|
    ensures Recent(times + [t], n, now, window) == Recent(times, n, now, window)
  {
    if n > 0 { RecentPrefix(times, t, n - 1, now, window); }
  }

  /** The list comprehension that prunes the stored samples. */
  function Prune(samples: seq<int>, n: nat, now: int, window: int): seq<int>
    requires n <= |samples|
  {
    Recent(samples, n, now, window)
  }

  /** Pruning an already pruned list again, later, is pruning the whole history. */
  lemma {:induction false} PruneTwice(times: seq<int>, n: nat, before: int, now: int, window: int)
    requires n <= |times| && before <= now
    ensures var kept := Recent(times, n, before, window);
      Recent(kept, |kept|, now, window) == Recent(times, n, now, window)
  {
    if n > 0 {
      PruneTwice(times, n - 1, before, now, window);
      var kept := Recent(times, n - 1, before, window);
      if before - times[n - 1] <= window {
        RecentPrefix(kept, times[n - 1], |kept|, now, window);
      }
    }
  }

  lemma {:induction false} BusyStays(times: seq<int>, now: int, i: nat, threshold: nat, window: int)
    requires i < |times|
    ensures Busy(times + [now], i, threshold, window) == Busy(times, i, threshold, window)
  {
    RecentPrefix(times, now, i + 1, times[i], window);
  }

  lemma {:induction false} BackedGrows(times: seq<int>, alerts: seq<int>, now: int, threshold: nat, window: int,
                                       alert: bool)
    requires Backed(times, alerts, threshold, window)
    requires alert ==> Busy(times + [now], |times|, threshold, window)
    ensures Backed(times + [now], if alert then alerts + [now] else alerts, threshold, window)
  {
    var more := times + [now];
    forall a | a in alerts ensures exists i: nat :: i < |more| && more[i] == a && Busy(more, i, threshold, window) {
      var i: nat :| i < |times| && times[i] == a && Busy(times, i, threshold, window);
      BusyStays(times, now, i, threshold, window);
      assert more[i] == a;
    }
    assert more[|times|] == now;
  }

  lemma {:induction false} CompleteGrows(times: seq<int>, alerts: seq<int>, now: int, threshold: nat, window: int,
                                         alert: bool)
    requires Complete(times, alerts, threshold, window) && window >= 0
    requires alert || !Busy(times + [now], |times|, threshold, window) || Covered(alerts, now, window)
    ensures Complete(times + [now], if alert then alerts + [now] else alerts, threshold, window)
  {
    var more := times + [now];
    var all := if alert then alerts + [now] else alerts;
    forall i: nat | i < |more| && Busy(more, i, threshold, window) ensures Covered(all, more[i], window) {
      if i < |times| {
        BusyStays(times, now, i, threshold, window);
        CoveredStays(alerts, now, times[i], window);
      } else if alert {
        assert now in all;
      }
    }
  }

  lemma {:induction false} CoveredStays(alerts: seq<int>, now: int, at: int, window: int)
    ensures Covered(alerts, at, window) ==> Covered(alerts + [now], at, window)
  {
    if a :| a in alerts && 0 <= at - a <= window { assert a in alerts + [now]; }
  }

  lemma {:induction false} AlertsPast(ts: seq<int>, als: seq<int>, threshold: nat, window: int, now: int)
    requires Backed(ts, als, threshold, window) && forall i :: 0 <= i < |ts| ==> ts[i] <= now
    ensures forall i :: 0 <= i < |als| ==> als[i] <= now
  {
    forall i | 0 <= i < |als| ensures als[i] <= now {
      assert als[i] in als;
    }
  }

  lemma {:induction false} ApartGrows(alerts: seq<int>, now: int, window: int)
    requires Apart(alerts, window) && !Covered(alerts, now, window)
    requires forall i :: 0 <= i < |alerts| ==> alerts[i] <= now
    ensures Apart(alerts + [now], window)
  {
    forall i | 0 <= i < |alerts| ensures now - alerts[i] > window {
      assert alerts[i] in alerts;
    }
  }

  /** One more event, with an alert exactly when the window is full and holds no alert. */
  lemma {:induction false} WellAlertedGrows(times: seq<int>, alerts: seq<int>, now: int, threshold: nat, window: int,
                                            alert: bool)
    requires WellAlerted(times, alerts, threshold, window) && window >= 0
    requires forall i :: 0 <= i < |times| ==> times[i] <= now
    requires alert <==> Busy(times + [now], |times|, threshold, window) && !Covered(alerts, now, window)
    ensures WellAlerted(times + [now], if alert then alerts + [now] else alerts, threshold, window)
  {
    BackedGrows(times, alerts, now, threshold, window, alert);
    CompleteGrows(times, alerts, now, threshold, window, alert);
    AlertsPast(times, alerts, threshold, window, now);
    if alert { ApartGrows(alerts, now, window); }
  }

  /** Between events the guarantee is weaker: enough events in the window of an arbitrary moment
      mean an alert at most two windows back. */
  lemma {:induction false} AlertWithinTwoWindows(times: seq<int>, alerts: seq<int>, threshold: nat, window: int,
                                                 moment: int)
    requires WellAlerted(times, alerts, threshold, window) && threshold > 0 && FullAt(times, threshold, window, moment)
    ensures Covered(alerts, moment, 2 * window)
  {
    var last := times[|times| - 1];
    RecentShrinks(times, |times|, last, moment, window);
    RecentEnds(times, |times|, moment, window);
    assert |Recent(times, |times|, last, window)| >= threshold;
    assert Busy(times, |times| - 1, threshold, window);
    CoveredLater(alerts, last, moment, window);
  }

  lemma {:induction false} CoveredLater(alerts: seq<int>, last: int, moment: int, window: int)
    requires Covered(alerts, last, window) && 0 <= moment - last <= window
    ensures Covered(alerts, moment, 2 * window)
  {
  }

  lemma {:induction false} RecentShrinks(times: seq<int>, n: nat, before: int, now: int, window: int)
    requires n <= |times| && before <= now
    ensures |Recent(times, n, now, window)| <= |Recent(times, n, before, window)|
  {
    if n > 0 { RecentShrinks(times, n - 1, before, now, window); }
  }

  lemma {:induction false} RecentEnds(times: seq<int>, n: nat, now: int, window: int)
    requires n <= |times| && Ordered(times)
    ensures Recent(times, n, now, window) != [] ==> n > 0 && now - times[n - 1] <= window
  {
    if n > 0 { RecentEnds(times, n - 1, now, window); }
  }

  /** At a moment past all events the window is full. */
  predicate FullAt(times: seq<int>, threshold: nat, window: int, moment: int) {
    times != [] && times[|times| - 1] <= moment && |Recent(times, |times|, moment, window)| >= threshold
  }

  /** All that is known of one topic; `last` holds the last alert if there was one. */
  datatype TopicView = TopicView(ts: seq<int>, als: seq<int>, samples: seq<int>, last: seq<int>)

  /** The stored samples are the events of the window that ended at the last event, and the
      stored alert is the last one. */
  ghost predicate Agrees(v: TopicView, threshold: nat, window: int, clock: int) {
    && WellAlerted(v.ts, v.als, threshold, window)
    && (forall i :: 0 <= i < |v.ts| ==> v.ts[i] <= clock)
    && v.samples == (if v.ts == [] then [] else Recent(v.ts, |v.ts|, v.ts[|v.ts| - 1], window))
    && v.last == (if v.als == [] then [] else [v.als[|v.als| - 1]])
  }

  lemma {:induction false} PrunedSamples(ts: seq<int>, kept: seq<int>, now: int, window: int)
    requires kept == if ts == [] then [] else Recent(ts, |ts|, ts[|ts| - 1], window)
    requires ts != [] ==> ts[|ts| - 1] <= now
    requires window >= 0
    ensures Recent(ts + [now], |ts| + 1, now, window) == Prune(kept, |kept|, now, window) + [now]
  {
    RecentPrefix(ts, now, |ts|, now, window);
    if ts != [] { PruneTwice(ts, |ts|, ts[|ts| - 1], now, window); }
  }

  /** Alerts are apart and past, so the last one alone says whether the window holds one. */
  lemma {:induction false} LastAlertDecides(als: seq<int>, window: int, now: int)
    requires Apart(als, window) && window >= 0 && forall i :: 0 <= i < |als| ==> als[i] <= now
    ensures Covered(als, now, window) <==> als != [] && now - als[|als| - 1] <= window
  {
    if als != [] { assert als[|als| - 1] in als; }
  }

  lemma {:induction false} DecideAlert(v: TopicView, threshold: nat, window: int, clock: int, now: int)
    requires Agrees(v, threshold, window, clock) && clock <= now && window >= 0
    ensures Covered(v.als, now, window) <==> v.last != [] && now - v.last[0] <= window
    ensures Prune(v.samples, |v.samples|, now, window) + [now] == Recent(v.ts + [now], |v.ts| + 1, now, window)
  {
    PrunedSamples(v.ts, v.samples, now, window);
    AlertsPast(v.ts, v.als, threshold, window, now);
    LastAlertDecides(v.als, window, now);
  }

  lemma {:induction false} AgreesGrows(v: TopicView, threshold: nat, window: int, clock: int, now: int, alert: bool)
    requires Agrees(v, threshold, window, clock) && clock <= now && window >= 0
    requires alert <==> |Recent(v.ts + [now], |v.ts| + 1, now, window)| >= threshold && !Covered(v.als, now, window)
    ensures Agrees(TopicView(v.ts + [now], if alert then v.als + [now] else v.als,
                             Recent(v.ts + [now], |v.ts| + 1, now, window), if alert then [now] else v.last),
                   threshold, window, now)
  {
    WellAlertedMore(v, threshold, window, clock, now, alert);
    LastsGrow(v, threshold, window, clock, now, alert);
  }

  lemma {:induction false} WellAlertedMore(v: TopicView, threshold: nat, window: int, clock: int, now: int, alert: bool)
    requires Agrees(v, threshold, window, clock) && clock <= now && window >= 0
    requires alert <==> |Recent(v.ts + [now], |v.ts| + 1, now, window)| >= threshold && !Covered(v.als, now, window)
    ensures WellAlerted(v.ts + [now], if alert then v.als + [now] else v.als, threshold, window)
  {
    var more := v.ts + [now];
    assert Load(more, |v.ts|, window) == |Recent(more, |v.ts| + 1, now, window)|;
    assert Busy(more, |v.ts|, threshold, window) <==> |Recent(more, |v.ts| + 1, now, window)| >= threshold;
    WellAlertedGrows(v.ts, v.als, now, threshold, window, alert);
  }

  lemma {:induction false} LastsGrow(v: TopicView, threshold: nat, window: int, clock: int, now: int, alert: bool)
    requires Agrees(v, threshold, window, clock) && clock <= now
    ensures forall i :: 0 <= i < |v.ts + [now]| ==> (v.ts + [now])[i] <= now
    ensures (v.ts + [now])[|v.ts + [now]| - 1] == now && |v.ts + [now]| == |v.ts| + 1
    ensures var als := if alert then v.als + [now] else v.als;
            (if alert then [now] else v.last) == if als == [] then [] else [als[|als| - 1]]
  {
  }

  /** The two dictionaries of the code, and everything that was recorded. */
  datatype State = State(samples: map<Topic, seq<int>>, last: map<Topic, int>,
                         times: map<Topic, seq<int>>, alerts: map<Topic, seq<int>>)

  function Of(m: map<Topic, seq<int>>, topic: Topic): seq<int> {
    if topic in m then m[topic] else []
  }

  function View(s: State, topic: Topic): TopicView {
    TopicView(Of(s.times, topic), Of(s.alerts, topic), Of(s.samples, topic),
              if topic in s.last then [s.last[topic]] else [])
  }

  ghost predicate AllAgree(s: State, threshold: nat, window: int, clock: int) {
    forall topic :: Agrees(View(s, topic), threshold, window, clock)
  }

  /** An alert is due when the window that ends now is full and holds no alert. */
  predicate Due(s: State, threshold: nat, window: int, topic: Topic, now: int) {
    var ts := Of(s.times, topic) + [now];
    |Recent(ts, |ts|, now, window)| >= threshold && !Covered(Of(s.alerts, topic), now, window)
  }

  function AfterRecord(s: State, threshold: nat, window: int, topic: Topic, now: int): State {
    var ts := Of(s.times, topic) + [now];
    var due := Due(s, threshold, window, topic, now);
    State(s.samples[topic := Recent(ts, |ts|, now, window)],
          if due then s.last[topic := now] else s.last,
          s.times[topic := ts],
          if due then s.alerts[topic := Of(s.alerts, topic) + [now]] else s.alerts)
  }

  lemma {:induction false} LaterClock(v: TopicView, threshold: nat, window: int, clock: int, now: int)
    requires Agrees(v, threshold, window, clock) && clock <= now
    ensures Agrees(v, threshold, window, now)
  {
  }

  lemma {:induction false} RecordView(s: State, threshold: nat, window: int, topic: Topic, now: int, other: Topic)
    ensures var t := AfterRecord(s, threshold, window, topic, now); var v := View(s, topic);
      var due := Due(s, threshold, window, topic, now);
      View(t, other) == if other != topic then View(s, other) else
        TopicView(v.ts + [now], if due then v.als + [now] else v.als, Recent(v.ts + [now], |v.ts| + 1, now, window),
                  if due then [now] else v.last)
  {
  }

  lemma {:induction false} RecordKeepsTopic(s: State, threshold: nat, window: int, clock: int, topic: Topic,
                                            now: int, other: Topic)
    requires Agrees(View(s, topic), threshold, window, clock) && Agrees(View(s, other), threshold, window, clock)
    requires clock <= now && window >= 0
    ensures Agrees(View(AfterRecord(s, threshold, window, topic, now), other), threshold, window, now)
  {
    RecordView(s, threshold, window, topic, now, other);
    if other == topic {
      AgreesGrows(View(s, topic), threshold, window, clock, now, Due(s, threshold, window, topic, now));
    } else {
      LaterClock(View(s, other), threshold, window, clock, now);
    }
  }

  /** Pruning the stored samples keeps every topic in step with its full history. */
  lemma {:induction false} RecordKeeps(s: State, threshold: nat, window: int, clock: int, topic: Topic, now: int)
    requires AllAgree(s, threshold, window, clock) && clock <= now && window >= 0
    ensures AllAgree(AfterRecord(s, threshold, window, topic, now), threshold, window, now)
  {
    forall other ensures Agrees(View(AfterRecord(s, threshold, window, topic, now), other), threshold, window, now) {
      assert Agrees(View(s, topic), threshold, window, clock) && Agrees(View(s, other), threshold, window, clock);
      RecordKeepsTopic(s, threshold, window, clock, topic, now, other);
    }
  }

  // ---------------------------------------------------------------- whole runs

  datatype Failure = Failure(topic: Topic, at: int)

  const START := State(map[], map[], map[], map[])

  predicate Timed(fs: seq<Failure>) {
    forall i :: 0 < i < |fs| ==> fs[i - 1].at <= fs[i].at
  }

  /** The state after the first `n` failures were recorded. */
  function Run(fs: seq<Failure>, threshold: nat, window: int, n: nat): State
    requires n <= |fs|
  {
    if n == 0 then START
    else AfterRecord(Run(fs, threshold, window, n - 1), threshold, window, fs[n - 1].topic, fs[n - 1].at)
  }

  /** The moments of a topic's failures. */
  function TimesOf(fs: seq<Failure>, topic: Topic, n: nat): seq<int>
    requires n <= |fs|
  {
    if n == 0 then [] else TimesOf(fs, topic, n - 1) + if fs[n - 1].topic == topic then [fs[n - 1].at] else []
  }

  lemma {:induction false} TimesRecorded(fs: seq<Failure>, threshold: nat, window: int, topic: Topic, n: nat)
    requires n <= |fs|
    ensures Of(Run(fs, threshold, window, n).times, topic) == TimesOf(fs, topic, n)
  {
    if n > 0 {
      TimesRecorded(fs, threshold, window, topic, n - 1);
    }
  }

  /** Over every timed run and for every topic: the stored samples are the failures of the trailing
      window, the stored alert is the last one, and the alerts are apart, founded and never missing
      at a failure. */
  lemma {:induction false} EveryRun(fs: seq<Failure>, threshold: nat, window: int, n: nat)
    requires Timed(fs) && n <= |fs| && window >= 0
    ensures AllAgree(Run(fs, threshold, window, n), threshold, window, if n == 0 then 0 else fs[n - 1].at)
  {
    if n > 0 {
      EveryRun(fs, threshold, window, n - 1);
      var before := Run(fs, threshold, window, n - 1);
      var now := fs[n - 1].at;
      if n == 1 {
        assert AllAgree(before, threshold, window, now);
        RecordKeeps(before, threshold, window, now, fs[0].topic, now);
      } else {
        assert fs[n - 2].at <= now;
        RecordKeeps(before, threshold, window, fs[n - 2].at, fs[n - 1].topic, now);
      }
    }
  }

  // ---------------------------------------------------------------- between failures

  /** The failures and the alerts of a topic at the end of a run. */
  function Told(fs: seq<Failure>, threshold: nat, window: int, topic: Topic): (seq<int>, seq<int>) {
    var s := Run(fs, threshold, window, |fs|);
    (Of(s.times, topic), Of(s.alerts, topic))
  }

  /** In every run, a topic whose window is full at some later moment has an alert in that window. */
  ghost predicate EveryMomentCovered(threshold: nat, window: int) {
    forall fs, topic, moment :: Timed(fs) && FullAt(Told(fs, threshold, window, topic).0, threshold, window, moment) ==>
                                Covered(Told(fs, threshold, window, topic).1, moment, window)
  }

  /** `k` failures of one topic at 0 and `k` more one window later. */
  ghost predicate TwoBursts(fs: seq<Failure>, topic: Topic, k: nat, window: int) {
    |fs| == 2 * k && forall i :: 0 <= i < |fs| ==> fs[i] == Failure(topic, if i < k then 0 else window)
  }

  lemma {:induction false} BurstTimes(fs: seq<Failure>, topic: Topic, k: nat, window: int, n: nat)
    requires TwoBursts(fs, topic, k, window) && n <= |fs|
    ensures |TimesOf(fs, topic, n)| == n
    ensures forall i :: 0 <= i < n ==> TimesOf(fs, topic, n)[i] == if i < k then 0 else window
  {
    if n > 0 {
      BurstTimes(fs, topic, k, window, n - 1);
    }
  }

  lemma {:induction false} CountBursts(times: seq<int>, k: nat, window: int, n: nat)
    requires n <= |times| && window >= 1 && forall i :: 0 <= i < |times| ==> times[i] == if i < k then 0 else window
    ensures n <= k ==> |Recent(times, n, 0, window)| == n
    ensures |Recent(times, n, window + 1, window)| == if n < k then 0 else n - k
  {
    if n > 0 {
      CountBursts(times, k, window, n - 1);
    }
  }

  /** The first burst raises one alert, with its `k`-th failure, and the second none. */
  lemma {:induction false} BurstAlerts(fs: seq<Failure>, topic: Topic, k: nat, window: int, n: nat)
    requires TwoBursts(fs, topic, k, window) && k >= 1 && window >= 1 && n <= |fs|
    ensures Of(Run(fs, k, window, n).alerts, topic) == if n < k then [] else [0]
  {
    if n > 0 {
      BurstAlerts(fs, topic, k, window, n - 1);
      BurstDue(fs, topic, k, window, n - 1);
    }
  }

  lemma {:induction false} BurstDue(fs: seq<Failure>, topic: Topic, k: nat, window: int, n: nat)
    requires TwoBursts(fs, topic, k, window) && k >= 1 && window >= 1 && n < |fs|
    requires Of(Run(fs, k, window, n).alerts, topic) == if n < k then [] else [0]
    ensures Due(Run(fs, k, window, n), k, window, topic, fs[n].at) <==> n == k - 1
  {
    var s := Run(fs, k, window, n);
    var times := TimesOf(fs, topic, n + 1);
    TimesRecorded(fs, k, window, topic, n);
    BurstTimes(fs, topic, k, window, n + 1);
    CountBursts(times, k, window, n + 1);
    assert Of(s.times, topic) + [fs[n].at] == times && |times| == n + 1;
    if n < k {
      assert fs[n].at == 0 && |Recent(times, n + 1, 0, window)| == n + 1;
      assert !Covered(Of(s.alerts, topic), 0, window);
    } else {
      assert fs[n].at == window && 0 in Of(s.alerts, topic);
      assert Covered(Of(s.alerts, topic), window, window);
    }
  }

  /** Just after the second burst the window is full and holds no alert. */
  lemma {:induction false} FullWindowWithoutAlert(fs: seq<Failure>, topic: Topic, k: nat, window: int)
    requires TwoBursts(fs, topic, k, window) && k >= 1 && window >= 1
    ensures Timed(fs) && FullAt(Told(fs, k, window, topic).0, k, window, window + 1)
    ensures !Covered(Told(fs, k, window, topic).1, window + 1, window)
  {
    TimesRecorded(fs, k, window, topic, |fs|);
    BurstTimes(fs, topic, k, window, |fs|);
    CountBursts(TimesOf(fs, topic, |fs|), k, window, |fs|);
    BurstAlerts(fs, topic, k, window, |fs|);
  }

  /** "A full window at any moment means an alert in that window" holds over all runs only for a
      window of no length; the code's windows last a minute or more. */
  lemma {:induction false} EveryMomentIff(threshold: nat, window: int)
    requires threshold >= 1 && window >= 0
    ensures EveryMomentCovered(threshold, window) <==> window == 0
  {
    if window == 0 {
      forall fs, topic, moment | Timed(fs) && FullAt(Told(fs, threshold, window, topic).0, threshold, window, moment)
        ensures Covered(Told(fs, threshold, window, topic).1, moment, window)
      {
        RunWithinTwoWindows(fs, threshold, window, topic, moment);
      }
    } else {
      var fs := seq(2 * threshold, i => Failure("t", if i < threshold then 0 else window));
      FullWindowWithoutAlert(fs, "t", threshold, window);
    }
  }

  /** Over every run two windows suffice. */
  lemma {:induction false} RunWithinTwoWindows(fs: seq<Failure>, threshold: nat, window: int, topic: Topic, moment: int)
    requires Timed(fs) && threshold >= 1 && window >= 0
    requires FullAt(Told(fs, threshold, window, topic).0, threshold, window, moment)
    ensures Covered(Told(fs, threshold, window, topic).1, moment, 2 * window)
  {
    EveryRun(fs, threshold, window, |fs|);
    var s := Run(fs, threshold, window, |fs|);
    assert Agrees(View(s, topic), threshold, window, if |fs| == 0 then 0 else fs[|fs| - 1].at);
    AlertWithinTwoWindows(Of(s.times, topic), Of(s.alerts, topic), threshold, window, moment);
  }

  class AlertState {
    const threshold: nat
    const window: int
    var samples: map<Topic, seq<int>>
    var lastAlertAt: map<Topic, int>
    ghost var times: map<Topic, seq<int>>
    ghost var alerts: map<Topic, seq<int>>

    ghost function Now(): State
      reads this
    {
      State(samples, lastAlertAt, times, alerts)
    }

    constructor (threshold: int, windowMinutes: int, start: int)
      ensures Now() == START && AllAgree(Now(), this.threshold, window, start)
      ensures threshold >= 1 ==> this.threshold == threshold
      ensures threshold < 1 ==> this.threshold == 1
      ensures windowMinutes >= 1 ==> window == 60 * windowMinutes
      ensures windowMinutes < 1 ==> window == 60
    {
      this.threshold := if threshold < 1 then 1 else threshold;
      this.window := 60 * (if windowMinutes < 1 then 1 else windowMinutes);
      samples, lastAlertAt, times, alerts := map[], map[], map[], map[];
    }

    /** What is kept and when the alert is raised, from the stored samples alone. */
    method RecordFailure(topic: Topic, now: int, ghost clock: int) returns (alert: bool)
      requires AllAgree(Now(), threshold, window, clock) && clock <= now && window >= 0
      modifies this
      ensures alert == old(Due(Now(), threshold, window, topic, now))
      ensures Now() == old(AfterRecord(Now(), threshold, window, topic, now))
    {
      ghost var view := View(Now(), topic);
      assert Agrees(view, threshold, window, clock);
      DecideAlert(view, threshold, window, clock, now);
      var kept := if topic in samples then samples[topic] else [];
      kept := Prune(kept, |kept|, now, window);
      kept := kept + [now];
      samples := samples[topic := kept];
      times := times[topic := Of(times, topic) + [now]];
      if |kept| < threshold {
        return false;
      }
      if topic in lastAlertAt && now - lastAlertAt[topic] <= window {
        return false;
      }
      lastAlertAt := lastAlertAt[topic := now];
      alerts := alerts[topic := Of(alerts, topic) + [now]];
      alert := true;
    }

    /** Recording failures one after the other is the run. */
    method RecordAll(fs: seq<Failure>)
      requires Timed(fs) && Now() == START && window >= 0
      modifies this
      ensures Now() == Run(fs, threshold, window, |fs|)
    {
      for i := 0 to |fs|
        invariant Now() == Run(fs, threshold, window, i)
      {
        EveryRun(fs, threshold, window, i);
        assert i == 0 ==> AllAgree(Now(), threshold, window, fs[i].at);
        var _ := RecordFailure(fs[i].topic, fs[i].at, if i == 0 then fs[0].at else fs[i - 1].at);
      }
    }
  }
}
