/** The webhook replay cache (app/security.py, `is_replay_event`), against the full history of
    its calls. */
module ReplayCache {

  type Id = string

  /** One call with a non-empty id: when it came and what it was answered. */
  datatype Call = Call(id: Id, at: int, replay: bool)

  /** An earlier call accepted this id at most `window` ago. */
  ghost predicate SeenRecently(calls: seq<Call>, id: Id, now: int, window: int) {
    exists i :: 0 <= i < |calls| && !calls[i].replay && calls[i].id == id && now - calls[i].at <= window
  }

  /** What the specification asks of a whole history: each answer says whether the id was
      accepted within the window, and the clock does not run backwards. */
  ghost predicate Correct(calls: seq<Call>, window: int) {
    && (forall i, k :: 0 <= i < k < |calls| ==> calls[i].at <= calls[k].at)
    && (forall k :: 0 <= k < |calls| ==>
          (calls[k].replay <==> SeenRecently(calls[..k], calls[k].id, calls[k].at, window)))
  }

  /** Two acceptances of one id are always more than a window apart. */
  lemma {:induction false} AcceptancesApart(calls: seq<Call>, window: int, i: nat, k: nat)
    requires Correct(calls, window) && i < k < |calls|
    requires calls[i].id == calls[k].id && !calls[i].replay && !calls[k].replay
    ensures calls[k].at - calls[i].at > window
  {
  }

  /** Every refused call has a witness: an acceptance of the same id inside the window. */
  lemma {:induction false} ReplayHasOriginal(calls: seq<Call>, window: int, k: nat)
    requires Correct(calls, window) && k < |calls| && calls[k].replay
    ensures exists i :: 0 <= i < k && calls[i].id == calls[k].id && !calls[i].replay
                        && 0 <= calls[k].at - calls[i].at <= window
  {
  }

  ghost predicate IsAcceptance(calls: seq<Call>, id: Id, at: int) {
    exists k :: 0 <= k < |calls| && calls[k] == Call(id, at, false)
  }

  /** The cache holds acceptances, among them all that can still matter at `clock`. */
  ghost predicate Tracks(calls: seq<Call>, seenAt: map<Id, int>, window: int, clock: int) {
    && Correct(calls, window)
    && (forall k :: 0 <= k < |calls| ==> calls[k].at <= clock)
    && (forall id :: id in seenAt ==> IsAcceptance(calls, id, seenAt[id]))
    && (forall k :: 0 <= k < |calls| && !calls[k].replay && clock - calls[k].at <= window ==>
          calls[k].id in seenAt && seenAt[calls[k].id] == calls[k].at)
  }

  function Pruned(seenAt: map<Id, int>, window: int, now: int): map<Id, int> {
    map key | key in seenAt && now - seenAt[key] <= window :: seenAt[key]
  }

  /** After pruning, being in the cache is having been accepted within the window. */
  lemma {:induction false} PrunedLookup(calls: seq<Call>, seenAt: map<Id, int>, id: Id, now: int, window: int,
                                        clock: int)
    requires Tracks(calls, seenAt, window, clock) && clock <= now
    ensures id in Pruned(seenAt, window, now) <==> SeenRecently(calls, id, now, window)
  {
  }

  lemma {:induction false} TracksCall(calls: seq<Call>, seenAt: map<Id, int>, id: Id, now: int, window: int, clock: int)
    requires Tracks(calls, seenAt, window, clock) && clock <= now
    ensures var pruned := Pruned(seenAt, window, now); var replay := id in pruned;
      Tracks(calls + [Call(id, now, replay)], if replay then pruned else pruned[id := now], window, now)
  {
    var pruned := Pruned(seenAt, window, now);
    var call := Call(id, now, id in pruned);
    PrunedLookup(calls, seenAt, id, now, window, clock);
    CorrectGrows(calls, window, call);
    AcceptanceStays(calls, call);
    StillHeld(calls, seenAt, call, window, clock);
  }

  /** Everything that can still matter after the call is in the cache with its time. */
  lemma {:induction false} StillHeld(calls: seq<Call>, seenAt: map<Id, int>, call: Call, window: int, clock: int)
    requires Tracks(calls, seenAt, window, clock) && clock <= call.at
    requires call.replay <==> call.id in Pruned(seenAt, window, call.at)
    ensures var pruned := Pruned(seenAt, window, call.at);
      var after := if call.replay then pruned else pruned[call.id := call.at];
      forall k :: 0 <= k < |calls + [call]| ==>
        var c := (calls + [call])[k];
        !c.replay && call.at - c.at <= window ==> c.id in after && after[c.id] == c.at
  {
  }

  lemma {:induction false} AcceptanceStays(calls: seq<Call>, call: Call)
    ensures forall id, at :: IsAcceptance(calls, id, at) ==> IsAcceptance(calls + [call], id, at)
    ensures !call.replay ==> IsAcceptance(calls + [call], call.id, call.at)
  {
    forall id, at | IsAcceptance(calls, id, at) ensures IsAcceptance(calls + [call], id, at) {
      var k :| 0 <= k < |calls| && calls[k] == Call(id, at, false);
      assert (calls + [call])[k] == calls[k];
    }
    assert (calls + [call])[|calls|] == call;
  }

  lemma {:induction false} CorrectGrows(calls: seq<Call>, window: int, call: Call)
    requires Correct(calls, window) && forall k :: 0 <= k < |calls| ==> calls[k].at <= call.at
    requires call.replay <==> SeenRecently(calls, call.id, call.at, window)
    ensures Correct(calls + [call], window)
  {
    var more := calls + [call];
    forall k | 0 <= k < |more| ensures more[k].replay <==> SeenRecently(more[..k], more[k].id, more[k].at, window) {
      assert more[..k] == if k < |calls| then calls[..k] else calls;
    }
  }

  class Cache {
    const window: int
    var seenAt: map<Id, int>
    ghost var calls: seq<Call>
    ghost var clock: int

    ghost predicate Valid()
      reads this
    {
      Tracks(calls, seenAt, window, clock)
    }

    constructor (window: int, start: int)
      ensures Valid() && this.window == window && calls == [] && clock == start
    {
      this.window := window;
      seenAt, calls, clock := map[], [], start;
    }

    method Prune(now: int)
      modifies `seenAt
      ensures seenAt == Pruned(old(seenAt), window, now)
    {
      var expired := set key | key in seenAt && now - seenAt[key] > window;
      ghost var all := expired;
      while expired != {}
        invariant expired <= all && seenAt == old(seenAt) - (all - expired)
      {
        var key :| key in expired;
        seenAt := seenAt - {key};
        expired := expired - {key};
      }
    }

    /** Pruning, lookup and insertion; an empty id is never a replay and is not recorded. */
    method IsReplayEvent(id: Id, now: int) returns (replay: bool)
      requires Valid() && clock <= now
      modifies this
      ensures Valid()
      ensures id == "" ==> !replay && calls == old(calls) && clock == old(clock)
      ensures id != "" ==> calls == old(calls) + [Call(id, now, replay)] && clock == now
      ensures id != "" ==> (replay <==> SeenRecently(old(calls), id, now, window))
    {
      if id == "" {
        return false;
      }
      PrunedLookup(calls, seenAt, id, now, window, clock);
      TracksCall(calls, seenAt, id, now, window, clock);
      Prune(now);
      replay := id in seenAt;
      if !replay {
        seenAt := seenAt[id := now];
      }
      calls, clock := calls + [Call(id, now, replay)], now;
    }
  }
}
