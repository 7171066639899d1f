/** The chat history sent to the model, and its repair
    (app/ai/runner.py, `_sanitize_session_messages`). */
module ChatHistory {
  import opened Wrappers

  datatype Role = System | User | Assistant | Tool

  // A tool call as stored in an assistant message; id "" stands for a missing id.
  datatype CallRef = CallRef(id: string, name: string)

  datatype Message = Message(role: Role, content: string, calls: seq<CallRef>, toolCallId: string, toolName: string)

  function Text(role: Role, content: string): Message {
    Message(role, content, [], "", "")
  }

  /** The ids an assistant message waits for; falsy ids are ignored. */
  function CallIds(m: Message): set<string> {
    if m.role == Assistant then set c | c in m.calls && c.id != "" :: c.id else {}
  }

  /** A message that needs no neighbours: not a tool result, and waiting for no tool. */
  predicate Standalone(m: Message) {
    m.role != Tool && CallIds(m) == {}
  }

  // ---------------------------------------------------------------- tool-completeness

  /** One past the last result that the assistant message at `j` needs. */
  function BlockEnd(h: seq<Message>, j: nat): nat
    requires j < |h|
  {
    j + 1 + |CallIds(h[j])|
  }

  ghost predicate Answers(h: seq<Message>, j: nat, k: nat)
    requires j < |h| && k < |h|
  {
    h[k].role == Tool && h[k].toolCallId in CallIds(h[j])
  }

  /** An assistant message followed at once by distinct results for its call ids, one each. */
  ghost predicate BlockAt(h: seq<Message>, j: nat) {
    && j < |h|
    && CallIds(h[j]) != {}
    && BlockEnd(h, j) <= |h|
    && (forall k: nat :: j < k < BlockEnd(h, j) ==> Answers(h, j, k))
    && (forall k: nat, l: nat :: j < k < l < BlockEnd(h, j) ==> h[k].toolCallId != h[l].toolCallId)
  }

  ghost predicate InBlock(h: seq<Message>, j: nat, i: nat) {
    BlockAt(h, j) && j <= i < BlockEnd(h, j)
  }

  /** Position `i` is a message of its own, or belongs to a complete block. */
  ghost predicate Sound(h: seq<Message>, i: nat)
    requires i < |h|
  {
    Standalone(h[i]) || exists j: nat :: InBlock(h, j, i)
  }

  /** Every call is answered at once by exactly its results, and no result stands alone. */
  ghost predicate ToolComplete(h: seq<Message>) {
    forall i: nat :: i < |h| ==> Sound(h, i)
  }

  /** What the repair must keep of the first `i` messages: the sound positions, in order. */
  ghost function SoundPart(h: seq<Message>, i: nat): (r: seq<Message>)
    requires i <= |h|
  {
    if i == 0 then []
    else if Sound(h, i - 1) then SoundPart(h, i - 1) + [h[i - 1]]
    else SoundPart(h, i - 1)
  }

  ghost function Repaired(h: seq<Message>): seq<Message> {
    SoundPart(h, |h|)
  }

  /** No complete block runs across the cut in front of position `i`. */
  ghost predicate Cut(h: seq<Message>, i: nat) {
    forall j: nat :: j < i && BlockAt(h, j) ==> BlockEnd(h, j) <= i
  }

  lemma {:induction false} DistinctIdsCover(h: seq<Message>, lo: nat, hi: nat, ids: set<string>)
    requires lo <= hi <= |h| && hi - lo == |ids|
    requires forall k: nat :: lo <= k < hi ==> h[k].toolCallId in ids
    requires forall k: nat, l: nat :: lo <= k < l < hi ==> h[k].toolCallId != h[l].toolCallId
    ensures forall id :: id in ids ==> exists k: nat :: lo <= k < hi && h[k].toolCallId == id
    decreases hi
  {
    if lo < hi {
      var last := h[hi - 1].toolCallId;
      DistinctIdsCover(h, lo, hi - 1, ids - {last});
      forall id | id in ids ensures exists k: nat :: lo <= k < hi && h[k].toolCallId == id {
        if id == last {
          assert h[hi - 1].toolCallId == id;
        } else {
          assert id in ids - {last};
        }
      }
    }
  }

  /** Completeness spelled out: each call id is answered exactly once inside the block. */
  lemma {:induction false} BlockAnswersEveryCallOnce(h: seq<Message>, j: nat, id: string)
    requires BlockAt(h, j) && id in CallIds(h[j])
    ensures exists k: nat :: j < k < BlockEnd(h, j) && h[k].role == Tool && h[k].toolCallId == id
    ensures forall k: nat, l: nat ::
      j < k < l < BlockEnd(h, j) ==> !(h[k].toolCallId == id && h[l].toolCallId == id)
  {
    forall k: nat | j < k < BlockEnd(h, j) ensures h[k].toolCallId in CallIds(h[j]) { assert Answers(h, j, k); }
    DistinctIdsCover(h, j + 1, BlockEnd(h, j), CallIds(h[j]));
    var k: nat :| j + 1 <= k < BlockEnd(h, j) && h[k].toolCallId == id;
    assert Answers(h, j, k);
  }

  /** A position strictly inside a complete block holds a tool result. */
  lemma {:induction false} InsideBlockIsTool(h: seq<Message>, j: nat, i: nat)
    requires InBlock(h, j, i) && j < i
    ensures h[i].role == Tool && CallIds(h[i]) == {}
  {
    assert Answers(h, j, i);
  }

  /** A message that is not a tool result can only be the head of a block. */
  lemma {:induction false} HeadStartsBlock(h: seq<Message>, j: nat)
    requires j < |h| && h[j].role != Tool
    ensures Cut(h, j)
    ensures Sound(h, j) <==> Standalone(h[j]) || BlockAt(h, j)
  {
    forall k: nat | k < j && BlockAt(h, k) ensures BlockEnd(h, k) <= j {
      if j < BlockEnd(h, k) { InsideBlockIsTool(h, k, j); }
    }
    if BlockAt(h, j) { assert InBlock(h, j, j); }
  }

  lemma {:induction false} SoundPartSkips(h: seq<Message>, s: nat, i: nat)
    requires s <= i <= |h|
    requires forall k: nat :: s <= k < i ==> !Sound(h, k)
    ensures SoundPart(h, i) == SoundPart(h, s)
  {
    if s < i { SoundPartSkips(h, s, i - 1); }
  }

  lemma {:induction false} SoundPartKeeps(h: seq<Message>, s: nat, i: nat)
    requires s <= i <= |h|
    requires forall k: nat :: s <= k < i ==> Sound(h, k)
    ensures SoundPart(h, i) == SoundPart(h, s) + h[s..i]
  {
    if s < i {
      SoundPartKeeps(h, s, i - 1);
      assert h[s..i] == h[s..i - 1] + [h[i - 1]];
    }
  }

  // ---------------------------------------------------------------- the automaton

  /** The messages since the call at `s` are the results in `CallIds(h[s]) - expected`. */
  ghost predicate Waiting(h: seq<Message>, s: nat, i: nat, expected: set<string>) {
    && s < i <= |h|
    && CallIds(h[s]) != {}
    && expected <= CallIds(h[s])
    && |expected| + (i - s) == 1 + |CallIds(h[s])|
    && (forall k: nat :: s < k < i ==> Answers(h, s, k) && h[k].toolCallId !in expected)
    && (forall k: nat, l: nat :: s < k < l < i ==> h[k].toolCallId != h[l].toolCallId)
  }

  lemma {:induction false} WaitingReceives(h: seq<Message>, s: nat, i: nat, expected: set<string>)
    requires Waiting(h, s, i, expected)
    requires i < |h| && h[i].role == Tool && h[i].toolCallId in expected
    ensures Waiting(h, s, i + 1, expected - {h[i].toolCallId})
  {
  }

  /** All the ids that are no longer expected have been used up. */
  lemma {:induction false} UsedUp(h: seq<Message>, s: nat, i: nat, expected: set<string>, id: string)
    requires Waiting(h, s, i, expected) && id in CallIds(h[s]) && id !in expected
    ensures exists k: nat :: s < k < i && h[k].toolCallId == id
  {
    assert |CallIds(h[s]) - expected| == |CallIds(h[s])| - |expected|;
    forall k: nat | s < k < i ensures h[k].toolCallId in CallIds(h[s]) - expected { assert Answers(h, s, k); }
    DistinctIdsCover(h, s + 1, i, CallIds(h[s]) - expected);
    assert id in CallIds(h[s]) - expected;
    var k: nat :| s + 1 <= k < i && h[k].toolCallId == id;
  }

  lemma {:induction false} NotABlock(h: seq<Message>, s: nat, i: nat, expected: set<string>)
    requires Waiting(h, s, i, expected) && expected != {}
    requires i < |h| ==> h[i].role != Tool || h[i].toolCallId !in expected
    ensures !BlockAt(h, s)
  {
    assert |expected| > 0;
    if i < BlockEnd(h, s) <= |h| && Answers(h, s, i) {
      UsedUp(h, s, i, expected, h[i].toolCallId);
    }
  }

  /** A waiting call that meets an unexpected message, or the end, loses all its messages. */
  lemma {:induction false} BrokenBlock(h: seq<Message>, s: nat, i: nat, expected: set<string>)
    requires Waiting(h, s, i, expected) && expected != {}
    requires i < |h| ==> h[i].role != Tool || h[i].toolCallId !in expected
    ensures forall k: nat :: s <= k < i ==> !Sound(h, k)
    ensures Cut(h, i)
  {
    NotABlock(h, s, i, expected);
    HeadStartsBlock(h, s);
    forall k: nat | s < k < i ensures CallIds(h[k]) == {} && !Standalone(h[k]) { assert Answers(h, s, k); }
    forall k: nat | s <= k < i ensures !Sound(h, k) {
      forall j: nat ensures !InBlock(h, j, k) {
        if j < s && BlockAt(h, j) { assert BlockEnd(h, j) <= s; }
      }
    }
  }

  lemma {:induction false} CompletedBlock(h: seq<Message>, s: nat, i: nat)
    requires Waiting(h, s, i, {})
    ensures BlockAt(h, s) && BlockEnd(h, s) == i
    ensures SoundPart(h, i) == SoundPart(h, s) + h[s..i]
    ensures Cut(h, i)
  {
    assert BlockAt(h, s);
    forall k: nat | s <= k < i ensures Sound(h, k) { assert InBlock(h, s, k); }
    SoundPartKeeps(h, s, i);
    HeadStartsBlock(h, s);
    forall k: nat | s < k < i ensures CallIds(h[k]) == {} { assert Answers(h, s, k); }
  }

  /** The scan has settled the first `s` messages and holds back those in `s..i`. */
  ghost predicate Scanned(h: seq<Message>, i: nat, s: nat, cleaned: seq<Message>, dropped: nat,
                          pending: Option<Message>, tools: seq<Message>, expected: set<string>) {
    && s <= i <= |h|
    && dropped + |cleaned| == s
    && cleaned == SoundPart(h, s)
    && (if pending.None? then s == i && Cut(h, i) else
          Waiting(h, s, i, expected) && expected != {} && pending.value == h[s] && tools == h[s + 1..i])
  }

  lemma {:induction false} AfterCall(h: seq<Message>, i: nat, cleaned: seq<Message>, dropped: nat,
                                     tools: seq<Message>, expected: set<string>)
    requires i < |h| && Scanned(h, i, i, cleaned, dropped, None, tools, expected) && CallIds(h[i]) != {}
    ensures Scanned(h, i + 1, i, cleaned, dropped, Some(h[i]), [], CallIds(h[i]))
  {
  }

  lemma {:induction false} AfterResult(h: seq<Message>, i: nat, s: nat, cleaned: seq<Message>, dropped: nat,
                    call: Message, tools: seq<Message>, expected: set<string>)
    requires i < |h| && Scanned(h, i, s, cleaned, dropped, Some(call), tools, expected)
    requires h[i].role == Tool && h[i].toolCallId in expected
    ensures var rest := expected - {h[i].toolCallId}; var held := tools + [h[i]];
      if rest == {} then Scanned(h, i + 1, i + 1, cleaned + [call] + held, dropped, None, [], {})
      else Scanned(h, i + 1, s, cleaned, dropped, Some(call), held, rest)
  {
    WaitingReceives(h, s, i, expected);
    if expected - {h[i].toolCallId} == {} {
      CompletedBlock(h, s, i + 1);
      assert h[s..i + 1] == [call] + (tools + [h[i]]);
    }
  }

  lemma {:induction false} AfterBreak(h: seq<Message>, i: nat, s: nat, cleaned: seq<Message>, dropped: nat,
                   call: Message, tools: seq<Message>, expected: set<string>)
    requires Scanned(h, i, s, cleaned, dropped, Some(call), tools, expected)
    requires i < |h| ==> h[i].role != Tool || h[i].toolCallId !in expected
    ensures Scanned(h, i, i, cleaned, dropped + 1 + |tools|, None, [], {})
  {
    BrokenBlock(h, s, i, expected);
    SoundPartSkips(h, s, i);
  }

  lemma {:induction false} AfterLone(h: seq<Message>, i: nat, cleaned: seq<Message>, dropped: nat,
                                     tools: seq<Message>, expected: set<string>)
    requires i < |h| && Scanned(h, i, i, cleaned, dropped, None, tools, expected) && CallIds(h[i]) == {}
    ensures if h[i].role == Tool then Scanned(h, i + 1, i + 1, cleaned, dropped + 1, None, tools, expected)
            else Scanned(h, i + 1, i + 1, cleaned + [h[i]], dropped, None, tools, expected)
  {
  }

  /** The one-pass repair. `expected` loses an id per accepted result; a block is copied
      out only when it becomes empty. */
  method SanitizeSessionMessages(messages: seq<Message>) returns (cleaned: seq<Message>, dropped: nat)
    ensures cleaned == Repaired(messages)
    ensures dropped == |messages| - |cleaned|
  {
    cleaned, dropped := [], 0;
    var pendingAssistant: Option<Message> := None;
    var pendingTools: seq<Message> := [];
    var expected: set<string> := {};
    ghost var s := 0;
    for i := 0 to |messages|
      invariant Scanned(messages, i, s, cleaned, dropped, pendingAssistant, pendingTools, expected)
    {
      var message := messages[i];
      if pendingAssistant.Some? {
        if message.role == Tool && message.toolCallId in expected {
          AfterResult(messages, i, s, cleaned, dropped, pendingAssistant.value, pendingTools, expected);
          pendingTools := pendingTools + [message];
          expected := expected - {message.toolCallId};
          if expected == {} {
            cleaned := cleaned + [pendingAssistant.value];
            cleaned := cleaned + pendingTools;
            pendingAssistant, pendingTools := None, [];
            s := i + 1;
          }
          continue;
        }
        AfterBreak(messages, i, s, cleaned, dropped, pendingAssistant.value, pendingTools, expected);
        dropped := dropped + 1 + |pendingTools|;
        pendingAssistant, pendingTools, expected := None, [], {};
        s := i;
      }
      if message.role == Assistant && message.calls != [] {
        var toolIds := set c | c in message.calls && c.id != "" :: c.id;
        if toolIds != {} {
          AfterCall(messages, i, cleaned, dropped, pendingTools, expected);
          pendingAssistant, expected, pendingTools := Some(message), toolIds, [];
          continue;
        }
      }
      AfterLone(messages, i, cleaned, dropped, pendingTools, expected);
      s := i + 1;
      if message.role == Tool {
        dropped := dropped + 1;
        continue;
      }
      cleaned := cleaned + [message];
    }
    if pendingAssistant.Some? {
      AfterBreak(messages, |messages|, s, cleaned, dropped, pendingAssistant.value, pendingTools, expected);
      dropped := dropped + 1 + |pendingTools|;
    }
  }

  // ---------------------------------------------------------------- what the repair means

  lemma {:induction false} ShiftBlock(a: seq<Message>, b: seq<Message>, j: nat)
    ensures BlockAt(a, j) ==> BlockAt(a + b, j) && BlockEnd(a + b, j) == BlockEnd(a, j)
    ensures j < |b| ==> BlockEnd(a + b, |a| + j) == |a| + BlockEnd(b, j)
    ensures BlockAt(b, j) <==> BlockAt(a + b, |a| + j)
  {
    var h := a + b;
    if BlockAt(a, j) {
      forall k: nat | j < k < BlockEnd(a, j) ensures Answers(h, j, k) { assert Answers(a, j, k); }
    }
    if BlockAt(b, j) {
      var head := |a| + j;
      forall k: nat | head < k < BlockEnd(h, head) ensures Answers(h, head, k) {
        assert Answers(b, j, k - |a|);
      }
    }
    if BlockAt(h, |a| + j) {
      forall k: nat | j < k < BlockEnd(b, j) ensures Answers(b, j, k) { assert Answers(h, |a| + j, |a| + k); }
      forall k: nat, l: nat | j < k < l < BlockEnd(b, j) ensures b[k].toolCallId != b[l].toolCallId {
        assert h[|a| + k].toolCallId != h[|a| + l].toolCallId;
      }
    }
  }

  lemma {:induction false} HeadOfComplete(a: seq<Message>, j: nat)
    requires ToolComplete(a) && j < |a| && CallIds(a[j]) != {}
    ensures BlockAt(a, j)
  {
    assert Sound(a, j);
    var k: nat :| InBlock(a, k, j);
    if k < j { InsideBlockIsTool(a, k, j); }
  }

  /** Behind a tool-complete prefix, soundness only looks at the rest. */
  lemma {:induction false} SoundAfterComplete(a: seq<Message>, b: seq<Message>, i: nat)
    requires ToolComplete(a) && i < |b|
    ensures Sound(a + b, |a| + i) <==> Sound(b, i)
  {
    var h := a + b;
    forall j: nat ensures InBlock(b, j, i) <==> InBlock(h, |a| + j, |a| + i) { ShiftBlock(a, b, j); }
    var pos := |a| + i;
    forall j: nat | j < |a| ensures !InBlock(h, j, pos) {
      if CallIds(a[j]) != {} {
        HeadOfComplete(a, j);
        ShiftBlock(a, b, j);
      }
    }
    if !Standalone(b[i]) && Sound(h, |a| + i) {
      var j: nat :| InBlock(h, j, |a| + i);
      assert InBlock(b, j - |a|, i);
    }
  }

  lemma {:induction false} SoundBefore(a: seq<Message>, b: seq<Message>, i: nat)
    requires i < |a| && Sound(a, i)
    ensures Sound(a + b, i)
  {
    if j: nat :| InBlock(a, j, i) {
      ShiftBlock(a, b, j);
      assert InBlock(a + b, j, i);
    }
  }

  lemma {:induction false} CompleteConcat(a: seq<Message>, b: seq<Message>)
    requires ToolComplete(a)
    ensures ToolComplete(a + b) <==> ToolComplete(b)
  {
    forall i: nat | i < |b| ensures Sound(a + b, |a| + i) <==> Sound(b, i) { SoundAfterComplete(a, b, i); }
    if ToolComplete(b) {
      forall i: nat | i < |a + b| ensures Sound(a + b, i) {
        if i < |a| { SoundBefore(a, b, i); } else { assert Sound(b, i - |a|); }
      }
    }
    if ToolComplete(a + b) {
      forall i: nat | i < |b| ensures Sound(b, i) { assert Sound(a + b, |a| + i); }
    }
  }

  lemma {:induction false} WholeBlockComplete(b: seq<Message>)
    requires BlockAt(b, 0) && BlockEnd(b, 0) == |b|
    ensures ToolComplete(b)
  {
    forall i: nat | i < |b| ensures Sound(b, i) { assert InBlock(b, 0, i); }
  }

  lemma {:induction false} SliceOfBlock(h: seq<Message>, j: nat)
    requires BlockAt(h, j)
    ensures ToolComplete(h[j..BlockEnd(h, j)])
  {
    var b := h[j..BlockEnd(h, j)];
    assert b[0] == h[j];
    forall k: nat | 0 < k < |b| ensures Answers(b, 0, k) { assert Answers(h, j, j + k); }
    forall k: nat, l: nat | 0 < k < l < |b| ensures b[k].toolCallId != b[l].toolCallId {
      assert h[j + k].toolCallId != h[j + l].toolCallId;
    }
    WholeBlockComplete(b);
  }

  lemma {:induction false} SoundPartComplete(h: seq<Message>, i: nat)
    requires i <= |h| && Cut(h, i)
    ensures ToolComplete(SoundPart(h, i))
    decreases i
  {
    if i > 0 {
      var l := i - 1;
      if j: nat :| InBlock(h, j, l) {
        HeadStartsBlock(h, j);
        SoundPartComplete(h, j);
        assert BlockEnd(h, j) == i;
        forall k: nat | j <= k < i ensures Sound(h, k) { assert InBlock(h, j, k); }
        SoundPartKeeps(h, j, i);
        SliceOfBlock(h, j);
        CompleteConcat(SoundPart(h, j), h[j..i]);
      } else {
        forall j: nat | j < l && BlockAt(h, j) ensures BlockEnd(h, j) <= l {
          assert !InBlock(h, j, l);
        }
        SoundPartComplete(h, l);
        assert Sound(h, l) <==> Standalone(h[l]);
        if Standalone(h[l]) {
          assert ToolComplete([h[l]]) by { assert Standalone([h[l]][0]); }
          CompleteConcat(SoundPart(h, l), [h[l]]);
        }
      }
    }
  }

  /** The output of the repair is always acceptable to the model API. */
  lemma {:induction false} RepairedIsComplete(h: seq<Message>)
    ensures ToolComplete(Repaired(h))
  {
    SoundPartComplete(h, |h|);
  }

  /** Exactly the tool-complete histories come back unchanged. */
  lemma {:induction false} RepairedIdentityIff(h: seq<Message>)
    ensures Repaired(h) == h <==> ToolComplete(h)
  {
    RepairedIsComplete(h);
    if ToolComplete(h) { SoundPartKeeps(h, 0, |h|); }
  }

  /** The second pass at the top of a turn never drops anything. */
  lemma {:induction false} RepairIdempotent(h: seq<Message>)
    ensures Repaired(Repaired(h)) == Repaired(h)
  {
    RepairedIsComplete(h);
    RepairedIdentityIff(Repaired(h));
  }

  lemma {:induction false} SoundPartAfter(a: seq<Message>, b: seq<Message>, i: nat)
    requires ToolComplete(a) && i <= |b|
    ensures SoundPart(a + b, |a| + i) == a + SoundPart(b, i)
  {
    if i == 0 {
      forall k: nat | k < |a| ensures Sound(a + b, k) { SoundBefore(a, b, k); }
      SoundPartKeeps(a + b, 0, |a|);
      assert (a + b)[0..|a|] == a;
    } else {
      SoundPartAfter(a, b, i - 1);
      SoundAfterComplete(a, b, i - 1);
    }
  }

  /** Repair distributes over appending to a tool-complete history. */
  lemma {:induction false} RepairedAfterComplete(a: seq<Message>, b: seq<Message>)
    requires ToolComplete(a)
    ensures Repaired(a + b) == a + Repaired(b)
  {
    SoundPartAfter(a, b, |b|);
  }

  lemma {:induction false} SoundPartPrefix(h: seq<Message>, i: nat, k: nat)
    requires i <= k <= |h|
    ensures SoundPart(h, i) <= SoundPart(h, k)
  {
    if i < k { SoundPartPrefix(h, i, k - 1); }
  }

  /** Every complete block of the input survives in one piece; `p` says where. */
  lemma {:induction false} BlockSurvives(h: seq<Message>, j: nat) returns (p: nat)
    requires BlockAt(h, j)
    ensures p + (BlockEnd(h, j) - j) <= |Repaired(h)|
    ensures Repaired(h)[p..p + (BlockEnd(h, j) - j)] == h[j..BlockEnd(h, j)]
  {
    var e := BlockEnd(h, j);
    forall k: nat | j <= k < e ensures Sound(h, k) { assert InBlock(h, j, k); }
    SoundPartKeeps(h, j, e);
    SoundPartPrefix(h, e, |h|);
    p := |SoundPart(h, j)|;
    assert SoundPart(h, e)[p..] == h[j..e];
  }

  lemma {:induction false} PrefixComplete(h: seq<Message>, k: nat)
    requires ToolComplete(h) && k <= |h| && Cut(h, k)
    ensures ToolComplete(h[..k])
  {
    forall i: nat | i < k ensures Sound(h[..k], i) {
      assert Sound(h, i);
      if j: nat :| InBlock(h, j, i) {
        forall l: nat | j < l < BlockEnd(h, j) ensures Answers(h[..k], j, l) { assert Answers(h, j, l); }
        assert InBlock(h[..k], j, i);
      }
    }
  }

  /** Nothing of a block whose last results are cut off can be kept. */
  lemma {:induction false} CutBlockVanishes(h: seq<Message>, j: nat, k: nat)
    requires BlockAt(h, j) && j <= k < BlockEnd(h, j)
    ensures Repaired(h[j..k]) == []
  {
    var tail := h[j..k];
    forall i: nat | i < |tail| ensures !Sound(tail, i) {
      if i > 0 { InsideBlockIsTool(h, j, j + i); }
      forall l: nat ensures !InBlock(tail, l, i) {
        if 0 < l < |tail| { InsideBlockIsTool(h, j, j + l); }
      }
    }
    SoundPartSkips(tail, 0, |tail|);
  }

  /** Cutting a tool-complete history anywhere costs at most the block the cut runs through. */
  lemma {:induction false} RepairOfPrefix(h: seq<Message>, k: nat) returns (j: nat)
    requires ToolComplete(h) && k <= |h|
    ensures j <= k && Repaired(h[..k]) == h[..j] && ToolComplete(h[..j])
    ensures j == k || (BlockAt(h, j) && k < BlockEnd(h, j))
  {
    if i: nat :| i < k && BlockAt(h, i) && k < BlockEnd(h, i) {
      j := i;
      HeadStartsBlock(h, j);
      PrefixComplete(h, j);
      assert h[..k] == h[..j] + h[j..k];
      RepairedAfterComplete(h[..j], h[j..k]);
      CutBlockVanishes(h, j, k);
    } else {
      j := k;
      PrefixComplete(h, k);
      RepairedIdentityIff(h[..k]);
    }
  }
}
