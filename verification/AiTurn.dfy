/** One turn of the assistant (app/ai/runner.py, `process_message_with_ai`, and
    app/ai/tool_execution.py, `handle_tool_call`) against an arbitrary model.

    A turn is given the answers the model would produce. Running out of answers stands for
    a request that raises, so every finite prefix of every conversation is covered. */
module AiTurn {
  import opened ChatHistory
  import opened Clock
  import opened Wrappers

  const AGENTS := {"TriageAgent", "CakeOrderAgent", "SweetOrderAgent", "KnowledgeAgent", "CafeteriaAgent",
                   "GiftOrderAgent"}

  // ---------------------------------------------------------------- inputs of a turn

  datatype Outcome = Failed(error: string) | Done(text: string)

  /** What the runtime does with a call. `Raises` is an exception outside the order `try`. */
  datatype Effect =
    | Raises
    | Transfer(agent: string, text: string)
    | Escalate(text: string)
    | CreateOrder(draft: Outcome, create: Outcome)
    | Answering(text: string)

  datatype ToolCall = ToolCall(id: string, name: string, effect: Effect)

  datatype Guard = TimeCutoff | Specificity | ComboTruth | TotalClaim | Discount | TruffleDenial

  /** A model answer; `conflicts` are the guards whose text policy objects to it. */
  datatype Answer = Answer(content: string, calls: seq<ToolCall>, conflicts: set<Guard>)

  /** The first text intent that applies once the user message is recorded. */
  datatype Intent = OptOut | Seasonal | FixedReply | Caseirinho | WantsHuman | ModelLoop(switchTo: seq<string>)

  /** One user message, what the text policies make of it, and the model's answers.
      `fixedReply` is the text of every reply that is given without the model. */
  datatype Turn = Turn(text: string, isGreeting: bool, intent: Intent, fixedReply: string, serviceNote: string,
                       correctionNote: string, clientReady: bool, answers: seq<Answer>)

  /** The text policies: which user texts confirm an order, which results are draft
      summaries, which replies claim a saved order, which protocol number a result carries; and
      the wording of prompts, notes and the handoff. */
  datatype Policy = Policy(confirming: iset<string>, drafts: iset<string>, savedClaims: iset<string>,
                           protocols: imap<string, string>, handoff: string,
                           prompts: map<string, string>, retryNotes: map<Guard, string>)

  /** A persisted order: the user text that confirmed it and the result of the order tool. */
  datatype SavedOrder = SavedOrder(userText: string, result: string)

  datatype Verdict = Rejected(guard: Guard) | Accepted

  datatype Reply = Interrupted | Reply(text: string)

  function PromptFor(policy: Policy, agent: string): string {
    if agent in policy.prompts then policy.prompts[agent]
    else if "TriageAgent" in policy.prompts then policy.prompts["TriageAgent"]
    else ""
  }

  function IsBlank(s: string): bool {
    forall c :: c in s ==> c in {' ', '\t', '\n', '\r'}
  }

  function IsSavedOrderResult(s: string): bool {
    || "Pedido salvo com sucesso!" <= s
    || "Pedido de doces salvo com sucesso!" <= s
    || "Pedido cafeteria salvo com sucesso!" <= s
    || "Pedido presente salvo com sucesso!" <= s
  }

  const SAVED_HEADER := "Pedido Anotado✅️\nAgradecemos a preferência 🥰"

  /** What the customer is told of a saved order, instead of the tool's result. */
  function FinalSavedOrderMessage(result: string, policy: Policy): string {
    if result in policy.protocols then SAVED_HEADER + "\nProtocolo: " + policy.protocols[result] else SAVED_HEADER
  }

  /** What the customer is told of an escalation whose gateway answered `raw`. */
  function HandoffMessage(raw: string, policy: Policy): string {
    if Strip(raw) == "" || Lower(Strip(raw)) == "ok" then policy.handoff else Strip(raw)
  }

  // ---------------------------------------------------------------- reading the history

  /** The last non-empty user message among the first `n`. */
  function LatestUserIn(h: seq<Message>, n: nat): string
    requires n <= |h|
  {
    if n == 0 then ""
    else if h[n - 1].role == User && h[n - 1].content != "" then h[n - 1].content
    else LatestUserIn(h, n - 1)
  }

  function LatestUser(h: seq<Message>): string {
    LatestUserIn(h, |h|)
  }

  function Confirms(text: string, policy: Policy): bool {
    text != "" && text in policy.confirming
  }

  function HasExplicitConfirmation(h: seq<Message>, policy: Policy): bool {
    Confirms(LatestUser(h), policy)
  }

  /** The tool whose result comes last, unless a reply or a user message follows it. */
  function LatestToolName(h: seq<Message>, n: nat): string
    requires n <= |h|
  {
    if n == 0 then ""
    else match h[n - 1].role
      case Tool => h[n - 1].toolName
      case System => LatestToolName(h, n - 1)
      case _ => ""
  }

  function LatestDraft(h: seq<Message>, n: nat, policy: Policy): Option<string>
    requires n <= |h|
  {
    if n == 0 then None
    else if h[n - 1].role == Tool && h[n - 1].content in policy.drafts then Some(h[n - 1].content)
    else LatestDraft(h, n - 1, policy)
  }

  function Refreshed(h: seq<Message>, prompt: string): seq<Message> {
    if h != [] && h[0].role == System then [h[0].(content := prompt)] + h[1..] else h
  }

  /** The history up to the wording of a leading system prompt. */
  function Unprompted(h: seq<Message>): seq<Message> {
    Refreshed(h, "")
  }

  // ---------------------------------------------------------------- what an answer adds

  function Refs(calls: seq<ToolCall>): seq<CallRef> {
    seq(|calls|, i requires 0 <= i < |calls| => CallRef(calls[i].id, calls[i].name))
  }

  function AssistantMessage(a: Answer): Message {
    Message(Assistant, a.content, Refs(a.calls), "", "")
  }

  function OutcomeText(o: Outcome): string {
    match o case Failed(e) => e case Done(t) => t
  }

  /** The text recorded for a call that neither raises nor ends the turn. */
  function ToolText(c: ToolCall, confirmed: bool): string {
    match c.effect
    case Raises => ""
    case Transfer(_, text) => text
    case Escalate(text) => text
    case CreateOrder(draft, create) => OutcomeText(if confirmed then create else draft)
    case Answering(text) => text
  }

  predicate Saves(c: ToolCall, confirmed: bool) {
    confirmed && c.effect.CreateOrder? && c.effect.create.Done? && IsSavedOrderResult(c.effect.create.text)
  }

  predicate EndsTurn(c: ToolCall, confirmed: bool) {
    c.effect.Escalate? || Saves(c, confirmed)
  }

  function ToolMessage(c: ToolCall, confirmed: bool): Message {
    Message(Tool, ToolText(c, confirmed), [], c.id, c.name)
  }

  /** The results of the first `n` calls. */
  function Results(calls: seq<ToolCall>, n: nat, confirmed: bool): seq<Message>
    requires n <= |calls|
  {
    if n == 0 then [] else Results(calls, n - 1, confirmed) + [ToolMessage(calls[n - 1], confirmed)]
  }

  lemma {:induction false} ResultsAt(calls: seq<ToolCall>, n: nat, confirmed: bool)
    requires n <= |calls|
    ensures |Results(calls, n, confirmed)| == n
    ensures forall i :: 0 <= i < n ==> Results(calls, n, confirmed)[i] == ToolMessage(calls[i], confirmed)
  {
    if n > 0 { ResultsAt(calls, n - 1, confirmed); }
  }

  /** An answer with the results of its first `n` calls. */
  function Round(a: Answer, n: nat, confirmed: bool): seq<Message>
    requires n <= |a.calls|
  {
    [AssistantMessage(a)] + Results(a.calls, n, confirmed)
  }

  /** The history `n` judged answers leave: accepted ones with all their results, nothing else. */
  function Transcript(answers: seq<Answer>, verdicts: seq<Verdict>, n: nat, confirmed: bool): seq<Message>
    requires n <= |verdicts| <= |answers|
  {
    if n == 0 then []
    else
      var earlier := Transcript(answers, verdicts, n - 1, confirmed);
      if verdicts[n - 1].Accepted? then earlier + Round(answers[n - 1], |answers[n - 1].calls|, confirmed) else earlier
  }

  predicate DistinctIds(calls: seq<ToolCall>, n: nat)
    requires n <= |calls|
  {
    && (forall i :: 0 <= i < n ==> calls[i].id != "")
    && (forall i, k :: 0 <= i < k < n ==> calls[i].id != calls[k].id)
  }

  /** What the model API guarantees of the call ids of one answer. */
  predicate UsableIds(a: Answer) {
    DistinctIds(a.calls, |a.calls|)
  }

  // ---------------------------------------------------------------- lemmas on histories

  function Ids(calls: seq<ToolCall>, n: nat): set<string>
    requires n <= |calls|
  {
    if n == 0 then {} else Ids(calls, n - 1) + (if calls[n - 1].id == "" then {} else {calls[n - 1].id})
  }

  lemma {:induction false} IdsAre(calls: seq<ToolCall>, n: nat, id: string)
    requires n <= |calls|
    ensures id in Ids(calls, n) <==> id != "" && exists i :: 0 <= i < n && calls[i].id == id
  {
    if n > 0 { IdsAre(calls, n - 1, id); }
  }

  lemma {:induction false} IdsCount(calls: seq<ToolCall>, n: nat)
    requires n <= |calls|
    ensures |Ids(calls, n)| <= n
    ensures |Ids(calls, n)| == n <==> DistinctIds(calls, n)
  {
    if n > 0 {
      var last := calls[n - 1].id;
      IdsCount(calls, n - 1);
      IdsAre(calls, n - 1, last);
      if last != "" && last !in Ids(calls, n - 1) {
        assert |Ids(calls, n)| == |Ids(calls, n - 1)| + 1;
      } else {
        assert Ids(calls, n) == Ids(calls, n - 1);
      }
    }
  }

  lemma {:induction false} CallIdsOf(a: Answer)
    ensures CallIds(AssistantMessage(a)) == Ids(a.calls, |a.calls|)
    ensures |CallIds(AssistantMessage(a))| <= |a.calls|
    ensures |CallIds(AssistantMessage(a))| == |a.calls| <==> UsableIds(a)
  {
    var n := |a.calls|;
    var refs := Refs(a.calls);
    forall id ensures id in CallIds(AssistantMessage(a)) <==> id in Ids(a.calls, n) {
      IdsAre(a.calls, n, id);
      if i :| 0 <= i < n && a.calls[i].id == id { assert refs[i] in refs && refs[i].id == id; }
    }
    assert CallIds(AssistantMessage(a)) == Ids(a.calls, n);
    IdsCount(a.calls, n);
  }

  /** Result `k` of a round answers call `k - 1`. */
  lemma {:induction false} ResultAnswers(a: Answer, confirmed: bool, k: nat)
    requires UsableIds(a) && 0 < k <= |a.calls|
    ensures var h := Round(a, |a.calls|, confirmed);
      |h| == |a.calls| + 1 && Answers(h, 0, k) && h[k].toolCallId == a.calls[k - 1].id
  {
    CallIdsOf(a);
    ResultsAt(a.calls, |a.calls|, confirmed);
    IdsAre(a.calls, |a.calls|, a.calls[k - 1].id);
  }

  lemma {:induction false} UsableRoundComplete(a: Answer, confirmed: bool)
    requires UsableIds(a)
    ensures ToolComplete(Round(a, |a.calls|, confirmed))
  {
    var h := Round(a, |a.calls|, confirmed);
    CallIdsOf(a);
    ResultsAt(a.calls, |a.calls|, confirmed);
    if a.calls == [] {
      assert Standalone(h[0]);
    } else {
      assert h[0] == AssistantMessage(a) && BlockEnd(h, 0) == |h|;
      forall k: nat | 0 < k < |h| ensures Answers(h, 0, k) && h[k].toolCallId == a.calls[k - 1].id {
        ResultAnswers(a, confirmed, k);
      }
      assert BlockAt(h, 0);
      WholeBlockComplete(h);
    }
  }

  lemma {:induction false} UnusableRoundBroken(a: Answer, confirmed: bool)
    requires !UsableIds(a)
    ensures !ToolComplete(Round(a, |a.calls|, confirmed))
  {
    var h := Round(a, |a.calls|, confirmed);
    CallIdsOf(a);
    ResultsAt(a.calls, |a.calls|, confirmed);
    assert forall k: nat :: 0 < k < |h| ==> h[k] == ToolMessage(a.calls[k - 1], confirmed);
    var last := |h| - 1;
    forall j: nat ensures !InBlock(h, j, last) { }
    assert !Sound(h, last);
  }

  /** An answer with all its results is tool-complete exactly when its call ids are usable. */
  lemma {:induction false} RoundCompleteIff(a: Answer, confirmed: bool)
    ensures ToolComplete(Round(a, |a.calls|, confirmed)) <==> UsableIds(a)
  {
    if UsableIds(a) {
      UsableRoundComplete(a, confirmed);
    } else {
      UnusableRoundBroken(a, confirmed);
    }
  }

  lemma {:induction false} RoundPrefix(a: Answer, k: nat, confirmed: bool)
    requires k <= |a.calls|
    ensures |Round(a, |a.calls|, confirmed)| == |a.calls| + 1
    ensures Round(a, |a.calls|, confirmed)[..k + 1] == Round(a, k, confirmed)
  {
    ResultsAt(a.calls, k, confirmed);
    ResultsAt(a.calls, |a.calls|, confirmed);
  }

  /** What the next turn's repair makes of a turn that stopped after `k` of its results:
      nothing is lost if all were in, otherwise the whole round vanishes. */
  lemma {:induction false} PartialRoundRepair(base: seq<Message>, a: Answer, k: nat, confirmed: bool)
    requires ToolComplete(base) && UsableIds(a) && k <= |a.calls|
    ensures var h := base + Round(a, k, confirmed);
      Repaired(h) == if k == |a.calls| then h else base
  {
    var r := Round(a, |a.calls|, confirmed);
    RoundPrefix(a, k, confirmed);
    RoundCompleteIff(a, confirmed);
    RepairedAfterComplete(base, Round(a, k, confirmed));
    if k == |a.calls| {
      RepairedIdentityIff(r);
    } else {
      CallIdsOf(a);
      ResultsAt(a.calls, |a.calls|, confirmed);
      assert r[0] == AssistantMessage(a);
      HeadOfComplete(r, 0);
      assert r[0..k + 1] == r[..k + 1];
      CutBlockVanishes(r, 0, k + 1);
    }
  }

  lemma {:induction false} TranscriptComplete(answers: seq<Answer>, verdicts: seq<Verdict>, n: nat, confirmed: bool)
    requires n <= |verdicts| <= |answers|
    requires forall i :: 0 <= i < |answers| ==> UsableIds(answers[i])
    ensures ToolComplete(Transcript(answers, verdicts, n, confirmed))
  {
    if n > 0 {
      TranscriptComplete(answers, verdicts, n - 1, confirmed);
      if verdicts[n - 1].Accepted? {
        RoundCompleteIff(answers[n - 1], confirmed);
        CompleteConcat(Transcript(answers, verdicts, n - 1, confirmed),
                       Round(answers[n - 1], |answers[n - 1].calls|, confirmed));
      }
    }
  }

  lemma {:induction false} SameShapeComplete(h: seq<Message>, r: seq<Message>)
    requires |h| == |r|
    requires forall i :: 0 <= i < |h| ==> h[i].(content := "") == r[i].(content := "")
    requires ToolComplete(h)
    ensures ToolComplete(r)
  {
    forall i | 0 <= i < |h|
      ensures CallIds(h[i]) == CallIds(r[i]) && h[i].role == r[i].role && h[i].toolCallId == r[i].toolCallId
    {
      assert h[i].(content := "") == r[i].(content := "");
    }
    forall i: nat | i < |r| ensures Sound(r, i) {
      assert Sound(h, i);
      if j: nat :| InBlock(h, j, i) {
        forall k: nat | j < k < BlockEnd(r, j) ensures Answers(r, j, k) { assert Answers(h, j, k); }
        assert InBlock(r, j, i);
      }
    }
  }

  lemma {:induction false} CompleteUpToPrompt(h: seq<Message>, r: seq<Message>)
    requires Unprompted(h) == Unprompted(r) && ToolComplete(h)
    ensures ToolComplete(r)
  {
    assert |h| == |Unprompted(h)| == |Unprompted(r)| == |r|;
    forall i | 0 <= i < |h| ensures h[i].(content := "") == r[i].(content := "") {
      assert Unprompted(h)[i].(content := "") == h[i].(content := "");
      assert Unprompted(r)[i].(content := "") == r[i].(content := "");
    }
    SameShapeComplete(h, r);
  }

  lemma {:induction false} LatestUserSkips(h: seq<Message>, tail: seq<Message>, n: nat)
    requires n <= |tail| && forall i :: 0 <= i < n ==> tail[i].role != User
    ensures LatestUserIn(h + tail, |h| + n) == LatestUser(h)
  {
    if n == 0 { LatestUserPrefix(h, tail, |h|); } else { LatestUserSkips(h, tail, n - 1); }
  }

  lemma {:induction false} LatestUserPrefix(h: seq<Message>, tail: seq<Message>, n: nat)
    requires n <= |h|
    ensures LatestUserIn(h + tail, n) == LatestUserIn(h, n)
  {
    if n > 0 { LatestUserPrefix(h, tail, n - 1); }
  }

  lemma {:induction false} LatestUserUpToPrompt(h: seq<Message>, prompt: string, n: nat)
    requires n <= |h| == |Refreshed(h, prompt)|
    ensures LatestUserIn(Refreshed(h, prompt), n) == LatestUserIn(h, n)
  {
    if n > 0 { LatestUserUpToPrompt(h, prompt, n - 1); }
  }

  lemma {:induction false} UnpromptedFacts(h: seq<Message>, tail: seq<Message>, prompt: string)
    ensures Unprompted(Refreshed(h, prompt)) == Unprompted(h)
    ensures h != [] ==> Unprompted(h + tail) == Unprompted(h) + tail
    ensures h != [] ==> Refreshed(h, prompt) != []
  {
  }

  function RejectedGuards(verdicts: seq<Verdict>): set<Guard> {
    set v | v in verdicts && v.Rejected? :: v.guard
  }

  function ToolRounds(verdicts: seq<Verdict>): nat {
    if verdicts == [] then 0
    else ToolRounds(verdicts[..|verdicts| - 1]) + if verdicts[|verdicts| - 1].Accepted? then 1 else 0
  }

  ghost predicate EachGuardOnce(verdicts: seq<Verdict>) {
    forall i, k :: 0 <= i < k < |verdicts| && verdicts[i].Rejected? ==> verdicts[i] != verdicts[k]
  }

  /** Termination measure of the retry guards: each can reject one answer only. */
  lemma {:induction false} FewRejections(verdicts: seq<Verdict>)
    requires EachGuardOnce(verdicts)
    ensures |verdicts| == ToolRounds(verdicts) + |RejectedGuards(verdicts)|
    decreases |verdicts|
  {
    if verdicts == [] {
      assert RejectedGuards(verdicts) == {};
    } else {
      var n := |verdicts| - 1;
      FewRejections(verdicts[..n]);
      LastRejection(verdicts[..n], verdicts[n]);
      assert verdicts == verdicts[..n] + [verdicts[n]];
    }
  }

  lemma {:induction false} LastRejection(verdicts: seq<Verdict>, v: Verdict)
    requires EachGuardOnce(verdicts + [v])
    ensures |RejectedGuards(verdicts + [v])| == |RejectedGuards(verdicts)| + if v.Rejected? then 1 else 0
  {
    var more := verdicts + [v];
    assert more[|verdicts|] == v;
    if v.Rejected? {
      assert RejectedGuards(more) == RejectedGuards(verdicts) + {v.guard};
      forall i | 0 <= i < |verdicts| ensures verdicts[i] != v {
        assert more[i] == verdicts[i];
      }
    } else {
      assert RejectedGuards(more) == RejectedGuards(verdicts);
    }
  }

  lemma {:induction false} SixGuards(guards: set<Guard>)
    ensures |guards| <= 6
  {
    var all := {TimeCutoff, Specificity, ComboTruth, TotalClaim, Discount, TruffleDenial};
    assert guards <= all by {
      forall g | g in guards ensures g in all {
        match g {
          case TimeCutoff =>
          case Specificity =>
          case ComboTruth =>
          case TotalClaim =>
          case Discount =>
          case TruffleDenial =>
        }
      }
    }
    SubsetSize(guards, all);
  }

  lemma {:induction false} SubsetSize<T>(a: set<T>, b: set<T>)
    requires a <= b
    ensures |a| <= |b|
  {
    assert b == a + (b - a);
  }

  const CATALOG_TOOLS := {"lookup_catalog_items", "get_menu", "create_cafeteria_order"}

  /** The guards are tried in source order, each at most once a turn. */
  function FiringGuard(a: Answer, used: set<Guard>, h: seq<Message>): Option<Guard> {
    var live := a.conflicts - used - (if LatestToolName(h, |h|) in CATALOG_TOOLS then {ComboTruth} else {});
    if a.calls != [] then None
    else if TimeCutoff in live then Some(TimeCutoff)
    else if Specificity in live then Some(Specificity)
    else if ComboTruth in live then Some(ComboTruth)
    else if TotalClaim in live then Some(TotalClaim)
    else if Discount in live then Some(Discount)
    else if TruffleDenial in live then Some(TruffleDenial)
    else None
  }

  // ---------------------------------------------------------------- when a guard rejects

  /** The place of a guard in the order in which they are tried. */
  function Rank(g: Guard): nat {
    match g
    case TimeCutoff => 0
    case Specificity => 1
    case ComboTruth => 2
    case TotalClaim => 3
    case Discount => 4
    case TruffleDenial => 5
  }

  /** The history ends with the result of one of these tools, but for system messages. */
  predicate AfterTool(h: seq<Message>, names: set<string>) {
    exists i :: 0 <= i < |h| && h[i].role == Tool && h[i].toolName in names && OnlySystemAfter(h, i)
  }

  predicate OnlySystemAfter(h: seq<Message>, i: nat) {
    forall j :: i < j < |h| ==> h[j].role == System
  }

  /** The guard objects to the answer, has not rejected one in this turn, and is not the combo guard
      right after a catalogue tool. */
  predicate Live(a: Answer, used: set<Guard>, h: seq<Message>, g: Guard) {
    && g in a.conflicts && g !in used
    && (g == ComboTruth ==> !AfterTool(h, {"lookup_catalog_items", "get_menu", "create_cafeteria_order"}))
  }

  /** The history of a turn when its answer `i` came, up to the prompt. */
  function HistoryAt(base: seq<Message>, turn: Turn, verdicts: seq<Verdict>, i: nat, confirmed: bool): seq<Message>
    requires i <= |verdicts| <= |turn.answers|
  {
    Unprompted(base) + Transcript(turn.answers, verdicts, i, confirmed)
  }

  /** No call of the answer raises, ends the turn or shows a draft. */
  predicate GoesOn(a: Answer, policy: Policy, confirmed: bool) {
    forall c :: c in a.calls ==>
      !c.effect.Raises? && !EndsTurn(c, confirmed) && ToolText(c, confirmed) !in policy.drafts
  }

  /** An answer was rejected by the first live guard, and only without calls; it was accepted with
      calls that all let the turn go on. */
  predicate JudgedAt(base: seq<Message>, turn: Turn, policy: Policy, verdicts: seq<Verdict>, i: nat, confirmed: bool)
    requires i < |verdicts| <= |turn.answers|
  {
    var a, used, h := turn.answers[i], RejectedGuards(verdicts[..i]), HistoryAt(base, turn, verdicts, i, confirmed);
    match verdicts[i]
    case Rejected(g) => a.calls == [] && Live(a, used, h, g) && forall e :: Rank(e) < Rank(g) ==> !Live(a, used, h, e)
    case Accepted => a.calls != [] && GoesOn(a, policy, confirmed)
  }

  ghost predicate Judged(base: seq<Message>, turn: Turn, policy: Policy, verdicts: seq<Verdict>, confirmed: bool) {
    && |verdicts| <= |turn.answers|
    && forall i :: 0 <= i < |verdicts| ==> JudgedAt(base, turn, policy, verdicts, i, confirmed)
  }

  /** The answer that ended the loop, if it is a plain one, has no live guard. */
  predicate EndJudged(base: seq<Message>, turn: Turn, verdicts: seq<Verdict>, confirmed: bool)
    requires |verdicts| <= |turn.answers|
  {
    var k := |verdicts|;
    k < |turn.answers| && turn.answers[k].calls == [] ==>
      forall g :: !Live(turn.answers[k], RejectedGuards(verdicts), HistoryAt(base, turn, verdicts, k, confirmed), g)
  }

  lemma {:induction false} LatestToolIs(h: seq<Message>, n: nat)
    requires n <= |h|
    ensures forall names: set<string> :: "" !in names ==> (LatestToolName(h, n) in names <==> AfterTool(h[..n], names))
  {
    if n > 0 {
      LatestToolIs(h, n - 1);
      forall names: set<string> | "" !in names
        ensures LatestToolName(h, n) in names <==> AfterTool(h[..n], names)
      {
        LatestToolStep(h, n, names);
      }
    }
  }

  lemma {:induction false} LatestToolStep(h: seq<Message>, n: nat, names: set<string>)
    requires 0 < n <= |h| && "" !in names
    requires LatestToolName(h, n - 1) in names <==> AfterTool(h[..n - 1], names)
    ensures LatestToolName(h, n) in names <==> AfterTool(h[..n], names)
  {
    var now, before := h[..n], h[..n - 1];
    assert now[n - 1] == h[n - 1];
    if h[n - 1].role == System {
      if AfterTool(before, names) {
        var i :| 0 <= i < |before| && before[i].role == Tool && before[i].toolName in names
                 && OnlySystemAfter(before, i);
        assert now[i] == before[i] && OnlySystemAfter(now, i);
      }
      if AfterTool(now, names) {
        var i :| 0 <= i < |now| && now[i].role == Tool && now[i].toolName in names && OnlySystemAfter(now, i);
        assert i < n - 1 && before[i] == now[i] && OnlySystemAfter(before, i);
      }
    } else {
      assert OnlySystemAfter(now, n - 1);
      assert forall i: nat :: i < n - 1 ==> !OnlySystemAfter(now, i);
    }
  }

  /** The code's choice of a guard is the first live one. */
  lemma {:induction false} FirstLiveFires(a: Answer, used: set<Guard>, h: seq<Message>)
    requires a.calls == []
    ensures match FiringGuard(a, used, h)
      case Some(g) => Live(a, used, h, g) && forall e :: Rank(e) < Rank(g) ==> !Live(a, used, h, e)
      case None => forall e :: !Live(a, used, h, e)
  {
    LatestToolIs(h, |h|);
    assert h[..|h|] == h;
    assert CATALOG_TOOLS == {"lookup_catalog_items", "get_menu", "create_cafeteria_order"};
    assert LatestToolName(h, |h|) in CATALOG_TOOLS <==> AfterTool(h, CATALOG_TOOLS);
  }

  lemma {:induction false} PromptNoTool(h: seq<Message>, names: set<string>)
    ensures AfterTool(Unprompted(h), names) <==> AfterTool(h, names)
  {
    var u := Unprompted(h);
    assert |u| == |h| && forall i :: 0 <= i < |h| ==> u[i].role == h[i].role && u[i].toolName == h[i].toolName;
    if AfterTool(h, names) {
      var i :| 0 <= i < |h| && h[i].role == Tool && h[i].toolName in names && OnlySystemAfter(h, i);
      assert OnlySystemAfter(u, i);
    }
    if AfterTool(u, names) {
      var i :| 0 <= i < |u| && u[i].role == Tool && u[i].toolName in names && OnlySystemAfter(u, i);
      assert OnlySystemAfter(h, i);
    }
  }

  lemma {:induction false} LiveUpToPrompt(a: Answer, used: set<Guard>, h: seq<Message>, past: seq<Message>)
    requires Unprompted(h) == past
    ensures forall g :: Live(a, used, h, g) <==> Live(a, used, past, g)
  {
    PromptNoTool(h, {"lookup_catalog_items", "get_menu", "create_cafeteria_order"});
  }

  lemma {:induction false} OneMoreJudged(base: seq<Message>, turn: Turn, policy: Policy, verdicts: seq<Verdict>,
                                         v: Verdict,
                                         confirmed: bool)
    requires Judged(base, turn, policy, verdicts, confirmed) && |verdicts| < |turn.answers|
    requires var a, h := turn.answers[|verdicts|], HistoryAt(base, turn, verdicts, |verdicts|, confirmed);
      match v
      case Rejected(g) =>
        && a.calls == [] && Live(a, RejectedGuards(verdicts), h, g)
        && forall e :: Rank(e) < Rank(g) ==> !Live(a, RejectedGuards(verdicts), h, e)
      case Accepted => a.calls != [] && GoesOn(a, policy, confirmed)
    ensures Judged(base, turn, policy, verdicts + [v], confirmed)
  {
    var more := verdicts + [v];
    forall i | 0 <= i < |more| ensures JudgedAt(base, turn, policy, more, i, confirmed) {
      assert more[..i] == verdicts[..i];
      TranscriptPrefix(turn.answers, verdicts, v, i, confirmed);
      if i < |verdicts| {
        assert JudgedAt(base, turn, policy, verdicts, i, confirmed);
      } else {
        assert verdicts[..i] == verdicts;
      }
    }
  }

  /** What the code's choice of a guard means for the answer at hand. */
  lemma {:induction false} ChoiceJudged(base: seq<Message>, turn: Turn, policy: Policy, verdicts: seq<Verdict>,
                                        h: seq<Message>,
                                        confirmed: bool)
    requires Judged(base, turn, policy, verdicts, confirmed) && |verdicts| < |turn.answers|
    requires Unprompted(h) == HistoryAt(base, turn, verdicts, |verdicts|, confirmed)
    ensures match FiringGuard(turn.answers[|verdicts|], RejectedGuards(verdicts), h)
      case Some(g) => Judged(base, turn, policy, verdicts + [Rejected(g)], confirmed)
      case None => EndJudged(base, turn, verdicts, confirmed)
  {
    var a, used := turn.answers[|verdicts|], RejectedGuards(verdicts);
    LiveUpToPrompt(a, used, h, HistoryAt(base, turn, verdicts, |verdicts|, confirmed));
    if a.calls == [] {
      FirstLiveFires(a, used, h);
      if FiringGuard(a, used, h).Some? {
        OneMoreJudged(base, turn, policy, verdicts, Rejected(FiringGuard(a, used, h).value), confirmed);
      }
    }
  }

  lemma {:induction false} SameJudged(base: seq<Message>, other: seq<Message>, turn: Turn, policy: Policy,
                                      verdicts: seq<Verdict>,
                                      confirmed: bool)
    requires Unprompted(base) == Unprompted(other) && Judged(base, turn, policy, verdicts, confirmed)
    requires EndJudged(base, turn, verdicts, confirmed)
    ensures Judged(other, turn, policy, verdicts, confirmed) && EndJudged(other, turn, verdicts, confirmed)
  {
    forall i | 0 <= i < |verdicts| ensures JudgedAt(other, turn, policy, verdicts, i, confirmed) {
      assert JudgedAt(base, turn, policy, verdicts, i, confirmed);
    }
    var k := |verdicts|;
    assert HistoryAt(base, turn, verdicts, k, confirmed) == HistoryAt(other, turn, verdicts, k, confirmed);
  }

  // ---------------------------------------------------------------- the reply that ends a turn

  predicate IsDraft(m: Message, policy: Policy) {
    m.role == Tool && m.content in policy.drafts
  }

  predicate LastDraftAt(h: seq<Message>, n: nat, i: nat, policy: Policy)
    requires i < n <= |h|
  {
    IsDraft(h[i], policy) && forall j :: i < j < n ==> !IsDraft(h[j], policy)
  }

  lemma {:induction false} NoDraftFound(h: seq<Message>, n: nat, policy: Policy)
    requires n <= |h| && forall i :: 0 <= i < n ==> !IsDraft(h[i], policy)
    ensures LatestDraft(h, n, policy) == None
  {
    if n > 0 {
      NoDraftFound(h, n - 1, policy);
    }
  }

  lemma {:induction false} LastDraftFound(h: seq<Message>, n: nat, i: nat, policy: Policy)
    requires i < n <= |h| && LastDraftAt(h, n, i, policy)
    ensures LatestDraft(h, n, policy) == Some(h[i].content)
  {
    if i < n - 1 {
      assert !IsDraft(h[n - 1], policy);
      LastDraftFound(h, n - 1, i, policy);
    }
  }

  /** A reply that claims a saved order is not sent while a draft is pending: the last draft of the
      history goes out instead. Every other reply goes out as it is. */
  lemma {:induction false} ClaimIsReplaced(content: string, h: seq<Message>, i: nat, policy: Policy)
    ensures content !in policy.savedClaims ==> FinalReply(content, h, policy) == content
    ensures (forall j :: 0 <= j < |h| ==> !IsDraft(h[j], policy)) ==> FinalReply(content, h, policy) == content
    ensures content in policy.savedClaims && i < |h| && LastDraftAt(h, |h|, i, policy) ==>
      FinalReply(content, h, policy) == h[i].content
  {
    if forall j :: 0 <= j < |h| ==> !IsDraft(h[j], policy) {
      NoDraftFound(h, |h|, policy);
    }
    if i < |h| && LastDraftAt(h, |h|, i, policy) {
      LastDraftFound(h, |h|, i, policy);
    }
  }

  predicate Speaks(m: Message) {
    m.role == User && m.content != ""
  }

  /** A confirmation is looked for in the last user message that says anything, and nowhere else. */
  lemma {:induction false} LatestUserFound(h: seq<Message>, n: nat, i: nat)
    requires i < n <= |h| && Speaks(h[i]) && forall j :: i < j < n ==> !Speaks(h[j])
    ensures LatestUserIn(h, n) == h[i].content
  {
    if i < n - 1 {
      assert !Speaks(h[n - 1]);
      LatestUserFound(h, n - 1, i);
    }
  }

  lemma {:induction false} NobodySpoke(h: seq<Message>, n: nat)
    requires n <= |h| && forall j :: 0 <= j < n ==> !Speaks(h[j])
    ensures LatestUserIn(h, n) == ""
  {
    if n > 0 {
      NobodySpoke(h, n - 1);
    }
  }

  /** Which tool results count as a stored order, and what it takes for a call to store one. */
  lemma {:induction false} SavesIff(c: ToolCall, confirmed: bool)
    ensures Saves(c, confirmed) <==>
      && confirmed && c.effect.CreateOrder? && c.effect.create.Done?
      && exists n :: 0 <= n <= |c.effect.create.text|
           && c.effect.create.text[..n] in {"Pedido salvo com sucesso!", "Pedido de doces salvo com sucesso!",
                                            "Pedido cafeteria salvo com sucesso!", "Pedido presente salvo com sucesso!"}
  {
    if Saves(c, confirmed) {
      var t := c.effect.create.text;
      SavedPrefix(t);
    }
  }

  lemma {:induction false} SavedPrefix(t: string)
    requires IsSavedOrderResult(t)
    ensures exists n :: 0 <= n <= |t| && t[..n] in
              {"Pedido salvo com sucesso!", "Pedido de doces salvo com sucesso!",
               "Pedido cafeteria salvo com sucesso!", "Pedido presente salvo com sucesso!"}
  {
    if "Pedido salvo com sucesso!" <= t {
      assert t[..|"Pedido salvo com sucesso!"|] == "Pedido salvo com sucesso!";
    } else if "Pedido de doces salvo com sucesso!" <= t {
      assert t[..|"Pedido de doces salvo com sucesso!"|] == "Pedido de doces salvo com sucesso!";
    } else if "Pedido cafeteria salvo com sucesso!" <= t {
      assert t[..|"Pedido cafeteria salvo com sucesso!"|] == "Pedido cafeteria salvo com sucesso!";
    } else {
      assert t[..|"Pedido presente salvo com sucesso!"|] == "Pedido presente salvo com sucesso!";
    }
  }

  /** The texts of a reply that claims a saved order are replaced by the pending draft. */
  function FinalReply(content: string, h: seq<Message>, policy: Policy): string {
    var draft := LatestDraft(h, |h|, policy);
    if content in policy.savedClaims && draft.Some? then draft.value else content
  }

  /** The repaired history, or a fresh system prompt when nothing is left. */
  ghost function Start(h: seq<Message>, prompt: string): seq<Message> {
    if Repaired(h) == [] then [Text(System, prompt)] else Repaired(h)
  }

  ghost function Opening(h: seq<Message>, prompt: string, text: string): seq<Message> {
    Start(h, prompt) + [Text(User, text)]
  }

  lemma {:induction false} StartComplete(h: seq<Message>, prompt: string, more: seq<Message>)
    requires forall m :: m in more ==> Standalone(m)
    ensures Start(h, prompt) != [] && ToolComplete(Start(h, prompt) + more)
  {
    RepairedIsComplete(h);
    assert Repaired(h) == [] ==> Standalone(Start(h, prompt)[0]);
    CompleteConcat(Start(h, prompt), more);
  }

  /** What became of a call; `saved` is the result of an order that was persisted. */
  datatype Handled = Raised | Return(text: string, saved: Option<string>) | Result(text: string)

  datatype ToolsExit =
    | AllAnswered
    | ToolRaised
    | DraftShown(text: string)
    | TurnEnded(text: string, saved: Option<string>)

  /** The history after the first `n` calls were answered and the next one gave `out`. */
  function AfterCalls(h: seq<Message>, calls: seq<ToolCall>, n: nat, out: ToolsExit, confirmed: bool): seq<Message>
    requires n <= |calls|
  {
    if out.TurnEnded? then []
    else h + Results(calls, if out.DraftShown? && n < |calls| then n + 1 else n, confirmed)
  }

  /** The reply of a call that ends the turn: the saved order's or the handoff's. */
  function EndText(c: ToolCall, policy: Policy): string {
    match c.effect
    case Escalate(text) => HandoffMessage(text, policy)
    case CreateOrder(_, create) => FinalSavedOrderMessage(OutcomeText(create), policy)
    case _ => ""
  }

  /** The result of the order that a call persists. */
  function SavedResult(c: ToolCall, confirmed: bool): Option<string> {
    if Saves(c, confirmed) then Some(c.effect.create.text) else None
  }

  /** How the turn goes on after a call: `AllAnswered` means with the next one. */
  function ExitAt(c: ToolCall, confirmed: bool, policy: Policy): ToolsExit {
    if c.effect.Raises? then ToolRaised
    else if EndsTurn(c, confirmed) then TurnEnded(EndText(c, policy), SavedResult(c, confirmed))
    else if ToolText(c, confirmed) in policy.drafts then DraftShown(ToolText(c, confirmed))
    else AllAnswered
  }

  /** What each call comes to. Without a confirmation an order call only shows its draft; with one
      it persists, unless creating fails, which is recorded for the model to see. Nothing but a
      persisted order and an escalation ends the turn. */
  lemma {:induction false} CallComesTo(c: ToolCall, confirmed: bool, policy: Policy)
    ensures var (e, out, recorded) := (c.effect, ExitAt(c, confirmed, policy), ToolMessage(c, confirmed).content);
      && (e.Raises? <==> out == ToolRaised)
      && (out.TurnEnded? ==> e.Escalate? || (confirmed && e.CreateOrder? && e.create.Done?))
      && (e.Escalate? ==>
            out == TurnEnded(if Strip(e.text) in {"", "ok", "Ok", "oK", "OK"} then policy.handoff else Strip(e.text),
                             None))
      && (e.CreateOrder? && !confirmed ==>
            recorded == if e.draft.Done? then e.draft.text else e.draft.error)
      && (e.CreateOrder? && confirmed && e.create.Done? && IsSavedOrderResult(e.create.text) ==>
            out.TurnEnded? && out.saved == Some(e.create.text) && SAVED_HEADER <= out.text)
      && (e.CreateOrder? && confirmed && e.create.Done? && !IsSavedOrderResult(e.create.text) ==>
            recorded == e.create.text && !out.TurnEnded?)
      && (e.CreateOrder? && confirmed && e.create.Failed? ==> recorded == e.create.error && !out.TurnEnded?)
      && (e.Transfer? || e.Answering? ==> recorded == e.text)
      && (out == AllAnswered ==> recorded !in policy.drafts)
      && (out.DraftShown? ==> out.text == recorded && recorded in policy.drafts)
  {
    if c.effect.Escalate? { OkInAnyCase(Strip(c.effect.text)); }
  }

  lemma {:induction false} OkInAnyCase(s: string)
    ensures Lower(s) == "ok" <==> s in {"ok", "Ok", "oK", "OK"}
  {
    if |s| == 2 {
      assert s == [s[0], s[1]] && Lower(s) == [Lower(s)[0], Lower(s)[1]];
    }
    if Lower(s) == "ok" {
      assert |s| == 2 && Lower(s)[0] == 'o' && Lower(s)[1] == 'k';
    }
  }

  lemma {:induction false} AfterCallsStep(h: seq<Message>, calls: seq<ToolCall>, i: nat, out: ToolsExit,
                                          confirmed: bool)
    requires i < |calls|
    ensures var before := AfterCalls(h, calls, i, AllAnswered, confirmed);
      var more := before + [ToolMessage(calls[i], confirmed)];
      && AfterCalls(h, calls, i + 1, AllAnswered, confirmed) == more
      && (out.DraftShown? ==> AfterCalls(h, calls, i, out, confirmed) == more)
      && (out.ToolRaised? ==> AfterCalls(h, calls, i, out, confirmed) == before)
  {
  }

  /** Position of the first call from `i` on that keeps the loop from going on. */
  function FirstStop(calls: seq<ToolCall>, i: nat, confirmed: bool, policy: Policy): (n: nat)
    requires i <= |calls|
    ensures i <= n <= |calls|
    decreases |calls| - i
  {
    if i == |calls| || ExitAt(calls[i], confirmed, policy) != AllAnswered then i
    else FirstStop(calls, i + 1, confirmed, policy)
  }

  lemma {:induction false} FirstStopStops(calls: seq<ToolCall>, i: nat, confirmed: bool, policy: Policy)
    requires i <= |calls|
    ensures var n := FirstStop(calls, i, confirmed, policy);
      && (n < |calls| ==> ExitAt(calls[n], confirmed, policy) != AllAnswered)
      && (forall k :: i <= k < n ==> ExitAt(calls[k], confirmed, policy) == AllAnswered)
    decreases |calls| - i
  {
    if FirstStop(calls, i, confirmed, policy) > i { FirstStopStops(calls, i + 1, confirmed, policy); }
  }

  lemma {:induction false} AllGoOn(a: Answer, policy: Policy, confirmed: bool)
    requires FirstStop(a.calls, 0, confirmed, policy) == |a.calls|
    ensures GoesOn(a, policy, confirmed)
  {
    FirstStopStops(a.calls, 0, confirmed, policy);
  }

  function SavedBy(out: ToolsExit, text: string): seq<SavedOrder> {
    if out.TurnEnded? && out.saved.Some? then [SavedOrder(text, out.saved.value)] else []
  }

  /** The non-empty notes among the first `n`, each as a system message. */
  function SystemNotes(notes: seq<string>, n: nat): (r: seq<Message>)
    requires n <= |notes|
    ensures |r| <= n && forall m :: m in r ==> Standalone(m) && m.role == System
  {
    if n == 0 then []
    else if notes[n - 1] == "" then SystemNotes(notes, n - 1)
    else SystemNotes(notes, n - 1) + [Text(System, notes[n - 1])]
  }

  /** Request `i` of a turn: tool-complete, made of the history at the start of the loop, the
      rounds accepted so far and at most three system notes. */
  ghost predicate RequestFor(request: seq<Message>, base: seq<Message>, turn: Turn, verdicts: seq<Verdict>, i: nat,
                             confirmed: bool)
    requires i <= |verdicts| <= |turn.answers|
  {
    && ToolComplete(request)
    && exists n: nat :: n <= |request| && |request| <= n + 3
         && Unprompted(request[..n]) == Unprompted(base) + Transcript(turn.answers, verdicts, i, confirmed)
         && forall m :: m in request[n..] ==> m.role == System
  }

  lemma {:induction false} RequestIsSound(request: seq<Message>, h: seq<Message>, notes: seq<string>,
                       base: seq<Message>, turn: Turn, verdicts: seq<Verdict>, i: nat, confirmed: bool)
    requires |notes| == 3 && request == h + SystemNotes(notes, 3)
    requires i <= |verdicts| <= |turn.answers| && base != [] && ToolComplete(base)
    requires Unprompted(h) == Unprompted(base) + Transcript(turn.answers, verdicts, i, confirmed)
    requires forall i :: 0 <= i < |turn.answers| ==> UsableIds(turn.answers[i])
    ensures RequestFor(request, base, turn, verdicts, i, confirmed)
  {
    var t := Transcript(turn.answers, verdicts, i, confirmed);
    TranscriptComplete(turn.answers, verdicts, i, confirmed);
    CompleteConcat(base, t);
    UnpromptedFacts(base, t, "");
    CompleteUpToPrompt(base + t, h);
    CompleteConcat(h, SystemNotes(notes, 3));
    assert request[..|h|] == h && request[|h|..] == SystemNotes(notes, 3);
  }

  lemma {:induction false} TranscriptPrefix(answers: seq<Answer>, verdicts: seq<Verdict>, v: Verdict, n: nat,
                                            confirmed: bool)
    requires n <= |verdicts| < |answers|
    ensures Transcript(answers, verdicts + [v], n, confirmed) == Transcript(answers, verdicts, n, confirmed)
  {
    if n > 0 { TranscriptPrefix(answers, verdicts, v, n - 1, confirmed); }
  }

  ghost predicate RequestsFor(requests: seq<seq<Message>>, lo: nat, n: nat, base: seq<Message>, turn: Turn,
                              verdicts: seq<Verdict>, confirmed: bool)
  {
    && n <= |verdicts| + 1 && |verdicts| <= |turn.answers| && lo + n <= |requests|
    && forall r: nat :: lo <= r < lo + n ==> RequestFor(requests[r], base, turn, verdicts, r - lo, confirmed)
  }

  lemma {:induction false} MoreVerdicts(requests: seq<seq<Message>>, lo: nat, n: nat, base: seq<Message>, turn: Turn,
                     verdicts: seq<Verdict>, v: Verdict, confirmed: bool)
    requires RequestsFor(requests, lo, n, base, turn, verdicts, confirmed) && |verdicts| < |turn.answers|
    ensures RequestsFor(requests, lo, n, base, turn, verdicts + [v], confirmed)
  {
    forall r: nat | lo <= r < lo + n ensures RequestFor(requests[r], base, turn, verdicts + [v], r - lo, confirmed) {
      TranscriptPrefix(turn.answers, verdicts, v, r - lo, confirmed);
      assert RequestFor(requests[r], base, turn, verdicts, r - lo, confirmed);
    }
  }

  /** The state of the loop after `n` requests. */
  ghost predicate Looping(h: seq<Message>, requests: seq<seq<Message>>, n: nat, lo: nat, base: seq<Message>, turn: Turn,
                          verdicts: seq<Verdict>, used: set<Guard>, confirmed: bool)
  {
    && |verdicts| <= |turn.answers| && |requests| == lo + n
    && EachGuardOnce(verdicts) && used == RejectedGuards(verdicts)
    && h != [] && LatestUser(h) == turn.text
    && Unprompted(h) == Unprompted(base) + Transcript(turn.answers, verdicts, |verdicts|, confirmed)
    && RequestsFor(requests, lo, n, base, turn, verdicts, confirmed)
  }

  lemma {:induction false} LoopingStart(h: seq<Message>, requests: seq<seq<Message>>, turn: Turn, confirmed: bool)
    requires h != [] && LatestUser(h) == turn.text
    ensures Looping(h, requests, 0, |requests|, h, turn, [], {}, confirmed)
  {
  }

  lemma {:induction false} OneMoreRequest(requests: seq<seq<Message>>, request: seq<Message>, lo: nat, n: nat,
                                          base: seq<Message>,
                                          turn: Turn, verdicts: seq<Verdict>, confirmed: bool)
    requires RequestsFor(requests, lo, n, base, turn, verdicts, confirmed) && |requests| == lo + n && n <= |verdicts|
    requires RequestFor(request, base, turn, verdicts, n, confirmed)
    ensures RequestsFor(requests + [request], lo, n + 1, base, turn, verdicts, confirmed)
  {
    var more := requests + [request];
    forall r: nat | lo <= r < lo + n + 1 ensures RequestFor(more[r], base, turn, verdicts, r - lo, confirmed) {
      if r < lo + n { assert more[r] == requests[r]; }
    }
  }

  /** Sending a request renews the prompt and nothing else. */
  lemma {:induction false} SendStep(h: seq<Message>, prompt: string, requests: seq<seq<Message>>, notes: seq<string>,
                                    lo: nat, base: seq<Message>,
                                    turn: Turn, verdicts: seq<Verdict>, used: set<Guard>, confirmed: bool)
    requires Looping(h, requests, |verdicts|, lo, base, turn, verdicts, used, confirmed) && |notes| == 3
    requires base != [] && ToolComplete(base)
    requires forall i :: 0 <= i < |turn.answers| ==> UsableIds(turn.answers[i])
    ensures var now := Refreshed(h, prompt);
            Looping(now, requests + [now + SystemNotes(notes, 3)], |verdicts| + 1, lo, base, turn, verdicts, used,
                    confirmed)
  {
    var now := Refreshed(h, prompt);
    var request := now + SystemNotes(notes, 3);
    UnpromptedFacts(h, [], prompt);
    LatestUserUpToPrompt(h, prompt, |h|);
    RequestIsSound(request, now, notes, base, turn, verdicts, |verdicts|, confirmed);
    OneMoreRequest(requests, request, lo, |verdicts|, base, turn, verdicts, confirmed);
  }

  /** A rejected answer leaves no trace in the history and burns its guard. */
  lemma {:induction false} RejectStep(h: seq<Message>, requests: seq<seq<Message>>, lo: nat, base: seq<Message>,
                                      turn: Turn,
                   verdicts: seq<Verdict>, used: set<Guard>, g: Guard, confirmed: bool)
    requires Looping(h, requests, |verdicts| + 1, lo, base, turn, verdicts, used, confirmed)
    requires |verdicts| < |turn.answers| && g !in used
    ensures Looping(h, requests, |verdicts| + 1, lo, base, turn, verdicts + [Rejected(g)], used + {g}, confirmed)
  {
    TranscriptPrefix(turn.answers, verdicts, Rejected(g), |verdicts|, confirmed);
    MoreVerdicts(requests, lo, |verdicts| + 1, base, turn, verdicts, Rejected(g), confirmed);
    assert RejectedGuards(verdicts + [Rejected(g)]) == RejectedGuards(verdicts) + {g};
    forall i | 0 <= i < |verdicts| && verdicts[i].Rejected? ensures verdicts[i].guard in RejectedGuards(verdicts) {
      assert verdicts[i] in verdicts;
    }
  }

  lemma {:induction false} AcceptStep(before: seq<Message>, after: seq<Message>, requests: seq<seq<Message>>,
                                      lo: nat, base: seq<Message>,
                   turn: Turn, verdicts: seq<Verdict>, used: set<Guard>, confirmed: bool)
    requires Looping(before, requests, |verdicts| + 1, lo, base, turn, verdicts, used, confirmed)
    requires |verdicts| < |turn.answers| && LatestUser(after) == turn.text
    requires var a := turn.answers[|verdicts|];
      after == AfterCalls(before + [AssistantMessage(a)], a.calls, |a.calls|, AllAnswered, confirmed)
    ensures Looping(after, requests, |verdicts| + 1, lo, base, turn, verdicts + [Accepted], used, confirmed)
  {
    var a := turn.answers[|verdicts|];
    var past := Unprompted(base);
    var t := Transcript(turn.answers, verdicts, |verdicts|, confirmed);
    var round := Round(a, |a.calls|, confirmed);
    TranscriptPrefix(turn.answers, verdicts, Accepted, |verdicts|, confirmed);
    MoreVerdicts(requests, lo, |verdicts| + 1, base, turn, verdicts, Accepted, confirmed);
    assert after == before + round;
    UnpromptedFacts(before, round, "");
    assert past + t + round == past + (t + round);
    assert RejectedGuards(verdicts + [Accepted]) == RejectedGuards(verdicts);
  }

  /** How the loop stops: what it replies and what history it leaves. */
  ghost predicate LoopEnd(reply: Reply, out: ToolsExit, h: seq<Message>, base: seq<Message>, turn: Turn, policy: Policy,
                          verdicts: seq<Verdict>, confirmed: bool)
    requires |verdicts| <= |turn.answers|
  {
    var k := |verdicts|;
    var past := Unprompted(base) + Transcript(turn.answers, verdicts, k, confirmed);
    if k == |turn.answers| then
      reply == Interrupted && out == AllAnswered && Unprompted(h) == past
    else
      var a := turn.answers[k];
      var n := FirstStop(a.calls, 0, confirmed, policy);
      if out == AllAnswered then
        && a.calls == [] && reply == Reply(FinalReply(a.content, h, policy))
        && Unprompted(h) == past + Round(a, 0, confirmed)
      else
        && n < |a.calls| && out == ExitAt(a.calls[n], confirmed, policy)
        && reply == (if out.ToolRaised? then Interrupted else Reply(out.text))
        && (if out.TurnEnded? then h == []
            else Unprompted(h) == past + Round(a, if out.DraftShown? then n + 1 else n, confirmed))
  }

  lemma {:induction false} StopStep(before: seq<Message>, after: seq<Message>, a: Answer, n: nat, out: ToolsExit,
                                    base: seq<Message>,
                 turn: Turn, policy: Policy, verdicts: seq<Verdict>, confirmed: bool)
    requires |verdicts| < |turn.answers| && a == turn.answers[|verdicts|] && before != []
    requires Unprompted(before) == Unprompted(base) + Transcript(turn.answers, verdicts, |verdicts|, confirmed)
    requires n == FirstStop(a.calls, 0, confirmed, policy)
    requires n < |a.calls| && out == ExitAt(a.calls[n], confirmed, policy) && out != AllAnswered
    requires after == AfterCalls(before + [AssistantMessage(a)], a.calls, n, out, confirmed)
    ensures var reply := if out.ToolRaised? then Interrupted else Reply(out.text);
      LoopEnd(reply, out, after, base, turn, policy, verdicts, confirmed)
  {
    if !out.TurnEnded? {
      PartialRound(before, after, a, n, out, confirmed);
    }
  }

  lemma {:induction false} PartialRound(before: seq<Message>, after: seq<Message>, a: Answer, n: nat, out: ToolsExit,
                                        confirmed: bool)
    requires before != [] && n < |a.calls| && !out.TurnEnded?
    requires after == AfterCalls(before + [AssistantMessage(a)], a.calls, n, out, confirmed)
    ensures Unprompted(after) == Unprompted(before) + Round(a, if out.DraftShown? then n + 1 else n, confirmed)
  {
  }

  /** The call at which the loop stopped. */
  function StoppedAt(turn: Turn, policy: Policy, verdicts: seq<Verdict>, confirmed: bool): nat
    requires |verdicts| < |turn.answers|
  {
    FirstStop(turn.answers[|verdicts|].calls, 0, confirmed, policy)
  }

  /** The turn ended with calls of its last answer unanswered: one raised, or a draft was shown
      before the last one. */
  predicate LastRoundOpen(out: ToolsExit, turn: Turn, policy: Policy, verdicts: seq<Verdict>, confirmed: bool) {
    && |verdicts| < |turn.answers|
    && var stop := StoppedAt(turn, policy, verdicts, confirmed);
      out.ToolRaised? || (out.DraftShown? && stop + 1 < |turn.answers[|verdicts|].calls|)
  }

  /** What a turn that the loop ended leaves to the next one: nothing after an order or a handoff;
      otherwise the history it began with, its accepted rounds, and its last round unless that one
      is open. */
  function Left(base: seq<Message>, out: ToolsExit, turn: Turn, policy: Policy, verdicts: seq<Verdict>, confirmed: bool)
    : seq<Message>
    requires |verdicts| <= |turn.answers|
  {
    var past := Unprompted(base) + Transcript(turn.answers, verdicts, |verdicts|, confirmed);
    if out.TurnEnded? then []
    else if |verdicts| == |turn.answers| || LastRoundOpen(out, turn, policy, verdicts, confirmed) then past
    else
      var a := turn.answers[|verdicts|];
      past + Round(a, |a.calls|, confirmed)
  }

  /** A history behind a tool-complete part, up to the prompt, is repaired behind it. */
  lemma {:induction false} RepairedBehind(h: seq<Message>, past: seq<Message>, a: Answer, n: nat, confirmed: bool)
    requires past != [] && ToolComplete(past) && UsableIds(a) && n <= |a.calls|
    requires Unprompted(h) == past + Round(a, n, confirmed) && Unprompted(past) == past
    ensures Unprompted(Repaired(h)) == if n == |a.calls| then past + Round(a, n, confirmed) else past
    ensures Repaired(h) == h <==> n == |a.calls|
  {
    var k := |past|;
    var g := h[..k];
    assert |h| == |Unprompted(h)|;
    assert h[k..] == Unprompted(h)[k..] == Round(a, n, confirmed);
    assert Unprompted(g) == Unprompted(h)[..k] == past;
    CompleteUpToPrompt(past, g);
    assert h == g + Round(a, n, confirmed);
    PartialRoundRepair(g, a, n, confirmed);
  }

  lemma {:induction false} PastComplete(base: seq<Message>, turn: Turn, verdicts: seq<Verdict>, confirmed: bool)
    requires |verdicts| <= |turn.answers| && base != [] && ToolComplete(base)
    requires forall i :: 0 <= i < |turn.answers| ==> UsableIds(turn.answers[i])
    ensures var past := Unprompted(base) + Transcript(turn.answers, verdicts, |verdicts|, confirmed);
      past != [] && ToolComplete(past) && Unprompted(past) == past
  {
    var t := Transcript(turn.answers, verdicts, |verdicts|, confirmed);
    TranscriptComplete(turn.answers, verdicts, |verdicts|, confirmed);
    UnpromptedFacts(base, t, "");
    CompleteConcat(base, t);
    assert Unprompted(Unprompted(base + t)) == Unprompted(base + t);
    CompleteUpToPrompt(base + t, Unprompted(base + t));
  }

  /** However the loop ended a turn, the repair at the start of the next one leaves exactly `Left`,
      and it drops something exactly when the last round is open. */
  lemma {:induction false} LeftToNextTurn(reply: Reply, out: ToolsExit, h: seq<Message>, base: seq<Message>, turn: Turn,
                                          policy: Policy, verdicts: seq<Verdict>, confirmed: bool)
    requires |verdicts| <= |turn.answers| && LoopEnd(reply, out, h, base, turn, policy, verdicts, confirmed)
    requires base != [] && ToolComplete(base)
    requires forall i :: 0 <= i < |turn.answers| ==> UsableIds(turn.answers[i])
    ensures Unprompted(Repaired(h)) == Left(base, out, turn, policy, verdicts, confirmed)
    ensures Repaired(h) == h <==> !LastRoundOpen(out, turn, policy, verdicts, confirmed)
  {
    var past := Unprompted(base) + Transcript(turn.answers, verdicts, |verdicts|, confirmed);
    PastComplete(base, turn, verdicts, confirmed);
    if |verdicts| == |turn.answers| {
      CompleteUpToPrompt(past, h);
      RepairedIdentityIff(h);
    } else if !out.TurnEnded? {
      var a := turn.answers[|verdicts|];
      var stop := StoppedAt(turn, policy, verdicts, confirmed);
      var n := if out == AllAnswered then 0 else if out.DraftShown? then stop + 1 else stop;
      RepairedBehind(h, past, a, n, confirmed);
    }
  }

  /** So the next turn opens with what was left, or with a fresh prompt after an order or a handoff,
      and with its own text. */
  lemma {:induction false} NextTurnOpens(reply: Reply, out: ToolsExit, h: seq<Message>, base: seq<Message>, turn: Turn,
                                         policy: Policy, verdicts: seq<Verdict>, confirmed: bool, prompt: string,
                                         text: string)
    requires |verdicts| <= |turn.answers| && LoopEnd(reply, out, h, base, turn, policy, verdicts, confirmed)
    requires base != [] && ToolComplete(base)
    requires forall i :: 0 <= i < |turn.answers| ==> UsableIds(turn.answers[i])
    ensures var left := Left(base, out, turn, policy, verdicts, confirmed);
      Unprompted(Opening(h, prompt, text)) == (if out.TurnEnded? then [Text(System, "")] else left) + [Text(User, text)]
  {
    LeftToNextTurn(reply, out, h, base, turn, policy, verdicts, confirmed);
    PastComplete(base, turn, verdicts, confirmed);
    UnpromptedFacts(Start(h, prompt), [Text(User, text)], "");
  }

  /** A loop that persisted an order did so by a confirmation, and replies with its final message. */
  lemma {:induction false} SavedReply(reply: Reply, out: ToolsExit, h: seq<Message>, base: seq<Message>, turn: Turn,
                                      policy: Policy,
                                      verdicts: seq<Verdict>)
    requires |verdicts| <= |turn.answers|
    requires LoopEnd(reply, out, h, base, turn, policy, verdicts, Confirms(turn.text, policy))
    ensures SavedBy(out, turn.text) == [] ||
      (exists result :: SavedBy(out, turn.text) == [SavedOrder(turn.text, result)]
         && IsSavedOrderResult(result) && reply == Reply(FinalSavedOrderMessage(result, policy))
         && Confirms(turn.text, policy) && h == [])
  {
    if SavedBy(out, turn.text) != [] {
      assert SavedBy(out, turn.text) == [SavedOrder(turn.text, out.saved.value)];
    }
  }

  // ---------------------------------------------------------------- how each request is dressed

  /** A transfer to an agent that exists puts that one in charge. */
  function TakeOver(agent: string, c: ToolCall): string {
    if c.effect.Transfer? && c.effect.agent in AGENTS then c.effect.agent else agent
  }

  /** The agent in charge after the first `n` calls. */
  function AgentAfter(agent: string, calls: seq<ToolCall>, n: nat): string
    requires n <= |calls|
  {
    if n == 0 then agent else TakeOver(AgentAfter(agent, calls, n - 1), calls[n - 1])
  }

  /** The agent in charge when `n` answers are judged. */
  function AgentAt(agent: string, answers: seq<Answer>, verdicts: seq<Verdict>, n: nat): string
    requires n <= |verdicts| <= |answers|
  {
    if n == 0 then agent
    else if verdicts[n - 1].Rejected? then AgentAt(agent, answers, verdicts, n - 1)
    else AgentAfter(AgentAt(agent, answers, verdicts, n - 1), answers[n - 1].calls, |answers[n - 1].calls|)
  }

  predicate Transfers(c: ToolCall) {
    c.effect.Transfer? && c.effect.agent in AGENTS
  }

  /** The last transfer of a round to an agent that exists takes over. */
  lemma {:induction false} LastTransferTakesOver(agent: string, calls: seq<ToolCall>, n: nat, i: nat)
    requires i < n <= |calls| && Transfers(calls[i]) && forall k :: i < k < n ==> !Transfers(calls[k])
    ensures AgentAfter(agent, calls, n) == calls[i].effect.agent
  {
    if i < n - 1 {
      assert !Transfers(calls[n - 1]);
      LastTransferTakesOver(agent, calls, n - 1, i);
    }
  }

  lemma {:induction false} NoTransferStays(agent: string, calls: seq<ToolCall>, n: nat)
    requires n <= |calls| && forall k :: 0 <= k < n ==> !Transfers(calls[k])
    ensures AgentAfter(agent, calls, n) == agent
  {
    if n > 0 {
      assert !Transfers(calls[n - 1]);
      NoTransferStays(agent, calls, n - 1);
    }
  }

  function NoteMessages(note: string): seq<Message> {
    if note == "" then [] else [Text(System, note)]
  }

  /** The note that tells the model what was wrong with the answer just rejected. */
  function RetryNote(policy: Policy, verdicts: seq<Verdict>, i: nat): string
    requires i <= |verdicts|
  {
    if i > 0 && verdicts[i - 1].Rejected? && verdicts[i - 1].guard in policy.retryNotes
    then policy.retryNotes[verdicts[i - 1].guard] else ""
  }

  /** What surrounds the history of every request of a turn. */
  datatype Dress = Dress(policy: Policy, agent: string, service: string, correction: string)

  /** The agent and the notes with which a turn begins its requests: the last switch that its text
      asks for, and its own notes if it has any. */
  function DressOf(policy: Policy, agent: string, service: string, correction: string, turn: Turn): Dress {
    Dress(policy,
          if turn.intent.ModelLoop? && turn.intent.switchTo != [] then turn.intent.switchTo[|turn.intent.switchTo| - 1]
          else agent,
          if turn.serviceNote != "" then turn.serviceNote else service,
          if turn.correctionNote != "" then turn.correctionNote else correction)
  }

  /** Request `i` begins with the prompt of the agent then in charge (of the triage if that one has
      none) and ends, behind the history, with the notes on the service date and on corrections
      and with that on the last rejection, each if there is one. */
  ghost predicate DressedAt(request: seq<Message>, base: seq<Message>, turn: Turn, verdicts: seq<Verdict>, i: nat,
                            d: Dress, confirmed: bool)
    requires i <= |verdicts| <= |turn.answers|
  {
    var size := |base| + |Transcript(turn.answers, verdicts, i, confirmed)|;
    var agent := AgentAt(d.agent, turn.answers, verdicts, i);
    && size <= |request|
    && request[size..] == NoteMessages(d.service) + NoteMessages(d.correction)
                          + NoteMessages(RetryNote(d.policy, verdicts, i))
    && (base != [] && base[0].role == System && request != [] ==>
          && (agent in d.policy.prompts ==> request[0].content == d.policy.prompts[agent])
          && (agent !in d.policy.prompts && "TriageAgent" in d.policy.prompts ==>
                request[0].content == d.policy.prompts["TriageAgent"]))
  }

  ghost predicate Dressed(requests: seq<seq<Message>>, lo: nat, n: nat, base: seq<Message>, turn: Turn,
                          verdicts: seq<Verdict>, d: Dress, confirmed: bool)
  {
    && n <= |verdicts| + 1 && |verdicts| <= |turn.answers| && lo + n <= |requests|
    && forall r: nat :: lo <= r < lo + n ==> DressedAt(requests[r], base, turn, verdicts, r - lo, d, confirmed)
  }

  lemma {:induction false} ThreeNotes(service: string, correction: string, retry: string)
    ensures SystemNotes([service, correction, retry], 3) ==
            NoteMessages(service) + NoteMessages(correction) + NoteMessages(retry)
  {
    var notes := [service, correction, retry];
    assert SystemNotes(notes, 0) == [];
    assert SystemNotes(notes, 1) == NoteMessages(service);
    assert SystemNotes(notes, 2) == NoteMessages(service) + NoteMessages(correction);
  }

  lemma {:induction false} RequestDressed(h: seq<Message>, base: seq<Message>, turn: Turn, verdicts: seq<Verdict>,
                                          agent: string, note: string, d: Dress, confirmed: bool)
    requires |verdicts| <= |turn.answers| && base != []
    requires Unprompted(h) == Unprompted(base) + Transcript(turn.answers, verdicts, |verdicts|, confirmed)
    requires agent == AgentAt(d.agent, turn.answers, verdicts, |verdicts|)
    requires note == RetryNote(d.policy, verdicts, |verdicts|)
    ensures var request := Refreshed(h, PromptFor(d.policy, agent)) + SystemNotes([d.service, d.correction, note], 3);
      DressedAt(request, base, turn, verdicts, |verdicts|, d, confirmed)
  {
    var now := Refreshed(h, PromptFor(d.policy, agent));
    assert |now| == |h| == |Unprompted(h)| && |Unprompted(base)| == |base|;
    assert Unprompted(h)[0] == Unprompted(base)[0];
    assert h[0].role == Unprompted(h)[0].role && base[0].role == Unprompted(base)[0].role;
    ThreeNotes(d.service, d.correction, note);
    var notes := SystemNotes([d.service, d.correction, note], 3);
    assert (now + notes)[|now|..] == notes && (now + notes)[0] == now[0];
  }

  lemma {:induction false} OneMoreDressed(requests: seq<seq<Message>>, request: seq<Message>, lo: nat,
                                          base: seq<Message>, turn: Turn, verdicts: seq<Verdict>, d: Dress,
                                          confirmed: bool)
    requires Dressed(requests, lo, |verdicts|, base, turn, verdicts, d, confirmed) && |requests| == lo + |verdicts|
    requires DressedAt(request, base, turn, verdicts, |verdicts|, d, confirmed)
    ensures Dressed(requests + [request], lo, |verdicts| + 1, base, turn, verdicts, d, confirmed)
  {
    var more := requests + [request];
    forall r: nat | lo <= r < lo + |verdicts| + 1
      ensures DressedAt(more[r], base, turn, verdicts, r - lo, d, confirmed)
    {
      if r < lo + |verdicts| { assert more[r] == requests[r]; }
    }
  }

  lemma {:induction false} AgentPrefix(agent: string, answers: seq<Answer>, verdicts: seq<Verdict>, v: Verdict, n: nat)
    requires n <= |verdicts| < |answers|
    ensures AgentAt(agent, answers, verdicts + [v], n) == AgentAt(agent, answers, verdicts, n)
  {
    if n > 0 { AgentPrefix(agent, answers, verdicts, v, n - 1); }
  }

  lemma {:induction false} StillDressed(requests: seq<seq<Message>>, lo: nat, n: nat, base: seq<Message>, turn: Turn,
                                        verdicts: seq<Verdict>, v: Verdict, d: Dress, confirmed: bool)
    requires Dressed(requests, lo, n, base, turn, verdicts, d, confirmed) && |verdicts| < |turn.answers|
    ensures Dressed(requests, lo, n, base, turn, verdicts + [v], d, confirmed)
  {
    forall r: nat | lo <= r < lo + n ensures DressedAt(requests[r], base, turn, verdicts + [v], r - lo, d, confirmed) {
      assert DressedAt(requests[r], base, turn, verdicts, r - lo, d, confirmed);
      TranscriptPrefix(turn.answers, verdicts, v, r - lo, confirmed);
      AgentPrefix(d.agent, turn.answers, verdicts, v, r - lo);
      assert RetryNote(d.policy, verdicts + [v], r - lo) == RetryNote(d.policy, verdicts, r - lo);
    }
  }

  lemma {:induction false} SameDress(requests: seq<seq<Message>>, lo: nat, n: nat, base: seq<Message>,
                                     other: seq<Message>, turn: Turn, verdicts: seq<Verdict>, d: Dress,
                                     confirmed: bool)
    requires Dressed(requests, lo, n, base, turn, verdicts, d, confirmed) && Unprompted(base) == Unprompted(other)
    ensures Dressed(requests, lo, n, other, turn, verdicts, d, confirmed)
  {
    assert |base| == |Unprompted(base)| == |Unprompted(other)| == |other|;
    assert base != [] ==> base[0].role == Unprompted(base)[0].role && other[0].role == Unprompted(other)[0].role;
    forall r: nat | lo <= r < lo + n ensures DressedAt(requests[r], other, turn, verdicts, r - lo, d, confirmed) {
      assert DressedAt(requests[r], base, turn, verdicts, r - lo, d, confirmed);
    }
  }

  /** What the loop knows of agent and notes when `n` requests are sent. */
  ghost predicate Dressing(requests: seq<seq<Message>>, lo: nat, n: nat, base: seq<Message>, turn: Turn,
                           verdicts: seq<Verdict>, d: Dress, confirmed: bool, agent: string)
  {
    Dressed(requests, lo, n, base, turn, verdicts, d, confirmed)
    && agent == AgentAt(d.agent, turn.answers, verdicts, |verdicts|)
  }

  lemma {:induction false} DressingSent(h: seq<Message>, requests: seq<seq<Message>>, lo: nat, base: seq<Message>,
                                        turn: Turn, verdicts: seq<Verdict>, d: Dress, confirmed: bool,
                                        agent: string, note: string)
    requires Dressing(requests, lo, |verdicts|, base, turn, verdicts, d, confirmed, agent)
    requires |requests| == lo + |verdicts| && base != [] && note == RetryNote(d.policy, verdicts, |verdicts|)
    requires Unprompted(h) == Unprompted(base) + Transcript(turn.answers, verdicts, |verdicts|, confirmed)
    ensures var request := Refreshed(h, PromptFor(d.policy, agent)) + SystemNotes([d.service, d.correction, note], 3);
      Dressing(requests + [request], lo, |verdicts| + 1, base, turn, verdicts, d, confirmed, agent)
  {
    RequestDressed(h, base, turn, verdicts, agent, note, d, confirmed);
    var request := Refreshed(h, PromptFor(d.policy, agent)) + SystemNotes([d.service, d.correction, note], 3);
    OneMoreDressed(requests, request, lo, base, turn, verdicts, d, confirmed);
  }

  lemma {:induction false} DressingJudged(requests: seq<seq<Message>>, lo: nat, base: seq<Message>, turn: Turn,
                                          verdicts: seq<Verdict>, v: Verdict, d: Dress, confirmed: bool,
                                          agent: string, now: string)
    requires Dressing(requests, lo, |verdicts| + 1, base, turn, verdicts, d, confirmed, agent)
    requires |verdicts| < |turn.answers|
    requires var calls := turn.answers[|verdicts|].calls;
      now == if v.Rejected? then agent else AgentAfter(agent, calls, |calls|)
    ensures Dressing(requests, lo, |verdicts| + 1, base, turn, verdicts + [v], d, confirmed, now)
    ensures RetryNote(d.policy, verdicts + [v], |verdicts| + 1) ==
            if v.Rejected? && v.guard in d.policy.retryNotes then d.policy.retryNotes[v.guard] else ""
  {
    StillDressed(requests, lo, |verdicts| + 1, base, turn, verdicts, v, d, confirmed);
    AgentPrefix(d.agent, turn.answers, verdicts, v, |verdicts|);
  }

  lemma {:induction false} SanitizedWhole(h: seq<Message>)
    ensures |Repaired(h)| == |h| ==> Repaired(h) == h
  {
    if |Repaired(h)| == |h| { AllKept(h, |h|); }
  }

  lemma {:induction false} AllKept(h: seq<Message>, i: nat)
    requires i <= |h|
    ensures |SoundPart(h, i)| <= i
    ensures |SoundPart(h, i)| == i ==> SoundPart(h, i) == h[..i]
  {
    if i > 0 { AllKept(h, i - 1); }
  }

  lemma {:induction false} OpeningReady(h: seq<Message>, prompt: string, text: string, now: seq<Message>)
    requires !IsBlank(text) && Unprompted(now) == Unprompted(Opening(h, prompt, text))
    ensures now != [] && ToolComplete(now) && LatestUser(now) == text
  {
    var opening := Opening(h, prompt, text);
    StartComplete(h, prompt, [Text(User, text)]);
    CompleteUpToPrompt(opening, now);
    assert |now| == |Unprompted(now)| == |opening|;
    LatestUserUpToPrompt(now, "", |now|);
    LatestUserUpToPrompt(opening, "", |now|);
    assert opening[|opening| - 1] == Text(User, text);
  }

  lemma {:induction false} SameBase(requests: seq<seq<Message>>, lo: nat, n: nat, base: seq<Message>,
                                    other: seq<Message>, turn: Turn,
                 verdicts: seq<Verdict>, confirmed: bool)
    requires RequestsFor(requests, lo, n, base, turn, verdicts, confirmed) && Unprompted(base) == Unprompted(other)
    ensures RequestsFor(requests, lo, n, other, turn, verdicts, confirmed)
  {
  }

  /** How a turn opens: the history before the loop, or at once the history it ends with. */
  ghost predicate Opened(h: seq<Message>, early: bool, start: seq<Message>, agent: string, turn: Turn) {
    if IsBlank(turn.text) then
      early && h == start + [Text(Assistant, turn.fixedReply)]
    else if turn.isGreeting && agent == "TriageAgent" then
      early && h == start + [Text(User, turn.text), Text(Assistant, turn.fixedReply)]
    else if turn.intent in {OptOut, Seasonal, WantsHuman} then
      early && h == []
    else
      && (early <==> !turn.intent.ModelLoop? || !turn.clientReady)
      && Unprompted(h) == Unprompted(start + [Text(User, turn.text)])
  }

  // ---------------------------------------------------------------- the session

  class Session {
    var messages: seq<Message>
    var currentAgent: string
    var greetingSent: bool
    var serviceNote: string
    var correctionNote: string
    // What the outside world has seen of this session.
    var requests: seq<seq<Message>>
    var orders: seq<SavedOrder>

    constructor ()
      ensures messages == [] && requests == [] && orders == []
    {
      messages, currentAgent, greetingSent := [], "TriageAgent", false;
      serviceNote, correctionNote, requests, orders := "", "", [], [];
    }

    method RefreshSystemPrompt(policy: Policy)
      modifies `messages
      ensures messages == Refreshed(old(messages), PromptFor(policy, currentAgent))
    {
      if messages != [] && messages[0].role == System {
        messages := [messages[0].(content := PromptFor(policy, currentAgent))] + messages[1..];
      }
    }

    method Reset()
      modifies `messages, `greetingSent, `serviceNote, `correctionNote
      ensures messages == [] && !greetingSent && serviceNote == "" && correctionNote == ""
    {
      messages, greetingSent, serviceNote, correctionNote := [], false, "", "";
    }

    /** An order is persisted exactly for an order call under an explicit confirmation whose
        result reports success; that and an escalation empty the history. */
    method HandleToolCall(call: ToolCall, policy: Policy, ghost text: string,
                          ghost confirmed: bool) returns (r: Handled)
      requires text == LatestUser(messages) && confirmed == Confirms(text, policy)
      modifies this
      ensures requests == old(requests)
      ensures r.Raised? <==> call.effect.Raises?
      ensures r.Return? <==> EndsTurn(call, confirmed)
      ensures r.Result? ==> r.text == ToolText(call, confirmed)
      ensures r.Return? ==> r.text == EndText(call, policy)
      ensures messages == if r.Return? then [] else old(messages)
      ensures r.Return? ==> r.saved == SavedResult(call, confirmed)
      ensures orders == old(orders) + if r.Return? && r.saved.Some? then [SavedOrder(text, r.saved.value)] else []
      ensures currentAgent ==
        if call.effect.Transfer? && call.effect.agent in AGENTS then call.effect.agent else old(currentAgent)
      ensures !r.Return? ==> serviceNote == old(serviceNote) && correctionNote == old(correctionNote)
    {
      match call.effect
      case Raises =>
        r := Raised;
      case Transfer(agent, text) =>
        if agent in AGENTS { currentAgent := agent; }
        r := Result(text);
      case Escalate(text) =>
        Reset();
        r := Return(HandoffMessage(text, policy), None);
      case Answering(text) =>
        r := Result(text);
      case CreateOrder(draft, create) =>
        if !HasExplicitConfirmation(messages, policy) {
          r := Result(OutcomeText(draft));
        } else {
          if create.Done? && IsSavedOrderResult(create.text) {
            orders := orders + [SavedOrder(LatestUser(messages), create.text)];
            Reset();
            return Return(FinalSavedOrderMessage(create.text, policy), Some(create.text));
          }
          r := Result(OutcomeText(create));
        }
    }

    /** One call: run it, record its result, and stop on a draft summary. */
    method AnswerCall(call: ToolCall, policy: Policy, ghost text: string,
                      ghost confirmed: bool) returns (out: ToolsExit)
      requires text == LatestUser(messages) && confirmed == Confirms(text, policy)
      modifies this
      ensures requests == old(requests)
      ensures out == ExitAt(call, confirmed, policy)
      ensures messages == match out
        case TurnEnded(_, _) => []
        case ToolRaised => old(messages)
        case _ => old(messages) + [ToolMessage(call, confirmed)]
      ensures orders == old(orders) + SavedBy(out, text)
      ensures !out.TurnEnded? ==>
        text == LatestUser(messages) && serviceNote == old(serviceNote) && correctionNote == old(correctionNote)
      ensures currentAgent == TakeOver(old(currentAgent), call)
    {
      var r := HandleToolCall(call, policy, text, confirmed);
      if r.Raised? { return ToolRaised; }
      if r.Return? { return TurnEnded(r.text, r.saved); }
      messages := messages + [Message(Tool, r.text, [], call.id, call.name)];
      LatestUserSkips(old(messages), [ToolMessage(call, confirmed)], 1);
      out := if r.text in policy.drafts then DraftShown(r.text) else AllAnswered;
    }

    /** Answers the calls in order until one of them, the `n`-th, raises, ends the turn or
        shows a draft. */
    method RunToolCalls(a: Answer, policy: Policy, ghost text: string, ghost confirmed: bool)
      returns (out: ToolsExit, ghost n: nat)
      requires text == LatestUser(messages) && confirmed == Confirms(text, policy)
      modifies this
      ensures requests == old(requests)
      ensures n == FirstStop(a.calls, 0, confirmed, policy)
      ensures out == if n < |a.calls| then ExitAt(a.calls[n], confirmed, policy) else AllAnswered
      ensures messages == AfterCalls(old(messages), a.calls, n, out, confirmed)
      ensures orders == old(orders) + SavedBy(out, text)
      ensures !out.TurnEnded? ==>
        text == LatestUser(messages) && serviceNote == old(serviceNote) && correctionNote == old(correctionNote)
      ensures out == AllAnswered ==> currentAgent == AgentAfter(old(currentAgent), a.calls, |a.calls|)
    {
      n, out := 0, AllAnswered;
      for i := 0 to |a.calls|
        invariant n == i && FirstStop(a.calls, 0, confirmed, policy) == FirstStop(a.calls, i, confirmed, policy)
        invariant messages == AfterCalls(old(messages), a.calls, i, AllAnswered, confirmed)
        invariant orders == old(orders) && requests == old(requests) && out == AllAnswered
        invariant text == LatestUser(messages) && currentAgent == AgentAfter(old(currentAgent), a.calls, i)
        invariant serviceNote == old(serviceNote) && correctionNote == old(correctionNote)
      {
        out := AnswerCall(a.calls[i], policy, text, confirmed);
        AfterCallsStep(old(messages), a.calls, i, out, confirmed);
        if out != AllAnswered { return; }
        n := n + 1;
      }
    }

    /** Renews the system prompt and sends the history with the notes of this round. */
    method SendRequest(note: string, policy: Policy, ghost lo: nat, ghost base: seq<Message>, ghost turn: Turn,
                       ghost verdicts: seq<Verdict>, ghost used: set<Guard>, ghost d: Dress, ghost confirmed: bool)
      requires Dressing(requests, lo, |verdicts|, base, turn, verdicts, d, confirmed, currentAgent)
      requires note == RetryNote(policy, verdicts, |verdicts|)
      requires d.policy == policy && d.service == serviceNote && d.correction == correctionNote
      requires Looping(messages, requests, |verdicts|, lo, base, turn, verdicts, used, confirmed)
      requires base != [] && ToolComplete(base)
      requires forall i :: 0 <= i < |turn.answers| ==> UsableIds(turn.answers[i])
      modifies `messages, `requests
      ensures old(requests) <= requests
      ensures Dressing(requests, lo, |verdicts| + 1, base, turn, verdicts, d, confirmed, currentAgent)
      ensures Looping(messages, requests, |verdicts| + 1, lo, base, turn, verdicts, used, confirmed)
    {
      SendStep(messages, PromptFor(policy, currentAgent), requests, [serviceNote, correctionNote, note], lo, base,
               turn, verdicts, used, confirmed);
      DressingSent(messages, requests, lo, base, turn, verdicts, d, confirmed, currentAgent, note);
      RefreshSystemPrompt(policy);
      var request := messages + SystemNotes([serviceNote, correctionNote, note], 3);
      requests := requests + [request];
    }

    /** Records an answer no guard objects to, and replies or runs its tool calls. */
    method ActOnAnswer(a: Answer, policy: Policy, ghost lo: nat, ghost base: seq<Message>, ghost turn: Turn,
                       ghost verdicts: seq<Verdict>, ghost used: set<Guard>, ghost confirmed: bool)
      returns (done: bool, reply: Reply, out: ToolsExit)
      requires Looping(messages, requests, |verdicts| + 1, lo, base, turn, verdicts, used, confirmed)
      requires |verdicts| < |turn.answers| && a == turn.answers[|verdicts|] && confirmed == Confirms(turn.text, policy)
      modifies this
      ensures requests == old(requests) && orders == old(orders) + SavedBy(out, turn.text)
      ensures done ==> LoopEnd(reply, out, messages, base, turn, policy, verdicts, confirmed)
      ensures !done ==> out == AllAnswered && a.calls != [] && GoesOn(a, policy, confirmed)
      ensures !done ==>
        && currentAgent == AgentAfter(old(currentAgent), a.calls, |a.calls|)
        && serviceNote == old(serviceNote) && correctionNote == old(correctionNote)
      ensures !done ==>
        Looping(messages, requests, |verdicts| + 1, lo, base, turn, verdicts + [Accepted], used, confirmed)
    {
      ghost var sofar := messages;
      messages := messages + [AssistantMessage(a)];
      LatestUserSkips(sofar, [AssistantMessage(a)], 1);
      if a.calls == [] {
        UnpromptedFacts(sofar, [AssistantMessage(a)], "");
        return true, Reply(FinalReply(a.content, messages, policy)), AllAnswered;
      }
      ghost var n;
      out, n := RunToolCalls(a, policy, turn.text, confirmed);
      FirstStopStops(a.calls, 0, confirmed, policy);
      if out != AllAnswered {
        StopStep(sofar, messages, a, n, out, base, turn, policy, verdicts, confirmed);
        return true, if out.ToolRaised? then Interrupted else Reply(out.text), out;
      }
      AcceptStep(sofar, messages, requests, lo, base, turn, verdicts, used, confirmed);
      AllGoOn(a, policy, confirmed);
      done, reply := false, Interrupted;
    }

    /** The reasoning loop. Each round sends one request; `verdicts` says what became of the
        answers that did not end the loop. */
    method RunLoop(turn: Turn, policy: Policy, ghost confirmed: bool)
      returns (reply: Reply, out: ToolsExit, ghost verdicts: seq<Verdict>)
      requires messages != [] && ToolComplete(messages) && LatestUser(messages) == turn.text
      requires confirmed == Confirms(turn.text, policy)
      requires forall i :: 0 <= i < |turn.answers| ==> UsableIds(turn.answers[i])
      modifies this
      ensures |verdicts| <= |turn.answers| && EachGuardOnce(verdicts)
      ensures |requests| == |old(requests)| + |verdicts| + 1 && old(requests) <= requests
      ensures RequestsFor(requests, |old(requests)|, |verdicts| + 1, old(messages), turn, verdicts, confirmed)
      ensures orders == old(orders) + SavedBy(out, turn.text)
      ensures LoopEnd(reply, out, messages, old(messages), turn, policy, verdicts, confirmed)
      ensures Judged(old(messages), turn, policy, verdicts, confirmed)
      ensures EndJudged(old(messages), turn, verdicts, confirmed)
      ensures Dressed(requests, |old(requests)|, |verdicts| + 1, old(messages), turn, verdicts,
                      Dress(policy, old(currentAgent), old(serviceNote), old(correctionNote)), confirmed)
    {
      ghost var base, lo := messages, |requests|;
      ghost var dress := Dress(policy, currentAgent, serviceNote, correctionNote);
      var used: set<Guard> := {};
      var note := "";
      verdicts, out := [], AllAnswered;
      var k := 0;
      LoopingStart(messages, requests, turn, confirmed);
      while true
        invariant k == |verdicts| && old(requests) <= requests && orders == old(orders) && out == AllAnswered
        invariant Looping(messages, requests, k, lo, base, turn, verdicts, used, confirmed)
        invariant Judged(base, turn, policy, verdicts, confirmed)
        invariant serviceNote == dress.service && correctionNote == dress.correction
        invariant Dressing(requests, lo, k, base, turn, verdicts, dress, confirmed, currentAgent)
        invariant note == RetryNote(policy, verdicts, k)
        decreases |turn.answers| - k
      {
        SendRequest(note, policy, lo, base, turn, verdicts, used, dress, confirmed);
        note := "";
        if k == |turn.answers| {
          return Interrupted, out, verdicts;
        }
        var a := turn.answers[k];
        var guard := FiringGuard(a, used, messages);
        ChoiceJudged(base, turn, policy, verdicts, messages, confirmed);
        if guard.Some? {
          RejectStep(messages, requests, lo, base, turn, verdicts, used, guard.value, confirmed);
          used := used + {guard.value};
          note := if guard.value in policy.retryNotes then policy.retryNotes[guard.value] else "";
          DressingJudged(requests, lo, base, turn, verdicts, Rejected(guard.value), dress, confirmed,
                         currentAgent, currentAgent);
          verdicts := verdicts + [Rejected(guard.value)];
          k := k + 1;
          continue;
        }
        ghost var agent := currentAgent;
        var done;
        done, reply, out := ActOnAnswer(a, policy, lo, base, turn, verdicts, used, confirmed);
        if done {
          return reply, out, verdicts;
        }
        OneMoreJudged(base, turn, policy, verdicts, Accepted, confirmed);
        DressingJudged(requests, lo, base, turn, verdicts, Accepted, dress, confirmed, agent, currentAgent);
        verdicts := verdicts + [Accepted];
        k := k + 1;
      }
    }

    /** Loads a history that the model API will accept, whatever was stored. */
    method RepairAndBootstrap(policy: Policy)
      modifies `messages
      ensures messages == Start(old(messages), PromptFor(policy, currentAgent))
    {
      var cleaned, dropped := SanitizeSessionMessages(messages);
      SanitizedWhole(messages);
      if dropped != 0 {
        messages := cleaned;
      }
      if messages == [] {
        messages := [Text(System, PromptFor(policy, currentAgent))];
      }
    }

    method SwitchAgent(agent: string, policy: Policy)
      modifies `messages, `currentAgent
      ensures currentAgent == agent && Unprompted(messages) == Unprompted(old(messages))
    {
      UnpromptedFacts(messages, [], PromptFor(policy, agent));
      currentAgent := agent;
      RefreshSystemPrompt(policy);
    }

    /** The replies that the text of a recorded user message gets without the model. */
    method Intercept(turn: Turn, policy: Policy) returns (early: bool)
      modifies `messages, `currentAgent, `greetingSent, `serviceNote, `correctionNote
      ensures turn.intent in {OptOut, Seasonal, WantsHuman} ==> early && messages == []
      ensures turn.intent !in {OptOut, Seasonal, WantsHuman} ==>
        && (early <==> !turn.intent.ModelLoop? || !turn.clientReady)
        && Unprompted(messages) == Unprompted(old(messages))
        && greetingSent == old(greetingSent)
        && serviceNote == (if turn.serviceNote != "" then turn.serviceNote else old(serviceNote))
        && correctionNote == (if turn.correctionNote != "" then turn.correctionNote else old(correctionNote))
      ensures turn.intent in {OptOut, Seasonal, WantsHuman} ==>
        !greetingSent && serviceNote == "" && correctionNote == ""
      ensures currentAgent == match turn.intent
        case OptOut => "TriageAgent"
        case Caseirinho => "CakeOrderAgent"
        case ModelLoop(switchTo) => if switchTo == [] then old(currentAgent) else switchTo[|switchTo| - 1]
        case _ => old(currentAgent)
    {
      if turn.serviceNote != "" { serviceNote := turn.serviceNote; }
      if turn.correctionNote != "" { correctionNote := turn.correctionNote; }
      match turn.intent
      case OptOut =>
        currentAgent := "TriageAgent";
        Reset();
        early := true;
      case Seasonal =>
        Reset();
        early := true;
      case FixedReply =>
        early := true;
      case Caseirinho =>
        if currentAgent != "CakeOrderAgent" { SwitchAgent("CakeOrderAgent", policy); }
        early := true;
      case WantsHuman =>
        Reset();
        early := true;
      case ModelLoop(switchTo) =>
        for i := 0 to |switchTo|
          invariant Unprompted(messages) == Unprompted(old(messages))
          invariant currentAgent == if i == 0 then old(currentAgent) else switchTo[i - 1]
          modifies `messages, `currentAgent
        {
          SwitchAgent(switchTo[i], policy);
        }
        early := !turn.clientReady;
    }

    /** Up to the loop: repair, bootstrap, and the replies that need no model. */
    method OpenTurn(turn: Turn, policy: Policy) returns (early: bool)
      modifies `messages, `currentAgent, `greetingSent, `serviceNote, `correctionNote
      ensures var start := Start(old(messages), PromptFor(policy, old(currentAgent)));
        Opened(messages, early, start, old(currentAgent), turn)
      ensures !early ==>
        turn.intent.ModelLoop? && DressOf(policy, old(currentAgent), old(serviceNote), old(correctionNote), turn) ==
        Dress(policy, currentAgent, serviceNote, correctionNote)
    {
      RepairAndBootstrap(policy);
      if IsBlank(turn.text) {
        messages := messages + [Text(Assistant, turn.fixedReply)];
        return true;
      }
      if turn.isGreeting && currentAgent == "TriageAgent" {
        messages := messages + [Text(User, turn.text)];
        greetingSent := true;
        messages := messages + [Text(Assistant, turn.fixedReply)];
        return true;
      }
      messages := messages + [Text(User, turn.text)];
      early := Intercept(turn, policy);
    }

    /** One whole turn. Whatever the stored history was and whatever the model answers: every
        request is tool-complete, there are at most seven more requests than tool rounds, and at
        most one order is persisted, by this turn's own confirmation, which ends the turn with
        an empty history. `end` says how the loop ended, if the turn got to it. */
    method ProcessMessage(turn: Turn, policy: Policy)
      returns (reply: Reply, ghost verdicts: seq<Verdict>, ghost end: Option<ToolsExit>)
      requires forall i :: 0 <= i < |turn.answers| ==> UsableIds(turn.answers[i])
      modifies this
      ensures old(requests) <= requests
      ensures forall r :: |old(requests)| <= r < |requests| ==> ToolComplete(requests[r])
      ensures |requests| - |old(requests)| <= ToolRounds(verdicts) + 7
      ensures end.None? ==>
        && requests == old(requests) && orders == old(orders) && reply == Reply(turn.fixedReply)
        && Opened(messages, true, Start(old(messages), PromptFor(policy, old(currentAgent))), old(currentAgent), turn)
      ensures end.Some? ==>
        var opening := Opening(old(messages), PromptFor(policy, old(currentAgent)), turn.text);
        && |verdicts| <= |turn.answers|
        && RequestsFor(requests, |old(requests)|, |verdicts| + 1, opening, turn, verdicts, Confirms(turn.text, policy))
        && LoopEnd(reply, end.value, messages, opening, turn, policy, verdicts, Confirms(turn.text, policy))
        && Judged(opening, turn, policy, verdicts, Confirms(turn.text, policy))
        && EndJudged(opening, turn, verdicts, Confirms(turn.text, policy))
        && Dressed(requests, |old(requests)|, |verdicts| + 1, opening, turn, verdicts,
                   DressOf(policy, old(currentAgent), old(serviceNote), old(correctionNote), turn),
                   Confirms(turn.text, policy))
        && orders == old(orders) + SavedBy(end.value, turn.text)
      ensures orders == old(orders) || exists result ::
        && orders == old(orders) + [SavedOrder(turn.text, result)]
        && IsSavedOrderResult(result) && reply == Reply(FinalSavedOrderMessage(result, policy))
        && Confirms(turn.text, policy) && messages == []
    {
      ghost var opening := Opening(messages, PromptFor(policy, currentAgent), turn.text);
      ghost var confirmed := Confirms(turn.text, policy);
      var early := OpenTurn(turn, policy);
      verdicts, end := [], None;
      if early {
        return Reply(turn.fixedReply), verdicts, None;
      }
      OpeningReady(old(messages), PromptFor(policy, old(currentAgent)), turn.text, messages);
      ghost var base := messages;
      ghost var dress := Dress(policy, currentAgent, serviceNote, correctionNote);
      var out;
      reply, out, verdicts := RunLoop(turn, policy, confirmed);
      end := Some(out);
      FewRejections(verdicts);
      SixGuards(RejectedGuards(verdicts));
      SameBase(requests, |old(requests)|, |verdicts| + 1, base, opening, turn, verdicts, confirmed);
      assert forall r: nat :: |old(requests)| <= r < |requests| ==>
        RequestFor(requests[r], base, turn, verdicts, r - |old(requests)|, confirmed);
      SameJudged(base, opening, turn, policy, verdicts, confirmed);
      SameDress(requests, |old(requests)|, |verdicts| + 1, base, opening, turn, verdicts, dress, confirmed);
      SavedReply(reply, out, messages, base, turn, policy, verdicts);
    }

    /** Any number of turns, from any stored history. */
    method RunTurns(turns: seq<Turn>, policy: Policy)
      requires forall t, i :: 0 <= t < |turns| && 0 <= i < |turns[t].answers| ==> UsableIds(turns[t].answers[i])
      requires requests == [] && orders == []
      modifies this
      ensures forall r :: 0 <= r < |requests| ==> ToolComplete(requests[r])
      ensures |orders| <= |turns|
      ensures forall o :: o in orders ==> Confirms(o.userText, policy) && exists t :: t in turns && t.text == o.userText
    {
      for t := 0 to |turns|
        invariant forall r :: 0 <= r < |requests| ==> ToolComplete(requests[r])
        invariant |orders| <= t
        invariant forall o :: o in orders ==>
          Confirms(o.userText, policy) && exists t :: t in turns && t.text == o.userText
      {
        ghost var sent := requests;
        assert turns[t] in turns;
        var _, _, _ := ProcessMessage(turns[t], policy);
        assert forall r :: 0 <= r < |sent| ==> requests[r] == sent[r];
      }
    }
  }
}
