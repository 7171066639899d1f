/** One inbound message, from its gates to the reply
    (app/application/use_cases/process_inbound_message.py), and the panel's start and end of a
    human handoff (manage_human_handoff.py). Moments are whole microseconds. */
module Inbound {
  import opened Clock
  import opened Wrappers

  const SECOND := 1000000
  const MINUTE := 60 * SECOND
  const HANDOFF_LIMIT := 30 * MINUTE
  const ACK_GAP := 15 * MINUTE
  const CONTENT_WINDOW := 2 * SECOND
  const REPLY_WINDOW := 10 * SECOND
  const ID_TTL := 60 * SECOND

  const PAUSE_BOT: set<string> := {"desativar bot", "desligar bot", "pausar bot"}
  const RESUME_BOT: set<string> := {"ativar bot", "ligar bot", "reativar bot"}
  const REACTIVATE: set<string> := {"voltar", "menu", "bot", "reativar", "voltar ao bot", "ativar chat", "ativar bot"}
  const OPT_OUT: set<string> := {"desativar chat", "desativar bot", "desligar chat", "desligar bot", "pausar chat",
                                 "pausar bot"}

  /** `liveRefs` is true for the backend that keeps its dictionaries in memory, where what
      `estados_atendimento[phone]` returns is the stored object, and false for the SQLite and
      Redis backends, where it is a decoded copy. `autoResume` is 0 when switched off. */
  datatype Config = Config(admins: set<string>, liveRefs: bool, autoResume: int)

  datatype Handoff = Handoff(inicio: int, ackAt: Option<int>)

  datatype Stamped = Stamped(text: string, at: int)

  /** What the assistant's turn came to: the hash of its reply and its two side effects here. */
  datatype AiResult = AiResult(hash: string, escalates: bool, optsOut: bool)

  /** A normalised message (`texto` lower-cased and stripped, "" for a missing key) and the
      settings of its moment. */
  datatype Message = Message(phone: string, texto: string, id: string, ai: AiResult, autoReplies: bool, aiWindow: bool,
                             automationDisabled: bool, tracked: bool, storeClosed: bool)

  datatype Input =
    | Received(now: int, m: Message)
    | PanelStarts(now: int, phone: string)
    | PanelEnds(now: int, phone: string)

  datatype Event = Marked(id: string) | OptedOut | OptedIn | AutoResumed | Recorded(text: string)
                 | Started | Refreshed | EndedByWord | EndedByPanel | TimedOut | AckSent | Silenced
                 | AiCalled | ReplySent(hash: string)

  datatype Entry = Entry(phone: string, at: int, event: Event)

  /** The stored maps, and everything that happened. */
  datatype State = State(botAtivo: bool, processed: map<string, int>, optOut: map<string, int>, recent: map<string,
                         Stamped>,
                         replies: map<string, Stamped>, handoffs: map<string, Handoff>, log: seq<Entry>)

  const START := State(true, map[], map[], map[], map[], map[], [])

  // ---------------------------------------------------------------- the effect of one event

  function NewOptOut(optOut: map<string, int>, p: string, e: Event, t: int): map<string, int> {
    if e.OptedOut? then optOut[p := t] else if e.OptedIn? || e.AutoResumed? then optOut - {p} else optOut
  }

  function NewHandoffs(handoffs: map<string, Handoff>, p: string, e: Event, t: int, cfg: Config): map<string, Handoff> {
    if e.Started? then handoffs[p := Handoff(t, None)]
    else if e.EndedByWord? || e.EndedByPanel? || e.TimedOut? then handoffs - {p}
    else if e.Refreshed? && cfg.liveRefs && p in handoffs then handoffs[p := handoffs[p].(inicio := t)]
    else if e.AckSent? && cfg.liveRefs && p in handoffs then handoffs[p := handoffs[p].(ackAt := Some(t))]
    else handoffs
  }

  function Emit(s: State, p: string, e: Event, t: int, cfg: Config): State {
    State(s.botAtivo,
          if e.Marked? then s.processed[e.id := t + ID_TTL] else s.processed,
          NewOptOut(s.optOut, p, e, t),
          if e.Recorded? then s.recent[p := Stamped(e.text, t)] else s.recent,
          if e.ReplySent? then s.replies[p := Stamped(e.hash, t)] else s.replies,
          NewHandoffs(s.handoffs, p, e, t, cfg),
          s.log + [Entry(p, t, e)])
  }

  // ---------------------------------------------------------------- one message

  predicate DuplicateId(s: State, m: Message, now: int) {
    m.id != "" && m.id in s.processed && now < s.processed[m.id]
  }

  function Mark(s: State, m: Message, now: int, cfg: Config): State {
    if m.id == "" then s else Emit(s, m.phone, Marked(m.id), now, cfg)
  }

  predicate ResumesBySelf(s: State, p: string, now: int, cfg: Config) {
    p in s.optOut && cfg.autoResume > 0 && now - s.optOut[p] >= cfg.autoResume
  }

  predicate RepeatsReply(s: State, p: string, hash: string, now: int) {
    p in s.replies && s.replies[p].text == hash && now - s.replies[p].at <= REPLY_WINDOW
  }

  /** The assistant's turn, as far as it touches these maps. */
  function AiTurn(s: State, m: Message, now: int, cfg: Config): State {
    var s1 := Emit(s, m.phone, AiCalled, now, cfg);
    var s2 := if m.ai.optsOut then Emit(s1, m.phone, OptedOut, now, cfg) else s1;
    if m.ai.escalates then Emit(s2, m.phone, Started, now, cfg) else s2
  }

  function SendReply(s: State, m: Message, now: int, cfg: Config): State {
    if RepeatsReply(s, m.phone, m.ai.hash, now) then s else Emit(s, m.phone, ReplySent(m.ai.hash), now, cfg)
  }

  function AskAi(s: State, m: Message, now: int, cfg: Config): State {
    SendReply(AiTurn(s, m, now, cfg), m, now, cfg)
  }

  /** A message of a phone that is handed off, within the limit and without a reactivation word. */
  function Absorb(s: State, m: Message, now: int, cfg: Config): State
    requires m.phone in s.handoffs
  {
    var ackAt := s.handoffs[m.phone].ackAt;
    var s1 := Emit(s, m.phone, Refreshed, now, cfg);
    Emit(s1, m.phone, if ackAt.None? || now - ackAt.value > ACK_GAP then AckSent else Silenced, now, cfg)
  }

  function Attend(s: State, m: Message, now: int, cfg: Config): State {
    if m.phone !in s.handoffs then AskAi(s, m, now, cfg)
    else if now - s.handoffs[m.phone].inicio > HANDOFF_LIMIT then
      AskAi(Emit(s, m.phone, TimedOut, now, cfg), m, now, cfg)
    else if m.texto in REACTIVATE then Emit(s, m.phone, EndedByWord, now, cfg)
    else Absorb(s, m, now, cfg)
  }

  predicate RepeatsContent(s: State, m: Message, now: int) {
    m.phone in s.recent && s.recent[m.phone].text == m.texto && now - s.recent[m.phone].at < CONTENT_WINDOW
  }

  function Admit(s: State, m: Message, now: int, cfg: Config): State {
    if RepeatsContent(s, m, now) then s
    else
      var s1 := Emit(s, m.phone, Recorded(m.texto), now, cfg);
      if m.storeClosed then s1 else Attend(s1, m, now, cfg)
  }

  /** After the opt-out gate. */
  function Converse(s: State, m: Message, now: int, cfg: Config): State {
    if m.texto in OPT_OUT then Emit(s, m.phone, OptedOut, now, cfg)
    else if DuplicateId(s, m, now) then s
    else Admit(Mark(s, m, now, cfg), m, now, cfg)
  }

  predicate IsCommand(m: Message, cfg: Config) {
    m.phone in cfg.admins && m.texto in PAUSE_BOT + RESUME_BOT
  }

  predicate KeptOut(s: State, m: Message) {
    !m.autoReplies || !s.botAtivo || !m.aiWindow || m.phone == "" || m.texto == "" || m.automationDisabled || !m.tracked
  }

  /** With the replies or the assistant's hours off, a message is only stored. */
  predicate StoredOnly(s: State, m: Message, now: int) {
    && m.phone != "" && m.texto != "" && !DuplicateId(s, m, now)
    && (if !m.autoReplies then m.tracked else s.botAtivo && !m.aiWindow)
  }

  function OnMessage(s: State, m: Message, now: int, cfg: Config): State {
    if IsCommand(m, cfg) then s.(botAtivo := m.texto in RESUME_BOT)
    else if KeptOut(s, m) then if StoredOnly(s, m, now) then Mark(s, m, now, cfg) else s
    else if m.phone !in s.optOut then Converse(s, m, now, cfg)
    else if ResumesBySelf(s, m.phone, now, cfg) then Converse(Emit(s, m.phone, AutoResumed, now, cfg), m, now, cfg)
    else if m.texto in REACTIVATE then Emit(s, m.phone, OptedIn, now, cfg)
    else s
  }

  function Step(s: State, input: Input, cfg: Config): State {
    match input
    case Received(now, m) => OnMessage(s, m, now, cfg)
    case PanelStarts(now, p) => Emit(s, p, Started, now, cfg)
    case PanelEnds(now, p) => Emit(s, p, EndedByPanel, now, cfg)
  }

  function Run(inputs: seq<Input>, cfg: Config, n: nat): State
    requires n <= |inputs|
  {
    if n == 0 then START else Step(Run(inputs, cfg, n - 1), inputs[n - 1], cfg)
  }

  predicate Timed(inputs: seq<Input>) {
    forall i :: 0 < i < |inputs| ==> inputs[i - 1].now <= inputs[i].now
  }

  // ---------------------------------------------------------------- one phone, told by its history

  datatype Phone = Phone(optOutAt: Option<int>, recent: Option<Stamped>, reply: Option<Stamped>,
                         handoff: Option<Handoff>)

  const FRESH := Phone(None, None, None, None)

  function Apply(ph: Phone, e: Event, t: int, cfg: Config): Phone {
    match e
    case Marked(_) => ph
    case OptedOut => ph.(optOutAt := Some(t))
    case OptedIn => ph.(optOutAt := None)
    case AutoResumed => ph.(optOutAt := None)
    case Recorded(text) => ph.(recent := Some(Stamped(text, t)))
    case Started => ph.(handoff := Some(Handoff(t, None)))
    case Refreshed =>
      if cfg.liveRefs && ph.handoff.Some? then ph.(handoff := Some(ph.handoff.value.(inicio := t))) else ph
    case AckSent =>
      if cfg.liveRefs && ph.handoff.Some? then ph.(handoff := Some(ph.handoff.value.(ackAt := Some(t)))) else ph
    case EndedByWord => ph.(handoff := None)
    case EndedByPanel => ph.(handoff := None)
    case TimedOut => ph.(handoff := None)
    case Silenced => ph
    case AiCalled => ph
    case ReplySent(hash) => ph.(reply := Some(Stamped(hash, t)))
  }

  /** What the phone's first `n` entries amount to. */
  function History(log: seq<Entry>, p: string, n: nat, cfg: Config): Phone
    requires n <= |log|
  {
    if n == 0 then FRESH
    else if log[n - 1].phone == p then Apply(History(log, p, n - 1, cfg), log[n - 1].event, log[n - 1].at, cfg)
    else History(log, p, n - 1, cfg)
  }

  function LastMark(log: seq<Entry>, id: string, n: nat): Option<int>
    requires n <= |log|
  {
    if n == 0 then None
    else if log[n - 1].event == Marked(id) then Some(log[n - 1].at)
    else LastMark(log, id, n - 1)
  }

  /** When an event may happen to a phone. */
  predicate Allowed(ph: Phone, e: Event, t: int, cfg: Config) {
    match e
    case Marked(_) => true
    case OptedOut => ph.optOutAt.None?
    case OptedIn => ph.optOutAt.Some?
    case AutoResumed => ph.optOutAt.Some? && cfg.autoResume > 0 && t - ph.optOutAt.value >= cfg.autoResume
    case Recorded(text) =>
      && ph.optOutAt.None?
      && (ph.recent.Some? && ph.recent.value.text == text ==> t - ph.recent.value.at >= CONTENT_WINDOW)
    case Started => true
    case Refreshed => ph.handoff.Some? && t - ph.handoff.value.inicio <= HANDOFF_LIMIT
    case EndedByWord => ph.handoff.Some?
    case EndedByPanel => true
    case TimedOut => ph.handoff.Some? && t - ph.handoff.value.inicio > HANDOFF_LIMIT
    case AckSent => ph.handoff.Some? && (ph.handoff.value.ackAt.Some? ==> t - ph.handoff.value.ackAt.value > ACK_GAP)
    case Silenced => ph.handoff.Some? && ph.handoff.value.ackAt.Some?
    case AiCalled => ph.optOutAt.None? && ph.handoff.None?
    case ReplySent(hash) => ph.reply.Some? && ph.reply.value.text == hash ==> t - ph.reply.value.at > REPLY_WINDOW
  }

  predicate FreshMark(last: Option<int>, t: int) {
    last.Some? ==> t - last.value >= ID_TTL
  }

  predicate LegalAt(log: seq<Entry>, n: nat, cfg: Config)
    requires n < |log|
  {
    && Allowed(History(log, log[n].phone, n, cfg), log[n].event, log[n].at, cfg)
    && (log[n].event.Marked? ==> FreshMark(LastMark(log, log[n].event.id, n), log[n].at))
    && (n > 0 ==> log[n - 1].at <= log[n].at)
  }

  predicate Legal(log: seq<Entry>, cfg: Config) {
    forall n :: 0 <= n < |log| ==> LegalAt(log, n, cfg)
  }

  function Look<V>(m: map<string, V>, k: string): Option<V> {
    if k in m then Some(m[k]) else None
  }

  function At(s: State, p: string): Phone {
    Phone(Look(s.optOut, p), Look(s.recent, p), Look(s.replies, p), Look(s.handoffs, p))
  }

  /** The stored maps hold exactly what the log says, and the log is legal. */
  ghost predicate Ok(s: State, now: int, cfg: Config) {
    && Legal(s.log, cfg)
    && (forall p :: At(s, p) == History(s.log, p, |s.log|, cfg))
    && (forall id :: Look(s.processed, id) == Expiry(LastMark(s.log, id, |s.log|)))
    && (s.log != [] ==> s.log[|s.log| - 1].at <= now)
  }

  function Expiry(mark: Option<int>): Option<int> {
    if mark.Some? then Some(mark.value + ID_TTL) else None
  }

  lemma {:induction false} HistoryOfPrefix(log: seq<Entry>, x: Entry, p: string, n: nat, cfg: Config)
    requires n <= |log|
    ensures History(log + [x], p, n, cfg) == History(log, p, n, cfg)
  {
    if n > 0 {
      HistoryOfPrefix(log, x, p, n - 1, cfg);
    }
  }

  lemma {:induction false} LastMarkOfPrefix(log: seq<Entry>, x: Entry, id: string, n: nat)
    requires n <= |log|
    ensures LastMark(log + [x], id, n) == LastMark(log, id, n)
  {
    if n > 0 {
      LastMarkOfPrefix(log, x, id, n - 1);
    }
  }

  lemma {:induction false} LegalGrows(log: seq<Entry>, x: Entry, cfg: Config)
    requires Legal(log, cfg)
    requires Allowed(History(log, x.phone, |log|, cfg), x.event, x.at, cfg)
    requires x.event.Marked? ==> FreshMark(LastMark(log, x.event.id, |log|), x.at)
    requires log != [] ==> log[|log| - 1].at <= x.at
    ensures Legal(log + [x], cfg)
  {
    var more := log + [x];
    forall n | 0 <= n < |more| ensures LegalAt(more, n, cfg) {
      HistoryOfPrefix(log, x, more[n].phone, n, cfg);
      if more[n].event.Marked? {
        LastMarkOfPrefix(log, x, more[n].event.id, n);
      }
      if n < |log| {
        assert LegalAt(log, n, cfg);
      }
    }
  }

  lemma {:induction false} EmitOwn(s: State, p: string, e: Event, t: int, cfg: Config)
    ensures At(Emit(s, p, e, t, cfg), p) == Apply(At(s, p), e, t, cfg)
  {
  }

  /** An event touches no other phone. */
  lemma {:induction false} EmitOther(s: State, p: string, e: Event, t: int, cfg: Config, q: string)
    requires q != p
    ensures At(Emit(s, p, e, t, cfg), q) == At(s, q)
  {
  }

  /** The maps and the log move together. */
  lemma {:induction false} EmitKeeps(s: State, p: string, e: Event, t: int, cfg: Config)
    requires Ok(s, t, cfg) && Allowed(At(s, p), e, t, cfg)
    requires e.Marked? ==> e.id !in s.processed || t >= s.processed[e.id]
    ensures Ok(Emit(s, p, e, t, cfg), t, cfg)
  {
    var x := Entry(p, t, e);
    var s' := Emit(s, p, e, t, cfg);
    assert s'.log == s.log + [x];
    assert At(s, p) == History(s.log, p, |s.log|, cfg);
    if e.Marked? {
      assert Look(s.processed, e.id) == Expiry(LastMark(s.log, e.id, |s.log|));
    }
    LegalGrows(s.log, x, cfg);
    forall q ensures At(s', q) == History(s'.log, q, |s'.log|, cfg) {
      HistoryOfPrefix(s.log, x, q, |s.log|, cfg);
      assert At(s, q) == History(s.log, q, |s.log|, cfg);
      if q == p { EmitOwn(s, p, e, t, cfg); } else { EmitOther(s, p, e, t, cfg, q); }
    }
    MarksMove(s, p, e, t, cfg);
  }

  lemma {:induction false} MarksMove(s: State, p: string, e: Event, t: int, cfg: Config)
    requires forall id :: Look(s.processed, id) == Expiry(LastMark(s.log, id, |s.log|))
    ensures var s' := Emit(s, p, e, t, cfg);
      forall id :: Look(s'.processed, id) == Expiry(LastMark(s'.log, id, |s'.log|))
  {
    var x := Entry(p, t, e);
    var s' := Emit(s, p, e, t, cfg);
    assert s'.log == s.log + [x];
    forall id ensures Look(s'.processed, id) == Expiry(LastMark(s'.log, id, |s'.log|)) {
      LastMarkOfPrefix(s.log, x, id, |s.log|);
      assert Look(s.processed, id) == Expiry(LastMark(s.log, id, |s.log|));
    }
  }

  // ---------------------------------------------------------------- every message keeps the log legal

  lemma {:induction false} MarkKeeps(s: State, m: Message, now: int, cfg: Config)
    requires Ok(s, now, cfg) && !DuplicateId(s, m, now)
    ensures Ok(Mark(s, m, now, cfg), now, cfg) && At(Mark(s, m, now, cfg), m.phone) == At(s, m.phone)
  {
    if m.id != "" {
      EmitKeeps(s, m.phone, Marked(m.id), now, cfg);
      EmitOwn(s, m.phone, Marked(m.id), now, cfg);
    }
  }

  lemma {:induction false} AskAiKeeps(s: State, m: Message, now: int, cfg: Config)
    requires Ok(s, now, cfg) && At(s, m.phone).optOutAt.None? && At(s, m.phone).handoff.None?
    ensures Ok(AskAi(s, m, now, cfg), now, cfg)
  {
    var p := m.phone;
    var s1 := Emit(s, p, AiCalled, now, cfg);
    EmitKeeps(s, p, AiCalled, now, cfg);
    EmitOwn(s, p, AiCalled, now, cfg);
    var s2 := if m.ai.optsOut then Emit(s1, p, OptedOut, now, cfg) else s1;
    if m.ai.optsOut {
      EmitKeeps(s1, p, OptedOut, now, cfg);
    }
    var s3 := if m.ai.escalates then Emit(s2, p, Started, now, cfg) else s2;
    if m.ai.escalates {
      EmitKeeps(s2, p, Started, now, cfg);
    }
    if !RepeatsReply(s3, p, m.ai.hash, now) {
      ReplyAllowed(s3, p, m.ai.hash, now, cfg);
      EmitKeeps(s3, p, ReplySent(m.ai.hash), now, cfg);
    }
  }

  lemma {:induction false} ReplyAllowed(s: State, p: string, hash: string, now: int, cfg: Config)
    requires !RepeatsReply(s, p, hash, now)
    ensures Allowed(At(s, p), ReplySent(hash), now, cfg)
  {
  }

  lemma {:induction false} AbsorbKeeps(s: State, m: Message, now: int, cfg: Config)
    requires Ok(s, now, cfg) && m.phone in s.handoffs && now - s.handoffs[m.phone].inicio <= HANDOFF_LIMIT
    ensures Ok(Absorb(s, m, now, cfg), now, cfg)
  {
    var p := m.phone;
    var ackAt := s.handoffs[p].ackAt;
    var s1 := Emit(s, p, Refreshed, now, cfg);
    EmitKeeps(s, p, Refreshed, now, cfg);
    EmitOwn(s, p, Refreshed, now, cfg);
    EmitKeeps(s1, p, if ackAt.None? || now - ackAt.value > ACK_GAP then AckSent else Silenced, now, cfg);
  }

  lemma {:induction false} AttendKeeps(s: State, m: Message, now: int, cfg: Config)
    requires Ok(s, now, cfg) && At(s, m.phone).optOutAt.None?
    ensures Ok(Attend(s, m, now, cfg), now, cfg)
  {
    var p := m.phone;
    if p !in s.handoffs {
      AskAiKeeps(s, m, now, cfg);
    } else if now - s.handoffs[p].inicio > HANDOFF_LIMIT {
      EmitKeeps(s, p, TimedOut, now, cfg);
      EmitOwn(s, p, TimedOut, now, cfg);
      AskAiKeeps(Emit(s, p, TimedOut, now, cfg), m, now, cfg);
    } else if m.texto in REACTIVATE {
      EmitKeeps(s, p, EndedByWord, now, cfg);
    } else {
      AbsorbKeeps(s, m, now, cfg);
    }
  }

  lemma {:induction false} ConverseKeeps(s: State, m: Message, now: int, cfg: Config)
    requires Ok(s, now, cfg) && At(s, m.phone).optOutAt.None?
    ensures Ok(Converse(s, m, now, cfg), now, cfg)
  {
    var p := m.phone;
    if m.texto in OPT_OUT {
      EmitKeeps(s, p, OptedOut, now, cfg);
    } else if !DuplicateId(s, m, now) {
      MarkKeeps(s, m, now, cfg);
      var s1 := Mark(s, m, now, cfg);
      if !RepeatsContent(s1, m, now) {
        EmitKeeps(s1, p, Recorded(m.texto), now, cfg);
        EmitOwn(s1, p, Recorded(m.texto), now, cfg);
        if !m.storeClosed {
          AttendKeeps(Emit(s1, p, Recorded(m.texto), now, cfg), m, now, cfg);
        }
      }
    }
  }

  lemma {:induction false} OnMessageKeeps(s: State, m: Message, now: int, cfg: Config)
    requires Ok(s, now, cfg)
    ensures Ok(OnMessage(s, m, now, cfg), now, cfg)
  {
    var p := m.phone;
    if IsCommand(m, cfg) {
      BotFlagIsApart(s, m.texto in RESUME_BOT, now, cfg);
    } else if KeptOut(s, m) {
      if StoredOnly(s, m, now) {
        MarkKeeps(s, m, now, cfg);
      }
    } else if p !in s.optOut {
      ConverseKeeps(s, m, now, cfg);
    } else if ResumesBySelf(s, p, now, cfg) {
      EmitKeeps(s, p, AutoResumed, now, cfg);
      EmitOwn(s, p, AutoResumed, now, cfg);
      ConverseKeeps(Emit(s, p, AutoResumed, now, cfg), m, now, cfg);
    } else if m.texto in REACTIVATE {
      EmitKeeps(s, p, OptedIn, now, cfg);
    }
  }

  lemma {:induction false} BotFlagIsApart(s: State, botAtivo: bool, now: int, cfg: Config)
    requires Ok(s, now, cfg)
    ensures Ok(s.(botAtivo := botAtivo), now, cfg)
  {
  }

  /** Over every run, what is stored for each phone and message id is what the log says, and
      every entry of the log was allowed by the entries before it. */
  lemma {:induction false} EveryRun(inputs: seq<Input>, cfg: Config, n: nat)
    requires Timed(inputs) && n <= |inputs|
    ensures Ok(Run(inputs, cfg, n), if n == 0 then 0 else inputs[n - 1].now, cfg)
  {
    if n > 0 {
      EveryRun(inputs, cfg, n - 1);
      var s := Run(inputs, cfg, n - 1);
      var now := inputs[n - 1].now;
      assert n > 1 ==> inputs[n - 2].now <= now;
      assert n == 1 ==> s.log == [];
      assert Ok(s, now, cfg);
      match inputs[n - 1]
      case Received(t, m) => OnMessageKeeps(s, m, t, cfg);
      case PanelStarts(t, p) => EmitKeeps(s, p, Started, t, cfg);
      case PanelEnds(t, p) => EmitKeeps(s, p, EndedByPanel, t, cfg);
    }
  }

  // ---------------------------------------------------------------- who reaches the assistant

  /** The state before the message and the message decide whether the assistant is asked. */
  predicate Reaches(s: State, m: Message, now: int, cfg: Config) {
    && !IsCommand(m, cfg) && !KeptOut(s, m)
    && (m.phone in s.optOut ==> ResumesBySelf(s, m.phone, now, cfg))
    && m.texto !in OPT_OUT && !DuplicateId(s, m, now) && !RepeatsContent(s, m, now) && !m.storeClosed
    && (m.phone in s.handoffs ==> now - s.handoffs[m.phone].inicio > HANDOFF_LIMIT)
  }

  function AiCalls(log: seq<Entry>, n: nat): nat
    requires n <= |log|
  {
    if n == 0 then 0 else AiCalls(log, n - 1) + if log[n - 1].event == AiCalled then 1 else 0
  }

  function Asked(s: State): nat {
    AiCalls(s.log, |s.log|)
  }

  lemma {:induction false} CallsOfPrefix(log: seq<Entry>, x: Entry, n: nat)
    requires n <= |log|
    ensures AiCalls(log + [x], n) == AiCalls(log, n)
  {
    if n > 0 {
      CallsOfPrefix(log, x, n - 1);
    }
  }

  lemma {:induction false} EmitCalls(s: State, p: string, e: Event, t: int, cfg: Config)
    ensures Asked(Emit(s, p, e, t, cfg)) == Asked(s) + if e == AiCalled then 1 else 0
  {
    CallsOfPrefix(s.log, Entry(p, t, e), |s.log|);
  }

  lemma {:induction false} AskAiCalls(s: State, m: Message, now: int, cfg: Config)
    ensures Asked(AskAi(s, m, now, cfg)) == Asked(s) + 1
  {
    var p := m.phone;
    var s1 := Emit(s, p, AiCalled, now, cfg);
    var s2 := if m.ai.optsOut then Emit(s1, p, OptedOut, now, cfg) else s1;
    var s3 := if m.ai.escalates then Emit(s2, p, Started, now, cfg) else s2;
    EmitCalls(s, p, AiCalled, now, cfg);
    EmitCalls(s1, p, OptedOut, now, cfg);
    assert Asked(s2) == Asked(s1);
    EmitCalls(s2, p, Started, now, cfg);
    assert Asked(s3) == Asked(s2);
    EmitCalls(s3, p, ReplySent(m.ai.hash), now, cfg);
  }

  lemma {:induction false} AbsorbCalls(s: State, m: Message, now: int, cfg: Config)
    requires m.phone in s.handoffs
    ensures Asked(Absorb(s, m, now, cfg)) == Asked(s)
  {
    var s1 := Emit(s, m.phone, Refreshed, now, cfg);
    EmitCalls(s, m.phone, Refreshed, now, cfg);
    EmitCalls(s1, m.phone, AckSent, now, cfg);
    EmitCalls(s1, m.phone, Silenced, now, cfg);
  }

  lemma {:induction false} AttendCalls(s: State, m: Message, now: int, cfg: Config)
    ensures Asked(Attend(s, m, now, cfg)) ==
            Asked(s) + if m.phone in s.handoffs ==> now - s.handoffs[m.phone].inicio > HANDOFF_LIMIT then 1 else 0
  {
    var p := m.phone;
    if p !in s.handoffs {
      AskAiCalls(s, m, now, cfg);
    } else if now - s.handoffs[p].inicio > HANDOFF_LIMIT {
      EmitCalls(s, p, TimedOut, now, cfg);
      AskAiCalls(Emit(s, p, TimedOut, now, cfg), m, now, cfg);
    } else if m.texto in REACTIVATE {
      EmitCalls(s, p, EndedByWord, now, cfg);
    } else {
      AbsorbCalls(s, m, now, cfg);
    }
  }

  lemma {:induction false} AdmitCalls(s: State, m: Message, now: int, cfg: Config)
    ensures Asked(Admit(s, m, now, cfg)) == Asked(s) +
            if !RepeatsContent(s, m, now) && !m.storeClosed
               && (m.phone in s.handoffs ==> now - s.handoffs[m.phone].inicio > HANDOFF_LIMIT) then 1 else 0
  {
    var s1 := Emit(s, m.phone, Recorded(m.texto), now, cfg);
    assert s1.handoffs == s.handoffs;
    EmitCalls(s, m.phone, Recorded(m.texto), now, cfg);
    AttendCalls(s1, m, now, cfg);
  }

  lemma {:induction false} ConverseCalls(s: State, m: Message, now: int, cfg: Config)
    ensures Asked(Converse(s, m, now, cfg)) == Asked(s) +
            if m.texto !in OPT_OUT && !DuplicateId(s, m, now) && !RepeatsContent(s, m, now) && !m.storeClosed
               && (m.phone in s.handoffs ==> now - s.handoffs[m.phone].inicio > HANDOFF_LIMIT) then 1 else 0
  {
    if m.texto in OPT_OUT {
      EmitCalls(s, m.phone, OptedOut, now, cfg);
    } else if !DuplicateId(s, m, now) {
      var s1 := Mark(s, m, now, cfg);
      assert s1.handoffs == s.handoffs && s1.recent == s.recent;
      EmitCalls(s, m.phone, Marked(m.id), now, cfg);
      AdmitCalls(s1, m, now, cfg);
    }
  }

  /** A message asks the assistant once exactly when it passes every gate. */
  lemma {:induction false} ReachesAiIff(s: State, m: Message, now: int, cfg: Config)
    ensures Asked(OnMessage(s, m, now, cfg)) == Asked(s) + if Reaches(s, m, now, cfg) then 1 else 0
  {
    var p := m.phone;
    if IsCommand(m, cfg) {
    } else if KeptOut(s, m) {
      EmitCalls(s, p, Marked(m.id), now, cfg);
    } else if p !in s.optOut {
      ConverseCalls(s, m, now, cfg);
    } else if ResumesBySelf(s, p, now, cfg) {
      var s1 := Emit(s, p, AutoResumed, now, cfg);
      assert s1.handoffs == s.handoffs && s1.recent == s.recent && s1.processed == s.processed;
      EmitCalls(s, p, AutoResumed, now, cfg);
      ConverseCalls(s1, m, now, cfg);
    } else {
      EmitCalls(s, p, OptedIn, now, cfg);
    }
  }

  // ---------------------------------------------------------------- no other phone is touched

  lemma {:induction false} AbsorbOthers(s: State, m: Message, now: int, cfg: Config, q: string)
    requires q != m.phone && m.phone in s.handoffs
    ensures At(Absorb(s, m, now, cfg), q) == At(s, q) && Absorb(s, m, now, cfg).botAtivo == s.botAtivo
  {
  }

  lemma {:induction false} AttendOthers(s: State, m: Message, now: int, cfg: Config, q: string)
    requires q != m.phone
    ensures At(Attend(s, m, now, cfg), q) == At(s, q) && Attend(s, m, now, cfg).botAtivo == s.botAtivo
  {
    var p := m.phone;
    if p !in s.handoffs {
      AskAiOthers(s, m, now, cfg, q);
    } else if now - s.handoffs[p].inicio > HANDOFF_LIMIT {
      EmitOther(s, p, TimedOut, now, cfg, q);
      AskAiOthers(Emit(s, p, TimedOut, now, cfg), m, now, cfg, q);
    } else if m.texto in REACTIVATE {
      EmitOther(s, p, EndedByWord, now, cfg, q);
    } else {
      AbsorbOthers(s, m, now, cfg, q);
    }
  }

  lemma {:induction false} AskAiOthers(s: State, m: Message, now: int, cfg: Config, q: string)
    requires q != m.phone
    ensures At(AskAi(s, m, now, cfg), q) == At(s, q) && AskAi(s, m, now, cfg).botAtivo == s.botAtivo
  {
    var p := m.phone;
    var s1 := Emit(s, p, AiCalled, now, cfg);
    var s2 := if m.ai.optsOut then Emit(s1, p, OptedOut, now, cfg) else s1;
    var s3 := if m.ai.escalates then Emit(s2, p, Started, now, cfg) else s2;
    EmitOther(s, p, AiCalled, now, cfg, q);
    EmitOther(s1, p, OptedOut, now, cfg, q);
    EmitOther(s2, p, Started, now, cfg, q);
    EmitOther(s3, p, ReplySent(m.ai.hash), now, cfg, q);
  }

  lemma {:induction false} ConverseOthers(s: State, m: Message, now: int, cfg: Config, q: string)
    requires q != m.phone
    ensures At(Converse(s, m, now, cfg), q) == At(s, q) && Converse(s, m, now, cfg).botAtivo == s.botAtivo
  {
    var p := m.phone;
    EmitOther(s, p, OptedOut, now, cfg, q);
    EmitOther(s, p, Marked(m.id), now, cfg, q);
    var s1 := Mark(s, m, now, cfg);
    EmitOther(s1, p, Recorded(m.texto), now, cfg, q);
    AttendOthers(Emit(s1, p, Recorded(m.texto), now, cfg), m, now, cfg, q);
  }

  /** A message leaves what is stored for every other phone as it was, and the global switch
      too unless it is an administrator's command. */
  lemma {:induction false} OthersUntouched(s: State, m: Message, now: int, cfg: Config, q: string)
    requires q != m.phone
    ensures At(OnMessage(s, m, now, cfg), q) == At(s, q)
    ensures OnMessage(s, m, now, cfg).botAtivo != s.botAtivo ==>
      m.phone in cfg.admins && m.texto in PAUSE_BOT + RESUME_BOT
  {
    var p := m.phone;
    if IsCommand(m, cfg) {
    } else if KeptOut(s, m) {
      EmitOther(s, p, Marked(m.id), now, cfg, q);
    } else if p !in s.optOut {
      ConverseOthers(s, m, now, cfg, q);
    } else if ResumesBySelf(s, p, now, cfg) {
      EmitOther(s, p, AutoResumed, now, cfg, q);
      ConverseOthers(Emit(s, p, AutoResumed, now, cfg), m, now, cfg, q);
    } else {
      EmitOther(s, p, OptedIn, now, cfg, q);
    }
  }

  // ---------------------------------------------------------------- what each message does

  /** An administrator's command, by its words. */
  predicate Commands(m: Message, cfg: Config) {
    && m.phone in cfg.admins
    && m.texto in {"desativar bot", "desligar bot", "pausar bot", "ativar bot", "ligar bot", "reativar bot"}
  }

  /** The message passes the gates that look at settings and at the message alone. */
  predicate Heard(s: State, m: Message) {
    && m.autoReplies && s.botAtivo && m.aiWindow
    && m.phone != "" && m.texto != "" && !m.automationDisabled && m.tracked
  }

  /** The phone opted out and the automatic interval has not passed. */
  predicate Out(s: State, m: Message, now: int, cfg: Config) {
    m.phone in s.optOut && !(cfg.autoResume > 0 && now - s.optOut[m.phone] >= cfg.autoResume)
  }

  predicate OptInWord(m: Message) {
    m.texto in {"voltar", "menu", "bot", "reativar", "voltar ao bot", "ativar chat", "ativar bot"}
  }

  predicate OptOutWord(m: Message) {
    m.texto in {"desativar chat", "desativar bot", "desligar chat", "desligar bot", "pausar chat", "pausar bot"}
  }

  /** An id seen less than a minute ago, or the text of the last message less than two seconds ago. */
  predicate Repeats(s: State, m: Message, now: int) {
    || (m.id != "" && m.id in s.processed && now < s.processed[m.id])
    || (m.phone in s.recent && s.recent[m.phone].text == m.texto && now - s.recent[m.phone].at < 2 * SECOND)
  }

  /** A human has the phone, and was written to or took it over within half an hour. */
  predicate InHumanHands(s: State, m: Message, now: int) {
    m.phone in s.handoffs && now - s.handoffs[m.phone].inicio <= 30 * MINUTE
  }

  /** A message that gets to the conversation: heard, no command, not opted out, no opt-out word and
      no repetition. */
  predicate Admitted(s: State, m: Message, now: int, cfg: Config) {
    !Commands(m, cfg) && Heard(s, m) && !Out(s, m, now, cfg) && !OptOutWord(m) && !Repeats(s, m, now)
  }

  /** A command does nothing but turn the bot on or off. */
  lemma {:induction false} CommandTurns(s: State, m: Message, now: int, cfg: Config)
    requires Commands(m, cfg)
    ensures OnMessage(s, m, now, cfg) == s.(botAtivo := m.texto in {"ativar bot", "ligar bot", "reativar bot"})
  {
  }

  /** A message that is not heard changes nothing, but that its id is remembered for a minute where
      messages are only stored. */
  lemma {:induction false} UnheardIsStored(s: State, m: Message, now: int, cfg: Config)
    requires !Commands(m, cfg) && !Heard(s, m)
    ensures At(OnMessage(s, m, now, cfg), m.phone) == At(s, m.phone)
    ensures OnMessage(s, m, now, cfg).botAtivo == s.botAtivo && Asked(OnMessage(s, m, now, cfg)) == Asked(s)
    ensures OnMessage(s, m, now, cfg).processed ==
      if m.phone != "" && m.texto != "" && m.id != "" && !(m.id in s.processed && now < s.processed[m.id])
         && ((!m.autoReplies && m.tracked) || (m.autoReplies && s.botAtivo && !m.aiWindow))
      then s.processed[m.id := now + 60 * SECOND] else s.processed
  {
    ReachesAiIff(s, m, now, cfg);
    EmitOwn(s, m.phone, Marked(m.id), now, cfg);
  }

  /** An opted-out phone is not answered and nothing of it changes. */
  lemma {:induction false} OutStaysOut(s: State, m: Message, now: int, cfg: Config)
    requires !Commands(m, cfg) && Heard(s, m) && Out(s, m, now, cfg) && !OptInWord(m)
    ensures OnMessage(s, m, now, cfg) == s
  {
  }

  lemma {:induction false} WordOptsIn(s: State, m: Message, now: int, cfg: Config)
    requires !Commands(m, cfg) && Heard(s, m) && Out(s, m, now, cfg) && OptInWord(m)
    ensures At(OnMessage(s, m, now, cfg), m.phone) == At(s, m.phone).(optOutAt := None)
    ensures Asked(OnMessage(s, m, now, cfg)) == Asked(s)
  {
    EmitOwn(s, m.phone, OptedIn, now, cfg);
    ReachesAiIff(s, m, now, cfg);
  }

  /** What the conversation makes of the phone once it is (again) not opted out. */
  lemma {:induction false} ConverseFrom(s: State, m: Message, now: int, cfg: Config) returns (s0: State)
    requires !Commands(m, cfg) && Heard(s, m) && !Out(s, m, now, cfg)
    ensures OnMessage(s, m, now, cfg) == Converse(s0, m, now, cfg)
    ensures At(s0, m.phone) == At(s, m.phone).(optOutAt := None)
    ensures s0.processed == s.processed && s0.recent == s.recent && s0.handoffs == s.handoffs
  {
    s0 := if m.phone in s.optOut then Emit(s, m.phone, AutoResumed, now, cfg) else s;
    EmitOwn(s, m.phone, AutoResumed, now, cfg);
  }

  /** An opt-out word of any heard phone that is not opted out opts it out from now on. */
  lemma {:induction false} WordOptsOut(s: State, m: Message, now: int, cfg: Config)
    requires !Commands(m, cfg) && Heard(s, m) && !Out(s, m, now, cfg) && OptOutWord(m)
    ensures At(OnMessage(s, m, now, cfg), m.phone) == At(s, m.phone).(optOutAt := Some(now))
    ensures Asked(OnMessage(s, m, now, cfg)) == Asked(s)
  {
    var s0 := ConverseFrom(s, m, now, cfg);
    EmitOwn(s0, m.phone, OptedOut, now, cfg);
    ReachesAiIff(s, m, now, cfg);
  }

  /** A repetition is dropped. */
  lemma {:induction false} RepetitionDropped(s: State, m: Message, now: int, cfg: Config)
    requires !Commands(m, cfg) && Heard(s, m) && !Out(s, m, now, cfg) && !OptOutWord(m) && Repeats(s, m, now)
    ensures At(OnMessage(s, m, now, cfg), m.phone) == At(s, m.phone).(optOutAt := None)
    ensures Asked(OnMessage(s, m, now, cfg)) == Asked(s)
  {
    var s0 := ConverseFrom(s, m, now, cfg);
    EmitOwn(s0, m.phone, Marked(m.id), now, cfg);
    ReachesAiIff(s, m, now, cfg);
  }

  lemma {:induction false} RecordFrom(s0: State, m: Message, now: int, cfg: Config) returns (s1: State)
    requires m.texto !in OPT_OUT && !DuplicateId(s0, m, now) && !RepeatsContent(s0, m, now)
    ensures Converse(s0, m, now, cfg) == if m.storeClosed then s1 else Attend(s1, m, now, cfg)
    ensures At(s1, m.phone) == At(s0, m.phone).(recent := Some(Stamped(m.texto, now)))
    ensures s1.handoffs == s0.handoffs
  {
    var marked := Mark(s0, m, now, cfg);
    EmitOwn(s0, m.phone, Marked(m.id), now, cfg);
    s1 := Emit(marked, m.phone, Recorded(m.texto), now, cfg);
    EmitOwn(marked, m.phone, Recorded(m.texto), now, cfg);
  }

  /** An admitted message is recorded, and then attended unless the store is closed. */
  lemma {:induction false} AttendFrom(s: State, m: Message, now: int, cfg: Config) returns (s1: State)
    requires Admitted(s, m, now, cfg)
    ensures OnMessage(s, m, now, cfg) == if m.storeClosed then s1 else Attend(s1, m, now, cfg)
    ensures At(s1, m.phone) == At(s, m.phone).(optOutAt := None, recent := Some(Stamped(m.texto, now)))
    ensures s1.handoffs == s.handoffs
  {
    var s0 := ConverseFrom(s, m, now, cfg);
    s1 := RecordFrom(s0, m, now, cfg);
  }

  lemma {:induction false} ClosedStoreRecords(s: State, m: Message, now: int, cfg: Config)
    requires Admitted(s, m, now, cfg) && m.storeClosed
    ensures At(OnMessage(s, m, now, cfg), m.phone) ==
            At(s, m.phone).(optOutAt := None, recent := Some(Stamped(m.texto, now)))
    ensures Asked(OnMessage(s, m, now, cfg)) == Asked(s)
  {
    var s1 := AttendFrom(s, m, now, cfg);
    ReachesAiIff(s, m, now, cfg);
  }

  /** A reactivation word takes the phone back from the human. */
  lemma {:induction false} WordEndsHandoff(s: State, m: Message, now: int, cfg: Config)
    requires Admitted(s, m, now, cfg) && !m.storeClosed && InHumanHands(s, m, now) && OptInWord(m)
    ensures At(OnMessage(s, m, now, cfg), m.phone) ==
            At(s, m.phone).(optOutAt := None, recent := Some(Stamped(m.texto, now)), handoff := None)
    ensures Asked(OnMessage(s, m, now, cfg)) == Asked(s)
  {
    var s1 := AttendFrom(s, m, now, cfg);
    EmitOwn(s1, m.phone, EndedByWord, now, cfg);
    ReachesAiIff(s, m, now, cfg);
  }

  predicate AckDue(h: Handoff, now: int) {
    h.ackAt.None? || now - h.ackAt.value > 15 * MINUTE
  }

  /** Any other message stays with the human: it renews the clock and, every 15 minutes, is
      acknowledged, as far as the store sees what is written through its references. */
  lemma {:induction false} HumanKeepsMessage(s: State, m: Message, now: int, cfg: Config)
    requires Admitted(s, m, now, cfg) && !m.storeClosed && InHumanHands(s, m, now) && !OptInWord(m)
    ensures var h := s.handoffs[m.phone];
      At(OnMessage(s, m, now, cfg), m.phone) ==
        At(s, m.phone).(optOutAt := None, recent := Some(Stamped(m.texto, now)),
                        handoff := Some(if !cfg.liveRefs then h
                                        else Handoff(now, if AckDue(h, now) then Some(now) else h.ackAt)))
    ensures var log := OnMessage(s, m, now, cfg).log;
      |log| > 0 && log[|log| - 1] == Entry(m.phone, now, if AckDue(s.handoffs[m.phone], now) then AckSent else Silenced)
    ensures Asked(OnMessage(s, m, now, cfg)) == Asked(s)
  {
    var s1 := AttendFrom(s, m, now, cfg);
    var s2 := Emit(s1, m.phone, Refreshed, now, cfg);
    EmitOwn(s1, m.phone, Refreshed, now, cfg);
    EmitOwn(s2, m.phone, if AckDue(s.handoffs[m.phone], now) then AckSent else Silenced, now, cfg);
    assert Attend(s1, m, now, cfg) == Absorb(s1, m, now, cfg);
    ReachesAiIff(s, m, now, cfg);
  }

  /** With no human on the phone the assistant is asked once; its turn may opt the phone out or hand
      it over, and its reply goes out unless it repeats the last one within ten seconds. */
  lemma {:induction false} AssistantAnswers(s: State, m: Message, now: int, cfg: Config)
    requires Admitted(s, m, now, cfg) && !m.storeClosed && !InHumanHands(s, m, now)
    ensures var last := At(s, m.phone).reply;
      var repeated := last.Some? && last.value.text == m.ai.hash && now - last.value.at <= 10 * SECOND;
      At(OnMessage(s, m, now, cfg), m.phone) ==
        Phone(if m.ai.optsOut then Some(now) else None, Some(Stamped(m.texto, now)),
              if repeated then last else Some(Stamped(m.ai.hash, now)),
              if m.ai.escalates then Some(Handoff(now, None)) else None)
    ensures Asked(OnMessage(s, m, now, cfg)) == Asked(s) + 1
  {
    var p := m.phone;
    var s1 := AttendFrom(s, m, now, cfg);
    var s2 := if p in s.handoffs then Emit(s1, p, TimedOut, now, cfg) else s1;
    EmitOwn(s1, p, TimedOut, now, cfg);
    assert At(s2, p) == At(s1, p).(handoff := None);
    AskAiOwn(s2, m, now, cfg);
    ReachesAiIff(s, m, now, cfg);
  }

  lemma {:induction false} SendReplyOwn(s: State, m: Message, now: int, cfg: Config)
    ensures var ph := At(s, m.phone);
      var repeated := ph.reply.Some? && ph.reply.value.text == m.ai.hash && now - ph.reply.value.at <= 10 * SECOND;
      At(SendReply(s, m, now, cfg), m.phone) == if repeated then ph else ph.(reply := Some(Stamped(m.ai.hash, now)))
  {
    EmitOwn(s, m.phone, ReplySent(m.ai.hash), now, cfg);
  }

  lemma {:induction false} AskAiOwn(s: State, m: Message, now: int, cfg: Config)
    ensures var ph := At(s, m.phone);
      var repeated := ph.reply.Some? && ph.reply.value.text == m.ai.hash && now - ph.reply.value.at <= 10 * SECOND;
      At(AskAi(s, m, now, cfg), m.phone) ==
        Phone(if m.ai.optsOut then Some(now) else ph.optOutAt, ph.recent,
              if repeated then ph.reply else Some(Stamped(m.ai.hash, now)),
              if m.ai.escalates then Some(Handoff(now, None)) else ph.handoff)
  {
    var p := m.phone;
    var s1 := Emit(s, p, AiCalled, now, cfg);
    var s2 := if m.ai.optsOut then Emit(s1, p, OptedOut, now, cfg) else s1;
    var s3 := if m.ai.escalates then Emit(s2, p, Started, now, cfg) else s2;
    EmitOwn(s, p, AiCalled, now, cfg);
    EmitOwn(s1, p, OptedOut, now, cfg);
    assert At(s2, p) == At(s, p).(optOutAt := if m.ai.optsOut then Some(now) else At(s, p).optOutAt);
    EmitOwn(s2, p, Started, now, cfg);
    assert At(s3, p) == At(s2, p).(handoff := if m.ai.escalates then Some(Handoff(now, None)) else At(s2, p).handoff);
    SendReplyOwn(s3, m, now, cfg);
  }

  /** The id of a heard message is remembered for a minute, unless it was a repetition, an opt-out
      word or one of a phone that is opted out. */
  lemma {:induction false} IdRemembered(s: State, m: Message, now: int, cfg: Config)
    requires !Commands(m, cfg) && Heard(s, m)
    ensures OnMessage(s, m, now, cfg).processed ==
      if !Out(s, m, now, cfg) && !OptOutWord(m) && m.id != "" && !(m.id in s.processed && now < s.processed[m.id])
      then s.processed[m.id := now + 60 * SECOND] else s.processed
  {
    if !Out(s, m, now, cfg) {
      var s0 := ConverseFrom(s, m, now, cfg);
      if !OptOutWord(m) && !DuplicateId(s0, m, now) {
        AdmitKeepsIds(Mark(s0, m, now, cfg), m, now, cfg);
      }
    }
  }

  lemma {:induction false} AdmitKeepsIds(s: State, m: Message, now: int, cfg: Config)
    ensures Admit(s, m, now, cfg).processed == s.processed
  {
    var s1 := Emit(s, m.phone, Recorded(m.texto), now, cfg);
    if m.phone in s1.handoffs {
      AskKeepsIds(Emit(s1, m.phone, TimedOut, now, cfg), m, now, cfg);
    } else {
      AskKeepsIds(s1, m, now, cfg);
    }
  }

  lemma {:induction false} AskKeepsIds(s: State, m: Message, now: int, cfg: Config)
    ensures AskAi(s, m, now, cfg).processed == s.processed
  {
  }

  /** The panel hands a phone over, with a fresh clock and no acknowledgement, and takes it back. */
  lemma {:induction false} PanelMoves(s: State, now: int, p: string, cfg: Config)
    ensures At(Step(s, PanelStarts(now, p), cfg), p) == At(s, p).(handoff := Some(Handoff(now, None)))
    ensures At(Step(s, PanelEnds(now, p), cfg), p) == At(s, p).(handoff := None)
    ensures forall q :: q != p ==>
      At(Step(s, PanelStarts(now, p), cfg), q) == At(s, q) == At(Step(s, PanelEnds(now, p), cfg), q)
  {
    EmitOwn(s, p, Started, now, cfg);
    EmitOwn(s, p, EndedByPanel, now, cfg);
    forall q | q != p
      ensures At(Step(s, PanelStarts(now, p), cfg), q) == At(s, q) == At(Step(s, PanelEnds(now, p), cfg), q)
    {
      EmitOther(s, p, Started, now, cfg, q);
      EmitOther(s, p, EndedByPanel, now, cfg, q);
    }
  }

  // ---------------------------------------------------------------- an opt-out word, over whole runs

  lemma {:induction false} InputTimes(inputs: seq<Input>, i: nat, j: nat)
    requires Timed(inputs) && i <= j < |inputs|
    ensures inputs[i].now <= inputs[j].now
    decreases j - i
  {
    if i < j {
      InputTimes(inputs, i, j - 1);
    }
  }

  /** No message of the phone from input `i` up to input `k` is a reactivation word. */
  predicate NoOptIn(inputs: seq<Input>, p: string, i: nat, k: nat)
    requires k <= |inputs|
  {
    forall j :: i < j < k && inputs[j].Received? && inputs[j].m.phone == p ==> !OptInWord(inputs[j].m)
  }

  lemma {:induction false} OneInputOut(s: State, input: Input, cfg: Config, p: string, t: int)
    requires At(s, p).optOutAt == Some(t) && !(cfg.autoResume > 0 && input.now - t >= cfg.autoResume)
    requires input.Received? && input.m.phone == p ==> !OptInWord(input.m)
    ensures At(Step(s, input, cfg), p).optOutAt == Some(t)
  {
    match input
    case Received(now, m) =>
      if m.phone != p {
        OthersUntouched(s, m, now, cfg, p);
      } else if Commands(m, cfg) {
        CommandTurns(s, m, now, cfg);
      } else if !Heard(s, m) {
        UnheardIsStored(s, m, now, cfg);
      } else {
        OutStaysOut(s, m, now, cfg);
      }
    case PanelStarts(now, q) =>
      if q == p { EmitOwn(s, p, Started, now, cfg); } else { EmitOther(s, q, Started, now, cfg, p); }
    case PanelEnds(now, q) =>
      if q == p { EmitOwn(s, p, EndedByPanel, now, cfg); } else { EmitOther(s, q, EndedByPanel, now, cfg, p); }
  }

  lemma {:induction false} RemainsOut(inputs: seq<Input>, cfg: Config, p: string, i: nat, k: nat)
    requires Timed(inputs) && i < k <= |inputs| && At(Run(inputs, cfg, i + 1), p).optOutAt == Some(inputs[i].now)
    requires NoOptIn(inputs, p, i, k)
    requires !(cfg.autoResume > 0 && inputs[k - 1].now - inputs[i].now >= cfg.autoResume)
    ensures At(Run(inputs, cfg, k), p).optOutAt == Some(inputs[i].now)
    decreases k - i
  {
    if k > i + 1 {
      InputTimes(inputs, k - 2, k - 1);
      RemainsOut(inputs, cfg, p, i, k - 1);
      OneInputOut(Run(inputs, cfg, k - 1), inputs[k - 1], cfg, p, inputs[i].now);
    }
  }

  /** In every run: once an opt-out word of a phone was heard, no message of that phone asks the
      assistant before a reactivation word or the end of the automatic interval. */
  lemma {:induction false} OptOutWordHolds(inputs: seq<Input>, cfg: Config, i: nat, n: nat)
    requires Timed(inputs) && i < n < |inputs| && inputs[i].Received? && inputs[n].Received?
    requires inputs[i].m.phone == inputs[n].m.phone && OptOutWord(inputs[i].m) && !Commands(inputs[i].m, cfg)
    requires Heard(Run(inputs, cfg, i), inputs[i].m) && !Out(Run(inputs, cfg, i), inputs[i].m, inputs[i].now, cfg)
    requires NoOptIn(inputs, inputs[i].m.phone, i, n)
    requires !(cfg.autoResume > 0 && inputs[n].now - inputs[i].now >= cfg.autoResume)
    ensures Asked(Run(inputs, cfg, n + 1)) == Asked(Run(inputs, cfg, n))
  {
    var p := inputs[i].m.phone;
    WordOptsOut(Run(inputs, cfg, i), inputs[i].m, inputs[i].now, cfg);
    InputTimes(inputs, n - 1, n);
    RemainsOut(inputs, cfg, p, i, n);
    ReachesAiIff(Run(inputs, cfg, n), inputs[n].m, inputs[n].now, cfg);
  }

  // ---------------------------------------------------------------- what a legal log promises

  /** No entry of the phone strictly between two positions is one of `events`. */
  predicate NoneBetween(log: seq<Entry>, p: string, i: nat, j: nat, events: set<Event>)
    requires j <= |log|
  {
    forall k :: i < k < j && log[k].phone == p ==> log[k].event !in events
  }

  lemma {:induction false} StillHeld(log: seq<Entry>, p: string, i: nat, k: nat, cfg: Config)
    requires Legal(log, cfg) && i < k <= |log| && log[i].phone == p
    requires log[i].event == Started || (log[i].event == Refreshed && cfg.liveRefs)
    requires NoneBetween(log, p, i, k, {EndedByWord, EndedByPanel})
    ensures var h := History(log, p, k, cfg).handoff;
      (h.Some? && h.value.inicio >= log[i].at) || log[k - 1].at - log[i].at > HANDOFF_LIMIT
    ensures log[k - 1].at >= log[i].at
    decreases k - i
  {
    assert LegalAt(log, k - 1, cfg);
    if k > i + 1 {
      StillHeld(log, p, i, k - 1, cfg);
    }
  }

  /** A phone handed over to a human, or heard from while it is, reaches the assistant again
      only more than 30 minutes later, unless a word or the panel ended the handoff. The
      refresh needs a backend that keeps live references. */
  lemma {:induction false} HandoffHolds(log: seq<Entry>, p: string, i: nat, j: nat, cfg: Config)
    requires Legal(log, cfg) && i < j < |log| && log[i].phone == p && log[j] == Entry(p, log[j].at, AiCalled)
    requires log[i].event == Started || (log[i].event == Refreshed && cfg.liveRefs)
    requires NoneBetween(log, p, i, j, {EndedByWord, EndedByPanel})
    ensures log[j].at - log[i].at > HANDOFF_LIMIT
  {
    StillHeld(log, p, i, j, cfg);
    assert LegalAt(log, j, cfg);
  }

  lemma {:induction false} AckRemembered(log: seq<Entry>, p: string, i: nat, k: nat, cfg: Config)
    requires Legal(log, cfg) && i < k <= |log| && log[i].phone == p && log[i].event == AckSent && cfg.liveRefs
    requires NoneBetween(log, p, i, k, {Started})
    ensures var h := History(log, p, k, cfg).handoff;
      h.Some? ==> h.value.ackAt.Some? && h.value.ackAt.value >= log[i].at
    ensures log[k - 1].at >= log[i].at
    decreases k - i
  {
    assert LegalAt(log, k - 1, cfg);
    if k > i + 1 {
      AckRemembered(log, p, i, k - 1, cfg);
    }
  }

  /** With live references, two acknowledgements of one handoff are more than 15 minutes apart. */
  lemma {:induction false} AcksApart(log: seq<Entry>, p: string, i: nat, j: nat, cfg: Config)
    requires Legal(log, cfg) && i < j < |log| && cfg.liveRefs
    requires log[i].phone == p && log[i].event == AckSent && log[j].phone == p && log[j].event == AckSent
    requires NoneBetween(log, p, i, j, {Started})
    ensures log[j].at - log[i].at > ACK_GAP
  {
    AckRemembered(log, p, i, j, cfg);
    assert LegalAt(log, j, cfg);
  }

  lemma {:induction false} CopiesForgetAcks(log: seq<Entry>, p: string, k: nat, cfg: Config)
    requires k <= |log| && !cfg.liveRefs
    ensures var h := History(log, p, k, cfg).handoff; h.Some? ==> h.value.ackAt.None?
  {
    if k > 0 {
      CopiesForgetAcks(log, p, k - 1, cfg);
    }
  }

  /** With copies, no absorbed message is ever left without an acknowledgement. */
  lemma {:induction false} CopiesAlwaysAck(log: seq<Entry>, n: nat, cfg: Config)
    requires Legal(log, cfg) && n < |log| && !cfg.liveRefs
    ensures log[n].event != Silenced
  {
    assert LegalAt(log, n, cfg);
    CopiesForgetAcks(log, log[n].phone, n, cfg);
  }

  /** The moment at which an opted-out phone resumed by itself, if it did. */
  lemma {:induction false} StillOut(log: seq<Entry>, p: string, i: nat, k: nat, cfg: Config) returns (r: Option<nat>)
    requires Legal(log, cfg) && i < k <= |log| && log[i].phone == p && log[i].event == OptedOut
    requires NoneBetween(log, p, i, k, {OptedIn})
    ensures r.None? ==> History(log, p, k, cfg).optOutAt == Some(log[i].at)
    ensures r.Some? ==> i < r.value < k && log[r.value].phone == p && log[r.value].event == AutoResumed
    ensures r.Some? ==> cfg.autoResume > 0 && log[r.value].at - log[i].at >= cfg.autoResume
    decreases k - i
  {
    assert LegalAt(log, k - 1, cfg);
    r := None;
    if k > i + 1 {
      r := StillOut(log, p, i, k - 1, cfg);
      if r.None? && log[k - 1].phone == p && log[k - 1].event == AutoResumed {
        r := Some(k - 1);
      }
    }
  }

  lemma {:induction false} TimesGrow(log: seq<Entry>, i: nat, j: nat, cfg: Config)
    requires Legal(log, cfg) && i <= j < |log|
    ensures log[i].at <= log[j].at
    decreases j - i
  {
    if i < j {
      TimesGrow(log, i, j - 1, cfg);
      assert LegalAt(log, j, cfg);
    }
  }

  /** An opted-out phone reaches the assistant only after a reactivation word, or once the
      automatic interval has passed since it opted out. */
  lemma {:induction false} OptOutHolds(log: seq<Entry>, p: string, i: nat, j: nat, cfg: Config)
    requires Legal(log, cfg) && i < j < |log| && log[i].phone == p && log[i].event == OptedOut
    requires log[j].phone == p && log[j].event == AiCalled && NoneBetween(log, p, i, j, {OptedIn})
    ensures cfg.autoResume > 0 && log[j].at - log[i].at >= cfg.autoResume
  {
    var r := StillOut(log, p, i, j, cfg);
    assert LegalAt(log, j, cfg);
    if r.Some? {
      TimesGrow(log, r.value, j, cfg);
    }
  }

  lemma {:induction false} ReplyRemembered(log: seq<Entry>, p: string, i: nat, k: nat, cfg: Config)
    requires i < k <= |log| && log[i].phone == p && log[i].event.ReplySent?
    requires forall n :: i < n < k && log[n].phone == p ==> !log[n].event.ReplySent?
    ensures History(log, p, k, cfg).reply == Some(Stamped(log[i].event.hash, log[i].at))
    decreases k - i
  {
    if k > i + 1 {
      ReplyRemembered(log, p, i, k - 1, cfg);
    }
  }

  /** Two replies sent in a row to a phone with equal hash are more than 10 seconds apart. */
  lemma {:induction false} RepliesApart(log: seq<Entry>, p: string, i: nat, j: nat, cfg: Config)
    requires Legal(log, cfg) && i < j < |log| && log[i].phone == p && log[j].phone == p
    requires log[i].event.ReplySent? && log[j].event == log[i].event
    requires forall n :: i < n < j && log[n].phone == p ==> !log[n].event.ReplySent?
    ensures log[j].at - log[i].at > REPLY_WINDOW
  {
    ReplyRemembered(log, p, i, j, cfg);
    assert LegalAt(log, j, cfg);
  }

  lemma {:induction false} ContentRemembered(log: seq<Entry>, p: string, i: nat, k: nat, cfg: Config)
    requires i < k <= |log| && log[i].phone == p && log[i].event.Recorded?
    requires forall n :: i < n < k && log[n].phone == p ==> !log[n].event.Recorded?
    ensures History(log, p, k, cfg).recent == Some(Stamped(log[i].event.text, log[i].at))
    decreases k - i
  {
    if k > i + 1 {
      ContentRemembered(log, p, i, k - 1, cfg);
    }
  }

  /** Two messages admitted in a row from a phone with the same text are at least 2 seconds apart. */
  lemma {:induction false} ContentsApart(log: seq<Entry>, p: string, i: nat, j: nat, cfg: Config)
    requires Legal(log, cfg) && i < j < |log| && log[i].phone == p && log[j].phone == p
    requires log[i].event.Recorded? && log[j].event == log[i].event
    requires forall n :: i < n < j && log[n].phone == p ==> !log[n].event.Recorded?
    ensures log[j].at - log[i].at >= CONTENT_WINDOW
  {
    ContentRemembered(log, p, i, j, cfg);
    assert LegalAt(log, j, cfg);
  }

  lemma {:induction false} MarkRemembered(log: seq<Entry>, i: nat, k: nat, cfg: Config)
    requires Legal(log, cfg) && i < k <= |log| && log[i].event.Marked?
    ensures LastMark(log, log[i].event.id, k).Some? && LastMark(log, log[i].event.id, k).value >= log[i].at
    decreases k - i
  {
    TimesGrow(log, i, k - 1, cfg);
    if k > i + 1 {
      MarkRemembered(log, i, k - 1, cfg);
    }
  }

  /** One message id is accepted at most once a minute, whatever phone carries it. */
  lemma {:induction false} IdsApart(log: seq<Entry>, i: nat, j: nat, cfg: Config)
    requires Legal(log, cfg) && i < j < |log| && log[i].event.Marked? && log[j].event == log[i].event
    ensures log[j].at - log[i].at >= ID_TTL
  {
    MarkRemembered(log, i, j, cfg);
    assert LegalAt(log, j, cfg);
  }

  // ---------------------------------------------------------------- the 30 and the 15 minutes need live references

  /** After each absorbed message the assistant stays away for 30 minutes, unless a word or the
      panel ends the handoff. */
  ghost predicate RefreshHolds(log: seq<Entry>) {
    forall i: nat, j: nat :: i < j < |log| && log[i].event == Refreshed
                             && log[j] == Entry(log[i].phone, log[j].at, AiCalled)
                             && NoneBetween(log, log[i].phone, i, j, {EndedByWord, EndedByPanel}) ==>
                             log[j].at - log[i].at > HANDOFF_LIMIT
  }

  /** Acknowledgements of one handoff keep 15 minutes between them. */
  ghost predicate AcksHold(log: seq<Entry>) {
    forall i: nat, j: nat :: i < j < |log| && log[i].event == AckSent
                             && log[j] == Entry(log[i].phone, log[j].at, AckSent)
                             && NoneBetween(log, log[i].phone, i, j, {Started}) ==>
                             log[j].at - log[i].at > ACK_GAP
  }

  function Oi(now: int): Input {
    Received(now, Message("1", "oi", "", AiResult("h", false, false), true, true, false, true, false))
  }

  /** "oi" of phone "1" while it is handed off at moment 0, in a backend that returns copies. */
  lemma {:induction false} OiIsAbsorbed(s: State, now: int, cfg: Config)
    requires s.botAtivo && "1" !in s.optOut && "1" in s.handoffs && s.handoffs["1"] == Handoff(0, None) && !cfg.liveRefs
    requires "1" in s.recent ==> now - s.recent["1"].at >= CONTENT_WINDOW
    requires now <= HANDOFF_LIMIT
    ensures Step(s, Oi(now), cfg) ==
            s.(recent := s.recent["1" := Stamped("oi", now)],
               log := s.log + [Entry("1", now, Recorded("oi"))] + [Entry("1", now, Refreshed)]
                            + [Entry("1", now, AckSent)])
  {
  }

  lemma {:induction false} OiTimesOut(s: State, now: int, cfg: Config)
    requires s.botAtivo && "1" !in s.optOut && s.replies == map[]
    requires "1" in s.handoffs && s.handoffs["1"] == Handoff(0, None)
    requires "1" in s.recent ==> now - s.recent["1"].at >= CONTENT_WINDOW
    requires now > HANDOFF_LIMIT
    ensures Step(s, Oi(now), cfg).log ==
            s.log + [Entry("1", now, Recorded("oi"))] + [Entry("1", now, TimedOut)]
                  + [Entry("1", now, AiCalled)] + [Entry("1", now, ReplySent("h"))]
  {
    var m := Oi(now).m;
    var s1 := Emit(s, "1", Recorded("oi"), now, cfg);
    assert Step(s, Oi(now), cfg) == Attend(s1, m, now, cfg);
    var s2 := Emit(s1, "1", TimedOut, now, cfg);
    assert Attend(s1, m, now, cfg) == AskAi(s2, m, now, cfg);
    assert s2.replies == map[];
  }

  lemma {:induction false} RefreshBroken(log: seq<Entry>, early: int, late: int)
    requires late - early <= HANDOFF_LIMIT
    requires log == HeardAt(early).log + [Entry("1", late, Recorded("oi"))] + [Entry("1", late, TimedOut)]
                    + [Entry("1", late, AiCalled)] + [Entry("1", late, ReplySent("h"))]
    ensures !RefreshHolds(log)
  {
    assert log[2] == Entry("1", early, Refreshed) && log[3].event == AckSent && log[4].event == Recorded("oi");
    assert log[5].event == TimedOut && log[6] == Entry(log[2].phone, log[6].at, AiCalled);
    assert NoneBetween(log, log[2].phone, 2, 6, {EndedByWord, EndedByPanel});
  }

  lemma {:induction false} AcksBroken(log: seq<Entry>, early: int, late: int)
    requires late - early <= ACK_GAP
    requires log == HeardAt(early).log + [Entry("1", late, Recorded("oi"))] + [Entry("1", late, Refreshed)]
                    + [Entry("1", late, AckSent)]
    ensures !AcksHold(log)
  {
    assert log[3] == Entry("1", early, AckSent) && log[4].event == Recorded("oi") && log[5].event == Refreshed;
    assert log[6] == Entry(log[3].phone, log[6].at, AckSent);
    assert NoneBetween(log, log[3].phone, 3, 6, {Started});
  }

  function HandedOff(): State {
    START.(handoffs := map["1" := Handoff(0, None)], log := [Entry("1", 0, Started)])
  }

  function HeardAt(now: int): State {
    HandedOff().(recent := map["1" := Stamped("oi", now)],
                 log := [Entry("1", 0, Started), Entry("1", now, Recorded("oi")),
                         Entry("1", now, Refreshed), Entry("1", now, AckSent)])
  }

  lemma {:induction false} FirstTwoSteps(inputs: seq<Input>, now: int, cfg: Config, n: nat)
    requires |inputs| == n == 3 && inputs[0] == PanelStarts(0, "1") && inputs[1] == Oi(now)
    requires 0 <= now <= HANDOFF_LIMIT && !cfg.liveRefs
    ensures Run(inputs, cfg, n) == Step(HeardAt(now), inputs[2], cfg)
  {
    assert Run(inputs, cfg, n - 3) == START;
    assert Run(inputs, cfg, n - 2) == HandedOff();
    OiIsAbsorbed(HandedOff(), now, cfg);
    assert Step(HandedOff(), Oi(now), cfg) == HeardAt(now);
    assert Run(inputs, cfg, n - 1) == HeardAt(now);
  }

  /** Heard from at `early` and again, over 30 minutes after the handoff began, at `late`. */
  lemma {:induction false} CopiesBreakRefresh(inputs: seq<Input>, early: int, late: int, cfg: Config)
    requires inputs == [PanelStarts(0, "1"), Oi(early), Oi(late)] && !cfg.liveRefs
    requires 0 <= early <= HANDOFF_LIMIT < late <= early + HANDOFF_LIMIT && late - early >= CONTENT_WINDOW
    ensures !RefreshHolds(Run(inputs, cfg, |inputs|).log)
  {
    FirstTwoSteps(inputs, early, cfg, |inputs|);
    OiTimesOut(HeardAt(early), late, cfg);
    RefreshBroken(Run(inputs, cfg, |inputs|).log, early, late);
  }

  lemma {:induction false} CopiesBreakAcks(inputs: seq<Input>, early: int, late: int, cfg: Config)
    requires inputs == [PanelStarts(0, "1"), Oi(early), Oi(late)] && !cfg.liveRefs
    requires 0 <= early <= HANDOFF_LIMIT && CONTENT_WINDOW <= late - early <= ACK_GAP && late <= HANDOFF_LIMIT
    ensures !AcksHold(Run(inputs, cfg, |inputs|).log)
  {
    FirstTwoSteps(inputs, early, cfg, |inputs|);
    OiIsAbsorbed(HeardAt(early), late, cfg);
    AcksBroken(Run(inputs, cfg, |inputs|).log, early, late);
  }

  /** The clock of a handoff is kept running by its messages, and its acknowledgements are
      throttled, over every run exactly when the backend hands out live references. */
  lemma {:induction false} RefreshHoldsIff(cfg: Config)
    ensures (forall inputs :: Timed(inputs) ==> RefreshHolds(Run(inputs, cfg, |inputs|).log)) <==> cfg.liveRefs
  {
    if cfg.liveRefs {
      forall inputs | Timed(inputs) ensures RefreshHolds(Run(inputs, cfg, |inputs|).log) {
        EveryRun(inputs, cfg, |inputs|);
        LegalRefreshHolds(Run(inputs, cfg, |inputs|).log, cfg);
      }
    } else {
      var inputs := [PanelStarts(0, "1"), Oi(29 * MINUTE), Oi(31 * MINUTE)];
      CopiesBreakRefresh(inputs, 29 * MINUTE, 31 * MINUTE, cfg);
      assert Timed(inputs);
    }
  }

  lemma {:induction false} LegalRefreshHolds(log: seq<Entry>, cfg: Config)
    requires Legal(log, cfg) && cfg.liveRefs
    ensures RefreshHolds(log) && AcksHold(log)
  {
    forall i: nat, j: nat | i < j < |log| && log[i].event == Refreshed
                            && log[j] == Entry(log[i].phone, log[j].at, AiCalled)
                            && NoneBetween(log, log[i].phone, i, j, {EndedByWord, EndedByPanel})
      ensures log[j].at - log[i].at > HANDOFF_LIMIT
    {
      HandoffHolds(log, log[i].phone, i, j, cfg);
    }
    forall i: nat, j: nat | i < j < |log| && log[i].event == AckSent
                            && log[j] == Entry(log[i].phone, log[j].at, AckSent)
                            && NoneBetween(log, log[i].phone, i, j, {Started})
      ensures log[j].at - log[i].at > ACK_GAP
    {
      AcksApart(log, log[i].phone, i, j, cfg);
    }
  }

  lemma {:induction false} AcksHoldIff(cfg: Config)
    ensures (forall inputs :: Timed(inputs) ==> AcksHold(Run(inputs, cfg, |inputs|).log)) <==> cfg.liveRefs
  {
    if cfg.liveRefs {
      forall inputs | Timed(inputs) ensures AcksHold(Run(inputs, cfg, |inputs|).log) {
        EveryRun(inputs, cfg, |inputs|);
        LegalRefreshHolds(Run(inputs, cfg, |inputs|).log, cfg);
      }
    } else {
      var inputs := [PanelStarts(0, "1"), Oi(MINUTE), Oi(2 * MINUTE)];
      CopiesBreakAcks(inputs, MINUTE, 2 * MINUTE, cfg);
      assert Timed(inputs);
    }
  }

  // ---------------------------------------------------------------- the stored maps and the code over them

  class Conversations {
    var botAtivo: bool
    var processed: map<string, int>
    var optOut: map<string, int>
    var recent: map<string, Stamped>
    var replies: map<string, Stamped>
    var handoffs: map<string, Handoff>
    ghost var log: seq<Entry>
    const cfg: Config

    ghost function View(): State
      reads this
    {
      State(botAtivo, processed, optOut, recent, replies, handoffs, log)
    }

    constructor (cfg: Config)
      ensures View() == START && this.cfg == cfg
    {
      this.cfg := cfg;
      botAtivo, processed, optOut, recent, replies, handoffs, log := true, map[], map[], map[], map[], map[], [];
    }

    ghost method Note(p: string, e: Event, now: int)
      modifies this`log
      ensures log == old(log) + [Entry(p, now, e)]
    {
      log := log + [Entry(p, now, e)];
    }

    method SetPhoneOptedOut(p: string, value: bool, now: int, ghost e: Event)
      requires if value then e == OptedOut else e in {OptedIn, AutoResumed}
      modifies this`optOut, this`log
      ensures View() == Emit(old(View()), p, e, now, cfg)
    {
      if value {
        optOut := optOut[p := now];
      } else {
        optOut := optOut - {p};
      }
      Note(p, e, now);
    }

    method MarkProcessedMessageIfNew(m: Message, now: int) returns (isNew: bool)
      modifies this`processed, this`log
      ensures isNew == !DuplicateId(old(View()), m, now)
      ensures View() == if isNew then Mark(old(View()), m, now, cfg) else old(View())
    {
      if m.id == "" { return true; }
      if m.id in processed {
        if now < processed[m.id] { return false; }
        processed := processed - {m.id};
      }
      processed := processed[m.id := now + ID_TTL];
      Note(m.phone, Marked(m.id), now);
      assert processed == old(processed)[m.id := now + ID_TTL];
      isNew := true;
    }

    method ActivateHumanHandoff(p: string, now: int)
      modifies this`handoffs, this`log
      ensures View() == Emit(old(View()), p, Started, now, cfg)
    {
      handoffs := handoffs[p := Handoff(now, None)];
      Note(p, Started, now);
    }

    method DeactivateHumanHandoff(p: string, now: int, ghost e: Event)
      requires e in {EndedByWord, EndedByPanel, TimedOut}
      modifies this`handoffs, this`log
      ensures View() == Emit(old(View()), p, e, now, cfg)
    {
      handoffs := handoffs - {p};
      Note(p, e, now);
    }

    /** `estados_atendimento[telefone]["inicio"] = …`: a write through what the store returned. */
    method WriteInicio(p: string, now: int)
      requires p in handoffs
      modifies this`handoffs, this`log
      ensures View() == Emit(old(View()), p, Refreshed, now, cfg)
    {
      if cfg.liveRefs {
        handoffs := handoffs[p := handoffs[p].(inicio := now)];
      }
      Note(p, Refreshed, now);
    }

    method WritePendingAck(p: string, now: int)
      requires p in handoffs
      modifies this`handoffs, this`log
      ensures View() == Emit(old(View()), p, AckSent, now, cfg)
    {
      if cfg.liveRefs {
        handoffs := handoffs[p := handoffs[p].(ackAt := Some(now))];
      }
      Note(p, AckSent, now);
    }

    method RunAiTurn(m: Message, now: int)
      modifies this`optOut, this`handoffs, this`log
      ensures View() == AiTurn(old(View()), m, now, cfg)
    {
      Note(m.phone, AiCalled, now);
      assert View() == Emit(old(View()), m.phone, AiCalled, now, cfg);
      if m.ai.optsOut {
        SetPhoneOptedOut(m.phone, true, now, OptedOut);
      }
      if m.ai.escalates {
        ActivateHumanHandoff(m.phone, now);
      }
    }

    /** The reply, unless it repeats the last one within the window. */
    method ReplyOnce(m: Message, now: int)
      modifies this`replies, this`log
      ensures View() == SendReply(old(View()), m, now, cfg)
    {
      if m.phone in replies && replies[m.phone].text == m.ai.hash {
        var lastAt := replies[m.phone].at;
        if now - lastAt <= REPLY_WINDOW { return; }
      }
      replies := replies[m.phone := Stamped(m.ai.hash, now)];
      Note(m.phone, ReplySent(m.ai.hash), now);
    }

    /** Lines 344 to 438: the handoff, the acknowledgement and the assistant. */
    method AttendMessage(m: Message, now: int)
      modifies this`optOut, this`handoffs, this`replies, this`log
      ensures View() == Attend(old(View()), m, now, cfg)
    {
      var p := m.phone;
      if p in handoffs {
        var estado := handoffs[p];
        if now - estado.inicio > HANDOFF_LIMIT {
          DeactivateHumanHandoff(p, now, TimedOut);
        } else {
          if m.texto in REACTIVATE {
            DeactivateHumanHandoff(p, now, EndedByWord);
            return;
          }
          WriteInicio(p, now);
          var shouldAck := estado.ackAt.None? || now - estado.ackAt.value > ACK_GAP;
          if shouldAck {
            WritePendingAck(p, now);
            return;
          }
          Note(p, Silenced, now);
          return;
        }
      }
      RunAiTurn(m, now);
      ReplyOnce(m, now);
    }

    /** Lines 279 to 342: the opt-out words, the repeated messages and the closed store. */
    method ConverseMessage(m: Message, now: int)
      modifies this`processed, this`recent, this`optOut, this`handoffs, this`replies, this`log
      ensures View() == Converse(old(View()), m, now, cfg)
    {
      if m.texto in OPT_OUT {
        SetPhoneOptedOut(m.phone, true, now, OptedOut);
        return;
      }
      var isNew := MarkProcessedMessageIfNew(m, now);
      if !isNew { return; }
      if m.phone in recent && recent[m.phone].text == m.texto && now - recent[m.phone].at < CONTENT_WINDOW { return; }
      recent := recent[m.phone := Stamped(m.texto, now)];
      Note(m.phone, Recorded(m.texto), now);
      if m.storeClosed { return; }
      AttendMessage(m, now);
    }

    method ProcessInboundMessage(m: Message, now: int)
      modifies this
      ensures View() == OnMessage(old(View()), m, now, cfg)
    {
      if m.phone in cfg.admins {
        if m.texto in PAUSE_BOT {
          botAtivo := false;
          assert m.texto !in RESUME_BOT;
          return;
        }
        if m.texto in RESUME_BOT {
          botAtivo := true;
          return;
        }
      }
      if !m.autoReplies {
        if m.phone == "" || m.texto == "" { return; }
        if !m.tracked { return; }
        var _ := MarkProcessedMessageIfNew(m, now);
        return;
      }
      if !botAtivo { return; }
      if !m.aiWindow {
        if m.phone != "" && m.texto != "" {
          var _ := MarkProcessedMessageIfNew(m, now);
        }
        return;
      }
      if m.phone == "" { return; }
      if m.texto == "" { return; }
      if m.automationDisabled { return; }
      if !m.tracked { return; }
      if m.phone in optOut {
        var autoReactivated := false;
        if cfg.autoResume > 0 {
          var elapsed := now - optOut[m.phone];
          if elapsed >= cfg.autoResume {
            SetPhoneOptedOut(m.phone, false, now, AutoResumed);
            autoReactivated := true;
          }
        }
        if !autoReactivated {
          if m.texto in REACTIVATE {
            SetPhoneOptedOut(m.phone, false, now, OptedIn);
          }
          return;
        }
      }
      ConverseMessage(m, now);
    }
  }
}
