/** The step-by-step order of a gift basket
    (app/application/use_cases/process_cesta_box_flow.py). Prices are whole cents. */
module CestaFlow {
  import opened Clock
  import opened Capacity
  import opened Payment
  import opened Wrappers

  datatype Cesta = Cesta(nome: string, preco: int)

  const CATALOGO: map<string, Cesta> := map[
    "1" := Cesta("BOX P CHOCOLATES", 9990),
    "2" := Cesta("BOX P CHOCOLATES (com Balão)", 11990),
    "3" := Cesta("BOX M CHOCOLATES", 14990),
    "4" := Cesta("BOX M CHOCOLATES BALÃO", 18990),
    "5" := Cesta("BOX M CAFÉ", 17990),
    "6" := Cesta("BOX M CAFÉ BALÃO", 21990)]

  const DELIVERY_FEE := 1000

  datatype Etapa =
    | Selecao | DataEntrega | HoraRetirada | ModoRecebimento | EnderecoEntrega
    | ConfirmarPedido | PagamentoForma | PagamentoTroco | FinalizarVenda

  /** What `float()` makes of a text. */
  datatype FloatText = NoNumber | Nan | PlusInfinity | MinusInfinity | Finite(value: real)

  datatype Pagamento = Pagamento(forma: Option<Forma>, trocoPara: Option<FloatText>)

  /** The collected answers; None is a missing key. */
  datatype Dados = Dados(cesta: Option<Cesta>, data: Option<string>, horario: Option<string>, modo: Option<Modo>,
                         endereco: Option<string>, taxa: Option<int>, pagamento: Option<Pagamento>)

  const NO_DADOS := Dados(None, None, None, None, None, None, None)

  /** The order that goes to the gateway. */
  datatype Pedido = Pedido(cesta: Option<Cesta>, data: Option<string>, horario: Option<string>, modo: Option<Modo>,
                           endereco: string, valorTotal: int, pagamento: Pagamento, delivery: bool)

  /** The operational calendar and the stored orders while a message is handled. */
  datatype World = World(shop: Shop, orders: seq<Order>)

  /** A message and how its text reads as a number. */
  datatype Message = Message(texto: string, number: FloatText)

  /** The conversation. `slotWorld` remembers the world in which the hour passed the schedule
      check, `placed` the orders sent to the gateway. */
  datatype State = State(etapa: Etapa, dados: Dados, slotWorld: Option<World>, placed: seq<Pedido>)

  const START := State(Selecao, NO_DADOS, None, [])

  /** The day that a collected date names; `dates` reads the valid DD/MM/AAAA texts. */
  function Day(dates: map<string, int>, data: Option<string>): Option<int> {
    if data.Some? && data.value in dates then Some(dates[data.value]) else None
  }

  predicate ScheduleOk(dates: map<string, int>, world: World, data: Option<string>, horario: string) {
    ValidateServiceSchedule(world.shop, world.orders, Day(dates, data), horario).None?
  }

  /** `not (float(valor) <= 0)`: no comparison with a NaN holds. */
  predicate TrocoAccepted(number: FloatText) {
    match number
    case NoNumber => false
    case Nan => true
    case PlusInfinity => true
    case MinusInfinity => false
    case Finite(v) => !(v <= 0.0)
  }

  function OrderOf(d: Dados): Pedido {
    Pedido(d.cesta, d.data, d.horario, d.modo, if d.endereco.Some? then d.endereco.value else "",
           (if d.cesta.Some? then d.cesta.value.preco else 0) + (if d.taxa.Some? then d.taxa.value else 0),
           if d.pagamento.Some? then d.pagamento.value else Pagamento(None, None),
           d.modo == Some(Entrega))
  }

  function FormaOf(choice: string): Option<Forma> {
    if choice == "1" then Some(Pix)
    else if choice == "2" then Some(Cartao)
    else if choice == "3" then Some(Dinheiro)
    else None
  }

  // ---------------------------------------------------------------- one message

  function Choose(s: State, m: Message): State {
    var escolha := Lower(Strip(m.texto));
    if escolha !in CATALOGO then s
    else s.(etapa := DataEntrega, dados := s.dados.(cesta := Some(CATALOGO[escolha])))
  }

  function TakeDate(s: State, m: Message, world: World, dates: map<string, int>): State {
    var text := Strip(m.texto);
    if text == "" || text !in dates || ValidateServiceDate(world.shop, world.orders, Some(dates[text])).Some? then s
    else s.(etapa := HoraRetirada, dados := s.dados.(data := Some(text)))
  }

  function TakeHour(s: State, m: Message, world: World, dates: map<string, int>): State {
    var horario := ParseHora(m.texto);
    if horario.None? || !ScheduleOk(dates, world, s.dados.data, horario.value) then s
    else s.(etapa := ModoRecebimento, dados := s.dados.(horario := horario), slotWorld := Some(world))
  }

  function TakeMode(s: State, m: Message): State {
    var modo := Lower(Strip(m.texto));
    if modo in {"1", "retirada"} then
      s.(etapa := ConfirmarPedido, dados := s.dados.(modo := Some(Retirada), endereco := Some("")))
    else if modo in {"2", "entrega"} then
      var horario := if s.dados.horario.Some? then s.dados.horario.value else "";
      if !HorarioEntregaPermitido(horario) then s.(etapa := HoraRetirada)
      else s.(etapa := EnderecoEntrega, dados := s.dados.(modo := Some(Entrega), taxa := Some(DELIVERY_FEE)))
    else s
  }

  function TakeAddress(s: State, m: Message): State {
    var endereco := Strip(m.texto);
    if endereco == "" then s else s.(etapa := ConfirmarPedido, dados := s.dados.(endereco := Some(endereco)))
  }

  function Confirm(s: State, m: Message): State {
    var resposta := Lower(Strip(m.texto));
    if resposta in {"1", "sim", "confirmar"} then
      if s.dados.pagamento.Some? then s
      else s.(etapa := PagamentoForma, dados := s.dados.(pagamento := Some(Pagamento(None, None))))
    else if resposta in {"2", "nao", "não", "corrigir"} then s.(etapa := Selecao, dados := NO_DADOS)
    else s
  }

  function Pay(s: State, forma: Option<Forma>, troco: Option<FloatText>): State {
    var paid := s.dados.(pagamento := Some(Pagamento(forma, troco)));
    s.(etapa := FinalizarVenda, dados := paid, placed := s.placed + [OrderOf(paid)])
  }

  function TakeForm(s: State, m: Message): State {
    var forma := FormaOf(Strip(m.texto));
    if forma.None? || s.dados.pagamento.None? then s
    else if forma.value == Dinheiro then
      s.(etapa := PagamentoTroco, dados := s.dados.(pagamento := Some(s.dados.pagamento.value.(forma := forma))))
    else Pay(s, forma, None)
  }

  function TakeChange(s: State, m: Message): State {
    if !TrocoAccepted(m.number) || s.dados.pagamento.None? then s
    else Pay(s, s.dados.pagamento.value.forma, Some(m.number))
  }

  function Next(s: State, m: Message, world: World, dates: map<string, int>): State {
    match s.etapa
    case Selecao => Choose(s, m)
    case DataEntrega => TakeDate(s, m, world, dates)
    case HoraRetirada => TakeHour(s, m, world, dates)
    case ModoRecebimento => TakeMode(s, m)
    case EnderecoEntrega => TakeAddress(s, m)
    case ConfirmarPedido => Confirm(s, m)
    case PagamentoForma => TakeForm(s, m)
    case PagamentoTroco => TakeChange(s, m)
    case FinalizarVenda => s
  }

  type Talk = seq<(Message, World)>

  function Run(s: State, ms: Talk, dates: map<string, int>, n: nat): State
    requires n <= |ms|
  {
    if n == 0 then s else Next(Run(s, ms, dates, n - 1), ms[n - 1].0, ms[n - 1].1, dates)
  }

  // ---------------------------------------------------------------- what an order promises

  predicate InCatalogue(cesta: Option<Cesta>) {
    cesta.Some? && exists k :: k in CATALOGO && CATALOGO[k] == cesta.value
  }

  /** A readable date and a canonical hour that passed the schedule check of `slotWorld`. */
  predicate SlotChecked(dates: map<string, int>, slotWorld: Option<World>, data: Option<string>,
                        horario: Option<string>) {
    && data.Some? && data.value in dates && horario.Some? && IsClock(horario.value)
    && slotWorld.Some? && ScheduleOk(dates, slotWorld.value, data, horario.value)
  }

  predicate Received(d: Dados) {
    match d.modo
    case None => false
    case Some(Retirada) => d.endereco == Some("") && d.taxa.None?
    case Some(Entrega) =>
      d.endereco.Some? && Strip(d.endereco.value) != "" && d.taxa == Some(DELIVERY_FEE)
      && d.horario.Some? && IsClock(d.horario.value) && Minutes(d.horario.value) <= 17 * 60 + 30
  }

  /** The promise of a placed order: a catalogue basket at its price, a slot that passed the
      schedule check, the fee and a deliverable address and hour exactly for deliveries, and a
      payment form with change exactly for cash. */
  predicate Honest(dates: map<string, int>, slotWorld: Option<World>, p: Pedido) {
    && InCatalogue(p.cesta)
    && SlotChecked(dates, slotWorld, p.data, p.horario)
    && p.modo.Some? && p.delivery == (p.modo.value == Entrega)
    && p.valorTotal == p.cesta.value.preco + (if p.delivery then DELIVERY_FEE else 0)
    && (p.delivery <==> p.endereco != "")
    && (p.delivery ==> Strip(p.endereco) != "" && Minutes(p.horario.value) <= 17 * 60 + 30)
    && p.pagamento.forma.Some?
    && (p.pagamento.trocoPara.Some? <==> p.pagamento.forma.value == Dinheiro)
    && (p.pagamento.trocoPara.Some? ==> TrocoAccepted(p.pagamento.trocoPara.value))
  }

  /** What each stage has established. */
  predicate StageOk(dates: map<string, int>, s: State) {
    var d := s.dados;
    match s.etapa
    case Selecao => d == NO_DADOS
    case DataEntrega => InCatalogue(d.cesta) && d == NO_DADOS.(cesta := d.cesta)
    case HoraRetirada =>
      InCatalogue(d.cesta) && d.data.Some? && d.data.value in dates
      && d == NO_DADOS.(cesta := d.cesta, data := d.data, horario := d.horario)
    case ModoRecebimento =>
      InCatalogue(d.cesta) && SlotChecked(dates, s.slotWorld, d.data, d.horario)
      && d == NO_DADOS.(cesta := d.cesta, data := d.data, horario := d.horario)
    case EnderecoEntrega =>
      InCatalogue(d.cesta) && SlotChecked(dates, s.slotWorld, d.data, d.horario)
      && Minutes(d.horario.value) <= 17 * 60 + 30
      && d.modo == Some(Entrega) && d.taxa == Some(DELIVERY_FEE) && d.pagamento.None?
    case ConfirmarPedido => Complete(dates, s) && d.pagamento.None?
    case PagamentoForma => Complete(dates, s) && d.pagamento == Some(Pagamento(None, None))
    case PagamentoTroco => Complete(dates, s) && d.pagamento == Some(Pagamento(Some(Dinheiro), None))
    case FinalizarVenda => |s.placed| == 1 && Honest(dates, s.slotWorld, s.placed[0])
  }

  predicate Complete(dates: map<string, int>, s: State) {
    && InCatalogue(s.dados.cesta)
    && SlotChecked(dates, s.slotWorld, s.dados.data, s.dados.horario)
    && Received(s.dados)
  }

  /** At most one order, sent by the step that ends the flow. */
  predicate Inv(dates: map<string, int>, s: State) {
    StageOk(dates, s) && (s.etapa != FinalizarVenda ==> s.placed == [])
  }

  lemma {:induction false} StripTwice(t: string)
    ensures Strip(Strip(t)) == Strip(t)
    decreases |t|
  {
    if t != "" && t[0] in {' ', '\t', '\n', '\r'} {
      StripTwice(t[1..]);
    } else if t != "" && t[|t| - 1] in {' ', '\t', '\n', '\r'} {
      StripTwice(t[..|t| - 1]);
    }
  }

  lemma {:induction false} PaidIsHonest(dates: map<string, int>, s: State, forma: Option<Forma>,
                                        troco: Option<FloatText>)
    requires Complete(dates, s) && s.placed == [] && forma.Some?
    requires troco.Some? <==> forma.value == Dinheiro
    requires troco.Some? ==> TrocoAccepted(troco.value)
    ensures Inv(dates, Pay(s, forma, troco))
  {
    var paid := s.dados.(pagamento := Some(Pagamento(forma, troco)));
    assert Strip("") == "";
    assert Honest(dates, s.slotWorld, OrderOf(paid));
  }

  lemma {:induction false} EarlyStepsKeep(s: State, m: Message, world: World, dates: map<string, int>)
    requires Inv(dates, s) && s.etapa in {Selecao, DataEntrega, HoraRetirada}
    ensures Inv(dates, Next(s, m, world, dates))
  {
  }

  lemma {:induction false} ModeStepKeeps(s: State, m: Message, dates: map<string, int>)
    requires Inv(dates, s) && s.etapa == ModoRecebimento
    ensures Inv(dates, TakeMode(s, m))
  {
    ParseStable(s.dados.horario.value);
  }

  lemma {:induction false} LateStepsKeep(s: State, m: Message, world: World, dates: map<string, int>)
    requires Inv(dates, s) && s.etapa in {EnderecoEntrega, ConfirmarPedido, PagamentoForma, PagamentoTroco}
    ensures Inv(dates, Next(s, m, world, dates))
  {
    StripTwice(m.texto);
    if s.etapa == PagamentoForma && FormaOf(Strip(m.texto)) in {Some(Pix), Some(Cartao)} {
      PaidIsHonest(dates, s, FormaOf(Strip(m.texto)), None);
    }
    if s.etapa == PagamentoTroco && TrocoAccepted(m.number) {
      PaidIsHonest(dates, s, Some(Dinheiro), Some(m.number));
    }
  }

  lemma {:induction false} StepKeeps(s: State, m: Message, world: World, dates: map<string, int>)
    requires Inv(dates, s)
    ensures Inv(dates, Next(s, m, world, dates))
  {
    if s.etapa in {Selecao, DataEntrega, HoraRetirada} {
      EarlyStepsKeep(s, m, world, dates);
    } else if s.etapa == ModoRecebimento {
      ModeStepKeeps(s, m, dates);
    } else if s.etapa != FinalizarVenda {
      LateStepsKeep(s, m, world, dates);
    }
  }

  lemma {:induction false} EveryRun(ms: Talk, dates: map<string, int>, n: nat)
    requires n <= |ms|
    ensures Inv(dates, Run(START, ms, dates, n))
  {
    if n > 0 {
      EveryRun(ms, dates, n - 1);
      StepKeeps(Run(START, ms, dates, n - 1), ms[n - 1].0, ms[n - 1].1, dates);
    }
  }

  lemma {:induction false} SlotWorldMoves(s: State, m: Message, world: World, dates: map<string, int>)
    ensures Next(s, m, world, dates).slotWorld in {s.slotWorld, Some(world)}
  {
  }

  lemma {:induction false} SlotWorldIsSeen(ms: Talk, dates: map<string, int>, n: nat)
    requires n <= |ms|
    ensures var w := Run(START, ms, dates, n).slotWorld; w.Some? ==> exists i :: 0 <= i < n && ms[i].1 == w.value
  {
    if n > 0 {
      SlotWorldIsSeen(ms, dates, n - 1);
      SlotWorldMoves(Run(START, ms, dates, n - 1), ms[n - 1].0, ms[n - 1].1, dates);
    }
  }

  /** Any conversation sends at most one order, by the step that ends it; the order keeps its
      promise, and its slot passed the check in the world of one of the messages. */
  lemma {:induction false} EveryOrder(ms: Talk, dates: map<string, int>, n: nat)
    requires n <= |ms|
    ensures var s := Run(START, ms, dates, n);
      && |s.placed| == (if s.etapa == FinalizarVenda then 1 else 0)
      && (forall p :: p in s.placed ==> Honest(dates, s.slotWorld, p))
      && (s.slotWorld.Some? ==> exists i :: 0 <= i < n && ms[i].1 == s.slotWorld.value)
  {
    EveryRun(ms, dates, n);
    SlotWorldIsSeen(ms, dates, n);
  }

  /** Confirming with the payment already opened would fall through every branch; no
      conversation gets there, so each confirmation opens the payment. */
  lemma {:induction false} ConfirmOpensPayment(ms: Talk, dates: map<string, int>, n: nat)
    requires n < |ms| && Run(START, ms, dates, n).etapa == ConfirmarPedido
    requires Lower(Strip(ms[n].0.texto)) in {"1", "sim", "confirmar"}
    ensures Run(START, ms, dates, n).dados.pagamento.None?
    ensures Run(START, ms, dates, n + 1).etapa == PagamentoForma
  {
    EveryRun(ms, dates, n);
  }

  // ---------------------------------------------------------------- the change of a cash order

  /** The change that the design asks for. */
  predicate Positive(number: FloatText) {
    number.PlusInfinity? || (number.Finite? && number.value > 0.0)
  }

  /** A sent cash order carries positive change unless the customer typed a NaN. */
  lemma {:induction false} CashChangeIff(ms: Talk, dates: map<string, int>, n: nat)
    requires n < |ms| && Run(START, ms, dates, n).etapa == PagamentoTroco
    ensures var after := Run(START, ms, dates, n + 1);
      var number := ms[n].0.number;
      && (|after.placed| == 1 <==> Positive(number) || number == Nan)
      && (|after.placed| == 1 ==> after.placed[0].pagamento == Pagamento(Some(Dinheiro), Some(number)))
      && (|after.placed| == 1 ==> (Positive(number) <==> number != Nan))
  {
    EveryRun(ms, dates, n);
  }

  // ---------------------------------------------------------------- what each message does

  predicate SaysYes(m: Message) {
    Lower(Strip(m.texto)) in {"1", "sim", "confirmar"}
  }

  predicate SaysNo(m: Message) {
    Lower(Strip(m.texto)) in {"2", "nao", "não", "corrigir"}
  }

  /** A known number chooses its basket at its price; anything else changes nothing. */
  lemma {:induction false} ChoiceTurns(ms: Talk, dates: map<string, int>, n: nat)
    requires n < |ms| && Run(START, ms, dates, n).etapa == Selecao
    ensures var (s, t) := (Run(START, ms, dates, n), Run(START, ms, dates, n + 1));
      var choice := Lower(Strip(ms[n].0.texto));
      && (t.etapa == DataEntrega <==> choice in {"1", "2", "3", "4", "5", "6"})
      && (t.etapa != DataEntrega ==> t == s)
      && (t.etapa == DataEntrega ==>
            && t.dados.cesta.Some? && t == s.(etapa := DataEntrega, dados := NO_DADOS.(cesta := t.dados.cesta))
            && (choice == "1" ==> t.dados.cesta.value == Cesta("BOX P CHOCOLATES", 9990))
            && (choice == "2" ==> t.dados.cesta.value == Cesta("BOX P CHOCOLATES (com Balão)", 11990))
            && (choice == "3" ==> t.dados.cesta.value == Cesta("BOX M CHOCOLATES", 14990))
            && (choice == "4" ==> t.dados.cesta.value == Cesta("BOX M CHOCOLATES BALÃO", 18990))
            && (choice == "5" ==> t.dados.cesta.value == Cesta("BOX M CAFÉ", 17990))
            && (choice == "6" ==> t.dados.cesta.value == Cesta("BOX M CAFÉ BALÃO", 21990)))
  {
    EveryRun(ms, dates, n);
  }

  /** A date is kept exactly when it is one and its day is accepted. */
  lemma {:induction false} DateTurns(ms: Talk, dates: map<string, int>, n: nat)
    requires n < |ms| && Run(START, ms, dates, n).etapa == DataEntrega
    ensures var (s, t) := (Run(START, ms, dates, n), Run(START, ms, dates, n + 1));
      var (text, world) := (Strip(ms[n].0.texto), ms[n].1);
      && (t.etapa == HoraRetirada <==>
            text != "" && text in dates && ValidateServiceDate(world.shop, world.orders, Some(dates[text])).None?)
      && (t.etapa != HoraRetirada ==> t == s)
      && (t.etapa == HoraRetirada ==> t == s.(etapa := HoraRetirada, dados := s.dados.(data := Some(text))))
  {
  }

  /** An hour is kept exactly when it is one and the schedule of the chosen day takes it now. */
  lemma {:induction false} HourTurns(ms: Talk, dates: map<string, int>, n: nat)
    requires n < |ms| && Run(START, ms, dates, n).etapa == HoraRetirada
    ensures var (s, t) := (Run(START, ms, dates, n), Run(START, ms, dates, n + 1));
      var (hour, world) := (ParseHora(ms[n].0.texto), ms[n].1);
      && s.dados.data.Some? && s.dados.data.value in dates
      && (t.etapa == ModoRecebimento <==>
            && hour.Some?
            && ValidateServiceSchedule(world.shop, world.orders, Some(dates[s.dados.data.value]), hour.value).None?)
      && (t.etapa != ModoRecebimento ==> t == s)
      && (t.etapa == ModoRecebimento ==>
            t == s.(etapa := ModoRecebimento, dados := s.dados.(horario := hour), slotWorld := Some(world)))
  {
    EveryRun(ms, dates, n);
  }

  /** A pickup goes straight to the summary without an address. A delivery goes on to the address
      with the fee of ten reais up to 17:30, and past it back to the hour, nothing else changed. */
  lemma {:induction false} ModeTurns(ms: Talk, dates: map<string, int>, n: nat)
    requires n < |ms| && Run(START, ms, dates, n).etapa == ModoRecebimento
    ensures var (s, t) := (Run(START, ms, dates, n), Run(START, ms, dates, n + 1));
      var mode := Lower(Strip(ms[n].0.texto));
      && s.dados.horario.Some? && IsClock(s.dados.horario.value)
      && (mode in {"1", "retirada"} ==>
            t == s.(etapa := ConfirmarPedido, dados := s.dados.(modo := Some(Retirada), endereco := Some(""))))
      && (mode in {"2", "entrega"} && Minutes(s.dados.horario.value) > 17 * 60 + 30 ==>
            t == s.(etapa := HoraRetirada))
      && (mode in {"2", "entrega"} && Minutes(s.dados.horario.value) <= 17 * 60 + 30 ==>
            t == s.(etapa := EnderecoEntrega, dados := s.dados.(modo := Some(Entrega), taxa := Some(1000))))
      && (mode !in {"1", "retirada", "2", "entrega"} ==> t == s)
  {
    EveryRun(ms, dates, n);
    ParseStable(Run(START, ms, dates, n).dados.horario.value);
  }

  /** Any address but a blank one is kept. */
  lemma {:induction false} AddressTurns(ms: Talk, dates: map<string, int>, n: nat)
    requires n < |ms| && Run(START, ms, dates, n).etapa == EnderecoEntrega
    ensures var (s, t) := (Run(START, ms, dates, n), Run(START, ms, dates, n + 1));
      var text := Strip(ms[n].0.texto);
      && (text == "" ==> t == s)
      && (text != "" ==> t == s.(etapa := ConfirmarPedido, dados := s.dados.(endereco := Some(text))))
  {
  }

  /** The summary is left for the payment exactly on a yes and for a fresh start exactly on a no,
      which forgets every answer; anything else changes nothing, and nothing is sent. */
  lemma {:induction false} AnswerTurns(ms: Talk, dates: map<string, int>, n: nat)
    requires n < |ms| && Run(START, ms, dates, n).etapa == ConfirmarPedido
    ensures var (s, t) := (Run(START, ms, dates, n), Run(START, ms, dates, n + 1));
      && (t.etapa == PagamentoForma <==> SaysYes(ms[n].0))
      && (t.etapa == Selecao <==> SaysNo(ms[n].0))
      && (SaysYes(ms[n].0) ==> t.dados == s.dados.(pagamento := Some(Pagamento(None, None))))
      && (SaysNo(ms[n].0) ==> t.dados == NO_DADOS)
      && (!SaysYes(ms[n].0) && !SaysNo(ms[n].0) ==> t == s)
      && t.placed == []
  {
    EveryRun(ms, dates, n);
  }

  /** "1" and "2" send the order paid by PIX or by card, "3" asks for the change of a cash order,
      and anything else changes nothing. */
  lemma {:induction false} FormTurns(ms: Talk, dates: map<string, int>, n: nat)
    requires n < |ms| && Run(START, ms, dates, n).etapa == PagamentoForma
    ensures var (s, t) := (Run(START, ms, dates, n), Run(START, ms, dates, n + 1));
      var choice := Strip(ms[n].0.texto);
      && (t.etapa == FinalizarVenda <==> choice in {"1", "2"})
      && (|t.placed| == 1 <==> choice in {"1", "2"})
      && (choice == "1" ==> t.placed[0].pagamento == Pagamento(Some(Pix), None))
      && (choice == "2" ==> t.placed[0].pagamento == Pagamento(Some(Cartao), None))
      && (choice == "3" ==> t == s.(etapa := PagamentoTroco,
                                    dados := s.dados.(pagamento := Some(Pagamento(Some(Dinheiro), None)))))
      && (choice !in {"1", "2", "3"} ==> t == s)
  {
    EveryRun(ms, dates, n);
  }

  /** A refused change leaves the conversation as it was, and so does any message after the end. */
  lemma {:induction false} RefusedChangeStays(ms: Talk, dates: map<string, int>, n: nat)
    requires n < |ms|
    ensures var (s, t) := (Run(START, ms, dates, n), Run(START, ms, dates, n + 1));
      && (s.etapa == PagamentoTroco && !Positive(ms[n].0.number) && ms[n].0.number != Nan ==> t == s)
      && (s.etapa == FinalizarVenda ==> t == s)
  {
  }

  // ---------------------------------------------------------------- every order was confirmed

  predicate Paying(e: Etapa) {
    e in {PagamentoForma, PagamentoTroco, FinalizarVenda}
  }

  /** Message `i` said yes to the summary, and from there to `n` the conversation only paid. */
  predicate ConfirmedAt(ms: Talk, dates: map<string, int>, i: nat, n: nat)
    requires i < n <= |ms|
  {
    && Run(START, ms, dates, i).etapa == ConfirmarPedido && SaysYes(ms[i].0)
    && (forall j :: i < j <= n ==> Paying(Run(START, ms, dates, j).etapa))
  }

  /** The payment stages change nothing of the answers but the payment itself. */
  predicate OnlyPaid(a: Dados, b: Dados) {
    b == a.(pagamento := b.pagamento)
  }

  lemma {:induction false} PayingFromYes(s: State, m: Message, world: World, dates: map<string, int>)
    requires Inv(dates, s) && Paying(Next(s, m, world, dates).etapa)
    ensures Paying(s.etapa) || (s.etapa == ConfirmarPedido && SaysYes(m))
    ensures OnlyPaid(s.dados, Next(s, m, world, dates).dados)
  {
  }

  lemma {:induction false} PayingStep(ms: Talk, dates: map<string, int>, n: nat)
    requires 0 < n <= |ms| && Paying(Run(START, ms, dates, n).etapa)
    ensures Paying(Run(START, ms, dates, n - 1).etapa) || ConfirmedAt(ms, dates, n - 1, n)
    ensures OnlyPaid(Run(START, ms, dates, n - 1).dados, Run(START, ms, dates, n).dados)
  {
    EveryRun(ms, dates, n - 1);
    PayingFromYes(Run(START, ms, dates, n - 1), ms[n - 1].0, ms[n - 1].1, dates);
  }

  lemma {:induction false} PaymentWasConfirmed(ms: Talk, dates: map<string, int>, n: nat) returns (i: nat)
    requires n <= |ms| && Paying(Run(START, ms, dates, n).etapa)
    ensures i < n && ConfirmedAt(ms, dates, i, n)
    ensures OnlyPaid(Run(START, ms, dates, i).dados, Run(START, ms, dates, n).dados)
  {
    assert n > 0;
    PayingStep(ms, dates, n);
    if ConfirmedAt(ms, dates, n - 1, n) {
      i := n - 1;
    } else {
      i := PaymentWasConfirmed(ms, dates, n - 1);
    }
  }

  /** The order carries the answers of the conversation. */
  predicate Carries(p: Pedido, d: Dados) {
    && p.cesta == d.cesta && p.data == d.data && p.horario == d.horario && p.modo == d.modo
    && Some(p.endereco) == d.endereco && d.cesta.Some?
    && p.valorTotal == d.cesta.value.preco + (if d.taxa.Some? then d.taxa.value else 0)
  }

  lemma {:induction false} SentCarries(s: State, m: Message, dates: map<string, int>)
    requires Complete(dates, s) && s.placed == [] && s.etapa in {PagamentoForma, PagamentoTroco}
    ensures var t := if s.etapa == PagamentoForma then TakeForm(s, m) else TakeChange(s, m);
      t.placed != [] ==> t.etapa == FinalizarVenda && Carries(t.placed[0], t.dados)
  {
  }

  lemma {:induction false} PlacedByPaying(s: State, m: Message, world: World, dates: map<string, int>)
    requires Inv(dates, s) && Next(s, m, world, dates).placed != s.placed
    ensures s.etapa in {PagamentoForma, PagamentoTroco} && s.placed == [] && Complete(dates, s)
  {
  }

  lemma {:induction false} OrderCarries(ms: Talk, dates: map<string, int>, n: nat)
    requires n <= |ms| && Run(START, ms, dates, n).placed != []
    ensures Run(START, ms, dates, n).etapa == FinalizarVenda
    ensures Carries(Run(START, ms, dates, n).placed[0], Run(START, ms, dates, n).dados)
  {
    assert n > 0;
    var before := Run(START, ms, dates, n - 1);
    EveryRun(ms, dates, n - 1);
    if before.placed != [] {
      OrderCarries(ms, dates, n - 1);
    } else {
      PlacedByPaying(before, ms[n - 1].0, ms[n - 1].1, dates);
      SentCarries(before, ms[n - 1].0, dates);
    }
  }

  /** Every order was confirmed: the customer said yes to a summary, did not start over after it,
      and what was sent is what that summary held. */
  lemma {:induction false} EveryOrderConfirmed(ms: Talk, dates: map<string, int>, n: nat) returns (i: nat)
    requires n <= |ms| && Run(START, ms, dates, n).placed != []
    ensures i < n && ConfirmedAt(ms, dates, i, n)
    ensures Carries(Run(START, ms, dates, n).placed[0], Run(START, ms, dates, i).dados)
  {
    OrderCarries(ms, dates, n);
    i := PaymentWasConfirmed(ms, dates, n);
  }

  // ---------------------------------------------------------------- every valid order gets through

  function After(s: State, ms: Talk, dates: map<string, int>): State {
    Run(s, ms, dates, |ms|)
  }

  lemma {:induction false} RunOfPrefix(s: State, a: Talk, b: Talk, dates: map<string, int>, n: nat)
    requires n <= |a|
    ensures Run(s, a + b, dates, n) == Run(s, a, dates, n)
  {
    if n > 0 {
      RunOfPrefix(s, a, b, dates, n - 1);
    }
  }

  lemma {:induction false} RunOn(s: State, a: Talk, b: Talk, dates: map<string, int>, n: nat)
    requires n <= |b|
    ensures Run(s, a + b, dates, |a| + n) == Run(After(s, a, dates), b, dates, n)
  {
    if n == 0 {
      RunOfPrefix(s, a, b, dates, |a|);
    } else {
      RunOn(s, a, b, dates, n - 1);
      assert (a + b)[|a| + n - 1] == b[n - 1];
    }
  }

  lemma {:induction false} OneMore(s: State, ms: Talk, m: Message, world: World, dates: map<string, int>)
    ensures After(s, ms + [(m, world)], dates) == Next(After(s, ms, dates), m, world, dates)
  {
    RunOfPrefix(s, ms, [(m, world)], dates, |ms|);
  }

  /** An order that a customer wants: its answers, with no address for a pickup. */
  datatype Wish = Wish(cesta: string, data: string, hora: string, endereco: Option<string>, forma: Forma,
                       troco: Message)

  /** A wish the shop can meet: a basket of the catalogue, a slot that passes the check, up to the
      cutoff and with a non-blank address for a delivery, and positive change for cash. */
  predicate Fulfillable(w: Wish, dates: map<string, int>, world: World) {
    && Lower(Strip(w.cesta)) in CATALOGO
    && Strip(w.data) != "" && Strip(w.data) in dates
    && ParseHora(w.hora).Some? && ScheduleOk(dates, world, Some(Strip(w.data)), ParseHora(w.hora).value)
    && (w.endereco.Some? ==> Strip(w.endereco.value) != "" && Minutes(ParseHora(w.hora).value) <= 17 * 60 + 30)
    && (w.forma == Dinheiro ==> Positive(w.troco.number))
  }

  /** The order that such a wish must become. */
  function Wanted(w: Wish): Pedido
    requires Lower(Strip(w.cesta)) in CATALOGO
  {
    var cesta := CATALOGO[Lower(Strip(w.cesta))];
    Pedido(Some(cesta), Some(Strip(w.data)), ParseHora(w.hora), Some(if w.endereco.Some? then Entrega else Retirada),
           if w.endereco.Some? then Strip(w.endereco.value) else "",
           cesta.preco + (if w.endereco.Some? then DELIVERY_FEE else 0),
           Pagamento(Some(w.forma), if w.forma == Dinheiro then Some(w.troco.number) else None),
           w.endereco.Some?)
  }

  function Typed(texto: string): Message {
    Message(texto, NoNumber)
  }

  function SlotAnswers(w: Wish, world: World): Talk {
    [] + [(Typed(w.cesta), world)] + [(Typed(w.data), world)] + [(Typed(w.hora), world)]
  }

  function ReceiptAnswers(endereco: Option<string>, world: World): Talk {
    if endereco.None? then [] + [(Typed("1"), world)]
    else [] + [(Typed("2"), world)] + [(Typed(endereco.value), world)]
  }

  function FormaKey(forma: Forma): string {
    match forma case Pix => "1" case Cartao => "2" case Dinheiro => "3"
  }

  function PaymentAnswers(forma: Forma, troco: Message, world: World): Talk {
    var form := [] + [(Typed("1"), world)] + [(Typed(FormaKey(forma)), world)];
    if forma == Dinheiro then form + [(troco, world)] else form
  }

  /** The answers of a wish: the slot is asked for in the world `early`, the rest told in `late`. */
  function Answers(w: Wish, early: World, late: World): Talk {
    SlotAnswers(w, early) + ReceiptAnswers(w.endereco, late) + PaymentAnswers(w.forma, w.troco, late)
  }

  function WithSlot(w: Wish, world: World): State
    requires Lower(Strip(w.cesta)) in CATALOGO
  {
    var cesta := CATALOGO[Lower(Strip(w.cesta))];
    State(ModoRecebimento, NO_DADOS.(cesta := Some(cesta), data := Some(Strip(w.data)), horario := ParseHora(w.hora)),
          Some(world), [])
  }

  function Receive(d: Dados, endereco: Option<string>): Dados {
    if endereco.None? then d.(modo := Some(Retirada), endereco := Some(""))
    else d.(modo := Some(Entrega), endereco := Some(Strip(endereco.value)), taxa := Some(DELIVERY_FEE))
  }

  lemma {:induction false} AnswerFacts()
    ensures Strip("1") == "1" && Strip("2") == "2" && Strip("3") == "3"
    ensures Lower("1") == "1" && Lower("2") == "2"
  {
  }

  lemma {:induction false} SlotGetsThrough(w: Wish, dates: map<string, int>, world: World)
    requires Fulfillable(w, dates, world)
    ensures After(START, SlotAnswers(w, world), dates) == WithSlot(w, world)
  {
    var chosen := [] + [(Typed(w.cesta), world)];
    OneMore(START, [], Typed(w.cesta), world, dates);
    assert After(START, [], dates) == START;
    OneMore(START, chosen, Typed(w.data), world, dates);
    OneMore(START, chosen + [(Typed(w.data), world)], Typed(w.hora), world, dates);
  }

  lemma {:induction false} PickupGetsThrough(s: State, dates: map<string, int>, late: World)
    requires s.etapa == ModoRecebimento
    ensures After(s, ReceiptAnswers(None, late), dates) == s.(etapa := ConfirmarPedido, dados := Receive(s.dados, None))
  {
    AnswerFacts();
    assert After(s, [], dates) == s;
    OneMore(s, [], Typed("1"), late, dates);
  }

  lemma {:induction false} DeliveryGetsThrough(s: State, endereco: string, dates: map<string, int>, late: World)
    requires s.etapa == ModoRecebimento && s.dados.horario.Some? && IsClock(s.dados.horario.value)
    requires Minutes(s.dados.horario.value) <= 17 * 60 + 30 && Strip(endereco) != ""
    ensures After(s, ReceiptAnswers(Some(endereco), late), dates) ==
            s.(etapa := ConfirmarPedido, dados := Receive(s.dados, Some(endereco)))
  {
    TwoAnswers(s, (Typed("2"), late), (Typed(endereco), late), dates);
    DeliveryStep(s);
    AddressStep(TakeMode(s, Typed("2")), Typed(endereco));
  }

  lemma {:induction false} TwoAnswers(s: State, a: (Message, World), b: (Message, World), dates: map<string, int>)
    ensures After(s, [] + [a] + [b], dates) == Next(Next(s, a.0, a.1, dates), b.0, b.1, dates)
  {
    assert After(s, [], dates) == s;
    OneMore(s, [], a.0, a.1, dates);
    OneMore(s, [] + [a], b.0, b.1, dates);
  }

  lemma {:induction false} AddressStep(s: State, m: Message)
    requires s.etapa == EnderecoEntrega && Strip(m.texto) != ""
    ensures TakeAddress(s, m) == s.(etapa := ConfirmarPedido, dados := s.dados.(endereco := Some(Strip(m.texto))))
  {
  }

  lemma {:induction false} DeliveryStep(s: State)
    requires s.etapa == ModoRecebimento && s.dados.horario.Some? && IsClock(s.dados.horario.value)
    requires Minutes(s.dados.horario.value) <= 17 * 60 + 30
    ensures TakeMode(s, Typed("2")) ==
            s.(etapa := EnderecoEntrega, dados := s.dados.(modo := Some(Entrega), taxa := Some(DELIVERY_FEE)))
  {
    AnswerFacts();
    ParseStable(s.dados.horario.value);
  }

  lemma {:induction false} ReceiptGetsThrough(s: State, endereco: Option<string>, dates: map<string, int>, late: World)
    requires s.etapa == ModoRecebimento && s.dados.horario.Some? && IsClock(s.dados.horario.value)
    requires endereco.Some? ==> Strip(endereco.value) != "" && Minutes(s.dados.horario.value) <= 17 * 60 + 30
    ensures After(s, ReceiptAnswers(endereco, late), dates) ==
            s.(etapa := ConfirmarPedido, dados := Receive(s.dados, endereco))
  {
    if endereco.None? {
      PickupGetsThrough(s, dates, late);
    } else {
      DeliveryGetsThrough(s, endereco.value, dates, late);
    }
  }

  lemma {:induction false} ConfirmStep(s: State)
    requires s.etapa == ConfirmarPedido && s.dados.pagamento.None?
    ensures Confirm(s, Typed("1")) ==
            s.(etapa := PagamentoForma, dados := s.dados.(pagamento := Some(Pagamento(None, None))))
  {
    AnswerFacts();
  }

  lemma {:induction false} FormStep(s: State, forma: Forma)
    requires s.etapa == PagamentoForma && s.dados.pagamento == Some(Pagamento(None, None))
    ensures TakeForm(s, Typed(FormaKey(forma))) ==
            if forma != Dinheiro then Pay(s, Some(forma), None)
            else s.(etapa := PagamentoTroco, dados := s.dados.(pagamento := Some(Pagamento(Some(forma), None))))
  {
    AnswerFacts();
  }

  function Paid(d: Dados, forma: Forma, troco: Message): Dados {
    d.(pagamento := Some(Pagamento(Some(forma), if forma == Dinheiro then Some(troco.number) else None)))
  }

  lemma {:induction false} PaymentGetsThrough(s: State, forma: Forma, troco: Message, dates: map<string, int>,
                                              late: World)
    requires s.etapa == ConfirmarPedido && s.dados.pagamento.None? && s.placed == []
    requires forma == Dinheiro ==> Positive(troco.number)
    ensures After(s, PaymentAnswers(forma, troco, late), dates).placed == [OrderOf(Paid(s.dados, forma, troco))]
  {
    var confirm, form := (Typed("1"), late), (Typed(FormaKey(forma)), late);
    assert After(s, [], dates) == s;
    OneMore(s, [], confirm.0, late, dates);
    ConfirmStep(s);
    OneMore(s, [] + [confirm], form.0, late, dates);
    FormStep(Confirm(s, confirm.0), forma);
    OneMore(s, [] + [confirm] + [form], troco, late, dates);
  }

  function ReadyToPay(w: Wish, world: World): State
    requires Lower(Strip(w.cesta)) in CATALOGO
  {
    WithSlot(w, world).(etapa := ConfirmarPedido, dados := Receive(WithSlot(w, world).dados, w.endereco))
  }

  lemma {:induction false} PaidAsWanted(w: Wish, world: World)
    requires Lower(Strip(w.cesta)) in CATALOGO
    ensures ReadyToPay(w, world).dados.pagamento.None?
    ensures OrderOf(Paid(ReadyToPay(w, world).dados, w.forma, w.troco)) == Wanted(w)
  {
  }

  lemma {:induction false} BeforePayment(w: Wish, dates: map<string, int>, early: World, late: World)
    requires Fulfillable(w, dates, early)
    ensures After(START, SlotAnswers(w, early) + ReceiptAnswers(w.endereco, late), dates) == ReadyToPay(w, early)
  {
    SlotGetsThrough(w, dates, early);
    Joined(START, SlotAnswers(w, early), ReceiptAnswers(w.endereco, late), dates);
    SlotIsReady(w, dates, early);
    ReceiptGetsThrough(WithSlot(w, early), w.endereco, dates, late);
  }

  lemma {:induction false} SlotIsReady(w: Wish, dates: map<string, int>, early: World)
    requires Fulfillable(w, dates, early)
    ensures var s := WithSlot(w, early);
      && s.etapa == ModoRecebimento && s.dados.horario.Some? && IsClock(s.dados.horario.value)
      && (w.endereco.Some? ==> Strip(w.endereco.value) != "" && Minutes(s.dados.horario.value) <= 17 * 60 + 30)
  {
  }

  lemma {:induction false} Joined(s: State, a: Talk, b: Talk, dates: map<string, int>)
    ensures After(s, a + b, dates) == After(After(s, a, dates), b, dates)
  {
    RunOn(s, a, b, dates, |b|);
  }

  /** Nothing valid is turned away: every wish the shop can meet, for pickup or delivery and in
      any form of payment, ends in exactly the order wanted. */
  lemma {:induction false} EveryWishGetsThrough(w: Wish, dates: map<string, int>, early: World, late: World)
    requires Fulfillable(w, dates, early)
    ensures After(START, Answers(w, early, late), dates).placed == [Wanted(w)]
  {
    var first := SlotAnswers(w, early) + ReceiptAnswers(w.endereco, late);
    var payment := PaymentAnswers(w.forma, w.troco, late);
    BeforePayment(w, dates, early, late);
    PaidAsWanted(w, early);
    Joined(START, first, payment, dates);
    assert w.forma == Dinheiro ==> Positive(w.troco.number);
    PaymentGetsThrough(ReadyToPay(w, early), w.forma, w.troco, dates, late);
  }

  // ---------------------------------------------------------------- the slot is not checked again

  /** When the slot of a sent order would still pass in a later world of the same shop: exactly
      when neither the day nor the hour is full there; so always when no order came in between. */
  lemma {:induction false} SlotStillFreeIff(ms: Talk, dates: map<string, int>, n: nat, later: World)
    requires n <= |ms| && Run(START, ms, dates, n).placed != []
    requires Run(START, ms, dates, n).slotWorld.Some? && later.shop == Run(START, ms, dates, n).slotWorld.value.shop
    ensures var p := Run(START, ms, dates, n).placed[0];
      && p.data.Some? && p.data.value in dates && p.horario.Some?
      && var day := dates[p.data.value];
        ScheduleOk(dates, later, p.data, p.horario.value) <==>
          && !AnyExceeded(later.shop, later.orders, day, None, All)
          && (Window(later.shop, day).Some? ==> !AnyExceeded(later.shop, later.orders, day, p.horario, All))
  {
    EveryRun(ms, dates, n);
    var s := Run(START, ms, dates, n);
    HonestRecheck(dates, s.slotWorld, s.placed[0], later);
  }

  lemma {:induction false} HonestRecheck(dates: map<string, int>, slotWorld: Option<World>, p: Pedido, later: World)
    requires SlotChecked(dates, slotWorld, p.data, p.horario) && later.shop == slotWorld.value.shop
    ensures var day := dates[p.data.value];
      ScheduleOk(dates, later, p.data, p.horario.value) <==>
        && !AnyExceeded(later.shop, later.orders, day, None, All)
        && (Window(later.shop, day).Some? ==> !AnyExceeded(later.shop, later.orders, day, p.horario, All))
  {
    ParseStable(p.horario.value);
    RecheckIff(later.shop, slotWorld.value.orders, later.orders, dates[p.data.value], p.horario.value);
  }

  /** A run in which the slot fills up between the hour and the payment: the order is sent although
      the check would refuse it by then. */
  lemma {:induction false} FilledSlotIsStillSold() returns (w: Wish, early: World, late: World, dates: map<string, int>)
    ensures early.shop == late.shop
    ensures var s := After(START, Answers(w, early, late), dates);
      && |s.placed| == 1 && s.placed[0].horario.Some?
      && ScheduleOk(dates, early, s.placed[0].data, s.placed[0].horario.value)
      && !ScheduleOk(dates, late, s.placed[0].data, s.placed[0].horario.value)
  {
    var shop := Shop([Slot(5, None, None, All, Some(1))], {}, map[], map[4 := ("09:00", "18:00")]);
    early := World(shop, []);
    late := World(shop, [Order(5, true, "10:00", None)]);
    dates := map["05/01/0001" := 5];
    w := Wish("1", "05/01/0001", "10:00", None, Pix, Typed(""));
    AnswerFacts();
    SlotFacts(shop);
    TenIsRead();
    EveryWishGetsThrough(w, dates, early, late);
  }

  lemma {:induction false} TenIsRead()
    ensures ParseHora("10:00") == Some("10:00") && Strip("05/01/0001") == "05/01/0001"
  {
    assert IsClock("10:00");
    ParseStable("10:00");
  }

  lemma {:induction false} SlotFacts(shop: Shop)
    requires shop == Shop([Slot(5, None, None, All, Some(1))], {}, map[], map[4 := ("09:00", "18:00")])
    ensures ValidateServiceSchedule(shop, [], Some(5), "10:00").None?
    ensures ValidateServiceSchedule(shop, [Order(5, true, "10:00", None)], Some(5), "10:00").Some?
  {
    TenIsRead();
    ClockOrder("09:00", "10:00");
    ClockOrder("10:00", "18:00");
    EmptyIsFree(shop);
    OneIsFull(shop);
  }

  lemma {:induction false} EmptyIsFree(shop: Shop)
    requires shop.slots == [Slot(5, None, None, All, Some(1))]
    ensures forall day, time :: !AnyExceeded(shop, [], day, time, All)
  {
  }

  lemma {:induction false} OneIsFull(shop: Shop)
    requires shop.slots == [Slot(5, None, None, All, Some(1))]
    ensures AnyExceeded(shop, [Order(5, true, "10:00", None)], 5, None, All)
  {
    var one := [Order(5, true, "10:00", None)];
    assert Counted(shop.slots[0], one[0]);
    assert Count(shop.slots[0], one, 0) == 0;
    assert Scheduled(shop.slots[0], one) == 1;
    assert Exceeded(shop.slots[0], one, 5, None, All);
  }

  // ---------------------------------------------------------------- baskets fill no slot

  /** The row that an order of this flow leaves: its date stays DD/MM/AAAA, and its delivery row,
      if any, is of type "cesta_box". */
  function Row(p: Pedido, dates: map<string, int>): Order {
    Order(if p.data.Some? && p.data.value in dates then dates[p.data.value] else 0, false,
          if p.horario.Some? then p.horario.value else "", if p.delivery then Some("cesta_box") else None)
  }

  function Rows(ps: seq<Pedido>, dates: map<string, int>, n: nat): seq<Order>
    requires n <= |ps|
  {
    if n == 0 then [] else Rows(ps, dates, n - 1) + [Row(ps[n - 1], dates)]
  }

  /** However many baskets were ordered here, every schedule check answers as if there were none,
      so a slot with one free place takes any number of them. */
  lemma {:induction false} BasketsFillNoSlot(world: World, ps: seq<Pedido>, dates: map<string, int>, n: nat,
                                             data: Option<string>,
                                             horario: string)
    requires n <= |ps|
    ensures ScheduleOk(dates, world.(orders := world.orders + Rows(ps, dates, n)), data, horario) ==
            ScheduleOk(dates, world, data, horario)
  {
    if n == 0 {
      assert world.orders + [] == world.orders;
    } else {
      var before := world.orders + Rows(ps, dates, n - 1);
      BasketsFillNoSlot(world, ps, dates, n - 1, data, horario);
      OtherDatesUnseen(world.shop, before, Row(ps[n - 1], dates), Day(dates, data), horario);
      assert world.orders + Rows(ps, dates, n) == before + [Row(ps[n - 1], dates)];
    }
  }

  // ---------------------------------------------------------------- the conversation object

  class CestaConversation {
    var etapa: Etapa
    var dados: Dados
    var placed: seq<Pedido>
    ghost var slotWorld: Option<World>

    ghost function View(): State
      reads this
    {
      State(etapa, dados, slotWorld, placed)
    }

    constructor ()
      ensures View() == START
    {
      etapa, dados, placed, slotWorld := Selecao, NO_DADOS, [], None;
    }

    method SalvarPedidoCesta()
      modifies this`placed
      ensures placed == old(placed) + [OrderOf(dados)]
    {
      placed := placed + [OrderOf(dados)];
    }

    /** One message; true when the flow is over. */
    method Process(m: Message, world: World, dates: map<string, int>) returns (finalizar: bool)
      modifies this
      ensures View() == Next(old(View()), m, world, dates)
      ensures finalizar <==> |placed| > |old(placed)|
    {
      finalizar := false;
      var text := Strip(m.texto);
      match etapa {
        case Selecao =>
          if Lower(text) in CATALOGO {
            dados := dados.(cesta := Some(CATALOGO[Lower(text)]));
            etapa := DataEntrega;
          }
        case DataEntrega =>
          if text == "" || text !in dates { return; }
          if ValidateServiceDate(world.shop, world.orders, Some(dates[text])).Some? { return; }
          dados := dados.(data := Some(text));
          etapa := HoraRetirada;
        case HoraRetirada =>
          var horario := ParseHora(m.texto);
          if horario.None? || !ScheduleOk(dates, world, dados.data, horario.value) { return; }
          dados := dados.(horario := horario);
          slotWorld := Some(world);
          etapa := ModoRecebimento;
        case ModoRecebimento =>
          var modo := Lower(text);
          if modo in {"1", "retirada"} {
            dados := dados.(modo := Some(Retirada));
            dados := dados.(endereco := Some(""));
            etapa := ConfirmarPedido;
          } else if modo in {"2", "entrega"} {
            var hora := if dados.horario.Some? then dados.horario.value else "";
            if !HorarioEntregaPermitido(hora) {
              etapa := HoraRetirada;
              return;
            }
            dados := dados.(modo := Some(Entrega));
            dados := dados.(taxa := Some(DELIVERY_FEE));
            etapa := EnderecoEntrega;
          }
        case EnderecoEntrega =>
          if text == "" { return; }
          dados := dados.(endereco := Some(text));
          etapa := ConfirmarPedido;
        case ConfirmarPedido =>
          var resposta := Lower(text);
          if resposta in {"1", "sim", "confirmar"} {
            if dados.pagamento.None? {
              dados := dados.(pagamento := Some(Pagamento(None, None)));
              etapa := PagamentoForma;
            }
          } else if resposta in {"2", "nao", "não", "corrigir"} {
            etapa := Selecao;
            dados := NO_DADOS;
          }
        case PagamentoForma =>
          var forma := FormaOf(text);
          if forma.None? || dados.pagamento.None? { return; }
          dados := dados.(pagamento := Some(dados.pagamento.value.(forma := forma)));
          if forma == Some(Dinheiro) {
            etapa := PagamentoTroco;
            return;
          }
          dados := dados.(pagamento := Some(dados.pagamento.value.(trocoPara := None)));
          etapa := FinalizarVenda;
          SalvarPedidoCesta();
          finalizar := true;
        case PagamentoTroco =>
          if !TrocoAccepted(m.number) || dados.pagamento.None? { return; }
          dados := dados.(pagamento := Some(dados.pagamento.value.(trocoPara := Some(m.number))));
          etapa := FinalizarVenda;
          SalvarPedidoCesta();
          finalizar := true;
        case FinalizarVenda =>
      }
    }
  }
}
