/** Payment data of an order: what the customer's corrections say
    (app/ai/runner.py, app/ai/tool_execution.py) and the rules that every order passes
    (app/ai/tools/_common.py). Amounts are whole cents. */
module Payment {
  import opened Clock
  import opened Wrappers

  const CASH := "Dinheiro"
  const CARD := "Cartão (débito/crédito)"
  const PIX := "PIX"
  const PENDING := "Pendente"
  const INSTALLMENT_MIN_TOTAL := 10000
  const INSTALLMENT_MAX := 2

  datatype PaymentData = PaymentData(forma: string, trocoPara: Option<int>, parcelas: Option<int>)

  datatype Checked = Refused(reason: string) | Accepted(payment: PaymentData)

  // ---------------------------------------------------------------- the payment rules

  function NormalizePaymentData(p: PaymentData): PaymentData {
    p.(trocoPara := if Strip(p.forma) != CASH then None else p.trocoPara,
       parcelas := if p.parcelas.Some? && p.parcelas.value > 1 then p.parcelas else None)
  }

  function ValidateRequiredPaymentData(p: PaymentData): Option<string> {
    if Strip(p.forma) == "" || Strip(p.forma) == PENDING then Some("Forma de pagamento obrigatoria") else None
  }

  function ValidateCashChangeRequirement(p: PaymentData): Option<string> {
    if Strip(p.forma) == CASH && p.trocoPara.None? then Some("Pagamento em dinheiro: pergunte do troco") else None
  }

  function ApplyCardInstallmentRule(p: PaymentData, total: int): PaymentData {
    if Strip(p.forma) != CARD then p.(parcelas := None)
    else if total <= INSTALLMENT_MIN_TOTAL then p.(parcelas := None)
    else if p.parcelas.None? || p.parcelas.value <= 1 then p.(parcelas := None)
    else p.(parcelas := Some(if p.parcelas.value < INSTALLMENT_MAX then p.parcelas.value else INSTALLMENT_MAX))
  }

  /** The order in which every order tool applies the rules. */
  function CheckPayment(raw: PaymentData, total: int): Checked {
    var p := NormalizePaymentData(raw);
    var required := ValidateRequiredPaymentData(p);
    var cash := ValidateCashChangeRequirement(p);
    if required.Some? then Refused(required.value)
    else if cash.Some? then Refused(cash.value)
    else Accepted(ApplyCardInstallmentRule(p, total))
  }

  predicate Several(parcelas: Option<int>) {
    parcelas.Some? && parcelas.value > 1
  }

  /** Every accepted order has change exactly for cash, and instalments exactly for a card order
      above the minimum that asked for some, and then the maximum of two. */
  lemma {:induction false} AcceptedPaymentRules(raw: PaymentData, total: int)
    ensures CheckPayment(raw, total).Accepted? <==>
      Strip(raw.forma) !in {"", PENDING} && (Strip(raw.forma) == CASH ==> raw.trocoPara.Some?)
    ensures CheckPayment(raw, total).Accepted? ==>
      var p := CheckPayment(raw, total).payment;
      && p.forma == raw.forma
      && p.trocoPara == (if Strip(raw.forma) == CASH then raw.trocoPara else None)
      && (p.trocoPara.Some? <==> Strip(p.forma) == CASH)
      && p.parcelas == (if Strip(raw.forma) == CARD && total > INSTALLMENT_MIN_TOTAL && Several(raw.parcelas)
                        then Some(2) else None)
  {
  }

  /** The rules are stable: checking accepted data again changes nothing. */
  lemma {:induction false} CheckIdempotent(raw: PaymentData, total: int)
    requires CheckPayment(raw, total).Accepted?
    ensures CheckPayment(CheckPayment(raw, total).payment, total) == CheckPayment(raw, total)
  {
  }

  // ---------------------------------------------------------------- corrections in the chat

  datatype Forma = Pix | Cartao | Dinheiro

  datatype Modo = Retirada | Entrega

  function FormaName(f: Forma): string {
    match f case Pix => PIX case Cartao => CARD case Dinheiro => CASH
  }

  /** What the extractors find in one user message; the patterns are not modelled. */
  datatype Extract = Extract(blank: bool, modo: Option<Modo>, forma: Option<Forma>, change: Option<int>,
                             installments: Option<int>, hour: Option<string>, removed: Option<string>)

  datatype PaymentBlock = PaymentBlock(forma: Forma, trocoPara: Option<int>, parcelas: Option<int>)

  datatype Corrections = Corrections(modo: Option<Modo>, payment: Option<PaymentBlock>, hour: Option<string>,
                                     removed: Option<string>)

  const NO_CORRECTIONS := Corrections(None, None, None, None)

  /** A message about payment overwrites form, change and instalments together. */
  function BlockOf(e: Extract): PaymentBlock
    requires e.forma.Some?
  {
    PaymentBlock(e.forma.value, if e.forma.value == Dinheiro then e.change else None,
                 if e.forma.value == Cartao then e.installments else None)
  }

  /** The last of the first `n` messages that says something about payment. */
  function LastPayment(es: seq<Extract>, n: nat): Option<PaymentBlock>
    requires n <= |es|
  {
    if n == 0 then None
    else if !es[n - 1].blank && es[n - 1].forma.Some? then Some(BlockOf(es[n - 1]))
    else LastPayment(es, n - 1)
  }

  function LastModo(es: seq<Extract>, n: nat): Option<Modo>
    requires n <= |es|
  {
    if n == 0 then None
    else if !es[n - 1].blank && es[n - 1].modo.Some? then es[n - 1].modo
    else LastModo(es, n - 1)
  }

  function LastHour(es: seq<Extract>, n: nat): Option<string>
    requires n <= |es|
  {
    if n == 0 then None
    else if !es[n - 1].blank && es[n - 1].hour.Some? then es[n - 1].hour
    else LastHour(es, n - 1)
  }

  function LastRemoved(es: seq<Extract>, n: nat): Option<string>
    requires n <= |es|
  {
    if n == 0 then None
    else if !es[n - 1].blank && es[n - 1].removed.Some? then es[n - 1].removed
    else LastRemoved(es, n - 1)
  }

  datatype Subject = OfMode | OfPayment | OfHour | OfRemoval

  predicate About(e: Extract, s: Subject) {
    && !e.blank
    && match s
       case OfMode => e.modo.Some?
       case OfPayment => e.forma.Some?
       case OfHour => e.hour.Some?
       case OfRemoval => e.removed.Some?
  }

  /** Message `i` is the last of the first `n` about a subject. */
  predicate LastAbout(es: seq<Extract>, s: Subject, i: nat, n: nat) {
    i < n <= |es| && About(es[i], s) && forall j :: i < j < n ==> !About(es[j], s)
  }

  predicate NoneAbout(es: seq<Extract>, s: Subject, n: nat) {
    n <= |es| && forall j :: 0 <= j < n ==> !About(es[j], s)
  }

  /** Each field keeps what the last message about it said. */
  lemma {:induction false} LastMention(es: seq<Extract>, i: nat, n: nat)
    requires i < n <= |es|
    ensures LastAbout(es, OfMode, i, n) ==> LastModo(es, n) == es[i].modo
    ensures LastAbout(es, OfHour, i, n) ==> LastHour(es, n) == es[i].hour
    ensures LastAbout(es, OfRemoval, i, n) ==> LastRemoved(es, n) == es[i].removed
    ensures LastAbout(es, OfPayment, i, n) ==>
      LastPayment(es, n) == Some(PaymentBlock(es[i].forma.value,
                                              if es[i].forma == Some(Dinheiro) then es[i].change else None,
                                              if es[i].forma == Some(Cartao) then es[i].installments else None))
  {
    if i < n - 1 { LastMention(es, i, n - 1); }
  }

  /** And says nothing when no message did. */
  lemma {:induction false} NoMention(es: seq<Extract>, n: nat)
    requires n <= |es|
    ensures NoneAbout(es, OfMode, n) ==> LastModo(es, n).None?
    ensures NoneAbout(es, OfHour, n) ==> LastHour(es, n).None?
    ensures NoneAbout(es, OfRemoval, n) ==> LastRemoved(es, n).None?
    ensures NoneAbout(es, OfPayment, n) ==> LastPayment(es, n).None?
  {
    if n > 0 { NoMention(es, n - 1); }
  }

  /** The memory of a session's corrections. */
  class CorrectionMemory {
    var context: Corrections

    constructor ()
      ensures context == NO_CORRECTIONS
    {
      context := NO_CORRECTIONS;
    }

    method Update(e: Extract)
      modifies this
      ensures context == Corrections(
        if !e.blank && e.modo.Some? then e.modo else old(context).modo,
        if !e.blank && e.forma.Some? then Some(BlockOf(e)) else old(context).payment,
        if !e.blank && e.hour.Some? then e.hour else old(context).hour,
        if !e.blank && e.removed.Some? then e.removed else old(context).removed)
    {
      if e.blank {
        return;
      }
      var updated := context;
      if e.modo.Some? { updated := updated.(modo := e.modo); }
      if e.forma.Some? {
        var troco := if e.forma.value == Dinheiro then e.change else None;
        var parcelas := if e.forma.value == Cartao then e.installments else None;
        updated := updated.(payment := Some(PaymentBlock(e.forma.value, troco, parcelas)));
      }
      if e.hour.Some? { updated := updated.(hour := e.hour); }
      if e.removed.Some? { updated := updated.(removed := e.removed); }
      context := updated;
    }

    /** Over any messages each field is what the last message mentioning it said. */
    method UpdateAll(es: seq<Extract>)
      requires context == NO_CORRECTIONS
      modifies this
      ensures context ==
        Corrections(LastModo(es, |es|), LastPayment(es, |es|), LastHour(es, |es|), LastRemoved(es, |es|))
    {
      for i := 0 to |es|
        invariant context == Corrections(LastModo(es, i), LastPayment(es, i), LastHour(es, i), LastRemoved(es, i))
      {
        Update(es[i]);
      }
    }
  }

  // ---------------------------------------------------------------- corrections meet the model's order

  /** The arguments the model proposes for an order, as far as corrections touch them. */
  datatype OrderArguments = OrderArguments(modo: Option<Modo>, endereco: Option<string>, taxaEntrega: Option<int>,
                                           pagamento: Option<PaymentData>, horario: Option<string>)

  function ApplyCorrections(a: OrderArguments, c: Corrections): OrderArguments {
    var withModo :=
      if c.modo.None? then a
      else if c.modo.value == Retirada
        then a.(modo := c.modo, endereco := None, taxaEntrega := if a.taxaEntrega.Some? then Some(0) else None)
      else a.(modo := c.modo);
    var withPayment :=
      if c.payment.None? then withModo
      else withModo.(pagamento := Some(PaymentData(FormaName(c.payment.value.forma),
        if c.payment.value.forma == Dinheiro then c.payment.value.trocoPara else None,
        if c.payment.value.forma == Cartao then c.payment.value.parcelas else None)));
    if c.hour.None? then withPayment else withPayment.(horario := c.hour)
  }

  /** The last word on how the order is received decides too: a pickup drops the address and the
      fee that the model proposed, a delivery leaves both to the model; the last hour replaces the
      proposed one, and what was never mentioned stays as proposed. */
  lemma {:induction false} LastWordDecidesOrder(es: seq<Extract>, i: nat, a: OrderArguments, c: Corrections)
    requires c.modo == LastModo(es, |es|) && c.payment == LastPayment(es, |es|) && c.hour == LastHour(es, |es|)
    ensures var r := ApplyCorrections(a, c);
      && (LastAbout(es, OfMode, i, |es|) ==>
            && r.modo == es[i].modo
            && (es[i].modo == Some(Retirada) ==>
                  r.endereco.None? && r.taxaEntrega == if a.taxaEntrega.Some? then Some(0) else None)
            && (es[i].modo == Some(Entrega) ==> r.endereco == a.endereco && r.taxaEntrega == a.taxaEntrega))
      && (LastAbout(es, OfHour, i, |es|) ==> r.horario == es[i].hour)
      && (NoneAbout(es, OfMode, |es|) ==>
            r.modo == a.modo && r.endereco == a.endereco && r.taxaEntrega == a.taxaEntrega)
      && (NoneAbout(es, OfHour, |es|) ==> r.horario == a.horario)
      && (NoneAbout(es, OfPayment, |es|) ==> r.pagamento == a.pagamento)
  {
    if i < |es| { LastMention(es, i, |es|); }
    NoMention(es, |es|);
  }

  lemma {:induction false} FormNames()
    ensures Strip(PIX) == PIX && Strip(CARD) == CARD && Strip(CASH) == CASH
    ensures PIX != CASH && PIX != CARD && CARD != CASH
    ensures forall f :: FormaName(f) !in {"", PENDING}
  {
  }

  /** The customer's last word on payment decides, whatever the model proposes: the order is
      paid in that form; cash is accepted exactly when that very message named the change; and
      a card is split in two exactly when that message asked for instalments and the total
      allows them. */
  lemma {:induction false} LastWordDecidesPayment(es: seq<Extract>, a: OrderArguments, c: Corrections, total: int)
    requires c.payment == LastPayment(es, |es|) && c.payment.Some?
    ensures var said := LastPayment(es, |es|).value;
      var proposed := ApplyCorrections(a, c).pagamento;
      && proposed.Some?
      && var checked := CheckPayment(proposed.value, total);
        && (checked.Accepted? <==> (said.forma == Dinheiro ==> said.trocoPara.Some?))
        && (checked.Accepted? ==>
              && checked.payment.forma == FormaName(said.forma)
              && checked.payment.trocoPara == (if said.forma == Dinheiro then said.trocoPara else None)
              && checked.payment.parcelas ==
                   (if said.forma == Cartao && total > INSTALLMENT_MIN_TOTAL && Several(said.parcelas)
                    then Some(2) else None))
  {
    FormNames();
    AcceptedPaymentRules(ApplyCorrections(a, c).pagamento.value, total);
  }

  /** Naming the form again without an amount forgets the change named before. */
  lemma {:induction false} RepeatingCashForgetsChange(es: seq<Extract>, e: Extract, a: OrderArguments,
                                                      c: Corrections, total: int)
    requires !e.blank && e.forma == Some(Dinheiro) && e.change.None?
    requires c.payment == LastPayment(es + [e], |es| + 1)
    ensures ApplyCorrections(a, c).pagamento.Some?
    ensures CheckPayment(ApplyCorrections(a, c).pagamento.value, total).Refused?
  {
  }
}
