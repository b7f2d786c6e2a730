/** What the checkout, refund and reconciliation handlers do to the state, one atomic step each. */
module Settlement {
  import opened PosTypes
  import opened Money
  import opened Store
  import opened TillSessions
  import Outbox = FabricOutbox

  // ---- pricing a cart ----

  function Priced(line: LineIn, unitPrice: int, rate: Rate): Line
    requires ValidRate(rate)
  {
    var subtotal := unitPrice * line.quantity;
    var tax := ComputeLineTax(subtotal, rate, line.taxable);
    Line(line, unitPrice, tax, subtotal + tax)
  }

  predicate AllPriced(lines: seq<LineIn>, prices: map<string, int>) {
    forall k :: 0 <= k < |lines| ==> lines[k].sku in prices
  }

  function PricedCart(lines: seq<LineIn>, prices: map<string, int>, rate: Rate): (cart: seq<Line>)
    requires ValidRate(rate) && AllPriced(lines, prices)
    ensures |cart| == |lines|
  {
    seq(|lines|, k requires 0 <= k < |lines| => Priced(lines[k], prices[lines[k].sku], rate))
  }

  /** The stored line is the line asked for, at the SKU's price, with the tax due on it. */
  ghost predicate PricedFrom(cart: seq<Line>, lines: seq<LineIn>, prices: map<string, int>, rate: Rate)
    requires ValidRate(rate)
  {
    && |cart| == |lines|
    && forall k :: 0 <= k < |cart| ==>
         && cart[k].item == lines[k] && lines[k].sku in prices && cart[k].unitPrice == prices[lines[k].sku]
         && IsLineTax(prices[lines[k].sku] * lines[k].quantity, rate, lines[k].taxable, cart[k].tax)
         && cart[k].lineTotal == prices[lines[k].sku] * lines[k].quantity + cart[k].tax
  }

  lemma PricedCartIs(lines: seq<LineIn>, prices: map<string, int>, rate: Rate)
    requires ValidRate(rate) && AllPriced(lines, prices)
    ensures PricedFrom(PricedCart(lines, prices, rate), lines, prices, rate)
  {
    hide IsLineTax, ComputeLineTax;
    var cart := PricedCart(lines, prices, rate);
    forall k | 0 <= k < |cart|
      ensures IsLineTax(prices[lines[k].sku] * lines[k].quantity, rate, lines[k].taxable, cart[k].tax)
    {
      LineTaxIs(prices[lines[k].sku] * lines[k].quantity, rate, lines[k].taxable, cart[k].tax);
    }
  }

  function Subtotals(cart: seq<Line>): seq<int> {
    seq(|cart|, k requires 0 <= k < |cart| => cart[k].unitPrice * cart[k].item.quantity)
  }

  function Taxes(cart: seq<Line>): seq<int> {
    seq(|cart|, k requires 0 <= k < |cart| => cart[k].tax)
  }

  function LineTotals(cart: seq<Line>): seq<int> {
    seq(|cart|, k requires 0 <= k < |cart| => cart[k].lineTotal)
  }

  /** The SKUs the cart asks for that have no price, each once, in order of first appearance. */
  function MissingSkus(lines: seq<LineIn>, prices: map<string, int>): seq<string> {
    if lines == [] then []
    else
      var before := MissingSkus(lines[..|lines| - 1], prices);
      var sku := lines[|lines| - 1].sku;
      if sku in prices || sku in before then before else before + [sku]
  }

  function NewSale(s: State, cart: seq<Line>, cashier: string): Txn {
    var subtotal, tax := Sum(Subtotals(cart)), Sum(Taxes(cart));
    Txn(Sale, PendingValidation, None, None, cart, subtotal, tax, subtotal + tax, None, [], None, None,
        cashier, s.config.station, None, s.box.clock / Outbox.SECOND * Outbox.SECOND)
  }

  function StartCheckout(s: State, id: TxnId, lines: seq<LineIn>, cashier: string, prices: map<string, int>)
    : (State, Reply)
    requires ValidRate(s.config.rate)
  {
    if !AllPriced(lines, prices) then (s, Rejected(PriceMissing(MissingSkus(lines, prices))))
    else if id in s.rows then (s, Rejected(DuplicateKey))
    else
      (AddCall(SetRow(s, id, NewSale(s, PricedCart(lines, prices, s.config.rate), cashier)), ValidateCart(id)),
       Accepted)
  }

  datatype CartAnswer = CartValid | CartInvalid | SentryDown

  function ValidationAnswered(s: State, c: nat, answer: CartAnswer): (State, Reply) {
    if c !in s.calls || !s.calls[c].ValidateCart? || s.calls[c].txn !in s.rows then (s, Rejected(NoSuchCall))
    else
      var st := if answer.CartValid? then AwaitingPayment else ValidationFailed;
      (DropCall(SetStatus(s, s.calls[c].txn, st), c),
       match answer
       case CartValid => Accepted
       case CartInvalid => Rejected(CartConflicts)
       case SentryDown => Rejected(SentryUnavailable))
  }

  // ---- taking payment ----

  function LoadForPayment(s: State, id: TxnId): Reply {
    if id !in s.rows then Rejected(TransactionNotFound)
    else if s.rows[id].kind != Sale then Rejected(InvalidState(s.rows[id].status))
    else if s.rows[id].status != AwaitingPayment then Rejected(InvalidState(s.rows[id].status))
    else Accepted
  }

  /** Commit a successful payment and send the row to Sentry. */
  function PaySuccess(s: State, id: TxnId, payment: Option<Method>, ref: Option<string>, tenders: seq<Tender>): State
    requires id in s.rows
  {
    SendTo(SetRow(s, id, s.rows[id].(status := SuccessStatus(s.rows[id].kind), payment := payment,
                                     windcaveRef := ref, tenders := tenders)),
           id, FirstSend(id))
  }

  function ChargeCash(s: State, id: TxnId, tendered: int): (State, Reply) {
    if LoadForPayment(s, id).Rejected? then (s, LoadForPayment(s, id))
    else if tendered < s.rows[id].total then (s, Rejected(InsufficientTender(s.rows[id].total)))
    else
      var total := s.rows[id].total;
      (PaySuccess(s, id, Some(Cash), s.rows[id].windcaveRef, [CashTender(total, tendered, tendered - total)]),
       Accepted)
  }

  function Abs(x: int): int { if x < 0 then -x else x }

  /** `amount or fallback`: the terminal's amount unless it is missing or zero. */
  function AmountOr(result: WindcaveResult, fallback: int): int {
    if result.amount.Some? && result.amount.value != 0 then result.amount.value else fallback
  }

  /** The end of a card payment or card refund: a complete answer decides it. */
  function FinalizeCard(s: State, id: TxnId, answer: WindcaveAnswer): State
    requires id in s.rows
  {
    var row := s.rows[id];
    if answer.signatureRequired || !answer.Approved() then SetStatus(s, id, FailedStatus(row.kind))
    else
      var result := answer.result.value;
      var amount := if row.kind.Sale? then AmountOr(result, row.total) else -AmountOr(result, Abs(row.total));
      PaySuccess(s, id, if row.kind.Sale? then Some(Card) else row.payment, result.card.ref,
                 [CardTender(amount, result.card)])
  }

  /** What `charge_card` writes once Windcave has replied; it does not look at the row's status again. */
  function CardCharged(s: State, id: TxnId, reply: WindcaveReply): (State, Reply)
    requires id in s.rows
  {
    match reply
    case Unavailable => (SetStatus(s, id, PaymentFailed), Rejected(WindcaveUnavailable))
    case Answered(answer) =>
      var withMethod := SetRow(s, id, s.rows[id].(payment := Some(Card)));
      (if answer.complete then FinalizeCard(withMethod, id, answer) else SetStatus(withMethod, id, PaymentInFlight),
       Accepted)
  }

  function ChargeCard(s: State, id: TxnId, reply: WindcaveReply): (State, Reply) {
    if LoadForPayment(s, id).Rejected? then (s, LoadForPayment(s, id))
    else CardCharged(s, id, reply)
  }

  function CancelCheckout(s: State, id: TxnId): (State, Reply) {
    if id !in s.rows then (s, Rejected(TransactionNotFound))
    else if s.rows[id].status !in {AwaitingPayment, PaymentInFlight} then
      (s, Rejected(InvalidState(s.rows[id].status)))
    else (SetStatus(s, id, Cancelled), Accepted)
  }

  /** The tail of either poller: nothing unless the row is still in flight. */
  function PollFinished(s: State, id: TxnId, kind: Kind, final: Option<WindcaveAnswer>): State {
    if id !in s.rows || s.rows[id].status != InFlightStatus(kind) then s
    else
      match final
      case None => SetStatus(s, id, FailedStatus(kind))
      case Some(answer) => FinalizeCard(s, id, answer)
  }

  // ---- refunds ----

  const DAY: int := 86400 * Outbox.SECOND

  function BlockingRefunds(s: State, original: TxnId): set<TxnId> {
    set r | r in s.rows && s.rows[r].parent == Some(original) && RefundBlocking(s.rows[r].status)
  }

  function LookupRefund(s: State, original: TxnId): Reply {
    if original !in s.rows then Rejected(TransactionNotFound)
    else if s.rows[original].kind != Sale then Rejected(NotACompletedSale(s.rows[original].status))
    else if s.rows[original].status != Complete then Rejected(NotACompletedSale(s.rows[original].status))
    else
      var days := (s.box.clock - s.rows[original].createdAt) / DAY;
      if days > s.config.refundWindowDays then Rejected(RefundWindowExpired(days))
      else if BlockingRefunds(s, original) != {} then Rejected(AlreadyRefunded)
      else Accepted
  }

  function Negated(line: Line): Line {
    line.(item := line.item.(quantity := -line.item.quantity), tax := -line.tax, lineTotal := -line.lineTotal)
  }

  function NegatedCart(cart: seq<Line>): seq<Line> {
    seq(|cart|, k requires 0 <= k < |cart| => Negated(cart[k]))
  }

  function NewRefund(s: State, original: TxnId, cashier: string): Txn
    requires original in s.rows
  {
    var sale := s.rows[original];
    Txn(Refund, RefundPending, Some(original), None, NegatedCart(sale.cart), -sale.subtotal, -sale.tax, -sale.total,
        sale.payment, [], None, None, cashier, sale.terminal, None, s.box.clock / Outbox.SECOND * Outbox.SECOND)
  }

  function StartRefund(s: State, id: TxnId, original: TxnId, cashier: string): (State, Reply) {
    if LookupRefund(s, original).Rejected? then (s, LookupRefund(s, original))
    else if id in s.rows then (s, Rejected(DuplicateKey))
    else (SetRow(s, id, NewRefund(s, original, cashier)), Accepted)
  }

  function LoadRefundForPayment(s: State, id: TxnId): Reply {
    if id !in s.rows || s.rows[id].kind != Refund then Rejected(TransactionNotFound)
    else if s.rows[id].status != RefundPending then Rejected(InvalidState(s.rows[id].status))
    else Accepted
  }

  function ChargeCashRefund(s: State, id: TxnId): (State, Reply) {
    if LoadRefundForPayment(s, id).Rejected? then (s, LoadRefundForPayment(s, id))
    else if s.rows[id].payment != Some(Cash) then (s, Rejected(TenderMismatch(Cash)))
    else
      (PaySuccess(s, id, s.rows[id].payment, s.rows[id].windcaveRef, [CashPayout(s.rows[id].total)]), Accepted)
  }

  /** What `charge_card_refund` writes once Windcave has replied; it does not look at the row's status again. */
  function RefundCharged(s: State, id: TxnId, reply: WindcaveReply): (State, Reply)
    requires id in s.rows
  {
    match reply
    case Unavailable => (SetStatus(s, id, RefundPaymentFailed), Rejected(WindcaveUnavailable))
    case Answered(answer) =>
      (if answer.complete then FinalizeCard(s, id, answer) else SetStatus(s, id, RefundPaymentInFlight), Accepted)
  }

  function ChargeCardRefund(s: State, id: TxnId, reply: WindcaveReply): (State, Reply) {
    if LoadRefundForPayment(s, id).Rejected? then (s, LoadRefundForPayment(s, id))
    else if s.rows[id].payment != Some(Card) then (s, Rejected(TenderMismatch(Card)))
    else if !HasParent(s.rows, s.rows[id]) || s.rows[s.rows[id].parent.value].windcaveRef in {None, Some("")} then
      (s, Rejected(MissingOriginalDpsTxnRef))
    else RefundCharged(s, id, reply)
  }

  function CancelRefund(s: State, id: TxnId): (State, Reply) {
    if id !in s.rows || s.rows[id].kind != Refund then (s, Rejected(TransactionNotFound))
    else if s.rows[id].status !in {RefundPending, RefundPaymentInFlight} then
      (s, Rejected(InvalidState(s.rows[id].status)))
    else (SetStatus(s, id, Cancelled), Accepted)
  }

  // ---- Sentry ----

  /** Sentry handles a request it was sent: the first with a key is recorded, any other replays that order. */
  function SentryRecords(s: State, request: Request, soId: SoId): State {
    if request in s.wire && request.key !in s.orders
       && (forall k :: k in s.orders ==> s.orders[k].soId != soId)
    then s.(orders := s.orders[request.key := Order(soId, request)])
    else s
  }

  /** The row becomes COMPLETE with Sentry's order, and a refund's sale is linked to it in the same commit. */
  function CompletedRows(rows: Rows, id: TxnId, soId: SoId): Rows
    requires id in rows
  {
    var row := rows[id];
    var rows1 := rows[id := row.(status := Complete, so := Some(soId))];
    if row.kind.Refund? && HasParent(rows1, row)
    then rows1[row.parent.value := rows1[row.parent.value].(refundTxn := Some(id))]
    else rows1
  }

  function Completed(s: State, id: TxnId, soId: SoId): State
    requires id in s.rows
  {
    s.(rows := CompletedRows(s.rows, id, soId))
  }

  function Enqueued(s: State, id: TxnId): State
    requires id in s.rows
  {
    s.(box := s.box.(entries := s.box.entries
         + [Outbox.NewEntry(id, BuildPayload(id, s.rows[id]), s.box.clock)]))
  }

  /** The continuation of the first send. */
  ghost function FirstAnswered(s: State, id: TxnId, ok: bool): State
    requires id in s.rows && (ok ==> id in s.orders)
  {
    if ok then Enqueued(Attribute(Completed(s, id, s.orders[id].soId), id, s.rows[id].kind.Refund?), id)
    else Enqueued(SetStatus(s, id, UnrecordedStatus(s.rows[id].kind)), id)
  }

  /** The continuation of a retry: success completes the row, failure leaves it for the next retry. */
  function RetryAnswered(s: State, id: TxnId, ok: bool): State
    requires id in s.rows && (ok ==> id in s.orders)
  {
    if ok then Completed(s, id, s.orders[id].soId) else s
  }

  /** The service hears back about a call.  A success carries the order Sentry holds for the key, so there is none
      before Sentry has recorded one; an error may come whether or not it has. */
  ghost function SentryAnswers(s: State, c: nat, ok: bool): State {
    if c !in s.calls || s.calls[c].txn !in s.rows || (ok && s.calls[c].txn !in s.orders) then s
    else
      var id := s.calls[c].txn;
      match s.calls[c]
      case ValidateCart(_) => s
      case FirstSend(_) => FirstAnswered(DropCall(s, c), id, ok)
      case Resend(_) => RetryAnswered(DropCall(s, c), id, ok)
  }

  function RetrySentry(s: State, id: TxnId): (State, Reply) {
    if id !in s.rows then (s, Rejected(TransactionNotFound))
    else if s.rows[id].status != UnrecordedStatus(s.rows[id].kind) then
      (s, Rejected(InvalidState(s.rows[id].status)))
    else (SendTo(s, id, Resend(id)), Accepted)
  }

  /** The batch commands send every row their query found without looking at it again; by then another retry may
      have completed it. */
  function BatchResend(s: State, id: TxnId): State {
    if id in s.rows && Settled(s.rows[id].status) then SendTo(s, id, Resend(id)) else s
  }
}
