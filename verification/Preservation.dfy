/** Each handler's writes keep the invariant. */
module Preservation {
  import opened PosTypes
  import opened Money
  import opened Sums
  import opened Store
  import opened TillSessions
  import opened Settlement
  import opened Invariants
  import opened Writes
  import Outbox = FabricOutbox

  predicate NoCallFor(calls: Calls, id: TxnId) {
    forall c :: c in calls ==> calls[c].txn != id
  }

  // ---- reading facts off the invariant ----

  lemma RowFacts(s: State, id: TxnId)
    requires Inv(s) && id in s.rows
    ensures RowOk(s.rows[id]) && ParentOk(s.rows, id) && CartsOk(s.rates, s.rows)
  {
    hide RemoteOk, LocalOk;
  }

  lemma RateOk(s: State)
    requires Inv(s)
    ensures ValidRate(s.config.rate) && s.config.rate in s.rates
  {
  }

  lemma Parts(s: State)
    requires Inv(s)
    ensures BooksOk(s.rates, s.rows) && ParentsOk(s.rows)
    ensures RemoteOk(s.rows, s.wire, s.orders, s.calls, s.nextCall)
    ensures LocalOk(s.rows, s.box.entries, s.sessions)
    ensures EntriesOk(s.rows, s.box.entries) && TillsOk(s.rows, s.sessions)
  {
    hide RowsOk, CartsOk, ParentsOk, Exclusive, LinksOk, LedgerOk, RemoteOk, EntriesOk, TillsOk, Outbox.BoxOk;
  }

  /** A row whose cart is not being validated and that has not been paid has no call outstanding. */
  lemma UnpaidQuiet(s: State, id: TxnId)
    requires Inv(s) && id in s.rows && !Paid(s.rows[id].status) && s.rows[id].status != PendingValidation
    ensures NoCallFor(s.calls, id)
  {
    hide BooksOk, LocalOk;
    forall c | c in s.calls ensures s.calls[c].txn != id {
      assert CallOk(s.rows, s.wire, s.calls[c]);
    }
  }

  /** Once a first call is answered nothing else is outstanding for its row. */
  lemma AnsweredQuiet(s: State, c: nat)
    requires Inv(s) && c in s.calls && !s.calls[c].Resend?
    ensures NoCallFor(DropCall(s, c).calls, s.calls[c].txn)
    ensures CallOk(s.rows, s.wire, s.calls[c])
  {
    hide BooksOk, LocalOk;
    var id := s.calls[c].txn;
    assert FirstCall(s.calls, c, id);
    forall d | d in s.calls && d != c ensures s.calls[d].txn != id {
      assert CallOk(s.rows, s.wire, s.calls[c]) && CallOk(s.rows, s.wire, s.calls[d]);
      assert s.calls[d].txn == id ==> !FirstCall(s.calls, d, id);
    }
  }

  // ---- the writes the handlers are made of ----

  lemma DroppedCall(s: State, c: nat)
    requires Inv(s)
    ensures Inv(DropCall(s, c))
  {
    hide BooksOk, LocalOk;
    var after := DropCall(s, c);
    assert forall d, id :: FirstCall(after.calls, d, id) ==> FirstCall(s.calls, d, id);
  }

  /** A row that is not yet settled changes without being completed. */
  lemma OpenWrite(s: State, id: TxnId, row: Txn)
    requires Inv(s) && id in s.rows && NoCallFor(s.calls, id)
    requires Grows(s.rows[id], row) && RowOk(row) && !Settled(row.status)
    requires row.refundTxn == s.rows[id].refundTxn && row.so == s.rows[id].so && row.session == s.rows[id].session
    requires row.kind.Refund? && RefundBlocking(row.status) ==> RefundBlocking(s.rows[id].status) || Alone(s.rows, id)
    ensures Inv(SetRow(s, id, row))
  {
    RowFacts(s, id);
    hide RemoteOk, LocalOk, RowsOk, CartsOk, Exclusive, LinksOk, LedgerOk;
    GrowBooks(s.rates, s.rows, id, row);
    GrowRemote(s.rows, s.wire, s.orders, s.calls, s.nextCall, id, row);
    GrowLocal(s.rows, s.box.entries, s.sessions, id, row);
  }

  /** An unpaid row moves to another unpaid status. */
  lemma UnpaidWrite(s: State, id: TxnId, st: Status, payment: Option<Method>)
    requires Inv(s) && id in s.rows && NoCallFor(s.calls, id)
    requires !Paid(s.rows[id].status) && !Paid(st)
    requires RowOk(s.rows[id].(status := st, payment := payment))
    requires s.rows[id].kind.Refund? ==> payment == s.rows[id].payment
    requires s.rows[id].kind.Refund? && RefundBlocking(st) ==> RefundBlocking(s.rows[id].status) || Alone(s.rows, id)
    ensures Inv(SetRow(s, id, s.rows[id].(status := st, payment := payment)))
  {
    hide Inv;
    OpenWrite(s, id, s.rows[id].(status := st, payment := payment));
  }

  lemma Insert(s: State, id: TxnId, row: Txn)
    requires Inv(s) && id !in s.rows && RowOk(row) && CartPriced(s.rates, row) && !Paid(row.status)
    requires row.kind.Refund? ==> HasParent(s.rows, row) && RefundOf(row, s.rows[row.parent.value])
    requires row.kind.Refund? ==> forall r :: !Blocks(s.rows, r, row.parent.value)
    ensures Inv(SetRow(s, id, row)) && NoCallFor(s.calls, id)
  {
    hide RemoteOk, LocalOk, RowsOk, CartsOk, Exclusive, LinksOk, LedgerOk;
    FreshBooks(s.rates, s.rows, id, row);
    FreshRemote(s.rows, s.wire, s.orders, s.calls, s.nextCall, id, row);
    FreshLocal(s.rows, s.box.entries, s.sessions, id, row);
  }

  lemma NewCall(rows: Rows, wire: set<Request>, orders: Orders, calls: Calls, nextCall: nat, call: Call)
    requires RemoteOk(rows, wire, orders, calls, nextCall) && CallOk(rows, wire, call)
    requires !call.Resend? ==> NoCallFor(calls, call.txn)
    ensures RemoteOk(rows, wire, orders, calls[nextCall := call], nextCall + 1)
  {
    var after := calls[nextCall := call];
    forall c, d, id | FirstCall(after, c, id) && FirstCall(after, d, id) ensures c == d {
      assert c != nextCall ==> FirstCall(calls, c, id);
      assert d != nextCall ==> FirstCall(calls, d, id);
    }
  }

  /** Putting a paid row's request on the wire. */
  lemma NewRequest(rows: Rows, wire: set<Request>, orders: Orders, calls: Calls, nextCall: nat, id: TxnId)
    requires RemoteOk(rows, wire, orders, calls, nextCall) && CanRequest(rows, id) && Paid(rows[id].status)
    ensures RemoteOk(rows, wire + {RequestFor(rows, id)}, orders, calls, nextCall)
  {
    var more := wire + {RequestFor(rows, id)};
    forall c | c in calls ensures CallOk(rows, more, calls[c]) {
      assert CallOk(rows, wire, calls[c]);
    }
    forall r | r in more ensures RequestOk(rows, r) {
      if r in wire { assert RequestOk(rows, r); }
    }
  }

  lemma Sent(s: State, id: TxnId, call: Call)
    requires Inv(s) && CanRequest(s.rows, id) && Paid(s.rows[id].status)
    requires if Settled(s.rows[id].status) then call == Resend(id)
             else call == FirstSend(id) && s.rows[id].status == SuccessStatus(s.rows[id].kind) && NoCallFor(s.calls, id)
    ensures Inv(SendTo(s, id, call))
  {
    hide BooksOk, RemoteOk, LocalOk;
    NewRequest(s.rows, s.wire, s.orders, s.calls, s.nextCall, id);
    NewCall(s.rows, s.wire + {RequestFor(s.rows, id)}, s.orders, s.calls, s.nextCall, call);
  }

  lemma PaySuccessKeeps(s: State, id: TxnId, payment: Option<Method>, ref: Option<string>, tenders: seq<Tender>)
    requires Inv(s) && id in s.rows && NoCallFor(s.calls, id) && !Paid(s.rows[id].status)
    requires s.rows[id].kind.Refund? ==> RefundBlocking(s.rows[id].status) || Alone(s.rows, id)
    requires s.rows[id].kind.Refund? ==> payment == s.rows[id].payment
    requires RowOk(s.rows[id].(status := SuccessStatus(s.rows[id].kind), payment := payment,
                               windcaveRef := ref, tenders := tenders))
    ensures Inv(PaySuccess(s, id, payment, ref, tenders))
  {
    hide Inv;
    var row := s.rows[id].(status := SuccessStatus(s.rows[id].kind), payment := payment,
                           windcaveRef := ref, tenders := tenders);
    RowFacts(s, id);
    OpenWrite(s, id, row);
    Sent(SetRow(s, id, row), id, FirstSend(id));
  }

  // ---- carts ----

  lemma PricedCartAddsUp(rate: Rate, cart: seq<Line>)
    requires ValidRate(rate) && forall k :: 0 <= k < |cart| ==> LineOk(rate, cart[k])
    ensures Sum(LineTotals(cart)) == Sum(Subtotals(cart)) + Sum(Taxes(cart))
  {
    forall k | 0 <= k < |cart| ensures LineTotals(cart)[k] == 1 * Subtotals(cart)[k] + 1 * Taxes(cart)[k] {
      assert LineOk(rate, cart[k]);
    }
    SumLinear(Subtotals(cart), Taxes(cart), LineTotals(cart), 1, 1);
  }

  lemma NegatedCartOk(rate: Rate, sale: Txn, refund: Txn)
    requires ValidRate(rate) && CartOk(rate, sale)
    requires refund.cart == NegatedCart(sale.cart) && refund.subtotal == -sale.subtotal
    requires refund.tax == -sale.tax && refund.total == -sale.total
    ensures CartOk(rate, refund)
  {
    var cart, neg := sale.cart, refund.cart;
    forall k | 0 <= k < |neg|
      ensures LineOk(rate, neg[k]) && Subtotals(neg)[k] == -Subtotals(cart)[k]
    {
      var line := cart[k];
      assert LineOk(rate, line);
      LineTaxOfNegatedLine(line.unitPrice * line.item.quantity, rate, line.item.taxable);
      assert line.unitPrice * -line.item.quantity == -(line.unitPrice * line.item.quantity);
    }
    SumLinear(Subtotals(cart), Subtotals(cart), Subtotals(neg), -1, 0);
    SumLinear(Taxes(cart), Taxes(cart), Taxes(neg), -1, 0);
    SumLinear(LineTotals(cart), LineTotals(cart), LineTotals(neg), -1, 0);
  }

  // ---- checkout ----

  lemma StartCheckoutKeeps(s: State, id: TxnId, lines: seq<LineIn>, cashier: string, prices: map<string, int>)
    requires Inv(s)
    ensures Inv(StartCheckout(s, id, lines, cashier, prices).0)
  {
    hide Inv;
    RateOk(s);
    if AllPriced(lines, prices) && id !in s.rows {
      var rate := s.config.rate;
      var cart := PricedCart(lines, prices, rate);
      var row := NewSale(s, cart, cashier);
      forall k | 0 <= k < |cart| ensures LineOk(rate, cart[k]) {
        assert cart[k] == Priced(lines[k], prices[lines[k].sku], rate);
      }
      PricedCartAddsUp(rate, cart);
      assert CartOk(rate, row);
      Insert(s, id, row);
      Validating(SetRow(s, id, row), id);
    }
  }

  lemma Validating(s: State, id: TxnId)
    requires Inv(s) && id in s.rows && s.rows[id].status == PendingValidation && NoCallFor(s.calls, id)
    ensures Inv(AddCall(s, ValidateCart(id)))
  {
    hide BooksOk, RemoteOk, LocalOk;
    NewCall(s.rows, s.wire, s.orders, s.calls, s.nextCall, ValidateCart(id));
  }

  lemma ValidationAnsweredKeeps(s: State, c: nat, answer: CartAnswer)
    requires Inv(s)
    ensures Inv(ValidationAnswered(s, c, answer).0)
  {
    hide Inv;
    if c in s.calls && s.calls[c].ValidateCart? && s.calls[c].txn in s.rows {
      var id := s.calls[c].txn;
      AnsweredQuiet(s, c);
      DroppedCall(s, c);
      RowFacts(s, id);
      UnpaidWrite(DropCall(s, c), id, if answer.CartValid? then AwaitingPayment else ValidationFailed,
                  s.rows[id].payment);
    }
  }

  lemma ChargeCashKeeps(s: State, id: TxnId, tendered: int)
    requires Inv(s)
    ensures Inv(ChargeCash(s, id, tendered).0)
  {
    hide Inv;
    if LoadForPayment(s, id).Accepted? && s.rows[id].total <= tendered {
      UnpaidQuiet(s, id);
      var total := s.rows[id].total;
      RowFacts(s, id);
      PaySuccessKeeps(s, id, Some(Cash), s.rows[id].windcaveRef, [CashTender(total, tendered, tendered - total)]);
    }
  }

  lemma PaidByCard(row: Txn, amount: int, card: CardInfo)
    requires RowOk(row) && !Paid(row.status)
    ensures RowOk(row.(status := SuccessStatus(row.kind), payment := Some(Card), windcaveRef := card.ref,
                       tenders := [CardTender(amount, card)]))
  {
  }

  lemma FinalizeCardKeeps(s: State, id: TxnId, answer: WindcaveAnswer)
    requires Inv(s) && id in s.rows && NoCallFor(s.calls, id) && !Paid(s.rows[id].status)
    requires s.rows[id].kind.Refund? ==>
               s.rows[id].payment == Some(Card) && (RefundBlocking(s.rows[id].status) || Alone(s.rows, id))
    ensures Inv(FinalizeCard(s, id, answer))
  {
    hide Inv, CartsOk, ParentOk, SendTo;
    RowFacts(s, id);
    if answer.signatureRequired || !answer.Approved() {
      UnpaidWrite(s, id, FailedStatus(s.rows[id].kind), s.rows[id].payment);
    } else {
      var result := answer.result.value;
      var row := s.rows[id];
      var amount := if row.kind.Sale? then AmountOr(result, row.total) else -AmountOr(result, Abs(row.total));
      PaidByCard(row, amount, result.card);
      PaySuccessKeeps(s, id, Some(Card), result.card.ref, [CardTender(amount, result.card)]);
    }
  }

  /** What `charge_card` writes keeps the invariant of any unpaid sale nothing is outstanding for. */
  lemma CardChargedKeeps(s: State, id: TxnId, reply: WindcaveReply)
    requires Inv(s) && id in s.rows && s.rows[id].kind.Sale? && !Paid(s.rows[id].status) && NoCallFor(s.calls, id)
    ensures Inv(CardCharged(s, id, reply).0)
  {
    hide Inv;
    RowFacts(s, id);
    var row := s.rows[id];
    match reply
    case Unavailable => UnpaidWrite(s, id, PaymentFailed, row.payment);
    case Answered(answer) =>
      UnpaidWrite(s, id, row.status, Some(Card));
      var withMethod := SetRow(s, id, row.(payment := Some(Card)));
      assert withMethod == SetRow(s, id, row.(status := row.status, payment := Some(Card)));
      if answer.complete {
        FinalizeCardKeeps(withMethod, id, answer);
      } else {
        UnpaidWrite(s, id, PaymentInFlight, Some(Card));
        assert SetStatus(withMethod, id, PaymentInFlight)
            == SetRow(s, id, row.(status := PaymentInFlight, payment := Some(Card)));
      }
  }

  lemma ChargeCardKeeps(s: State, id: TxnId, reply: WindcaveReply)
    requires Inv(s)
    ensures Inv(ChargeCard(s, id, reply).0)
  {
    hide Inv, CardCharged;
    if LoadForPayment(s, id).Accepted? {
      UnpaidQuiet(s, id);
      CardChargedKeeps(s, id, reply);
    }
  }

  lemma CancelCheckoutKeeps(s: State, id: TxnId)
    requires Inv(s)
    ensures Inv(CancelCheckout(s, id).0)
  {
    hide Inv;
    if id in s.rows && s.rows[id].status in {AwaitingPayment, PaymentInFlight} {
      RowFacts(s, id);
      UnpaidQuiet(s, id);
      UnpaidWrite(s, id, Cancelled, s.rows[id].payment);
    }
  }

  lemma PollFinishedKeeps(s: State, id: TxnId, kind: Kind, final: Option<WindcaveAnswer>)
    requires Inv(s)
    ensures Inv(PollFinished(s, id, kind, final))
  {
    hide Inv;
    if id in s.rows && s.rows[id].status == InFlightStatus(kind) {
      RowFacts(s, id);
      UnpaidQuiet(s, id);
      match final
      case None => UnpaidWrite(s, id, FailedStatus(kind), s.rows[id].payment);
      case Some(answer) => FinalizeCardKeeps(s, id, answer);
    }
  }

  // ---- refunds ----

  lemma StartRefundKeeps(s: State, id: TxnId, original: TxnId, cashier: string)
    requires Inv(s)
    ensures Inv(StartRefund(s, id, original, cashier).0)
  {
    hide Inv;
    if LookupRefund(s, original).Accepted? && id !in s.rows {
      var row := NewRefund(s, original, cashier);
      RowFacts(s, original);
      assert CartPriced(s.rates, s.rows[original]);
      var rate :| rate in s.rates && ValidRate(rate) && CartOk(rate, s.rows[original]);
      NegatedCartOk(rate, s.rows[original], row);
      forall r ensures !Blocks(s.rows, r, original) {
        assert r !in BlockingRefunds(s, original);
      }
      Insert(s, id, row);
    }
  }

  lemma ChargeCashRefundKeeps(s: State, id: TxnId)
    requires Inv(s)
    ensures Inv(ChargeCashRefund(s, id).0)
  {
    hide Inv;
    if LoadRefundForPayment(s, id).Accepted? && s.rows[id].payment == Some(Cash) {
      RowFacts(s, id);
      UnpaidQuiet(s, id);
      PaySuccessKeeps(s, id, s.rows[id].payment, s.rows[id].windcaveRef, [CashPayout(s.rows[id].total)]);
    }
  }

  /** What `charge_card_refund` writes keeps the invariant of an unpaid card refund no other refund stands beside. */
  lemma RefundChargedKeeps(s: State, id: TxnId, reply: WindcaveReply)
    requires Inv(s) && id in s.rows && s.rows[id].kind.Refund? && !Paid(s.rows[id].status)
    requires s.rows[id].payment == Some(Card) && (RefundBlocking(s.rows[id].status) || Alone(s.rows, id))
    ensures Inv(RefundCharged(s, id, reply).0)
  {
    hide Inv, Alone;
    RowFacts(s, id);
    UnpaidQuiet(s, id);
    match reply
    case Unavailable => UnpaidWrite(s, id, RefundPaymentFailed, s.rows[id].payment);
    case Answered(answer) =>
      if answer.complete {
        FinalizeCardKeeps(s, id, answer);
      } else {
        UnpaidWrite(s, id, RefundPaymentInFlight, s.rows[id].payment);
      }
  }

  lemma ChargeCardRefundKeeps(s: State, id: TxnId, reply: WindcaveReply)
    requires Inv(s)
    ensures Inv(ChargeCardRefund(s, id, reply).0)
  {
    hide Inv, RefundCharged, Alone;
    if LoadRefundForPayment(s, id).Accepted? && s.rows[id].payment == Some(Card) && HasParent(s.rows, s.rows[id]) {
      RefundChargedKeeps(s, id, reply);
    }
  }

  lemma CancelRefundKeeps(s: State, id: TxnId)
    requires Inv(s)
    ensures Inv(CancelRefund(s, id).0)
  {
    hide Inv;
    if id in s.rows && s.rows[id].kind == Refund && s.rows[id].status in {RefundPending, RefundPaymentInFlight} {
      RowFacts(s, id);
      UnpaidQuiet(s, id);
      UnpaidWrite(s, id, Cancelled, s.rows[id].payment);
    }
  }

  // ---- Sentry ----

  lemma SentryRecordsKeeps(s: State, request: Request, soId: SoId)
    requires Inv(s)
    ensures Inv(SentryRecords(s, request, soId))
  {
    hide BooksOk, LocalOk, WireOk;
  }

  lemma BatchResendKeeps(s: State, id: TxnId)
    requires Inv(s)
    ensures Inv(BatchResend(s, id))
  {
    hide Inv;
    if id in s.rows && Settled(s.rows[id].status) && CanRequest(s.rows, id) {
      Sent(s, id, Resend(id));
    }
  }

  lemma RetrySentryKeeps(s: State, id: TxnId)
    requires Inv(s)
    ensures Inv(RetrySentry(s, id).0)
  {
    hide Inv;
    if id in s.rows && s.rows[id].status == UnrecordedStatus(s.rows[id].kind) && CanRequest(s.rows, id) {
      Sent(s, id, Resend(id));
    }
  }

  // ---- till and outbox ----

  lemma ReconfigureKeeps(s: State, config: Config)
    requires Inv(s)
    ensures Inv(Reconfigure(s, config))
  {
    hide RowsOk, ParentsOk, Exclusive, LinksOk, LedgerOk, RemoteOk, LocalOk, CartOk;
  }

  lemma NothingStamped(rows: Rows, sid: SessionId)
    requires forall id :: id in rows ==> !Stamped(rows[id], sid)
    ensures Total(rows, CountStamped(sid)) == 0 && Total(rows, CountCash(sid)) == 0
    ensures Total(rows, CashOf(sid, Sale)) == 0 && Total(rows, CashOf(sid, Refund)) == 0
  {
    TotalZero(rows, CountStamped(sid));
    TotalZero(rows, CountCash(sid));
    TotalZero(rows, CashOf(sid, Sale));
    TotalZero(rows, CashOf(sid, Refund));
  }

  lemma OpenTillKeeps(s: State, sid: SessionId, cashier: string, openingFloat: int)
    requires Inv(s)
    ensures Inv(OpenTill(s, sid, cashier, openingFloat).0)
  {
    hide BooksOk, RemoteOk, EntriesOk;
    if OpenSession(s.sessions, cashier).None? && sid !in s.sessions {
      var after := OpenTill(s, sid, cashier, openingFloat).0;
      NothingStamped(s.rows, sid);
      forall a, b, who | IsOpenFor(after.sessions, a, who) && IsOpenFor(after.sessions, b, who) ensures a == b {
        assert a != sid ==> IsOpenFor(s.sessions, a, who);
        assert b != sid ==> IsOpenFor(s.sessions, b, who);
      }
    }
  }

  lemma CloseTillKeeps(s: State, cashier: string, count: int)
    requires Inv(s)
    ensures Inv(CloseTill(s, cashier, count).0)
  {
    hide BooksOk, RemoteOk, EntriesOk;
    if OpenSession(s.sessions, cashier).Some? {
      SameOpen(s.sessions, CloseTill(s, cashier, count).0.sessions);
    }
  }

  lemma OutboxKeeps(s: State, step: Outbox.Event)
    requires Inv(s) && !step.Enqueue?
    ensures Inv(s.(box := Outbox.Apply(s.box, step)))
  {
    hide BooksOk, RemoteOk, TillsOk;
    Outbox.ApplyKeepsBox(s.box, step);
    Outbox.ApplyExtends(s.box, step);
    var after := Outbox.Apply(s.box, step);
    assert |after.entries| == |s.box.entries|;
    forall i | 0 <= i < |after.entries| ensures EntryOk(s.rows, after.entries[i]) {
      assert EntryOk(s.rows, s.box.entries[i]);
    }
    forall id | id in s.rows && Settled(s.rows[id].status) ensures HasEntry(after.entries, id) {
      var i :| 0 <= i < |s.box.entries| && s.box.entries[i].txn == id;
      assert after.entries[i].txn == id;
    }
  }
}
