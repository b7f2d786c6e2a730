/** What every reachable state satisfies. */
module Invariants {
  import opened PosTypes
  import opened Money
  import opened Sums
  import opened Store
  import opened TillSessions
  import opened Settlement
  import Outbox = FabricOutbox

  // ---- rows ----

  predicate LineOk(rate: Rate, line: Line)
    requires ValidRate(rate)
  {
    var subtotal := line.unitPrice * line.item.quantity;
    line.tax == ComputeLineTax(subtotal, rate, line.item.taxable) && line.lineTotal == subtotal + line.tax
  }

  /** Each line's total is its subtotal plus the tax the service's rule gives it, and the lines add up to the row. */
  predicate CartOk(rate: Rate, row: Txn)
    requires ValidRate(rate)
  {
    && (forall k :: 0 <= k < |row.cart| ==> LineOk(rate, row.cart[k]))
    && row.subtotal == Sum(Subtotals(row.cart))
    && row.tax == Sum(Taxes(row.cart))
    && row.total == row.subtotal + row.tax == Sum(LineTotals(row.cart))
  }

  /** A paid row records exactly how: cash to the cent with its change, or the card that was used. */
  predicate TendersOk(row: Txn) {
    if !Paid(row.status) then row.tenders == []
    else
      && |row.tenders| == 1 && row.payment.Some?
      && match row.payment.value
         case Card => row.tenders[0].CardTender? && row.tenders[0].card.ref == row.windcaveRef
         case Cash =>
           if row.kind.Refund? then row.tenders[0] == CashPayout(row.total)
           else
             && row.tenders[0].CashTender? && row.tenders[0].amount == row.total
             && row.tenders[0].change == row.tenders[0].tendered - row.total && 0 <= row.tenders[0].change
  }

  predicate RowOk(row: Txn) {
    && (if row.kind.Sale? then SaleStatus(row.status) else RefundStatus(row.status))
    && (row.parent.Some? <==> row.kind.Refund?)
    && (row.refundTxn.Some? ==> row.kind.Sale? && row.status == Complete)
    && (row.so.Some? <==> row.status == Complete)
    && (row.session.Some? ==> row.status == Complete)
    && (row.status in {PaymentInFlight, RefundPaymentInFlight} ==> row.payment == Some(Card))
    && TendersOk(row)
  }

  ghost predicate RowsOk(rows: Rows) {
    forall id :: id in rows ==> RowOk(rows[id])
  }

  /** The cart was priced at one of these rates, and adds up. */
  ghost predicate CartPriced(rates: set<Rate>, row: Txn) {
    exists rate :: rate in rates && ValidRate(rate) && CartOk(rate, row)
  }

  ghost predicate CartsOk(rates: set<Rate>, rows: Rows) {
    forall id :: id in rows ==> CartPriced(rates, rows[id])
  }

  // ---- refunds and their sales ----

  predicate RefundOf(refund: Txn, sale: Txn) {
    && sale.kind.Sale? && sale.status == Complete
    && refund.cart == NegatedCart(sale.cart)
    && refund.subtotal == -sale.subtotal && refund.tax == -sale.tax && refund.total == -sale.total
    && refund.payment == sale.payment
  }

  predicate ParentOk(rows: Rows, r: TxnId)
    requires r in rows
  {
    rows[r].kind.Refund? ==> HasParent(rows, rows[r]) && RefundOf(rows[r], rows[rows[r].parent.value])
  }

  ghost predicate ParentsOk(rows: Rows) {
    forall r :: r in rows ==> ParentOk(rows, r)
  }

  predicate Blocks(rows: Rows, r: TxnId, original: TxnId) {
    r in rows && rows[r].kind.Refund? && rows[r].parent == Some(original) && RefundBlocking(rows[r].status)
  }

  /** At most one refund of a sale stands in the way of another. */
  ghost predicate Exclusive(rows: Rows) {
    forall a, b, original :: Blocks(rows, a, original) && Blocks(rows, b, original) ==> a == b
  }

  predicate LinkOk(rows: Rows, id: TxnId)
    requires id in rows
  {
    && (rows[id].refundTxn.Some? ==>
          var r := rows[id].refundTxn.value;
          r in rows && rows[r].kind.Refund? && rows[r].status == Complete && rows[r].parent == Some(id))
    && (rows[id].kind.Refund? && rows[id].status == Complete && HasParent(rows, rows[id]) ==>
          rows[rows[id].parent.value].refundTxn == Some(id))
  }

  /** A sale points at a refund exactly when that refund of it is COMPLETE. */
  ghost predicate LinksOk(rows: Rows) {
    forall id :: id in rows ==> LinkOk(rows, id)
  }

  function CompleteCents(): Txn -> int {
    (row: Txn) => if row.status == Complete then row.total else 0
  }

  function UnrefundedSaleCents(): Txn -> int {
    (row: Txn) => if row.status == Complete && row.kind.Sale? && row.refundTxn.None? then row.total else 0
  }

  ghost predicate LedgerOk(rows: Rows) {
    Total(rows, CompleteCents()) == Total(rows, UnrefundedSaleCents())
  }

  // ---- Sentry ----

  predicate CallOk(rows: Rows, wire: set<Request>, call: Call) {
    && call.txn in rows
    && match call
       case ValidateCart(id) => rows[id].status == PendingValidation
       case FirstSend(id) => rows[id].status == SuccessStatus(rows[id].kind)
                             && CanRequest(rows, id) && RequestFor(rows, id) in wire
       case Resend(id) => Settled(rows[id].status) && CanRequest(rows, id) && RequestFor(rows, id) in wire
  }

  predicate FirstCall(calls: Calls, c: nat, id: TxnId) {
    c in calls && !calls[c].Resend? && calls[c].txn == id
  }

  ghost predicate CallsOk(rows: Rows, wire: set<Request>, calls: Calls, nextCall: nat) {
    && (forall c :: c in calls ==> c < nextCall && CallOk(rows, wire, calls[c]))
    && (forall c, d, id :: FirstCall(calls, c, id) && FirstCall(calls, d, id) ==> c == d)
  }

  predicate RequestOk(rows: Rows, r: Request) {
    CanRequest(rows, r.key) && Paid(rows[r.key].status) && r == RequestFor(rows, r.key)
  }

  /** Every request ever sent is the one its row would send now. */
  ghost predicate WireOk(rows: Rows, wire: set<Request>) {
    forall r :: r in wire ==> RequestOk(rows, r)
  }

  ghost predicate OrdersOk(wire: set<Request>, orders: Orders) {
    && (forall k :: k in orders ==> orders[k].request.key == k && orders[k].request in wire)
    && (forall j, k :: j in orders && k in orders && orders[j].soId == orders[k].soId ==> j == k)
  }

  /** A COMPLETE row carries the order Sentry holds for it. */
  ghost predicate RecordedOk(rows: Rows, orders: Orders) {
    forall id :: id in rows && rows[id].status == Complete ==> id in orders && rows[id].so == Some(orders[id].soId)
  }

  // ---- the outbox ----

  /** The payload is the row's, save that one enqueued before Sentry answered has no SO number. */
  predicate PayloadOk(id: TxnId, row: Txn, payload: Payload) {
    payload.(so := row.so) == BuildPayload(id, row) && (payload.so == row.so || payload.so == None)
  }

  predicate EntryOk(rows: Rows, e: Outbox.Entry) {
    e.txn in rows && Settled(rows[e.txn].status) && PayloadOk(e.txn, rows[e.txn], e.payload)
  }

  ghost predicate HasEntry(entries: seq<Outbox.Entry>, id: TxnId) {
    exists i :: 0 <= i < |entries| && entries[i].txn == id
  }

  ghost predicate EntriesOk(rows: Rows, entries: seq<Outbox.Entry>) {
    && (forall i :: 0 <= i < |entries| ==> EntryOk(rows, entries[i]))
    && (forall i, j :: 0 <= i < j < |entries| ==> entries[i].txn != entries[j].txn)
    && (forall id :: id in rows && Settled(rows[id].status) ==> HasEntry(entries, id))
  }

  // ---- the till ----

  predicate Stamped(row: Txn, sid: SessionId) { row.session == Some(sid) }

  function CountStamped(sid: SessionId): Txn -> int {
    (row: Txn) => if Stamped(row, sid) then 1 else 0
  }

  function CountCash(sid: SessionId): Txn -> int {
    (row: Txn) => if Stamped(row, sid) && row.payment == Some(Cash) then 1 else 0
  }

  function CashOf(sid: SessionId, kind: Kind): Txn -> int {
    (row: Txn) => if Stamped(row, sid) && row.payment == Some(Cash) && row.kind == kind then row.total else 0
  }

  /** The running tallies are the sums over the rows stamped with the session. */
  ghost predicate TalliesOk(rows: Rows, sid: SessionId, t: Till) {
    && t.transactionCount == Total(rows, CountStamped(sid))
    && t.cashTransactionCount == Total(rows, CountCash(sid))
    && t.cashSales == Total(rows, CashOf(sid, Sale))
    && t.cashRefunds == Total(rows, CashOf(sid, Refund))
  }

  predicate CloseOk(t: Till) {
    if t.status.Open? then t.closingCount.None? && t.variance.None? && t.expectedClosing.None?
    else
      && t.closingCount.Some? && t.expectedClosing == Some(Expected(t))
      && t.variance == Some(t.closingCount.value - Expected(t))
  }

  ghost predicate AllTallies(rows: Rows, sessions: Sessions) {
    forall sid :: sid in sessions ==> TalliesOk(rows, sid, sessions[sid])
  }

  ghost predicate AllCloses(sessions: Sessions) {
    forall sid :: sid in sessions ==> CloseOk(sessions[sid])
  }

  ghost predicate StampsOk(rows: Rows, sessions: Sessions) {
    forall id :: id in rows && rows[id].session.Some? ==> rows[id].session.value in sessions
  }

  ghost predicate TillsOk(rows: Rows, sessions: Sessions) {
    AllTallies(rows, sessions) && AllCloses(sessions) && StampsOk(rows, sessions) && OneOpenPerCashier(sessions)
  }

  // ---- all together ----

  /** The transaction table on its own. */
  ghost predicate BooksOk(rates: set<Rate>, rows: Rows) {
    RowsOk(rows) && CartsOk(rates, rows) && ParentsOk(rows) && Exclusive(rows) && LinksOk(rows) && LedgerOk(rows)
  }

  /** The table against Sentry and the calls to it. */
  ghost predicate RemoteOk(rows: Rows, wire: set<Request>, orders: Orders, calls: Calls, nextCall: nat) {
    CallsOk(rows, wire, calls, nextCall) && WireOk(rows, wire) && OrdersOk(wire, orders) && RecordedOk(rows, orders)
  }

  /** The table against the outbox and the till sessions. */
  ghost predicate LocalOk(rows: Rows, entries: seq<Outbox.Entry>, sessions: Sessions) {
    EntriesOk(rows, entries) && TillsOk(rows, sessions)
  }

  ghost predicate Inv(s: State) {
    && ValidRate(s.config.rate) && s.config.rate in s.rates
    && BooksOk(s.rates, s.rows)
    && RemoteOk(s.rows, s.wire, s.orders, s.calls, s.nextCall)
    && LocalOk(s.rows, s.box.entries, s.sessions)
    && Outbox.BoxOk(s.box)
  }

  lemma InitialOk(config: Config, clock: int)
    requires ValidRate(config.rate)
    ensures Inv(Initial(config, clock))
  {
  }
}
