/** The refund handlers. */
module RefundService {
  import opened PosTypes
  import opened Store
  import opened TillSessions
  import opened Settlement
  import opened ServiceDatabase
  import TillService
  import Table = FabricOutbox

  /** Another refund of the sale is under way, unrecorded or complete. */
  ghost predicate RefundedBy(rows: Rows, original: TxnId, r: TxnId) {
    && r in rows && rows[r].parent == Some(original)
    && rows[r].status in {RefundPending, RefundPaymentInFlight, RefundPaymentSuccess, RefundInventoryUpdateFailed,
                          Complete}
  }

  /** Whole days since the row was created, in microseconds per day. */
  function DaysSince(clock: int, row: Txn): int {
    (clock - row.createdAt) / 86_400_000_000
  }

  /** The answer to asking for a refund: the first objection, in this order, or none. */
  ghost function RefundAnswer(rows: Rows, config: Config, clock: int, original: TxnId): Reply {
    if original !in rows then Rejected(TransactionNotFound)
    else if rows[original].kind.Refund? || rows[original].status != Complete then
      Rejected(NotACompletedSale(rows[original].status))
    else if DaysSince(clock, rows[original]) > config.refundWindowDays then
      Rejected(RefundWindowExpired(DaysSince(clock, rows[original])))
    else if exists r :: RefundedBy(rows, original, r) then Rejected(AlreadyRefunded)
    else Accepted
  }

  /** Whether the sale can be refunded, and if not because of another refund, which one stands in the way. */
  method Lookup(db: Database, original: TxnId) returns (reply: Reply, blocker: Option<TxnId>)
    ensures reply == LookupRefund(db.View(), original)
    ensures reply == RefundAnswer(db.rows, db.config, db.fabric.clock, original)
    ensures reply.Accepted? <==>
              && original in db.rows && db.rows[original].kind.Sale? && db.rows[original].status == Complete
              && (db.fabric.clock - db.rows[original].createdAt) / 86_400_000_000 <= db.config.refundWindowDays
              && forall r :: !RefundedBy(db.rows, original, r)
    ensures blocker.Some? <==> reply == Rejected(AlreadyRefunded)
    ensures blocker.Some? ==> RefundedBy(db.rows, original, blocker.value)
  {
    blocker := None;
    if original !in db.rows { return Rejected(TransactionNotFound), None; }
    var sale := db.rows[original];
    if sale.kind != Sale { return Rejected(NotACompletedSale(sale.status)), None; }
    if sale.status != Complete { return Rejected(NotACompletedSale(sale.status)), None; }
    var daysSince := (db.fabric.clock - sale.createdAt) / DAY;
    if daysSince > db.config.refundWindowDays { return Rejected(RefundWindowExpired(daysSince)), None; }
    if r :| r in db.rows && db.rows[r].parent == Some(original) && RefundBlocking(db.rows[r].status) {
      assert r in BlockingRefunds(db.View(), original) && RefundedBy(db.rows, original, r);
      return Rejected(AlreadyRefunded), Some(r);
    }
    forall r ensures !RefundedBy(db.rows, original, r) {
    }
    assert BlockingRefunds(db.View(), original) == {};
    return Accepted, None;
  }

  /** A refund just started: its sale negated, line by line, opened by this cashier at the sale's terminal. */
  ghost predicate JustStarted(refund: Txn, sale: Txn, original: TxnId, cashier: string, clock: int) {
    && refund.kind.Refund? && refund.status == RefundPending && refund.parent == Some(original)
    && refund.cashier == cashier && refund.terminal == sale.terminal && refund.payment == sale.payment
    && refund.subtotal == -sale.subtotal && refund.tax == -sale.tax && refund.total == -sale.total
    && |refund.cart| == |sale.cart|
    && (forall k :: 0 <= k < |sale.cart| ==>
          && refund.cart[k].item == sale.cart[k].item.(quantity := -sale.cart[k].item.quantity)
          && refund.cart[k].unitPrice == sale.cart[k].unitPrice
          && refund.cart[k].tax == -sale.cart[k].tax && refund.cart[k].lineTotal == -sale.cart[k].lineTotal)
    && refund.refundTxn == None && refund.tenders == [] && refund.windcaveRef == None && refund.so == None
    && refund.session == None
    && refund.createdAt <= clock < refund.createdAt + 1_000_000 && refund.createdAt % 1_000_000 == 0
  }

  method Start(db: Database, id: TxnId, original: TxnId, cashier: string) returns (reply: Reply)
    modifies db`rows
    ensures (db.View(), reply) == StartRefund(old(db.View()), id, original, cashier)
    ensures var answer := RefundAnswer(old(db.rows), db.config, db.fabric.clock, original);
            reply == if answer.Accepted? && id in old(db.rows) then Rejected(DuplicateKey) else answer
    ensures reply.Accepted? <==>
              && original in old(db.rows) && old(db.rows)[original].kind.Sale?
              && old(db.rows)[original].status == Complete
              && (db.fabric.clock - old(db.rows)[original].createdAt) / 86_400_000_000 <= db.config.refundWindowDays
              && (forall r :: !RefundedBy(old(db.rows), original, r)) && id !in old(db.rows)
    ensures reply.Rejected? ==> db.rows == old(db.rows)
    ensures reply.Accepted? ==>
              && id in db.rows && db.rows == old(db.rows)[id := db.rows[id]]
              && JustStarted(db.rows[id], old(db.rows)[original], original, cashier, db.fabric.clock)
  {
    var blocker;
    reply, blocker := Lookup(db, original);
    if reply.Rejected? { return; }
    var sale := db.rows[original];
    var cart := [];
    for k := 0 to |sale.cart|
      invariant cart == NegatedCart(sale.cart)[..k]
    {
      var line := sale.cart[k];
      line := line.(item := line.item.(quantity := -line.item.quantity));
      line := line.(tax := -line.tax, lineTotal := -line.lineTotal);
      cart := cart + [line];
    }
    assert NegatedCart(sale.cart)[..|sale.cart|] == NegatedCart(sale.cart);
    if id in db.rows { return Rejected(DuplicateKey); }
    db.rows := db.rows[id := Txn(Refund, RefundPending, Some(original), None, cart, -sale.subtotal, -sale.tax,
                                 -sale.total, sale.payment, [], None, None, cashier, sale.terminal, None,
                                 db.fabric.clock / Table.SECOND * Table.SECOND)];
    return Accepted;
  }

  /** The answer to asking to pay a refund out. */
  function Loaded(rows: Rows, id: TxnId): Reply {
    if id !in rows || rows[id].kind.Sale? then Rejected(TransactionNotFound)
    else if rows[id].status == RefundPending then Accepted
    else Rejected(InvalidState(rows[id].status))
  }

  method LoadForRefund(db: Database, id: TxnId) returns (reply: Reply)
    ensures reply == LoadRefundForPayment(db.View(), id)
    ensures reply == Loaded(db.rows, id)
    ensures reply.Accepted? ==> id in db.rows && db.rows[id].kind.Refund?
  {
    if id !in db.rows || db.rows[id].kind != Refund { return Rejected(TransactionNotFound); }
    if db.rows[id].status != RefundPending { return Rejected(InvalidState(db.rows[id].status)); }
    return Accepted;
  }

  /** The same, for a refund that must go back by this tender. */
  function LoadedFor(rows: Rows, id: TxnId, tender: Method): Reply {
    if Loaded(rows, id).Accepted? && rows[id].payment != Some(tender) then Rejected(TenderMismatch(tender))
    else Loaded(rows, id)
  }

  predicate HasReference(rows: Rows, id: TxnId)
    requires id in rows
  {
    HasParent(rows, rows[id]) && rows[rows[id].parent.value].windcaveRef !in {None, Some("")}
  }

  method PayBackCash(db: Database, id: TxnId) returns (reply: Reply)
    modifies db`rows, db`wire, db`calls, db`nextCall
    ensures (db.View(), reply) == ChargeCashRefund(old(db.View()), id)
    ensures reply == LoadedFor(old(db.rows), id, Cash)
    ensures reply.Rejected? ==> db.View() == old(db.View())
    ensures reply.Accepted? ==>
              && db.rows == old(db.rows)[id := old(db.rows)[id].(
                   status := RefundPaymentSuccess, tenders := [CashPayout(old(db.rows)[id].total)])]
              && (HasParent(db.rows, db.rows[id]) ==> db.Sends(id, FirstSend(id)))
  {
    reply := LoadForRefund(db, id);
    if reply.Rejected? { return; }
    var txn := db.rows[id];
    if txn.payment != Some(Cash) { return Rejected(TenderMismatch(Cash)); }
    txn := txn.(status := RefundPaymentSuccess);
    txn := txn.(tenders := [CashPayout(txn.total)]);
    db.rows := db.rows[id := txn];
    db.Send(id, FirstSend(id));
  }

  /** The refund with its card payout recorded: minus the terminal's amount, or minus the size of the total if it names
      none. */
  function PaidBack(refund: Txn, result: WindcaveResult): Txn {
    var size := if refund.total < 0 then -refund.total else refund.total;
    var amount := if result.amount in {None, Some(0)} then size else result.amount.value;
    refund.(status := RefundPaymentSuccess, windcaveRef := result.card.ref,
            tenders := [CardTender(-amount, result.card)])
  }

  method FinalizeRefundCharge(db: Database, id: TxnId, answer: WindcaveAnswer)
    requires id in db.rows && db.rows[id].kind.Refund?
    modifies db`rows, db`wire, db`calls, db`nextCall
    ensures db.View() == FinalizeCard(old(db.View()), id, answer)
    ensures !answer.Settles() ==>
              db.rows == old(db.rows)[id := old(db.rows)[id].(status := RefundPaymentFailed)] && db.SendsNothing()
    ensures answer.Settles() ==>
              && id in db.rows && (HasParent(db.rows, db.rows[id]) ==> db.Sends(id, FirstSend(id)))
              && db.rows == old(db.rows)[id := PaidBack(old(db.rows)[id], answer.result.value)]
  {
    var txn := db.rows[id];
    if answer.signatureRequired {
      db.rows := db.rows[id := txn.(status := RefundPaymentFailed)];
      return;
    }
    if !answer.Approved() {
      db.rows := db.rows[id := txn.(status := RefundPaymentFailed)];
      return;
    }
    var result := answer.result.value;
    var amount := if txn.total < 0 then -txn.total else txn.total;
    if result.amount.Some? && result.amount.value != 0 { amount := result.amount.value; }
    txn := txn.(status := RefundPaymentSuccess);
    txn := txn.(windcaveRef := result.card.ref);
    txn := txn.(tenders := [CardTender(-amount, result.card)]);
    db.rows := db.rows[id := txn];
    db.Send(id, FirstSend(id));
  }

  method PayBackCard(db: Database, id: TxnId, windcave: WindcaveReply) returns (reply: Reply)
    modifies db`rows, db`wire, db`calls, db`nextCall
    ensures (db.View(), reply) == ChargeCardRefund(old(db.View()), id, windcave)
    ensures reply == if LoadedFor(old(db.rows), id, Card).Rejected? then LoadedFor(old(db.rows), id, Card)
                     else if !HasReference(old(db.rows), id) then Rejected(MissingOriginalDpsTxnRef)
                     else if windcave.Unavailable? then Rejected(WindcaveUnavailable)
                     else Accepted
    ensures reply.Rejected? && reply.error != WindcaveUnavailable ==> db.View() == old(db.View())
    ensures reply == Rejected(WindcaveUnavailable) ==>
              db.rows == old(db.rows)[id := old(db.rows)[id].(status := RefundPaymentFailed)] && db.SendsNothing()
    ensures reply.Accepted? && !windcave.answer.Settles() ==>
              && db.rows == old(db.rows)[id := old(db.rows)[id].(
                   status := if windcave.answer.complete then RefundPaymentFailed else RefundPaymentInFlight)]
              && db.SendsNothing()
    ensures reply.Accepted? && windcave.answer.Settles() ==>
              && id in db.rows && (HasParent(db.rows, db.rows[id]) ==> db.Sends(id, FirstSend(id)))
              && db.rows == old(db.rows)[id := PaidBack(old(db.rows)[id], windcave.answer.result.value)]
  {
    reply := LoadForRefund(db, id);
    if reply.Rejected? { return; }
    var txn := db.rows[id];
    if txn.payment != Some(Card) { return Rejected(TenderMismatch(Card)); }
    if txn.parent.None? || txn.parent.value !in db.rows { return Rejected(MissingOriginalDpsTxnRef); }
    var original := db.rows[txn.parent.value];
    if original.windcaveRef == None || original.windcaveRef == Some("") { return Rejected(MissingOriginalDpsTxnRef); }
    match windcave {
      case Unavailable =>
        db.rows := db.rows[id := txn.(status := RefundPaymentFailed)];
        return Rejected(WindcaveUnavailable);
      case Answered(initial) =>
        if initial.complete {
          FinalizeRefundCharge(db, id, initial);
        } else {
          db.rows := db.rows[id := txn.(status := RefundPaymentInFlight)];
        }
    }
  }

  method Cancel(db: Database, id: TxnId) returns (reply: Reply)
    modifies db`rows
    ensures (db.View(), reply) == CancelRefund(old(db.View()), id)
    ensures reply == if id !in old(db.rows) || old(db.rows)[id].kind.Sale? then Rejected(TransactionNotFound)
                     else if old(db.rows)[id].status in {RefundPending, RefundPaymentInFlight} then Accepted
                     else Rejected(InvalidState(old(db.rows)[id].status))
    ensures db.rows == if reply.Accepted? then old(db.rows)[id := old(db.rows)[id].(status := Cancelled)]
                       else old(db.rows)
  {
    if id !in db.rows || db.rows[id].kind != Refund { return Rejected(TransactionNotFound); }
    var txn := db.rows[id];
    if txn.status != RefundPending && txn.status != RefundPaymentInFlight {
      return Rejected(InvalidState(txn.status));
    }
    db.rows := db.rows[id := txn.(status := Cancelled)];
    return Accepted;
  }

  method PollTail(db: Database, id: TxnId, final: Option<WindcaveAnswer>)
    requires id in db.rows && db.rows[id].status == RefundPaymentInFlight ==> db.rows[id].kind.Refund?
    modifies db`rows, db`wire, db`calls, db`nextCall
    ensures db.View() == PollFinished(old(db.View()), id, Refund, final)
    ensures !(id in old(db.rows) && old(db.rows)[id].status == RefundPaymentInFlight) ==> db.View() == old(db.View())
    ensures id in old(db.rows) && old(db.rows)[id].status == RefundPaymentInFlight ==>
              if final.Some? && final.value.Settles() then
                && id in db.rows && (HasParent(db.rows, db.rows[id]) ==> db.Sends(id, FirstSend(id)))
                && db.rows == old(db.rows)[id := PaidBack(old(db.rows)[id], final.value.result.value)]
              else
                db.rows == old(db.rows)[id := old(db.rows)[id].(status := RefundPaymentFailed)] && db.SendsNothing()
  {
    if id !in db.rows || db.rows[id].status != RefundPaymentInFlight { return; }
    if final.None? {
      db.rows := db.rows[id := db.rows[id].(status := RefundPaymentFailed)];
      return;
    }
    FinalizeRefundCharge(db, id, final.value);
  }

  /** Sentry's answer to a refund's first send. */
  method RefundAnswered(db: Database, id: TxnId, ok: bool)
    requires id in db.rows && db.rows[id].kind.Refund? && (ok ==> id in db.orders) && OneOpenPerCashier(db.sessions)
    modifies db`rows, db`sessions, db.fabric`entries
    ensures db.View() == FirstAnswered(old(db.View()), id, ok)
    ensures !ok ==>
              db.rows == old(db.rows)[id := old(db.rows)[id].(status := RefundInventoryUpdateFailed)]
              && db.sessions == old(db.sessions)
    ensures ok && HasParent(old(db.rows), old(db.rows)[id]) && old(db.rows)[id].parent != Some(id) ==>
              var found := OpenSession(old(db.sessions), old(db.rows)[id].cashier);
              var sale := old(db.rows)[id].parent.value;
              var refund := old(db.rows)[id].(status := Complete, so := Some(db.orders[id].soId),
                              session := if found.Some? then found else old(db.rows)[id].session);
              db.rows == old(db.rows)[id := refund][sale := old(db.rows)[sale].(refundTxn := Some(id))]
    ensures |db.fabric.entries| == |old(db.fabric.entries)| + 1
    ensures db.fabric.entries[..|old(db.fabric.entries)|] == old(db.fabric.entries)
    ensures var entry := db.fabric.entries[|old(db.fabric.entries)|];
            && entry.txn == id && entry.status.Pending? && entry.nextAt == db.fabric.clock
            && id in db.rows && entry.payload.so == db.rows[id].so && entry.payload.total == db.rows[id].total
  {
    hide TillService.HasOpenTill, OneOpenPerCashier, IsOpenFor, OpenSession, Tallied;
    var txn := db.rows[id];
    if !ok {
      db.rows := db.rows[id := txn.(status := RefundInventoryUpdateFailed)];
      db.EnqueueOrder(id);
      return;
    }
    txn := txn.(status := Complete);
    txn := txn.(so := Some(db.orders[id].soId));
    db.rows := db.rows[id := txn];
    if txn.parent.Some? && txn.parent.value in db.rows {
      db.rows := db.rows[txn.parent.value := db.rows[txn.parent.value].(refundTxn := Some(id))];
    }
    TillService.AttributeTransaction(db, id, true);
    db.EnqueueOrder(id);
  }
}
