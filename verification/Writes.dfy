/** What a single write to the transaction table keeps, component by component of the invariant. */
module Writes {
  import opened PosTypes
  import opened Money
  import opened Sums
  import opened Store
  import opened TillSessions
  import opened Settlement
  import opened Invariants
  import Outbox = FabricOutbox

  /** How a row may change: what it sells never does, and what was paid, recorded or completed stays so. */
  predicate Grows(before: Txn, after: Txn) {
    && after.kind == before.kind && after.parent == before.parent
    && after.cart == before.cart
    && after.subtotal == before.subtotal && after.tax == before.tax && after.total == before.total
    && after.cashier == before.cashier && after.terminal == before.terminal
    && (before.kind.Refund? ==> after.payment == before.payment)
    && (Paid(before.status) ==>
          && Paid(after.status) && after.payment == before.payment
          && after.tenders == before.tenders && after.windcaveRef == before.windcaveRef)
    && (Settled(before.status) ==> Settled(after.status))
    && (before.status == Complete ==> after.status == Complete && after.so == before.so)
  }

  lemma WriteCart(rates: set<Rate>, rows: Rows, id: TxnId, row: Txn)
    requires CartsOk(rates, rows) && id in rows && Grows(rows[id], row)
    ensures CartsOk(rates, rows[id := row])
  {
    assert CartPriced(rates, rows[id]);
    var rate :| rate in rates && ValidRate(rate) && CartOk(rate, rows[id]);
    assert CartOk(rate, row);
  }

  lemma WriteParents(rows: Rows, id: TxnId, row: Txn)
    requires ParentsOk(rows) && id in rows && Grows(rows[id], row)
    ensures ParentsOk(rows[id := row])
  {
    forall r | r in rows ensures ParentOk(rows[id := row], r) {
      assert ParentOk(rows, r);
    }
  }

  /** No other refund of the row's sale stands in its way. */
  ghost predicate Alone(rows: Rows, id: TxnId)
    requires id in rows
  {
    forall r, original :: rows[id].parent == Some(original) && Blocks(rows, r, original) ==> r == id
  }

  lemma WriteExclusive(rows: Rows, id: TxnId, row: Txn)
    requires Exclusive(rows) && id in rows && Grows(rows[id], row)
    requires RefundBlocking(row.status) && row.kind.Refund? ==> RefundBlocking(rows[id].status) || Alone(rows, id)
    ensures Exclusive(rows[id := row])
  {
    var after := rows[id := row];
    forall a, b, original | Blocks(after, a, original) && Blocks(after, b, original) ensures a == b {
      assert a != id ==> Blocks(rows, a, original);
      assert b != id ==> Blocks(rows, b, original);
      if RefundBlocking(rows[id].status) {
        assert a == id ==> Blocks(rows, a, original);
        assert b == id ==> Blocks(rows, b, original);
      }
    }
  }

  lemma WriteLinks(rows: Rows, id: TxnId, row: Txn)
    requires LinksOk(rows) && id in rows && Grows(rows[id], row)
    requires row.status == Complete <==> rows[id].status == Complete
    requires row.refundTxn == rows[id].refundTxn
    ensures LinksOk(rows[id := row])
  {
    forall r | r in rows ensures LinkOk(rows[id := row], r) {
      assert LinkOk(rows, r);
    }
  }

  lemma WriteLedger(rows: Rows, id: TxnId, row: Txn)
    requires LedgerOk(rows) && id in rows && Grows(rows[id], row)
    requires row.status == Complete <==> rows[id].status == Complete
    requires row.refundTxn == rows[id].refundTxn
    ensures LedgerOk(rows[id := row])
  {
    TotalWrite(rows, CompleteCents(), id, row);
    TotalWrite(rows, UnrefundedSaleCents(), id, row);
  }

  lemma WriteWire(rows: Rows, wire: set<Request>, id: TxnId, row: Txn)
    requires WireOk(rows, wire) && ParentsOk(rows) && id in rows && Grows(rows[id], row)
    ensures WireOk(rows[id := row], wire)
  {
    forall r | r in wire ensures RequestOk(rows[id := row], r) {
      assert RequestOk(rows, r);
      assert ParentOk(rows, r.key);
    }
  }

  lemma WriteCalls(rows: Rows, wire: set<Request>, calls: Calls, nextCall: nat, id: TxnId, row: Txn)
    requires CallsOk(rows, wire, calls, nextCall) && ParentsOk(rows) && id in rows && Grows(rows[id], row)
    requires forall c :: c in calls && calls[c].txn == id ==>
               calls[c].Resend? || row.status == rows[id].status
    ensures CallsOk(rows[id := row], wire, calls, nextCall)
  {
    forall c | c in calls ensures CallOk(rows[id := row], wire, calls[c]) {
      assert CallOk(rows, wire, calls[c]);
      assert ParentOk(rows, calls[c].txn);
    }
  }

  lemma WriteEntries(rows: Rows, entries: seq<Outbox.Entry>, id: TxnId, row: Txn)
    requires EntriesOk(rows, entries) && id in rows && Grows(rows[id], row)
    requires Settled(row.status) ==> Settled(rows[id].status)
    requires rows[id].so == row.so || rows[id].so.None?
    ensures EntriesOk(rows[id := row], entries)
  {
    forall i | 0 <= i < |entries| ensures EntryOk(rows[id := row], entries[i]) {
      assert EntryOk(rows, entries[i]);
    }
  }

  /** A write that leaves the stamp alone, on a row whose payment a stamp would have fixed, moves no tally. */
  lemma WriteTills(rows: Rows, sessions: Sessions, id: TxnId, row: Txn)
    requires TillsOk(rows, sessions)
    requires row.session.None? || (id in rows && row.payment == rows[id].payment && row.kind == rows[id].kind
                                   && row.total == rows[id].total)
    requires if id in rows then row.session == rows[id].session else row.session.None?
    ensures TillsOk(rows[id := row], sessions)
  {
    forall sid | sid in sessions ensures TalliesOk(rows[id := row], sid, sessions[sid]) {
      TotalWrite(rows, CountStamped(sid), id, row);
      TotalWrite(rows, CountCash(sid), id, row);
      TotalWrite(rows, CashOf(sid, Sale), id, row);
      TotalWrite(rows, CashOf(sid, Refund), id, row);
    }
  }

  lemma WriteRecorded(rows: Rows, orders: Orders, id: TxnId, row: Txn)
    requires RecordedOk(rows, orders)
    requires row.status == Complete ==> id in orders && row.so == Some(orders[id].soId)
    ensures RecordedOk(rows[id := row], orders)
  {
  }

  // ---- the three parts of the invariant under one growing write ----

  lemma GrowBooks(rates: set<Rate>, rows: Rows, id: TxnId, row: Txn)
    requires BooksOk(rates, rows) && id in rows && Grows(rows[id], row) && RowOk(row)
    requires row.status == Complete <==> rows[id].status == Complete
    requires row.refundTxn == rows[id].refundTxn
    requires RefundBlocking(row.status) && row.kind.Refund? ==> RefundBlocking(rows[id].status) || Alone(rows, id)
    ensures BooksOk(rates, rows[id := row])
  {
    WriteCart(rates, rows, id, row);
    WriteParents(rows, id, row);
    WriteExclusive(rows, id, row);
    WriteLinks(rows, id, row);
    WriteLedger(rows, id, row);
  }

  lemma GrowRemote(rows: Rows, wire: set<Request>, orders: Orders, calls: Calls, nextCall: nat, id: TxnId, row: Txn)
    requires RemoteOk(rows, wire, orders, calls, nextCall) && ParentsOk(rows)
    requires id in rows && Grows(rows[id], row)
    requires forall c :: c in calls && calls[c].txn == id ==> calls[c].Resend? || row.status == rows[id].status
    requires row.status == Complete ==> id in orders && row.so == Some(orders[id].soId)
    ensures RemoteOk(rows[id := row], wire, orders, calls, nextCall)
  {
    WriteCalls(rows, wire, calls, nextCall, id, row);
    WriteWire(rows, wire, id, row);
    WriteRecorded(rows, orders, id, row);
  }

  lemma GrowLocal(rows: Rows, entries: seq<Outbox.Entry>, sessions: Sessions, id: TxnId, row: Txn)
    requires LocalOk(rows, entries, sessions) && id in rows && Grows(rows[id], row)
    requires Settled(row.status) ==> Settled(rows[id].status)
    requires rows[id].so == row.so || rows[id].so.None?
    requires row.session == rows[id].session && (row.session.None? || row.payment == rows[id].payment)
    ensures LocalOk(rows[id := row], entries, sessions)
  {
    WriteEntries(rows, entries, id, row);
    WriteTills(rows, sessions, id, row);
  }

  // ---- new rows ----

  lemma FreshBooks(rates: set<Rate>, rows: Rows, id: TxnId, row: Txn)
    requires BooksOk(rates, rows) && id !in rows && RowOk(row) && CartPriced(rates, row) && !Paid(row.status)
    requires row.kind.Refund? ==> HasParent(rows, row) && RefundOf(row, rows[row.parent.value])
    requires row.kind.Refund? ==> forall r :: !Blocks(rows, r, row.parent.value)
    ensures BooksOk(rates, rows[id := row])
  {
    var after := rows[id := row];
    forall r | r in after ensures ParentOk(after, r) && LinkOk(after, r) {
      if r != id { assert ParentOk(rows, r) && LinkOk(rows, r); }
    }
    forall a, b, original | Blocks(after, a, original) && Blocks(after, b, original) ensures a == b {
      assert a != id ==> Blocks(rows, a, original);
      assert b != id ==> Blocks(rows, b, original);
    }
    TotalWrite(rows, CompleteCents(), id, row);
    TotalWrite(rows, UnrefundedSaleCents(), id, row);
  }

  lemma FreshRemote(rows: Rows, wire: set<Request>, orders: Orders, calls: Calls, nextCall: nat, id: TxnId, row: Txn)
    requires RemoteOk(rows, wire, orders, calls, nextCall) && ParentsOk(rows)
    requires id !in rows && row.status != Complete
    ensures RemoteOk(rows[id := row], wire, orders, calls, nextCall)
    ensures forall c :: c in calls ==> calls[c].txn != id
  {
    forall c | c in calls ensures CallOk(rows[id := row], wire, calls[c]) && calls[c].txn != id {
      assert CallOk(rows, wire, calls[c]);
      assert ParentOk(rows, calls[c].txn);
    }
    forall r | r in wire ensures RequestOk(rows[id := row], r) {
      assert RequestOk(rows, r);
      assert ParentOk(rows, r.key);
    }
  }

  lemma FreshLocal(rows: Rows, entries: seq<Outbox.Entry>, sessions: Sessions, id: TxnId, row: Txn)
    requires LocalOk(rows, entries, sessions) && id !in rows && row.session.None? && !Settled(row.status)
    ensures LocalOk(rows[id := row], entries, sessions)
  {
    forall i | 0 <= i < |entries| ensures EntryOk(rows[id := row], entries[i]) {
      assert EntryOk(rows, entries[i]);
    }
    WriteTills(rows, sessions, id, row);
  }

  // ---- settling ----

  /** The status flip and the outbox entry arrive together. */
  lemma SettleEntries(rows: Rows, entries: seq<Outbox.Entry>, id: TxnId, row: Txn, e: Outbox.Entry)
    requires EntriesOk(rows, entries) && id in rows && Grows(rows[id], row)
    requires !Settled(rows[id].status) && Settled(row.status)
    requires e.txn == id && PayloadOk(id, row, e.payload)
    ensures EntriesOk(rows[id := row], entries + [e])
  {
    var after, es := rows[id := row], entries + [e];
    forall i | 0 <= i < |es| ensures EntryOk(after, es[i]) && (i < |entries| ==> es[i].txn != id) {
      if i < |entries| { assert EntryOk(rows, entries[i]); }
    }
    forall r | r in after && Settled(after[r].status) ensures HasEntry(es, r) {
      if r == id {
        assert es[|entries|].txn == id;
      } else {
        var i :| 0 <= i < |entries| && entries[i].txn == r;
        assert es[i].txn == r;
      }
    }
  }

  lemma SaleCompletedBooks(rates: set<Rate>, rows: Rows, id: TxnId, row: Txn)
    requires BooksOk(rates, rows) && id in rows && rows[id].kind.Sale?
    requires Paid(rows[id].status) && rows[id].status != Complete
    requires row.so.Some? && row == rows[id].(status := Complete, so := row.so)
    ensures BooksOk(rates, rows[id := row])
  {
    assert RowOk(rows[id]) && RowOk(row) && Grows(rows[id], row);
    WriteCart(rates, rows, id, row);
    WriteParents(rows, id, row);
    WriteExclusive(rows, id, row);
    SaleCompletedLinks(rows, id, row);
    TotalWrite(rows, CompleteCents(), id, row);
    TotalWrite(rows, UnrefundedSaleCents(), id, row);
  }

  /** The refund's negative total enters the ledger as its sale's total leaves the unrefunded side. */
  lemma RefundCompletedLedger(rows: Rows, id: TxnId, row: Txn, p: TxnId, sale: Txn)
    requires LedgerOk(rows) && id in rows && p in rows && p != id
    requires rows[id].kind.Refund? && rows[id].status != Complete && RefundOf(rows[id], rows[p])
    requires row == rows[id].(status := Complete, so := row.so)
    requires rows[p].refundTxn.None? && sale == rows[p].(refundTxn := Some(id))
    ensures LedgerOk(rows[id := row][p := sale])
  {
    var rows1 := rows[id := row];
    TotalWrite(rows, CompleteCents(), id, row);
    TotalWrite(rows, UnrefundedSaleCents(), id, row);
    TotalWrite(rows1, CompleteCents(), p, sale);
    TotalWrite(rows1, UnrefundedSaleCents(), p, sale);
  }

  lemma RefundCompletedRows(rates: set<Rate>, rows: Rows, id: TxnId, row: Txn, p: TxnId, sale: Txn)
    requires RowsOk(rows) && CartsOk(rates, rows) && ParentsOk(rows) && Exclusive(rows)
    requires id in rows && p in rows && p != id && RefundBlocking(rows[id].status)
    requires RowOk(row) && Grows(rows[id], row) && RowOk(sale) && Grows(rows[p], sale) && sale.kind.Sale?
    ensures RowsOk(rows[id := row][p := sale]) && CartsOk(rates, rows[id := row][p := sale])
    ensures ParentsOk(rows[id := row][p := sale]) && Exclusive(rows[id := row][p := sale])
  {
    var rows1 := rows[id := row];
    WriteCart(rates, rows, id, row);
    WriteParents(rows, id, row);
    WriteExclusive(rows, id, row);
    WriteCart(rates, rows1, p, sale);
    WriteParents(rows1, p, sale);
    WriteExclusive(rows1, p, sale);
  }

  lemma RefundCompletedBooks(rates: set<Rate>, rows: Rows, id: TxnId, row: Txn, p: TxnId)
    requires BooksOk(rates, rows) && id in rows && rows[id].kind.Refund? && rows[id].parent == Some(p)
    requires Paid(rows[id].status) && rows[id].status != Complete
    requires row.so.Some? && row == rows[id].(status := Complete, so := row.so)
    ensures p in rows && p != id && BooksOk(rates, rows[id := row][p := rows[p].(refundTxn := Some(id))])
  {
    NotYetRefunded(rows, id);
    assert ParentOk(rows, id) && RowOk(rows[id]) && RowOk(rows[p]);
    var sale := rows[p].(refundTxn := Some(id));
    RefundCompletedRows(rates, rows, id, row, p, sale);
    RefundCompletedLinks(rows, id, row);
    RefundCompletedLedger(rows, id, row, p, sale);
  }

  /** COMPLETE, with a refund linked to its sale in the same write, keeps the books. */
  lemma CompletedBooks(rates: set<Rate>, rows: Rows, id: TxnId, soId: SoId)
    requires BooksOk(rates, rows) && id in rows && Paid(rows[id].status) && rows[id].status != Complete
    ensures BooksOk(rates, CompletedRows(rows, id, soId))
  {
    hide CartsOk, ParentsOk, Exclusive, LinksOk, LedgerOk, TendersOk;
    var row := rows[id].(status := Complete, so := Some(soId));
    assert RowOk(rows[id]);
    if row.kind.Sale? {
      SaleCompletedBooks(rates, rows, id, row);
    } else {
      RefundCompletedBooks(rates, rows, id, row, row.parent.value);
    }
  }

  lemma NotYetRefunded(rows: Rows, id: TxnId)
    requires ParentsOk(rows) && Exclusive(rows) && LinksOk(rows) && RowsOk(rows)
    requires id in rows && rows[id].kind.Refund? && Paid(rows[id].status) && rows[id].status != Complete
    ensures HasParent(rows, rows[id]) && rows[rows[id].parent.value].refundTxn.None?
  {
    assert RowOk(rows[id]) && ParentOk(rows, id);
    var p := rows[id].parent.value;
    assert LinkOk(rows, p);
    if rows[p].refundTxn.Some? {
      assert Blocks(rows, id, p) && Blocks(rows, rows[p].refundTxn.value, p);
    }
  }

  lemma SaleCompletedLinks(rows: Rows, id: TxnId, row: Txn)
    requires LinksOk(rows) && ParentsOk(rows) && id in rows && row.kind.Sale?
    requires row == rows[id].(status := Complete, so := row.so) && rows[id].refundTxn.None?
    requires rows[id].status != Complete
    ensures LinksOk(rows[id := row])
  {
    forall r | r in rows ensures LinkOk(rows[id := row], r) {
      assert LinkOk(rows, r) && ParentOk(rows, r);
    }
  }

  lemma RefundCompletedLinks(rows: Rows, id: TxnId, row: Txn)
    requires LinksOk(rows) && ParentsOk(rows) && id in rows && row.kind.Refund? && HasParent(rows, row)
    requires row == rows[id].(status := Complete, so := row.so) && rows[id].status != Complete
    requires rows[row.parent.value].refundTxn.None? && rows[id].refundTxn.None?
    ensures LinksOk(rows[id := row][row.parent.value := rows[row.parent.value].(refundTxn := Some(id))])
  {
    var p := row.parent.value;
    assert ParentOk(rows, id);
    var after := rows[id := row][p := rows[p].(refundTxn := Some(id))];
    forall r | r in after ensures LinkOk(after, r) {
      assert LinkOk(rows, r) && ParentOk(rows, r);
    }
  }

  lemma CompletedRemote(rows: Rows, wire: set<Request>, orders: Orders, calls: Calls, nextCall: nat, id: TxnId)
    requires RemoteOk(rows, wire, orders, calls, nextCall) && ParentsOk(rows)
    requires id in rows && Paid(rows[id].status) && id in orders
    requires forall c :: c in calls && calls[c].txn == id ==> calls[c].Resend?
    ensures RemoteOk(CompletedRows(rows, id, orders[id].soId), wire, orders, calls, nextCall)
  {
    var row := rows[id].(status := Complete, so := Some(orders[id].soId));
    GrowRemote(rows, wire, orders, calls, nextCall, id, row);
    if row.kind.Refund? && HasParent(rows, row) {
      var rows1, p := rows[id := row], row.parent.value;
      WriteParents(rows, id, row);
      GrowRemote(rows1, wire, orders, calls, nextCall, p, rows1[p].(refundTxn := Some(id)));
    }
  }

  lemma StampTally(rows: Rows, id: TxnId, row: Txn, sid: SessionId, x: SessionId, t: Till)
    requires id in rows && rows[id].session.None? && row == rows[id].(session := Some(sid))
    requires TalliesOk(rows, x, t)
    ensures TalliesOk(rows[id := row], x, if x == sid then Tallied(t, rows[id], rows[id].kind.Refund?) else t)
  {
    TotalWrite(rows, CountStamped(x), id, row);
    TotalWrite(rows, CountCash(x), id, row);
    TotalWrite(rows, CashOf(x, Sale), id, row);
    TotalWrite(rows, CashOf(x, Refund), id, row);
  }

  lemma StampTallies(rows: Rows, sessions: Sessions, id: TxnId, row: Txn, sid: SessionId)
    requires AllTallies(rows, sessions) && id in rows && sid in sessions
    requires rows[id].session.None? && row == rows[id].(session := Some(sid))
    ensures AllTallies(rows[id := row], sessions[sid := Tallied(sessions[sid], rows[id], rows[id].kind.Refund?)])
  {
    var tills := sessions[sid := Tallied(sessions[sid], rows[id], rows[id].kind.Refund?)];
    forall x | x in tills ensures TalliesOk(rows[id := row], x, tills[x]) {
      StampTally(rows, id, row, sid, x, sessions[x]);
    }
  }

  /** Stamping the row and adding it to the session's tallies is one and the same change. */
  lemma StampTills(rows: Rows, sessions: Sessions, id: TxnId, sid: SessionId)
    requires TillsOk(rows, sessions) && id in rows && rows[id].session.None? && sid in sessions
    requires sessions[sid].status.Open?
    ensures TillsOk(rows[id := rows[id].(session := Some(sid))],
                    sessions[sid := Tallied(sessions[sid], rows[id], rows[id].kind.Refund?)])
  {
    var row := rows[id].(session := Some(sid));
    var tills := sessions[sid := Tallied(sessions[sid], rows[id], rows[id].kind.Refund?)];
    StampTallies(rows, sessions, id, row, sid);
    SameOpen(sessions, tills);
  }

  lemma SameOpen(before: Sessions, after: Sessions)
    requires OneOpenPerCashier(before)
    requires forall x :: x in after && after[x].status.Open? ==>
               x in before && before[x].status.Open? && before[x].cashier == after[x].cashier
    ensures OneOpenPerCashier(after)
  {
    forall a, b, cashier | IsOpenFor(after, a, cashier) && IsOpenFor(after, b, cashier) ensures a == b {
      assert IsOpenFor(before, a, cashier) && IsOpenFor(before, b, cashier);
    }
  }
}
