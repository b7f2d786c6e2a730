/** Hearing back from Sentry keeps the invariant: the status flip, the sale's link, the till stamp and the outbox
    entry are one commit. */
module Settling {
  import opened PosTypes
  import opened Money
  import opened Store
  import opened TillSessions
  import opened Settlement
  import opened Invariants
  import opened Writes
  import opened Preservation
  import Outbox = FabricOutbox

  /** Everything but the outbox and the till after `Completed`. */
  lemma CompletedKeeps(s: State, id: TxnId)
    requires Inv(s) && id in s.rows && Paid(s.rows[id].status) && s.rows[id].status != Complete && id in s.orders
    requires forall c :: c in s.calls && s.calls[c].txn == id ==> s.calls[c].Resend?
    ensures BooksOk(s.rates, CompletedRows(s.rows, id, s.orders[id].soId))
    ensures RemoteOk(CompletedRows(s.rows, id, s.orders[id].soId), s.wire, s.orders, s.calls, s.nextCall)
  {
    RowFacts(s, id);
    hide LocalOk, RemoteOk, RowsOk, CartsOk, Exclusive, LinksOk, LedgerOk;
    CompletedBooks(s.rates, s.rows, id, s.orders[id].soId);
    CompletedRemote(s.rows, s.wire, s.orders, s.calls, s.nextCall, id);
  }

  /** Linking a sale to its refund touches neither the outbox nor the till. */
  lemma LinkLocal(rows: Rows, entries: seq<Outbox.Entry>, sessions: Sessions, p: TxnId, r: TxnId)
    requires LocalOk(rows, entries, sessions) && p in rows
    ensures LocalOk(rows[p := rows[p].(refundTxn := Some(r))], entries, sessions)
  {
    hide EntriesOk, TillsOk;
    GrowLocal(rows, entries, sessions, p, rows[p].(refundTxn := Some(r)));
  }

  // ---- a retry succeeds ----

  /** A row already COMPLETE is left exactly as it was. */
  lemma CompletedAgain(s: State, id: TxnId)
    requires Inv(s) && id in s.rows && s.rows[id].status == Complete && id in s.orders
    ensures Completed(s, id, s.orders[id].soId) == s
  {
    hide LocalOk, CartsOk, Exclusive, LedgerOk, WireOk, CallsOk;
    assert ParentOk(s.rows, id) && LinkOk(s.rows, id);
    var row := s.rows[id];
    assert row.(status := Complete, so := Some(s.orders[id].soId)) == row;
    if row.kind.Refund? {
      assert s.rows[row.parent.value].(refundTxn := Some(id)) == s.rows[row.parent.value];
    }
    assert CompletedRows(s.rows, id, s.orders[id].soId) == s.rows;
  }

  lemma RetriedLocal(s: State, id: TxnId)
    requires Inv(s) && id in s.rows && Settled(s.rows[id].status) && s.rows[id].status != Complete && id in s.orders
    ensures LocalOk(CompletedRows(s.rows, id, s.orders[id].soId), s.box.entries, s.sessions)
  {
    hide Inv, LocalOk, ParentOk, CartsOk;
    Parts(s);
    RowFacts(s, id);
    hide BooksOk, RemoteOk, ParentsOk, EntriesOk, TillsOk;
    var row := s.rows[id].(status := Complete, so := Some(s.orders[id].soId));
    GrowLocal(s.rows, s.box.entries, s.sessions, id, row);
    if row.kind.Refund? && HasParent(s.rows, row) {
      LinkLocal(s.rows[id := row], s.box.entries, s.sessions, row.parent.value, id);
    }
  }

  lemma RetryAnsweredKeeps(s: State, id: TxnId, ok: bool)
    requires Inv(s) && id in s.rows && Settled(s.rows[id].status) && (ok ==> id in s.orders)
    requires forall c :: c in s.calls && s.calls[c].txn == id ==> s.calls[c].Resend?
    ensures Inv(RetryAnswered(s, id, ok))
  {
    if ok {
      if s.rows[id].status == Complete {
        CompletedAgain(s, id);
      } else {
        CompletedKeeps(s, id);
        RetriedLocal(s, id);
        hide BooksOk, RemoteOk, LocalOk;
      }
    }
  }

  // ---- the first send is answered ----

  lemma BoxAppends(s: State, id: TxnId)
    requires Outbox.BoxOk(s.box) && id in s.rows
    ensures Outbox.BoxOk(Enqueued(s, id).box)
  {
    Outbox.ApplyKeepsBox(s.box, Outbox.Enqueue(id, BuildPayload(id, s.rows[id])));
  }

  lemma FirstFailedKeeps(s: State, id: TxnId)
    requires Inv(s) && id in s.rows && NoCallFor(s.calls, id)
    requires s.rows[id].status == SuccessStatus(s.rows[id].kind)
    ensures Inv(FirstAnswered(s, id, false))
  {
    hide BooksOk, RemoteOk, LocalOk, Outbox.BoxOk;
    var row := s.rows[id].(status := UnrecordedStatus(s.rows[id].kind));
    FirstFailedTable(s, id, row);
    FirstFailedLocal(s, id, row);
    BoxAppends(SetRow(s, id, row), id);
  }

  lemma FirstFailedTable(s: State, id: TxnId, row: Txn)
    requires Inv(s) && id in s.rows && NoCallFor(s.calls, id)
    requires s.rows[id].status == SuccessStatus(s.rows[id].kind)
    requires row == s.rows[id].(status := UnrecordedStatus(s.rows[id].kind))
    ensures BooksOk(s.rates, s.rows[id := row])
    ensures RemoteOk(s.rows[id := row], s.wire, s.orders, s.calls, s.nextCall)
  {
    hide Inv, BooksOk, RemoteOk, LocalOk, ParentsOk, EntriesOk, TillsOk, CartsOk;
    Parts(s);
    RowFacts(s, id);
    GrowBooks(s.rates, s.rows, id, row);
    GrowRemote(s.rows, s.wire, s.orders, s.calls, s.nextCall, id, row);
  }

  lemma FirstFailedLocal(s: State, id: TxnId, row: Txn)
    requires Inv(s) && id in s.rows && s.rows[id].status == SuccessStatus(s.rows[id].kind)
    requires row == s.rows[id].(status := UnrecordedStatus(s.rows[id].kind))
    ensures LocalOk(s.rows[id := row], Enqueued(SetRow(s, id, row), id).box.entries, s.sessions)
  {
    hide Inv, BooksOk, RemoteOk, ParentsOk, EntriesOk, TillsOk, CartsOk;
    Parts(s);
    RowFacts(s, id);
    SettleEntries(s.rows, s.box.entries, id, row, Outbox.NewEntry(id, BuildPayload(id, row), s.box.clock));
    WriteTills(s.rows, s.sessions, id, row);
  }

  /** The completed row as the till stamps it. */
  ghost function StampedRow(s: State, id: TxnId, soId: SoId): Txn
    requires id in s.rows
  {
    var row := s.rows[id].(status := Complete, so := Some(soId));
    match OpenSession(s.sessions, row.cashier)
    case None => row
    case Some(sid) => row.(session := Some(sid))
  }

  ghost function StampedSessions(s: State, id: TxnId): Sessions
    requires id in s.rows
  {
    match OpenSession(s.sessions, s.rows[id].cashier)
    case None => s.sessions
    case Some(sid) => s.sessions[sid := Tallied(s.sessions[sid], s.rows[id], s.rows[id].kind.Refund?)]
  }

  ghost function LinkedRows(s: State, id: TxnId, soId: SoId): Rows
    requires id in s.rows
  {
    var row := s.rows[id];
    if row.kind.Refund? && HasParent(s.rows, row)
    then s.rows[row.parent.value := s.rows[row.parent.value].(refundTxn := Some(id))]
    else s.rows
  }

  /** The first success, written as one new row on top of the linked sale. */
  lemma FirstSucceededShape(s: State, id: TxnId)
    requires id in s.rows && id in s.orders
    requires s.rows[id].kind.Refund? ==> s.rows[id].parent != Some(id)
    ensures var soId := s.orders[id].soId; var row := StampedRow(s, id, soId);
            FirstAnswered(s, id, true) ==
              s.(rows := LinkedRows(s, id, soId)[id := row], sessions := StampedSessions(s, id),
                 box := s.box.(entries := s.box.entries + [Outbox.NewEntry(id, BuildPayload(id, row), s.box.clock)]))
  {
    var soId := s.orders[id].soId;
    var after := FirstAnswered(s, id, true);
    var s1 := Completed(s, id, soId);
    assert s1.rows[id] == s.rows[id].(status := Complete, so := Some(soId));
    assert after.rows == LinkedRows(s, id, soId)[id := StampedRow(s, id, soId)];
  }

  lemma LinkedLocal(s: State, id: TxnId, soId: SoId)
    requires LocalOk(s.rows, s.box.entries, s.sessions) && id in s.rows
    requires s.rows[id].kind.Refund? ==> s.rows[id].parent != Some(id)
    ensures LocalOk(LinkedRows(s, id, soId), s.box.entries, s.sessions)
    ensures id in LinkedRows(s, id, soId) && LinkedRows(s, id, soId)[id] == s.rows[id]
  {
    hide LocalOk;
    if s.rows[id].kind.Refund? && HasParent(s.rows, s.rows[id]) {
      LinkLocal(s.rows, s.box.entries, s.sessions, s.rows[id].parent.value, id);
    }
  }

  lemma StampedLocal(linked: Rows, s: State, id: TxnId, soId: SoId, row: Txn)
    requires LocalOk(linked, s.box.entries, s.sessions) && id in s.rows && id in linked && linked[id] == s.rows[id]
    requires RowOk(s.rows[id]) && s.rows[id].status == SuccessStatus(s.rows[id].kind)
    requires row == StampedRow(s, id, soId)
    ensures LocalOk(linked[id := row],
                    s.box.entries + [Outbox.NewEntry(id, BuildPayload(id, row), s.box.clock)], StampedSessions(s, id))
  {
    hide EntriesOk, TillsOk;
    SettleEntries(linked, s.box.entries, id, row, Outbox.NewEntry(id, BuildPayload(id, row), s.box.clock));
    FirstSucceededTill(linked, s, id, row);
  }

  lemma FirstSucceededLocal(s: State, id: TxnId)
    requires Inv(s) && id in s.rows && s.rows[id].status == SuccessStatus(s.rows[id].kind) && id in s.orders
    ensures var after := FirstAnswered(s, id, true); LocalOk(after.rows, after.box.entries, after.sessions)
  {
    hide Inv, BooksOk, RemoteOk, LocalOk, ParentsOk, EntriesOk, TillsOk, CartsOk;
    Parts(s);
    RowFacts(s, id);
    var soId := s.orders[id].soId;
    LinkedLocal(s, id, soId);
    StampedLocal(LinkedRows(s, id, soId), s, id, soId, StampedRow(s, id, soId));
    FirstSucceededShape(s, id);
  }

  lemma FirstSucceededTill(linked: Rows, s: State, id: TxnId, row: Txn)
    requires TillsOk(linked, s.sessions) && id in s.rows && id in linked && linked[id] == s.rows[id]
    requires s.rows[id].session.None?
    requires exists soId :: row == StampedRow(s, id, soId)
    ensures TillsOk(linked[id := row], StampedSessions(s, id))
  {
    hide TillsOk;
    var soId :| row == StampedRow(s, id, soId);
    var plain := s.rows[id].(status := Complete, so := Some(soId));
    WriteTills(linked, s.sessions, id, plain);
    match OpenSession(s.sessions, plain.cashier)
    case None =>
    case Some(sid) =>
      StampTills(linked[id := plain], s.sessions, id, sid);
      assert linked[id := plain][id := row] == linked[id := row];
      assert Tallied(s.sessions[sid], plain, plain.kind.Refund?)
          == Tallied(s.sessions[sid], s.rows[id], s.rows[id].kind.Refund?);
  }

  /** The stamp itself touches neither the books nor what Sentry holds. */
  lemma FirstSucceededTable(s: State, id: TxnId)
    requires Inv(s) && id in s.rows && NoCallFor(s.calls, id)
    requires s.rows[id].status == SuccessStatus(s.rows[id].kind) && id in s.orders
    ensures var after := FirstAnswered(s, id, true);
            BooksOk(s.rates, after.rows) && RemoteOk(after.rows, s.wire, s.orders, s.calls, s.nextCall)
  {
    hide Inv, BooksOk, RemoteOk, CartsOk;
    RowFacts(s, id);
    CompletedKeeps(s, id);
    var soId := s.orders[id].soId;
    var rows1 := CompletedRows(s.rows, id, soId);
    var row := StampedRow(s, id, soId);
    FirstSucceededShape(s, id);
    assert rows1[id := row] == LinkedRows(s, id, soId)[id := row];
    StampTable(s.rates, rows1, s.wire, s.orders, s.calls, s.nextCall, id, row);
  }

  lemma StampTable(rates: set<Rate>, rows: Rows, wire: set<Request>, orders: Orders, calls: Calls, nextCall: nat,
                   id: TxnId, row: Txn)
    requires BooksOk(rates, rows) && RemoteOk(rows, wire, orders, calls, nextCall)
    requires id in rows && rows[id].status == Complete && row == rows[id].(session := row.session)
    ensures BooksOk(rates, rows[id := row]) && RemoteOk(rows[id := row], wire, orders, calls, nextCall)
  {
    assert RowOk(rows[id]) && rows[id].so == Some(orders[id].soId);
    hide CartsOk, Exclusive, LinksOk, LedgerOk, RowsOk, RemoteOk;
    GrowBooks(rates, rows, id, row);
    GrowRemote(rows, wire, orders, calls, nextCall, id, row);
  }

  lemma FirstSucceededKeeps(s: State, id: TxnId)
    requires Inv(s) && id in s.rows && NoCallFor(s.calls, id)
    requires s.rows[id].status == SuccessStatus(s.rows[id].kind) && id in s.orders
    ensures Inv(FirstAnswered(s, id, true))
  {
    hide BooksOk, RemoteOk, LocalOk, Outbox.BoxOk, CartsOk;
    RowFacts(s, id);
    FirstSucceededTable(s, id);
    FirstSucceededLocal(s, id);
    FirstSucceededShape(s, id);
    BoxAppends(Attribute(Completed(s, id, s.orders[id].soId), id, s.rows[id].kind.Refund?), id);
  }

  lemma SentryAnswersKeeps(s: State, c: nat, ok: bool)
    requires Inv(s)
    ensures Inv(SentryAnswers(s, c, ok))
  {
    if c in s.calls && s.calls[c].txn in s.rows && (ok ==> s.calls[c].txn in s.orders) {
      hide Inv;
      var id := s.calls[c].txn;
      var dropped := DropCall(s, c);
      DroppedCall(s, c);
      match s.calls[c]
      case ValidateCart(_) =>
      case FirstSend(_) =>
        AnsweredQuiet(s, c);
        if ok { FirstSucceededKeeps(dropped, id); } else { FirstFailedKeeps(dropped, id); }
      case Resend(_) =>
        ResendQuiet(s, c);
        RetryAnsweredKeeps(dropped, id, ok);
    }
  }

  lemma ResendQuiet(s: State, c: nat)
    requires Inv(s) && c in s.calls && s.calls[c].Resend?
    ensures CallOk(s.rows, s.wire, s.calls[c])
    ensures forall d :: d in s.calls && s.calls[d].txn == s.calls[c].txn ==> s.calls[d].Resend?
  {
    hide BooksOk, LocalOk;
    assert CallOk(s.rows, s.wire, s.calls[c]);
    forall d | d in s.calls && s.calls[d].txn == s.calls[c].txn ensures s.calls[d].Resend? {
      assert CallOk(s.rows, s.wire, s.calls[d]);
    }
  }
}
