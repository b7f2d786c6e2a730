/** Opening and closing a till, and attributing a finished transaction to it. */
module TillService {
  import opened PosTypes
  import opened Store
  import opened TillSessions
  import opened ServiceDatabase

  method OpenSessionFor(db: Database, sid: SessionId, cashier: string, openingFloat: int) returns (reply: Reply)
    requires OneOpenPerCashier(db.sessions)
    modifies db`sessions
    ensures (db.View(), reply) == OpenTill(old(db.View()), sid, cashier, openingFloat)
  {
    var existing := db.FindOpenSession(cashier);
    if existing.Some? { return Rejected(AlreadyOpen); }
    if sid in db.sessions { return Rejected(DuplicateKey); }
    var session := Till(cashier, db.config.station, Open, openingFloat, 0, 0, 0, 0, None, None, None);
    db.sessions := db.sessions[sid := session];
    return Accepted;
  }

  ghost predicate HasOpenTill(sessions: Sessions, cashier: string) {
    exists sid :: sid in sessions && sessions[sid].status.Open? && sessions[sid].cashier == cashier
  }

  /** Count the opening float, then open.  An open session is reported before a bad count sheet, and with neither in
      the way, and an unused identifier, the till opens with the float counted. */
  method OpenWithCount(db: Database, sid: SessionId, cashier: string, counts: map<string, int>) returns (reply: Reply)
    requires OneOpenPerCashier(db.sessions)
    modifies db`sessions
    ensures var error := SheetError(counts);
            reply == if HasOpenTill(old(db.sessions), cashier) then Rejected(AlreadyOpen)
                     else if error.Some? then Rejected(error.value)
                     else if sid in old(db.sessions) then Rejected(DuplicateKey)
                     else Accepted
    ensures reply.Rejected? ==> db.View() == old(db.View())
    ensures reply.Accepted? ==>
              && (db.View(), reply) == OpenTill(old(db.View()), sid, cashier, SheetValue(counts))
              && sid in db.sessions && db.sessions == old(db.sessions)[sid := db.sessions[sid]]
              && var till := db.sessions[sid];
                 && till.cashier == cashier && till.status.Open? && till.openingFloat == SheetValue(counts)
                 && till.terminal == db.config.station
                 && till.cashSales == till.cashRefunds == till.transactionCount == till.cashTransactionCount == 0
                 && till.closingCount == till.expectedClosing == till.variance == None
  {
    OpenSessionFound(db.sessions, cashier);
    var existing := db.FindOpenSession(cashier);
    if existing.Some? { return Rejected(AlreadyOpen); }
    var cents, error := DenominationsToCents(counts);
    if error.Some? { return Rejected(error.value); }
    reply := OpenSessionFor(db, sid, cashier, cents.value);
  }

  method CloseSessionFor(db: Database, cashier: string, count: int) returns (reply: Reply)
    requires OneOpenPerCashier(db.sessions)
    modifies db`sessions
    ensures (db.View(), reply) == CloseTill(old(db.View()), cashier, count)
  {
    var found := db.FindOpenSession(cashier);
    if found.None? { return Rejected(NoOpenSession); }
    var session := db.sessions[found.value];
    var expected := session.openingFloat + session.cashSales - session.cashRefunds;
    session := session.(status := Closed);
    session := session.(closingCount := Some(count), expectedClosing := Some(expected));
    session := session.(variance := Some(count - expected));
    db.sessions := db.sessions[found.value := session];
    return Accepted;
  }

  /** Count the drawer, then close.  No open session is reported before a bad count sheet; otherwise the session is
      closed with the count, whatever the variance. */
  method CloseWithCount(db: Database, cashier: string, counts: map<string, int>) returns (reply: Reply)
    requires OneOpenPerCashier(db.sessions)
    modifies db`sessions
    ensures var error := SheetError(counts);
            reply == if !HasOpenTill(old(db.sessions), cashier) then Rejected(NoOpenSession)
                     else if error.Some? then Rejected(error.value)
                     else Accepted
    ensures reply.Rejected? ==> db.View() == old(db.View())
    ensures reply.Accepted? ==>
              && (db.View(), reply) == CloseTill(old(db.View()), cashier, SheetValue(counts))
              && !HasOpenTill(db.sessions, cashier)
              && forall sid :: sid in old(db.sessions) && old(db.sessions)[sid].status.Open?
                               && old(db.sessions)[sid].cashier == cashier ==>
                   && sid in db.sessions && db.sessions == old(db.sessions)[sid := db.sessions[sid]]
                   && var before, count := old(db.sessions)[sid], SheetValue(counts);
                      var expected := before.openingFloat + before.cashSales - before.cashRefunds;
                      db.sessions[sid] == before.(status := Closed, closingCount := Some(count),
                                                  expectedClosing := Some(expected), variance := Some(count - expected))
  {
    OpenSessionFound(db.sessions, cashier);
    ghost var before := db.sessions;
    var found := db.FindOpenSession(cashier);
    if found.None? { return Rejected(NoOpenSession); }
    forall sid | sid in before && before[sid].status.Open? && before[sid].cashier == cashier
      ensures sid == found.value
    {
      assert IsOpenFor(before, sid, cashier) && IsOpenFor(before, found.value, cashier);
    }
    var cents, error := DenominationsToCents(counts);
    if error.Some? { return Rejected(error.value); }
    reply := CloseSessionFor(db, cashier, cents.value);
  }

  method AttributeTransaction(db: Database, id: TxnId, isRefund: bool)
    requires id in db.rows && OneOpenPerCashier(db.sessions)
    modifies db`rows, db`sessions
    ensures db.View() == Attribute(old(db.View()), id, isRefund)
    ensures !HasOpenTill(old(db.sessions), old(db.rows)[id].cashier) ==> db.View() == old(db.View())
    ensures forall sid :: sid in old(db.sessions) && old(db.sessions)[sid].status.Open?
                          && old(db.sessions)[sid].cashier == old(db.rows)[id].cashier ==>
              && db.rows == old(db.rows)[id := old(db.rows)[id].(session := Some(sid))]
              && sid in old(db.sessions) && sid in db.sessions
              && db.sessions == old(db.sessions)[sid := db.sessions[sid]]
              && var before, now, row := old(db.sessions)[sid], db.sessions[sid], old(db.rows)[id];
                 && now == before.(transactionCount := now.transactionCount, cashSales := now.cashSales,
                                   cashTransactionCount := now.cashTransactionCount, cashRefunds := now.cashRefunds)
                 && now.transactionCount == before.transactionCount + 1
                 && now.cashTransactionCount
                    == before.cashTransactionCount + (if row.payment == Some(Cash) then 1 else 0)
                 && now.cashRefunds
                    == before.cashRefunds + (if row.payment == Some(Cash) && isRefund then row.total else 0)
                 && now.cashSales
                    == before.cashSales + (if row.payment == Some(Cash) && !isRefund then row.total else 0)
  {
    var txn := db.rows[id];
    OpenSessionFound(db.sessions, txn.cashier);
    ghost var before := db.sessions;
    var found := db.FindOpenSession(txn.cashier);
    if found.None? { return; }
    forall sid | sid in before && before[sid].status.Open? && before[sid].cashier == txn.cashier
      ensures sid == found.value
    {
      assert IsOpenFor(before, sid, txn.cashier) && IsOpenFor(before, found.value, txn.cashier);
    }
    var session := db.sessions[found.value];
    txn := txn.(session := found);
    session := session.(transactionCount := session.transactionCount + 1);
    if txn.payment == Some(Cash) {
      session := session.(cashTransactionCount := session.cashTransactionCount + 1);
      if isRefund {
        session := session.(cashRefunds := session.cashRefunds + txn.total);
      } else {
        session := session.(cashSales := session.cashSales + txn.total);
      }
    }
    db.sessions := db.sessions[found.value := session];
    db.rows := db.rows[id := txn];
  }
}
