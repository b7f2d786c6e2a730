/** A run that breaks the documented drawer law: one cash sale of 5.00, refunded in cash. */
module Witness {
  import opened PosTypes
  import opened Money
  import opened Store
  import opened TillSessions
  import opened Settlement
  import opened Protocol
  import opened Theorems

  const CONFIG := Config(Rate(81, 1000), 90, "station")
  const ITEM := LineIn("sku", "item", "w", "b", 1, false)
  const TILL := Till("ann", "station", Open, 10000, 0, 0, 0, 0, None, None, None)

  lemma OpenSessionIs(sessions: Sessions, sid: SessionId, cashier: string)
    requires IsOpenFor(sessions, sid, cashier) && sessions.Keys == {sid}
    ensures OpenSession(sessions, cashier) == Some(sid)
  {
    OpenSessionFound(sessions, cashier);
  }

  lemma TillOpened() returns (s: State)
    ensures Reachable(s) && s == Initial(CONFIG, 0).(sessions := map[0 := TILL])
  {
    hide Reachable;
    var s0 := Initial(CONFIG, 0);
    StartIsReachable(CONFIG, 0);
    s := Apply(s0, EOpenTill(0, "ann", 10000));
    ReachableStep(s0, EOpenTill(0, "ann", 10000));
    NothingOpen("ann");
  }

  lemma StartIsReachable(config: Config, clock: int)
    requires ValidRate(config.rate)
    ensures Reachable(Initial(config, clock))
  {
    assert Initial(config, clock) == Run(Initial(config, clock), []);
  }

  lemma NothingOpen(cashier: string)
    ensures OpenSession(map[], cashier) == None
  {
    OpenSessionFound(map[], cashier);
  }

  lemma OneItemCart()
    ensures ValidRate(CONFIG.rate) && AllPriced([ITEM], map["sku" := 500])
    ensures var cart := PricedCart([ITEM], map["sku" := 500], CONFIG.rate);
            Sum(Subtotals(cart)) == 500 && Sum(Taxes(cart)) == 0
  {
    var cart := PricedCart([ITEM], map["sku" := 500], CONFIG.rate);
    assert cart == [Line(ITEM, 500, 0, 500)];
    assert Subtotals(cart) == [500] && Taxes(cart) == [0];
    assert Sum([500]) == 500 + Sum([500][1..]) && Sum([0]) == 0 + Sum([0][1..]);
  }

  /** The till is opened with 100.00 and a 5.00 sale rung up. */
  lemma RungUp() returns (s: State)
    ensures Reachable(s) && s.config == CONFIG && s.sessions == map[0 := TILL] && s.box.clock == 0
    ensures s.orders == map[] && s.calls == map[0 := ValidateCart(1)] && s.nextCall == 1
    ensures s.rows.Keys == {1} && s.rows[1].kind.Sale? && s.rows[1].status == PendingValidation
    ensures s.rows[1].total == 500 && s.rows[1].cashier == "ann" && s.rows[1].session.None? && s.rows[1].createdAt == 0
    ensures s.rows[1].parent.None?
  {
    hide Reachable, PricedCart, Sum;
    OneItemCart();
    var s1 := TillOpened();
    var start := EStartCheckout(1, [ITEM], "ann", map["sku" := 500]);
    s := Apply(s1, start);
    ReachableStep(s1, start);
    assert s.rows == map[1 := NewSale(s1, PricedCart([ITEM], map["sku" := 500], CONFIG.rate), "ann")];
  }

  /** It is paid in cash and Sentry records it. */
  lemma Recorded() returns (s: State)
    ensures Reachable(s) && s.config == CONFIG && s.sessions == map[0 := TILL] && s.box.clock == 0
    ensures s.orders.Keys == {1} && s.orders[1].soId == 0 && s.calls == map[1 := FirstSend(1)] && s.nextCall == 2
    ensures s.rows.Keys == {1} && s.rows[1].kind.Sale? && s.rows[1].status == PaymentSuccess
    ensures s.rows[1].total == 500 && s.rows[1].payment == Some(Cash) && s.rows[1].createdAt == 0
    ensures s.rows[1].parent.None? && s.rows[1].cashier == "ann" && s.rows[1].session.None?
  {
    hide Reachable;
    var s2 := RungUp();
    var s3 := Apply(s2, EValidationAnswered(0, CartValid));
    ReachableStep(s2, EValidationAnswered(0, CartValid));
    var s4 := Apply(s3, EChargeCash(1, 500));
    ReachableStep(s3, EChargeCash(1, 500));
    var request := RequestFor(s4.rows, 1);
    s := Apply(s4, ESentryRecords(request, 0));
    ReachableStep(s4, ESentryRecords(request, 0));
    assert s.orders == map[1 := Order(0, request)];
  }

  /** The service hears back. */
  lemma Sold() returns (s: State)
    ensures Reachable(s) && s.config == CONFIG && s.box.clock == 0
    ensures s.sessions == map[0 := TILL.(cashSales := 500, transactionCount := 1, cashTransactionCount := 1)]
    ensures s.orders.Keys == {1} && s.orders[1].soId == 0 && s.calls == map[] && s.nextCall == 2
    ensures s.rows.Keys == {1} && s.rows[1].kind.Sale? && s.rows[1].status == Complete
    ensures s.rows[1].total == 500 && s.rows[1].payment == Some(Cash) && s.rows[1].createdAt == 0
    ensures s.rows[1].parent.None?
  {
    hide Reachable, OpenSession;
    var s5 := Recorded();
    OpenSessionIs(s5.sessions, 0, "ann");
    s := Apply(s5, ESentryAnswers(1, true));
    ReachableStep(s5, ESentryAnswers(1, true));
    assert s == FirstAnswered(DropCall(s5, 1), 1, true);
  }

  /** A refund is started and the cash handed back. */
  lemma PaidBack() returns (s: State)
    ensures Reachable(s) && s.config == CONFIG
    ensures s.sessions == map[0 := TILL.(cashSales := 500, transactionCount := 1, cashTransactionCount := 1)]
    ensures s.orders.Keys == {1} && s.orders[1].soId == 0 && s.calls == map[2 := FirstSend(2)]
    ensures s.rows.Keys == {1, 2} && s.rows[1].kind.Sale?
    ensures s.rows[2].kind.Refund? && s.rows[2].status == RefundPaymentSuccess && s.rows[2].parent == Some(1)
    ensures s.rows[2].total == -500 && s.rows[2].payment == Some(Cash) && s.rows[2].cashier == "ann"
    ensures RequestFor(s.rows, 2) in s.wire
  {
    hide Reachable;
    var s6 := Sold();
    assert BlockingRefunds(s6, 1) == {};
    assert LookupRefund(s6, 1).Accepted?;
    var s7 := Apply(s6, EStartRefund(2, 1, "ann"));
    ReachableStep(s6, EStartRefund(2, 1, "ann"));
    s := Apply(s7, EChargeCashRefund(2));
    ReachableStep(s7, EChargeCashRefund(2));
  }

  /** Sentry records the refund. */
  lemma RefundRecorded() returns (s: State)
    ensures Reachable(s) && s.config == CONFIG
    ensures s.sessions == map[0 := TILL.(cashSales := 500, transactionCount := 1, cashTransactionCount := 1)]
    ensures 2 in s.orders && s.calls == map[2 := FirstSend(2)] && s.rows.Keys == {1, 2}
    ensures s.rows[1].kind.Sale? && s.rows[2].kind.Refund? && s.rows[2].parent == Some(1)
    ensures s.rows[2].total == -500 && s.rows[2].payment == Some(Cash) && s.rows[2].cashier == "ann"
  {
    hide Reachable, RequestFor;
    var s8 := PaidBack();
    var request := RequestFor(s8.rows, 2);
    KeyOf(s8, 2);
    s := Apply(s8, ESentryRecords(request, 1));
    ReachableStep(s8, ESentryRecords(request, 1));
  }

  lemma KeyOf(s: State, id: TxnId)
    requires CanRequest(s.rows, id)
    ensures RequestFor(s.rows, id).key == id
  {
  }

  /** The service hears back about the refund. */
  lemma Refunded() returns (s: State)
    ensures Reachable(s)
    ensures s.sessions == map[0 := TILL.(cashSales := 500, cashRefunds := -500, transactionCount := 2,
                                         cashTransactionCount := 2)]
  {
    hide Reachable, OpenSession;
    var s9 := RefundRecorded();
    OpenSessionIs(s9.sessions, 0, "ann");
    s := Apply(s9, ESentryAnswers(2, true));
    ReachableStep(s9, ESentryAnswers(2, true));
    assert s == FirstAnswered(DropCall(s9, 2), 2, true);
  }

  /** After the refund the drawer holds 100.00 again, and the session expects 110.00. */
  lemma DrawerLawFails() returns (s: State)
    ensures Reachable(s) && 0 in s.sessions
    ensures Expected(s.sessions[0]) == 11000
    ensures Drawer(s, 0) == 10000
  {
    hide Reachable;
    s := Refunded();
    TalliesAreTheTenders(s, 0);
  }
}
