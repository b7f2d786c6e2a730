/** Runs that reach the accidents of a late terminal answer (a cancelled sale that is paid, a paid sale that is
    cancelled, a sale charged twice, a refund paid twice), and of an answer that names another amount. */
module LateWitness {
  import opened PosTypes
  import opened Money
  import opened Sums
  import opened Store
  import opened TillSessions
  import opened Settlement
  import opened Protocol
  import opened Invariants
  import opened Theorems
  import opened Payouts
  import opened TerminalAwaits
  import opened Witness

  const CARD := CardInfo(None, None, None, Some("ref"))
  const BY_CARD := WindcaveAnswer(true, false, Some(WindcaveResult(true, None, CARD)))

  /** A sale of 5.00 is ready to be paid; `charge_card` may now be waiting for the terminal. */
  lemma ReadyToPay() returns (s: State)
    ensures Reachable(s) && s.config == CONFIG && s.sessions == map[0 := TILL] && s.box.clock == 0
    ensures s.orders == map[] && s.calls == map[] && s.nextCall == 1
    ensures s.rows.Keys == {1} && s.rows[1].kind.Sale? && s.rows[1].status == AwaitingPayment
    ensures s.rows[1].total == 500 && s.rows[1].cashier == "ann" && s.rows[1].session.None? && s.rows[1].createdAt == 0
    ensures s.rows[1].parent.None?
  {
    hide Reachable;
    var rung := RungUp();
    s := Apply(rung, EValidationAnswered(0, CartValid));
    ReachableStep(rung, EValidationAnswered(0, CartValid));
  }

  /** Cancelled while the terminal is thinking, then approved: a reachable table in which the sale is CANCELLED, and the
      late write that makes it PAYMENT_SUCCESS. */
  lemma SaleRevived() returns (cancelled: State)
    ensures Reachable(cancelled) && 1 in cancelled.rows && cancelled.rows[1].status == Cancelled
    ensures CardCharged(cancelled, 1, Answered(BY_CARD)).0.rows[1].status == PaymentSuccess
  {
    hide Reachable;
    var s := ReadyToPay();
    CancelledSaleRevived(s, 1, BY_CARD);
    cancelled := CancelCheckout(s, 1).0;
  }

  /** Two overlapping `charge_card` calls approved with different references: one key, two requests. */
  lemma ChargedTwice() returns (both: State)
    ensures exists q, r :: q in both.wire && r in both.wire && q.key == r.key == 1 && q != r
  {
    hide Reachable, CardCharged, RequestFor, CanRequest;
    var s := ReadyToPay();
    var again := WindcaveAnswer(true, false, Some(WindcaveResult(true, None, CARD.(ref := Some("ref2")))));
    OverlappingCharges(s, 1, BY_CARD, again);
    both := CardCharged(CardCharged(s, 1, Answered(BY_CARD)).0, 1, Answered(again)).0;
  }

  /** Two identical approvals, both sends answered with an error: two outbox entries for one sale. */
  lemma EnqueuedTwice() returns (s: State, after: State)
    ensures Reachable(s) && LoadForPayment(s, 1).Accepted?
    ensures var first := CardCharged(s, 1, Answered(BY_CARD)).0;
            && 1 in first.rows
            && after == SentryAnswers(SentryAnswers(CardCharged(first, 1, Answered(BY_CARD)).0, s.nextCall, false),
                                      first.nextCall, false)
    ensures EntryCount(after.box.entries, 1) == 2
  {
    hide Reachable, CardCharged, SentryAnswers, EntryCount, CanRequest;
    s := ReadyToPay();
    OverlappingChargesAnswered(s, 1, BY_CARD, BY_CARD, None, false, false);
    var first := CardCharged(s, 1, Answered(BY_CARD)).0;
    after := SentryAnswers(SentryAnswers(CardCharged(first, 1, Answered(BY_CARD)).0, s.nextCall, false),
                           first.nextCall, false);
  }

  const UNDECIDED := WindcaveAnswer(false, false, None)

  /** The card is at the terminal; `cancel_checkout` may now be waiting for it. */
  lemma InFlight() returns (s: State)
    ensures Reachable(s) && s.config == CONFIG && s.sessions == map[0 := TILL] && s.box.clock == 0
    ensures s.orders == map[] && s.calls == map[] && s.nextCall == 1
    ensures s.rows.Keys == {1} && s.rows[1].kind.Sale? && s.rows[1].status == PaymentInFlight
    ensures s.rows[1].total == 500 && s.rows[1].cashier == "ann" && s.rows[1].session.None? && s.rows[1].createdAt == 0
    ensures s.rows[1].payment == Some(Card) && s.rows[1].parent.None?
  {
    hide Reachable;
    var ready := ReadyToPay();
    s := Apply(ready, EChargeCard(1, Answered(UNDECIDED)));
    ReachableStep(ready, EChargeCard(1, Answered(UNDECIDED)));
  }

  /** The poller learns of the approval, and Sentry records the sale. */
  lemma SoldByCard(waiting: State) returns (request: Request, s: State)
    requires Reachable(waiting) && waiting.config == CONFIG && waiting.sessions == map[0 := TILL]
    requires waiting.box.clock == 0 && waiting.orders == map[] && waiting.calls == map[] && waiting.nextCall == 1
    requires waiting.rows.Keys == {1} && waiting.rows[1].kind.Sale? && waiting.rows[1].status == PaymentInFlight
    requires waiting.rows[1].total == 500 && waiting.rows[1].cashier == "ann" && waiting.rows[1].session.None?
    requires waiting.rows[1].createdAt == 0 && waiting.rows[1].payment == Some(Card) && waiting.rows[1].parent.None?
    ensures ValidRate(Apply(waiting, EPollCard(1, Some(BY_CARD))).config.rate)
    ensures s == Apply(Apply(waiting, EPollCard(1, Some(BY_CARD))), ESentryRecords(request, 0))
    ensures Reachable(s) && s.config == CONFIG && s.sessions == map[0 := TILL] && s.box.clock == 0
    ensures s.orders.Keys == {1} && s.orders[1].soId == 0 && s.calls == map[1 := FirstSend(1)] && s.nextCall == 2
    ensures s.rows.Keys == {1} && s.rows[1].kind.Sale? && s.rows[1].status == PaymentSuccess
    ensures s.rows[1].total == 500 && s.rows[1].cashier == "ann" && s.rows[1].createdAt == 0
    ensures s.rows[1].payment == Some(Card) && s.rows[1].windcaveRef == Some("ref") && s.rows[1].parent.None?
  {
    hide Reachable;
    var paid := Apply(waiting, EPollCard(1, Some(BY_CARD)));
    ReachableStep(waiting, EPollCard(1, Some(BY_CARD)));
    request := RequestFor(paid.rows, 1);
    s := Apply(paid, ESentryRecords(request, 0));
    ReachableStep(paid, ESentryRecords(request, 0));
    assert s.orders == map[1 := Order(0, request)];
  }

  /** The service hears back: the sale is COMPLETE, a run away from where it was in flight. */
  lemma CompletedByCard() returns (waiting: State, events: seq<Event>, s: State)
    ensures Reachable(waiting) && ValidRate(waiting.config.rate) && 1 in waiting.rows
    ensures waiting.rows[1].status == PaymentInFlight && waiting.rows[1].payment == Some(Card)
    ensures s == Run(waiting, events)
    ensures Reachable(s) && s.config == CONFIG && s.box.clock == 0
    ensures s.rows.Keys == {1} && s.rows[1].kind.Sale? && s.rows[1].status == Complete
    ensures s.rows[1].total == 500 && s.rows[1].createdAt == 0 && s.rows[1].parent.None?
    ensures s.rows[1].payment == Some(Card) && s.rows[1].windcaveRef == Some("ref")
  {
    hide Reachable, OpenSession, Run;
    waiting := InFlight();
    var request, sold := SoldByCard(waiting);
    OpenSessionIs(sold.sessions, 0, "ann");
    s := Apply(sold, ESentryAnswers(1, true));
    ReachableStep(sold, ESentryAnswers(1, true));
    assert s == FirstAnswered(DropCall(sold, 1), 1, true);
    events := [EPollCard(1, Some(BY_CARD)), ESentryRecords(request, 0), ESentryAnswers(1, true)];
    ThreeSteps(waiting, events);
  }

  lemma ThreeSteps(s: State, events: seq<Event>)
    requires ValidRate(s.config.rate) && |events| == 3
    ensures ValidRate(Apply(s, events[0]).config.rate)
    ensures ValidRate(Apply(Apply(s, events[0]), events[1]).config.rate)
    ensures Run(s, events) == Apply(Apply(Apply(s, events[0]), events[1]), events[2])
  {
    hide Apply;
    RunThen(s, [], events[0]);
    RunThen(s, [events[0]], events[1]);
    RunThen(s, [events[0], events[1]], events[2]);
    assert [] + [events[0]] == [events[0]] && [events[0]] + [events[1]] == [events[0], events[1]];
    assert [events[0], events[1]] + [events[2]] == events;
  }

  /** The sale was in flight when `cancel_checkout` began to wait; while it waits the sale completes; its late write
      leaves a CANCELLED row with a tender, an order at Sentry and an outbox entry. */
  lemma CompleteSaleCancelled() returns (waiting: State, events: seq<Event>, after: State)
    ensures Reachable(waiting) && ValidRate(waiting.config.rate) && 1 in waiting.rows
    ensures waiting.rows[1].status == PaymentInFlight && waiting.rows[1].payment == Some(Card)
    ensures Reachable(Run(waiting, events)) && 1 in Run(waiting, events).rows
    ensures Run(waiting, events).rows[1].status == Complete && after == SetStatus(Run(waiting, events), 1, Cancelled)
    ensures after.rows[1].status == Cancelled && |after.rows[1].tenders| == 1 && 1 in after.orders
    ensures EntryCount(after.box.entries, 1) == 1 && !Inv(after)
  {
    hide Inv, Reachable, Run, EntryCount;
    var s;
    waiting, events, s := CompletedByCard();
    LateCancelOfCompleteSale(s, 1);
    LateCancelKeepsInvariant(s, 1);
    after := SetStatus(s, 1, Cancelled);
  }

  /** The refund is started and `charge_card_refund` waits. */
  lemma RefundWaiting() returns (s: State)
    ensures Reachable(s) && s.config == CONFIG && AwaitsTerminal(s, 2, 1) && InWindow(s, 1)
    ensures s.rows.Keys == {1, 2} && s.rows[1].total == 500
  {
    hide Reachable, Run, AwaitsTerminal, InWindow, StartRefund;
    var _, _, sold := CompletedByCard();
    RefundStarts(sold);
    s := Apply(sold, EStartRefund(2, 1, "ann"));
    ReachableStep(sold, EStartRefund(2, 1, "ann"));
  }

  lemma RefundStarts(sold: State)
    requires sold.config == CONFIG && sold.box.clock == 0
    requires sold.rows.Keys == {1} && sold.rows[1].kind.Sale? && sold.rows[1].status == Complete
    requires sold.rows[1].total == 500 && sold.rows[1].createdAt == 0 && sold.rows[1].parent.None?
    requires sold.rows[1].payment == Some(Card) && sold.rows[1].windcaveRef == Some("ref")
    ensures var s := StartRefund(sold, 2, 1, "ann").0;
            && s.config == CONFIG && s.rows.Keys == {1, 2} && s.rows[1].total == 500
            && AwaitsTerminal(s, 2, 1) && InWindow(s, 1)
  {
    assert BlockingRefunds(sold, 1) == {};
    assert LookupRefund(sold, 1).Accepted?;
  }

  /** A reachable table from which the late approval leaves 10.00 handed back for a sale of 5.00. */
  lemma PaidTwice() returns (mid: State)
    ensures Reachable(mid) && 1 in mid.rows && mid.rows[1].total == 500
    ensures 2 in mid.rows && mid.rows[2].status == Cancelled
    ensures Total(RefundCharged(mid, 2, Answered(BY_CARD)).0.rows, PaidOutFor(1)) == 1000
  {
    hide Reachable, Replaced, RefundCharged, PaidOutFor, RefundedFor, AwaitsTerminal, InWindow;
    var s := RefundWaiting();
    ReplacedFacts(s, 2, 3, 1, "ann", BY_CARD);
    RefundPaidTwice(s, 2, 3, 1, "ann", BY_CARD, BY_CARD);
    mid := Replaced(s, 2, 3, 1, "ann", BY_CARD);
  }

  const OVER := WindcaveAnswer(true, false, Some(WindcaveResult(true, Some(1000000), CARD)))

  /** A reachable table in which 10,000.00 is recorded as handed back, by one refund, for a sale of 5.00: the terminal
      named the amount. */
  lemma PaidTooMuch() returns (s: State)
    ensures Reachable(s) && 1 in s.rows && s.rows[1].total == 500 && |BlockingRefunds(s, 1)| <= 1
    ensures Total(s.rows, PaidOutFor(1)) == 1000000
  {
    hide Reachable, PaidOutFor, AwaitsTerminal, BlockingRefunds;
    var before := RefundWaiting();
    OverPaid(before);
    s := Apply(before, EChargeCardRefund(2, Answered(OVER)));
    ReachableStep(before, EChargeCardRefund(2, Answered(OVER)));
    PayoutIsTheTotalExactly(before, EChargeCardRefund(2, Answered(OVER)), [], 2, 1);
    RefundExclusion(s, 1);
  }

  lemma OverPaid(s: State)
    requires AwaitsTerminal(s, 2, 1) && ValidRate(s.config.rate)
    ensures !Paid(s.rows[2].status) && s.rows[2].kind.Refund? && s.rows[2].parent == Some(1)
    ensures var after := Apply(s, EChargeCardRefund(2, Answered(OVER)));
            && 2 in after.rows && Paid(after.rows[2].status) && 1 in after.rows && 1 in s.rows
            && after.rows[1] == s.rows[1]
  {
  }
}
