/** What a row's tender records: what the step that paid the row brought, for ever; and so when a sale's refund hands
    back exactly what the sale took. */
module Payouts {
  import opened PosTypes
  import opened Money
  import opened Sums
  import opened Store
  import opened TillSessions
  import opened Settlement
  import opened Protocol
  import opened Invariants
  import opened Preservation
  import opened Theorems
  import Outbox = FabricOutbox

  /** An approved card sale's tender: the terminal's amount, or the total if it gives none. */
  function SaleTender(row: Txn, answer: WindcaveAnswer): Tender
    requires answer.Settles()
  {
    CardTender(AmountOr(answer.result.value, row.total), answer.result.value.card)
  }

  function RefundTender(row: Txn, answer: WindcaveAnswer): Tender
    requires answer.Settles()
  {
    CardTender(-AmountOr(answer.result.value, Abs(row.total)), answer.result.value.card)
  }

  /** The tender a step brings to the row it pays; only these steps pay a row. */
  function TenderBrought(row: Txn, id: TxnId, e: Event): Option<Tender> {
    match e
    case EChargeCash(x, tendered) =>
      if x == id && row.kind.Sale? then Some(CashTender(row.total, tendered, tendered - row.total)) else None
    case EChargeCard(x, Answered(answer)) =>
      if x == id && row.kind.Sale? && answer.Settles() then Some(SaleTender(row, answer)) else None
    case EPollCard(x, Some(answer)) =>
      if x == id && row.kind.Sale? && answer.Settles() then Some(SaleTender(row, answer)) else None
    case EChargeCashRefund(x) => if x == id && row.kind.Refund? then Some(CashPayout(row.total)) else None
    case EChargeCardRefund(x, Answered(answer)) =>
      if x == id && row.kind.Refund? && answer.Settles() then Some(RefundTender(row, answer)) else None
    case EPollRefund(x, Some(answer)) =>
      if x == id && row.kind.Refund? && answer.Settles() then Some(RefundTender(row, answer)) else None
    case _ => None
  }

  lemma CallFacts(s: State)
    requires Inv(s)
    ensures CallsOk(s.rows, s.wire, s.calls, s.nextCall)
  {
    hide BooksOk, LocalOk, Outbox.BoxOk;
  }

  /** A call to Sentry waits only for rows already paid, or for a cart to be validated. */
  lemma AnswersPayNothing(s: State, c: nat, ok: bool, id: TxnId)
    requires CallsOk(s.rows, s.wire, s.calls, s.nextCall) && id in s.rows && !Paid(s.rows[id].status)
    ensures id in SentryAnswers(s, c, ok).rows && SentryAnswers(s, c, ok).rows[id].status == s.rows[id].status
  {
    hide OpenSession, BuildPayload, Outbox.NewEntry;
    if c in s.calls {
      assert CallOk(s.rows, s.wire, s.calls[c]);
    }
  }

  /** Starting a row, cancelling one and all that goes on outside the transaction table pay nothing. */
  lemma OthersPayNothing(s: State, e: Event, id: TxnId)
    requires ValidRate(s.config.rate) && id in s.rows && !Paid(s.rows[id].status) && !StartsOrPays(e)
    requires CallsOk(s.rows, s.wire, s.calls, s.nextCall)
    ensures id in Apply(s, e).rows && !Paid(Apply(s, e).rows[id].status)
  {
    hide SentryAnswers, CallsOk, OpenSession, Outbox.Apply, RequestFor;
    match e
    case ESentryAnswers(c, ok) => AnswersPayNothing(s, c, ok, id);
    case _ =>
  }

  lemma FinalizedTender(s: State, x: TxnId, answer: WindcaveAnswer, id: TxnId)
    requires x in s.rows && id in s.rows
    ensures var after := FinalizeCard(s, x, answer);
            && id in after.rows && (id != x ==> after.rows[id] == s.rows[id])
            && (id == x && !answer.Settles() ==> !Paid(after.rows[id].status))
            && (id == x && answer.Settles() ==>
                  after.rows[id].tenders == [if s.rows[id].kind.Sale? then SaleTender(s.rows[id], answer)
                                             else RefundTender(s.rows[id], answer)])
  {
    hide RequestFor;
  }

  /** Only the payment of a row pays it, and it brings the tender the row then has. */
  lemma OnlyItsPaymentPays(s: State, e: Event, id: TxnId)
    requires Inv(s) && ValidRate(s.config.rate) && id in s.rows && !Paid(s.rows[id].status)
    requires id in Apply(s, e).rows && Paid(Apply(s, e).rows[id].status)
    ensures TenderBrought(s.rows[id], id, e).Some?
    ensures Apply(s, e).rows[id].tenders == [TenderBrought(s.rows[id], id, e).value]
  {
    hide Inv, CartsOk, ParentOk, TendersOk, FinalizeCard, PricedCart, RequestFor, LookupRefund, NegatedCart, SaleTender,
         RefundTender, TenderBrought;
    RowFacts(s, id);
    CallFacts(s);
    if !StartsOrPays(e) {
      OthersPayNothing(s, e, id);
    } else {
      PaymentPays(s, e, id);
    }
  }

  lemma PaymentPays(s: State, e: Event, id: TxnId)
    requires ValidRate(s.config.rate) && id in s.rows && !Paid(s.rows[id].status) && RowOk(s.rows[id])
    requires StartsOrPays(e) && id in Apply(s, e).rows && Paid(Apply(s, e).rows[id].status)
    ensures TenderBrought(s.rows[id], id, e).Some?
    ensures Apply(s, e).rows[id].tenders == [TenderBrought(s.rows[id], id, e).value]
  {
    hide RowOk, StartsOrPays, Apply, TenderBrought;
    StartsOrPaysIs(e);
    if e.EChargeCard? {
      ChargedSalePays(s, e, id);
    } else if e.EPollCard? {
      PolledSalePays(s, e, id);
    } else if e.EChargeCardRefund? || e.EPollRefund? {
      CardRefundPays(s, e, id);
    } else {
      CashPays(s, e, id);
    }
  }

  lemma StartsOrPaysIs(e: Event)
    requires StartsOrPays(e)
    ensures e.EChargeCard? || e.EPollCard? || e.EChargeCardRefund? || e.EPollRefund? || StartsOrTakesCash(e)
  {
  }

  predicate StartsOrTakesCash(e: Event) {
    e.EStartCheckout? || e.EChargeCash? || e.EChargeCashRefund?
  }

  lemma ChargedSalePays(s: State, e: Event, id: TxnId)
    requires ValidRate(s.config.rate) && id in s.rows && !Paid(s.rows[id].status) && RowOk(s.rows[id])
    requires e.EChargeCard? && id in Apply(s, e).rows && Paid(Apply(s, e).rows[id].status)
    ensures TenderBrought(s.rows[id], id, e).Some?
    ensures Apply(s, e).rows[id].tenders == [TenderBrought(s.rows[id], id, e).value]
  {
    hide TendersOk, FinalizeCard, RefundTender;
    match e {
      case EChargeCard(x, Answered(answer)) =>
        if x in s.rows { FinalizedTender(SetRow(s, x, s.rows[x].(payment := Some(Card))), x, answer, id); }
      case _ =>
    }
  }

  lemma PolledSalePays(s: State, e: Event, id: TxnId)
    requires ValidRate(s.config.rate) && id in s.rows && !Paid(s.rows[id].status) && RowOk(s.rows[id])
    requires e.EPollCard? && id in Apply(s, e).rows && Paid(Apply(s, e).rows[id].status)
    ensures TenderBrought(s.rows[id], id, e).Some?
    ensures Apply(s, e).rows[id].tenders == [TenderBrought(s.rows[id], id, e).value]
  {
    hide TendersOk, FinalizeCard, SaleTender, RefundTender;
    match e {
      case EPollCard(x, Some(answer)) => if x in s.rows { FinalizedTender(s, x, answer, id); }
      case _ =>
    }
  }

  lemma CardRefundPays(s: State, e: Event, id: TxnId)
    requires ValidRate(s.config.rate) && id in s.rows && !Paid(s.rows[id].status) && RowOk(s.rows[id])
    requires (e.EChargeCardRefund? || e.EPollRefund?) && id in Apply(s, e).rows && Paid(Apply(s, e).rows[id].status)
    ensures TenderBrought(s.rows[id], id, e).Some?
    ensures Apply(s, e).rows[id].tenders == [TenderBrought(s.rows[id], id, e).value]
  {
    hide TendersOk, FinalizeCard, SaleTender, RefundTender;
    match e {
      case EChargeCardRefund(x, Answered(answer)) => if x in s.rows { FinalizedTender(s, x, answer, id); }
      case EPollRefund(x, Some(answer)) => if x in s.rows { FinalizedTender(s, x, answer, id); }
      case _ =>
    }
  }

  lemma CashPays(s: State, e: Event, id: TxnId)
    requires ValidRate(s.config.rate) && id in s.rows && !Paid(s.rows[id].status) && RowOk(s.rows[id])
    requires StartsOrTakesCash(e) && id in Apply(s, e).rows && Paid(Apply(s, e).rows[id].status)
    ensures TenderBrought(s.rows[id], id, e).Some?
    ensures Apply(s, e).rows[id].tenders == [TenderBrought(s.rows[id], id, e).value]
  {
    hide RowOk, StartCheckout, ChargeCash, ChargeCashRefund, SaleTender, RefundTender, Paid;
    match e {
      case EStartCheckout(x, lines, cashier, prices) => StartPaysNothing(s, x, lines, cashier, prices, id);
      case EChargeCash(x, tendered) => CashSaleTender(s, x, tendered, id);
      case EChargeCashRefund(x) => CashRefundTender(s, x, id);
    }
  }

  lemma StartPaysNothing(s: State, x: TxnId, lines: seq<LineIn>, cashier: string, prices: map<string, int>, id: TxnId)
    requires ValidRate(s.config.rate) && id in s.rows
    ensures id in StartCheckout(s, x, lines, cashier, prices).0.rows
    ensures StartCheckout(s, x, lines, cashier, prices).0.rows[id] == s.rows[id]
  {
    hide PricedCart;
  }

  lemma CashSaleTender(s: State, x: TxnId, tendered: int, id: TxnId)
    requires id in s.rows
    ensures var after := ChargeCash(s, x, tendered).0;
            && id in after.rows
            && (after.rows[id] == s.rows[id]
                || (x == id && s.rows[id].kind.Sale?
                    && after.rows[id].tenders
                       == [CashTender(s.rows[id].total, tendered, tendered - s.rows[id].total)]))
  {
    hide RequestFor;
  }

  lemma CashRefundTender(s: State, x: TxnId, id: TxnId)
    requires id in s.rows
    ensures var after := ChargeCashRefund(s, x).0;
            && id in after.rows
            && (after.rows[id] == s.rows[id]
                || (x == id && s.rows[id].kind.Refund? && after.rows[id].tenders == [CashPayout(s.rows[id].total)]))
  {
    hide RequestFor;
  }

  // ---- for ever ----

  /** A row's tender is what the step that paid it brought, whatever happens afterwards. */
  lemma TenderIsFinal(s: State, e: Event, events: seq<Event>, id: TxnId)
    requires Reachable(s) && ValidRate(s.config.rate) && id in s.rows && !Paid(s.rows[id].status)
    requires id in Apply(s, e).rows && Paid(Apply(s, e).rows[id].status)
    ensures TenderBrought(s.rows[id], id, e).Some?
    ensures ValidRate(Apply(s, e).config.rate) && id in Run(Apply(s, e), events).rows
    ensures Run(Apply(s, e), events).rows[id].tenders == [TenderBrought(s.rows[id], id, e).value]
    ensures Paid(Run(Apply(s, e), events).rows[id].status)
  {
    hide Inv, Reachable, Apply, Run, TenderBrought, RowOk;
    ReachableOk(s);
    OnlyItsPaymentPays(s, e, id);
    ReachableStep(s, e);
    RowHistory(Apply(s, e), events, id);
  }

  /** The payment is in cash, or the terminal names no amount or the total. */
  predicate PaysTheTotal(e: Event, total: int) {
    match e
    case EChargeCardRefund(_, Answered(answer)) => answer.Settles() && NamesTheTotal(answer.result.value, total)
    case EPollRefund(_, Some(answer)) => answer.Settles() && NamesTheTotal(answer.result.value, total)
    case _ => e.EChargeCashRefund?
  }

  predicate NamesTheTotal(result: WindcaveResult, total: int) {
    if result.amount in {None, Some(0)} then 0 <= total else result.amount.value == total
  }

  /** A refund is paid by one step; ever after, what has been handed back for its sale is the amount that step
      recorded, and that is the sale's total if and only if the refund was in cash or the terminal named no amount or
      that total. */
  lemma PayoutIsTheTotalExactly(s: State, e: Event, events: seq<Event>, id: TxnId, sale: TxnId)
    requires Reachable(s) && ValidRate(s.config.rate) && id in s.rows && !Paid(s.rows[id].status)
    requires s.rows[id].kind.Refund? && s.rows[id].parent == Some(sale)
    requires id in Apply(s, e).rows && Paid(Apply(s, e).rows[id].status)
    ensures sale in s.rows && TenderBrought(s.rows[id], id, e).Some? && ValidRate(Apply(s, e).config.rate)
    ensures var paidOut := Total(Run(Apply(s, e), events).rows, PaidOutFor(sale));
            && paidOut == -TenderBrought(s.rows[id], id, e).value.amount
            && (paidOut == s.rows[sale].total <==> PaysTheTotal(e, s.rows[sale].total))
  {
    hide Inv, Reachable, Apply, Run, TenderBrought, RowOk, PaidOutFor, PaysTheTotal, BlockingRefunds, CartsOk;
    ReachableOk(s);
    RowFacts(s, id);
    ReachableStep(s, e);
    TenderIsFinal(s, e, events, id);
    ReachableRun(Apply(s, e), events);
    var now := Run(Apply(s, e), events);
    FinalRow(s, e, events, id, sale);
    RefundExclusion(now, sale);
    WhatWasBrought(s.rows[id], id, e, s.rows[sale].total);
  }

  lemma FinalRow(s: State, e: Event, events: seq<Event>, id: TxnId, sale: TxnId)
    requires Reachable(s) && ValidRate(s.config.rate) && id in s.rows && sale in s.rows
    requires s.rows[id].kind.Refund? && s.rows[id].parent == Some(sale)
    requires id in Apply(s, e).rows && Paid(Apply(s, e).rows[id].status)
    ensures ValidRate(Apply(s, e).config.rate)
    ensures var now := Run(Apply(s, e), events);
            sale in now.rows && id in now.rows && id in BlockingRefunds(now, sale) && Paid(now.rows[id].status)
  {
    hide Inv, Reachable, Apply, Run, CartsOk;
    RateStaysValid(s, e);
    RunIs(s, e, events);
    RowHistory(s, [e] + events, sale);
    RowHistory(s, [e] + events, id);
    ReachableStep(s, e);
    RowHistory(Apply(s, e), events, id);
  }

  lemma RunIs(s: State, e: Event, events: seq<Event>)
    requires ValidRate(s.config.rate)
    ensures ValidRate(Apply(s, e).config.rate) && Run(s, [e] + events) == Run(Apply(s, e), events)
  {
    hide Apply;
    RateStaysValid(s, e);
    assert ([e] + events)[1..] == events;
  }

  lemma {:induction false} ReachableRun(s: State, events: seq<Event>)
    requires Reachable(s) && ValidRate(s.config.rate)
    ensures Reachable(Run(s, events))
    decreases |events|
  {
    hide Reachable, Apply;
    if events != [] {
      ReachableStep(s, events[0]);
      RateStaysValid(s, events[0]);
      ReachableRun(Apply(s, events[0]), events[1..]);
    }
  }

  lemma WhatWasBrought(refund: Txn, id: TxnId, e: Event, total: int)
    requires TenderBrought(refund, id, e).Some? && refund.kind.Refund? && refund.total == -total
    ensures -TenderBrought(refund, id, e).value.amount == total <==> PaysTheTotal(e, total)
  {
    match e {
      case EChargeCardRefund(_, Answered(answer)) => NamedAmount(answer.result.value, total);
      case EPollRefund(_, Some(answer)) => NamedAmount(answer.result.value, total);
      case _ =>
    }
  }

  lemma NamedAmount(result: WindcaveResult, total: int)
    ensures AmountOr(result, Abs(-total)) == total <==> NamesTheTotal(result, total)
  {
    if result.amount.Some? {
      assert result.amount in {None, Some(0)} <==> result.amount.value == 0;
    }
  }
}
