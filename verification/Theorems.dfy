/** What holds in every reachable state, and over every run, of the settlement protocol. */
module Theorems {
  import opened PosTypes
  import opened Money
  import opened Sums
  import opened Store
  import opened TillSessions
  import opened Settlement
  import opened Protocol
  import opened Invariants
  import opened Preservation
  import opened Evolution
  import Worker = OutboxWorker
  import Fair = OutboxFairness
  import Outbox = FabricOutbox

  /** The states the service can get into: any interleaving of requests, pollers, retries, crashes and answers. */
  ghost predicate Reachable(s: State) {
    exists config: Config, clock: int, events: seq<Event> ::
      ValidRate(config.rate) && s == Run(Initial(config, clock), events)
  }

  lemma ReachableOk(s: State)
    requires Reachable(s)
    ensures Inv(s)
  {
    var config: Config, clock: int, events: seq<Event> :|
      ValidRate(config.rate) && s == Run(Initial(config, clock), events);
    InitialOk(config, clock);
    RunKeeps(Initial(config, clock), events);
  }

  lemma ReachableStep(s: State, e: Event)
    requires Reachable(s) && ValidRate(s.config.rate)
    ensures Reachable(Apply(s, e))
  {
    var config: Config, clock: int, events: seq<Event> :|
      ValidRate(config.rate) && s == Run(Initial(config, clock), events);
    RunThen(Initial(config, clock), events, e);
    assert Apply(s, e) == Run(Initial(config, clock), events + [e]);
  }

  /** What any run may have done to a row. */
  lemma RowHistory(s: State, events: seq<Event>, id: TxnId)
    requires Reachable(s) && id in s.rows
    ensures Inv(s) && ValidRate(s.config.rate) && Inv(Run(s, events)) && id in Run(s, events).rows
    ensures RowOk(s.rows[id]) && RowOk(Run(s, events).rows[id])
    ensures RowSince(s.rows[id], Run(s, events).rows[id])
  {
    ReachableOk(s);
    hide RowSince;
    RunSince(s, events);
    hide Inv, Reachable, RowOk, CartsOk, ParentOk;
    RowFacts(s, id);
    RowFacts(Run(s, events), id);
  }

  // ---- money ----

  /** Ledger conservation: the COMPLETE rows net to exactly the completed sales that have no completed refund. */
  lemma LedgerConservation(s: State)
    requires Reachable(s)
    ensures Total(s.rows, CompleteCents()) == Total(s.rows, UnrefundedSaleCents())
  {
    ReachableOk(s);
    hide RowsOk, CartsOk, ParentsOk, Exclusive, LinksOk, RemoteOk, LocalOk;
  }

  /** Every row, sale or refund: each line is unit price times quantity plus the tax the tax rule gives that product
      at a rate the service has run with, one for the whole cart, and the lines add up to the row's subtotal, tax and
      total. */
  lemma LineLedger(s: State, id: TxnId)
    requires Reachable(s) && id in s.rows
    ensures exists rate :: rate in s.rates && ValidRate(rate) && CartOk(rate, s.rows[id])
  {
    ReachableOk(s);
    RowFacts(s, id);
    assert CartPriced(s.rates, s.rows[id]);
  }

  /** A sale is priced once: whatever happens afterwards, a change of prices or of the tax rate included, its lines are
      those asked for, each at the price its SKU had and with the tax due at the rate in force when it was started, its
      amounts are their sums, and its cashier, terminal and date stay. */
  lemma PricedAtTheStart(s: State, start: Event, events: seq<Event>)
    requires Reachable(s) && start.EStartCheckout? && start.id !in s.rows
    requires forall k :: 0 <= k < |start.lines| ==> start.lines[k].sku in start.prices
    ensures ValidRate(s.config.rate) && ValidRate(Apply(s, start).config.rate)
    ensures start.id in Run(Apply(s, start), events).rows
    ensures var row := Run(Apply(s, start), events).rows[start.id];
            && PricedFrom(row.cart, start.lines, start.prices, s.config.rate)
            && row.subtotal == Sum(Subtotals(row.cart)) && row.tax == Sum(Taxes(row.cart))
            && row.total == row.subtotal + row.tax
            && row.kind.Sale? && row.cashier == start.cashier && row.terminal == s.config.station
            && row.createdAt <= s.box.clock < row.createdAt + 1_000_000 && row.createdAt % 1_000_000 == 0
  {
    hide Inv, Reachable, PricedCart, PricedFrom;
    ReachableOk(s);
    RateOk(s);
    RateStaysValid(s, start);
    ReachableStep(s, start);
    PricedCartIs(start.lines, start.prices, s.config.rate);
    RowHistory(Apply(s, start), events, start.id);
  }

  /** A row records tenders exactly when it has been paid, and then one: cash to the cent with its change, cash handed
      back to the cent, or the card whose reference the row carries. */
  lemma PaymentRecord(s: State, id: TxnId)
    requires Reachable(s) && id in s.rows
    ensures var row := s.rows[id];
            && |row.tenders| == (if row.status in {PaymentSuccess, InventoryUpdateFailed, RefundPaymentSuccess,
                                                   RefundInventoryUpdateFailed, Complete} then 1 else 0)
            && (Paid(row.status) ==>
                  match row.payment
                  case None => false
                  case Some(Card) => row.tenders[0].CardTender? && row.tenders[0].card.ref == row.windcaveRef
                  case Some(Cash) =>
                    if row.kind.Refund? then row.tenders[0] == CashPayout(row.total)
                    else
                      var paid := row.tenders[0];
                      paid.CashTender? && paid.amount == row.total && paid.tendered == row.total + paid.change
                      && 0 <= paid.change)
  {
    hide Inv, Reachable, CartsOk, ParentOk;
    ReachableOk(s);
    RowFacts(s, id);
  }

  predicate PaidRefundOf(row: Txn, sale: TxnId) {
    row.kind.Refund? && row.parent == Some(sale) && Paid(row.status)
  }

  /** What a row's tender records as handed back; payouts are recorded as negative amounts. */
  function RecordedPayout(row: Txn): int {
    if |row.tenders| == 1 then -row.tenders[0].amount else 0
  }

  /** What the record says was handed back for a sale. */
  function PaidOutFor(sale: TxnId): Txn -> int {
    (row: Txn) => if PaidRefundOf(row, sale) then RecordedPayout(row) else 0
  }

  /** What the totals of its paid refunds say. */
  function RefundedFor(sale: TxnId): Txn -> int {
    (row: Txn) => if PaidRefundOf(row, sale) then -row.total else 0
  }

  /** Refund exclusion: at most one refund of a sale blocks another, so over all attempts at most one has been paid.
      What was handed back is what its tender records, and by the refunds' totals it is the sale's total; with none paid
      both are nothing. */
  lemma RefundExclusion(s: State, sale: TxnId)
    requires Reachable(s) && sale in s.rows
    ensures |BlockingRefunds(s, sale)| <= 1
    ensures forall r :: r in BlockingRefunds(s, sale) <==>
              r in s.rows && s.rows[r].parent == Some(sale)
              && s.rows[r].status in {RefundPending, RefundPaymentInFlight, RefundPaymentSuccess,
                                      RefundInventoryUpdateFailed, Complete}
    ensures (forall r :: r in BlockingRefunds(s, sale) ==> !Paid(s.rows[r].status)) ==>
              Total(s.rows, PaidOutFor(sale)) == Total(s.rows, RefundedFor(sale)) == 0
    ensures forall r :: r in BlockingRefunds(s, sale) && Paid(s.rows[r].status) ==>
              Total(s.rows, PaidOutFor(sale)) == RecordedPayout(s.rows[r])
              && Total(s.rows, RefundedFor(sale)) == s.rows[sale].total
  {
    hide Inv, Reachable, RowsOk, ParentsOk, Exclusive, PaidOutFor, RefundedFor, RecordedPayout, PaidRefundOf;
    ReachableOk(s);
    RefundFacts(s);
    OneBlocker(s, sale);
    OnlyPayouts(sale);
    if r :| r in BlockingRefunds(s, sale) && Paid(s.rows[r].status) {
      OnePayout(s, sale, r, PaidOutFor(sale));
      OnePayout(s, sale, r, RefundedFor(sale));
      PayoutOf(s, sale, r);
    } else {
      NoPayout(s, sale, PaidOutFor(sale));
      NoPayout(s, sale, RefundedFor(sale));
    }
  }

  lemma OnlyPayouts(sale: TxnId)
    ensures forall row :: !PaidRefundOf(row, sale) ==> PaidOutFor(sale)(row) == RefundedFor(sale)(row) == 0
  {
  }

  lemma PayoutOf(s: State, sale: TxnId, r: TxnId)
    requires RowsOk(s.rows) && ParentsOk(s.rows) && sale in s.rows
    requires r in BlockingRefunds(s, sale) && Paid(s.rows[r].status)
    ensures PaidOutFor(sale)(s.rows[r]) == RecordedPayout(s.rows[r])
    ensures RefundedFor(sale)(s.rows[r]) == s.rows[sale].total
  {
    BlockersAreRefunds(s, sale, r);
    assert ParentOk(s.rows, r);
  }

  lemma BlockersAreRefunds(s: State, sale: TxnId, r: TxnId)
    requires RowsOk(s.rows)
    ensures r in BlockingRefunds(s, sale) <==> Blocks(s.rows, r, sale)
  {
    if r in s.rows { assert RowOk(s.rows[r]); }
  }

  lemma OneBlocker(s: State, sale: TxnId)
    requires RowsOk(s.rows) && Exclusive(s.rows)
    ensures |BlockingRefunds(s, sale)| <= 1
    ensures forall a, b :: a in BlockingRefunds(s, sale) && b in BlockingRefunds(s, sale) ==> a == b
  {
    hide RowsOk;
    var blocking := BlockingRefunds(s, sale);
    forall a, b | a in blocking && b in blocking ensures a == b {
      BlockersAreRefunds(s, sale, a);
      BlockersAreRefunds(s, sale, b);
    }
    AtMostOne(blocking);
  }

  lemma OnePayout(s: State, sale: TxnId, r: TxnId, f: Txn -> int)
    requires RowsOk(s.rows) && Exclusive(s.rows)
    requires forall row :: !PaidRefundOf(row, sale) ==> f(row) == 0
    requires r in BlockingRefunds(s, sale) && Paid(s.rows[r].status)
    ensures Total(s.rows, f) == f(s.rows[r])
  {
    OneBlocker(s, sale);
    TotalSplit(s.rows, f, r);
    var rest := s.rows - {r};
    forall k | k in rest ensures f(rest[k]) == 0 {
      BlockersAreRefunds(s, sale, k);
      assert RowOk(s.rows[k]);
    }
    TotalZero(rest, f);
  }

  lemma NoPayout(s: State, sale: TxnId, f: Txn -> int)
    requires RowsOk(s.rows)
    requires forall row :: !PaidRefundOf(row, sale) ==> f(row) == 0
    requires forall r :: r in BlockingRefunds(s, sale) ==> !Paid(s.rows[r].status)
    ensures Total(s.rows, f) == 0
  {
    forall k | k in s.rows ensures f(s.rows[k]) == 0 {
      BlockersAreRefunds(s, sale, k);
      assert RowOk(s.rows[k]);
    }
    TotalZero(s.rows, f);
  }

  lemma RefundFacts(s: State)
    requires Inv(s)
    ensures RowsOk(s.rows) && ParentsOk(s.rows) && Exclusive(s.rows)
  {
    hide RowsOk, CartsOk, ParentsOk, Exclusive, LinksOk, LedgerOk, RemoteOk, LocalOk;
  }

  lemma AtMostOne(xs: set<TxnId>)
    requires forall a, b :: a in xs && b in xs ==> a == b
    ensures |xs| <= 1
  {
    if xs != {} {
      var x :| x in xs;
      assert xs == {x};
    }
  }

  /** A refund that has left the blocking states never blocks again, and one that has paid out stays paid. */
  lemma RefundNeverReturns(s: State, events: seq<Event>, r: TxnId)
    requires Reachable(s) && r in s.rows && s.rows[r].kind.Refund?
    ensures ValidRate(s.config.rate) && r in Run(s, events).rows
    ensures !RefundBlocking(s.rows[r].status) ==> Run(s, events).rows[r].status == s.rows[r].status
    ensures Paid(s.rows[r].status) ==> Paid(Run(s, events).rows[r].status)
  {
    hide Inv, Reachable, RowOk, RowSince;
    RowHistory(s, events, r);
    NotBlockingAgain(s.rows[r], Run(s, events).rows[r]);
  }

  lemma NotBlockingAgain(before: Txn, after: Txn)
    requires RowOk(before) && RowOk(after) && RowSince(before, after) && before.kind.Refund?
    ensures !RefundBlocking(before.status) ==> after.status == before.status
    ensures Paid(before.status) ==> Paid(after.status)
  {
  }

  lemma TerminalRow(before: Txn, after: Txn)
    requires RowOk(before) && RowOk(after) && RowSince(before, after)
    requires if before.kind.Sale? then Terminal(before.status) else RefundTerminal(before.status)
    ensures after.status == before.status
         || (before.status == UnrecordedStatus(before.kind) && after.status == Complete)
  {
  }

  // ---- Sentry ----

  /** Exactly-once effect: however often and however late a row's request reaches Sentry, Sentry holds at most one
      order for it, no two rows share one, a COMPLETE row carries it, and it is recorded as the row itself stands. */
  lemma ExactlyOnceAtSentry(s: State)
    requires Reachable(s)
    ensures forall j, k :: j in s.orders && k in s.orders && s.orders[j].soId == s.orders[k].soId ==> j == k
    ensures forall id :: id in s.rows && s.rows[id].status == Complete ==>
              id in s.orders && s.rows[id].so == Some(s.orders[id].soId)
    ensures forall id :: id in s.orders ==>
              CanRequest(s.rows, id) && Paid(s.rows[id].status) && s.orders[id].request == RequestFor(s.rows, id)
    ensures forall q, r :: q in s.wire && r in s.wire && q.key == r.key ==> q == r
  {
    ReachableOk(s);
    hide BooksOk, LocalOk, CallsOk;
    forall id | id in s.orders
      ensures CanRequest(s.rows, id) && Paid(s.rows[id].status) && s.orders[id].request == RequestFor(s.rows, id)
    {
      assert RequestOk(s.rows, s.orders[id].request);
    }
    forall q, r | q in s.wire && r in s.wire && q.key == r.key ensures q == r {
      assert RequestOk(s.rows, q) && RequestOk(s.rows, r);
    }
  }

  /** Neither the order Sentry holds nor the number on a COMPLETE row is ever replaced. */
  lemma OrdersAreFinal(s: State, events: seq<Event>, id: TxnId)
    requires Reachable(s) && id in s.orders
    ensures ValidRate(s.config.rate) && id in Run(s, events).orders && Run(s, events).orders[id] == s.orders[id]
    ensures id in s.rows && s.rows[id].status == Complete ==>
              id in Run(s, events).rows && Run(s, events).rows[id].so == Some(s.orders[id].soId)
  {
    ReachableOk(s);
    RunSince(s, events);
    hide BooksOk, LocalOk, CallsOk, WireOk, Reachable;
  }

  // ---- the outbox ----

  ghost function EntryCount(entries: seq<Outbox.Entry>, id: TxnId): nat {
    if entries == [] then 0
    else EntryCount(entries[1..], id) + (if entries[0].txn == id then 1 else 0)
  }

  lemma {:induction false} CountsOnce(entries: seq<Outbox.Entry>, id: TxnId)
    requires forall i, j :: 0 <= i < j < |entries| ==> entries[i].txn != entries[j].txn
    ensures EntryCount(entries, id) == if HasEntry(entries, id) then 1 else 0
  {
    if entries != [] {
      CountsOnce(entries[1..], id);
      if HasEntry(entries[1..], id) {
        var i :| 0 <= i < |entries[1..]| && entries[1..][i].txn == id;
        assert entries[i + 1].txn == id;
      }
      if HasEntry(entries, id) {
        var i :| 0 <= i < |entries| && entries[i].txn == id;
        assert i > 0 ==> entries[1..][i - 1].txn == id;
      }
    }
  }

  /** Transactional outbox: exactly one entry for a row Sentry has answered about, none for any other row, and its
      payload agrees with the row through every later retry. */
  lemma OneOutboxEntry(s: State, id: TxnId)
    requires Reachable(s)
    ensures EntryCount(s.box.entries, id)
         == if id in s.rows && s.rows[id].status in {Complete, InventoryUpdateFailed, RefundInventoryUpdateFailed}
            then 1 else 0
    ensures forall i :: 0 <= i < |s.box.entries| && s.box.entries[i].txn == id ==>
              id in s.rows && PayloadOk(id, s.rows[id], s.box.entries[i].payload)
  {
    ReachableOk(s);
    hide BooksOk, RemoteOk, TillsOk, Outbox.BoxOk;
    CountsOnce(s.box.entries, id);
    forall i | 0 <= i < |s.box.entries| && s.box.entries[i].txn == id
      ensures id in s.rows && Settled(s.rows[id].status) && PayloadOk(id, s.rows[id], s.box.entries[i].payload)
    {
      assert EntryOk(s.rows, s.box.entries[i]);
    }
  }

  /** The outbox steps a protocol step amounts to: its own, or the enqueue of a first answer. */
  ghost function OutboxSteps(s: State, e: Event): seq<Outbox.Event>
    requires ValidRate(s.config.rate)
  {
    match e
    case EOutbox(step) => if step.Enqueue? then [] else [step]
    case ESentryAnswers(c, ok) =>
      if |SentryAnswers(s, c, ok).box.entries| == |s.box.entries| then []
      else
        var added := SentryAnswers(s, c, ok).box.entries[|SentryAnswers(s, c, ok).box.entries| - 1];
        [Outbox.Enqueue(added.txn, added.payload)]
    case _ => []
  }

  ghost function OutboxTrace(s: State, events: seq<Event>): seq<Outbox.Event>
    requires ValidRate(s.config.rate)
    decreases |events|
  {
    if events == [] then []
    else
      RateStaysValid(s, events[0]);
      OutboxSteps(s, events[0]) + OutboxTrace(Apply(s, events[0]), events[1..])
  }

  lemma StepRefinesOutbox(s: State, e: Event)
    requires ValidRate(s.config.rate)
    ensures Apply(s, e).box == Outbox.Run(s.box, OutboxSteps(s, e))
    ensures forall k :: 0 <= k < |OutboxSteps(s, e)| && OutboxSteps(s, e)[k].AdminRetry? ==>
              e == EOutbox(OutboxSteps(s, e)[k])
  {
    hide SentryAnswers, Outbox.Apply;
    var steps := OutboxSteps(s, e);
    match e {
      case EOutbox(step) => Worker.RunOne(s.box, step);
      case ESentryAnswers(c, ok) =>
        AnswerAppends(s, c, ok);
        if steps != [] { Worker.RunOne(s.box, steps[0]); }
      case _ =>
        hide Apply;
        QuietBox(s, e);
    }
  }

  lemma QuietBox(s: State, e: Event)
    requires ValidRate(s.config.rate) && !e.EOutbox? && !e.ESentryAnswers?
    ensures Apply(s, e).box == s.box
  {
    hide Apply, StartsOrPays;
    if StartsOrPays(e) {
      PayingFrame(s, e);
    } else {
      OtherFrame(s, e);
    }
  }

  lemma AnswerAppends(s: State, c: nat, ok: bool)
    ensures |SentryAnswers(s, c, ok).box.entries| == |s.box.entries| ==> SentryAnswers(s, c, ok).box == s.box
    ensures |SentryAnswers(s, c, ok).box.entries| != |s.box.entries| ==>
              && SentryAnswers(s, c, ok).box.entries != []
              && var added := SentryAnswers(s, c, ok).box.entries[|SentryAnswers(s, c, ok).box.entries| - 1];
                 SentryAnswers(s, c, ok).box == Outbox.Apply(s.box, Outbox.Enqueue(added.txn, added.payload))
  {
  }

  lemma {:induction false} RunRefinesOutbox(s: State, events: seq<Event>)
    requires ValidRate(s.config.rate)
    ensures Run(s, events).box == Outbox.Run(s.box, OutboxTrace(s, events))
    decreases |events|
  {
    if events != [] {
      RateStaysValid(s, events[0]);
      var mid := Apply(s, events[0]);
      StepRefinesOutbox(s, events[0]);
      RunRefinesOutbox(mid, events[1..]);
      Worker.RunConcat(s.box, OutboxSteps(s, events[0]), OutboxTrace(mid, events[1..]));
    }
  }

  lemma {:induction false} TraceResets(s: State, events: seq<Event>, i: nat)
    requires ValidRate(s.config.rate)
    requires forall k :: 0 <= k < |events| ==> events[k] != EOutbox(Outbox.AdminRetry(i))
    ensures Outbox.NoResetOf(i, OutboxTrace(s, events))
    decreases |events|
  {
    if events != [] {
      RateStaysValid(s, events[0]);
      StepRefinesOutbox(s, events[0]);
      TraceResets(Apply(s, events[0]), events[1..], i);
    }
  }

  /** In the whole service, whatever else it is doing, no sales order is dead-lettered in less than 52579 seconds
      after it was enqueued or an operator reset it. */
  lemma NoEarlyDlq(s: State, events: seq<Event>, i: nat)
    requires Reachable(s) && i < |s.box.entries| && s.box.entries[i].since == s.box.clock
    requires forall k :: 0 <= k < |events| ==> events[k] != EOutbox(Outbox.AdminRetry(i))
    ensures ValidRate(s.config.rate) && i < |Run(s, events).box.entries|
    ensures Run(s, events).box.entries[i].status.Dlq? ==>
              Run(s, events).box.clock - s.box.clock >= 52579 * Outbox.SECOND
  {
    ReachableOk(s);
    hide BooksOk, RemoteOk, LocalOk, Outbox.BoxOk, Outbox.NoResetOf, OutboxTrace;
    RunRefinesOutbox(s, events);
    TraceResets(s, events, i);
    Outbox.DlqNotBeforeWindow(s.box, OutboxTrace(s, events), i);
  }

  /** In the whole service, an entry waiting to be posted is due exactly the published delay (4 s, 15 s, 1 min, 5 min,
      30 min, 2 h, 12 h) after it was last enqueued, reset or refused. */
  lemma DueAsPublishedInService(s: State, i: nat)
    requires Reachable(s) && i < |s.box.entries| && s.box.entries[i].status.Pending?
    ensures var e := s.box.entries[i];
            && e.setAt <= s.box.clock && e.attempts < 8
            && e.nextAt == e.setAt + 1_000_000 * Outbox.PublishedDelay(e.attempts)
            && (e.attempts == 0 ==> e.nextAt == e.since)
  {
    hide BooksOk, RemoteOk, LocalOk, Reachable;
    ReachableOk(s);
    Outbox.DueAsPublished(s.box, i);
    assert Outbox.EntryOk(s.box.entries[i], s.box.clock);
  }

  /** In the whole service, an entry is passed over by at most 8m / batch drains, m being the entries created no later
      that are waiting or in flight at the start, or enqueued in the same second during the run. */
  lemma BoundedBypassInService(s: State, events: seq<Event>, i: nat, batch: nat)
    requires Reachable(s) && ValidRate(s.config.rate) && i < |s.box.entries| && 0 < batch
    requires Fair.BatchesOf(batch, OutboxTrace(s, events))
    requires i < |Run(s, events).box.entries|
    requires Fair.NoResetAmong(Fair.Rivals(Run(s, events).box, i), OutboxTrace(s, events))
    ensures Fair.Passes(s.box, OutboxTrace(s, events), i)
         <= Outbox.MAX_ATTEMPTS * |Fair.Live(s.box, Fair.Rivals(Run(s, events).box, i))| / batch
    ensures forall j :: j in Fair.Rivals(Run(s, events).box, i) && |s.box.entries| <= j ==>
              Run(s, events).box.entries[j].createdAt == s.box.entries[i].createdAt
  {
    ReachableOk(s);
    hide BooksOk, RemoteOk, LocalOk, Outbox.BoxOk, OutboxTrace, Reachable;
    RunRefinesOutbox(s, events);
    Fair.BoundedBypass(s.box, OutboxTrace(s, events), i, batch);
    forall j | j in Fair.Rivals(Run(s, events).box, i) && |s.box.entries| <= j
      ensures Run(s, events).box.entries[j].createdAt == s.box.entries[i].createdAt
    {
      Fair.LateRivalsShareTheSecond(s.box, OutboxTrace(s, events), i, j);
    }
  }

  // ---- statuses ----

  /** Sale rows hold sale statuses and refund rows refund statuses, and one step changes a status only along an edge
      of the status diagram. */
  lemma StatusFollowsDiagram(s: State, e: Event, id: TxnId)
    requires Reachable(s) && id in s.rows
    ensures if s.rows[id].kind.Sale? then SaleStatus(s.rows[id].status) else RefundStatus(s.rows[id].status)
    ensures ValidRate(s.config.rate) && id in Apply(s, e).rows
    ensures Apply(s, e).rows[id].status == s.rows[id].status
         || StatusEdge(s.rows[id].kind, s.rows[id].status, Apply(s, e).rows[id].status)
  {
    ReachableOk(s);
    ApplyStep(s, e);
    hide Inv, Reachable, Apply, StatusEdge;
    RowFacts(s, id);
  }

  ghost function StatusChanges(s: State, events: seq<Event>, id: TxnId): nat
    requires ValidRate(s.config.rate)
    decreases |events|
  {
    if events == [] then 0
    else
      RateStaysValid(s, events[0]);
      var next := Apply(s, events[0]);
      (if id in s.rows && id in next.rows && s.rows[id].status != next.rows[id].status then 1 else 0)
      + StatusChanges(next, events[1..], id)
  }

  function RankOf(s: State, id: TxnId): nat {
    if id in s.rows then Rank(s.rows[id].kind, s.rows[id].status) else 0
  }

  lemma StepRank(s: State, e: Event, id: TxnId)
    requires Inv(s)
    ensures id in s.rows ==> id in Apply(s, e).rows && Apply(s, e).rows[id].kind == s.rows[id].kind
    ensures RankOf(s, id) <= RankOf(Apply(s, e), id)
    ensures id in s.rows && id in Apply(s, e).rows && Apply(s, e).rows[id].status != s.rows[id].status ==>
              RankOf(s, id) < RankOf(Apply(s, e), id)
  {
    if id in s.rows {
      ApplyKeeps(s, e);
      ApplyStep(s, e);
      assert ValidRate(s.config.rate);
      hide Inv, Apply, RowSince, RowStep, Rank;
      RowFacts(s, id);
      RowFacts(Apply(s, e), id);
      RowStepSince(s.rows[id], Apply(s, e).rows[id]);
      RankKept(s.rows[id], Apply(s, e).rows[id]);
    }
  }

  lemma RankKept(before: Txn, after: Txn)
    requires RowSince(before, after)
    ensures after.kind == before.kind && Rank(before.kind, before.status) <= Rank(after.kind, after.status)
  {
  }

  lemma {:induction false} ChangesClimb(s: State, events: seq<Event>, id: TxnId)
    requires Inv(s)
    ensures RankOf(s, id) + StatusChanges(s, events, id) <= RankOf(Run(s, events), id)
    decreases |events|
  {
    assert ValidRate(s.config.rate);
    hide Inv, Apply, Rank;
    if events != [] {
      RateStaysValid(s, events[0]);
      ApplyKeeps(s, events[0]);
      StepRank(s, events[0], id);
      ChangesClimb(Apply(s, events[0]), events[1..], id);
    }
  }

  /** Over any run a sale changes status at most five times and a refund at most four. */
  lemma FewStatusChanges(s: State, events: seq<Event>, id: TxnId)
    requires Reachable(s)
    ensures ValidRate(s.config.rate) && StatusChanges(s, events, id) <= 5
    ensures id in Run(s, events).rows && Run(s, events).rows[id].kind.Refund? ==> StatusChanges(s, events, id) <= 4
  {
    ReachableOk(s);
    assert ValidRate(s.config.rate);
    hide Inv, Reachable, Rank, RankOf, RowOk, CartsOk, ParentOk;
    ChangesClimb(s, events, id);
    RunKeeps(s, events);
    RankBound(Run(s, events), id);
  }

  lemma RankBound(s: State, id: TxnId)
    requires Inv(s)
    ensures 0 <= RankOf(s, id) <= 5
    ensures id in s.rows && s.rows[id].kind.Refund? ==> RankOf(s, id) <= 4
  {
    hide Inv, CartsOk, ParentOk, TendersOk;
    if id in s.rows { RowFacts(s, id); }
  }

  /** The terminal sets are closed: only a row Sentry could not record may still move, and only to COMPLETE. */
  lemma TerminalIsFinal(s: State, events: seq<Event>, id: TxnId)
    requires Reachable(s) && id in s.rows
    requires s.rows[id].status in (
               if s.rows[id].kind.Sale?
               then {Complete, PaymentFailed, ValidationFailed, InventoryUpdateFailed, Cancelled}
               else {Complete, RefundPaymentFailed, RefundInventoryUpdateFailed, Cancelled})
    ensures ValidRate(s.config.rate) && id in Run(s, events).rows
    ensures var now := Run(s, events).rows[id].status;
            || now == s.rows[id].status
            || (s.rows[id].status in {InventoryUpdateFailed, RefundInventoryUpdateFailed} && now == Complete)
  {
    hide Inv, Reachable, RowOk, RowSince;
    RowHistory(s, events, id);
    TerminalRow(s.rows[id], Run(s, events).rows[id]);
  }

  // ---- the till ----

  /** The running tallies are a materialised view of the stamped rows. */
  lemma TillTalliesAreSums(s: State, sid: SessionId)
    requires Reachable(s) && sid in s.sessions
    ensures s.sessions[sid].cashSales == Total(s.rows, CashOf(sid, Sale))
    ensures s.sessions[sid].cashRefunds == Total(s.rows, CashOf(sid, Refund))
    ensures s.sessions[sid].transactionCount == Total(s.rows, CountStamped(sid))
    ensures s.sessions[sid].cashTransactionCount == Total(s.rows, CountCash(sid))
  {
    ReachableOk(s);
    hide BooksOk, RemoteOk, EntriesOk;
  }

  /** A stamp names a session, and is never changed or withdrawn. */
  lemma StampIsFinal(s: State, events: seq<Event>, id: TxnId)
    requires Reachable(s) && id in s.rows && s.rows[id].session.Some?
    ensures ValidRate(s.config.rate) && s.rows[id].session.value in s.sessions
    ensures id in Run(s, events).rows && Run(s, events).rows[id].session == s.rows[id].session
  {
    RowHistory(s, events, id);
    hide BooksOk, RemoteOk, EntriesOk, Reachable, Run;
  }

  lemma OneOpenSession(s: State, a: SessionId, b: SessionId)
    requires Reachable(s) && a in s.sessions && b in s.sessions
    requires s.sessions[a].status.Open? && s.sessions[b].status.Open? && s.sessions[a].cashier == s.sessions[b].cashier
    ensures a == b
  {
    ReachableOk(s);
    hide BooksOk, RemoteOk, EntriesOk;
    assert IsOpenFor(s.sessions, a, s.sessions[a].cashier) && IsOpenFor(s.sessions, b, s.sessions[a].cashier);
  }

  lemma {:induction false} NoStampAfterClose(s: State, events: seq<Event>, sid: SessionId, id: TxnId)
    requires Inv(s) && sid in s.sessions && s.sessions[sid].status.Closed?
    ensures ValidRate(s.config.rate)
    ensures sid in Run(s, events).sessions && Run(s, events).sessions[sid] == s.sessions[sid]
    ensures id in Run(s, events).rows && Stamped(Run(s, events).rows[id], sid) ==>
              id in s.rows && Stamped(s.rows[id], sid)
    decreases |events|
  {
    assert ValidRate(s.config.rate);
    hide Inv, Apply;
    if events != [] {
      var mid := Apply(s, events[0]);
      RateStaysValid(s, events[0]);
      ApplyKeeps(s, events[0]);
      ApplyStep(s, events[0]);
      NoStampAfterClose(mid, events[1..], sid, id);
    }
  }

  /** Once closed, a session is frozen: no later sale, refund or retry changes its record or the rows stamped with
      it, so the variance recorded at the close is right for ever. */
  lemma ClosedSessionIsFinal(s: State, events: seq<Event>, sid: SessionId)
    requires Reachable(s) && sid in s.sessions && s.sessions[sid].status.Closed?
    ensures ValidRate(s.config.rate)
    ensures sid in Run(s, events).sessions && Run(s, events).sessions[sid] == s.sessions[sid]
    ensures forall id :: (id in Run(s, events).rows && Stamped(Run(s, events).rows[id], sid))
                    <==> (id in s.rows && Stamped(s.rows[id], sid))
    ensures s.sessions[sid].closingCount.Some?
    ensures s.sessions[sid].variance ==
              Some(s.sessions[sid].closingCount.value
                   - (s.sessions[sid].openingFloat + Total(Run(s, events).rows, CashOf(sid, Sale))
                      - Total(Run(s, events).rows, CashOf(sid, Refund))))
  {
    hide Inv, Reachable, Run, Stamped, CashOf;
    ReachableOk(s);
    FrozenStamps(s, events, sid);
    FrozenVariance(Run(s, events), sid);
  }

  lemma FrozenStamps(s: State, events: seq<Event>, sid: SessionId)
    requires Inv(s) && sid in s.sessions && s.sessions[sid].status.Closed?
    ensures ValidRate(s.config.rate) && Inv(Run(s, events))
    ensures sid in Run(s, events).sessions && Run(s, events).sessions[sid] == s.sessions[sid]
    ensures forall id :: (id in Run(s, events).rows && Stamped(Run(s, events).rows[id], sid))
                    <==> (id in s.rows && Stamped(s.rows[id], sid))
  {
    hide Inv, Run, Since, RowSince;
    RateOk(s);
    RunSince(s, events);
    NoStampAfterClose(s, events, sid, 0);
    forall id
      ensures (id in Run(s, events).rows && Stamped(Run(s, events).rows[id], sid))
         <==> (id in s.rows && Stamped(s.rows[id], sid))
    {
      NoStampAfterClose(s, events, sid, id);
      if id in s.rows {
        StampKept(s, events, sid, id);
      }
    }
  }

  lemma StampKept(s: State, events: seq<Event>, sid: SessionId, id: TxnId)
    requires Inv(s) && id in s.rows
    ensures ValidRate(s.config.rate) && id in Run(s, events).rows
    ensures Stamped(s.rows[id], sid) ==> Stamped(Run(s, events).rows[id], sid)
  {
    hide Inv, Run, Since;
    RateOk(s);
    RunSince(s, events);
    RowKept(s, Run(s, events), id);
  }

  lemma FrozenVariance(s: State, sid: SessionId)
    requires Inv(s) && sid in s.sessions && s.sessions[sid].status.Closed?
    ensures s.sessions[sid].closingCount.Some?
    ensures s.sessions[sid].variance ==
              Some(s.sessions[sid].closingCount.value
                   - (s.sessions[sid].openingFloat + Total(s.rows, CashOf(sid, Sale))
                      - Total(s.rows, CashOf(sid, Refund))))
  {
    hide BooksOk, RemoteOk, EntriesOk;
    assert TalliesOk(s.rows, sid, s.sessions[sid]) && CloseOk(s.sessions[sid]);
  }

  lemma RowKept(s: State, after: State, id: TxnId)
    requires Since(s, after) && id in s.rows
    ensures id in after.rows && RowSince(s.rows[id], after.rows[id])
  {
  }

  /** A sale or refund completed by a retry is never attributed to a till, and its outbox payload never learns the
      sales order's number. */
  lemma ReconciledNeverAttributed(s: State, events: seq<Event>, id: TxnId)
    requires Reachable(s) && id in s.rows && s.rows[id].status == UnrecordedStatus(s.rows[id].kind)
    ensures ValidRate(s.config.rate)
    ensures id in Run(s, events).rows && Run(s, events).rows[id].session.None?
    ensures forall i :: 0 <= i < |s.box.entries| && s.box.entries[i].txn == id ==>
              i < |Run(s, events).box.entries| && Run(s, events).box.entries[i].payload.so == None
  {
    hide Inv, Reachable, Outbox.Run, OutboxTrace, Apply;
    RowHistory(s, events, id);
    OneOutboxEntry(s, id);
    RunRefinesOutbox(s, events);
    Outbox.RunExtends(s.box, OutboxTrace(s, events));
  }

  /** What customers left in cash over a session, and what was handed back, read off the recorded tenders. */
  function CashLeft(sid: SessionId): Txn -> int {
    (row: Txn) =>
      if Stamped(row, sid) && |row.tenders| == 1 && row.tenders[0].CashTender?
      then row.tenders[0].tendered - row.tenders[0].change
      else 0
  }

  function HandedBack(sid: SessionId): Txn -> int {
    (row: Txn) =>
      if Stamped(row, sid) && |row.tenders| == 1 && row.tenders[0].CashPayout? then -row.tenders[0].amount else 0
  }

  lemma TendersOfStamped(row: Txn, sid: SessionId)
    requires RowOk(row)
    ensures CashLeft(sid)(row) == CashOf(sid, Sale)(row)
    ensures HandedBack(sid)(row) + CashOf(sid, Refund)(row) == 0
  {
  }

  /** The tallies agree with the tenders, the refund tally with the sign turned: payouts are recorded as negative
      amounts. */
  lemma TalliesAreTheTenders(s: State, sid: SessionId)
    requires Reachable(s) && sid in s.sessions
    ensures s.sessions[sid].cashSales == Total(s.rows, CashLeft(sid))
    ensures s.sessions[sid].cashRefunds == -Total(s.rows, HandedBack(sid))
  {
    hide Inv, Reachable, RowOk, CashLeft, HandedBack, CashOf;
    ReachableOk(s);
    TillTalliesAreSums(s, sid);
    forall id | id in s.rows
      ensures CashLeft(sid)(s.rows[id]) == CashOf(sid, Sale)(s.rows[id])
      ensures HandedBack(sid)(s.rows[id]) + CashOf(sid, Refund)(s.rows[id]) == 0
    {
      RowFacts(s, id);
      TendersOfStamped(s.rows[id], sid);
    }
    TotalsAgree(s.rows, CashLeft(sid), CashOf(sid, Sale));
    TotalsCancel(s.rows, HandedBack(sid), CashOf(sid, Refund));
  }

  /** What is in the drawer: the float, plus the cash customers left, less the cash handed back. */
  ghost function Drawer(s: State, sid: SessionId): int
    requires sid in s.sessions
  {
    s.sessions[sid].openingFloat + Total(s.rows, CashLeft(sid)) - Total(s.rows, HandedBack(sid))
  }

  /** The documented drawer law, that the session expects what the drawer holds, is true of a session exactly when its
      cash-refund tally is zero: with stored refund totals negative, each refund moves the expected count the wrong way
      by twice its amount. */
  lemma DrawerLawExactly(s: State, sid: SessionId)
    requires Reachable(s) && sid in s.sessions
    ensures Expected(s.sessions[sid]) - Drawer(s, sid) == 2 * Total(s.rows, HandedBack(sid))
    ensures Expected(s.sessions[sid]) == Drawer(s, sid) <==> s.sessions[sid].cashRefunds == 0
  {
    hide Reachable;
    TalliesAreTheTenders(s, sid);
  }

  predicate PaidOutInCash(row: Txn, sid: SessionId) {
    Stamped(row, sid) && row.kind.Refund? && row.payment == Some(Cash)
  }

  /** Where no sale has a negative total, that is: exactly when no refund of a non-zero total was paid out in cash from
      the session. */
  lemma DrawerLawRowByRow(s: State, sid: SessionId)
    requires Reachable(s) && sid in s.sessions
    requires forall id :: id in s.rows && s.rows[id].kind.Sale? ==> 0 <= s.rows[id].total
    ensures Expected(s.sessions[sid]) == Drawer(s, sid)
       <==> (forall id :: id in s.rows && PaidOutInCash(s.rows[id], sid) ==> s.rows[id].total == 0)
  {
    hide Inv, Reachable, Drawer, RowOk, CartsOk;
    ReachableOk(s);
    DrawerLawExactly(s, sid);
    TillTalliesAreSums(s, sid);
    forall id | id in s.rows ensures CashOf(sid, Refund)(s.rows[id]) <= 0 {
      RowFacts(s, id);
    }
    TotalOfNonPositive(s.rows, CashOf(sid, Refund));
  }
}
