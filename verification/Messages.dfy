/** What leaves the service: the requests Sentry receives and the payloads Fabric is posted, field by field. */
module Messages {
  import opened PosTypes
  import opened Money
  import opened Store
  import opened Settlement
  import opened Invariants
  import opened Preservation
  import opened Theorems
  import Outbox = FabricOutbox

  function SentSubtotals(lines: seq<SentLine>): seq<int> {
    seq(|lines|, k requires 0 <= k < |lines| => lines[k].unitPrice * lines[k].quantity)
  }

  function SentTaxes(lines: seq<SentLine>): seq<int> {
    seq(|lines|, k requires 0 <= k < |lines| => lines[k].tax)
  }

  function SentTotals(lines: seq<SentLine>): seq<int> {
    seq(|lines|, k requires 0 <= k < |lines| => lines[k].lineTotal)
  }

  /** The line sent is the line stored. */
  predicate SameLine(sent: SentLine, line: Line) {
    && sent.sku == line.item.sku && sent.warehouse == line.item.warehouse && sent.bin == line.item.bin
    && sent.quantity == line.item.quantity && sent.unitPrice == line.unitPrice
    && sent.tax == line.tax && sent.lineTotal == line.lineTotal
  }

  /** A request that is on the wire, or that an order at Sentry was recorded from. */
  ghost predicate Known(s: State, q: Request) {
    q in s.wire || exists k :: k in s.orders && s.orders[k].request == q
  }

  lemma KnownIsTheRows(s: State, q: Request)
    requires Reachable(s) && Known(s, q)
    ensures CanRequest(s.rows, q.key) && Paid(s.rows[q.key].status) && q == RequestFor(s.rows, q.key)
  {
    hide BooksOk, LocalOk, CallsOk, Reachable;
    ReachableOk(s);
    assert q in s.wire;
    assert RequestOk(s.rows, q);
  }

  /** Every sale Sentry is told about, whenever and however often, says what the row says: its amounts are the sums over
      the lines sent, those lines are the row's, and so are tender, cashier, terminal, method and reference. */
  lemma SaleRequestSays(s: State, q: Request)
    requires Reachable(s) && Known(s, q) && q.SaleRequest?
    ensures q.key in s.rows && s.rows[q.key].kind.Sale?
    ensures q.subtotal == Sum(SentSubtotals(q.lines)) && q.tax == Sum(SentTaxes(q.lines))
    ensures q.total == Sum(SentTotals(q.lines)) == q.subtotal + q.tax
    ensures var row := s.rows[q.key];
            && |q.lines| == |row.cart| && (forall k :: 0 <= k < |q.lines| ==> SameLine(q.lines[k], row.cart[k]))
            && q.tenders == row.tenders && |q.tenders| == 1 && Some(q.payment) == row.payment
            && q.cashier == row.cashier && q.terminal == row.terminal && q.externalRef == row.windcaveRef
  {
    hide Inv, Reachable, RowOk, ParentOk;
    ReachableOk(s);
    KnownIsTheRows(s, q);
    RowFacts(s, q.key);
    PaymentRecord(s, q.key);
    assert CartPriced(s.rates, s.rows[q.key]);
    var row := s.rows[q.key];
    assert SentSubtotals(q.lines) == Subtotals(row.cart);
    assert SentTaxes(q.lines) == Taxes(row.cart);
    assert SentTotals(q.lines) == LineTotals(row.cart);
  }

  /** Every refund Sentry is told about names its sale's order and reference and carries the sale's amounts negated. */
  lemma RefundRequestSays(s: State, q: Request)
    requires Reachable(s) && Known(s, q) && q.RefundRequest?
    ensures q.key in s.rows && s.rows[q.key].kind.Refund? && s.rows[q.key].parent.Some?
    ensures s.rows[q.key].parent.value in s.rows
    ensures var refund, sale := s.rows[q.key], s.rows[s.rows[q.key].parent.value];
            && sale.kind.Sale? && sale.status == Complete
            && q.originalSo.Some? && q.originalSo == sale.so && q.originalRef == sale.windcaveRef
            && q.subtotal == -sale.subtotal && q.tax == -sale.tax && q.total == -sale.total
            && q.total == refund.total
            && q.tenders == refund.tenders && |q.tenders| == 1 && Some(q.payment) == refund.payment == sale.payment
            && q.cashier == refund.cashier && q.terminal == refund.terminal && q.externalRef == refund.windcaveRef
  {
    hide Inv, Reachable, CartsOk;
    ReachableOk(s);
    KnownIsTheRows(s, q);
    RowFacts(s, q.key);
    PaymentRecord(s, q.key);
    RowFacts(s, s.rows[q.key].parent.value);
  }

  /** Every payload in the outbox says what its row says, and its amounts are the sums over its lines; only the order
      number may be missing. */
  lemma PayloadSays(s: State, i: nat)
    requires Reachable(s) && i < |s.box.entries|
    ensures var entry := s.box.entries[i];
            && entry.txn in s.rows
            && var p, row := entry.payload, s.rows[entry.txn];
               && p.externalRef == entry.txn && p.kind == row.kind && p.parent == row.parent
               && p.cashier == row.cashier && p.terminal == row.terminal && p.payment == row.payment
               && p.lines == row.cart
               && p.subtotal == row.subtotal == Sum(Subtotals(p.lines)) && p.tax == row.tax == Sum(Taxes(p.lines))
               && p.total == row.total == Sum(LineTotals(p.lines))
               && (p.so == None || (p.so == row.so && row.status == Complete))
  {
    hide Inv, Reachable, ParentOk, Outbox.BoxOk;
    ReachableOk(s);
    var entry := s.box.entries[i];
    OneOutboxEntry(s, entry.txn);
    RowFacts(s, entry.txn);
    assert CartPriced(s.rates, s.rows[entry.txn]);
  }
}
