/** The checkout handlers, each from one commit to its next network call. */
module CheckoutService {
  import opened PosTypes
  import opened Money
  import opened Store
  import opened TillSessions
  import opened Settlement
  import opened ServiceDatabase
  import TillService
  import Table = FabricOutbox

  predicate Asked(lines: seq<LineIn>, sku: string) {
    exists k :: 0 <= k < |lines| && lines[k].sku == sku
  }

  /** Every line asking for `later` comes after one asking for `sku`. */
  ghost predicate AskedBefore(lines: seq<LineIn>, sku: string, later: string) {
    forall k :: 0 <= k < |lines| && lines[k].sku == later ==> Asked(lines[..k], sku)
  }

  /** The missing SKUs are exactly those asked for without a price, each once, in order of first appearance. */
  lemma {:induction false} MissingSkusAre(lines: seq<LineIn>, prices: map<string, int>)
    ensures forall sku :: sku in MissingSkus(lines, prices) <==> sku !in prices && Asked(lines, sku)
    ensures forall i, j :: 0 <= i < j < |MissingSkus(lines, prices)| ==>
              MissingSkus(lines, prices)[i] != MissingSkus(lines, prices)[j]
              && AskedBefore(lines, MissingSkus(lines, prices)[i], MissingSkus(lines, prices)[j])
  {
    if lines != [] {
      var last := |lines| - 1;
      var front, sku := lines[..last], lines[last].sku;
      MissingSkusAre(front, prices);
      var before, after := MissingSkus(front, prices), MissingSkus(lines, prices);
      forall x ensures Asked(lines, x) <==> Asked(front, x) || x == sku {
        if Asked(front, x) {
          var k :| 0 <= k < last && front[k].sku == x;
          assert lines[k].sku == x;
        }
        if Asked(lines, x) && x != sku {
          var k :| 0 <= k < |lines| && lines[k].sku == x;
          assert front[k].sku == x;
        }
      }
      forall i, j | 0 <= i < j < |after| ensures after[i] != after[j] && AskedBefore(lines, after[i], after[j]) {
        assert after[i] == before[i] && Asked(front, before[i]);
        StillBefore(lines, before, after, i, j);
      }
    }
  }

  lemma StillBefore(lines: seq<LineIn>, before: seq<string>, after: seq<string>, i: nat, j: nat)
    requires lines != [] && i < j < |after| && i < |before| && after[i] == before[i]
    requires j < |before| ==> after[j] == before[j] && AskedBefore(lines[..|lines| - 1], before[i], before[j])
    requires |before| <= j ==> !Asked(lines[..|lines| - 1], after[j])
    requires Asked(lines[..|lines| - 1], before[i])
    ensures AskedBefore(lines, after[i], after[j])
  {
    var last := |lines| - 1;
    var front := lines[..last];
    forall k | 0 <= k < |lines| && lines[k].sku == after[j] ensures Asked(lines[..k], after[i]) {
      if k < last {
        assert front[k] == lines[k] && lines[..k] == front[..k];
      } else {
        assert lines[..k] == front;
      }
    }
  }

  /** The SKUs with no price, each once, in cart order. */
  method FindMissing(lines: seq<LineIn>, prices: map<string, int>) returns (missing: seq<string>)
    ensures missing == MissingSkus(lines, prices)
    ensures missing == [] <==> AllPriced(lines, prices)
    ensures forall sku :: sku in missing <==> sku !in prices && Asked(lines, sku)
    ensures forall i, j :: 0 <= i < j < |missing| ==>
              missing[i] != missing[j] && AskedBefore(lines, missing[i], missing[j])
  {
    MissingSkusAre(lines, prices);
    missing := [];
    for k := 0 to |lines|
      invariant missing == MissingSkus(lines[..k], prices)
      invariant missing == [] <==> AllPriced(lines[..k], prices)
    {
      assert lines[..k + 1][..k] == lines[..k];
      var sku := lines[k].sku;
      if sku !in prices && sku !in missing {
        missing := missing + [sku];
      }
      assert AllPriced(lines[..k + 1], prices) <==> AllPriced(lines[..k], prices) && sku in prices by {
        if AllPriced(lines[..k + 1], prices) {
          assert lines[..k + 1][k] == lines[k];
          forall j | 0 <= j < k ensures lines[..k][j].sku in prices { assert lines[..k + 1][j] == lines[..k][j]; }
        }
      }
    }
    assert lines[..|lines|] == lines;
  }

  /** Price the cart line by line, adding up as it goes. */
  method PriceCart(lines: seq<LineIn>, prices: map<string, int>, rate: Rate)
    returns (cart: seq<Line>, subtotal: int, tax: int)
    requires ValidRate(rate) && AllPriced(lines, prices)
    ensures cart == PricedCart(lines, prices, rate)
    ensures PricedFrom(cart, lines, prices, rate)
    ensures subtotal == Sum(Subtotals(cart)) && tax == Sum(Taxes(cart))
  {
    PricedCartIs(lines, prices, rate);
    hide PricedFrom;
    cart, subtotal, tax := [], 0, 0;
    for k := 0 to |lines|
      invariant |cart| == k
      invariant forall j :: 0 <= j < k ==> cart[j] == Priced(lines[j], prices[lines[j].sku], rate)
      invariant subtotal == Sum(Subtotals(cart)) && tax == Sum(Taxes(cart))
    {
      var unitPrice := prices[lines[k].sku];
      var lineSubtotal := unitPrice * lines[k].quantity;
      var lineTax := ComputeLineTax(lineSubtotal, rate, lines[k].taxable);
      subtotal := subtotal + lineSubtotal;
      tax := tax + lineTax;
      var line := Line(lines[k], unitPrice, lineTax, lineSubtotal + lineTax);
      AddLine(cart, line);
      cart := cart + [line];
    }
  }

  lemma AddLine(cart: seq<Line>, line: Line)
    ensures Sum(Subtotals(cart + [line])) == Sum(Subtotals(cart)) + line.unitPrice * line.item.quantity
    ensures Sum(Taxes(cart + [line])) == Sum(Taxes(cart)) + line.tax
  {
    assert Subtotals(cart + [line]) == Subtotals(cart) + [line.unitPrice * line.item.quantity];
    assert Taxes(cart + [line]) == Taxes(cart) + [line.tax];
    SumConcat(Subtotals(cart), [line.unitPrice * line.item.quantity]);
    SumConcat(Taxes(cart), [line.tax]);
    assert Sum([line.tax]) == line.tax + Sum([line.tax][1..]);
    var x := line.unitPrice * line.item.quantity;
    assert Sum([x]) == x + Sum([x][1..]);
  }

  /** A row that has just been rung up. */
  ghost predicate JustRungUp(row: Txn, lines: seq<LineIn>, cashier: string, prices: map<string, int>, config: Config,
                             clock: int)
    requires ValidRate(config.rate)
  {
    && row.kind.Sale? && row.status == PendingValidation && row.cashier == cashier && row.terminal == config.station
    && PricedFrom(row.cart, lines, prices, config.rate)
    && row.subtotal == Sum(Subtotals(row.cart)) && row.tax == Sum(Taxes(row.cart))
    && row.total == row.subtotal + row.tax
    && row.parent == None && row.refundTxn == None && row.payment == None && row.tenders == []
    && row.windcaveRef == None && row.so == None && row.session == None
    && row.createdAt <= clock < row.createdAt + 1_000_000 && row.createdAt % 1_000_000 == 0
  }

  method Start(db: Database, id: TxnId, lines: seq<LineIn>, cashier: string, prices: map<string, int>)
    returns (reply: Reply)
    requires ValidRate(db.config.rate)
    modifies db`rows, db`calls, db`nextCall
    ensures (db.View(), reply) == StartCheckout(old(db.View()), id, lines, cashier, prices)
    ensures reply.Accepted? <==> (forall k :: 0 <= k < |lines| ==> lines[k].sku in prices) && id !in old(db.rows)
    ensures reply.Rejected? ==> db.View() == old(db.View())
    ensures (exists k :: 0 <= k < |lines| && lines[k].sku !in prices) ==>
              reply.Rejected? && reply.error.PriceMissing?
              && forall sku :: sku in reply.error.skus <==> sku !in prices && Asked(lines, sku)
    ensures reply.Rejected? && !reply.error.PriceMissing? ==> reply.error == DuplicateKey
    ensures reply.Accepted? ==>
              && id in db.rows && db.rows == old(db.rows)[id := db.rows[id]]
              && JustRungUp(db.rows[id], lines, cashier, prices, db.config, db.fabric.clock)
              && db.calls == old(db.calls)[old(db.nextCall) := ValidateCart(id)] && db.nextCall == old(db.nextCall) + 1
  {
    var missing := FindMissing(lines, prices);
    if missing != [] { return Rejected(PriceMissing(missing)); }
    var cart, subtotal, tax := PriceCart(lines, prices, db.config.rate);
    hide PricedFrom;
    var total := subtotal + tax;
    if id in db.rows { return Rejected(DuplicateKey); }
    db.rows := db.rows[id := Txn(Sale, PendingValidation, None, None, cart, subtotal, tax, total, None, [], None, None,
                                 cashier, db.config.station, None, db.fabric.clock / Table.SECOND * Table.SECOND)];
    db.Await(ValidateCart(id));
    return Accepted;
  }

  method CartValidated(db: Database, c: nat, answer: CartAnswer) returns (reply: Reply)
    modifies db`rows, db`calls
    ensures (db.View(), reply) == ValidationAnswered(old(db.View()), c, answer)
    ensures reply == Rejected(NoSuchCall) <==>
              !(c in old(db.calls) && old(db.calls)[c].ValidateCart? && old(db.calls)[c].txn in old(db.rows))
    ensures reply == Rejected(NoSuchCall) ==> db.View() == old(db.View())
    ensures reply != Rejected(NoSuchCall) ==>
              && reply == (match answer
                           case CartValid => Accepted
                           case CartInvalid => Rejected(CartConflicts)
                           case SentryDown => Rejected(SentryUnavailable))
              && db.calls == old(db.calls) - {c}
              && var id := old(db.calls)[c].txn;
                 db.rows == old(db.rows)[id := old(db.rows)[id].(
                   status := if answer.CartValid? then AwaitingPayment else ValidationFailed)]
  {
    if c !in db.calls || !db.calls[c].ValidateCart? || db.calls[c].txn !in db.rows { return Rejected(NoSuchCall); }
    var id := db.calls[c].txn;
    var txn := db.rows[id];
    db.calls := db.calls - {c};
    match answer {
      case SentryDown =>
        db.rows := db.rows[id := txn.(status := ValidationFailed)];
        return Rejected(SentryUnavailable);
      case CartInvalid =>
        db.rows := db.rows[id := txn.(status := ValidationFailed)];
        return Rejected(CartConflicts);
      case CartValid =>
        db.rows := db.rows[id := txn.(status := AwaitingPayment)];
        return Accepted;
    }
  }

  /** The sale is there and waits for its payment. */
  predicate Payable(rows: Rows, id: TxnId) {
    id in rows && rows[id].kind.Sale? && rows[id].status == AwaitingPayment
  }

  /** The refusal otherwise: the row's present status, if there is a row. */
  function NotPayable(rows: Rows, id: TxnId): Reply {
    Rejected(if id in rows then InvalidState(rows[id].status) else TransactionNotFound)
  }

  method LoadSaleForPayment(db: Database, id: TxnId) returns (reply: Reply)
    ensures reply == LoadForPayment(db.View(), id)
    ensures reply.Accepted? <==> Payable(db.rows, id)
    ensures reply.Accepted? ==> id in db.rows
    ensures reply.Rejected? ==> reply == NotPayable(db.rows, id)
  {
    if id !in db.rows { return Rejected(TransactionNotFound); }
    var txn := db.rows[id];
    if txn.kind != Sale { return Rejected(InvalidState(txn.status)); }
    if txn.status != AwaitingPayment { return Rejected(InvalidState(txn.status)); }
    return Accepted;
  }

  method PayByCash(db: Database, id: TxnId, tendered: int) returns (reply: Reply)
    modifies db`rows, db`wire, db`calls, db`nextCall
    ensures (db.View(), reply) == ChargeCash(old(db.View()), id, tendered)
    ensures reply == if !Payable(old(db.rows), id) then NotPayable(old(db.rows), id)
                     else if tendered < old(db.rows)[id].total then Rejected(InsufficientTender(old(db.rows)[id].total))
                     else Accepted
    ensures reply.Rejected? ==> db.View() == old(db.View())
    ensures reply.Accepted? ==>
              && db.Sends(id, FirstSend(id))
              && var total := old(db.rows)[id].total;
                 db.rows == old(db.rows)[id := old(db.rows)[id].(
                   status := PaymentSuccess, payment := Some(Cash),
                   tenders := [CashTender(total, tendered, tendered - total)])]
  {
    reply := LoadSaleForPayment(db, id);
    if reply.Rejected? { return; }
    var txn := db.rows[id];
    if tendered < txn.total { return Rejected(InsufficientTender(txn.total)); }
    var change := tendered - txn.total;
    txn := txn.(status := PaymentSuccess);
    txn := txn.(payment := Some(Cash));
    txn := txn.(tenders := [CashTender(txn.total, tendered, change)]);
    db.rows := db.rows[id := txn];
    db.Send(id, FirstSend(id));
  }

  /** The end of a card sale: a complete answer from the terminal decides it. */
  method FinalizeCardCharge(db: Database, id: TxnId, answer: WindcaveAnswer)
    requires id in db.rows && db.rows[id].kind.Sale?
    modifies db`rows, db`wire, db`calls, db`nextCall
    ensures db.View() == FinalizeCard(old(db.View()), id, answer)
    ensures !answer.Settles() ==>
              db.rows == old(db.rows)[id := old(db.rows)[id].(status := PaymentFailed)] && db.SendsNothing()
    ensures answer.Settles() ==>
              && db.Sends(id, FirstSend(id))
              && var result := answer.result.value;
                 var amount := if result.amount in {None, Some(0)} then old(db.rows)[id].total else result.amount.value;
                 db.rows == old(db.rows)[id := old(db.rows)[id].(
                   status := PaymentSuccess, payment := Some(Card), windcaveRef := result.card.ref,
                   tenders := [CardTender(amount, result.card)])]
  {
    var txn := db.rows[id];
    if answer.signatureRequired {
      db.rows := db.rows[id := txn.(status := PaymentFailed)];
      return;
    }
    if !answer.Approved() {
      db.rows := db.rows[id := txn.(status := PaymentFailed)];
      return;
    }
    var result := answer.result.value;
    var amount := txn.total;
    if result.amount.Some? && result.amount.value != 0 { amount := result.amount.value; }
    txn := txn.(status := PaymentSuccess);
    txn := txn.(payment := Some(Card), windcaveRef := result.card.ref);
    txn := txn.(tenders := [CardTender(amount, result.card)]);
    db.rows := db.rows[id := txn];
    db.Send(id, FirstSend(id));
  }

  method PayByCard(db: Database, id: TxnId, windcave: WindcaveReply) returns (reply: Reply)
    modifies db`rows, db`wire, db`calls, db`nextCall
    ensures (db.View(), reply) == ChargeCard(old(db.View()), id, windcave)
    ensures reply == if !Payable(old(db.rows), id) then NotPayable(old(db.rows), id)
                     else if windcave.Unavailable? then Rejected(WindcaveUnavailable)
                     else Accepted
    ensures !Payable(old(db.rows), id) ==> db.View() == old(db.View())
    ensures Payable(old(db.rows), id) && windcave.Unavailable? ==>
              db.rows == old(db.rows)[id := old(db.rows)[id].(status := PaymentFailed)] && db.SendsNothing()
    ensures Payable(old(db.rows), id) && windcave.Answered? && !windcave.answer.Settles() ==>
              && db.rows == old(db.rows)[id := old(db.rows)[id].(
                   status := if windcave.answer.complete then PaymentFailed else PaymentInFlight,
                   payment := Some(Card))]
              && db.SendsNothing()
    ensures Payable(old(db.rows), id) && windcave.Answered? && windcave.answer.Settles() ==>
              && db.Sends(id, FirstSend(id))
              && var result := windcave.answer.result.value;
                 var amount := if result.amount in {None, Some(0)} then old(db.rows)[id].total else result.amount.value;
                 db.rows == old(db.rows)[id := old(db.rows)[id].(
                   status := PaymentSuccess, payment := Some(Card), windcaveRef := result.card.ref,
                   tenders := [CardTender(amount, result.card)])]
  {
    reply := LoadSaleForPayment(db, id);
    if reply.Rejected? { return; }
    var txn := db.rows[id];
    match windcave {
      case Unavailable =>
        db.rows := db.rows[id := txn.(status := PaymentFailed)];
        return Rejected(WindcaveUnavailable);
      case Answered(initial) =>
        txn := txn.(payment := Some(Card));
        db.rows := db.rows[id := txn];
        if initial.complete {
          FinalizeCardCharge(db, id, initial);
        } else {
          db.rows := db.rows[id := txn.(status := PaymentInFlight)];
        }
    }
  }

  method Cancel(db: Database, id: TxnId) returns (reply: Reply)
    modifies db`rows
    ensures (db.View(), reply) == CancelCheckout(old(db.View()), id)
    ensures reply == if id !in old(db.rows) then Rejected(TransactionNotFound)
                     else if old(db.rows)[id].status in {AwaitingPayment, PaymentInFlight} then Accepted
                     else Rejected(InvalidState(old(db.rows)[id].status))
    ensures db.rows == if reply.Accepted? then old(db.rows)[id := old(db.rows)[id].(status := Cancelled)]
                       else old(db.rows)
  {
    if id !in db.rows { return Rejected(TransactionNotFound); }
    var txn := db.rows[id];
    if txn.status != AwaitingPayment && txn.status != PaymentInFlight { return Rejected(InvalidState(txn.status)); }
    db.rows := db.rows[id := txn.(status := Cancelled)];
    return Accepted;
  }

  /** What the poller does with what it learnt. */
  method PollTail(db: Database, id: TxnId, final: Option<WindcaveAnswer>)
    requires id in db.rows && db.rows[id].status == PaymentInFlight ==> db.rows[id].kind.Sale?
    modifies db`rows, db`wire, db`calls, db`nextCall
    ensures db.View() == PollFinished(old(db.View()), id, Sale, final)
    ensures !(id in old(db.rows) && old(db.rows)[id].status == PaymentInFlight) ==> db.View() == old(db.View())
    ensures id in old(db.rows) && old(db.rows)[id].status == PaymentInFlight ==>
              if final.Some? && final.value.Settles() then
                && db.Sends(id, FirstSend(id))
                && var result := final.value.result.value;
                   var amount := if result.amount in {None, Some(0)} then old(db.rows)[id].total
                                 else result.amount.value;
                   db.rows == old(db.rows)[id := old(db.rows)[id].(
                     status := PaymentSuccess, payment := Some(Card), windcaveRef := result.card.ref,
                     tenders := [CardTender(amount, result.card)])]
              else
                db.rows == old(db.rows)[id := old(db.rows)[id].(status := PaymentFailed)] && db.SendsNothing()
  {
    if id !in db.rows || db.rows[id].status != PaymentInFlight { return; }
    if final.None? {
      db.rows := db.rows[id := db.rows[id].(status := PaymentFailed)];
      return;
    }
    FinalizeCardCharge(db, id, final.value);
  }

  /** Sentry's answer to a sale's first send. */
  method SaleAnswered(db: Database, id: TxnId, ok: bool)
    requires id in db.rows && db.rows[id].kind.Sale? && (ok ==> id in db.orders) && OneOpenPerCashier(db.sessions)
    modifies db`rows, db`sessions, db.fabric`entries
    ensures db.View() == FirstAnswered(old(db.View()), id, ok)
    ensures !ok ==>
              db.rows == old(db.rows)[id := old(db.rows)[id].(status := InventoryUpdateFailed)]
              && db.sessions == old(db.sessions)
    ensures ok ==>
              var found := OpenSession(old(db.sessions), old(db.rows)[id].cashier);
              db.rows == old(db.rows)[id := old(db.rows)[id].(
                status := Complete, so := Some(db.orders[id].soId),
                session := if found.Some? then found else old(db.rows)[id].session)]
    ensures |db.fabric.entries| == |old(db.fabric.entries)| + 1
    ensures db.fabric.entries[..|old(db.fabric.entries)|] == old(db.fabric.entries)
    ensures var entry := db.fabric.entries[|old(db.fabric.entries)|];
            && entry.txn == id && entry.status.Pending? && entry.nextAt == db.fabric.clock
            && id in db.rows && entry.payload.so == db.rows[id].so && entry.payload.total == db.rows[id].total
  {
    var txn := db.rows[id];
    if !ok {
      db.rows := db.rows[id := txn.(status := InventoryUpdateFailed)];
      db.EnqueueOrder(id);
      return;
    }
    txn := txn.(status := Complete);
    txn := txn.(so := Some(db.orders[id].soId));
    db.rows := db.rows[id := txn];
    TillService.AttributeTransaction(db, id, false);
    db.EnqueueOrder(id);
  }
}
