/** Retrying what Sentry could not record, one row at a time or all at once, and dispatching any protocol step to
    the handler that performs it. */
module ReconciliationService {
  import opened PosTypes
  import opened Money
  import opened Sums
  import opened Store
  import opened TillSessions
  import opened Settlement
  import opened Protocol
  import opened Invariants
  import opened Preservation
  import opened Evolution
  import opened ServiceDatabase
  import TillService
  import CheckoutService
  import RefundService

  /** The operator's retry: only a row Sentry failed to record is sent again. */
  method Retry(db: Database, id: TxnId) returns (reply: Reply)
    modifies db`wire, db`calls, db`nextCall
    ensures (db.View(), reply) == RetrySentry(old(db.View()), id)
    ensures reply == if id !in old(db.rows) then Rejected(TransactionNotFound)
                     else if db.rows[id].status == (if db.rows[id].kind.Sale? then InventoryUpdateFailed
                                                    else RefundInventoryUpdateFailed) then Accepted
                     else Rejected(InvalidState(db.rows[id].status))
    ensures reply.Rejected? ==> db.View() == old(db.View())
    ensures reply.Accepted? && CanRequest(db.rows, id) ==> db.Sends(id, Resend(id))
  {
    if id !in db.rows { return Rejected(TransactionNotFound); }
    var txn := db.rows[id];
    var expected := if txn.kind.Sale? then InventoryUpdateFailed else RefundInventoryUpdateFailed;
    if txn.status != expected { return Rejected(InvalidState(txn.status)); }
    db.Send(id, Resend(id));
    return Accepted;
  }

  /** A batch command's send: the row is not looked at again. */
  method ResendSettled(db: Database, id: TxnId)
    modifies db`wire, db`calls, db`nextCall
    ensures db.View() == BatchResend(old(db.View()), id)
    ensures CanRequest(db.rows, id)
            && db.rows[id].status in {InventoryUpdateFailed, RefundInventoryUpdateFailed, Complete} ==>
              db.Sends(id, Resend(id))
    ensures !(id in db.rows && db.rows[id].status in {InventoryUpdateFailed, RefundInventoryUpdateFailed, Complete}) ==>
              db.SendsNothing()
  {
    if id !in db.rows || !Settled(db.rows[id].status) { return; }
    db.Send(id, Resend(id));
  }

  /** Sentry's answer to a retry. */
  method RetryHeard(db: Database, id: TxnId, ok: bool)
    requires id in db.rows && (ok ==> id in db.orders)
    modifies db`rows
    ensures db.View() == RetryAnswered(old(db.View()), id, ok)
    ensures !ok ==> db.View() == old(db.View())
    ensures ok && !(old(db.rows)[id].kind.Refund? && HasParent(old(db.rows), old(db.rows)[id])) ==>
              db.rows == old(db.rows)[id := old(db.rows)[id].(status := Complete, so := Some(db.orders[id].soId))]
    ensures ok && old(db.rows)[id].kind.Refund? && HasParent(old(db.rows), old(db.rows)[id])
            && old(db.rows)[id].parent != Some(id) ==>
              var sale := old(db.rows)[id].parent.value;
              var refund := old(db.rows)[id].(status := Complete, so := Some(db.orders[id].soId));
              db.rows == old(db.rows)[id := refund][sale := old(db.rows)[sale].(refundTxn := Some(id))]
  {
    if !ok { return; }
    var txn := db.rows[id];
    txn := txn.(status := Complete);
    txn := txn.(so := Some(db.orders[id].soId));
    db.rows := db.rows[id := txn];
    if txn.kind.Refund? && txn.parent.Some? && txn.parent.value in db.rows {
      db.rows := db.rows[txn.parent.value := db.rows[txn.parent.value].(refundTxn := Some(id))];
    }
  }

  /** Run the continuation of a call to Sentry. */
  method Heard(db: Database, c: nat, ok: bool)
    requires OneOpenPerCashier(db.sessions)
    modifies db`rows, db`sessions, db`calls, db.fabric`entries
    ensures db.View() == SentryAnswers(old(db.View()), c, ok)
  {
    if c !in db.calls || db.calls[c].txn !in db.rows || (ok && db.calls[c].txn !in db.orders) { return; }
    var call := db.calls[c];
    match call {
      case ValidateCart(_) =>
      case FirstSend(id) =>
        db.calls := db.calls - {c};
        if db.rows[id].kind.Sale? { CheckoutService.SaleAnswered(db, id, ok); }
        else { RefundService.RefundAnswered(db, id, ok); }
      case Resend(id) =>
        db.calls := db.calls - {c};
        RetryHeard(db, id, ok);
    }
  }

  /** Any step but the drain worker's own is performed by a handler, which does to the tables exactly what the
      protocol says. */
  method Perform(db: Database, e: Event)
    requires Inv(db.View())
    requires e.EOutbox? ==> !e.step.Claim? && !e.step.Process?
    modifies db, db.fabric
    ensures db.View() == Apply(old(db.View()), e) && Inv(db.View())
  {
    hide Inv, OneOpenPerCashier, StartCheckout, ValidationAnswered, ChargeCash, ChargeCard, CancelCheckout,
         PollFinished, StartRefund, ChargeCashRefund, ChargeCardRefund, CancelRefund, SentryRecords, SentryAnswers,
         RetrySentry, BatchResend, DropCall, OpenTill, CloseTill, Reconfigure, RequestFor, BuildPayload, LookupRefund,
         AllPriced;
    ghost var before := db.View();
    HandlerFacts(before, e);
    ApplyKeeps(before, e);
    match e {
      case EStartCheckout(id, lines, cashier, prices) =>
        var _ := CheckoutService.Start(db, id, lines, cashier, prices);
      case EValidationAnswered(c, answer) => var _ := CheckoutService.CartValidated(db, c, answer);
      case EChargeCash(id, tendered) => var _ := CheckoutService.PayByCash(db, id, tendered);
      case EChargeCard(id, reply) => var _ := CheckoutService.PayByCard(db, id, reply);
      case ECancelCheckout(id) => var _ := CheckoutService.Cancel(db, id);
      case EPollCard(id, final) => CheckoutService.PollTail(db, id, final);
      case EStartRefund(id, original, cashier) => var _ := RefundService.Start(db, id, original, cashier);
      case EChargeCashRefund(id) => var _ := RefundService.PayBackCash(db, id);
      case EChargeCardRefund(id, reply) => var _ := RefundService.PayBackCard(db, id, reply);
      case ECancelRefund(id) => var _ := RefundService.Cancel(db, id);
      case EPollRefund(id, final) => RefundService.PollTail(db, id, final);
      case ESentryRecords(request, soId) => db.SentryHandles(request, soId);
      case ESentryAnswers(c, ok) => Heard(db, c, ok);
      case ERetrySentry(id) => var _ := Retry(db, id);
      case EBatchResend(id) => ResendSettled(db, id);
      case ECrash(c) => db.Crash(c);
      case EOpenTill(sid, cashier, openingFloat) =>
        var _ := TillService.OpenSessionFor(db, sid, cashier, openingFloat);
      case ECloseTill(cashier, count) => var _ := TillService.CloseSessionFor(db, cashier, count);
      case EReconfigure(config) => db.Restart(config);
      case EOutbox(step) =>
        match step {
          case Tick(elapsed) => db.fabric.clock := db.fabric.clock + elapsed;
          case AdminRetry(i) => var _ := db.fabric.RetryEntry(i);
          case Enqueue(_, _) =>
        }
    }
  }

  lemma HandlerFacts(s: State, e: Event)
    requires Inv(s)
    ensures ValidRate(s.config.rate) && OneOpenPerCashier(s.sessions)
    ensures e.EPollCard? && e.id in s.rows && s.rows[e.id].status == PaymentInFlight ==> s.rows[e.id].kind.Sale?
    ensures e.EPollRefund? && e.id in s.rows && s.rows[e.id].status == RefundPaymentInFlight ==>
              s.rows[e.id].kind.Refund?
  {
    hide BooksOk, RemoteOk, EntriesOk, Outbox.BoxOk;
    if e.EPollCard? && e.id in s.rows && s.rows[e.id].status == PaymentInFlight {
      InFlightKind(s, e.id, Sale);
    }
    if e.EPollRefund? && e.id in s.rows && s.rows[e.id].status == RefundPaymentInFlight {
      InFlightKind(s, e.id, Refund);
    }
  }

  // ---- the batch commands ----

  /** What Sentry does with one retried request: it may record it, and its answer may be lost. */
  datatype SentryTurn = SentryTurn(records: Option<SoId>, answers: bool)

  datatype RetryReport = RetryReport(scanned: nat, succeeded: seq<TxnId>, stillFailing: seq<TxnId>)

  function Unrecorded(rows: Rows, kind: Kind): set<TxnId> {
    set id | id in rows && rows[id].kind == kind && rows[id].status == UnrecordedStatus(kind)
  }

  lemma RetryBegun(s: State, id: TxnId)
    requires Inv(s) && id in s.rows && s.rows[id].status == UnrecordedStatus(s.rows[id].kind)
    ensures var mid := BatchResend(s, id);
            && CanRequest(s.rows, id) && mid.rows == s.rows && mid.orders == s.orders
            && s.nextCall in mid.calls && mid.calls[s.nextCall] == Resend(id)
            && RequestFor(s.rows, id) in mid.wire && RequestFor(s.rows, id).key == id
  {
    hide Inv, CartsOk, RowOk, RefundOf;
    RowFacts(s, id);
  }

  lemma RetryEnded(s: State, c: nat, id: TxnId, ok: bool)
    requires c in s.calls && s.calls[c] == Resend(id) && id in s.rows && (ok ==> id in s.orders)
    requires RowOk(s.rows[id]) && ParentOk(s.rows, id)
    ensures var after := SentryAnswers(s, c, ok);
            && after.orders == s.orders && after.rows.Keys == s.rows.Keys
            && after.rows[id].status == (if ok then Complete else s.rows[id].status)
            && (ok ==> after.rows[id].so == Some(s.orders[id].soId))
            && (forall r :: r in s.rows ==> after.rows[r].kind == s.rows[r].kind)
            && (forall r :: r in s.rows && r != id ==> after.rows[r].status == s.rows[r].status)
  {
  }

  lemma AppliedRetry(s: State, id: TxnId)
    requires Inv(s) && id in s.rows && s.rows[id].status == UnrecordedStatus(s.rows[id].kind)
    ensures ValidRate(s.config.rate)
    ensures var mid := Apply(s, EBatchResend(id));
            && CanRequest(s.rows, id) && mid.rows == s.rows && mid.orders == s.orders
            && s.nextCall in mid.calls && mid.calls[s.nextCall] == Resend(id)
            && RequestFor(s.rows, id) in mid.wire && RequestFor(s.rows, id).key == id
  {
    hide Inv, BatchResend, Apply, UnrecordedStatus, CanRequest, RequestFor;
    RateOk(s);
    RetryBegun(s, id);
    RetryApplies(s, id);
  }

  lemma RetryApplies(s: State, id: TxnId)
    requires ValidRate(s.config.rate)
    ensures Apply(s, EBatchResend(id)) == BatchResend(s, id)
  {
    hide BatchResend;
  }

  lemma AppliedRecord(s: State, request: Request, soId: SoId)
    requires ValidRate(s.config.rate)
    ensures var mid := Apply(s, ESentryRecords(request, soId));
            && mid.rows == s.rows && mid.calls == s.calls
            && forall k :: k in s.orders ==> k in mid.orders && mid.orders[k] == s.orders[k]
  {
  }

  /** Sentry holds an order for the row once the turn is over: it did before, or it recorded one under an order
      number not in use. */
  ghost predicate Held(orders: Orders, id: TxnId, turn: SentryTurn) {
    id in orders || (turn.records.Some? && forall k :: k in orders ==> orders[k].soId != turn.records.value)
  }

  /** What one turn of a batch does to the state: the row is sent, perhaps recorded, and its answer heard. */
  ghost function TurnSteps(s: State, id: TxnId, turn: SentryTurn): seq<Event> {
    [EBatchResend(id)]
    + (if turn.records.Some? && CanRequest(s.rows, id)
       then [ESentryRecords(RequestFor(s.rows, id), turn.records.value)]
       else [])
    + [ESentryAnswers(s.nextCall, turn.answers && Held(s.orders, id, turn))]
  }

  /** The turns of a batch, one row after another. */
  ghost function BatchSteps(s: State, order: seq<TxnId>, sentry: nat -> SentryTurn): seq<Event>
    requires ValidRate(s.config.rate)
    decreases |order|
  {
    if order == [] then []
    else
      var last := |order| - 1;
      var before := BatchSteps(s, order[..last], sentry);
      before + TurnSteps(Run(s, before), order[last], sentry(last))
  }

  lemma TurnIs(s: State, id: TxnId, turn: SentryTurn)
    requires ValidRate(s.config.rate) && CanRequest(s.rows, id)
    ensures ValidRate(Apply(s, EBatchResend(id)).config.rate)
    ensures turn.records.Some? ==>
              var record := ESentryRecords(RequestFor(s.rows, id), turn.records.value);
              ValidRate(Apply(Apply(s, EBatchResend(id)), record).config.rate)
    ensures var sent := Apply(s, EBatchResend(id));
            var answer := ESentryAnswers(s.nextCall, turn.answers && Held(s.orders, id, turn));
            Run(s, TurnSteps(s, id, turn))
            == if turn.records.Some?
               then Apply(Apply(sent, ESentryRecords(RequestFor(s.rows, id), turn.records.value)), answer)
               else Apply(sent, answer)
  {
    hide Apply, Held, RequestFor, CanRequest;
    var send := EBatchResend(id);
    var answer := ESentryAnswers(s.nextCall, turn.answers && Held(s.orders, id, turn));
    RunThen(s, [], send);
    assert [] + [send] == [send];
    if turn.records.Some? {
      var record := ESentryRecords(RequestFor(s.rows, id), turn.records.value);
      RunThen(s, [send], record);
      RunThen(s, [send] + [record], answer);
      assert TurnSteps(s, id, turn) == [send] + [record] + [answer];
    } else {
      RunThen(s, [send], answer);
      assert TurnSteps(s, id, turn) == [send] + [answer];
    }
  }

  /** Sentry's table after the turn: the row's order is there if it was held or recorded, and nothing else moved. */
  ghost predicate OrdersAfter(before: Orders, after: Orders, id: TxnId, turn: SentryTurn) {
    && (id in after <==> Held(before, id, turn))
    && (forall k :: k in before ==> k in after && after[k] == before[k])
    && (forall k :: k in after && k !in before ==> k == id && turn.records == Some(after[k].soId))
  }

  lemma RecordIs(s: State, request: Request, id: TxnId, turn: SentryTurn)
    requires ValidRate(s.config.rate) && turn.records.Some? && request in s.wire && request.key == id
    ensures OrdersAfter(s.orders, Apply(s, ESentryRecords(request, turn.records.value)).orders, id, turn)
  {
  }

  /** One row of a batch: sent, perhaps recorded, answered.  It succeeds exactly when Sentry holds an order for it by
      the end and the answer arrives. */
  method RetryOne(db: Database, id: TxnId, turn: SentryTurn) returns (ok: bool)
    requires Inv(db.View()) && id in db.rows && db.rows[id].status == UnrecordedStatus(db.rows[id].kind)
    modifies db, db.fabric
    ensures Inv(db.View())
    ensures ValidRate(old(db.View()).config.rate)
    ensures db.View() == Run(old(db.View()), TurnSteps(old(db.View()), id, turn))
    ensures ok <==> turn.answers && id in db.orders
    ensures OrdersAfter(old(db.orders), db.orders, id, turn)
    ensures db.rows.Keys == old(db.rows.Keys)
    ensures id in db.rows && db.rows[id].status == if ok then Complete else old(db.rows[id].status)
    ensures ok ==> id in db.orders && db.rows[id].so == Some(db.orders[id].soId)
    ensures forall r :: r in old(db.rows) ==> db.rows[r].kind == old(db.rows[r].kind)
    ensures forall r :: r in old(db.rows) && r != id ==> db.rows[r].status == old(db.rows[r].status)
  {
    hide Inv, CartsOk, RowOk, ParentOk, Apply, Run, TurnSteps, RequestFor, UnrecordedStatus, SentryAnswers, Held;
    ghost var before := db.View();
    AppliedRetry(before, id);
    RowFacts(before, id);
    TurnIs(before, id, turn);
    var c := db.nextCall;
    Perform(db, EBatchResend(id));
    if turn.records.Some? {
      ghost var mid := db.View();
      var request := RequestFor(db.rows, id);
      AppliedRecord(mid, request, turn.records.value);
      RecordIs(mid, request, id, turn);
      Perform(db, ESentryRecords(request, turn.records.value));
    } else {
      NoRecord(db.orders, id, turn);
    }
    ok := turn.answers && id in db.orders;
    ghost var asked := db.View();
    RetryEnded(asked, c, id, ok);
    RateOk(asked);
    AppliedAnswer(asked, c, ok);
    Perform(db, ESentryAnswers(c, ok));
  }

  lemma NoRecord(orders: Orders, id: TxnId, turn: SentryTurn)
    requires turn.records.None?
    ensures OrdersAfter(orders, orders, id, turn)
  {
  }

  lemma AppliedAnswer(s: State, c: nat, ok: bool)
    requires ValidRate(s.config.rate)
    ensures Apply(s, ESentryAnswers(c, ok)) == SentryAnswers(s, c, ok)
  {
    hide SentryAnswers;
  }

  /** The rows of a batch that are done are exactly those reported, in the list their status says. */
  ghost predicate Reported(rows: Rows, kind: Kind, done: set<TxnId>, succeeded: seq<TxnId>, stillFailing: seq<TxnId>) {
    && |done| == |succeeded| + |stillFailing|
    && (forall id :: id in succeeded <==> id in done && id in rows && rows[id].status == Complete)
    && (forall id :: id in stillFailing <==> id in done && id in rows && rows[id].status == UnrecordedStatus(kind))
  }

  lemma ReportOne(before: Rows, after: Rows, kind: Kind, done: set<TxnId>,
                  succeeded: seq<TxnId>, stillFailing: seq<TxnId>, id: TxnId, ok: bool)
    requires Reported(before, kind, done, succeeded, stillFailing) && id !in done
    requires before.Keys == after.Keys && id in after
    requires forall r :: r in before && r != id ==> after[r].status == before[r].status
    requires after[id].status == if ok then Complete else UnrecordedStatus(kind)
    ensures Reported(after, kind, done + {id}, if ok then succeeded + [id] else succeeded,
                     if ok then stillFailing else stillFailing + [id])
  {
    assert |done + {id}| == |done| + 1;
  }

  /** A row is reported as recorded exactly when its turn's answer arrived and Sentry holds an order for it. */
  ghost predicate Outcomes(orders: Orders, order: seq<TxnId>, sentry: nat -> SentryTurn, succeeded: seq<TxnId>) {
    && (forall k :: 0 <= k < |order| ==> (order[k] in succeeded <==> sentry(k).answers && order[k] in orders))
    && (forall id :: id in succeeded ==> id in order)
  }

  /** Sentry hands out numbers it has not used. */
  ghost predicate FreshNumbers(orders: Orders, sentry: nat -> SentryTurn, n: nat) {
    && (forall i, j :: 0 <= i < j < n && sentry(i).records.Some? ==> sentry(i).records != sentry(j).records)
    && (forall i, k :: 0 <= i < n && k in orders ==> sentry(i).records != Some(orders[k].soId))
  }

  /** Sentry's table after the turns so far: what it held, and what those turns recorded. */
  ghost predicate HeldSince(start: Orders, now: Orders, order: seq<TxnId>, sentry: nat -> SentryTurn) {
    && (forall k :: k in start ==> k in now && now[k] == start[k])
    && (forall k :: k in now && k !in start ==>
          k in order && exists j :: 0 <= j < |order| && sentry(j).records == Some(now[k].soId))
    && (FreshNumbers(start, sentry, |order|) ==>
          forall k :: 0 <= k < |order| ==> (order[k] in now <==> order[k] in start || sentry(k).records.Some?))
  }

  lemma OutcomeNext(before: Orders, after: Orders, order: seq<TxnId>, sentry: nat -> SentryTurn,
                    succeeded: seq<TxnId>, id: TxnId, ok: bool)
    requires Outcomes(before, order, sentry, succeeded) && id !in order
    requires OrdersAfter(before, after, id, sentry(|order|)) && (ok <==> sentry(|order|).answers && id in after)
    ensures Outcomes(after, order + [id], sentry, if ok then succeeded + [id] else succeeded)
  {
    hide Held;
    var more := order + [id];
    var now := if ok then succeeded + [id] else succeeded;
    forall k | 0 <= k < |more| ensures more[k] in now <==> sentry(k).answers && more[k] in after {
      if k < |order| { assert more[k] == order[k] && order[k] != id; }
    }
  }

  lemma HeldNext(start: Orders, before: Orders, after: Orders, order: seq<TxnId>, sentry: nat -> SentryTurn, id: TxnId)
    requires HeldSince(start, before, order, sentry) && id !in order
    requires OrdersAfter(before, after, id, sentry(|order|))
    ensures HeldSince(start, after, order + [id], sentry)
  {
    var n, more := |order|, order + [id];
    forall k | k in after && k !in start
      ensures k in more && exists j :: 0 <= j < |more| && sentry(j).records == Some(after[k].soId)
    {
      if k in before {
        var j :| 0 <= j < n && sentry(j).records == Some(before[k].soId);
        assert sentry(j).records == Some(after[k].soId);
      } else {
        assert sentry(n).records == Some(after[k].soId);
      }
      assert k in order ==> k in more;
      assert more[n] == id;
    }
    if FreshNumbers(start, sentry, |more|) {
      assert FreshNumbers(start, sentry, n);
      forall k | k in before ensures sentry(n).records != Some(before[k].soId) {
        if k !in start {
          var j :| 0 <= j < n && sentry(j).records == Some(before[k].soId);
        }
      }
      forall k | 0 <= k < |more| ensures more[k] in after <==> more[k] in start || sentry(k).records.Some? {
        if k < n { assert more[k] == order[k] && order[k] != id; }
      }
    }
  }

  /** The batch so far, as a run of the protocol. */
  ghost predicate RunSoFar(start: State, now: State, order: seq<TxnId>, sentry: nat -> SentryTurn) {
    ValidRate(start.config.rate) && now == Run(start, BatchSteps(start, order, sentry))
  }

  lemma RunNext(start: State, before: State, after: State, order: seq<TxnId>, sentry: nat -> SentryTurn, id: TxnId)
    requires RunSoFar(start, before, order, sentry) && ValidRate(before.config.rate)
    requires after == Run(before, TurnSteps(before, id, sentry(|order|)))
    ensures RunSoFar(start, after, order + [id], sentry)
  {
    hide Run, TurnSteps;
    assert (order + [id])[..|order|] == order;
    RunConcat(start, BatchSteps(start, order, sentry), TurnSteps(before, id, sentry(|order|)));
  }

  ghost predicate Distinct(order: seq<TxnId>) {
    forall j, k :: 0 <= j < k < |order| ==> order[j] != order[k]
  }

  /** Where the batch stands after the rows in `order`. */
  ghost predicate Progress(start: State, now: State, kind: Kind, order: seq<TxnId>, sentry: nat -> SentryTurn,
                           succeeded: seq<TxnId>, stillFailing: seq<TxnId>) {
    && Inv(now) && Distinct(order) && RunSoFar(start, now, order, sentry)
    && Untouched(start.rows, now.rows, Members(order))
    && Reported(now.rows, kind, Members(order), succeeded, stillFailing)
    && Outcomes(now.orders, order, sentry, succeeded) && HeldSince(start.orders, now.orders, order, sentry)
  }

  lemma NoProgress(s: State, kind: Kind, sentry: nat -> SentryTurn)
    requires Inv(s)
    ensures Progress(s, s, kind, [], sentry, [], [])
  {
    hide Inv, Reported, Untouched;
    RateOk(s);
    assert Members([]) == {};
    NothingReported(s.rows, kind);
    NothingTouched(s.rows);
  }

  lemma ProgressNext(start: State, before: State, after: State, kind: Kind, order: seq<TxnId>,
                     sentry: nat -> SentryTurn, succeeded: seq<TxnId>, stillFailing: seq<TxnId>, id: TxnId, ok: bool)
    requires Progress(start, before, kind, order, sentry, succeeded, stillFailing) && id !in order && id in before.rows
    requires Inv(after) && ValidRate(before.config.rate)
    requires after == Run(before, TurnSteps(before, id, sentry(|order|)))
    requires OrdersAfter(before.orders, after.orders, id, sentry(|order|))
    requires ok <==> sentry(|order|).answers && id in after.orders
    requires before.rows.Keys == after.rows.Keys
    requires after.rows[id].status == if ok then Complete else UnrecordedStatus(kind)
    requires forall r :: r in before.rows ==> after.rows[r].kind == before.rows[r].kind
    requires forall r :: r in before.rows && r != id ==> after.rows[r].status == before.rows[r].status
    ensures Progress(start, after, kind, order + [id], sentry, if ok then succeeded + [id] else succeeded,
                     if ok then stillFailing else stillFailing + [id])
  {
    hide Inv, Reported, Untouched, RunSoFar, Outcomes, HeldSince, OrdersAfter, Run, TurnSteps, UnrecordedStatus;
    assert Members(order + [id]) == Members(order) + {id};
    ReportOne(before.rows, after.rows, kind, Members(order), succeeded, stillFailing, id, ok);
    TouchOne(start.rows, before.rows, after.rows, Members(order), id);
    RunNext(start, before, after, order, sentry, id);
    OutcomeNext(before.orders, after.orders, order, sentry, succeeded, id, ok);
    HeldNext(start.orders, before.orders, after.orders, order, sentry, id);
  }

  lemma NextToDo(start: State, now: State, kind: Kind, order: seq<TxnId>, sentry: nat -> SentryTurn,
                 succeeded: seq<TxnId>, stillFailing: seq<TxnId>, id: TxnId)
    requires Progress(start, now, kind, order, sentry, succeeded, stillFailing)
    requires id in Unrecorded(start.rows, kind) && id !in order
    ensures Inv(now) && id in now.rows && now.rows[id].kind == kind && now.rows[id].status == UnrecordedStatus(kind)
  {
    hide Inv, Reported, RunSoFar, Outcomes, HeldSince;
    StillToDo(start.rows, now.rows, kind, Members(order), id);
  }

  method RetryAll(db: Database, kind: Kind, sentry: nat -> SentryTurn, all: set<TxnId>)
    returns (succeeded: seq<TxnId>, stillFailing: seq<TxnId>, ghost order: seq<TxnId>)
    requires Inv(db.View()) && all == Unrecorded(db.rows, kind)
    modifies db, db.fabric
    ensures Members(order) == all && |order| == |all|
    ensures Progress(old(db.View()), db.View(), kind, order, sentry, succeeded, stillFailing)
  {
    hide Inv, Progress, Unrecorded, UnrecordedStatus, Run, TurnSteps, OrdersAfter, Members;
    var todo, k := all, 0;
    order, succeeded, stillFailing := [], [], [];
    NoProgress(db.View(), kind, sentry);
    MembersOf(order, todo, all);
    while todo != {}
      invariant k == |order| && |order| + |todo| == |all| && todo <= all
      invariant forall id :: id in order <==> id in all && id !in todo
      invariant Progress(old(db.View()), db.View(), kind, order, sentry, succeeded, stillFailing)
      decreases |todo|
    {
      var id :| id in todo;
      ghost var before := db.View();
      NextToDo(old(db.View()), before, kind, order, sentry, succeeded, stillFailing, id);
      var ok := RetryOne(db, id, sentry(k));
      ProgressNext(old(db.View()), before, db.View(), kind, order, sentry, succeeded, stillFailing, id, ok);
      if ok {
        succeeded := succeeded + [id];
      } else {
        stillFailing := stillFailing + [id];
      }
      todo, order, k := todo - {id}, order + [id], k + 1;
    }
    MembersOf(order, todo, all);
  }

  lemma MembersOf(order: seq<TxnId>, todo: set<TxnId>, all: set<TxnId>)
    ensures todo == {} && (forall id :: id in order <==> id in all && id !in todo) ==> Members(order) == all
  {
  }

  /** The batch command.  Each row Sentry had failed to record is sent exactly once, in some order, and nothing else is
      done; the report splits the rows by whether Sentry's answer brought an order, which is the status they then have;
      no other row changes status.  When Sentry hands out fresh order numbers, a row succeeds exactly when its answer
      arrives and Sentry held an order for it already or recorded one in its turn. */
  method RetryFailed(db: Database, kind: Kind, sentry: nat -> SentryTurn)
    returns (report: RetryReport, ghost order: seq<TxnId>)
    requires Inv(db.View())
    modifies db, db.fabric
    ensures Inv(db.View())
    ensures Distinct(order) && Members(order) == Unrecorded(old(db.rows), kind)
    ensures ValidRate(old(db.View()).config.rate)
    ensures db.View() == Run(old(db.View()), BatchSteps(old(db.View()), order, sentry))
    ensures report.scanned == |order| == |Unrecorded(old(db.rows), kind)|
    ensures report.scanned == |report.succeeded| + |report.stillFailing|
    ensures forall k :: 0 <= k < |order| ==>
              (order[k] in report.succeeded <==> sentry(k).answers && order[k] in db.orders)
    ensures FreshNumbers(old(db.orders), sentry, |order|) ==>
              forall k :: 0 <= k < |order| ==>
                (order[k] in report.succeeded <==>
                  sentry(k).answers && (order[k] in old(db.orders) || sentry(k).records.Some?))
    ensures forall id :: id in report.succeeded <==>
              id in Unrecorded(old(db.rows), kind) && id in db.rows && db.rows[id].status == Complete
    ensures forall id :: id in report.stillFailing <==>
              id in Unrecorded(old(db.rows), kind) && id in db.rows && db.rows[id].status == UnrecordedStatus(kind)
    ensures forall r :: r in old(db.rows) ==> r in db.rows && db.rows[r].kind == old(db.rows[r].kind)
    ensures forall r :: r in old(db.rows) && r !in Unrecorded(old(db.rows), kind) ==>
              db.rows[r].status == old(db.rows[r].status)
  {
    hide Inv, Progress, Reported, Untouched, Unrecorded, UnrecordedStatus, RowOk, Run, BatchSteps, FreshNumbers,
         Members, Distinct;
    var all := Unrecorded(db.rows, kind);
    var succeeded, stillFailing;
    succeeded, stillFailing, order := RetryAll(db, kind, sentry, all);
    report := RetryReport(|all|, succeeded, stillFailing);
    Finished(old(db.View()), db.View(), kind, order, sentry, succeeded, stillFailing);
    FullyReported(db.rows, kind, all, succeeded, stillFailing);
    Spared(old(db.rows), db.rows, all);
  }

  lemma Finished(start: State, now: State, kind: Kind, order: seq<TxnId>, sentry: nat -> SentryTurn,
                 succeeded: seq<TxnId>, stillFailing: seq<TxnId>)
    requires Progress(start, now, kind, order, sentry, succeeded, stillFailing)
    ensures Inv(now) && Distinct(order) && ValidRate(start.config.rate)
    ensures now == Run(start, BatchSteps(start, order, sentry))
    ensures Untouched(start.rows, now.rows, Members(order))
    ensures Reported(now.rows, kind, Members(order), succeeded, stillFailing)
    ensures forall k :: 0 <= k < |order| ==> (order[k] in succeeded <==> sentry(k).answers && order[k] in now.orders)
    ensures FreshNumbers(start.orders, sentry, |order|) ==>
              forall k :: 0 <= k < |order| ==>
                (order[k] in succeeded <==>
                  sentry(k).answers && (order[k] in start.orders || sentry(k).records.Some?))
  {
    hide Inv, Reported, Untouched, Run, BatchSteps, FreshNumbers, Members, Distinct;
  }

  /** Rows outside `done` keep their status, and every row its kind. */
  ghost predicate Untouched(before: Rows, after: Rows, done: set<TxnId>) {
    && before.Keys == after.Keys
    && (forall r :: r in before ==> after[r].kind == before[r].kind)
    && (forall r :: r in before && r !in done ==> after[r].status == before[r].status)
  }

  lemma StillToDo(start: Rows, before: Rows, kind: Kind, done: set<TxnId>, id: TxnId)
    requires Untouched(start, before, done) && id !in done && id in Unrecorded(start, kind)
    ensures id in before && before[id].kind == kind && before[id].status == UnrecordedStatus(kind)
  {
  }

  lemma TouchOne(start: Rows, before: Rows, after: Rows, done: set<TxnId>, id: TxnId)
    requires Untouched(start, before, done) && before.Keys == after.Keys
    requires forall r :: r in before ==> after[r].kind == before[r].kind
    requires forall r :: r in before && r != id ==> after[r].status == before[r].status
    ensures Untouched(start, after, done + {id})
  {
  }

  lemma Spared(start: Rows, after: Rows, all: set<TxnId>)
    requires Untouched(start, after, all)
    ensures forall r :: r in start ==> r in after && after[r].kind == start[r].kind
    ensures forall r :: r in start && r !in all ==> after[r].status == start[r].status
  {
  }

  lemma NothingTouched(rows: Rows)
    ensures Untouched(rows, rows, {})
  {
  }

  lemma NothingReported(rows: Rows, kind: Kind)
    ensures Reported(rows, kind, {}, [], [])
  {
  }

  lemma FullyReported(rows: Rows, kind: Kind, all: set<TxnId>, succeeded: seq<TxnId>, stillFailing: seq<TxnId>)
    requires Reported(rows, kind, all, succeeded, stillFailing)
    ensures |all| == |succeeded| + |stillFailing|
    ensures forall id :: id in succeeded <==> id in all && id in rows && rows[id].status == Complete
    ensures forall id :: id in stillFailing <==> id in all && id in rows && rows[id].status == UnrecordedStatus(kind)
  {
  }
}
