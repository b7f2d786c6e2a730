/** How rows and sessions may change over time: one step at a time, and over any run. */
module Evolution {
  import opened PosTypes
  import opened Money
  import opened Store
  import opened TillSessions
  import opened Settlement
  import opened Protocol
  import opened Invariants
  import opened Writes
  import opened Preservation
  import opened Settling
  import Outbox = FabricOutbox

  // ---- every step keeps the invariant ----

  lemma ApplyKeeps(s: State, e: Event)
    requires Inv(s)
    ensures Inv(Apply(s, e))
  {
    hide Inv, StartCheckout, ValidationAnswered, ChargeCash, ChargeCard, CancelCheckout, PollFinished, StartRefund,
         ChargeCashRefund, ChargeCardRefund, CancelRefund, SentryRecords, SentryAnswers, RetrySentry, BatchResend,
         DropCall, OpenTill, CloseTill, Reconfigure, Outbox.Apply;
    RateOk(s);
    match e
    case EStartCheckout(id, lines, cashier, prices) => StartCheckoutKeeps(s, id, lines, cashier, prices);
    case EValidationAnswered(c, answer) => ValidationAnsweredKeeps(s, c, answer);
    case EChargeCash(id, tendered) => ChargeCashKeeps(s, id, tendered);
    case EChargeCard(id, reply) => ChargeCardKeeps(s, id, reply);
    case ECancelCheckout(id) => CancelCheckoutKeeps(s, id);
    case EPollCard(id, final) => PollFinishedKeeps(s, id, Sale, final);
    case EStartRefund(id, original, cashier) => StartRefundKeeps(s, id, original, cashier);
    case EChargeCashRefund(id) => ChargeCashRefundKeeps(s, id);
    case EChargeCardRefund(id, reply) => ChargeCardRefundKeeps(s, id, reply);
    case ECancelRefund(id) => CancelRefundKeeps(s, id);
    case EPollRefund(id, final) => PollFinishedKeeps(s, id, Refund, final);
    case ESentryRecords(request, soId) => SentryRecordsKeeps(s, request, soId);
    case ESentryAnswers(c, ok) => SentryAnswersKeeps(s, c, ok);
    case ERetrySentry(id) => RetrySentryKeeps(s, id);
    case EBatchResend(id) => BatchResendKeeps(s, id);
    case EReconfigure(config) => ReconfigureKeeps(s, config);
    case ECrash(c) => DroppedCall(s, c);
    case EOpenTill(sid, cashier, openingFloat) => OpenTillKeeps(s, sid, cashier, openingFloat);
    case ECloseTill(cashier, count) => CloseTillKeeps(s, cashier, count);
    case EOutbox(step) => if !step.Enqueue? { OutboxKeeps(s, step); }
  }

  lemma {:induction false} RunKeeps(s: State, events: seq<Event>)
    requires Inv(s)
    ensures Inv(Run(s, events))
    decreases |events|
  {
    if events != [] {
      ApplyKeeps(s, events[0]);
      RunKeeps(Apply(s, events[0]), events[1..]);
    }
  }

  // ---- one step ----

  /** The status changes the handlers make, and no others. */
  predicate StatusEdge(kind: Kind, before: Status, after: Status) {
    match before
    case PendingValidation => after in {AwaitingPayment, ValidationFailed}
    case AwaitingPayment => after in {PaymentInFlight, PaymentSuccess, PaymentFailed, Cancelled}
    case PaymentInFlight => after in {PaymentSuccess, PaymentFailed, Cancelled}
    case PaymentSuccess => after in {InventoryUpdateFailed, Complete}
    case InventoryUpdateFailed => after == Complete
    case RefundPending => after in {RefundPaymentInFlight, RefundPaymentSuccess, RefundPaymentFailed, Cancelled}
    case RefundPaymentInFlight => after in {RefundPaymentSuccess, RefundPaymentFailed, Cancelled}
    case RefundPaymentSuccess => after in {RefundInventoryUpdateFailed, Complete}
    case RefundInventoryUpdateFailed => after == Complete
    case _ => false
  }

  predicate RowStep(before: Txn, after: Txn) {
    && Grows(before, after) && after.createdAt == before.createdAt
    && (after.status == before.status || StatusEdge(before.kind, before.status, after.status))
    && (after.session != before.session ==>
          before.session.None? && before.status == SuccessStatus(before.kind) && after.status == Complete)
    && (before.refundTxn.Some? ==> after.refundTxn == before.refundTxn)
  }

  ghost predicate RowsStep(before: Rows, after: Rows) {
    forall id :: id in before ==> id in after && RowStep(before[id], after[id])
  }

  predicate SessionStep(before: Till, after: Till) {
    && after.cashier == before.cashier && after.openingFloat == before.openingFloat
    && (before.status.Closed? ==> after == before)
  }

  ghost predicate SessionsStep(before: Sessions, after: Sessions) {
    forall sid :: sid in before ==> sid in after && SessionStep(before[sid], after[sid])
  }

  /** A row is only ever stamped with a session that is open at that moment. */
  ghost predicate StampsStep(s: State, after: State) {
    forall id :: id in after.rows && after.rows[id].session.Some? ==>
      || (id in s.rows && s.rows[id].session == after.rows[id].session)
      || (var sid := after.rows[id].session.value; sid in s.sessions && s.sessions[sid].status.Open?)
  }

  ghost predicate Step(s: State, after: State) {
    && RowsStep(s.rows, after.rows) && SessionsStep(s.sessions, after.sessions) && StampsStep(s, after)
    && s.wire <= after.wire
    && (forall k :: k in s.orders ==> k in after.orders && after.orders[k] == s.orders[k])
  }

  /** A step that writes one row and leaves the sessions alone. */
  lemma OneRowStep(s: State, after: State, id: TxnId)
    requires id in s.rows && id in after.rows && after.rows == s.rows[id := after.rows[id]]
    requires RowStep(s.rows[id], after.rows[id]) && after.rows[id].session == s.rows[id].session
    requires after.sessions == s.sessions && s.wire <= after.wire && after.orders == s.orders
    ensures Step(s, after)
  {
  }

  lemma NewRowStep(s: State, after: State, id: TxnId)
    requires id !in s.rows && id in after.rows && after.rows == s.rows[id := after.rows[id]]
    requires after.rows[id].session.None?
    requires after.sessions == s.sessions && s.wire == after.wire && after.orders == s.orders
    ensures Step(s, after)
  {
  }

  lemma SameRowsStep(s: State, after: State)
    requires after.rows == s.rows && SessionsStep(s.sessions, after.sessions) && s.wire <= after.wire
    requires forall k :: k in s.orders ==> k in after.orders && after.orders[k] == s.orders[k]
    ensures Step(s, after)
  {
  }

  /** A refused request. */
  lemma NoStep(s: State)
    ensures Step(s, s)
  {
    SameRowsStep(s, s);
  }

  /** A status change along an edge, with whatever payment facts come with it. */
  lemma EdgeStep(s: State, after: State, id: TxnId, row: Txn)
    requires id in s.rows && !Paid(s.rows[id].status) && StatusEdge(s.rows[id].kind, s.rows[id].status, row.status)
    requires row == s.rows[id].(status := row.status, payment := row.payment, windcaveRef := row.windcaveRef,
                                tenders := row.tenders)
    requires s.rows[id].kind.Refund? ==> row.payment == s.rows[id].payment
    requires after == SetRow(s, id, row) || after == SendTo(SetRow(s, id, row), id, FirstSend(id))
    ensures Step(s, after)
  {
    hide Step;
    OneRowStep(s, after, id);
  }

  lemma CardStep(s: State, id: TxnId, payment: Option<Method>, answer: WindcaveAnswer)
    requires id in s.rows && !Paid(s.rows[id].status)
    requires s.rows[id].kind.Refund? ==> payment == s.rows[id].payment
    requires StatusEdge(s.rows[id].kind, s.rows[id].status, FailedStatus(s.rows[id].kind))
    requires StatusEdge(s.rows[id].kind, s.rows[id].status, SuccessStatus(s.rows[id].kind))
    ensures Step(s, FinalizeCard(SetRow(s, id, s.rows[id].(payment := payment)), id, answer))
  {
    hide Step;
    var after := FinalizeCard(SetRow(s, id, s.rows[id].(payment := payment)), id, answer);
    EdgeStep(s, after, id, after.rows[id]);
  }

  lemma ChargeCashStep(s: State, id: TxnId, tendered: int)
    ensures Step(s, ChargeCash(s, id, tendered).0)
  {
    hide Step;
    var after := ChargeCash(s, id, tendered).0;
    if after == s { NoStep(s); } else { EdgeStep(s, after, id, after.rows[id]); }
  }

  lemma ChargeCardStep(s: State, id: TxnId, reply: WindcaveReply)
    ensures Step(s, ChargeCard(s, id, reply).0)
  {
    hide Step;
    var after := ChargeCard(s, id, reply).0;
    if LoadForPayment(s, id).Rejected? {
      NoStep(s);
    } else if reply.Answered? && reply.answer.complete {
      CardStep(s, id, Some(Card), reply.answer);
    } else {
      EdgeStep(s, after, id, after.rows[id]);
    }
  }

  lemma CancelCheckoutStep(s: State, id: TxnId)
    requires Inv(s)
    ensures Step(s, CancelCheckout(s, id).0)
  {
    hide Inv, CartsOk, ParentOk, TendersOk, Step;
    var after := CancelCheckout(s, id).0;
    if id in s.rows && s.rows[id].status in {AwaitingPayment, PaymentInFlight} {
      EdgeStep(s, after, id, after.rows[id]);
    } else {
      NoStep(s);
    }
  }

  lemma CancelRefundStep(s: State, id: TxnId)
    requires Inv(s)
    ensures Step(s, CancelRefund(s, id).0)
  {
    hide Inv, CartsOk, ParentOk, TendersOk, Step;
    var after := CancelRefund(s, id).0;
    if id in s.rows && s.rows[id].kind == Refund && s.rows[id].status in {RefundPending, RefundPaymentInFlight} {
      EdgeStep(s, after, id, after.rows[id]);
    } else {
      NoStep(s);
    }
  }

  lemma InFlightKind(s: State, id: TxnId, kind: Kind)
    requires Inv(s) && id in s.rows && s.rows[id].status == InFlightStatus(kind)
    ensures s.rows[id].kind == kind
  {
    hide Inv, CartsOk, ParentOk, TendersOk;
    RowFacts(s, id);
  }

  lemma PollStep(s: State, id: TxnId, kind: Kind, final: Option<WindcaveAnswer>)
    requires Inv(s)
    ensures Step(s, PollFinished(s, id, kind, final))
  {
    hide Inv, Step;
    if id !in s.rows || s.rows[id].status != InFlightStatus(kind) {
      NoStep(s);
    } else {
      InFlightKind(s, id, kind);
      if final.Some? {
        assert SetRow(s, id, s.rows[id].(payment := s.rows[id].payment)) == s;
        CardStep(s, id, s.rows[id].payment, final.value);
      } else {
        var after := PollFinished(s, id, kind, final);
        EdgeStep(s, after, id, after.rows[id]);
      }
    }
  }

  lemma ChargeCashRefundStep(s: State, id: TxnId)
    ensures Step(s, ChargeCashRefund(s, id).0)
  {
    hide Step;
    var after := ChargeCashRefund(s, id).0;
    if LoadRefundForPayment(s, id).Rejected? || s.rows[id].payment != Some(Cash) {
      NoStep(s);
    } else {
      EdgeStep(s, after, id, after.rows[id]);
    }
  }

  lemma ChargeCardRefundStep(s: State, id: TxnId, reply: WindcaveReply)
    ensures Step(s, ChargeCardRefund(s, id, reply).0)
  {
    hide Step;
    var after := ChargeCardRefund(s, id, reply).0;
    if after == s {
      NoStep(s);
    } else if reply.Answered? && reply.answer.complete {
      CardStep(s, id, s.rows[id].payment, reply.answer);
      assert SetRow(s, id, s.rows[id].(payment := s.rows[id].payment)) == s;
    } else {
      EdgeStep(s, after, id, after.rows[id]);
    }
  }

  lemma ValidationStep(s: State, c: nat, answer: CartAnswer)
    requires Inv(s)
    ensures Step(s, ValidationAnswered(s, c, answer).0)
  {
    hide Inv, Step;
    var after := ValidationAnswered(s, c, answer).0;
    if c in s.calls && s.calls[c].ValidateCart? && s.calls[c].txn in s.rows {
      AnsweredQuiet(s, c);
      OneRowStep(s, after, s.calls[c].txn);
    } else {
      NoStep(s);
    }
  }

  /** Completion, first or by retry: the row and, for a refund, its sale. */
  lemma CompletedStep(rows: Rows, id: TxnId, soId: SoId)
    requires id in rows && RowOk(rows[id]) && ParentOk(rows, id)
    requires rows[id].status != Complete && Paid(rows[id].status)
    requires HasParent(rows, rows[id]) ==> rows[rows[id].parent.value].refundTxn.None?
    ensures RowsStep(rows, CompletedRows(rows, id, soId))
    ensures forall x :: x in rows ==> CompletedRows(rows, id, soId)[x].session == rows[x].session
    ensures CompletedRows(rows, id, soId).Keys == rows.Keys
  {
  }

  lemma FreeParent(s: State, id: TxnId)
    requires Inv(s) && id in s.rows && Paid(s.rows[id].status) && s.rows[id].status != Complete
    ensures HasParent(s.rows, s.rows[id]) ==> s.rows[s.rows[id].parent.value].refundTxn.None?
  {
    hide CartsOk, LedgerOk, RemoteOk, LocalOk;
    assert RowOk(s.rows[id]);
    if s.rows[id].kind.Refund? {
      NotYetRefunded(s.rows, id);
    }
  }

  lemma FirstAnsweredStep(s: State, id: TxnId, ok: bool)
    requires Inv(s) && id in s.rows && s.rows[id].status == SuccessStatus(s.rows[id].kind) && (ok ==> id in s.orders)
    ensures Step(s, FirstAnswered(s, id, ok))
  {
    hide Inv, CartsOk, Step;
    RowFacts(s, id);
    if !ok {
      OneRowStep(s, FirstAnswered(s, id, ok), id);
    } else {
      FreeParent(s, id);
      var mid := Completed(s, id, s.orders[id].soId);
      CompletedStep(s.rows, id, s.orders[id].soId);
      hide RowsStep, ParentOk;
      StampStep(s, mid, id);
    }
  }

  /** Stamping on top of completion. */
  lemma StampStep(s: State, mid: State, id: TxnId)
    requires id in s.rows && s.rows[id].status == SuccessStatus(s.rows[id].kind) && s.rows[id].session.None?
    requires RowsStep(s.rows, mid.rows) && mid.rows.Keys == s.rows.Keys && mid.rows[id].status == Complete
    requires mid.rows[id].kind == s.rows[id].kind
    requires forall x :: x in s.rows ==> mid.rows[x].session == s.rows[x].session
    requires mid.sessions == s.sessions && mid.wire == s.wire && mid.orders == s.orders
    ensures Step(s, Enqueued(Attribute(mid, id, mid.rows[id].kind.Refund?), id))
  {
    hide RowStep, SessionStep, Step, Enqueued, RowsStep, StampsStep, SessionsStep, IsOpenFor, Attribute, OpenSession;
    AttributeIs(mid, id, mid.rows[id].kind.Refund?);
    match OpenSession(mid.sessions, mid.rows[id].cashier) {
      case None => UnstampedStep(s, mid);
      case Some(sid) => StampedStep(s, mid, id, sid);
    }
    EnqueuedStep(s, Attribute(mid, id, mid.rows[id].kind.Refund?), id);
  }

  lemma AttributeIs(s: State, id: TxnId, isRefund: bool)
    requires id in s.rows
    ensures id in Attribute(s, id, isRefund).rows
    ensures match OpenSession(s.sessions, s.rows[id].cashier)
            case None => Attribute(s, id, isRefund) == s
            case Some(sid) => sid in s.sessions && s.sessions[sid].status.Open?
                              && Attribute(s, id, isRefund) == StampedWith(s, id, sid, isRefund)
  {
    match OpenSession(s.sessions, s.rows[id].cashier)
    case None =>
    case Some(sid) => assert IsOpenFor(s.sessions, sid, s.rows[id].cashier);
  }

  lemma UnstampedStep(s: State, mid: State)
    requires RowsStep(s.rows, mid.rows) && mid.rows.Keys == s.rows.Keys
    requires forall x :: x in s.rows ==> mid.rows[x].session == s.rows[x].session
    requires mid.sessions == s.sessions && mid.wire == s.wire && mid.orders == s.orders
    ensures Step(s, mid)
  {
    hide RowStep;
  }

  lemma StampedStep(s: State, mid: State, id: TxnId, sid: SessionId)
    requires id in s.rows && s.rows[id].status == SuccessStatus(s.rows[id].kind) && s.rows[id].session.None?
    requires RowsStep(s.rows, mid.rows) && mid.rows.Keys == s.rows.Keys && mid.rows[id].status == Complete
    requires forall x :: x in s.rows ==> mid.rows[x].session == s.rows[x].session
    requires mid.sessions == s.sessions && mid.wire == s.wire && mid.orders == s.orders
    requires sid in s.sessions && s.sessions[sid].status.Open?
    ensures Step(s, StampedWith(mid, id, sid, mid.rows[id].kind.Refund?))
  {
    hide RowStep;
    assert RowStep(s.rows[id], mid.rows[id]);
    StampRowStep(s.rows[id], mid.rows[id], sid);
  }

  lemma StampRowStep(before: Txn, after: Txn, sid: SessionId)
    requires RowStep(before, after) && before.session.None? && before.status == SuccessStatus(before.kind)
    requires after.status == Complete
    ensures RowStep(before, after.(session := Some(sid)))
  {
  }

  lemma EnqueuedStep(s: State, after: State, id: TxnId)
    requires id in after.rows && Step(s, after)
    ensures Step(s, Enqueued(after, id))
  {
    hide RowStep, SessionStep;
  }

  lemma RetryAnsweredStep(s: State, id: TxnId, ok: bool)
    requires Inv(s) && id in s.rows && Settled(s.rows[id].status) && (ok ==> id in s.orders)
    ensures Step(s, RetryAnswered(s, id, ok))
  {
    hide Inv, CartsOk, Step;
    if !ok {
      NoStep(s);
    } else if s.rows[id].status == Complete {
      CompletedAgain(s, id);
      NoStep(s);
    } else {
      RowFacts(s, id);
      FreeParent(s, id);
      CompletedStep(s.rows, id, s.orders[id].soId);
      hide RowsStep, ParentOk;
      SameStampsStep(s, Completed(s, id, s.orders[id].soId));
    }
  }

  lemma SameStampsStep(s: State, after: State)
    requires RowsStep(s.rows, after.rows) && after.rows.Keys == s.rows.Keys
    requires forall x :: x in s.rows ==> after.rows[x].session == s.rows[x].session
    requires after.sessions == s.sessions && after.wire == s.wire && after.orders == s.orders
    ensures Step(s, after)
  {
  }

  lemma AnswerStep(s: State, c: nat, ok: bool)
    requires Inv(s)
    ensures Step(s, SentryAnswers(s, c, ok))
  {
    hide Inv, Step;
    if c in s.calls && s.calls[c].txn in s.rows && (ok ==> s.calls[c].txn in s.orders) {
      var dropped, id := DropCall(s, c), s.calls[c].txn;
      DroppedCall(s, c);
      match s.calls[c]
      case ValidateCart(_) => NoStep(s);
      case FirstSend(_) =>
        AnsweredQuiet(s, c);
        FirstAnsweredStep(dropped, id, ok);
        DroppedStep(s, dropped, FirstAnswered(dropped, id, ok));
      case Resend(_) =>
        ResendQuiet(s, c);
        RetryAnsweredStep(dropped, id, ok);
        DroppedStep(s, dropped, RetryAnswered(dropped, id, ok));
    } else {
      NoStep(s);
    }
  }

  lemma DroppedStep(s: State, dropped: State, after: State)
    requires dropped == s.(calls := dropped.calls) && Step(dropped, after)
    ensures Step(s, after)
  {
  }

  lemma OpenTillStep(s: State, sid: SessionId, cashier: string, openingFloat: int)
    ensures Step(s, OpenTill(s, sid, cashier, openingFloat).0)
  {
    hide Step;
    SameRowsStep(s, OpenTill(s, sid, cashier, openingFloat).0);
  }

  lemma CloseTillStep(s: State, cashier: string, count: int)
    ensures Step(s, CloseTill(s, cashier, count).0)
  {
    hide Step;
    match OpenSession(s.sessions, cashier)
    case None => NoStep(s);
    case Some(sid) =>
      assert IsOpenFor(s.sessions, sid, cashier);
      SameRowsStep(s, CloseTill(s, cashier, count).0);
  }

  lemma StartStep(s: State, id: TxnId, lines: seq<LineIn>, cashier: string, prices: map<string, int>, original: TxnId)
    requires ValidRate(s.config.rate)
    ensures Step(s, StartCheckout(s, id, lines, cashier, prices).0)
    ensures Step(s, StartRefund(s, id, original, cashier).0)
  {
    hide Step;
    NoStep(s);
    if id !in s.rows {
      if AllPriced(lines, prices) { NewRowStep(s, StartCheckout(s, id, lines, cashier, prices).0, id); }
      if LookupRefund(s, original).Accepted? { NewRowStep(s, StartRefund(s, id, original, cashier).0, id); }
    }
  }

  lemma RecordStep(s: State, request: Request, soId: SoId)
    ensures Step(s, SentryRecords(s, request, soId))
  {
    hide Step;
    SameRowsStep(s, SentryRecords(s, request, soId));
  }

  lemma CrashStep(s: State, c: nat)
    ensures Step(s, DropCall(s, c))
  {
    hide Step;
    SameRowsStep(s, DropCall(s, c));
  }

  lemma OutboxStep(s: State, step: Outbox.Event)
    ensures Step(s, s.(box := Outbox.Apply(s.box, step))) && Step(s, s)
  {
    hide Step, Outbox.Apply;
    SameRowsStep(s, s.(box := Outbox.Apply(s.box, step)));
    NoStep(s);
  }

  lemma ReconfigureStep(s: State, config: Config)
    ensures Step(s, Reconfigure(s, config))
  {
    hide Step;
    SameRowsStep(s, Reconfigure(s, config));
  }

  lemma RetryStep(s: State, id: TxnId)
    ensures Step(s, RetrySentry(s, id).0) && Step(s, BatchResend(s, id))
  {
    hide Step;
    SameRowsStep(s, RetrySentry(s, id).0);
    SameRowsStep(s, BatchResend(s, id));
  }

  lemma ApplyStep(s: State, e: Event)
    requires Inv(s)
    ensures Step(s, Apply(s, e))
  {
    hide Inv, Step, StartCheckout, ValidationAnswered, ChargeCash, ChargeCard, CancelCheckout, PollFinished,
         StartRefund, ChargeCashRefund, ChargeCardRefund, CancelRefund, SentryRecords, SentryAnswers, RetrySentry,
         BatchResend, DropCall, OpenTill, CloseTill, Reconfigure, Outbox.Apply;
    RateOk(s);
    match e
    case EStartCheckout(id, lines, cashier, prices) => StartStep(s, id, lines, cashier, prices, id);
    case EValidationAnswered(c, answer) => ValidationStep(s, c, answer);
    case EChargeCash(id, tendered) => ChargeCashStep(s, id, tendered);
    case EChargeCard(id, reply) => ChargeCardStep(s, id, reply);
    case ECancelCheckout(id) => CancelCheckoutStep(s, id);
    case EPollCard(id, final) => PollStep(s, id, Sale, final);
    case EStartRefund(id, original, cashier) => StartStep(s, id, [], cashier, map[], original);
    case EChargeCashRefund(id) => ChargeCashRefundStep(s, id);
    case EChargeCardRefund(id, reply) => ChargeCardRefundStep(s, id, reply);
    case ECancelRefund(id) => CancelRefundStep(s, id);
    case EPollRefund(id, final) => PollStep(s, id, Refund, final);
    case ESentryRecords(request, soId) => RecordStep(s, request, soId);
    case ESentryAnswers(c, ok) => AnswerStep(s, c, ok);
    case ERetrySentry(id) => RetryStep(s, id);
    case EBatchResend(id) => RetryStep(s, id);
    case EReconfigure(config) => ReconfigureStep(s, config);
    case ECrash(c) => CrashStep(s, c);
    case EOpenTill(sid, cashier, openingFloat) => OpenTillStep(s, sid, cashier, openingFloat);
    case ECloseTill(cashier, count) => CloseTillStep(s, cashier, count);
    case EOutbox(step) => OutboxStep(s, step);
  }

  // ---- runs ----

  /** How far along a row is; every status change moves it strictly up. */
  function Rank(kind: Kind, st: Status): nat {
    match st
    case PendingValidation | RefundPending => 0
    case AwaitingPayment | RefundPaymentInFlight => 1
    case PaymentInFlight | RefundPaymentSuccess => 2
    case PaymentSuccess | RefundInventoryUpdateFailed => 3
    case InventoryUpdateFailed => 4
    case RefundPaymentFailed => 4
    case Complete | Cancelled => if kind.Sale? then 5 else 4
    case ValidationFailed | PaymentFailed => 5
  }

  predicate RowSince(before: Txn, after: Txn) {
    && Grows(before, after) && after.createdAt == before.createdAt
    && Rank(before.kind, before.status) <= Rank(after.kind, after.status)
    && (Rank(before.kind, before.status) == Rank(after.kind, after.status) ==> after.status == before.status)
    && (before.session.Some? || Settled(before.status) ==> after.session == before.session)
    && (before.refundTxn.Some? ==> after.refundTxn == before.refundTxn)
  }

  ghost predicate Since(s: State, after: State) {
    && (forall id :: id in s.rows ==> id in after.rows && RowSince(s.rows[id], after.rows[id]))
    && SessionsStep(s.sessions, after.sessions)
    && s.wire <= after.wire
    && (forall k :: k in s.orders ==> k in after.orders && after.orders[k] == s.orders[k])
  }

  lemma RowStepSince(before: Txn, after: Txn)
    requires RowOk(before) && RowOk(after) && RowStep(before, after)
    ensures RowSince(before, after)
    ensures after.status != before.status ==> Rank(before.kind, before.status) < Rank(after.kind, after.status)
  {
  }

  lemma RowSinceTransitive(a: Txn, b: Txn, c: Txn)
    requires RowOk(a) && RowOk(b) && RowOk(c) && RowSince(a, b) && RowSince(b, c)
    ensures RowSince(a, c)
  {
  }

  lemma AllRows(s: State)
    requires Inv(s)
    ensures RowsOk(s.rows)
  {
    hide RowsOk, CartsOk, ParentsOk, Exclusive, LinksOk, LedgerOk, RemoteOk, LocalOk;
  }

  lemma StepSince(s: State, mid: State, after: State)
    requires RowsOk(s.rows) && RowsOk(mid.rows) && RowsOk(after.rows)
    requires Step(s, mid) && Since(mid, after)
    ensures Since(s, after)
  {
    forall id | id in s.rows ensures id in after.rows && RowSince(s.rows[id], after.rows[id]) {
      assert RowStep(s.rows[id], mid.rows[id]) && RowOk(s.rows[id]) && RowOk(mid.rows[id]) && RowOk(after.rows[id]);
      hide RowStep, RowSince, RowOk;
      RowStepSince(s.rows[id], mid.rows[id]);
      RowSinceTransitive(s.rows[id], mid.rows[id], after.rows[id]);
    }
  }

  lemma SinceSelf(s: State)
    ensures Since(s, s)
  {
  }

  lemma {:induction false} RunSince(s: State, events: seq<Event>)
    requires Inv(s)
    ensures Since(s, Run(s, events)) && Inv(Run(s, events))
    decreases |events|
  {
    assert ValidRate(s.config.rate);
    hide Inv, Step, Since, RowsOk, Apply;
    if events != [] {
      RateStaysValid(s, events[0]);
      var mid := Apply(s, events[0]);
      ApplyKeeps(s, events[0]);
      ApplyStep(s, events[0]);
      RunSince(mid, events[1..]);
      AllRows(s);
      AllRows(mid);
      AllRows(Run(mid, events[1..]));
      StepSince(s, mid, Run(mid, events[1..]));
    } else {
      SinceSelf(s);
    }
  }
}
