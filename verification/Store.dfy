/** The shared state the handlers drive: the service's tables, the calls it is waiting on, and Sentry.

    A handler runs without interruption from one commit to its next network call.  A call to Sentry is a request
    put on the wire, which Sentry may record at any later time and more than once, and a continuation in `calls`
    that runs when the service hears back, or never. */
module Store {
  import opened PosTypes
  import opened Money
  import Outbox = FabricOutbox

  datatype Config = Config(rate: Rate, refundWindowDays: int, station: string)

  datatype Order = Order(soId: SoId, request: Request)

  datatype Call =
    | ValidateCart(txn: TxnId)
    | FirstSend(txn: TxnId)
    | Resend(txn: TxnId)

  type Rows = map<TxnId, Txn>
  type Sessions = map<SessionId, Till>
  type Calls = map<nat, Call>
  type Orders = map<TxnId, Order>

  /** `rates` is history: every tax rate the service has ever run with. */
  datatype State = State(
    config: Config,
    rates: set<Rate>,
    rows: Rows,
    sessions: Sessions,
    box: Outbox.Box,
    wire: set<Request>,
    orders: Orders,
    calls: Calls,
    nextCall: nat)

  function Initial(config: Config, clock: int): State {
    State(config, {config.rate}, map[], map[], Outbox.Box([], clock, []), {}, map[], map[], 0)
  }

  // ---- status sets ----

  predicate SaleStatus(st: Status) {
    st in {PendingValidation, ValidationFailed, AwaitingPayment, PaymentInFlight, PaymentSuccess,
           PaymentFailed, InventoryUpdateFailed, Complete, Cancelled}
  }

  predicate RefundStatus(st: Status) {
    st in {RefundPending, RefundPaymentInFlight, RefundPaymentSuccess, RefundPaymentFailed,
           RefundInventoryUpdateFailed, Complete, Cancelled}
  }

  predicate Terminal(st: Status) {
    st in {Complete, PaymentFailed, ValidationFailed, InventoryUpdateFailed, Cancelled}
  }

  predicate RefundTerminal(st: Status) {
    st in {Complete, RefundPaymentFailed, RefundInventoryUpdateFailed, Cancelled}
  }

  predicate RefundBlocking(st: Status) {
    st in {RefundPending, RefundPaymentInFlight, RefundPaymentSuccess, RefundInventoryUpdateFailed, Complete}
  }

  /** Payment has been taken, or given back. */
  predicate Paid(st: Status) {
    st in {PaymentSuccess, InventoryUpdateFailed, RefundPaymentSuccess, RefundInventoryUpdateFailed, Complete}
  }

  /** Sentry's first answer has been dealt with. */
  predicate Settled(st: Status) {
    st in {InventoryUpdateFailed, RefundInventoryUpdateFailed, Complete}
  }

  function SuccessStatus(k: Kind): Status { if k.Sale? then PaymentSuccess else RefundPaymentSuccess }
  function FailedStatus(k: Kind): Status { if k.Sale? then PaymentFailed else RefundPaymentFailed }
  function InFlightStatus(k: Kind): Status { if k.Sale? then PaymentInFlight else RefundPaymentInFlight }
  function UnrecordedStatus(k: Kind): Status { if k.Sale? then InventoryUpdateFailed else RefundInventoryUpdateFailed }

  // ---- requests and payloads ----

  function Paying(row: Txn): Method { if row.payment.Some? then row.payment.value else Cash }

  function AsSent(line: Line): SentLine {
    SentLine(line.item.sku, line.item.warehouse, line.item.bin, line.item.quantity, line.unitPrice, line.tax,
             line.lineTotal)
  }

  function SentCart(cart: seq<Line>): seq<SentLine> {
    seq(|cart|, k requires 0 <= k < |cart| => AsSent(cart[k]))
  }

  function SaleRequestOf(id: TxnId, row: Txn): Request {
    SaleRequest(id, row.windcaveRef, row.cashier, row.terminal, Paying(row),
                row.subtotal, row.tax, row.total, row.tenders, SentCart(row.cart))
  }

  function RefundRequestOf(id: TxnId, row: Txn, original: Txn): Request {
    RefundRequest(id, original.so, original.windcaveRef, row.windcaveRef, row.cashier, row.terminal, Paying(row),
                  row.subtotal, row.tax, row.total, row.tenders)
  }

  predicate HasParent(rows: Rows, row: Txn) { row.parent.Some? && row.parent.value in rows }

  predicate CanRequest(rows: Rows, id: TxnId) {
    id in rows && (rows[id].kind.Sale? || HasParent(rows, rows[id]))
  }

  function RequestFor(rows: Rows, id: TxnId): Request
    requires CanRequest(rows, id)
  {
    if rows[id].kind.Sale? then SaleRequestOf(id, rows[id])
    else RefundRequestOf(id, rows[id], rows[rows[id].parent.value])
  }

  function BuildPayload(id: TxnId, row: Txn): Payload {
    Payload(id, row.so, row.kind, row.parent, row.cashier, row.terminal,
            row.subtotal, row.tax, row.total, row.payment, row.cart)
  }

  // ---- single writes ----

  function SetRow(s: State, id: TxnId, row: Txn): State {
    s.(rows := s.rows[id := row])
  }

  function SetStatus(s: State, id: TxnId, st: Status): State
    requires id in s.rows
  {
    SetRow(s, id, s.rows[id].(status := st))
  }

  /** A restart with other settings; the tables stay. */
  function Reconfigure(s: State, config: Config): State {
    if ValidRate(config.rate) then s.(config := config, rates := s.rates + {config.rate}) else s
  }

  function AddCall(s: State, call: Call): State {
    s.(calls := s.calls[s.nextCall := call], nextCall := s.nextCall + 1)
  }

  function DropCall(s: State, c: nat): State {
    s.(calls := s.calls - {c})
  }

  /** Send Sentry the row's request; a refund whose sale is missing has nothing to send. */
  function SendTo(s: State, id: TxnId, call: Call): State {
    if CanRequest(s.rows, id) then AddCall(s.(wire := s.wire + {RequestFor(s.rows, id)}), call) else s
  }
}
