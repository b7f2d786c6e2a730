/** The values the service stores and exchanges.  Row identifiers (UUIDs in the service) are naturals;
    text columns that nothing branches on are strings. */
module PosTypes {
  datatype Option<+T> = None | Some(value: T)

  type TxnId = nat
  type SessionId = nat
  type SoId = nat

  datatype Status =
    | PendingValidation | ValidationFailed | AwaitingPayment
    | PaymentInFlight | PaymentSuccess | PaymentFailed | InventoryUpdateFailed
    | RefundPending | RefundPaymentInFlight | RefundPaymentSuccess
    | RefundPaymentFailed | RefundInventoryUpdateFailed
    | Complete | Cancelled

  datatype Kind = Sale | Refund
  datatype Method = Cash | Card

  /** A line as the register submits it, and as the service prices it. */
  datatype LineIn = LineIn(sku: string, name: string, warehouse: string, bin: string, quantity: int, taxable: bool)
  datatype Line = Line(item: LineIn, unitPrice: int, tax: int, lineTotal: int)

  datatype CardInfo = CardInfo(brand: Option<string>, last4: Option<string>, authCode: Option<string>,
                               ref: Option<string>)
  datatype Tender =
    | CashTender(amount: int, tendered: int, change: int)
    | CashPayout(amount: int)
    | CardTender(amount: int, card: CardInfo)

  datatype WindcaveResult = WindcaveResult(approved: bool, amount: Option<int>, card: CardInfo)
  datatype WindcaveAnswer = WindcaveAnswer(complete: bool, signatureRequired: bool, result: Option<WindcaveResult>) {
    predicate Approved() { complete && result.Some? && result.value.approved }

    /** The terminal took or gave back the money, and no signature is wanted. */
    predicate Settles() { Approved() && !signatureRequired }
  }
  datatype WindcaveReply = Unavailable | Answered(answer: WindcaveAnswer)

  datatype Txn = Txn(
    kind: Kind,
    status: Status,
    parent: Option<TxnId>,
    refundTxn: Option<TxnId>,
    cart: seq<Line>,
    subtotal: int,
    tax: int,
    total: int,
    payment: Option<Method>,
    tenders: seq<Tender>,
    windcaveRef: Option<string>,
    so: Option<SoId>,
    cashier: string,
    terminal: string,
    session: Option<SessionId>,
    createdAt: int)

  /** A line as it is sent to Sentry: without the item's name and its taxability. */
  datatype SentLine = SentLine(sku: string, warehouse: string, bin: string, quantity: int, unitPrice: int, tax: int,
                               lineTotal: int)

  /** What Sentry is asked to record; `completed_at`, a fresh clock reading per attempt, is left out. */
  datatype Request =
    | SaleRequest(key: TxnId, externalRef: Option<string>, cashier: string, terminal: string, payment: Method,
                  subtotal: int, tax: int, total: int, tenders: seq<Tender>, lines: seq<SentLine>)
    | RefundRequest(key: TxnId, originalSo: Option<SoId>, originalRef: Option<string>, externalRef: Option<string>,
                    cashier: string, terminal: string, payment: Method,
                    subtotal: int, tax: int, total: int, tenders: seq<Tender>)

  /** What Fabric is posted; constants and customer contact fields are left out. */
  datatype Payload = Payload(externalRef: TxnId, so: Option<SoId>, kind: Kind, parent: Option<TxnId>,
                             cashier: string, terminal: string, subtotal: int, tax: int, total: int,
                             payment: Option<Method>, lines: seq<Line>)

  datatype SessionStatus = Open | Closed

  datatype Till = Till(
    cashier: string,
    terminal: string,
    status: SessionStatus,
    openingFloat: int,
    cashSales: int,
    cashRefunds: int,
    transactionCount: int,
    cashTransactionCount: int,
    closingCount: Option<int>,
    expectedClosing: Option<int>,
    variance: Option<int>)

  datatype Error =
    | TransactionNotFound
    | InvalidState(current: Status)
    | PriceMissing(skus: seq<string>)
    | InsufficientTender(total: int)
    | WindcaveUnavailable
    | SentryUnavailable
    | CartConflicts
    | NotACompletedSale(current: Status)
    | RefundWindowExpired(days: int)
    | AlreadyRefunded
    | TenderMismatch(expected: Method)
    | MissingOriginalDpsTxnRef
    | DuplicateKey
    | AlreadyOpen
    | NoOpenSession
    | UnknownDenomination
    | NegativeCount
    | NoSuchCall

  datatype Reply = Accepted | Rejected(error: Error)
}
