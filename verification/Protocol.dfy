/** Everything that can happen to the service, one atomic step at a time, and runs of such steps. */
module Protocol {
  import opened PosTypes
  import opened Money
  import opened Store
  import opened TillSessions
  import opened Settlement
  import Outbox = FabricOutbox

  datatype Event =
    | EStartCheckout(id: TxnId, lines: seq<LineIn>, cashier: string, prices: map<string, int>)
    | EValidationAnswered(call: nat, answer: CartAnswer)
    | EChargeCash(id: TxnId, tendered: int)
    | EChargeCard(id: TxnId, reply: WindcaveReply)
    | ECancelCheckout(id: TxnId)
    | EPollCard(id: TxnId, final: Option<WindcaveAnswer>)
    | EStartRefund(id: TxnId, original: TxnId, cashier: string)
    | EChargeCashRefund(id: TxnId)
    | EChargeCardRefund(id: TxnId, reply: WindcaveReply)
    | ECancelRefund(id: TxnId)
    | EPollRefund(id: TxnId, final: Option<WindcaveAnswer>)
    | ESentryRecords(request: Request, soId: SoId)
    | ESentryAnswers(call: nat, ok: bool)
    | ERetrySentry(id: TxnId)
    | EBatchResend(id: TxnId)
    | ECrash(call: nat)
    | EOpenTill(sid: SessionId, cashier: string, openingFloat: int)
    | ECloseTill(cashier: string, count: int)
    | EReconfigure(config: Config)
    | EOutbox(step: Outbox.Event)

  /** One step.  A step whose guard fails is an error reply and changes nothing. */
  ghost function Apply(s: State, e: Event): State
    requires ValidRate(s.config.rate)
  {
    match e
    case EStartCheckout(id, lines, cashier, prices) => StartCheckout(s, id, lines, cashier, prices).0
    case EValidationAnswered(c, answer) => ValidationAnswered(s, c, answer).0
    case EChargeCash(id, tendered) => ChargeCash(s, id, tendered).0
    case EChargeCard(id, reply) => ChargeCard(s, id, reply).0
    case ECancelCheckout(id) => CancelCheckout(s, id).0
    case EPollCard(id, final) => PollFinished(s, id, Sale, final)
    case EStartRefund(id, original, cashier) => StartRefund(s, id, original, cashier).0
    case EChargeCashRefund(id) => ChargeCashRefund(s, id).0
    case EChargeCardRefund(id, reply) => ChargeCardRefund(s, id, reply).0
    case ECancelRefund(id) => CancelRefund(s, id).0
    case EPollRefund(id, final) => PollFinished(s, id, Refund, final)
    case ESentryRecords(request, soId) => SentryRecords(s, request, soId)
    case ESentryAnswers(c, ok) => SentryAnswers(s, c, ok)
    case ERetrySentry(id) => RetrySentry(s, id).0
    case EBatchResend(id) => BatchResend(s, id)
    case ECrash(c) => DropCall(s, c)
    case EOpenTill(sid, cashier, openingFloat) => OpenTill(s, sid, cashier, openingFloat).0
    case ECloseTill(cashier, count) => CloseTill(s, cashier, count).0
    case EReconfigure(config) => Reconfigure(s, config)
    case EOutbox(step) => if step.Enqueue? then s else s.(box := Outbox.Apply(s.box, step))
  }

  ghost function Run(s: State, events: seq<Event>): State
    requires ValidRate(s.config.rate)
    decreases |events|
  {
    if events == [] then s
    else
      RateStaysValid(s, events[0]);
      Run(Apply(s, events[0]), events[1..])
  }

  /** Steps that start a row or take or return payment. */
  predicate StartsOrPays(e: Event) {
    || e.EStartCheckout? || e.EChargeCash? || e.EChargeCard? || e.EPollCard? || e.EPollRefund? || e.EChargeCashRefund?
    || e.EChargeCardRefund?
  }

  lemma PayingFrame(s: State, e: Event)
    requires ValidRate(s.config.rate) && StartsOrPays(e)
    ensures Apply(s, e).config == s.config && Apply(s, e).box == s.box
  {
    hide FinalizeCard, PricedCart, RequestFor;
    match e {
      case EChargeCard(id, Answered(answer)) =>
        if id in s.rows { FinalizeFrame(SetRow(s, id, s.rows[id].(payment := Some(Card))), id, answer); }
      case EPollCard(id, Some(answer)) => if id in s.rows { FinalizeFrame(s, id, answer); }
      case EPollRefund(id, Some(answer)) => if id in s.rows { FinalizeFrame(s, id, answer); }
      case EChargeCardRefund(id, Answered(answer)) => if id in s.rows { FinalizeFrame(s, id, answer); }
      case _ =>
    }
  }

  lemma FinalizeFrame(s: State, id: TxnId, answer: WindcaveAnswer)
    requires id in s.rows
    ensures FinalizeCard(s, id, answer).config == s.config && FinalizeCard(s, id, answer).box == s.box
  {
    hide RequestFor;
  }

  lemma OtherFrame(s: State, e: Event)
    requires ValidRate(s.config.rate) && !StartsOrPays(e)
    ensures ValidRate(Apply(s, e).config.rate)
    ensures !e.EOutbox? && !e.ESentryAnswers? ==> Apply(s, e).box == s.box
  {
    hide RequestFor, BuildPayload, BlockingRefunds, OpenSession, Tallied, ClosedTill, NegatedCart, CompletedRows,
         Outbox.Apply, Outbox.NewEntry;
  }

  lemma RateStaysValid(s: State, e: Event)
    requires ValidRate(s.config.rate)
    ensures ValidRate(Apply(s, e).config.rate)
  {
    hide Apply, StartsOrPays;
    if StartsOrPays(e) {
      PayingFrame(s, e);
    } else {
      OtherFrame(s, e);
    }
  }

  // ---- composing runs ----

  lemma {:induction false} RunThen(s: State, events: seq<Event>, e: Event)
    requires ValidRate(s.config.rate)
    ensures ValidRate(Run(s, events).config.rate) && Run(s, events + [e]) == Apply(Run(s, events), e)
    decreases |events|
  {
    if events == [] {
      assert (events + [e])[1..] == [];
    } else {
      RateStaysValid(s, events[0]);
      assert (events + [e])[1..] == events[1..] + [e];
      RunThen(Apply(s, events[0]), events[1..], e);
    }
  }

  lemma {:induction false} RunConcat(s: State, xs: seq<Event>, ys: seq<Event>)
    requires ValidRate(s.config.rate)
    ensures ValidRate(Run(s, xs).config.rate) && Run(s, xs + ys) == Run(Run(s, xs), ys)
    decreases |ys|
  {
    if ys == [] {
      RunKeepsRate(s, xs);
      assert xs + ys == xs;
    } else {
      var front, last := ys[..|ys| - 1], ys[|ys| - 1];
      RunConcat(s, xs, front);
      RunThen(s, xs + front, last);
      assert (xs + front) + [last] == xs + ys;
      RunThen(Run(s, xs), front, last);
      assert front + [last] == ys;
    }
  }

  lemma {:induction false} RunKeepsRate(s: State, xs: seq<Event>)
    requires ValidRate(s.config.rate)
    ensures ValidRate(Run(s, xs).config.rate)
    decreases |xs|
  {
    if xs != [] {
      RateStaysValid(s, xs[0]);
      RunKeepsRate(Apply(s, xs[0]), xs[1..]);
    }
  }
}
