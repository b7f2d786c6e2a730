/** Three handlers await the card terminal and then write without looking at the row again.  The protocol takes each
    as one step; here is exactly when the late write is harmless, and what it does when it is not. */
module TerminalAwaits {
  import opened PosTypes
  import opened Sums
  import opened Store
  import opened TillSessions
  import opened Settlement
  import opened Protocol
  import opened Invariants
  import opened Writes
  import opened Preservation
  import opened Evolution
  import opened Theorems
  import opened Payouts
  import Outbox = FabricOutbox

  predicate KeepsDiagram(s: State, after: State, id: TxnId)
    requires id in s.rows && id in after.rows
  {
    after.rows[id].status == s.rows[id].status
    || StatusEdge(s.rows[id].kind, s.rows[id].status, after.rows[id].status)
  }

  const APPROVED := WindcaveAnswer(true, false, Some(WindcaveResult(true, None, CardInfo(None, None, None, None))))

  /** `charge_card` respects the status diagram for every reply exactly when the sale is, when Windcave replies, still
      awaiting payment or in flight. */
  lemma ChargeCardNeedsFreshRow(s: State, id: TxnId)
    requires Reachable(s) && id in s.rows && s.rows[id].kind.Sale?
    ensures (forall reply :: KeepsDiagram(s, CardCharged(s, id, reply).0, id))
       <==> s.rows[id].status in {AwaitingPayment, PaymentInFlight}
  {
    ReachableOk(s);
    hide Inv, Reachable, ParentOk, CartsOk, TendersOk;
    RowFacts(s, id);
    ChargedDiagram(s, id);
  }

  lemma ChargedDiagram(s: State, id: TxnId)
    requires id in s.rows && s.rows[id].kind.Sale? && SaleStatus(s.rows[id].status)
    ensures (forall reply :: KeepsDiagram(s, CardCharged(s, id, reply).0, id))
       <==> s.rows[id].status in {AwaitingPayment, PaymentInFlight}
  {
    assert CardCharged(s, id, Answered(APPROVED)).0.rows[id].status == PaymentSuccess;
    assert CardCharged(s, id, Unavailable).0.rows[id].status == PaymentFailed;
    if s.rows[id].status !in {AwaitingPayment, PaymentInFlight} {
      assert !KeepsDiagram(s, CardCharged(s, id, Answered(APPROVED)).0, id)
          || !KeepsDiagram(s, CardCharged(s, id, Unavailable).0, id);
    }
  }

  /** `charge_card_refund` likewise: exactly when the refund is still pending or in flight. */
  lemma ChargeCardRefundNeedsFreshRow(s: State, id: TxnId)
    requires Reachable(s) && id in s.rows && s.rows[id].kind.Refund?
    ensures (forall reply :: KeepsDiagram(s, RefundCharged(s, id, reply).0, id))
       <==> s.rows[id].status in {RefundPending, RefundPaymentInFlight}
  {
    ReachableOk(s);
    hide Inv, Reachable, ParentOk, CartsOk, TendersOk;
    RowFacts(s, id);
    RefundChargedDiagram(s, id);
  }

  lemma RefundChargedDiagram(s: State, id: TxnId)
    requires id in s.rows && s.rows[id].kind.Refund? && RefundStatus(s.rows[id].status)
    ensures (forall reply :: KeepsDiagram(s, RefundCharged(s, id, reply).0, id))
       <==> s.rows[id].status in {RefundPending, RefundPaymentInFlight}
  {
    assert RefundCharged(s, id, Answered(APPROVED)).0.rows[id].status == RefundPaymentSuccess;
    assert RefundCharged(s, id, Unavailable).0.rows[id].status == RefundPaymentFailed;
    if s.rows[id].status !in {RefundPending, RefundPaymentInFlight} {
      assert !KeepsDiagram(s, RefundCharged(s, id, Answered(APPROVED)).0, id)
          || !KeepsDiagram(s, RefundCharged(s, id, Unavailable).0, id);
    }
  }

  /** `cancel_checkout` writes CANCELLED after awaiting the terminal: in keeping with the diagram exactly when the sale
      has not meanwhile been decided otherwise. */
  lemma CancelNeedsFreshRow(s: State, id: TxnId)
    requires Reachable(s) && id in s.rows && s.rows[id].kind.Sale?
    ensures KeepsDiagram(s, SetStatus(s, id, Cancelled), id)
       <==> s.rows[id].status in {AwaitingPayment, PaymentInFlight, Cancelled}
  {
    ReachableOk(s);
    hide Inv, Reachable, ParentOk, CartsOk, TendersOk, StatusEdge;
    RowFacts(s, id);
    CancelEdges(s.rows[id].status);
  }

  lemma CancelEdges(st: Status)
    requires SaleStatus(st)
    ensures StatusEdge(Sale, st, Cancelled) <==> st in {AwaitingPayment, PaymentInFlight}
  {
  }

  // ---- the whole invariant ----

  /** `charge_card`'s late write keeps the whole invariant, for every reply, exactly when the sale is unpaid and no
      call of its own is outstanding. */
  lemma LateChargeKeepsInvariant(s: State, id: TxnId)
    requires Reachable(s) && id in s.rows && s.rows[id].kind.Sale?
    ensures (forall reply :: Inv(CardCharged(s, id, reply).0))
       <==> !Paid(s.rows[id].status) && NoCallFor(s.calls, id)
  {
    hide Inv, Reachable, CardCharged, NoCallFor, Paid;
    ReachableOk(s);
    if !Paid(s.rows[id].status) && NoCallFor(s.calls, id) {
      forall reply ensures Inv(CardCharged(s, id, reply).0) {
        CardChargedKeeps(s, id, reply);
      }
    } else {
      LateRefusalBreaks(s, id);
      assert !Inv(CardCharged(s, id, Unavailable).0);
    }
  }

  lemma LateRefusalBreaks(s: State, id: TxnId)
    requires Inv(s) && id in s.rows && s.rows[id].kind.Sale?
    requires Paid(s.rows[id].status) || !NoCallFor(s.calls, id)
    ensures !Inv(CardCharged(s, id, Unavailable).0)
  {
    hide CartsOk, ParentsOk, Exclusive, LinksOk, LedgerOk, LocalOk;
    var after := CardCharged(s, id, Unavailable).0;
    if Paid(s.rows[id].status) {
      assert RowOk(s.rows[id]) && !RowOk(after.rows[id]);
    } else {
      var c :| c in s.calls && s.calls[c].txn == id;
      assert CallOk(s.rows, s.wire, s.calls[c]);
      assert !CallOk(after.rows, after.wire, after.calls[c]);
    }
  }

  /** `charge_card_refund`'s late write keeps it exactly when the refund is unpaid and no other refund of its sale is
      blocking.  That the refund is a card refund was checked before the wait and does not change. */
  lemma LateRefundChargeKeepsInvariant(s: State, id: TxnId)
    requires Reachable(s) && id in s.rows && s.rows[id].kind.Refund? && s.rows[id].payment == Some(Card)
    ensures (forall reply :: Inv(RefundCharged(s, id, reply).0)) <==> !Paid(s.rows[id].status) && Alone(s.rows, id)
  {
    hide Inv, Reachable, RefundCharged, Paid, Alone, RefundBlocking;
    ReachableOk(s);
    if !Paid(s.rows[id].status) && Alone(s.rows, id) {
      forall reply ensures Inv(RefundCharged(s, id, reply).0) {
        RefundChargedKeeps(s, id, reply);
      }
    } else if Paid(s.rows[id].status) {
      LateRefundRefusalBreaks(s, id);
      assert !Inv(RefundCharged(s, id, Unavailable).0);
    } else {
      LateRefundApprovalBreaks(s, id);
      assert !Inv(RefundCharged(s, id, Answered(APPROVED)).0);
    }
  }

  lemma LateRefundRefusalBreaks(s: State, id: TxnId)
    requires Inv(s) && id in s.rows && s.rows[id].kind.Refund? && Paid(s.rows[id].status)
    ensures !Inv(RefundCharged(s, id, Unavailable).0)
  {
    hide CartsOk, ParentsOk, Exclusive, LinksOk, LedgerOk, RemoteOk, LocalOk;
    assert RowOk(s.rows[id]) && !RowOk(RefundCharged(s, id, Unavailable).0.rows[id]);
  }

  lemma LateRefundApprovalBreaks(s: State, id: TxnId)
    requires id in s.rows && s.rows[id].kind.Refund? && !Alone(s.rows, id)
    ensures !Inv(RefundCharged(s, id, Answered(APPROVED)).0)
  {
    hide RowsOk, CartsOk, ParentsOk, LinksOk, LedgerOk, RemoteOk, LocalOk;
    var after := RefundCharged(s, id, Answered(APPROVED)).0;
    var r, sale :| s.rows[id].parent == Some(sale) && Blocks(s.rows, r, sale) && r != id;
    assert Blocks(after.rows, r, sale) && Blocks(after.rows, id, sale);
  }

  /** `cancel_checkout`'s late write keeps it exactly when the sale is unpaid and no call of its own is outstanding. */
  lemma LateCancelKeepsInvariant(s: State, id: TxnId)
    requires Reachable(s) && id in s.rows && s.rows[id].kind.Sale?
    ensures Inv(SetStatus(s, id, Cancelled)) <==> !Paid(s.rows[id].status) && NoCallFor(s.calls, id)
  {
    hide Inv, Reachable, NoCallFor, Paid, CartsOk, ParentOk;
    ReachableOk(s);
    if !Paid(s.rows[id].status) && NoCallFor(s.calls, id) {
      RowFacts(s, id);
      CancelledOk(s.rows[id]);
      UnpaidWrite(s, id, Cancelled, s.rows[id].payment);
    } else {
      LateCancelBreaks(s, id);
    }
  }

  lemma CancelledOk(row: Txn)
    requires RowOk(row) && row.kind.Sale? && !Paid(row.status)
    ensures RowOk(row.(status := Cancelled)) && !Paid(Cancelled)
    ensures row.(status := Cancelled, payment := row.payment) == row.(status := Cancelled)
  {
  }

  lemma LateCancelBreaks(s: State, id: TxnId)
    requires Inv(s) && id in s.rows && s.rows[id].kind.Sale?
    requires Paid(s.rows[id].status) || !NoCallFor(s.calls, id)
    ensures !Inv(SetStatus(s, id, Cancelled))
  {
    hide CartsOk, ParentsOk, Exclusive, LinksOk, LedgerOk, LocalOk;
    var after := SetStatus(s, id, Cancelled);
    if Paid(s.rows[id].status) {
      assert RowOk(s.rows[id]) && !RowOk(after.rows[id]);
    } else {
      var c :| c in s.calls && s.calls[c].txn == id;
      assert CallOk(s.rows, s.wire, s.calls[c]);
      assert !CallOk(after.rows, after.wire, after.calls[c]);
    }
  }

  /** If the poller completes a sale while `cancel_checkout` awaits the terminal, the late write leaves it CANCELLED
      with its tender, its order at Sentry and its outbox entry: a terminal status changed, a tender on an unpaid row,
      an order for an unpaid row and an entry for a row that should have none. */
  lemma LateCancelOfCompleteSale(s: State, id: TxnId)
    requires Reachable(s) && id in s.rows && s.rows[id].kind.Sale? && s.rows[id].status == Complete
    ensures var after := SetStatus(s, id, Cancelled);
            && after.rows[id].status == Cancelled && !Paid(after.rows[id].status) && !Settled(after.rows[id].status)
            && |after.rows[id].tenders| == 1 && after.rows[id].so.Some?
            && id in after.orders && after.rows[id].so == Some(after.orders[id].soId)
            && EntryCount(after.box.entries, id) == 1
  {
    hide Inv, Reachable;
    ReachableOk(s);
    PaymentRecord(s, id);
    ExactlyOnceAtSentry(s);
    OneOutboxEntry(s, id);
  }

  // ---- two calls to charge_card ----

  lemma UnpaidUnsent(s: State, id: TxnId)
    requires Inv(s) && id in s.rows && !Paid(s.rows[id].status)
    ensures forall r :: r in s.wire ==> r.key != id
  {
    hide BooksOk, LocalOk;
    forall r | r in s.wire ensures r.key != id {
      assert RequestOk(s.rows, r);
    }
  }

  /** Two overlapping `charge_card` calls that are both approved put two first sends of the sale under way, and then
      there are two different requests with its one key on the wire if and only if the approvals differ in card,
      reference or amount. */
  lemma OverlappingCharges(s: State, id: TxnId, a: WindcaveAnswer, b: WindcaveAnswer)
    requires Reachable(s) && LoadForPayment(s, id).Accepted? && a.Settles() && b.Settles()
    ensures var first := CardCharged(s, id, Answered(a)).0;
            && id in first.rows
            && var both := CardCharged(first, id, Answered(b)).0;
               && both.calls[s.nextCall] == both.calls[first.nextCall] == FirstSend(id) && s.nextCall != first.nextCall
               && ((exists q, r :: q in both.wire && r in both.wire && q.key == r.key == id && q != r)
                   <==> SaleTender(s.rows[id], a) != SaleTender(s.rows[id], b))
  {
    hide Inv, Reachable;
    ReachableOk(s);
    UnpaidUnsent(s, id);
    var first := CardCharged(s, id, Answered(a)).0;
    var both := CardCharged(first, id, Answered(b)).0;
    assert first.rows[id].tenders == [SaleTender(s.rows[id], a)];
    assert both.rows[id].tenders == [SaleTender(s.rows[id], b)];
    var q, r := RequestFor(first.rows, id), RequestFor(both.rows, id);
    assert q.key == r.key == id && both.wire == s.wire + {q, r};
  }

  lemma {:induction false} CountAppended(entries: seq<Outbox.Entry>, more: seq<Outbox.Entry>, id: TxnId)
    ensures EntryCount(entries + more, id) == EntryCount(entries, id) + EntryCount(more, id)
  {
    if entries == [] {
      assert entries + more == more;
    } else {
      assert (entries + more)[1..] == entries[1..] + more;
      CountAppended(entries[1..], more, id);
    }
  }

  /** Hearing back about a first send adds one outbox entry for its row, whatever the row's status is by then, and on
      success one transaction to the open session of its cashier. */
  lemma FirstAnswerAdds(s: State, c: nat, ok: bool, id: TxnId)
    requires c in s.calls && s.calls[c] == FirstSend(id) && id in s.rows && s.rows[id].kind.Sale?
    requires ok ==> id in s.orders
    ensures var after := SentryAnswers(s, c, ok);
            && EntryCount(after.box.entries, id) == EntryCount(s.box.entries, id) + 1
            && id in after.rows && after.rows[id].kind.Sale? && after.rows[id].cashier == s.rows[id].cashier
            && after.orders == s.orders && after.calls == s.calls - {c}
            && after.sessions.Keys == s.sessions.Keys
            && forall sid :: sid in s.sessions ==>
                 && after.sessions[sid].status == s.sessions[sid].status
                 && after.sessions[sid].cashier == s.sessions[sid].cashier
                 && after.sessions[sid].transactionCount == s.sessions[sid].transactionCount
                      + (if ok && OpenSession(s.sessions, s.rows[id].cashier) == Some(sid) then 1 else 0)
  {
    hide BuildPayload, EntryCount, OpenSession, Attribute, Outbox.NewEntry;
    if ok {
      AttributeIs(Completed(DropCall(s, c), id, s.orders[id].soId), id, false);
    }
    NewEntryOf(s, id);
    var after := SentryAnswers(s, c, ok);
    var added := after.box.entries[|s.box.entries|];
    assert after.box.entries == s.box.entries + [added] && added.txn == id;
    CountAppended(s.box.entries, [added], id);
    CountOfOne(added);
    OpenSessionOk(s.sessions, s.rows[id].cashier);
  }

  lemma NewEntryOf(s: State, id: TxnId)
    ensures forall payload, clock :: Outbox.NewEntry(id, payload, clock).txn == id
  {
  }

  lemma CountOfOne(entry: Outbox.Entry)
    ensures EntryCount([entry], entry.txn) == 1
  {
    assert EntryCount([entry][1..], entry.txn) == 0;
  }

  lemma OpenSessionOk(sessions: Sessions, cashier: string)
    ensures var found := OpenSession(sessions, cashier);
            found.Some? ==> IsOpenFor(sessions, found.value, cashier)
    ensures OpenSession(sessions, cashier).None? ==> forall sid: SessionId :: !IsOpenFor(sessions, sid, cashier)
  {
  }

  /** Even two identical approvals go wrong once both sends are answered, each with a success or an error: the sale has
      two outbox entries, and if both succeed its cashier's open session has counted it twice. */
  lemma OverlappingChargesAnswered(s: State, id: TxnId, a: WindcaveAnswer, b: WindcaveAnswer, soId: Option<SoId>,
                                   okA: bool, okB: bool)
    requires Reachable(s) && LoadForPayment(s, id).Accepted? && a.Settles() && b.Settles()
    requires okA || okB ==> soId.Some? && forall k :: k in s.orders ==> s.orders[k].soId != soId.value
    ensures var first := CardCharged(s, id, Answered(a)).0;
            && id in first.rows && CanRequest(first.rows, id)
            && var both := CardCharged(first, id, Answered(b)).0;
               var sent := if soId.Some? then SentryRecords(both, RequestFor(first.rows, id), soId.value) else both;
               var after := SentryAnswers(SentryAnswers(sent, s.nextCall, okA), first.nextCall, okB);
               && EntryCount(after.box.entries, id) == 2
               && forall sid: SessionId :: okA && okB && IsOpenFor(s.sessions, sid, s.rows[id].cashier) ==>
                    sid in after.sessions
                    && after.sessions[sid].transactionCount == s.sessions[sid].transactionCount + 2
  {
    hide Inv, Reachable, EntryCount, CardCharged, SentryAnswers, OpenSession;
    OverlappingChargesLeave(s, id, a, b);
    OneOutboxEntry(s, id);
    OneOpen(s);
    var first := CardCharged(s, id, Answered(a)).0;
    var both := CardCharged(first, id, Answered(b)).0;
    var sent := if soId.Some? then SentryRecords(both, RequestFor(first.rows, id), soId.value) else both;
    FirstAnswerAdds(sent, s.nextCall, okA, id);
    var heard := SentryAnswers(sent, s.nextCall, okA);
    FirstAnswerAdds(heard, first.nextCall, okB, id);
    forall sid: SessionId | IsOpenFor(s.sessions, sid, s.rows[id].cashier)
      ensures OpenSession(s.sessions, s.rows[id].cashier) == Some(sid)
      ensures OpenSession(heard.sessions, s.rows[id].cashier) == Some(sid)
    {
      SoleOpenSession(s.sessions, s.sessions, sid, s.rows[id].cashier);
      SoleOpenSession(s.sessions, heard.sessions, sid, s.rows[id].cashier);
    }
  }

  /** Tallying leaves the cashier's one open session the one found. */
  lemma SoleOpenSession(before: Sessions, after: Sessions, sid: SessionId, cashier: string)
    requires OneOpenPerCashier(before) && IsOpenFor(before, sid, cashier) && before.Keys == after.Keys
    requires forall x :: x in before ==> after[x].status == before[x].status && after[x].cashier == before[x].cashier
    ensures OpenSession(after, cashier) == Some(sid)
  {
    hide OpenSession;
    OpenSessionOk(after, cashier);
    assert IsOpenFor(after, sid, cashier);
    if OpenSession(after, cashier).Some? {
      assert IsOpenFor(before, OpenSession(after, cashier).value, cashier);
    }
  }

  lemma OneOpen(s: State)
    requires Reachable(s)
    ensures OneOpenPerCashier(s.sessions)
  {
    hide BooksOk, RemoteOk, EntriesOk, Reachable;
    ReachableOk(s);
  }

  lemma OverlappingChargesLeave(s: State, id: TxnId, a: WindcaveAnswer, b: WindcaveAnswer)
    requires Reachable(s) && LoadForPayment(s, id).Accepted? && a.Settles() && b.Settles()
    ensures id !in s.orders
    ensures var first := CardCharged(s, id, Answered(a)).0;
            && id in first.rows && CanRequest(first.rows, id)
            && var both := CardCharged(first, id, Answered(b)).0;
               && id in both.rows && both.rows[id].kind.Sale? && both.rows[id].cashier == s.rows[id].cashier
               && both.sessions == s.sessions && both.box == s.box && both.orders == s.orders
               && s.nextCall in both.calls && both.calls[s.nextCall] == FirstSend(id)
               && first.nextCall in both.calls && both.calls[first.nextCall] == FirstSend(id)
               && s.nextCall != first.nextCall && RequestFor(first.rows, id) in both.wire
               && RequestFor(first.rows, id).key == id
  {
    hide Inv, Reachable;
    ReachableOk(s);
    ExactlyOnceAtSentry(s);
  }

  // ---- a cancelled sale ----

  /** A sale cancelled while `charge_card` waits comes back to life, paid, and is sent to Sentry. */
  lemma CancelledSaleRevived(s: State, id: TxnId, answer: WindcaveAnswer)
    requires Reachable(s) && LoadForPayment(s, id).Accepted? && answer.Settles()
    ensures var cancelled := CancelCheckout(s, id).0;
            var after := CardCharged(cancelled, id, Answered(answer)).0;
            && Reachable(cancelled) && cancelled.rows[id].status == Cancelled
            && Inv(after) && after.rows[id].status == PaymentSuccess
            && after.rows[id].tenders == [SaleTender(s.rows[id], answer)]
            && CanRequest(after.rows, id) && RequestFor(after.rows, id) in after.wire
  {
    hide Inv, Reachable;
    ReachableOk(s);
    RateOk(s);
    ReachableStep(s, ECancelCheckout(id));
    var cancelled := CancelCheckout(s, id).0;
    ReachableOk(cancelled);
    UnpaidQuiet(cancelled, id);
    CardChargedKeeps(cancelled, id, Answered(answer));
  }

  // ---- refunds ----

  /** A late approval of a card refund keeps refunds of its sale exclusive exactly when no other refund of that sale is
      blocking when it arrives. */
  lemma LateApprovalKeepsExclusion(s: State, id: TxnId, sale: TxnId, answer: WindcaveAnswer)
    requires Reachable(s) && id in s.rows && s.rows[id].kind.Refund? && s.rows[id].parent == Some(sale)
    requires answer.Settles()
    ensures var after := RefundCharged(s, id, Answered(answer)).0;
            |BlockingRefunds(after, sale)| <= 1 <==> BlockingRefunds(s, sale) <= {id}
  {
    var after := RefundCharged(s, id, Answered(answer)).0;
    LateApprovalBlocks(s, id, sale, answer);
    hide Reachable, RefundCharged, BlockingRefunds;
    var others := BlockingRefunds(s, sale) - {id};
    if others == {} {
      assert BlockingRefunds(after, sale) == {id};
    } else {
      var r :| r in others;
      TwoMembers(BlockingRefunds(after, sale), id, r);
    }
  }

  lemma TwoMembers(xs: set<TxnId>, a: TxnId, b: TxnId)
    requires a in xs && b in xs && a != b
    ensures 2 <= |xs|
  {
    assert {a, b} <= xs && xs == {a, b} + (xs - {a, b});
  }

  lemma LateApprovalBlocks(s: State, id: TxnId, sale: TxnId, answer: WindcaveAnswer)
    requires id in s.rows && s.rows[id].kind.Refund? && s.rows[id].parent == Some(sale)
    requires answer.Settles()
    ensures BlockingRefunds(RefundCharged(s, id, Answered(answer)).0, sale) == BlockingRefunds(s, sale) + {id}
  {
  }

  /** Another refund of the sale has been paid out. */
  ghost predicate OtherPaid(rows: Rows, id: TxnId, sale: TxnId) {
    exists r :: r != id && Blocks(rows, r, sale) && Paid(rows[r].status)
  }

  /** After a late approval, what has been handed back for the sale is the amount this approval records plus what the
      other paid refund recorded, if there is one; by the refunds' totals it is the sale's total, or twice that.  So by
      the totals the bound holds exactly when no other refund had been paid or the total is zero. */
  lemma LateApprovalPayout(s: State, id: TxnId, sale: TxnId, answer: WindcaveAnswer)
    requires Reachable(s) && id in s.rows && s.rows[id].kind.Refund? && s.rows[id].parent == Some(sale)
    requires answer.Settles()
    ensures sale in s.rows
    ensures var after := RefundCharged(s, id, Answered(answer)).0;
            var paidOut, refunded := Total(after.rows, PaidOutFor(sale)), Total(after.rows, RefundedFor(sale));
            var amount, total := -RefundTender(s.rows[id], answer).amount, s.rows[sale].total;
            && (!OtherPaid(s.rows, id, sale) ==> paidOut == amount && refunded == total)
            && (forall r :: r != id && Blocks(s.rows, r, sale) && Paid(s.rows[r].status) ==>
                  paidOut == amount + RecordedPayout(s.rows[r]) && refunded == 2 * total)
            && (refunded in {0, total} <==> !OtherPaid(s.rows, id, sale) || total == 0)
  {
    hide Inv, Reachable, RowsOk, ParentsOk, Exclusive, PaidOutFor, RefundedFor, RecordedPayout, PaidRefundOf, Blocks,
         RefundTender;
    ReachableOk(s);
    RefundFacts(s);
    OnlyPayouts(sale);
    ApprovedRows(s, id, sale, answer);
    var after := RefundCharged(s, id, Answered(answer)).0;
    TotalSplit(after.rows, PaidOutFor(sale), id);
    TotalSplit(after.rows, RefundedFor(sale), id);
    assert after.rows - {id} == s.rows - {id};
    OthersPaid(s.rows, id, sale, PaidOutFor(sale));
    OthersPaid(s.rows, id, sale, RefundedFor(sale));
    OtherPayouts(s.rows, sale);
  }

  lemma ApprovedRows(s: State, id: TxnId, sale: TxnId, answer: WindcaveAnswer)
    requires RowsOk(s.rows) && ParentsOk(s.rows)
    requires id in s.rows && s.rows[id].kind.Refund? && s.rows[id].parent == Some(sale) && answer.Settles()
    ensures var after := RefundCharged(s, id, Answered(answer)).0;
            && sale in s.rows && id in after.rows && after.rows == s.rows[id := after.rows[id]]
            && after.rows[id].status == RefundPaymentSuccess && after.rows[id].total == -s.rows[sale].total
            && after.rows[id].tenders == [RefundTender(s.rows[id], answer)]
            && PaidOutFor(sale)(after.rows[id]) == -RefundTender(s.rows[id], answer).amount
            && RefundedFor(sale)(after.rows[id]) == s.rows[sale].total
  {
    hide RowOk;
    assert ParentOk(s.rows, id);
  }

  lemma OtherPayouts(rows: Rows, sale: TxnId)
    requires ParentsOk(rows) && sale in rows
    ensures forall r :: Blocks(rows, r, sale) && Paid(rows[r].status) ==>
              PaidOutFor(sale)(rows[r]) == RecordedPayout(rows[r]) && RefundedFor(sale)(rows[r]) == rows[sale].total
  {
    forall r | Blocks(rows, r, sale) && Paid(rows[r].status)
      ensures PaidOutFor(sale)(rows[r]) == RecordedPayout(rows[r]) && RefundedFor(sale)(rows[r]) == rows[sale].total
    {
      assert ParentOk(rows, r);
    }
  }

  lemma OthersPaid(rows: Rows, id: TxnId, sale: TxnId, f: Txn -> int)
    requires RowsOk(rows) && Exclusive(rows) && id in rows
    requires forall row :: !PaidRefundOf(row, sale) ==> f(row) == 0
    ensures !OtherPaid(rows, id, sale) ==> Total(rows - {id}, f) == 0
    ensures forall r :: r != id && Blocks(rows, r, sale) && Paid(rows[r].status) ==> Total(rows - {id}, f) == f(rows[r])
  {
    var others := rows - {id};
    if r :| r != id && Blocks(rows, r, sale) && Paid(rows[r].status) {
      TotalSplit(others, f, r);
      var rest := others - {r};
      forall k | k in rest ensures f(rest[k]) == 0 {
        assert RowOk(rows[k]);
        assert Blocks(rows, k, sale) ==> k == r;
      }
      TotalZero(rest, f);
    } else {
      forall k | k in others ensures f(others[k]) == 0 {
        assert RowOk(rows[k]);
        assert !(Blocks(rows, k, sale) && Paid(rows[k].status));
      }
      TotalZero(others, f);
    }
  }

  /** `charge_card_refund` has passed its checks and is waiting for the terminal. */
  predicate AwaitsTerminal(s: State, id: TxnId, sale: TxnId) {
    && LoadRefundForPayment(s, id).Accepted? && s.rows[id].payment == Some(Card) && s.rows[id].parent == Some(sale)
    && HasParent(s.rows, s.rows[id]) && s.rows[sale].windcaveRef !in {None, Some("")}
  }

  predicate InWindow(s: State, sale: TxnId)
    requires sale in s.rows
  {
    (s.box.clock - s.rows[sale].createdAt) / DAY <= s.config.refundWindowDays
  }

  /** The cashier's side of the accident: the refund is cancelled during the wait, another is started and paid. */
  ghost function Replaced(s: State, id: TxnId, second: TxnId, sale: TxnId, cashier: string,
                          answer: WindcaveAnswer): State
  {
    ChargeCardRefund(StartRefund(CancelRefund(s, id).0, second, sale, cashier).0, second, Answered(answer)).0
  }

  lemma CancelFreesTheSale(s: State, id: TxnId, sale: TxnId)
    requires Reachable(s) && AwaitsTerminal(s, id, sale) && InWindow(s, sale)
    ensures var cancelled := CancelRefund(s, id).0;
            && Reachable(cancelled) && cancelled.rows == s.rows[id := s.rows[id].(status := Cancelled)]
            && cancelled.config == s.config && LookupRefund(cancelled, sale).Accepted?
  {
    hide Inv, Reachable, RowOk, CartsOk, RowsOk, ParentsOk, Exclusive;
    ReachableOk(s);
    RateOk(s);
    RowFacts(s, id);
    RefundFacts(s);
    var cancelled := CancelRefund(s, id).0;
    ReachableStep(s, ECancelRefund(id));
    OneBlocker(s, sale);
    assert id in BlockingRefunds(s, sale);
    assert BlockingRefunds(cancelled, sale) == BlockingRefunds(s, sale) - {id};
    assert BlockingRefunds(cancelled, sale) == {};
  }

  lemma ReplacementPaid(s: State, second: TxnId, sale: TxnId, cashier: string, answer: WindcaveAnswer)
    requires Reachable(s) && LookupRefund(s, sale).Accepted? && second !in s.rows && answer.Settles()
    requires s.rows[sale].payment == Some(Card) && s.rows[sale].windcaveRef !in {None, Some("")}
    ensures var mid := ChargeCardRefund(StartRefund(s, second, sale, cashier).0, second, Answered(answer)).0;
            && Reachable(mid) && second in mid.rows && mid.rows == s.rows[second := mid.rows[second]]
            && mid.rows[second].status == RefundPaymentSuccess && mid.rows[second].kind.Refund?
            && mid.rows[second].parent == Some(sale) && sale in s.rows
            && mid.rows[second].tenders
               == [CardTender(-AmountOr(answer.result.value, Abs(s.rows[sale].total)), answer.result.value.card)]
  {
    hide Inv, Reachable, LookupRefund, RequestFor;
    ReachableOk(s);
    RateOk(s);
    InWindowSale(s, sale);
    var started := StartRefund(s, second, sale, cashier).0;
    ReachableStep(s, EStartRefund(second, sale, cashier));
    ReachableStep(started, EChargeCardRefund(second, Answered(answer)));
  }

  lemma InWindowSale(s: State, sale: TxnId)
    requires LookupRefund(s, sale).Accepted?
    ensures sale in s.rows
  {
  }

  lemma ReplacedFacts(s: State, id: TxnId, second: TxnId, sale: TxnId, cashier: string, answer: WindcaveAnswer)
    requires Reachable(s) && AwaitsTerminal(s, id, sale) && InWindow(s, sale) && second !in s.rows && answer.Settles()
    ensures var mid := Replaced(s, id, second, sale, cashier, answer);
            && Reachable(mid) && id in mid.rows && second in mid.rows && sale in mid.rows
            && mid.rows[id] == s.rows[id].(status := Cancelled) && mid.rows[sale] == s.rows[sale]
            && Blocks(mid.rows, second, sale) && mid.rows[second].status == RefundPaymentSuccess
            && mid.rows[second].tenders
               == [CardTender(-AmountOr(answer.result.value, Abs(s.rows[sale].total)), answer.result.value.card)]
            && s.rows[id].total == -s.rows[sale].total
  {
    hide Inv, Reachable, CancelRefund, StartRefund, ChargeCardRefund, LookupRefund, InWindow, CartsOk;
    ReachableOk(s);
    RowFacts(s, id);
    PaidByCardSale(s, id, sale);
    CancelFreesTheSale(s, id, sale);
    ReplacementPaid(CancelRefund(s, id).0, second, sale, cashier, answer);
  }

  lemma PaidByCardSale(s: State, id: TxnId, sale: TxnId)
    requires Reachable(s) && AwaitsTerminal(s, id, sale)
    ensures sale in s.rows && sale != id && s.rows[sale].payment == Some(Card)
  {
    hide Inv, Reachable, CartsOk;
    ReachableOk(s);
    RowFacts(s, id);
    RowFacts(s, sale);
  }

  /** Cancel a refund while its terminal call is out, start another, let the terminal approve both: both are paid.  What
      has been handed back is what the two approvals record, each the sale's total unless the terminal names another
      amount. */
  lemma RefundPaidTwice(s: State, id: TxnId, second: TxnId, sale: TxnId, cashier: string,
                        late: WindcaveAnswer, prompt: WindcaveAnswer)
    requires Reachable(s) && AwaitsTerminal(s, id, sale) && InWindow(s, sale) && second !in s.rows
    requires late.Settles() && prompt.Settles()
    ensures var mid, total := Replaced(s, id, second, sale, cashier, prompt), s.rows[sale].total;
            && Reachable(mid) && id in mid.rows && second in mid.rows && sale in mid.rows
            && var after := RefundCharged(mid, id, Answered(late)).0;
               && Paid(after.rows[id].status) && Paid(after.rows[second].status)
               && after.rows[id].parent == after.rows[second].parent == Some(sale)
               && Total(after.rows, RefundedFor(sale)) == 2 * total
               && Total(after.rows, PaidOutFor(sale))
                  == AmountOr(late.result.value, Abs(total)) + AmountOr(prompt.result.value, Abs(total))
               && (NamesTheTotal(late.result.value, total) && NamesTheTotal(prompt.result.value, total) ==>
                     Total(after.rows, PaidOutFor(sale)) == 2 * total)
  {
    hide Reachable, Replaced, PaidOutFor, RefundedFor;
    ReplacedFacts(s, id, second, sale, cashier, prompt);
    var mid := Replaced(s, id, second, sale, cashier, prompt);
    LateApprovalPayout(mid, id, sale, late);
    assert OtherPaid(mid.rows, id, sale);
  }
}
