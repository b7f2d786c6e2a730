/** The outbox table as the service updates it, and the drain pass that posts claimed entries. */
module OutboxWorker {
  import opened PosTypes
  import opened FabricOutbox

  /** What the world does around one post: other handlers before the entry is loaded, others while Fabric is
      answering, then the answer. */
  datatype Turn = Turn(before: seq<Event>, during: seq<Event>, outcome: Outcome)

  datatype Verdict = VDelivered | VFailed | VDlq

  predicate Foreign(events: seq<Event>) {
    forall k :: 0 <= k < |events| ==> !events[k].Claim? && !events[k].Process?
  }

  class OutboxTable {
    var entries: seq<Entry>
    var clock: int
    var drain: seq<nat>

    ghost function View(): Box reads this { Box(entries, clock, drain) }

    constructor (clock: int)
      ensures View() == Box([], clock, [])
    {
      this.clock := clock;
      entries, drain := [], [];
    }

    method Enqueue(txn: TxnId, payload: Payload)
      modifies this`entries
      ensures View() == Apply(old(View()), Event.Enqueue(txn, payload))
      ensures |entries| == |old(entries)| + 1 && entries[..|old(entries)|] == old(entries)
      ensures var e := entries[|old(entries)|];
              && e.txn == txn && e.payload == payload && e.status.Pending? && e.attempts == 0 && e.nextAt == clock
              && 1_000_000 * e.createdAt <= clock < 1_000_000 * (e.createdAt + 1)
    {
      EnqueueStep(View(), txn, payload);
      entries := entries + [Entry(txn, payload, Pending, 0, clock, clock / SECOND, clock, clock)];
    }

    /** The oldest due entry not in `taken`. */
    method OldestDue(taken: seq<nat>) returns (oldest: Option<nat>)
      ensures oldest.Some? ==>
                oldest.value < |entries| && oldest.value !in taken && Due(entries[oldest.value], clock)
      ensures forall j :: 0 <= j < |entries| && j !in taken && Due(entries[j], clock) ==>
                oldest.Some? && entries[oldest.value].createdAt <= entries[j].createdAt
    {
      oldest := None;
      for i := 0 to |entries|
        invariant oldest.Some? ==> oldest.value < i && oldest.value !in taken && Due(entries[oldest.value], clock)
        invariant forall j :: 0 <= j < i && j !in taken && Due(entries[j], clock) ==>
                    oldest.Some? && entries[oldest.value].createdAt <= entries[j].createdAt
      {
        if i !in taken && Due(entries[i], clock)
           && (oldest.None? || entries[i].createdAt < entries[oldest.value].createdAt) {
          oldest := Some(i);
        }
      }
    }

    /** The claim query: repeatedly the oldest due entry not yet taken, until the batch is full. */
    method SelectDue(batch: nat) returns (pick: seq<nat>)
      ensures IsSelection(entries, clock, batch, pick)
    {
      pick := [];
      var rest := true;
      while |pick| < batch && rest
        invariant |pick| <= batch
        invariant forall k :: 0 <= k < |pick| ==> pick[k] < |entries| && Due(entries[pick[k]], clock)
        invariant forall j, k :: 0 <= j < k < |pick| ==>
                    pick[j] != pick[k] && entries[pick[j]].createdAt <= entries[pick[k]].createdAt
        invariant forall k, i :: 0 <= k < |pick| && 0 <= i < |entries| && i !in pick && Due(entries[i], clock) ==>
                    entries[pick[k]].createdAt <= entries[i].createdAt
        invariant !rest ==> forall i :: 0 <= i < |entries| && i !in pick ==> !Due(entries[i], clock)
        decreases batch - |pick|, rest
      {
        var oldest := OldestDue(pick);
        if oldest.Some? {
          pick := pick + [oldest.value];
        } else {
          rest := false;
        }
      }
    }

    method ClaimDue(batch: nat) returns (ids: seq<nat>)
      requires BoxOk(View()) && drain == []
      modifies this`entries, this`drain
      ensures IsSelection(old(entries), clock, batch, ids) && drain == ids
      ensures |entries| == |old(entries)|
      ensures forall i :: 0 <= i < |entries| ==>
                entries[i] == if i in ids then old(entries)[i].(status := InFlight) else old(entries)[i]
      ensures View() == Apply(old(View()), Claim(batch, ids))
      ensures BoxOk(View())
    {
      ids := SelectDue(batch);
      for k := 0 to |ids|
        invariant entries == Claimed(old(entries), ids[..k])
      {
        ClaimedNext(old(entries), ids, k);
        entries := entries[ids[k] := entries[ids[k]].(status := InFlight)];
      }
      assert ids[..|ids|] == ids;
      drain := ids;
      ApplyKeepsBox(old(View()), Claim(batch, ids));
    }

    method MarkDelivered(i: nat)
      modifies this`entries
      ensures entries == if i < |old(entries)| then old(entries)[i := old(entries)[i].(status := Delivered)]
                         else old(entries)
    {
      if |entries| <= i { return; }
      entries := entries[i := entries[i].(status := Delivered)];
    }

    method MarkFailed(i: nat) returns (now: Option<EntryStatus>)
      requires i < |entries| ==> entries[i].attempts < MAX_ATTEMPTS
      modifies this`entries
      ensures i < |old(entries)| ==> entries == old(entries)[i := Marked(old(entries)[i], Refused, clock)]
      ensures i < |old(entries)| ==> now == Some(entries[i].status)
      ensures |old(entries)| <= i ==> entries == old(entries) && now == None
      ensures i < |old(entries)| ==>
                var before := old(entries)[i];
                && entries == old(entries)[i := entries[i]] && entries[i].attempts == before.attempts + 1
                && (if entries[i].attempts == 8 then entries[i] == before.(attempts := 8, status := Dlq)
                    else entries[i].status.Pending? && entries[i].txn == before.txn
                         && entries[i].payload == before.payload
                         && entries[i].nextAt == clock + 1_000_000 * PublishedDelay(before.attempts + 1))
    {
      if |entries| <= i { return None; }
      if entries[i].attempts < 7 {
        WaitsAreAsPublished(entries[i].attempts + 1);
      }
      var e := entries[i];
      e := e.(attempts := e.attempts + 1);
      if e.attempts >= MAX_ATTEMPTS {
        e := e.(status := Dlq);
      } else {
        e := e.(status := Pending, nextAt := clock + SECOND * RETRY_SCHEDULE_SECONDS[e.attempts], setAt := clock);
      }
      entries := entries[i := e];
      return Some(e.status);
    }

    /** An operator's retry: only a dead-lettered or delivered entry goes back to the queue. */
    method RetryEntry(i: nat) returns (accepted: bool)
      modifies this`entries
      ensures accepted <==> i < |old(entries)| && (old(entries)[i].status.Dlq? || old(entries)[i].status.Delivered?)
      ensures View() == Apply(old(View()), AdminRetry(i))
      ensures !accepted ==> entries == old(entries)
      ensures accepted ==>
                entries == old(entries)[i := entries[i]] && entries[i].status.Pending? && entries[i].attempts == 0
                && entries[i].nextAt == clock && entries[i].txn == old(entries)[i].txn
                && entries[i].payload == old(entries)[i].payload
    {
      if |entries| <= i { return false; }
      if !entries[i].status.Dlq? && !entries[i].status.Delivered? { return false; }
      entries := entries[i := entries[i].(status := Pending, attempts := 0, nextAt := clock, since := clock,
                                          setAt := clock)];
      return true;
    }

    /** Other handlers at work between two steps of the drain. */
    method Elsewhere(events: seq<Event>)
      requires Foreign(events) && BoxOk(View())
      modifies this`entries, this`clock
      ensures View() == Run(old(View()), events) && BoxOk(View())
    {
      var k := 0;
      assert events[0..] == events;
      while k < |events|
        invariant 0 <= k <= |events|
        invariant BoxOk(View()) && drain == old(drain)
        invariant Run(View(), events[k..]) == Run(old(View()), events)
      {
        ghost var here := View();
        match events[k] {
          case Tick(elapsed) => clock := clock + elapsed;
          case Enqueue(txn, payload) => Enqueue(txn, payload);
          case AdminRetry(i) => var _ := RetryEntry(i);
        }
        ApplyKeepsBox(here, events[k]);
        assert View() == Apply(here, events[k]);
        assert events[k..][0] == events[k] && events[k..][1..] == events[k + 1..];
        k := k + 1;
      }
    }

    /** One claimed entry: load it, post it, record the answer. */
    method PostOne(turn: Turn) returns (verdict: Verdict)
      requires BoxOk(View()) && drain != []
      requires Foreign(turn.before) && Foreign(turn.during)
      modifies this
      ensures BoxOk(View()) && drain == old(drain)[1..] && old(drain)[0] < |entries|
      ensures View() == Run(old(View()), Steps(turn))
      ensures verdict.VDelivered? <==> turn.outcome.Posted?
      ensures match verdict
              case VDelivered => entries[old(drain)[0]].status.Delivered?
              case VFailed => entries[old(drain)[0]].status.Pending?
              case VDlq => entries[old(drain)[0]].status.Dlq?
    {
      var i := drain[0];
      Elsewhere(turn.before);
      if |entries| <= i || !entries[i].status.InFlight? {
        assert false;
      }
      Elsewhere(turn.during);
      RunConcat(old(View()), turn.before, turn.during);
      ghost var here := View();
      assert EntryOk(entries[i], clock);
      if turn.outcome.Refused? {
        var now := MarkFailed(i);
        verdict := if now == Some(Dlq) then VDlq else VFailed;
      } else {
        MarkDelivered(i);
        verdict := VDelivered;
      }
      drain := drain[1..];
      var step := Process(turn.outcome);
      assert View() == Apply(here, step);
      ApplyKeepsBox(here, step);
      RunOne(here, step);
      RunConcat(old(View()), turn.before + turn.during, [step]);
    }

    /** Every claimed entry in turn. */
    method PostAll(claimed: nat, turns: nat -> Turn, ghost start: Box, ghost claim: Event)
      returns (delivered: nat, failed: nat, dlq: nat)
      requires BoxOk(View()) && |drain| == claimed && View() == Run(start, PassSteps(claim, turns, 0))
      requires forall k :: Foreign(turns(k).before) && Foreign(turns(k).during)
      modifies this
      ensures BoxOk(View()) && drain == []
      ensures claimed == delivered + failed + dlq && delivered == CountPosted(turns, claimed)
      ensures View() == Run(start, PassSteps(claim, turns, claimed))
    {
      hide BoxOk, Apply, EntryOk;
      delivered, failed, dlq := 0, 0, 0;
      var k := 0;
      while k < claimed
        invariant 0 <= k <= claimed == k + |drain|
        invariant BoxOk(View())
        invariant View() == Run(start, PassSteps(claim, turns, k))
        invariant k == delivered + failed + dlq && delivered == CountPosted(turns, k)
      {
        var verdict := PostOne(turns(k));
        match verdict {
          case VDelivered => delivered := delivered + 1;
          case VFailed => failed := failed + 1;
          case VDlq => dlq := dlq + 1;
        }
        NextTurn(start, claim, turns, k);
        k := k + 1;
      }
    }

    /** One drain pass.  Whatever other handlers do between its writes, every claimed entry is accounted for
        exactly once, and the pass is a run of the table's own steps. */
    method DrainOnce(batch: nat, turns: nat -> Turn)
      returns (claimed: nat, delivered: nat, failed: nat, dlq: nat, ghost pick: seq<nat>)
      requires BoxOk(View()) && drain == []
      requires forall k :: Foreign(turns(k).before) && Foreign(turns(k).during)
      modifies this
      ensures BoxOk(View()) && drain == []
      ensures claimed == delivered + failed + dlq
      ensures delivered == CountPosted(turns, claimed)
      ensures claimed == |pick| && IsSelection(old(entries), old(clock), batch, pick)
      ensures View() == Run(old(View()), PassSteps(Claim(batch, pick), turns, claimed))
    {
      ghost var start := View();
      var ids := ClaimDue(batch);
      claimed, pick := |ids|, ids;
      RunOne(start, Claim(batch, ids));
      delivered, failed, dlq := PostAll(|ids|, turns, start, Claim(batch, ids));
    }
  }

  lemma ClaimedNext(entries: seq<Entry>, ids: seq<nat>, k: nat)
    requires k < |ids| && ids[k] < |entries|
    ensures var now := Claimed(entries, ids[..k]);
            now[ids[k] := now[ids[k]].(status := InFlight)] == Claimed(entries, ids[..k + 1])
  {
    assert ids[..k + 1] == ids[..k] + [ids[k]];
  }

  function Steps(turn: Turn): seq<Event> {
    turn.before + turn.during + [Process(turn.outcome)]
  }

  /** The claim, then n turns. */
  function PassSteps(claim: Event, turns: nat -> Turn, n: nat): seq<Event> {
    if n == 0 then [claim] else PassSteps(claim, turns, n - 1) + Steps(turns(n - 1))
  }

  lemma NextTurn(b: Box, claim: Event, turns: nat -> Turn, n: nat)
    ensures Run(b, PassSteps(claim, turns, n + 1)) == Run(Run(b, PassSteps(claim, turns, n)), Steps(turns(n)))
  {
    RunConcat(b, PassSteps(claim, turns, n), Steps(turns(n)));
  }

  lemma RunOne(b: Box, e: Event)
    ensures Run(b, [e]) == Apply(b, e)
  {
    assert [e][1..] == [];
    assert Run(Apply(b, e), []) == Apply(b, e);
  }

  function CountPosted(turns: nat -> Turn, n: nat): nat {
    if n == 0 then 0 else CountPosted(turns, n - 1) + (if turns(n - 1).outcome.Posted? then 1 else 0)
  }

  lemma {:induction false} RunConcat(b: Box, xs: seq<Event>, ys: seq<Event>)
    ensures Run(b, xs + ys) == Run(Run(b, xs), ys)
    decreases |xs|
  {
    if xs == [] {
      assert xs + ys == ys;
    } else {
      assert (xs + ys)[1..] == xs[1..] + ys;
      RunConcat(Apply(b, xs[0]), xs[1..], ys);
    }
  }
}
