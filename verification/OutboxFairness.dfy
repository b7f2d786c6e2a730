/** How long an outbox entry can be passed over: the drain claims oldest first, and every claim of an older
    entry uses up one of its eight attempts. */
module OutboxFairness {
  import opened FabricOutbox
  import opened Sums
  import Money

  /** Attempts an entry can still be claimed for; an entry yet to be enqueued has them all. */
  function Credit(entries: seq<Entry>, i: nat): int {
    if |entries| <= i then MAX_ATTEMPTS
    else
      match entries[i].status
      case Pending => MAX_ATTEMPTS - entries[i].attempts
      case InFlight => MAX_ATTEMPTS - 1 - entries[i].attempts
      case _ => 0
  }

  ghost function CreditsOf(b: Box): nat -> int {
    (i: nat) => Credit(b.entries, i)
  }

  ghost function Credits(b: Box, who: set<nat>): int {
    SumSet(who, CreditsOf(b))
  }

  ghost predicate ClaimAccepted(b: Box, e: Event) {
    e.Claim? && b.drain == [] && IsSelection(b.entries, b.clock, e.batch, e.pick)
  }

  ghost function ClaimedBy(b: Box, e: Event): set<nat> {
    if ClaimAccepted(b, e) then Members(e.pick) else {}
  }

  /** Entries created no later than entry `i`, `i` itself excepted. */
  ghost function Rivals(b: Box, i: nat): set<nat>
    requires i < |b.entries|
  {
    set j | 0 <= j < |b.entries| && j != i && b.entries[j].createdAt <= b.entries[i].createdAt
  }

  /** The drain ran while entry `i` was due and did not take it. */
  ghost predicate PassesOver(b: Box, e: Event, i: nat) {
    ClaimAccepted(b, e) && i < |b.entries| && Due(b.entries[i], b.clock) && i !in e.pick
  }

  ghost function Passes(b: Box, events: seq<Event>, i: nat): nat
    decreases |events|
  {
    if events == [] then 0
    else (if PassesOver(b, events[0], i) then 1 else 0) + Passes(Apply(b, events[0]), events[1..], i)
  }

  lemma {:induction false} DistinctCount(pick: seq<nat>)
    requires forall j, k :: 0 <= j < k < |pick| ==> pick[j] != pick[k]
    ensures |Members(pick)| == |pick|
  {
    if pick == [] {
      assert Members(pick) == {};
    } else {
      DistinctCount(pick[1..]);
      assert Members(pick) == Members(pick[1..]) + {pick[0]};
      assert pick[0] !in pick[1..];
    }
  }

  lemma StepPays(b: Box, e: Event, who: set<nat>)
    requires BoxOk(b)
    requires e.AdminRetry? ==> e.entry !in who
    ensures Credits(Apply(b, e), who) + |who * ClaimedBy(b, e)| <= Credits(b, who)
  {
    var after := Apply(b, e);
    var f, g := CreditsOf(b), CreditsOf(after);
    forall i | i in who ensures g(i) + (if i in ClaimedBy(b, e) then 1 else 0) <= f(i) {
      if i < |b.entries| {
        assert EntryOk(b.entries[i], b.clock);
        if i in ClaimedBy(b, e) {
          var k :| 0 <= k < |e.pick| && e.pick[k] == i;
          assert Due(b.entries[i], b.clock);
        }
      }
    }
    SumSetPays(who, f, g, ClaimedBy(b, e));
  }

  /** A drain that leaves a due entry behind filled its whole batch with that entry's rivals. */
  lemma PassTakesRivals(b: Box, e: Event, i: nat, who: set<nat>)
    requires i < |b.entries| && PassesOver(b, e, i) && Rivals(b, i) <= who
    ensures |who * ClaimedBy(b, e)| == e.batch
  {
    forall j | j in ClaimedBy(b, e) ensures j in Rivals(b, i) {
      var k :| 0 <= k < |e.pick| && e.pick[k] == j;
    }
    assert who * ClaimedBy(b, e) == ClaimedBy(b, e);
    DistinctCount(e.pick);
  }

  lemma StepCovers(b: Box, e: Event, i: nat, batch: nat, who: set<nat>)
    requires BoxOk(b) && i < |b.entries| && Rivals(b, i) <= who
    requires e.AdminRetry? ==> e.entry !in who
    requires e.Claim? ==> e.batch == batch
    ensures Credits(Apply(b, e), who) + (if PassesOver(b, e, i) then batch else 0) <= Credits(b, who)
  {
    StepPays(b, e, who);
    if PassesOver(b, e, i) {
      PassTakesRivals(b, e, i, who);
    }
  }

  /** The places taken by others in the drains that passed over entry `i`. */
  ghost function PlacesTaken(b: Box, events: seq<Event>, i: nat, batch: nat): nat
    decreases |events|
  {
    if events == [] then 0
    else (if PassesOver(b, events[0], i) then batch else 0) + PlacesTaken(Apply(b, events[0]), events[1..], i, batch)
  }

  lemma OneMore(x: nat, y: nat)
    ensures (1 + x) * y == y + x * y
    ensures (0 + x) * y == x * y
  {
  }

  lemma {:induction false} PlacesArePasses(b: Box, events: seq<Event>, i: nat, batch: nat)
    ensures PlacesTaken(b, events, i, batch) == Passes(b, events, i) * batch
    decreases |events|
  {
    if events != [] {
      var next, rest := Apply(b, events[0]), events[1..];
      PlacesArePasses(next, rest, i, batch);
      OneMore(Passes(next, rest, i), batch);
    }
  }

  predicate NoResetAmong(who: set<nat>, events: seq<Event>) {
    forall k :: 0 <= k < |events| && events[k].AdminRetry? ==> events[k].entry !in who
  }

  predicate BatchesOf(batch: nat, events: seq<Event>) {
    forall k :: 0 <= k < |events| && events[k].Claim? ==> events[k].batch == batch
  }

  lemma RivalsGrow(b: Box, after: Box, i: nat)
    requires i < |b.entries| && Extends(b, after)
    ensures Rivals(b, i) <= Rivals(after, i)
  {
  }

  lemma {:induction false} PassesPaidFor(b: Box, events: seq<Event>, i: nat, batch: nat, who: set<nat>)
    requires BoxOk(b) && i < |b.entries|
    requires NoResetAmong(who, events) && BatchesOf(batch, events)
    requires i < |Run(b, events).entries| && Rivals(Run(b, events), i) <= who
    ensures PlacesTaken(b, events, i, batch) + Credits(Run(b, events), who) <= Credits(b, who)
    decreases |events|
  {
    if events != [] {
      var e, next := events[0], Apply(b, events[0]);
      ApplyKeepsBox(b, e);
      ApplyExtends(b, e);
      RunExtends(b, events);
      RivalsGrow(b, Run(b, events), i);
      PassesPaidFor(next, events[1..], i, batch, who);
      StepCovers(b, e, i, batch, who);
    }
  }

  /** Those of `who` that can still take a place: PENDING or IN_FLIGHT, or not enqueued yet. */
  ghost function Live(b: Box, who: set<nat>): set<nat> {
    set j | j in who && (|b.entries| <= j || b.entries[j].status.Pending? || b.entries[j].status.InFlight?)
  }

  /** Bounded bypass.  Over any run of drains with one batch size, interleaved with enqueues, posts and operator
      retries of other entries, an entry is passed over at most 8m / batch times, m being its rivals that are waiting
      or in flight at the start, plus those enqueued during the run. */
  lemma BoundedBypass(b: Box, events: seq<Event>, i: nat, batch: nat)
    requires BoxOk(b) && i < |b.entries| && 0 < batch
    requires BatchesOf(batch, events)
    requires i < |Run(b, events).entries| && NoResetAmong(Rivals(Run(b, events), i), events)
    ensures Passes(b, events, i) <= MAX_ATTEMPTS * |Live(b, Rivals(Run(b, events), i))| / batch
  {
    var who := Rivals(Run(b, events), i);
    var live := Live(b, who);
    PassesPaidFor(b, events, i, batch, who);
    PlacesArePasses(b, events, i, batch);
    RunKeepsBox(b, events);
    forall j | j in who
      ensures 0 <= Credit(b.entries, j) <= MAX_ATTEMPTS && (j !in live ==> Credit(b.entries, j) == 0)
    {
      if j < |b.entries| { assert EntryOk(b.entries[j], b.clock); }
    }
    SumSetSupport(who, CreditsOf(b), live);
    assert who * live == live;
    SumSetBounds(live, CreditsOf(b), MAX_ATTEMPTS);
    SumSetBounds(who, CreditsOf(Run(b, events)), MAX_ATTEMPTS) by {
      forall j | j in who ensures 0 <= Credit(Run(b, events).entries, j) <= MAX_ATTEMPTS {
        assert EntryOk(Run(b, events).entries[j], Run(b, events).clock);
      }
    }
    Quotient(Passes(b, events, i), batch, MAX_ATTEMPTS * |live|);
  }

  /** A rival enqueued during the run was created in the same second as the entry itself, so later business does not
      add to the bound. */
  lemma LateRivalsShareTheSecond(b: Box, events: seq<Event>, i: nat, j: nat)
    requires BoxOk(b) && i < |b.entries| <= j < |Run(b, events).entries|
    requires j in Rivals(Run(b, events), i)
    ensures Run(b, events).entries[j].createdAt == b.entries[i].createdAt
  {
    RunExtends(b, events);
    CreatedSince(b, events, j);
    assert EntryOk(b.entries[i], b.clock);
  }

  lemma {:induction false} CreatedSince(b: Box, events: seq<Event>, j: nat)
    requires |b.entries| <= j < |Run(b, events).entries|
    ensures b.clock / SECOND <= Run(b, events).entries[j].createdAt
    decreases |events|
  {
    if events != [] {
      var next := Apply(b, events[0]);
      ApplyExtends(b, events[0]);
      if j < |next.entries| {
        RunExtends(next, events[1..]);
      } else {
        CreatedSince(next, events[1..], j);
      }
    }
  }

  lemma Quotient(passes: nat, batch: nat, budget: nat)
    requires 0 < batch && passes * batch <= budget
    ensures passes <= budget / batch
  {
    Money.DivMod(budget, batch);
    Money.Scale(budget / batch, passes, batch);
  }

  /** Without operator retries of it, an entry is claimed at most eight times, however long the run. */
  ghost function Claims(b: Box, events: seq<Event>, i: nat): nat
    decreases |events|
  {
    if events == [] then 0
    else (if i in ClaimedBy(b, events[0]) then 1 else 0) + Claims(Apply(b, events[0]), events[1..], i)
  }

  lemma {:induction false} ClaimsPaidFor(b: Box, events: seq<Event>, i: nat)
    requires BoxOk(b) && NoResetAmong({i}, events)
    ensures Claims(b, events, i) + Credit(Run(b, events).entries, i) <= Credit(b.entries, i)
    decreases |events|
  {
    if events != [] {
      var e := events[0];
      ApplyKeepsBox(b, e);
      StepPays(b, e, {i});
      assert {i} - {i} == {};
      SumSetSplit({i}, CreditsOf(b), i);
      SumSetSplit({i}, CreditsOf(Apply(b, e)), i);
      if i in ClaimedBy(b, e) { assert {i} * ClaimedBy(b, e) == {i}; }
      ClaimsPaidFor(Apply(b, e), events[1..], i);
    }
  }

  lemma BoundedRetries(b: Box, events: seq<Event>, i: nat)
    requires BoxOk(b) && NoResetAmong({i}, events)
    ensures Claims(b, events, i) <= MAX_ATTEMPTS
  {
    ClaimsPaidFor(b, events, i);
    RunKeepsBox(b, events);
    if i < |b.entries| { assert EntryOk(b.entries[i], b.clock); }
    if i < |Run(b, events).entries| { assert EntryOk(Run(b, events).entries[i], Run(b, events).clock); }
  }
}
