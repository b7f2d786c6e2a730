/** The Fabric outbox table and its drain worker: bounded retries on a backoff schedule.

    Entries are appended and never deleted, so an entry's identifier is its position.  `since` records when
    the entry was enqueued or last reset by an operator, `setAt` when it was last enqueued, reset or refused; they are
    history the timing results are stated with.
    The clock counts microseconds; `created_at` is truncated to whole seconds, as the database does. */
module FabricOutbox {
  import opened PosTypes

  const SECOND: int := 1_000_000
  const RETRY_SCHEDULE_SECONDS: seq<int> := [0, 4, 15, 60, 300, 1800, 7200, 43200]
  const MAX_ATTEMPTS: nat := 8

  datatype EntryStatus = Pending | InFlight | Delivered | Dlq

  datatype Entry = Entry(txn: TxnId, payload: Payload, status: EntryStatus, attempts: nat,
                         nextAt: int, createdAt: int, since: int, setAt: int)

  /** The table, the clock, and the claimed entries the one drain loop has still to post. */
  datatype Box = Box(entries: seq<Entry>, clock: int, drain: seq<nat>)

  datatype Outcome = Posted | Refused

  datatype Event =
    | Tick(elapsed: nat)
    | Enqueue(txn: TxnId, payload: Payload)
    | Claim(batch: nat, pick: seq<nat>)
    | Process(outcome: Outcome)
    | AdminRetry(entry: nat)

  predicate Due(e: Entry, clock: int) { e.status.Pending? && e.nextAt <= clock }

  /** `pick` answers the claim query: due entries, oldest first, at most `batch` of them.  Rows created in the
      same second come in any order. */
  ghost predicate IsSelection(entries: seq<Entry>, clock: int, batch: nat, pick: seq<nat>) {
    && |pick| <= batch
    && (forall k :: 0 <= k < |pick| ==> pick[k] < |entries| && Due(entries[pick[k]], clock))
    && (forall j, k :: 0 <= j < k < |pick| ==>
          pick[j] != pick[k] && entries[pick[j]].createdAt <= entries[pick[k]].createdAt)
    && (forall i :: 0 <= i < |entries| && i !in pick && Due(entries[i], clock) ==>
          |pick| == batch && forall k :: 0 <= k < |pick| ==> entries[pick[k]].createdAt <= entries[i].createdAt)
  }

  function NewEntry(txn: TxnId, payload: Payload, clock: int): Entry {
    Entry(txn, payload, Pending, 0, clock, clock / SECOND, clock, clock)
  }

  function Claimed(entries: seq<Entry>, pick: seq<nat>): (r: seq<Entry>)
    ensures |r| == |entries|
  {
    seq(|entries|, i requires 0 <= i < |entries| =>
      if i in pick then entries[i].(status := InFlight) else entries[i])
  }

  function Failed(e: Entry, clock: int): Entry {
    if e.attempts + 1 >= MAX_ATTEMPTS then e.(attempts := e.attempts + 1, status := Dlq)
    else e.(attempts := e.attempts + 1, status := Pending,
            nextAt := clock + SECOND * RETRY_SCHEDULE_SECONDS[e.attempts + 1], setAt := clock)
  }

  function Marked(e: Entry, outcome: Outcome, clock: int): Entry {
    if outcome.Posted? then e.(status := Delivered) else Failed(e, clock)
  }

  function Reset(e: Entry, clock: int): Entry {
    e.(status := Pending, attempts := 0, nextAt := clock, since := clock, setAt := clock)
  }

  predicate Resettable(b: Box, i: nat) {
    i < |b.entries| && (b.entries[i].status.Dlq? || b.entries[i].status.Delivered?)
  }

  /** One atomic step; a step whose guard fails changes nothing. */
  ghost function Apply(b: Box, e: Event): Box {
    match e
    case Tick(elapsed) => b.(clock := b.clock + elapsed)
    case Enqueue(txn, payload) => b.(entries := b.entries + [NewEntry(txn, payload, b.clock)])
    case Claim(batch, pick) =>
      if b.drain == [] && IsSelection(b.entries, b.clock, batch, pick)
      then b.(entries := Claimed(b.entries, pick), drain := pick)
      else b
    case Process(outcome) =>
      if b.drain == [] then b
      else
        var i := b.drain[0];
        if i < |b.entries| && b.entries[i].status.InFlight?
        then b.(entries := b.entries[i := Marked(b.entries[i], outcome, b.clock)], drain := b.drain[1..])
        else b.(drain := b.drain[1..])
    case AdminRetry(i) =>
      if Resettable(b, i) then b.(entries := b.entries[i := Reset(b.entries[i], b.clock)]) else b
  }

  ghost function Run(b: Box, events: seq<Event>): Box
    decreases |events|
  {
    if events == [] then b else Run(Apply(b, events[0]), events[1..])
  }

  // ---- what every reachable table satisfies ----

  /** Seconds of scheduled waiting before attempt `attempts + 1`. */
  function Wait(attempts: nat): int
    requires attempts < MAX_ATTEMPTS
  {
    if attempts == 0 then 0 else Wait(attempts - 1) + RETRY_SCHEDULE_SECONDS[attempts]
  }

  /** Seconds to wait after so many failures: none at first, then 4 s, 15 s, 1 min, 5 min, 30 min, 2 h, 12 h. */
  function PublishedDelay(failures: nat): int {
    match failures
    case 1 => 4
    case 2 => 15
    case 3 => 60
    case 4 => 5 * 60
    case 5 => 30 * 60
    case 6 => 2 * 3600
    case 7 => 12 * 3600
    case _ => 0
  }

  /** The least number of seconds from enqueue or reset to the attempt after so many failures. */
  function PublishedWait(failures: nat): int {
    match failures
    case 0 => 0
    case 1 => 4
    case 2 => 19
    case 3 => 79
    case 4 => 379
    case 5 => 2179
    case 6 => 9379
    case _ => 52579
  }

  lemma WaitsAreAsPublished(failures: nat)
    requires failures < 8
    ensures MAX_ATTEMPTS == 8 && SECOND == 1_000_000
    ensures RETRY_SCHEDULE_SECONDS[failures] == PublishedDelay(failures) && Wait(failures) == PublishedWait(failures)
  {
    assert Wait(1) == 4;
    assert Wait(2) == 19;
    assert Wait(3) == 79;
    assert Wait(4) == 379;
    assert Wait(5) == 2179;
    assert Wait(6) == 9379;
  }

  predicate EntryOk(e: Entry, clock: int) {
    && e.since <= e.setAt <= clock && e.createdAt * SECOND <= clock
    && (e.status.Pending? ==> e.nextAt == e.setAt + 1_000_000 * PublishedDelay(e.attempts))
    && (e.attempts == 0 ==> e.setAt == e.since)
    && (e.status.Dlq? <==> e.attempts >= MAX_ATTEMPTS)
    && e.attempts <= MAX_ATTEMPTS
    && (e.status.Pending? ==> e.nextAt >= e.since + SECOND * Wait(e.attempts))
    && (e.status.InFlight? ==> clock >= e.since + SECOND * Wait(e.attempts))
    && (e.status.Dlq? ==> clock >= e.since + SECOND * Wait(MAX_ATTEMPTS - 1))
  }

  ghost predicate BoxOk(b: Box) {
    && (forall i :: 0 <= i < |b.entries| ==> EntryOk(b.entries[i], b.clock))
    && (forall k :: 0 <= k < |b.drain| ==> b.drain[k] < |b.entries| && b.entries[b.drain[k]].status.InFlight?)
    && (forall j, k :: 0 <= j < k < |b.drain| ==> b.drain[j] != b.drain[k])
    && (forall i :: 0 <= i < |b.entries| && b.entries[i].status.InFlight? ==> i in b.drain)
  }

  lemma TickKeeps(b: Box, elapsed: nat)
    requires BoxOk(b)
    ensures BoxOk(b.(clock := b.clock + elapsed))
  {
    forall i | 0 <= i < |b.entries| ensures EntryOk(b.entries[i], b.clock + elapsed) {
      assert EntryOk(b.entries[i], b.clock);
    }
  }

  lemma ClaimKeeps(b: Box, batch: nat, pick: seq<nat>)
    requires BoxOk(b) && b.drain == [] && IsSelection(b.entries, b.clock, batch, pick)
    ensures BoxOk(b.(entries := Claimed(b.entries, pick), drain := pick))
  {
    var after := Claimed(b.entries, pick);
    forall i | 0 <= i < |after| ensures EntryOk(after[i], b.clock) && (after[i].status.InFlight? ==> i in pick) {
      assert EntryOk(b.entries[i], b.clock);
      if i in pick {
        var k :| 0 <= k < |pick| && pick[k] == i;
        assert Due(b.entries[i], b.clock);
      }
    }
  }

  lemma MarkKeeps(e: Entry, outcome: Outcome, clock: int)
    requires EntryOk(e, clock) && e.status.InFlight?
    ensures EntryOk(Marked(e, outcome, clock), clock) && !Marked(e, outcome, clock).status.InFlight?
  {
    if e.attempts < 7 {
      WaitsAreAsPublished(e.attempts + 1);
    }
  }

  lemma ProcessKeeps(b: Box, outcome: Outcome)
    requires BoxOk(b) && b.drain != []
    ensures BoxOk(Apply(b, Process(outcome)))
  {
    var i := b.drain[0];
    MarkKeeps(b.entries[i], outcome, b.clock);
    var after := Apply(b, Process(outcome));
    assert after.drain == b.drain[1..];
    assert forall j :: 0 <= j < |b.entries| && j != i ==> after.entries[j] == b.entries[j];
    forall j | 0 <= j < |after.entries| && after.entries[j].status.InFlight? ensures j in after.drain {
      assert j in b.drain;
    }
  }

  lemma ApplyKeepsBox(b: Box, e: Event)
    requires BoxOk(b)
    ensures BoxOk(Apply(b, e))
  {
    match e
    case Tick(elapsed) => TickKeeps(b, elapsed);
    case Claim(batch, pick) =>
      if b.drain == [] && IsSelection(b.entries, b.clock, batch, pick) {
        ClaimKeeps(b, batch, pick);
      }
    case Process(outcome) =>
      if b.drain != [] {
        ProcessKeeps(b, outcome);
      }
    case _ =>
  }

  lemma {:induction false} RunKeepsBox(b: Box, events: seq<Event>)
    requires BoxOk(b)
    ensures BoxOk(Run(b, events))
    decreases |events|
  {
    if events != [] {
      ApplyKeepsBox(b, events[0]);
      RunKeepsBox(Apply(b, events[0]), events[1..]);
    }
  }

  /** The table is append-only: what an entry carries never changes, and only an operator's retry
      restarts its history. */
  ghost predicate Extends(before: Box, after: Box) {
    && |before.entries| <= |after.entries|
    && before.clock <= after.clock
    && (forall i :: 0 <= i < |before.entries| ==>
          && after.entries[i].txn == before.entries[i].txn
          && after.entries[i].payload == before.entries[i].payload
          && after.entries[i].createdAt == before.entries[i].createdAt)
  }

  lemma ApplyExtends(b: Box, e: Event)
    ensures Extends(b, Apply(b, e))
  {
  }

  lemma {:induction false} RunExtends(b: Box, events: seq<Event>)
    ensures Extends(b, Run(b, events))
    decreases |events|
  {
    if events != [] {
      ApplyExtends(b, events[0]);
      RunExtends(Apply(b, events[0]), events[1..]);
    }
  }

  // ---- backoff ----

  predicate NoResetOf(i: nat, events: seq<Event>) {
    forall k :: 0 <= k < |events| ==> events[k] != AdminRetry(i)
  }

  lemma {:induction false} HistoryKept(b: Box, events: seq<Event>, i: nat)
    requires i < |b.entries| && NoResetOf(i, events)
    ensures i < |Run(b, events).entries| && Run(b, events).entries[i].since == b.entries[i].since
    decreases |events|
  {
    if events != [] {
      ApplyExtends(b, events[0]);
      HistoryKept(Apply(b, events[0]), events[1..], i);
    }
  }

  /** Attempt k of an entry comes no earlier than its enqueue or reset time plus the first k - 1 scheduled
      waits, on every schedule of drains: `attempts` counts the failures so far, so attempt k is the claim made
      while `attempts == k - 1`. */
  lemma {:induction false} AttemptNotBeforeSchedule(b: Box, events: seq<Event>, i: nat, batch: nat, pick: seq<nat>)
    requires BoxOk(b) && i < |b.entries| && NoResetOf(i, events)
    requires b.entries[i].since == b.clock
    requires Run(b, events).drain == []
    requires IsSelection(Run(b, events).entries, Run(b, events).clock, batch, pick) && i in pick
    ensures i < |Run(b, events).entries| && Run(b, events).entries[i].attempts < MAX_ATTEMPTS
    ensures Run(b, events).clock - b.clock >= 1_000_000 * PublishedWait(Run(b, events).entries[i].attempts)
  {
    RunKeepsBox(b, events);
    WaitsAreAsPublished(Run(b, events).entries[i].attempts);
    HistoryKept(b, events, i);
    var k :| 0 <= k < |pick| && pick[k] == i;
    assert Due(Run(b, events).entries[i], Run(b, events).clock);
  }

  /** No entry can be dead-lettered in less than 52579 seconds (14.6 hours) after enqueue or reset. */
  lemma {:induction false} DlqNotBeforeWindow(b: Box, events: seq<Event>, i: nat)
    requires BoxOk(b) && i < |b.entries| && NoResetOf(i, events)
    requires b.entries[i].since == b.clock
    ensures i < |Run(b, events).entries|
    ensures Run(b, events).entries[i].status.Dlq? ==>
              Run(b, events).entries[i].attempts == 8 && Run(b, events).clock - b.clock >= 52579 * 1_000_000
  {
    RunKeepsBox(b, events);
    HistoryKept(b, events, i);
    WaitsAreAsPublished(7);
  }

  // ---- exactly when ----

  /** An entry waiting to be posted is due exactly the published delay after it was last enqueued, reset or refused. */
  lemma DueAsPublished(b: Box, i: nat)
    requires BoxOk(b) && i < |b.entries| && b.entries[i].status.Pending?
    ensures b.entries[i].setAt <= b.clock
    ensures b.entries[i].nextAt == b.entries[i].setAt + 1_000_000 * PublishedDelay(b.entries[i].attempts)
    ensures b.entries[i].attempts == 0 ==> b.entries[i].nextAt == b.entries[i].setAt == b.entries[i].since
    ensures Due(b.entries[i], b.clock) <==>
              b.clock - b.entries[i].setAt >= 1_000_000 * PublishedDelay(b.entries[i].attempts)
  {
    assert EntryOk(b.entries[i], b.clock);
  }

  /** What each step does to an entry, in numbers: a refused post counts one failure and, short of the eighth, sets the
      next attempt the published delay from now; an operator's reset makes it due now; nothing else moves its due time,
      its count of failures, or the time that was set. */
  lemma ScheduleStep(b: Box, e: Event, i: nat)
    requires BoxOk(b) && i < |b.entries|
    ensures i < |Apply(b, e).entries|
    ensures var before, after := b.entries[i], Apply(b, e).entries[i];
            if e == Process(Refused) && b.drain != [] && b.drain[0] == i then
              && after.attempts == before.attempts + 1 && after.since == before.since
              && (if after.attempts == 8 then after.status.Dlq?
                  else after.status.Pending? && after.setAt == b.clock
                       && after.nextAt == b.clock + 1_000_000 * PublishedDelay(after.attempts))
            else if e == AdminRetry(i) && (before.status.Dlq? || before.status.Delivered?) then
              after.status.Pending? && after.attempts == 0 && after.nextAt == after.setAt == after.since == b.clock
            else
              && after.attempts == before.attempts && after.nextAt == before.nextAt
              && after.setAt == before.setAt && after.since == before.since
  {
    assert EntryOk(b.entries[i], b.clock);
    if e == Process(Refused) && b.drain != [] && b.drain[0] == i && b.entries[i].attempts < 7 {
      WaitsAreAsPublished(b.entries[i].attempts + 1);
    }
  }

  /** A new entry waits, due at once, with no failures. */
  lemma EnqueueStep(b: Box, txn: TxnId, payload: Payload)
    ensures var after, n := Apply(b, Enqueue(txn, payload)), |b.entries|;
            && |after.entries| == n + 1 && after.entries[..n] == b.entries && after.clock == b.clock
            && var e := after.entries[n];
               && e.txn == txn && e.payload == payload && e.status.Pending? && e.attempts == 0
               && e.nextAt == e.setAt == e.since == b.clock
               && 1_000_000 * e.createdAt <= b.clock < 1_000_000 * (e.createdAt + 1)
  {
  }
}
