/** Till sessions: the running tallies and the close. */
module TillSessions {
  import opened PosTypes
  import opened Store

  const DENOMINATIONS: seq<(string, int)> :=
    [("hundred", 10000), ("fifty", 5000), ("twenty", 2000), ("ten", 1000), ("five", 500),
     ("one", 100), ("quarter", 25), ("dime", 10), ("nickel", 5), ("penny", 1)]

  predicate KnownDenomination(key: string) {
    exists k :: 0 <= k < |DENOMINATIONS| && DENOMINATIONS[k].0 == key
  }

  function CountOf(counts: map<string, int>, key: string): int {
    if key in counts then counts[key] else 0
  }

  /** The value of the first `n` denominations. */
  function CentsUpTo(counts: map<string, int>, n: nat): int
    requires n <= |DENOMINATIONS|
  {
    if n == 0 then 0
    else CentsUpTo(counts, n - 1) + CountOf(counts, DENOMINATIONS[n - 1].0) * DENOMINATIONS[n - 1].1
  }

  /** What a count sheet is worth, in cents. */
  function SheetValue(counts: map<string, int>): int {
    10000 * CountOf(counts, "hundred") + 5000 * CountOf(counts, "fifty") + 2000 * CountOf(counts, "twenty")
    + 1000 * CountOf(counts, "ten") + 500 * CountOf(counts, "five") + 100 * CountOf(counts, "one")
    + 25 * CountOf(counts, "quarter") + 10 * CountOf(counts, "dime") + 5 * CountOf(counts, "nickel")
    + CountOf(counts, "penny")
  }

  lemma SheetValueIs(counts: map<string, int>)
    ensures |DENOMINATIONS| == 10 && CentsUpTo(counts, 10) == SheetValue(counts)
  {
    assert CentsUpTo(counts, 1) == CentsUpTo(counts, 0) + CountOf(counts, "hundred") * 10000;
    assert CentsUpTo(counts, 2) == CentsUpTo(counts, 1) + CountOf(counts, "fifty") * 5000;
    assert CentsUpTo(counts, 3) == CentsUpTo(counts, 2) + CountOf(counts, "twenty") * 2000;
    assert CentsUpTo(counts, 4) == CentsUpTo(counts, 3) + CountOf(counts, "ten") * 1000;
    assert CentsUpTo(counts, 5) == CentsUpTo(counts, 4) + CountOf(counts, "five") * 500;
    assert CentsUpTo(counts, 6) == CentsUpTo(counts, 5) + CountOf(counts, "one") * 100;
    assert CentsUpTo(counts, 7) == CentsUpTo(counts, 6) + CountOf(counts, "quarter") * 25;
    assert CentsUpTo(counts, 8) == CentsUpTo(counts, 7) + CountOf(counts, "dime") * 10;
    assert CentsUpTo(counts, 9) == CentsUpTo(counts, 8) + CountOf(counts, "nickel") * 5;
    assert CentsUpTo(counts, 10) == CentsUpTo(counts, 9) + CountOf(counts, "penny") * 1;
  }

  const NAMES: set<string> :=
    {"hundred", "fifty", "twenty", "ten", "five", "one", "quarter", "dime", "nickel", "penny"}

  lemma KnownDenominationIs(key: string)
    ensures KnownDenomination(key) <==> key in NAMES
  {
    if key in NAMES {
      assert DENOMINATIONS[0].0 == "hundred" && DENOMINATIONS[1].0 == "fifty" && DENOMINATIONS[2].0 == "twenty"
          && DENOMINATIONS[3].0 == "ten" && DENOMINATIONS[4].0 == "five" && DENOMINATIONS[5].0 == "one"
          && DENOMINATIONS[6].0 == "quarter" && DENOMINATIONS[7].0 == "dime" && DENOMINATIONS[8].0 == "nickel"
          && DENOMINATIONS[9].0 == "penny";
    }
  }

  /** Why a count sheet is refused: an unknown denomination comes before a negative count. */
  ghost function SheetError(counts: map<string, int>): Option<Error> {
    if exists key :: key in counts && key !in NAMES then Some(UnknownDenomination)
    else if exists key :: key in counts && counts[key] < 0 then Some(NegativeCount)
    else None
  }

  lemma SheetErrorByTable(counts: map<string, int>)
    ensures SheetError(counts)
         == if exists key :: key in counts && !KnownDenomination(key) then Some(UnknownDenomination)
            else if exists key :: key in counts && counts[key] < 0 then Some(NegativeCount)
            else None
  {
    hide KnownDenomination;
    forall key ensures KnownDenomination(key) <==> key in NAMES {
      KnownDenominationIs(key);
    }
  }

  /** The cents in a count sheet, or why it is refused. */
  method DenominationsToCents(counts: map<string, int>) returns (cents: Option<int>, error: Option<Error>)
    ensures error == SheetError(counts)
    ensures error.None? <==> cents.Some?
    ensures cents.Some? ==> cents.value == SheetValue(counts) && 0 <= cents.value
  {
    SheetErrorByTable(counts);
    SheetValueIs(counts);
    hide SheetError, SheetValue;
    if key :| key in counts && !KnownDenomination(key) {
      return None, Some(UnknownDenomination);
    }
    var total := 0;
    for k := 0 to |DENOMINATIONS|
      invariant forall j :: 0 <= j < k ==> 0 <= CountOf(counts, DENOMINATIONS[j].0)
      invariant total == CentsUpTo(counts, k) && 0 <= total
    {
      var name, value := DENOMINATIONS[k].0, DENOMINATIONS[k].1;
      var qty := CountOf(counts, name);
      if qty < 0 {
        assert name in counts && counts[name] < 0;
        return None, Some(NegativeCount);
      }
      assert 0 <= qty * value;
      total := total + qty * value;
    }
    forall key | key in counts ensures 0 <= counts[key] {
      var k :| 0 <= k < |DENOMINATIONS| && DENOMINATIONS[k].0 == key;
      assert CountOf(counts, DENOMINATIONS[k].0) == counts[key];
    }
    return Some(total), None;
  }

  predicate IsOpenFor(sessions: Sessions, sid: SessionId, cashier: string) {
    sid in sessions && sessions[sid].status.Open? && sessions[sid].cashier == cashier
  }

  /** The cashier's open session, if any. */
  ghost function OpenSession(sessions: Sessions, cashier: string): Option<SessionId> {
    if sid :| IsOpenFor(sessions, sid, cashier) then Some(sid) else None
  }

  /** What is found is an open session of that cashier, and nothing is found only if there is none. */
  lemma OpenSessionFound(sessions: Sessions, cashier: string)
    ensures var found := OpenSession(sessions, cashier);
            && (found.Some? ==> found.value in sessions && sessions[found.value].status.Open?
                                && sessions[found.value].cashier == cashier)
            && (found.None? ==> forall sid :: sid in sessions && sessions[sid].status.Open? ==>
                                  sessions[sid].cashier != cashier)
  {
    var found := OpenSession(sessions, cashier);
    if found.Some? {
      assert IsOpenFor(sessions, found.value, cashier);
    } else {
      forall sid | sid in sessions && sessions[sid].status.Open? ensures sessions[sid].cashier != cashier {
        assert !IsOpenFor(sessions, sid, cashier);
      }
    }
  }

  /** The unique index on open sessions. */
  ghost predicate OneOpenPerCashier(sessions: Sessions) {
    forall a, b, cashier :: IsOpenFor(sessions, a, cashier) && IsOpenFor(sessions, b, cashier) ==> a == b
  }

  ghost function OpenTill(s: State, sid: SessionId, cashier: string, openingFloat: int): (State, Reply) {
    if OpenSession(s.sessions, cashier).Some? then (s, Rejected(AlreadyOpen))
    else if sid in s.sessions then (s, Rejected(DuplicateKey))
    else
      (s.(sessions := s.sessions[sid :=
          Till(cashier, s.config.station, Open, openingFloat, 0, 0, 0, 0, None, None, None)]), Accepted)
  }

  function Expected(t: Till): int { t.openingFloat + t.cashSales - t.cashRefunds }

  function ClosedTill(t: Till, count: int): Till {
    t.(status := Closed, closingCount := Some(count), expectedClosing := Some(Expected(t)),
       variance := Some(count - Expected(t)))
  }

  ghost function CloseTill(s: State, cashier: string, count: int): (State, Reply) {
    match OpenSession(s.sessions, cashier)
    case None => (s, Rejected(NoOpenSession))
    case Some(sid) => (s.(sessions := s.sessions[sid := ClosedTill(s.sessions[sid], count)]), Accepted)
  }

  function Tallied(t: Till, row: Txn, isRefund: bool): Till {
    var t := t.(transactionCount := t.transactionCount + 1);
    if row.payment != Some(Cash) then t
    else
      var t := t.(cashTransactionCount := t.cashTransactionCount + 1);
      if isRefund then t.(cashRefunds := t.cashRefunds + row.total) else t.(cashSales := t.cashSales + row.total)
  }

  function StampedWith(s: State, id: TxnId, sid: SessionId, isRefund: bool): State
    requires id in s.rows && sid in s.sessions
  {
    SetRow(s.(sessions := s.sessions[sid := Tallied(s.sessions[sid], s.rows[id], isRefund)]),
           id, s.rows[id].(session := Some(sid)))
  }

  /** Stamp the row with its cashier's open session and add it to that session's tallies; with no open
      session the row stays unstamped. */
  ghost function Attribute(s: State, id: TxnId, isRefund: bool): State
    requires id in s.rows
  {
    match OpenSession(s.sessions, s.rows[id].cashier)
    case None => s
    case Some(sid) => StampedWith(s, id, sid, isRefund)
  }
}
