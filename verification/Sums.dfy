/** Finite sums over sets and over the values of a map, and how they move when one element does. */
module Sums {

  function Members(xs: seq<nat>): set<nat> {
    set x | x in xs
  }

  ghost function SumSet(xs: set<nat>, f: nat -> int): int {
    if xs == {} then 0
    else
      var x :| x in xs;
      f(x) + SumSet(xs - {x}, f)
  }

  lemma {:induction false} SumSetSplit(xs: set<nat>, f: nat -> int, y: nat)
    requires y in xs
    ensures SumSet(xs, f) == f(y) + SumSet(xs - {y}, f)
    decreases |xs|
  {
    var x :| x in xs && SumSet(xs, f) == f(x) + SumSet(xs - {x}, f);
    if x != y {
      SumSetSplit(xs - {x}, f, y);
      SumSetSplit(xs - {y}, f, x);
      assert xs - {x} - {y} == xs - {y} - {x};
    }
  }

  /** If every term of `f` pays for the matching term of `g` plus one for each member of `hits`,
      the sum of `f` pays for the sum of `g` plus the number of hits. */
  lemma {:induction false} SumSetPays(xs: set<nat>, f: nat -> int, g: nat -> int, hits: set<nat>)
    requires forall x :: x in xs ==> g(x) + (if x in hits then 1 else 0) <= f(x)
    ensures SumSet(xs, g) + |xs * hits| <= SumSet(xs, f)
    decreases |xs|
  {
    if xs == {} {
      assert xs * hits == {};
    } else {
      var x :| x in xs;
      SumSetSplit(xs, f, x);
      SumSetSplit(xs, g, x);
      SumSetPays(xs - {x}, f, g, hits);
      if x in hits {
        assert xs * hits == (xs - {x}) * hits + {x};
      } else {
        assert xs * hits == (xs - {x}) * hits;
      }
    }
  }

  /** Terms that are zero may be left out. */
  lemma {:induction false} SumSetSupport(xs: set<nat>, f: nat -> int, live: set<nat>)
    requires forall x :: x in xs && x !in live ==> f(x) == 0
    ensures SumSet(xs, f) == SumSet(xs * live, f)
    decreases |xs|
  {
    if xs == {} {
      assert xs * live == {};
    } else {
      var x :| x in xs;
      SumSetSplit(xs, f, x);
      SumSetSupport(xs - {x}, f, live);
      if x in live {
        SumSetSplit(xs * live, f, x);
        assert xs * live - {x} == (xs - {x}) * live;
      } else {
        assert xs * live == (xs - {x}) * live;
      }
    }
  }

  lemma OneMore(cap: nat, n: nat)
    ensures cap * (n + 1) == cap * n + cap
  {
  }

  lemma {:induction false} SumSetBounds(xs: set<nat>, f: nat -> int, cap: nat)
    requires forall x :: x in xs ==> 0 <= f(x) <= cap
    ensures 0 <= SumSet(xs, f) <= cap * |xs|
    decreases |xs|
  {
    if xs == {} {
    } else {
      var x :| x in xs;
      SumSetSplit(xs, f, x);
      SumSetBounds(xs - {x}, f, cap);
      assert |xs| == |xs - {x}| + 1;
      OneMore(cap, |xs - {x}|);
    }
  }

  /** The sum of `f` over the values of a table. */
  ghost function Total<V>(table: map<nat, V>, f: V -> int): int {
    if table == map[] then 0
    else
      var k :| k in table;
      f(table[k]) + Total(table - {k}, f)
  }

  lemma {:induction false} TotalSplit<V>(table: map<nat, V>, f: V -> int, j: nat)
    requires j in table
    ensures Total(table, f) == f(table[j]) + Total(table - {j}, f)
    decreases |table|
  {
    var k :| k in table && Total(table, f) == f(table[k]) + Total(table - {k}, f);
    if k != j {
      TotalSplit(table - {k}, f, j);
      TotalSplit(table - {j}, f, k);
      assert table - {k} - {j} == table - {j} - {k};
    }
  }

  /** Writing one row, old or new, moves the sum by exactly the difference of that row's terms. */
  lemma {:induction false} TotalWrite<V>(table: map<nat, V>, f: V -> int, j: nat, v: V)
    ensures Total(table[j := v], f)
         == Total(table, f) + f(v) - (if j in table then f(table[j]) else 0)
  {
    TotalSplit(table[j := v], f, j);
    assert table[j := v] - {j} == table - {j};
    if j in table {
      TotalSplit(table, f, j);
    } else {
      assert table - {j} == table;
    }
  }

  lemma {:induction false} TotalZero<V>(table: map<nat, V>, f: V -> int)
    requires forall k :: k in table ==> f(table[k]) == 0
    ensures Total(table, f) == 0
    decreases |table|
  {
    if table != map[] {
      var k :| k in table;
      TotalSplit(table, f, k);
      TotalZero(table - {k}, f);
    }
  }

  lemma {:induction false} TotalsAgree<V>(table: map<nat, V>, f: V -> int, g: V -> int)
    requires forall k :: k in table ==> f(table[k]) == g(table[k])
    ensures Total(table, f) == Total(table, g)
    decreases |table|
  {
    if table != map[] {
      var k :| k in table;
      TotalSplit(table, f, k);
      TotalSplit(table, g, k);
      TotalsAgree(table - {k}, f, g);
    }
  }

  lemma {:induction false} TotalsCancel<V>(table: map<nat, V>, f: V -> int, g: V -> int)
    requires forall k :: k in table ==> f(table[k]) + g(table[k]) == 0
    ensures Total(table, f) + Total(table, g) == 0
    decreases |table|
  {
    if table != map[] {
      var k :| k in table;
      TotalSplit(table, f, k);
      TotalSplit(table, g, k);
      TotalsCancel(table - {k}, f, g);
    }
  }

  /** A sum of terms none of which is positive vanishes only if they all do. */
  lemma {:induction false} TotalOfNonPositive<V>(table: map<nat, V>, f: V -> int)
    requires forall k :: k in table ==> f(table[k]) <= 0
    ensures Total(table, f) <= 0
    ensures Total(table, f) == 0 <==> forall k :: k in table ==> f(table[k]) == 0
    decreases |table|
  {
    if table != map[] {
      var j :| j in table;
      TotalSplit(table, f, j);
      var rest := table - {j};
      TotalOfNonPositive(rest, f);
      if forall k :: k in rest ==> f(rest[k]) == 0 {
        forall k | k in table && k != j ensures f(table[k]) == 0 {
          assert k in rest && rest[k] == table[k];
        }
      } else {
        var k :| k in rest && f(rest[k]) != 0;
        assert k in table && table[k] == rest[k];
      }
    }
  }
}
