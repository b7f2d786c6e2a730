/** Cents, tax rates and the two rounding rules: the service rounds a line's tax half to even,
    the register's preview rounds it half up.  Rates and prices are exact fractions. */
module Money {

  datatype Rate = Rate(num: int, den: int)

  predicate ValidRate(r: Rate) { 0 < r.den }

  /** `k` is a nearest integer to `n/d`: at most half a unit away. */
  predicate Near(n: int, d: int, k: int) {
    -d <= 2 * (k * d - n) <= d
  }

  predicate Tie(n: int, d: int)
    requires 0 < d
  {
    2 * (n % d) == d
  }

  function RoundHalfEven(n: int, d: int): int
    requires 0 < d
  {
    var q := n / d;
    var r := n % d;
    if 2 * r < d then q
    else if 2 * r > d then q + 1
    else if q % 2 == 0 then q
    else q + 1
  }

  /** `Math.round`: the floor of `n/d + 1/2`. */
  function RoundHalfUp(n: int, d: int): int
    requires 0 < d
  {
    (2 * n + d) / (2 * d)
  }

  function ComputeLineTax(lineSubtotal: int, rate: Rate, taxable: bool): int
    requires ValidRate(rate)
  {
    if !taxable then 0 else RoundHalfEven(lineSubtotal * rate.num, rate.den)
  }

  // ---- what the rounding rules mean ----

  lemma DivMod(n: int, d: int)
    requires 0 < d
    ensures n == (n / d) * d + n % d && 0 <= n % d < d
  {
  }

  lemma ProductSign(x: int, y: int)
    requires 0 <= x && 0 <= y
    ensures 0 <= x * y
  {
  }

  lemma Scale(a: int, b: int, d: int)
    requires 0 < d
    ensures a < b ==> a * d + d <= b * d
    ensures a <= b ==> a * d <= b * d
  {
    assert (b - a - 1) * d == b * d - a * d - d;
    if a < b {
      ProductSign(b - a - 1, d);
    }
  }

  /** Half-even rounding is the one nearest integer that is even whenever two are equally near. */
  lemma HalfEvenCharacterised(n: int, d: int, k: int)
    requires 0 < d
    ensures k == RoundHalfEven(n, d)
       <==> Near(n, d, k) && (2 * (k * d - n) == d || 2 * (k * d - n) == -d ==> k % 2 == 0)
  {
    var q := n / d;
    DivMod(n, d);
    assert (q + 1) * d == q * d + d;
    if k < q {
      Scale(k, q, d);
    } else if q + 1 < k {
      Scale(q + 1, k, d);
    }
  }

  lemma HalfUpCharacterised(n: int, d: int, k: int)
    requires 0 < d
    ensures k == RoundHalfUp(n, d) <==> Near(n, d, k) && 2 * (k * d - n) != -d
  {
    var m := 2 * n + d;
    var q := m / (2 * d);
    DivMod(m, 2 * d);
    assert q * (2 * d) == 2 * (q * d);
    if k < q {
      Scale(k, q, d);
    } else if q < k {
      Scale(q, k, d);
    }
  }

  lemma HalfEvenOdd(n: int, d: int)
    requires 0 < d
    ensures RoundHalfEven(-n, d) == -RoundHalfEven(n, d)
  {
    var k := RoundHalfEven(n, d);
    HalfEvenCharacterised(n, d, k);
    HalfEvenCharacterised(-n, d, -k);
    hide RoundHalfEven;
    assert (-k) * d == -(k * d);
    assert (-k) % 2 == 0 <==> k % 2 == 0;
  }

  /** Refund lines satisfy the sale's own tax rule: negating the tax is recomputing it. */
  lemma LineTaxOfNegatedLine(lineSubtotal: int, rate: Rate, taxable: bool)
    requires ValidRate(rate)
    ensures ComputeLineTax(-lineSubtotal, rate, taxable) == -ComputeLineTax(lineSubtotal, rate, taxable)
  {
    assert (-lineSubtotal) * rate.num == -(lineSubtotal * rate.num);
    HalfEvenOdd(lineSubtotal * rate.num, rate.den);
  }

  lemma LineTaxMonotone(a: int, b: int, rate: Rate, taxable: bool)
    requires ValidRate(rate) && 0 <= rate.num && a <= b
    ensures ComputeLineTax(a, rate, taxable) <= ComputeLineTax(b, rate, taxable)
  {
    if taxable {
      var d := rate.den;
      var n, m := a * rate.num, b * rate.num;
      assert n <= m by { assert (b - a) * rate.num >= 0; }
      var j, k := RoundHalfEven(n, d), RoundHalfEven(m, d);
      HalfEvenCharacterised(n, d, j);
      HalfEvenCharacterised(m, d, k);
      if k < j {
        Scale(k, j, d);
      }
    }
  }

  /** The tax is within half a cent of the exact tax, and an exact half goes to the even cent. */
  lemma LineTaxBound(lineSubtotal: int, rate: Rate)
    requires ValidRate(rate)
    ensures Near(lineSubtotal * rate.num, rate.den, ComputeLineTax(lineSubtotal, rate, true))
    ensures Tie(lineSubtotal * rate.num, rate.den) ==> ComputeLineTax(lineSubtotal, rate, true) % 2 == 0
  {
    HalfEvenCharacterised(lineSubtotal * rate.num, rate.den, ComputeLineTax(lineSubtotal, rate, true));
  }

  /** What a line's tax must be: nothing if it is not taxable, else the nearest cent, an exact half going to the even
      one. */
  predicate IsLineTax(lineSubtotal: int, rate: Rate, taxable: bool, tax: int)
    requires ValidRate(rate)
  {
    if !taxable then tax == 0
    else
      var exact := lineSubtotal * rate.num;
      Near(exact, rate.den, tax)
      && (2 * (tax * rate.den - exact) in {rate.den, -rate.den} ==> tax % 2 == 0)
  }

  lemma LineTaxIs(lineSubtotal: int, rate: Rate, taxable: bool, tax: int)
    requires ValidRate(rate)
    ensures tax == ComputeLineTax(lineSubtotal, rate, taxable) <==> IsLineTax(lineSubtotal, rate, taxable, tax)
  {
    if taxable {
      HalfEvenCharacterised(lineSubtotal * rate.num, rate.den, tax);
    }
  }

  // ---- rounding each part against rounding the whole ----

  function Sum(xs: seq<int>): int {
    if xs == [] then 0 else xs[0] + Sum(xs[1..])
  }

  lemma SumHead(xs: seq<int>)
    requires xs != []
    ensures Sum(xs) == xs[0] + Sum(xs[1..])
  {
  }

  lemma {:induction false} SumConcat(xs: seq<int>, ys: seq<int>)
    ensures Sum(xs + ys) == Sum(xs) + Sum(ys)
  {
    if xs == [] {
      assert xs + ys == ys;
    } else {
      assert (xs + ys)[1..] == xs[1..] + ys;
      SumConcat(xs[1..], ys);
    }
  }

  lemma {:induction false} SumLinear(xs: seq<int>, ys: seq<int>, zs: seq<int>, a: int, b: int)
    requires |xs| == |ys| == |zs|
    requires forall i :: 0 <= i < |xs| ==> zs[i] == a * xs[i] + b * ys[i]
    ensures Sum(zs) == a * Sum(xs) + b * Sum(ys)
  {
    if xs != [] {
      SumLinear(xs[1..], ys[1..], zs[1..], a, b);
      assert a * (xs[0] + Sum(xs[1..])) == a * xs[0] + a * Sum(xs[1..]);
      assert b * (ys[0] + Sum(ys[1..])) == b * ys[0] + b * Sum(ys[1..]);
    }
  }

  lemma {:induction false} SumOfNear(xs: seq<int>, rs: seq<int>, d: int)
    requires 0 < d && |xs| == |rs|
    requires forall i :: 0 <= i < |xs| ==> Near(xs[i], d, rs[i])
    ensures -(|xs| * d) <= 2 * (Sum(rs) * d - Sum(xs)) <= |xs| * d
  {
    if xs == [] {
    } else {
      assert Near(xs[0], d, rs[0]);
      assert forall i :: 0 <= i < |xs| - 1 ==> Near(xs[1..][i], d, rs[1..][i]) by {
        forall i | 0 <= i < |xs| - 1 ensures Near(xs[1..][i], d, rs[1..][i]) {
          assert Near(xs[i + 1], d, rs[i + 1]);
        }
      }
      SumOfNear(xs[1..], rs[1..], d);
      assert (rs[0] + Sum(rs[1..])) * d == rs[0] * d + Sum(rs[1..]) * d;
      assert |xs| * d == |xs[1..]| * d + d;
    }
  }

  lemma CancelFactor(parts: int, whole: int, exact: int, n: nat, d: int)
    requires 0 < d
    requires -(n * d) <= 2 * (parts * d - exact) <= n * d
    requires Near(exact, d, whole)
    ensures -(n + 1) <= 2 * (parts - whole) <= n + 1
  {
    var gap := 2 * (parts - whole);
    assert gap * d == 2 * (parts * d) - 2 * (whole * d);
    assert (n + 1) * d == n * d + d;
    Scale(n + 1, gap, d);
    Scale(n + 1, -gap, d);
    assert (-gap) * d == -(gap * d);
  }

  /** Rounding n parts one by one, by any nearest rule, differs from rounding their sum once by at most
      (n + 1)/2. */
  lemma PartsAgainstWhole(xs: seq<int>, rs: seq<int>, d: int, whole: int)
    requires 0 < d && |xs| == |rs|
    requires forall i :: 0 <= i < |xs| ==> Near(xs[i], d, rs[i])
    requires Near(Sum(xs), d, whole)
    ensures -(|xs| + 1) <= 2 * (Sum(rs) - whole) <= |xs| + 1
  {
    SumOfNear(xs, rs, d);
    CancelFactor(Sum(rs), whole, Sum(xs), |xs|, d);
  }

  // ---- the register's preview against the service's authority ----

  /** Half-up exceeds half-even by one exactly at a tie whose lower neighbour is even, and is equal to it
      everywhere else. */
  lemma HalfUpMinusHalfEven(n: int, d: int)
    requires 0 < d
    ensures RoundHalfUp(n, d) - RoundHalfEven(n, d) == (if Tie(n, d) && (n / d) % 2 == 0 then 1 else 0)
  {
    var q := n / d;
    DivMod(n, d);
    assert (q + 1) * d == q * d + d;
    HalfUpCharacterised(n, d, if 2 * (n % d) < d then q else q + 1);
  }

  lemma ResidueOf(a: int, r: int)
    ensures (1000 * a + r) % 1000 == r % 1000
  {
  }

  lemma ResidueTies(r: int)
    requires 0 <= r < 1000
    ensures (81 * r) % 1000 == 500 <==> r == 500
  {
    if (81 * r) % 1000 == 500 {
      var t := (81 * r) / 1000;
      // 321 is the inverse of 81 modulo 1000
      assert r == 1000 * (321 * t + 160 - 26 * r) + 500;
    }
  }

  /** At the shipped rate 0.0810 a line's exact tax is a half-cent exactly when its subtotal is
      5.00 more than a multiple of 10.00. */
  lemma TiesAtShippedRate(lineSubtotal: int)
    ensures Tie(lineSubtotal * 81, 1000) <==> lineSubtotal % 1000 == 500
  {
    var q, r := lineSubtotal / 1000, lineSubtotal % 1000;
    assert lineSubtotal * 81 == 1000 * (81 * q) + 81 * r;
    ResidueOf(81 * q, 81 * r);
    ResidueTies(r);
  }
}
