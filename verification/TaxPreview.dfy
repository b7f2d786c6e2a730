/** The tax the register shows against the tax the service charges, and per-line rounding against rounding once. */
module TaxPreview {
  import opened PosTypes
  import opened Money
  import Cart
  import Settlement

  /** The line the register submits to checkout. */
  function Submitted(l: Cart.CartLine): LineIn {
    LineIn(l.sku, l.name, l.place.warehouse, l.place.bin, l.quantity, l.taxable)
  }

  function Submission(lines: seq<Cart.CartLine>): seq<LineIn> {
    seq(|lines|, i requires 0 <= i < |lines| => Submitted(lines[i]))
  }

  /** Both sides use the same price and rate for every line. */
  predicate Agreed(lines: seq<Cart.CartLine>, prices: map<string, int>, rate: Rate) {
    && ValidRate(rate)
    && forall i :: 0 <= i < |lines| ==>
         lines[i].sku in prices && prices[lines[i].sku] == lines[i].unitPrice && lines[i].rate == rate
  }

  /** A taxable line whose exact tax is a half with an even whole part. */
  predicate Overshoots(l: Cart.CartLine, rate: Rate)
    requires ValidRate(rate)
  {
    var exact := l.unitPrice * l.quantity * rate.num;
    l.taxable && Tie(exact, rate.den) && (exact / rate.den) % 2 == 0
  }

  function Overshooting(lines: seq<Cart.CartLine>, rate: Rate): set<int>
    requires ValidRate(rate)
  {
    set i | 0 <= i < |lines| && Overshoots(lines[i], rate)
  }

  lemma LineDifference(l: Cart.CartLine, rate: Rate)
    requires ValidRate(rate) && l.rate == rate
    ensures Cart.PreviewTax(l)
         == ComputeLineTax(l.unitPrice * l.quantity, rate, l.taxable) + if Overshoots(l, rate) then 1 else 0
  {
    HalfUpMinusHalfEven(l.unitPrice * l.quantity * rate.num, rate.den);
  }

  lemma OneMoreLine(lines: seq<Cart.CartLine>, rate: Rate)
    requires ValidRate(rate) && lines != []
    ensures var last := |lines| - 1;
            |Overshooting(lines, rate)|
            == |Overshooting(lines[..last], rate)| + if Overshoots(lines[last], rate) then 1 else 0
  {
    hide Overshoots;
    var last := |lines| - 1;
    assert last !in Overshooting(lines[..last], rate);
    assert Overshooting(lines, rate)
        == Overshooting(lines[..last], rate) + if Overshoots(lines[last], rate) then {last} else {};
  }

  /** The register shows at least the tax charged, and exceeds it by a cent for each line whose exact tax is a half with
      an even whole part; the subtotals agree. */
  lemma {:induction false} PreviewMinusAuthority(lines: seq<Cart.CartLine>, prices: map<string, int>, rate: Rate)
    requires Agreed(lines, prices, rate)
    ensures var cart := Settlement.PricedCart(Submission(lines), prices, rate);
            && Sum(Cart.Subtotals(lines)) == Sum(Settlement.Subtotals(cart))
            && Sum(Cart.PreviewTaxes(lines)) - Sum(Settlement.Taxes(cart)) == |Overshooting(lines, rate)|
  {
    var cart := Settlement.PricedCart(Submission(lines), prices, rate);
    assert Cart.Subtotals(lines) == Settlement.Subtotals(cart);
    if lines != [] {
      var last := |lines| - 1;
      var front, l := lines[..last], lines[last];
      PreviewMinusAuthority(front, prices, rate);
      OneMoreLine(lines, rate);
      LineDifference(l, rate);
      hide Sum, Overshooting, Overshoots, RoundHalfUp, RoundHalfEven;
      var frontCart := Settlement.PricedCart(Submission(front), prices, rate);
      Cart.Extend(Cart.PreviewTaxes(front), Cart.PreviewTax(l), Cart.PreviewTaxes(lines));
      Cart.Extend(Settlement.Taxes(frontCart), cart[last].tax, Settlement.Taxes(cart));
    }
  }

  const SHIPPED_RATE := Rate(81, 1000)

  /** At the shipped rate of 8.1% the lines that differ are those whose subtotal is 5.00 more than a multiple of
      20.00. */
  lemma OvershootsAtShippedRate(l: Cart.CartLine)
    ensures Overshoots(l, SHIPPED_RATE) <==> l.taxable && (l.unitPrice * l.quantity) % 2000 == 500
  {
    HalfCentAtShippedRate(l.unitPrice * l.quantity);
  }

  lemma HalfCentAtShippedRate(subtotal: int)
    ensures Tie(subtotal * 81, 1000) && (subtotal * 81 / 1000) % 2 == 0 <==> subtotal % 2000 == 500
  {
    TiesAtShippedRate(subtotal);
    hide Tie;
    if subtotal % 1000 == 500 {
      var m := subtotal / 1000;
      assert subtotal == 1000 * m + 500;
      EvenWholePart(m);
    }
  }

  lemma EvenWholePart(m: int)
    ensures ((1000 * m + 500) * 81 / 1000) % 2 == 0 <==> (1000 * m + 500) % 2000 == 500
  {
    assert (1000 * m + 500) * 81 == 1000 * (81 * m + 40) + 500;
    assert m == 2 * (m / 2) + m % 2;
  }

  // ---- one rounding per line against one for the cart ----

  function TaxableSubtotals(cart: seq<Line>): seq<int> {
    if cart == [] then []
    else
      (if cart[0].item.taxable then [cart[0].unitPrice * cart[0].item.quantity] else []) + TaxableSubtotals(cart[1..])
  }

  predicate TaxedAt(cart: seq<Line>, rate: Rate)
    requires ValidRate(rate)
  {
    forall i :: 0 <= i < |cart| ==>
      cart[i].tax == ComputeLineTax(cart[i].unitPrice * cart[i].item.quantity, rate, cart[i].item.taxable)
  }

  function TaxableTaxes(cart: seq<Line>): seq<int> {
    if cart == [] then [] else (if cart[0].item.taxable then [cart[0].tax] else []) + TaxableTaxes(cart[1..])
  }

  lemma {:induction false} TaxableTaxesAreNear(cart: seq<Line>, rate: Rate)
    requires ValidRate(rate) && TaxedAt(cart, rate)
    ensures |TaxableTaxes(cart)| == |TaxableSubtotals(cart)|
    ensures forall i :: 0 <= i < |TaxableTaxes(cart)| ==>
              Near(TaxableSubtotals(cart)[i] * rate.num, rate.den, TaxableTaxes(cart)[i])
  {
    if cart != [] {
      TaxableTaxesAreNear(cart[1..], rate);
      LineTaxBound(cart[0].unitPrice * cart[0].item.quantity, rate);
      hide Near, ComputeLineTax;
    }
  }

  lemma {:induction false} UntaxedLinesAddNothing(cart: seq<Line>, rate: Rate)
    requires ValidRate(rate) && TaxedAt(cart, rate)
    ensures Sum(TaxableTaxes(cart)) == Sum(Settlement.Taxes(cart))
  {
    if cart != [] {
      UntaxedLinesAddNothing(cart[1..], rate);
      assert Settlement.Taxes(cart)[1..] == Settlement.Taxes(cart[1..]);
      if cart[0].item.taxable {
        assert TaxableTaxes(cart)[1..] == TaxableTaxes(cart[1..]);
      } else {
        assert TaxableTaxes(cart) == TaxableTaxes(cart[1..]);
      }
    }
  }

  /** With n taxable lines, the tax charged is within (n + 1)/2 cents of rounding once on the taxable subtotal. */
  lemma WholeCartTax(lines: seq<LineIn>, prices: map<string, int>, rate: Rate)
    requires ValidRate(rate) && Settlement.AllPriced(lines, prices)
    ensures var cart := Settlement.PricedCart(lines, prices, rate);
            var n := |TaxableSubtotals(cart)|;
            -(n + 1) <= 2 * (Sum(Settlement.Taxes(cart))
                             - ComputeLineTax(Sum(TaxableSubtotals(cart)), rate, true)) <= n + 1
  {
    RoundedOnce(Settlement.PricedCart(lines, prices, rate), rate);
  }

  lemma RoundedOnce(cart: seq<Line>, rate: Rate)
    requires ValidRate(rate) && TaxedAt(cart, rate)
    ensures var n := |TaxableSubtotals(cart)|;
            -(n + 1) <= 2 * (Sum(Settlement.Taxes(cart))
                             - ComputeLineTax(Sum(TaxableSubtotals(cart)), rate, true)) <= n + 1
  {
    TaxableTaxesAreNear(cart, rate);
    UntaxedLinesAddNothing(cart, rate);
    hide Near, ComputeLineTax, TaxedAt;
    TaxesAgainstWhole(TaxableSubtotals(cart), TaxableTaxes(cart), rate);
  }

  lemma TaxesAgainstWhole(subtotals: seq<int>, taxes: seq<int>, rate: Rate)
    requires ValidRate(rate) && |subtotals| == |taxes|
    requires forall i :: 0 <= i < |taxes| ==> Near(subtotals[i] * rate.num, rate.den, taxes[i])
    ensures -(|subtotals| + 1) <= 2 * (Sum(taxes) - ComputeLineTax(Sum(subtotals), rate, true)) <= |subtotals| + 1
  {
    hide Sum, Near, ComputeLineTax;
    var exact := seq(|subtotals|, i requires 0 <= i < |subtotals| => subtotals[i] * rate.num);
    forall i | 0 <= i < |exact| ensures Near(exact[i], rate.den, taxes[i]) {
      assert exact[i] == subtotals[i] * rate.num;
    }
    SumLinear(subtotals, subtotals, exact, rate.num, 0);
    assert Sum(exact) == Sum(subtotals) * rate.num;
    LineTaxBound(Sum(subtotals), rate);
    PartsAgainstWhole(exact, taxes, rate.den, ComputeLineTax(Sum(subtotals), rate, true));
  }
}
