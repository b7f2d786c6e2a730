/** The register's cart: its actions as the store writes them, what they keep, and what a split conserves. */
module Cart {
  import opened PosTypes
  import opened Money

  datatype Bin = Bin(id: string, name: string, qty: int)
  datatype Warehouse = Warehouse(id: string, name: string, available: int, bins: seq<Bin>)
  datatype Item = Item(sku: string, name: string, unitPrice: int, rate: Rate, taxable: bool, stock: seq<Warehouse>)
  datatype Place = Place(warehouse: string, warehouseName: string, bin: string, binName: string)
  datatype CartLine = CartLine(id: nat, sku: string, name: string, unitPrice: int, rate: Rate, taxable: bool,
                               place: Place, quantity: int, stock: seq<Warehouse>)
  datatype SplitSpec = SplitSpec(warehouse: string, bin: string, quantity: int)
  datatype CartState = CartState(lines: seq<CartLine>, nextId: nat)

  /** `find`: the index of the first element that satisfies `p`. */
  function Find<T>(xs: seq<T>, p: T -> bool): (k: Option<nat>)
    ensures k.Some? ==> k.value < |xs| && p(xs[k.value]) && forall j :: 0 <= j < k.value ==> !p(xs[j])
    ensures k.None? ==> forall j :: 0 <= j < |xs| ==> !p(xs[j])
  {
    if xs == [] then None
    else if p(xs[0]) then Some(0)
    else
      match Find(xs[1..], p)
      case None => None
      case Some(j) => Some(j + 1)
  }

  function Map(lines: seq<CartLine>, f: CartLine -> CartLine): seq<CartLine> {
    seq(|lines|, i requires 0 <= i < |lines| => f(lines[i]))
  }

  function FlatMap(lines: seq<CartLine>, f: CartLine -> seq<CartLine>): seq<CartLine> {
    if lines == [] then [] else f(lines[0]) + FlatMap(lines[1..], f)
  }

  // ---- the actions ----

  /** The first warehouse with stock, else the first; in it the first bin with stock, else the first. */
  function PickDefaultLocation(stock: seq<Warehouse>): Place {
    if stock == [] then Place("", "", "", "")
    else
      var w := Find(stock, (w: Warehouse) => w.available > 0);
      var wh := if w.Some? then stock[w.value] else stock[0];
      if wh.bins == [] then Place(wh.id, wh.name, "", "")
      else
        var b := Find(wh.bins, (b: Bin) => b.qty > 0);
        var bin := if b.Some? then wh.bins[b.value] else wh.bins[0];
        Place(wh.id, wh.name, bin.id, bin.name)
  }

  /** Same SKU, same warehouse, same bin. */
  predicate SameSpot(l: CartLine, sku: string, place: Place) {
    l.sku == sku && l.place.warehouse == place.warehouse && l.place.bin == place.bin
  }

  function AddItem(s: CartState, item: Item): CartState {
    var place := PickDefaultLocation(item.stock);
    match Find(s.lines, (l: CartLine) => SameSpot(l, item.sku, place))
    case Some(k) =>
      var id := s.lines[k].id;
      s.(lines := Map(s.lines, (l: CartLine) => if l.id == id then l.(quantity := l.quantity + 1) else l))
    case None =>
      var line := CartLine(s.nextId, item.sku, item.name, item.unitPrice, item.rate, item.taxable, place, 1,
                           item.stock);
      CartState(s.lines + [line], s.nextId + 1)
  }

  function RemoveLine(s: CartState, id: nat): CartState {
    s.(lines := FlatMap(s.lines, (l: CartLine) => if l.id != id then [l] else []))
  }

  function SetQuantity(s: CartState, id: nat, quantity: real): CartState {
    var q := if quantity.Floor < 1 then 1 else quantity.Floor;
    s.(lines := Map(s.lines, (l: CartLine) => if l.id == id then l.(quantity := q) else l))
  }

  /** The names a place has in a line's availability; a name not found falls back. */
  function Located(stock: seq<Warehouse>, warehouse: string, bin: string,
                   elseWarehouse: string, elseBin: string): Place
  {
    match Find(stock, (w: Warehouse) => w.id == warehouse)
    case None => Place(warehouse, elseWarehouse, bin, elseBin)
    case Some(i) =>
      match Find(stock[i].bins, (b: Bin) => b.id == bin)
      case None => Place(warehouse, stock[i].name, bin, elseBin)
      case Some(j) => Place(warehouse, stock[i].name, bin, stock[i].bins[j].name)
  }

  function SetWarehouseBin(s: CartState, id: nat, warehouse: string, bin: string): CartState {
    s.(lines := Map(s.lines, (l: CartLine) =>
      if l.id == id
      then l.(place := Located(l.stock, warehouse, bin, l.place.warehouseName, l.place.binName))
      else l))
  }

  function Positive(splits: seq<SplitSpec>): seq<SplitSpec> {
    if splits == [] then []
    else if splits[0].quantity > 0 then [splits[0]] + Positive(splits[1..])
    else Positive(splits[1..])
  }

  /** One line per part, each with a fresh id. */
  function Parts(original: CartLine, splits: seq<SplitSpec>, nextId: nat): seq<CartLine> {
    seq(|splits|, i requires 0 <= i < |splits| =>
      original.(id := nextId + i, quantity := splits[i].quantity,
                place := Located(original.stock, splits[i].warehouse, splits[i].bin, "", "")))
  }

  function SplitLine(s: CartState, id: nat, splits: seq<SplitSpec>): CartState {
    match Find(s.lines, (l: CartLine) => l.id == id)
    case None => s
    case Some(k) =>
      var parts := Parts(s.lines[k], Positive(splits), s.nextId);
      if parts == [] then s
      else CartState(FlatMap(s.lines, (l: CartLine) => if l.id == id then parts else [l]), s.nextId + |parts|)
  }

  datatype Action =
    | Add(item: Item)
    | Remove(id: nat)
    | Quantity(id: nat, quantity: real)
    | Move(id: nat, warehouse: string, bin: string)
    | Split(id: nat, splits: seq<SplitSpec>)
    | Clear

  function Act(s: CartState, a: Action): CartState {
    match a
    case Add(item) => AddItem(s, item)
    case Remove(id) => RemoveLine(s, id)
    case Quantity(id, quantity) => SetQuantity(s, id, quantity)
    case Move(id, warehouse, bin) => SetWarehouseBin(s, id, warehouse, bin)
    case Split(id, splits) => SplitLine(s, id, splits)
    case Clear => s.(lines := [])
  }

  function Run(s: CartState, actions: seq<Action>): CartState {
    if actions == [] then s else Act(Run(s, actions[..|actions| - 1]), actions[|actions| - 1])
  }

  // ---- what every action keeps ----

  predicate CartOk(s: CartState) {
    && (forall i :: 0 <= i < |s.lines| ==> s.lines[i].id < s.nextId && 1 <= s.lines[i].quantity)
    && (forall i, j :: 0 <= i < j < |s.lines| ==> s.lines[i].id != s.lines[j].id)
  }

  lemma {:induction false} FlatMapConcat(xs: seq<CartLine>, ys: seq<CartLine>, f: CartLine -> seq<CartLine>)
    ensures FlatMap(xs + ys, f) == FlatMap(xs, f) + FlatMap(ys, f)
  {
    if xs == [] {
      assert xs + ys == ys;
    } else {
      assert (xs + ys)[1..] == xs[1..] + ys;
      FlatMapConcat(xs[1..], ys, f);
    }
  }

  lemma {:induction false} FlatMapSpares(lines: seq<CartLine>, f: CartLine -> seq<CartLine>)
    requires forall i :: 0 <= i < |lines| ==> f(lines[i]) == [lines[i]]
    ensures FlatMap(lines, f) == lines
  {
    if lines != [] {
      FlatMapSpares(lines[1..], f);
    }
  }

  /** Replacing the one line with an id leaves all the others, in order. */
  lemma {:induction false} FlatMapAt(lines: seq<CartLine>, k: nat, f: CartLine -> seq<CartLine>)
    requires k < |lines|
    requires forall i :: 0 <= i < |lines| && i != k ==> f(lines[i]) == [lines[i]]
    ensures FlatMap(lines, f) == lines[..k] + f(lines[k]) + lines[k + 1..]
  {
    var rest := lines[1..];
    if k == 0 {
      FlatMapSpares(rest, f);
    } else {
      FlatMapAt(rest, k - 1, f);
      assert lines[..k] == [lines[0]] + rest[..k - 1];
      assert lines[k + 1..] == rest[k..];
    }
  }

  predicate HasLine(s: CartState, id: nat) {
    exists k :: 0 <= k < |s.lines| && s.lines[k].id == id
  }

  lemma RemovesAt(s: CartState, k: nat)
    requires CartOk(s) && k < |s.lines|
    ensures RemoveLine(s, s.lines[k].id) == s.(lines := s.lines[..k] + s.lines[k + 1..])
  {
    var id := s.lines[k].id;
    FlatMapAt(s.lines, k, (l: CartLine) => if l.id != id then [l] else []);
    assert s.lines[..k] + [] == s.lines[..k];
  }

  /** Removal takes out the line with the id and nothing else. */
  lemma RemovesOne(s: CartState, id: nat)
    requires CartOk(s)
    ensures !HasLine(s, id) ==> RemoveLine(s, id) == s
    ensures forall k :: 0 <= k < |s.lines| && s.lines[k].id == id ==>
              RemoveLine(s, id) == s.(lines := s.lines[..k] + s.lines[k + 1..])
  {
    if HasLine(s, id) {
      forall k | 0 <= k < |s.lines| && s.lines[k].id == id
        ensures RemoveLine(s, id) == s.(lines := s.lines[..k] + s.lines[k + 1..])
      {
        RemovesAt(s, k);
      }
    } else {
      FlatMapSpares(s.lines, (l: CartLine) => if l.id != id then [l] else []);
    }
  }

  /** A split puts the positive parts, with fresh ids, where the line stood; with no positive part it does nothing. */
  lemma SplitsOne(s: CartState, id: nat, splits: seq<SplitSpec>)
    requires CartOk(s)
    ensures !HasLine(s, id) || Positive(splits) == [] ==> SplitLine(s, id, splits) == s
    ensures forall k :: 0 <= k < |s.lines| && s.lines[k].id == id && Positive(splits) != [] ==>
              SplitLine(s, id, splits)
              == CartState(s.lines[..k] + Parts(s.lines[k], Positive(splits), s.nextId) + s.lines[k + 1..],
                           s.nextId + |Positive(splits)|)
  {
    if HasLine(s, id) && Positive(splits) != [] {
      var k :| 0 <= k < |s.lines| && s.lines[k].id == id;
      var parts := Parts(s.lines[k], Positive(splits), s.nextId);
      FlatMapAt(s.lines, k, (l: CartLine) => if l.id == id then parts else [l]);
    }
  }

  lemma {:induction false} PositivePartsArePositive(splits: seq<SplitSpec>)
    ensures forall i :: 0 <= i < |Positive(splits)| ==> 1 <= Positive(splits)[i].quantity
  {
    if splits != [] {
      PositivePartsArePositive(splits[1..]);
    }
  }

  lemma SplicedOk(s: CartState, k: nat, mid: seq<CartLine>)
    requires CartOk(s) && k < |s.lines|
    requires forall i :: 0 <= i < |mid| ==> mid[i].id == s.nextId + i && 1 <= mid[i].quantity
    ensures CartOk(CartState(s.lines[..k] + mid + s.lines[k + 1..], s.nextId + |mid|))
  {
    var after, n := s.lines[..k] + mid + s.lines[k + 1..], |mid|;
    forall i | 0 <= i < |after|
      ensures after[i] == if i < k then s.lines[i] else if i < k + n then mid[i - k] else s.lines[i - n + 1]
    {
    }
  }

  lemma RemoveKeeps(s: CartState, id: nat)
    requires CartOk(s)
    ensures CartOk(RemoveLine(s, id))
  {
    RemovesOne(s, id);
    hide RemoveLine, CartOk;
    if HasLine(s, id) {
      var k :| 0 <= k < |s.lines| && s.lines[k].id == id;
      SplicedOk(s, k, []);
      assert s.lines[..k] + [] + s.lines[k + 1..] == s.lines[..k] + s.lines[k + 1..];
    }
  }

  lemma SplitKeeps(s: CartState, id: nat, splits: seq<SplitSpec>)
    requires CartOk(s)
    ensures CartOk(SplitLine(s, id, splits))
  {
    SplitsOne(s, id, splits);
    PositivePartsArePositive(splits);
    hide SplitLine, CartOk;
    if HasLine(s, id) && Positive(splits) != [] {
      var k :| 0 <= k < |s.lines| && s.lines[k].id == id;
      SplicedOk(s, k, Parts(s.lines[k], Positive(splits), s.nextId));
    }
  }

  lemma ActKeeps(s: CartState, a: Action)
    requires CartOk(s)
    ensures CartOk(Act(s, a))
  {
    match a {
      case Remove(id) => RemoveKeeps(s, id);
      case Split(id, splits) => SplitKeeps(s, id, splits);
      case _ => InPlaceKeeps(s, a);
    }
  }

  lemma InPlaceKeeps(s: CartState, a: Action)
    requires CartOk(s) && !a.Remove? && !a.Split?
    ensures CartOk(Act(s, a))
  {
    hide PickDefaultLocation, Located;
  }

  /** Whatever the cashier does, line ids stay distinct and quantities at least 1. */
  lemma {:induction false} RunKeeps(s: CartState, actions: seq<Action>)
    requires CartOk(s)
    ensures CartOk(Run(s, actions))
  {
    if actions != [] {
      RunKeeps(s, actions[..|actions| - 1]);
      ActKeeps(Run(s, actions[..|actions| - 1]), actions[|actions| - 1]);
    }
  }

  // ---- totals ----

  function Quantities(lines: seq<CartLine>): seq<int> {
    seq(|lines|, i requires 0 <= i < |lines| => lines[i].quantity)
  }

  function Subtotals(lines: seq<CartLine>): seq<int> {
    seq(|lines|, i requires 0 <= i < |lines| => lines[i].unitPrice * lines[i].quantity)
  }

  /** The preview's tax on a line: the exact tax rounded half up. */
  function PreviewTax(l: CartLine): int
    requires ValidRate(l.rate)
  {
    if l.taxable then RoundHalfUp(l.unitPrice * l.quantity * l.rate.num, l.rate.den) else 0
  }

  predicate RatesValid(lines: seq<CartLine>) {
    forall i :: 0 <= i < |lines| ==> ValidRate(lines[i].rate)
  }

  function PreviewTaxes(lines: seq<CartLine>): seq<int>
    requires RatesValid(lines)
  {
    seq(|lines|, i requires 0 <= i < |lines| => PreviewTax(lines[i]))
  }

  datatype CartTotals = CartTotals(subtotal: int, tax: int, total: int)

  /** The totals shown at the register are the line sums. */
  method ComputeTotals(lines: seq<CartLine>) returns (t: CartTotals)
    requires RatesValid(lines)
    ensures t.subtotal == Sum(Subtotals(lines)) && t.tax == Sum(PreviewTaxes(lines)) && t.total == t.subtotal + t.tax
  {
    var subtotal, tax := 0, 0;
    var i := 0;
    while i < |lines|
      invariant 0 <= i <= |lines|
      invariant subtotal == Sum(Subtotals(lines[..i])) && tax == Sum(PreviewTaxes(lines[..i]))
    {
      Extend(Subtotals(lines[..i]), lines[i].unitPrice * lines[i].quantity, Subtotals(lines[..i + 1]));
      Extend(PreviewTaxes(lines[..i]), PreviewTax(lines[i]), PreviewTaxes(lines[..i + 1]));
      var lineTotal := lines[i].unitPrice * lines[i].quantity;
      subtotal := subtotal + lineTotal;
      if lines[i].taxable {
        tax := tax + RoundHalfUp(lineTotal * lines[i].rate.num, lines[i].rate.den);
      }
      i := i + 1;
    }
    assert lines[..i] == lines;
    t := CartTotals(subtotal, tax, subtotal + tax);
  }

  lemma Extend(xs: seq<int>, x: int, ys: seq<int>)
    requires ys == xs + [x]
    ensures Sum(ys) == Sum(xs) + x
  {
    SumConcat(xs, [x]);
  }

  /** What a sum gains when the entry at `k` becomes the entries `mid`. */
  lemma SumReplaced(xs: seq<int>, k: nat, mid: seq<int>, ys: seq<int>)
    requires k < |xs| && ys == xs[..k] + mid + xs[k + 1..]
    ensures Sum(ys) == Sum(xs) - xs[k] + Sum(mid)
  {
    hide Sum;
    var a, c := xs[..k], xs[k + 1..];
    SumConcat(a + mid, c);
    SumConcat(a, mid);
    SumHead(xs[k..]);
    assert xs[k..][1..] == c;
    SumConcat(a, xs[k..]);
    assert a + xs[k..] == xs;
  }

  /** Line `k` is the first for a SKU at a place. */
  predicate FirstAt(lines: seq<CartLine>, sku: string, place: Place, k: nat) {
    && k < |lines|
    && lines[k].sku == sku && lines[k].place.warehouse == place.warehouse && lines[k].place.bin == place.bin
    && forall j :: 0 <= j < k ==>
                     lines[j].sku != sku || lines[j].place.warehouse != place.warehouse
                     || lines[j].place.bin != place.bin
  }

  /** Ringing an item up adds exactly one unit to the cart: one more on the first line for that SKU, warehouse and
      bin, every other line staying as it was, or, when there is no such line, a new last line of one. */
  lemma AddItemAddsOne(s: CartState, item: Item)
    requires CartOk(s)
    ensures Sum(Quantities(AddItem(s, item).lines)) == Sum(Quantities(s.lines)) + 1
    ensures forall k: nat :: FirstAt(s.lines, item.sku, PickDefaultLocation(item.stock), k) ==>
              AddItem(s, item) == s.(lines := s.lines[k := s.lines[k].(quantity := s.lines[k].quantity + 1)])
    ensures (forall k: nat :: !FirstAt(s.lines, item.sku, PickDefaultLocation(item.stock), k)) ==>
              exists l :: AddItem(s, item) == CartState(s.lines + [l], s.nextId + 1) && l.id == s.nextId
                          && l.sku == item.sku && l.name == item.name && l.unitPrice == item.unitPrice
                          && l.rate == item.rate && l.taxable == item.taxable && l.stock == item.stock
                          && l.place == PickDefaultLocation(item.stock) && l.quantity == 1
  {
    hide PickDefaultLocation, Sum;
    var place := PickDefaultLocation(item.stock);
    match Find(s.lines, (l: CartLine) => SameSpot(l, item.sku, place)) {
      case Some(k) =>
        assert FirstAt(s.lines, item.sku, place, k);
        OneMore(s, k);
      case None =>
        Extend(Quantities(s.lines), 1, Quantities(AddItem(s, item).lines));
    }
  }

  lemma OneMore(s: CartState, k: nat)
    requires CartOk(s) && k < |s.lines|
    ensures var id, more := s.lines[k].id, s.lines[k := s.lines[k].(quantity := s.lines[k].quantity + 1)];
            && Map(s.lines, (l: CartLine) => if l.id == id then l.(quantity := l.quantity + 1) else l) == more
            && Sum(Quantities(more)) == Sum(Quantities(s.lines)) + 1
  {
    hide Sum;
    var q := s.lines[k].quantity;
    var more := s.lines[k := s.lines[k].(quantity := q + 1)];
    var xs, ys := Quantities(s.lines), Quantities(more);
    assert ys == xs[..k] + [q + 1] + xs[k + 1..];
    SumReplaced(xs, k, [q + 1], ys);
    SumOfOne(q + 1);
  }

  lemma SumOfOne(x: int)
    ensures Sum([x]) == x
  {
  }

  // ---- splits ----

  function SplitQuantities(splits: seq<SplitSpec>): seq<int> {
    seq(|splits|, i requires 0 <= i < |splits| => splits[i].quantity)
  }

  lemma LineReplaced(lines: seq<CartLine>, k: nat, parts: seq<CartLine>, after: seq<CartLine>)
    requires k < |lines| && after == lines[..k] + parts + lines[k + 1..]
    ensures Sum(Quantities(after)) == Sum(Quantities(lines)) - lines[k].quantity + Sum(Quantities(parts))
    ensures Sum(Subtotals(after))
         == Sum(Subtotals(lines)) - lines[k].unitPrice * lines[k].quantity + Sum(Subtotals(parts))
    ensures RatesValid(lines) && RatesValid(parts) ==>
              RatesValid(after)
              && Sum(PreviewTaxes(after)) == Sum(PreviewTaxes(lines)) - PreviewTax(lines[k]) + Sum(PreviewTaxes(parts))
  {
    hide Sum;
    assert Quantities(after) == Quantities(lines)[..k] + Quantities(parts) + Quantities(lines)[k + 1..];
    SumReplaced(Quantities(lines), k, Quantities(parts), Quantities(after));
    assert Subtotals(after) == Subtotals(lines)[..k] + Subtotals(parts) + Subtotals(lines)[k + 1..];
    SumReplaced(Subtotals(lines), k, Subtotals(parts), Subtotals(after));
    if RatesValid(lines) && RatesValid(parts) {
      assert PreviewTaxes(after) == PreviewTaxes(lines)[..k] + PreviewTaxes(parts) + PreviewTaxes(lines)[k + 1..];
      SumReplaced(PreviewTaxes(lines), k, PreviewTaxes(parts), PreviewTaxes(after));
    }
  }

  lemma SplitMoves(s: CartState, id: nat, splits: seq<SplitSpec>, k: nat)
    requires CartOk(s) && k < |s.lines| && s.lines[k].id == id && Positive(splits) != []
    ensures var after, parts := SplitLine(s, id, splits), Parts(s.lines[k], Positive(splits), s.nextId);
            && Sum(Quantities(after.lines)) == Sum(Quantities(s.lines)) - s.lines[k].quantity
                                               + Sum(SplitQuantities(Positive(splits)))
            && Sum(Subtotals(after.lines)) == Sum(Subtotals(s.lines)) - s.lines[k].unitPrice * s.lines[k].quantity
                                              + Sum(Subtotals(parts))
            && (RatesValid(s.lines) ==>
                && RatesValid(after.lines) && RatesValid(parts)
                && Sum(PreviewTaxes(after.lines)) == Sum(PreviewTaxes(s.lines)) - PreviewTax(s.lines[k])
                                                     + Sum(PreviewTaxes(parts)))
  {
    SplitsOne(s, id, splits);
    var parts := Parts(s.lines[k], Positive(splits), s.nextId);
    var after := SplitLine(s, id, splits).lines;
    assert Quantities(parts) == SplitQuantities(Positive(splits));
    LineReplaced(s.lines, k, parts, after);
  }

  /** The store does not check a split itself: the cart keeps its total quantity exactly when there is no positive part
      or the positive parts add up to the line's quantity. */
  lemma SplitConservesQuantityExactlyWhen(s: CartState, id: nat, splits: seq<SplitSpec>, k: nat)
    requires CartOk(s) && k < |s.lines| && s.lines[k].id == id
    ensures Sum(Quantities(SplitLine(s, id, splits).lines)) == Sum(Quantities(s.lines))
       <==> Positive(splits) == [] || Sum(SplitQuantities(Positive(splits))) == s.lines[k].quantity
  {
    if Positive(splits) == [] {
      SplitsOne(s, id, splits);
    } else {
      SplitMoves(s, id, splits, k);
    }
  }

  /** The dialog's check: the rows add up to the line's quantity and some row is positive. */
  predicate DialogAccepts(rows: seq<SplitSpec>, target: int) {
    && (forall i :: 0 <= i < |rows| ==> 0 <= rows[i].quantity)
    && Sum(SplitQuantities(rows)) == target
    && exists i :: 0 <= i < |rows| && rows[i].quantity > 0
  }

  lemma {:induction false} DroppingZeroes(rows: seq<SplitSpec>)
    requires forall i :: 0 <= i < |rows| ==> 0 <= rows[i].quantity
    ensures Sum(SplitQuantities(Positive(rows))) == Sum(SplitQuantities(rows))
    ensures (exists i :: 0 <= i < |rows| && rows[i].quantity > 0) ==> Positive(rows) != []
  {
    if rows != [] {
      var rest := rows[1..];
      DroppingZeroes(rest);
      hide Sum;
      SumHead(SplitQuantities(rows));
      assert SplitQuantities(rows)[1..] == SplitQuantities(rest);
      if rows[0].quantity > 0 {
        SumHead(SplitQuantities(Positive(rows)));
        assert SplitQuantities(Positive(rows))[1..] == SplitQuantities(Positive(rest));
      }
    }
  }

  lemma {:induction false} PositiveTwice(rows: seq<SplitSpec>)
    ensures Positive(Positive(rows)) == Positive(rows)
  {
    if rows != [] {
      PositiveTwice(rows[1..]);
      if rows[0].quantity > 0 {
        assert Positive(rows)[1..] == Positive(rows[1..]);
      }
    }
  }

  lemma PartsOfALine(l: CartLine, splits: seq<SplitSpec>, nextId: nat)
    requires Sum(SplitQuantities(splits)) == l.quantity
    ensures Sum(Subtotals(Parts(l, splits, nextId))) == l.unitPrice * l.quantity
    ensures ValidRate(l.rate) ==>
              var parts := Parts(l, splits, nextId);
              RatesValid(parts)
              && -(|splits| + 1) <= 2 * (Sum(PreviewTaxes(parts)) - PreviewTax(l)) <= |splits| + 1
  {
    var parts := Parts(l, splits, nextId);
    var qs, none := SplitQuantities(splits), seq(|splits|, i => 0);
    SumLinear(qs, qs, Subtotals(parts), l.unitPrice, 0);
    if ValidRate(l.rate) {
      TaxOfParts(l, splits, nextId);
    }
  }

  lemma TaxIsNear(l: CartLine, quantity: int)
    requires ValidRate(l.rate) && l.taxable
    ensures Near(l.unitPrice * l.rate.num * quantity, l.rate.den, PreviewTax(l.(quantity := quantity)))
  {
    assert l.unitPrice * quantity * l.rate.num == l.unitPrice * l.rate.num * quantity;
    HalfUpCharacterised(l.unitPrice * l.rate.num * quantity, l.rate.den, PreviewTax(l.(quantity := quantity)));
  }

  lemma TaxOfParts(l: CartLine, splits: seq<SplitSpec>, nextId: nat)
    requires Sum(SplitQuantities(splits)) == l.quantity && ValidRate(l.rate)
    ensures var parts := Parts(l, splits, nextId);
            RatesValid(parts)
            && -(|splits| + 1) <= 2 * (Sum(PreviewTaxes(parts)) - PreviewTax(l)) <= |splits| + 1
  {
    var qs, taxes := SplitQuantities(splits), PreviewTaxes(Parts(l, splits, nextId));
    hide Sum, Near, RoundHalfUp;
    if l.taxable {
      var unit := l.unitPrice * l.rate.num;
      var exact := seq(|qs|, i requires 0 <= i < |qs| => unit * qs[i]);
      SumLinear(qs, qs, exact, unit, 0);
      forall i | 0 <= i < |qs| ensures Near(exact[i], l.rate.den, taxes[i]) {
        TaxIsNear(l, qs[i]);
      }
      TaxIsNear(l, l.quantity);
      PartsAgainstWhole(exact, taxes, l.rate.den, PreviewTax(l));
    } else {
      SumLinear(qs, qs, taxes, 0, 0);
    }
  }

  /** A split the dialog accepts keeps total quantity and subtotal, leaves every other line in place and in order, and
      with k positive rows moves the tax shown by at most (k + 1)/2 cents. */
  lemma AcceptedSplitConserves(s: CartState, id: nat, rows: seq<SplitSpec>, k: nat)
    requires CartOk(s) && k < |s.lines| && s.lines[k].id == id
    requires DialogAccepts(rows, s.lines[k].quantity)
    ensures var after, n := SplitLine(s, id, Positive(rows)), |Positive(rows)|;
            && Sum(Quantities(after.lines)) == Sum(Quantities(s.lines))
            && Sum(Subtotals(after.lines)) == Sum(Subtotals(s.lines))
            && |after.lines| == |s.lines| - 1 + n
            && after.lines[..k] == s.lines[..k] && after.lines[k + n..] == s.lines[k + 1..]
            && (RatesValid(s.lines) ==>
                && RatesValid(after.lines)
                && -(n + 1) <= 2 * (Sum(PreviewTaxes(after.lines)) - Sum(PreviewTaxes(s.lines))) <= n + 1)
  {
    DroppingZeroes(rows);
    PositiveTwice(rows);
    SplitsOne(s, id, Positive(rows));
    SplitMoves(s, id, Positive(rows), k);
    PartsOfALine(s.lines[k], Positive(rows), s.nextId);
  }

  // ---- changing a line in place ----

  /** Setting a quantity changes the quantity of the line with the id and nothing else: to the whole part of what was
      asked for, and at least 1. */
  lemma QuantityIsSet(s: CartState, id: nat, quantity: real)
    ensures var after := SetQuantity(s, id, quantity);
            && after.nextId == s.nextId && |after.lines| == |s.lines|
            && forall k :: 0 <= k < |s.lines| ==>
                 if s.lines[k].id != id then after.lines[k] == s.lines[k]
                 else
                   && after.lines[k] == s.lines[k].(quantity := after.lines[k].quantity)
                   && (quantity < 1.0 ==> after.lines[k].quantity == 1)
                   && (1.0 <= quantity ==>
                         after.lines[k].quantity as real <= quantity < after.lines[k].quantity as real + 1.0)
  {
  }

  /** Warehouse `k` is the first with this identifier. */
  predicate FirstWarehouse(stock: seq<Warehouse>, id: string, k: nat) {
    k < |stock| && stock[k].id == id && forall j :: 0 <= j < k ==> stock[j].id != id
  }

  predicate FirstBin(bins: seq<Bin>, id: string, k: nat) {
    k < |bins| && bins[k].id == id && forall j :: 0 <= j < k ==> bins[j].id != id
  }

  /** The names a place goes by: those its stock gives them, or the ones to fall back on. */
  ghost predicate Named(place: Place, stock: seq<Warehouse>, warehouse: string, bin: string,
                  elseWarehouse: string, elseBin: string)
  {
    && place.warehouse == warehouse && place.bin == bin
    && ((forall w :: w in stock ==> w.id != warehouse) ==>
          place.warehouseName == elseWarehouse && place.binName == elseBin)
    && forall k: nat :: FirstWarehouse(stock, warehouse, k) ==>
         && place.warehouseName == stock[k].name
         && ((forall b :: b in stock[k].bins ==> b.id != bin) ==> place.binName == elseBin)
         && forall j: nat :: FirstBin(stock[k].bins, bin, j) ==> place.binName == stock[k].bins[j].name
  }

  lemma LocatedIsNamed(stock: seq<Warehouse>, warehouse: string, bin: string, elseWarehouse: string, elseBin: string)
    ensures Named(Located(stock, warehouse, bin, elseWarehouse, elseBin), stock, warehouse, bin, elseWarehouse, elseBin)
  {
    var place := Located(stock, warehouse, bin, elseWarehouse, elseBin);
    var w := Find(stock, (w: Warehouse) => w.id == warehouse);
    if w.Some? {
      var b := Find(stock[w.value].bins, (b: Bin) => b.id == bin);
      assert stock[w.value] in stock;
      if b.Some? { assert stock[w.value].bins[b.value] in stock[w.value].bins; }
      forall k: nat | FirstWarehouse(stock, warehouse, k) ensures k == w.value {
      }
    }
  }

  /** Moving a line changes the place of the line with the id and nothing else: to the warehouse and bin asked for,
      under the names its stock gives them, keeping its present names for what the stock does not name. */
  lemma LineIsMoved(s: CartState, id: nat, warehouse: string, bin: string)
    ensures var after := SetWarehouseBin(s, id, warehouse, bin);
            && after.nextId == s.nextId && |after.lines| == |s.lines|
            && forall k :: 0 <= k < |s.lines| ==>
                 if s.lines[k].id != id then after.lines[k] == s.lines[k]
                 else
                   && after.lines[k] == s.lines[k].(place := after.lines[k].place)
                   && Named(after.lines[k].place, s.lines[k].stock, warehouse, bin,
                            s.lines[k].place.warehouseName, s.lines[k].place.binName)
  {
    hide Located, Named;
    var after := SetWarehouseBin(s, id, warehouse, bin);
    forall k | 0 <= k < |s.lines| && s.lines[k].id == id
      ensures Named(after.lines[k].place, s.lines[k].stock, warehouse, bin,
                    s.lines[k].place.warehouseName, s.lines[k].place.binName)
    {
      LocatedIsNamed(s.lines[k].stock, warehouse, bin, s.lines[k].place.warehouseName, s.lines[k].place.binName);
    }
  }

  /** Each part of a split is the line itself under a fresh id, at its own place and quantity; a place the stock does
      not name has no name. */
  lemma PartsAreTheLine(original: CartLine, splits: seq<SplitSpec>, nextId: nat, i: nat)
    requires i < |splits|
    ensures |Parts(original, splits, nextId)| == |splits|
    ensures var part := Parts(original, splits, nextId)[i];
            && part == original.(id := nextId + i, quantity := splits[i].quantity, place := part.place)
            && Named(part.place, original.stock, splits[i].warehouse, splits[i].bin, "", "")
  {
    hide Located, Named;
    LocatedIsNamed(original.stock, splits[i].warehouse, splits[i].bin, "", "");
  }

  /** The positive parts are those asked for, in the order asked for. */
  lemma {:induction false} PositiveInOrder(splits: seq<SplitSpec>, k: nat)
    requires k < |splits|
    ensures splits[k].quantity > 0 ==>
              |Positive(splits[..k])| < |Positive(splits)| && Positive(splits)[|Positive(splits[..k])|] == splits[k]
    ensures |Positive(splits)| <= |splits|
  {
    PositiveCount(splits);
    if k > 0 {
      PositiveInOrder(splits[1..], k - 1);
      assert splits[..k][1..] == splits[1..][..k - 1];
    }
  }

  lemma {:induction false} PositiveCount(splits: seq<SplitSpec>)
    ensures |Positive(splits)| <= |splits|
    ensures forall x :: x in Positive(splits) <==> x in splits && x.quantity > 0
  {
    if splits != [] {
      PositiveCount(splits[1..]);
      assert splits == [splits[0]] + splits[1..];
    }
  }

  // ---- where a rung-up item comes from ----

  /** Warehouse `k` is where an item is taken from: the first that has stock, or the first of all if none has. */
  predicate TakenFrom(stock: seq<Warehouse>, k: nat) {
    && k < |stock|
    && if stock[k].available > 0 then forall j :: 0 <= j < k ==> stock[j].available <= 0
       else k == 0 && forall j :: 0 <= j < |stock| ==> stock[j].available <= 0
  }

  predicate TakenFromBin(bins: seq<Bin>, k: nat) {
    && k < |bins|
    && if bins[k].qty > 0 then forall j :: 0 <= j < k ==> bins[j].qty <= 0
       else k == 0 && forall j :: 0 <= j < |bins| ==> bins[j].qty <= 0
  }

  /** The default place: the warehouse the item is taken from and, by the same rule, one of its bins; no bin if it has
      none, and nowhere if there is no warehouse. */
  lemma DefaultLocationIs(stock: seq<Warehouse>)
    ensures stock == [] ==> PickDefaultLocation(stock) == Place("", "", "", "")
    ensures forall k: nat :: TakenFrom(stock, k) ==>
              && (stock[k].bins == [] ==> PickDefaultLocation(stock) == Place(stock[k].id, stock[k].name, "", ""))
              && forall j: nat :: TakenFromBin(stock[k].bins, j) ==>
                   PickDefaultLocation(stock)
                   == Place(stock[k].id, stock[k].name, stock[k].bins[j].id, stock[k].bins[j].name)
  {
    if stock != [] {
      var w := Find(stock, (w: Warehouse) => w.available > 0);
      var k := if w.Some? then w.value else 0;
      assert forall x: nat :: TakenFrom(stock, x) ==> x == k;
      var bins := stock[k].bins;
      if bins != [] {
        var b := Find(bins, (b: Bin) => b.qty > 0);
        var j := if b.Some? then b.value else 0;
        assert forall x: nat :: TakenFromBin(bins, x) ==> x == j;
      }
    }
  }

  /** With stock anywhere, the default place is in a warehouse that has some, and in one of its bins that has some if
      any does. */
  lemma DefaultLocationHasStock(stock: seq<Warehouse>)
    requires exists w :: w in stock && w.available > 0
    ensures var place := PickDefaultLocation(stock);
            exists w :: w in stock && w.available > 0 && place.warehouse == w.id
              && ((exists b :: b in w.bins && b.qty > 0) ==>
                    exists b :: b in w.bins && b.qty > 0 && place.bin == b.id)
  {
    var w := Find(stock, (w: Warehouse) => w.available > 0);
    assert w.Some?;
    var wh := stock[w.value];
    if b0 :| b0 in wh.bins && b0.qty > 0 {
      var b := Find(wh.bins, (b: Bin) => b.qty > 0);
      assert b.Some?;
      assert wh.bins[b.value] in wh.bins;
    }
    assert wh in stock;
  }
}
