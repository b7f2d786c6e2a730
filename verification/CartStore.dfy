/** The register's cart as it is held: actions replace the list of lines. */
module CartStore {
  import opened Cart

  class Store {
    var lines: seq<CartLine>
    var nextId: nat

    function View(): CartState
      reads this
    {
      CartState(lines, nextId)
    }

    constructor ()
      ensures View() == CartState([], 0)
    {
      lines, nextId := [], 0;
    }

    method FreshId() returns (id: nat)
      modifies this`nextId
      ensures id == old(nextId) && nextId == old(nextId) + 1
    {
      id, nextId := nextId, nextId + 1;
    }

    method Ring(item: Item)
      modifies this
      ensures View() == AddItem(old(View()), item)
    {
      var place := PickDefaultLocation(item.stock);
      var k := Find(lines, (l: CartLine) => SameSpot(l, item.sku, place));
      if k.Some? {
        var id := lines[k.value].id;
        lines := Map(lines, (l: CartLine) => if l.id == id then l.(quantity := l.quantity + 1) else l);
      } else {
        var id := FreshId();
        lines := lines + [CartLine(id, item.sku, item.name, item.unitPrice, item.rate, item.taxable, place, 1,
                                   item.stock)];
      }
    }

    method Drop(id: nat)
      modifies this`lines
      ensures View() == RemoveLine(old(View()), id)
    {
      lines := FlatMap(lines, (l: CartLine) => if l.id != id then [l] else []);
    }

    method SetLineQuantity(id: nat, quantity: real)
      modifies this`lines
      ensures View() == SetQuantity(old(View()), id, quantity)
    {
      var q := if quantity.Floor < 1 then 1 else quantity.Floor;
      lines := Map(lines, (l: CartLine) => if l.id == id then l.(quantity := q) else l);
    }

    method MoveLine(id: nat, warehouse: string, bin: string)
      modifies this`lines
      ensures View() == SetWarehouseBin(old(View()), id, warehouse, bin)
    {
      lines := Map(lines, (l: CartLine) =>
        if l.id == id
        then l.(place := Located(l.stock, warehouse, bin, l.place.warehouseName, l.place.binName))
        else l);
    }

    method SplitInto(id: nat, splits: seq<SplitSpec>)
      modifies this
      ensures View() == SplitLine(old(View()), id, splits)
    {
      var k := Find(lines, (l: CartLine) => l.id == id);
      if k.None? { return; }
      var original := lines[k.value];
      var wanted := Positive(splits);
      var parts: seq<CartLine> := [];
      while |parts| < |wanted|
        invariant |parts| <= |wanted| && nextId == old(nextId) + |parts| && lines == old(lines)
        invariant parts == Parts(original, wanted[..|parts|], old(nextId))
      {
        var lineId := FreshId();
        var split := wanted[|parts|];
        parts := parts + [original.(id := lineId, quantity := split.quantity,
                                    place := Located(original.stock, split.warehouse, split.bin, "", ""))];
      }
      assert wanted[..|parts|] == wanted;
      if parts == [] { return; }
      lines := FlatMap(lines, (l: CartLine) => if l.id == id then parts else [l]);
    }

    method Clear()
      modifies this`lines
      ensures View() == old(View()).(lines := [])
    {
      lines := [];
    }

    /** Any run of the cashier's actions takes the store through the model's run and keeps its lines well formed. */
    method Play(actions: seq<Action>)
      requires CartOk(View())
      modifies this
      ensures View() == Cart.Run(old(View()), actions) && CartOk(View())
    {
      hide AddItem, RemoveLine, SetQuantity, SetWarehouseBin, SplitLine, CartOk;
      var i := 0;
      while i < |actions|
        invariant 0 <= i <= |actions|
        invariant View() == Cart.Run(old(View()), actions[..i])
      {
        assert actions[..i + 1][..i] == actions[..i];
        match actions[i] {
          case Add(item) => Ring(item);
          case Remove(id) => Drop(id);
          case Quantity(id, quantity) => SetLineQuantity(id, quantity);
          case Move(id, warehouse, bin) => MoveLine(id, warehouse, bin);
          case Split(id, splits) => SplitInto(id, splits);
          case Clear => Clear();
        }
        i := i + 1;
      }
      assert actions[..i] == actions;
      RunKeeps(old(View()), actions);
    }
  }
}
