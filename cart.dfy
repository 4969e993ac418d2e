/** The client-side cart (components/cart-provider.tsx): a list of line items
    held as component state and replaced wholesale by each action. Prices are
    integers in the store's currency units; `window.confirm` is the boolean
    `confirmed`. */
module Cart {
  import opened Common

  /** What a product page hands to `addItem`: a cart item without its quantity. */
  datatype Product = Product(id: string, name: string, price: int, image: Option<string>, storeId: string)

  datatype CartItem = CartItem(id: string, name: string, price: int, image: Option<string>,
                               quantity: int, storeId: string)

  /** `{ ...newItem, quantity }` */
  function WithQuantity(p: Product, quantity: int): (c: CartItem)
    ensures c.id == p.id && c.price == p.price && c.storeId == p.storeId && c.quantity == quantity
  {
    CartItem(p.id, p.name, p.price, p.image, quantity, p.storeId)
  }

  /** The cart's intended shape: one store, one line per product id, and every
      quantity at least one. */
  predicate Valid(items: seq<CartItem>)
  {
    && (forall i :: 0 <= i < |items| ==> items[i].storeId == items[0].storeId)
    && (forall i, j :: 0 <= i < j < |items| ==> items[i].id != items[j].id)
    && (forall i :: 0 <= i < |items| ==> items[i].quantity >= 1)
  }

  /** Some line carries `id` (`items.find(i => i.id === id)` is defined). */
  predicate HasId(items: seq<CartItem>, id: string)
  {
    exists i :: 0 <= i < |items| && items[i].id == id
  }

  /** The `addItem` updater. The store check comes first and compares with the
      first line only; then an existing line is incremented, else a new line is
      appended with quantity 1. */
  function ItemsAfterAdd(items: seq<CartItem>, p: Product, confirmed: bool): (r: seq<CartItem>)
    ensures |items| > 0 && items[0].storeId != p.storeId ==>
      r == if confirmed then [WithQuantity(p, 1)] else items
    ensures (|items| == 0 || items[0].storeId == p.storeId) && HasId(items, p.id) ==>
      && |r| == |items|
      && forall i :: 0 <= i < |items| ==>
           r[i] == if items[i].id == p.id then items[i].(quantity := items[i].quantity + 1) else items[i]
    ensures (|items| == 0 || items[0].storeId == p.storeId) && !HasId(items, p.id) ==>
      r == items + [WithQuantity(p, 1)]
  {
    if |items| > 0 && items[0].storeId != p.storeId then
      if !confirmed then items else [WithQuantity(p, 1)]
    else if HasId(items, p.id) then
      IncrementId(items, p.id)
    else
      items + [WithQuantity(p, 1)]
  }

  /** `items.map(i => i.id === id ? { ...i, quantity: i.quantity + 1 } : i)` */
  function IncrementId(items: seq<CartItem>, id: string): (r: seq<CartItem>)
    ensures |r| == |items|
    ensures forall i :: 0 <= i < |items| ==>
      r[i] == if items[i].id == id then items[i].(quantity := items[i].quantity + 1) else items[i]
  {
    if items == [] then []
    else
      [if items[0].id == id then items[0].(quantity := items[0].quantity + 1) else items[0]]
        + IncrementId(items[1..], id)
  }

  /** The `removeItem` updater: `items.filter(i => i.id !== id)`. */
  function ItemsAfterRemove(items: seq<CartItem>, id: string): (r: seq<CartItem>)
    ensures |r| <= |items|
    ensures forall i :: 0 <= i < |r| ==> r[i].id != id
  {
    if items == [] then []
    else
      var rest := ItemsAfterRemove(items[1..], id);
      if items[0].id != id then [items[0]] + rest else rest
  }

  /** Exactly the lines without `id` survive a removal. */
  lemma {:induction false} RemoveKeepsOthers(items: seq<CartItem>, id: string)
    ensures forall x :: x in ItemsAfterRemove(items, id) <==> x in items && x.id != id
  {
    if items != [] {
      RemoveKeepsOthers(items[1..], id);
      assert forall x :: x in items <==> x == items[0] || x in items[1..];
    }
  }

  /** The `updateQuantity` updater: a quantity below one removes the line,
      any other quantity replaces the matching line's quantity. */
  function ItemsAfterUpdate(items: seq<CartItem>, id: string, quantity: int): (r: seq<CartItem>)
    ensures quantity < 1 ==> r == ItemsAfterRemove(items, id)
    ensures quantity >= 1 ==>
      && |r| == |items|
      && forall i :: 0 <= i < |items| ==>
           r[i] == if items[i].id == id then items[i].(quantity := quantity) else items[i]
  {
    if quantity < 1 then ItemsAfterRemove(items, id) else SetQuantity(items, id, quantity)
  }

  /** `items.map(i => i.id === id ? { ...i, quantity } : i)` */
  function SetQuantity(items: seq<CartItem>, id: string, quantity: int): (r: seq<CartItem>)
    ensures |r| == |items|
    ensures forall i :: 0 <= i < |items| ==>
      r[i] == if items[i].id == id then items[i].(quantity := quantity) else items[i]
  {
    if items == [] then []
    else [if items[0].id == id then items[0].(quantity := quantity) else items[0]] + SetQuantity(items[1..], id, quantity)
  }

  /** `cartTotal`: the sum of price times quantity. */
  function CartTotalOf(items: seq<CartItem>): int
  {
    if items == [] then 0 else items[0].price * items[0].quantity + CartTotalOf(items[1..])
  }

  /** `itemCount`: the sum of the quantities. */
  function ItemCountOf(items: seq<CartItem>): int
  {
    if items == [] then 0 else items[0].quantity + ItemCountOf(items[1..])
  }

  /** Every line has a non-negative price and a positive quantity. */
  predicate Priced(items: seq<CartItem>)
  {
    forall i :: 0 <= i < |items| ==> items[i].price >= 0 && items[i].quantity >= 1
  }

  /** With positive quantities every line counts at least once, and with
      non-negative prices as well the total is never negative. */
  lemma {:induction false} TotalsBounds(items: seq<CartItem>)
    ensures (forall i :: 0 <= i < |items| ==> items[i].quantity >= 1) ==> ItemCountOf(items) >= |items|
    ensures Priced(items) ==> CartTotalOf(items) >= 0
  {
    if items != [] {
      TotalsBounds(items[1..]);
      assert forall i :: 1 <= i < |items| ==> items[1..][i - 1] == items[i];
    }
  }

  // ---------------------------------------------------------------------------
  // Properties of the updaters

  /** Every action keeps a well-formed cart well-formed. */
  lemma AddKeepsValid(items: seq<CartItem>, p: Product, confirmed: bool)
    requires Valid(items)
    ensures Valid(ItemsAfterAdd(items, p, confirmed))
  {
    var r := ItemsAfterAdd(items, p, confirmed);
    if |items| > 0 && items[0].storeId != p.storeId {
      assert r == [WithQuantity(p, 1)] || r == items;
    } else if HasId(items, p.id) {
      assert forall i :: 0 <= i < |r| ==>
        r[i].id == items[i].id && r[i].storeId == items[i].storeId && r[i].quantity >= items[i].quantity;
    } else {
      assert forall i :: 0 <= i < |items| ==> r[i] == items[i] && items[i].id != p.id;
      assert r[|items|] == WithQuantity(p, 1);
    }
  }

  lemma {:induction false} RemoveKeepsValid(items: seq<CartItem>, id: string)
    requires Valid(items)
    ensures Valid(ItemsAfterRemove(items, id))
  {
    if items != [] {
      var tail := items[1..];
      assert Valid(tail) by {
        assert forall i :: 0 <= i < |tail| ==> tail[i] == items[i + 1];
      }
      RemoveKeepsValid(tail, id);
      RemoveKeepsOthers(items, id);
      RemoveKeepsOthers(tail, id);
      var rest := ItemsAfterRemove(tail, id);
      var r := ItemsAfterRemove(items, id);
      forall x | x in r ensures x in items && x.storeId == items[0].storeId && x.quantity >= 1 {
      }
      if items[0].id != id {
        assert r == [items[0]] + rest;
        forall j | 0 < j < |r| ensures r[0].id != r[j].id {
          assert r[j] in tail;
        }
      }
    }
  }

  lemma UpdateKeepsValid(items: seq<CartItem>, id: string, quantity: int)
    requires Valid(items)
    ensures Valid(ItemsAfterUpdate(items, id, quantity))
  {
    if quantity < 1 {
      RemoveKeepsValid(items, id);
    }
  }

  /** In a well-formed cart, removing an id that is present drops exactly that
      one line and keeps the others in order; an absent id changes nothing. */
  lemma {:induction false} RemoveDropsOneLine(items: seq<CartItem>, id: string, k: nat)
    requires forall i, j :: 0 <= i < j < |items| ==> items[i].id != items[j].id
    requires k < |items| && items[k].id == id
    ensures ItemsAfterRemove(items, id) == items[..k] + items[k + 1..]
  {
    var tail := items[1..];
    assert forall i :: 0 <= i < |tail| ==> tail[i] == items[i + 1];
    if k == 0 {
      RemoveAbsent(tail, id);
      assert items[..0] + items[1..] == tail;
    } else {
      RemoveDropsOneLine(tail, id, k - 1);
      RemoveLaterLine(items, id, k);
    }
  }

  /** The step of `RemoveDropsOneLine` when the removed line is not the first. */
  lemma RemoveLaterLine(items: seq<CartItem>, id: string, k: nat)
    requires 0 < k < |items| && items[0].id != id
    requires ItemsAfterRemove(items[1..], id) == items[1..][..k - 1] + items[1..][k..]
    ensures ItemsAfterRemove(items, id) == items[..k] + items[k + 1..]
  {
    var tail := items[1..];
    assert ItemsAfterRemove(items, id) == [items[0]] + ItemsAfterRemove(tail, id);
    assert items[..k] == [items[0]] + tail[..k - 1];
    assert items[k + 1..] == tail[k..];
  }

  lemma {:induction false} RemoveAbsent(items: seq<CartItem>, id: string)
    requires forall i :: 0 <= i < |items| ==> items[i].id != id
    ensures ItemsAfterRemove(items, id) == items
  {
    if items != [] {
      RemoveAbsent(items[1..], id);
    }
  }

  /** Adding to the cart's own store raises the item count by one and the total
      by one unit price (the existing line's price when the id is already
      there, the new product's otherwise). */
  lemma AddRaisesTotals(items: seq<CartItem>, p: Product, confirmed: bool, k: nat)
    requires forall i, j :: 0 <= i < j < |items| ==> items[i].id != items[j].id
    requires |items| == 0 || items[0].storeId == p.storeId
    requires k <= |items|
    requires k < |items| ==> items[k].id == p.id
    requires k == |items| ==> !HasId(items, p.id)
    ensures var r := ItemsAfterAdd(items, p, confirmed);
      && ItemCountOf(r) == ItemCountOf(items) + 1
      && CartTotalOf(r) == CartTotalOf(items) + (if k < |items| then items[k].price else p.price)
  {
    if k < |items| {
      assert HasId(items, p.id);
      assert ItemsAfterAdd(items, p, confirmed) == IncrementId(items, p.id);
      IncrementTotals(items, p.id, k);
    } else {
      var c := WithQuantity(p, 1);
      assert ItemsAfterAdd(items, p, confirmed) == items + [c];
      TotalsAppend(items, c);
      assert c.price * c.quantity == p.price;
    }
  }

  lemma {:induction false} IncrementTotals(items: seq<CartItem>, id: string, k: nat)
    requires forall i, j :: 0 <= i < j < |items| ==> items[i].id != items[j].id
    requires k < |items| && items[k].id == id
    ensures ItemCountOf(IncrementId(items, id)) == ItemCountOf(items) + 1
    ensures CartTotalOf(IncrementId(items, id)) == CartTotalOf(items) + items[k].price
  {
    var r := IncrementId(items, id);
    assert r[1..] == IncrementId(items[1..], id);
    if k == 0 {
      IncrementAbsent(items[1..], id);
    } else {
      IncrementTotals(items[1..], id, k - 1);
    }
  }

  lemma {:induction false} IncrementAbsent(items: seq<CartItem>, id: string)
    requires forall i :: 0 <= i < |items| ==> items[i].id != id
    ensures IncrementId(items, id) == items
  {
    if items != [] {
      IncrementAbsent(items[1..], id);
    }
  }

  lemma {:induction false} TotalsAppend(items: seq<CartItem>, c: CartItem)
    ensures ItemCountOf(items + [c]) == ItemCountOf(items) + c.quantity
    ensures CartTotalOf(items + [c]) == CartTotalOf(items) + c.price * c.quantity
  {
    if items != [] {
      assert (items + [c])[1..] == items[1..] + [c];
      TotalsAppend(items[1..], c);
    } else {
      assert items + [c] == [c];
    }
  }

  /** Removing a line takes its quantity off the count and its subtotal off the total. */
  lemma RemoveLowersTotals(items: seq<CartItem>, id: string, k: nat)
    requires forall i, j :: 0 <= i < j < |items| ==> items[i].id != items[j].id
    requires k < |items| && items[k].id == id
    ensures var r := ItemsAfterRemove(items, id);
      && ItemCountOf(r) == ItemCountOf(items) - items[k].quantity
      && CartTotalOf(r) == CartTotalOf(items) - items[k].price * items[k].quantity
  {
    RemoveDropsOneLine(items, id, k);
    TotalsSplit(items, k);
  }

  lemma {:induction false} TotalsSplit(items: seq<CartItem>, k: nat)
    requires k < |items|
    ensures ItemCountOf(items[..k] + items[k + 1..]) == ItemCountOf(items) - items[k].quantity
    ensures CartTotalOf(items[..k] + items[k + 1..]) == CartTotalOf(items) - items[k].price * items[k].quantity
  {
    if k == 0 {
      assert items[..0] + items[1..] == items[1..];
    } else {
      TotalsSplit(items[1..], k - 1);
      assert items[..k] + items[k + 1..] == [items[0]] + (items[1..][..k - 1] + items[1..][k..]);
    }
  }

  // ---------------------------------------------------------------------------
  // The provider: `items` is component state that each action replaces.

  class CartProvider {
    var items: seq<CartItem>

    /** `useState<CartItem[]>([])`; loading a saved cart is browser storage and not modelled. */
    constructor ()
      ensures items == []
    {
      items := [];
    }

    /** `cartTotal` */
    function CartTotal(): (t: int)
      reads this
      ensures Priced(items) ==> t >= 0
    {
      TotalsBounds(items);
      CartTotalOf(items)
    }

    /** `itemCount` */
    function ItemCount(): (n: int)
      reads this
      ensures Valid(items) ==> n >= |items|
    {
      TotalsBounds(items);
      ItemCountOf(items)
    }

    method AddItem(newItem: Product, confirmed: bool)
      modifies this
      ensures items == ItemsAfterAdd(old(items), newItem, confirmed)
      ensures Valid(old(items)) ==> Valid(items)
    {
      if Valid(items) {
        AddKeepsValid(items, newItem, confirmed);
      }
      items := ItemsAfterAdd(items, newItem, confirmed);
    }

    method RemoveItem(id: string)
      modifies this
      ensures items == ItemsAfterRemove(old(items), id)
      ensures Valid(old(items)) ==> Valid(items)
    {
      if Valid(items) {
        RemoveKeepsValid(items, id);
      }
      items := ItemsAfterRemove(items, id);
    }

    /** A quantity below one delegates to `RemoveItem`, as the source does. */
    method UpdateQuantity(id: string, quantity: int)
      modifies this
      ensures items == ItemsAfterUpdate(old(items), id, quantity)
      ensures Valid(old(items)) ==> Valid(items)
    {
      if quantity < 1 {
        RemoveItem(id);
        return;
      }
      if Valid(items) {
        UpdateKeepsValid(items, id, quantity);
      }
      items := SetQuantity(items, id, quantity);
    }

    method ClearCart()
      modifies this
      ensures items == []
      ensures CartTotal() == 0 && ItemCount() == 0
    {
      items := [];
    }
  }
}
