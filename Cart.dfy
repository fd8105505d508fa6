/** The customer's cart, a map from menu id to quantity, and what it costs.
    JavaScript's `Object.keys`/`Object.entries` list array-index keys (0 to 2^32 - 2)
    in ascending numeric order. The ids the menu buttons put in the cart are the menu
    ids 1 to 6, so the entries of a cart are modelled in ascending id order; the
    insertion order JavaScript uses for other keys, such as negative ids, is not
    modelled. */
module Cart {
  import opened Wrappers
  import Menu
  import Keys

  type CartMap = map<int, int>

  /** One line of an order: a copy of the catalog's id, name and price, with the quantity. */
  datatype LineItem = LineItem(id: int, name: string, price: int, qty: int)

  /** `cart[id] || 0`: an absent entry counts as zero. */
  function Qty(cart: CartMap, id: int): int {
    if id in cart then cart[id] else 0
  }

  /** Every stored quantity is positive: a quantity that drops to zero is deleted. */
  predicate AllPositive(cart: CartMap) {
    forall id :: id in cart ==> cart[id] > 0
  }

  /** The cart after `addToCart(id)`. */
  function AfterAdd(cart: CartMap, id: int): (r: CartMap)
    ensures r.Keys == cart.Keys + {id}
    ensures r[id] == Qty(cart, id) + 1
    ensures forall k :: k in cart && k != id ==> r[k] == cart[k]
    ensures AllPositive(cart) ==> AllPositive(r)
  {
    cart[id := Qty(cart, id) + 1]
  }

  /** The cart after `changeQty(id, delta)`: the entry becomes old + delta and is
      deleted when that is not positive. */
  function AfterChange(cart: CartMap, id: int, delta: int): (r: CartMap)
    ensures id in r <==> Qty(cart, id) + delta > 0
    ensures id in r ==> r[id] == Qty(cart, id) + delta
    ensures r.Keys - {id} == cart.Keys - {id}
    ensures forall k :: k in cart && k != id ==> k in r && r[k] == cart[k]
    ensures AllPositive(cart) ==> AllPositive(r)
  {
    var q := Qty(cart, id) + delta;
    if q <= 0 then cart - {id} else cart[id := q]
  }

  /** The ids listed by a sequence of entries. */
  function KeysOf(es: seq<(int, int)>): set<int> {
    if es == [] then {} else {es[0].0} + KeysOf(es[1..])
  }

  /** `Object.entries(cart)`: every entry once, in ascending id order. */
  function Entries(cart: CartMap): (es: seq<(int, int)>)
    ensures |es| == |cart|
    ensures KeysOf(es) == cart.Keys
    ensures forall i :: 0 <= i < |es| ==> es[i].0 in cart && es[i].1 == cart[es[i].0]
    ensures forall i, j :: 0 <= i < j < |es| ==> es[i].0 < es[j].0
    decreases |cart|
  {
    if cart == map[] then []
    else
      var k := Keys.MinKey(cart.Keys);
      var rest := cart - {k};
      assert rest.Keys == cart.Keys - {k};
      assert |rest| == |rest.Keys| == |cart.Keys| - 1 == |cart| - 1;
      var tail := Entries(rest);
      var es := [(k, cart[k])] + tail;
      assert es[1..] == tail;
      assert forall i :: 0 < i < |es| ==> es[i] == tail[i - 1];
      es
  }

  /** Every id of the cart is on the menu. */
  predicate KnownIds(cart: CartMap) {
    forall id :: id in cart ==> Menu.Known(id)
  }

  predicate EntriesKnown(es: seq<(int, int)>) {
    forall i :: 0 <= i < |es| ==> Menu.Known(es[i].0)
  }

  /** The line `placeOrder` writes for one entry: a copy of the catalog's id, name and
      price, with the quantity. */
  function ItemOf(e: (int, int)): (it: LineItem)
    requires Menu.Known(e.0)
    ensures it.id == e.0 && it.qty == e.1 && it.price == Menu.Price(e.0)
  {
    var m := Menu.Find(e.0).value;
    LineItem(m.id, m.name, m.price, e.1)
  }

  /** The `items` snapshot of `placeOrder`, one line per entry. */
  function ToItems(es: seq<(int, int)>): (items: seq<LineItem>)
    requires EntriesKnown(es)
  {
    seq(|es|, i requires 0 <= i < |es| => ItemOf(es[i]))
  }

  /** Sum of price × qty, folded from the left as `reduce((s, it) => s + it.price * it.qty, 0)`. */
  function ItemsTotal(items: seq<LineItem>): int {
    if items == [] then 0
    else ItemsTotal(items[..|items| - 1]) + items[|items| - 1].price * items[|items| - 1].qty
  }

  /** The running total of `updateCartTotal` over a list of entries, for any price table. */
  function EntriesSum(es: seq<(int, int)>, price: int -> int): int {
    if es == [] then 0
    else EntriesSum(es[..|es| - 1], price) + price(es[|es| - 1].0) * es[|es| - 1].1
  }

  /** Sum of price × qty over the cart, taking the ids in ascending order. */
  function MapSum(cart: CartMap, price: int -> int): int
    decreases |cart|
  {
    if cart == map[] then 0
    else
      var k := Keys.MinKey(cart.Keys);
      assert (cart - {k}).Keys == cart.Keys - {k};
      price(k) * cart[k] + MapSum(cart - {k}, price)
  }

  /** The cart total shown by `updateCartTotal` and stored by `placeOrder`;
      None where the source throws because an id is not on the menu. */
  function CartTotal(cart: CartMap): (r: Option<int>)
    ensures r.Some? <==> KnownIds(cart)
    ensures cart == map[] ==> r == Some(0)
  {
    if KnownIds(cart) then Some(MapSum(cart, Menu.Price)) else None
  }

  /** Lines priced from a list of entries: same ids' prices and the same quantities. */
  predicate Priced(items: seq<LineItem>, es: seq<(int, int)>, price: int -> int) {
    |items| == |es| &&
    forall i :: 0 <= i < |items| ==> items[i].price == price(es[i].0) && items[i].qty == es[i].1
  }

  lemma {:induction false} ItemsTotalIsEntriesSum(items: seq<LineItem>, es: seq<(int, int)>, price: int -> int)
    requires Priced(items, es, price)
    ensures ItemsTotal(items) == EntriesSum(es, price)
    decreases |es|
  {
    if es != [] {
      var n := |es| - 1;
      assert Priced(items[..n], es[..n], price);
      ItemsTotalIsEntriesSum(items[..n], es[..n], price);
    }
  }

  lemma {:induction false} EntriesSumAppend(a: seq<(int, int)>, b: seq<(int, int)>, price: int -> int)
    ensures EntriesSum(a + b, price) == EntriesSum(a, price) + EntriesSum(b, price)
    decreases |b|
  {
    if b == [] {
      assert a + b == a;
    } else {
      var n := |b| - 1;
      assert (a + b)[..|a + b| - 1] == a + b[..n];
      EntriesSumAppend(a, b[..n], price);
    }
  }

  /** Summing the ascending entries is the ascending sum over the map. */
  lemma {:induction false} EntriesSumIsMapSum(cart: CartMap, price: int -> int)
    ensures EntriesSum(Entries(cart), price) == MapSum(cart, price)
    decreases |cart|
  {
    if cart != map[] {
      var k := Keys.MinKey(cart.Keys);
      var rest := cart - {k};
      assert rest.Keys == cart.Keys - {k};
      EntriesSumIsMapSum(rest, price);
      EntriesFirst(cart);
      EntriesSumAppend([(k, cart[k])], Entries(rest), price);
      assert [(k, cart[k])][..0] == [];
    }
  }

  /** One more entry adds its price × qty to the running total of a prefix. */
  lemma EntriesSumStep(es: seq<(int, int)>, i: nat, price: int -> int)
    requires i < |es|
    ensures EntriesSum(es[..i + 1], price) == EntriesSum(es[..i], price) + price(es[i].0) * es[i].1
    ensures EntriesKnown(es[..i]) && Menu.Known(es[i].0) ==> EntriesKnown(es[..i + 1])
  {
    assert es[..i + 1][..i] == es[..i];
  }

  /** If every entry's id is on the menu, so is every id of the cart. */
  lemma {:induction false} KnownFromEntries(es: seq<(int, int)>)
    requires EntriesKnown(es)
    ensures forall k :: k in KeysOf(es) ==> Menu.Known(k)
  {
    if es != [] {
      KnownFromEntries(es[1..]);
    }
  }

  /** Folding price × qty over the `items` snapshot of a cart gives the cart total:
      the order total stored by `placeOrder` is the total `updateCartTotal` shows. */
  lemma SnapshotTotal(cart: CartMap)
    requires KnownIds(cart)
    ensures EntriesKnown(Entries(cart))
    ensures CartTotal(cart) == Some(ItemsTotal(ToItems(Entries(cart))))
  {
    var es := Entries(cart);
    assert EntriesKnown(es);
    var items := ToItems(es);
    forall i | 0 <= i < |items|
      ensures items[i].price == Menu.Price(es[i].0) && items[i].qty == es[i].1
    {
      assert items[i] == ItemOf(es[i]);
    }
    EntriesSumIsMapSum(cart, Menu.Price);
    ItemsTotalIsEntriesSum(ToItems(es), es, Menu.Price);
  }

  /** Unfolding the entries once: the smallest id first. */
  lemma EntriesFirst(cart: CartMap)
    requires cart != map[]
    ensures var k := Keys.MinKey(cart.Keys);
      Entries(cart) == [(k, cart[k])] + Entries(cart - {k})
  {
  }

  /** Unfolding the sum once: the smallest id first, then the rest of the cart. */
  lemma MapSumFirst(cart: CartMap, price: int -> int)
    requires cart != map[]
    ensures var k := Keys.MinKey(cart.Keys);
      MapSum(cart, price) == price(k) * cart[k] + MapSum(cart - {k}, price)
  {
  }

  /** The total splits into the contribution of one id and the rest of the cart,
      whatever its position in the ascending order. */
  lemma {:induction false} SumWithout(cart: CartMap, id: int, price: int -> int)
    ensures MapSum(cart, price) == price(id) * Qty(cart, id) + MapSum(cart - {id}, price)
    decreases |cart|
  {
    if id !in cart {
      assert cart - {id} == cart;
    } else {
      var k := Keys.MinKey(cart.Keys);
      MapSumFirst(cart, price);
      if k != id {
        var rest := cart - {k};
        var smaller := cart - {id};
        assert rest.Keys == cart.Keys - {k};
        assert smaller.Keys == cart.Keys - {id};
        SumWithout(rest, id, price);
        Keys.MinKeyWithout(cart.Keys, id);
        MapSumFirst(smaller, price);
        RemoveBoth(cart, k, id);
        assert Qty(rest, id) == Qty(cart, id) && smaller[k] == cart[k];
      }
    }
  }

  lemma RemoveBoth(cart: CartMap, a: int, b: int)
    ensures cart - {a} - {b} == cart - {b} - {a}
  {
  }

  /** Storing quantity `q` for an id: the total is the rest of the cart plus price × q. */
  lemma SumAfterSet(cart: CartMap, id: int, q: int, price: int -> int)
    ensures MapSum(cart[id := q], price) == MapSum(cart - {id}, price) + price(id) * q
  {
    SumWithout(cart[id := q], id, price);
    assert cart[id := q] - {id} == cart - {id};
  }

  /** Every id of the cart and `id` itself are on the menu exactly when the cart
      with `id` stored is. */
  lemma KnownAfterSet(cart: CartMap, id: int, q: int)
    requires KnownIds(cart)
    ensures KnownIds(cart[id := q]) <==> Menu.Known(id)
  {
    assert id in cart[id := q];
  }

  /** Adding one of `id` adds its price to the sum, for any price table. */
  lemma SumAfterAdd(cart: CartMap, id: int, price: int -> int)
    ensures MapSum(AfterAdd(cart, id), price) == MapSum(cart, price) + price(id)
  {
    var q := Qty(cart, id);
    SumWithout(cart, id, price);
    SumAfterSet(cart, id, q + 1, price);
    Distribute(price(id), q, 1);
  }

  /** Changing the quantity of `id` moves the sum by its price times the change of the
      stored quantity, for any price table. */
  lemma SumAfterChange(cart: CartMap, id: int, delta: int, price: int -> int)
    ensures MapSum(AfterChange(cart, id, delta), price)
      == MapSum(cart, price) + price(id) * (Qty(AfterChange(cart, id, delta), id) - Qty(cart, id))
  {
    var q := Qty(cart, id);
    SumWithout(cart, id, price);
    if q + delta <= 0 {
      Distribute(price(id), 0, q);
    } else {
      SumAfterSet(cart, id, q + delta, price);
      Distribute(price(id), q + delta, q);
    }
  }

  /** `addToCart(id)` raises the total by exactly the item's price, and leaves no total
      when the id is not on the menu. */
  lemma AddRaisesTotal(cart: CartMap, id: int)
    requires KnownIds(cart)
    ensures CartTotal(AfterAdd(cart, id)).Some? <==> Menu.Known(id)
    ensures Menu.Known(id) ==>
      CartTotal(AfterAdd(cart, id)) == Some(CartTotal(cart).value + Menu.Price(id))
  {
    KnownAfterSet(cart, id, Qty(cart, id) + 1);
    SumAfterAdd(cart, id, Menu.Price);
  }

  /** `changeQty(id, delta)` on a menu id moves the total by the price times the change
      of the stored quantity, counting a deleted entry as zero. */
  lemma ChangeMovesTotal(cart: CartMap, id: int, delta: int)
    requires KnownIds(cart) && Menu.Known(id)
    ensures CartTotal(AfterChange(cart, id, delta)) == Some(CartTotal(cart).value
      + Menu.Price(id) * (Qty(AfterChange(cart, id, delta), id) - Qty(cart, id)))
  {
    var q := Qty(cart, id);
    if q + delta > 0 {
      KnownAfterSet(cart, id, q + delta);
    }
    SumAfterChange(cart, id, delta, Menu.Price);
  }

  lemma Distribute(p: int, a: int, b: int)
    ensures p * (a - b) == p * a - p * b
    ensures p * (a + b) == p * a + p * b
  {
  }
}
