/** The static menu catalog and the `MENU.find(m => m.id == id)` lookup. */
module Menu {
  import opened Wrappers

  datatype MenuItem = MenuItem(id: int, name: string, price: nat, desc: string)

  const MENU: seq<MenuItem> := [
    MenuItem(1, "Paneer Tikka", 220, "Grilled paneer with spices"),
    MenuItem(2, "Classic Burger", 180, "Beef burger with fries"),
    MenuItem(3, "Veg Biryani", 240, "Aromatic saffron rice"),
    MenuItem(4, "Caesar Salad", 150, "Romaine with parmesan"),
    MenuItem(5, "Chocolate Mousse", 140, "Rich chocolate dessert"),
    MenuItem(6, "Masala Dosa", 120, "Crispy dosa with chutney")
  ]

  /** `items.find(m => m.id == id)`: the first entry with this id; None is JavaScript's
      `undefined`. */
  function FindIn(items: seq<MenuItem>, id: int): Option<MenuItem> {
    if items == [] then None
    else if items[0].id == id then Some(items[0])
    else FindIn(items[1..], id)
  }

  /** The lookup returns the first entry carrying the id, and nothing exactly when no
      entry carries it. */
  lemma {:induction false} FindInFirst(items: seq<MenuItem>, id: int)
    ensures FindIn(items, id).None? <==> forall i :: 0 <= i < |items| ==> items[i].id != id
    ensures FindIn(items, id).Some? ==>
      exists i :: 0 <= i < |items| && items[i] == FindIn(items, id).value &&
        items[i].id == id && forall j :: 0 <= j < i ==> items[j].id != id
  {
    if items != [] && items[0].id != id {
      FindInFirst(items[1..], id);
      if FindIn(items, id).Some? {
        var i :| 0 <= i < |items[1..]| && items[1..][i] == FindIn(items, id).value
          && items[1..][i].id == id && forall j :: 0 <= j < i ==> items[1..][j].id != id;
        assert items[i + 1] == items[1..][i];
        assert forall j :: 0 < j < i + 1 ==> items[j] == items[1..][j - 1];
      }
    }
  }

  /** The catalog lookup `MENU.find(m => m.id == id)`. */
  function Find(id: int): (r: Option<MenuItem>)
    ensures r.Some? ==> r.value.id == id
  {
    FindInFirst(MENU, id);
    FindIn(MENU, id)
  }

  /** The ids on the menu are exactly 1 to 6. */
  lemma CatalogIds(id: int)
    ensures Known(id) <==> 1 <= id <= 6
  {
    assert forall i :: 0 <= i < |MENU| ==> MENU[i].id == i + 1;
    FindInFirst(MENU, id);
    if 1 <= id <= 6 {
      assert MENU[id - 1].id == id;
    }
  }

  /** An id whose lookup succeeds; any other id makes the source throw a TypeError
      when it reads `.price` or `.name` of `undefined`. */
  predicate Known(id: int) {
    Find(id).Some?
  }

  /** The catalog price of an id; 0 stands for an id not on the menu, whose price the
      source never reaches because reading it throws first. */
  function Price(id: int): int {
    match Find(id)
    case Some(m) => m.price
    case None => 0
  }
}
