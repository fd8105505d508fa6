/** The page's global state (`cart`, `orders`, `currentRole`, `currentView`) and the
    handlers that read and change it, with the DOM output left out. */
module App {
  import opened Wrappers
  import Menu
  import Text
  import Cart
  import Ledger

  /** The three roles; the three views carry the same names. */
  datatype Role = Customer | Kitchen | Owner

  /** The access rule of the page: a customer only ever sees the customer view. */
  predicate Permitted(role: Role, view: Role) {
    role == Customer ==> view == Customer
  }

  class Session {
    var cart: Cart.CartMap
    var orders: seq<Ledger.Order>
    var role: Role
    var view: Role

    /** Every cart quantity is positive and the access rule holds. */
    ghost predicate Valid()
      reads this
    {
      Cart.AllPositive(cart) && Permitted(role, view)
    }

    /** Page load: an empty cart, the stored ledger, the customer role and view. */
    constructor (stored: Ledger.Stored)
      ensures Valid()
      ensures cart == map[] && orders == Ledger.LoadOrders(stored)
      ensures role == Customer && view == Customer
    {
      cart := map[];
      orders := Ledger.LoadOrders(stored);
      role := Customer;
      view := Customer;
    }

    /** The storage listener, for a write of `key` by another tab: a write of the
        ledger key replaces this ledger with the stored one; other keys are ignored. */
    method SyncFromStorage(key: string, stored: Ledger.Stored)
      requires Valid()
      modifies this`orders
      ensures Valid()
      ensures orders == if key == Ledger.StorageKey then Ledger.LoadOrders(stored) else old(orders)
    {
      if key == Ledger.StorageKey {
        orders := Ledger.LoadOrders(stored);
      }
    }

    /** `computeTotals`: one pass over the ledger. */
    method ComputeTotals() returns (t: Ledger.Totals)
      ensures t.totalOrders == |orders|
      ensures t.totalRevenue == Ledger.Revenue(orders)
      ensures t.paidRevenue == Ledger.PaidRevenue(orders)
      ensures t.unpaidRevenue == Ledger.UnpaidRevenue(orders)
      ensures t.totalRevenue == t.paidRevenue + t.unpaidRevenue
    {
      var totalRevenue, paidRevenue, unpaidRevenue := 0, 0, 0;
      for i := 0 to |orders|
        invariant totalRevenue == Ledger.SumOf(orders[..i], Ledger.TotalOf)
        invariant paidRevenue == Ledger.SumOf(orders[..i], Ledger.PaidPart)
        invariant unpaidRevenue == Ledger.SumOf(orders[..i], Ledger.UnpaidPart)
      {
        assert orders[..i + 1][..i] == orders[..i];
        var o := orders[i];
        var total := Ledger.TotalOf(o);
        totalRevenue := totalRevenue + total;
        if o.paid {
          paidRevenue := paidRevenue + total;
        } else {
          unpaidRevenue := unpaidRevenue + total;
        }
      }
      assert orders[..|orders|] == orders;
      Ledger.RevenueSplit(orders);
      t := Ledger.Totals(|orders|, totalRevenue, paidRevenue, unpaidRevenue);
    }

    /** `updateCartTotal`: price × quantity summed over the cart's keys; None where the
        source throws because a key is not on the menu. */
    method UpdateCartTotal() returns (total: Option<int>)
      ensures total == Cart.CartTotal(cart)
    {
      var es := Cart.Entries(cart);
      var sum := 0;
      for i := 0 to |es|
        invariant Cart.EntriesKnown(es[..i])
        invariant sum == Cart.EntriesSum(es[..i], Menu.Price)
      {
        var item := Menu.Find(es[i].0);
        if item.None? {
          assert !Cart.KnownIds(cart);
          return None;
        }
        Cart.EntriesSumStep(es, i, Menu.Price);
        sum := sum + item.value.price * es[i].1;
      }
      assert es[..|es|] == es;
      Cart.KnownFromEntries(es);
      Cart.EntriesSumIsMapSum(cart, Menu.Price);
      total := Some(sum);
    }

    /** `addToCart(id)`. */
    method AddToCart(id: int)
      requires Valid()
      modifies this`cart
      ensures Valid()
      ensures cart == Cart.AfterAdd(old(cart), id)
    {
      cart := cart[id := Cart.Qty(cart, id) + 1];
    }

    /** `changeQty(id, delta)`: store old + delta, then delete the entry if it is not
        positive. */
    method ChangeQty(id: int, delta: int)
      requires Valid()
      modifies this`cart
      ensures Valid()
      ensures cart == Cart.AfterChange(old(cart), id, delta)
    {
      cart := cart[id := Cart.Qty(cart, id) + delta];
      if cart[id] <= 0 {
        cart := cart - {id};
      }
    }

    /** `clearCart`, with the answer to its confirmation dialog. */
    method ClearCart(confirmed: bool)
      requires Valid()
      modifies this`cart
      ensures Valid()
      ensures cart == if confirmed then map[] else old(cart)
    {
      if confirmed {
        cart := map[];
      }
    }

    /** `placeOrder`, given the decimal digits of the clock reading and the creation
        time: the order id is "ORD" and the last six digits. On success the new order
        goes in front of the ledger and the cart is emptied; on a refusal, or where the
        source throws, nothing changes. */
    method PlaceOrder(stamp: string, time: string) returns (outcome: Ledger.PlaceOutcome)
      requires Valid()
      modifies this`cart, this`orders
      ensures Valid()
      ensures outcome == Ledger.PlaceDecision(old(cart), "ORD" + Text.Last(stamp, 6), time)
      ensures orders == if outcome.OrderPlaced? then [outcome.order] + old(orders) else old(orders)
      ensures cart == if outcome.OrderPlaced? then map[] else old(cart)
    {
      if |cart| == 0 {
        return Ledger.CartEmpty;
      }
      if !Cart.KnownIds(cart) {
        return Ledger.UnknownItem;
      }
      var order := Ledger.NewOrder(cart, "ORD" + Text.Last(stamp, 6), time);
      orders := [order] + orders;
      cart := map[];
      outcome := Ledger.OrderPlaced(order);
    }

    /** `payOrder`, given the form's name and card number and the payment time. */
    method PayOrder(cardName: string, cardNumber: string, time: string) returns (outcome: Ledger.PayOutcome)
      requires Valid()
      modifies this`orders
      ensures Valid()
      ensures outcome == Ledger.PayDecision(old(orders), cardName, cardNumber, time)
      ensures orders == if outcome.Charged?
        then Ledger.Settle(old(orders), outcome.index, outcome.payment)
        else old(orders)
    {
      var target := Ledger.FirstPayable(orders);
      if target.None? {
        return Ledger.NoUnpaidOrder;
      }
      var name := Text.Trim(cardName);
      var num := Text.StripSpaces(cardNumber);
      if name == [] || |num| < 6 {
        return Ledger.InvalidCardInput;
      }
      var i := target.value;
      var payment := Ledger.Payment("card", name, Text.Last(num, 4), time);
      orders := orders[i := orders[i].(paid := true, payment := Some(payment))];
      outcome := Ledger.Charged(i, payment);
    }

    /** `updateStatus(id, s)`: overwrite the status of the first order with that id. */
    method UpdateStatus(id: string, s: Ledger.Status)
      requires Valid()
      modifies this`orders
      ensures Valid()
      ensures orders == Ledger.WithStatus(old(orders), id, s)
    {
      var idx := Ledger.IndexOfId(orders, id);
      if idx.None? {
        return;
      }
      orders := orders[idx.value := orders[idx.value].(status := s)];
    }

    /** A click on a kitchen card's button, for an order shown with status `shown`: the
        only button is the next step forward, and a completed order has none. */
    method KitchenAdvance(id: string, shown: Ledger.Status)
      requires Valid()
      modifies this`orders
      ensures Valid()
      ensures orders == match Ledger.KitchenNext(shown)
        case None => old(orders)
        case Some(next) => Ledger.WithStatus(old(orders), id, next)
    {
      match Ledger.KitchenNext(shown)
      case None =>
      case Some(next) =>
        UpdateStatus(id, next);
    }

    /** The owner's "Set" button, with the answer to its prompt (None when cancelled):
        an empty or unknown answer changes nothing, any of the four names is applied. */
    method OwnerSetStatus(id: string, answer: Option<string>)
      requires Valid()
      modifies this`orders
      ensures Valid()
      ensures answer.None? || answer.value == [] ==> orders == old(orders)
      ensures answer.Some? && answer.value != [] ==>
        orders == match Ledger.ParseStatus(answer.value)
          case None => old(orders)
          case Some(s) => Ledger.WithStatus(old(orders), id, s)
    {
      if answer.None? || answer.value == [] {
        return;
      }
      var s := Ledger.ParseStatus(answer.value);
      if s.None? {
        return;
      }
      UpdateStatus(id, s.value);
    }

    /** `showView(target)`: refused for the kitchen and owner views while the role is
        customer (the source then opens the login dialog instead). */
    method ShowView(target: Role) returns (shown: bool)
      modifies this`view
      ensures shown <==> !(target != Customer && role == Customer)
      ensures view == if shown then target else old(view)
      ensures Permitted(role, old(view)) ==> Permitted(role, view)
    {
      if target != Customer && role == Customer {
        return false;
      }
      view := target;
      shown := true;
    }

    /** `setRole(r)`: switching to customer sends a staff view back to the customer view. */
    method SetRole(r: Role)
      requires Valid()
      modifies this`role, this`view
      ensures Valid()
      ensures role == r
      ensures view == if r == Customer then Customer else old(view)
    {
      role := r;
      if r == Customer && (view == Kitchen || view == Owner) {
        var shown := ShowView(Customer);
      }
    }

    /** `handleLogin`, given the role picked and whether the password typed equals that
        role's demo password. A customer role has no password and never matches. */
    method HandleLogin(loginRole: Role, matched: bool) returns (ok: bool)
      requires Valid()
      modifies this`role, this`view
      ensures Valid()
      ensures ok <==> matched && loginRole != Customer
      ensures ok ==> role == loginRole && view == loginRole
      ensures !ok ==> role == old(role) && view == old(view)
    {
      ok := matched && loginRole != Customer;
      if ok {
        SetRole(loginRole);
        var shown := ShowView(if loginRole == Kitchen then Kitchen else Owner);
      }
    }
  }
}
