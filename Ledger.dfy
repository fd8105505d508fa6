/** The order ledger: order records, the order statuses, the searches `placeOrder`,
    `payOrder` and `updateStatus` perform, the revenue sums of `computeTotals`, and the
    status filters of the kitchen and owner screens. Orders are kept newest first. */
module Ledger {
  import opened Wrappers
  import Search
  import Text
  import Menu
  import Cart

  datatype Status = Placed | Preparing | Ready | Completed

  /** Position of a status on the kitchen's way from placed to completed. */
  function Rank(s: Status): nat {
    match s
    case Placed => 0
    case Preparing => 1
    case Ready => 2
    case Completed => 3
  }

  /** The string the source stores for a status. */
  function StatusName(s: Status): string {
    match s
    case Placed => "placed"
    case Preparing => "preparing"
    case Ready => "ready"
    case Completed => "completed"
  }

  /** The owner's override answer checked against `allowed`: a status name or nothing. */
  function ParseStatus(answer: string): (r: Option<Status>)
    ensures r.Some? ==> StatusName(r.value) == answer
    ensures r.None? <==> forall s: Status :: StatusName(s) != answer
  {
    if answer == "placed" then Some(Placed)
    else if answer == "preparing" then Some(Preparing)
    else if answer == "ready" then Some(Ready)
    else if answer == "completed" then Some(Completed)
    else None
  }

  /** Every status the owner may type is accepted, as itself. */
  lemma {:induction false} ParseStatusName(s: Status)
    ensures ParseStatus(StatusName(s)) == Some(s)
  {
    match s
    case Placed =>
    case Preparing =>
      assert StatusName(s) != "placed";
    case Ready =>
      assert StatusName(s) != "placed" && StatusName(s) != "preparing";
    case Completed =>
      assert StatusName(s) != "placed" && StatusName(s) != "preparing" && StatusName(s) != "ready";
  }

  /** The single button the kitchen screen shows for an order: one step forward, and
      none for a completed order. */
  function KitchenNext(s: Status): (r: Option<Status>)
    ensures r.None? <==> s == Completed
    ensures r.Some? ==> Rank(r.value) == Rank(s) + 1
  {
    match s
    case Placed => Some(Preparing)
    case Preparing => Some(Ready)
    case Ready => Some(Completed)
    case Completed => None
  }

  datatype Payment = Payment(kind: string, cardName: string, cardLast4: string, time: string)

  /** An order record. `total` is None when a stored record has no total. */
  datatype Order = Order(
    id: string,
    items: seq<Cart.LineItem>,
    status: Status,
    paid: bool,
    total: Option<int>,
    time: string,
    payment: Option<Payment>)

  /** `o.total || 0`. */
  function TotalOf(o: Order): int {
    if o.total.Some? then o.total.value else 0
  }

  function PaidPart(o: Order): int {
    if o.paid then TotalOf(o) else 0
  }

  function UnpaidPart(o: Order): int {
    if o.paid then 0 else TotalOf(o)
  }

  /** The sum of `f` over the ledger, accumulated in ledger order. */
  function SumOf(orders: seq<Order>, f: Order -> int): int {
    if orders == [] then 0
    else SumOf(orders[..|orders| - 1], f) + f(orders[|orders| - 1])
  }

  function Revenue(orders: seq<Order>): int {
    SumOf(orders, TotalOf)
  }

  function PaidRevenue(orders: seq<Order>): int {
    SumOf(orders, PaidPart)
  }

  function UnpaidRevenue(orders: seq<Order>): int {
    SumOf(orders, UnpaidPart)
  }

  /** The owner's counters: order count and revenue, split by the paid flag. */
  datatype Totals = Totals(totalOrders: nat, totalRevenue: int, paidRevenue: int, unpaidRevenue: int)

  /** Total revenue is paid plus unpaid revenue. */
  lemma {:induction false} RevenueSplit(orders: seq<Order>)
    ensures Revenue(orders) == PaidRevenue(orders) + UnpaidRevenue(orders)
  {
    if orders != [] {
      RevenueSplit(orders[..|orders| - 1]);
    }
  }

  /** Prepending an order adds its share to a sum. */
  lemma {:induction false} SumCons(o: Order, orders: seq<Order>, f: Order -> int)
    ensures SumOf([o] + orders, f) == f(o) + SumOf(orders, f)
    decreases |orders|
  {
    if orders != [] {
      var n := |orders| - 1;
      assert ([o] + orders)[..n + 1] == [o] + orders[..n];
      SumCons(o, orders[..n], f);
    }
  }

  /** Replacing one order changes a sum by the difference of the two shares. */
  lemma {:induction false} SumUpdate(orders: seq<Order>, i: nat, o: Order, f: Order -> int)
    requires i < |orders|
    ensures SumOf(orders[i := o], f) == SumOf(orders, f) - f(orders[i]) + f(o)
    decreases |orders|
  {
    var n := |orders| - 1;
    var after := orders[i := o];
    if i < n {
      assert after[..n] == orders[..n][i := o];
      SumUpdate(orders[..n], i, o, f);
    } else {
      assert after[..n] == orders[..n];
    }
  }

  /** `orders.find(o => !o.paid && o.status !== 'completed')`. */
  predicate Payable(o: Order) {
    !o.paid && o.status != Completed
  }

  /** The index of the order `payOrder` charges: the first payable one, which is the
      most recent since the ledger is newest first. */
  function FirstPayable(orders: seq<Order>): (r: Option<nat>)
    ensures r.Some? ==> r.value < |orders| && Payable(orders[r.value])
    ensures r.Some? ==> forall j :: 0 <= j < r.value ==> !Payable(orders[j])
    ensures r.None? <==> forall j :: 0 <= j < |orders| ==> !Payable(orders[j])
  {
    Search.FirstIndex(orders, Payable)
  }

  /** `orders.findIndex(o => o.id === id)`. */
  function IndexOfId(orders: seq<Order>, id: string): (r: Option<nat>)
    ensures r.Some? ==> r.value < |orders| && orders[r.value].id == id
    ensures r.Some? ==> forall j :: 0 <= j < r.value ==> orders[j].id != id
    ensures r.None? <==> forall j :: 0 <= j < |orders| ==> orders[j].id != id
  {
    Search.FirstIndex(orders, (o: Order) => o.id == id)
  }

  /** The ledger after `updateStatus(id, s)`: only the status of the first order with
      that id changes; an unknown id changes nothing. */
  function WithStatus(orders: seq<Order>, id: string, s: Status): (r: seq<Order>)
    ensures |r| == |orders|
    ensures IndexOfId(orders, id).None? ==> r == orders
    ensures forall j :: 0 <= j < |r| ==> r[j] == orders[j].(status := r[j].status)
    ensures forall j :: 0 <= j < |r| ==>
      r[j].status == if IndexOfId(orders, id) == Some(j) then s else orders[j].status
  {
    match IndexOfId(orders, id)
    case None => orders
    case Some(i) => orders[i := orders[i].(status := s)]
  }

  /** A later status update of the same order replaces an earlier one. */
  lemma StatusOverwrite(orders: seq<Order>, id: string, s1: Status, s2: Status)
    ensures WithStatus(WithStatus(orders, id, s1), id, s2) == WithStatus(orders, id, s2)
  {
    var mid := WithStatus(orders, id, s1);
    assert forall j :: 0 <= j < |mid| ==> mid[j].id == orders[j].id;
    assert IndexOfId(mid, id) == IndexOfId(orders, id);
  }

  /** Applying the same status update twice is the same as applying it once. */
  lemma StatusIdempotent(orders: seq<Order>, id: string, s: Status)
    ensures WithStatus(WithStatus(orders, id, s), id, s) == WithStatus(orders, id, s)
  {
    StatusOverwrite(orders, id, s, s);
  }

  /** Status updates never change the owner's revenue figures. */
  lemma StatusKeepsRevenue(orders: seq<Order>, id: string, s: Status)
    ensures Revenue(WithStatus(orders, id, s)) == Revenue(orders)
    ensures PaidRevenue(WithStatus(orders, id, s)) == PaidRevenue(orders)
    ensures UnpaidRevenue(WithStatus(orders, id, s)) == UnpaidRevenue(orders)
  {
    match IndexOfId(orders, id)
    case None =>
    case Some(i) =>
      var o := orders[i].(status := s);
      SumUpdate(orders, i, o, TotalOf);
      SumUpdate(orders, i, o, PaidPart);
      SumUpdate(orders, i, o, UnpaidPart);
  }

  /** The ledger after a successful `payOrder` on the order at `i`: it is marked paid and
      carries the payment; nothing else changes. */
  function Settle(orders: seq<Order>, i: nat, payment: Payment): (r: seq<Order>)
    requires i < |orders|
    ensures |r| == |orders|
    ensures forall j :: 0 <= j < |r| && j != i ==> r[j] == orders[j]
    ensures r[i].paid && r[i].payment == Some(payment)
    ensures r[i].id == orders[i].id && r[i].items == orders[i].items
    ensures r[i].status == orders[i].status && r[i].total == orders[i].total && r[i].time == orders[i].time
  {
    orders[i := orders[i].(paid := true, payment := Some(payment))]
  }

  /** Paying an unpaid order moves its total from unpaid to paid revenue. */
  lemma PaymentMovesRevenue(orders: seq<Order>, i: nat, payment: Payment)
    requires i < |orders| && !orders[i].paid
    ensures PaidRevenue(Settle(orders, i, payment)) == PaidRevenue(orders) + TotalOf(orders[i])
    ensures UnpaidRevenue(Settle(orders, i, payment)) == UnpaidRevenue(orders) - TotalOf(orders[i])
    ensures Revenue(Settle(orders, i, payment)) == Revenue(orders)
  {
    var o := orders[i].(paid := true, payment := Some(payment));
    SumUpdate(orders, i, o, TotalOf);
    SumUpdate(orders, i, o, PaidPart);
    SumUpdate(orders, i, o, UnpaidPart);
  }

  /** After a payment the next payment targets a strictly older order, if any: no
      order is charged twice. */
  lemma PaymentAdvancesTarget(orders: seq<Order>, i: nat, payment: Payment)
    requires FirstPayable(orders) == Some(i)
    ensures var next := FirstPayable(Settle(orders, i, payment));
      next.None? || next.value > i
  {
    var after := Settle(orders, i, payment);
    assert forall j :: 0 <= j <= i ==> !Payable(after[j]);
  }

  datatype PayOutcome = Charged(index: nat, payment: Payment) | NoUnpaidOrder | InvalidCardInput

  /** What `payOrder` does with the ledger and the form fields: look for the target
      order first, then check the name and the card number. */
  function PayDecision(orders: seq<Order>, cardName: string, cardNumber: string, time: string): (r: PayOutcome)
    ensures r == NoUnpaidOrder <==> FirstPayable(orders).None?
    ensures r == InvalidCardInput <==>
      FirstPayable(orders).Some? && (Text.Trim(cardName) == [] || |Text.StripSpaces(cardNumber)| < 6)
    ensures r.Charged? ==> FirstPayable(orders) == Some(r.index)
    ensures r.Charged? ==> r.payment.kind == "card" && r.payment.time == time
    ensures r.Charged? ==> r.payment.cardName == Text.Trim(cardName) && r.payment.cardName != []
    ensures r.Charged? ==> var digits := Text.StripSpaces(cardNumber);
      |r.payment.cardLast4| == 4 && r.payment.cardLast4 == digits[|digits| - 4..]
  {
    match FirstPayable(orders)
    case None => NoUnpaidOrder
    case Some(i) =>
      var name := Text.Trim(cardName);
      var num := Text.StripSpaces(cardNumber);
      if name == [] || |num| < 6 then InvalidCardInput
      else Charged(i, Payment("card", name, Text.Last(num, 4), time))
  }

  /** The order `placeOrder` builds from a cart whose ids are all on the menu. */
  function NewOrder(cart: Cart.CartMap, id: string, time: string): (r: Order)
    requires Cart.KnownIds(cart)
    ensures r.id == id && r.time == time
    ensures r.status == Placed && !r.paid && r.payment == None
    ensures r.total == Cart.CartTotal(cart)
    ensures r.total == Some(Cart.ItemsTotal(r.items))
    ensures |r.items| == |cart|
    ensures forall j :: 0 <= j < |r.items| ==>
      r.items[j].id in cart && r.items[j].qty == cart[r.items[j].id] && r.items[j].price == Menu.Price(r.items[j].id)
    ensures forall j, k :: 0 <= j < k < |r.items| ==> r.items[j].id < r.items[k].id
  {
    Cart.SnapshotTotal(cart);
    var items := Cart.ToItems(Cart.Entries(cart));
    Order(id, items, Placed, false, Some(Cart.ItemsTotal(items)), time, None)
  }

  datatype PlaceOutcome = OrderPlaced(order: Order) | CartEmpty | UnknownItem

  /** What `placeOrder` does with a cart: an empty cart is refused, a cart holding an id
      that is not on the menu makes the source throw, any other cart becomes an order. */
  function PlaceDecision(cart: Cart.CartMap, id: string, time: string): (r: PlaceOutcome)
    ensures r == CartEmpty <==> cart == map[]
    ensures r == UnknownItem <==> cart != map[] && !Cart.KnownIds(cart)
    ensures r.OrderPlaced? ==> Cart.KnownIds(cart) && r.order == NewOrder(cart, id, time)
  {
    if |cart| == 0 then
      assert cart == map[];
      CartEmpty
    else if !Cart.KnownIds(cart) then UnknownItem
    else OrderPlaced(NewOrder(cart, id, time))
  }

  /** Placing an order adds one to the count and its total to unpaid revenue, and the
      next payment targets it. */
  lemma PlacedOrderEffects(o: Order, orders: seq<Order>)
    requires o.status == Placed && !o.paid
    ensures PaidRevenue([o] + orders) == PaidRevenue(orders)
    ensures UnpaidRevenue([o] + orders) == UnpaidRevenue(orders) + TotalOf(o)
    ensures Revenue([o] + orders) == Revenue(orders) + TotalOf(o)
    ensures FirstPayable([o] + orders) == Some(0)
  {
    SumCons(o, orders, TotalOf);
    SumCons(o, orders, PaidPart);
    SumCons(o, orders, UnpaidPart);
  }

  /** `orders.filter(o => o.status !== 'completed')`: the kitchen's active orders. */
  function ActiveOrders(orders: seq<Order>): (r: seq<Order>)
    ensures |r| <= |orders|
    ensures |orders| == 1 ==> r == if orders[0].status != Completed then orders else []
    ensures forall o :: o in r <==> o in orders && o.status != Completed
  {
    if orders == [] then []
    else
      var rest := ActiveOrders(orders[1..]);
      assert forall o :: o in orders <==> o == orders[0] || o in orders[1..];
      if orders[0].status != Completed then [orders[0]] + rest else rest
  }

  /** The owner's filter: 'all' or one status. */
  datatype OwnerFilter = All | Only(status: Status)

  predicate Shows(f: OwnerFilter, o: Order) {
    f.All? || o.status == f.status
  }

  /** `orders.filter(o => filter === 'all' ? true : o.status === filter)`. */
  function OwnerRows(orders: seq<Order>, f: OwnerFilter): (r: seq<Order>)
    ensures |r| <= |orders|
    ensures |orders| == 1 ==> r == if Shows(f, orders[0]) then orders else []
    ensures forall o :: o in r <==> o in orders && Shows(f, o)
    ensures f == All ==> r == orders
  {
    if orders == [] then []
    else
      var rest := OwnerRows(orders[1..], f);
      assert forall o :: o in orders <==> o == orders[0] || o in orders[1..];
      if Shows(f, orders[0]) then [orders[0]] + rest else rest
  }

  /** The kitchen filter works order by order: it keeps ledger order and every
      occurrence of an order it lists. */
  lemma {:induction false} ActiveOrdersAppend(a: seq<Order>, b: seq<Order>)
    ensures ActiveOrders(a + b) == ActiveOrders(a) + ActiveOrders(b)
    decreases |a|
  {
    if a == [] {
      assert a + b == b;
    } else {
      assert (a + b)[1..] == a[1..] + b;
      ActiveOrdersAppend(a[1..], b);
    }
  }

  /** The owner filter works order by order: it keeps ledger order and every
      occurrence of an order it lists. */
  lemma {:induction false} OwnerRowsAppend(a: seq<Order>, b: seq<Order>, f: OwnerFilter)
    ensures OwnerRows(a + b, f) == OwnerRows(a, f) + OwnerRows(b, f)
    decreases |a|
  {
    if a == [] {
      assert a + b == b;
    } else {
      assert (a + b)[1..] == a[1..] + b;
      OwnerRowsAppend(a[1..], b, f);
    }
  }

  /** The four single-status owner views list every order exactly once between them,
      and the kitchen lists exactly those the 'completed' view does not. */
  lemma {:induction false} FiltersPartition(orders: seq<Order>)
    ensures |OwnerRows(orders, Only(Placed))| + |OwnerRows(orders, Only(Preparing))|
      + |OwnerRows(orders, Only(Ready))| + |OwnerRows(orders, Only(Completed))| == |orders|
    ensures |ActiveOrders(orders)| + |OwnerRows(orders, Only(Completed))| == |orders|
  {
    if orders != [] {
      FiltersPartition(orders[1..]);
    }
  }

  /** The local-storage key under which the ledger is kept. */
  const StorageKey := "smartqr_orders_v1"

  /** What the ledger key of local storage held: nothing, text that does not parse, or
      a parsed array of orders. */
  datatype Stored = Missing | Unparsable | Parsed(ledger: seq<Order>)

  /** `loadOrders`: a missing key reads as '[]', and a parse failure as the empty ledger. */
  function LoadOrders(stored: Stored): (r: seq<Order>)
    ensures stored.Parsed? ==> r == stored.ledger
    ensures !stored.Parsed? ==> r == []
  {
    match stored
    case Missing => []
    case Unparsable => []
    case Parsed(ledger) => ledger
  }
}
