/** Orders: what placing one sends to the database, who may see which orders, the admin
    dashboard counts, and the status buttons of the admin console. */
module OrderFlow {
  import opened Domain
  import opened Seqs
  import Pricing

  // ---------------------------------------------------------------- placing an order

  /** `cart.map(...)` of placeOrder: one item per cart line, same order, carrying the line's
      product id, quantity and locked unit price. */
  function LineItems(cart: seq<CartLine>): (items: seq<OrderItem>)
    ensures |items| == |cart|
    ensures forall i :: 0 <= i < |cart| ==>
      items[i] == OrderItem(cart[i].Id(), cart[i].qty, cart[i].finalPrice)
  {
    Map(cart, (l: CartLine) => OrderItem(l.Id(), l.qty, l.finalPrice))
  }

  /** The order row and its items for the logged-in user and the grand total passed in. */
  function BuildOrder(userId: string, grandTotal: int, cart: seq<CartLine>): (o: NewOrder)
    ensures o.userId == userId && o.total == grandTotal
    ensures |o.items| == |cart|
    ensures forall i :: 0 <= i < |cart| ==>
      o.items[i].productId == cart[i].Id() && o.items[i].quantity == cart[i].qty &&
      o.items[i].priceAtOrder == cart[i].finalPrice
  {
    NewOrder(userId, grandTotal, LineItems(cart))
  }

  /** The invoice subtotal of the items sent: the sum of price at order times quantity,
      added left to right. It is the sum `Pricing.Subtotal` takes over cart lines, taken
      over the order items instead, and LineItemsKeepSubtotal shows the two agree. */
  function ItemsSubtotal(items: seq<OrderItem>): int {
    if items == [] then 0
    else ItemsSubtotal(items[..|items| - 1]) + items[|items| - 1].priceAtOrder * items[|items| - 1].quantity
  }

  /** The items carry exactly the amounts the cart was invoiced on. */
  lemma {:induction false} LineItemsKeepSubtotal(cart: seq<CartLine>)
    ensures ItemsSubtotal(LineItems(cart)) == Pricing.Subtotal(cart)
  {
    if cart != [] {
      var init := cart[..|cart| - 1];
      LineItemsKeepSubtotal(init);
      var items := LineItems(cart);
      assert items[..|items| - 1] == LineItems(init);
    }
  }

  /** An order submitted with the cart screen's grand total records a total equal to the
      invoice of its own items: the stored total is never recomputed from current prices. */
  lemma OrderTotalIsInvoiceOfItems(userId: string, cart: seq<CartLine>)
    ensures var o := BuildOrder(userId, Pricing.CartInvoice(cart).grandTotal, cart);
      o.total == Pricing.InvoiceFor(ItemsSubtotal(o.items)).grandTotal
  {
    LineItemsKeepSubtotal(cart);
  }

  // ---------------------------------------------------------------- visibility

  /** Order history: an admin sees every order, anyone else only the orders placed under
      their own id, in the order the list has. */
  function VisibleOrders(u: User, orders: seq<Order>): (r: seq<Order>)
    ensures IsAdmin(u) ==> r == orders
    ensures !IsAdmin(u) ==> forall i :: 0 <= i < |r| ==> r[i] in orders && r[i].userId == u.id
    ensures !IsAdmin(u) ==> forall i :: 0 <= i < |orders| && orders[i].userId == u.id ==> orders[i] in r
    ensures IsSubsequence(r, orders)
  {
    if IsAdmin(u) then
      assert IsSubsequence(orders, orders) by { SubsequenceReflexive(orders); }
      orders
    else
      var own := (o: Order) => o.userId == u.id;
      FilterIsSubsequence(orders, own);
      Filter(orders, own)
  }

  /** A retailer's history gains an order exactly when one of their own is appended.
      Together with filtering's membership law this is the whole behaviour of the list. */
  lemma VisibleOrdersAppend(u: User, orders: seq<Order>, o: Order)
    requires !IsAdmin(u)
    ensures VisibleOrders(u, orders + [o]) ==
      VisibleOrders(u, orders) + (if o.userId == u.id then [o] else [])
  {
    var own := (x: Order) => x.userId == u.id;
    FilterAppend(orders, [o], own);
    FilterSingleton(o, own);
  }

  // ---------------------------------------------------------------- dashboard

  /** `orders.filter(o => o.status === s)`: the orders with status `s`, all of them. */
  function WithStatus(orders: seq<Order>, s: Status): (r: seq<Order>)
    ensures forall i :: 0 <= i < |r| ==> r[i] in orders && r[i].status == s
    ensures forall i :: 0 <= i < |orders| && orders[i].status == s ==> orders[i] in r
  {
    Filter(orders, (o: Order) => o.status == s)
  }

  /** `orders.filter(o => o.status === s).length`. */
  function CountWithStatus(orders: seq<Order>, s: Status): (n: nat)
    ensures n <= |orders|
  {
    |WithStatus(orders, s)|
  }

  /** The three counters together account for every order exactly once. */
  lemma {:induction false} StatusCountsPartition(orders: seq<Order>)
    ensures CountWithStatus(orders, Pending) + CountWithStatus(orders, Packed)
          + CountWithStatus(orders, Delivered) == |orders|
  {
    if orders != [] {
      StatusCountsPartition(orders[1..]);
    }
  }

  /** One more order bumps exactly the counter of its own status. */
  lemma {:induction false} CountAfterAppend(orders: seq<Order>, o: Order, s: Status)
    ensures CountWithStatus(orders + [o], s) == CountWithStatus(orders, s) + (if o.status == s then 1 else 0)
  {
    var p := (x: Order) => x.status == s;
    FilterAppend(orders, [o], p);
    FilterSingleton(o, p);
  }

  // ---------------------------------------------------------------- status workflow

  /** Position of a status along the fulfilment line. */
  function Rank(s: Status): nat {
    match s
    case Pending => 0
    case Packed => 1
    case Delivered => 2
  }

  /** The one button the admin console shows for an order: "Mark as Packed" on a pending
      order, "Mark Dispatched" on a packed one, nothing on a delivered one. */
  function NextStatus(s: Status): (r: Option<Status>)
    ensures r.None? <==> s == Delivered
    ensures r.Some? ==> Rank(r.value) == Rank(s) + 1
  {
    match s
    case Pending => Some(Packed)
    case Packed => Some(Delivered)
    case Delivered => None
  }

  /** Following the offered transition, or staying put when none is offered. */
  function Advance(s: Status): (t: Status)
    ensures Rank(s) <= Rank(t) <= Rank(s) + 1
    ensures t == s <==> s == Delivered
  {
    match NextStatus(s)
    case Some(n) => n
    case None => s
  }

  /** No status is skipped or left behind: every transition goes one step forward, and
      two steps from anywhere end at Delivered, where nothing more happens. */
  lemma StatusIsForwardOnly(s: Status)
    ensures Advance(Pending) == Packed && Advance(Packed) == Delivered
    ensures Advance(Advance(s)) == Delivered
    ensures forall t :: NextStatus(s) == Some(t) ==> Rank(s) < Rank(t)
  {
  }
}
