/** The `App` component's state and the handlers that change it. Calls to the database are
    not made here: whether a write succeeded, and the order list read back after it, are
    parameters of the handler that would have made the call. */
module Portal {
  import opened Domain
  import Pricing
  import CartOps
  import Session
  import OrderFlow

  class App {
    var user: Option<User>
    var view: View
    var loginError: string
    var products: seq<Product>
    var users: seq<User>
    var orders: seq<Order>
    var cart: seq<CartLine>

    /** The cart never holds two lines for one product. */
    ghost predicate Valid()
      reads this
    {
      CartOps.UniqueIds(cart)
    }

    /** The state right after the initial load: nobody logged in, the login screen, an
        empty cart and no error, with the three lists as the database returned them. */
    constructor (products: seq<Product>, users: seq<User>, orders: seq<Order>)
      ensures Valid()
      ensures user == None && view == Login && loginError == "" && cart == []
      ensures this.products == products && this.users == users && this.orders == orders
    {
      user := None;
      view := Login;
      loginError := "";
      this.products := products;
      this.users := users;
      this.orders := orders;
      cart := [];
    }

    /** handleLogin: the first user with exactly these credentials is logged in, the error
        is cleared and the home screen of their role is shown; with no such user only the
        error message is set. */
    method HandleLogin(username: string, password: string)
      requires Valid()
      modifies this`user, this`view, this`loginError
      ensures Valid()
      ensures match Session.FindUser(users, username, password)
        case Some(u) => user == Some(u) && loginError == "" && view == Session.HomeView(u)
        case None => user == old(user) && view == old(view) && loginError == "Invalid credentials."
    {
      var found := Session.FindUser(users, username, password);
      match found
      case Some(u) =>
        user := Some(u);
        loginError := "";
        view := Session.HomeView(u);
      case None =>
        loginError := "Invalid credentials.";
    }

    /** handleLogout: forget the user, empty the cart, back to the login screen. */
    method HandleLogout()
      requires Valid()
      modifies this`user, this`cart, this`view
      ensures Valid()
      ensures user == None && cart == [] && view == Login
    {
      user := None;
      cart := [];
      view := Login;
    }

    /** The header's buttons: the logo goes to the catalog, the clock to the order history,
        the cart icon to the cart. */
    method Navigate(target: View)
      requires Valid()
      requires target == Catalog || target == Orders || target == Cart
      modifies this`view
      ensures Valid()
      ensures view == target
    {
      view := target;
    }

    /** addToCart: the unit price is worked out for the current user now; an existing line
        for the product keeps its earlier price and only gains quantity. */
    method AddToCart(product: Product, qty: int)
      requires Valid()
      modifies this`cart
      ensures Valid()
      ensures cart == CartOps.AddLine(old(cart), product, qty, Pricing.UnitPrice(user, product.price))
      ensures old(CartOps.PositiveQtys(cart)) && qty >= 1 ==> CartOps.PositiveQtys(cart)
    {
      var finalPrice := Pricing.UnitPrice(user, product.price);
      cart := CartOps.AddLine(cart, product, qty, finalPrice);
    }

    /** updateQuantity: ignored below one, otherwise the lines for `id` get `newQty`. */
    method UpdateQuantity(id: string, newQty: int)
      requires Valid()
      modifies this`cart
      ensures Valid()
      ensures newQty < 1 ==> cart == old(cart)
      ensures cart == CartOps.SetQty(old(cart), id, newQty)
      ensures old(CartOps.PositiveQtys(cart)) ==> CartOps.PositiveQtys(cart)
    {
      if newQty < 1 {
        return;
      }
      cart := CartOps.SetQty(cart, id, newQty);
    }

    /** removeFromCart: the lines for `id` disappear, the others keep their order. */
    method RemoveFromCart(id: string)
      requires Valid()
      modifies this`cart
      ensures Valid()
      ensures cart == CartOps.RemoveLine(old(cart), id)
      ensures !CartOps.HasLine(cart, id)
      ensures old(CartOps.PositiveQtys(cart)) ==> CartOps.PositiveQtys(cart)
    {
      cart := CartOps.RemoveLine(cart, id);
    }

    /** placeOrder: sends the order row and one item per cart line. Only a successful write
        empties the cart, takes the order list read back afterwards and shows the history;
        a failed one leaves everything as it was. The handler reads `user.id`, so it is
        only reached with someone logged in. */
    method PlaceOrder(grandTotal: int, dbSuccess: bool, refreshed: seq<Order>)
      returns (request: NewOrder)
      requires Valid() && user.Some?
      modifies this`cart, this`orders, this`view
      ensures Valid()
      ensures request == OrderFlow.BuildOrder(user.value.id, grandTotal, old(cart))
      ensures dbSuccess ==> cart == [] && orders == refreshed && view == Orders
      ensures !dbSuccess ==> cart == old(cart) && orders == old(orders) && view == old(view)
    {
      request := OrderFlow.BuildOrder(user.value.id, grandTotal, cart);
      if dbSuccess {
        cart := [];
        orders := refreshed;
        view := Orders;
      }
    }

    /** The cart screen's "Confirm Purchase Order" button: places the order for the grand
        total the screen shows, so the recorded total is the invoice of the items sent. */
    method ConfirmPurchase(dbSuccess: bool, refreshed: seq<Order>) returns (request: NewOrder)
      requires Valid() && user.Some?
      modifies this`cart, this`orders, this`view
      ensures Valid()
      ensures request.total == Pricing.CartInvoice(old(cart)).grandTotal
      ensures request.total == Pricing.InvoiceFor(OrderFlow.ItemsSubtotal(request.items)).grandTotal
      ensures request == OrderFlow.BuildOrder(user.value.id, request.total, old(cart))
      ensures dbSuccess ==> cart == [] && orders == refreshed && view == Orders
      ensures !dbSuccess ==> cart == old(cart) && orders == old(orders) && view == old(view)
    {
      OrderFlow.OrderTotalIsInvoiceOfItems(user.value.id, cart);
      var invoice := Pricing.CartInvoice(cart);
      request := PlaceOrder(invoice.grandTotal, dbSuccess, refreshed);
    }

    /** updateOrderStatus: after a successful write the order list is replaced by the one
        read back; after a failed one nothing changes. */
    method UpdateOrderStatus(orderId: string, newStatus: Status, dbSuccess: bool,
                             refreshed: seq<Order>)
      requires Valid()
      modifies this`orders
      ensures Valid()
      ensures orders == if dbSuccess then refreshed else old(orders)
    {
      if dbSuccess {
        orders := refreshed;
      }
    }

    /** The status button of the `i`-th order on the admin console. It exists only for a
        pending or a packed order, and asks for the next status along the line, never a
        later or an earlier one. */
    method AdvanceOrder(i: nat, dbSuccess: bool, refreshed: seq<Order>)
      returns (sent: Option<StatusChange>)
      requires Valid() && i < |orders|
      modifies this`orders
      ensures Valid()
      ensures sent.None? <==> old(orders[i].status) == Delivered
      ensures sent.Some? ==> sent.value.orderId == old(orders[i].id)
      ensures sent.Some? ==>
        OrderFlow.Rank(sent.value.newStatus) == OrderFlow.Rank(old(orders[i].status)) + 1
      ensures orders == if sent.Some? && dbSuccess then refreshed else old(orders)
    {
      var order := orders[i];
      match OrderFlow.NextStatus(order.status)
      case Some(next) =>
        sent := Some(StatusChange(order.id, next));
        UpdateOrderStatus(order.id, next, dbSuccess, refreshed);
      case None =>
        sent := None;
    }
  }

  /** An end-to-end walk-through: a retailer with a 10% tier logs in, adds
      two of a 500-rupee part, sees 900 / 18 / 918 / 166 / 1084 and places the order. */
  method RetailerWalkThrough(placed: seq<Order>) {
    var retailer := User("u2", "Shop", "ravi", "pw", "retailer", 10);
    var part := Product("p1", "Clutch Plate", "CP-100", "Engine", 500, 40);
    var app := new App([part], [retailer], []);
    app.HandleLogin("ravi", "pw");
    assert app.user == Some(retailer) && app.view == Catalog;
    assert Pricing.UnitPrice(app.user, part.price) == 450;
    app.AddToCart(part, 1);
    app.AddToCart(part, 1);
    var lines := app.cart;
    assert lines == [CartLine(part, 2, 450)] by {
      CartOps.PriceLockedAtFirstAdd([], part, 1, 1, 450, 450);
    }
    assert lines[..0] == [];
    assert Pricing.Subtotal(lines) == 900;
    assert Pricing.InvoiceFor(900) == Pricing.Invoice(900, 18, 918, 166, 1084);
    assert Pricing.CartInvoice(lines) == Pricing.Invoice(900, 18, 918, 166, 1084);
    var request := app.ConfirmPurchase(true, placed);
    assert request.total == 1084 && app.cart == [] && app.view == Orders;
  }
}
