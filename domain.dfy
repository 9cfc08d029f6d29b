/** The records the portal keeps in component state, as the database hands them over. */
module Domain {

  datatype Option<T> = None | Some(value: T)

  /** The screen selector; any value the render switch does not name shows the catalog. */
  datatype View = Login | Catalog | Cart | Orders | Admin

  /** A row of the `users` table. `role` is free text; only "admin" is special. */
  datatype User = User(id: string, name: string, username: string, password: string,
                       role: string, discount: int)

  predicate IsAdmin(u: User) {
    u.role == "admin"
  }

  /** A row of the `products` table; `price` is the base (list) price in whole rupees. */
  datatype Product = Product(id: string, name: string, partNumber: string, category: string,
                             price: int, stock: int)

  /** A cart line is the product record spread out, plus the quantity and the unit price
      locked in when the line was first added. */
  datatype CartLine = CartLine(product: Product, qty: int, finalPrice: int) {
    function Id(): string {
      product.id
    }
  }

  /** Fulfilment status as stored on an order. */
  datatype Status = Pending | Packed | Delivered

  /** An order as fetched back from the database, joined with its lines. */
  datatype OrderLine = OrderLine(name: string, qty: int, price: int)
  datatype Order = Order(id: string, userId: string, date: string, status: Status, total: int,
                         customerName: string, items: seq<OrderLine>)

  /** What placing an order sends to the database: the order row and one item per cart line. */
  datatype OrderItem = OrderItem(productId: string, quantity: int, priceAtOrder: int)
  datatype NewOrder = NewOrder(userId: string, total: int, items: seq<OrderItem>)

  /** What an admin status button sends to the database. */
  datatype StatusChange = StatusChange(orderId: string, newStatus: Status)
}
