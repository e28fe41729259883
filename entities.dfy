/** The records the dashboard receives from the demo store and keeps in the
    browser store. Prices are whole cents; a cart's date is reduced to the
    calendar year and month (0 for January, as `Date.getMonth` counts). */
module Entities {
  import opened Wrappers

  type Cents = int

  type Month = m: int | 0 <= m < 12

  datatype Date = Date(year: int, month: Month)

  datatype Name = Name(firstname: string, lastname: string)

  /** A user of the store; users added on the users page carry no username. */
  datatype User = User(id: int, email: string, username: Option<string>, name: Name, phone: string)

  datatype Product = Product(id: int, title: string, price: Cents, description: string,
                             category: string, image: string)

  /** One `{productId, quantity}` entry of a cart as the store sends it. */
  datatype Line = Line(productId: int, quantity: int)

  /** A cart as the store sends it. */
  datatype Cart = Cart(id: int, userId: int, date: Date, products: seq<Line>)

  /** A line of an enriched order: the raw line plus the product it names,
      absent when the product id did not resolve. */
  datatype OrderLine = OrderLine(productId: int, quantity: int, details: Option<Product>)

  /** An enriched order: the cart's own fields, the resolved user (possibly
      absent), the computed total and the resolved lines. */
  datatype Order = Order(id: int, userId: int, date: Date, user: Option<User>,
                         totalPrice: Cents, products: seq<OrderLine>)

  function ProductId(p: Product): int { p.id }

  function UserId(u: User): int { u.id }

  function OrderId(o: Order): int { o.id }
}
