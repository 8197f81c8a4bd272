/**
 * The storefront's records: products with their reviews, cart and order
 * lines, orders, the signed-in user, the advisor's answers and results, and
 * chat messages. Optional fields are `Option`s.
 */
module Types {
  import opened Wrappers

  /** A review; the rating is documented to lie between 1 and 5. */
  datatype Review = Review(
    id: string,
    author: string,
    avatar: Option<string>,
    rating: int,
    comment: string,
    date: string)

  /** A catalog product. `price` is display text such as "$U 1.450"; `reviews` may be absent. */
  datatype Product = Product(
    id: int,
    name: string,
    category: string,
    price: string,
    stock: int,
    imageUrl: string,
    description: string,
    features: seq<string>,
    reviews: Option<seq<Review>>)

  /** A product's reviews, an absent list read as empty (`product.reviews || []`). */
  function ReviewsOf(p: Product): (r: seq<Review>)
    ensures p.reviews.None? ==> r == []
    ensures p.reviews.Some? ==> r == p.reviews.value
  {
    p.reviews.GetOr([])
  }

  /** No two products of the list share an id. */
  predicate UniqueIds(ps: seq<Product>) {
    forall i, j :: 0 <= i < j < |ps| ==> ps[i].id != ps[j].id
  }

  /** A line of the cart. */
  datatype CartItem = CartItem(product: Product, quantity: int)

  /** A line of an order: the same shape as a cart line. */
  datatype OrderItem = OrderItem(product: Product, quantity: int)

  /**
   * Order status. The client's order type admits Pending, Shipped, Delivered
   * and Cancelled; the payment webhook also writes Processing to the store.
   */
  datatype OrderStatus = Pending | Processing | Shipped | Delivered | Cancelled

  /** The four statuses the client-side order type admits. */
  predicate IsClientStatus(s: OrderStatus) {
    s != Processing
  }

  datatype Order = Order(
    id: string,
    date: string,
    customerName: string,
    customerEmail: string,
    items: seq<OrderItem>,
    total: real,
    status: OrderStatus)

  datatype Currency = UYU | USD

  /** The signed-in user; avatar, currency and orders may be absent. */
  datatype User = User(
    name: string,
    email: string,
    avatar: Option<string>,
    currency: Option<Currency>,
    orders: Option<seq<Order>>)

  /** A user's orders, an absent list read as empty (`user.orders || []`). */
  function OrdersOf(u: User): (r: seq<Order>)
    ensures u.orders.None? ==> r == []
    ensures u.orders.Some? ==> r == u.orders.value
  {
    u.orders.GetOr([])
  }

  datatype AdvisorAnswers = AdvisorAnswers(smokingHabit: string, vapingGoal: string, preference: string)

  datatype Recommendation = Recommendation(productName: string, productType: string, reasoning: string, imageUrl: string)

  datatype Sender = UserSender | Bot

  datatype ChatMessage = ChatMessage(sender: Sender, text: string)

  /**
   * A call into the cart, whose implementation is not part of this model:
   * handlers are specified by the calls they issue, in order.
   */
  datatype CartCall = AddToCart(product: Product) | ClearCart

  /** A sequence of cart lines copied field for field into order lines. */
  function ItemsFromCart(cart: seq<CartItem>): (items: seq<OrderItem>)
    ensures |items| == |cart|
    ensures forall i :: 0 <= i < |cart| ==>
      items[i].product == cart[i].product && items[i].quantity == cart[i].quantity
  {
    seq(|cart|, i requires 0 <= i < |cart| => OrderItem(cart[i].product, cart[i].quantity))
  }
}
