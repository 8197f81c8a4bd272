/**
 * The checkout page: it checks the buyer's name and email, snapshots the
 * cart into a Pending order, keeps that order in session storage (and in
 * the user's history when signed in), builds the payment session's lines
 * and follows the payment function's answer: to the session URL, or back to
 * the form with an error.
 */
module Checkout {
  import opened Wrappers
  import opened Text
  import opened Types
  import opened Price
  import opened Gateway
  import Auth

  /** The session-storage key of a pending order. */
  function PendingKey(orderId: string): (k: string)
    ensures k == "pendingOrder-" + orderId
    ensures k != Auth.UserKey
  {
    var k := "pendingOrder-" + orderId;
    assert k[0] == 'p';
    k
  }

  /** One payment line per cart line: the product id in decimal, its name, the quantity and the parsed price in pesos. */
  function PreferenceItems(cart: seq<CartItem>): (items: seq<PreferenceItem>)
    ensures |items| == |cart|
    ensures forall i :: 0 <= i < |cart| ==>
      items[i] == PreferenceItem(IntToString(cart[i].product.id), cart[i].product.name, cart[i].quantity,
                                 UnitPrice(cart[i].product.price), "UYU")
  {
    seq(|cart|, i requires 0 <= i < |cart| => PreferenceItem(IntToString(cart[i].product.id), cart[i].product.name,
                                                            cart[i].quantity, UnitPrice(cart[i].product.price), "UYU"))
  }

  /** A line's id reads back as the product id, and a catalog-formatted price reads back as its amount. */
  lemma PreferenceItemRoundTrip(cart: seq<CartItem>, i: nat, n: nat)
    requires i < |cart| && cart[i].product.price == FormatPrice(n) && n < 1_000_000
    ensures ParseInt(PreferenceItems(cart)[i].id) == Some(cart[i].product.id)
    ensures PreferenceItems(cart)[i].unitPrice == Some(n as real)
  {
    ParseIntOfIntToString(cart[i].product.id);
    UnitPriceOfFormat(n);
  }

  /** What the browser sends to the payment function: the lines and the snapshot's id. */
  datatype CheckoutRequest = CheckoutRequest(items: seq<PreferenceItem>, orderId: string)

  /**
   * The payment function's answer as the page reads it: a non-OK status with
   * the `error` field of its body, an OK body with or without `init_point`,
   * or an exception (network, JSON) with its message.
   */
  datatype ServerAnswer = NotOk(error: Option<string>) | Ok(initPoint: Option<string>) | Threw(message: string)

  /** Where the page ends up: at the session URL, or on the form with an error. */
  datatype Next = Navigate(url: string) | ShowError(message: string)

  const NoPaymentLink: string := "No se pudo generar el link de pago."
  const InvalidAnswer: string := "Respuesta inválida del servidor."
  const MissingDetails: string := "Por favor, completa tu nombre y email antes de pagar."

  /** The `try` block's result: navigate only to a non-empty `init_point` of an OK answer. */
  function AnswerNext(answer: ServerAnswer): (n: Next)
    ensures n.Navigate? <==> answer.Ok? && Truthy(answer.initPoint)
    ensures n.Navigate? ==> n.url == answer.initPoint.value
    ensures answer.NotOk? ==> n == ShowError(if Truthy(answer.error) then answer.error.value else NoPaymentLink)
    ensures answer.Ok? && !Truthy(answer.initPoint) ==> n == ShowError(InvalidAnswer)
    ensures answer.Threw? ==> n == ShowError(answer.message)
  {
    match answer
    case NotOk(error) => ShowError(if Truthy(error) then error.value else NoPaymentLink)
    case Ok(url) => if Truthy(url) then Navigate(url.value) else ShowError(InvalidAnswer)
    case Threw(message) => ShowError(message)
  }

  /** The order the page snapshots from the cart: upper-cased id, the cart's lines and total, status Pending. */
  function Snapshot(rawId: string, date: string, name: string, email: string, cart: seq<CartItem>, totalPrice: real): (o: Order)
    ensures o.id == Upper(rawId) && Upper(o.id) == o.id
    ensures o.items == ItemsFromCart(cart) && o.total == totalPrice && o.status == Pending
    ensures o.date == date && o.customerName == name && o.customerEmail == email
  {
    UpperIdempotent(rawId);
    Order(Upper(rawId), date, name, email, ItemsFromCart(cart), totalPrice, Pending)
  }

  /** An empty cart shows the "cart is empty" notice instead of the form, so no pay button. */
  predicate ShowsPayButton(cart: seq<CartItem>) {
    |cart| > 0
  }

  /** The checkout form. */
  class CheckoutPage {
    var customerName: string
    var customerEmail: string
    var isRedirecting: bool
    var paymentError: Option<string>
    /** The URL the browser was sent to, if any. */
    var location: Option<string>

    /** The fields start from the signed-in user's name and email, or empty. */
    constructor(user: Option<User>)
      ensures customerName == (if user.Some? then user.value.name else [])
      ensures customerEmail == (if user.Some? then user.value.email else [])
      ensures !isRedirecting && paymentError == None && location == None
    {
      customerName := if user.Some? then user.value.name else [];
      customerEmail := if user.Some? then user.value.email else [];
      isRedirecting := false;
      paymentError := None;
      location := None;
    }

    method EditName(value: string)
      modifies this
      ensures customerName == value
      ensures customerEmail == old(customerEmail) && isRedirecting == old(isRedirecting)
      ensures paymentError == old(paymentError) && location == old(location)
    {
      customerName := value;
    }

    method EditEmail(value: string)
      modifies this
      ensures customerEmail == value
      ensures customerName == old(customerName) && isRedirecting == old(isRedirecting)
      ensures paymentError == old(paymentError) && location == old(location)
    {
      customerEmail := value;
    }

    /**
     * `handleCheckoutPro`. With an empty name or email only the error is
     * set: no order, no storage write, no request. Otherwise the snapshot
     * is added to the signed-in user, stored under its pending key, and the
     * request is sent with the payment lines and the snapshot's id; the
     * server's answer either navigates or shows an error and re-enables the
     * button. The random id, the date and the answer are passed in; the
     * cart is only read.
     */
    method Pay(session: Auth.Session, cart: seq<CartItem>, totalPrice: real, rawId: string, date: string,
               answer: ServerAnswer)
      returns (order: Option<Order>, request: Option<CheckoutRequest>)
      requires session.Valid()
      modifies this, session
      ensures session.Valid()
      ensures customerName == old(customerName) && customerEmail == old(customerEmail)
      ensures old(customerName) == [] || old(customerEmail) == [] ==>
        order == None && request == None && paymentError == Some(MissingDetails) &&
        isRedirecting == old(isRedirecting) && location == old(location) &&
        session.user == old(session.user) && session.storage == old(session.storage)
      ensures old(customerName) != [] && old(customerEmail) != [] ==>
        var o := Snapshot(rawId, date, old(customerName), old(customerEmail), cart, totalPrice);
        order == Some(o) &&
        request == Some(CheckoutRequest(PreferenceItems(cart), o.id)) &&
        (old(session.user).Some? ==> session.user == Some(Auth.WithOrder(old(session.user).value, o))) &&
        (old(session.user).None? ==> session.user == None) &&
        session.storage == Auth.Persist(old(session.storage), session.user)[PendingKey(o.id) := Auth.OrderJson(o)]
      ensures request.Some? ==>
        match AnswerNext(answer)
        case Navigate(url) => location == Some(url) && isRedirecting && paymentError == None
        case ShowError(message) => location == old(location) && !isRedirecting && paymentError == Some(message)
    {
      if customerName == [] || customerEmail == [] {
        paymentError := Some(MissingDetails);
        return None, None;
      }
      isRedirecting := true;
      paymentError := None;
      var o := Snapshot(rawId, date, customerName, customerEmail, cart, totalPrice);
      if session.IsAuthenticated() {
        session.AddOrder(o);
      }
      session.SetItem(PendingKey(o.id), Auth.OrderJson(o));
      order := Some(o);
      request := Some(CheckoutRequest(PreferenceItems(cart), o.id));
      match AnswerNext(answer)
      case Navigate(url) =>
        location := Some(url);
      case ShowError(message) =>
        paymentError := Some(message);
        isRedirecting := false;
    }
  }
}
