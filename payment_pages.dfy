/**
 * The two pages a buyer lands on after paying: the gateway's return page
 * (success, failure or pending) and the order confirmation page, which
 * shows the cart as it was when the page opened and then empties the cart.
 */
module PaymentPages {
  import opened Wrappers
  import opened Types
  import opened Price
  import opened Gateway
  import Auth
  import Checkout

  /** The outcome in the return URL's path. */
  datatype ReturnStatus = Success | Failure | PendingPayment

  /** `params.get('external_reference')`: the order id the gateway hands back, or null. */
  function ExternalReference(params: map<string, string>): (id: Option<string>)
    ensures id.Some? <==> "external_reference" in params
    ensures id.Some? ==> id.value == params["external_reference"]
  {
    if "external_reference" in params then Some(params["external_reference"]) else None
  }

  /** `${orderId}` for a query parameter that may be null. */
  function ParamText(v: Option<string>): (s: string)
    ensures v.Some? ==> s == v.value
    ensures v.None? ==> s == "null"
  {
    if v.Some? then v.value else "null"
  }

  /** What the page shows for a status. */
  datatype StatusInfo = StatusInfo(title: string, message: string, orderText: string, color: string)

  /** The fixed wording of a status: everything but the order id. */
  datatype Wording = Wording(title: string, message: string, orderLabel: string, color: string)

  function WordingOf(status: ReturnStatus): Wording {
    match status
    case Success => Wording("¡Gracias por tu compra!",
      "Tu pedido ha sido realizado con éxito y está siendo procesado.",
      "Número de Pedido: ", "text-brand-blue-light")
    case Failure => Wording("Hubo un problema con tu pago",
      "El pago fue rechazado. Por favor, intenta con otro método de pago o contacta a tu banco.",
      "Intento de pedido: ", "text-red-500")
    case PendingPayment => Wording("Tu pago está pendiente",
      "Estamos esperando la confirmación del pago. Te notificaremos por email cuando se complete el proceso.",
      "Pedido: ", "text-yellow-400")
  }

  /** `statusInfo[status]`: the status's wording, with the order id interpolated after its label. */
  function StatusInfoOf(status: ReturnStatus, orderId: Option<string>): (info: StatusInfo)
    ensures info.title == WordingOf(status).title && info.message == WordingOf(status).message
    ensures info.color == WordingOf(status).color
    ensures info.orderText == WordingOf(status).orderLabel + ParamText(orderId)
  {
    var w := WordingOf(status);
    StatusInfo(w.title, w.message, w.orderLabel + ParamText(orderId), w.color)
  }

  /** The order line: shown only for a non-empty order id, with the status's wording. */
  function OrderLine(status: ReturnStatus, orderId: Option<string>): (line: Option<string>)
    ensures line.Some? <==> Truthy(orderId)
    ensures line.Some? ==> line.value == StatusInfoOf(status, orderId).orderText
  {
    if Truthy(orderId) then Some(StatusInfoOf(status, orderId).orderText) else None
  }

  /**
   * The return page's effect: on success the cart is cleared and, for a
   * non-empty order id, that order's pending entry leaves session storage;
   * on failure or pending nothing changes.
   */
  method OnReturn(session: Auth.Session, status: ReturnStatus, params: map<string, string>)
    returns (calls: seq<CartCall>)
    requires session.Valid()
    modifies session
    ensures session.Valid() && session.user == old(session.user)
    ensures status == Success ==> calls == [ClearCart]
    ensures status == Success && Truthy(ExternalReference(params)) ==>
      session.storage == old(session.storage) - {Checkout.PendingKey(ExternalReference(params).value)}
    ensures status != Success || !Truthy(ExternalReference(params)) ==> session.storage == old(session.storage)
    ensures status != Success ==> calls == []
  {
    calls := [];
    var orderId := ExternalReference(params);
    if status == Success {
      calls := calls + [ClearCart];
      if Truthy(orderId) {
        session.RemoveItem(Checkout.PendingKey(orderId.value));
      }
    }
  }

  /** A line of the confirmation summary: name, quantity and amount (None where the price reads as NaN). */
  datatype SummaryLine = SummaryLine(name: string, quantity: int, amount: Option<real>)

  /** The confirmation summary; this page strips "$U" without the space before reading the price. */
  function SummaryLines(items: seq<CartItem>): (lines: seq<SummaryLine>)
    ensures |lines| == |items|
    ensures forall i :: 0 <= i < |items| ==>
      lines[i] == SummaryLine(items[i].product.name, items[i].quantity,
                              LineAmount(UnitPriceNoSpace(items[i].product.price), items[i].quantity))
  {
    seq(|items|, i requires 0 <= i < |items| =>
      SummaryLine(items[i].product.name, items[i].quantity,
                  LineAmount(UnitPriceNoSpace(items[i].product.price), items[i].quantity)))
  }

  /** For a catalog-formatted price the summary shows the amount times the quantity. */
  lemma SummaryAmountOfFormat(items: seq<CartItem>, i: nat, n: nat)
    requires i < |items| && items[i].product.price == FormatPrice(n) && n < 1_000_000
    ensures SummaryLines(items)[i].amount == LineAmount(Some(n as real), items[i].quantity)
  {
    UnitPriceNoSpaceOfFormat(n);
  }

  /** The confirmation page: the id as given and the cart and total captured when it opened. */
  class ConfirmationPage {
    const orderId: string
    var orderedItems: seq<CartItem>
    var orderedTotal: real

    constructor(orderId: string, cart: seq<CartItem>, totalPrice: real)
      ensures this.orderId == orderId && orderedItems == cart && orderedTotal == totalPrice
    {
      this.orderId := orderId;
      orderedItems := cart;
      orderedTotal := totalPrice;
    }

    /** The mount effect clears the cart; the captured lines and total stay as they were. */
    method Mount() returns (calls: seq<CartCall>)
      ensures calls == [ClearCart]
      ensures orderedItems == old(orderedItems) && orderedTotal == old(orderedTotal)
    {
      calls := [ClearCart];
    }

    /** The summary shown: the captured lines. */
    function Summary(): (lines: seq<SummaryLine>)
      reads this
      ensures lines == SummaryLines(orderedItems)
    {
      SummaryLines(orderedItems)
    }

    /** "Número de Pedido: " followed by the id exactly as given. */
    function OrderNumberText(): (t: string)
      ensures t == "Número de Pedido: " + orderId
    {
      "Número de Pedido: " + orderId
    }
  }
}
