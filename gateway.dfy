/**
 * The serverless function that opens a Mercado Pago checkout session (a
 * "preference") for the cart, in its two versions: the root one takes the
 * order id only; the later one receives the whole order, writes it to the
 * orders collection first and registers the webhook as the notification URL.
 *
 * The environment, the decoded request body (`JSON.parse`), the gateway
 * call and the store write's failure are parameters.
 */
module Gateway {
  import opened Wrappers
  import opened Types
  import opened Orders

  /** A JavaScript value that passes `if (v)`: present and not the empty string. */
  predicate Truthy(v: Option<string>) {
    v.Some? && v.value != []
  }

  /** One line of the checkout session, as the browser builds it. */
  datatype PreferenceItem = PreferenceItem(id: string, title: string, quantity: int, unitPrice: Option<real>, currencyId: string)

  datatype BackUrls = BackUrls(success: string, failure: string, pending: string)

  /** The body sent to the gateway's preference endpoint. */
  datatype PreferenceBody = PreferenceBody(
    items: seq<PreferenceItem>,
    externalReference: string,
    notificationUrl: Option<string>,
    backUrls: BackUrls,
    autoReturn: string)

  /** What `preference.create` gives back: a session (whose `init_point` may be missing) or an exception. */
  datatype GatewayReply = Created(initPoint: Option<string>) | GatewayFailed(message: string)

  /** A response body: plain text, `{ error }` or `{ init_point }` (an undefined `init_point` is dropped). */
  datatype Body = Plain(text: string) | ErrorJson(error: string) | InitPointJson(initPoint: Option<string>)

  datatype Response = Response(status: int, body: Body)

  /** The result of `JSON.parse` on the request text, destructured: a value or the exception's message. */
  datatype Decoded<T> = Decoded(value: T) | Undecodable(message: string)

  /** The process environment the handlers read. */
  datatype Env = Env(accessToken: Option<string>, webhookSecret: Option<string>, deployPrimeUrl: Option<string>, url: Option<string>)

  const LocalUrl: string := "http://localhost:8888"
  const NotConfigured: string := "El procesador de pagos no está configurado."
  const PreferenceFailed: string := "No se pudo crear la preferencia de pago."

  /** `DEPLOY_PRIME_URL || URL || 'http://localhost:8888'`: the first variable that is set and not empty. */
  function BaseUrl(env: Env): (base: string)
    ensures base != []
    ensures Truthy(env.deployPrimeUrl) ==> base == env.deployPrimeUrl.value
    ensures !Truthy(env.deployPrimeUrl) && Truthy(env.url) ==> base == env.url.value
    ensures !Truthy(env.deployPrimeUrl) && !Truthy(env.url) ==> base == LocalUrl
  {
    if Truthy(env.deployPrimeUrl) then env.deployPrimeUrl.value
    else if Truthy(env.url) then env.url.value
    else LocalUrl
  }

  /** `event.body || '{}'` */
  function RequestText(body: Option<string>): (t: string)
    ensures t != []
    ensures Truthy(body) ==> t == body.value
  {
    if Truthy(body) then body.value else "{}"
  }

  /** The pages the gateway sends the buyer back to. */
  function BackUrlsFor(base: string): (b: BackUrls)
    ensures b.success == base + "/success" && b.failure == base + "/failure" && b.pending == base + "/pending"
  {
    BackUrls(base + "/success", base + "/failure", base + "/pending")
  }

  /** `error.message || default` */
  function MessageOr(message: string, default: string): (m: string)
    ensures message != [] ==> m == message
    ensures message == [] ==> m == default
  {
    if message != [] then message else default
  }

  /** The response to a gateway reply: 200 with the session URL, or 500 with the exception's message. */
  function ReplyResponse(reply: GatewayReply): (r: Response)
    ensures r.status == 200 <==> reply.Created?
    ensures reply.Created? ==> r.body == InitPointJson(reply.initPoint)
    ensures reply.GatewayFailed? ==> r == Response(500, ErrorJson(MessageOr(reply.message, PreferenceFailed)))
  {
    match reply
    case Created(url) => Response(200, InitPointJson(url))
    case GatewayFailed(message) => Response(500, ErrorJson(MessageOr(message, PreferenceFailed)))
  }

  // ---------------------------------------------------------------------------
  // The root version

  /** The fields the root version reads from the request body. */
  datatype CheckoutPayload = CheckoutPayload(items: Option<seq<PreferenceItem>>, orderId: Option<string>)

  /** `!items || items.length === 0 || !orderId` fails. */
  predicate CompletePayload(p: CheckoutPayload) {
    p.items.Some? && |p.items.value| > 0 && Truthy(p.orderId)
  }

  const MissingCartOrId: string := "Datos del carrito o ID de orden faltantes."

  /** A handler's response and the preference it asked the gateway for, if any. */
  datatype Outcome = Outcome(response: Response, requested: Option<PreferenceBody>)

  /** The root version's preference: the items as sent, the order id as reference, no notification URL. */
  function RootPreference(items: seq<PreferenceItem>, orderId: string, base: string): (b: PreferenceBody)
    ensures b.items == items && b.externalReference == orderId && b.notificationUrl == None
    ensures b.backUrls == BackUrlsFor(base) && b.autoReturn == "approved"
  {
    PreferenceBody(items, orderId, None, BackUrlsFor(base), "approved")
  }

  /**
   * The root `handler`: 405 for anything but POST; 500 without an access
   * token, before the body is read; 400 when the cart or the order id is
   * missing; otherwise the gateway is asked for a preference and its reply
   * decides between 200 and 500. A body that does not decode is a 500 too.
   */
  function CreatePreference(httpMethod: string, body: Option<string>, env: Env,
                            parse: string -> Decoded<CheckoutPayload>,
                            create: PreferenceBody -> GatewayReply): (o: Outcome)
    ensures httpMethod != "POST" ==> o == Outcome(Response(405, Plain("Method Not Allowed")), None)
    ensures httpMethod == "POST" && !Truthy(env.accessToken) ==> o == Outcome(Response(500, ErrorJson(NotConfigured)), None)
    ensures o.requested.Some? <==>
      httpMethod == "POST" && Truthy(env.accessToken) &&
      parse(RequestText(body)).Decoded? && CompletePayload(parse(RequestText(body)).value)
    ensures o.requested.Some? ==>
      var p := parse(RequestText(body)).value;
      o.requested.value == RootPreference(p.items.value, p.orderId.value, BaseUrl(env)) &&
      o.response == ReplyResponse(create(o.requested.value))
    ensures o.response.status == 400 <==>
      httpMethod == "POST" && Truthy(env.accessToken) &&
      parse(RequestText(body)).Decoded? && !CompletePayload(parse(RequestText(body)).value)
    ensures o.response.status == 200 ==> o.requested.Some? && create(o.requested.value).Created?
    ensures httpMethod == "POST" && Truthy(env.accessToken) && parse(RequestText(body)).Undecodable? ==>
      o == Outcome(Response(500, ErrorJson(MessageOr(parse(RequestText(body)).message, PreferenceFailed))), None)
  {
    if httpMethod != "POST" then Outcome(Response(405, Plain("Method Not Allowed")), None)
    else if !Truthy(env.accessToken) then Outcome(Response(500, ErrorJson(NotConfigured)), None)
    else
      match parse(RequestText(body))
      case Undecodable(message) => Outcome(Response(500, ErrorJson(MessageOr(message, PreferenceFailed))), None)
      case Decoded(p) =>
        if !CompletePayload(p) then Outcome(Response(400, ErrorJson(MissingCartOrId)), None)
        else
          var pref := RootPreference(p.items.value, p.orderId.value, BaseUrl(env));
          Outcome(ReplyResponse(create(pref)), Some(pref))
  }

  /** The session URL handed back is exactly the one the gateway created for this order's preference. */
  lemma CreatedSessionReturned(httpMethod: string, body: Option<string>, env: Env,
                               parse: string -> Decoded<CheckoutPayload>,
                               create: PreferenceBody -> GatewayReply)
    requires CreatePreference(httpMethod, body, env, parse, create).response.status == 200
    ensures var o := CreatePreference(httpMethod, body, env, parse, create);
      o.requested.value.externalReference == parse(RequestText(body)).value.orderId.value &&
      o.response.body == InitPointJson(create(o.requested.value).initPoint)
  {
  }

  // ---------------------------------------------------------------------------
  // The later version

  /** The fields the later version reads: the items and the whole order. */
  datatype OrderPayload = OrderPayload(items: Option<seq<PreferenceItem>>, order: Option<Order>)

  /** `!items || items.length === 0 || !order || !order.id` fails. */
  predicate CompleteOrderPayload(p: OrderPayload) {
    p.items.Some? && |p.items.value| > 0 && p.order.Some? && p.order.value.id != []
  }

  const MissingCartOrOrder: string := "Datos del carrito o del pedido faltantes."

  /** The webhook's address under the deployment. */
  function NotificationUrl(base: string): (u: string)
    ensures u == base + "/.netlify/functions/webhook"
  {
    base + "/.netlify/functions/webhook"
  }

  /** The later version's preference: the order's id as reference and the webhook as notification URL. */
  function OrderPreference(items: seq<PreferenceItem>, order: Order, base: string): (b: PreferenceBody)
    ensures b.items == items && b.externalReference == order.id
    ensures b.notificationUrl == Some(NotificationUrl(base))
    ensures b.backUrls == BackUrlsFor(base) && b.autoReturn == "approved"
  {
    PreferenceBody(items, order.id, Some(NotificationUrl(base)), BackUrlsFor(base), "approved")
  }

  /** A side effect of the later handler, in the order it happens. */
  datatype Effect = WroteOrder(order: Order) | RequestedPreference(body: PreferenceBody)

  /**
   * The later `handler`. After the same method, credential and body checks
   * (400 now also for a missing order or an order with an empty id), the
   * order is written under its id and only then is the preference
   * requested. When the write fails (`writeError` holds its message) the
   * response is 500 and no preference is requested.
   */
  method CreatePreferenceWithOrder(store: OrderStore, httpMethod: string, body: Option<string>, env: Env,
                                   parse: string -> Decoded<OrderPayload>, writeError: Option<string>,
                                   create: PreferenceBody -> GatewayReply)
    returns (response: Response, effects: seq<Effect>)
    modifies store
    ensures httpMethod != "POST" ==> response == Response(405, Plain("Method Not Allowed")) && effects == []
    ensures httpMethod == "POST" && !Truthy(env.accessToken) ==> response == Response(500, ErrorJson(NotConfigured)) && effects == []
    ensures response.status == 400 <==>
      httpMethod == "POST" && Truthy(env.accessToken) &&
      parse(RequestText(body)).Decoded? && !CompleteOrderPayload(parse(RequestText(body)).value)
    ensures effects != [] <==>
      httpMethod == "POST" && Truthy(env.accessToken) &&
      parse(RequestText(body)).Decoded? && CompleteOrderPayload(parse(RequestText(body)).value) &&
      writeError.None?
    ensures effects != [] ==>
      var p := parse(RequestText(body)).value;
      var pref := OrderPreference(p.items.value, p.order.value, BaseUrl(env));
      effects == [WroteOrder(p.order.value), RequestedPreference(pref)] &&
      store.docs == old(store.docs)[p.order.value.id := Full(p.order.value)] &&
      response == ReplyResponse(create(pref))
    ensures effects == [] ==> store.docs == old(store.docs)
    ensures effects == [] && response.status != 405 && response.status != 400 ==> response.status == 500
  {
    effects := [];
    if httpMethod != "POST" {
      return Response(405, Plain("Method Not Allowed")), [];
    }
    if !Truthy(env.accessToken) {
      return Response(500, ErrorJson(NotConfigured)), [];
    }
    match parse(RequestText(body))
    case Undecodable(message) =>
      response := Response(500, ErrorJson(MessageOr(message, PreferenceFailed)));
    case Decoded(p) =>
      if !CompleteOrderPayload(p) {
        response := Response(400, ErrorJson(MissingCartOrOrder));
      } else if writeError.Some? {
        response := Response(500, ErrorJson(MessageOr(writeError.value, PreferenceFailed)));
      } else {
        var order := p.order.value;
        store.SetOrder(order);
        effects := effects + [WroteOrder(order)];
        var pref := OrderPreference(p.items.value, order, BaseUrl(env));
        effects := effects + [RequestedPreference(pref)];
        response := ReplyResponse(create(pref));
      }
  }
}
