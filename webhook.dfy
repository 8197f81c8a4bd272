/**
 * The payment notification endpoint. GET answers a liveness probe; a POST
 * is checked against the `x-signature` header when there is one, and a
 * payment notice whose payment is approved marks the referenced order as
 * Processing with a status-only write.
 *
 * HMAC-SHA256 (RFC 2104, hex digest), the payment lookup, `JSON.parse`
 * and the store write's failure are parameters.
 */
module Webhook {
  import opened Wrappers
  import opened Text
  import opened Types
  import opened Orders
  import opened Gateway

  /** The headers the handler reads. */
  datatype Headers = Headers(signature: Option<string>, requestId: Option<string>)

  /** The `data` object of a notification; its id as text. */
  datatype PaymentData = PaymentData(id: Option<string>)

  /** The decoded notification: its `type` and its `data`. */
  datatype Notification = Notification(kind: Option<string>, data: Option<PaymentData>)

  /** A payment as the lookup returns it; `NoPayment` is a falsy result. */
  datatype PaymentInfo = NoPayment | Payment(externalReference: Option<string>, status: Option<string>)

  /** `payment.get`: a payment or the exception's message. */
  datatype Lookup = Found(info: PaymentInfo) | LookupFailed(message: string)

  const Active: string := "Webhook endpoint is active."
  const ServerError: string := "Internal server error."
  const ProcessingFailed: string := "Webhook processing failed."
  /** The exception raised when `body.data` is undefined and `body.data.id` is read. */
  const DataUndefined: string := "Cannot read properties of undefined (reading 'id')"

  /** A template-literal interpolation: an undefined value prints as "undefined". */
  function Interp(v: Option<string>): (s: string)
    ensures v.Some? ==> s == v.value
    ensures v.None? ==> s == "undefined"
  {
    if v.Some? then v.value else "undefined"
  }

  /** `part.split('=')[1]` for a part that may be missing. */
  function PartValue(part: Option<string>): Option<string> {
    if part.None? then None else Nth(Split(part.value, '='), 1)
  }

  /**
   * `const [ts, receivedHash] = signature.split(',').map(part => part.split('=')[1])`:
   * the timestamp is the value of the first comma-separated part and the hash
   * that of the second, whatever their names.
   */
  function SignatureFields(signature: string): (fields: (Option<string>, Option<string>))
    ensures fields.0 == PartValue(Some(Split(signature, ',')[0]))
    ensures fields.1 == PartValue(Nth(Split(signature, ','), 1))
  {
    var parts := Split(signature, ',');
    (PartValue(Nth(parts, 0)), PartValue(Nth(parts, 1)))
  }

  /** A header written as "ts=<ts>,v1=<hash>" yields that timestamp and that hash. */
  lemma SignatureFieldsOf(ts: string, hash: string)
    requires ',' !in ts && '=' !in ts && ',' !in hash && '=' !in hash
    ensures SignatureFields("ts=" + ts + ",v1=" + hash) == (Some(ts), Some(hash))
  {
    assert "ts=" + ts + ",v1=" + hash == "ts" + ['='] + ts + [','] + ("v1" + ['='] + hash);
    KeyedPair("ts", ts, "v1", hash);
  }

  /** The parts are taken by position: a header listing the hash first has its hash read as the timestamp. */
  lemma SignatureFieldsPositional(ts: string, hash: string)
    requires ',' !in ts && '=' !in ts && ',' !in hash && '=' !in hash
    ensures SignatureFields("v1=" + hash + ",ts=" + ts) == (Some(hash), Some(ts))
  {
    assert "v1=" + hash + ",ts=" + ts == "v1" + ['='] + hash + [','] + ("ts" + ['='] + ts);
    KeyedPair("v1", hash, "ts", ts);
  }

  /** "k1=v1,k2=v2" yields v1 and v2, whatever the keys. */
  lemma KeyedPair(k1: string, v1: string, k2: string, v2: string)
    requires ',' !in k1 && '=' !in k1 && ',' !in v1 && '=' !in v1
    requires ',' !in k2 && '=' !in k2 && ',' !in v2 && '=' !in v2
    ensures SignatureFields(k1 + ['='] + v1 + [','] + (k2 + ['='] + v2)) == (Some(v1), Some(v2))
  {
    var first := k1 + ['='] + v1;
    var second := k2 + ['='] + v2;
    assert ',' !in first && ',' !in second;
    SplitAfter(first, ',', second);
    SplitNone(second, ',');
    SplitAfter(k1, '=', v1);
    SplitNone(v1, '=');
    SplitAfter(k2, '=', v2);
    SplitNone(v2, '=');
  }

  /** The signed text: `id:${data.id};request-id:${requestId};ts:${ts};`. */
  function Manifest(dataId: Option<string>, requestId: Option<string>, ts: Option<string>): (m: string)
    ensures m == "id:" + Interp(dataId) + ";request-id:" + Interp(requestId) + ";ts:" + Interp(ts) + ";"
  {
    "id:" + Interp(dataId) + ";request-id:" + Interp(requestId) + ";ts:" + Interp(ts) + ";"
  }

  /** With fields free of ';', the manifest splits back into its three labelled fields. */
  lemma ManifestFields(a: string, b: string, c: string)
    requires ';' !in a && ';' !in b && ';' !in c
    ensures Split(Manifest(Some(a), Some(b), Some(c)), ';') == ["id:" + a, "request-id:" + b, "ts:" + c, ""]
  {
    var x, y, z := "id:" + a, "request-id:" + b, "ts:" + c;
    assert Manifest(Some(a), Some(b), Some(c)) == x + [';'] + (y + [';'] + (z + [';'] + ""));
    assert ';' !in x by { assert x == "id:" + a; }
    assert ';' !in y by { assert y == "request-id:" + b; }
    assert ';' !in z by { assert z == "ts:" + c; }
    SplitThree(x, y, z);
  }

  /** Three parts free of the separator, each followed by it, split back into the parts and an empty tail. */
  lemma SplitThree(x: string, y: string, z: string)
    requires ';' !in x && ';' !in y && ';' !in z
    ensures Split(x + [';'] + (y + [';'] + (z + [';'] + "")), ';') == [x, y, z, ""]
  {
    var t3 := z + [';'] + "";
    SplitAfter(z, ';', "");
    SplitNone("", ';');
    assert Split(t3, ';') == [z, ""];
    var t2 := y + [';'] + t3;
    SplitAfter(y, ';', t3);
    assert Split(t2, ';') == [y, z, ""];
    SplitAfter(x, ';', t2);
    assert [x] + [y, z, ""] == [x, y, z, ""];
  }

  /** Both credentials are set and not empty. */
  predicate Configured(env: Env) {
    Truthy(env.accessToken) && Truthy(env.webhookSecret)
  }

  /** A signature check that can run: the header is there and so is `body.data`. */
  predicate Checked(headers: Headers, n: Notification) {
    Truthy(headers.signature) && n.data.Some?
  }

  /** The received hash equals the HMAC of the manifest under the secret. */
  predicate SignatureMatches(headers: Headers, n: Notification, secret: string, hmac: (string, string) -> string)
    requires Checked(headers, n)
  {
    var fields := SignatureFields(headers.signature.value);
    fields.1 == Some(hmac(secret, Manifest(n.data.value.id, headers.requestId, fields.0)))
  }

  /** `body.type === 'payment' && body.data?.id` */
  predicate IsPaymentNotice(n: Notification) {
    n.kind == Some("payment") && n.data.Some? && Truthy(n.data.value.id)
  }

  /** `paymentInfo && paymentInfo.external_reference && paymentInfo.status === 'approved'` */
  predicate Approved(l: Lookup) {
    l.Found? && l.info.Payment? && Truthy(l.info.externalReference) && l.info.status == Some("approved")
  }

  /** The signature step lets the notice through: no signature header, or a checked one that matches. */
  predicate Passes(headers: Headers, n: Notification, secret: string, hmac: (string, string) -> string) {
    !Truthy(headers.signature) || (Checked(headers, n) && SignatureMatches(headers, n, secret, hmac))
  }

  /** The handler's response and the order id whose status it wrote, if any. */
  datatype WebhookOutcome = WebhookOutcome(response: Response, write: Option<string>)

  /** The notice after the signature step, which either rejects it or lets it through. */
  function AfterSignature(n: Notification, headers: Headers, secret: string, hmac: (string, string) -> string,
                          lookup: string -> Lookup, writeError: Option<string>): (o: WebhookOutcome)
    ensures o.write.Some? ==> o.response == Response(200, Plain("OK"))
    ensures Checked(headers, n) && !SignatureMatches(headers, n, secret, hmac) ==>
      o == WebhookOutcome(Response(403, Plain("Invalid signature")), None)
    ensures Truthy(headers.signature) && n.data.None? ==>
      o == WebhookOutcome(Response(500, ErrorJson(DataUndefined)), None)
    ensures o.write.Some? <==>
      (!Truthy(headers.signature) || (Checked(headers, n) && SignatureMatches(headers, n, secret, hmac))) &&
      IsPaymentNotice(n) && Approved(lookup(n.data.value.id.value)) && writeError.None?
    ensures o.write.Some? ==> o.write.value == lookup(n.data.value.id.value).info.externalReference.value
    ensures (Passes(headers, n, secret, hmac) &&
             (!IsPaymentNotice(n) || (lookup(n.data.value.id.value).Found? && !Approved(lookup(n.data.value.id.value))))) ==>
      o == WebhookOutcome(Response(200, Plain("OK")), None)
    ensures Passes(headers, n, secret, hmac) && IsPaymentNotice(n) && lookup(n.data.value.id.value).LookupFailed? ==>
      o == WebhookOutcome(Response(500, ErrorJson(MessageOr(lookup(n.data.value.id.value).message, ProcessingFailed))), None)
    ensures (Passes(headers, n, secret, hmac) && IsPaymentNotice(n) && Approved(lookup(n.data.value.id.value)) &&
             writeError.Some?) ==>
      o == WebhookOutcome(Response(500, ErrorJson(MessageOr(writeError.value, ProcessingFailed))), None)
  {
    if Truthy(headers.signature) && n.data.None? then WebhookOutcome(Response(500, ErrorJson(DataUndefined)), None)
    else if Truthy(headers.signature) && !SignatureMatches(headers, n, secret, hmac) then
      WebhookOutcome(Response(403, Plain("Invalid signature")), None)
    else if !IsPaymentNotice(n) then WebhookOutcome(Response(200, Plain("OK")), None)
    else
      match lookup(n.data.value.id.value)
      case LookupFailed(message) => WebhookOutcome(Response(500, ErrorJson(MessageOr(message, ProcessingFailed))), None)
      case Found(info) =>
        if !Approved(Found(info)) then WebhookOutcome(Response(200, Plain("OK")), None)
        else if writeError.Some? then WebhookOutcome(Response(500, ErrorJson(MessageOr(writeError.value, ProcessingFailed))), None)
        else WebhookOutcome(Response(200, Plain("OK")), Some(info.externalReference.value))
  }

  /**
   * The handler, as a function of its inputs: 200 for GET and 405 for any
   * other method but POST, with no write; 500 without both credentials,
   * before anything is parsed; then the body, the signature and the payment
   * as `AfterSignature` says.
   */
  function Decide(httpMethod: string, body: Option<string>, headers: Headers, env: Env,
                  parse: string -> Decoded<Notification>, hmac: (string, string) -> string,
                  lookup: string -> Lookup, writeError: Option<string>): (o: WebhookOutcome)
    ensures httpMethod == "GET" ==> o == WebhookOutcome(Response(200, Plain(Active)), None)
    ensures httpMethod != "GET" && httpMethod != "POST" ==> o == WebhookOutcome(Response(405, Plain("Method Not Allowed")), None)
    ensures httpMethod == "POST" && !Configured(env) ==> o == WebhookOutcome(Response(500, ErrorJson(ServerError)), None)
    ensures httpMethod == "POST" && Configured(env) && parse(RequestText(body)).Undecodable? ==>
      o == WebhookOutcome(Response(500, ErrorJson(MessageOr(parse(RequestText(body)).message, ProcessingFailed))), None)
    ensures httpMethod == "POST" && Configured(env) && parse(RequestText(body)).Decoded? ==>
      o == AfterSignature(parse(RequestText(body)).value, headers, env.webhookSecret.value, hmac, lookup, writeError)
    ensures o.write.Some? ==> httpMethod == "POST" && Configured(env) && parse(RequestText(body)).Decoded?
  {
    if httpMethod == "GET" then WebhookOutcome(Response(200, Plain(Active)), None)
    else if httpMethod != "POST" then WebhookOutcome(Response(405, Plain("Method Not Allowed")), None)
    else if !Configured(env) then WebhookOutcome(Response(500, ErrorJson(ServerError)), None)
    else
      match parse(RequestText(body))
      case Undecodable(message) => WebhookOutcome(Response(500, ErrorJson(MessageOr(message, ProcessingFailed))), None)
      case Decoded(n) => AfterSignature(n, headers, env.webhookSecret.value, hmac, lookup, writeError)
  }

  /** The collection after an outcome: the written order, if any, is marked Processing. */
  function ApplyWrite(docs: map<string, OrderDoc>, write: Option<string>): (r: map<string, OrderDoc>)
    ensures write.None? ==> r == docs
    ensures write.Some? ==> r == WithStatus(docs, write.value, Processing)
  {
    if write.None? then docs else WithStatus(docs, write.value, Processing)
  }

  /** Receiving the same notification again leaves the orders as after the first delivery. */
  lemma ReplayedNotification(docs: map<string, OrderDoc>, httpMethod: string, body: Option<string>, headers: Headers,
                             env: Env, parse: string -> Decoded<Notification>, hmac: (string, string) -> string,
                             lookup: string -> Lookup, writeError: Option<string>)
    ensures var w := Decide(httpMethod, body, headers, env, parse, hmac, lookup, writeError).write;
      ApplyWrite(ApplyWrite(docs, w), w) == ApplyWrite(docs, w)
  {
    var w := Decide(httpMethod, body, headers, env, parse, hmac, lookup, writeError).write;
    if w.Some? {
      WithStatusIdempotent(docs, w.value, Processing);
    }
  }

  /**
   * The status the webhook writes is Processing, which is not among the
   * statuses the storefront's order type admits: an order that went through
   * the webhook carries a status the client's order type leaves out.
   */
  lemma WrittenStatusOutsideClientSet(docs: map<string, OrderDoc>, id: string)
    ensures StatusOf(ApplyWrite(docs, Some(id))[id]) == Processing
    ensures !IsClientStatus(StatusOf(ApplyWrite(docs, Some(id))[id]))
  {
  }

  /**
   * The handler over the orders collection: the response is `Decide`'s and
   * the only change is its status write.
   */
  method Handle(store: OrderStore, httpMethod: string, body: Option<string>, headers: Headers, env: Env,
                parse: string -> Decoded<Notification>, hmac: (string, string) -> string,
                lookup: string -> Lookup, writeError: Option<string>)
    returns (response: Response)
    modifies store
    ensures var o := Decide(httpMethod, body, headers, env, parse, hmac, lookup, writeError);
      response == o.response && store.docs == ApplyWrite(old(store.docs), o.write)
  {
    if httpMethod == "GET" {
      return Response(200, Plain(Active));
    }
    if httpMethod != "POST" {
      return Response(405, Plain("Method Not Allowed"));
    }
    if !Configured(env) {
      return Response(500, ErrorJson(ServerError));
    }
    match parse(RequestText(body))
    case Undecodable(message) =>
      response := Response(500, ErrorJson(MessageOr(message, ProcessingFailed)));
    case Decoded(n) =>
      var o := AfterSignature(n, headers, env.webhookSecret.value, hmac, lookup, writeError);
      if o.write.Some? {
        store.SetStatus(o.write.value, Processing);
      }
      response := o.response;
  }
}
