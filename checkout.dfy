/**
  The checkout endpoint: validates the request, derives the origin and the
  attribution metadata from the request headers, and builds the parameters
  of the payment session (one fixed monthly line item, the metadata, the
  success and cancel redirect URLs). The session creation itself is an input.
*/
module Checkout {
  import opened Wrappers
  import opened Text
  import Webhook

  /** A request header as Node exposes it: absent, one value, or a list of values. */
  datatype HeaderValue = Absent | One(value: string) | Many(values: seq<string>)

  datatype CheckoutBody = CheckoutBody(pendingId: Option<string>, companyName: Option<string>)

  datatype CheckoutRequest = CheckoutRequest(
    verb: string,
    body: CheckoutBody,
    host: Option<string>,
    forwardedFor: HeaderValue,
    remoteAddress: Option<string>,
    userAgent: Option<string>)

  datatype LineItem = LineItem(
    currency: string, productName: string, description: string,
    unitAmountCents: int, interval: string, quantity: int)

  datatype SessionParams = SessionParams(
    paymentMethodTypes: seq<string>,
    lineItems: seq<LineItem>,
    mode: string,
    metadata: Webhook.Metadata,
    successUrl: string,
    cancelUrl: string)

  /** What the payment processor answers to the session creation. */
  datatype StripeReply = Created(url: Option<string>) | CreateFailed(message: string)

  datatype ResponseBody = ErrorJson(error: string) | UrlJson(url: Option<string>)
  datatype Response = Response(status: int, body: ResponseBody)

  const HostingPriceCents := 2000
  const HostingDescription := "PAY ONLY $20/MONTH FOR WEBSITE HOSTING TO HAVE YOUR CUSTOM SITE LIVE & ACTIVE"
  const CheckoutSessionPlaceholder := "{CHECKOUT_SESSION_ID}"

  /** `host?.includes('localhost') ? 'http' : 'https'`. */
  function Protocol(host: Option<string>): (p: string)
    ensures p == "http" <==> host.Some? && Includes(host.value, "localhost")
    ensures p != "http" ==> p == "https"
  {
    if host.Some? && Includes(host.value, "localhost") then "http" else "https"
  }

  /** `${protocol}://${host}`: `http` exactly for a host naming `localhost`, and the host as the template prints it. */
  function Origin(host: Option<string>): (r: string)
    ensures StartsWith(r, "http://") <==> host.Some? && Includes(host.value, "localhost")
    ensures StartsWith(r, "https://") <==> !(host.Some? && Includes(host.value, "localhost"))
    ensures EndsWith(r, "://" + JsString(host))
  {
    var p := Protocol(host);
    var tail := "://" + JsString(host);
    var r := p + tail;
    assert r[|p|..] == tail;
    if p == "http" then
      assert r[..7] == "http://" && r[4] == ':';
      r
    else
      assert r[..8] == "https://" && r[4] == 's';
      r
  }

  /** `x-forwarded-for || socket.remoteAddress`, then the first element of a list, else the value or `''`. */
  function ClientIp(forwardedFor: HeaderValue, remoteAddress: Option<string>): (ip: Option<string>)
    ensures forwardedFor.Many? && |forwardedFor.values| > 0 ==> ip == Some(forwardedFor.values[0])
    ensures forwardedFor.Many? && |forwardedFor.values| == 0 ==> ip == None
    ensures forwardedFor.One? && forwardedFor.value != "" ==> ip == Some(forwardedFor.value)
    ensures !forwardedFor.Many? && !(forwardedFor.One? && forwardedFor.value != "") ==>
      ip == Some(OrElse(remoteAddress, ""))
  {
    match forwardedFor
    case Many(values) => if |values| > 0 then Some(values[0]) else None
    case One(v) => if v != "" then Some(v) else Some(OrElse(remoteAddress, ""))
    case Absent => Some(OrElse(remoteAddress, ""))
  }

  /** The metadata: the two body fields as given, the client address, and the user agent or `''`. */
  function SessionMetadata(req: CheckoutRequest): (m: Webhook.Metadata)
    ensures m.pendingId == req.body.pendingId && m.companyName == req.body.companyName
    ensures m.clientIp == ClientIp(req.forwardedFor, req.remoteAddress)
    ensures m.userAgent == Some(OrElse(req.userAgent, ""))
  {
    Webhook.Metadata(
      req.body.pendingId,
      req.body.companyName,
      ClientIp(req.forwardedFor, req.remoteAddress),
      Some(OrElse(req.userAgent, "")))
  }

  /** The success redirect: the origin, the success status, the pending id and the encoded company name, and the session-id placeholder last. */
  function SuccessUrl(origin: string, pendingId: string, companyName: Option<string>, enc: string -> string): (r: string)
    ensures StartsWith(r, origin + "/?status=success&pendingId=" + pendingId + "&companyName=")
    ensures EndsWith(r, "&session_id=" + CheckoutSessionPlaceholder)
    ensures |r| == |origin + "/?status=success&pendingId=" + pendingId + "&companyName="|
                   + |enc(JsString(companyName))| + |"&session_id=" + CheckoutSessionPlaceholder|
  {
    origin + "/?status=success&pendingId=" + pendingId
      + "&companyName=" + enc(JsString(companyName))
      + "&session_id=" + CheckoutSessionPlaceholder
  }

  /** The cancel redirect: the origin followed by the cancelled status. */
  function CancelUrl(origin: string): (r: string)
    ensures StartsWith(r, origin) && r[|origin|..] == "/?status=cancelled"
  {
    origin + "/?status=cancelled"
  }

  function HostingLineItem(companyName: Option<string>): LineItem {
    LineItem("usd", JsString(companyName) + " - Premium Subscription", HostingDescription,
             HostingPriceCents, "month", 1)
  }

  /** The session parameters for a request that passed validation. */
  function Params(req: CheckoutRequest, enc: string -> string): (p: SessionParams)
    requires Truthy(req.body.pendingId)
    ensures p.paymentMethodTypes == ["card"] && p.mode == "subscription"
    ensures |p.lineItems| == 1
    ensures p.lineItems[0].unitAmountCents == 2000 && p.lineItems[0].interval == "month"
    ensures p.lineItems[0].quantity == 1 && p.lineItems[0].currency == "usd"
    ensures p.metadata.pendingId == req.body.pendingId && p.metadata.companyName == req.body.companyName
    ensures StartsWith(p.successUrl, Origin(req.host) + "/?status=success&pendingId=" + req.body.pendingId.value)
    ensures EndsWith(p.successUrl, "&session_id=" + CheckoutSessionPlaceholder)
    ensures StartsWith(p.cancelUrl, Origin(req.host)) && p.cancelUrl[|Origin(req.host)|..] == "/?status=cancelled"
  {
    var origin := Origin(req.host);
    SessionParams(
      ["card"],
      [HostingLineItem(req.body.companyName)],
      "subscription",
      SessionMetadata(req),
      SuccessUrl(origin, req.body.pendingId.value, req.body.companyName, enc),
      CancelUrl(origin))
  }

  /**
    The handler. The second component of the result is the session creation
    request the handler makes, if it makes one.
  */
  function CreateCheckout(req: CheckoutRequest, enc: string -> string, reply: StripeReply)
    : (r: (Response, Option<SessionParams>))
    ensures req.verb != "POST" ==> r == (Response(405, ErrorJson("Method not allowed")), None)
    ensures req.verb == "POST" && !Truthy(req.body.pendingId) ==>
      r == (Response(400, ErrorJson("Missing pendingId")), None)
    ensures r.1.Some? <==> req.verb == "POST" && Truthy(req.body.pendingId)
    ensures r.1.Some? ==>
      var p := r.1.value;
      var origin := Origin(req.host);
      && p.metadata.pendingId == req.body.pendingId
      && p.metadata.companyName == req.body.companyName
      && p.metadata.clientIp == ClientIp(req.forwardedFor, req.remoteAddress)
      && p.metadata.userAgent == Some(OrElse(req.userAgent, ""))
      && p.paymentMethodTypes == ["card"]
      && p.lineItems == [LineItem("usd", JsString(req.body.companyName) + " - Premium Subscription",
                                  HostingDescription, 2000, "month", 1)]
      && p.mode == "subscription"
      && p.successUrl == origin + "/?status=success&pendingId=" + req.body.pendingId.value
                         + "&companyName=" + enc(JsString(req.body.companyName))
                         + "&session_id=" + CheckoutSessionPlaceholder
      && p.cancelUrl == origin + "/?status=cancelled"
    ensures r.1.Some? && reply.CreateFailed? ==> r.0 == Response(500, ErrorJson(reply.message))
    ensures r.1.Some? && reply.Created? ==> r.0 == Response(200, UrlJson(reply.url))
  {
    if req.verb != "POST" then (Response(405, ErrorJson("Method not allowed")), None)
    else if !Truthy(req.body.pendingId) then (Response(400, ErrorJson("Missing pendingId")), None)
    else
      var params := Params(req, enc);
      match reply
      case Created(url) => (Response(200, UrlJson(url)), Some(params))
      case CreateFailed(message) => (Response(500, ErrorJson(message)), Some(params))
  }

  /**
    The metadata written here is what the webhook reads back: the same
    `pendingId`, and the company name (or `'site'` when it is missing or empty).
  */
  lemma MetadataReachesWebhook(req: CheckoutRequest, enc: string -> string, reply: StripeReply,
                               email: Option<string>, amount: Option<int>)
    requires CreateCheckout(req, enc, reply).1.Some?
    ensures var session := Webhook.Session(Some(CreateCheckout(req, enc, reply).1.value.metadata), email, amount);
      && Webhook.MetaPendingId(session) == req.body.pendingId
      && Truthy(Webhook.MetaPendingId(session))
      && Webhook.CompanyNameOf(session) == OrElse(req.body.companyName, "site")
      && Webhook.PurchaseOf(session).clientIp == ClientIp(req.forwardedFor, req.remoteAddress)
  {
  }
}
