/**
 * The decision logic of the `POST /api/create-checkout-session` handler
 * (src/index.ts:41-101), taken out of Express: the configuration read from
 * the environment at start-up, the validation that guards the provider
 * call, the request payload sent to the payment provider, and the JSON
 * response written back to the browser.
 *
 * The provider SDK is a function parameter from the call it receives to its
 * outcome; the two clock readings and the request's protocol and host are
 * parameters too.
 */
module Checkout {
  import opened Options
  import Decimal

  // ---------------------------------------------------------------------
  // Constants of the server
  // ---------------------------------------------------------------------

  /** Template value of PRODUCT_ID, also its default when it is unset. */
  const ProductIdPlaceholder: string := "your-product-id"
  /** Template value of DODO_PAYMENTS_API_KEY, also the client's default token. */
  const ApiKeyPlaceholder: string := "your-api-key-here"

  const ProductIdErrorMessage: string :=
    "Product ID not configured. Please set PRODUCT_ID in your .env file"
  const ApiKeyErrorMessage: string :=
    "API key not configured. Please set DODO_PAYMENTS_API_KEY in your .env file"
  const FailureMessage: string := "Failed to create checkout session"
  const UnknownErrorDetails: string := "Unknown error"
  const CheckoutSource: string := "web_checkout"
  const SuccessPath: string := "/success"

  /** The four metadata keys of every checkout request. */
  const MetadataKeys: set<string> := {"source", "timestamp", "product_id", "quantity"}

  // ---------------------------------------------------------------------
  // Configuration
  // ---------------------------------------------------------------------

  /**
   * The environment variables the server reads; None is an unset variable.
   * PRODUCT_QUANTITY is given as the value parseInt produced from it, and
   * None when it is unset or empty (the server then parses '1').
   */
  datatype Env = Env(
    productId: Option<string>,
    apiKey: Option<string>,
    quantity: Option<int>,
    customerName: Option<string>,
    customerEmail: Option<string>)

  /** JavaScript `v || fallback` on a string variable: an empty string counts as unset. */
  function OrElse(v: Option<string>, fallback: string): string {
    if v.Some? && v.value != "" then v.value else fallback
  }

  /** The configuration as the handler sees it; the API key is the raw variable. */
  datatype Config = Config(
    productId: string,
    apiKey: Option<string>,
    quantity: int,
    customerName: string,
    customerEmail: string)

  predicate IsSet(v: Option<string>) {
    v.Some? && v.value != ""
  }

  /** The module-level configuration constants computed at start-up. */
  function LoadConfig(env: Env): (c: Config)
    ensures IsSet(env.productId) ==> c.productId == env.productId.value
    ensures !IsSet(env.productId) ==> c.productId == ProductIdPlaceholder
    ensures c.productId != ""
    ensures c.apiKey == env.apiKey
    ensures env.quantity.Some? ==> c.quantity == env.quantity.value
    ensures env.quantity.None? ==> c.quantity == 1
    ensures IsSet(env.customerName) ==> c.customerName == env.customerName.value
    ensures !IsSet(env.customerName) ==> c.customerName == ""
    ensures IsSet(env.customerEmail) ==> c.customerEmail == env.customerEmail.value
    ensures !IsSet(env.customerEmail) ==> c.customerEmail == ""
  {
    Config(
      OrElse(env.productId, ProductIdPlaceholder),
      env.apiKey,
      match env.quantity case Some(q) => q case None => 1,
      OrElse(env.customerName, ""),
      OrElse(env.customerEmail, ""))
  }

  /** The bearer token the payment client is constructed with. */
  function BearerToken(c: Config): (t: string)
    ensures t != ""
    ensures IsSet(c.apiKey) ==> t == c.apiKey.value
    ensures !IsSet(c.apiKey) ==> t == ApiKeyPlaceholder
  {
    OrElse(c.apiKey, ApiKeyPlaceholder)
  }

  // ---------------------------------------------------------------------
  // Validation
  // ---------------------------------------------------------------------

  datatype Validation = Ok | ProductIdError | ApiKeyError

  /** A product ID that is neither empty nor the template value. */
  predicate ProductIdUsable(c: Config) {
    c.productId != "" && c.productId != ProductIdPlaceholder
  }

  /** An API key that is set, non-empty and not the template value. */
  predicate ApiKeyUsable(c: Config) {
    c.apiKey.Some? && c.apiKey.value != "" && c.apiKey.value != ApiKeyPlaceholder
  }

  /** The two early returns of the handler, product ID first. */
  function Validate(c: Config): (v: Validation)
    ensures v == Ok <==> ProductIdUsable(c) && ApiKeyUsable(c)
    ensures v == ProductIdError <==> !ProductIdUsable(c)
    ensures v == ApiKeyError <==> ProductIdUsable(c) && !ApiKeyUsable(c)
  {
    if c.productId == "" || c.productId == ProductIdPlaceholder then ProductIdError
    else if c.apiKey.None? || c.apiKey.value == "" || c.apiKey.value == ApiKeyPlaceholder then ApiKeyError
    else Ok
  }

  /** The error text sent with a 400 for a failed validation. */
  function ValidationMessage(v: Validation): (m: string)
    requires v != Ok
    ensures v == ProductIdError ==> m == ProductIdErrorMessage
    ensures v == ApiKeyError ==> m == ApiKeyErrorMessage
  {
    if v == ProductIdError then ProductIdErrorMessage else ApiKeyErrorMessage
  }

  // ---------------------------------------------------------------------
  // The request payload
  // ---------------------------------------------------------------------

  datatype CartItem = CartItem(productId: string, quantity: int)
  datatype Customer = Customer(email: string, name: string)
  datatype CheckoutRequest = CheckoutRequest(
    productCart: seq<CartItem>,
    customer: Option<Customer>,
    returnUrl: string,
    metadata: map<string, string>)

  /** What the handler reads of the incoming request: req.protocol and req.get('host'). */
  datatype HttpRequest = HttpRequest(protocol: string, host: Option<string>)

  /** The customer block: present only when both email and name are non-empty. */
  function CustomerBlock(email: string, name: string): (r: Option<Customer>)
    ensures r.Some? <==> email != "" && name != ""
    ensures r.Some? ==> r.value.email == email && r.value.name == name
  {
    if email != "" && name != "" then Some(Customer(email, name)) else None
  }

  /** A template literal prints a missing host as "undefined". */
  function HostText(host: Option<string>): (t: string)
    ensures host.Some? ==> t == host.value
    ensures host.None? ==> t == "undefined"
  {
    match host
    case Some(h) => h
    case None => "undefined"
  }

  /** The return URL: the request's protocol, "://", its host, then the success path. */
  function ReturnUrl(protocol: string, host: Option<string>): (u: string)
    ensures |u| == |protocol| + 3 + |HostText(host)| + |SuccessPath|
    ensures u[..|protocol|] == protocol
    ensures u[|protocol|..|protocol| + 3] == "://"
    ensures u[|protocol| + 3..|u| - |SuccessPath|] == HostText(host)
    ensures u[|u| - |SuccessPath|..] == SuccessPath
  {
    var u := protocol + "://" + HostText(host) + SuccessPath;
    assert u[..|protocol|] == protocol;
    assert u[|protocol|..|protocol| + 3] == "://";
    assert u[|protocol| + 3..|u| - |SuccessPath|] == HostText(host);
    u
  }

  /** The audit metadata attached to the checkout session. */
  function Metadata(c: Config, timestamp: string): (m: map<string, string>)
    ensures m.Keys == MetadataKeys
    ensures m["source"] == CheckoutSource
    ensures m["timestamp"] == timestamp
    ensures m["product_id"] == c.productId
    ensures m["quantity"] == Decimal.IntToString(c.quantity)
    ensures Decimal.ReadInteger(m["quantity"]) == Some(c.quantity)
  {
    Decimal.IntToStringRoundTrip(c.quantity);
    map[
      "source" := CheckoutSource,
      "timestamp" := timestamp,
      "product_id" := c.productId,
      "quantity" := Decimal.IntToString(c.quantity)]
  }

  /** The object literal passed to checkoutSessions.create. */
  function BuildRequest(c: Config, req: HttpRequest, timestamp: string): (r: CheckoutRequest)
    ensures |r.productCart| == 1
    ensures r.productCart[0].productId == c.productId
    ensures r.productCart[0].quantity == c.quantity
    ensures r.customer == CustomerBlock(c.customerEmail, c.customerName)
    ensures r.returnUrl == ReturnUrl(req.protocol, req.host)
    ensures r.metadata == Metadata(c, timestamp)
  {
    CheckoutRequest(
      [CartItem(c.productId, c.quantity)],
      CustomerBlock(c.customerEmail, c.customerName),
      ReturnUrl(req.protocol, req.host),
      Metadata(c, timestamp))
  }

  // ---------------------------------------------------------------------
  // The provider and the response
  // ---------------------------------------------------------------------

  /** What the payment client is asked: its bearer token and the payload. */
  datatype ProviderCall = ProviderCall(bearerToken: string, request: CheckoutRequest)

  /**
   * How checkoutSessions.create ends: it resolves with the session, or it
   * throws a value that is an Error (with its message) or is not one.
   */
  datatype ProviderOutcome =
    | Success(sessionId: string, checkoutUrl: string)
    | Failure(isError: bool, message: string)

  /** An HTTP status with a JSON object body whose values are all strings. */
  datatype Response = Response(status: int, body: map<string, string>)

  /** The two clock readings: when the payload is built and when an error is reported. */
  datatype Clock = Clock(buildTime: string, errorTime: string)

  /** The response for a provider outcome: the success body, or the catch block's 500. */
  function Respond(outcome: ProviderOutcome, errorTime: string): (r: Response)
    ensures r.status == 200 <==> outcome.Success?
    ensures outcome.Success? ==>
      && r.body.Keys == {"session_id", "checkout_url"}
      && r.body["session_id"] == outcome.sessionId
      && r.body["checkout_url"] == outcome.checkoutUrl
    ensures outcome.Failure? ==>
      && r.status == 500
      && r.body.Keys == {"error", "details", "timestamp"}
      && r.body["error"] == FailureMessage
      && r.body["details"] == (if outcome.isError then outcome.message else UnknownErrorDetails)
      && r.body["timestamp"] == errorTime
  {
    match outcome
    case Success(sessionId, checkoutUrl) =>
      Response(200, map["session_id" := sessionId, "checkout_url" := checkoutUrl])
    case Failure(isError, message) =>
      Response(500, map[
        "error" := FailureMessage,
        "details" := if isError then message else UnknownErrorDetails,
        "timestamp" := errorTime])
  }

  /** One run of the handler: the provider call it made, if any, and its response. */
  datatype Exchange = Exchange(call: Option<ProviderCall>, response: Response)

  /** The handler: validate, then call the provider with the built payload, then respond. */
  function Handle(c: Config, req: HttpRequest, clock: Clock, provider: ProviderCall -> ProviderOutcome): (x: Exchange)
    ensures x.call.Some? <==> Validate(c) == Ok
    ensures x.call.Some? ==>
      && x.call.value.request == BuildRequest(c, req, clock.buildTime)
      && x.call.value.bearerToken == BearerToken(c)
      && x.response == Respond(provider(x.call.value), clock.errorTime)
    ensures x.call.Some? ==> Some(x.call.value.bearerToken) == c.apiKey
    ensures x.call.None? ==>
      x.response == Response(400, map["error" := ValidationMessage(Validate(c))])
    ensures x.response.status in {200, 400, 500}
    ensures !("session_id" in x.response.body && "error" in x.response.body)
  {
    var v := Validate(c);
    if v != Ok then
      Exchange(None, Response(400, map["error" := ValidationMessage(v)]))
    else
      var call := ProviderCall(BearerToken(c), BuildRequest(c, req, clock.buildTime));
      Exchange(Some(call), Respond(provider(call), clock.errorTime))
  }

  // ---------------------------------------------------------------------
  // Properties of the handler
  // ---------------------------------------------------------------------

  /**
   * An empty or template product ID is reported before the API key is
   * looked at: 400 with the product-ID message and no provider call.
   */
  lemma ProductIdErrorWins(c: Config, req: HttpRequest, clock: Clock, provider: ProviderCall -> ProviderOutcome)
    requires c.productId == "" || c.productId == ProductIdPlaceholder
    ensures Handle(c, req, clock, provider) == Exchange(None, Response(400, map["error" := ProductIdErrorMessage]))
  {
  }

  /**
   * With a usable product ID, a missing, empty or template API key gives
   * 400 with the API-key message and no provider call.
   */
  lemma ApiKeyErrorWhenUnset(c: Config, req: HttpRequest, clock: Clock, provider: ProviderCall -> ProviderOutcome)
    requires ProductIdUsable(c)
    requires c.apiKey.None? || c.apiKey == Some("") || c.apiKey == Some(ApiKeyPlaceholder)
    ensures Handle(c, req, clock, provider) == Exchange(None, Response(400, map["error" := ApiKeyErrorMessage]))
  {
  }

  /** An unset or empty PRODUCT_ID falls back to the template value and is rejected. */
  lemma UnsetProductIdRejected(env: Env, req: HttpRequest, clock: Clock, provider: ProviderCall -> ProviderOutcome)
    requires !IsSet(env.productId)
    ensures LoadConfig(env).productId == ProductIdPlaceholder
    ensures Handle(LoadConfig(env), req, clock, provider).call.None?
    ensures Handle(LoadConfig(env), req, clock, provider).response.status == 400
  {
  }

  /** The provider's answer does not matter when validation fails. */
  lemma RejectionIgnoresProvider(c: Config, req: HttpRequest, clock: Clock, p1: ProviderCall -> ProviderOutcome, p2: ProviderCall -> ProviderOutcome)
    requires Validate(c) != Ok
    ensures Handle(c, req, clock, p1) == Handle(c, req, clock, p2)
  {
  }

  /**
   * The metadata agrees with the cart: the same product ID, and a quantity
   * text that reads back as the cart's quantity.
   */
  lemma MetadataMatchesCart(c: Config, req: HttpRequest, timestamp: string)
    ensures var r := BuildRequest(c, req, timestamp);
      && r.metadata["product_id"] == r.productCart[0].productId
      && Decimal.ReadInteger(r.metadata["quantity"]) == Some(r.productCart[0].quantity)
  {
  }

  /**
   * A request without a Host header produces the same return URL as one
   * whose host is literally "undefined".
   */
  lemma MissingHostReadsUndefined(protocol: string)
    ensures ReturnUrl(protocol, None) == ReturnUrl(protocol, Some("undefined"))
    ensures ReturnUrl(protocol, None) == protocol + "://undefined/success"
  {
  }

  /** The session a browser obtains from the response: both fields of a 200 body. */
  function SessionOf(r: Response): Option<(string, string)> {
    if r.status == 200 && "session_id" in r.body && "checkout_url" in r.body
    then Some((r.body["session_id"], r.body["checkout_url"]))
    else None
  }

  /** The session fields pass through unchanged, and a failure never reads as a session. */
  lemma RespondRoundTrip(outcome: ProviderOutcome, errorTime: string)
    ensures outcome.Success? ==> SessionOf(Respond(outcome, errorTime)) == Some((outcome.sessionId, outcome.checkoutUrl))
    ensures outcome.Failure? ==> SessionOf(Respond(outcome, errorTime)) == None
  {
  }

  /**
   * The configuration {productId: "p1", apiKey: "k"} with no customer and a
   * provider answering session "s1" yields 200 with that session.
   */
  lemma ScenarioSingleSession(req: HttpRequest, clock: Clock)
    ensures var env := Env(Some("p1"), Some("k"), None, None, None);
      var provider := (call: ProviderCall) => Success("s1", "https://pay/s1");
      var x := Handle(LoadConfig(env), req, clock, provider);
      && x.call.Some?
      && x.call.value.bearerToken == "k"
      && x.call.value.request.productCart == [CartItem("p1", 1)]
      && x.call.value.request.customer == None
      && x.call.value.request.metadata["quantity"] == "1"
      && x.response == Response(200, map["session_id" := "s1", "checkout_url" := "https://pay/s1"])
  {
  }
}
