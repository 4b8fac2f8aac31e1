# Checkout-session handler of a Dodo Payments test server

This project models the checkout core of a small Express server. The server
asks the Dodo Payments provider to create a hosted checkout session for one
fixed product and returns the checkout URL to the browser. The model covers
the `POST /api/create-checkout-session` handler with Express taken away:

- the configuration constants read from the environment at start-up;
- the two validation checks that must pass before the provider is called;
- the request payload given to `checkoutSessions.create`;
- the JSON response for a provider success or a provider failure.

Everything is pure. `Checkout.Handle` takes the provider as a function from
the call it receives to its outcome. It returns the call it made, if any,
together with the response. This lets the model state when the provider is
reached at all. The two clock readings and the request's protocol and host
are passed in as parameters.

Modules:

- `Options` (options.dfy): an optional value. It stands for a variable or
  field that may be `undefined`.
- `Decimal` (decimal.dfy): how JavaScript writes an integer as text (the
  `quantity` metadata), and a reader for that text. The written text is
  canonical: no leading zero and no `-0`. Reading the text of n gives n
  back. Writing the value of a canonical text gives that text back.
  Distinct integers get distinct texts.
- `Checkout` (checkout.dfy): the environment, the configuration,
  validation, the payload, the response and the handler.

Facts about the server's behaviour that the model keeps:

- The server does not reject a quantity that is zero or negative. Any
  parsed integer is passed through.
- A provider success is forwarded as `session_id`/`checkout_url`, in
  snake_case. The server does not check for an incomplete provider
  response.
- A provider failure always gives 500. The server does not sort errors
  into kinds.
- The API-key check reads the raw environment variable. The product-ID
  check reads the defaulted constant. So an unset `PRODUCT_ID` arrives as
  the template value `your-product-id`, and the handler's empty-string test
  on it can never fire on a loaded configuration (`LoadConfig` ensures
  `productId != ""`).
- A request without a Host header gives a return URL with the host
  `undefined`. That is how a template literal prints a missing value.

## Model

| member | source | states |
|---|---|---|
| `Checkout.LoadConfig` | src/index.ts:26-29 | an unset or empty variable takes its default: product ID `your-product-id`, quantity 1, name and email empty; a set value passes through unchanged; the loaded product ID is never empty; the API key is the raw variable |
| `Checkout.BearerToken` | src/index.ts:21-23 | the client's token is the configured API key when that is set and non-empty, otherwise the template value `your-api-key-here` |
| `Checkout.ValidationMessage` | src/index.ts:51-53 | a product-ID error carries the text `Product ID not configured. Please set PRODUCT_ID in your .env file`; an API-key error carries `API key not configured. Please set DODO_PAYMENTS_API_KEY in your .env file` (src/index.ts:57-59) |
| `Checkout.Validate` | src/index.ts:49-60 | Ok exactly when the product ID is non-empty and not the template value and the API key is set, non-empty and not the template value; a bad product ID gives the product-ID error whatever the key is; the key error only comes when the product ID is usable |
| `Checkout.CustomerBlock` | src/index.ts:70-74 | the customer block is present iff both email and name are non-empty, and then it holds exactly that email and name |
| `Checkout.HostText` | src/index.ts:75 | the host as the template literal prints it: the Host header when present, the word `undefined` when it is missing |
| `Checkout.ReturnUrl` | src/index.ts:75 | the return URL splits into the protocol, then `://`, then the host text, then `/success` |
| `Checkout.Metadata` | src/index.ts:76-81 | exactly the keys source, timestamp, product_id and quantity; source is `web_checkout`; the timestamp is the clock reading; product_id is the configured product ID; quantity is exactly the integer's JavaScript text, which is canonical and reads back as the configured quantity |
| `Checkout.BuildRequest` | src/index.ts:63-82 | the cart has exactly one item, with the configured product ID and quantity; the customer block, return URL and metadata are as above |
| `Checkout.Respond` | src/index.ts:84-99 | status 200 iff the provider succeeded; then the body has exactly session_id and checkout_url, copied unchanged; on failure status 500 with exactly error `Failed to create checkout session`, details (the message of an Error, otherwise `Unknown error`) and the error-time timestamp |
| `Checkout.Handle` | src/index.ts:41-101 | the provider is called iff validation passes; it then gets the built payload and the bearer token, which equals the configured API key; otherwise status 400 with the validation message; the status is always 200, 400 or 500; no body has both session_id and error |
| `Checkout.ProductIdErrorWins` | src/index.ts:50-54 | an empty or template product ID gives 400 with the product-ID message and no provider call, whatever the API key |
| `Checkout.ApiKeyErrorWhenUnset` | src/index.ts:56-60 | with a usable product ID, a missing, empty or template API key gives 400 with the API-key message and no provider call |
| `Checkout.UnsetProductIdRejected` | src/index.ts:26 | an unset or empty PRODUCT_ID becomes `your-product-id`, and the handler then answers 400 without calling the provider |
| `Checkout.RejectionIgnoresProvider` | src/index.ts:49-63 | when validation fails, the outcome does not depend on the provider at all |
| `Checkout.MetadataMatchesCart` | src/index.ts:64-81 | the metadata's product_id equals the cart item's product ID, and its quantity text reads back as the cart item's quantity |
| `Checkout.MissingHostReadsUndefined` | src/index.ts:75 | a missing host gives `<protocol>://undefined/success`, the same URL as the host `undefined` |
| `Checkout.RespondRoundTrip` | src/index.ts:86-99 | a client reading a success response gets back exactly the provider's session ID and URL; a failure response never reads as a session |
| `Checkout.ScenarioSingleSession` | src/index.ts:41-89 | product `p1`, key `k`, no customer, and a provider answering session `s1`: one call with token `k`, cart `[p1 x 1]`, no customer, quantity text `1`, and the response 200 `{session_id: s1, checkout_url: https://pay/s1}` |
| `Decimal.NatToDecimal` | src/index.ts:80 | the text of a non-negative integer is one or more digits, with no leading zero except for 0 itself |
| `Decimal.IntToString` | src/index.ts:80 | the text of an integer is canonical: it starts with `-` iff the integer is negative; then come digits with no leading zero, except for 0 itself; a negative integer's first digit is never `0` |
| `Decimal.NatToDecimalRoundTrip` | src/index.ts:80 | reading the digits of n back gives n |
| `Decimal.IntToStringRoundTrip` | src/index.ts:80 | reading the text of any integer back gives that integer |
| `Decimal.IntToStringInjective` | src/index.ts:80 | distinct integers have distinct texts |
| `Decimal.CanonicalNatRoundTrip` | src/index.ts:80 | writing the value of a canonical digit string gives that string back |
| `Decimal.CanonicalRoundTrip` | src/index.ts:80 | every canonical text, negatives included, reads as an integer whose text is that string, so writing is the inverse of reading on canonical texts |

## Left out

- Express middleware, static file serving, request logging, the `/` route and `app.listen` (src/index.ts:9-18, 35-38, 155-160): server plumbing with no decisions in it.
- The construction of the DodoPayments client and the network call of `checkoutSessions.create` (src/index.ts:21-23, 63): a foreign SDK. The model keeps only the token the client is given and treats the call as a function from the call to its outcome. Timeouts, retries and partial provider responses are not modelled.
- `new Date().toISOString()` (src/index.ts:78, 98): clock input, passed in as the two strings of `Clock`. Their ISO-8601 format is not modelled.
- `parseInt` (src/index.ts:27): the environment gives the quantity as an integer already parsed. A non-numeric value, which would make the quantity NaN, is not modelled, and neither is parseInt's leniency about leading spaces, signs or trailing text.
- Decimal.IntToString: the quantity is an unbounded integer. JavaScript numbers are doubles, so precision above 2^53 and the exponent form that `toString` uses from 10^21 upward are not modelled.
- Checkout.Respond: the SDK result is taken to hold both fields as strings. JSON serialisation dropping an `undefined` field is not modelled.
- The `/success` HTML page (src/index.ts:104-153): UI rendering. It puts the `payment_id` and `status` query parameters into the page without escaping them, a reflected-injection risk.
- All `console.log` and `console.error` calls: output only.
- Webhook signature verification and event dispatch: no such code exists in src/index.ts, so there is nothing to model.
- The environment is read once. The server reads `DODO_PAYMENTS_API_KEY` at start-up for the client token (src/index.ts:22) and again on each request for the check (src/index.ts:56). The model holds one value for both reads, because nothing in src/index.ts writes `process.env`. A change to the environment after start-up is not modelled. Handle's promise that the token equals the checked key rests on this.
- Everything inside `try` apart from the provider call is treated as unable to throw. The handler's `catch` is modelled only for a failed provider call.
