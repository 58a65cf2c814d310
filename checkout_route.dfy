/** The checkout-session endpoint (`POST` in src/app/api/checkout/route.ts):
    it maps the posted items to the payment provider's line items, adds the
    return URLs, and answers with the created session's id. The provider
    call is a parameter. */
module CheckoutRoute {
  import opened Results
  import opened Http

  /** One posted item: `{ name, image, price, quantity }`. */
  datatype CheckoutItem = CheckoutItem(name: string, image: string, price: real, quantity: int)

  /** The parsed JSON body `{ items }`. */
  datatype CheckoutRequest = CheckoutRequest(items: seq<CheckoutItem>)

  datatype ProductData = ProductData(name: string, images: seq<string>)
  datatype PriceData = PriceData(currency: string, productData: ProductData, unitAmount: int)
  datatype LineItem = LineItem(priceData: PriceData, quantity: int)

  /** The parameters of `stripe.checkout.sessions.create`. */
  datatype SessionParams = SessionParams(
    paymentMethodTypes: seq<string>,
    lineItems: seq<LineItem>,
    mode: string,
    successUrl: string,
    cancelUrl: string)

  const DefaultOrigin := "http://localhost:3000"
  const SuccessPath := "/checkout/confirmation?session_id={CHECKOUT_SESSION_ID}"
  const CancelPath := "/cart"
  const FailureMessage := "Error creating checkout session"

  /** `headersList.get('origin') || 'http://localhost:3000'`: a missing and
      an empty header both fall back, since `||` treats `''` as false. */
  function Origin(header: Option<string>): (o: string)
    ensures header.Some? && header.value != "" ==> o == header.value
    ensures header.None? || header.value == "" ==> o == DefaultOrigin
    ensures o != ""
  {
    match header
    case Some(h) => if h != "" then h else DefaultOrigin
    case None => DefaultOrigin
  }

  /** `Math.round`: the nearest integer, halves going up. */
  function RoundHalfUp(x: real): (n: int)
    ensures n as real - 0.5 <= x < n as real + 0.5
  {
    (x + 0.5).Floor
  }

  /** `Math.round(price * 100)`: the price in cents. */
  function UnitAmount(price: real): (cents: int)
    ensures cents as real - 0.5 <= price * 100.0 < cents as real + 0.5
  {
    RoundHalfUp(price * 100.0)
  }

  /** A price given in whole cents is passed on unchanged. */
  lemma UnitAmountOfCents(cents: int)
    ensures UnitAmount(cents as real / 100.0) == cents
  {
  }

  /** The line item for one posted item. */
  function ToLineItem(item: CheckoutItem): (l: LineItem)
    ensures l.quantity == item.quantity
    ensures l.priceData.currency == "usd"
    ensures l.priceData.productData.name == item.name
    ensures l.priceData.productData.images == [item.image]
    ensures l.priceData.unitAmount as real - 0.5 <= item.price * 100.0 < l.priceData.unitAmount as real + 0.5
  {
    LineItem(PriceData("usd", ProductData(item.name, [item.image]), UnitAmount(item.price)), item.quantity)
  }

  /** `body.items.map(...)`: one line item per posted item, in order. */
  function LineItems(items: seq<CheckoutItem>): (ls: seq<LineItem>)
    ensures |ls| == |items|
    ensures forall i :: 0 <= i < |items| ==> ls[i] == ToLineItem(items[i])
  {
    seq(|items|, i requires 0 <= i < |items| => ToLineItem(items[i]))
  }

  /** Everything the handler passes to the provider. */
  function SessionRequest(body: CheckoutRequest, originHeader: Option<string>): (p: SessionParams)
    ensures p.paymentMethodTypes == ["card"] && p.mode == "payment"
    ensures |p.lineItems| == |body.items|
    ensures forall i :: 0 <= i < |body.items| ==> p.lineItems[i] == ToLineItem(body.items[i])
    ensures p.successUrl == Origin(originHeader) + SuccessPath
    ensures p.cancelUrl == Origin(originHeader) + CancelPath
  {
    var origin := Origin(originHeader);
    SessionParams(["card"], LineItems(body.items), "payment", origin + SuccessPath, origin + CancelPath)
  }

  /** The handler. `body` is `None` when the request body is not JSON with
      an `items` list; `createSession` is the provider, which returns a
      session id or fails. Every failure is the same 500 answer. */
  function Post(body: Option<CheckoutRequest>, originHeader: Option<string>,
                createSession: SessionParams -> Remote<string>): (r: Response)
    ensures r.status == 200 || r == Response(500, ErrorMessage(FailureMessage))
    ensures r.status == 200 <==> body.Some? && createSession(SessionRequest(body.value, originHeader)).Ok?
    ensures r.status == 200 ==>
      r.body == SessionCreated(createSession(SessionRequest(body.value, originHeader)).value)
  {
    match body
    case None => Response(500, ErrorMessage(FailureMessage))
    case Some(request) =>
      match createSession(SessionRequest(request, originHeader))
      case Ok(sessionId) => Response(200, SessionCreated(sessionId))
      case Failed => Response(500, ErrorMessage(FailureMessage))
  }
}
