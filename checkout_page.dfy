/** The checkout form (`CheckoutForm` in src/app/checkout/page.tsx): its
    loading and empty-cart guards, its totals, and the request its submit
    handler sends to the checkout endpoint before handing over to the
    payment provider. */
module CheckoutPage {
  import opened Results
  import opened CartContext
  import CartPage

  /** One entry of the JSON body: `{ id: item.product_id, quantity: item.quantity }`. */
  datatype PayloadItem = PayloadItem(id: string, quantity: int)

  /** The JSON body `{ items, total }` posted to `/api/checkout`. */
  datatype CheckoutPayload = CheckoutPayload(items: seq<PayloadItem>, total: real)

  /** The body `handleSubmit` builds from the cart and the computed total. */
  function RequestPayload(items: seq<CartItem>, total: real): (p: CheckoutPayload)
    ensures |p.items| == |items|
    ensures forall i :: 0 <= i < |items| ==>
      p.items[i].id == items[i].productId && p.items[i].quantity == items[i].quantity
    ensures p.total == total
  {
    CheckoutPayload(seq(|items|, i requires 0 <= i < |items| =>
      PayloadItem(items[i].productId, items[i].quantity)), total)
  }

  /** What the form component renders. `redirect` throws, so nothing after it runs. */
  datatype FormView =
    | LoadingState
    | Redirect(path: string)
    | Form(summary: CartPage.Summary, payload: CheckoutPayload)

  /** The guards first (loading, then an empty cart), and only then the
      totals, which follow the cart summary's rule. */
  function CheckoutForm(items: seq<CartItem>, isLoading: bool): (v: FormView)
    ensures v.LoadingState? <==> isLoading
    ensures v.Redirect? <==> !isLoading && items == []
    ensures v.Redirect? ==> v.path == "/cart"
    ensures v.Form? ==> v.summary.subtotal == CartPage.Subtotal(items)
    ensures v.Form? ==> v.summary.tax * 10.0 == v.summary.subtotal
    ensures v.Form? ==> v.summary.shipping == (if v.summary.subtotal > 100.0 then 0.0 else 10.0)
    ensures v.Form? ==> v.summary.total == v.summary.subtotal + v.summary.tax + v.summary.shipping
    ensures v.Form? ==> v.payload == RequestPayload(items, v.summary.total)
  {
    if isLoading then LoadingState
    else if |items| == 0 then Redirect("/cart")
    else
      var summary := CartPage.CartSummary(items);
      Form(summary, RequestPayload(items, summary.total))
  }

  /** How the request to the checkout endpoint ended: the fetch or the
      body's JSON parse threw, or a body came back, with or without a
      `sessionId` field (the status code is not looked at). */
  datatype FetchResult = FetchFailed | Responded(sessionId: Option<string>)

  /** The effects of submitting the form, in the order they happen. */
  datatype Effect =
    | PostCheckout(path: string, payload: CheckoutPayload)
    | RedirectToCheckout(sessionId: Option<string>)
    | LogError

  /** `handleSubmit`, which exists only once the form is rendered, so for a
      loaded, non-empty cart, and posts the items and total that render
      computed: without a loaded provider client nothing is sent; otherwise
      the cart is posted, the returned session id (whatever it is) is handed
      to the provider's redirect, and any error is logged. */
  method HandleSubmit(items: seq<CartItem>, stripeLoaded: bool,
                      fetched: FetchResult, redirectFailed: bool)
    returns (effects: seq<Effect>)
    requires items != []
    ensures !stripeLoaded ==> effects == [LogError]
    ensures stripeLoaded ==>
      && |effects| >= 2
      && effects[0] == PostCheckout("/api/checkout", CheckoutForm(items, false).payload)
      && effects[0].payload.total == CartPage.CartSummary(items).total
      && |effects[0].payload.items| == |items|
    ensures stripeLoaded && fetched.FetchFailed? ==> |effects| == 2 && effects[1] == LogError
    ensures stripeLoaded && fetched.Responded? ==>
      && effects[1] == RedirectToCheckout(fetched.sessionId)
      && (if redirectFailed then |effects| == 3 && effects[2] == LogError else |effects| == 2)
  {
    if !stripeLoaded {
      return [LogError];
    }
    var total := CartPage.CartSummary(items).total;
    effects := [PostCheckout("/api/checkout", RequestPayload(items, total))];
    if fetched.FetchFailed? {
      return effects + [LogError];
    }
    effects := effects + [RedirectToCheckout(fetched.sessionId)];
    if redirectFailed {
      effects := effects + [LogError];
    }
  }
}
