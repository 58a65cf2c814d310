/** The payment-provider webhook (`POST` in
    src/app/api/webhooks/stripe/route.ts): after the signature check it
    dispatches on the event kind and writes the `orders`, `order_items` and
    `cart_items` tables one remote call at a time, answering 500 at the
    first call that reports an error. */
module StripeWebhook {
  import opened Results
  import opened Http

  datatype Metadata = Metadata(profileId: string, cartId: string)

  /** The fields of a completed checkout session the handler reads.
      Amounts are in cents, as the provider sends them. */
  datatype CheckoutSession = CheckoutSession(
    metadata: Metadata,
    amountSubtotal: int,
    amountTotal: int,
    billingAddress: Option<string>,
    shippingAddress: Option<string>,
    paymentIntent: Option<string>)

  /** A verified event, tagged by its `type`. */
  datatype Event =
    | CheckoutSessionCompleted(session: CheckoutSession)   // 'checkout.session.completed'
    | PaymentIntentSucceeded(intentId: string)             // 'payment_intent.succeeded'
    | PaymentIntentFailed(intentId: string)                // 'payment_intent.payment_failed'
    | Unhandled(kind: string)                              // any other type

  /** A row of `orders`. Amounts are in currency units. */
  datatype Order = Order(
    id: nat,
    profileId: string,
    orderNumber: string,
    status: string,
    paymentStatus: string,
    subtotal: real,
    tax: real,
    shipping: real,
    total: real,
    billingAddress: Option<string>,
    shippingAddress: Option<string>,
    paymentIntentId: Option<string>)

  /** A row of `order_items`. */
  datatype OrderItem = OrderItem(orderId: nat, productId: string, quantity: int, price: real)

  /** A row of `cart_items` as this handler sees it. */
  datatype CartRow = CartRow(cartId: string, productId: string, quantity: int)

  /** Which of the remote calls report an error if they are reached. */
  datatype Faults = Faults(
    insertOrder: bool,
    selectCart: bool,
    insertItems: bool,
    deleteCart: bool,
    updateOrders: bool)

  const SignatureFailure := Response(400, ErrorMessage("Webhook signature verification failed"))
  const ProcessingFailure := Response(500, ErrorMessage("Error processing webhook"))
  const Acknowledged := Response(200, Received)

  /** The rows of `s` that `keep` accepts, in their order. */
  function Filter<T(!new)>(s: seq<T>, keep: T -> bool): (r: seq<T>)
    ensures |r| <= |s|
    ensures forall x :: x in r <==> x in s && keep(x)
    decreases s
  {
    if s == [] then []
    else (if keep(s[0]) then [s[0]] else []) + Filter(s[1..], keep)
  }

  /** `.select(...).eq('cart_id', cartId)`. */
  function CartRowsOf(rows: seq<CartRow>, cartId: string): (r: seq<CartRow>)
    ensures forall x :: x in r <==> x in rows && x.cartId == cartId
  {
    Filter(rows, (x: CartRow) => x.cartId == cartId)
  }

  /** What `.delete().eq('cart_id', cartId)` leaves. */
  function WithoutCart(rows: seq<CartRow>, cartId: string): (r: seq<CartRow>)
    ensures forall x :: x in r <==> x in rows && x.cartId != cartId
  {
    Filter(rows, (x: CartRow) => x.cartId != cartId)
  }

  /** The rows read for a cart and the rows its delete leaves make up the
      whole table: every row is copied into the order or stays, none both. */
  lemma {:induction false} CartRowsPartition(rows: seq<CartRow>, cartId: string)
    ensures multiset(CartRowsOf(rows, cartId)) + multiset(WithoutCart(rows, cartId)) == multiset(rows)
  {
    if rows != [] {
      CartRowsPartition(rows[1..], cartId);
      assert rows == [rows[0]] + rows[1..];
      assert multiset(rows) == multiset{rows[0]} + multiset(rows[1..]);
    }
  }

  /** The order row inserted for a completed session: cents become units,
      the tax is whatever the total adds to the subtotal, shipping is 0. */
  function NewOrder(id: nat, session: CheckoutSession, orderNumber: string): (o: Order)
    ensures o.id == id && o.profileId == session.metadata.profileId && o.orderNumber == orderNumber
    ensures o.status == "processing" && o.paymentStatus == "paid"
    ensures o.subtotal * 100.0 == session.amountSubtotal as real
    ensures o.total * 100.0 == session.amountTotal as real
    ensures o.shipping == 0.0
    ensures o.subtotal + o.tax + o.shipping == o.total
    ensures o.billingAddress == session.billingAddress && o.shippingAddress == session.shippingAddress
    ensures o.paymentIntentId == session.paymentIntent
  {
    Order(id, session.metadata.profileId, orderNumber, "processing", "paid",
      session.amountSubtotal as real / 100.0,
      (session.amountTotal - session.amountSubtotal) as real / 100.0,
      0.0,
      session.amountTotal as real / 100.0,
      session.billingAddress, session.shippingAddress, session.paymentIntent)
  }

  /** `cartItems.map(...)` into order items. A row whose product is not in
      `products` has no joined product, so reading its price throws. */
  function OrderItemsFor(orderId: nat, rows: seq<CartRow>, products: map<string, real>): (r: Option<seq<OrderItem>>)
    ensures r.Some? <==> forall x :: x in rows ==> x.productId in products
    ensures r.Some? ==> |r.value| == |rows|
    ensures r.Some? ==> forall i :: 0 <= i < |rows| ==>
      && r.value[i].orderId == orderId
      && r.value[i].productId == rows[i].productId
      && r.value[i].quantity == rows[i].quantity
      && r.value[i].price == products[rows[i].productId]
  {
    if forall x :: x in rows ==> x.productId in products then
      Some(seq(|rows|, i requires 0 <= i < |rows| =>
        OrderItem(orderId, rows[i].productId, rows[i].quantity, products[rows[i].productId])))
    else None
  }

  /** `.update({ payment_status: status }).eq('stripe_payment_intent_id', intentId)`. */
  function SetPaymentStatus(orders: seq<Order>, intentId: string, status: string): (r: seq<Order>)
    ensures |r| == |orders|
    ensures forall i :: 0 <= i < |orders| ==> r[i] == orders[i].(paymentStatus := r[i].paymentStatus)
    ensures forall i :: 0 <= i < |orders| && orders[i].paymentIntentId == Some(intentId) ==>
      r[i] == orders[i].(paymentStatus := status)
    ensures forall i :: 0 <= i < |orders| && orders[i].paymentIntentId != Some(intentId) ==>
      r[i] == orders[i]
  {
    seq(|orders|, i requires 0 <= i < |orders| =>
      if orders[i].paymentIntentId == Some(intentId) then orders[i].(paymentStatus := status)
      else orders[i])
  }

  /** The ids of a list of orders. */
  ghost function OrderIds(orders: seq<Order>): set<nat> {
    set i | 0 <= i < |orders| :: orders[i].id
  }

  /** The tables the handler writes, held in memory. `nextOrderId` is the
      id the database gives the next inserted order. */
  class Store {
    var orders: seq<Order>
    var orderItems: seq<OrderItem>
    var cartItems: seq<CartRow>
    var products: map<string, real>
    var nextOrderId: nat

    /** Order ids are unique and below `nextOrderId`, every order item
        belongs to an order, and every order's amounts add up. */
    ghost predicate Valid()
      reads this
    {
      && (forall i :: 0 <= i < |orders| ==> orders[i].id < nextOrderId)
      && (forall i, j :: 0 <= i < j < |orders| ==> orders[i].id != orders[j].id)
      && (forall k :: 0 <= k < |orderItems| ==> orderItems[k].orderId in OrderIds(orders))
      && (forall i :: 0 <= i < |orders| ==> orders[i].subtotal + orders[i].tax + orders[i].shipping == orders[i].total)
    }

    constructor (products: map<string, real>, cartItems: seq<CartRow>)
      ensures Valid()
      ensures this.orders == [] && this.orderItems == []
      ensures this.cartItems == cartItems && this.products == products
    {
      this.orders := [];
      this.orderItems := [];
      this.cartItems := cartItems;
      this.products := products;
      this.nextOrderId := 0;
    }

    /** The `checkout.session.completed` branch: insert the order, read the
        cart's rows, insert one order item per row, delete the rows. Each
        step runs only if the one before it succeeded. */
    method CompleteCheckout(session: CheckoutSession, orderNumber: string, faults: Faults)
      returns (resp: Response)
      requires Valid()
      modifies this
      ensures Valid()
      ensures products == old(products)
      ensures faults.insertOrder ==> resp == ProcessingFailure && unchanged(this)
      ensures !faults.insertOrder ==>
        && orders == old(orders) + [NewOrder(old(nextOrderId), session, orderNumber)]
        && nextOrderId == old(nextOrderId) + 1
      ensures !faults.insertOrder ==>
        var items := OrderItemsFor(old(nextOrderId), CartRowsOf(old(cartItems), session.metadata.cartId), old(products));
        faults.selectCart || faults.insertItems || items.None? ==>
        resp == ProcessingFailure && orderItems == old(orderItems) && cartItems == old(cartItems)
      ensures !faults.insertOrder && !faults.selectCart && !faults.insertItems ==>
        var items := OrderItemsFor(old(nextOrderId), CartRowsOf(old(cartItems), session.metadata.cartId), old(products));
        items.Some? ==>
          && orderItems == old(orderItems) + items.value
          && (faults.deleteCart ==> resp == ProcessingFailure && cartItems == old(cartItems))
          && (!faults.deleteCart ==> resp == Acknowledged && cartItems == WithoutCart(old(cartItems), session.metadata.cartId))
    {
      if faults.insertOrder {
        return ProcessingFailure;
      }
      var order := NewOrder(nextOrderId, session, orderNumber);
      ghost var before := orders;
      orders := orders + [order];
      nextOrderId := nextOrderId + 1;
      assert OrderIds(orders) == OrderIds(before) + {order.id} by {
        assert orders[|before|] == order;
        forall i | 0 <= i < |before| ensures orders[i] == before[i] { }
      }
      if faults.selectCart {
        return ProcessingFailure;
      }
      var rows := CartRowsOf(cartItems, session.metadata.cartId);
      var items := OrderItemsFor(order.id, rows, products);
      if items.None? || faults.insertItems {
        return ProcessingFailure;
      }
      orderItems := orderItems + items.value;
      if faults.deleteCart {
        return ProcessingFailure;
      }
      cartItems := WithoutCart(cartItems, session.metadata.cartId);
      resp := Acknowledged;
    }

    /** The two payment-intent branches: set `payment_status` on the orders
        recorded with that intent id, unless the update reports an error. */
    method UpdatePaymentStatus(intentId: string, status: string, updateFails: bool)
      returns (resp: Response)
      requires Valid()
      modifies this
      ensures Valid()
      ensures products == old(products) && nextOrderId == old(nextOrderId)
      ensures orderItems == old(orderItems) && cartItems == old(cartItems)
      ensures updateFails ==> resp == ProcessingFailure && orders == old(orders)
      ensures !updateFails ==> resp == Acknowledged && orders == SetPaymentStatus(old(orders), intentId, status)
    {
      if updateFails {
        return ProcessingFailure;
      }
      var updated := SetPaymentStatus(orders, intentId, status);
      assert OrderIds(updated) == OrderIds(orders) by {
        forall i | 0 <= i < |orders| ensures updated[i].id == orders[i].id {
        }
      }
      orders := updated;
      resp := Acknowledged;
    }

    /** The handler. `constructed` is the signature check's verdict: the
        event, or `None` when verification threw. `orderNumber` stands for
        `ORD-${Date.now()}`. */
    method HandleWebhook(constructed: Option<Event>, orderNumber: string, faults: Faults)
      returns (resp: Response)
      requires Valid()
      modifies this
      ensures Valid()
      ensures products == old(products)
      // A bad signature: 400, and nothing is written.
      ensures constructed.None? ==> resp == SignatureFailure && unchanged(this)
      // An event kind the handler does not know: acknowledged, nothing written.
      ensures constructed.Some? && constructed.value.Unhandled? ==> resp == Acknowledged && unchanged(this)
      // Payment outcome events touch `orders` only, and only the matching rows.
      ensures constructed.Some? && (constructed.value.PaymentIntentSucceeded? || constructed.value.PaymentIntentFailed?) ==>
        && orderItems == old(orderItems) && cartItems == old(cartItems) && nextOrderId == old(nextOrderId)
        && (faults.updateOrders ==> resp == ProcessingFailure && orders == old(orders))
        && (!faults.updateOrders ==> resp == Acknowledged)
      ensures constructed.Some? && constructed.value.PaymentIntentSucceeded? && !faults.updateOrders ==>
        orders == SetPaymentStatus(old(orders), constructed.value.intentId, "paid")
      ensures constructed.Some? && constructed.value.PaymentIntentFailed? && !faults.updateOrders ==>
        orders == SetPaymentStatus(old(orders), constructed.value.intentId, "failed")
      // A completed checkout: order, then order items, then the cart, stopping at the first error.
      ensures constructed.Some? && constructed.value.CheckoutSessionCompleted? && faults.insertOrder ==>
        resp == ProcessingFailure && unchanged(this)
      ensures constructed.Some? && constructed.value.CheckoutSessionCompleted? && !faults.insertOrder ==>
        && orders == old(orders) + [NewOrder(old(nextOrderId), constructed.value.session, orderNumber)]
        && nextOrderId == old(nextOrderId) + 1
      ensures constructed.Some? && constructed.value.CheckoutSessionCompleted? && !faults.insertOrder ==>
        var cartId := constructed.value.session.metadata.cartId;
        var items := OrderItemsFor(old(nextOrderId), CartRowsOf(old(cartItems), cartId), old(products));
        && (faults.selectCart || faults.insertItems || items.None? ==>
              resp == ProcessingFailure && orderItems == old(orderItems) && cartItems == old(cartItems))
        && (!faults.selectCart && !faults.insertItems && items.Some? ==>
              && orderItems == old(orderItems) + items.value
              && (faults.deleteCart ==> resp == ProcessingFailure && cartItems == old(cartItems))
              && (!faults.deleteCart ==>
                    && resp == Acknowledged
                    && cartItems == WithoutCart(old(cartItems), cartId)
                    && forall x :: x in cartItems ==> x.cartId != cartId))
    {
      if constructed.None? {
        return SignatureFailure;
      }
      match constructed.value {
        case CheckoutSessionCompleted(session) =>
          resp := CompleteCheckout(session, orderNumber, faults);
        case PaymentIntentSucceeded(intentId) =>
          resp := UpdatePaymentStatus(intentId, "paid", faults.updateOrders);
        case PaymentIntentFailed(intentId) =>
          resp := UpdatePaymentStatus(intentId, "failed", faults.updateOrders);
        case Unhandled(_) =>
          resp := Acknowledged;
      }
    }
  }
}
