# Storefront cart, pricing and fulfilment — a Dafny model

This project models the sequential logic of a storefront web application
whose catalog, search, payments and persistence are hosted services. Four
pieces of that logic are modelled, each file on its own terms:

- the client-side **cart store** (`CartProvider`): a list of cart items and a
  loading flag, changed by load, add, remove, update-quantity and clear, each
  only after its remote write succeeded (`cart_context.dfy`, module
  `CartContext`);
- the **order pricing rule** shown by the cart summary and the checkout
  form: subtotal = Σ price × quantity, 10% tax, shipping free above 100,
  total = subtotal + tax + shipping (`cart_page.dfy`, module `CartPage`;
  `checkout_page.dfy`, module `CheckoutPage`, which also holds the form's
  loading and empty-cart guards and the request its submit handler sends);
- the **checkout-session endpoint**, which maps posted items to the payment
  provider's line items and builds the return URLs (`checkout_route.dfy`,
  module `CheckoutRoute`);
- the **payment webhook**, which verifies an event and then inserts an order,
  copies the cart's rows into order items, clears the cart, or updates
  payment statuses by payment-intent id, stopping at the first remote error
  (`stripe_webhook.dfy`, module `StripeWebhook`, over a `Store` class that
  holds the tables).

`common.dfy` holds the outcome of a remote call (`Results.Remote`: `Ok` with
data, or `Failed`) and the JSON responses (`Http.Response`).

Remote services are never run. Every remote call becomes a parameter that
says what it reported: the signed-in user, the rows a select returned, whether
a write failed, the provider's session id, the signature check's verdict.
The webhook's tables are fields of a class that its methods update in place.
Money is exact: prices and amounts are `real`, and provider amounts are
integer cents.

Three facts of the source shape the model:
- the cart store changes its local items only after the remote call's
  `if (error) throw` has passed (src/lib/cart-context.tsx:85, 110, 130, 152);
- a payment-intent event updates every order recorded with that intent id,
  not one chosen order (src/app/api/webhooks/stripe/route.ts:93-96, 106-109);
- the checkout endpoint sends the provider a rounded unit amount and a
  quantity for each item, not a line total (src/app/api/checkout/route.ts:31, 33).

## Model

| member | source | states |
|---|---|---|
| CartContext.Removed | src/lib/cart-context.tsx:112 | the result holds exactly the items whose id differs from the removed id, and is the list itself when no item has that id |
| CartContext.RemovedDistributes | src/lib/cart-context.tsx:112 | removal distributes over concatenation, so surviving items keep their original order |
| CartContext.RemovedKeepsUnique | src/lib/cart-context.tsx:112 | removing an item keeps product ids unique |
| CartContext.WithQuantity | src/lib/cart-context.tsx:132-136 | same length; only the quantity of items with the given id changes, to the new value; uniqueness of product ids and quantities of at least one are kept |
| CartContext.WithAddedQuantity | src/lib/cart-context.tsx:88-95 | same length; items of the product get the added quantity, every other item and field is unchanged; uniqueness is kept |
| CartContext.Added | src/lib/cart-context.tsx:87-97 | a product already present gets more quantity with the length unchanged; a new product appends the returned row after an unchanged prefix; if that row carries the added product id, unique product ids stay unique |
| CartContext.CartProvider.constructor | src/lib/cart-context.tsx:30-31 | the store starts with no items and loading |
| CartContext.CartProvider.LoadCart | src/lib/cart-context.tsx:34-64 | no user empties the cart; a failed select leaves it; a successful one replaces it (null data gives the empty list); loading is false afterwards on every path |
| CartContext.CartProvider.AddItem | src/lib/cart-context.tsx:70-101 | without a user or with a failed upsert the items are unchanged; otherwise they become `Added` of the old items; unique product ids stay unique |
| CartContext.CartProvider.RemoveItem | src/lib/cart-context.tsx:103-116 | after a successful delete the items are `Removed` of the old ones, after a failed one unchanged; uniqueness and positive quantities are kept |
| CartContext.CartProvider.UpdateQuantity | src/lib/cart-context.tsx:118-140 | a quantity below one has exactly `RemoveItem`'s effect; otherwise a successful update sets that item's quantity; a failure changes nothing; uniqueness and positive quantities are kept |
| CartContext.CartProvider.ClearCart | src/lib/cart-context.tsx:142-158 | the items become empty exactly when a user is signed in and the delete succeeded, and are unchanged otherwise |
| CartPage.Subtotal | src/app/cart/page.tsx:81-84 | the subtotal of an empty cart is 0 |
| CartPage.SumFromShift | src/app/cart/page.tsx:81-84 | folding from a start value adds exactly that value to the fold from 0 |
| CartPage.SubtotalCons | src/app/cart/page.tsx:81-84 | the subtotal is the first item's price × quantity plus the subtotal of the rest |
| CartPage.SubtotalAppend | src/app/cart/page.tsx:81-84 | the subtotal of two lists together is the sum of their subtotals |
| CartPage.SubtotalWithout | src/app/cart/page.tsx:81-84 | the subtotal is any one item's price × quantity plus the subtotal of the other items |
| CartPage.SubtotalPermutation | src/app/cart/page.tsx:81-84 | the subtotal does not depend on the order of the items |
| CartPage.SubtotalNonNegative | src/app/cart/page.tsx:81-84 | with no negative price or quantity the subtotal is not negative |
| CartPage.Tax | src/app/cart/page.tsx:85 | tax is exactly one tenth of the subtotal |
| CartPage.Shipping | src/app/cart/page.tsx:86 | shipping is 0 exactly when the subtotal exceeds 100, else 10, so a subtotal of exactly 100 pays 10 |
| CartPage.CartSummary | src/app/cart/page.tsx:81-87 | the four amounts: the subtotal, a tenth of it as tax, the shipping rule, and total = subtotal + tax + shipping |
| CartPage.TotalAtLeastSubtotal | src/app/cart/page.tsx:85-87 | with no negative price or quantity the total is at least the subtotal |
| CartPage.ShippingLabel | src/app/cart/page.tsx:102 | the label is "Free" exactly when shipping is 0, and shows the amount otherwise |
| CheckoutPage.CheckoutForm | src/app/checkout/page.tsx:10-27 | loading is shown exactly while loading; otherwise an empty cart redirects to `/cart`; only a non-empty loaded cart gets totals, by the cart summary's rule, and a payload carrying that total |
| CheckoutPage.RequestPayload | src/app/checkout/page.tsx:41-47 | one entry per cart item in the same order, with id = product id and the quantity copied; the payload total is the computed total |
| CheckoutPage.HandleSubmit | src/app/checkout/page.tsx:29-62 | for the loaded, non-empty cart the form was rendered for: without a loaded provider client only an error is logged; otherwise the form's own payload, whose total is the summary's total, is posted first, then a failed fetch is logged, or the returned session id is handed to the provider redirect, whose failure is logged |
| CheckoutRoute.Origin | src/app/api/checkout/route.ts:20 | a non-empty origin header is used as is; a missing or empty one gives `http://localhost:3000` |
| CheckoutRoute.RoundHalfUp | src/app/api/checkout/route.ts:31 | the result is the nearest integer, with halves rounded up |
| CheckoutRoute.UnitAmount | src/app/api/checkout/route.ts:31 | the unit amount is the price × 100 rounded to the nearest integer |
| CheckoutRoute.UnitAmountOfCents | src/app/api/checkout/route.ts:31 | a price in whole cents is sent as exactly that many cents |
| CheckoutRoute.ToLineItem | src/app/api/checkout/route.ts:25-33 | the quantity and name are copied, images is the one-element list of the image, currency is `usd`, the unit amount is the rounded price in cents |
| CheckoutRoute.LineItems | src/app/api/checkout/route.ts:24-34 | one line item per posted item, in the same order |
| CheckoutRoute.SessionRequest | src/app/api/checkout/route.ts:22-38 | payment methods `['card']`, mode `payment`, the line items, success URL = origin + `/checkout/confirmation?session_id={CHECKOUT_SESSION_ID}`, cancel URL = origin + `/cart` |
| CheckoutRoute.Post | src/app/api/checkout/route.ts:16-48 | status 200 with the session id exactly when the body parses and the provider creates the session; every failure is status 500 with the error body and no session id |
| StripeWebhook.CartRowsOf | src/app/api/webhooks/stripe/route.ts:57-60 | the rows read are exactly the table's rows with the session's cart id |
| StripeWebhook.WithoutCart | src/app/api/webhooks/stripe/route.ts:79-82 | the rows left are exactly the table's rows with another cart id |
| StripeWebhook.CartRowsPartition | src/app/api/webhooks/stripe/route.ts:57-84 | the rows copied into the order and the rows the delete leaves together make up the table, each row exactly once |
| StripeWebhook.NewOrder | src/app/api/webhooks/stripe/route.ts:36-52 | status `processing`, payment status `paid`, subtotal and total are the session's cents / 100, shipping 0, so subtotal + tax + shipping = total; profile, addresses and payment intent come from the session |
| StripeWebhook.OrderItemsFor | src/app/api/webhooks/stripe/route.ts:64-74 | when every row's product exists: one order item per row, in order, with the new order's id, the row's product and quantity and the product's price; otherwise reading a price fails |
| StripeWebhook.SetPaymentStatus | src/app/api/webhooks/stripe/route.ts:93-96 | orders recorded with the intent id get the new payment status; every other order, and every other field, is unchanged |
| StripeWebhook.Store.CompleteCheckout | src/app/api/webhooks/stripe/route.ts:32-87 | a failed order insert changes nothing; otherwise exactly one order is added, then a failed select, missing product or failed item insert stops with 500 before any order item or cart change, a failed delete stops with 500 after the items, and success leaves the items appended and the cart's rows gone |
| StripeWebhook.Store.UpdatePaymentStatus | src/app/api/webhooks/stripe/route.ts:89-113 | on success the orders become `SetPaymentStatus` of the old ones, on failure 500 and nothing changes; no other table changes |
| StripeWebhook.Store.HandleWebhook | src/app/api/webhooks/stripe/route.ts:10-124 | a failed signature check answers 400 and writes nothing; an unknown event kind is acknowledged and writes nothing; the payment events update only matching orders; a completed checkout adds exactly one order unless its insert fails, and then each failing step (select, missing product, item insert, delete) answers 500 with no later step run, a failed delete leaving the items inserted and the cart kept, while success leaves the cart's rows as order items and no row of that cart; the store invariant (unique order ids, every order item belongs to an order, every order's amounts add up) is kept |

## Left out

- Network, authentication and database clients: each remote call is a parameter giving its outcome; the hosted services' own behaviour (what an upsert overwrites, row order of a select) is not modelled.
- The cart store's remote `cart_items` table: the model tracks the local list only, so it does not relate local state to what the upsert writes (the upsert sets the remote quantity while the local list adds to it).
- CartContext.CartProvider.AddItem: appends the upsert's returned row as given, with a product record; in the source that row is selected without the product join.
- CartContext.Added: keeps product ids unique only when the returned row carries the added product id, which is what the store sends back but is not checked by the code.
- Quantities are integers: `parseInt` of an empty field gives NaN, which the quantity guard lets through; NaN and fractional quantities are not modelled.
- Floating point: `toFixed` formatting, binary rounding of `subtotal * 0.1` and of `price * 100`; the model computes on exact reals.
- CheckoutPage.CheckoutForm: states which view is produced, not the evaluation order inside the component; the form's markup and contact and address fields, which are not sent, are not modelled.
- The order number `ORD-${Date.now()}` is a parameter; the clock is not modelled.
- The signature check's cryptography: its verdict (the event, or none) is a parameter.
- The event's `type` string is represented by the constructor of `Event`; the provider's payload schema beyond the fields read is not modelled.
- Duplicate webhook delivery: the handler has no idempotency key, and the model makes no idempotence claim (a second delivery adds a second order).
- Concurrency: interleaved cart updates from several tabs and React's asynchronous scheduling.
- Rendering: product listing, product card, home page, layouts, loading skeletons, the confirmation page and the content-store schema.
- Cross-file wiring: the checkout page posts `{ id, quantity }` while the endpoint reads `{ name, image, price, quantity }`, and the webhook reads cart rows by cart id while the cart store keys them by user id; each file is modelled on its own terms.
