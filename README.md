# Verified model of the e-commerce cart, order and payment core

This project is a Dafny model of the service layer of a Spring Boot shop. It covers five pieces:

- **`ProductService`**: the product catalogue, with upserts, stock adjustment and search.
- **`CartService`**: per-user cart lines. Repeated adds of the same product merge into one line.
- **`OrderService`**: turns a cart into an order. It snapshots prices, debits stock and clears the cart. It also updates status, cancels with restock, and answers read-only detail and history queries.
- **`PaymentService`**: creates a PENDING payment after order and amount checks. It settles payments from the mock gateway's webhook (looked up by order id) and from Razorpay's webhook (looked up by the stored external id).
- **`PaymentWebhookController`**: the intake decision. It parses the JSON body into request records, gates on the Razorpay signature, filters events, maps the status and turns exceptions into error responses.

Each service is a Dafny class, and its repository is a field: a `map` for products and orders, a `seq` for cart lines, order items and payments. Injected collaborators are `const` fields. Each `@Transactional` method either returns `Err` and leaves every repository as it was, or applies all of its writes. Where the Java code throws after some saves (a missing product while restocking, an unknown order while settling), the method restores a snapshot, as the transaction manager would.

The mutating methods are each proved against a pure function on values:

| method | specified by |
|---|---|
| `createOrder` | `CheckoutTotal` / `Debit` / `Snapshot` |
| `cancelOrder` | `CancelOutcome` / `Restock` |
| `addToCart` | `Merge` |
| `clearCart` | `WithoutUser` |
| the two settlements | `SettleByOrder` / `SettleByReference` |
| the controller | `Dispatch` / `Apply` |

The properties of the workflow are lemmas about those functions:

- create-then-cancel restores stock;
- the total is the sum of price × quantity;
- repeated adds leave one line that holds the summed quantity;
- mock settlement is idempotent;
- a Razorpay redelivery can no longer find its payment.

Modules: `Model` (records, enums, `Result`, fresh ids), `Text` (case mapping of the ASCII letters only, Java `trim`, `contains`), `Inventory`, `Carts`, `Orders`, `Payments`, `Webhooks`.

The inputs that come from outside are parameters:

- UUIDs are `FreshId`, which returns an id not yet in use.
- `Instant.now()` is `now: int`.
- The payment gateway's reply is a `GatewayReply`: a failure with a message, or success with an optional external id.
- The outcome of `verifyWebhookSignature` on the raw body is the boolean `signatureValid`.
- The JSON request body is an `Option<map<string, Json>>`.

Prices and amounts are integers in minor units.

Three behaviours of the code are kept as written:

- **A gateway failure in `createPayment`.** It raises after the PENDING payment was saved, so the transaction leaves no payment behind. It is not left as PENDING.
- **`cancelOrder` on FAILED orders.** It accepts FAILED as well as CREATED orders.
- **Skipped signature check.** The Razorpay signature check happens only after the body parses as a Razorpay webhook. A body that fails to parse (for example, a non-object `payload`) falls through to the mock path without any signature check. See `Webhooks.SignatureBypassWitness`.

## Model

| member | source | states |
|---|---|---|
| Model.PaymentStatusValueOf | src/main/java/com/example/ecommerce/service/PaymentService.java:95 | `PaymentStatus.valueOf` succeeds exactly on the three constant names and yields the constant with that name; every other string fails |
| Text.BlankIffAllSpace | src/main/java/com/example/ecommerce/service/ProductService.java:41 | `query.trim().isEmpty()` holds exactly when every character is at most U+0020 |
| Text.TrimStartEmpty | src/main/java/com/example/ecommerce/service/ProductService.java:41 | leading trim is empty exactly for all-space strings, and otherwise starts at a non-space character |
| Text.ContainsIff | src/main/java/com/example/ecommerce/service/ProductService.java:47-49 | `String.contains` holds exactly when the needle occurs at some index |
| Inventory.Filter | src/main/java/com/example/ecommerce/service/ProductService.java:45-51 | the stream filter keeps exactly the matching products, in their original order (a subsequence) |
| Inventory.ProductService.GetProductById | src/main/java/com/example/ecommerce/service/ProductService.java:54-56 | present exactly when the id is stored, and then it is the stored product |
| Inventory.ProductService.GetAllProducts | src/main/java/com/example/ecommerce/service/ProductService.java:36-38 | every stored product exactly once, in listing order |
| Inventory.ProductService.SearchProducts | src/main/java/com/example/ecommerce/service/ProductService.java:40-52 | a null or blank query lists everything; otherwise exactly the products whose lower-cased name or non-null description contains the lower-cased, trimmed query; always a subsequence of `getAllProducts` |
| Inventory.ProductService.Save | src/main/java/com/example/ecommerce/service/ProductService.java:26 | `save` inserts or replaces under the product's id and keeps the catalogue well formed |
| Inventory.ProductService.CreateProductFromRequest | src/main/java/com/example/ecommerce/service/ProductService.java:19-27 | stores a new product, under an id not used before, whose fields are the request's |
| Inventory.ProductService.CreateProduct | src/main/java/com/example/ecommerce/service/ProductService.java:29-34 | keeps a given id (an upsert that replaces the stored record) and draws a fresh id only when the id is null |
| Inventory.ProductService.UpdateProductStock | src/main/java/com/example/ecommerce/service/ProductService.java:58-63 | an unknown id fails with no change; otherwise only that product's stock becomes stock − quantity, with no lower bound |
| Carts.UserLines | src/main/java/com/example/ecommerce/service/CartService.java:55-57 | `findByUserId` keeps exactly that user's lines and no more lines than are stored |
| Carts.UserLinesInOrder | src/main/java/com/example/ecommerce/service/CartService.java:55-57 | the user's lines come back in stored order: the result is a subsequence of the stored lines |
| Carts.WithoutUser | src/main/java/com/example/ecommerce/service/CartService.java:59-62 | `deleteByUserId` keeps exactly the other users' lines |
| Carts.FindLine | src/main/java/com/example/ecommerce/service/CartService.java:36-37 | `findByUserIdAndProductId` finds a line for that pair, or reports that none exists |
| Carts.UniqueLineCount | src/main/java/com/example/ecommerce/service/CartService.java:36-51 | in a cart with one line per pair, a pair has at most one line, and exactly one when it is present |
| Carts.MergeWellFormed | src/main/java/com/example/ecommerce/service/CartService.java:39-51 | an add keeps the cart well formed: distinct line ids, one line per (user, product), every quantity ≥ 1 |
| Carts.MergeQuantity | src/main/java/com/example/ecommerce/service/CartService.java:39-51 | after an add, the pair's quantity grew by exactly the requested amount and it has exactly one line |
| Carts.MergeLeavesOthers | src/main/java/com/example/ecommerce/service/CartService.java:39-51 | an add changes neither the quantity nor the line count of any other (user, product) pair |
| Carts.RepeatedAdds | src/main/java/com/example/ecommerce/service/CartService.java:36-51 | after any number of adds of one product, one line holds the sum of the requested quantities |
| Carts.ClearCartEffect | src/main/java/com/example/ecommerce/service/CartService.java:59-62 | clearing empties that user's cart, leaves every other user's lines untouched, is idempotent and keeps the cart well formed |
| Carts.ClearKeepsOthers | src/main/java/com/example/ecommerce/service/CartService.java:59-62 | another user's lines are the same before and after the clear |
| Carts.ClearedEmpty | src/main/java/com/example/ecommerce/service/CartService.java:59-62 | the cleared user has no lines left |
| Carts.ClearAgain | src/main/java/com/example/ecommerce/service/CartService.java:59-62 | clearing twice equals clearing once |
| Carts.SubsequenceWellFormed | src/main/java/com/example/ecommerce/service/CartService.java:59-62 | deleting a user's rows keeps the cart well formed |
| Carts.UserLinesDistinctProducts | src/main/java/com/example/ecommerce/service/CartService.java:55-57 | a user's cart lists every product at most once, each with quantity ≥ 1 |
| Carts.CartService.AddToCart | src/main/java/com/example/ecommerce/service/CartService.java:24-53 | a missing product or requested quantity > current stock fails with no change; the stock check compares the increment only, not the merged total; otherwise the existing line grows or one new line with a fresh id is added; stock is never changed |
| Carts.CartService.GetUserCart | src/main/java/com/example/ecommerce/service/CartService.java:55-57 | exactly that user's stored lines, in stored order (a subsequence); in a well-formed cart no product appears twice among them |
| Carts.CartService.ClearCart | src/main/java/com/example/ecommerce/service/CartService.java:59-62 | the stored lines become exactly the other users' lines |
| Carts.CartService.GetCartWithProducts | src/main/java/com/example/ecommerce/service/CartService.java:64-84 | one entry per cart line in order, copying id, productId and quantity; the product summary is present exactly when the product exists and then holds its id, name and price |
| Carts.QuantityOverflowWitness | src/main/java/com/example/ecommerce/service/CartService.java:31-42 | with 32-bit `Integer` arithmetic, two adds of 2 000 000 000 pass the stock check and the merged quantity wraps to a negative number |
| Orders.ItemsOfMembers | src/main/java/com/example/ecommerce/service/OrderService.java:105 | `findByOrderId` keeps exactly the order's items |
| Orders.CheckoutOkIff | src/main/java/com/example/ecommerce/service/OrderService.java:36-46 | the pricing loop succeeds exactly when every line's product exists and has stock ≥ the line quantity |
| Orders.CheckoutPrefixFails | src/main/java/com/example/ecommerce/service/OrderService.java:37-43 | the first failing line decides the error; later lines are never examined |
| Orders.DebitAt | src/main/java/com/example/ecommerce/service/OrderService.java:58-71 | after the item loop, each product's stock has dropped by the cart's total demand for it, other fields unchanged |
| Orders.DebitKeepsPrice | src/main/java/com/example/ecommerce/service/OrderService.java:59-66 | debiting stock never changes a price, so the price re-read in the second loop is the checked one |
| Orders.DemandOfDistinct | src/main/java/com/example/ecommerce/service/OrderService.java:70 | when cart lines have distinct products, a product's demand is its line's quantity |
| Orders.CheckoutTotalIsItemsTotal | src/main/java/com/example/ecommerce/service/OrderService.java:45-66 | the order total equals the sum of price × quantity over the order items written |
| Orders.RestockAt | src/main/java/com/example/ecommerce/service/OrderService.java:105-111 | restocking succeeds exactly when every item's product exists, and then adds back to each product the quantities of its items |
| Orders.RestockPrefixFails | src/main/java/com/example/ecommerce/service/OrderService.java:107-108 | the first missing product decides the error |
| Orders.SnapshotReturnsDemand | src/main/java/com/example/ecommerce/service/OrderService.java:65-109 | the quantities on the order items add up per product to the cart's demand |
| Orders.CancelUndoesCheckout | src/main/java/com/example/ecommerce/service/OrderService.java:70-109 | restocking the items of a fresh order exactly undoes the checkout's debit |
| Orders.ItemsOfAll | src/main/java/com/example/ecommerce/service/OrderService.java:105 | an order's items, looked up among items that all belong to it, are all of them |
| Orders.ItemsOfNone | src/main/java/com/example/ecommerce/service/OrderService.java:105 | an order has no items among items of other orders |
| Orders.SetOrderStatus | src/main/java/com/example/ecommerce/service/OrderService.java:85-90 | fails exactly on an unknown id; otherwise sets that order's status from any status and changes nothing else |
| Orders.SetOrderStatusIdempotent | src/main/java/com/example/ecommerce/service/OrderService.java:85-90 | setting the same status twice equals setting it once |
| Orders.SecondCancelFails | src/main/java/com/example/ecommerce/service/OrderService.java:100-102 | after a successful cancel, cancelling again fails as already cancelled and restores no stock |
| Orders.CancelAcceptsCreatedAndFailed | src/main/java/com/example/ecommerce/service/OrderService.java:96-115 | a CREATED or FAILED order whose products exist is cancelled |
| Orders.CreateThenCancelRestoresStock | src/main/java/com/example/ecommerce/service/OrderService.java:58-115 | cancelling the order a checkout just created returns every product to its pre-order record |
| Orders.CheckoutStock | src/main/java/com/example/ecommerce/service/OrderService.java:41-70 | after a successful checkout, each ordered product's stock dropped by exactly its line quantity and is not negative |
| Orders.NewOrderKeepsTotals | src/main/java/com/example/ecommerce/service/OrderService.java:49-71 | adding the new order and its items keeps every stored order's total equal to the sum over its items |
| Orders.ItemsOfAfterOrder | src/main/java/com/example/ecommerce/service/OrderService.java:63 | the new order's items are exactly those written for it; other orders' items are unchanged |
| Orders.ItemViews | src/main/java/com/example/ecommerce/service/OrderService.java:161-169 | one view per item in order, with productId, quantity and price, and the same total |
| Orders.OrderService.PriceCart | src/main/java/com/example/ecommerce/service/OrderService.java:35-46 | the first loop's result is the checkout total or the first line's error |
| Orders.OrderService.WriteItems | src/main/java/com/example/ecommerce/service/OrderService.java:57-71 | appends one item per cart line carrying the order id, the line's product and quantity and the price read then, and debits stock by each line |
| Orders.OrderService.WriteItem | src/main/java/com/example/ecommerce/service/OrderService.java:59-70 | saves one order item and subtracts the line quantity from its product |
| Orders.OrderService.CreateOrder | src/main/java/com/example/ecommerce/service/OrderService.java:26-77 | an empty cart, a missing product or short stock fails with nothing changed; otherwise one CREATED order with a fresh id, the user, the checkout total and `now`, its items, the debited stock and that user's cart cleared |
| Orders.OrderService.PlaceOrder | src/main/java/com/example/ecommerce/service/OrderService.java:48-76 | the writes of a checked checkout: order, items, debited stock, cleared cart, keeping totals consistent |
| Orders.OrderService.GetOrderById | src/main/java/com/example/ecommerce/service/OrderService.java:79-82 | the stored order, or not found exactly when the id is unknown |
| Orders.OrderService.UpdateOrderStatus | src/main/java/com/example/ecommerce/service/OrderService.java:84-90 | the stored orders become `SetOrderStatus`'s result, or stay unchanged on its error |
| Orders.OrderService.RestockItems | src/main/java/com/example/ecommerce/service/OrderService.java:105-111 | the loop of `createProduct` upserts leaves the products as `Restock` says, or unchanged when a product is missing |
| Orders.OrderService.CancelOrder | src/main/java/com/example/ecommerce/service/OrderService.java:92-116 | PAID, CANCELLED, unknown or a missing product fail with no change; otherwise stock is restored and the order is CANCELLED |
| Orders.OrderService.GetOrdersByUserId | src/main/java/com/example/ecommerce/service/OrderService.java:118-120 | exactly the stored orders of that user |
| Orders.OrderService.GetOrderDetails | src/main/java/com/example/ecommerce/service/OrderService.java:149-173 | not found exactly for an unknown id; otherwise the order's fields and, element by element, one view per item of the order carrying its productId, quantity and price; the total shown is the sum over those views |
| Orders.OrderService.GetOrderHistory | src/main/java/com/example/ecommerce/service/OrderService.java:122-147 | exactly the details of every order of that user |
| Payments.Find | src/main/java/com/example/ecommerce/service/PaymentService.java:92-116 | a single match reported by the `Optional` finder matches the key |
| Payments.FindSpec | src/main/java/com/example/ecommerce/service/PaymentService.java:92-116 | no match exactly when no payment matches; a unique match is the only match; ambiguous exactly when two payments match |
| Payments.SettleSpec | src/main/java/com/example/ecommerce/service/PaymentService.java:96-130 | settling sets the payment's status and external id and nothing else; SUCCESS sets the order PAID, FAILED sets it FAILED, PENDING leaves it; an unknown order fails |
| Payments.SettleByOrderSpec | src/main/java/com/example/ecommerce/service/PaymentService.java:89-106 | the mock settlement succeeds exactly when one payment has that order id, the status parses case-insensitively and a status change finds its order; then it settles that payment |
| Payments.UnparseableStatusFails | src/main/java/com/example/ecommerce/service/PaymentService.java:95 | a status that is no constant name fails before anything is set |
| Payments.SettleByOrderIdempotent | src/main/java/com/example/ecommerce/service/PaymentService.java:89-106 | the same mock webhook applied twice leaves the state of one application |
| Payments.SettleByReferenceSpec | src/main/java/com/example/ecommerce/service/PaymentService.java:112-131 | the Razorpay settlement finds the payment by stored external id, parses the status exactly, settles the order found through the payment's own order id, and stores the payment id if given, else the order id |
| Payments.RazorpayRedeliveryNotFound | src/main/java/com/example/ecommerce/service/PaymentService.java:115-122 | after a settlement that stored a different payment id, redelivering the same Razorpay order id finds no payment |
| Payments.RazorpayWithoutPaymentIdIdempotent | src/main/java/com/example/ecommerce/service/PaymentService.java:112-131 | without a payment id the Razorpay settlement keeps its key and is idempotent |
| Payments.CheckPayable | src/main/java/com/example/ecommerce/service/PaymentService.java:35-43 | succeeds exactly for a stored CREATED order whose total equals the amount; otherwise not found, wrong status (with the current status) or amount mismatch, in that order |
| Payments.SecondPaymentBlocksSettlement | src/main/java/com/example/ecommerce/service/PaymentService.java:92-93 | once any two stored payments share an order id, mock settlement for that order fails as a non-unique result |
| Payments.PaymentService.CreatePayment | src/main/java/com/example/ecommerce/service/PaymentService.java:32-87 | a failed check or gateway failure stores nothing; otherwise one PENDING payment with a fresh id, the order id, amount and `now`, whose external id is the gateway's reference; the response, by provider, carries the internal id and the Razorpay order id, or the external id when there is one |
| Payments.PaymentService.HandlePaymentWebhook | src/main/java/com/example/ecommerce/service/PaymentService.java:89-106 | the payments and orders become `SettleByOrder`'s result, or stay unchanged on its error |
| Payments.PaymentService.HandleRazorpayWebhook | src/main/java/com/example/ecommerce/service/PaymentService.java:112-131 | the payments and orders become `SettleByReference`'s result, or stay unchanged on its error |
| Payments.PaymentService.Commit | src/main/java/com/example/ecommerce/service/PaymentService.java:96-105 | the payment save and the status update, rolled back when the order is missing |
| Payments.PaymentService.GetPaymentByOrderId | src/main/java/com/example/ecommerce/service/PaymentService.java:108-110 | null exactly when no payment has that order id; an error exactly when two or more have it; otherwise the one stored payment that has it |
| Webhooks.ParseMockWebhook | src/main/java/com/example/ecommerce/webhook/PaymentWebhookController.java:71-91 | a null body yields null; otherwise it succeeds exactly when orderId, paymentId and status are absent, null or strings, else a cast error |
| Webhooks.ParseRazorpayWebhook | src/main/java/com/example/ecommerce/webhook/PaymentWebhookController.java:93-131 | a null body yields null; a missing "payload" leaves payload null; a present one must be an object, and payment is present exactly when its "payment" key is |
| Webhooks.MockRoundTrip | src/main/java/com/example/ecommerce/webhook/PaymentWebhookController.java:71-91 | parsing the body that encodes a mock request gives that request back |
| Webhooks.RazorpayPaymentRoundTrip | src/main/java/com/example/ecommerce/webhook/PaymentWebhookController.java:106-125 | parsing an encoded payment map gives that payment back |
| Webhooks.RazorpayRoundTrip | src/main/java/com/example/ecommerce/webhook/PaymentWebhookController.java:93-131 | parsing an encoded Razorpay webhook gives that request back |
| Webhooks.OtherProviderTakesMockPath | src/main/java/com/example/ecommerce/webhook/PaymentWebhookController.java:35-46 | a provider other than "razorpay" (ignoring case) always takes the mock path and is never refused for its signature |
| Webhooks.BadSignatureRefused | src/main/java/com/example/ecommerce/webhook/PaymentWebhookController.java:137-145 | a parsed Razorpay webhook with a signature that fails verification is answered Unauthorized with no settlement |
| Webhooks.MissingSignatureSkipsVerification | src/main/java/com/example/ecommerce/webhook/PaymentWebhookController.java:140 | without the signature header the verification outcome does not matter |
| Webhooks.RazorpaySettlementExactly | src/main/java/com/example/ecommerce/webhook/PaymentWebhookController.java:148-173 | Razorpay settlement happens exactly for a parsed "payment.captured" event with payload and payment and an absent or valid signature; it is keyed by order_id, passes the payment id, and maps "captured" to SUCCESS and anything else to FAILED |
| Webhooks.ParseFailureSkipsSignature | src/main/java/com/example/ecommerce/webhook/PaymentWebhookController.java:37-43 | a body that fails to parse as a Razorpay webhook takes the mock path whatever the signature |
| Webhooks.SignatureBypassWitness | src/main/java/com/example/ecommerce/webhook/PaymentWebhookController.java:35-61 | a concrete body with a forged signature and a non-object payload is settled through the mock path |
| Webhooks.NullBodyRejected | src/main/java/com/example/ecommerce/webhook/PaymentWebhookController.java:46-68 | a null body never reaches a settlement; on the mock path it is a bad request "Invalid webhook request" |
| Webhooks.MockWebhookReplay | src/main/java/com/example/ecommerce/webhook/PaymentWebhookController.java:46-59 | replaying the same mock webhook leaves the same state and the same response |
| Webhooks.WebhookController.HandlePaymentWebhook | src/main/java/com/example/ecommerce/webhook/PaymentWebhookController.java:29-69 | the response and the new payments and orders are the decision applied to the old ones; errors become bad requests carrying the error |

## Left out

- Floating point: prices, totals and amounts are `Double` in the code (the sum at OrderService.java:45, `Double.equals` at PaymentService.java:41, the paise conversion in RazorpayService). They are integers here.
- UUID generation and `Instant.now()`: they are a fresh-id method and a `now` parameter.
- The network: `PaymentServiceClient`, `RazorpayService.createRazorpayOrder` and `verifyWebhookSignature` are replaced by the `GatewayReply` and `signatureValid` parameters. The `keyId` (the configured Razorpay key) and `currency` (always "INR") entries that `createRazorpayOrder` returns and `createPayment` copies into its response are not in `PaymentResponse`.
- `getRequestBody` (PaymentWebhookController.java:183-195) is servlet reader I/O. Its result only reaches the signature check, whose outcome is a parameter.
- A non-string "paymentId" in the mock gateway reply (a `ClassCastException` at PaymentService.java:76): the reply carries an optional string.
- HTTP routing and `ResponseEntity` shaping. The outcome is an abstract response: acknowledged with a message, unauthorized, or bad request with the error.
- Exception message texts are error constructors, not strings.
- The mock payment service module (asynchronous processing and its callback).
- Concurrency and transaction isolation. Each `@Transactional` method is one atomic step.
- MongoDB specifics: repositories are maps and sequences. An `Optional` finder that matches several documents is an error.
- The `amount` of the webhook request records is kept only when the JSON value is a number, as in the code. A JSON number is an integer here, so `doubleValue()` and `intValue()` are not distinguished.
- Orders.OrderService.GetOrdersByUserId: returns a set, so the list order of `findByUserId` is not modelled.
- Orders.OrderService.GetOrderHistory: returns a set of views, so the list order is not modelled.
- Carts.CartService.AddToCart: quantities are unbounded integers, so the 32-bit wrap-around at CartService.java:42 is not what the method does. It is exhibited separately under Findings.
- Inventory.ProductService.UpdateProductStock: stock is an unbounded integer, so the 32-bit `Integer` wrap of `stock - quantity` (ProductService.java:62) is not modelled; it can only arise after a wrapped cart quantity.
- Orders.OrderService.RestockItems: likewise the 32-bit wrap of `stock + quantity` (OrderService.java:109) is not modelled.
- Inventory.ProductService.SearchProducts: `toLowerCase` is modelled on the ASCII letters only. Java's Unicode- and locale-aware lower-casing finds matches the model misses, such as "Émile" against the query "émile".
- Payments.SettleByOrderSpec: "case-insensitive" covers ASCII letters only. Java's `toUpperCase` also maps non-ASCII letters, so "ſuccess" parses as SUCCESS in the code but fails here. Under a Turkish default locale `"failed".toUpperCase()` gives "FAİLED", which the code rejects and the model settles.
- Payments.UnparseableStatusFails: for the same reason, strings whose non-ASCII upper-casing is a constant name (such as "ſuccess") are among those it proves to fail, though Java accepts them.
- Bean validation: only `@Positive` on the cart quantity is kept, as a precondition of `AddToCart`.

## Findings

| source | as written | input that shows it | evidently intended | confidence | as-written member | corrected member |
|---|---|---|---|---|---|---|
| src/main/java/com/example/ecommerce/service/CartService.java:42 | the stock check compares only the requested increment, and the merged quantity is an `Integer` sum that can wrap | stock 2 000 000 000; add 2 000 000 000 twice: both checks pass, and the line's quantity wraps to −294 967 296 | a cart line keeps a positive quantity that is the sum of the adds | not executed | Carts.QuantityOverflowWitness | Carts.MergeWellFormed |
