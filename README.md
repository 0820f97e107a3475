# Order registry and lifecycle of a native-payment demo service, in Dafny

This project models the core of a small order-management web service that
takes payments through a payment provider's QR-code ("native") flow:

- **the in-memory order registry** (`service/order_store.go`): a table of
  orders keyed by merchant order number (`out_trade_no`), with insert or
  overwrite, point lookup, a listing sorted newest first by an in-place
  exchange sort, three field-level updates that stamp pay and refund times,
  and delete;
- **the order lifecycle enforced by the API handlers** (`handler/payment.go`):
  create or re-pay an order, query it (refreshing an unpaid order from the
  provider), list, close and refund, each guarded by the order's status and
  gated on the provider's answer;
- **the webhook** (`handler/notify.go`): payment and refund outcome
  notifications dispatched on their event type and applied to the registry.

Files and modules:

| file | module | models |
|---|---|---|
| `service_order_store.dfy` | `Service` | `OrderStatus`, `Order`, the class `OrderStore` and its methods, the functions that specify the updates, the sort and the lemmas about listings |
| `http_status.dfy` | `Http` | the HTTP status codes the handlers answer with |
| `handler_payment.dfy` | `Payment` | the class `PaymentHandler`, the refund-fee clamp |
| `handler_notify.dfy` | `Notify` | the class `NotifyHandler`, the refund-status mapping |

How the model is built:

- An `Order` is a value (a datatype). `OrderStore` is a class whose field
  `orders: map<string, Order>` its methods reassign. Its invariant `Valid()`
  says that every order is stored under its own merchant order number, which
  `Save` establishes and no update disturbs.
- The three updates are specified by functions on the table
  (`StatusUpdated`, `PayInfoUpdated`, `RefundInfoUpdated`) whose contracts
  say which key, which fields and which timestamps change; each store method
  ensures that the new table is that function of the old one.
- `GetAll` copies the values in an unspecified order (any remaining key may
  come next, as with map iteration) into a fresh array and sorts it in place
  with the source's nested `i`/`j` exchange loops. It is proved to return a
  permutation of the stored orders, each once, newest first.
  `NewestFirstTimesAgree` shows that this listing is determined up to orders
  with equal creation times, whatever the iteration order was.
- The handlers are classes holding the registry, like the source's structs.
  The provider is outside the model: each handler takes the provider's
  outcome as an input, and returns the call it made to the provider (None
  when a status check rejected the request first). Generated order numbers,
  refund numbers, order ids and clock readings are inputs too. Times are
  integers and `Before` is `<`.

Behaviour kept as the code has it:

- The refund fee keeps a negative requested fee unchanged: only 0 and fees
  above the order amount are replaced by the amount (`RefundFee`).
- A re-pay request (one naming an existing `out_trade_no`) must still carry
  a non-empty product name and an amount of at least 1, because the body is
  validated before the branch; it then uses the stored description and
  amount.
- Notifications are applied whatever the order's current status: a payment
  notification makes a CLOSED order SUCCESS, and a refund-closed
  notification re-stamps the pay time.
- A generated order number that collides with a stored one overwrites that
  order.

## Model

| member | source | states |
|---|---|---|
| `Service.StatusUpdated` | service/order_store.go:86-106 | only the named entry changes and no key is added; a missing key leaves the table as it was; the status becomes the given one, the pay time is stamped exactly when it is SUCCESS and the refund time exactly when it is REFUNDED; identity, transaction and refund fields are kept |
| `Service.PayInfoUpdated` | service/order_store.go:109-124 | only the named entry changes; a missing key is a no-op; the order becomes SUCCESS with the given transaction id and pay time `now`; refund fields and refund time are kept |
| `Service.RefundInfoUpdated` | service/order_store.go:127-141 | only the named entry changes; a missing key is a no-op; the order becomes REFUNDING with the given refund number and amount; pay time, refund time and transaction id are kept |
| `Service.OrderStore.constructor` | service/order_store.go:42-46 | a new registry is empty |
| `Service.OrderStore.Save` | service/order_store.go:49-53 | the order is stored under its merchant order number, overwriting any entry there; every other entry is unchanged |
| `Service.OrderStore.Get` | service/order_store.go:56-61 | found exactly when the key is in the table, and then returns the stored order, whose number is the key; the table is not changed |
| `Service.OrderStore.GetAll` | service/order_store.go:64-83 | returns as many orders as there are keys, a permutation of the stored orders (each once), sorted newest `CreateTime` first; each listed order is the one stored under its own number and no number is listed twice; the table is not changed |
| `Service.SortNewestFirst` | service/order_store.go:73-80 | the exchange sort leaves the array a permutation of what it held and non-increasing by creation time; its loops keep "everything before `i` is at least as new as everything after it" |
| `Service.ListingMatchesLookup` | service/order_store.go:68-71 | every order in such a listing is the one stored under its own number, and no number is listed twice |
| `Service.NewestFirstTimesAgree` | service/order_store.go:73-80 | two newest-first arrangements of the same orders have equal creation times at every position, so the listing depends on the iteration order only among orders created at the same time |
| `Service.OrderStore.UpdateStatus` | service/order_store.go:86-106 | returns whether the key existed; the new table is `StatusUpdated` of the old one; the registry invariant is kept |
| `Service.OrderStore.UpdatePayInfo` | service/order_store.go:109-124 | returns whether the key existed; the new table is `PayInfoUpdated` of the old one |
| `Service.OrderStore.UpdateRefundInfo` | service/order_store.go:127-141 | returns whether the key existed; the new table is `RefundInfoUpdated` of the old one |
| `Service.OrderStore.Delete` | service/order_store.go:144-148 | the key is removed and every other entry kept; deleting an absent key changes nothing |
| `Payment.RefundFee` | handler/payment.go:216-219 | the fee never exceeds the order amount; a request of 0 or above the amount refunds the whole amount; any other request is refunded as asked; a non-negative request on a positive amount gives a positive fee |
| `Payment.PaymentHandler.constructor` | handler/payment.go:20-25 | the handler works on the given registry |
| `Payment.PaymentHandler.CreateOrder` | handler/payment.go:43-105 | a body failing the binding rules gives 400; a re-pay of an unknown number gives 404 and of a non-NOTPAY order 400, with no provider call; a re-pay never changes the registry and prepays the stored description and amount; a new order is stored as NOTPAY with the request's description and amount and time `now` before the prepay call, and stays stored when that call fails (500) |
| `Payment.PaymentHandler.QueryOrder` | handler/payment.go:108-135 | an unknown order gives 404 and changes nothing; otherwise 200 with the order as stored after the call; only a NOTPAY order is queried, and only an answered query with trade state SUCCESS (records the payment) or CLOSED (closes it) changes the registry |
| `Payment.PaymentHandler.ListOrders` | handler/payment.go:138-144 | 200 with every stored order once, newest first, and `total` equal to the length of that list; the registry is not changed |
| `Payment.PaymentHandler.CloseOrder` | handler/payment.go:147-180 | 404 for an unknown order and 400 unless it is NOTPAY, without calling the provider; a failed close call gives 500; the order becomes CLOSED exactly when the answer is 200, otherwise the registry is unchanged |
| `Payment.PaymentHandler.RefundOrder` | handler/payment.go:189-241 | 404 for an unknown order and 400 unless it is SUCCESS, without calling the provider; the refund call carries the clamped fee; a failed call gives 500 and changes nothing; on 200 the order is REFUNDING with the refund number and fee, which does not exceed its amount |
| `Notify.NotifyHandler.constructor` | handler/notify.go:24-40 | the handler works on the given registry (public-key loading and its failure are under Left out) |
| `Notify.RefundNotified` | handler/notify.go:98-103 | refund status SUCCESS makes the order REFUNDED and stamps its refund time; CLOSED makes it SUCCESS and re-stamps its pay time; any other status, or an unknown order, changes nothing; only that entry changes |
| `Notify.NotifyHandler.PaymentNotify` | handler/notify.go:43-64 | an unverifiable notification gives 401 and an unknown event type 200, both changing nothing; TRANSACTION.SUCCESS and the three REFUND events go to their handlers; no notification adds or removes an order, and every changed order ends SUCCESS or REFUNDED |
| `Notify.NotifyHandler.HandlePaymentNotify` | handler/notify.go:67-83 | an undecodable resource gives 400 and changes nothing; otherwise 204 and the payment is recorded through `PayInfoUpdated` (a no-op for an unknown order) |
| `Notify.NotifyHandler.HandleRefundNotify` | handler/notify.go:86-106 | an undecodable resource gives 400 and changes nothing; otherwise 204 and the registry becomes `RefundNotified` of the old one |

## Left out

- The read/write lock of the registry (service/order_store.go:37): the model is sequential and every registry call is atomic.
- Aliasing of `*Order` pointers: the source stores and returns pointers, so a caller holding an order sees later updates. Orders are values here. No handler mutates an order it was handed, so the registry's behaviour is the same; `QueryOrder` reads the order again after refreshing it, as the source does.
- Integer widths: amounts and fees are `int64` in the source but are only compared, never computed with, so the model uses unbounded integers.
- Clock readings, order ids (`uuid`) and the generated `N…`/`R…` order and refund numbers are inputs. Their format and uniqueness are not modelled.
- The payment provider adapter (service/wechatpay.go) is not part of this model: each call's outcome is an input, and the code URL, refund response and error texts are not modelled.
- Signature verification and decryption of notifications (the SDK's notify handler, handler/notify.go:24-40 and 46) are not modelled: a notification that fails them is None, and a resource that cannot be decoded is None.
- JSON decoding and response bodies: a body that is not JSON at all is not modelled, only the binding rules on a decoded create request (`Payment.Bindable`). A refund request whose body fails to decode behaves as a request with fee 0, which the fee input covers. Response bodies other than the status code and `QueryOrder`'s and `ListOrders`'s orders are not modelled, and neither is the refund reason.
- `Payment.PaymentHandler.QueryOrder`: the provider's transaction id is always present here. The source dereferences it without a nil check (handler/payment.go:125).
- The `processPaymentSuccess` goroutine and all logging: they only print.
- main.go (routes, templates, static files, start-up) and config/config.go (environment variables) are not part of this model.
