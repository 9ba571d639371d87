# Order pipeline of the jaeger-app demo, modelled in Dafny

The jaeger-app demo is three Spring WebFlux services that pass one order along:

- **Shopping** (`ShoppingController`) takes an order.
- It asks **Styling** (`StylingController`) to make the shirts.
- Styling posts the batch to **Delivery** (`DeliveryController`).
- Delivery appends the batch to a FIFO dispatch queue. A scheduled task drains the queue.

Each stage may inject a random failure before it does any work.

This project models the request handlers of the three controllers, the dispatch queue and its drain:

- `Delivery.DeliveryController` is a class. Its `dispatchQueue` is a `seq` field, which `GetDeliveryStatus` appends to and `ClearQueue` empties.
- `Styling.StylingController` is a class. Its constructor appends the two seeded styles to `shirtStyles`. `MakeShirts` fills the batch with a counting loop.
- `Shopping` is pure functions: a fault roll, URI building, and the rule that wraps a downstream 4xx/5xx into an error.
- `Http` holds the reply shapes and the wrapping rule of `WebClient.retrieve().onStatus(...)`.
- `Decimal` holds Java's decimal rendering of an `int` and its inverse.
- `Dto` holds the data-transfer objects.
- `Pipeline` chains the three services and proves that each route reads back what the previous service sent.

Parameters stand in for the parts of a handler that are not logic:

- Each random draw is a `nat` bounded by its `nextInt` range. Delivery's dispatch also reports how many draws its short-circuiting checks took.
- Each generated UUID is a string parameter.
- Each downstream call is split in two. The handler returns `Step.Call(request)`, and a completion function maps an abstract `Response(status, body)`.
- The error tag that `logAndTrace` sets on the active span is returned with the reply, in `Handled.errorTag`.

Three behaviours of the code are worth knowing:

- An upstream 4xx/5xx reaches the next caller as 500, not as the downstream status. The `onStatus` handlers raise a `RuntimeException`, and the framework answers an escaping exception with 500. So Shopping sees `HTTP 500` when Delivery rejects a batch (`Http.StatusCode`, `Pipeline.PlaceOrder`).
- `logAndTrace` in Styling and in Shopping ignores its argument and always tags "Failed to dispatch shirts!". Only Delivery tags the message it rejects with.
- The quantity is any Java `int`. A quantity of zero or less builds an empty batch, which Delivery rejects with "No shirts to deliver".

## Model

| member | source | states |
|---|---|---|
| `Decimal.NatRoundTrip` | distributed-tracing/jaeger-app/shopping/src/main/java/com/wfsample/shopping/ShoppingController.java:62 | Reading back the decimal text of a natural number gives the number. |
| `Decimal.IntRoundTrip` | distributed-tracing/jaeger-app/shopping/src/main/java/com/wfsample/shopping/ShoppingController.java:62 | Reading back the text of any `int` concatenated into a URI, sign included, gives the `int`. |
| `Http.Retrieve` | distributed-tracing/jaeger-app/styling/src/main/java/com/wfsample/styling/StylingController.java:83-86 | A response fails exactly when its status is 4xx or 5xx. The failure carries that status and "HTTP <status>: <failure>". Otherwise the body is passed through, or the reply is empty when there is none. |
| `Http.UpstreamMessageParts` | distributed-tracing/jaeger-app/styling/src/main/java/com/wfsample/styling/StylingController.java:84-85 | For a 4xx/5xx status, the status code and the failure text can both be read back from the error message. |
| `Http.Received` | distributed-tracing/jaeger-app/delivery/src/main/java/com/wfsample/delivery/DeliveryController.java:40-61 | The caller receives status 200 with the body for `ok`, the given status for a rejection, and 500 for an escaping exception. Only `ok` carries a body. |
| `Delivery.DeliveryController.constructor` | distributed-tracing/jaeger-app/delivery/src/main/java/com/wfsample/delivery/DeliveryController.java:26-30 | The dispatch queue starts empty, and the queue invariant holds. |
| `Delivery.DeliveryController.GetDeliveryStatus` | distributed-tracing/jaeger-app/delivery/src/main/java/com/wfsample/delivery/DeliveryController.java:34-63 | A first draw of 0 gives 503 "Failed to dispatch shirts!" after 1 draw. If it passed, a second draw of 0 or an empty order number gives 400 "Invalid Order Num" after 2 draws. If both passed, a third draw of 0 or a null/empty batch gives 400 "No shirts to deliver" after 3 draws. Each rejection tags its own message. The reply is 200 with (orderNum, trackingNum, "shirts delivery dispatched") exactly when every check passed. Only then the queue becomes old queue + [batch]; otherwise it is unchanged. Every queued batch keeps at least one shirt. |
| `Delivery.DeliveryController.RetrieveOrder` | distributed-tracing/jaeger-app/delivery/src/main/java/com/wfsample/delivery/DeliveryController.java:67-76 | An empty order number gives 400 "Invalid Order Num", tagged. Any other gives 200 "Order: " + orderNum + " returned". It reads no state. |
| `Delivery.DeliveryController.DeliverPackedShirts` | distributed-tracing/jaeger-app/delivery/src/main/java/com/wfsample/delivery/DeliveryController.java:86-91 | Every shirt of the batch is handed over, in order, and the reported count is the batch's size. |
| `Delivery.DeliveryController.ClearQueue` | distributed-tracing/jaeger-app/delivery/src/main/java/com/wfsample/delivery/DeliveryController.java:79-84 | The drain ends with an empty queue. It reports one count per queued batch, in enqueue order, each equal to that batch's size. It hands over the shirts of the batches in that order, and nothing on an empty queue. |
| `Delivery.ShirtCounts` | distributed-tracing/jaeger-app/delivery/src/main/java/com/wfsample/delivery/DeliveryController.java:81-90 | The drain's reports: one entry per batch, and entry i is the size of batch i. |
| `Delivery.DeliveredMatchesCounts` | distributed-tracing/jaeger-app/delivery/src/main/java/com/wfsample/delivery/DeliveryController.java:81-90 | The number of shirts handed over equals the sum of the reported counts. |
| `Delivery.DeliveredSlice` | distributed-tracing/jaeger-app/delivery/src/main/java/com/wfsample/delivery/DeliveryController.java:81-90 | Batch k's shirts are exactly one contiguous slice of the hand-overs, right after those of batches 0..k-1. So each batch is delivered once, in FIFO order. |
| `Delivery.DispatchRoute` | distributed-tracing/jaeger-app/delivery/src/main/java/com/wfsample/delivery/DeliveryController.java:33 | An order number read from a URI by the dispatch route is the URI's last segment after the dispatch address: non-empty and without '/'. So the `orderNum.isEmpty()` test never fires for a routed request. |
| `Styling.StylingController.constructor` | distributed-tracing/jaeger-app/styling/src/main/java/com/wfsample/styling/StylingController.java:45-53 | The catalog is ("style1", "style1Image") followed by ("style2", "style2Image"). |
| `Styling.StylingController.GetAllStyles` | distributed-tracing/jaeger-app/styling/src/main/java/com/wfsample/styling/StylingController.java:55-58 | Always 200 with exactly two styles, "style1" then "style2". Each entry is the style that manufacturing synthesises from its name. |
| `Styling.StylingController.MakeShirts` | distributed-tracing/jaeger-app/styling/src/main/java/com/wfsample/styling/StylingController.java:62-93 | A draw of 0 gives 503 "Failed to make shirts!", tagged "Failed to dispatch shirts!", with no batch and no downstream call. Otherwise it posts to the dispatch URI of the order number a batch of exactly max(quantity, 0) shirts. Each shirt has name id and image id + "Image", whether or not id is in the catalog. |
| `Styling.CopyShirts` | distributed-tracing/jaeger-app/styling/src/main/java/com/wfsample/styling/StylingController.java:76-78 | The copy into the packed-shirts object equals the built list: same length, order, names and images. |
| `Styling.DispatchUri` | distributed-tracing/jaeger-app/styling/src/main/java/com/wfsample/styling/StylingController.java:81 | The URI is "http://localhost:8080/delivery/dispatch/" followed by the order number. |
| `Styling.MakeShirtsReply` | distributed-tracing/jaeger-app/styling/src/main/java/com/wfsample/styling/StylingController.java:80-86 | Delivery's 4xx/5xx becomes "HTTP <status>: Failed to make shirts!" with that status, and nothing is tagged. A delivery status is passed on as 200. |
| `Styling.MakeRoute` | distributed-tracing/jaeger-app/styling/src/main/java/com/wfsample/styling/StylingController.java:60-62 | A style id read from a URI by the make route is a non-empty path segment without '/'. The URI is the styling base, that id, "/make?quantity=" and a text that parses to the quantity read. |
| `Styling.LogAndTrace` | distributed-tracing/jaeger-app/styling/src/main/java/com/wfsample/styling/StylingController.java:89-93 | The tag set on the active span is "Failed to dispatch shirts!", whatever message is passed. |
| `Shopping.LogAndTrace` | distributed-tracing/jaeger-app/shopping/src/main/java/com/wfsample/shopping/ShoppingController.java:73-77 | The tag set on the active span is "Failed to dispatch shirts!", whatever message is passed. |
| `Shopping.MakeUriParts` | distributed-tracing/jaeger-app/shopping/src/main/java/com/wfsample/shopping/ShoppingController.java:62 | The URI is "http://localhost:8082/style/", then the style name, then "/make?quantity=", then text that parses back to the quantity. |
| `Shopping.OrderShirts` | distributed-tracing/jaeger-app/shopping/src/main/java/com/wfsample/shopping/ShoppingController.java:53-62 | A draw of 0 gives 503 "Failed to order shirts!", tagged "Failed to dispatch shirts!", with no downstream call. Otherwise it requests the make URI of the order. |
| `Shopping.OrderShirtsReply` | distributed-tracing/jaeger-app/shopping/src/main/java/com/wfsample/shopping/ShoppingController.java:64-69 | Styling's 4xx/5xx becomes "HTTP <status>: Failed to order shirts!" with that status. A delivery status is returned unchanged as 200. |
| `Shopping.GetShoppingMenu` | distributed-tracing/jaeger-app/shopping/src/main/java/com/wfsample/shopping/ShoppingController.java:40-48 | No fault roll. A 4xx/5xx becomes "HTTP <status>: Failed to fetch shopping menu!". Otherwise the styles pass through. |
| `Pipeline.MakeRouteRoundTrip` | distributed-tracing/jaeger-app/shopping/src/main/java/com/wfsample/shopping/ShoppingController.java:62 | Styling's make route reads back the style and quantity that Shopping put in the URI, for any path-safe style name. |
| `Pipeline.DispatchRouteRoundTrip` | distributed-tracing/jaeger-app/styling/src/main/java/com/wfsample/styling/StylingController.java:81 | Delivery's dispatch route reads back the order number that Styling put in the URI. |
| `Pipeline.MakeAndDispatch` | distributed-tracing/jaeger-app/styling/src/main/java/com/wfsample/styling/StylingController.java:62-86 | Styling and Delivery chained: the make succeeds exactly when the styling draw and the three delivery draws pass and quantity > 0. Then the batch of quantity shirts of the style is the one appended to the queue. A failed styling draw gives 503 with no dispatch. Any delivery rejection becomes an upstream failure, and quantity <= 0 is rejected with "No shirts to deliver". |
| `Pipeline.PlaceOrder` | distributed-tracing/jaeger-app/shopping/src/main/java/com/wfsample/shopping/ShoppingController.java:53-70 | Through all three services, the order succeeds exactly when no draw is 0 and quantity > 0. On success the caller gets Delivery's status, and a batch of quantity shirts of the style is appended to the queue. A failed Shopping roll gives 503. A failed Styling roll gives "HTTP 503: Failed to order shirts!". Any Delivery rejection gives "HTTP 500: Failed to order shirts!", and a quantity <= 0 is rejected by Delivery with "No shirts to deliver". A failed order leaves the queue unchanged. |
| `Pipeline.EndToEnd` | distributed-tracing/jaeger-app/delivery/src/main/java/com/wfsample/delivery/DeliveryController.java:56-90 | The scenario: an order for 3 "style1" shirts with every draw passing returns "shirts delivery dispatched" and leaves 1 batch queued. One drain then reports [3], delivers three ("style1", "style1Image") shirts and leaves 0 batches. |

## Left out

- HTTP serving, routing, `WebClient` construction and the `Mono`/`Flux` plumbing are left out. Each downstream call is an outgoing request value plus an abstract response.
- Delivery.DispatchRoute and Styling.MakeRoute model only the shape of the two routes: a segment after a fixed address. They do not treat '?', '#' or ';' inside that segment as the start of a query, a fragment or matrix parameters, as Spring does. The round-trip lemmas apply them only to names that satisfy `Pipeline.PathSegment`, which excludes those characters.
- Delivery.DeliveryController.GetDeliveryStatus: keeps the `shirts == null` test at DeliveryController.java:49 as written (`body.None?`). In the running program that branch cannot fire: the test sits inside `map` on the request body, which never receives null, and a request without a body is refused by the framework before any draw.
- `ThreadLocalRandom` is left out. Draws are bounded parameters.
- UUID generation is left out. Order and tracking numbers are parameters. The tracking number is not stored with the queued batch, as in the source, so nothing links it to a delivery.
- OpenTracing spans and SLF4J logging are left out. What remains is the error tag set by `logAndTrace`, and the drain's per-shirt and per-batch log lines, returned as `handedOver` and `reports`.
- The `@Scheduled` 30-second period and the "Processing N in the Dispatch Queue" log line are left out.
- Concurrency is left out. The queue is a `ConcurrentLinkedDeque` shared by many producers and one draining task. The model runs each operation alone, so a batch appended while a drain is running is not modelled.
- The dispatch queue is `static` in the source, one per process. The model gives each controller object its own queue.
- JSON decoding of bodies is left out. A non-error response either carries a decoded body or none. Malformed bodies are not modelled.
- Delivery.DeliveryController.DeliverPackedShirts: requires a non-null shirt list. The source would throw a `NullPointerException` there, but the queue invariant guarantees the list is non-null and non-empty.
- Styling.StylingController.GetAllStyles: requires the catalog invariant `Valid()`. In the source this holds because nothing but the constructor writes the list.
- Styling.MakeRoute: does not accept a leading '+' or percent-encoded characters, which Spring's parameter conversion and URI decoding would. The round trip needs neither.
- Pipeline.PlaceOrder: requires the style name and the generated order number to be non-empty path segments. Each character must be one RFC 2396 allows unescaped in a segment: an alphanumeric, one of `-_.!~*'()`, or one of `:@&=+$,`. The chain is not proved for other names. These are names with `/`, `?`, `#` or `;`, which change the path the route sees, and names with `%` or a character `java.net.URI` rejects.
- Shopping.OrderShirts: for a style name `java.net.URI` rejects, such as one with a space, `URI.create` throws inside the handler and the order fails with 500. The model issues the request anyway; it does not model URI syntax checking.
