# AWS order and product services, modelled in Dafny

This project models the request handlers of a small AWS back end. It has four
independent pieces:

- **Order queue.** The ingest Lambda validates an order request, gives it a
  fresh id and sends it to an SQS queue. It also keeps three debug counters
  per warm instance. The worker Lambda folds over a batch of queue records
  and writes each one to DynamoDB as `PROCESSED`. It re-raises the first
  failure, so the batch is redelivered, and writes made before the failure
  stay in place.
- **EventBridge saga.** The producer publishes an `OrderCreated` event. The
  inventory consumer compares every line item with a constant stock of 5. On
  a shortfall it publishes a compensating `InventoryOutOfStock` event that
  carries the original correlation id. The refund consumer reads the order
  id, the user id and the reason from that event and initiates a refund.
- **Step Functions chain.** `validate-order` refuses a state without an
  order id or a connection id. `check_inventory` creates the sku's row with
  a default stock of 5 if it is missing. It then reserves one unit with a
  conditional update, reports over the browser's WebSocket connection, and
  hands the state on as `RESERVED` or `REFUND`. `refund-payment` marks a
  refunded state.
- **Product API.** A CRUD Lambda validates product bodies against a
  five-field schema and stores them in DynamoDB. A proxy Lambda sits in
  front of it. The proxy answers CORS preflights, exchanges an OAuth code
  for tokens with Cognito, refuses the product listing to non-admins, and
  forwards everything else to the CRUD API.

Dynamic JSON is the datatype `Json.Value`. Its objects are ordered field
lists, so `Find` returns the first binding. The shared modules in
`foundation.dfy` give the language rules the handlers rely on:

- Python's truthiness, `in`, `[]`, `.get` and iteration.
- JavaScript's property reads, `||`, object spread and thrown errors.

Each handler is a pure function of the state it touches and its event:

- the queue and the counters for ingest;
- the orders table for the worker;
- the event bus for the saga;
- the inventory table and the WebSocket posts for `check_inventory`;
- the product table for the CRUD handler;
- the outbound request for the proxy.

Everything the handlers cannot compute becomes a parameter of an `Env`
record: `json.loads`, the clock, uuids, request ids, whether SQS, DynamoDB
or EventBridge accept a call, and the HTTP answers of the CRUD API and
Cognito. An exception the handler does not catch is an explicit `Crash`,
`Raised` or `Threw` outcome.

## Model

| member | source | states |
|---|---|---|
| `Ingest.CheckItemAcceptsGoodItems` | order-queue-17-1-26/ingest_lambda.py:102-110 | An item passes the per-item checks exactly when it is a dict with `sku` and a positive integer `qty`; a failure carries the item's index |
| `Ingest.FirstBadItem` | order-queue-17-1-26/ingest_lambda.py:102-110 | The item loop reports nothing iff every remaining item is good; otherwise it reports the first bad item, whose check fails, and every earlier item is good |
| `Ingest.ValidateOrderAcceptsExactly` | order-queue-17-1-26/ingest_lambda.py:89-112 | `ValidateOrder` (`validate_order`) returns None exactly for dicts with `items` and `email` whose items form a non-empty list of good items |
| `Ingest.ValidateOrderFailsFast` | order-queue-17-1-26/ingest_lambda.py:89-110 | The checks run in source order: missing items first, then missing email, and an item failure implies every earlier check passed |
| `Ingest.TrueQuantityPasses` | order-queue-17-1-26/ingest_lambda.py:109 | A boolean `true` quantity passes the integer check (bool is an int in Python); a float quantity does not |
| `Ingest.RequestBody` | order-queue-17-1-26/ingest_lambda.py:22-25 | The body is the parsed `event["body"]` when that key exists, and the event itself otherwise |
| `Ingest.Handle` | order-queue-17-1-26/ingest_lambda.py:15-85 | Every invocation counts one request; any non-crash outcome had an acceptable body; a crash enqueues nothing; no request is ever answered 400 as written |
| `Ingest.HandleIntended` | order-queue-17-1-26/ingest_lambda.py:29-32 | With the missing error helper supplied, exactly the invalid bodies are answered 400 with the validator's message and nothing is enqueued |
| `Ingest.InvalidOrderCrashes` | order-queue-17-1-26/ingest_lambda.py:29-32 | A parsed body that fails validation raises and only the received counter moves |
| `Ingest.CountersStayOrdered` | order-queue-17-1-26/ingest_lambda.py:11-55 | received >= validated >= enqueued is kept; received grows by one per call and the others by at most one |
| `Ingest.AcceptedOrderIsEnqueued` | order-queue-17-1-26/ingest_lambda.py:36-70 | A 201 means `Enqueue` appended exactly one CREATED message, the `BuildOrder` of the body, with the fresh id, the clock reading and the request's email and items, and reports the updated counters |
| `Ingest.AcceptableIsAccepted` | order-queue-17-1-26/ingest_lambda.py:34-70 | Conversely, every body the validator accepts is answered 201 when the queue accepts, and the queue grows by exactly the `BuildOrder` of that body |
| `Ingest.SendFailureAnswers500` | order-queue-17-1-26/ingest_lambda.py:34-85 | When the queue refuses, the answer is 500, the queue is unchanged and the request counts as validated but not enqueued |
| `Ingest.BookScenario` | order-queue-17-1-26/ingest_lambda.py:15-70 | A request for two units of one book is answered 201 and queued as CREATED |
| `Ingest.IntendedDiffersOnlyOnInvalid` | order-queue-17-1-26/ingest_lambda.py:29-32 | The handler as written and as intended differ exactly on parsed bodies that fail validation |
| `Ingest.EmptyItemsCrashesAsWritten` | order-queue-17-1-26/ingest_lambda.py:99-100 | A body with an empty item list crashes as written and is rejected with 400 as intended |
| `Worker.OrderIdOf` | order-queue-17-1-26/worker_lambda.py:20 | A message's key is its `order_id`, or `unknown-{position}` when it has none |
| `Worker.BuildRecord` | order-queue-17-1-26/worker_lambda.py:19-37 | A record is built iff the body (`MessageBody`) decodes to a dict with `customer_email`, `items` and `created_at`; it is PROCESSED and copies those fields under the message's key |
| `Worker.Attempts` | order-queue-17-1-26/worker_lambda.py:17-41 | One outcome per batch position: a written outcome is a PROCESSED record keyed by that message's `order_id` (or its `unknown-{position}`), from a body that decoded to a dict, at a position whose write succeeded |
| `Worker.Records` | order-queue-17-1-26/worker_lambda.py:12-17 | A list under `Records` is the batch, visited in order |
| `Worker.FoldPrefix` | order-queue-17-1-26/worker_lambda.py:17-49 | `Fold`, the loop, writes the ids of the positions before its stop, in order, and stops exactly at the first position that raises |
| `Worker.FoldFrame` | order-queue-17-1-26/worker_lambda.py:39-49 | Every written id is in the table, and every key the loop did not write keeps its presence and value |
| `Worker.FoldLastWrite` | order-queue-17-1-26/worker_lambda.py:39-41 | A written id holds the record of its last write |
| `Worker.Handle` | order-queue-17-1-26/worker_lambda.py:59-65 | A returned summary is "ok" with no failures and as many successes as listed ids and messages |
| `Worker.HandleRuns` | order-queue-17-1-26/worker_lambda.py:9-65 | The invocation leaves the loop's table, and it either raises or returns the summary of the loop's ids |
| `Worker.FoldCompletes` | order-queue-17-1-26/worker_lambda.py:17-49 | The loop runs to the end iff every position goes through, and then lists every position's key in order |
| `Worker.CompletedSummaryListsBatch` | order-queue-17-1-26/worker_lambda.py:12-65 | The handler returns iff every message goes through, and then the summary lists every message's key in input order |
| `Worker.FailureKeepsEarlierWrites` | order-queue-17-1-26/worker_lambda.py:39-49 | When position p raises, every earlier message went through and stays written, and no other key changes (no rollback) |
| `Worker.ReprocessingDiffersOnlyInTime` | order-queue-17-1-26/worker_lambda.py:30-37 | The same message at the same position builds the same record up to `processed_at` |
| `Worker.PositionKeysUnidentifiedMessages` | order-queue-17-1-26/worker_lambda.py:20 | A message without `order_id` is keyed `unknown-1` at position 1 and `unknown-2` at position 2 |
| `Worker.AttemptsRebuilt` | order-queue-17-1-26/worker_lambda.py:17-37 | Reprocessing a batch with the same parser rebuilds the same records up to `processed_at` |
| `Worker.SameIdsOnRedelivery` | order-queue-17-1-26/worker_lambda.py:15-41 | Two completed passes over a rebuilt batch list the same ids |
| `Worker.LastWriteOf` | order-queue-17-1-26/worker_lambda.py:39-41 | A written key holds the record of the last position that wrote it |
| `Worker.RefoldWrittenKey` | order-queue-17-1-26/worker_lambda.py:30-39 | After a second pass, a key the first pass wrote holds the same record up to `processed_at` |
| `Worker.RefoldSameUpToTime` | order-queue-17-1-26/worker_lambda.py:17-41 | A second completed pass over its own result changes no record except for `processed_at` |
| `Worker.RedeliveryIsIdempotent` | order-queue-17-1-26/worker_lambda.py:9-65 | Delivering a completed batch again leaves the same table up to processing times |
| `Worker.FoldIdsIgnoreTable` | order-queue-17-1-26/worker_lambda.py:17-49 | Which ids the loop writes, and where it stops, do not depend on the table it starts from |
| `Worker.FoldOverwrites` | order-queue-17-1-26/worker_lambda.py:39-41 | Two starting tables that differ only on keys the loop writes end as the same table |
| `Worker.RewritesEarlierKeys` | order-queue-17-1-26/worker_lambda.py:15-41 | A completed pass over a rebuilt batch writes every key an earlier pass, completed or raised, wrote |
| `Worker.RefoldAfterAnyPass` | order-queue-17-1-26/worker_lambda.py:17-49 | A completed pass after any earlier pass over the same batch gives what it gives on the original table |
| `Worker.RedeliveryReplacesEarlierPass` | order-queue-17-1-26/worker_lambda.py:9-65 | Redelivery after a pass that completed or raised: once the batch goes through, table and summary are those of that last pass on the original table |
| `Worker.PositionKeysDiffer` | order-queue-17-1-26/worker_lambda.py:20 | Messages without `order_id` at different positions get different keys |
| `Text.NatToStringValue` | order-queue-17-1-26/worker_lambda.py:20 | The decimal rendering of a position reads back as that position |
| `Text.NatToStringInjective` | order-queue-17-1-26/worker_lambda.py:20 | Different positions render as different decimal strings |
| `OrderProducer.Produce` | Eventbridge-21-1-26/lambda-function-codes/order_producer.py:36-50 | A bus that accepts gets exactly one appended entry and the answer is 200 with its response; otherwise nothing is published |
| `OrderProducer.PublishedEntryShape` | Eventbridge-21-1-26/lambda-function-codes/order_producer.py:36-45 | The entry is an `OrderCreated` event from `com.mycompany.orders` on the saga bus, carrying this invocation's detail (`OrderCreatedDetail`) |
| `OrderProducer.DetailOrderId` | Eventbridge-21-1-26/lambda-function-codes/order_producer.py:12 | The order id is `ord-` followed by the fresh uuid |
| `OrderProducer.OrderIdPrefix` | Eventbridge-21-1-26/lambda-function-codes/order_producer.py:12 | Every produced order id starts with `ord-` |
| `OrderProducer.DetailCorrelationId` | Eventbridge-21-1-26/lambda-function-codes/order_producer.py:30-33 | The correlation id is the invocation's request id |
| `OrderProducer.DetailVersion` | Eventbridge-21-1-26/lambda-function-codes/order_producer.py:10 | The detail is at event version 1.0 |
| `OrderProducer.DetailPaid` | Eventbridge-21-1-26/lambda-function-codes/order_producer.py:26-29 | The order is paid |
| `OrderProducer.DetailCustomer` | Eventbridge-21-1-26/lambda-function-codes/order_producer.py:23-25 | The order belongs to customer `usr-42` |
| `OrderProducer.ProducedItemsRequestTwo` | Eventbridge-21-1-26/lambda-function-codes/order_producer.py:15-21 | Every produced line item asks for quantity 2 |
| `InventoryConsumer.ShortfallEntries` | Eventbridge-21-1-26/lambda-function-codes/inventory_consumer.py:16-20 | One shortfall entry per over-requested item, in order: entry i is the (sku, requested, available 5) entry of item i |
| `InventoryConsumer.OverRequestedItems` | Eventbridge-21-1-26/lambda-function-codes/inventory_consumer.py:13-20 | The reference list: exactly the items of the order that ask for more than the stock (only those, and all of them), in order |
| `InventoryConsumer.ItemShortfall` | Eventbridge-21-1-26/lambda-function-codes/inventory_consumer.py:14-20 | One loop pass raises iff the item is unreadable, and it appends an entry (sku, requested, available 5) iff the item is over-requested |
| `InventoryConsumer.ShortfallsDefined` | Eventbridge-21-1-26/lambda-function-codes/inventory_consumer.py:13-20 | `Shortfalls`, the loop, raises exactly when some item is unreadable |
| `InventoryConsumer.ShortfallsAreOverRequested` | Eventbridge-21-1-26/lambda-function-codes/inventory_consumer.py:13-20 | Otherwise the loop lists the entries of exactly the over-requested items, in order |
| `InventoryConsumer.OverRequestedMeansAboveFive` | Eventbridge-21-1-26/lambda-function-codes/inventory_consumer.py:14-15 | An integer quantity is a shortfall iff it exceeds 5 |
| `InventoryConsumer.Handle` | Eventbridge-21-1-26/lambda-function-codes/inventory_consumer.py:8-54 | Only an out-of-stock outcome publishes, and it appends exactly one entry to the bus |
| `InventoryConsumer.HandleOnShortfall` | Eventbridge-21-1-26/lambda-function-codes/inventory_consumer.py:22-51 | A non-empty shortfall list with readable ids is published as one `InventoryOutOfStock` entry and answered out_of_stock |
| `InventoryConsumer.PublishesIffShortfall` | Eventbridge-21-1-26/lambda-function-codes/inventory_consumer.py:22-54 | Without a shortfall nothing is published and the status is inventory_ok; an entry is published iff the outcome is out_of_stock, which needs a shortfall |
| `InventoryConsumer.PublishedEventCopiesIds` | Eventbridge-21-1-26/lambda-function-codes/inventory_consumer.py:22-48 | The published event comes from `com.mycompany.inventory` on the saga bus and copies the incoming order id, user id and correlation id |
| `InventoryConsumer.FailureEventOrderId` | Eventbridge-21-1-26/lambda-function-codes/inventory_consumer.py:26 | The compensating detail (`FailureEvent`) carries the order id |
| `InventoryConsumer.FailureEventItems` | Eventbridge-21-1-26/lambda-function-codes/inventory_consumer.py:27 | The compensating detail lists the shortfall entries |
| `InventoryConsumer.FailureEventUserId` | Eventbridge-21-1-26/lambda-function-codes/inventory_consumer.py:29-31 | The compensating detail carries the user id |
| `InventoryConsumer.FailureEventReason` | Eventbridge-21-1-26/lambda-function-codes/inventory_consumer.py:32 | The reason is `INSUFFICIENT_STOCK` |
| `InventoryConsumer.FailureEventCorrelationId` | Eventbridge-21-1-26/lambda-function-codes/inventory_consumer.py:33-36 | The compensating detail carries the correlation id |
| `InventoryConsumer.FailureEventVersion` | Eventbridge-21-1-26/lambda-function-codes/inventory_consumer.py:23 | The compensating detail is at event version 1.0 |
| `InventoryConsumer.SevenOfXScenario` | Eventbridge-21-1-26/lambda-function-codes/inventory_consumer.py:13-20 | Seven units of sku X give the single shortfall (X, 7 requested, 5 available) |
| `RefundOrder.Handle` | Eventbridge-21-1-26/lambda-function-codes/refund-order.py:3-21 | The refund consumer publishes nothing, and it either raises or answers refund_initiated |
| `RefundOrder.HandleReadsThreePaths` | Eventbridge-21-1-26/lambda-function-codes/refund-order.py:6-10 | `Refund` initiates a refund iff the order id, the user id and the reason resolve, and it is for exactly those values |
| `Saga.DeliveredLineItems` | Eventbridge-21-1-26/lambda-function-codes/inventory_consumer.py:8-13 | The inventory consumer reads its line items (`LineItems`) from the delivered entry's detail |
| `Saga.InStockHasNoShortfall` | Eventbridge-21-1-26/lambda-function-codes/inventory_consumer.py:13-20 | Readable items all within stock leave an empty shortfall list |
| `Saga.ProducedOrderIsInStock` | Eventbridge-21-1-26/lambda-function-codes/order_producer.py:15-21 | The order the producer publishes makes the inventory consumer publish nothing and answer inventory_ok |
| `Saga.OutOfStockIsRefunded` | Eventbridge-21-1-26/lambda-function-codes/refund-order.py:6-21 | Every compensating event is one the refund consumer accepts: a refund for the original order and user with reason `INSUFFICIENT_STOCK`, publishing nothing |
| `Saga.CorrelationIdCarriesOver` | Eventbridge-21-1-26/lambda-function-codes/inventory_consumer.py:33-36 | The compensating event keeps the correlation id of the order event that caused it |
| `Saga.InStockPublishesNothing` | Eventbridge-21-1-26/lambda-function-codes/inventory_consumer.py:13-54 | An order whose items are all readable and within stock publishes nothing |
| `Saga.ShortfallListOf` | Eventbridge-21-1-26/lambda-function-codes/inventory_consumer.py:13-22 | Readable items with an over-requested one give the non-empty list of entries of exactly the over-requested items |
| `Saga.ShortfallIsPublished` | Eventbridge-21-1-26/lambda-function-codes/inventory_consumer.py:22-51 | An over-requested item makes the consumer publish exactly one `InventoryOutOfStock` event listing exactly the over-requested items |
| `Saga.ShortfallIsCompensated` | Eventbridge-21-1-26/lambda-function-codes/refund-order.py:1-21 | The refund consumer that observes that event initiates a refund for the same order |
| `CheckInventory.Reserve` | Order-Processing-20-1-26/check_inventory-20-1-26.mjs:54-65 | The conditional update succeeds iff a unit is available; it moves one unit from available to reserved and keeps their sum |
| `CheckInventory.Restock` | Order-Processing-20-1-26/check_inventory-20-1-26.mjs:34-65 | A well-formed call adds at most the sku's row and leaves every other row as it was |
| `CheckInventory.Handle` | Order-Processing-20-1-26/check_inventory-20-1-26.mjs:23-85 | It throws a TypeError, changing nothing, exactly when the payload is null; otherwise it returns an object |
| `CheckInventory.TableAfter` | Order-Processing-20-1-26/check_inventory-20-1-26.mjs:29-65 | The table changes only for a well-formed payload, and then only by creating or reserving from the payload's sku |
| `CheckInventory.InvalidInputChangesNothing` | Order-Processing-20-1-26/check_inventory-20-1-26.mjs:29-31 | A payload without a truthy sku, orderId and connectionId comes back as INVALID_INPUT, with no table change and no post |
| `CheckInventory.ReservesIffAvailable` | Order-Processing-20-1-26/check_inventory-20-1-26.mjs:54-84 | The status is RESERVED iff the row before the call (`RowBefore`, the stored row or the default) had a unit available, with the new row's `Snapshot` as snapshot; otherwise REFUND, a null snapshot and an unchanged row |
| `CheckInventory.PostsReport` | Order-Processing-20-1-26/check_inventory-20-1-26.mjs:66-77 | All posts (`Posts`) go to the connection; the last reports status, sku and snapshot; a REFUND is first announced as OUT_OF_STOCK |
| `CheckInventory.NotifiesConnection` | Order-Processing-20-1-26/check_inventory-20-1-26.mjs:54-84 | The posts of a well-formed call report the same status and snapshot that the call returns |
| `CheckInventory.NewSkuStartsAtDefaultStock` | Order-Processing-20-1-26/check_inventory-20-1-26.mjs:37-49 | A new sku starts at 5 available and ends at 4 available, 1 reserved; an existing row is never reset |
| `CheckInventory.OtherSkusUntouched` | Order-Processing-20-1-26/check_inventory-20-1-26.mjs:34-65 | No row disappears, at most one appears, and every row but the payload's sku is unchanged |
| `CheckInventory.RestockConserves` | Order-Processing-20-1-26/check_inventory-20-1-26.mjs:37-65 | Creating and reserving keep counts non-negative and keep available + reserved of every existing row |
| `CheckInventory.ReservationConserves` | Order-Processing-20-1-26/check_inventory-20-1-26.mjs:23-85 | An invocation keeps every count non-negative and every existing row's available + reserved |
| `CheckInventory.SameKeyFieldsSameTable` | Order-Processing-20-1-26/check_inventory-20-1-26.mjs:27-65 | The table depends only on the payload's nullness, its three required fields and its sku |
| `CheckInventory.QuantityIsIgnored` | Order-Processing-20-1-26/check_inventory-20-1-26.mjs:27-65 | One unit is reserved whatever quantity the order asks for |
| `CheckInventory.OnlyStatusAndSnapshotChange` | Order-Processing-20-1-26/check_inventory-20-1-26.mjs:80-84 | The returned state is the payload with only `status` and `inventorySnapshot` overwritten |
| `ValidateOrder.Check` | Order-Processing-20-1-26/validate-order-20-1-26.mjs:9-15 | A state passes iff orderId and connectionId are truthy; a falsy orderId is INVALID_ORDER |
| `ValidateOrder.Handle` | Order-Processing-20-1-26/validate-order-20-1-26.mjs:1-24 | It throws iff the checks fail; otherwise it returns the state with only `status` set to VALID |
| `ValidateOrder.GuardOrder` | Order-Processing-20-1-26/validate-order-20-1-26.mjs:9-15 | orderId is checked before connectionId: each missing field throws its own error |
| `ValidateOrder.Idempotent` | Order-Processing-20-1-26/validate-order-20-1-26.mjs:21-24 | Validating a validated state gives it back unchanged |
| `ValidateOrder.AmountNotChecked` | Order-Processing-20-1-26/validate-order-20-1-26.mjs:4-15 | Changing the amount never changes whether the state passes |
| `RefundPayment.Handle` | Order-Processing-20-1-26/refund-payment-20-1-26.mjs:1-32 | It throws the validation error iff the unwrapped state fails; otherwise it returns that state with only `status` set to REFUNDED |
| `RefundPayment.PayloadIsUnwrapped` | Order-Processing-20-1-26/refund-payment-20-1-26.mjs:3 | A state wrapped in `Payload` is refunded exactly like the bare state |
| `RefundPayment.AmountNotChecked` | Order-Processing-20-1-26/refund-payment-20-1-26.mjs:7-18 | Changing the amount never changes whether the refund passes |
| `Crud.FieldCheck` | CRUD_API/crud_lambda.py:39-45 | One schema field of a dict is reported missing iff it is required and absent, and mistyped iff it is present with a wrong type |
| `Crud.CheckFrom` | CRUD_API/crud_lambda.py:39-47 | Errors are about schema fields from the starting one on, in schema order |
| `Crud.MissingErrors` | CRUD_API/crud_lambda.py:40-43 | A "Missing" error for a field is reported iff all fields are required and that field is absent |
| `Crud.TypeErrors` | CRUD_API/crud_lambda.py:44-45 | A type error for a field is reported iff the field is present with a value of the wrong type |
| `Crud.ErrorKinds` | CRUD_API/crud_lambda.py:44-45 | A type error names the type its field has in the schema |
| `Crud.PassingMeansPresent` | CRUD_API/crud_lambda.py:40-43 | With every field required, passing means every schema field is present |
| `Crud.ValidateProductData` | CRUD_API/crud_lambda.py:29-47 | A dict never raises; passing with every field required implies a `product_id`; errors come in schema order |
| `Crud.ErrorIsFault` | CRUD_API/crud_lambda.py:29-47 | Every reported error names an unsatisfied schema field |
| `Crud.FaultIsReported` | CRUD_API/crud_lambda.py:29-47 | Every unsatisfied schema field produces an error |
| `Crud.ValidatesExactly` | CRUD_API/crud_lambda.py:29-47 | A dict passes iff every present schema field has its type and, when required, every field is present |
| `Crud.Listing` | CRUD_API/crud_lambda.py:78-79 | The scan lists every stored item it visits, and only stored items |
| `Crud.SetClauses` | CRUD_API/crud_lambda.py:110-111 | Clause i is `SET k = :k` for the key k of body field i, in body order |
| `Crud.AttributeValues` | CRUD_API/crud_lambda.py:112 | Entry i binds `:k` to the value of body field i, in body order |
| `Crud.PlaceholderFind` | CRUD_API/crud_lambda.py:110-112 | The placeholder `:k` is bound to the body's value for `k` |
| `Crud.ApplyFrom` | CRUD_API/crud_lambda.py:108-119 | Evaluating the clauses (`ApplyUpdate`) from a position on sets those fields on the item |
| `Crud.UpdateIsPutAll` | CRUD_API/crud_lambda.py:108-119 | The update expression the handler builds, evaluated on an item, sets exactly the body's fields to the body's values |
| `Crud.Create` | CRUD_API/crud_lambda.py:64-73 | Every POST answer carries the standard headers |
| `Crud.ReadAll` | CRUD_API/crud_lambda.py:76-81 | Every listing answer carries the standard headers |
| `Crud.ReadOne` | CRUD_API/crud_lambda.py:84-91 | Every single-item answer carries the standard headers |
| `Crud.Update` | CRUD_API/crud_lambda.py:94-122 | Every PUT answer carries the standard headers |
| `Crud.Delete` | CRUD_API/crud_lambda.py:125-132 | Every DELETE answer carries the standard headers |
| `Crud.Route` | CRUD_API/crud_lambda.py:63-135 | Every dispatched answer carries the standard headers |
| `Crud.Handle` | CRUD_API/crud_lambda.py:16-26 | Every response carries the standard headers, and an uncaught exception leaves the table unchanged |
| `Crud.BadJsonBeforeDispatch` | CRUD_API/crud_lambda.py:52-61 | Reading the request (`ReadRequest`), an undecodable body is answered 400 "Invalid JSON body" before the method is looked at |
| `Crud.PostStoresIffValid` | CRUD_API/crud_lambda.py:64-73 | POST stores the whole body under its `product_id` iff it validates with all fields, the table is available and the key is not empty; a failed validation is a 400 listing the errors, a `ClientError` or an empty key a 500, and any other table failure raises |
| `Crud.Store` | CRUD_API/crud_lambda.py:69-73 | `put_item` of a validated body raises on a failure other than a `ClientError`, answers 500 for a `ClientError` or an empty `product_id`, and otherwise stores the body whole under its key |
| `Crud.Failed` | CRUD_API/crud_lambda.py:72-73 | A failed table call is answered 500 with the message exactly when it is a `ClientError`; any other exception escapes the handler |
| `Crud.EmptyKeyProductValidates` | CRUD_API/crud_lambda.py:29-47 | A product whose `product_id` is the empty string passes validation, since "" is a `str` |
| `Crud.SchemaOrderValidates` | CRUD_API/crud_lambda.py:29-47 | Any object whose first fields are the schema's keys in schema order, each with an accepted type, passes validation with no errors |
| `Crud.EmptyKeyPostRefused` | CRUD_API/crud_lambda.py:64-73 | That product's POST is answered 500 (DynamoDB refuses an empty key) and nothing is stored |
| `Crud.FractionalPricePostCreated` | CRUD_API/crud_lambda.py:57-71 | A product priced 1.5 passes validation and is stored and answered 201, since the price is parsed as a `Decimal` that boto3 writes |
| `Crud.GetAllListsItems` | CRUD_API/crud_lambda.py:76-81 | GET without an id answers 200 with every stored item the scan visits, only stored items, and no change |
| `Crud.GetUnknownIs404` | CRUD_API/crud_lambda.py:84-91 | GET of an id the table does not hold is answered 404 and changes nothing |
| `Crud.PutRaisesOnlyAfterChecks` | CRUD_API/crud_lambda.py:94-122 | Only a PUT that passes every check can raise, and only by meeting a table failure other than a `ClientError` |
| `Crud.Write` | CRUD_API/crud_lambda.py:114-122 | `update_item` raises exactly when the table fails other than with a `ClientError` |
| `Crud.PutCheckOrder` | CRUD_API/crud_lambda.py:94-106 | PUT checks, in order, the path id, an unchanged `product_id`, the field types and a non-empty body; each failure is a 400 with no change |
| `Crud.RoutesPut` | CRUD_API/crud_lambda.py:94 | PUT is dispatched to the update |
| `Crud.UpdateSucceeds` | CRUD_API/crud_lambda.py:108-120 | An update that passes its checks writes the body over the existing item and answers 200 |
| `Crud.PutUpdates` | CRUD_API/crud_lambda.py:94-120 | A PUT that passes its checks applies the body to the existing item (or to the bare key) and answers 200 |
| `Crud.PutSetsBodyKeys` | CRUD_API/crud_lambda.py:108-120 | A successful PUT sets exactly the body's keys on the item and leaves every other attribute and item unchanged |
| `Crud.DeleteIs200` | CRUD_API/crud_lambda.py:125-130 | DELETE with an id answers 200 whether or not the item existed, and the id is gone afterwards |
| `Crud.UnmatchedIs405` | CRUD_API/crud_lambda.py:135 | Any other method is answered 405 and changes nothing |
| `Crud.PostThenGet` | CRUD_API/crud_lambda.py:64-91 | A product created by POST is returned by a GET of its id as the posted body, up to the number types (see Left out) |
| `Crud.OtherFailureAnswersNothing` | CRUD_API/crud_lambda.py:63-135 | When the table fails other than with a `ClientError`, nothing is stored and every answer is a 400 or 405 given before any table call |
| `Crud.CreateAfterOtherFailure` | CRUD_API/crud_lambda.py:63-73 | When the table fails other than with a `ClientError`, a POST either raises or answers 400 before the table call, and never changes the table |
| `Crud.UpdateAfterOtherFailure` | CRUD_API/crud_lambda.py:94-122 | When the table fails other than with a `ClientError`, a PUT either raises or answers 400 before the table call, and never changes the table |
| `Crud.PublishedTableAnswersNothing` | CRUD_API/crud_lambda.py:7-135 | With the published empty table name (refused by botocore before sending) the table never changes and no answer but a 400 or 405 is given |
| `Proxy.Reply` | CRUD_API/proxy_lambda.py:183-189 | Every proxy response carries the CORS headers |
| `Proxy.Exchange` | CRUD_API/proxy_lambda.py:122-178 | The exchange answers with CORS headers, and only ever calls Cognito, at the configured domain's `/oauth2/token`, when that URL has a scheme |
| `Proxy.Caller` | CRUD_API/proxy_lambda.py:48-50 | The role defaults to "user" and the subject to "unknown"; claims that are not a dict raise |
| `Proxy.BuildForward` | CRUD_API/proxy_lambda.py:68-87 | The forwarded URL is the configured CRUD API URL followed by the path as `Display` renders it, and has a scheme (a URL without one raises); the method is the urllib `Method` of the caller's and the key the configured one |
| `Proxy.Method` | CRUD_API/proxy_lambda.py:74-78 | The method sent is never empty, and is the caller's whenever that is non-empty |
| `Proxy.PublishedExchangeSendsNothing` | CRUD_API/proxy_lambda.py:135-145 | With the published empty Cognito domain no token request is sent and no exchange is answered 200 |
| `Proxy.PublishedForwardSendsNothing` | CRUD_API/proxy_lambda.py:68-78 | With the published empty CRUD API URL a path starting with '/' is not sent, and is answered 403 or 500 |
| `Proxy.PublishedConfigSendsNothing` | CRUD_API/proxy_lambda.py:10-78 | With the published empty configuration nothing is sent for any path starting with '/', and only a preflight is answered 200 |
| `Proxy.VersionTwoListingIsForwarded` | CRUD_API/proxy_lambda.py:24-63 | An HTTP API version 2.0 event for `/products` from a non-admin has no `httpMethod`, so it is not refused but forwarded as a GET |
| `Proxy.ForwardCarriesBodyAndAuthorization` | CRUD_API/proxy_lambda.py:69-86 | The forward carries the API key, the body text iff there is a body, and the Authorization header (either case) iff one is truthy |
| `Proxy.Handle` | CRUD_API/proxy_lambda.py:21-117 | Every response carries the CORS headers, and a crash sends nothing |
| `Proxy.Authorized` | CRUD_API/proxy_lambda.py:57-117 | Past authentication every request is answered with CORS headers, and anything sent goes to the CRUD API |
| `Proxy.PreflightFirst` | CRUD_API/proxy_lambda.py:31-37 | A preflight is answered 200 before the path or the role are looked at, and nothing is sent |
| `Proxy.ExchangeBeforeAuthorization` | CRUD_API/proxy_lambda.py:42-43 | The code exchange ignores the caller's claims, always responds, and only talks to Cognito |
| `Proxy.MissingCodeIs400` | CRUD_API/proxy_lambda.py:124-133 | An exchange body without a truthy code is answered 400 and no token request is made |
| `Proxy.ExchangeRequestsTokens` | CRUD_API/proxy_lambda.py:135-162 | With a code and a token URL that has a scheme, one authorization-code token request is made for that code, and a decodable dict answer gives 200 |
| `Proxy.AuthorizedRefusesOnlyListing` | CRUD_API/proxy_lambda.py:57-63 | A request is refused with 403 and not sent iff it is a GET of `/products` by a non-admin |
| `Proxy.HandleAuthorized` | CRUD_API/proxy_lambda.py:24-68 | Past the preflight and the exchange, dict claims (`Claims`, from `requestContext.authorizer.jwt.claims`) give a caller, and the request at `PathOf` with `VerbOf` is handled with the caller's role |
| `Proxy.OnlyListingIsRefused` | CRUD_API/proxy_lambda.py:57-63 | Apart from preflights and the exchange, exactly the product listing by a non-admin is refused with 403 without being sent |
| `Proxy.ForwardsToCrudApi` | CRUD_API/proxy_lambda.py:68-117 | Everything else that can be built goes to the configured CRUD API with its key, the path and urllib's method for the caller's, and a successful answer is passed through unchanged |

## Left out

- Console output (`print`, `console.log`) is left out. So are the worker's
  random `time.sleep` and the JSON serialisation of bodies (`json.dumps`,
  `decimal_fix`, `JSON.stringify`). Bodies stay as `Json.Value`.
- Network calls, DynamoDB, SQS, EventBridge and the WebSocket API are not
  modelled as services. Whether each call succeeds, and what it answers, is
  an `Env` parameter.
- Python's exception texts (`str(e)`) are abstracted. A caught exception in
  the proxy becomes `Failure(prefix)`, and the CRUD handler's `ClientError`
  text is an `Env` string.
- The ingest and worker handlers send no real JSON text. Messages are the
  `Order`/`Processed` records.
- The ingest counters are the state of one warm instance. Concurrent
  instances are not modelled.
- The worker's `except` block prints `order_id`. That variable is unbound
  when the first record's body does not decode, so a different exception is
  raised. The model only records that the invocation raises.
- The inventory table of `check_inventory` is keyed by the sku value. A
  DynamoDB error other than `ConditionalCheckFailedException`, or a sku that
  is not a string, would make the real table throw. These cases are not
  modelled.
- WebSocket posts of `check_inventory` are recorded as attempted. A failing
  post is swallowed by the source, so it has no other effect.
- The CRUD scan is a single page, and its visiting order is an `Env`
  parameter.
- PutUpdates, UpdateSucceeds and PutSetsBodyKeys promise 200 for some
  bodies that DynamoDB always rejects. The handler puts body keys into the update
  expression verbatim. DynamoDB answers `ValidationException` for any
  reserved word among them (`name`, `status`, `type`, `items`, `data`,
  `order`, `count` and many more), for a name with characters such as `-`,
  `.` or a space, and for a `SET` of the key attribute `product_id`. The
  handler answers such a rejection 500. The model applies the update as
  written, because DynamoDB's reserved-word list is not part of it.
- Crud.PostThenGet returns the posted body with its number types as posted.
  DynamoDB returns every number as a `Decimal`, and `decimal_fix` renders
  it as a float, so a posted `"price": 10` comes back as `10.0`. The two are
  equal only as Python values (`10 == 10.0`); the model keeps the number
  types of a stored item as they were posted.
- Crud.Handle models botocore's refusal of an empty table name but not its
  other parameter checks, such as the allowed characters or length of a
  table name; which names it refuses depends on the botocore version.
- Crud.PostStoresIffValid, Crud.Store and Crud.Write treat every number as
  storable, but boto3 refuses two kinds before any call, and the handler
  raises for both, because neither is a `ClientError`. `NaN` and `Infinity`
  are parsed as Python floats, which boto3 refuses with a `TypeError`. A
  number needing more than DynamoDB's 38 significant digits, or beyond its
  exponent range, makes boto3's decimal context raise (`Inexact`,
  `Rounded`, `Overflow` or `Underflow`); this includes integers of 39 or
  more digits. The number tags of `Json.Value` hold no `NaN` or `Infinity`
  and keep no written precision, so the model answers such a POST 201 and
  such a PUT 200.
- Python's numeric equality across types (`1 == 1.0 == True`) is not
  modelled. Value comparisons such as `body["product_id"] != product_id` use
  structural equality of `Json.Value`.
- Floats, lists and dicts in the proxy's URL (`f"{path}"`) are rendered as a
  placeholder by `Display`. Only strings, integers, booleans and None are
  rendered as Python does.
- Upper-casing (`method.upper()`) covers ASCII letters only.
- The proxy's endpoints and credentials are an `Env` field; `Published` is
  the configuration as published, all empty. Base64 is not modelled: the
  Basic credentials are taken as given. Of urllib's URL handling only the
  scheme check of `Request` is modelled; a URL with an unknown scheme or no
  host fails inside `urlopen`, which is the `Env`'s answer.
- OrderProducer.Produce and InventoryConsumer.Handle treat every accepted
  `put_events` call as published. EventBridge can answer with
  `FailedEntryCount > 0` without raising, and neither source file checks
  it, so such an entry is lost while the handler reports success. The model
  has no outcome for a partly failed call.
- Ingest.Handle does not model the response headers (`cors_headers`) or the
  text of the "Order accepted" message; a response is its status code, the
  order id and the debug counters.
- Crud.Create, Crud.ReadAll, Crud.ReadOne, Crud.Update, Crud.Delete,
  Crud.Route and Crud.Handle have contracts that state only the headers.
  Their status codes and table effects are stated by the `Crud` lemmas in
  the table above.
- Proxy.Handle, Proxy.Authorized and Proxy.Exchange state only the headers
  and where requests go in their own contracts. Their outcomes are stated by
  the `Proxy` lemmas.

## Findings

| source | as written | input that shows it | evidently intended | confidence | as-written member | corrected member |
|---|---|---|---|---|---|---|
| order-queue-17-1-26/ingest_lambda.py:30-32 | A validation failure calls `error_response`, which the file never defines, so the handler raises `NameError` | `{"email": "a@test.com", "items": []}` | Answer 400 with the validator's message and enqueue nothing | not executed | `Ingest.EmptyItemsCrashesAsWritten` | `Ingest.HandleIntended` |
