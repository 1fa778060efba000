/** The saga's initiator: builds an `OrderCreated` event with a fresh order id
    and publishes it on the event bus. */
module OrderProducer {
  import opened Wrappers
  import opened Json
  import opened Events
  import Python
  import Text

  const Source := "com.mycompany.orders"
  const DetailType := "OrderCreated"

  /** The environment of one invocation: the fresh uuid, the invocation's
      request id, the ISO-8601 UTC clock reading, whether `put_events` returns
      rather than raises, and the response it returns. */
  datatype Env = Env(uuid: string, requestId: string, isoNow: string, busAccepts: bool, response: Value)

  datatype Outcome = Published(statusCode: int, body: Value) | Crash

  /** The `OrderCreated` detail: a fixed order of one line item, paid by card,
      for customer "usr-42", correlated by the request id. */
  function OrderCreatedDetail(env: Env): Value {
    Obj([
      ("eventVersion", Str("1.0")),
      ("order", Obj([
        ("orderId", Str("ord-" + env.uuid)),
        ("currency", Str("USD")),
        ("totalAmount", Float(599.99)),
        ("items", Arr([Obj([("sku", Str("sku-abc")), ("quantity", Int(2)), ("price", Float(199.99))])]))])),
      ("customer", Obj([("userId", Str("usr-42"))])),
      ("payment", Obj([("method", Str("CARD")), ("status", Str("PAID"))])),
      ("metadata", Obj([("createdAt", Str(env.isoNow + "Z")), ("correlationId", Str(env.requestId))]))])
  }

  /** `lambda_handler`: publishes one entry and answers 200 with whatever
      `put_events` returned; a raising `put_events` publishes nothing. */
  function Produce(bus: seq<Entry>, env: Env): (r: (seq<Entry>, Outcome))
    ensures r.1.Published? <==> env.busAccepts
    ensures r.1.Published? ==> r.1 == Published(200, env.response)
    ensures !env.busAccepts ==> r.0 == bus
    ensures env.busAccepts ==> |r.0| == |bus| + 1 && r.0[..|bus|] == bus
  {
    if env.busAccepts then
      (bus + [Entry(Source, DetailType, OrderCreatedDetail(env), BusName)], Published(200, env.response))
    else (bus, Crash)
  }

  /** The published entry is an `OrderCreated` event from the orders source on
      the saga's bus, carrying the detail built for this invocation. */
  lemma PublishedEntryShape(bus: seq<Entry>, env: Env)
    requires env.busAccepts
    ensures var e := Produce(bus, env).0[|bus|];
      && e.source == "com.mycompany.orders"
      && e.detailType == "OrderCreated"
      && e.busName == "ecommerce-bus-21-1-26"
      && e.detail == OrderCreatedDetail(env)
  {
  }

  /** The order id is "ord-" followed by the invocation's uuid. */
  lemma DetailOrderId(env: Env)
    ensures Python.GetPath(OrderCreatedDetail(env), ["order", "orderId"]) == Some(Str("ord-" + env.uuid))
  {
    var d := OrderCreatedDetail(env);
    FindAt(d.fields, 1);
    FindAt(d.fields[1].1.fields, 0);
    Python.GetPathTwo(d, "order", "orderId");
  }

  /** The correlation id is the invocation's request id. */
  lemma DetailCorrelationId(env: Env)
    ensures Python.GetPath(OrderCreatedDetail(env), ["metadata", "correlationId"]) == Some(Str(env.requestId))
  {
    var d := OrderCreatedDetail(env);
    FindAt(d.fields, 4);
    FindAt(d.fields[4].1.fields, 1);
    Python.GetPathTwo(d, "metadata", "correlationId");
  }

  /** The detail is at event version 1.0. */
  lemma DetailVersion(env: Env)
    ensures Python.GetPath(OrderCreatedDetail(env), ["eventVersion"]) == Some(Str("1.0"))
  {
    var d := OrderCreatedDetail(env);
    FindAt(d.fields, 0);
    assert ["eventVersion"][1..] == [];
  }

  /** The order is marked paid. */
  lemma DetailPaid(env: Env)
    ensures Python.GetPath(OrderCreatedDetail(env), ["payment", "status"]) == Some(Str("PAID"))
  {
    var d := OrderCreatedDetail(env);
    FindAt(d.fields, 3);
    FindAt(d.fields[3].1.fields, 1);
    Python.GetPathTwo(d, "payment", "status");
  }

  /** The order is for customer "usr-42". */
  lemma DetailCustomer(env: Env)
    ensures Python.GetPath(OrderCreatedDetail(env), ["customer", "userId"]) == Some(Str("usr-42"))
  {
    var d := OrderCreatedDetail(env);
    FindAt(d.fields, 2);
    FindAt(d.fields[2].1.fields, 0);
    Python.GetPathTwo(d, "customer", "userId");
  }

  /** The order id starts with "ord-". */
  lemma OrderIdPrefix(env: Env)
    ensures var id := Python.GetPath(OrderCreatedDetail(env), ["order", "orderId"]);
      id.Some? && id.value.Str? && Text.IsPrefix("ord-", id.value.s)
  {
    DetailOrderId(env);
  }

  /** Every line item of the produced order requests quantity 2. */
  lemma ProducedItemsRequestTwo(env: Env)
    ensures var items := Python.GetPath(OrderCreatedDetail(env), ["order", "items"]);
      && items.Some? && items.value.Arr?
      && forall i :: 0 <= i < |items.value.elems| ==>
           Python.GetItem(items.value.elems[i], "quantity") == Some(Int(2))
  {
    var d := OrderCreatedDetail(env);
    FindAt(d.fields, 1);
    FindAt(d.fields[1].1.fields, 3);
    Python.GetPathTwo(d, "order", "items");
    var item := d.fields[1].1.fields[3].1.elems[0];
    FindAt(item.fields, 1);
  }
}
