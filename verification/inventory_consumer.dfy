/** The inventory participant of the saga: on `OrderCreated`, collects every
    line item that requests more than the (constant) available stock and, when
    there is any, publishes one compensating `InventoryOutOfStock` event that
    carries the original correlation id. */
module InventoryConsumer {
  import opened Wrappers
  import opened Json
  import opened Events
  import Python

  /** The stock every sku is assumed to have. */
  const Available := 5

  const Source := "com.mycompany.inventory"
  const DetailType := "InventoryOutOfStock"
  const Reason := "INSUFFICIENT_STOCK"

  /** The environment of one invocation: the ISO-8601 UTC clock reading and
      whether `put_events` returns rather than raises. */
  datatype Env = Env(isoNow: string, busAccepts: bool)

  datatype Outcome = OutOfStock | InventoryOk | Crash {
    /** The `status` of the returned record. */
    function Status(): Option<string> {
      match this
      case OutOfStock => Some("out_of_stock")
      case InventoryOk => Some("inventory_ok")
      case Crash => None
    }
  }

  /** The item's `quantity` exceeds the available stock (`5 < quantity`
      evaluates to True). */
  predicate OverRequested(item: Value) {
    && Python.GetItem(item, "quantity").Some?
    && Python.IntLess(Available, Python.GetItem(item, "quantity").value) == Some(true)
  }

  /** The loop body does not raise on this item: its quantity can be compared
      with the stock, and an over-requested item has a sku. */
  predicate Readable(item: Value) {
    && Python.GetItem(item, "quantity").Some?
    && Python.IntLess(Available, Python.GetItem(item, "quantity").value).Some?
    && (OverRequested(item) ==> Python.GetItem(item, "sku").Some?)
  }

  /** The shortfall entry for an over-requested item: its sku, its requested
      quantity and the available stock. */
  function ShortfallEntry(item: Value): Value
  {
    Obj([("sku", Python.GetItem(item, "sku").GetOr(Null)),
         ("requestedQuantity", Python.GetItem(item, "quantity").GetOr(Null)),
         ("availableQuantity", Int(Available))])
  }

  /** The shortfall entries of a list of items, in order. */
  function ShortfallEntries(over: seq<Value>): (r: seq<Value>)
    ensures |r| == |over|
    ensures forall i :: 0 <= i < |over| ==> r[i] == ShortfallEntry(over[i])
  {
    if |over| == 0 then [] else [ShortfallEntry(over[0])] + ShortfallEntries(over[1..])
  }

  /** The over-requested items, in order: the reference the loop is checked
      against. */
  function OverRequestedItems(items: seq<Value>): (r: seq<Value>)
    ensures forall x :: x in r ==> x in items && OverRequested(x)
    ensures forall x :: x in items && OverRequested(x) ==> x in r
    ensures |r| <= |items|
  {
    if |items| == 0 then []
    else if OverRequested(items[0]) then [items[0]] + OverRequestedItems(items[1..])
    else OverRequestedItems(items[1..])
  }

  /** One pass of the loop body: None when it raises, `Some(None)` when the
      item is in stock, and the shortfall entry it appends otherwise. */
  function ItemShortfall(item: Value): (r: Option<Option<Value>>)
    ensures r.Some? <==> Readable(item)
    ensures r.Some? ==> (r.value.Some? <==> OverRequested(item))
    ensures r.Some? && r.value.Some? ==> r.value.value == ShortfallEntry(item)
  {
    match Python.GetItem(item, "quantity")
    case None => None
    case Some(q) =>
      match Python.IntLess(Available, q)
      case None => None
      case Some(false) => Some(None)
      case Some(true) =>
        match Python.GetItem(item, "sku")
        case None => None
        case Some(sku) =>
          Some(Some(Obj([("sku", sku), ("requestedQuantity", q), ("availableQuantity", Int(Available))])))
  }

  /** The loop building `out_of_stock_items`; None when it raises. */
  function Shortfalls(items: seq<Value>): Option<seq<Value>> {
    if |items| == 0 then Some([])
    else
      match ItemShortfall(items[0])
      case None => None
      case Some(entry) =>
        match Shortfalls(items[1..])
        case None => None
        case Some(rest) => Some(if entry.Some? then [entry.value] + rest else rest)
  }

  /** The loop raises exactly when some item is unreadable. */
  lemma {:induction false} ShortfallsDefined(items: seq<Value>)
    ensures Shortfalls(items).Some? <==> forall i :: 0 <= i < |items| ==> Readable(items[i])
  {
    if |items| > 0 {
      ShortfallsDefined(items[1..]);
      assert forall i :: 1 <= i < |items| ==> items[i] == items[1..][i - 1];
    }
  }

  /** Otherwise the loop lists the entries of exactly the over-requested
      items, in order. */
  lemma {:induction false} ShortfallsAreOverRequested(items: seq<Value>)
    requires Shortfalls(items).Some?
    ensures Shortfalls(items).value == ShortfallEntries(OverRequestedItems(items))
  {
    if |items| > 0 {
      var rest := items[1..];
      ShortfallsAreOverRequested(rest);
      if OverRequested(items[0]) {
        var over := OverRequestedItems(items);
        assert over == [items[0]] + OverRequestedItems(rest);
        assert over[1..] == OverRequestedItems(rest);
      }
    }
  }

  /** A readable item is a shortfall iff its quantity exceeds 5. */
  lemma OverRequestedMeansAboveFive(item: Value)
    requires Python.GetItem(item, "quantity").Some?
    requires Python.GetItem(item, "quantity").value.Int?
    ensures OverRequested(item) <==> Python.GetItem(item, "quantity").value.i > 5
  {
  }

  /** The line items of the event's order: `event["detail"]["order"]["items"]`
      iterated; None when that raises. */
  function LineItems(event: Value): Option<seq<Value>> {
    match Python.GetPath(event, ["detail", "order", "items"])
    case None => None
    case Some(items) => Python.Iterate(items)
  }

  /** The compensating event's detail. */
  function FailureEvent(orderId: Value, shortfalls: seq<Value>, userId: Value,
                        correlationId: Value, env: Env): Value
  {
    Obj([
      ("eventVersion", Str("1.0")),
      ("order", Obj([("orderId", orderId), ("items", Arr(shortfalls))])),
      ("customer", Obj([("userId", userId)])),
      ("reason", Str(Reason)),
      ("metadata", Obj([("createdAt", Str(env.isoNow + "Z")), ("correlationId", correlationId)]))])
  }

  /** `lambda_handler`: the bus after the invocation and its outcome. */
  function Handle(bus: seq<Entry>, event: Value, env: Env): (r: (seq<Entry>, Outcome))
    ensures !r.1.OutOfStock? ==> r.0 == bus
    ensures r.1.OutOfStock? ==> |r.0| == |bus| + 1 && r.0[..|bus|] == bus
  {
    match LineItems(event)
    case None => (bus, Crash)
    case Some(items) =>
      match Shortfalls(items)
      case None => (bus, Crash)
      case Some(shortfalls) =>
        if |shortfalls| == 0 then (bus, InventoryOk)
        else
          var orderId := Python.GetPath(event, ["detail", "order", "orderId"]);
          var userId := Python.GetPath(event, ["detail", "customer", "userId"]);
          var correlationId := Python.GetPath(event, ["detail", "metadata", "correlationId"]);
          if orderId.None? || userId.None? || correlationId.None? || !env.busAccepts then (bus, Crash)
          else
            var detail := FailureEvent(orderId.value, shortfalls, userId.value, correlationId.value, env);
            (bus + [Entry(Source, DetailType, detail, BusName)], OutOfStock)
  }

  /** With a non-empty shortfall list, readable ids and a bus that accepts,
      the invocation publishes exactly the failure event and reports
      "out_of_stock". */
  lemma HandleOnShortfall(bus: seq<Entry>, event: Value, env: Env)
    requires LineItems(event).Some? && Shortfalls(LineItems(event).value).Some?
    requires |Shortfalls(LineItems(event).value).value| > 0
    requires Python.GetPath(event, ["detail", "order", "orderId"]).Some?
    requires Python.GetPath(event, ["detail", "customer", "userId"]).Some?
    requires Python.GetPath(event, ["detail", "metadata", "correlationId"]).Some?
    requires env.busAccepts
    ensures Handle(bus, event, env) ==
      (bus + [Entry(Source, DetailType,
                    FailureEvent(Python.GetPath(event, ["detail", "order", "orderId"]).value,
                                 Shortfalls(LineItems(event).value).value,
                                 Python.GetPath(event, ["detail", "customer", "userId"]).value,
                                 Python.GetPath(event, ["detail", "metadata", "correlationId"]).value,
                                 env),
                    BusName)],
       OutOfStock)
  {
  }

  /** One event is published iff the shortfall list is non-empty; the result
      is "out_of_stock" iff it was. */
  lemma PublishesIffShortfall(bus: seq<Entry>, event: Value, env: Env)
    requires LineItems(event).Some? && Shortfalls(LineItems(event).value).Some?
    ensures var (bus', o) := Handle(bus, event, env);
      var shortfalls := Shortfalls(LineItems(event).value).value;
      && (|shortfalls| == 0 ==> o == InventoryOk && bus' == bus && o.Status() == Some("inventory_ok"))
      && (o.OutOfStock? <==> |bus'| == |bus| + 1)
      && (o.OutOfStock? ==> |shortfalls| > 0 && o.Status() == Some("out_of_stock"))
  {
  }

  /** The published entry: source, detail type and bus are fixed, the detail
      carries the shortfall list, the fixed reason and version, and copies the
      order id, user id and correlation id of the incoming event unchanged. */
  lemma PublishedEventCopiesIds(bus: seq<Entry>, event: Value, env: Env)
    requires Handle(bus, event, env).1.OutOfStock?
    ensures var e := Handle(bus, event, env).0[|bus|];
      && e.source == "com.mycompany.inventory"
      && e.detailType == "InventoryOutOfStock"
      && e.busName == "ecommerce-bus-21-1-26"
      && Python.GetPath(event, ["detail", "order", "orderId"]).Some?
      && Python.GetPath(event, ["detail", "customer", "userId"]).Some?
      && Python.GetPath(event, ["detail", "metadata", "correlationId"]).Some?
      && e.detail == FailureEvent(
           Python.GetPath(event, ["detail", "order", "orderId"]).value,
           Shortfalls(LineItems(event).value).value,
           Python.GetPath(event, ["detail", "customer", "userId"]).value,
           Python.GetPath(event, ["detail", "metadata", "correlationId"]).value,
           env)
  {
  }

  /** The failure event copies the order id it was built from. */
  lemma FailureEventOrderId(orderId: Value, shortfalls: seq<Value>, userId: Value,
                            correlationId: Value, env: Env)
    ensures Python.GetPath(FailureEvent(orderId, shortfalls, userId, correlationId, env),
                           ["order", "orderId"]) == Some(orderId)
  {
    var d := FailureEvent(orderId, shortfalls, userId, correlationId, env);
    FindAt(d.fields, 1);
    FindAt(d.fields[1].1.fields, 0);
    Python.GetPathTwo(d, "order", "orderId");
  }

  /** The failure event copies the user id it was built from. */
  lemma FailureEventUserId(orderId: Value, shortfalls: seq<Value>, userId: Value,
                           correlationId: Value, env: Env)
    ensures Python.GetPath(FailureEvent(orderId, shortfalls, userId, correlationId, env),
                           ["customer", "userId"]) == Some(userId)
  {
    var d := FailureEvent(orderId, shortfalls, userId, correlationId, env);
    FindAt(d.fields, 2);
    FindAt(d.fields[2].1.fields, 0);
    Python.GetPathTwo(d, "customer", "userId");
  }

  /** The failure event copies the correlation id it was built from. */
  lemma FailureEventCorrelationId(orderId: Value, shortfalls: seq<Value>, userId: Value,
                                  correlationId: Value, env: Env)
    ensures Python.GetPath(FailureEvent(orderId, shortfalls, userId, correlationId, env),
                           ["metadata", "correlationId"]) == Some(correlationId)
  {
    var d := FailureEvent(orderId, shortfalls, userId, correlationId, env);
    FindAt(d.fields, 4);
    FindAt(d.fields[4].1.fields, 1);
    Python.GetPathTwo(d, "metadata", "correlationId");
  }

  /** The failure event carries the shortfall list it was built from. */
  lemma FailureEventItems(orderId: Value, shortfalls: seq<Value>, userId: Value,
                          correlationId: Value, env: Env)
    ensures Python.GetPath(FailureEvent(orderId, shortfalls, userId, correlationId, env),
                           ["order", "items"]) == Some(Arr(shortfalls))
  {
    var d := FailureEvent(orderId, shortfalls, userId, correlationId, env);
    FindAt(d.fields, 1);
    FindAt(d.fields[1].1.fields, 1);
    Python.GetPathTwo(d, "order", "items");
  }

  /** The failure event gives the fixed reason "INSUFFICIENT_STOCK". */
  lemma FailureEventReason(orderId: Value, shortfalls: seq<Value>, userId: Value,
                           correlationId: Value, env: Env)
    ensures Python.GetPath(FailureEvent(orderId, shortfalls, userId, correlationId, env),
                           ["reason"]) == Some(Str("INSUFFICIENT_STOCK"))
  {
    var d := FailureEvent(orderId, shortfalls, userId, correlationId, env);
    FindAt(d.fields, 3);
    assert ["reason"][1..] == [];
  }

  /** The failure event is at event version 1.0. */
  lemma FailureEventVersion(orderId: Value, shortfalls: seq<Value>, userId: Value,
                            correlationId: Value, env: Env)
    ensures Python.GetPath(FailureEvent(orderId, shortfalls, userId, correlationId, env),
                           ["eventVersion"]) == Some(Str("1.0"))
  {
    var d := FailureEvent(orderId, shortfalls, userId, correlationId, env);
    FindAt(d.fields, 0);
    assert ["eventVersion"][1..] == [];
  }

  /** Seven units of sku "X" against a stock of 5 yield the
      shortfall entry {sku: "X", requestedQuantity: 7, availableQuantity: 5}. */
  lemma SevenOfXScenario()
    ensures Shortfalls([Obj([("sku", Str("X")), ("quantity", Int(7))])]) ==
      Some([Obj([("sku", Str("X")), ("requestedQuantity", Int(7)), ("availableQuantity", Int(5))])])
  {
    var item := Obj([("sku", Str("X")), ("quantity", Int(7))]);
    FindAt(item.fields, 0);
    FindAt(item.fields, 1);
    assert Python.GetItem(item, "quantity") == Some(Int(7));
    assert Python.GetItem(item, "sku") == Some(Str("X"));
    assert ItemShortfall(item) == Some(Some(ShortfallEntry(item)));
    assert [item][1..] == [];
    assert Shortfalls([item][1..]) == Some([]);
    var e := ShortfallEntry(item);
    assert Shortfalls([item]) == Some([e] + []);
    assert [e] + [] == [e];
    assert e == Obj([("sku", Str("X")), ("requestedQuantity", Int(7)), ("availableQuantity", Int(5))]);
  }
}
