/** The choreographed saga across the three event handlers: the producer's
    `OrderCreated`, the inventory consumer's compensating `InventoryOutOfStock`
    and the refund consumer that reacts to it. Delivery on the bus is the
    envelope of `Events.Deliver`; routing by rule is infrastructure. */
module Saga {
  import opened Wrappers
  import opened Json
  import opened Events
  import Python
  import OrderProducer
  import InventoryConsumer
  import RefundOrder

  /** The inventory consumer reads its line items from the delivered
      entry's detail. */
  lemma DeliveredLineItems(e: Entry)
    ensures InventoryConsumer.LineItems(Deliver(e)) ==
      match Python.GetPath(e.detail, ["order", "items"])
      case None => None
      case Some(v) => Python.Iterate(v)
  {
    var ev := Deliver(e);
    Python.GetPathThree(ev, "detail", "order", "items");
  }

  /** Items that are all readable and within stock leave no shortfall. */
  lemma InStockHasNoShortfall(items: seq<Value>)
    requires forall i :: 0 <= i < |items| ==>
      InventoryConsumer.Readable(items[i]) && !InventoryConsumer.OverRequested(items[i])
    ensures InventoryConsumer.Shortfalls(items) == Some([])
  {
    InventoryConsumer.ShortfallsDefined(items);
    InventoryConsumer.ShortfallsAreOverRequested(items);
    NoneOverRequested(items);
  }

  /** The order the producer publishes never runs short: its only line item
      asks for 2 units against a stock of 5, so the inventory consumer emits
      nothing and answers "inventory_ok". */
  lemma ProducedOrderIsInStock(bus: seq<Entry>, producerEnv: OrderProducer.Env,
                               consumerBus: seq<Entry>, consumerEnv: InventoryConsumer.Env)
    requires producerEnv.busAccepts
    ensures var e := OrderProducer.Produce(bus, producerEnv).0[|bus|];
      InventoryConsumer.Handle(consumerBus, Deliver(e), consumerEnv) == (consumerBus, InventoryConsumer.InventoryOk)
  {
    var e := OrderProducer.Produce(bus, producerEnv).0[|bus|];
    OrderProducer.PublishedEntryShape(bus, producerEnv);
    DeliveredLineItems(e);
    OrderProducer.ProducedItemsRequestTwo(producerEnv);
    var items := Python.GetPath(e.detail, ["order", "items"]).value.elems;
    assert forall i :: 0 <= i < |items| ==>
      InventoryConsumer.Readable(items[i]) && !InventoryConsumer.OverRequested(items[i]);
    InStockHasNoShortfall(items);
    InventoryConsumer.PublishesIffShortfall(consumerBus, Deliver(e), consumerEnv);
  }

  /** Every compensating event the inventory consumer emits is one the refund
      consumer can read: it initiates a refund for the incoming order id and
      user id, with reason "INSUFFICIENT_STOCK", and emits nothing itself. */
  lemma OutOfStockIsRefunded(bus: seq<Entry>, event: Value, env: InventoryConsumer.Env, refundBus: seq<Entry>)
    requires InventoryConsumer.Handle(bus, event, env).1.OutOfStock?
    ensures var e := InventoryConsumer.Handle(bus, event, env).0[|bus|];
      var (refundBus', o) := RefundOrder.Handle(refundBus, Deliver(e));
      && refundBus' == refundBus
      && o == RefundOrder.RefundInitiated(
           Python.GetPath(event, ["detail", "order", "orderId"]).value,
           Python.GetPath(event, ["detail", "customer", "userId"]).value,
           Str("INSUFFICIENT_STOCK"))
  {
    var e := InventoryConsumer.Handle(bus, event, env).0[|bus|];
    InventoryConsumer.PublishedEventCopiesIds(bus, event, env);
    var orderId := Python.GetPath(event, ["detail", "order", "orderId"]).value;
    var userId := Python.GetPath(event, ["detail", "customer", "userId"]).value;
    var correlationId := Python.GetPath(event, ["detail", "metadata", "correlationId"]).value;
    var shortfalls := InventoryConsumer.Shortfalls(InventoryConsumer.LineItems(event).value).value;
    var d := e.detail;
    InventoryConsumer.FailureEventOrderId(orderId, shortfalls, userId, correlationId, env);
    InventoryConsumer.FailureEventUserId(orderId, shortfalls, userId, correlationId, env);
    InventoryConsumer.FailureEventReason(orderId, shortfalls, userId, correlationId, env);
    var ev := Deliver(e);
    Python.GetPathThree(ev, "detail", "order", "orderId");
    Python.GetPathThree(ev, "detail", "customer", "userId");
    Python.GetPathTwo(ev, "detail", "reason");
    RefundOrder.HandleReadsThreePaths(refundBus, ev);
  }

  /** The correlation id of the compensating event is the one of the order
      event that caused it. */
  lemma CorrelationIdCarriesOver(bus: seq<Entry>, event: Value, env: InventoryConsumer.Env)
    requires InventoryConsumer.Handle(bus, event, env).1.OutOfStock?
    ensures var e := InventoryConsumer.Handle(bus, event, env).0[|bus|];
      Python.GetPath(e.detail, ["metadata", "correlationId"]) ==
      Python.GetPath(event, ["detail", "metadata", "correlationId"])
  {
    InventoryConsumer.PublishedEventCopiesIds(bus, event, env);
    InventoryConsumer.FailureEventCorrelationId(
      Python.GetPath(event, ["detail", "order", "orderId"]).value,
      InventoryConsumer.Shortfalls(InventoryConsumer.LineItems(event).value).value,
      Python.GetPath(event, ["detail", "customer", "userId"]).value,
      Python.GetPath(event, ["detail", "metadata", "correlationId"]).value,
      env);
  }

  /** An order event whose items are all within stock makes the inventory
      consumer publish nothing. */
  lemma InStockPublishesNothing(bus: seq<Entry>, event: Value, env: InventoryConsumer.Env)
    requires InventoryConsumer.LineItems(event).Some?
    requires var items := InventoryConsumer.LineItems(event).value;
      forall i :: 0 <= i < |items| ==>
        InventoryConsumer.Readable(items[i]) && !InventoryConsumer.OverRequested(items[i])
    ensures InventoryConsumer.Handle(bus, event, env) == (bus, InventoryConsumer.InventoryOk)
  {
    InStockHasNoShortfall(InventoryConsumer.LineItems(event).value);
    InventoryConsumer.PublishesIffShortfall(bus, event, env);
  }

  lemma {:induction false} NoneOverRequested(items: seq<Value>)
    requires forall i :: 0 <= i < |items| ==> !InventoryConsumer.OverRequested(items[i])
    ensures InventoryConsumer.OverRequestedItems(items) == []
  {
    if |items| > 0 {
      assert !InventoryConsumer.OverRequested(items[0]);
      NoneOverRequested(items[1..]);
    }
  }

  /** An order event with an over-requested item (and readable ids, and a bus
      that accepts) makes the inventory consumer publish exactly one
      `InventoryOutOfStock` event, listing the entries of exactly the
      over-requested items. */
  lemma ShortfallIsPublished(bus: seq<Entry>, event: Value, env: InventoryConsumer.Env)
    requires InventoryConsumer.LineItems(event).Some?
    requires var items := InventoryConsumer.LineItems(event).value;
      && (forall i :: 0 <= i < |items| ==> InventoryConsumer.Readable(items[i]))
      && exists i :: 0 <= i < |items| && InventoryConsumer.OverRequested(items[i])
    requires Python.GetPath(event, ["detail", "order", "orderId"]).Some?
    requires Python.GetPath(event, ["detail", "customer", "userId"]).Some?
    requires Python.GetPath(event, ["detail", "metadata", "correlationId"]).Some?
    requires env.busAccepts
    ensures var r := InventoryConsumer.Handle(bus, event, env);
      && r.1 == InventoryConsumer.OutOfStock
      && |r.0| == |bus| + 1 && r.0[..|bus|] == bus
      && r.0[|bus|].detailType == "InventoryOutOfStock"
      && Python.GetPath(r.0[|bus|].detail, ["order", "items"]) ==
         Some(Arr(InventoryConsumer.ShortfallEntries(
           InventoryConsumer.OverRequestedItems(InventoryConsumer.LineItems(event).value))))
  {
    var items := InventoryConsumer.LineItems(event).value;
    ShortfallListOf(items);
    InventoryConsumer.HandleOnShortfall(bus, event, env);
    InventoryConsumer.FailureEventItems(
      Python.GetPath(event, ["detail", "order", "orderId"]).value,
      InventoryConsumer.Shortfalls(items).value,
      Python.GetPath(event, ["detail", "customer", "userId"]).value,
      Python.GetPath(event, ["detail", "metadata", "correlationId"]).value,
      env);
  }

  /** Readable items, some over-requested, give the non-empty shortfall list
      of exactly the over-requested items. */
  lemma ShortfallListOf(items: seq<Value>)
    requires forall i :: 0 <= i < |items| ==> InventoryConsumer.Readable(items[i])
    requires exists i :: 0 <= i < |items| && InventoryConsumer.OverRequested(items[i])
    ensures InventoryConsumer.Shortfalls(items).Some?
    ensures InventoryConsumer.Shortfalls(items).value ==
      InventoryConsumer.ShortfallEntries(InventoryConsumer.OverRequestedItems(items))
    ensures |InventoryConsumer.Shortfalls(items).value| > 0
  {
    InventoryConsumer.ShortfallsDefined(items);
    InventoryConsumer.ShortfallsAreOverRequested(items);
    var i :| 0 <= i < |items| && InventoryConsumer.OverRequested(items[i]);
    SomeOverRequested(items, i);
  }

  /** ... and the refund consumer, observing that event, initiates one refund
      for the same order. */
  lemma ShortfallIsCompensated(bus: seq<Entry>, event: Value, env: InventoryConsumer.Env, refundBus: seq<Entry>)
    requires InventoryConsumer.LineItems(event).Some?
    requires var items := InventoryConsumer.LineItems(event).value;
      && (forall i :: 0 <= i < |items| ==> InventoryConsumer.Readable(items[i]))
      && exists i :: 0 <= i < |items| && InventoryConsumer.OverRequested(items[i])
    requires Python.GetPath(event, ["detail", "order", "orderId"]).Some?
    requires Python.GetPath(event, ["detail", "customer", "userId"]).Some?
    requires Python.GetPath(event, ["detail", "metadata", "correlationId"]).Some?
    requires env.busAccepts
    ensures var r := InventoryConsumer.Handle(bus, event, env);
      && r.1 == InventoryConsumer.OutOfStock
      && RefundOrder.Handle(refundBus, Deliver(r.0[|bus|])).1.RefundInitiated?
      && RefundOrder.Handle(refundBus, Deliver(r.0[|bus|])).1.orderId ==
         Python.GetPath(event, ["detail", "order", "orderId"]).value
  {
    ShortfallIsPublished(bus, event, env);
    OutOfStockIsRefunded(bus, event, env, refundBus);
  }

  lemma {:induction false} SomeOverRequested(items: seq<Value>, i: nat)
    requires i < |items| && InventoryConsumer.OverRequested(items[i])
    ensures |InventoryConsumer.OverRequestedItems(items)| > 0
  {
    if i > 0 && !InventoryConsumer.OverRequested(items[0]) {
      SomeOverRequested(items[1..], i - 1);
    }
  }
}
