/** The refund participant of the saga: on `InventoryOutOfStock`, reads the
    order id, the user id and the reason from the event and initiates a refund.
    The refund itself (payment gateway, ledger, a `RefundCompleted` event) is
    not implemented by the handler, so it changes no state and emits nothing. */
module RefundOrder {
  import opened Wrappers
  import opened Json
  import opened Events
  import Python

  /** The handler's result: the refund it initiates (the values it logs), or
      a raised exception. */
  datatype Outcome = RefundInitiated(orderId: Value, userId: Value, reason: Value) | Crash {
    /** The `status` of the returned record. */
    function Status(): Option<string> {
      match this
      case RefundInitiated(_, _, _) => Some("refund_initiated")
      case Crash => None
    }
  }

  /** The three lookups of the handler, in source order, on `event["detail"]`. */
  function Refund(event: Value): Option<Outcome> {
    var detail :- Python.GetItem(event, "detail");
    var orderId :- Python.GetPath(detail, ["order", "orderId"]);
    var userId :- Python.GetPath(detail, ["customer", "userId"]);
    var reason :- Python.GetItem(detail, "reason");
    Some(RefundInitiated(orderId, userId, reason))
  }

  /** `lambda_handler`: the bus after the invocation and its outcome. */
  function Handle(bus: seq<Entry>, event: Value): (r: (seq<Entry>, Outcome))
    ensures r.0 == bus
    ensures r.1.Crash? || r.1.Status() == Some("refund_initiated")
  {
    (bus, Refund(event).GetOr(Crash))
  }

  /** The handler initiates a refund exactly when `detail.order.orderId`,
      `detail.customer.userId` and `detail.reason` all resolve, and the refund
      is for those three values; these are the only parts of the event it
      reads. */
  lemma {:induction false} HandleReadsThreePaths(bus: seq<Entry>, event: Value)
    ensures var orderId := Python.GetPath(event, ["detail", "order", "orderId"]);
      var userId := Python.GetPath(event, ["detail", "customer", "userId"]);
      var reason := Python.GetPath(event, ["detail", "reason"]);
      var o := Handle(bus, event).1;
      && (o.RefundInitiated? <==> orderId.Some? && userId.Some? && reason.Some?)
      && (o.RefundInitiated? ==> o == RefundInitiated(orderId.value, userId.value, reason.value))
  {
    Python.GetPathThree(event, "detail", "order", "orderId");
    Python.GetPathThree(event, "detail", "customer", "userId");
    Python.GetPathTwo(event, "detail", "reason");
  }
}
