/** The compensation step of the Step Functions order workflow: after a failed
    reservation it refunds the payment (a log line only) and passes the state
    on marked "REFUNDED". */
module RefundPayment {
  import opened Wrappers
  import opened Json
  import opened JavaScript
  import ValidateOrder

  /** `handler`: the unwrapped state with `status` set to "REFUNDED", after
      the same two checks as the validation step. */
  function Handle(event: Value): (r: Completion)
    ensures r.Threw? <==> ValidateOrder.Check(Unwrap(event)).Some?
    ensures r.Threw? ==> r.error == ValidateOrder.Check(Unwrap(event)).value
    ensures r.Returned? ==> r.value.Obj? && Find(r.value.fields, "status") == Some(Str("REFUNDED"))
    ensures r.Returned? ==> forall k :: k != "status" ==> Find(r.value.fields, k) == Find(Spread(Unwrap(event)), k)
  {
    var payload := Unwrap(event);
    match ValidateOrder.Check(payload)
    case Some(e) => Threw(e)
    case None => Returned(With(payload, "status", Str("REFUNDED")))
  }

  /** A state wrapped by a `Lambda Invoke` step is refunded exactly as the
      bare state would be. */
  lemma PayloadIsUnwrapped(state: Value)
    requires Truthy(Some(state)) && !Truthy(Prop(state, "Payload"))
    ensures Handle(Obj([("Payload", state)])) == Handle(state)
  {
    var event := Obj([("Payload", state)]);
    FindAt(event.fields, 0);
    assert Prop(event, "Payload") == Some(state);
    assert Unwrap(event) == state;
    assert Unwrap(state) == state;
  }

  /** The amount is never looked at: changing it does not change whether the
      refund is made. */
  lemma AmountNotChecked(event: Value, amount: Value)
    requires event.Obj? && !Truthy(Prop(event, "Payload"))
    ensures Handle(With(event, "amount", amount)).Returned? <==> Handle(event).Returned?
  {
    var event' := With(event, "amount", amount);
    assert Unwrap(event') == event';
    assert Prop(event', "orderId") == Prop(event, "orderId");
    assert Prop(event', "connectionId") == Prop(event, "connectionId");
  }
}
