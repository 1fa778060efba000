/** The validation step of the Step Functions order workflow: rejects a state
    without an order id or a WebSocket connection id, and passes everything
    else on marked "VALID". */
module ValidateOrder {
  import opened Wrappers
  import opened Json
  import opened JavaScript

  /** The two input checks, in order: a falsy `orderId` first, then a falsy
      `connectionId`; destructuring a null state throws a TypeError before
      either. None when both pass. The refund step performs the same checks. */
  function Check(state: Value): (e: Option<JsError>)
    ensures e.None? <==> !state.Null? && Truthy(Prop(state, "orderId")) && Truthy(Prop(state, "connectionId"))
    ensures !state.Null? && !Truthy(Prop(state, "orderId")) ==> e == Some(Error("INVALID_ORDER"))
  {
    if state.Null? then Some(TypeError)
    else if !Truthy(Prop(state, "orderId")) then Some(Error("INVALID_ORDER"))
    else if !Truthy(Prop(state, "connectionId")) then Some(Error("MISSING_CONNECTION_ID"))
    else None
  }

  /** `handler`: the state with `status` set to "VALID". */
  function Handle(event: Value): (r: Completion)
    ensures r.Threw? <==> Check(event).Some?
    ensures r.Returned? ==> r.value.Obj? && Find(r.value.fields, "status") == Some(Str("VALID"))
    ensures r.Returned? ==> forall k :: k != "status" ==> Find(r.value.fields, k) == Find(Spread(event), k)
  {
    match Check(event)
    case Some(e) => Threw(e)
    case None => Returned(With(event, "status", Str("VALID")))
  }

  /** A state with an order id but no connection id is refused as
      "MISSING_CONNECTION_ID"; without an order id it is "INVALID_ORDER",
      whatever the connection id. */
  lemma GuardOrder(event: Value)
    requires !event.Null?
    ensures !Truthy(Prop(event, "orderId")) ==> Handle(event) == Threw(Error("INVALID_ORDER"))
    ensures Truthy(Prop(event, "orderId")) && !Truthy(Prop(event, "connectionId")) ==>
      Handle(event) == Threw(Error("MISSING_CONNECTION_ID"))
  {
  }

  /** Validating an already validated state gives it back unchanged. */
  lemma Idempotent(event: Value)
    requires Handle(event).Returned?
    ensures Handle(Handle(event).value) == Handle(event)
  {
    var v := Handle(event).value;
    assert Prop(v, "orderId") == Prop(event, "orderId");
    assert Prop(v, "connectionId") == Prop(event, "connectionId");
    PutIdempotent(Spread(event), "status", Str("VALID"));
  }

  /** The amount is never looked at: changing it does not change whether the
      state is accepted. */
  lemma AmountNotChecked(event: Value, amount: Value)
    requires event.Obj?
    ensures Handle(With(event, "amount", amount)).Returned? <==> Handle(event).Returned?
  {
    var event' := With(event, "amount", amount);
    assert Prop(event', "orderId") == Prop(event, "orderId");
    assert Prop(event', "connectionId") == Prop(event, "connectionId");
  }
}
