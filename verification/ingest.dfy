/** The order-ingestion entry point: validates a request body fail-fast, builds a
    CREATED order, sends it to the order queue and keeps three invocation
    counters that survive between invocations of a warm instance. */
module Ingest {
  import opened Wrappers
  import opened Json
  import Python

  /** The first failed check, in the order `validate_order` performs them. */
  datatype ValidationError =
    | MissingItems
    | MissingEmail
    | ItemsNotArray
    | ItemsEmpty
    | ItemNotObject(index: nat)
    | ItemMissingSku(index: nat)
    | ItemMissingQty(index: nat)
    | ItemBadQuantity(index: nat)
  {
    /** A failure of the per-item loop, carrying the item's index. */
    predicate AboutItem() {
      ItemNotObject? || ItemMissingSku? || ItemMissingQty? || ItemBadQuantity?
    }

    /** The message the validator returns for this failure. */
    function Message(): string {
      match this
      case MissingItems => "Missing 'items' in order"
      case MissingEmail => "Missing 'email' in order"
      case ItemsNotArray => "'items' must be an array"
      case ItemsEmpty => "'items' array cannot be empty"
      case ItemNotObject(i) => "Item at index " + Text.NatToString(i) + " must be an object"
      case ItemMissingSku(i) => "Item at index " + Text.NatToString(i) + " missing 'sku' field"
      case ItemMissingQty(i) => "Item at index " + Text.NatToString(i) + " missing 'qty' field"
      case ItemBadQuantity(i) => "Item at index " + Text.NatToString(i) + " has invalid quantity"
    }
  }

  import Text

  /** What `validate_order` does with a body: returns None, returns a message,
      or raises (membership or indexing on a body that is not a dict). */
  datatype Verdict = Valid | Invalid(error: ValidationError) | Raises

  /** The per-item checks, in order, for the item at position `i`. */
  function CheckItem(item: Value, i: nat): Option<ValidationError> {
    if !item.Obj? then Some(ItemNotObject(i))
    else if !HasKey(item.fields, "sku") then Some(ItemMissingSku(i))
    else if !HasKey(item.fields, "qty") then Some(ItemMissingQty(i))
    else
      var q := Find(item.fields, "qty").value;
      if !Python.IsInt(q) || Python.IntValue(q) <= 0 then Some(ItemBadQuantity(i))
      else None
  }

  /** A line item the validator accepts: an object with `sku` and an integer
      (or boolean) `qty` greater than zero. */
  predicate GoodItem(item: Value) {
    && item.Obj?
    && HasKey(item.fields, "sku")
    && HasKey(item.fields, "qty")
    && Python.IsInt(Find(item.fields, "qty").value)
    && Python.IntValue(Find(item.fields, "qty").value) > 0
  }

  lemma CheckItemAcceptsGoodItems(item: Value, i: nat)
    ensures CheckItem(item, i).None? <==> GoodItem(item)
    ensures CheckItem(item, i).Some? ==> CheckItem(item, i).value.index == i
  {
  }

  /** The loop over the items from position `from` on: the first item that
      fails, reported with its check. */
  function FirstBadItem(items: seq<Value>, from: nat): (r: Option<ValidationError>)
    requires from <= |items|
    ensures r.None? <==> forall j :: from <= j < |items| ==> GoodItem(items[j])
    ensures r.Some? ==>
      && r.value.AboutItem()
      && from <= r.value.index < |items|
      && CheckItem(items[r.value.index], r.value.index) == r
      && forall j :: from <= j < r.value.index ==> GoodItem(items[j])
    decreases |items| - from
  {
    if from == |items| then None
    else
      CheckItemAcceptsGoodItems(items[from], from);
      match CheckItem(items[from], from)
      case Some(e) => Some(e)
      case None => FirstBadItem(items, from + 1)
  }

  /** `validate_order(body)` */
  function ValidateOrder(body: Value): Verdict {
    match Python.Contains(body, "items")
    case None => Raises
    case Some(false) => Invalid(MissingItems)
    case Some(true) =>
      match Python.Contains(body, "email")
      case None => Raises
      case Some(false) => Invalid(MissingEmail)
      case Some(true) =>
        match Python.GetItem(body, "items")
        case None => Raises
        case Some(items) =>
          if !items.Arr? then Invalid(ItemsNotArray)
          else if |items.elems| == 0 then Invalid(ItemsEmpty)
          else
            match FirstBadItem(items.elems, 0)
            case None => Valid
            case Some(e) => Invalid(e)
  }

  /** A body the validator accepts. Neither the sku nor the email is inspected. */
  predicate AcceptableBody(body: Value) {
    && body.Obj?
    && HasKey(body.fields, "email")
    && HasKey(body.fields, "items")
    && Find(body.fields, "items").value.Arr?
    && |Find(body.fields, "items").value.elems| > 0
    && forall j :: 0 <= j < |Find(body.fields, "items").value.elems| ==>
         GoodItem(Find(body.fields, "items").value.elems[j])
  }

  /** The validator accepts exactly the acceptable bodies. */
  lemma ValidateOrderAcceptsExactly(body: Value)
    ensures ValidateOrder(body) == Valid <==> AcceptableBody(body)
  {
  }

  /** The validator's fixed order: a reported item failure means all earlier
      checks passed, every earlier item is good and the item at that index
      fails that very check. */
  lemma ValidateOrderFailsFast(body: Value)
    ensures ValidateOrder(body) == Invalid(MissingItems) <==>
      Python.Contains(body, "items") == Some(false)
    ensures ValidateOrder(body) == Invalid(MissingEmail) <==>
      Python.Contains(body, "items") == Some(true) && Python.Contains(body, "email") == Some(false)
    ensures ValidateOrder(body).Invalid? && ValidateOrder(body).error.AboutItem() ==>
      var items := Find(body.fields, "items").value.elems;
      var k := ValidateOrder(body).error.index;
      && body.Obj? && HasKey(body.fields, "email")
      && k < |items|
      && CheckItem(items[k], k) == Some(ValidateOrder(body).error)
      && forall j :: 0 <= j < k ==> GoodItem(items[j])
  {
  }

  /** A boolean `true` quantity passes the integer check. */
  lemma TrueQuantityPasses()
    ensures GoodItem(Obj([("sku", Str("A")), ("qty", Bool(true))]))
    ensures !GoodItem(Obj([("sku", Str("A")), ("qty", Float(2.0))]))
  {
  }

  /** The queue message `json.dumps(order)` serialises. */
  datatype Order = Order(
    orderId: string,
    customerEmail: Value,
    items: seq<Value>,
    status: string,
    createdAt: int)

  /** Module-level counters of one warm instance. */
  datatype Counters = Counters(received: nat, validated: nat, enqueued: nat)

  predicate CountersOrdered(c: Counters) {
    c.enqueued <= c.validated <= c.received
  }

  /** The instance's counters and the order queue's contents. */
  datatype State = State(counters: Counters, queue: seq<Order>)

  /** The handler's result: 201 with the order id, 500 when the send failed,
      400 with the validation message (only in the intended handler), or an
      uncaught exception. Each response carries the counters as debug data. */
  datatype Outcome =
    | Accepted(orderId: string, debug: Counters)
    | EnqueueFailed(debug: Counters)
    | Rejected(error: ValidationError)
    | Crash
  {
    function StatusCode(): Option<int> {
      match this
      case Accepted(_, _) => Some(201)
      case EnqueueFailed(_) => Some(500)
      case Rejected(_) => Some(400)
      case Crash => None
    }
  }

  /** The environment of one invocation: the JSON parser (None = decode error),
      the fresh uuid, the clock, and whether the queue accepts the message. */
  datatype Env = Env(loads: string -> Option<Value>, uuid: string, now: int, queueAccepts: bool)

  /** The request body: `event["body"]` parsed when the event has that key,
      otherwise the event itself; None when that raises. */
  function RequestBody(event: Value, loads: string -> Option<Value>): (r: Option<Value>)
    ensures event.Obj? && !HasKey(event.fields, "body") ==> r == Some(event)
    ensures event.Obj? && HasKey(event.fields, "body") ==>
      r == (match Find(event.fields, "body").value
            case Str(s) => loads(s)
            case _ => None)
    ensures !event.Obj? ==> r.None?
  {
    if !event.Obj? then None
    else match Find(event.fields, "body")
      case None => Some(event)
      case Some(Str(s)) => loads(s)
      case Some(_) => None
  }

  /** The order built from an accepted body. */
  function BuildOrder(body: Value, env: Env): (o: Order)
    requires AcceptableBody(body)
  {
    Order(env.uuid, Find(body.fields, "email").value,
          Find(body.fields, "items").value.elems, "CREATED", env.now)
  }

  /** What follows a successful validation: count it, build the order, send it. */
  function Enqueue(st: State, c: Counters, body: Value, env: Env): (r: (State, Outcome))
    requires AcceptableBody(body)
  {
    var c1 := c.(validated := c.validated + 1);
    if env.queueAccepts then
      var c2 := c1.(enqueued := c1.enqueued + 1);
      (State(c2, st.queue + [BuildOrder(body, env)]), Accepted(env.uuid, c2))
    else
      (State(c1, st.queue), EnqueueFailed(c1))
  }

  /** `lambda_handler` as written: a validation failure calls the undefined
      `error_response`, which raises NameError. */
  function Handle(st: State, event: Value, env: Env): (r: (State, Outcome))
    ensures r.0.counters.received == st.counters.received + 1
    ensures r.1 != Crash ==> RequestBody(event, env.loads).Some? &&
                             AcceptableBody(RequestBody(event, env.loads).value)
    ensures r.1.Crash? ==> r.0.queue == st.queue && r.0.counters.enqueued == st.counters.enqueued
    ensures !r.1.Rejected?
  {
    var c := st.counters.(received := st.counters.received + 1);
    match RequestBody(event, env.loads)
    case None => (st.(counters := c), Crash)
    case Some(body) =>
      match ValidateOrder(body)
      case Valid =>
        ValidateOrderAcceptsExactly(body);
        Enqueue(st, c, body, env)
      case _ => (st.(counters := c), Crash)
  }

  /** `lambda_handler` as evidently intended: a validation failure answers 400
      with the validator's message and enqueues nothing. */
  function HandleIntended(st: State, event: Value, env: Env): (r: (State, Outcome))
    ensures r.0.counters.received == st.counters.received + 1
    ensures r.1.Rejected? <==> RequestBody(event, env.loads).Some? &&
                               ValidateOrder(RequestBody(event, env.loads).value).Invalid?
    ensures r.1.Rejected? ==> r.0.queue == st.queue && r.1.StatusCode() == Some(400) &&
                              r.1.error == ValidateOrder(RequestBody(event, env.loads).value).error
  {
    var c := st.counters.(received := st.counters.received + 1);
    match RequestBody(event, env.loads)
    case None => (st.(counters := c), Crash)
    case Some(body) =>
      match ValidateOrder(body)
      case Valid =>
        ValidateOrderAcceptsExactly(body);
        Enqueue(st, c, body, env)
      case Invalid(e) => (st.(counters := c), Rejected(e))
      case Raises => (st.(counters := c), Crash)
  }

  /** Validation failure: nothing is enqueued, and as written the handler raises. */
  lemma InvalidOrderCrashes(st: State, event: Value, env: Env)
    requires RequestBody(event, env.loads).Some?
    requires !ValidateOrder(RequestBody(event, env.loads).value).Valid?
    ensures Handle(st, event, env).1 == Crash
    ensures Handle(st, event, env).0 == st.(counters := st.counters.(received := st.counters.received + 1))
  {
  }

  /** The counters stay ordered, `received` grows by exactly one per invocation,
      and the other two never decrease. */
  lemma CountersStayOrdered(st: State, event: Value, env: Env)
    requires CountersOrdered(st.counters)
    ensures var c' := Handle(st, event, env).0.counters;
      && CountersOrdered(c')
      && c'.received == st.counters.received + 1
      && st.counters.validated <= c'.validated <= st.counters.validated + 1
      && st.counters.enqueued <= c'.enqueued <= st.counters.enqueued + 1
  {
  }

  /** A successful send answers 201 with the id of the order just enqueued,
      which is CREATED and carries the request's email and items unchanged. */
  lemma AcceptedOrderIsEnqueued(st: State, event: Value, env: Env)
    requires Handle(st, event, env).1.Accepted?
    ensures var (st', o) := Handle(st, event, env);
      var body := RequestBody(event, env.loads).value;
      && env.queueAccepts
      && o.StatusCode() == Some(201)
      && |st'.queue| == |st.queue| + 1
      && st'.queue[..|st.queue|] == st.queue
      && st'.queue[|st.queue|].orderId == o.orderId == env.uuid
      && st'.queue[|st.queue|].status == "CREATED"
      && st'.queue[|st.queue|].createdAt == env.now
      && Some(st'.queue[|st.queue|].customerEmail) == Find(body.fields, "email")
      && Some(Arr(st'.queue[|st.queue|].items)) == Find(body.fields, "items")
      && st'.counters.enqueued == st.counters.enqueued + 1
      && o.debug == st'.counters
  {
  }

  /** Converse of `AcceptedOrderIsEnqueued`: every body the validator accepts
      is accepted when the queue takes it, and the queue grows by exactly the
      order built from that body. */
  lemma AcceptableIsAccepted(st: State, event: Value, env: Env)
    requires RequestBody(event, env.loads).Some?
    requires AcceptableBody(RequestBody(event, env.loads).value)
    requires env.queueAccepts
    ensures Handle(st, event, env).1.Accepted?
    ensures Handle(st, event, env).0.queue ==
            st.queue + [BuildOrder(RequestBody(event, env.loads).value, env)]
  {
    ValidateOrderAcceptsExactly(RequestBody(event, env.loads).value);
  }

  /** A failed send answers 500, leaves the queue alone and does not count an
      enqueue, though the request was counted as validated. */
  lemma SendFailureAnswers500(st: State, event: Value, env: Env)
    requires !env.queueAccepts
    requires RequestBody(event, env.loads).Some?
    requires AcceptableBody(RequestBody(event, env.loads).value)
    ensures var (st', o) := Handle(st, event, env);
      && o.EnqueueFailed? && o.StatusCode() == Some(500)
      && st'.queue == st.queue
      && st'.counters.enqueued == st.counters.enqueued
      && st'.counters.validated == st.counters.validated + 1
  {
    ValidateOrderAcceptsExactly(RequestBody(event, env.loads).value);
  }

  /** An order for two units of one book is accepted and queued as CREATED. */
  lemma BookScenario(st: State, loads: string -> Option<Value>)
    ensures var event := Obj([("email", Str("a@test.com")),
                              ("items", Arr([Obj([("sku", Str("BOOK-001")), ("qty", Int(2))])]))]);
      var env := Env(loads, "9b2f6c1e-0000-4000-8000-000000000000", 1700000000, true);
      var (st', o) := Handle(st, event, env);
      && o.StatusCode() == Some(201)
      && st'.queue[|st'.queue| - 1].status == "CREATED"
  {
    var item := Obj([("sku", Str("BOOK-001")), ("qty", Int(2))]);
    assert GoodItem(item);
  }

  /** The two handlers agree on every request the validator accepts or that
      raises before validation; they differ exactly on invalid bodies. */
  lemma IntendedDiffersOnlyOnInvalid(st: State, event: Value, env: Env)
    ensures Handle(st, event, env) != HandleIntended(st, event, env) <==>
      RequestBody(event, env.loads).Some? && ValidateOrder(RequestBody(event, env.loads).value).Invalid?
  {
  }

  /** The request body without items, which the source crashes on and the
      intended handler rejects with 400. */
  lemma EmptyItemsCrashesAsWritten(st: State, env: Env)
    ensures var event := Obj([("email", Str("a@test.com")), ("items", Arr([]))]);
      && Handle(st, event, env).1 == Crash
      && HandleIntended(st, event, env).1 == Rejected(ItemsEmpty)
      && HandleIntended(st, event, env).1.StatusCode() == Some(400)
  {
  }
}
