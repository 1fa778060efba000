/** The inventory step of the Step Functions order workflow: reserves one unit
    of the order's sku in the inventory table (creating the row with the
    default stock first), tells the browser over its WebSocket connection, and
    hands the payload on with the new status. */
module CheckInventory {
  import opened Wrappers
  import opened Json
  import opened JavaScript

  /** The stock a sku's row is created with. */
  const InitialStock := 5

  /** One inventory row: the units that can still be reserved and those that
      are reserved. */
  datatype Row = Row(available: int, reserved: int)

  /** The inventory table, keyed by the `sku` attribute. */
  type Inventory = map<Value, Row>

  /** One `PostToConnection` attempt; a failing post is swallowed. */
  datatype WsPost = WsPost(connectionId: Value, data: Value)

  /** The table after the invocation, the posts it attempted, and how it
      settled. */
  datatype Result = Result(table: Inventory, posts: seq<WsPost>, completion: Completion)

  /** The `ALL_NEW` attributes the conditional update returns. */
  function Snapshot(sku: Value, row: Row): Value {
    Obj([("sku", sku), ("available", Int(row.available)), ("reserved", Int(row.reserved))])
  }

  /** The row the reservation starts from: the stored row, or the one the
      conditional put creates for a new sku. */
  function RowBefore(table: Inventory, sku: Value): Row {
    if sku in table then table[sku] else Row(InitialStock, 0)
  }

  /** The conditional update `available = available - 1, reserved = reserved
      + 1` guarded by `available >= 1`; None when the guard fails. */
  function Reserve(row: Row): (r: Option<Row>)
    ensures r.Some? <==> row.available >= 1
    ensures r.Some? ==> r.value.available + r.value.reserved == row.available + row.reserved
    ensures r.Some? ==> r.value.reserved == row.reserved + 1 && r.value.available >= 0
  {
    if row.available >= 1 then Some(Row(row.available - 1, row.reserved + 1)) else None
  }

  /** The payload's three required fields are all truthy. */
  predicate WellFormed(payload: Value) {
    && Truthy(Prop(payload, "sku"))
    && Truthy(Prop(payload, "orderId"))
    && Truthy(Prop(payload, "connectionId"))
  }

  /** The table after a well-formed invocation: the sku's row created if
      missing, then reserved from when it has a unit available. */
  function Restock(table: Inventory, sku: Value): (t: Inventory)
    ensures t.Keys == table.Keys + {sku}
    ensures forall s :: s in table && s != sku ==> t[s] == table[s]
  {
    var row := RowBefore(table, sku);
    table[sku := Reserve(row).GetOr(row)]
  }

  /** The two posts of a failed reservation, or the one of a successful one. */
  function Posts(connectionId: Value, orderId: Value, sku: Value, status: string, snapshot: Value): seq<WsPost> {
    var update := WsPost(connectionId, Obj([("orderId", orderId), ("status", Str(status)),
                                            ("sku", sku), ("inventorySnapshot", snapshot)]));
    if status == "REFUND" then
      [WsPost(connectionId, Obj([("orderId", orderId), ("status", Str("OUT_OF_STOCK"))])), update]
    else [update]
  }

  /** `handler`. */
  function Handle(table: Inventory, event: Value): (r: Result)
    ensures r.completion.Threw? <==> Unwrap(event).Null?
    ensures r.completion.Threw? ==> r.completion.error == TypeError && r.table == table && r.posts == []
    ensures r.completion.Returned? ==> r.completion.value.Obj?
  {
    var payload := Unwrap(event);
    if payload.Null? then Result(table, [], Threw(TypeError))
    else if !WellFormed(payload) then
      Result(table, [], Returned(With(payload, "status", Str("INVALID_INPUT"))))
    else
      var sku := Prop(payload, "sku").value;
      var orderId := Prop(payload, "orderId").value;
      var connectionId := Prop(payload, "connectionId").value;
      var reserved := Reserve(RowBefore(table, sku));
      var status := if reserved.Some? then "RESERVED" else "REFUND";
      var snapshot := if reserved.Some? then Snapshot(sku, reserved.value) else Null;
      Result(Restock(table, sku),
             Posts(connectionId, orderId, sku, status, snapshot),
             Returned(With(With(payload, "status", Str(status)), "inventorySnapshot", snapshot)))
  }

  /** The table an invocation leaves: untouched unless the payload is
      well-formed, restocked at the payload's sku otherwise. */
  lemma TableAfter(table: Inventory, event: Value)
    ensures Handle(table, event).table ==
      if Unwrap(event).Null? || !WellFormed(Unwrap(event)) then table
      else Restock(table, Prop(Unwrap(event), "sku").value)
  {
  }

  /** A payload missing (or with a falsy) sku, orderId or connectionId comes
      back marked "INVALID_INPUT"; the table is not touched and nothing is
      posted. */
  lemma InvalidInputChangesNothing(table: Inventory, event: Value)
    requires !Unwrap(event).Null? && !WellFormed(Unwrap(event))
    ensures var r := Handle(table, event);
      && r.table == table && r.posts == []
      && r.completion == Returned(With(Unwrap(event), "status", Str("INVALID_INPUT")))
  {
  }

  /** A well-formed payload reserves a unit iff the row (created with 5
      available and 0 reserved when the sku is new) has one available. Then
      the row loses one available unit and gains one reserved and the status
      is "RESERVED" with the new row as snapshot; otherwise the row is left as
      it was, the status is "REFUND" and the snapshot is null. */
  lemma ReservesIffAvailable(table: Inventory, event: Value)
    requires !Unwrap(event).Null? && WellFormed(Unwrap(event))
    ensures var r := Handle(table, event);
      var sku := Prop(Unwrap(event), "sku").value;
      var row := RowBefore(table, sku);
      && r.completion.Returned?
      && sku in r.table
      && (Find(r.completion.value.fields, "status") == Some(Str("RESERVED")) <==> row.available >= 1)
      && (row.available >= 1 ==>
            && r.table[sku] == Row(row.available - 1, row.reserved + 1)
            && Find(r.completion.value.fields, "inventorySnapshot") == Some(Snapshot(sku, r.table[sku])))
      && (row.available < 1 ==>
            && r.table[sku] == row
            && Find(r.completion.value.fields, "status") == Some(Str("REFUND"))
            && Find(r.completion.value.fields, "inventorySnapshot") == Some(Null))
  {
  }

  /** The posts of one outcome all go to the given connection, and the last
      one reports the status, the sku and the snapshot; a "REFUND" is
      announced first as "OUT_OF_STOCK". */
  lemma PostsReport(connectionId: Value, orderId: Value, sku: Value, status: string, snapshot: Value)
    ensures var p := Posts(connectionId, orderId, sku, status, snapshot);
      && (|p| == 2 <==> status == "REFUND")
      && 1 <= |p| <= 2
      && (forall i :: 0 <= i < |p| ==> p[i].connectionId == connectionId)
      && p[|p| - 1].data == Obj([("orderId", orderId), ("status", Str(status)),
                                 ("sku", sku), ("inventorySnapshot", snapshot)])
      && (|p| == 2 ==> p[0].data == Obj([("orderId", orderId), ("status", Str("OUT_OF_STOCK"))]))
  {
  }

  /** Every post goes to the payload's connection, and the last one reports
      the status the invocation returns; a failed reservation posts twice,
      a successful one once. */
  lemma NotifiesConnection(table: Inventory, event: Value)
    requires !Unwrap(event).Null? && WellFormed(Unwrap(event))
    ensures var r := Handle(table, event);
      var payload := Unwrap(event);
      var sku := Prop(payload, "sku").value;
      var status := if RowBefore(table, sku).available >= 1 then "RESERVED" else "REFUND";
      var snapshot := if RowBefore(table, sku).available >= 1 then Snapshot(sku, r.table[sku]) else Null;
      && sku in r.table
      && r.posts == Posts(Prop(payload, "connectionId").value, Prop(payload, "orderId").value, sku, status, snapshot)
      && r.completion.Returned?
      && Find(r.completion.value.fields, "status") == Some(Str(status))
      && Find(r.completion.value.fields, "inventorySnapshot") == Some(snapshot)
  {
    ReservesIffAvailable(table, event);
  }

  /** A new sku's row is created with the default stock and then reserved
      from; an existing row is never reset by that creation. */
  lemma NewSkuStartsAtDefaultStock(table: Inventory, event: Value)
    requires !Unwrap(event).Null? && WellFormed(Unwrap(event))
    ensures var sku := Prop(Unwrap(event), "sku").value;
      var r := Handle(table, event);
      && (sku !in table ==> r.table[sku] == Row(InitialStock - 1, 1))
      && (sku in table ==> r.table[sku] == Reserve(table[sku]).GetOr(table[sku]))
  {
    TableAfter(table, event);
  }

  /** The invocation touches only the payload's sku: every other row is kept,
      and no row disappears. */
  lemma OtherSkusUntouched(table: Inventory, event: Value)
    ensures var r := Handle(table, event);
      && table.Keys <= r.table.Keys
      && |r.table.Keys - table.Keys| <= 1
      && forall s :: s in table && (!WellFormed(Unwrap(event)) || s != Prop(Unwrap(event), "sku").value) ==>
           r.table[s] == table[s]
  {
    TableAfter(table, event);
    var payload := Unwrap(event);
    if !payload.Null? && WellFormed(payload) {
      var sku := Prop(payload, "sku").value;
      assert Handle(table, event).table.Keys - table.Keys <= {sku} by {
        assert Handle(table, event).table.Keys == table.Keys + {sku};
      }
    }
  }

  /** No row holds a negative count. */
  predicate Sound(table: Inventory) {
    forall s :: s in table ==> table[s].available >= 0 && table[s].reserved >= 0
  }

  lemma RestockConserves(table: Inventory, sku: Value)
    requires Sound(table)
    ensures Sound(Restock(table, sku))
    ensures forall s :: s in table ==>
      Restock(table, sku)[s].available + Restock(table, sku)[s].reserved == table[s].available + table[s].reserved
  {
    var row := RowBefore(table, sku);
    assert Restock(table, sku)[sku] == Reserve(row).GetOr(row);
  }

  /** Stock is conserved and never negative: an invocation keeps
      `available + reserved` of every existing row, and keeps every row's
      counts non-negative when they were. */
  lemma ReservationConserves(table: Inventory, event: Value)
    requires Sound(table)
    ensures var r := Handle(table, event);
      && Sound(r.table)
      && forall s :: s in table ==>
           r.table[s].available + r.table[s].reserved == table[s].available + table[s].reserved
  {
    TableAfter(table, event);
    if !Unwrap(event).Null? && WellFormed(Unwrap(event)) {
      RestockConserves(table, Prop(Unwrap(event), "sku").value);
    }
  }

  /** Two events whose payloads agree on being null, on the three required
      fields and on the sku leave the same table. */
  lemma SameKeyFieldsSameTable(table: Inventory, e1: Value, e2: Value)
    requires Unwrap(e1).Null? == Unwrap(e2).Null?
    requires WellFormed(Unwrap(e1)) == WellFormed(Unwrap(e2))
    requires Prop(Unwrap(e1), "sku") == Prop(Unwrap(e2), "sku")
    ensures Handle(table, e1).table == Handle(table, e2).table
  {
    TableAfter(table, e1);
    TableAfter(table, e2);
  }

  /** Exactly one unit is reserved, whatever quantity the order asks for: the
      table after the invocation does not depend on the payload's `quantity`. */
  lemma QuantityIsIgnored(table: Inventory, event: Value, quantity: Value)
    requires event.Obj? && !Truthy(Prop(event, "Payload"))
    ensures Handle(table, With(event, "quantity", quantity)).table == Handle(table, event).table
  {
    var event' := With(event, "quantity", quantity);
    assert Prop(event', "Payload") == Prop(event, "Payload");
    assert Unwrap(event') == event' && Unwrap(event) == event;
    assert Prop(event', "sku") == Prop(event, "sku");
    assert Prop(event', "orderId") == Prop(event, "orderId");
    assert Prop(event', "connectionId") == Prop(event, "connectionId");
    SameKeyFieldsSameTable(table, event', event);
  }

  /** The returned record is the payload with only `status` (and, past the
      input check, `inventorySnapshot`) overwritten. */
  lemma OnlyStatusAndSnapshotChange(table: Inventory, event: Value, k: string)
    requires Handle(table, event).completion.Returned?
    requires k != "status" && k != "inventorySnapshot"
    ensures Find(Handle(table, event).completion.value.fields, k) == Find(Spread(Unwrap(event)), k)
  {
  }
}
