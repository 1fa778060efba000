/** The queue worker: folds over a batch of queue records, writing one PROCESSED
    record per message into the orders table. Any fault re-raises and aborts
    the rest of the batch; records already written stay written. */
module Worker {
  import opened Wrappers
  import opened Json
  import Python
  import Text

  /** The item `put_item` stores. The copied fields keep whatever JSON the
      message held. */
  datatype Processed = Processed(
    orderId: Value,
    customerEmail: Value,
    items: Value,
    status: string,
    createdAt: Value,
    processedAt: int)

  /** The orders table, keyed by the `order_id` attribute. */
  type Table = map<Value, Processed>

  /** The environment of one invocation: the JSON parser, the clock read while
      building the record at each (1-based) batch position, and the positions
      whose `put_item` raises. */
  datatype Env = Env(loads: string -> Option<Value>, clock: nat -> int, putFails: set<nat>)

  /** The key of a message: its `order_id`, or "unknown-{idx}" when it has none. */
  function OrderIdOf(body: Value, idx: nat): (id: Value)
    requires body.Obj?
    ensures HasKey(body.fields, "order_id") ==> Some(id) == Find(body.fields, "order_id")
    ensures !HasKey(body.fields, "order_id") ==> id == Str("unknown-" + Text.NatToString(idx))
  {
    Find(body.fields, "order_id").GetOr(Str("unknown-" + Text.NatToString(idx)))
  }

  /** The decoded body of a queue record: `json.loads(record["body"])`; None
      when the record has no string body or the text does not decode. */
  function MessageBody(record: Value, env: Env): Option<Value> {
    match Python.GetItem(record, "body")
    case Some(Str(text)) => env.loads(text)
    case _ => None
  }

  /** The record the loop body builds for the queue record at position `idx`;
      None when that raises (no decodable body, a body that is not a dict, or a
      missing `customer_email`, `items` or `created_at`). */
  function BuildRecord(record: Value, idx: nat, env: Env): (r: Option<Processed>)
    ensures r.Some? <==>
      && MessageBody(record, env).Some?
      && MessageBody(record, env).value.Obj?
      && HasKey(MessageBody(record, env).value.fields, "customer_email")
      && HasKey(MessageBody(record, env).value.fields, "items")
      && HasKey(MessageBody(record, env).value.fields, "created_at")
    ensures r.Some? ==>
      var body := MessageBody(record, env).value;
      && r.value.orderId == OrderIdOf(body, idx)
      && r.value.status == "PROCESSED"
      && Some(r.value.customerEmail) == Find(body.fields, "customer_email")
      && Some(r.value.items) == Find(body.fields, "items")
      && Some(r.value.createdAt) == Find(body.fields, "created_at")
      && r.value.processedAt == env.clock(idx)
  {
    match MessageBody(record, env)
    case Some(body) =>
      if body.Obj? && HasKey(body.fields, "customer_email") && HasKey(body.fields, "items")
         && HasKey(body.fields, "created_at")
      then Some(Processed(OrderIdOf(body, idx),
                          Find(body.fields, "customer_email").value,
                          Find(body.fields, "items").value,
                          "PROCESSED",
                          Find(body.fields, "created_at").value,
                          env.clock(idx)))
      else None
    case None => None
  }

  /** Position `idx` (1-based) goes through: its record builds and its write succeeds. */
  predicate Succeeds(record: Value, idx: nat, env: Env) {
    BuildRecord(record, idx, env).Some? && idx !in env.putFails
  }

  /** What the loop body achieves at each batch position: the record written,
      or None when the body raises there. */
  function Attempts(records: seq<Value>, env: Env): (a: seq<Option<Processed>>)
    ensures |a| == |records|
    ensures forall j :: 0 <= j < |records| ==>
      (a[j].Some? <==> Succeeds(records[j], j + 1, env)) &&
      (a[j].Some? ==> a[j] == BuildRecord(records[j], j + 1, env))
    ensures forall j :: 0 <= j < |records| && a[j].Some? ==>
      && a[j].value.status == "PROCESSED"
      && MessageBody(records[j], env).Some? && MessageBody(records[j], env).value.Obj?
      && a[j].value.orderId == OrderIdOf(MessageBody(records[j], env).value, j + 1)
      && j + 1 !in env.putFails
  {
    seq(|records|, j requires 0 <= j < |records| =>
      if Succeeds(records[j], j + 1, env) then BuildRecord(records[j], j + 1, env) else None)
  }

  /** The state of the loop: the table, the ids written so far in batch order,
      and the 1-based position whose exception ended the loop, if any. */
  datatype Run = Run(table: Table, ids: seq<Value>, failedAt: Option<nat>)

  /** The loop from index `k` (batch position `k + 1`) on, given what the body
      achieves at each position: write and continue, or stop at the first
      position that raises. */
  function Fold(attempts: seq<Option<Processed>>, k: nat, t: Table): Run
    requires k <= |attempts|
    decreases |attempts| - k
  {
    if k == |attempts| then Run(t, [], None)
    else match attempts[k]
      case None => Run(t, [], Some(k + 1))
      case Some(p) =>
        var rest := Fold(attempts, k + 1, t[p.orderId := p]);
        Run(rest.table, [p.orderId] + rest.ids, rest.failedAt)
  }

  /** Where the loop from index `k` stops: the index of the failing record, or
      the end of the batch. */
  function Stop(r: Run, n: nat): int {
    if r.failedAt.Some? then r.failedAt.value - 1 else n
  }

  /** The loop writes the records from `k` up to where it stops, in input
      order, and stops exactly at the first position that raises. */
  lemma {:induction false} FoldPrefix(attempts: seq<Option<Processed>>, k: nat, t: Table)
    requires k <= |attempts|
    ensures var r := Fold(attempts, k, t);
      var stop := Stop(r, |attempts|);
      && k <= stop <= |attempts|
      && |r.ids| == stop - k
      && (forall j :: k <= j < stop ==> attempts[j].Some? && r.ids[j - k] == attempts[j].value.orderId)
      && (r.failedAt.Some? ==> stop < |attempts| && attempts[stop].None?)
    decreases |attempts| - k
  {
    if k < |attempts| && attempts[k].Some? {
      var p := attempts[k].value;
      FoldPrefix(attempts, k + 1, t[p.orderId := p]);
    }
  }

  /** The table after the loop from `k`: nothing written is rolled back, and
      every key not written is as before. */
  lemma {:induction false} FoldFrame(attempts: seq<Option<Processed>>, k: nat, t: Table)
    requires k <= |attempts|
    ensures forall i :: 0 <= i < |Fold(attempts, k, t).ids| ==> Fold(attempts, k, t).ids[i] in Fold(attempts, k, t).table
    ensures forall key :: key !in Fold(attempts, k, t).ids ==> (key in Fold(attempts, k, t).table <==> key in t)
    ensures forall key :: key !in Fold(attempts, k, t).ids && key in t ==> Fold(attempts, k, t).table[key] == t[key]
    decreases |attempts| - k
  {
    if k < |attempts| && attempts[k].Some? {
      var p := attempts[k].value;
      var t' := t[p.orderId := p];
      var rest := Fold(attempts, k + 1, t');
      FoldFrame(attempts, k + 1, t');
      var r := Fold(attempts, k, t);
      assert r == Run(rest.table, [p.orderId] + rest.ids, rest.failedAt);
      forall i | 0 <= i < |r.ids|
        ensures r.ids[i] in r.table
      {
        if i > 0 {
          assert r.ids[i] == rest.ids[i - 1];
          assert rest.ids[i - 1] in rest.table;
        } else if p.orderId in rest.ids {
          var i' :| 0 <= i' < |rest.ids| && rest.ids[i'] == p.orderId;
          assert rest.ids[i'] in rest.table;
        } else {
          assert p.orderId in t';
          assert p.orderId in rest.table;
        }
      }
      forall key | key !in r.ids
        ensures (key in r.table <==> key in t) && (key in t ==> r.table[key] == t[key])
      {
        assert key !in rest.ids && key != p.orderId;
      }
    }
  }

  /** The value of a written id is the record of its last write. */
  lemma {:induction false} FoldLastWrite(attempts: seq<Option<Processed>>, k: nat, t: Table, i: nat)
    requires k <= |attempts|
    requires i < |Fold(attempts, k, t).ids|
    requires forall i' :: i < i' < |Fold(attempts, k, t).ids| ==>
               Fold(attempts, k, t).ids[i'] != Fold(attempts, k, t).ids[i]
    ensures var r := Fold(attempts, k, t);
      && k + i < |attempts| && attempts[k + i].Some?
      && r.ids[i] in r.table && r.table[r.ids[i]] == attempts[k + i].value
    decreases |attempts| - k
  {
    FoldPrefix(attempts, k, t);
    var p := attempts[k].value;
    var t' := t[p.orderId := p];
    var rest := Fold(attempts, k + 1, t');
    var r := Fold(attempts, k, t);
    assert r.ids == [p.orderId] + rest.ids && r.table == rest.table;
    if i > 0 {
      forall i' | i - 1 < i' < |rest.ids|
        ensures rest.ids[i'] != rest.ids[i - 1]
      {
        assert rest.ids[i'] == r.ids[i' + 1];
      }
      FoldLastWrite(attempts, k + 1, t', i - 1);
    } else {
      assert p.orderId !in rest.ids by {
        forall i' | 0 <= i' < |rest.ids|
          ensures rest.ids[i'] != p.orderId
        {
          assert rest.ids[i'] == r.ids[i' + 1];
        }
      }
      FoldFrame(attempts, k + 1, t');
    }
  }

  /** The summary a completed invocation returns. */
  datatype Summary = Summary(
    status: string,
    totalReceived: nat,
    successCount: nat,
    failureCount: nat,
    processedOrderIds: seq<Value>)

  datatype Outcome = Completed(summary: Summary) | Raised

  /** The batch: the values a loop over `event["Records"]` visits; None when
      that raises. */
  function Records(event: Value): (r: Option<seq<Value>>)
    ensures Python.GetItem(event, "Records").Some? && Python.GetItem(event, "Records").value.Arr? ==>
              r == Some(Python.GetItem(event, "Records").value.elems)
  {
    match Python.GetItem(event, "Records")
    case None => None
    case Some(recs) => Python.Iterate(recs)
  }

  /** `lambda_handler(event)`: folds over the batch and either returns the
      summary or re-raises the first fault. */
  function Handle(t: Table, event: Value, env: Env): (r: (Table, Outcome))
    ensures r.1.Completed? ==>
      && r.1.summary.status == "ok"
      && r.1.summary.failureCount == 0
      && r.1.summary.successCount == r.1.summary.totalReceived == |r.1.summary.processedOrderIds|
  {
    match Records(event)
    case None => (t, Raised)
    case Some(records) =>
      var run := Fold(Attempts(records, env), 0, t);
      FoldPrefix(Attempts(records, env), 0, t);
      if run.failedAt.Some? then (run.table, Raised)
      else (run.table, Completed(Summary("ok", |records|, |run.ids|, 0, run.ids)))
  }

  /** The invocation in terms of the loop: the table the loop leaves, and the
      summary of its ids when it ran to the end. */
  lemma HandleRuns(t: Table, event: Value, env: Env)
    requires Records(event).Some?
    ensures var records := Records(event).value;
      var run := Fold(Attempts(records, env), 0, t);
      Handle(t, event, env) ==
        (run.table, if run.failedAt.Some? then Raised else Completed(Summary("ok", |records|, |run.ids|, 0, run.ids)))
  {
  }

  /** The loop runs to the end iff every position goes through, and then
      writes every position's id in order. */
  lemma FoldCompletes(records: seq<Value>, t: Table, env: Env)
    ensures var run := Fold(Attempts(records, env), 0, t);
      && (run.failedAt.None? <==> forall j :: 0 <= j < |records| ==> Succeeds(records[j], j + 1, env))
      && (run.failedAt.None? ==>
            && |run.ids| == |records|
            && forall j :: 0 <= j < |records| ==> run.ids[j] == BuildRecord(records[j], j + 1, env).value.orderId)
  {
    var attempts := Attempts(records, env);
    var run := Fold(attempts, 0, t);
    FoldPrefix(attempts, 0, t);
    if run.failedAt.Some? {
      var stop := run.failedAt.value - 1;
      assert attempts[stop].None?;
      assert !Succeeds(records[stop], stop + 1, env);
    } else {
      forall j | 0 <= j < |records|
        ensures Succeeds(records[j], j + 1, env)
        ensures run.ids[j] == BuildRecord(records[j], j + 1, env).value.orderId
      {
        assert attempts[j].Some?;
      }
    }
  }

  /** A returned summary lists every message's id in input order; the
      invocation returns iff every message goes through. */
  lemma CompletedSummaryListsBatch(t: Table, event: Value, env: Env)
    requires Records(event).Some?
    ensures var records := Records(event).value;
      var (t', o) := Handle(t, event, env);
      && (o.Completed? <==> forall j :: 0 <= j < |records| ==> Succeeds(records[j], j + 1, env))
      && (o.Completed? ==>
            && o.summary.totalReceived == |records|
            && forall j :: 0 <= j < |records| ==>
                 o.summary.processedOrderIds[j] == BuildRecord(records[j], j + 1, env).value.orderId)
  {
    HandleRuns(t, event, env);
    FoldCompletes(Records(event).value, t, env);
  }

  /** All-or-nothing reporting without rollback: when the message at position
      `p` raises, every message before it went through and stays written under
      its id, and every key not written keeps its value. */
  lemma FailureKeepsEarlierWrites(t: Table, event: Value, env: Env)
    requires Records(event).Some?
    requires Handle(t, event, env).1.Raised?
    ensures var records := Records(event).value;
      var run := Fold(Attempts(records, env), 0, t);
      var t' := Handle(t, event, env).0;
      && run.failedAt.Some?
      && var p := run.failedAt.value;
      && 1 <= p <= |records|
      && !Succeeds(records[p - 1], p, env)
      && (forall j :: 0 <= j < p - 1 ==>
            Succeeds(records[j], j + 1, env) &&
            BuildRecord(records[j], j + 1, env).value.orderId in t')
      && (forall key :: key !in run.ids ==> (key in t' <==> key in t))
      && (forall key :: key in t && key !in run.ids ==> t'[key] == t[key])
  {
    var records := Records(event).value;
    var attempts := Attempts(records, env);
    FoldPrefix(attempts, 0, t);
    FoldFrame(attempts, 0, t);
  }

  /** Two records agree on everything but the processing time. */
  predicate SameButTime(a: Processed, b: Processed) {
    a.(processedAt := 0) == b.(processedAt := 0)
  }

  /** Two tables hold the same keys with records that agree but for the
      processing time. */
  predicate SameUpToTime(t1: Table, t2: Table) {
    && t1.Keys == t2.Keys
    && forall key :: key in t1 ==> SameButTime(t1[key], t2[key])
  }

  /** Reprocessing one message at the same position builds a record for the
      same key that differs only in `processed_at`. */
  lemma ReprocessingDiffersOnlyInTime(record: Value, idx: nat, env1: Env, env2: Env)
    requires env1.loads == env2.loads
    ensures BuildRecord(record, idx, env1).Some? <==> BuildRecord(record, idx, env2).Some?
    ensures BuildRecord(record, idx, env1).Some? ==>
      && BuildRecord(record, idx, env1).value.orderId == BuildRecord(record, idx, env2).value.orderId
      && SameButTime(BuildRecord(record, idx, env1).value, BuildRecord(record, idx, env2).value)
  {
  }

  /** A message without `order_id` is keyed by its batch position, so a
      redelivery at another position writes a second record. */
  lemma PositionKeysUnidentifiedMessages(env: Env)
    requires env.loads("{}") == Some(Obj([("customer_email", Str("a@test.com")),
                                          ("items", Arr([])), ("created_at", Int(0))]))
    ensures var record := Obj([("body", Str("{}"))]);
      && BuildRecord(record, 1, env).value.orderId == Str("unknown-1")
      && BuildRecord(record, 2, env).value.orderId == Str("unknown-2")
  {
    var record := Obj([("body", Str("{}"))]);
    var body := env.loads("{}").value;
    assert Python.GetItem(record, "body") == Some(Str("{}"));
    assert MessageBody(record, env) == Some(body);
    assert HasKey(body.fields, "customer_email");
    assert HasKey(body.fields, "items") by { assert body.fields[1].0 == "items"; }
    assert HasKey(body.fields, "created_at") by { assert body.fields[2].0 == "created_at"; }
    assert !HasKey(body.fields, "order_id");
    assert Text.NatToString(1) == "1";
    assert Text.NatToString(2) == "2";
  }

  /** Messages without `order_id` at different positions get different
      keys, so none of them overwrites another. */
  lemma PositionKeysDiffer(body1: Value, body2: Value, i: nat, j: nat)
    requires body1.Obj? && body2.Obj? && i != j
    requires !HasKey(body1.fields, "order_id") && !HasKey(body2.fields, "order_id")
    ensures OrderIdOf(body1, i) != OrderIdOf(body2, j)
  {
    var s1 := "unknown-" + Text.NatToString(i);
    var s2 := "unknown-" + Text.NatToString(j);
    if s1 == s2 {
      assert s1[8..] == Text.NatToString(i) && s2[8..] == Text.NatToString(j);
      Text.NatToStringInjective(i, j);
    }
  }

  /** The index of the last occurrence of `x` in `ids`. */
  lemma LastOccurrence(ids: seq<Value>, x: Value) returns (i: nat)
    requires x in ids
    ensures i < |ids| && ids[i] == x
    ensures forall i' :: i < i' < |ids| ==> ids[i'] != x
  {
    i := |ids| - 1;
    while ids[i] != x
      invariant i < |ids|
      invariant forall i' :: i < i' < |ids| ==> ids[i'] != x
      invariant x in ids[..i + 1]
      decreases i
    {
      i := i - 1;
    }
  }

  /** Two passes over a batch whose records, where both build, agree on the
      key and on everything but the processing time. */
  predicate Rebuilt(a1: seq<Option<Processed>>, a2: seq<Option<Processed>>) {
    && |a1| == |a2|
    && forall j :: 0 <= j < |a1| && a1[j].Some? && a2[j].Some? ==>
         a1[j].value.orderId == a2[j].value.orderId && SameButTime(a1[j].value, a2[j].value)
  }

  /** Reprocessing a batch with the same parser rebuilds it. */
  lemma AttemptsRebuilt(records: seq<Value>, env1: Env, env2: Env)
    requires env1.loads == env2.loads
    ensures Rebuilt(Attempts(records, env1), Attempts(records, env2))
  {
    forall j | 0 <= j < |records|
      ensures ReprocessedAt(records, env1, env2, j)
    {
      ReprocessingDiffersOnlyInTime(records[j], j + 1, env1, env2);
    }
  }

  predicate ReprocessedAt(records: seq<Value>, env1: Env, env2: Env, j: nat)
    requires j < |records|
  {
    BuildRecord(records[j], j + 1, env1).Some? && BuildRecord(records[j], j + 1, env2).Some? ==>
      && BuildRecord(records[j], j + 1, env1).value.orderId == BuildRecord(records[j], j + 1, env2).value.orderId
      && SameButTime(BuildRecord(records[j], j + 1, env1).value, BuildRecord(records[j], j + 1, env2).value)
  }

  /** Two completed loops over a rebuilt batch write the same ids, whatever
      tables they start from. */
  lemma SameIdsOnRedelivery(a1: seq<Option<Processed>>, a2: seq<Option<Processed>>, t1: Table, t2: Table)
    requires Rebuilt(a1, a2)
    requires Fold(a1, 0, t1).failedAt.None? && Fold(a2, 0, t2).failedAt.None?
    ensures Fold(a1, 0, t1).ids == Fold(a2, 0, t2).ids
  {
    var ids1 := Fold(a1, 0, t1).ids;
    var ids2 := Fold(a2, 0, t2).ids;
    FoldPrefix(a1, 0, t1);
    FoldPrefix(a2, 0, t2);
    assert |ids1| == |a1| == |ids2|;
    forall j | 0 <= j < |ids1|
      ensures ids1[j] == ids2[j]
    {
      assert ids1[j] == a1[j].value.orderId && ids2[j] == a2[j].value.orderId;
    }
  }

  /** The position whose record a written key holds: the last position
      that wrote it. */
  lemma LastWriteOf(a: seq<Option<Processed>>, t: Table, key: Value) returns (i: nat)
    requires key in Fold(a, 0, t).ids
    ensures i < |Fold(a, 0, t).ids| && Fold(a, 0, t).ids[i] == key
    ensures forall i' :: i < i' < |Fold(a, 0, t).ids| ==> Fold(a, 0, t).ids[i'] != key
    ensures i < |a| && a[i].Some?
    ensures key in Fold(a, 0, t).table && Fold(a, 0, t).table[key] == a[i].value
  {
    i := LastOccurrence(Fold(a, 0, t).ids, key);
    FoldLastWrite(a, 0, t, i);
  }

  /** A key the first loop wrote holds, after the second loop, the second
      loop's rebuild of the same record. */
  lemma RefoldWrittenKey(a1: seq<Option<Processed>>, a2: seq<Option<Processed>>, t: Table, key: Value)
    requires Rebuilt(a1, a2)
    requires Fold(a1, 0, t).failedAt.None? && Fold(a2, 0, Fold(a1, 0, t).table).failedAt.None?
    requires key in Fold(a1, 0, t).ids
    ensures key in Fold(a1, 0, t).table && key in Fold(a2, 0, Fold(a1, 0, t).table).table
    ensures SameButTime(Fold(a1, 0, t).table[key], Fold(a2, 0, Fold(a1, 0, t).table).table[key])
  {
    var t1 := Fold(a1, 0, t).table;
    SameIdsOnRedelivery(a1, a2, t, t1);
    var i := LastWriteOf(a1, t, key);
    var i2 := LastWriteOf(a2, t1, key);
    assert i == i2;
  }

  /** Running a completed loop again over its own result table, on a rebuilt
      batch, gives a table that differs only in processing times. */
  lemma RefoldSameUpToTime(a1: seq<Option<Processed>>, a2: seq<Option<Processed>>, t: Table)
    requires Rebuilt(a1, a2)
    requires Fold(a1, 0, t).failedAt.None? && Fold(a2, 0, Fold(a1, 0, t).table).failedAt.None?
    ensures SameUpToTime(Fold(a1, 0, t).table, Fold(a2, 0, Fold(a1, 0, t).table).table)
  {
    var run1 := Fold(a1, 0, t);
    var t1 := run1.table;
    var t2 := Fold(a2, 0, t1).table;
    SameIdsOnRedelivery(a1, a2, t, t1);
    FoldFrame(a1, 0, t);
    FoldFrame(a2, 0, t1);
    forall key | key in t1 || key in t2
      ensures key in t1 && key in t2 && SameButTime(t1[key], t2[key])
    {
      if key in run1.ids {
        RefoldWrittenKey(a1, a2, t, key);
      }
    }
  }

  /** Idempotent redelivery: delivering a completed batch again leaves the same
      keys with records that differ only in `processed_at`. */
  lemma RedeliveryIsIdempotent(t: Table, event: Value, env1: Env, env2: Env)
    requires env1.loads == env2.loads
    requires Handle(t, event, env1).1.Completed?
    requires Handle(Handle(t, event, env1).0, event, env2).1.Completed?
    ensures SameUpToTime(Handle(t, event, env1).0, Handle(Handle(t, event, env1).0, event, env2).0)
  {
    var records := Records(event).value;
    AttemptsRebuilt(records, env1, env2);
    HandleRuns(t, event, env1);
    HandleRuns(Handle(t, event, env1).0, event, env2);
    RefoldSameUpToTime(Attempts(records, env1), Attempts(records, env2), t);
  }

  /** Where the loop stops and which ids it writes do not depend on the table
      it starts from. */
  lemma {:induction false} FoldIdsIgnoreTable(a: seq<Option<Processed>>, k: nat, tA: Table, tB: Table)
    requires k <= |a|
    ensures Fold(a, k, tA).ids == Fold(a, k, tB).ids
    ensures Fold(a, k, tA).failedAt == Fold(a, k, tB).failedAt
    decreases |a| - k
  {
    if k < |a| && a[k].Some? {
      var p := a[k].value;
      FoldIdsIgnoreTable(a, k + 1, tA[p.orderId := p], tB[p.orderId := p]);
    }
  }

  /** Two tables that agree on every key the loop does not write end up
      equal: the loop overwrites whatever else they hold. */
  lemma FoldOverwrites(a: seq<Option<Processed>>, tA: Table, tB: Table)
    requires forall key :: key !in Fold(a, 0, tA).ids ==>
               (key in tA <==> key in tB) && (key in tA ==> tA[key] == tB[key])
    ensures Fold(a, 0, tA).table == Fold(a, 0, tB).table
  {
    var rA := Fold(a, 0, tA);
    var rB := Fold(a, 0, tB);
    FoldIdsIgnoreTable(a, 0, tA, tB);
    FoldFrame(a, 0, tA);
    FoldFrame(a, 0, tB);
    forall key | key in rA.ids
      ensures key in rA.table && key in rB.table && rA.table[key] == rB.table[key]
    {
      var i := LastWriteOf(a, tA, key);
      var j := LastWriteOf(a, tB, key);
      assert i == j;
    }
    assert forall key :: key in rA.table <==> key in rB.table;
  }

  /** The keys an earlier pass wrote are all written again by a later pass
      over a rebuilt batch that runs to the end. */
  lemma RewritesEarlierKeys(a1: seq<Option<Processed>>, a2: seq<Option<Processed>>, t1: Table, t2: Table)
    requires Rebuilt(a1, a2)
    requires Fold(a2, 0, t2).failedAt.None?
    ensures forall key :: key in Fold(a1, 0, t1).ids ==> key in Fold(a2, 0, t2).ids
  {
    var run1 := Fold(a1, 0, t1);
    var run2 := Fold(a2, 0, t2);
    FoldPrefix(a1, 0, t1);
    FoldPrefix(a2, 0, t2);
    forall j | 0 <= j < |run1.ids|
      ensures run1.ids[j] in run2.ids
    {
      assert run1.ids[j] == a1[j].value.orderId;
      assert run2.ids[j] == a2[j].value.orderId;
    }
  }

  /** A completed pass over a rebuilt batch ends as it would on the table the
      earlier pass started from, whatever that earlier pass wrote. */
  lemma RefoldAfterAnyPass(a1: seq<Option<Processed>>, a2: seq<Option<Processed>>, t: Table)
    requires Rebuilt(a1, a2)
    requires Fold(a2, 0, Fold(a1, 0, t).table).failedAt.None?
    ensures Fold(a2, 0, Fold(a1, 0, t).table) == Fold(a2, 0, t)
  {
    var run1 := Fold(a1, 0, t);
    var t1 := run1.table;
    FoldIdsIgnoreTable(a2, 0, t1, t);
    RewritesEarlierKeys(a1, a2, t, t1);
    FoldFrame(a1, 0, t);
    FoldOverwrites(a2, t1, t);
  }

  /** Redelivery, after a pass that completed or raised: once the batch goes
      through, the table and the summary are those of that last pass on the
      original table. Records the earlier pass wrote are all overwritten, so
      nothing of it remains. */
  lemma RedeliveryReplacesEarlierPass(t: Table, event: Value, env1: Env, env2: Env)
    requires env1.loads == env2.loads
    requires Handle(Handle(t, event, env1).0, event, env2).1.Completed?
    ensures Handle(Handle(t, event, env1).0, event, env2) == Handle(t, event, env2)
  {
    assert Records(event).Some?;
    var records := Records(event).value;
    AttemptsRebuilt(records, env1, env2);
    HandleRuns(t, event, env1);
    HandleRuns(Handle(t, event, env1).0, event, env2);
    HandleRuns(t, event, env2);
    RefoldAfterAnyPass(Attempts(records, env1), Attempts(records, env2), t);
  }
}
