/** The product CRUD handler behind API Gateway: validates product bodies
    against a five-field schema and creates, lists, reads, updates and deletes
    products in one table keyed by `product_id`. */
module Crud {
  import opened Wrappers
  import opened Json
  import Python

  /** The type a schema field accepts: `str`, `(int, float, Decimal)` or
      `(bool, int)`. */
  datatype Kind = Text | Number | Flag {
    /** `isinstance(v, typ)`; a bool is an int. */
    predicate Accepts(v: Value) {
      match this
      case Text => v.Str?
      case Number => v.Int? || v.Bool? || v.Float?
      case Flag => v.Bool? || v.Int?
    }

    /** How Python renders the type (or tuple of types) in the message. */
    function Repr(): string {
      match this
      case Text => "<class 'str'>"
      case Number => "(<class 'int'>, <class 'float'>, <class 'decimal.Decimal'>)"
      case Flag => "(<class 'bool'>, <class 'int'>)"
    }
  }

  /** The product schema, in the order its fields are checked. */
  const Schema: seq<(string, Kind)> :=
    [("product_id", Text), ("name", Text), ("price", Number), ("currency", Text), ("in_stock", Flag)]

  /** A key's position in the schema; `|Schema|` for keys outside it. */
  function Rank(key: string): (n: nat)
    ensures n <= |Schema|
    ensures n < |Schema| ==> Schema[n].0 == key
    ensures n == |Schema| ==> forall j :: 0 <= j < |Schema| ==> Schema[j].0 != key
  {
    if key == "product_id" then 0
    else if key == "name" then 1
    else if key == "price" then 2
    else if key == "currency" then 3
    else if key == "in_stock" then 4
    else 5
  }

  datatype FieldError = Missing(key: string) | InvalidType(key: string, expected: Kind) {
    /** The message the handler reports. */
    function Message(): string {
      match this
      case Missing(k) => "Missing '" + k + "'"
      case InvalidType(k, t) => "Invalid type for '" + k + "', expected " + t.Repr()
    }
  }

  /** The errors one schema field contributes; None when checking it raises
      (`in` on a value that is not a container, `[]` on a list or str). */
  function FieldCheck(data: Value, requireAll: bool, key: string, kind: Kind): (r: Option<seq<FieldError>>)
    ensures data.Obj? ==> r.Some?
    ensures data.Obj? && !HasKey(data.fields, key) ==> r.value == if requireAll then [Missing(key)] else []
    ensures data.Obj? && HasKey(data.fields, key) ==>
      r.value == if kind.Accepts(Find(data.fields, key).value) then [] else [InvalidType(key, kind)]
    ensures requireAll && r == Some([]) ==> data.Obj? && HasKey(data.fields, key)
  {
    var present :- Python.Contains(data, key);
    if !present then Some(if requireAll then [Missing(key)] else [])
    else
      var v :- Python.GetItem(data, key);
      Some(if kind.Accepts(v) then [] else [InvalidType(key, kind)])
  }

  /** The errors of the schema fields from position `i` on, in schema order. */
  function CheckFrom(data: Value, requireAll: bool, i: nat): (r: Option<seq<FieldError>>)
    requires i <= |Schema|
    ensures data.Obj? ==> r.Some?
    ensures r.Some? ==> forall e :: e in r.value ==> i <= Rank(e.key) < |Schema|
    ensures r.Some? ==> forall a, b :: 0 <= a < b < |r.value| ==> Rank(r.value[a].key) < Rank(r.value[b].key)
    decreases |Schema| - i
  {
    if i == |Schema| then Some([])
    else
      var here :- FieldCheck(data, requireAll, Schema[i].0, Schema[i].1);
      var rest :- CheckFrom(data, requireAll, i + 1);
      RankOf(i);
      Some(here + rest)
  }

  /** Each schema key ranks at its own position. */
  lemma RankOf(i: nat)
    requires i < |Schema|
    ensures Rank(Schema[i].0) == i
  {
  }

  /** A dict body gets a "Missing" error for schema field `j` iff all fields
      are required and `j` is absent. */
  lemma {:induction false} MissingErrors(data: Value, requireAll: bool, i: nat, j: nat)
    requires i <= |Schema| && j < |Schema| && data.Obj?
    ensures Missing(Schema[j].0) in CheckFrom(data, requireAll, i).value <==>
      requireAll && i <= j && !HasKey(data.fields, Schema[j].0)
    decreases |Schema| - i
  {
    if i < |Schema| {
      RankOf(i);
      RankOf(j);
      MissingErrors(data, requireAll, i + 1, j);
    }
  }

  /** A dict body gets a type error for schema field `j` iff `j` is present
      with a value of the wrong type. */
  lemma {:induction false} TypeErrors(data: Value, requireAll: bool, i: nat, j: nat)
    requires i <= |Schema| && j < |Schema| && data.Obj?
    ensures InvalidType(Schema[j].0, Schema[j].1) in CheckFrom(data, requireAll, i).value <==>
      && i <= j && HasKey(data.fields, Schema[j].0)
      && !Schema[j].1.Accepts(Find(data.fields, Schema[j].0).value)
    decreases |Schema| - i
  {
    if i < |Schema| {
      RankOf(i);
      RankOf(j);
      TypeErrors(data, requireAll, i + 1, j);
    }
  }

  /** A type error names the kind its field has in the schema. */
  lemma {:induction false} ErrorKinds(data: Value, requireAll: bool, i: nat)
    requires i <= |Schema| && data.Obj?
    ensures forall e :: e in CheckFrom(data, requireAll, i).value && e.InvalidType? ==>
      e.expected == Schema[Rank(e.key)].1
    decreases |Schema| - i
  {
    if i < |Schema| {
      var here := FieldCheck(data, requireAll, Schema[i].0, Schema[i].1).value;
      var rest := CheckFrom(data, requireAll, i + 1).value;
      assert CheckFrom(data, requireAll, i).value == here + rest;
      RankOf(i);
      ErrorKinds(data, requireAll, i + 1);
      forall e | e in here && e.InvalidType?
        ensures e.expected == Schema[Rank(e.key)].1
      {
        assert e == InvalidType(Schema[i].0, Schema[i].1);
      }
    }
  }

  /** With every field required, passing means being a dict with every
      schema key: a list or str body cannot pass. */
  lemma PassingMeansPresent(data: Value, i: nat)
    requires i < |Schema| && CheckFrom(data, true, i) == Some([])
    ensures data.Obj? && forall j :: i <= j < |Schema| ==> HasKey(data.fields, Schema[j].0)
  {
    var here := FieldCheck(data, true, Schema[i].0, Schema[i].1);
    assert here.Some? && here.value == [];
    forall j | i <= j < |Schema|
      ensures HasKey(data.fields, Schema[j].0)
    {
      MissingErrors(data, true, i, j);
    }
  }

  /** `validate_product_data`: None when it raises. */
  function ValidateProductData(data: Value, requireAll: bool): (r: Option<seq<FieldError>>)
    ensures data.Obj? ==> r.Some?
    ensures requireAll && r == Some([]) ==> data.Obj? && HasKey(data.fields, "product_id")
    ensures r.Some? ==> forall a, b :: 0 <= a < b < |r.value| ==> Rank(r.value[a].key) < Rank(r.value[b].key)
  {
    if requireAll && CheckFrom(data, true, 0) == Some([]) then
      PassingMeansPresent(data, 0);
      CheckFrom(data, requireAll, 0)
    else CheckFrom(data, requireAll, 0)
  }

  /** Field `j` of the schema is satisfied by the dict `fs`. */
  predicate Satisfied(fs: Fields, requireAll: bool, j: nat)
    requires j < |Schema|
  {
    && (requireAll ==> HasKey(fs, Schema[j].0))
    && (HasKey(fs, Schema[j].0) ==> Schema[j].1.Accepts(Find(fs, Schema[j].0).value))
  }

  /** Every reported error names an unsatisfied schema field... */
  lemma ErrorIsFault(data: Value, requireAll: bool, e: FieldError)
    requires data.Obj? && e in ValidateProductData(data, requireAll).value
    ensures Rank(e.key) < |Schema| && !Satisfied(data.fields, requireAll, Rank(e.key))
  {
    var j := Rank(e.key);
    if e.Missing? {
      MissingErrors(data, requireAll, 0, j);
    } else {
      ErrorKinds(data, requireAll, 0);
      TypeErrors(data, requireAll, 0, j);
    }
  }

  /** ...and every unsatisfied schema field is reported. */
  lemma FaultIsReported(data: Value, requireAll: bool, j: nat)
    requires data.Obj? && j < |Schema| && !Satisfied(data.fields, requireAll, j)
    ensures ValidateProductData(data, requireAll).value != []
  {
    var k := Schema[j].0;
    if !HasKey(data.fields, k) {
      MissingErrors(data, requireAll, 0, j);
      assert Missing(k) in ValidateProductData(data, requireAll).value;
    } else {
      TypeErrors(data, requireAll, 0, j);
      assert InvalidType(k, Schema[j].1) in ValidateProductData(data, requireAll).value;
    }
  }

  /** A dict body passes validation iff every present schema field has its
      type and, when all are required, every schema field is present. */
  lemma ValidatesExactly(data: Value, requireAll: bool)
    requires data.Obj?
    ensures ValidateProductData(data, requireAll).value == [] <==>
      forall j :: 0 <= j < |Schema| ==> Satisfied(data.fields, requireAll, j)
  {
    var errors := ValidateProductData(data, requireAll).value;
    if errors != [] {
      assert errors[0] in errors;
      ErrorIsFault(data, requireAll, errors[0]);
    }
    forall j | 0 <= j < |Schema| && !Satisfied(data.fields, requireAll, j)
      ensures errors != []
    {
      FaultIsReported(data, requireAll, j);
    }
  }

  /** The headers of every response. */
  const Headers: Fields := [
    ("Content-Type", Str("application/json")),
    ("Access-Control-Allow-Origin", Str("*")),
    ("Access-Control-Allow-Methods", Str("GET,POST,PUT,DELETE,OPTIONS")),
    ("Access-Control-Allow-Headers", Str("Content-Type"))]

  /** A response with its body before `json.dumps`. */
  datatype Response = Response(statusCode: int, headers: Fields, body: Value)

  /** `response(status, body)` */
  function Reply(status: int, body: Value): Response {
    Response(status, Headers, body)
  }

  function ErrorBody(message: string): Value {
    Obj([("error", Str(message))])
  }

  function MessageBody(message: string): Value {
    Obj([("message", Str(message))])
  }

  function ErrorsBody(errors: seq<FieldError>): Value {
    Obj([("errors", Arr(seq(|errors|, i requires 0 <= i < |errors| => Str(errors[i].Message()))))])
  }

  /** The product table: items by their `product_id` key. */
  type Table = map<Value, Fields>

  /** How a table call fails: a `ClientError`, which the handler answers 500
      with its message, or any other exception (a `BotoCoreError` such as
      missing credentials or an unreachable endpoint), which it does not
      catch. */
  datatype DbFailure = ClientError(message: string) | OtherError

  /** The table name as published. */
  const PublishedTable := ""

  /** The environment of one invocation: `json.loads` with
      `parse_float=Decimal` (None for a decode error; a fractional number
      comes back as a `Float`, standing for the `Decimal` that boto3
      stores), the table's name, how every table call fails when the table is
      unavailable, and the order in which a scan returns keys. */
  datatype Env = Env(loads: string -> Option<Value>, tableName: string, dbError: Option<DbFailure>,
                     scanOrder: seq<Value>)

  /** How the table calls of this invocation fail, if they do. botocore
      refuses an empty table name before sending any call
      (`ParamValidationError`, not a `ClientError`). */
  function TableFailure(env: Env): (f: Option<DbFailure>)
    ensures env.tableName == [] ==> f == Some(OtherError)
    ensures env.tableName != [] ==> f == env.dbError
  {
    if env.tableName == [] then Some(OtherError) else env.dbError
  }

  /** The answer to a failed table call: 500 with a `ClientError`'s message,
      a crash for anything else. */
  function Failed(table: Table, failure: DbFailure): (r: Option<(Table, Response)>)
    ensures r.Some? <==> failure.ClientError?
    ensures r.Some? ==> r.value.0 == table && r.value.1.statusCode == 500
  {
    match failure
    case ClientError(message) => Some((table, Reply(500, ErrorBody(message))))
    case OtherError => None
  }

  /** DynamoDB's `ValidationException` for a key attribute that is the empty
      string. */
  const EmptyKeyMessage := "ValidationException: The AttributeValue for a key attribute cannot contain an empty string value. Key: product_id"

  datatype Outcome = Responded(response: Response) | Crash

  /** What the handler reads from the event: the method, the path's
      `product_id` (`Null` when absent) and the body (`{}` when absent or
      empty; None when it does not parse). */
  datatype Request = Request(verb: Value, productId: Value, body: Option<Value>)

  /** None when reading the event raises. */
  function ReadRequest(event: Value, loads: string -> Option<Value>): Option<Request> {
    var verb :- Python.Get(event, "httpMethod", Null);
    var params :- Python.Get(event, "pathParameters", Null);
    var productId :- Python.Get(if Python.Truthy(params) then params else Obj([]), "product_id", Null);
    var raw :- Python.Get(event, "body", Null);
    if !Python.Truthy(raw) then Some(Request(verb, productId, Some(Obj([]))))
    else if !raw.Str? then None
    else Some(Request(verb, productId, loads(raw.s)))
  }

  /** The items a scan returns, in the order it visits keys. */
  function Listing(table: Table, order: seq<Value>): (items: seq<Value>)
    ensures |items| <= |order|
    ensures forall k :: k in order && k in table ==> Obj(table[k]) in items
    ensures forall i :: 0 <= i < |items| ==> items[i].Obj? && items[i].fields in table.Values
  {
    if |order| == 0 then []
    else if order[0] in table then [Obj(table[order[0]])] + Listing(table, order[1..])
    else Listing(table, order[1..])
  }

  /** The `SET k = :k` clauses of the update expression, in body order. */
  function SetClauses(fs: Fields): (cs: seq<(string, string)>)
    ensures |cs| == |fs|
    ensures forall i :: 0 <= i < |fs| ==> cs[i] == (fs[i].0, ":" + fs[i].0)
  {
    if |fs| == 0 then [] else [(fs[0].0, ":" + fs[0].0)] + SetClauses(fs[1..])
  }

  /** The expression attribute values `{":k": v}`. */
  function AttributeValues(fs: Fields): (vs: Fields)
    ensures |vs| == |fs|
    ensures forall i :: 0 <= i < |fs| ==> vs[i] == (":" + fs[i].0, fs[i].1)
  {
    if |fs| == 0 then [] else [(":" + fs[0].0, fs[0].1)] + AttributeValues(fs[1..])
  }

  /** How the table evaluates `SET a = :p, ...` on an item; None when a
      placeholder has no value (a validation error). */
  function ApplyUpdate(item: Fields, clauses: seq<(string, string)>, values: Fields): Option<Fields>
    decreases |clauses|
  {
    if |clauses| == 0 then Some(item)
    else
      var v :- Find(values, clauses[0].1);
      ApplyUpdate(Put(item, clauses[0].0, v), clauses[1..], values)
  }

  lemma {:induction false} PlaceholderFind(fs: Fields, k: string)
    ensures Find(AttributeValues(fs), ":" + k) == Find(fs, k)
  {
    if |fs| > 0 {
      PlaceholderFind(fs[1..], k);
      if fs[0].0 != k {
        assert (":" + fs[0].0)[1..] == fs[0].0 && (":" + k)[1..] == k;
      }
    }
  }

  lemma {:induction false} ApplyFrom(item: Fields, fs: Fields, i: nat)
    requires DistinctKeys(fs) && i <= |fs|
    ensures ApplyUpdate(item, SetClauses(fs[i..]), AttributeValues(fs)) == Some(PutAll(item, fs[i..]))
    decreases |fs| - i
  {
    if i < |fs| {
      var tail := fs[i..];
      assert tail[1..] == fs[i + 1..];
      PlaceholderFind(fs, fs[i].0);
      FindDistinct(fs, i);
      ApplyFrom(Put(item, fs[i].0, fs[i].1), fs, i + 1);
    }
  }

  /** The update expression the handler builds, evaluated by the table, sets
      exactly the body's keys to the body's values: `PutAll`. */
  lemma UpdateIsPutAll(item: Fields, fs: Fields)
    requires DistinctKeys(fs)
    ensures ApplyUpdate(item, SetClauses(fs), AttributeValues(fs)) == Some(PutAll(item, fs))
  {
    ApplyFrom(item, fs, 0);
    assert fs[0..] == fs;
  }

  /** The item an update starts from: the stored one, or the bare key. */
  function Existing(table: Table, productId: Value): Fields {
    if productId in table then table[productId] else [("product_id", productId)]
  }

  function Create(table: Table, body: Value, env: Env): (r: Option<(Table, Response)>)
    ensures r.Some? ==> r.value.1.headers == Headers
  {
    var errors :- ValidateProductData(body, true);
    if |errors| > 0 then Some((table, Reply(400, ErrorsBody(errors))))
    else Store(table, body, env)
  }

  /** `table.put_item(Item=body)` of a validated body: it raises on a
      failure other than a `ClientError`, answers 500 for a `ClientError` or
      an empty key, and otherwise stores the body whole under its
      `product_id`. */
  function Store(table: Table, body: Value, env: Env): (r: Option<(Table, Response)>)
    requires body.Obj? && HasKey(body.fields, "product_id")
    ensures r.Some? ==> r.value.1.headers == Headers
    ensures r.None? <==> TableFailure(env) == Some(OtherError)
    ensures r.Some? && r.value.1.statusCode == 201 <==>
      TableFailure(env).None? && Find(body.fields, "product_id") != Some(Str(""))
    ensures r.Some? && r.value.1.statusCode == 201 ==>
      r.value.0 == table[Find(body.fields, "product_id").value := body.fields]
    ensures r.Some? && r.value.1.statusCode != 201 ==> r.value.0 == table
    ensures TableFailure(env).Some? && TableFailure(env).value.ClientError? ==>
      r == Some((table, Reply(500, ErrorBody(TableFailure(env).value.message))))
    ensures TableFailure(env).None? && Find(body.fields, "product_id") == Some(Str("")) ==>
      r == Some((table, Reply(500, ErrorBody(EmptyKeyMessage))))
  {
    if TableFailure(env).Some? then Failed(table, TableFailure(env).value)
    else if Find(body.fields, "product_id") == Some(Str("")) then
      Some((table, Reply(500, ErrorBody(EmptyKeyMessage))))
    else
      Some((table[Find(body.fields, "product_id").value := body.fields],
            Reply(201, Obj([("message", Str("Product created")), ("product", body)]))))
  }

  function ReadOne(table: Table, productId: Value, env: Env): (r: Option<(Table, Response)>)
    ensures r.Some? ==> r.value.1.headers == Headers
  {
    if TableFailure(env).Some? then Failed(table, TableFailure(env).value)
    else if productId !in table then Some((table, Reply(404, ErrorBody("Product not found"))))
    else Some((table, Reply(200, Obj(table[productId]))))
  }

  function ReadAll(table: Table, env: Env): (r: Option<(Table, Response)>)
    ensures r.Some? ==> r.value.1.headers == Headers
  {
    if TableFailure(env).Some? then Failed(table, TableFailure(env).value)
    else Some((table, Reply(200, Arr(Listing(table, env.scanOrder)))))
  }

  function Update(table: Table, productId: Value, body: Value, env: Env): (r: Option<(Table, Response)>)
    ensures r.Some? ==> r.value.1.headers == Headers
  {
    if !Python.Truthy(productId) then Some((table, Reply(400, ErrorBody("Missing product_id in path"))))
    else
      var hasId :- Python.Contains(body, "product_id");
      var bodyId :- if hasId then Python.GetItem(body, "product_id") else Some(productId);
      if bodyId != productId then Some((table, Reply(400, ErrorBody("Cannot change product_id"))))
      else
        var errors :- ValidateProductData(body, false);
        if |errors| > 0 then Some((table, Reply(400, ErrorsBody(errors))))
        else if !Python.Truthy(body) then Some((table, Reply(400, ErrorBody("No fields to update"))))
        else if !body.Obj? then None
        else Write(table, productId, body, env)
  }

  /** `table.update_item` with the `SET` expression built from the body. */
  function Write(table: Table, productId: Value, body: Value, env: Env): (r: Option<(Table, Response)>)
    requires body.Obj?
    ensures r.Some? ==> r.value.1.headers == Headers
    ensures r.None? <==> TableFailure(env) == Some(OtherError)
  {
    if TableFailure(env).Some? then Failed(table, TableFailure(env).value)
    else
      match ApplyUpdate(Existing(table, productId), SetClauses(body.fields), AttributeValues(body.fields))
      case None => Some((table, Reply(500, ErrorBody("ValidationException"))))
      case Some(item) => Some((table[productId := item], Reply(200, MessageBody("Product updated"))))
  }

  function Delete(table: Table, productId: Value, env: Env): (r: Option<(Table, Response)>)
    ensures r.Some? ==> r.value.1.headers == Headers
  {
    if !Python.Truthy(productId) then Some((table, Reply(400, ErrorBody("Missing product_id in path"))))
    else if TableFailure(env).Some? then Failed(table, TableFailure(env).value)
    else Some((table - {productId}, Reply(200, MessageBody("Product deleted"))))
  }

  /** Method dispatch on a parsed body. */
  function Route(table: Table, verb: Value, productId: Value, body: Value, env: Env): (r: Option<(Table, Response)>)
    ensures r.Some? ==> r.value.1.headers == Headers
  {
    if verb == Str("POST") then Create(table, body, env)
    else if verb == Str("GET") && !Python.Truthy(productId) then ReadAll(table, env)
    else if verb == Str("GET") then ReadOne(table, productId, env)
    else if verb == Str("PUT") then Update(table, productId, body, env)
    else if verb == Str("DELETE") then Delete(table, productId, env)
    else Some((table, Reply(405, ErrorBody("Method not allowed"))))
  }

  /** `lambda_handler`: the table after the invocation and its outcome. */
  function Handle(table: Table, event: Value, env: Env): (r: (Table, Outcome))
    ensures r.1.Crash? ==> r.0 == table
    ensures r.1.Responded? ==> r.1.response.headers == Headers
  {
    match ReadRequest(event, env.loads)
    case None => (table, Crash)
    case Some(req) =>
      match req.body
      case None => (table, Responded(Reply(400, ErrorBody("Invalid JSON body"))))
      case Some(body) =>
        match Route(table, req.verb, req.productId, body, env)
        case None => (table, Crash)
        case Some((t, resp)) => (t, Responded(resp))
  }

  /** An unparseable body is answered 400 before the method is looked at. */
  lemma BadJsonBeforeDispatch(table: Table, event: Value, env: Env, text: string)
    requires event.Obj?
    requires var params := Python.Get(event, "pathParameters", Null).value;
      !Python.Truthy(params) || params.Obj?
    requires Python.Get(event, "body", Null) == Some(Str(text)) && text != ""
    requires env.loads(text).None?
    ensures Handle(table, event, env) == (table, Responded(Reply(400, ErrorBody("Invalid JSON body"))))
  {
    assert ReadRequest(event, env.loads).Some? && ReadRequest(event, env.loads).value.body.None?;
  }

  /** POST of a dict stores it (whole, under its `product_id`) exactly when it
      passes validation with every field required, the table is available
      and the key is not empty; otherwise the table is unchanged. A failed
      validation is answered 400 with the errors; a failure other than a
      `ClientError` raises; a `ClientError` and an empty key are answered
      500. */
  lemma PostStoresIffValid(table: Table, productId: Value, body: Value, env: Env)
    requires body.Obj?
    ensures var r := Route(table, Str("POST"), productId, body, env);
      var errors := ValidateProductData(body, true).value;
      var proceeds := errors == [];
      && (r.None? <==> proceeds && TableFailure(env) == Some(OtherError))
      && (r.Some? && r.value.1.statusCode == 201 <==>
            proceeds && TableFailure(env).None? && Find(body.fields, "product_id") != Some(Str("")))
      && (errors != [] ==> r == Some((table, Reply(400, ErrorsBody(errors)))))
      && (proceeds && TableFailure(env).Some? && TableFailure(env).value.ClientError? ==>
            r == Some((table, Reply(500, ErrorBody(TableFailure(env).value.message)))))
      && (proceeds && TableFailure(env).None? && Find(body.fields, "product_id") == Some(Str("")) ==>
            r == Some((table, Reply(500, ErrorBody(EmptyKeyMessage)))))
      && (r.Some? && r.value.1.statusCode == 201 ==>
            && HasKey(body.fields, "product_id")
            && r.value.0 == table[Find(body.fields, "product_id").value := body.fields])
      && (r.Some? && r.value.1.statusCode != 201 ==> r.value.0 == table)
  {
    var errors := ValidateProductData(body, true).value;
    assert Route(table, Str("POST"), productId, body, env) == Create(table, body, env);
    if errors != [] {
      assert Create(table, body, env) == Some((table, Reply(400, ErrorsBody(errors))));
    } else {
      assert Create(table, body, env) == Store(table, body, env);
    }
  }

  /** GET without an id answers 200 with a list of stored items, holding
      every item the scan visits, and changes nothing. */
  lemma GetAllListsItems(table: Table, body: Value, env: Env)
    requires TableFailure(env).None?
    ensures var r := Route(table, Str("GET"), Null, body, env);
      && r.Some? && r.value.0 == table && r.value.1.statusCode == 200 && r.value.1.body.Arr?
      && (forall k :: k in env.scanOrder && k in table ==> Obj(table[k]) in r.value.1.body.elems)
      && (forall i :: 0 <= i < |r.value.1.body.elems| ==>
            r.value.1.body.elems[i].Obj? && r.value.1.body.elems[i].fields in table.Values)
  {
  }

  /** GET never changes the table, and answers 404 for an id it does not
      hold. */
  lemma GetUnknownIs404(table: Table, productId: Value, body: Value, env: Env)
    requires Python.Truthy(productId) && productId !in table && TableFailure(env).None?
    ensures Route(table, Str("GET"), productId, body, env) ==
      Some((table, Reply(404, ErrorBody("Product not found"))))
  {
  }

  /** PUT checks, in order: a path id, an unchanged `product_id`, the field
      types, a non-empty body; each failure is a 400 that leaves the table
      as it was. */
  lemma PutCheckOrder(table: Table, productId: Value, body: Value, env: Env)
    requires body.Obj?
    ensures var r := Route(table, Str("PUT"), productId, body, env);
      var changesId := HasKey(body.fields, "product_id") && Find(body.fields, "product_id").value != productId;
      var errors := ValidateProductData(body, false).value;
      && (!Python.Truthy(productId) ==>
            r == Some((table, Reply(400, ErrorBody("Missing product_id in path")))))
      && (Python.Truthy(productId) && changesId ==>
            r == Some((table, Reply(400, ErrorBody("Cannot change product_id")))))
      && (Python.Truthy(productId) && !changesId && errors != [] ==>
            r == Some((table, Reply(400, ErrorsBody(errors)))))
      && (Python.Truthy(productId) && !changesId && errors == [] && body.fields == [] ==>
            r == Some((table, Reply(400, ErrorBody("No fields to update")))))
  {
    RoutesPut(table, productId, body, env);
  }

  /** Only a PUT that passes all its checks can raise, and only by meeting a
      table failure other than a `ClientError`. */
  lemma PutRaisesOnlyAfterChecks(table: Table, productId: Value, body: Value, env: Env)
    requires body.Obj?
    ensures var r := Route(table, Str("PUT"), productId, body, env);
      r.None? ==>
        && Python.Truthy(productId)
        && (!HasKey(body.fields, "product_id") || Find(body.fields, "product_id").value == productId)
        && ValidateProductData(body, false).value == [] && body.fields != []
        && TableFailure(env) == Some(OtherError)
  {
    RoutesPut(table, productId, body, env);
  }

  /** A successful PUT sets exactly the body's keys (in body order) on the
      item at the path id, creating it with just its key if it was absent;
      every other attribute and every other item is unchanged. */
  lemma PutSetsBodyKeys(table: Table, productId: Value, body: Value, env: Env)
    requires body.Obj? && DistinctKeys(body.fields)
    requires Python.Truthy(productId) && TableFailure(env).None? && body.fields != []
    requires !HasKey(body.fields, "product_id") || Find(body.fields, "product_id").value == productId
    requires ValidateProductData(body, false).value == []
    ensures var r := Route(table, Str("PUT"), productId, body, env);
      && r.Some? && r.value.1 == Reply(200, MessageBody("Product updated"))
      && r.value.0 == table[productId := PutAll(Existing(table, productId), body.fields)]
      && forall k :: Find(r.value.0[productId], k) ==
           if HasKey(body.fields, k) then Find(body.fields, k) else Find(Existing(table, productId), k)
  {
    PutUpdates(table, productId, body, env);
    forall k | true
      ensures Find(PutAll(Existing(table, productId), body.fields), k) ==
        if HasKey(body.fields, k) then Find(body.fields, k) else Find(Existing(table, productId), k)
    {
      PutAllFind(Existing(table, productId), body.fields, k);
    }
  }

  /** A PUT that passes its checks applies the body to the existing item. */
  lemma PutUpdates(table: Table, productId: Value, body: Value, env: Env)
    requires body.Obj? && DistinctKeys(body.fields)
    requires Python.Truthy(productId) && TableFailure(env).None? && body.fields != []
    requires !HasKey(body.fields, "product_id") || Find(body.fields, "product_id").value == productId
    requires ValidateProductData(body, false).value == []
    ensures Route(table, Str("PUT"), productId, body, env) ==
      Some((table[productId := PutAll(Existing(table, productId), body.fields)],
            Reply(200, MessageBody("Product updated"))))
  {
    UpdateSucceeds(table, productId, body, env);
    RoutesPut(table, productId, body, env);
  }

  /** PUT is dispatched to the update. */
  lemma RoutesPut(table: Table, productId: Value, body: Value, env: Env)
    ensures Route(table, Str("PUT"), productId, body, env) == Update(table, productId, body, env)
  {
    assert Str("PUT") != Str("POST") && Str("PUT") != Str("GET");
  }

  lemma UpdateSucceeds(table: Table, productId: Value, body: Value, env: Env)
    requires body.Obj? && DistinctKeys(body.fields)
    requires Python.Truthy(productId) && TableFailure(env).None? && body.fields != []
    requires !HasKey(body.fields, "product_id") || Find(body.fields, "product_id").value == productId
    requires ValidateProductData(body, false).value == []
    ensures Update(table, productId, body, env) ==
      Some((table[productId := PutAll(Existing(table, productId), body.fields)],
            Reply(200, MessageBody("Product updated"))))
  {
    UpdateIsPutAll(Existing(table, productId), body.fields);
    var hasId := HasKey(body.fields, "product_id");
    assert Python.Contains(body, "product_id") == Some(hasId);
    assert (if hasId then Python.GetItem(body, "product_id") else Some(productId)) == Some(productId);
    assert ValidateProductData(body, false) == Some([]);
    assert Python.Truthy(body);
  }

  /** DELETE with an id answers 200 whether or not the item existed, and the
      id is gone afterwards. */
  lemma DeleteIs200(table: Table, productId: Value, body: Value, env: Env)
    requires Python.Truthy(productId) && TableFailure(env).None?
    ensures var r := Route(table, Str("DELETE"), productId, body, env);
      && r == Some((table - {productId}, Reply(200, MessageBody("Product deleted"))))
      && productId !in r.value.0
  {
  }

  /** Any other method is answered 405 and changes nothing. */
  lemma UnmatchedIs405(table: Table, verb: Value, productId: Value, body: Value, env: Env)
    requires verb !in {Str("POST"), Str("GET"), Str("PUT"), Str("DELETE")}
    ensures Route(table, verb, productId, body, env) ==
      Some((table, Reply(405, ErrorBody("Method not allowed"))))
  {
  }

  /** A product created by POST is returned unchanged by a GET of its id. */
  lemma PostThenGet(table: Table, body: Value, env: Env, getBody: Value)
    requires body.Obj? && ValidateProductData(body, true).value == [] && TableFailure(env).None?
    requires Python.Truthy(Find(body.fields, "product_id").value)
    ensures var created := Route(table, Str("POST"), Null, body, env).value.0;
      var id := Find(body.fields, "product_id").value;
      Route(created, Str("GET"), id, getBody, env) == Some((created, Reply(200, body)))
  {
  }

  /** When the table calls fail other than with a `ClientError` (as every
      call does with an empty table name), a request
      that reaches the table raises, so nothing is stored and the only
      answers are the 400s and the 405 given before any table call. */
  lemma OtherFailureAnswersNothing(table: Table, verb: Value, productId: Value, body: Value, env: Env)
    requires TableFailure(env) == Some(OtherError)
    ensures var r := Route(table, verb, productId, body, env);
      r.Some? ==> r.value.0 == table && r.value.1.statusCode in {400, 405}
  {
    if verb == Str("POST") {
      CreateAfterOtherFailure(table, body, env);
    } else if verb == Str("PUT") {
      RoutesPut(table, productId, body, env);
      UpdateAfterOtherFailure(table, productId, body, env);
    }
  }

  lemma CreateAfterOtherFailure(table: Table, body: Value, env: Env)
    requires TableFailure(env) == Some(OtherError)
    ensures var r := Create(table, body, env);
      r.Some? ==> r.value.0 == table && r.value.1.statusCode == 400
  {
  }

  lemma UpdateAfterOtherFailure(table: Table, productId: Value, body: Value, env: Env)
    requires TableFailure(env) == Some(OtherError)
    ensures var r := Update(table, productId, body, env);
      r.Some? ==> r.value.0 == table && r.value.1.statusCode == 400
  {
  }

  /** With the published empty table name the handler never changes the
      table and never answers 2xx, 404 or 500: every request that reaches
      the table raises. */
  lemma PublishedTableAnswersNothing(table: Table, event: Value, env: Env)
    requires env.tableName == PublishedTable
    ensures Handle(table, event, env).0 == table
    ensures Handle(table, event, env).1.Responded? ==>
              Handle(table, event, env).1.response.statusCode in {400, 405}
  {
    match ReadRequest(event, env.loads)
    case None =>
    case Some(req) =>
      if req.body.Some? {
        OtherFailureAnswersNothing(table, req.verb, req.productId, req.body.value, env);
      }
  }

  /** A product whose `product_id` is the empty string passes validation, but
      DynamoDB refuses the empty key: the POST is answered 500 and nothing is
      stored. */
  lemma EmptyKeyPostRefused(table: Table, env: Env)
    requires TableFailure(env).None?
    ensures var body := EmptyKeyProduct();
      && ValidateProductData(body, true) == Some([])
      && Route(table, Str("POST"), Null, body, env) == Some((table, Reply(500, ErrorBody(EmptyKeyMessage))))
  {
    var body := EmptyKeyProduct();
    EmptyKeyProductValidates();
    assert Find(body.fields, "product_id") == Some(Str(""));
    PostStoresIffValid(table, Null, body, env);
  }

  /** A product with a fractional price is stored: its price is parsed as a
      `Decimal`, which boto3 writes, so the POST is answered 201. */
  lemma FractionalPricePostCreated(table: Table, env: Env)
    requires TableFailure(env).None?
    ensures var body := PenProduct();
      var r := Route(table, Str("POST"), Null, body, env);
      && r.Some? && r.value.1.statusCode == 201
      && r.value.0 == table[Str("p1") := body.fields]
  {
    var body := PenProduct();
    var fs := body.fields;
    assert forall k :: 0 <= k < |Schema| ==> fs[k].0 == Schema[k].0 && Schema[k].1.Accepts(fs[k].1);
    SchemaOrderValidates(fs);
    assert Find(fs, "product_id") == Some(Str("p1"));
    PostStoresIffValid(table, Null, body, env);
  }

  /** `{"product_id": "p1", "name": "Pen", "price": 1.5, "currency": "USD",
      "in_stock": true}` */
  function PenProduct(): Value {
    Obj([("product_id", Str("p1")), ("name", Str("Pen")), ("price", Float(1.5)),
         ("currency", Str("USD")), ("in_stock", Bool(true))])
  }

  /** `{"product_id": "", "name": "n", "price": 1, "currency": "USD",
      "in_stock": true}` */
  function EmptyKeyProduct(): Value {
    Obj([("product_id", Str("")), ("name", Str("n")), ("price", Int(1)),
         ("currency", Str("USD")), ("in_stock", Bool(true))])
  }

  /** The empty string is a `str`, so that product passes validation. */
  lemma EmptyKeyProductValidates()
    ensures ValidateProductData(EmptyKeyProduct(), true) == Some([])
  {
    var fs := EmptyKeyProduct().fields;
    assert forall k :: 0 <= k < |Schema| ==> fs[k].0 == Schema[k].0 && Schema[k].1.Accepts(fs[k].1);
    SchemaOrderValidates(fs);
  }

  /** Fields laid out in schema order, each of its kind, pass validation with
      every field required. */
  lemma SchemaOrderValidates(fs: Fields)
    requires |Schema| <= |fs|
    requires forall k :: 0 <= k < |Schema| ==> fs[k].0 == Schema[k].0 && Schema[k].1.Accepts(fs[k].1)
    ensures ValidateProductData(Obj(fs), true) == Some([])
  {
    ValidatesExactly(Obj(fs), true);
    forall j | 0 <= j < |Schema| ensures Satisfied(fs, true, j) {
      SchemaOrderFind(fs, j);
    }
  }

  /** In fields laid out in schema order, each schema key reads its own
      position's value. */
  lemma SchemaOrderFind(fs: Fields, i: nat)
    requires i < |Schema| <= |fs|
    requires forall k :: 0 <= k < |Schema| ==> fs[k].0 == Schema[k].0
    ensures Find(fs, Schema[i].0) == Some(fs[i].1)
  {
    forall j | 0 <= j < i ensures fs[j].0 != fs[i].0 {
      RankOf(i);
      RankOf(j);
    }
    FindAt(fs, i);
  }
}
