/** Failure-compatible optional values, used for lookups that may miss and for
    computations that the handlers abort with an exception. */
module Wrappers {

  datatype Option<+T> = None | Some(value: T) {

    /** True if is None */
    predicate IsFailure() {
      None?
    }

    function PropagateFailure<U>(): Option<U>
      requires None?
    {
      None
    }

    function Extract(): T
      requires Some?
    {
      value
    }

    /** The encapsulated value, or `default` for None */
    function GetOr(default: T): T {
      match this
      case Some(v) => v
      case None => default
    }
  }
}

/** String helpers: decimal rendering of naturals (Python f-strings, JavaScript
    index keys), substring search (Python `in` on `str`) and ASCII upper-casing
    (Python `str.upper`). */
module Text {

  function DigitChar(d: nat): (c: char)
    requires d < 10
    ensures '0' <= c <= '9'
  {
    ('0' as int + d) as char
  }

  /** The value of a decimal digit. */
  function DigitValue(c: char): int {
    c as int - '0' as int
  }

  /** The value of a string of decimal digits, most significant first. */
  function DigitsValue(s: string): int {
    if |s| == 0 then 0 else DigitsValue(s[..|s| - 1]) * 10 + DigitValue(s[|s| - 1])
  }

  /** Decimal rendering of `n`, as `str(n)` and `String(n)` produce it. */
  function NatToString(n: nat): (s: string)
    ensures 1 <= |s|
    ensures forall i :: 0 <= i < |s| ==> '0' <= s[i] <= '9'
    ensures n < 10 <==> |s| == 1
  {
    if n < 10 then [DigitChar(n)] else NatToString(n / 10) + [DigitChar(n % 10)]
  }

  /** Reading back the rendering of `n` gives `n`. */
  lemma {:induction false} NatToStringValue(n: nat)
    ensures DigitsValue(NatToString(n)) == n
  {
    var s := NatToString(n);
    if n >= 10 {
      NatToStringValue(n / 10);
      assert s[..|s| - 1] == NatToString(n / 10);
    }
  }

  /** Different naturals render differently. */
  lemma NatToStringInjective(m: nat, n: nat)
    ensures NatToString(m) == NatToString(n) ==> m == n
  {
    NatToStringValue(m);
    NatToStringValue(n);
  }

  predicate IsPrefix(p: string, s: string) {
    |p| <= |s| && s[..|p|] == p
  }

  /** `p in s` for Python strings: `p` occurs somewhere in `s`. */
  predicate IsSubstring(p: string, s: string)
    decreases |s|
  {
    IsPrefix(p, s) || (0 < |s| && IsSubstring(p, s[1..]))
  }

  function UpperChar(c: char): char {
    if 'a' <= c <= 'z' then (c as int - 32) as char else c
  }

  /** `s.upper()` restricted to ASCII letters. */
  function Upper(s: string): (u: string)
    ensures |u| == |s|
    ensures forall i :: 0 <= i < |s| ==> u[i] == UpperChar(s[i])
  {
    if |s| == 0 then [] else [UpperChar(s[0])] + Upper(s[1..])
  }
}

/** JSON-shaped dynamic values, the common currency of every handler: request
    bodies, queue messages, event details, stored records. Objects keep their
    key order, which is observable in serialised output and in the order
    updates are applied. */
module Json {
  import opened Wrappers

  type Fields = seq<(string, Value)>

  datatype Value =
    | Null
    | Bool(b: bool)
    | Int(i: int)
    /** A number with a fractional part (Python `float`/`Decimal`); only its
        value matters for comparisons, no floating-point arithmetic is modelled. */
    | Float(r: real)
    | Str(s: string)
    | Arr(elems: seq<Value>)
    | Obj(fields: Fields)

  /** `k` is bound in `fs`. */
  predicate HasKey(fs: Fields, k: string)
    decreases |fs|
  {
    0 < |fs| && (fs[0].0 == k || HasKey(fs[1..], k))
  }

  lemma {:induction false} HasKeyIndex(fs: Fields, k: string)
    ensures HasKey(fs, k) <==> exists i :: 0 <= i < |fs| && fs[i].0 == k
    decreases |fs|
  {
    if 0 < |fs| {
      HasKeyIndex(fs[1..], k);
      if HasKey(fs[1..], k) {
        var i :| 0 <= i < |fs[1..]| && fs[1..][i].0 == k;
        assert fs[i + 1].0 == k;
      }
      if fs[0].0 != k && exists i :: 0 <= i < |fs| && fs[i].0 == k {
        var i :| 0 <= i < |fs| && fs[i].0 == k;
        assert fs[1..][i - 1].0 == k;
      }
    }
  }

  /** Objects as parsers produce them: no key bound twice. */
  predicate DistinctKeys(fs: Fields) {
    forall i, j :: 0 <= i < j < |fs| ==> fs[i].0 != fs[j].0
  }

  /** The value bound to `k`, reading the first binding. */
  function Find(fs: Fields, k: string): (r: Option<Value>)
    ensures r.Some? <==> HasKey(fs, k)
    ensures r.Some? ==> (k, r.value) in fs
    decreases |fs|
  {
    if |fs| == 0 then None
    else if fs[0].0 == k then Some(fs[0].1)
    else Find(fs[1..], k)
  }

  /** In an object with distinct keys, each key reads the value bound to it. */
  lemma {:induction false} FindDistinct(fs: Fields, i: nat)
    requires DistinctKeys(fs) && i < |fs|
    ensures Find(fs, fs[i].0) == Some(fs[i].1)
    decreases i
  {
    if i > 0 {
      assert DistinctKeys(fs[1..]);
      assert fs[1..][i - 1] == fs[i];
      FindDistinct(fs[1..], i - 1);
    }
  }

  /** A key reads the value of its first binding. */
  lemma {:induction false} FindAt(fs: Fields, i: nat)
    requires i < |fs|
    requires forall j :: 0 <= j < i ==> fs[j].0 != fs[i].0
    ensures Find(fs, fs[i].0) == Some(fs[i].1)
    decreases i
  {
    if i > 0 {
      assert fs[1..][i - 1] == fs[i];
      FindAt(fs[1..], i - 1);
    }
  }

  /** Binds `k` to `v`: an existing binding is overwritten where it stands, a new
      one goes last — dictionary assignment in Python and a property in an
      object literal after a spread in JavaScript. */
  function Put(fs: Fields, k: string, v: Value): (r: Fields)
    ensures Find(r, k) == Some(v)
    ensures forall k' :: k' != k ==> Find(r, k') == Find(fs, k')
    ensures |r| == if HasKey(fs, k) then |fs| else |fs| + 1
    ensures forall i :: 0 <= i < |fs| ==> r[i].0 == fs[i].0
    ensures !HasKey(fs, k) ==> r[|fs|] == (k, v)
    decreases |fs|
  {
    if |fs| == 0 then [(k, v)]
    else if fs[0].0 == k then [(k, v)] + fs[1..]
    else
      var rest := Put(fs[1..], k, v);
      assert ([fs[0]] + rest)[1..] == rest;
      [fs[0]] + rest
  }

  /** Applies the bindings of `us` to `fs`, one `Put` at a time, in order. */
  function PutAll(fs: Fields, us: Fields): Fields
    decreases |us|
  {
    if |us| == 0 then fs else PutAll(Put(fs, us[0].0, us[0].1), us[1..])
  }

  /** Setting a key twice to the same value is the same as setting it once. */
  lemma {:induction false} PutIdempotent(fs: Fields, k: string, v: Value)
    ensures Put(Put(fs, k, v), k, v) == Put(fs, k, v)
    decreases |fs|
  {
    if |fs| == 0 {
    } else if fs[0].0 == k {
      assert Put(fs, k, v)[1..] == fs[1..];
    } else {
      var rest := Put(fs[1..], k, v);
      assert ([fs[0]] + rest)[1..] == rest;
      PutIdempotent(fs[1..], k, v);
    }
  }

  /** Overwriting preserves distinct keys. */
  lemma PutKeepsDistinct(fs: Fields, k: string, v: Value)
    requires DistinctKeys(fs)
    ensures DistinctKeys(Put(fs, k, v))
  {
    var r := Put(fs, k, v);
    HasKeyIndex(fs, k);
    forall i, j | 0 <= i < j < |r|
      ensures r[i].0 != r[j].0
    {
      if j == |fs| {
        assert fs[i].0 == r[i].0;
      }
    }
  }

  lemma DistinctHead(us: Fields)
    requires DistinctKeys(us) && 0 < |us|
    ensures !HasKey(us[1..], us[0].0)
  {
    HasKeyIndex(us[1..], us[0].0);
    forall j | 0 <= j < |us[1..]|
      ensures us[1..][j].0 != us[0].0
    {
      assert us[1..][j] == us[j + 1];
    }
  }

  /** After `PutAll`, a key bound in the (duplicate-free) update reads its
      update value, and every other key reads as before. */
  lemma {:induction false} PutAllFind(fs: Fields, us: Fields, k: string)
    requires DistinctKeys(us)
    ensures Find(PutAll(fs, us), k) == if HasKey(us, k) then Find(us, k) else Find(fs, k)
    decreases |us|
  {
    if |us| > 0 {
      var fs' := Put(fs, us[0].0, us[0].1);
      assert DistinctKeys(us[1..]);
      PutAllFind(fs', us[1..], k);
      if us[0].0 == k {
        DistinctHead(us);
      }
    }
  }

  /** `PutAll` keeps the existing keys in place and binds exactly the keys of
      the object and of the update. */
  lemma {:induction false} PutAllKeys(fs: Fields, us: Fields)
    ensures forall k :: HasKey(PutAll(fs, us), k) <==> HasKey(fs, k) || HasKey(us, k)
    ensures |fs| <= |PutAll(fs, us)|
    ensures forall i :: 0 <= i < |fs| ==> PutAll(fs, us)[i].0 == fs[i].0
    decreases |us|
  {
    if |us| > 0 {
      var fs' := Put(fs, us[0].0, us[0].1);
      PutAllKeys(fs', us[1..]);
      forall k
        ensures HasKey(fs', k) <==> HasKey(fs, k) || k == us[0].0
      {
        assert Find(fs', k).Some? <==> HasKey(fs', k);
      }
    }
  }
}

/** The parts of Python's semantics the Python handlers depend on. `None`
    results stand for the exception Python raises (TypeError, KeyError,
    AttributeError); the handlers never catch these. */
module Python {
  import opened Wrappers
  import opened Json
  import Text

  /** `bool(v)` */
  predicate Truthy(v: Value) {
    match v
    case Null => false
    case Bool(b) => b
    case Int(i) => i != 0
    case Float(r) => r != 0.0
    case Str(s) => s != ""
    case Arr(xs) => xs != []
    case Obj(fs) => fs != []
  }

  /** `isinstance(v, int)`: `bool` is a subclass of `int`. */
  predicate IsInt(v: Value) {
    v.Int? || v.Bool?
  }

  function IntValue(v: Value): int
    requires IsInt(v)
  {
    if v.Int? then v.i else if v.b then 1 else 0
  }

  /** `key in container` with a string key; None when Python raises TypeError. */
  function Contains(container: Value, key: string): (r: Option<bool>)
    ensures r.Some? <==> container.Obj? || container.Arr? || container.Str?
    ensures container.Obj? ==> r == Some(HasKey(container.fields, key))
  {
    match container
    case Obj(fs) => Some(HasKey(fs, key))
    case Arr(xs) => Some(Str(key) in xs)
    case Str(s) => Some(Text.IsSubstring(key, s))
    case _ => None
  }

  /** `v[key]` with a string key; None for KeyError and TypeError. */
  function GetItem(v: Value, key: string): (r: Option<Value>)
    ensures r.Some? <==> v.Obj? && HasKey(v.fields, key)
  {
    if v.Obj? then Find(v.fields, key) else None
  }

  /** `v[k1][k2]...` along `path`; None when any step raises. */
  function GetPath(v: Value, path: seq<string>): (r: Option<Value>)
    ensures |path| == 0 ==> r == Some(v)
    decreases |path|
  {
    if |path| == 0 then Some(v)
    else match GetItem(v, path[0])
      case None => None
      case Some(w) => GetPath(w, path[1..])
  }

  lemma GetPathTwo(v: Value, a: string, b: string)
    ensures GetPath(v, [a, b]) ==
      match GetItem(v, a)
      case None => None
      case Some(w) => GetItem(w, b)
  {
    assert [a, b][1..] == [b];
    assert [b][1..] == [];
  }

  lemma GetPathThree(v: Value, a: string, b: string, c: string)
    ensures GetPath(v, [a, b, c]) ==
      match GetItem(v, a)
      case None => None
      case Some(w) => GetPath(w, [b, c])
  {
    assert [a, b, c][1..] == [b, c];
  }

  /** `v.get(key, default)`; None when `v` has no `get` (AttributeError). */
  function Get(v: Value, key: string, default: Value): (r: Option<Value>)
    ensures r.Some? <==> v.Obj?
    ensures v.Obj? && !HasKey(v.fields, key) ==> r == Some(default)
  {
    if v.Obj? then Some(Find(v.fields, key).GetOr(default)) else None
  }

  /** The values a `for` loop over `v` visits: list elements, dict keys, the
      one-character strings of a str; None when `v` is not iterable. */
  function Iterate(v: Value): (r: Option<seq<Value>>)
    ensures v.Arr? ==> r == Some(v.elems)
    ensures r.Some? <==> v.Arr? || v.Obj? || v.Str?
  {
    match v
    case Arr(xs) => Some(xs)
    case Obj(fs) => Some(seq(|fs|, i requires 0 <= i < |fs| => Str(fs[i].0)))
    case Str(s) => Some(seq(|s|, i requires 0 <= i < |s| => Str([s[i]])))
    case _ => None
  }

  /** `5 < v` for a JSON value; None when the comparison raises TypeError. */
  function IntLess(n: int, v: Value): (r: Option<bool>)
    ensures r.Some? <==> v.Int? || v.Bool? || v.Float?
    ensures v.Int? ==> r == Some(n < v.i)
  {
    match v
    case Int(i) => Some(n < i)
    case Bool(b) => Some(n < if b then 1 else 0)
    case Float(x) => Some(n as real < x)
    case _ => None
  }
}

/** The parts of JavaScript's semantics the Node.js handlers depend on:
    property reads (`None` is `undefined`), truthiness, object spread and the
    errors a handler throws. */
module JavaScript {
  import opened Wrappers
  import opened Json
  import Text

  /** `v.key` for a non-null `v`, for the named (non-index, non-`length`) keys
      the handlers read: only objects carry such properties. */
  function Prop(v: Value, key: string): (r: Option<Value>)
    ensures r.Some? <==> v.Obj? && HasKey(v.fields, key)
  {
    if v.Obj? then Find(v.fields, key) else None
  }

  /** `Boolean(x)`, `undefined` being None; objects and arrays are truthy even
      when empty. */
  predicate Truthy(x: Option<Value>) {
    match x
    case None => false
    case Some(v) =>
      match v
      case Null => false
      case Bool(b) => b
      case Int(i) => i != 0
      case Float(r) => r != 0.0
      case Str(s) => s != ""
      case Arr(_) => true
      case Obj(_) => true
  }

  /** The own enumerable properties `{...v}` copies: an object's bindings, the
      indexed characters of a string, the indexed elements of an array, and
      nothing for null, booleans and numbers. */
  function Spread(v: Value): (fs: Fields)
    ensures v.Obj? ==> fs == v.fields
  {
    match v
    case Obj(fs) => fs
    case Str(s) => seq(|s|, i requires 0 <= i < |s| => (Text.NatToString(i), Str([s[i]])))
    case Arr(xs) => seq(|xs|, i requires 0 <= i < |xs| => (Text.NatToString(i), xs[i]))
    case _ => []
  }

  /** `{...v, key: x}` */
  function With(v: Value, key: string, x: Value): (r: Value)
    ensures r.Obj?
    ensures Find(r.fields, key) == Some(x)
    ensures forall k :: k != key ==> Find(r.fields, k) == Find(Spread(v), k)
  {
    Obj(Put(Spread(v), key, x))
  }

  /** `event.Payload || event`: a Step Functions `Lambda Invoke` state may
      arrive wrapped in `Payload`. (With `event?.Payload` a null event gives
      null instead of a TypeError here; destructuring it then throws the same
      TypeError, so one definition serves both spellings.) */
  function Unwrap(event: Value): Value {
    if Truthy(Prop(event, "Payload")) then Prop(event, "Payload").value else event
  }

  datatype JsError =
    | TypeError                  // e.g. destructuring `null`
    | Error(message: string)     // `throw new Error(message)`

  /** How a handler's promise settles. */
  datatype Completion = Returned(value: Value) | Threw(error: JsError)
}
