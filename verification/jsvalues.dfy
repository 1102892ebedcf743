/** JavaScript values as the Fathom servers see them: parsed JSON bodies plus
    `undefined`, the truthiness that every `||` fallback chain relies on, the
    property reads that throw on `null`/`undefined`, and the exceptions a tool
    handler's `try` block can catch.  Numbers are modelled as integers. */
module JsValues {

  datatype Option<+T> = None | Some(value: T)

  datatype Json =
    | Undefined
    | Null
    | Bool(b: bool)
    | Num(n: int)
    | Str(s: string)
    | Arr(items: seq<Json>)
    | Obj(fields: seq<(string, Json)>)

  /** `v === undefined || v === null` */
  predicate Nullish(v: Json) {
    v.Undefined? || v.Null?
  }

  /** An optional string argument as a JavaScript value. */
  function OptString(o: Option<string>): (r: Json)
    ensures Truthy(r) <==> o.Some? && o.value != ""
  {
    match o
    case Some(s) => Str(s)
    case None => Undefined
  }

  /** JavaScript truthiness: `undefined`, `null`, `false`, `0` and `""` are
      falsy; every array and object, even an empty one, is truthy. */
  predicate Truthy(v: Json) {
    match v
    case Undefined => false
    case Null => false
    case Bool(b) => b
    case Num(n) => n != 0
    case Str(s) => s != ""
    case Arr(_) => true
    case Obj(_) => true
  }

  /** JavaScript `a || b`: the left operand when it is truthy, else the right one. */
  function Or(a: Json, b: Json): (r: Json)
    ensures r == a || r == b
    ensures Truthy(r) <==> Truthy(a) || Truthy(b)
    ensures Truthy(a) ==> r == a
  {
    if Truthy(a) then a else b
  }

  /** The value stored under `k`.  `JSON.parse` keeps the last of several
      entries with the same key, so the search runs from the end. */
  function Lookup(fields: seq<(string, Json)>, k: string): (r: Json)
    ensures (forall i | 0 <= i < |fields| :: fields[i].0 != k) ==> r == Undefined
    ensures r != Undefined ==> exists i | 0 <= i < |fields| :: fields[i] == (k, r)
    decreases |fields|
  {
    if fields == [] then Undefined
    else if fields[|fields| - 1].0 == k then fields[|fields| - 1].1
    else Lookup(fields[..|fields| - 1], k)
  }

  /** The lookup of a key whose last entry sits at index `i`. */
  lemma {:induction false} LookupAt(fields: seq<(string, Json)>, i: int)
    requires 0 <= i < |fields|
    requires forall j | i < j < |fields| :: fields[j].0 != fields[i].0
    ensures Lookup(fields, fields[i].0) == fields[i].1
    decreases |fields|
  {
    if i < |fields| - 1 {
      var init := fields[..|fields| - 1];
      assert init[i] == fields[i];
      LookupAt(init, i);
    }
  }

  /** `v[k]` on a value that is not `null`/`undefined`: only objects carry the
      keys this system reads; strings, numbers, booleans and arrays yield
      `undefined` for them. */
  function Member(v: Json, k: string): Json {
    match v
    case Obj(fields) => Lookup(fields, k)
    case _ => Undefined
  }

  /** Whether `k` is an own key of the object `v`. */
  predicate HasKey(v: Json, k: string) {
    v.Obj? && exists i | 0 <= i < |v.fields| :: v.fields[i].0 == k
  }

  /** `v?.[0]`: `undefined` when `v` is nullish, else the element or
      character at index 0, or the object's entry under "0". */
  function OptFirst(v: Json): (r: Json)
    ensures Nullish(v) ==> r == Undefined
    ensures v.Arr? ==> r == (if |v.items| > 0 then v.items[0] else Undefined)
  {
    match v
    case Arr(xs) => if |xs| > 0 then xs[0] else Undefined
    case Obj(fields) => Lookup(fields, "0")
    case Str(s) => if |s| > 0 then Str([s[0]]) else Undefined
    case _ => Undefined
  }

  /** `v?.k` */
  function OptMember(v: Json, k: string): (r: Json)
    ensures Nullish(v) ==> r == Undefined
    ensures !Nullish(v) ==> r == Member(v, k)
  {
    if Nullish(v) then Undefined else Member(v, k)
  }

  /** The two stringifiers the handlers use, left uninterpreted:
      `dump` is `JSON.stringify(v, null, 2)` and `show` is `String(v)` on a
      value that is not a string. */
  datatype Printer = Printer(dump: Json -> string, show: Json -> string)

  /** `String(v)` (and `${v}` in a template literal): a string is itself. */
  function ToStr(p: Printer, v: Json): (r: string)
    ensures v.Str? ==> r == v.s
  {
    if v.Str? then v.s else p.show(v)
  }

  /** What a handler's `catch (err)` can receive. */
  datatype Exception =
    | ApiError(status: int, body: string)   // fathomFetch on a non-2xx reply
    | FetchRejected(reason: string)         // fetch() itself rejected
    | InvalidJson(reason: string)           // res.json() rejected
    | TypeError(reason: string)             // a read on null/undefined, a call of a non-function

  /** `err.message`.  An upstream failure reads `Fathom API <status>: <body>`:
      the fixed lead, then the reply body verbatim at the end; every other
      error carries its own reason as its message. */
  function Message(p: Printer, e: Exception): (r: string)
    ensures e.ApiError? ==> StartsWith(r, "Fathom API ")
    ensures e.ApiError? ==> |r| >= |"Fathom API "| + |e.body| + 2 && r[|r| - |e.body| - 2..] == ": " + e.body
    ensures !e.ApiError? ==> r == e.reason
  {
    match e
    case ApiError(status, body) => "Fathom API " + ToStr(p, Num(status)) + ": " + body
    case FetchRejected(reason) => reason
    case InvalidJson(reason) => reason
    case TypeError(reason) => reason
  }

  /** A computation that either yields a value or throws. */
  datatype Result<+T> = Ok(value: T) | Err(error: Exception) {
    predicate IsFailure() {
      Err?
    }

    function PropagateFailure<U>(): Result<U>
      requires Err?
    {
      Err(error)
    }

    function Extract(): T
      requires Ok?
    {
      value
    }
  }

  /** `v.k`: throws a TypeError when `v` is `null` or `undefined`. */
  function Read(v: Json, k: string): (r: Result<Json>)
    ensures r.Err? <==> Nullish(v)
    ensures r.Err? ==> r.error.TypeError?
    ensures r.Ok? ==> r.value == Member(v, k)
  {
    if Nullish(v) then
      Err(TypeError("Cannot read properties of " + (if v.Null? then "null" else "undefined")
                    + " (reading '" + k + "')"))
    else
      Ok(Member(v, k))
  }

  /** Whether `prefix` begins `s`. */
  predicate StartsWith(s: string, prefix: string) {
    |prefix| <= |s| && s[..|prefix|] == prefix
  }
}
