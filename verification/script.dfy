/** Script values, the embedding runtime and the coercion helpers the
    adapters share.

    The JavaScript runtime and its helper package are not modelled: every
    runtime operation that can fail is a field of `Runtime`, a record of total
    functions that say, for each input, whether the operation fails and with
    which message. Property storage of objects is concrete (an ordered list of
    named properties), so that "an object whose `id` is n" and "the keys of an
    object, in order" have a meaning. */
module Script {
  import opened Results

  /** A dynamically typed script value. Arrays and host functions are
      objects, as in JavaScript. Numbers are exact reals rather than
      IEEE-754 doubles, so NaN, the infinities and negative zero do not
      occur. */
  datatype Value =
    | Undefined
    | Null
    | Number(x: real)
    | Str(s: string)
    | Bool(b: bool)
    | Obj(props: seq<Prop>)
    | Array(elems: seq<Value>)
    | HostFn(service: string, binding: string)

  /** One own enumerable property of an object, in insertion order. */
  datatype Prop = Prop(name: string, value: Value)

  /** A native (host-language) value handed to the runtime for conversion.
      Go's `int` and `int64` are told apart so that widening is visible;
      nested API records (region, image, size, networks, kernel) are opaque. */
  datatype Native =
    | NInt(i: int)
    | NInt64(i: int)
    | NString(s: string)
    | NBool(b: bool)
    | NInts(xs: seq<int>)
    | NStruct(typeName: string, repr: string)

  /** The runtime and the coercion helpers as possibly failing operations.
      `None` in a fault slot means the operation succeeds. */
  datatype Runtime = Runtime(
    objectFault: Option<string>,                 // building an empty object `({})`
    setFault: (string, Value) -> Option<string>, // setting a named property
    getFault: (Value, string) -> Option<string>, // reading a named property
    toValue: Native -> Result<Value>,            // converting a native value
    arrayFault: seq<Value> -> Option<string>,    // converting a slice of values to an array
    toInt: Value -> Result<int>,                 // integer coercion
    toStr: Value -> Result<string>,              // string coercion
    toBool: Value -> Result<bool>)               // boolean coercion

  /** The answer of one host-callable function: a value or an exception, and
      the calls it made on the API client, in order. */
  datatype Reply<C> = Reply(result: Result<Value>, calls: seq<C>)

  /** The zero value the adapters return when there is nothing to return;
      scripts see it as `undefined`. */
  const Empty: Value := Undefined

  /** Go's `%q` rendering of a field or method name; the names used here have
      no quotes, backslashes or control characters, so quoting adds the
      surrounding double quotes only. */
  function Quoted(s: string): string {
    "\"" + s + "\""
  }

  predicate IsObject(v: Value) {
    v.Obj? || v.Array? || v.HostFn?
  }

  function NamesOf(props: seq<Prop>): (names: seq<string>)
    ensures |names| == |props|
    ensures forall i :: 0 <= i < |props| ==> names[i] == props[i].name
  {
    seq(|props|, i requires 0 <= i < |props| => props[i].name)
  }

  function Digit(d: nat): char
    requires d < 10
  {
    "0123456789"[d]
  }

  /** Decimal spelling of an array index, the name of its property. */
  function Decimal(n: nat): string
    decreases n
  {
    if n < 10 then [Digit(n)] else Decimal(n / 10) + [Digit(n % 10)]
  }

  /** Own enumerable property names, in order. */
  function Keys(v: Value): seq<string> {
    match v
    case Obj(props) => NamesOf(props)
    case Array(elems) => seq(|elems|, i requires 0 <= i < |elems| => Decimal(i))
    case _ => []
  }

  function FindProp(props: seq<Prop>, k: string): Value {
    if |props| == 0 then Undefined
    else if props[0].name == k then props[0].value
    else FindProp(props[1..], k)
  }

  function FindIndex(elems: seq<Value>, k: string, from: nat): Value
    decreases |elems| - from
  {
    if from >= |elems| then Undefined
    else if Decimal(from) == k then elems[from]
    else FindIndex(elems, k, from + 1)
  }

  /** The value stored under `k`, or `undefined` when there is none. */
  function Lookup(v: Value, k: string): Value {
    match v
    case Obj(props) => FindProp(props, k)
    case Array(elems) => FindIndex(elems, k, 0)
    case _ => Undefined
  }

  /** Assignment to a property: an existing property keeps its position, a
      new one goes last. */
  function SetProp(props: seq<Prop>, k: string, v: Value): (r: seq<Prop>)
    ensures |r| == |props| || |r| == |props| + 1
  {
    if |props| == 0 then [Prop(k, v)]
    else if props[0].name == k then [Prop(k, v)] + props[1..]
    else [props[0]] + SetProp(props[1..], k, v)
  }

  /** Setting a property not yet present appends it and changes nothing else. */
  lemma {:induction false} SetFreshAppends(props: seq<Prop>, k: string, v: Value)
    requires k !in NamesOf(props)
    ensures SetProp(props, k, v) == props + [Prop(k, v)]
  {
    if |props| > 0 {
      assert props[0].name == NamesOf(props)[0];
      assert NamesOf(props[1..]) == NamesOf(props)[1..];
      SetFreshAppends(props[1..], k, v);
      assert props == [props[0]] + props[1..];
    }
  }

  /** In an object whose property names are distinct, looking up the name of
      the i-th property yields the i-th value. */
  lemma {:induction false} LookupDistinct(props: seq<Prop>, i: nat)
    requires Distinct(NamesOf(props))
    requires i < |props|
    ensures Lookup(Obj(props), props[i].name) == props[i].value
  {
    if i > 0 {
      assert NamesOf(props)[0] != NamesOf(props)[i];
      var tail := props[1..];
      assert NamesOf(tail) == NamesOf(props)[1..];
      LookupDistinct(tail, i - 1);
    }
  }

  /** Reading a named property of an object; the read itself may throw. */
  function GetObject(rt: Runtime, obj: Value, k: string): (r: Result<Value>)
    requires IsObject(obj)
    ensures rt.getFault(obj, k).None? <==> r == Ok(Lookup(obj, k))
    ensures rt.getFault(obj, k).Some? ==> r == Err(rt.getFault(obj, k).value)
  {
    match rt.getFault(obj, k)
    case Some(e) => Err(e)
    case None => Ok(Lookup(obj, k))
  }

  /** The integer held by property `k` of `obj`, through the integer coercion. */
  function IntField(rt: Runtime, obj: Value, k: string): (r: Result<int>)
    requires IsObject(obj)
    ensures r.Ok? ==> rt.getFault(obj, k).None? && rt.toInt(Lookup(obj, k)) == r
    ensures rt.getFault(obj, k).Some? ==> r == Err(rt.getFault(obj, k).value)
    ensures rt.getFault(obj, k).None? ==> r == rt.toInt(Lookup(obj, k))
  {
    var v :- GetObject(rt, obj, k);
    rt.toInt(v)
  }

  /** The string held by property `k` of `obj`, through the string coercion. */
  function StringField(rt: Runtime, obj: Value, k: string): (r: Result<string>)
    requires IsObject(obj)
    ensures r.Ok? ==> rt.getFault(obj, k).None? && rt.toStr(Lookup(obj, k)) == r
    ensures rt.getFault(obj, k).Some? ==> r == Err(rt.getFault(obj, k).value)
    ensures rt.getFault(obj, k).None? ==> r == rt.toStr(Lookup(obj, k))
  {
    var v :- GetObject(rt, obj, k);
    rt.toStr(v)
  }

  /** The boolean held by property `k` of `obj`, through the boolean coercion. */
  function BoolField(rt: Runtime, obj: Value, k: string): (r: Result<bool>)
    requires IsObject(obj)
    ensures r.Ok? ==> rt.getFault(obj, k).None? && rt.toBool(Lookup(obj, k)) == r
    ensures rt.getFault(obj, k).Some? ==> r == Err(rt.getFault(obj, k).value)
    ensures rt.getFault(obj, k).None? ==> r == rt.toBool(Lookup(obj, k))
  {
    var v :- GetObject(rt, obj, k);
    rt.toBool(v)
  }

  /** Shape dispatch for "a resource or its identifier": a bare number is the
      identifier, an object carries it in its `id` property, anything else
      throws `shapeError`. */
  function ResolveId(rt: Runtime, arg: Value, shapeError: string): (r: Result<int>)
    ensures !arg.Number? && !IsObject(arg) ==> r == Err(shapeError)
    ensures arg.Number? ==> r == rt.toInt(arg)
    ensures IsObject(arg) && rt.getFault(arg, "id").Some? ==> r == Err(rt.getFault(arg, "id").value)
    ensures IsObject(arg) && rt.getFault(arg, "id").None? ==> r == rt.toInt(Lookup(arg, "id"))
  {
    if arg.Number? then
      rt.toInt(arg)
    else if IsObject(arg) then
      IntField(rt, arg, "id")
    else
      Err(shapeError)
  }

  /** A bare number and an object whose `id` property holds that number
      resolve to the same identifier, or fail the same way. */
  lemma NumberAndObjectResolveAlike(rt: Runtime, x: real, o: Value, shapeError: string)
    requires IsObject(o)
    requires rt.getFault(o, "id").None?
    requires Lookup(o, "id") == Number(x)
    ensures ResolveId(rt, o, shapeError) == ResolveId(rt, Number(x), shapeError)
  {
  }
}
