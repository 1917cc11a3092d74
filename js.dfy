/**
 * The JavaScript values this program inspects, and the few language
 * operations it applies to them: truthiness (`!!x`), `typeof`, the `in`
 * operator, property access, lodash `get`, and `new Error(message)`.
 */
module Js {

  /**
   * A JavaScript value. `Object.props` holds the keys the `in` operator finds
   * on the object (own or inherited) that this program asks about; a parsed
   * JSON body has only own keys, and an `Error` instance has `message`.
   * NaN and the infinities are not represented: a parsed JSON body cannot
   * hold them.
   */
  datatype Value =
    | Undefined
    | Null
    | Boolean(b: bool)
    | Number(n: real)
    | BigInt(i: int)
    | Str(s: string)
    | Symbol
    | Function
    | Array(items: seq<Value>)
    | Object(props: map<string, Value>)

  /** The outcome of a block that may throw: the value it returned, or the value it threw. */
  datatype Try<+T> = Returned(value: T) | Threw(thrown: Value)

  /** `!!v`: false exactly for `undefined`, `null`, `false`, `0`, `0n` and `""`. */
  predicate Truthy(v: Value) {
    match v
    case Undefined => false
    case Null => false
    case Boolean(b) => b
    case Number(n) => n != 0.0
    case BigInt(i) => i != 0
    case Str(s) => s != ""
    case Symbol => true
    case Function => true
    case Array(_) => true
    case Object(_) => true
  }

  /** `typeof v`. */
  function TypeOf(v: Value): string {
    match v
    case Undefined => "undefined"
    case Null => "object"
    case Boolean(_) => "boolean"
    case Number(_) => "number"
    case BigInt(_) => "bigint"
    case Str(_) => "string"
    case Symbol => "symbol"
    case Function => "function"
    case Array(_) => "object"
    case Object(_) => "object"
  }

  /** `new Error(message)`: an object whose `message` is that string. */
  function NewError(message: string): Value {
    Object(map["name" := Str("Error"), "message" := Str(message)])
  }

  /** The `TypeError` that `key in v` throws when `v` is not an object. */
  const InOperatorTypeError: Value :=
    Object(map["name" := Str("TypeError"), "message" := Str("Cannot use 'in' operator to search for a key in a non-object")])

  /**
   * `key in v`. It throws a `TypeError` on a primitive. Arrays and functions
   * are objects, but none of the keys this program asks about (`token`,
   * `status`, `path`, `total_distance`, `total_time`, `suggestions`, `routes`,
   * `message`) is an index, `length`, `name` or a prototype member, so they
   * report false.
   */
  function In(key: string, v: Value): (r: Try<bool>)
    ensures r.Threw? <==> !(v.Object? || v.Array? || v.Function?)
    ensures r == Returned(true) <==> v.Object? && key in v.props
  {
    match v
    case Object(props) => Returned(key in props)
    case Array(_) => Returned(false)
    case Function => Returned(false)
    case _ => Threw(InOperatorTypeError)
  }

  /**
   * `v[key]` where it cannot throw: the property of an object, `undefined`
   * on anything else (strings, arrays and functions carry none of the keys
   * asked about; `null`/`undefined` are never reached without a guard).
   */
  function Get(v: Value, key: string): Value {
    if v.Object? && key in v.props then v.props[key] else Undefined
  }

  /**
   * The walk lodash `get` makes along keys it has already split: each key
   * in turn, yielding `undefined` once it meets `null` or `undefined`.
   * Wherever the walk reaches a defined value, the plain property chain
   * `v.k1.k2…` reaches the same value without throwing; wherever the chain
   * does not throw, it reaches what the walk does.
   */
  function GetPath(v: Value, path: seq<string>): (r: Value)
    ensures r != Undefined ==> MemberPath(v, path) == Returned(r)
    ensures MemberPath(v, path).Returned? ==> MemberPath(v, path).value == r
    decreases |path|
  {
    if path == [] then v
    else if v.Undefined? || v.Null? then Undefined
    else GetPath(Get(v, path[0]), path[1..])
  }

  /** The `TypeError` a property access on `null` or `undefined` throws. */
  const PropertyTypeError: Value :=
    Object(map["name" := Str("TypeError"), "message" := Str("Cannot read properties of undefined")])

  /** The plain property access `v.key`: a `TypeError` on `null` or `undefined`, `Get` otherwise. */
  function Member(v: Value, key: string): (r: Try<Value>)
    ensures r.Threw? <==> v.Undefined? || v.Null?
    ensures r.Returned? ==> r.value == Get(v, key)
  {
    if v.Undefined? || v.Null? then Threw(PropertyTypeError) else Returned(Get(v, key))
  }

  /** The plain property chain `v.k1.k2…`, which throws at the first `null` or `undefined` it reads through. */
  function MemberPath(v: Value, path: seq<string>): Try<Value>
    decreases |path|
  {
    if path == [] then Returned(v)
    else
      match Member(v, path[0])
      case Threw(e) => Threw(e)
      case Returned(w) => MemberPath(w, path[1..])
  }

  /** The lodash path string: the keys joined by ".". */
  function DottedPath(path: seq<string>): string
    requires path != []
    decreases |path|
  {
    if |path| == 1 then path[0] else path[0] + "." + DottedPath(path[1..])
  }

  /**
   * lodash `get(v, DottedPath(path))`. lodash first asks whether the whole
   * dotted string is itself a key of `v` and, if so, reads that property;
   * only otherwise does it split the string and walk the keys.
   */
  function LodashGet(v: Value, path: seq<string>): Value
    requires path != []
  {
    if v.Object? && DottedPath(path) in v.props then v.props[DottedPath(path)] else GetPath(v, path)
  }

  /** On an object none of whose keys holds a ".", lodash `get` of a path of several keys is the walk along them. */
  lemma LodashGetPlainKeys(v: Value, path: seq<string>)
    requires |path| >= 2
    requires v.Object? ==> forall k :: k in v.props ==> '.' !in k
    ensures LodashGet(v, path) == GetPath(v, path)
  {
    var dotted := DottedPath(path);
    assert dotted == path[0] + "." + DottedPath(path[1..]);
    assert dotted[|path[0]|] == '.';
  }

  /** The object `v` has the key, and its value is a string. */
  predicate HasStringField(v: Value, key: string) {
    v.Object? && key in v.props && v.props[key].Str?
  }

  /** The object `v` has the key, and its value is an array. */
  predicate HasArrayField(v: Value, key: string) {
    v.Object? && key in v.props && v.props[key].Array?
  }

  /** The object `v` has the key, and its value is a number. */
  predicate HasNumberField(v: Value, key: string) {
    v.Object? && key in v.props && v.props[key].Number?
  }

  /** The decimal text of a natural number, as a template literal prints it. */
  function NatToString(n: nat): (s: string)
    ensures |s| >= 1
    ensures forall i :: 0 <= i < |s| ==> '0' <= s[i] <= '9'
    decreases n
  {
    var digit := ['0' + (n % 10) as char];
    if n < 10 then digit else NatToString(n / 10) + digit
  }
}
