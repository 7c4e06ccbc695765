/**
 * A loosely typed JavaScript value: what `JSON.parse` or the row-format
 * decoder hands to the validator. Numbers are kept only as a tag with a
 * real payload, since nothing here computes with them.
 */
module JsValue {

  datatype Value =
    | Undefined
    | Null
    | Bool(b: bool)
    | Num(n: real)
    | Str(s: string)
    | Arr(items: seq<Value>)
    | Obj(props: map<string, Value>)

  /** The results of `typeof` that a JSON value can have. */
  datatype TypeTag = UndefinedType | ObjectType | BooleanType | NumberType | StringType

  /** `typeof v`: `null` and arrays are objects too. */
  function TypeOf(v: Value): TypeTag
  {
    match v
    case Undefined => UndefinedType
    case Null => ObjectType
    case Bool(_) => BooleanType
    case Num(_) => NumberType
    case Str(_) => StringType
    case Arr(_) => ObjectType
    case Obj(_) => ObjectType
  }

  /** JavaScript truthiness: `undefined`, `null`, `false`, `0` and `''` are falsy. */
  predicate IsTruthy(v: Value)
  {
    match v
    case Undefined => false
    case Null => false
    case Bool(b) => b
    case Num(n) => n != 0.0
    case Str(s) => s != []
    case Arr(_) => true
    case Obj(_) => true
  }

  /** Property access `v.key`: a missing property, or any property of a non-object, reads as `undefined`. */
  function Get(v: Value, key: string): (r: Value)
    ensures v.Obj? && key in v.props ==> r == v.props[key]
    ensures !(v.Obj? && key in v.props) ==> r == Undefined
  {
    if v.Obj? && key in v.props then v.props[key] else Undefined
  }

  /** The name of the accessor every plain object inherits from `Object.prototype`. */
  const ProtoKey: string := "__proto__"

  /** The assignment `obj[key] = s` of a string on a plain object: it creates or replaces an own property, except under `__proto__`, whose inherited setter ignores a value that is not an object. */
  function SetString(props: map<string, Value>, key: string, s: string): (r: map<string, Value>)
    ensures key != ProtoKey ==> r.Keys == props.Keys + {key} && r[key] == Str(s)
    ensures key == ProtoKey ==> r == props
    ensures forall k | k in props && k != key :: k in r && r[k] == props[k]
  {
    if key == ProtoKey then props else props[key := Str(s)]
  }

  /** An array of strings, as `string[]`. */
  function Strs(xs: seq<string>): (r: seq<Value>)
    ensures |r| == |xs| && forall i | 0 <= i < |xs| :: r[i] == Str(xs[i])
  {
    seq(|xs|, i requires 0 <= i < |xs| => Str(xs[i]))
  }
}
