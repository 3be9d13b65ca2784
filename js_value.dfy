/**
 * The untyped JavaScript values the store and its error helpers inspect:
 * thrown values, error instances, response bodies and the objects handed
 * to the shape validator. Only the parts of JavaScript's value semantics
 * that the modelled code relies on are kept: `typeof`, truthiness and
 * property reads on plain objects.
 */
module JsValues {

  /** A JavaScript value. Numbers are rationals plus `NaN`; an object is its
      map of the properties a read can see; a function carries
      nothing the model looks at. */
  datatype JsValue =
    | Undefined
    | Null
    | Bool(b: bool)
    | Num(x: real)
    | NaN
    | Str(s: string)
    | Arr(elems: seq<JsValue>)
    | Obj(props: map<string, JsValue>)
    | Func

  /** The string JavaScript's `typeof` operator yields. */
  function TypeOf(v: JsValue): (t: string)
    ensures t == "object" <==> v.Null? || v.Arr? || v.Obj?
    ensures t == "number" <==> v.Num? || v.NaN?
  {
    match v
    case Undefined => "undefined"
    case Null => "object"
    case Bool(_) => "boolean"
    case Num(_) => "number"
    case NaN => "number"
    case Str(_) => "string"
    case Arr(_) => "object"
    case Obj(_) => "object"
    case Func => "function"
  }

  /** JavaScript's `!!v`: false exactly for `undefined`, `null`, `false`,
      `0`, `NaN` and the empty string. */
  predicate Truthy(v: JsValue) {
    match v
    case Undefined => false
    case Null => false
    case Bool(b) => b
    case Num(x) => x != 0.0
    case NaN => false
    case Str(s) => s != ""
    case Arr(_) => true
    case Obj(_) => true
    case Func => true
  }

  /** Property read `v.name`. A missing property reads as `undefined`;
      properties of non-object values (string `length` and the like) are
      never read by the modelled code and read as `undefined` here. */
  function Get(v: JsValue, name: string): JsValue {
    if v.Obj? && name in v.props then v.props[name] else Undefined
  }
}
