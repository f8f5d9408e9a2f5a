/**
 * The JavaScript values the core inspects: attribute bags of layers, option bags
 * and the values passed to validators. `null`, NaN and functions are not modelled.
 */
module JsValues {
  datatype Value =
    | Undefined
    | Bool(b: bool)
    | Num(n: real)
    | Str(s: string)
    | Obj(fields: map<string, Value>)

  /** The answers of JavaScript's `typeof` for the values above. */
  datatype PrimitiveType = BooleanType | NumberType | ObjectType | StringType | UndefinedType

  function TypeOf(v: Value): PrimitiveType {
    match v
    case Undefined => UndefinedType
    case Bool(_) => BooleanType
    case Num(_) => NumberType
    case Str(_) => StringType
    case Obj(_) => ObjectType
  }

  /** The string `typeof` yields, which is also how a type is named in an error. */
  function TypeName(t: PrimitiveType): string {
    match t
    case BooleanType => "boolean"
    case NumberType => "number"
    case ObjectType => "object"
    case StringType => "string"
    case UndefinedType => "undefined"
  }

  /** Property read `m[k]`: a missing key reads as `undefined`. */
  function Get(m: map<string, Value>, k: string): Value {
    if k in m then m[k] else Undefined
  }

  /**
   * The own properties of a value when it is an object, and none otherwise. (Destructuring
   * `undefined` throws in JavaScript; this model reads it as having no properties.)
   */
  function Fields(v: Value): map<string, Value> {
    if v.Obj? then v.fields else map[]
  }
}
