/**
 * JSON-like values as the SDK moves them: the field values of an entity
 * (src/fields.ts) and the parsed bodies of API responses.
 */
module Json {

  /**
   * A field value: string, number, boolean, null, list or object, plus
   * JavaScript's `undefined`, which the field-value type admits and which a
   * property read yields for a missing key. Numbers are integers here.
   */
  datatype Value =
    | Null
    | Undefined
    | Bool(b: bool)
    | Num(n: int)
    | Str(s: string)
    | Arr(items: seq<Value>)
    | Obj(fields: map<string, Value>)

  /** JavaScript truthiness: what `if (v)` accepts. */
  predicate Truthy(v: Value)
  {
    match v
    case Null => false
    case Undefined => false
    case Bool(b) => b
    case Num(n) => n != 0
    case Str(s) => s != ""
    case Arr(_) => true
    case Obj(_) => true
  }
}
