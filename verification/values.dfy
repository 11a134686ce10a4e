/** The dynamically typed PHP values that sources, keys, schemas and filter configs are made of. */
module Values {

  /** A PHP array key: arrays are keyed by integers or strings. */
  datatype Key = IntKey(i: int) | StrKey(s: string)

  /**
   * A PHP value. An array is an ordered list of key/value entries (a PHP
   * array never holds the same key twice; nothing here reads array entries,
   * so that uniqueness is not enforced by this type); an object
   * is identified by its class name only, since its properties are never
   * inspected by the modelled code.
   */
  datatype Value =
    | Null
    | Bool(b: bool)
    | Int(i: int)
    | Str(s: string)
    | Arr(entries: seq<(Key, Value)>)
    | Obj(className: string)

  /** The type name PHP's `gettype` reports for a value. */
  function TypeName(v: Value): (t: string)
    ensures v.Null? <==> t == "NULL"
    ensures v.Arr? <==> t == "array"
    ensures v.Obj? <==> t == "object"
  {
    match v
    case Null => "NULL"
    case Bool(_) => "boolean"
    case Int(_) => "integer"
    case Str(_) => "string"
    case Arr(_) => "array"
    case Obj(_) => "object"
  }
}
