/** Decoded JSON documents, as Python's json module produces them. */
module Json {
  import Text

  /**
   * A JSON value. Objects map string keys to values (a Python dict); floats are kept opaque,
   * carrying only their literal text.
   */
  datatype Value =
    | Null
    | Bool(b: bool)
    | Int(i: int)
    | Float(literal: string)
    | Str(s: string)
    | Arr(elems: seq<Value>)
    | Obj(fields: map<string, Value>)

  /**
   * Python's str() of a decoded value, for the kinds that reach an f-string in the client:
   * strings print as themselves, None as "None", booleans as "True"/"False", integers in decimal.
   */
  function Show(v: Value): (s: string)
    ensures v.Str? ==> s == v.s
    ensures v.Int? ==> s == Text.IntToString(v.i)
  {
    match v
    case Null => "None"
    case Bool(b) => if b then "True" else "False"
    case Int(i) => Text.IntToString(i)
    case Float(literal) => literal
    case Str(s) => s
    case Arr(_) => ""
    case Obj(_) => ""
  }
}
