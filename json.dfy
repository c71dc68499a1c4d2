/** JSON-shaped Python values as the source handles them (dicts, lists, strings, ...). */
module Json {
  import opened Wrappers

  /** A float is kept as its literal text; the model never computes with floats. */
  datatype Value =
    | JNull
    | JBool(b: bool)
    | JInt(i: int)
    | JFloat(literal: string)
    | JStr(s: string)
    | JArr(items: seq<Value>)
    | JObj(fields: map<string, Value>)

  type Object = map<string, Value>

  /** A float literal has a non-zero digit before any exponent. */
  predicate NonZeroMantissa(literal: string) {
    exists i :: 0 <= i < |literal| && '1' <= literal[i] <= '9'
      && forall j :: 0 <= j < i ==> literal[j] != 'e' && literal[j] != 'E'
  }

  /** The literals of NaN and the infinities, as JSON and as Python's `repr` write them;
      these floats are non-zero. */
  predicate NonFinite(literal: string) {
    literal == "NaN" || literal == "Infinity" || literal == "-Infinity"
    || literal == "nan" || literal == "inf" || literal == "-inf"
  }

  /** Python truthiness. */
  predicate Truthy(v: Value) {
    match v
    case JNull => false
    case JBool(b) => b
    case JInt(i) => i != 0
    case JFloat(l) => NonZeroMantissa(l) || NonFinite(l)
    case JStr(s) => s != []
    case JArr(items) => items != []
    case JObj(fields) => fields != map[]
  }

  /** `d.get(key)` on a dict. */
  function Get(d: Object, key: string): Option<Value> {
    if key in d then Some(d[key]) else None
  }
}
