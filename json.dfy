/**
 * JSON documents as the two handlers see them after decoding, with the few
 * pieces of Python semantics both handlers rely on: truthiness (`not data`),
 * the list-or-singleton normalisation, and `dict.get` with a default.
 */
module Json {

  /** A decoded JSON document. Numbers are kept as reals; only whether a number
      is zero matters to the handlers (Python truthiness). */
  datatype Value =
    | Null
    | Bool(b: bool)
    | Number(n: real)
    | String(s: string)
    | Array(elems: seq<Value>)
    | Object(fields: map<string, Value>)

  /** The default the handlers put in place of a missing key. */
  const Unknown: Value := String("unknown")

  /** Python's `bool(v)`: None, False, 0, "", [] and {} are falsy. */
  predicate Truthy(v: Value)
  {
    match v
    case Null => false
    case Bool(b) => b
    case Number(n) => n != 0.0
    case String(s) => s != []
    case Array(elems) => elems != []
    case Object(fields) => fields != map[]
  }

  /** `v if isinstance(v, list) else [v]`: a list is taken as-is, any other
      value becomes a one-element list. Only the empty list yields no items. */
  function AsList(v: Value): (items: seq<Value>)
    ensures v.Array? ==> items == v.elems
    ensures !v.Array? ==> items == [v]
    ensures items == [] <==> v == Array([])
    ensures Truthy(v) ==> items != []
  {
    if v.Array? then v.elems else [v]
  }

  /** `d.get(key, default)` on a Python dict. */
  function Get(fields: map<string, Value>, key: string, default: Value): Value
  {
    if key in fields then fields[key] else default
  }
}
