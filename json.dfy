/** Decoded JSON values as the client sees them after Faraday's JSON middleware,
    together with the two pieces of Ruby semantics the client leans on:
    truthiness (only nil and false are falsy) and the `a || b` fallback. */
module JsonValue {

  datatype Option<+T> = None | Some(value: T)

  /** A JSON value without floats. Ruby's nil is `JNull`; a Hash is `JObj`, whose
      entries are kept as an unordered map. */
  datatype Json =
    | JNull
    | JBool(b: bool)
    | JInt(i: int)
    | JStr(s: string)
    | JArr(elems: seq<Json>)
    | JObj(fields: map<string, Json>)

  /** Ruby truthiness: everything except nil and false. */
  predicate Truthy(v: Json) {
    !v.JNull? && v != JBool(false)
  }

  /** Ruby's `a || b`. */
  function Or(a: Json, b: Json): (r: Json)
    ensures Truthy(a) ==> r == a
    ensures !Truthy(a) ==> r == b
  {
    if Truthy(a) then a else b
  }

  /** Ruby's `hash[key]` on a Hash: the stored value, or nil when the key is absent. */
  function Lookup(fields: map<string, Json>, key: string): (r: Json)
    ensures key in fields ==> r == fields[key]
    ensures key !in fields ==> r == JNull
  {
    if key in fields then fields[key] else JNull
  }

  /** Ruby's `Hash#compact`: the entries whose value is not nil. */
  function Compact(fields: map<string, Json>): (r: map<string, Json>)
    ensures forall k :: k in r <==> k in fields && fields[k] != JNull
    ensures forall k :: k in r ==> r[k] == fields[k]
  {
    map k | k in fields && fields[k] != JNull :: fields[k]
  }

  /** The empty Hash `{}`. */
  const EmptyObject: Json := JObj(map[])
}
