/** `Pylon::Models::Base`: field access by name over the decoded attributes of one
    resource, plus the response it came from. The resource classes (`Account`,
    `Issue`, `Tag`, ...) add nothing to `Base` and appear as a kind tag. */
module Models {
  import opened JsonValue
  import opened Http
  import opened Errors

  datatype ModelKind = Base | Account | Attachment | Article | Contact | Issue | Tag | Team | TicketForm | User

  /** A wrapped resource. `attributes` is whatever was passed to `new`; the
      client normally passes a Hash, but Ruby does not check it. */
  datatype Model = Model(kind: ModelKind, attributes: Json, response: Option<Response>)

  /** `model_class.new(attributes = {}, response = nil)`: a nil or false argument
      is replaced by `{}`. */
  function New(kind: ModelKind, attributes: Json := EmptyObject, response: Option<Response> := None): Model {
    Model(kind, if Truthy(attributes) then attributes else EmptyObject, response)
  }

  /** `model.<name>` through `method_missing`: the stored value when the attributes
      hold the key, otherwise `super` raises `NoMethodError`. A non-Hash attributes
      value has no `key?`, which raises `NoMethodError` too. */
  function Field(m: Model, name: string): Outcome<Json> {
    match m.attributes
    case JObj(fields) => if name in fields then Ok(fields[name]) else Raise(NoMethodError(name))
    case _ => Raise(NoMethodError("key?"))
  }

  /** `respond_to_missing?(name)`: whether the attributes hold the key (`super`
      answers false for names no class defines). */
  function RespondToMissing(m: Model, name: string): Outcome<bool> {
    match m.attributes
    case JObj(fields) => Ok(name in fields)
    case _ => Raise(NoMethodError("key?"))
  }

  /** Ruby's `str[sub]`: `sub` when it occurs in `str`, nil otherwise. */
  predicate Occurs(sub: string, str: string) {
    exists i :: 0 <= i <= |str| && OccursAt(sub, str, i)
  }

  /** `sub` is the part of `str` that starts at position `i`. */
  predicate OccursAt(sub: string, str: string, i: nat) {
    i + |sub| <= |str| && str[i..i + |sub|] == sub
  }

  /** `model[key]`, the key already converted by `to_s`: a Hash answers the value or
      nil; the other receivers follow their own `[]` with a String argument. */
  function Index(m: Model, key: string): Outcome<Json> {
    match m.attributes
    case JObj(fields) => Ok(Lookup(fields, key))
    case JStr(s) => Ok(if Occurs(key, s) then JStr(key) else JNull)
    case JArr(_) => Raise(TypeError(JStr("no implicit conversion of String into Integer")))
    case JInt(_) => Raise(TypeError(JStr("no implicit conversion of String into Integer")))
    case JNull => Raise(NoMethodError("[]"))
    case JBool(_) => Raise(NoMethodError("[]"))
  }

  /** `to_h`: the attributes themselves. */
  function ToH(m: Model): Json {
    m.attributes
  }

  /** Constructing without attributes, or with nil, gives the empty Hash; the
      response defaults to nil. */
  lemma NewDefaults(kind: ModelKind, r: Option<Response>)
    ensures New(kind).attributes == EmptyObject && New(kind).response == None
    ensures New(kind, JNull, r).attributes == EmptyObject && New(kind, JNull, r).response == r
  {
  }

  /** `to_h` hands back exactly the value given to `new` (nil and false aside),
      with no key renamed or dropped, and the response is kept as given. */
  lemma ToHRoundTrip(kind: ModelKind, attributes: Json, r: Option<Response>)
    requires Truthy(attributes)
    ensures ToH(New(kind, attributes, r)) == attributes
    ensures New(kind, attributes, r).response == r
  {
  }

  /** Named access through `method_missing` (a name that is not a public method of
      `Base` or `Object`) succeeds exactly for the keys present, whatever their
      value, null included; an absent key raises `NoMethodError` for that name. */
  lemma FieldIffPresent(fields: map<string, Json>, kind: ModelKind, r: Option<Response>, name: string)
    ensures Field(New(kind, JObj(fields), r), name).Ok? <==> name in fields
    ensures name in fields ==> Field(New(kind, JObj(fields), r), name) == Ok(fields[name])
    ensures name !in fields ==> Field(New(kind, JObj(fields), r), name) == Raise(NoMethodError(name))
  {
  }

  /** A present null and an absent key are told apart by named access but not by `[]`. */
  lemma AbsentDiffersFromNull(fields: map<string, Json>, name: string)
    requires name !in fields
    ensures Field(New(Base, JObj(fields)), name) != Field(New(Base, JObj(fields[name := JNull])), name)
    ensures Index(New(Base, JObj(fields)), name) == Index(New(Base, JObj(fields[name := JNull])), name) == Ok(JNull)
  {
  }

  /** `respond_to?` agrees with `method_missing`: it answers true exactly for the
      names whose access succeeds, and both fail alike on non-Hash attributes. */
  lemma RespondToAgreesWithField(m: Model, name: string)
    ensures RespondToMissing(m, name) == Ok(true) <==> Field(m, name).Ok?
    ensures RespondToMissing(m, name).Raise? <==> !m.attributes.JObj?
    ensures !m.attributes.JObj? ==> Field(m, name) == Raise(NoMethodError("key?"))
  {
  }

  /** On Hash attributes `[]` answers what named access answers for present keys
      and nil for absent ones, instead of raising. */
  lemma IndexAgreesWithField(m: Model, name: string)
    requires m.attributes.JObj?
    ensures Index(m, name).Ok?
    ensures Field(m, name).Ok? ==> Index(m, name) == Field(m, name)
    ensures Field(m, name).Raise? ==> Index(m, name) == Ok(JNull)
  {
  }

  /** On a String, `[]` answers the key itself when it occurs in the string. */
  lemma {:induction false} IndexOnString(s: string, kind: ModelKind, i: nat, n: nat)
    requires i + n <= |s|
    ensures Index(New(kind, JStr(s)), s[i..i + n]) == Ok(JStr(s[i..i + n]))
  {
    assert OccursAt(s[i..i + n], s, i);
  }
}
