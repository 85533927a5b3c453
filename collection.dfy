/** `Pylon::Models::Collection`: one page of results, each element wrapped in a
    model class (or kept raw when there is none), plus the response it came from. */
module Collections {
  import opened JsonValue
  import opened Http
  import opened Errors
  import Models

  /** An element of a collection: a raw decoded value or a wrapped model. */
  datatype Item = Raw(json: Json) | Wrapped(model: Models.Model)

  datatype Collection = Collection(items: seq<Item>, response: Option<Response>)

  /** The block of `items.map`: `model_class.new(item)` when there is a model
      class, the element itself otherwise. */
  function WrapItem(item: Json, modelClass: Option<Models.ModelKind>): Item {
    match modelClass
    case Some(kind) => Wrapped(Models.New(kind, item))
    case None => Raw(item)
  }

  /** `items.map { ... }` over an Array: one wrapped item per element, in order. */
  function WrapAll(input: seq<Json>, modelClass: Option<Models.ModelKind>): (r: seq<Item>)
    ensures |r| == |input|
    ensures forall i :: 0 <= i < |input| ==> r[i] == WrapItem(input[i], modelClass)
    decreases |input|
  {
    if input == [] then [] else [WrapItem(input[0], modelClass)] + WrapAll(input[1..], modelClass)
  }

  /** `Collection.new(items = [], model_class = nil, response = nil)`. An Array is
      mapped element by element; an empty Hash maps to nothing, a non-empty one to
      its `[key, value]` pairs in insertion order; any other receiver has no `map`. */
  function New(items: Json := JArr([]), modelClass: Option<Models.ModelKind> := None,
               response: Option<Response> := None): Outcome<Collection>
  {
    match items
    case JArr(elems) => Ok(Collection(WrapAll(elems, modelClass), response))
    case JObj(fields) => if fields == map[] then Ok(Collection([], response)) else Unordered(fields)
    case _ => Raise(NoMethodError("map"))
  }

  /** `size`, alias `length`. */
  function Size(c: Collection): nat {
    |c.items|
  }

  /** `collection[index]`, which is Ruby's `Array#[]`: a negative index counts back
      from the end, and an index outside the items answers nil. */
  function At(c: Collection, index: int): (r: Option<Item>)
    ensures 0 <= index < Size(c) ==> r == Some(c.items[index])
    ensures index < 0 <= Size(c) + index ==> r == Some(c.items[Size(c) + index])
    ensures r.None? <==> index >= Size(c) || Size(c) + index < 0
  {
    if 0 <= index < |c.items| then Some(c.items[index])
    else if -|c.items| <= index < 0 then Some(c.items[|c.items| + index])
    else None
  }

  /** `each { |item| block(item) }`: the block's results, in the order the items
      are visited. */
  function Each<T>(c: Collection, block: Item -> T): (r: seq<T>)
    ensures |r| == Size(c)
    ensures forall i :: 0 <= i < Size(c) ==> r[i] == block(c.items[i])
  {
    EachFrom(c.items, block)
  }

  function EachFrom<T>(items: seq<Item>, block: Item -> T): (r: seq<T>)
    ensures |r| == |items|
    ensures forall i :: 0 <= i < |items| ==> r[i] == block(items[i])
    decreases |items|
  {
    if items == [] then [] else [block(items[0])] + EachFrom(items[1..], block)
  }

  /** `to_a`: the stored items, in order. */
  function ToA(c: Collection): seq<Item> {
    c.items
  }

  /** A collection built from an Array has one item per element, `items[i]` wraps
      `input[i]`, and the response is the one given. */
  lemma NewFromArray(input: seq<Json>, modelClass: Option<Models.ModelKind>, response: Option<Response>)
    ensures New(JArr(input), modelClass, response).Ok?
    ensures Size(New(JArr(input), modelClass, response).value) == |input|
    ensures forall i :: 0 <= i < |input| ==>
      At(New(JArr(input), modelClass, response).value, i) == Some(WrapItem(input[i], modelClass))
    ensures New(JArr(input), modelClass, response).value.response == response
  {
  }

  /** With a model class every item is a model of that class over its element (nil
      elements becoming `{}`), and no item keeps a response: only the collection does. */
  lemma WrappedItemsHaveNoResponse(input: seq<Json>, kind: Models.ModelKind, response: Option<Response>, i: int)
    requires 0 <= i < |input|
    ensures var c := New(JArr(input), Some(kind), response).value;
      && c.items[i].Wrapped?
      && c.items[i].model.kind == kind
      && c.items[i].model.response == None
      && (Truthy(input[i]) ==> Models.ToH(c.items[i].model) == input[i])
      && (!Truthy(input[i]) ==> Models.ToH(c.items[i].model) == EmptyObject)
  {
  }

  /** Without a model class the items are the raw elements, unchanged. */
  lemma RawItemsUnchanged(input: seq<Json>, response: Option<Response>)
    ensures ToA(New(JArr(input), None, response).value) == seq(|input|, i requires 0 <= i < |input| => Raw(input[i]))
  {
  }

  /** An empty Array, or no argument at all, gives an empty collection and no error;
      so does an empty Hash. */
  lemma EmptyInput(modelClass: Option<Models.ModelKind>, response: Option<Response>)
    ensures New(JArr([]), modelClass, response) == Ok(Collection([], response))
    ensures New(EmptyObject, modelClass, response) == Ok(Collection([], response))
    ensures New() == Ok(Collection([], None)) && Size(New().value) == 0
  {
  }

  /** `each` visits the items in stored order, which is the order of `to_a`. */
  lemma EachFollowsToA(c: Collection)
    ensures Each(c, (item: Item) => item) == ToA(c)
  {
  }

  /** Input that is neither an Array nor a Hash raises before any item is built. */
  lemma NonEnumerableRaises(items: Json, modelClass: Option<Models.ModelKind>, response: Option<Response>)
    requires !items.JArr? && !items.JObj?
    ensures New(items, modelClass, response) == Raise(NoMethodError("map"))
  {
  }
}
