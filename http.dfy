/** The request and response shapes exchanged with the transport, and the
    `{"data": X}` envelope that both client variants strip from a successful body. */
module Http {
  import opened JsonValue

  datatype Verb = GET | POST | PATCH | DELETE

  /** What one endpoint method hands to the transport: the verb, the path with any
      id already interpolated, the query parameters and, for POST and PATCH, the
      body that is serialised to JSON. */
  datatype Request = Request(verb: Verb, path: string, query: map<string, Json>, body: Option<Json>)

  /** What the transport hands back, the body already decoded. */
  datatype Response = Response(status: int, headers: map<string, string>, body: Json)

  /** The `[data, response]` pair a call returns when no model wraps the payload. */
  datatype Reply = Reply(data: Json, response: Response)

  /** A status in 200..299. */
  predicate IsSuccess(status: int) {
    200 <= status <= 299
  }

  /** The payload of a body: `body["data"]` when the body is a Hash with key "data",
      otherwise the body itself. */
  function Unwrap(body: Json): Json {
    if body.JObj? && "data" in body.fields then body.fields["data"] else body
  }

  /** The envelope `{"data": x}`, possibly with further keys beside it. */
  function Envelope(x: Json, others: map<string, Json>): Json {
    JObj(others["data" := x])
  }

  /** Unwrapping an envelope yields exactly what it wraps, null included. */
  lemma UnwrapEnvelope(x: Json, others: map<string, Json>)
    ensures Unwrap(Envelope(x, others)) == x
  {
  }

  /** The payload differs from the body exactly when the body is an object with
      key "data" (a Hash never holds itself): every other body is its own payload. */
  lemma UnwrapUnchangedIff(body: Json)
    ensures Unwrap(body) == body <==> !(body.JObj? && "data" in body.fields)
  {
  }
}
