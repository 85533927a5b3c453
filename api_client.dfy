/** `Pylon::Client` of the pylon-api gem: one request builder per endpoint, the
    shaping of a successful response into a model, a collection or a raw pair, and
    the translation of an error status into the gem's error taxonomy. The HTTP
    transport is a function parameter. */
module ApiClient {
  import opened JsonValue
  import opened Http
  import opened Errors
  import opened Models
  import Collections

  /** How a successful payload is returned: wrapped in `modelClass` (one model, or
      a collection of them) or, with no model class, as a raw pair. */
  datatype Shape = Shape(modelClass: Option<ModelKind>, collection: bool)

  /** An endpoint invocation: the request to send and how to shape the answer. */
  datatype Call = Call(request: Request, shape: Shape)

  /** What a successful call returns. */
  datatype Value =
    | Single(model: Model)
    | Many(collection: Collections.Collection)
    | Pair(reply: Reply)

  // ---- private request helpers --------------------------------------------

  function Get(path: string, query: map<string, Json> := map[], modelClass: Option<ModelKind> := None,
               collection: bool := false): Call
  {
    Call(Request(GET, path, query, None), Shape(modelClass, collection))
  }

  function Post(path: string, body: Json := EmptyObject, modelClass: Option<ModelKind> := None,
                collection: bool := false): Call
  {
    Call(Request(POST, path, map[], Some(body)), Shape(modelClass, collection))
  }

  function Patch(path: string, body: Json := EmptyObject, modelClass: Option<ModelKind> := None,
                 collection: bool := false): Call
  {
    Call(Request(PATCH, path, map[], Some(body)), Shape(modelClass, collection))
  }

  function Delete(path: string, modelClass: Option<ModelKind> := None, collection: bool := false): Call {
    Call(Request(DELETE, path, map[], None), Shape(modelClass, collection))
  }

  /** The pagination query `{page:, per_page:}`. */
  function Page(page: Json, perPage: Json): map<string, Json> {
    map["page" := page, "per_page" := perPage]
  }

  // ---- endpoints (ids are already converted by `to_s`) ---------------------

  function ListAccounts(page: Json := JInt(1), perPage: Json := JInt(20)): Call {
    Get("/accounts", query := Page(page, perPage), modelClass := Some(Account), collection := true)
  }

  function GetAccount(accountId: string): Call {
    Get("/accounts/" + accountId, modelClass := Some(Account))
  }

  function CreateAttachment(file: Json): Call {
    Post("/attachments", body := JObj(map["file" := file]), modelClass := Some(Attachment))
  }

  function GetAttachment(attachmentId: string): Call {
    Get("/attachments/" + attachmentId, modelClass := Some(Attachment))
  }

  function ListContacts(page: Json := JInt(1), perPage: Json := JInt(20)): Call {
    Get("/contacts", query := Page(page, perPage), modelClass := Some(Contact), collection := true)
  }

  function CreateContact(params: Json): Call {
    Post("/contacts", body := params, modelClass := Some(Contact))
  }

  function GetContact(contactId: string): Call {
    Get("/contacts/" + contactId, modelClass := Some(Contact))
  }

  function UpdateContact(contactId: string, params: Json): Call {
    Patch("/contacts/" + contactId, body := params, modelClass := Some(Contact))
  }

  function ListCustomFields(page: Json := JInt(1), perPage: Json := JInt(20)): Call {
    Get("/custom_fields", query := Page(page, perPage), collection := true)
  }

  function CreateCustomField(params: Json): Call {
    Post("/custom_fields", body := params)
  }

  /** `list_issues`: both time bounds are checked, start first, before any request
      exists; the caller's filters are merged under the four named parameters. */
  function ListIssues(startTime: Json, endTime: Json, page: Json := JInt(1), perPage: Json := JInt(20),
                      filters: map<string, Json> := map[]): Outcome<Call>
  {
    if !Truthy(startTime) then Raise(ArgumentError(JStr("start_time is required")))
    else if !Truthy(endTime) then Raise(ArgumentError(JStr("end_time is required")))
    else
      var query := filters + map["start_time" := startTime, "end_time" := endTime, "page" := page, "per_page" := perPage];
      Ok(Get("/issues", query := query, modelClass := Some(Issue), collection := true))
  }

  function CreateIssue(params: Json): Call {
    Post("/issues", body := params, modelClass := Some(Issue))
  }

  function GetIssue(issueId: string): Call {
    Get("/issues/" + issueId, modelClass := Some(Issue))
  }

  function UpdateIssue(issueId: string, params: Json): Call {
    Patch("/issues/" + issueId, body := params, modelClass := Some(Issue))
  }

  function SnoozeIssue(issueId: string, snoozeUntil: Json): Call {
    Post("/issues/" + issueId + "/snooze", body := JObj(map["snooze_until" := snoozeUntil]), modelClass := Some(Issue))
  }

  function ListArticles(page: Json := JInt(1), perPage: Json := JInt(20)): Call {
    Get("/knowledge_base/articles", query := Page(page, perPage), modelClass := Some(Article), collection := true)
  }

  function GetArticle(articleId: string): Call {
    Get("/knowledge_base/articles/" + articleId, modelClass := Some(Article))
  }

  function GetCurrentUser(): Call {
    Get("/me", modelClass := Some(User))
  }

  function ListTags(page: Json := JInt(1), perPage: Json := JInt(20)): Call {
    Get("/tags", query := Page(page, perPage), modelClass := Some(Tag), collection := true)
  }

  /** `create_tag`: the body `{name:, color:}` with nil entries removed. */
  function CreateTag(name: Json, color: Json := JNull): Call {
    Post("/tags", body := JObj(Compact(map["name" := name, "color" := color])), modelClass := Some(Tag))
  }

  function ListTeams(page: Json := JInt(1), perPage: Json := JInt(20)): Call {
    Get("/teams", query := Page(page, perPage), modelClass := Some(Team), collection := true)
  }

  function CreateTeam(params: Json): Call {
    Post("/teams", body := params, modelClass := Some(Team))
  }

  function GetTeam(teamId: string): Call {
    Get("/teams/" + teamId, modelClass := Some(Team))
  }

  function ListTicketForms(page: Json := JInt(1), perPage: Json := JInt(20)): Call {
    Get("/ticket-forms", query := Page(page, perPage), modelClass := Some(TicketForm), collection := true)
  }

  function CreateTicketForm(name: Json, fields: Json := JArr([])): Call {
    Post("/ticket-forms", body := JObj(map["name" := name, "fields" := fields]), modelClass := Some(TicketForm))
  }

  function ListUserRoles(page: Json := JInt(1), perPage: Json := JInt(20)): Call {
    Get("/user_roles", query := Page(page, perPage), collection := true)
  }

  function GetUserRole(roleId: string): Call {
    Get("/user_roles/" + roleId)
  }

  function ListUsers(page: Json := JInt(1), perPage: Json := JInt(20)): Call {
    Get("/users", query := Page(page, perPage), modelClass := Some(User), collection := true)
  }

  function CreateUser(params: Json): Call {
    Post("/users", body := params, modelClass := Some(User))
  }

  function GetUser(userId: string): Call {
    Get("/users/" + userId, modelClass := Some(User))
  }

  function UpdateUser(userId: string, params: Json): Call {
    Patch("/users/" + userId, body := params, modelClass := Some(User))
  }

  // ---- response handling --------------------------------------------------

  /** `handle_successful_response`: strip the envelope, then wrap the payload as the
      shape says. Only building a collection can fail. */
  function HandleSuccessfulResponse(response: Response, shape: Shape): Outcome<Value> {
    var data := Unwrap(response.body);
    match shape.modelClass
    case Some(kind) =>
      if shape.collection then
        match Collections.New(data, Some(kind), Some(response))
        case Ok(c) => Ok(Many(c))
        case Raise(e) => Raise(e)
        case Unordered(entries) => Unordered(entries)
      else Ok(Single(Models.New(kind, data, Some(response))))
    case None => Ok(Pair(Reply(data, response)))
  }

  /** `parse_error_message`: the first element of a non-empty "errors" Array, else a
      String "error", else nil; nil for a body that is not a Hash. */
  function ParseErrorMessage(response: Response): Json {
    match response.body
    case JObj(fields) =>
      var errors := Lookup(fields, "errors");
      var error := Lookup(fields, "error");
      if errors.JArr? && |errors.elems| > 0 then errors.elems[0]
      else if error.JStr? then error
      else JNull
    case _ => JNull
  }

  /** `handle_error_response`: the exception raised for a response, its message the
      parsed one or the per-status default. Only the generic branch attaches the
      response; the 429 branch raises `ApiError` with a message alone. */
  function HandleErrorResponse(response: Response): Exception {
    var parsed := ParseErrorMessage(response);
    if response.status == 401 then AuthenticationError(Or(parsed, JStr("Invalid API key")))
    else if response.status == 404 then ResourceNotFoundError(Or(parsed, JStr("Resource not found")))
    else if response.status == 422 then ValidationError(Or(parsed, JStr("Validation error")))
    else if response.status == 429 then NewApiError(Or(parsed, JStr("Rate limit exceeded")))
    else NewApiError(Or(parsed, JStr("Internal server error")), Some(response))
  }

  /** `handle_response` as its documentation describes it: a 2xx status returns the
      shaped payload, any other status raises. */
  function HandleResponse(response: Response, shape: Shape): Outcome<Value> {
    if IsSuccess(response.status) then HandleSuccessfulResponse(response, shape)
    else Raise(HandleErrorResponse(response))
  }

  /** `handle_response` as written: the shaped payload of a 2xx response is computed
      and discarded (only an exception raised while shaping escapes), and
      `handle_error_response` runs for every status. */
  function HandleResponseAsWritten(response: Response, shape: Shape): Outcome<Value> {
    if IsSuccess(response.status) && HandleSuccessfulResponse(response, shape).Raise? then
      HandleSuccessfulResponse(response, shape)
    else Raise(HandleErrorResponse(response))
  }

  /** The outcome of a call and the requests it sent to the transport. */
  datatype Run = Run(result: Outcome<Value>, sent: seq<Request>)

  /** An endpoint method end to end: a call that could not be built sends nothing;
      otherwise exactly its request goes to the transport and the response is handled. */
  function Execute(call: Outcome<Call>, transport: Request -> Response): Run {
    match call
    case Ok(c) => Run(HandleResponse(transport(c.request), c.shape), [c.request])
    case Raise(e) => Run(Raise(e), [])
    case Unordered(entries) => Run(Unordered(entries), [])
  }

  // ---- properties -----------------------------------------------------------

  /** The part of a path after `prefix`, when the path starts with it. */
  function PathId(prefix: string, path: string): Option<string> {
    if prefix <= path then Some(path[|prefix|..]) else None
  }

  /** Every `list_*` method called without arguments is a GET on its fixed path with
      query exactly `{page: 1, per_page: 20}` and no body; all but custom fields and
      user roles wrap the page as a collection of their model class. */
  lemma ListDefaults()
    ensures var defaults := map["page" := JInt(1), "per_page" := JInt(20)];
      && ListAccounts() == Call(Request(GET, "/accounts", defaults, None), Shape(Some(Account), true))
      && ListContacts() == Call(Request(GET, "/contacts", defaults, None), Shape(Some(Contact), true))
      && ListCustomFields() == Call(Request(GET, "/custom_fields", defaults, None), Shape(None, true))
      && ListArticles() == Call(Request(GET, "/knowledge_base/articles", defaults, None), Shape(Some(Article), true))
      && ListTags() == Call(Request(GET, "/tags", defaults, None), Shape(Some(Tag), true))
      && ListTeams() == Call(Request(GET, "/teams", defaults, None), Shape(Some(Team), true))
      && ListTicketForms() == Call(Request(GET, "/ticket-forms", defaults, None), Shape(Some(TicketForm), true))
      && ListUserRoles() == Call(Request(GET, "/user_roles", defaults, None), Shape(None, true))
      && ListUsers() == Call(Request(GET, "/users", defaults, None), Shape(Some(User), true))
  {
  }

  /** A nil (or false) `start_time` is rejected first, whatever `end_time` is, and
      then a nil `end_time`; a call is built exactly when both bounds are given. */
  lemma ListIssuesRequiresBounds(startTime: Json, endTime: Json, page: Json, perPage: Json, filters: map<string, Json>)
    ensures !Truthy(startTime) ==>
      ListIssues(startTime, endTime, page, perPage, filters) == Raise(ArgumentError(JStr("start_time is required")))
    ensures Truthy(startTime) && !Truthy(endTime) ==>
      ListIssues(startTime, endTime, page, perPage, filters) == Raise(ArgumentError(JStr("end_time is required")))
    ensures ListIssues(startTime, endTime, page, perPage, filters).Ok? <==> Truthy(startTime) && Truthy(endTime)
  {
    if !Truthy(startTime) {
    } else if !Truthy(endTime) {
    } else {
    }
  }

  /** A rejected `list_issues` sends nothing to the transport. */
  lemma ListIssuesRejectedSendsNothing(startTime: Json, endTime: Json, page: Json, perPage: Json,
                                       filters: map<string, Json>, transport: Request -> Response)
    requires !Truthy(startTime) || !Truthy(endTime)
    ensures Execute(ListIssues(startTime, endTime, page, perPage, filters), transport).sent == []
    ensures Execute(ListIssues(startTime, endTime, page, perPage, filters), transport).result.Raise?
  {
  }

  /** With both bounds given, `list_issues` is a GET on "/issues" whose query holds
      every caller filter unchanged beside `start_time`, `end_time`, `page` and
      `per_page` with the values given, and exactly one request is sent. */
  lemma ListIssuesQuery(startTime: Json, endTime: Json, page: Json, perPage: Json,
                        filters: map<string, Json>, transport: Request -> Response)
    requires Truthy(startTime) && Truthy(endTime)
    ensures var q := ListIssues(startTime, endTime, page, perPage, filters).value.request.query;
      && q.Keys == filters.Keys + {"start_time", "end_time", "page", "per_page"}
      && (forall k :: k in filters && k !in {"start_time", "end_time", "page", "per_page"} ==> q[k] == filters[k])
      && q["start_time"] == startTime && q["end_time"] == endTime
      && q["page"] == page && q["per_page"] == perPage
    ensures ListIssues(startTime, endTime, page, perPage, filters).value.request.verb == GET
    ensures ListIssues(startTime, endTime, page, perPage, filters).value.request.path == "/issues"
    ensures ListIssues(startTime, endTime, page, perPage, filters).value.shape == Shape(Some(Issue), true)
    ensures Execute(ListIssues(startTime, endTime, page, perPage, filters), transport).sent
      == [ListIssues(startTime, endTime, page, perPage, filters).value.request]
  {
  }

  /** Id endpoints interpolate the id verbatim: the id is recovered from the path
      after the endpoint's prefix. A lookup is a bare GET, and an update a PATCH
      on the same path whose body is the caller's parameters. */
  lemma IdInterpolatedVerbatim(id: string, params: Json)
    ensures PathId("/accounts/", GetAccount(id).request.path) == Some(id)
    ensures PathId("/attachments/", GetAttachment(id).request.path) == Some(id)
    ensures PathId("/contacts/", GetContact(id).request.path) == Some(id)
    ensures PathId("/issues/", GetIssue(id).request.path) == Some(id)
    ensures PathId("/knowledge_base/articles/", GetArticle(id).request.path) == Some(id)
    ensures PathId("/teams/", GetTeam(id).request.path) == Some(id)
    ensures PathId("/user_roles/", GetUserRole(id).request.path) == Some(id)
    ensures PathId("/users/", GetUser(id).request.path) == Some(id)
    ensures GetAccount(id).request.verb == GET && GetAccount(id).request.query == map[]
    ensures GetAccount(id).request.body == None
    ensures UpdateContact(id, params).request == Request(PATCH, "/contacts/" + id, map[], Some(params))
    ensures UpdateIssue(id, params).request == Request(PATCH, "/issues/" + id, map[], Some(params))
    ensures UpdateUser(id, params).request == Request(PATCH, "/users/" + id, map[], Some(params))
  {
  }

  /** Distinct ids never share a path. */
  lemma {:induction false} IdPathsInjective(id1: string, id2: string)
    requires id1 != id2
    ensures GetAccount(id1).request.path != GetAccount(id2).request.path
    ensures SnoozeIssue(id1, JNull).request.path != SnoozeIssue(id2, JNull).request.path
  {
    IdInterpolatedVerbatim(id1, JNull);
    IdInterpolatedVerbatim(id2, JNull);
    var s1, s2 := SnoozeIssue(id1, JNull).request.path, SnoozeIssue(id2, JNull).request.path;
    assert s1[8..|s1| - 7] == id1;
    assert s2[8..|s2| - 7] == id2;
  }

  /** `snooze_issue` POSTs `{snooze_until:}` to the issue's "/snooze" path. */
  lemma SnoozeIssueRequest(id: string, until: Json)
    ensures SnoozeIssue(id, until).request
      == Request(POST, "/issues/" + id + "/snooze", map[], Some(JObj(map["snooze_until" := until])))
    ensures SnoozeIssue(id, until).shape == Shape(Some(Issue), false)
  {
  }

  /** `create_tag` sends a `color` entry exactly when a non-nil color is given, and
      a `name` entry exactly when the name is not nil; values are sent unchanged. */
  lemma CreateTagCompactsNil(name: Json, color: Json)
    ensures var body := CreateTag(name, color).request.body.value.fields;
      && ("color" in body <==> color != JNull)
      && ("name" in body <==> name != JNull)
      && body.Keys <= {"name", "color"}
      && (color != JNull ==> body["color"] == color)
      && (name != JNull ==> body["name"] == name)
    ensures CreateTag(JStr("bug")).request.body == Some(JObj(map["name" := JStr("bug")]))
  {
    var m := map["name" := name, "color" := color];
    assert m["color"] == color && m["name"] == name;
    assert Compact(map["name" := JStr("bug"), "color" := JNull]) == map["name" := JStr("bug")];
  }

  /** `create_ticket_form` without fields sends `fields: []`. */
  lemma CreateTicketFormDefaultFields(name: Json)
    ensures CreateTicketForm(name).request.body == Some(JObj(map["name" := name, "fields" := JArr([])]))
  {
  }

  /** The three result shapes: a collection over the payload, one model holding the
      response, or the raw `[payload, response]` pair when there is no model class,
      whatever the collection flag. */
  lemma ResultShapes(response: Response, kind: ModelKind, collection: bool, input: seq<Json>)
    ensures HandleSuccessfulResponse(response, Shape(Some(kind), false))
      == Ok(Single(Models.New(kind, Unwrap(response.body), Some(response))))
    ensures HandleSuccessfulResponse(response, Shape(None, collection)) == Ok(Pair(Reply(Unwrap(response.body), response)))
    ensures Unwrap(response.body) == JArr(input) ==>
      && HandleSuccessfulResponse(response, Shape(Some(kind), true)).Ok?
      && HandleSuccessfulResponse(response, Shape(Some(kind), true)).value.collection
        == Collections.Collection(Collections.WrapAll(input, Some(kind)), Some(response))
  {
  }

  /** The single-model result exposes the payload's fields and the response. */
  lemma SingleModelKeepsPayload(response: Response, kind: ModelKind, fields: map<string, Json>, name: string)
    requires Unwrap(response.body) == JObj(fields) && name in fields
    ensures var v := HandleSuccessfulResponse(response, Shape(Some(kind), false)).value.model;
      Field(v, name) == Ok(fields[name]) && v.response == Some(response)
  {
  }

  /** `list_custom_fields`, `list_user_roles`, `get_user_role` and
      `create_custom_field` have no model class, so they return raw pairs. */
  lemma UntypedEndpointsReturnPairs(response: Response, id: string, params: Json)
    ensures var raw := Ok(Pair(Reply(Unwrap(response.body), response)));
      && HandleSuccessfulResponse(response, ListCustomFields().shape) == raw
      && HandleSuccessfulResponse(response, ListUserRoles().shape) == raw
      && HandleSuccessfulResponse(response, GetUserRole(id).shape) == raw
      && HandleSuccessfulResponse(response, CreateCustomField(params).shape) == raw
  {
  }

  /** An empty page, bare or in an envelope (with or without other keys beside
      "data"), is an empty collection and no error. */
  lemma EmptyPageIsEmptyCollection(response: Response, kind: ModelKind)
    requires Unwrap(response.body) == JArr([])
    ensures HandleSuccessfulResponse(response, Shape(Some(kind), true)) == Ok(Many(Collections.Collection([], Some(response))))
  {
  }

  /** `parse_error_message`: nil for a non-Hash body; the first element of a
      non-empty "errors" Array; otherwise a String "error"; otherwise nil. */
  lemma ParseErrorMessageCases(response: Response)
    ensures !response.body.JObj? ==> ParseErrorMessage(response) == JNull
    ensures response.body.JObj? ==>
      var errors := Lookup(response.body.fields, "errors");
      var error := Lookup(response.body.fields, "error");
      && (errors.JArr? && |errors.elems| > 0 ==> ParseErrorMessage(response) == errors.elems[0])
      && (!(errors.JArr? && |errors.elems| > 0) && error.JStr? ==> ParseErrorMessage(response) == error)
      && (!(errors.JArr? && |errors.elems| > 0) && !error.JStr? ==> ParseErrorMessage(response) == JNull)
  {
  }

  /** The status table: 401, 404 and 422 raise their own classes, 429 an `ApiError`
      without response, everything else an `ApiError` carrying the response; the
      message is the parsed one when it is truthy, otherwise the per-status default. */
  lemma Classification(response: Response)
    ensures var e := HandleErrorResponse(response);
      var parsed := ParseErrorMessage(response);
      && IsPylonError(e)
      && (Truthy(parsed) ==> e.message == parsed)
      && (response.status == 401 <==> e.AuthenticationError?)
      && (response.status == 404 <==> e.ResourceNotFoundError?)
      && (response.status == 422 <==> e.ValidationError?)
      && (response.status !in {401, 404, 422} <==> e.ApiError?)
      && (response.status == 429 ==> ResponseOf(e) == None)
      && (response.status !in {401, 404, 422, 429} ==> ResponseOf(e) == Some(response))
  {
  }

  /** The default messages, used when no message can be parsed from the body. */
  lemma DefaultMessages(response: Response)
    requires !Truthy(ParseErrorMessage(response))
    ensures response.status == 401 ==> HandleErrorResponse(response) == AuthenticationError(JStr("Invalid API key"))
    ensures response.status == 404 ==> HandleErrorResponse(response) == ResourceNotFoundError(JStr("Resource not found"))
    ensures response.status == 422 ==> HandleErrorResponse(response) == ValidationError(JStr("Validation error"))
    ensures response.status == 429 ==> HandleErrorResponse(response) == ApiError(JStr("Rate limit exceeded"), None)
    ensures response.status !in {401, 404, 422, 429} ==>
      HandleErrorResponse(response) == ApiError(JStr("Internal server error"), Some(response))
  {
  }

  /** The documented contract: a 2xx status returns the shaped payload; any other
      status raises a `Pylon::Error` and never returns. */
  lemma HandleResponseContract(response: Response, shape: Shape)
    ensures IsSuccess(response.status) ==> HandleResponse(response, shape) == HandleSuccessfulResponse(response, shape)
    ensures !IsSuccess(response.status) ==>
      HandleResponse(response, shape).Raise? && IsPylonError(HandleResponse(response, shape).error)
  {
  }

  /** As written, a 2xx response whose payload could be shaped raises the generic
      `ApiError` carrying the response instead of returning the payload: for
      `list_accounts` answering `{"data": []}` with 200 the caller gets "Internal
      server error" where the intended result is an empty collection. */
  lemma SuccessFallsThroughAsWritten(response: Response, shape: Shape)
    requires IsSuccess(response.status) && !HandleSuccessfulResponse(response, shape).Raise?
    ensures HandleResponseAsWritten(response, shape)
      == Raise(ApiError(Or(ParseErrorMessage(response), JStr("Internal server error")), Some(response)))
    ensures HandleResponseAsWritten(response, shape) != HandleResponse(response, shape)
    ensures var r := Response(200, map[], JObj(map["data" := JArr([])]));
      && HandleResponseAsWritten(r, ListAccounts().shape) == Raise(ApiError(JStr("Internal server error"), Some(r)))
      && HandleResponse(r, ListAccounts().shape) == Ok(Many(Collections.Collection([], Some(r))))
  {
  }

  /** Outside the 2xx range the two readings of `handle_response` agree. */
  lemma AsWrittenAgreesOnErrors(response: Response, shape: Shape)
    requires !IsSuccess(response.status)
    ensures HandleResponseAsWritten(response, shape) == HandleResponse(response, shape)
  {
  }
}
