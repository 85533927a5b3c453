/** `Pylon::Client` of the older pylon-ruby gem: the same endpoints, every success
    returned as a raw `[data, response]` pair, no 429 branch, and error messages
    that fall back to "HTTP {status}" instead of per-status defaults. */
module RubyClient {
  import opened JsonValue
  import opened Http
  import opened Errors
  import Api = ApiClient

  // ---- private request helpers --------------------------------------------

  function Get(path: string, query: map<string, Json> := map[]): Request {
    Request(GET, path, query, None)
  }

  function Post(path: string, body: Json := EmptyObject): Request {
    Request(POST, path, map[], Some(body))
  }

  function Patch(path: string, body: Json := EmptyObject): Request {
    Request(PATCH, path, map[], Some(body))
  }

  function Delete(path: string): Request {
    Request(DELETE, path, map[], None)
  }

  function Page(page: Json, perPage: Json): map<string, Json> {
    map["page" := page, "per_page" := perPage]
  }

  // ---- endpoints (ids are already converted by `to_s`) ---------------------

  function ListAccounts(page: Json := JInt(1), perPage: Json := JInt(20)): Request {
    Get("/accounts", query := Page(page, perPage))
  }

  function GetAccount(accountId: string): Request {
    Get("/accounts/" + accountId)
  }

  function CreateAttachment(file: Json): Request {
    Post("/attachments", body := JObj(map["file" := file]))
  }

  function GetAttachment(attachmentId: string): Request {
    Get("/attachments/" + attachmentId)
  }

  function ListContacts(page: Json := JInt(1), perPage: Json := JInt(20)): Request {
    Get("/contacts", query := Page(page, perPage))
  }

  function CreateContact(params: Json): Request {
    Post("/contacts", body := params)
  }

  function GetContact(contactId: string): Request {
    Get("/contacts/" + contactId)
  }

  function UpdateContact(contactId: string, params: Json): Request {
    Patch("/contacts/" + contactId, body := params)
  }

  function ListCustomFields(page: Json := JInt(1), perPage: Json := JInt(20)): Request {
    Get("/custom_fields", query := Page(page, perPage))
  }

  function CreateCustomField(params: Json): Request {
    Post("/custom_fields", body := params)
  }

  /** `list_issues`: the same guard as the newer gem, start bound first. */
  function ListIssues(startTime: Json, endTime: Json, page: Json := JInt(1), perPage: Json := JInt(20),
                      filters: map<string, Json> := map[]): Outcome<Request>
  {
    if !Truthy(startTime) then Raise(ArgumentError(JStr("start_time is required")))
    else if !Truthy(endTime) then Raise(ArgumentError(JStr("end_time is required")))
    else
      Ok(Get("/issues", query := filters + map["start_time" := startTime, "end_time" := endTime,
                                               "page" := page, "per_page" := perPage]))
  }

  function CreateIssue(params: Json): Request {
    Post("/issues", body := params)
  }

  function GetIssue(issueId: string): Request {
    Get("/issues/" + issueId)
  }

  function UpdateIssue(issueId: string, params: Json): Request {
    Patch("/issues/" + issueId, body := params)
  }

  function ListArticles(page: Json := JInt(1), perPage: Json := JInt(20)): Request {
    Get("/knowledge_base/articles", query := Page(page, perPage))
  }

  function GetArticle(articleId: string): Request {
    Get("/knowledge_base/articles/" + articleId)
  }

  function GetCurrentUser(): Request {
    Get("/me")
  }

  function ListTags(page: Json := JInt(1), perPage: Json := JInt(20)): Request {
    Get("/tags", query := Page(page, perPage))
  }

  function CreateTag(name: Json, color: Json := JNull): Request {
    Post("/tags", body := JObj(Compact(map["name" := name, "color" := color])))
  }

  function ListTeams(page: Json := JInt(1), perPage: Json := JInt(20)): Request {
    Get("/teams", query := Page(page, perPage))
  }

  function CreateTeam(params: Json): Request {
    Post("/teams", body := params)
  }

  function GetTeam(teamId: string): Request {
    Get("/teams/" + teamId)
  }

  function ListTicketForms(page: Json := JInt(1), perPage: Json := JInt(20)): Request {
    Get("/ticket-forms", query := Page(page, perPage))
  }

  function CreateTicketForm(name: Json, fields: Json := JArr([])): Request {
    Post("/ticket-forms", body := JObj(map["name" := name, "fields" := fields]))
  }

  function ListUserRoles(page: Json := JInt(1), perPage: Json := JInt(20)): Request {
    Get("/user_roles", query := Page(page, perPage))
  }

  function GetUserRole(roleId: string): Request {
    Get("/user_roles/" + roleId)
  }

  function ListUsers(page: Json := JInt(1), perPage: Json := JInt(20)): Request {
    Get("/users", query := Page(page, perPage))
  }

  function CreateUser(params: Json): Request {
    Post("/users", body := params)
  }

  function GetUser(userId: string): Request {
    Get("/users/" + userId)
  }

  function UpdateUser(userId: string, params: Json): Request {
    Patch("/users/" + userId, body := params)
  }

  // ---- status text ----------------------------------------------------------

  function DigitChar(d: nat): (c: char)
    requires d < 10
    ensures '0' <= c <= '9' && (c - '0') as int == d
  {
    "0123456789"[d]
  }

  predicate AllDigits(s: string) {
    forall i :: 0 <= i < |s| ==> '0' <= s[i] <= '9'
  }

  /** The decimal digits of `n`, most significant first, without leading zeros. */
  function NatDigits(n: nat): (s: string)
    ensures |s| > 0 && AllDigits(s)
    ensures n > 0 ==> s[0] != '0'
    decreases n
  {
    if n < 10 then [DigitChar(n)] else NatDigits(n / 10) + [DigitChar(n % 10)]
  }

  /** `Integer#to_s`: an optional minus sign, then the digits. */
  function Decimal(n: int): (s: string)
    ensures |s| > 0
    ensures n < 0 ==> s[0] == '-' && s[1..] == NatDigits(-n)
    ensures n >= 0 ==> s == NatDigits(n)
  {
    if n < 0 then "-" + NatDigits(-n) else NatDigits(n)
  }

  /** The value of a string of decimal digits. */
  function DigitsValue(s: string): nat
    requires AllDigits(s)
    decreases |s|
  {
    if s == [] then 0 else 10 * DigitsValue(s[..|s| - 1]) + (s[|s| - 1] - '0') as int
  }

  /** The integer a `Decimal` string denotes. */
  function DecimalValue(s: string): int
    requires |s| > 0 && (AllDigits(s) || (s[0] == '-' && AllDigits(s[1..])))
  {
    if s[0] == '-' then -(DigitsValue(s[1..]) as int) else DigitsValue(s)
  }

  /** The fallback message "HTTP {status}". */
  function StatusText(status: int): string {
    "HTTP " + Decimal(status)
  }

  lemma {:induction false} NatDigitsRoundTrip(n: nat)
    ensures DigitsValue(NatDigits(n)) == n
    decreases n
  {
    if n >= 10 {
      NatDigitsRoundTrip(n / 10);
      var s := NatDigits(n);
      assert s[..|s| - 1] == NatDigits(n / 10);
    }
  }

  /** The status is recovered from the decimal text of "HTTP {status}". */
  lemma {:induction false} StatusTextRoundTrip(status: int)
    ensures StatusText(status)[..5] == "HTTP "
    ensures DecimalValue(StatusText(status)[5..]) == status
  {
    var s := Decimal(status);
    assert StatusText(status)[5..] == s;
    if status < 0 {
      NatDigitsRoundTrip(-status);
    } else {
      NatDigitsRoundTrip(status);
    }
  }

  /** Distinct statuses produce distinct "HTTP {status}" texts. */
  lemma {:induction false} StatusTextInjective(a: int, b: int)
    requires a != b
    ensures StatusText(a) != StatusText(b)
  {
    StatusTextRoundTrip(a);
    StatusTextRoundTrip(b);
  }

  // ---- response handling --------------------------------------------------

  /** `parse_error_message`: for a Hash body `body['errors']&.first || body['error']
      || "HTTP {status}"`. `&.first` skips a nil "errors", takes the first element
      of an Array (nil when empty), and the first `[key, value]` pair of a Hash;
      any other receiver has no `first` and raises. A non-Hash body gives the
      status text. */
  function ParseErrorMessage(response: Response): Outcome<Json> {
    var fallback := JStr(StatusText(response.status));
    match response.body
    case JObj(fields) =>
      var first: Outcome<Json> := match Lookup(fields, "errors")
        case JNull => Ok(JNull)
        case JArr(elems) => Ok(if |elems| > 0 then elems[0] else JNull)
        case JObj(entries) => if entries == map[] then Ok(JNull) else Unordered(entries)
        case _ => Raise(NoMethodError("first"));
      if first.Ok? then Ok(Or(Or(first.value, Lookup(fields, "error")), fallback)) else first
    case _ => Ok(fallback)
  }

  /** The exception raised for a non-2xx status once its message is known. The
      generic branch is the intended `ApiError` carrying the response. */
  function ErrorFor(response: Response, message: Json): Exception {
    if response.status == 401 then AuthenticationError(message)
    else if response.status == 404 then ResourceNotFoundError(message)
    else if response.status == 422 then ValidationError(message)
    else ApiError(message, Some(response))
  }

  /** `handle_response` with the generic branch as intended: a 2xx status returns
      `[payload, response]`; any other status raises with the parsed message. */
  function HandleResponse(response: Response): Outcome<Reply> {
    if IsSuccess(response.status) then Ok(Reply(Unwrap(response.body), response))
    else
      match ParseErrorMessage(response)
      case Ok(message) => Raise(ErrorFor(response, message))
      case Raise(e) => Raise(e)
      case Unordered(entries) => Unordered(entries)
  }

  /** `handle_response` as written: the generic branch calls `ApiError.new(msg,
      response)`, but this gem's `ApiError` keeps `Exception#initialize`, which
      takes at most one argument, so Ruby raises `ArgumentError` instead. */
  function HandleResponseAsWritten(response: Response): Outcome<Reply> {
    var r := HandleResponse(response);
    if r.Raise? && r.error.ApiError? then
      Raise(ArgumentError(JStr("wrong number of arguments (given 2, expected 0..1)")))
    else r
  }

  /** The outcome of a call and the requests it sent to the transport. */
  datatype Run = Run(result: Outcome<Reply>, sent: seq<Request>)

  function Execute(request: Outcome<Request>, transport: Request -> Response): Run {
    match request
    case Ok(req) => Run(HandleResponse(transport(req)), [req])
    case Raise(e) => Run(Raise(e), [])
    case Unordered(entries) => Run(Unordered(entries), [])
  }

  // ---- properties -----------------------------------------------------------

  /** Every `list_*` method called without arguments is a GET on its fixed path with
      query exactly `{page: 1, per_page: 20}`. */
  lemma ListDefaults()
    ensures var defaults := map["page" := JInt(1), "per_page" := JInt(20)];
      && ListAccounts() == Request(GET, "/accounts", defaults, None)
      && ListContacts() == Request(GET, "/contacts", defaults, None)
      && ListCustomFields() == Request(GET, "/custom_fields", defaults, None)
      && ListArticles() == Request(GET, "/knowledge_base/articles", defaults, None)
      && ListTags() == Request(GET, "/tags", defaults, None)
      && ListTeams() == Request(GET, "/teams", defaults, None)
      && ListTicketForms() == Request(GET, "/ticket-forms", defaults, None)
      && ListUserRoles() == Request(GET, "/user_roles", defaults, None)
      && ListUsers() == Request(GET, "/users", defaults, None)
  {
  }

  /** A nil `start_time` is rejected first, then a nil `end_time`, and a rejected
      call sends nothing to the transport. */
  lemma ListIssuesRequiresBounds(startTime: Json, endTime: Json, page: Json, perPage: Json,
                                 filters: map<string, Json>, transport: Request -> Response)
    ensures !Truthy(startTime) ==>
      ListIssues(startTime, endTime, page, perPage, filters) == Raise(ArgumentError(JStr("start_time is required")))
    ensures Truthy(startTime) && !Truthy(endTime) ==>
      ListIssues(startTime, endTime, page, perPage, filters) == Raise(ArgumentError(JStr("end_time is required")))
    ensures !Truthy(startTime) || !Truthy(endTime) ==>
      Execute(ListIssues(startTime, endTime, page, perPage, filters), transport).sent == []
  {
    if !Truthy(startTime) {
    } else if !Truthy(endTime) {
    } else {
    }
  }

  /** Each paginated endpoint sends exactly the request of the same-named method of
      the newer gem, for every page and page size. */
  lemma SameListRequestsAsNewerGem(page: Json, perPage: Json)
    ensures ListAccounts(page, perPage) == Api.ListAccounts(page, perPage).request
    ensures ListContacts(page, perPage) == Api.ListContacts(page, perPage).request
    ensures ListCustomFields(page, perPage) == Api.ListCustomFields(page, perPage).request
    ensures ListArticles(page, perPage) == Api.ListArticles(page, perPage).request
    ensures ListTags(page, perPage) == Api.ListTags(page, perPage).request
    ensures ListTeams(page, perPage) == Api.ListTeams(page, perPage).request
    ensures ListTicketForms(page, perPage) == Api.ListTicketForms(page, perPage).request
    ensures ListUserRoles(page, perPage) == Api.ListUserRoles(page, perPage).request
    ensures ListUsers(page, perPage) == Api.ListUsers(page, perPage).request
  {
  }

  /** Each endpoint taking an id sends exactly the request of the same-named method
      of the newer gem, for every id and parameters. */
  lemma SameIdRequestsAsNewerGem(id: string, params: Json)
    ensures GetAccount(id) == Api.GetAccount(id).request
    ensures GetAttachment(id) == Api.GetAttachment(id).request
    ensures GetContact(id) == Api.GetContact(id).request
    ensures UpdateContact(id, params) == Api.UpdateContact(id, params).request
    ensures GetIssue(id) == Api.GetIssue(id).request
    ensures UpdateIssue(id, params) == Api.UpdateIssue(id, params).request
    ensures GetArticle(id) == Api.GetArticle(id).request
    ensures GetTeam(id) == Api.GetTeam(id).request
    ensures GetUserRole(id) == Api.GetUserRole(id).request
    ensures GetUser(id) == Api.GetUser(id).request
    ensures UpdateUser(id, params) == Api.UpdateUser(id, params).request
    ensures GetCurrentUser() == Api.GetCurrentUser().request
  {
  }

  /** Each creating endpoint sends exactly the request of the same-named method of
      the newer gem, for every body argument. */
  lemma SameCreateRequestsAsNewerGem(params: Json, file: Json, name: Json, color: Json, fields: Json)
    ensures CreateAttachment(file) == Api.CreateAttachment(file).request
    ensures CreateContact(params) == Api.CreateContact(params).request
    ensures CreateCustomField(params) == Api.CreateCustomField(params).request
    ensures CreateIssue(params) == Api.CreateIssue(params).request
    ensures CreateTag(name, color) == Api.CreateTag(name, color).request
    ensures CreateTeam(params) == Api.CreateTeam(params).request
    ensures CreateTicketForm(name, fields) == Api.CreateTicketForm(name, fields).request
    ensures CreateUser(params) == Api.CreateUser(params).request
  {
  }

  /** `list_issues` is rejected by both gems alike, and otherwise sends the same request. */
  lemma SameListIssuesAsNewerGem(startTime: Json, endTime: Json, page: Json, perPage: Json, filters: map<string, Json>)
    ensures var mine := ListIssues(startTime, endTime, page, perPage, filters);
      var theirs := Api.ListIssues(startTime, endTime, page, perPage, filters);
      && (mine.Ok? <==> theirs.Ok?)
      && (mine.Ok? ==> mine.value == theirs.value.request)
      && (mine.Raise? ==> mine == Raise(theirs.error))
  {
    if !Truthy(startTime) {
    } else if !Truthy(endTime) {
    } else {
    }
  }

  /** `create_tag` omits a nil color and `create_ticket_form` sends `fields: []`
      when no fields are given. */
  lemma OptionalBodies(name: Json)
    ensures CreateTag(name).body == Some(JObj(Compact(map["name" := name])))
    ensures "color" !in CreateTag(name).body.value.fields
    ensures CreateTicketForm(name).body == Some(JObj(map["name" := name, "fields" := JArr([])]))
  {
    assert Compact(map["name" := name, "color" := JNull]) == Compact(map["name" := name]);
  }

  /** Any 2xx status returns `[payload, response]`, the payload being `body["data"]`
      exactly when the body is a Hash with key "data". */
  lemma SuccessReturnsPair(response: Response)
    requires IsSuccess(response.status)
    ensures HandleResponse(response) == Ok(Reply(Unwrap(response.body), response))
    ensures response.body.JObj? && "data" in response.body.fields ==>
      HandleResponse(response).value.data == response.body.fields["data"]
    ensures !(response.body.JObj? && "data" in response.body.fields) ==>
      HandleResponse(response).value.data == response.body
  {
  }

  /** The parsed message is never nil (nor false): the status text stands in for a
      missing one. It can only fail on an "errors" value that has no `first`. */
  lemma ParseErrorMessageNeverNil(response: Response)
    ensures ParseErrorMessage(response).Ok? ==> Truthy(ParseErrorMessage(response).value)
    ensures !response.body.JObj? ==> ParseErrorMessage(response) == Ok(JStr(StatusText(response.status)))
    ensures response.body.JObj? && (Lookup(response.body.fields, "errors").JNull? || Lookup(response.body.fields, "errors").JArr?)
      ==> ParseErrorMessage(response).Ok?
  {
  }

  /** Which message is chosen when "errors" is absent, nil or an Array: its first
      element when truthy (an empty Array has none), else a truthy "error", else
      the status text. */
  lemma ParseErrorMessagePreference(fields: map<string, Json>, status: int, headers: map<string, string>)
    requires Lookup(fields, "errors").JNull? || Lookup(fields, "errors").JArr?
    ensures ParseErrorMessage(Response(status, headers, JObj(fields))).Ok?
    ensures var errors := Lookup(fields, "errors");
      var first := if errors.JArr? && |errors.elems| > 0 then errors.elems[0] else JNull;
      var m := ParseErrorMessage(Response(status, headers, JObj(fields))).value;
      && (Truthy(first) ==> m == first)
      && (!Truthy(first) && Truthy(Lookup(fields, "error")) ==> m == fields["error"])
      && (!Truthy(first) && !Truthy(Lookup(fields, "error")) ==> m == JStr(StatusText(status)))
  {
  }

  /** A Hash body whose "errors" value is a String, whatever its other keys, makes
      `&.first` raise `NoMethodError` before any classification: a 401 answered
      with `{"errors": "..."}` does not raise `AuthenticationError`. */
  lemma StringErrorsRaiseNoMethodError(status: int, headers: map<string, string>, fields: map<string, Json>)
    requires !IsSuccess(status) && Lookup(fields, "errors").JStr?
    ensures HandleResponse(Response(status, headers, JObj(fields))) == Raise(NoMethodError("first"))
    ensures HandleResponseAsWritten(Response(status, headers, JObj(fields))) == Raise(NoMethodError("first"))
  {
  }

  /** Where the newer gem parses a truthy message and "errors" is absent, nil or an
      Array, this gem parses the same message; the two differ only in what stands
      in for a missing one. */
  lemma ParseErrorMessageAgreesWithNewerGem(response: Response)
    requires response.body.JObj?
    requires Lookup(response.body.fields, "errors").JNull? || Lookup(response.body.fields, "errors").JArr?
    requires Truthy(Api.ParseErrorMessage(response))
    ensures ParseErrorMessage(response) == Ok(Api.ParseErrorMessage(response))
  {
  }

  /** Classification, with the generic branch as intended (as written it raises
      `ArgumentError`, see `GenericBranchRaisesArgumentErrorAsWritten`) and when
      the message parses: 401, 404 and 422 raise their own classes and every other
      non-2xx status, 429 and 5xx included, an `ApiError` with the response; the
      message is the parsed one. */
  lemma Classification(response: Response)
    requires !IsSuccess(response.status) && ParseErrorMessage(response).Ok?
    ensures var e := HandleResponse(response).error;
      && HandleResponse(response).Raise?
      && IsPylonError(e)
      && e.message == ParseErrorMessage(response).value
      && (response.status == 401 <==> e.AuthenticationError?)
      && (response.status == 404 <==> e.ResourceNotFoundError?)
      && (response.status == 422 <==> e.ValidationError?)
      && (response.status !in {401, 404, 422} <==> e.ApiError?)
      && (e.ApiError? ==> ResponseOf(e) == Some(response))
  {
  }

  /** With pylon-ruby's generic branch as intended (an `ApiError` carrying the
      response; as written it raises `ArgumentError`, see
      `GenericBranchRaisesArgumentErrorAsWritten`), and when the message parses
      (a String "errors" raises `NoMethodError` first, see
      `StringErrorsRaiseNoMethodError`), the two gems raise the same class for
      every status but 429 (where the newer gem drops the response); messages
      differ only in their fallbacks. */
  lemma AgreesWithNewerGem(response: Response)
    requires !IsSuccess(response.status) && response.status != 429 && ParseErrorMessage(response).Ok?
    ensures var mine := HandleResponse(response).error;
      var theirs := Api.HandleErrorResponse(response);
      && (mine.AuthenticationError? <==> theirs.AuthenticationError?)
      && (mine.ResourceNotFoundError? <==> theirs.ResourceNotFoundError?)
      && (mine.ValidationError? <==> theirs.ValidationError?)
      && (mine.ApiError? <==> theirs.ApiError?)
      && ResponseOf(mine) == ResponseOf(theirs)
  {
  }

  /** As written, when the message parses (a String "errors" raises
      `NoMethodError` first, see `StringErrorsRaiseNoMethodError`), every status
      the generic branch handles, 429 and 5xx included, raises `ArgumentError`
      instead of the intended `ApiError`. */
  lemma GenericBranchRaisesArgumentErrorAsWritten(response: Response)
    requires !IsSuccess(response.status) && response.status !in {401, 404, 422}
    requires ParseErrorMessage(response).Ok?
    ensures HandleResponse(response).Raise? && HandleResponse(response).error.ApiError?
    ensures HandleResponseAsWritten(response)
      == Raise(ArgumentError(JStr("wrong number of arguments (given 2, expected 0..1)")))
    ensures HandleResponseAsWritten(Response(429, map[], JObj(map["errors" := JArr([JStr("Rate limit exceeded")])]))).error.ArgumentError?
  {
  }
}
