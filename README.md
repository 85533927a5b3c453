# Pylon API client — Dafny model

This project models the logic of a thin Ruby client for the Pylon ticketing REST API,
in its two variants. The newer `pylon-api` gem wraps results in model objects. The
older `pylon-ruby` gem returns raw `[data, response]` pairs. The model covers:

- **Request builders.** Each endpoint method (`list_accounts`, `get_account`,
  `list_issues`, `snooze_issue`, `create_tag`, …) becomes a function that returns a
  `Request` (verb, path with the id interpolated, query, JSON body). In `pylon-api`
  the function also returns the `Shape` saying how to wrap the answer. `list_issues`
  checks its two time bounds before any request exists. Timestamps are opaque
  values passed through unparsed.
- **Response shaping.** The `{"data": X}` envelope is stripped only from a Hash body
  that has the key `"data"`. The payload then becomes one model, a `Collection`, or
  a raw `Reply` pair.
- **Status classification and message extraction**, for both variants.
  `pylon-api` has a 429 branch and per-status default messages. `pylon-ruby` has
  neither and falls back to `"HTTP {status}"`.
- **`Models::Base`**: field access over the attributes through `method_missing`.
  An absent field raises `NoMethodError`; a field present with a null value answers
  nil.
- **`Models::Collection`**: the wrapped items in order, `size`, `[]` (with Ruby's
  negative indices), `each` and `to_a`.
- **The error taxonomy** `Pylon::Error` and its four subclasses.

Modules, one per file:

- `JsonValue` (`json.dfy`): the JSON datatype with no floats. Ruby's nil is
  `JNull`. Also Ruby truthiness (`Truthy`), `a || b` (`Or`), `Hash#[]` (`Lookup`)
  and `Hash#compact` (`Compact`).
- `Http` (`http.dfy`): `Request`, `Response` (status, headers, decoded body), the
  `Reply` pair and the envelope unwrap that both variants share.
- `Errors` (`errors.dfy`): the exception datatype and the `Outcome` of a Ruby
  call: a value, a raised exception, or `Unordered` (see "Left out").
- `Models` (`models.dfy`) and `Collections` (`collection.dfy`): the model wrappers.
- `ApiClient` (`api_client.dfy`) and `RubyClient` (`ruby_client.dfy`): the clients.

The HTTP transport is a function parameter `Request -> Response` of `Execute`.
`Execute` records the requests sent, so "no request is sent" can be stated.

Notes on the code as written:

- Only `ApiError` carries the response, and the 429 branch of `pylon-api` attaches
  none.
- The 429 message is a fixed default or the parsed message; it does not read the
  response headers.
- The per-status defaults belong to `pylon-api` and the `"HTTP {status}"` fallback
  to `pylon-ruby`; neither variant uses both.

## Model

| member | source | states |
|---|---|---|
| Http.UnwrapEnvelope | pylon-api/lib/pylon/client.rb:355-356 | unwrapping `{"data": x, ...}` yields exactly `x`, even when `x` is null |
| Http.UnwrapUnchangedIff | pylon-api/lib/pylon/client.rb:355-356 | the payload equals the body if and only if the body is not a Hash with key "data" |
| Errors.NewApiError | pylon-api/lib/pylon.rb:16-22 | `ApiError.new(m, r)` is a `Pylon::Error` keeping message `m` and response `r`; both default to nil |
| Errors.TaxonomyKinds | pylon-api/lib/pylon.rb:11-16 | the four subclasses are kinds of `Pylon::Error`; Ruby's `ArgumentError` and `TypeError` are not |
| Errors.OnlyApiErrorCarriesResponse | pylon-api/lib/pylon.rb:11-22 | only an `ApiError` exposes a response, and one built without a response exposes nil |
| Models.NewDefaults | pylon-api/lib/pylon/models/base.rb:8-11 | no attributes, or nil attributes, give `{}`; the response defaults to nil and otherwise is kept |
| Models.ToHRoundTrip | pylon-api/lib/pylon/models/base.rb:30-33 | `to_h` returns exactly the attributes given to `new`, and `_response` the response given |
| Models.FieldIffPresent | pylon-api/lib/pylon/models/base.rb:13-20 | for a name that reaches `method_missing` (not a public method of `Base` or `Object`), named access succeeds exactly for present keys and returns the stored value (null included); an absent key raises `NoMethodError` |
| Models.AbsentDiffersFromNull | pylon-api/lib/pylon/models/base.rb:13-28 | named access tells an absent key from a present null, while `[]` answers nil for both |
| Models.RespondToAgreesWithField | pylon-api/lib/pylon/models/base.rb:13-24 | `respond_to_missing?` is true exactly when named access succeeds; both raise on non-Hash attributes |
| Models.IndexAgreesWithField | pylon-api/lib/pylon/models/base.rb:26-28 | on Hash attributes `[]` never raises: it answers the value for a present key and nil for an absent one |
| Models.IndexOnString | pylon-api/lib/pylon/models/base.rb:26-28 | on String attributes `[]` answers the key itself when the key occurs in the string |
| Collections.WrapAll | pylon-api/lib/pylon/models/collection.rb:11-13 | `items.map` gives one item per input element, and item `i` wraps element `i` |
| Collections.NewFromArray | pylon-api/lib/pylon/models/collection.rb:10-15 | a collection built from an Array has size equal to the input length, item `i` wraps `input[i]`, and the response is the one given |
| Collections.WrappedItemsHaveNoResponse | pylon-api/lib/pylon/models/collection.rb:11-14 | with a model class every item is a model of that class over its element (nil becomes `{}`), and no item keeps a response |
| Collections.RawItemsUnchanged | pylon-api/lib/pylon/models/collection.rb:11-13 | without a model class the items are the input elements, unchanged and in order |
| Collections.EmptyInput | pylon-api/lib/pylon/models/collection.rb:10-13 | an empty Array, an empty Hash or no argument gives an empty collection of size 0 and no error |
| Collections.NonEnumerableRaises | pylon-api/lib/pylon/models/collection.rb:11 | input that is neither an Array nor a Hash raises `NoMethodError` for `map` |
| Collections.At | pylon-api/lib/pylon/models/collection.rb:21-23 | `[i]` answers item `i` in range, counts back from the end for a negative `i`, and answers nil exactly outside both ranges |
| Collections.Each | pylon-api/lib/pylon/models/collection.rb:17-19 | `each` calls the block once per item, in stored order |
| Collections.EachFollowsToA | pylon-api/lib/pylon/models/collection.rb:17-32 | the order `each` visits the items in is the order `to_a` returns them in |
| ApiClient.ListDefaults | pylon-api/lib/pylon/client.rb:33-284 | every `list_*` method called without arguments is a GET on its fixed path, with query exactly `{page: 1, per_page: 20}`, no body, and its collection shape |
| ApiClient.ListIssuesRequiresBounds | pylon-api/lib/pylon/client.rb:123-125 | a nil `start_time` raises "start_time is required" whatever `end_time` is; then a nil `end_time` raises "end_time is required"; a call is built if and only if both are given |
| ApiClient.ListIssuesRejectedSendsNothing | pylon-api/lib/pylon/client.rb:123-125 | a rejected `list_issues` sends no request to the transport |
| ApiClient.ListIssuesQuery | pylon-api/lib/pylon/client.rb:127-132 | the query holds every caller filter unchanged plus `start_time`, `end_time`, `page` and `per_page` with the given values; exactly one GET on "/issues" is sent |
| ApiClient.IdInterpolatedVerbatim | pylon-api/lib/pylon/client.rb:42-309 | the id is recovered verbatim from each GET id endpoint's path after its prefix, `get_account` being a bare GET on "/accounts/" + id; `update_contact`, `update_issue` and `update_user` are a PATCH on prefix + id with body `params` |
| ApiClient.IdPathsInjective | pylon-api/lib/pylon/client.rb:42-167 | distinct ids give distinct `get_account` and `snooze_issue` paths |
| ApiClient.SnoozeIssueRequest | pylon-api/lib/pylon/client.rb:165-168 | `snooze_issue` is a POST on "/issues/" + id + "/snooze" with body `{snooze_until}`, wrapped as an Issue |
| ApiClient.CreateTagCompactsNil | pylon-api/lib/pylon/client.rb:210-212 | the tag body has a `color` entry if and only if the color is not nil, and a `name` entry if and only if the name is not nil; values are unchanged |
| ApiClient.CreateTicketFormDefaultFields | pylon-api/lib/pylon/client.rb:255-257 | without fields, `create_ticket_form` sends `fields: []` |
| ApiClient.ResultShapes | pylon-api/lib/pylon/client.rb:354-367 | with a model class and `collection` the result is a Collection over the payload; with a model class alone, one model holding the response; with no model class, the raw pair whatever the flag |
| ApiClient.SingleModelKeepsPayload | pylon-api/lib/pylon/client.rb:362 | the single model exposes every field of the unwrapped payload and keeps the response |
| ApiClient.UntypedEndpointsReturnPairs | pylon-api/lib/pylon/client.rb:358-366 | `list_custom_fields`, `list_user_roles`, `get_user_role` and `create_custom_field` return `[payload, response]` |
| ApiClient.EmptyPageIsEmptyCollection | pylon-api/lib/pylon/client.rb:355-360 | an empty page, bare or in an envelope (other keys beside "data" allowed), becomes an empty collection carrying the response, and no error |
| ApiClient.ParseErrorMessageCases | pylon-api/lib/pylon/client.rb:395-403 | nil for a non-Hash body; else the first element of a non-empty "errors" Array; else a String "error"; else nil |
| ApiClient.Classification | pylon-api/lib/pylon/client.rb:376-388 | 401, 404 and 422 (and only they) raise their own classes; every other status raises `ApiError`; 429 carries no response and any other status carries it; a truthy parsed message is used |
| ApiClient.DefaultMessages | pylon-api/lib/pylon/client.rb:378-388 | without a parsed message the messages are "Invalid API key", "Resource not found", "Validation error", "Rate limit exceeded" and "Internal server error" |
| ApiClient.HandleResponseContract | pylon-api/lib/pylon/client.rb:327-336 | as documented: a 2xx status returns the shaped payload, and any other status raises a `Pylon::Error` |
| ApiClient.SuccessFallsThroughAsWritten | pylon-api/lib/pylon/client.rb:344-345 | as written, a 2xx response whose payload could be shaped raises the generic `ApiError` with the response instead of returning the payload |
| ApiClient.AsWrittenAgreesOnErrors | pylon-api/lib/pylon/client.rb:344-345 | outside 2xx the code as written and as documented behave the same |
| RubyClient.ListDefaults | pylon-ruby/lib/pylon/client.rb:14-147 | every `list_*` method called without arguments is a GET on its fixed path with query exactly `{page: 1, per_page: 20}` |
| RubyClient.ListIssuesRequiresBounds | pylon-ruby/lib/pylon/client.rb:66-76 | a nil `start_time` raises "start_time is required", then a nil `end_time` raises "end_time is required"; either way nothing is sent |
| RubyClient.SameListRequestsAsNewerGem | pylon-ruby/lib/pylon/client.rb:14-147 | each paginated endpoint sends the same request as its namesake in the newer gem, for all page arguments |
| RubyClient.SameIdRequestsAsNewerGem | pylon-ruby/lib/pylon/client.rb:18-158 | each id endpoint, and `get_current_user`, sends the same request as its namesake in the newer gem, for every id and body |
| RubyClient.SameCreateRequestsAsNewerGem | pylon-ruby/lib/pylon/client.rb:23-150 | each creating endpoint sends the same request as its namesake in the newer gem |
| RubyClient.SameListIssuesAsNewerGem | pylon-ruby/lib/pylon/client.rb:66-76 | `list_issues` fails exactly when the newer gem's does, with the same error, and otherwise sends the same request |
| RubyClient.OptionalBodies | pylon-ruby/lib/pylon/client.rb:109-133 | `create_tag` omits a nil color; `create_ticket_form` sends `fields: []` when no fields are given |
| RubyClient.SuccessReturnsPair | pylon-ruby/lib/pylon/client.rb:183-187 | any 2xx status returns `[payload, response]`; the payload is `body["data"]` when the body is a Hash with key "data", and the body otherwise |
| RubyClient.ParseErrorMessageNeverNil | pylon-ruby/lib/pylon/client.rb:199-205 | a parsed message is never nil or false; a non-Hash body gives "HTTP {status}"; a nil, absent or Array "errors" never raises |
| RubyClient.ParseErrorMessagePreference | pylon-ruby/lib/pylon/client.rb:199-205 | when "errors" is absent, nil or an Array, parsing succeeds and the message is its first element if truthy, else a truthy "error" (as in `{"error": "Not found"}`), else "HTTP {status}" |
| RubyClient.StringErrorsRaiseNoMethodError | pylon-ruby/lib/pylon/client.rb:201 | for any non-2xx Hash body whose "errors" value is a String, whatever its other keys, `first` is missing, so the response raises `NoMethodError` instead of a classified error, both as intended and as written |
| RubyClient.ParseErrorMessageAgreesWithNewerGem | pylon-ruby/lib/pylon/client.rb:199-205 | when the newer gem's `parse_error_message` (pylon-api/lib/pylon/client.rb:395-403) gives a truthy message and "errors" is absent, nil or an Array, this gem parses the same message |
| RubyClient.Classification | pylon-ruby/lib/pylon/client.rb:183-196 | with the generic branch as intended (see Findings; as written it raises `ArgumentError`), and when the message parses: 401, 404 and 422 (and only they) raise their own classes; every other non-2xx status, 429 and 5xx included, raises `ApiError` with the response; the message is the parsed one |
| RubyClient.AgreesWithNewerGem | pylon-ruby/lib/pylon/client.rb:188-195 | with pylon-ruby's generic branch as intended (see Findings; as written it raises `ArgumentError`), and when the message parses (a String "errors" raises `NoMethodError` first, see `StringErrorsRaiseNoMethodError`), for every non-2xx status but 429 both gems raise the same class with the same attached response |
| RubyClient.GenericBranchRaisesArgumentErrorAsWritten | pylon-ruby/lib/pylon/client.rb:194-195 | as written, when the message parses (a String "errors" raises `NoMethodError` first, see `StringErrorsRaiseNoMethodError`), every status of the generic branch, 429 included, raises `ArgumentError` instead of `ApiError` |
| RubyClient.NatDigits | pylon-ruby/lib/pylon/client.rb:201-203 | the status text is a non-empty string of decimal digits with no leading zero |
| RubyClient.StatusTextRoundTrip | pylon-ruby/lib/pylon/client.rb:201-203 | "HTTP {status}" is "HTTP " followed by a decimal text from which the status is recovered |
| RubyClient.StatusTextInjective | pylon-ruby/lib/pylon/client.rb:203 | distinct statuses give distinct "HTTP {status}" messages |

## Findings

| source | as written | input that shows it | evidently intended | confidence | as-written member | corrected member |
|---|---|---|---|---|---|---|
| pylon-api/lib/pylon/client.rb:344-345 | the shaped result of a 2xx response is discarded, and `handle_error_response` runs for every status | `list_accounts` answered with 200 and `{"data": []}` raises `ApiError` "Internal server error" | a 2xx returns the shaped payload, as the doc comment at line 332 and pylon-api/spec/pylon/client_spec.rb:114-122 expect | high (not executed) | ApiClient.SuccessFallsThroughAsWritten | ApiClient.HandleResponseContract |
| pylon-ruby/lib/pylon/client.rb:195 | calls `ApiError.new(msg, response)`, but `ApiError` in pylon-ruby/lib/pylon.rb:13 keeps `Exception#initialize`, which takes at most one argument; it also has no `response` reader | `get_current_user` answered with 429 raises `ArgumentError` | an `ApiError` that carries the response, as pylon-ruby/spec/pylon/client_spec.rb:539-545 expects; the fix needs both a two-argument initializer and a `response` reader, as pylon-api/lib/pylon.rb:16-22 has | high (not executed) | RubyClient.GenericBranchRaisesArgumentErrorAsWritten | RubyClient.Classification |

`ApiClient.Execute` and `RubyClient.Execute` use the corrected handlers
(`HandleResponse`). The as-written handlers are `HandleResponseAsWritten` in each
module.

## Left out

- The transport is not modelled. This covers Faraday, the memoised connection,
  the base URL, the authorization and content headers, JSON serialisation of
  bodies, URL encoding of queries, and multipart upload. It is a foreign library,
  so `Execute` takes the transport as a function parameter.
- Debug logging with `puts` and the client constructor's immutable configuration
  (API key, base URL, debug flag) are not modelled, because they are I/O and setup
  only.
- The `delete` helpers are modelled, but no endpoint uses them.
- Ids are taken after `to_s`. String interpolation of a non-String id is not
  modelled.
- Ruby raises "missing keyword" before the guard when a required keyword is
  omitted. That is not modelled, because Dafny parameters cannot be omitted.
  pylon-api/spec/pylon/client_spec.rb:231-241 tests that arity error, not the
  guard. pylon-ruby/spec/pylon/client_spec.rb:133-142 instead expects the guard's
  messages ("start_time is required", "end_time is required") for an omitted
  keyword, which Ruby's "missing keyword" error pre-empts.
- JSON objects are unordered maps, so two outcomes that depend on a Hash's
  insertion order are left open as `Unordered(entries)`:
  - `Collections.New` given a non-empty Hash payload, where Ruby maps its
    `[key, value]` pairs in order.
  - `RubyClient.ParseErrorMessage` given a non-empty Hash "errors" value, where
    Ruby takes its first pair. `RubyClient.HandleResponse` and
    `HandleResponseAsWritten` then answer `Unordered` too, so the exception class
    is not modelled there either, although in Ruby it does not depend on the order:
    a 401 with `{"errors": {"a": "b"}}` raises `AuthenticationError`, and as
    written the generic branch raises `ArgumentError`.
- Exception messages are kept as JSON values. Their rendering by `to_s`, and the
  class-name message of an exception built with nil, are not modelled.
- `Base#inspect` and `Collection#inspect` are not modelled, because they are
  debugging text.
- The `to_hash` alias is `ToH`, and `length` is `Size`.
- The `Enumerable` methods that `Collection` gains from `each` are not modelled;
  `each` without a block is not modelled either.
- The resource classes (`Account`, `Issue`, `Tag`, …) are not part of this model.
  They appear only as the `ModelKind` tag over `Base`.
- Named access is modelled as `method_missing` (`Models.Field`) and `respond_to?`
  only through `respond_to_missing?`. A key that is also a public method of `Base`
  or `Object` (`attributes`, `to_h`, `inspect`, `hash`, `class`, `method`,
  `display`, …) answers that method instead of the attribute; such names are not
  covered.
- Test expectations that the code does not meet are not modelled:
  - pylon-ruby/spec/pylon/client_spec.rb:515 expects a "message" key that
    `parse_error_message` never reads.
  - pylon-ruby/spec/pylon/client_spec.rb:133-142 expects the guard's messages
    for an omitted keyword (see above).
  - pylon-ruby/spec/spec_helper.rb:31 stubs a `/v1` path prefix that the client
    does not use.
