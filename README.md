# Penneo API connector, modelled in Dafny

This project models the API connector of the Penneo document-signing SDK
(`Penneo/Connector/ApiConnector.cs`). The connector is the SDK's only point of
contact with the Penneo REST service. The model covers three parts of it:

- **Request preparation.** `PrepareRequest` and `VisitQuery` copy the
  configured headers and add `x-paginate: true` when a page is requested.
  They collect the parameters: the query entries with the first character of
  each key lower-cased, then `per_page`, then `page`. They reject a
  non-positive `perPage`, and after it a non-positive `page`. Last, they merge
  the parameters into the caller's data dictionary in place.
- **Response interpretation and the entity operations.** `ExtractResponse`
  applies the success set {200, 201, 204}. `WriteObject` decides between a
  POST (a new entity) and a PUT (an entity with an id). `DeleteObject`,
  `ReadObject`, `LinkEntity`, `UnlinkEntity`, `GetLinkedEntities`,
  `FindLinkedEntity`, `FindBy` and `PerformAction` each have their own URL
  shape and success rule.
- **The connector's state.** This is the per-entity result table, which is
  last-write-wins and keyed by the entity's local token. It also covers the
  last response and the "was the last response an error" flag.

The HTTP round trip is abstract. Each operation takes a parameter `reply`,
which is the server's answer to the request the operation sends. The transport
appends every request it is handed to the connector's `sent` log. So "no
request is sent" is stated as "`sent` is unchanged".

Modules:

- `Wrappers`: `Option` (for C# null) and `Result` (for a thrown exception).
- `StringUtil`: `FirstCharacterToLower`, and the decimal rendering of an `int`
  or `int?` that is concatenated onto a URL, with its parser.
- `Http`: status codes, the three success rules, verbs, and the request,
  response and error values.
- `Requests`: what `PrepareRequest` builds, as functions of its inputs.
- `Entities`: the `Entity`, `ServerResult` and request-data `Dictionary`
  classes, and the result-table functions.
- `Connector`: the URL shapes and the `ApiConnector` class.
- `Scenarios`: worked examples, each on a fresh connector, whose outcomes are
  proved.

Modelling decisions:

- An entity is new exactly when its `id` is absent.
- `GetRequestData` returns a fresh dictionary that holds the entity's request
  data, or null when the entity has none. The source of `Entity` is not
  available, so `Entities.Entity` holds only the fields the connector touches.
- `RestResources.GetResource` is the connector's function-valued constant
  `resource(type, parent)`. The parent is passed as what the resolver can see
  of it: its type, its `relativeUrl` and its id, or null for no parent.
  `ReadObject` (line 198) fetches a `RestResources` from the service locator
  at each call, while the other operations use the one `Init` captured
  (line 396). The model assumes both give the same paths, and uses one
  `resource` for both.
- A query dictionary is a sequence of pairs in its enumeration order. Two keys
  that differ only in their first character's case lower-case to the same
  parameter, and then the later entry wins.
- Request headers map each name to its values in the order added, as
  `HttpHeaders.Add` appends. Names are compared exactly. A configured header
  spelled `x-paginate` therefore ends up with two values.
- A response carries what its content deserialises to: an object and a list,
  each possibly null. `WriteObject` (for a successful POST) and `ReadObject`
  (when an id is forced onto the object) dereference the object; when it is
  null they raise `NullReference`, after whatever the source has already
  recorded or sent.
- `CallServer` reads the response's status code before it returns, so it
  never returns null. The `response == null` tests in the operations are dead
  code. The operations pass `Some(reply)` to `ExtractResponse`, which still
  models its own null branch.
- Facts about the code that a reader might not expect:
  - `ReadObject`, `DeleteObject`, `FindLinkedEntity` and `PerformAction`
    record no result in the table. Only `WriteObject`, `LinkEntity`,
    `UnlinkEntity` and `GetLinkedEntities` do.
  - `FindBy` passes no data dictionary. Its query and paging parameters are
    therefore collected and validated but never transmitted; only the
    `x-paginate` header reaches the server (`NoDataNoParameters`,
    `FindBy`).
  - A successful `PerformAction` leaves `StatusCode` at 0. This rests on an
    assumption, because the source of `ServerResult` is not available: a new
    `ServerResult` has `Success` false, `StatusCode` 0, and null content,
    message and objects (`Entities.ServerResult.constructor`).

## Model

| member | source | states |
|---|---|---|
| `Http.SuccessRulesNest` | Penneo/Connector/ApiConnector.cs:39 | the success set is exactly 200, 201 and 204; delete success is that set without Created; read success is exactly OK |
| `Http.IsSuccessStatus` | Penneo/Connector/ApiConnector.cs:39 | every status in the shared success set is a 2xx code (its members are given by `SuccessRulesNest`) |
| `Http.IsDeleteSuccess` | Penneo/Connector/ApiConnector.cs:186 | DeleteObject's rule (200 or 204) lies inside the success set and rejects 201 |
| `Http.IsReadSuccess` | Penneo/Connector/ApiConnector.cs:204 | ReadObject's rule (200 only) lies inside the delete rule and rejects 204 |
| `StringUtil.IdText` | Penneo/Connector/ApiConnector.cs:139 | concatenating an `int?` gives the empty string exactly when it is null |
| `Connector.ItemUrl` | Penneo/Connector/ApiConnector.cs:139 | `relativeUrl/id` starts with `relativeUrl/` and is one character longer than the two parts; a null id leaves a trailing slash |
| `Connector.NestedUrl` | Penneo/Connector/ApiConnector.cs:249 | `relativeUrl/id/segment` starts with the item URL and a slash, and its length is theirs plus the segment's |
| `Connector.MemberUrl` | Penneo/Connector/ApiConnector.cs:223 | `relativeUrl/id/resource/memberId` starts with the nested URL and a slash, followed by the member id's text |
| `Connector.ReadUrl` | Penneo/Connector/ApiConnector.cs:198-202 | the chosen base URL is always a prefix, and the URL is the base itself exactly when no id is given |
| `Connector.FindOptions` | Penneo/Connector/ApiConnector.cs:330-335 | options exist only for a non-empty query, and reading their "query" entry back gives the query (or nothing) |
| `Requests.Validate` | Penneo/Connector/ApiConnector.cs:479-494 | no error iff both paging values are absent or positive; `perPage` is reported first, `page` only when `perPage` is valid |
| `Requests.Visited` | Penneo/Connector/ApiConnector.cs:513-518 | the query visit keeps every key already in the parameters |
| `StringUtil.IsNullOrEmpty` | Penneo/Connector/ApiConnector.cs:198 | `string.IsNullOrEmpty` is false exactly for a non-null, non-empty string |
| `StringUtil.NatToString` | Penneo/Connector/ApiConnector.cs:201 | the decimal rendering of a non-negative number is a non-empty digit string without a leading zero |
| `StringUtil.IntToString` | Penneo/Connector/ApiConnector.cs:201 | `int.ToString()` is non-empty, starts with a minus sign exactly for a negative number, and otherwise is digits only |
| `Requests.AddHeader` | Penneo/Connector/ApiConnector.cs:463 | `Headers.Add` appends one value under the name, creating the name if absent, and leaves every other header as it was |
| `Requests.ConfiguredHeaders` | Penneo/Connector/ApiConnector.cs:453-459 | copying the configured headers gives the same names, each with its one configured value |
| `Requests.QueryOf` | Penneo/Connector/ApiConnector.cs:466-477 | only the "query" entry of the options is visited; without options or without that entry nothing is |
| `Requests.WithPerPage` | Penneo/Connector/ApiConnector.cs:485 | with a value, `per_page` is added or overwritten with it; every other parameter is kept; without a value nothing changes |
| `Requests.WithPage` | Penneo/Connector/ApiConnector.cs:493 | with a value, `page` is added or overwritten with it; every other parameter is kept; without a value nothing changes |
| `Requests.LoweredKeysSnoc` | Penneo/Connector/ApiConnector.cs:515-518 | the lower-cased keys of a query are those of its entries but the last, plus the last entry's |
| `Entities.Entity.IsNew` | Penneo/Connector/ApiConnector.cs:137 | an entity is new exactly when it has no id (an assumption: the source of `Entity` is not available) |
| `Entities.ServerResult.constructor` | Penneo/Connector/ApiConnector.cs:126 | a new result is unsuccessful, with status 0 and null content, message and objects (an assumption: the source of `ServerResult` is not available) |
| `Connector.ApiConnector.FillParameters` | Penneo/Connector/ApiConnector.cs:466-494 | the parameter part of `PrepareRequest` reports exactly the `Validate` error and leaves the parameters as `ParametersLeft` |
| `StringUtil.FirstCharacterToLower` | Penneo/Connector/ApiConnector.cs:517 | same length, character 0 lower-cased, every later character unchanged |
| `StringUtil.ParseNatToString` | Penneo/Connector/ApiConnector.cs:139 | the decimal rendering of an id parses back to the id |
| `StringUtil.IntToStringInjective` | Penneo/Connector/ApiConnector.cs:139 | distinct integers render as distinct strings |
| `StringUtil.IdTextInjective` | Penneo/Connector/ApiConnector.cs:223 | concatenating an `int?` gives distinct text for distinct ids, and the empty string only for null |
| `Connector.ItemUrlInjective` | Penneo/Connector/ApiConnector.cs:139 | under one REST path, two ids give the same `relativeUrl/id` URL only if they are equal |
| `Requests.RequestHeaders` | Penneo/Connector/ApiConnector.cs:453-464 | every configured header is copied once; `x-paginate` gets a trailing "true" exactly when a page is given |
| `Requests.PaginateHeaderIffPage` | Penneo/Connector/ApiConnector.cs:461-464 | without a configured `x-paginate`, the header is present iff a page is given, with the single value "true" |
| `Requests.VisitedKeys` | Penneo/Connector/ApiConnector.cs:513-518 | after the visit the parameter keys are the old keys plus every lower-cased query key |
| `Requests.VisitedLatest` | Penneo/Connector/ApiConnector.cs:513-518 | a lower-cased key holds the value of the last query entry with that key |
| `Requests.VisitedUntouched` | Penneo/Connector/ApiConnector.cs:513-518 | a key that no query entry lower-cases to keeps its old value, or stays absent |
| `Requests.Parameters` | Penneo/Connector/ApiConnector.cs:466-494 | `per_page` and `page` hold the paging values and overwrite query entries; every other key is as the query visit left it |
| `Requests.ParametersLeft` | Penneo/Connector/ApiConnector.cs:450-494 | the parameter dictionary that remains: the query only when `perPage` fails, the query with `per_page` when `page` fails, all parameters otherwise |
| `Requests.Prepare` | Penneo/Connector/ApiConnector.cs:446-507 | `perPage` <= 0 fails first, then `page` <= 0; it succeeds iff both are absent or positive; a success keeps the verb and URL, and has a body iff data was given |
| `Requests.BodyMerge` | Penneo/Connector/ApiConnector.cs:496-505 | the body has the data keys and the parameter keys; parameters overwrite the data, and other data entries are kept |
| `Requests.NoDataNoParameters` | Penneo/Connector/ApiConnector.cs:496-505 | without a data dictionary the request has no body, so no parameter is transmitted |
| `Requests.UnpagedBodyIsData` | Penneo/Connector/ApiConnector.cs:446-507 | a request with no options or paging has only the configured headers, and its body is the data unchanged |
| `Entities.Recorded` | Penneo/Connector/ApiConnector.cs:630-640 | a null entity leaves the table unchanged; otherwise the entity's token maps to the new result and every other entry is unchanged |
| `Entities.Lookup` | Penneo/Connector/ApiConnector.cs:645-660 | null for a null entity or an absent token, otherwise the stored result |
| `Entities.LookupRecorded` | Penneo/Connector/ApiConnector.cs:630-660 | after recording, a lookup of the same token gives the new result, and a lookup of any other token is as before |
| `Entities.Entity.GetRequestData` | Penneo/Connector/ApiConnector.cs:128-129 | null iff the entity has no request data; otherwise a fresh dictionary with that data |
| `Connector.ApiConnector.constructor` | Penneo/Connector/ApiConnector.cs:398-414 | the headers are the configured ones (or none) plus `penneo-api-user` when a user is set; the table is empty |
| `Connector.ApiConnector.VisitQuery` | Penneo/Connector/ApiConnector.cs:513-519 | the loop leaves the parameters equal to the visit of the query, in order |
| `Connector.ApiConnector.CopyHeaders` | Penneo/Connector/ApiConnector.cs:453-459 | the loop copies every configured header exactly once |
| `Connector.ApiConnector.MergeParameters` | Penneo/Connector/ApiConnector.cs:496-503 | the loop leaves the caller's dictionary as the old data with the parameters written over it |
| `Connector.ApiConnector.PrepareRequest` | Penneo/Connector/ApiConnector.cs:446-507 | its result equals `Prepare`; the parameters end as `ParametersLeft`; the caller's data is merged in place only when preparation succeeds |
| `Connector.ApiConnector.CallServer` | Penneo/Connector/ApiConnector.cs:549-580 | a failed preparation sends nothing and leaves the last response and the error flag unchanged; otherwise it sends exactly the prepared request, keeps the response, and sets the flag to "status not in the success set" |
| `Connector.ApiConnector.SetLatestEntityServerResult` | Penneo/Connector/ApiConnector.cs:630-640 | the table becomes `Recorded` of the old table |
| `Connector.ApiConnector.GetLatestEntityServerResult` | Penneo/Connector/ApiConnector.cs:645-660 | null for a null entity or an absent token, otherwise the last stored result |
| `Connector.ApiConnector.ExtractResponse` | Penneo/Connector/ApiConnector.cs:156-178 | success iff there is a response whose status is in {200, 201, 204}; the status and content are copied, "Empty response" is set without a response, and the result is always recorded for the entity |
| `Connector.ApiConnector.WriteObject` | Penneo/Connector/ApiConnector.cs:124-154 | no data: a failed result with "Unable to get request data" and no request; an entity with an id: a PUT to `relativeUrl/id` that never changes the id; a new entity: a POST to `relativeUrl` that takes the server's id only on success, and raises after recording the result when a successful reply deserialises to null |
| `Connector.ApiConnector.DeleteObject` | Penneo/Connector/ApiConnector.cs:183-187 | one DELETE to `relativeUrl/id`; success iff the status is OK or NoContent; the result table is unchanged |
| `Connector.ApiConnector.ReadObject` | Penneo/Connector/ApiConnector.cs:195-214 | a GET to the explicit URL (if non-empty) or to the resolved resource, with `/id` when an id is given; an object only on status 200, with its id forced to the requested one; a null object on status 200 raises when an id is given and is returned as null otherwise |
| `Connector.ApiConnector.LinkEntity` | Penneo/Connector/ApiConnector.cs:221-227 | a LINK to `parent/id/resource(child)/childId`, successful per the success set, with the result recorded for the parent only |
| `Connector.ApiConnector.UnlinkEntity` | Penneo/Connector/ApiConnector.cs:232-238 | the same as LinkEntity, with the UNLINK verb |
| `Connector.ApiConnector.GetLinkedEntities` | Penneo/Connector/ApiConnector.cs:243-263 | a GET to the explicit URL or to `relativeUrl/id/resource`; the query result, recorded for the entity, holds the entities only on success |
| `Connector.ApiConnector.FindLinkedEntity` | Penneo/Connector/ApiConnector.cs:268-277 | a GET to `relativeUrl/id/resource/id`; a status outside the success set raises instead of returning |
| `Connector.ApiConnector.FindBy` | Penneo/Connector/ApiConnector.cs:325-345 | non-positive paging values raise before anything is sent; otherwise one GET with no body and the paging header, with success and entities per the success set |
| `Connector.ApiConnector.PerformAction` | Penneo/Connector/ApiConnector.cs:350-364 | a bodiless `patch` to `relativeUrl/id/action`; the fresh, unrecorded result holds the status only on failure |
| `Scenarios.CreateCaseFile` | Penneo/Connector/ApiConnector.cs:144-151 | a new case file answered 201 with id 42 gets id 42, and a successful result is stored |
| `Scenarios.CreatedWithoutBody` | Penneo/Connector/ApiConnector.cs:144-151 | a 201 whose body is null stores a successful result, then raises, and the entity keeps no id |
| `Scenarios.LinkTwoEntities` | Penneo/Connector/ApiConnector.cs:221-227 | a LINK answered 200 succeeds and a successful result is stored for the parent |
| `Scenarios.NestedNotFound` | Penneo/Connector/ApiConnector.cs:256-277 | a 404 makes FindLinkedEntity raise, but is only a failed result for GetLinkedEntities |
| `Scenarios.ZeroPageNeverSent` | Penneo/Connector/ApiConnector.cs:487-494 | page 0 raises before any request reaches the transport |
| `Scenarios.QueryKeyLowered` | Penneo/Connector/ApiConnector.cs:331-336 | the query key "Name" becomes the parameter "name", and the request has no body |

## Left out

- Transport: `HttpClient`, `SendAsync`, the client handler, cookies and proxy
  selection (`SetProxy`, the default web proxy) are I/O and ambient OS
  configuration. The server's answer is the parameter `reply`.
- WSSE authentication (`_authenticator.Authenticate`): the authenticator class
  is not part of this model. `sent` holds each request as prepared, before it
  is signed.
- JSON serialisation and deserialisation (`CreateObjects`, `CreateObject`, the
  JSON library): a response carries what its content deserialises to, as one
  `Payload` and as a list, each possibly null. A request body is kept as a
  map, not as JSON text. Content that fails to parse is not modelled: the
  source throws from the JSON library after a successful status (lines 149,
  208, 260, 276 and 343), and a `Response` always carries a parse result.
- The asset reads (`GetAsset`, `GetTextAssets`, `GetFileAssets`,
  `GetStringListAsset`): library calls and Base64 decoding of an unseen
  payload.
- `PenneoDateConverter`: it depends on `DateTime` and on `TimeUtil`, and
  `TimeUtil` is not part of this model.
- The singleton, the factory and the rest of `Init` (`Instance`, `SetFactory`,
  `ResetInstance`, endpoint and authentication-type selection): they depend on
  the `PenneoConnector` and `ServiceLocator` globals. The constructor models
  only the header and table set-up.
- The shared header dictionary: `Init` (line 398) keeps a reference to the
  global `PenneoConnector.Headers`, not a copy. Line 403 therefore writes
  `penneo-api-user` into that global, and later changes to it reach every
  request. The model's `headers` is a value fixed at construction, so it
  captures neither the aliasing nor later changes.
- The spelling of a verb on the wire: `sent` records each verb as a `Method`
  value, so the lower-case `new HttpMethod("patch")` of `PerformAction`
  (line 354) is recorded as `Patch`.
- The locks around the result table: the table is modelled sequentially.
- Logging (`Log.Write`, `LogRequest`, `LogResponse`) and the log-and-rethrow of
  transport exceptions.
- The `customMethod` argument of `CallServer`: no caller passes it, and every
  call names its verb directly. Calls that pass no verb are modelled with GET,
  the default they get.
- `LastResponseContent` and `WasLastResponseError` are plain reads of
  `lastResponse` and `wasLastResponseError`, so they have no members of their
  own.
- Null entity arguments, except `ReadObject`'s parent, which is modelled: the
  source dereferences them and would throw. A null `GetLinkedEntities` entity
  with an explicit URL is the one case that would not throw at once; it would
  fail only inside logging, on an error status. That case is not modelled
  either.
- Case-insensitive header names: `HttpHeaders` treats `X-Paginate` and
  `x-paginate` as one header, and the model treats them as two. A configured
  header that differs from `x-paginate` only in case would, in the source, get
  the extra "true" value, and in the model sits beside a new `x-paginate`.
- `HttpHeaders.Add` rejecting a header name the library reserves, and
  `RestResources` failing for an unmapped type: neither library is part of
  this model, so headers are always added and `resource` is total.
- `StringUtil.FirstCharacterToLower`: lower-cases ASCII letters only. The
  culture-dependent `char.ToLower` of other scripts is not modelled.
