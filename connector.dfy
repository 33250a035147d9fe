/**
 * The API connector: request preparation, the transport call, response
 * interpretation, the entity operations and the per-entity result table.
 * The server's answer to the one request an operation sends is the
 * parameter `reply`; the transport appends each request it is handed to `sent`.
 */
module Connector {
  import opened Wrappers
  import opened StringUtil
  import opened Http
  import opened Requests
  import opened Entities

  const ApiUserHeader: string := "penneo-api-user"
  const NoRequestDataMessage: string := "Unable to get request data"
  const EmptyResponseMessage: string := "Empty response"

  /** `relativeUrl + "/" + id`, the URL of one entity. */
  function ItemUrl(relativeUrl: string, id: Option<int>): (url: string)
    ensures |url| == |relativeUrl| + 1 + |IdText(id)|
    ensures relativeUrl + "/" <= url
    ensures id.None? ==> url == relativeUrl + "/"
  {
    relativeUrl + "/" + IdText(id)
  }

  /** A sub-resource of an entity: `relativeUrl/id/segment`. */
  function NestedUrl(relativeUrl: string, id: Option<int>, segment: string): (url: string)
    ensures |url| == |ItemUrl(relativeUrl, id)| + 1 + |segment|
    ensures ItemUrl(relativeUrl, id) + "/" <= url
  {
    ItemUrl(relativeUrl, id) + "/" + segment
  }

  /** One member of an entity's sub-collection: `relativeUrl/id/resource/memberId`. */
  function MemberUrl(relativeUrl: string, id: Option<int>, resource: string, memberId: Option<int>): (url: string)
    ensures |url| == |NestedUrl(relativeUrl, id, resource)| + 1 + |IdText(memberId)|
    ensures NestedUrl(relativeUrl, id, resource) + "/" <= url
  {
    NestedUrl(relativeUrl, id, resource) + "/" + IdText(memberId)
  }

  /** ReadObject's URL: the base, with `"/" + id` appended only when an id is given. */
  function ReadUrl(base: string, id: Option<int>): (url: string)
    ensures base <= url
    ensures id.None? <==> url == base
  {
    if id.Some? then ItemUrl(base, id) else base
  }

  /** Entities under one REST path get distinct URLs for distinct ids. */
  lemma ItemUrlInjective(relativeUrl: string, a: Option<int>, b: Option<int>)
    requires ItemUrl(relativeUrl, a) == ItemUrl(relativeUrl, b)
    ensures a == b
  {
    var n := |relativeUrl| + 1;
    assert ItemUrl(relativeUrl, a)[n..] == IdText(a);
    assert ItemUrl(relativeUrl, b)[n..] == IdText(b);
    IdTextInjective(a, b);
  }

  /** ExtractResponse's record of a response it was given. */
  predicate RecordsReply(result: ServerResult, reply: Response)
    reads result
  {
    result.success == IsSuccessStatus(reply.status) &&
    result.statusCode == reply.status &&
    result.jsonContent == Some(reply.content) &&
    result.errorMessage.None?
  }

  /** FindBy's outcome: the success flag, the entities found and the response. */
  datatype Found = Found(success: bool, objects: Option<seq<Payload>>, response: Response)

  /** FindBy's options: a "query" entry only for a non-empty query. */
  function FindOptions(query: Option<Query>): (options: Option<Options>)
    ensures options.Some? <==> query.Some? && |query.value| > 0
    ensures QueryOf(options) == if query.Some? then query.value else []
  {
    if query.Some? && |query.value| > 0 then Some(map[QueryOption := query.value]) else None
  }

  class ApiConnector {
    /** `_headers`: the configured headers every request starts with. */
    const headers: map<string, string>
    /**
     * `RestResources.GetResource(type[, parent])`: the REST path of an entity
     * type, which may depend on everything the parent entity shows.
     */
    const resource: (string, Option<EntityView>) -> string
    /** `_parameters`, refilled by every PrepareRequest. */
    var parameters: map<string, Value>
    var latestEntityServerResults: map<Guid, ServerResult>
    var lastResponse: Option<Response>
    var wasLastResponseError: bool
    /** The requests handed to the transport, oldest first. */
    var sent: seq<Request>

    /** The header and table set-up of Init: the API-user header is added when a user is configured. */
    constructor (configured: Option<map<string, string>>, user: Option<string>,
                 resource: (string, Option<EntityView>) -> string)
      ensures headers == if IsNullOrEmpty(user) then configured.GetOr(map[])
                         else configured.GetOr(map[])[ApiUserHeader := user.value]
      ensures this.resource == resource
      ensures parameters == map[] && latestEntityServerResults == map[]
      ensures lastResponse.None? && !wasLastResponseError && sent == []
    {
      var hs := configured.GetOr(map[]);
      if !IsNullOrEmpty(user) {
        hs := hs[ApiUserHeader := user.value];
      }
      headers := hs;
      this.resource := resource;
      parameters := map[];
      latestEntityServerResults := map[];
      lastResponse := None;
      wasLastResponseError := false;
      sent := [];
    }

    /** A request without paging: the configured headers only. */
    function Plain(verb: Method, url: string, body: Option<map<string, Value>>): Request {
      Request(verb, url, ConfiguredHeaders(headers), body)
    }

    /** VisitQuery: stores each query entry, in order, under its first-character-lower-cased key. */
    method VisitQuery(query: Query)
      modifies this`parameters
      ensures parameters == Visited(old(parameters), query)
    {
      var i := 0;
      while i < |query|
        invariant 0 <= i <= |query|
        invariant parameters == Visited(old(parameters), query[..i])
      {
        assert query[..i + 1][..i] == query[..i];
        parameters := parameters[FirstCharacterToLower(query[i].0) := query[i].1];
        i := i + 1;
      }
      assert query[..i] == query;
    }

    /** The loop of PrepareRequest that adds every configured header to the request. */
    method CopyHeaders() returns (hs: Headers)
      ensures hs == ConfiguredHeaders(headers)
    {
      hs := map[];
      var pending := headers.Keys;
      while pending != {}
        invariant pending <= headers.Keys
        invariant hs.Keys == headers.Keys - pending
        invariant forall j :: j in hs ==> hs[j] == [headers[j]]
        decreases pending
      {
        var k :| k in pending;
        hs := AddHeader(hs, k, headers[k]);
        pending := pending - {k};
      }
    }

    /** The loop of PrepareRequest that writes every parameter into the caller's data, in place. */
    method MergeParameters(data: Dictionary)
      modifies data
      ensures data.items == old(data.items) + parameters
    {
      var todo := parameters.Keys;
      while todo != {}
        invariant todo <= parameters.Keys
        invariant data.items.Keys == old(data.items).Keys + (parameters.Keys - todo)
        invariant forall j :: j in data.items ==>
                    data.items[j] == if j in parameters.Keys - todo then parameters[j] else old(data.items)[j]
        decreases todo
      {
        var k :| k in todo;
        data.items := data.items[k := parameters[k]];
        todo := todo - {k};
      }
    }

    /**
     * The parameter part of PrepareRequest: visits the query, then writes
     * `per_page` and `page`, stopping at the first paging value that is not
     * positive and reporting it.
     */
    method FillParameters(options: Option<Options>, page: Option<int>, perPage: Option<int>) returns (invalid: Option<Error>)
      modifies this`parameters
      ensures invalid == Validate(page, perPage)
      ensures parameters == ParametersLeft(options, page, perPage)
    {
      parameters := map[];
      if options.Some? && QueryOption in options.value {
        VisitQuery(options.value[QueryOption]);
      }
      ghost var visited := Visited(map[], QueryOf(options));
      assert parameters == visited;
      if perPage.Some? {
        if perPage.value <= 0 {
          return Some(PerPageNotPositive);
        }
        parameters := parameters[PerPageKey := IntValue(perPage.value)];
      }
      assert parameters == WithPerPage(visited, perPage);
      if page.Some? {
        if page.value <= 0 {
          return Some(PageNotPositive);
        }
        parameters := parameters[PageKey := IntValue(page.value)];
      }
      return None;
    }

    /**
     * PrepareRequest: copies the headers, fills the parameters, checks the
     * paging values and merges the parameters into the caller's data in place.
     */
    method PrepareRequest(url: string, data: Dictionary?, verb: Method, options: Option<Options>,
                          page: Option<int>, perPage: Option<int>) returns (r: Result<Request, Error>)
      modifies this`parameters, data
      ensures r == Prepare(url, verb, headers, old(Snapshot(data)), options, page, perPage)
      ensures parameters == ParametersLeft(options, page, perPage)
      ensures data != null ==> data.items == if r.Success? then old(data.items) + parameters else old(data.items)
    {
      var hs := CopyHeaders();
      if page.Some? {
        hs := AddHeader(hs, PaginateHeader, "true");
      }
      assert hs == RequestHeaders(headers, page);
      var invalid := FillParameters(options, page, perPage);
      if invalid.Some? {
        return Failure(invalid.value);
      }
      var body: Option<map<string, Value>> := None;
      if data != null {
        MergeParameters(data);
        body := Some(data.items);
      }
      r := Success(Request(verb, url, hs, body));
    }

    /**
     * CallServer: prepares the request and, unless preparing it threw, hands
     * it to the transport, remembers the response and whether it was an error.
     */
    method CallServer(url: string, data: Dictionary?, verb: Method, options: Option<Options>,
                      page: Option<int>, perPage: Option<int>, reply: Response) returns (r: Result<Response, Error>)
      modifies this`parameters, this`sent, this`lastResponse, this`wasLastResponseError, data
      ensures var expected := Prepare(url, verb, headers, old(Snapshot(data)), options, page, perPage);
              match expected
              case Failure(e) =>
                r == Failure(e) && sent == old(sent) &&
                lastResponse == old(lastResponse) && wasLastResponseError == old(wasLastResponseError)
              case Success(request) =>
                r == Success(reply) && sent == old(sent) + [request] &&
                lastResponse == Some(reply) && wasLastResponseError == !IsSuccessStatus(reply.status)
      ensures parameters == ParametersLeft(options, page, perPage)
      ensures data != null ==> data.items == if r.Success? then old(data.items) + parameters else old(data.items)
    {
      var prepared := PrepareRequest(url, data, verb, options, page, perPage);
      if prepared.Failure? {
        return Failure(prepared.error);
      }
      sent := sent + [prepared.value];
      lastResponse := Some(reply);
      wasLastResponseError := !IsSuccessStatus(reply.status);
      r := Success(reply);
    }

    /** SetLatestEntityServerResult: last write wins; a null entity is ignored. */
    method SetLatestEntityServerResult(entity: Entity?, result: ServerResult)
      modifies this`latestEntityServerResults
      ensures latestEntityServerResults == Recorded(old(latestEntityServerResults), entity, result)
    {
      if entity == null {
        return;
      }
      latestEntityServerResults := latestEntityServerResults[entity.internalIdentifier := result];
    }

    /** GetLatestEntityServerResult: the last result stored for the entity's token, or null. */
    function GetLatestEntityServerResult(entity: Entity?): (r: ServerResult?)
      reads this
      ensures entity == null ==> r == null
      ensures entity != null && entity.internalIdentifier !in latestEntityServerResults ==> r == null
      ensures entity != null && entity.internalIdentifier in latestEntityServerResults
              ==> r == latestEntityServerResults[entity.internalIdentifier]
    {
      Lookup(latestEntityServerResults, entity)
    }

    /**
     * ExtractResponse: success iff there is a response with a success status;
     * the status and content are copied into the result, which is always
     * recorded for the entity.
     */
    method ExtractResponse(obj: Entity, response: Option<Response>, result: ServerResult) returns (success: bool)
      modifies this`latestEntityServerResults, result`success, result`statusCode, result`jsonContent, result`errorMessage
      ensures success <==> response.Some? && IsSuccessStatus(response.value.status)
      ensures result.success == success
      ensures response.None? ==> result.errorMessage == Some(EmptyResponseMessage) &&
                                 result.statusCode == old(result.statusCode) && result.jsonContent == old(result.jsonContent)
      ensures response.Some? ==> result.statusCode == response.value.status &&
                                 result.jsonContent == Some(response.value.content) &&
                                 result.errorMessage == old(result.errorMessage)
      ensures latestEntityServerResults == Recorded(old(latestEntityServerResults), obj, result)
    {
      result.success := true;
      if response.None? {
        result.errorMessage := Some(EmptyResponseMessage);
        result.success := false;
      } else {
        result.statusCode := response.value.status;
        result.jsonContent := Some(response.value.content);
        if !IsSuccessStatus(response.value.status) {
          result.success := false;
        }
      }
      SetLatestEntityServerResult(obj, result);
      success := result.success;
    }

    /**
     * WriteObject: without request data, a failed result and no call;
     * otherwise a PUT to the entity's URL for an entity with an id, or a POST
     * to its collection for a new one, which takes the server's id on success.
     */
    method WriteObject(obj: Entity, reply: Response) returns (r: Result<bool, Error>)
      modifies this`parameters, this`latestEntityServerResults, this`sent, this`lastResponse,
               this`wasLastResponseError, obj`id
      ensures old(obj.requestData).None? ==>
                r == Success(false) && obj.id == old(obj.id) && sent == old(sent) && parameters == old(parameters) &&
                lastResponse == old(lastResponse) && wasLastResponseError == old(wasLastResponseError)
      ensures old(obj.requestData).Some? ==>
                sent == old(sent) + [if old(obj.IsNew()) then Plain(Post, obj.relativeUrl, old(obj.requestData))
                                     else Plain(Put, ItemUrl(obj.relativeUrl, old(obj.id)), old(obj.requestData))] &&
                parameters == map[] && lastResponse == Some(reply) &&
                wasLastResponseError == !IsSuccessStatus(reply.status)
      ensures old(obj.requestData).Some? && !old(obj.IsNew()) ==>
                r == Success(IsSuccessStatus(reply.status)) && obj.id == old(obj.id)
      ensures old(obj.requestData).Some? && old(obj.IsNew()) && !IsSuccessStatus(reply.status) ==>
                r == Success(false) && obj.id == old(obj.id)
      ensures old(obj.requestData).Some? && old(obj.IsNew()) && IsSuccessStatus(reply.status) ==>
                if reply.entity.None? then r == Failure(NullReference) && obj.id == old(obj.id)
                else r == Success(true) && obj.id == reply.entity.value.id
      ensures obj.internalIdentifier in latestEntityServerResults
      ensures latestEntityServerResults
           == old(latestEntityServerResults)[obj.internalIdentifier := latestEntityServerResults[obj.internalIdentifier]]
      ensures var stored := latestEntityServerResults[obj.internalIdentifier];
              fresh(stored) && stored.objects.None? &&
              (old(obj.requestData).None? ==>
                 !stored.success && stored.errorMessage == Some(NoRequestDataMessage) &&
                 stored.statusCode == 0 && stored.jsonContent.None?) &&
              (old(obj.requestData).Some? ==> RecordsReply(stored, reply))
    {
      var result := new ServerResult();
      var data := obj.GetRequestData();
      if data == null {
        result.success := false;
        result.errorMessage := Some(NoRequestDataMessage);
        SetLatestEntityServerResult(obj, result);
        return Success(false);
      }
      UnpagedBodyIsData(ItemUrl(obj.relativeUrl, obj.id), Put, headers, Some(data.items));
      UnpagedBodyIsData(obj.relativeUrl, Post, headers, Some(data.items));
      if !obj.IsNew() {
        var outcome := CallServer(ItemUrl(obj.relativeUrl, obj.id), data, Put, None, None, None, reply);
        var ok := ExtractResponse(obj, Some(outcome.value), result);
        r := Success(ok);
      } else {
        var outcome := CallServer(obj.relativeUrl, data, Post, None, None, None, reply);
        var ok := ExtractResponse(obj, Some(outcome.value), result);
        if ok {
          // Update id given from server: reading `Id` of a null deserialised object throws.
          var fromServer := outcome.value.entity;
          if fromServer.None? {
            return Failure(NullReference);
          }
          obj.id := fromServer.value.id;
        }
        r := Success(ok);
      }
    }

    /** DeleteObject: a DELETE to the entity's URL; success iff OK or NoContent; no result is recorded. */
    method DeleteObject(obj: Entity, reply: Response) returns (ok: bool)
      modifies this`parameters, this`sent, this`lastResponse, this`wasLastResponseError
      ensures ok <==> IsDeleteSuccess(reply.status)
      ensures sent == old(sent) + [Plain(Delete, ItemUrl(obj.relativeUrl, obj.id), None)]
      ensures parameters == map[] && lastResponse == Some(reply) && wasLastResponseError == !IsSuccessStatus(reply.status)
    {
      UnpagedBodyIsData(ItemUrl(obj.relativeUrl, obj.id), Delete, headers, None);
      var outcome := CallServer(ItemUrl(obj.relativeUrl, obj.id), null, Delete, None, None, None, reply);
      var response := outcome.value;
      ok := response.status == OK || response.status == NoContent;
    }

    /**
     * ReadObject: a GET to the explicit URL, or else to the type's resource,
     * with `"/" + id` when an id is given; the object only on status OK, with
     * its id forced to the requested one.
     */
    method ReadObject(parent: Entity?, id: Option<int>, relativeUrl: Option<string>, kind: string, reply: Response)
      returns (obj: Result<Option<Payload>, Error>, response: Response)
      modifies this`parameters, this`sent, this`lastResponse, this`wasLastResponseError
      ensures response == reply
      ensures sent == old(sent) + [Plain(Get, ReadUrl(if IsNullOrEmpty(relativeUrl) then resource(kind, ViewOf(parent))
                                                      else relativeUrl.value, id), None)]
      ensures parameters == map[] && lastResponse == Some(reply) && wasLastResponseError == !IsSuccessStatus(reply.status)
      ensures !IsReadSuccess(reply.status) ==> obj == Success(None)
      ensures IsReadSuccess(reply.status) && reply.entity.None? ==>
                obj == if id.Some? then Failure(NullReference) else Success(None)
      ensures IsReadSuccess(reply.status) && reply.entity.Some? ==>
                obj.Success? && obj.value.Some? && obj.value.value.fields == reply.entity.value.fields &&
                obj.value.value.id == if id.Some? then id else reply.entity.value.id
    {
      var url := if !IsNullOrEmpty(relativeUrl) then relativeUrl.value else resource(kind, ViewOf(parent));
      if id.Some? {
        url := url + "/" + IntToString(id.value);
      }
      UnpagedBodyIsData(url, Get, headers, None);
      var outcome := CallServer(url, null, Get, None, None, None, reply);
      response := outcome.value;
      if response.status != OK {
        return Success(None), response;
      }
      var read := response.entity;
      if id.Some? {
        // Forcing the id onto a null deserialised object throws.
        if read.None? {
          return Failure(NullReference), response;
        }
        read := Some(read.value.(id := id));
      }
      obj := Success(read);
    }

    /** LinkEntity: a LINK to `parent/id/resource(child)/childId`; the result is recorded for the parent only. */
    method LinkEntity(parent: Entity, child: Entity, reply: Response) returns (ok: bool)
      modifies this`parameters, this`latestEntityServerResults, this`sent, this`lastResponse, this`wasLastResponseError
      ensures ok <==> IsSuccessStatus(reply.status)
      ensures sent == old(sent) + [Plain(Link, MemberUrl(parent.relativeUrl, parent.id, resource(child.kind, None), child.id), None)]
      ensures parameters == map[] && lastResponse == Some(reply) && wasLastResponseError == !ok
      ensures parent.internalIdentifier in latestEntityServerResults
      ensures latestEntityServerResults
           == old(latestEntityServerResults)[parent.internalIdentifier := latestEntityServerResults[parent.internalIdentifier]]
      ensures var stored := latestEntityServerResults[parent.internalIdentifier];
              fresh(stored) && RecordsReply(stored, reply) && stored.objects.None?
    {
      var url := parent.relativeUrl + "/" + IdText(parent.id) + "/" + resource(child.kind, None) + "/" + IdText(child.id);
      UnpagedBodyIsData(url, Link, headers, None);
      var outcome := CallServer(url, null, Link, None, None, None, reply);
      var result := new ServerResult();
      ok := ExtractResponse(parent, Some(outcome.value), result);
    }

    /** UnlinkEntity: as LinkEntity, with the UNLINK verb. */
    method UnlinkEntity(parent: Entity, child: Entity, reply: Response) returns (ok: bool)
      modifies this`parameters, this`latestEntityServerResults, this`sent, this`lastResponse, this`wasLastResponseError
      ensures ok <==> IsSuccessStatus(reply.status)
      ensures sent == old(sent) + [Plain(Unlink, MemberUrl(parent.relativeUrl, parent.id, resource(child.kind, None), child.id), None)]
      ensures parameters == map[] && lastResponse == Some(reply) && wasLastResponseError == !ok
      ensures parent.internalIdentifier in latestEntityServerResults
      ensures latestEntityServerResults
           == old(latestEntityServerResults)[parent.internalIdentifier := latestEntityServerResults[parent.internalIdentifier]]
      ensures var stored := latestEntityServerResults[parent.internalIdentifier];
              fresh(stored) && RecordsReply(stored, reply) && stored.objects.None?
    {
      var url := parent.relativeUrl + "/" + IdText(parent.id) + "/" + resource(child.kind, None) + "/" + IdText(child.id);
      UnpagedBodyIsData(url, Unlink, headers, None);
      var outcome := CallServer(url, null, Unlink, None, None, None, reply);
      var result := new ServerResult();
      ok := ExtractResponse(parent, Some(outcome.value), result);
    }

    /**
     * GetLinkedEntities: a GET to the explicit URL, or else to the entity's
     * sub-collection of the type; a query result recorded for the entity,
     * holding the entities only on success.
     */
    method GetLinkedEntities(obj: Entity, url: Option<string>, kind: string, reply: Response) returns (result: ServerResult)
      modifies this`parameters, this`latestEntityServerResults, this`sent, this`lastResponse, this`wasLastResponseError
      ensures fresh(result) && RecordsReply(result, reply)
      ensures result.objects == if IsSuccessStatus(reply.status) then reply.entities else None
      ensures sent == old(sent) + [Plain(Get, if IsNullOrEmpty(url) then NestedUrl(obj.relativeUrl, obj.id, resource(kind, None))
                                              else url.value, None)]
      ensures parameters == map[] && lastResponse == Some(reply) && wasLastResponseError == !result.success
      ensures latestEntityServerResults == old(latestEntityServerResults)[obj.internalIdentifier := result]
    {
      var actualUrl: string;
      if IsNullOrEmpty(url) {
        actualUrl := obj.relativeUrl + "/" + IdText(obj.id) + "/" + resource(kind, None);
      } else {
        actualUrl := url.value;
      }
      UnpagedBodyIsData(actualUrl, Get, headers, None);
      var outcome := CallServer(actualUrl, null, Get, None, None, None, reply);
      result := new ServerResult();
      var ok := ExtractResponse(obj, Some(outcome.value), result);
      if ok {
        result.objects := outcome.value.entities;
      }
    }

    /**
     * FindLinkedEntity: a GET to one member of the entity's sub-collection;
     * a status outside the success set raises instead of returning.
     */
    method FindLinkedEntity(obj: Entity, id: int, kind: string, reply: Response) returns (r: Result<Option<Payload>, Error>)
      modifies this`parameters, this`sent, this`lastResponse, this`wasLastResponseError
      ensures r == if IsSuccessStatus(reply.status) then Success(reply.entity) else Failure(InternalProblem)
      ensures sent == old(sent) + [Plain(Get, MemberUrl(obj.relativeUrl, obj.id, resource(kind, None), Some(id)), None)]
      ensures parameters == map[] && lastResponse == Some(reply) && wasLastResponseError == r.Failure?
    {
      var url := obj.relativeUrl + "/" + IdText(obj.id) + "/" + resource(kind, None) + "/" + IntToString(id);
      UnpagedBodyIsData(url, Get, headers, None);
      var outcome := CallServer(url, null, Get, None, None, None, reply);
      var response := outcome.value;
      if !IsSuccessStatus(response.status) {
        return Failure(InternalProblem);
      }
      r := Success(response.entity);
    }

    /**
     * FindBy: a GET to the type's resource with the query and paging values
     * as options; no data dictionary is passed, so the request has no body.
     */
    method FindBy(query: Option<Query>, kind: string, page: Option<int>, perPage: Option<int>, reply: Response)
      returns (r: Result<Found, Error>)
      modifies this`parameters, this`sent, this`lastResponse, this`wasLastResponseError
      ensures Validate(page, perPage).Some? ==>
                r == Failure(Validate(page, perPage).value) && sent == old(sent) &&
                lastResponse == old(lastResponse) && wasLastResponseError == old(wasLastResponseError)
      ensures Validate(page, perPage).None? ==>
                r == Success(Found(IsSuccessStatus(reply.status),
                                   if IsSuccessStatus(reply.status) then reply.entities else None, reply)) &&
                sent == old(sent) + [Request(Get, resource(kind, None), RequestHeaders(headers, page), None)] &&
                lastResponse == Some(reply) && wasLastResponseError == !IsSuccessStatus(reply.status)
      ensures parameters == ParametersLeft(FindOptions(query), page, perPage)
    {
      var options: Option<Options> := None;
      if query.Some? && |query.value| > 0 {
        options := Some(map[QueryOption := query.value]);
      }
      var outcome := CallServer(resource(kind, None), null, Get, options, page, perPage, reply);
      if outcome.Failure? {
        return Failure(outcome.error);
      }
      var response := outcome.value;
      if !IsSuccessStatus(response.status) {
        return Success(Found(false, None, response));
      }
      r := Success(Found(true, response.entities, response));
    }

    /**
     * PerformAction: a `patch` to `relativeUrl/id/actionName` without a body;
     * a fresh result, not recorded, whose status is filled in only on failure.
     */
    method PerformAction(obj: Entity, actionName: string, reply: Response) returns (result: ServerResult)
      modifies this`parameters, this`sent, this`lastResponse, this`wasLastResponseError
      ensures fresh(result) && result.success == IsSuccessStatus(reply.status)
      ensures result.statusCode == if result.success then 0 else reply.status
      ensures result.jsonContent.None? && result.errorMessage.None? && result.objects.None?
      ensures sent == old(sent) + [Plain(Patch, NestedUrl(obj.relativeUrl, obj.id, actionName), None)]
      ensures parameters == map[] && lastResponse == Some(reply) && wasLastResponseError == !result.success
    {
      result := new ServerResult();
      var url := obj.relativeUrl + "/" + IdText(obj.id) + "/" + actionName;
      UnpagedBodyIsData(url, Patch, headers, None);
      var outcome := CallServer(url, null, Patch, None, None, None, reply);
      var response := outcome.value;
      if !IsSuccessStatus(response.status) {
        result.success := false;
        result.statusCode := response.status;
        return result;
      }
      result.success := true;
    }
  }
}
