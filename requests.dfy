/**
 * What PrepareRequest builds, as functions of its inputs: the request headers,
 * the parameter dictionary filled from the query and the paging values, the
 * validation of those values, and the body the parameters are merged into.
 */
module Requests {
  import opened Wrappers
  import opened StringUtil
  import opened Http

  const PaginateHeader: string := "x-paginate"
  const QueryOption: string := "query"
  const PerPageKey: string := "per_page"
  const PageKey: string := "page"

  /** A `Dictionary<string, object>` in its enumeration order. */
  type Query = seq<(string, Value)>

  /** The `options` dictionary; only its "query" entry is read. */
  type Options = map<string, Query>

  /** `HttpHeaders.Add`: appends one value under a name. */
  function AddHeader(hs: Headers, name: string, value: string): (r: Headers)
    ensures r.Keys == hs.Keys + {name}
    ensures r[name] == (if name in hs then hs[name] else []) + [value]
    ensures forall k :: k in hs && k != name ==> r[k] == hs[k]
  {
    hs[name := (if name in hs then hs[name] else []) + [value]]
  }

  /** The headers after copying each configured header once. */
  function ConfiguredHeaders(configured: map<string, string>): (r: Headers)
    ensures r.Keys == configured.Keys
    ensures forall k :: k in r ==> r[k] == [configured[k]]
  {
    map k | k in configured :: [configured[k]]
  }

  /** The request headers: the configured ones, then `x-paginate: true` when a page is asked for. */
  function RequestHeaders(configured: map<string, string>, page: Option<int>): (hs: Headers)
    ensures forall k :: k in configured && k != PaginateHeader ==> k in hs && hs[k] == [configured[k]]
    ensures forall k :: k in hs && k != PaginateHeader ==> k in configured
    ensures page.Some? ==> PaginateHeader in hs &&
                           hs[PaginateHeader] == (if PaginateHeader in configured then [configured[PaginateHeader]] else []) + ["true"]
    ensures page.None? ==> (PaginateHeader in hs <==> PaginateHeader in configured)
    ensures page.None? && PaginateHeader in configured ==> hs[PaginateHeader] == [configured[PaginateHeader]]
  {
    var base := ConfiguredHeaders(configured);
    if page.Some? then AddHeader(base, PaginateHeader, "true") else base
  }

  /** Unless it is configured already, `x-paginate` is on the request exactly when a page is asked for. */
  lemma PaginateHeaderIffPage(configured: map<string, string>, page: Option<int>)
    requires PaginateHeader !in configured
    ensures PaginateHeader in RequestHeaders(configured, page) <==> page.Some?
    ensures page.Some? ==> RequestHeaders(configured, page)[PaginateHeader] == ["true"]
  {
  }

  /**
   * VisitQuery: each query entry, in order, stored under its key with the
   * first character lower-cased; a later entry overwrites an earlier one
   * whose key lower-cases the same way.
   */
  function Visited(params: map<string, Value>, query: Query): (visited: map<string, Value>)
    ensures params.Keys <= visited.Keys
    decreases |query|
  {
    if query == [] then params
    else
      var last := query[|query| - 1];
      Visited(params, query[..|query| - 1])[FirstCharacterToLower(last.0) := last.1]
  }

  /** The keys after the visit: the old ones and every lower-cased query key. */
  lemma {:induction false} VisitedKeys(params: map<string, Value>, query: Query)
    ensures Visited(params, query).Keys == params.Keys + LoweredKeys(query)
    decreases |query|
  {
    if query != [] {
      VisitedKeys(params, query[..|query| - 1]);
      LoweredKeysSnoc(query);
    }
  }

  /** Every query key with its first character lower-cased. */
  function LoweredKeys(query: Query): set<string> {
    set j | 0 <= j < |query| :: FirstCharacterToLower(query[j].0)
  }

  /** The lower-cased keys of a query are those of all but its last entry, plus the last entry's. */
  lemma LoweredKeysSnoc(query: Query)
    requires |query| > 0
    ensures LoweredKeys(query) == LoweredKeys(query[..|query| - 1]) + {FirstCharacterToLower(query[|query| - 1].0)}
  {
    var init := query[..|query| - 1];
    var all := LoweredKeys(query);
    var front := LoweredKeys(init);
    var last := FirstCharacterToLower(query[|query| - 1].0);
    forall k | k in all
      ensures k in front + {last}
    {
      var j :| 0 <= j < |query| && FirstCharacterToLower(query[j].0) == k;
      if j < |init| {
        assert init[j] == query[j];
      }
    }
    forall k | k in front
      ensures k in all
    {
      var j :| 0 <= j < |init| && FirstCharacterToLower(init[j].0) == k;
      assert query[j] == init[j];
    }
  }

  /** The value under a lower-cased key is that of the last query entry with that key. */
  lemma {:induction false} VisitedLatest(params: map<string, Value>, query: Query, j: nat)
    requires j < |query|
    requires forall m :: j < m < |query| ==> FirstCharacterToLower(query[m].0) != FirstCharacterToLower(query[j].0)
    ensures FirstCharacterToLower(query[j].0) in Visited(params, query)
    ensures Visited(params, query)[FirstCharacterToLower(query[j].0)] == query[j].1
    decreases |query|
  {
    if j < |query| - 1 {
      var init := query[..|query| - 1];
      assert init[j] == query[j];
      VisitedLatest(params, init, j);
    }
  }

  /** A key no query entry lower-cases to keeps its old value, or stays absent. */
  lemma {:induction false} VisitedUntouched(params: map<string, Value>, query: Query, k: string)
    requires forall m :: 0 <= m < |query| ==> FirstCharacterToLower(query[m].0) != k
    ensures k in Visited(params, query) <==> k in params
    ensures k in params ==> Visited(params, query)[k] == params[k]
    decreases |query|
  {
    if query != [] {
      var init := query[..|query| - 1];
      assert forall m :: 0 <= m < |init| ==> init[m] == query[m];
      VisitedUntouched(params, init, k);
    }
  }

  /** The query entries of `options`: its "query" dictionary, or none. */
  function QueryOf(options: Option<Options>): (query: Query)
    ensures options.Some? && QueryOption in options.value ==> query == options.value[QueryOption]
    ensures options.None? || QueryOption !in options.value ==> query == []
  {
    if options.Some? && QueryOption in options.value then options.value[QueryOption] else []
  }

  /** `_parameters["per_page"] = perPage`, when it has a value. */
  function WithPerPage(params: map<string, Value>, perPage: Option<int>): (r: map<string, Value>)
    ensures r.Keys == params.Keys + (if perPage.Some? then {PerPageKey} else {})
    ensures perPage.Some? ==> r[PerPageKey] == IntValue(perPage.value)
    ensures forall k :: k in params && (perPage.None? || k != PerPageKey) ==> r[k] == params[k]
  {
    if perPage.Some? then params[PerPageKey := IntValue(perPage.value)] else params
  }

  /** `_parameters["page"] = page`, when it has a value. */
  function WithPage(params: map<string, Value>, page: Option<int>): (r: map<string, Value>)
    ensures r.Keys == params.Keys + (if page.Some? then {PageKey} else {})
    ensures page.Some? ==> r[PageKey] == IntValue(page.value)
    ensures forall k :: k in params && (page.None? || k != PageKey) ==> r[k] == params[k]
  {
    if page.Some? then params[PageKey := IntValue(page.value)] else params
  }

  /**
   * The parameters of a request that passed validation: the visited query,
   * then `per_page`, then `page`, the paging values overwriting query entries
   * of the same name.
   */
  function Parameters(options: Option<Options>, page: Option<int>, perPage: Option<int>): (p: map<string, Value>)
    ensures perPage.Some? ==> PerPageKey in p && p[PerPageKey] == IntValue(perPage.value)
    ensures page.Some? ==> PageKey in p && p[PageKey] == IntValue(page.value)
    ensures perPage.None? ==> (PerPageKey in p <==> PerPageKey in Visited(map[], QueryOf(options)))
    ensures page.None? ==> (PageKey in p <==> PageKey in Visited(map[], QueryOf(options)))
    ensures forall k :: k != PerPageKey && k != PageKey ==>
              (k in p <==> k in Visited(map[], QueryOf(options))) &&
              (k in p ==> p[k] == Visited(map[], QueryOf(options))[k])
  {
    WithPage(WithPerPage(Visited(map[], QueryOf(options)), perPage), page)
  }

  /**
   * The parameter dictionary as PrepareRequest leaves it, whether it returns or
   * throws: a failed check stops the filling at that point.
   */
  function ParametersLeft(options: Option<Options>, page: Option<int>, perPage: Option<int>): (p: map<string, Value>)
    ensures Validate(page, perPage).None? ==> p == Parameters(options, page, perPage)
    ensures Validate(page, perPage) == Some(PerPageNotPositive) ==> p == Visited(map[], QueryOf(options))
    ensures Validate(page, perPage) == Some(PageNotPositive) ==> p == WithPerPage(Visited(map[], QueryOf(options)), perPage)
  {
    var q := Visited(map[], QueryOf(options));
    if perPage.Some? && perPage.value <= 0 then q
    else if page.Some? && page.value <= 0 then WithPerPage(q, perPage)
    else WithPage(WithPerPage(q, perPage), page)
  }

  /** The paging checks, `perPage` first: the exception the request would raise, if any. */
  function Validate(page: Option<int>, perPage: Option<int>): (e: Option<Error>)
    ensures e.None? <==> (perPage.None? || perPage.value > 0) && (page.None? || page.value > 0)
    ensures e == Some(PerPageNotPositive) <==> perPage.Some? && perPage.value <= 0
    ensures e == Some(PageNotPositive) <==> (perPage.None? || perPage.value > 0) && page.Some? && page.value <= 0
  {
    if perPage.Some? && perPage.value <= 0 then Some(PerPageNotPositive)
    else if page.Some? && page.value <= 0 then Some(PageNotPositive)
    else None
  }

  /**
   * PrepareRequest: the request for `url`, or the exception raised by the
   * paging checks. The caller's data, when there is any, becomes the body with
   * the parameters merged over it; without data there is no body.
   */
  function Prepare(url: string, verb: Method, configured: map<string, string>, data: Option<map<string, Value>>,
                   options: Option<Options>, page: Option<int>, perPage: Option<int>): (r: Result<Request, Error>)
    ensures perPage.Some? && perPage.value <= 0 ==> r == Failure(PerPageNotPositive)
    ensures (perPage.None? || perPage.value > 0) && page.Some? && page.value <= 0 ==> r == Failure(PageNotPositive)
    ensures r.Success? <==> (perPage.None? || perPage.value > 0) && (page.None? || page.value > 0)
    ensures r.Success? ==> r.value.verb == verb && r.value.url == url && r.value.headers == RequestHeaders(configured, page)
    ensures r.Success? ==> (r.value.body.Some? <==> data.Some?)
  {
    match Validate(page, perPage)
    case Some(e) => Failure(e)
    case None =>
      var body := if data.Some? then Some(data.value + Parameters(options, page, perPage)) else None;
      Success(Request(verb, url, RequestHeaders(configured, page), body))
  }

  /**
   * The body of a prepared request: every parameter overwrites the data entry
   * of the same key, and every other data entry is kept.
   */
  lemma BodyMerge(url: string, verb: Method, configured: map<string, string>, data: map<string, Value>,
                  options: Option<Options>, page: Option<int>, perPage: Option<int>)
    requires Validate(page, perPage).None?
    ensures var r := Prepare(url, verb, configured, Some(data), options, page, perPage);
            var p := Parameters(options, page, perPage);
            r.Success? && r.value.body.Some? &&
            r.value.body.value.Keys == data.Keys + p.Keys &&
            (forall k :: k in p ==> r.value.body.value[k] == p[k]) &&
            (forall k :: k in data && k !in p ==> r.value.body.value[k] == data[k])
  {
  }

  /** Without a data dictionary nothing of the parameters is transmitted: the request has no body. */
  lemma NoDataNoParameters(url: string, verb: Method, configured: map<string, string>,
                           options: Option<Options>, page: Option<int>, perPage: Option<int>)
    ensures var r := Prepare(url, verb, configured, None, options, page, perPage);
            r.Success? ==> r.value.body.None?
  {
  }

  /** A request with neither paging value has no parameters; its body is the data unchanged. */
  lemma UnpagedBodyIsData(url: string, verb: Method, configured: map<string, string>, data: Option<map<string, Value>>)
    ensures Prepare(url, verb, configured, data, None, None, None)
         == Success(Request(verb, url, ConfiguredHeaders(configured), data))
  {
    assert Parameters(None, None, None) == map[];
    if data.Some? {
      assert data.value + map[] == data.value;
    }
  }
}
