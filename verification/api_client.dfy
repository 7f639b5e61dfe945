/** The HTTP client for the analytics API gateway: base-URL normalisation, the
    query string built from optional filters, the authentication headers, the
    error raised for a non-2xx status and the five endpoint paths. The network
    itself is a parameter: `Reply` is what came back for the request. */
module Api {
  import opened Js

  /** A GET request as the client issues it: the URL before its query string,
      the query parameters in order, and the headers. */
  datatype HttpRequest = HttpRequest(url: string, query: seq<(string, string)>, headers: seq<(string, string)>)

  /** What the network gives back for a request: `fetch` itself rejects, or the
      server answers with a status, the body text and the outcome of parsing
      that body as JSON. */
  datatype Reply =
    | FetchFailed(error: Thrown)
    | Answered(status: int, body: string, json: Result<Json>)

  // ---------------------------------------------------------------------------
  // Base URL

  predicate EndsWithSlash(s: string) {
    |s| > 0 && s[|s| - 1] == '/'
  }

  predicate AllSlashes(s: string) {
    forall i :: 0 <= i < |s| ==> s[i] == '/'
  }

  /** `s.replace(/\/+$/, "")`: drops the run of '/' at the end of `s`. */
  function StripTrailingSlashes(s: string): (r: string)
    ensures !EndsWithSlash(r)
    ensures r <= s && AllSlashes(s[|r|..])
  {
    if EndsWithSlash(s) then StripTrailingSlashes(s[..|s| - 1]) else s
  }

  /** The stripped URL is the only split of the input into a part that does
      not end with '/' followed by nothing but '/'. */
  lemma {:induction false} StripTrailingSlashesUnique(t: string, u: string)
    requires !EndsWithSlash(t) && AllSlashes(u)
    ensures StripTrailingSlashes(t + u) == t
  {
    if u == [] {
      assert t + u == t;
    } else {
      assert (t + u)[..|t + u| - 1] == t + u[..|u| - 1];
      StripTrailingSlashesUnique(t, u[..|u| - 1]);
    }
  }

  /** Normalising a normalised base URL changes nothing. */
  lemma StripTrailingSlashesIdempotent(s: string)
    ensures StripTrailingSlashes(StripTrailingSlashes(s)) == StripTrailingSlashes(s)
  {
  }

  // ---------------------------------------------------------------------------
  // Query parameters

  predicate HasKey(query: seq<(string, string)>, key: string) {
    exists i :: 0 <= i < |query| && query[i].0 == key
  }

  function RemoveKey(query: seq<(string, string)>, key: string): seq<(string, string)> {
    if query == [] then []
    else (if query[0].0 == key then [] else [query[0]]) + RemoveKey(query[1..], key)
  }

  function ReplaceFirst(query: seq<(string, string)>, key: string, value: string): seq<(string, string)> {
    if query == [] then []
    else if query[0].0 == key then [(key, value)] + RemoveKey(query[1..], key)
    else [query[0]] + ReplaceFirst(query[1..], key, value)
  }

  /** `searchParams.set(key, value)`: the first pair named `key` takes the new
      value and the others named `key` go; without such a pair it is appended. */
  function SetParam(query: seq<(string, string)>, key: string, value: string): seq<(string, string)> {
    if HasKey(query, key) then ReplaceFirst(query, key, value) else query + [(key, value)]
  }

  /** The query the loop over `Object.entries(params)` builds: each value that
      is not undefined, null or "" is set as text, in entry order. */
  function QueryFrom(params: seq<(string, Json)>): seq<(string, string)> {
    if params == [] then []
    else
      var (key, value) := params[|params| - 1];
      var query := QueryFrom(params[..|params| - 1]);
      if NonBlank(value) then SetParam(query, key, ToStr(value)) else query
  }

  /** `if (params) { ... }`: without params nothing is added. */
  function Query(params: Option<seq<(string, Json)>>): seq<(string, string)> {
    match params
    case None => []
    case Some(ps) => QueryFrom(ps)
  }

  /** Reference definition: keep the entries whose value is present, as text. */
  function Emitted(params: seq<(string, Json)>): seq<(string, string)> {
    if params == [] then []
    else
      var (key, value) := params[|params| - 1];
      Emitted(params[..|params| - 1]) + (if NonBlank(value) then [(key, ToStr(value))] else [])
  }

  /** The keys of a record: no two entries share one. */
  predicate DistinctKeys(params: seq<(string, Json)>) {
    forall i, j :: 0 <= i < j < |params| ==> params[i].0 != params[j].0
  }

  lemma {:induction false} EmittedKeys(params: seq<(string, Json)>, key: string)
    requires forall i :: 0 <= i < |params| ==> params[i].0 != key
    ensures !HasKey(Emitted(params), key)
  {
    if params != [] {
      EmittedKeys(params[..|params| - 1], key);
    }
  }

  /** For a record (distinct keys) `set` only ever appends, so the query is
      the plain filter of the entries. */
  lemma {:induction false} QueryIsFilter(params: seq<(string, Json)>)
    requires DistinctKeys(params)
    ensures QueryFrom(params) == Emitted(params)
  {
    if params != [] {
      var init := params[..|params| - 1];
      var (key, value) := params[|params| - 1];
      QueryIsFilter(init);
      EmittedKeys(init, key);
    }
  }

  lemma {:induction false} EmittedMembers(params: seq<(string, Json)>, key: string, text: string)
    ensures (key, text) in Emitted(params) <==>
            exists v :: (key, v) in params && NonBlank(v) && text == ToStr(v)
  {
    if params != [] {
      var init := params[..|params| - 1];
      var last := params[|params| - 1];
      EmittedMembers(init, key, text);
      assert params == init + [last];
      if (key, text) in Emitted(params) && (key, text) !in Emitted(init) {
        assert (key, last.1) in params;
      }
    }
  }

  /** A parameter appears in the query iff its value is not undefined, null or
      "", and then with exactly that value as text. */
  lemma QueryParams(params: seq<(string, Json)>, key: string, text: string)
    requires DistinctKeys(params)
    ensures (key, text) in QueryFrom(params) <==>
            exists v :: (key, v) in params && NonBlank(v) && text == ToStr(v)
  {
    QueryIsFilter(params);
    EmittedMembers(params, key, text);
  }

  // ---------------------------------------------------------------------------
  // Responses

  predicate IsOkStatus(status: int) {
    200 <= status <= 299
  }

  /** The error thrown for a response that is not ok. */
  function ApiError(status: int, body: string): Thrown {
    Thrown("Error", "API error " + IntToString(status) + ": " + body)
  }

  /** What `request` makes of the reply: the parsed body for a 2xx status, the
      API error otherwise, and the rejection of `fetch` passed on. */
  function Receive(reply: Reply): (r: Result<Json>)
    ensures reply.FetchFailed? ==> r == Threw(reply.error)
    ensures reply.Answered? && !IsOkStatus(reply.status) ==>
              r == Threw(Thrown("Error", "API error " + IntToString(reply.status) + ": " + reply.body))
    ensures reply.Answered? && IsOkStatus(reply.status) ==> r == reply.json
  {
    match reply
    case FetchFailed(e) => Threw(e)
    case Answered(status, body, json) => if IsOkStatus(status) then json else Threw(ApiError(status, body))
  }

  lemma ColonAfter(d: string, rest: string)
    ensures (d + ": " + rest)[|d|] == ':'
    ensures forall k :: 0 <= k < |d| ==> (d + ": " + rest)[k] == d[k]
  {
  }

  lemma DigitsThenColon(d1: string, d2: string, rest1: string, rest2: string)
    requires forall i :: 0 <= i < |d1| ==> IsDigit(d1[i])
    requires forall i :: 0 <= i < |d2| ==> IsDigit(d2[i])
    requires d1 + ": " + rest1 == d2 + ": " + rest2
    ensures d1 == d2 && rest1 == rest2
  {
    ColonAfter(d1, rest1);
    ColonAfter(d2, rest2);
    if |d1| < |d2| {
      assert false;
    } else if |d2| < |d1| {
      assert false;
    } else {
      assert d1 == (d1 + ": " + rest1)[..|d1|];
      assert d2 == (d2 + ": " + rest2)[..|d2|];
      assert rest1 == (d1 + ": " + rest1)[|d1| + 2..];
      assert rest2 == (d2 + ": " + rest2)[|d2| + 2..];
    }
  }

  /** The error message identifies the HTTP status and the body it reports. */
  lemma ApiErrorIdentifies(s1: nat, body1: string, s2: nat, body2: string)
    ensures ApiError(s1, body1) == ApiError(s2, body2) ==> s1 == s2 && body1 == body2
  {
    if ApiError(s1, body1) == ApiError(s2, body2) {
      var t1 := NatToString(s1) + ": " + body1;
      var t2 := NatToString(s2) + ": " + body2;
      ApiErrorMessage(s1, body1);
      ApiErrorMessage(s2, body2);
      PrefixCancels("API error ", t1, t2);
      DigitsThenColon(NatToString(s1), NatToString(s2), body1, body2);
      NatToStringInjective(s1, s2);
    }
  }

  lemma ApiErrorMessage(status: nat, body: string)
    ensures ApiError(status, body).message == "API error " + (NatToString(status) + ": " + body)
  {
  }

  lemma PrefixCancels(p: string, a: string, b: string)
    requires p + a == p + b
    ensures a == b
  {
    assert a == (p + a)[|p|..];
    assert b == (p + b)[|p|..];
  }

  // ---------------------------------------------------------------------------
  // The client

  class RobinhoodApiClient {
    const baseUrl: string
    const apiKey: string

    /** Keeps the key and the base URL without its trailing slashes. */
    constructor (baseUrl: string, apiKey: string)
      ensures this.baseUrl == StripTrailingSlashes(baseUrl)
      ensures this.apiKey == apiKey
    {
      this.baseUrl := StripTrailingSlashes(baseUrl);
      this.apiKey := apiKey;
    }

    /** The headers every request carries. */
    function Headers(): seq<(string, string)> {
      [("x-api-key", apiKey), ("Accept", "application/json")]
    }

    /** The request `request(path, params)` sends. */
    function RequestFor(path: string, params: Option<seq<(string, Json)>>): HttpRequest {
      HttpRequest(baseUrl + path, Query(params), Headers())
    }

    /** Builds the request for `path` with the present `params`, and interprets
        the reply the network gives for it. */
    method Request(path: string, params: Option<seq<(string, Json)>>, reply: Reply)
      returns (req: HttpRequest, data: Result<Json>)
      ensures req.url == baseUrl + path
      ensures req.headers == [("x-api-key", apiKey), ("Accept", "application/json")]
      ensures params.None? ==> req.query == []
      ensures params.Some? ==> req.query == QueryFrom(params.value)
      ensures data == Receive(reply)
    {
      var query: seq<(string, string)> := [];
      if params.Some? {
        var ps := params.value;
        for i := 0 to |ps|
          invariant query == QueryFrom(ps[..i])
        {
          assert ps[..i + 1][..i] == ps[..i];
          var (key, value) := ps[i];
          if value != JUndef && value != JNull && value != JStr("") {
            query := SetParam(query, key, ToStr(value));
          }
        }
        assert ps[..|ps|] == ps;
      }
      req := HttpRequest(baseUrl + path, query, Headers());
      if reply.FetchFailed? {
        data := Threw(reply.error);
      } else if !(200 <= reply.status <= 299) {
        data := Threw(Thrown("Error", "API error " + IntToString(reply.status) + ": " + reply.body));
      } else {
        data := reply.json;
      }
    }

    method ListAccounts(reply: Reply) returns (req: HttpRequest, data: Result<Json>)
      ensures req == RequestFor("/v1/accounts", None)
      ensures data == Receive(reply)
    {
      req, data := Request("/v1/accounts", None, reply);
    }

    method ListProjects(accountPrefix: Json, reply: Reply) returns (req: HttpRequest, data: Result<Json>)
      ensures req == RequestFor("/v1/accounts/" + ToStr(accountPrefix) + "/projects", None)
      ensures data == Receive(reply)
    {
      req, data := Request("/v1/accounts/" + ToStr(accountPrefix) + "/projects", None, reply);
    }

    method GetMarketShare(accountPrefix: Json, projectNumber: Json, params: Option<seq<(string, Json)>>, reply: Reply)
      returns (req: HttpRequest, data: Result<Json>)
      ensures req == RequestFor("/v1/accounts/" + ToStr(accountPrefix) + "/projects/" + ToStr(projectNumber) + "/market-share", params)
      ensures data == Receive(reply)
    {
      req, data := Request("/v1/accounts/" + ToStr(accountPrefix) + "/projects/" + ToStr(projectNumber) + "/market-share", params, reply);
    }

    method GetMarketOverview(accountPrefix: Json, projectNumber: Json, params: Option<seq<(string, Json)>>, reply: Reply)
      returns (req: HttpRequest, data: Result<Json>)
      ensures req == RequestFor("/v1/accounts/" + ToStr(accountPrefix) + "/projects/" + ToStr(projectNumber) + "/market-overview", params)
      ensures data == Receive(reply)
    {
      req, data := Request("/v1/accounts/" + ToStr(accountPrefix) + "/projects/" + ToStr(projectNumber) + "/market-overview", params, reply);
    }

    method GetRankings(accountPrefix: Json, projectNumber: Json, params: Option<seq<(string, Json)>>, reply: Reply)
      returns (req: HttpRequest, data: Result<Json>)
      ensures req == RequestFor("/v1/accounts/" + ToStr(accountPrefix) + "/projects/" + ToStr(projectNumber) + "/rankings", params)
      ensures data == Receive(reply)
    {
      req, data := Request("/v1/accounts/" + ToStr(accountPrefix) + "/projects/" + ToStr(projectNumber) + "/rankings", params, reply);
    }
  }
}
