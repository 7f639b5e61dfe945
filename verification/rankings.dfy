/** The `get_rankings` tool: ranking rows for a project, every non-empty field
    of the first 50 rows as a `key: val` line. */
module Rankings {
  import opened Js
  import opened Api
  import opened Render

  /** The number of rows the listing shows. */
  const Cap: nat := 50

  /** The query keys copied from the arguments as they are. */
  const FilterKeys: seq<string> := ["search_term", "location", "device", "company", "date_from", "date_to"]

  /** The opening of the text when there are no rows. */
  const NoDataLead: string := "No ranking data found for project "

  /** `args.limit?.toString()` */
  function LimitParam(limit: Json): Json {
    if NotNullish(limit) then JStr(ToStr(limit)) else JUndef
  }

  /** The record of query parameters, `limit` last. */
  function Params(args: Json): seq<(string, Json)> {
    ArgParams(args, FilterKeys) + [("limit", LimitParam(Prop(args, "limit")))]
  }

  function Path(prefix: Json, project: Json): string {
    "/v1/accounts/" + ToStr(prefix) + "/projects/" + ToStr(project) + "/rankings"
  }

  /** The text when there are no rows: the backend's message when it is
      truthy, a fixed fallback otherwise. */
  function NoRowsText(project: Json, data: Json): string {
    NoDataLead + ToStr(project) + ". " + ToStr(Or(Prop(data, "message"), JStr(UnderDevelopment)))
  }

  /** The notice of the rows left out of the listing. */
  function Footer(count: nat): string {
    "\n... and " + IntToString(count - Cap) + " more rows.\n"
  }

  /** The blocks of the first 50 rows, then the notice of the rest. */
  function Listing(results: Json): Result<string> {
    match Elements(results)
    case None => Threw(TypeError("results.slice is not a function"))
    case Some(items) =>
      var body :- FieldBlocks(Take(items, Cap));
      Ok(AppendIf(body, |items| > Cap, Footer(|items|)))
  }

  /** The tool's result for the response body `data`. */
  function Format(project: Json, data: Json): Result<ToolResult> {
    var results :- Probe(data, "results", "data");
    if LengthIsZero(results) then Ok(Text(NoRowsText(project, data)))
    else
      var intro := "## Rankings " + Dash + " Project " + ToStr(project) + "\n"
                   + ("Results: " + ToStr(Prop(results, "length")) + "\n\n");
      var listing :- Listing(results);
      Ok(Text(intro + listing))
  }

  /** The handler never sets the error flag itself, and an error from the
      request is passed on as it is. */
  function Outcome(project: Json, fetched: Result<Json>): (r: Result<ToolResult>)
    ensures r.Ok? ==> !r.value.isError
    ensures fetched.Threw? ==> r == Threw(fetched.error)
  {
    var data :- fetched;
    Format(project, data)
  }

  /** `handleGetRankings(api, args)` when the network gives `reply`. */
  function Respond(api: RobinhoodApiClient, args: Json, reply: Reply): Handled {
    if !NotNullish(args) then Handled(None, Threw(ReadError(args, "account_prefix")))
    else
      var project := ProjectArg(args);
      Handled(Some(api.RequestFor(Path(PrefixArg(args), project), Some(Params(args)))),
              Outcome(project, Receive(reply)))
  }

  method HandleGetRankings(api: RobinhoodApiClient, args: Json, reply: Reply)
    returns (sent: Option<HttpRequest>, out: Result<ToolResult>)
    ensures Handled(sent, out) == Respond(api, args, reply)
  {
    if args == JUndef || args == JNull {
      return None, Threw(ReadError(args, "account_prefix"));
    }
    var prefix := Or(Prop(args, "account_prefix"), JStr(DefaultPrefix));
    var project := Or(Prop(args, "project_number"), JNum(1));
    var limit := Prop(args, "limit");
    var params := ArgParams(args, FilterKeys)
                  + [("limit", if limit != JUndef && limit != JNull then JStr(ToStr(limit)) else JUndef)];
    var req, fetched := api.GetRankings(prefix, project, Some(params), reply);
    sent := Some(req);
    if fetched.Threw? {
      return sent, Threw(fetched.error);
    }
    out := WriteResult(project, fetched.value);
  }

  /** The handler's work once the response body `data` has arrived. */
  method WriteResult(project: Json, data: Json) returns (out: Result<ToolResult>)
    ensures out == Format(project, data)
  {
    if data == JUndef || data == JNull {
      return Threw(ReadError(data, "results"));
    }
    var results := Or(Prop(data, "results"), Or(Prop(data, "data"), JArr([])));
    if Prop(results, "length") == JNum(0) {
      return Ok(Text(NoDataLead + ToStr(project) + ". " + ToStr(Or(Prop(data, "message"), JStr(UnderDevelopment)))));
    }
    var text := "## Rankings " + Dash + " Project " + ToStr(project) + "\n";
    text := text + ("Results: " + ToStr(Prop(results, "length")) + "\n\n");
    var listing := WriteListing(results);
    if listing.Threw? {
      return Threw(listing.error);
    }
    return Ok(Text(text + listing.value));
  }

  method WriteListing(results: Json) returns (r: Result<string>)
    ensures r == Listing(results)
  {
    var items := Elements(results);
    if items.None? {
      return Threw(TypeError("results.slice is not a function"));
    }
    var body := WriteFieldBlocks(Take(items.value, Cap));
    ListingOf(results, items.value);
    if body.Threw? {
      return Threw(body.error);
    }
    var text := body.value;
    if |items.value| > Cap {
      text := text + ("\n... and " + IntToString(|items.value| - Cap) + " more rows.\n");
    }
    return Ok(text);
  }

  /** The listing of a list is its first 50 blocks and the notice, or the
      error of the first row that has no block. */
  lemma ListingOf(results: Json, items: seq<Json>)
    requires Elements(results) == Some(items)
    ensures FieldBlocks(Take(items, Cap)).Threw? ==> Listing(results) == Threw(FieldBlocks(Take(items, Cap)).error)
    ensures FieldBlocks(Take(items, Cap)).Ok? ==>
              Listing(results) == Ok(AppendIf(FieldBlocks(Take(items, Cap)).value, |items| > Cap, Footer(|items|)))
  {
  }

  // ---------------------------------------------------------------------------
  // Properties

  lemma ParamsDistinct(args: Json)
    ensures DistinctKeys(Params(args))
  {
    var params := Params(args);
    var filters := ArgParams(args, FilterKeys);
    forall i, j | 0 <= i < j < |params|
      ensures params[i].0 != params[j].0
    {
      assert params[i] == filters[i];
      if j < |filters| {
        assert params[j] == filters[j];
      }
    }
  }

  /** The query holds exactly the filter arguments that are not undefined,
      null or "", as text, and `limit` as the text of the argument when that
      is neither null, undefined nor empty. */
  lemma RankingsQuery(args: Json, key: string, text: string)
    ensures (key, text) in QueryFrom(Params(args)) <==>
            (key in FilterKeys && NonBlank(Prop(args, key)) && text == ToStr(Prop(args, key)))
            || (key == "limit" && NotNullish(Prop(args, "limit")) && text == ToStr(Prop(args, "limit")) && text != "")
  {
    var params := Params(args);
    var filters := ArgParams(args, FilterKeys);
    var limit := LimitParam(Prop(args, "limit"));
    ParamsDistinct(args);
    QueryParams(params, key, text);
    if key in FilterKeys && NonBlank(Prop(args, key)) && text == ToStr(Prop(args, key)) {
      var i :| 0 <= i < |FilterKeys| && FilterKeys[i] == key;
      assert params[i] == (key, Prop(args, key));
    }
    if key == "limit" && NotNullish(Prop(args, "limit")) && text == ToStr(Prop(args, "limit")) && text != "" {
      assert params[|filters|] == ("limit", limit);
    }
    if (key, text) in QueryFrom(params) {
      var v :| (key, v) in params && NonBlank(v) && text == ToStr(v);
      var i :| 0 <= i < |params| && params[i] == (key, v);
      if i < |filters| {
        assert filters[i] == (key, v);
      } else {
        assert params[i] == ("limit", limit);
      }
    }
  }

  /** A numeric `limit` is sent as its decimal text. */
  lemma RankingsLimit(args: Json)
    requires Prop(args, "limit").JNum?
    ensures ("limit", IntToString(Prop(args, "limit").n)) in QueryFrom(Params(args))
  {
    IntToStringNonEmpty(Prop(args, "limit").n);
    RankingsQuery(args, "limit", IntToString(Prop(args, "limit").n));
  }

  /** The request goes to the project's rankings endpoint with the query
      above. */
  lemma RankingsRequest(api: RobinhoodApiClient, args: Json, reply: Reply)
    requires NotNullish(args)
    ensures Respond(api, args, reply).sent.Some?
    ensures Respond(api, args, reply).sent.value.url ==
            api.baseUrl + ("/v1/accounts/" + ToStr(PrefixArg(args)) + "/projects/" + ToStr(ProjectArg(args)) + "/rankings")
    ensures Respond(api, args, reply).sent.value.query == QueryFrom(Params(args))
  {
  }

  lemma IntToStringNonEmpty(n: int)
    ensures IntToString(n) != ""
  {
  }

  /** With neither a truthy `results` nor a truthy `data` the result is the
      explanatory text: the backend's truthy message, or the fixed fallback. */
  lemma RankingsNoRows(project: Json, data: Json)
    requires NotNullish(data)
    requires !Truthy(Prop(data, "results")) && !Truthy(Prop(data, "data"))
    ensures Format(project, data) == Ok(ToolResult(NoRowsText(project, data), false))
    ensures Truthy(Prop(data, "message")) ==>
              NoRowsText(project, data) == NoDataLead + ToStr(project) + ". " + ToStr(Prop(data, "message"))
    ensures !Truthy(Prop(data, "message")) ==>
              NoRowsText(project, data) ==
              NoDataLead + ToStr(project) + ". " + UnderDevelopment
  {
  }

  /** An empty `results` array is truthy, so it is kept even when `data` holds
      rows: the result is the explanatory text. */
  lemma RankingsEmptyResultsKept(project: Json, data: Json)
    requires Prop(data, "results") == JArr([])
    ensures Format(project, data) == Ok(ToolResult(NoRowsText(project, data), false))
  {
    assert NotNullish(data);
  }

  /** With rows, "Results:" reports the full count, the first 50 rows are
      listed (all of them when there are at most 50) and the notice of the
      remaining count follows exactly when there are more than 50. */
  lemma RankingsListing(project: Json, data: Json, items: seq<Json>)
    requires Probe(data, "results", "data").Ok?
    requires Elements(Probe(data, "results", "data").value) == Some(items) && items != []
    requires forall i :: 0 <= i < |items| ==> NotNullish(items[i])
    ensures Format(project, data).Ok?
    ensures Format(project, data).value.text ==
            "## Rankings " + Dash + " Project " + ToStr(project) + "\n" + ("Results: " + IntToString(|items|) + "\n\n")
            + Listing(Probe(data, "results", "data").value).value
    ensures |items| <= 50 ==> Listing(Probe(data, "results", "data").value).value == FieldBlocks(items).value
    ensures |items| > 50 ==>
              Listing(Probe(data, "results", "data").value).value ==
              FieldBlocks(items[..50]).value + ("\n... and " + IntToString(|items| - 50) + " more rows.\n")
  {
    var results := Probe(data, "results", "data").value;
    ElementsMatchLength(results);
    FieldBlocksDefined(Take(items, Cap));
    ListingOf(results, items);
  }

  /** Two row lists of the same length that agree on their first 50 rows give
      the same listing. */
  lemma RankingsCapped(results1: Json, results2: Json, items1: seq<Json>, items2: seq<Json>)
    requires Elements(results1) == Some(items1) && Elements(results2) == Some(items2)
    requires |items1| == |items2| && Take(items1, 50) == Take(items2, 50)
    ensures Listing(results1) == Listing(results2)
  {
  }
}
