/** The `get_market_overview` tool: market overview rows for a project, with
    the filters the backend applied and a 60-row listing. */
module MarketOverview {
  import opened Js
  import opened Api
  import opened Render

  /** The number of rows the listing shows. */
  const Cap: nat := 60

  /** The opening of the text when there are no rows. */
  const NoDataLead: string := "No market overview data found for project "

  const ParamKeys: seq<string> := ["q", "device"]

  /** The keys a row's field lines leave out. */
  const Excluded: seq<string> := ["date", "q", "device", "location"]

  /** `{ q: args.q, device: args.device }` */
  function Params(args: Json): seq<(string, Json)> {
    ArgParams(args, ParamKeys)
  }

  function Path(prefix: Json, project: Json): string {
    "/v1/accounts/" + ToStr(prefix) + "/projects/" + ToStr(project) + "/market-overview"
  }

  /** The text when `data.data` is missing or empty. */
  function NoRowsText(args: Json, project: Json): string {
    NoDataLead + ToStr(project)
    + (if Truthy(Prop(args, "q")) then " (search term: \"" + ToStr(Prop(args, "q")) + "\")" else "")
    + NotProcessed
  }

  /** `if (c) parts.push(part)` */
  function PushIf(parts: seq<string>, c: bool, part: string): seq<string> {
    if c then parts + [part] else parts
  }

  /** The parts of a row's header line: the bold date, the quoted q and the
      device, each when it is truthy. */
  function HeaderParts(row: Json): seq<string> {
    var withDate := PushIf([], Truthy(Prop(row, "date")), "**" + ToStr(Prop(row, "date")) + "**");
    var withQ := PushIf(withDate, Truthy(Prop(row, "q")), "\"" + ToStr(Prop(row, "q")) + "\"");
    PushIf(withQ, Truthy(Prop(row, "device")), ToStr(Prop(row, "device")))
  }

  /** A row's block: the header parts joined by " | ", the field lines of the
      other keys, and a blank line; reading `row.date` throws on a null or
      undefined row. */
  function RowBlock(row: Json): Result<string> {
    var _ :- Member(row, "date");
    Ok(JoinStrs(HeaderParts(row), " | ") + "\n" + FieldLines(OwnEntries(row), Excluded) + "\n")
  }

  function RowBlocks(rows: seq<Json>): Result<string> {
    if rows == [] then Ok("")
    else
      var first :- RowBlock(rows[0]);
      var rest :- RowBlocks(rows[1..]);
      Ok(first + rest)
  }

  /** The notice of the rows left out of the listing. */
  function Footer(count: nat): string {
    "\n... and " + IntToString(count - Cap) + " more rows.\n"
  }

  /** The blocks of the first 60 rows, then the notice of the rest. */
  function Listing(rows: Json): Result<string> {
    match Elements(rows)
    case None => Threw(TypeError("rows.slice is not a function"))
    case Some(items) =>
      var body :- RowBlocks(Take(items, Cap));
      Ok(AppendIf(body, |items| > Cap, Footer(|items|)))
  }

  /** The tool's result for the response body `data`. */
  function Format(args: Json, project: Json, data: Json): Result<ToolResult> {
    var rows :- Member(data, "data");
    if !Truthy(rows) || LengthIsZero(rows) then Ok(Text(NoRowsText(args, project)))
    else Populated(project, data, rows)
  }

  /** The result when there are rows: the intro followed by the listing, or
      the listing's error. */
  function Populated(project: Json, data: Json, rows: Json): Result<ToolResult> {
    var listing :- Listing(rows);
    Ok(Text(Intro(project, data) + listing))
  }

  /** The heading, the applied filters when any is truthy, and the total. */
  function Intro(project: Json, data: Json): string {
    var heading := "## Market Overview " + Dash + " Project " + ToStr(project) + "\n";
    var desc := FilterDesc(Or(Prop(data, "filters_applied"), JObj([])));
    var filtered := AppendIf(heading, desc != "", "Filters: " + desc + "\n");
    filtered + ("Total data points: " + ToStr(Prop(data, "total_results")) + "\n\n")
  }

  /** The handler never sets the error flag itself, and an error from the
      request is passed on as it is. */
  function Outcome(args: Json, project: Json, fetched: Result<Json>): (r: Result<ToolResult>)
    ensures r.Ok? ==> !r.value.isError
    ensures fetched.Threw? ==> r == Threw(fetched.error)
  {
    var data :- fetched;
    Format(args, project, data)
  }

  /** `handleGetMarketOverview(api, args)` when the network gives `reply`. */
  function Respond(api: RobinhoodApiClient, args: Json, reply: Reply): Handled {
    if !NotNullish(args) then Handled(None, Threw(ReadError(args, "account_prefix")))
    else
      var project := ProjectArg(args);
      Handled(Some(api.RequestFor(Path(PrefixArg(args), project), Some(Params(args)))),
              Outcome(args, project, Receive(reply)))
  }

  method HandleGetMarketOverview(api: RobinhoodApiClient, args: Json, reply: Reply)
    returns (sent: Option<HttpRequest>, out: Result<ToolResult>)
    ensures Handled(sent, out) == Respond(api, args, reply)
  {
    if args == JUndef || args == JNull {
      return None, Threw(ReadError(args, "account_prefix"));
    }
    var prefix := Or(Prop(args, "account_prefix"), JStr(DefaultPrefix));
    var project := Or(Prop(args, "project_number"), JNum(1));
    var params := ArgParams(args, ParamKeys);
    var req, fetched := api.GetMarketOverview(prefix, project, Some(params), reply);
    sent := Some(req);
    if fetched.Threw? {
      return sent, Threw(fetched.error);
    }
    out := WriteResult(args, project, fetched.value);
  }

  /** The handler's work once the response body `data` has arrived. */
  method WriteResult(args: Json, project: Json, data: Json) returns (out: Result<ToolResult>)
    ensures out == Format(args, project, data)
  {
    if data == JUndef || data == JNull {
      return Threw(ReadError(data, "data"));
    }
    var rows := Prop(data, "data");
    if !Truthy(rows) || Prop(rows, "length") == JNum(0) {
      MarketOverviewNoRows(args, project, data);
      return Ok(Text(NoRowsText(args, project)));
    }
    FormatPopulated(args, project, data);
    out := WritePopulated(project, data, rows);
  }

  lemma FormatPopulated(args: Json, project: Json, data: Json)
    requires NotNullish(data) && Truthy(Prop(data, "data")) && !LengthIsZero(Prop(data, "data"))
    ensures Format(args, project, data) == Populated(project, data, Prop(data, "data"))
  {
  }

  method WritePopulated(project: Json, data: Json, rows: Json) returns (out: Result<ToolResult>)
    ensures out == Populated(project, data, rows)
  {
    var text := WriteIntro(project, data);
    var listing := WriteListing(rows);
    if listing.Threw? {
      return Threw(listing.error);
    }
    return Ok(Text(text + listing.value));
  }

  method WriteIntro(project: Json, data: Json) returns (text: string)
    ensures text == Intro(project, data)
  {
    var filters := Or(Prop(data, "filters_applied"), JObj([]));
    var filterDesc := FilterDesc(filters);
    text := "## Market Overview " + Dash + " Project " + ToStr(project) + "\n";
    if filterDesc != "" {
      text := text + ("Filters: " + filterDesc + "\n");
    }
    text := text + ("Total data points: " + ToStr(Prop(data, "total_results")) + "\n\n");
  }

  method WriteListing(rows: Json) returns (r: Result<string>)
    ensures r == Listing(rows)
  {
    var items := Elements(rows);
    if items.None? {
      return Threw(TypeError("rows.slice is not a function"));
    }
    var body := WriteRows(Take(items.value, Cap));
    ListingOf(rows, items.value);
    if body.Threw? {
      return Threw(body.error);
    }
    var text := body.value;
    if |items.value| > Cap {
      text := text + ("\n... and " + IntToString(|items.value| - Cap) + " more rows.\n");
    }
    return Ok(text);
  }

  /** The listing of a list is its first 60 blocks and the notice, or the
      error of the first row that has no block. */
  lemma ListingOf(rows: Json, items: seq<Json>)
    requires Elements(rows) == Some(items)
    ensures RowBlocks(Take(items, Cap)).Threw? ==> Listing(rows) == Threw(RowBlocks(Take(items, Cap)).error)
    ensures RowBlocks(Take(items, Cap)).Ok? ==>
              Listing(rows) == Ok(AppendIf(RowBlocks(Take(items, Cap)).value, |items| > Cap, Footer(|items|)))
  {
  }

  method WriteRows(display: seq<Json>) returns (r: Result<string>)
    ensures r == RowBlocks(display)
  {
    var text := "";
    assert display[0..] == display;
    PrependEmpty(text, RowBlocks(display));
    for i := 0 to |display|
      invariant RowBlocks(display) == Prepend(text, RowBlocks(display[i..]))
    {
      assert display[i..][1..] == display[i + 1..];
      var row := display[i];
      if row == JUndef || row == JNull {
        return Threw(ReadError(row, "date"));
      }
      var parts: seq<string> := [];
      if Truthy(Prop(row, "date")) {
        parts := parts + ["**" + ToStr(Prop(row, "date")) + "**"];
      }
      if Truthy(Prop(row, "q")) {
        parts := parts + ["\"" + ToStr(Prop(row, "q")) + "\""];
      }
      if Truthy(Prop(row, "device")) {
        parts := parts + [ToStr(Prop(row, "device"))];
      }
      var lines := WriteFieldLines(OwnEntries(row), ["date", "q", "device", "location"]);
      var block := JoinStrs(parts, " | ") + "\n" + lines + "\n";
      assert RowBlocks(display[i..]) == Prepend(block, RowBlocks(display[i + 1..]));
      PrependTwice(text, block, RowBlocks(display[i + 1..]));
      text := text + block;
    }
    assert display[|display|..] == [];
    PrependEmpty(text, Ok(""));
    return Ok(text);
  }

  // ---------------------------------------------------------------------------
  // Properties

  /** The request goes to the project's market-overview endpoint, and its
      query holds exactly those of q and device that are not undefined, null
      or "", as text. */
  lemma MarketOverviewRequest(api: RobinhoodApiClient, args: Json, reply: Reply, key: string, text: string)
    requires NotNullish(args)
    ensures Respond(api, args, reply).sent.Some?
    ensures Respond(api, args, reply).sent.value.url ==
            api.baseUrl + ("/v1/accounts/" + ToStr(PrefixArg(args)) + "/projects/" + ToStr(ProjectArg(args)) + "/market-overview")
    ensures (key, text) in Respond(api, args, reply).sent.value.query <==>
            key in ["q", "device"] && NonBlank(Prop(args, key)) && text == ToStr(Prop(args, key))
  {
    ArgQuery(args, ParamKeys, key, text);
  }

  /** When `data.data` is missing, falsy or empty the result is the
      explanatory text. */
  lemma MarketOverviewNoRows(args: Json, project: Json, data: Json)
    requires NotNullish(data)
    requires !Truthy(Prop(data, "data")) || LengthIsZero(Prop(data, "data"))
    ensures Format(args, project, data) == Ok(ToolResult(NoRowsText(args, project), false))
  {
  }

  /** The explanatory text names the project, and mentions q only when it is
      truthy. */
  lemma MarketOverviewNoRowsText(args: Json, project: Json)
    ensures !Truthy(Prop(args, "q")) ==>
              NoRowsText(args, project) == NoDataLead + ToStr(project) + NotProcessed
    ensures Truthy(Prop(args, "q")) ==>
              NoRowsText(args, project) ==
              NoDataLead + ToStr(project) + (" (search term: \"" + ToStr(Prop(args, "q")) + "\")") + NotProcessed
  {
  }

  lemma {:induction false} RowBlocksDefined(rows: seq<Json>)
    requires forall i :: 0 <= i < |rows| ==> NotNullish(rows[i])
    ensures RowBlocks(rows).Ok?
  {
    if rows != [] {
      RowBlocksDefined(rows[1..]);
    }
  }

  /** A list of rows gives the blocks of all rows when there are at most 60,
      and otherwise the blocks of the first 60 followed by the notice of the
      remaining count. */
  lemma MarketOverviewListing(rows: Json, items: seq<Json>)
    requires Elements(rows) == Some(items)
    requires forall i :: 0 <= i < |items| ==> NotNullish(items[i])
    ensures Listing(rows).Ok?
    ensures |items| <= 60 ==> Listing(rows).value == RowBlocks(items).value
    ensures |items| > 60 ==>
              Listing(rows).value == RowBlocks(items[..60]).value
                                     + ("\n... and " + IntToString(|items| - 60) + " more rows.\n")
  {
    var shown := Take(items, Cap);
    RowBlocksDefined(shown);
    var body := RowBlocks(shown).value;
    ListingOf(rows, items);
    if |items| > Cap {
      assert shown == items[..60];
      assert Listing(rows).value == body + Footer(|items|);
    } else {
      assert shown == items;
      assert Listing(rows).value == body;
    }
  }

  /** Two lists of the same length that agree on their first 60 rows give the
      same listing. */
  lemma MarketOverviewCapped(rows1: Json, rows2: Json, items1: seq<Json>, items2: seq<Json>)
    requires Elements(rows1) == Some(items1) && Elements(rows2) == Some(items2)
    requires |items1| == |items2| && Take(items1, 60) == Take(items2, 60)
    ensures Listing(rows1) == Listing(rows2)
  {
  }

  /** The header has one part per truthy field among date, q and device, in
      that order: the date first and the device last. */
  lemma HeaderPartsOrder(row: Json)
    ensures |HeaderParts(row)| ==
            (if Truthy(Prop(row, "date")) then 1 else 0) + (if Truthy(Prop(row, "q")) then 1 else 0)
            + (if Truthy(Prop(row, "device")) then 1 else 0)
    ensures Truthy(Prop(row, "date")) ==> HeaderParts(row)[0] == "**" + ToStr(Prop(row, "date")) + "**"
    ensures Truthy(Prop(row, "device")) ==> HeaderParts(row)[|HeaderParts(row)| - 1] == ToStr(Prop(row, "device"))
    ensures Truthy(Prop(row, "q")) ==>
              HeaderParts(row)[if Truthy(Prop(row, "date")) then 1 else 0] == "\"" + ToStr(Prop(row, "q")) + "\""
  {
  }

  /** The keys date, q, device and location never give a field line: adding
      such an entry anywhere leaves a row's lines unchanged. */
  lemma ExcludedKeysNotPrinted(a: seq<(string, Json)>, key: string, val: Json, b: seq<(string, Json)>)
    requires key in ["date", "q", "device", "location"]
    ensures FieldLines(a + [(key, val)] + b, Excluded) == FieldLines(a + b, Excluded)
  {
    FieldLinesDropUnprinted(a, (key, val), b, Excluded);
  }
}
