/** The `get_market_share` tool: market share rows for a project, with the
    filters the backend applied and a 50-row table. */
module MarketShare {
  import opened Js
  import opened Api
  import opened Render

  /** The number of rows the table shows. */
  const Cap: nat := 50

  /** The opening of the text when there are no rows. */
  const NoDataLead: string := "No market share data found for project "

  const ParamKeys: seq<string> := ["source", "q", "device"]

  /** `{ source: args.source, q: args.q, device: args.device }` */
  function Params(args: Json): seq<(string, Json)> {
    ArgParams(args, ParamKeys)
  }

  function Path(prefix: Json, project: Json): string {
    "/v1/accounts/" + ToStr(prefix) + "/projects/" + ToStr(project) + "/market-share"
  }

  /** The mention of the search term in the no-data text. */
  function SearchTermNote(q: Json): string {
    " (search term: \"" + ToStr(q) + "\")"
  }

  /** The mention of the source in the no-data text. */
  function SourceNote(source: Json): string {
    " (source: \"" + ToStr(source) + "\")"
  }

  /** The text when `data.data` is missing or empty. */
  function NoRowsText(args: Json, project: Json): string {
    NoDataLead + ToStr(project)
    + (if Truthy(Prop(args, "q")) then SearchTermNote(Prop(args, "q")) else "")
    + (if Truthy(Prop(args, "source")) then SourceNote(Prop(args, "source")) else "")
    + NotProcessed
  }

  /** The bold source, or "Unknown" when it is falsy, then the truthy ones of
      q (quoted), device and location, each after " | ". */
  function RowHeader(row: Json): string {
    var source := "**" + ToStr(Or(Prop(row, "source"), JStr("Unknown"))) + "**";
    var withQ := AppendIf(source, Truthy(Prop(row, "q")), " | \"" + ToStr(Prop(row, "q")) + "\"");
    var withDevice := AppendIf(withQ, Truthy(Prop(row, "device")), " | " + ToStr(Prop(row, "device")));
    AppendIf(withDevice, Truthy(Prop(row, "location")), " | " + ToStr(Prop(row, "location"))) + "\n"
  }

  /** `text` followed by the four metric lines, each written when its field
      is not undefined, then the date line when the date is truthy. */
  function Metrics(text: string, row: Json): string {
    var share := AppendIf(text, Defined(Prop(row, "market_share")),
                          "  Market Share: " + ToStr(Prop(row, "market_share")) + "%\n");
    var rank := AppendIf(share, Defined(Prop(row, "avg_rank")), "  Avg Rank: " + ToStr(Prop(row, "avg_rank")) + "\n");
    var visibility := AppendIf(rank, Defined(Prop(row, "visibility")),
                               "  Visibility: " + ToStr(Prop(row, "visibility")) + "\n");
    var products := AppendIf(visibility, Defined(Prop(row, "product_count")),
                             "  Products: " + ToStr(Prop(row, "product_count")) + "\n");
    AppendIf(products, Truthy(Prop(row, "date")), "  Date: " + ToStr(Prop(row, "date")) + "\n")
  }

  /** A row's block; reading `row.source` throws on a null or undefined row. */
  function RowBlock(row: Json): Result<string> {
    var _ :- Member(row, "source");
    Ok(Metrics(RowHeader(row), row) + "\n")
  }

  function RowBlocks(rows: seq<Json>): Result<string> {
    if rows == [] then Ok("")
    else
      var first :- RowBlock(rows[0]);
      var rest :- RowBlocks(rows[1..]);
      Ok(first + rest)
  }

  /** The notice of the rows left out of the table. */
  function Footer(count: nat): string {
    "\n... and " + IntToString(count - Cap) + " more rows (showing first 50).\n"
  }

  /** `formatMarketShareData(rows)`: "No data." for an empty list, the
      listing otherwise. */
  function Table(rows: Json): Result<string> {
    if LengthIsZero(rows) then Ok("No data.\n") else Listing(rows)
  }

  /** The blocks of the first 50 rows, then the notice of the rest. */
  function Listing(rows: Json): Result<string> {
    match Elements(rows)
    case None => Threw(TypeError("rows.slice is not a function"))
    case Some(items) =>
      var body :- RowBlocks(Take(items, Cap));
      Ok(AppendIf(body, |items| > Cap, Footer(|items|)))
  }

  /** The tool's result for the response body `data`. */
  function Format(args: Json, project: Json, data: Json): Result<ToolResult> {
    var rows :- Member(data, "data");
    if !Truthy(rows) || LengthIsZero(rows) then Ok(Text(NoRowsText(args, project)))
    else Populated(project, data, rows)
  }

  /** The result when there are rows: the intro followed by the table, or the
      table's error. */
  function Populated(project: Json, data: Json, rows: Json): Result<ToolResult> {
    var table :- Table(rows);
    Ok(Text(Intro(project, data) + table))
  }

  /** The heading, the applied filters when any is truthy, and the total. */
  function Intro(project: Json, data: Json): string {
    var heading := "## Market Share Data " + Dash + " Project " + ToStr(project) + "\n";
    var desc := FilterDesc(Or(Prop(data, "filters_applied"), JObj([])));
    var filtered := AppendIf(heading, desc != "", "Filters: " + desc + "\n");
    filtered + ("Total results: " + ToStr(Prop(data, "total_results")) + "\n\n")
  }

  /** The handler never sets the error flag itself, and an error from the
      request is passed on as it is. */
  function Outcome(args: Json, project: Json, fetched: Result<Json>): (r: Result<ToolResult>)
    ensures r.Ok? ==> !r.value.isError
    ensures fetched.Threw? ==> r == Threw(fetched.error)
  {
    var data :- fetched;
    Format(args, project, data)
  }

  /** `handleGetMarketShare(api, args)` when the network gives `reply`. */
  function Respond(api: RobinhoodApiClient, args: Json, reply: Reply): Handled {
    if !NotNullish(args) then Handled(None, Threw(ReadError(args, "account_prefix")))
    else
      var project := ProjectArg(args);
      Handled(Some(api.RequestFor(Path(PrefixArg(args), project), Some(Params(args)))),
              Outcome(args, project, Receive(reply)))
  }

  method HandleGetMarketShare(api: RobinhoodApiClient, args: Json, reply: Reply)
    returns (sent: Option<HttpRequest>, out: Result<ToolResult>)
    ensures Handled(sent, out) == Respond(api, args, reply)
  {
    if args == JUndef || args == JNull {
      return None, Threw(ReadError(args, "account_prefix"));
    }
    var prefix := Or(Prop(args, "account_prefix"), JStr(DefaultPrefix));
    var project := Or(Prop(args, "project_number"), JNum(1));
    var params := ArgParams(args, ParamKeys);
    var req, fetched := api.GetMarketShare(prefix, project, Some(params), reply);
    sent := Some(req);
    if fetched.Threw? {
      return sent, Threw(fetched.error);
    }
    out := WriteResult(args, project, fetched.value);
  }

  /** The handler's work once the response body `data` has arrived. */
  method WriteResult(args: Json, project: Json, data: Json) returns (out: Result<ToolResult>)
    ensures out == Format(args, project, data)
  {
    if data == JUndef || data == JNull {
      return Threw(ReadError(data, "data"));
    }
    var rows := Prop(data, "data");
    if !Truthy(rows) || Prop(rows, "length") == JNum(0) {
      MarketShareNoRows(args, project, data);
      return Ok(Text(NoRowsText(args, project)));
    }
    FormatPopulated(args, project, data);
    out := WritePopulated(project, data, rows);
  }

  lemma FormatPopulated(args: Json, project: Json, data: Json)
    requires NotNullish(data) && Truthy(Prop(data, "data")) && !LengthIsZero(Prop(data, "data"))
    ensures Format(args, project, data) == Populated(project, data, Prop(data, "data"))
  {
  }

  method WritePopulated(project: Json, data: Json, rows: Json) returns (out: Result<ToolResult>)
    ensures out == Populated(project, data, rows)
  {
    var text := WriteIntro(project, data);
    var table := FormatMarketShareData(rows);
    if table.Threw? {
      return Threw(table.error);
    }
    return Ok(Text(text + table.value));
  }

  method WriteIntro(project: Json, data: Json) returns (text: string)
    ensures text == Intro(project, data)
  {
    var filters := Or(Prop(data, "filters_applied"), JObj([]));
    var filterDesc := FilterDesc(filters);
    text := "## Market Share Data " + Dash + " Project " + ToStr(project) + "\n";
    if filterDesc != "" {
      text := text + ("Filters: " + filterDesc + "\n");
    }
    text := text + ("Total results: " + ToStr(Prop(data, "total_results")) + "\n\n");
  }

  method FormatMarketShareData(rows: Json) returns (r: Result<string>)
    ensures r == Table(rows)
  {
    if Prop(rows, "length") == JNum(0) {
      return Ok("No data.\n");
    }
    r := WriteListing(rows);
  }

  method WriteListing(rows: Json) returns (r: Result<string>)
    ensures r == Listing(rows)
  {
    var items := Elements(rows);
    if items.None? {
      return Threw(TypeError("rows.slice is not a function"));
    }
    var blocks := WriteRows(Take(items.value, Cap));
    ListingOf(rows, items.value);
    if blocks.Threw? {
      return Threw(blocks.error);
    }
    var text := blocks.value;
    if |items.value| > Cap {
      text := text + ("\n... and " + IntToString(|items.value| - Cap) + " more rows (showing first 50).\n");
    }
    return Ok(text);
  }

  /** The listing of a list is its first 50 blocks and the notice, or the
      error of the first row that has no block. */
  lemma ListingOf(rows: Json, items: seq<Json>)
    requires Elements(rows) == Some(items)
    ensures RowBlocks(Take(items, Cap)).Threw? ==> Listing(rows) == Threw(RowBlocks(Take(items, Cap)).error)
    ensures RowBlocks(Take(items, Cap)).Ok? ==>
              Listing(rows) == Ok(AppendIf(RowBlocks(Take(items, Cap)).value, |items| > Cap, Footer(|items|)))
  {
  }

  /** The loop over the displayed rows. */
  method WriteRows(display: seq<Json>) returns (r: Result<string>)
    ensures r == RowBlocks(display)
  {
    var text := "";
    assert display[0..] == display;
    PrependEmpty(text, RowBlocks(display));
    for i := 0 to |display|
      invariant RowBlocks(display) == Prepend(text, RowBlocks(display[i..]))
    {
      var row := display[i];
      RowBlocksStep(display, i);
      if row == JUndef || row == JNull {
        return Threw(ReadError(row, "source"));
      }
      var block := WriteRow(row);
      PrependTwice(text, block, RowBlocks(display[i + 1..]));
      text := text + block;
    }
    assert display[|display|..] == [];
    PrependEmpty(text, Ok(""));
    return Ok(text);
  }

  /** The blocks from row `i` on: row `i`'s block, or its error, then the
      blocks of the rest. */
  lemma RowBlocksStep(rows: seq<Json>, i: nat)
    requires i < |rows|
    ensures RowBlock(rows[i]).Threw? ==> RowBlocks(rows[i..]) == Threw(RowBlock(rows[i]).error)
    ensures RowBlock(rows[i]).Ok? ==> RowBlocks(rows[i..]) == Prepend(RowBlock(rows[i]).value, RowBlocks(rows[i + 1..]))
  {
    assert rows[i..][1..] == rows[i + 1..];
  }

  /** One row of the table: its header line, its metric lines and a blank
      line. */
  method WriteRow(row: Json) returns (block: string)
    ensures block == Metrics(RowHeader(row), row) + "\n"
  {
    block := WriteHeader(row);
    block := WriteMetrics(block, row);
    block := block + "\n";
  }

  method WriteHeader(row: Json) returns (text: string)
    ensures text == RowHeader(row)
  {
    text := "**" + ToStr(Or(Prop(row, "source"), JStr("Unknown"))) + "**";
    if Truthy(Prop(row, "q")) {
      text := text + (" | \"" + ToStr(Prop(row, "q")) + "\"");
    }
    if Truthy(Prop(row, "device")) {
      text := text + (" | " + ToStr(Prop(row, "device")));
    }
    if Truthy(Prop(row, "location")) {
      text := text + (" | " + ToStr(Prop(row, "location")));
    }
    text := text + "\n";
  }

  method WriteMetrics(header: string, row: Json) returns (text: string)
    ensures text == Metrics(header, row)
  {
    text := header;
    if Defined(Prop(row, "market_share")) {
      text := text + ("  Market Share: " + ToStr(Prop(row, "market_share")) + "%\n");
    }
    if Defined(Prop(row, "avg_rank")) {
      text := text + ("  Avg Rank: " + ToStr(Prop(row, "avg_rank")) + "\n");
    }
    if Defined(Prop(row, "visibility")) {
      text := text + ("  Visibility: " + ToStr(Prop(row, "visibility")) + "\n");
    }
    if Defined(Prop(row, "product_count")) {
      text := text + ("  Products: " + ToStr(Prop(row, "product_count")) + "\n");
    }
    if Truthy(Prop(row, "date")) {
      text := text + ("  Date: " + ToStr(Prop(row, "date")) + "\n");
    }
  }

  // ---------------------------------------------------------------------------
  // Properties

  /** The request goes to the project's market-share endpoint, with the key
      headers, and its query holds exactly those of source, q and device that
      are not undefined, null or "", as text. */
  lemma MarketShareRequest(api: RobinhoodApiClient, args: Json, reply: Reply, key: string, text: string)
    requires NotNullish(args)
    ensures Respond(api, args, reply).sent.Some?
    ensures Respond(api, args, reply).sent.value.url ==
            api.baseUrl + ("/v1/accounts/" + ToStr(PrefixArg(args)) + "/projects/" + ToStr(ProjectArg(args)) + "/market-share")
    ensures Respond(api, args, reply).sent.value.headers == [("x-api-key", api.apiKey), ("Accept", "application/json")]
    ensures (key, text) in Respond(api, args, reply).sent.value.query <==>
            key in ["source", "q", "device"] && NonBlank(Prop(args, key)) && text == ToStr(Prop(args, key))
  {
    ArgQuery(args, ParamKeys, key, text);
  }

  /** When `data.data` is missing, falsy or empty the result is the
      explanatory text. */
  lemma MarketShareNoRows(args: Json, project: Json, data: Json)
    requires NotNullish(data)
    requires !Truthy(Prop(data, "data")) || LengthIsZero(Prop(data, "data"))
    ensures Format(args, project, data) == Ok(ToolResult(NoRowsText(args, project), false))
  {
  }

  /** The explanatory text names the project, and mentions q and source only
      when they are truthy: its exact wording for each of the four cases. */
  lemma MarketShareNoRowsText(args: Json, project: Json)
    ensures !Truthy(Prop(args, "q")) && !Truthy(Prop(args, "source")) ==>
              NoRowsText(args, project) == NoDataLead + ToStr(project) + NotProcessed
    ensures Truthy(Prop(args, "q")) && !Truthy(Prop(args, "source")) ==>
              NoRowsText(args, project) ==
              NoDataLead + ToStr(project) + SearchTermNote(Prop(args, "q")) + NotProcessed
    ensures !Truthy(Prop(args, "q")) && Truthy(Prop(args, "source")) ==>
              NoRowsText(args, project) ==
              NoDataLead + ToStr(project) + SourceNote(Prop(args, "source")) + NotProcessed
    ensures Truthy(Prop(args, "q")) && Truthy(Prop(args, "source")) ==>
              NoRowsText(args, project) ==
              NoDataLead + ToStr(project) + SearchTermNote(Prop(args, "q"))
              + SourceNote(Prop(args, "source")) + NotProcessed
    ensures Truthy(Prop(args, "q")) ==>
              NoDataLead + ToStr(project) + SearchTermNote(Prop(args, "q"))
              <= NoRowsText(args, project)
  {
    var lead, q, source := NoDataLead + ToStr(project), Prop(args, "q"), Prop(args, "source");
    if Truthy(q) && Truthy(source) {
      StartsWith(lead + SearchTermNote(q), SourceNote(source), NotProcessed);
    } else if Truthy(q) {
      assert lead + SearchTermNote(q) + "" == lead + SearchTermNote(q);
      StartsWith(lead + SearchTermNote(q), "", NotProcessed);
    } else if Truthy(source) {
      assert lead + "" == lead;
    } else {
      assert lead + "" + "" == lead;
    }
  }

  lemma {:induction false} RowBlocksDefined(rows: seq<Json>)
    requires forall i :: 0 <= i < |rows| ==> NotNullish(rows[i])
    ensures RowBlocks(rows).Ok?
  {
    if rows != [] {
      RowBlocksDefined(rows[1..]);
    }
  }

  /** A non-empty list of rows is listed; "No data." is only for an empty
      one. */
  lemma MarketShareTable(rows: Json, items: seq<Json>)
    requires Elements(rows) == Some(items)
    ensures items != [] ==> Table(rows) == Listing(rows)
    ensures items == [] ==> Table(rows) == Ok("No data.\n")
  {
    ElementsMatchLength(rows);
  }

  /** A list of rows gives the blocks of all rows when there are at most 50,
      and otherwise the blocks of the first 50 followed by the notice of the
      remaining count. */
  lemma MarketShareListing(rows: Json, items: seq<Json>)
    requires Elements(rows) == Some(items)
    requires forall i :: 0 <= i < |items| ==> NotNullish(items[i])
    ensures Listing(rows).Ok?
    ensures |items| <= 50 ==> Listing(rows).value == RowBlocks(items).value
    ensures |items| > 50 ==>
              Listing(rows).value == RowBlocks(items[..50]).value
                                     + ("\n... and " + IntToString(|items| - 50) + " more rows (showing first 50).\n")
  {
    var shown := Take(items, Cap);
    RowBlocksDefined(shown);
    var body := RowBlocks(shown).value;
    ListingOf(rows, items);
    if |items| > Cap {
      assert shown == items[..50];
      assert Listing(rows).value == body + Footer(|items|);
    } else {
      assert shown == items;
      assert Listing(rows).value == body;
    }
  }

  /** Rows past the 50th change nothing but the count in the notice: two lists
      of the same length that agree on their first 50 rows give the same
      table. */
  lemma MarketShareCapped(rows1: Json, rows2: Json, items1: seq<Json>, items2: seq<Json>)
    requires Elements(rows1) == Some(items1) && Elements(rows2) == Some(items2)
    requires |items1| == |items2| && Take(items1, 50) == Take(items2, 50)
    ensures Table(rows1) == Table(rows2)
  {
    ElementsMatchLength(rows1);
    ElementsMatchLength(rows2);
  }

  /** A row's header starts with its bold source, or with "**Unknown**" when the
      source is falsy. */
  lemma RowHeaderSource(row: Json)
    ensures Truthy(Prop(row, "source")) ==> "**" + ToStr(Prop(row, "source")) + "**" <= RowHeader(row)
    ensures !Truthy(Prop(row, "source")) ==> "**" + "Unknown" + "**" <= RowHeader(row)
  {
    var source := "**" + ToStr(Or(Prop(row, "source"), JStr("Unknown"))) + "**";
    var withQ := AppendIf(source, Truthy(Prop(row, "q")), " | \"" + ToStr(Prop(row, "q")) + "\"");
    var withDevice := AppendIf(withQ, Truthy(Prop(row, "device")), " | " + ToStr(Prop(row, "device")));
    var withLocation := AppendIf(withDevice, Truthy(Prop(row, "location")), " | " + ToStr(Prop(row, "location")));
    AppendIfExtends(source, source, Truthy(Prop(row, "q")), " | \"" + ToStr(Prop(row, "q")) + "\"");
    AppendIfExtends(source, withQ, Truthy(Prop(row, "device")), " | " + ToStr(Prop(row, "device")));
    AppendIfExtends(source, withDevice, Truthy(Prop(row, "location")), " | " + ToStr(Prop(row, "location")));
    assert source <= withLocation + "\n";
  }

  /** Each metric line is written exactly when its field is not undefined (a
      0 or a null is printed), and the date line exactly when the date is
      truthy; a missing field removes its own line and nothing else. */
  lemma MetricsLines(text: string, row: Json)
    ensures Metrics(text, row) ==
            text
            + (if Defined(Prop(row, "market_share")) then "  Market Share: " + ToStr(Prop(row, "market_share")) + "%\n" else "")
            + (if Defined(Prop(row, "avg_rank")) then "  Avg Rank: " + ToStr(Prop(row, "avg_rank")) + "\n" else "")
            + (if Defined(Prop(row, "visibility")) then "  Visibility: " + ToStr(Prop(row, "visibility")) + "\n" else "")
            + (if Defined(Prop(row, "product_count")) then "  Products: " + ToStr(Prop(row, "product_count")) + "\n" else "")
            + (if Truthy(Prop(row, "date")) then "  Date: " + ToStr(Prop(row, "date")) + "\n" else "")
  {
    var share := AppendIf(text, Defined(Prop(row, "market_share")),
                          "  Market Share: " + ToStr(Prop(row, "market_share")) + "%\n");
    var rank := AppendIf(share, Defined(Prop(row, "avg_rank")), "  Avg Rank: " + ToStr(Prop(row, "avg_rank")) + "\n");
    var visibility := AppendIf(rank, Defined(Prop(row, "visibility")),
                               "  Visibility: " + ToStr(Prop(row, "visibility")) + "\n");
    var products := AppendIf(visibility, Defined(Prop(row, "product_count")),
                             "  Products: " + ToStr(Prop(row, "product_count")) + "\n");
    AppendIfOptional(text, Defined(Prop(row, "market_share")), "  Market Share: " + ToStr(Prop(row, "market_share")) + "%\n");
    AppendIfOptional(share, Defined(Prop(row, "avg_rank")), "  Avg Rank: " + ToStr(Prop(row, "avg_rank")) + "\n");
    AppendIfOptional(rank, Defined(Prop(row, "visibility")), "  Visibility: " + ToStr(Prop(row, "visibility")) + "\n");
    AppendIfOptional(visibility, Defined(Prop(row, "product_count")), "  Products: " + ToStr(Prop(row, "product_count")) + "\n");
    AppendIfOptional(products, Truthy(Prop(row, "date")), "  Date: " + ToStr(Prop(row, "date")) + "\n");
  }

  /** Metric lines come only from fields that are not undefined (a 0 or a null
      is printed), and the date line only from a truthy date. */
  lemma MetricsPresence(text: string, row: Json)
    ensures (!Defined(Prop(row, "market_share")) && !Defined(Prop(row, "avg_rank")) &&
             !Defined(Prop(row, "visibility")) && !Defined(Prop(row, "product_count")) &&
             !Truthy(Prop(row, "date"))) ==> Metrics(text, row) == text
    ensures Defined(Prop(row, "market_share")) ==>
              text + "  Market Share: " + ToStr(Prop(row, "market_share")) + "%\n" <= Metrics(text, row)
  {
    var share := AppendIf(text, Defined(Prop(row, "market_share")),
                          "  Market Share: " + ToStr(Prop(row, "market_share")) + "%\n");
    var rank := AppendIf(share, Defined(Prop(row, "avg_rank")), "  Avg Rank: " + ToStr(Prop(row, "avg_rank")) + "\n");
    var visibility := AppendIf(rank, Defined(Prop(row, "visibility")),
                               "  Visibility: " + ToStr(Prop(row, "visibility")) + "\n");
    var products := AppendIf(visibility, Defined(Prop(row, "product_count")),
                             "  Products: " + ToStr(Prop(row, "product_count")) + "\n");
    AppendIfExtends(share, share, Defined(Prop(row, "avg_rank")), "  Avg Rank: " + ToStr(Prop(row, "avg_rank")) + "\n");
    AppendIfExtends(share, rank, Defined(Prop(row, "visibility")), "  Visibility: " + ToStr(Prop(row, "visibility")) + "\n");
    AppendIfExtends(share, visibility, Defined(Prop(row, "product_count")),
                    "  Products: " + ToStr(Prop(row, "product_count")) + "\n");
    AppendIfExtends(share, products, Truthy(Prop(row, "date")), "  Date: " + ToStr(Prop(row, "date")) + "\n");
    if Defined(Prop(row, "market_share")) {
      assert share == text + ("  Market Share: " + ToStr(Prop(row, "market_share")) + "%\n");
      assert text + "  Market Share: " + ToStr(Prop(row, "market_share")) + "%\n" == share;
    }
  }
}
