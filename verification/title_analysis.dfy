/** The `get_title_analysis` tool: title analysis rows for a project, every
    non-empty field of the first 30 rows as a `key: val` line. The client
    method `getTitleAnalysis` is not part of this model: the handler is
    modelled from the call it makes to the completion that call gives. */
module TitleAnalysis {
  import opened Js
  import opened Render

  /** The number of rows the listing shows. */
  const Cap: nat := 30

  /** The opening of the text when there are no rows. */
  const NoDataLead: string := "No title analysis data found for project "

  /** `api.getTitleAnalysis(prefix, project)` */
  function Call(args: Json): DataCall {
    DataCall(PrefixArg(args), ProjectArg(args), None)
  }

  /** The text when there are no rows. */
  function NoRowsText(project: Json, data: Json): string {
    NoDataLead + ToStr(project) + ". " + ToStr(Or(Prop(data, "message"), JStr(UnderDevelopment)))
  }

  /** The tool's result for the response body `data`. */
  function Format(project: Json, data: Json): Result<ToolResult> {
    var results :- Probe(data, "title_analysis", "data");
    if LengthIsZero(results) then Ok(Text(NoRowsText(project, data)))
    else
      var intro := "## Title Analysis " + Dash + " Project " + ToStr(project) + "\n"
                   + ("Titles analyzed: " + ToStr(Prop(results, "length")) + "\n\n");
      var listing :- FieldListing(results, Cap);
      Ok(Text(intro + listing))
  }

  /** The handler never sets the error flag itself, and an error from the
      request is passed on as it is. */
  function Outcome(project: Json, fetched: Result<Json>): (r: Result<ToolResult>)
    ensures r.Ok? ==> !r.value.isError
    ensures fetched.Threw? ==> r == Threw(fetched.error)
  {
    var data :- fetched;
    Format(project, data)
  }

  /** `handleGetTitleAnalysis(api, args)` when the client call completes as `fetched`. */
  function Respond(args: Json, fetched: Result<Json>): Delegated {
    if !NotNullish(args) then Delegated(None, Threw(ReadError(args, "account_prefix")))
    else Delegated(Some(Call(args)), Outcome(ProjectArg(args), fetched))
  }

  method HandleGetTitleAnalysis(args: Json, fetched: Result<Json>) returns (call: Option<DataCall>, out: Result<ToolResult>)
    ensures Delegated(call, out) == Respond(args, fetched)
  {
    if args == JUndef || args == JNull {
      return None, Threw(ReadError(args, "account_prefix"));
    }
    var prefix := Or(Prop(args, "account_prefix"), JStr(DefaultPrefix));
    var project := Or(Prop(args, "project_number"), JNum(1));
    call := Some(DataCall(prefix, project, None));
    if fetched.Threw? {
      return call, Threw(fetched.error);
    }
    var data := fetched.value;
    if data == JUndef || data == JNull {
      return call, Threw(ReadError(data, "title_analysis"));
    }
    var results := Or(Prop(data, "title_analysis"), Or(Prop(data, "data"), JArr([])));
    if Prop(results, "length") == JNum(0) {
      return call, Ok(Text(NoRowsText(project, data)));
    }
    var text := "## Title Analysis " + Dash + " Project " + ToStr(project) + "\n";
    text := text + ("Titles analyzed: " + ToStr(Prop(results, "length")) + "\n\n");
    var listing := WriteFieldListing(results, Cap);
    if listing.Threw? {
      return call, Threw(listing.error);
    }
    return call, Ok(Text(text + listing.value));
  }

  // ---------------------------------------------------------------------------
  // Properties

  /** The call uses the defaulted prefix and project and no query parameters. */
  lemma TitleAnalysisCall(args: Json, fetched: Result<Json>)
    requires NotNullish(args)
    ensures Respond(args, fetched).call == Some(DataCall(PrefixArg(args), ProjectArg(args), None))
    ensures Respond(args, fetched).call.value.params.None?
  {
  }

  /** With no rows the result is the explanatory text: the backend's truthy
      message, or the fixed fallback. */
  lemma TitleAnalysisNoRows(project: Json, data: Json)
    requires NotNullish(data)
    requires !Truthy(Prop(data, "title_analysis")) && !Truthy(Prop(data, "data"))
    ensures Format(project, data) == Ok(ToolResult(NoRowsText(project, data), false))
    ensures Truthy(Prop(data, "message")) ==>
              NoRowsText(project, data) == NoDataLead + ToStr(project) + ". " + ToStr(Prop(data, "message"))
    ensures !Truthy(Prop(data, "message")) ==>
              NoRowsText(project, data) ==
              NoDataLead + ToStr(project) + ". " + UnderDevelopment
  {
  }

  /** With rows, "Titles analyzed:" reports the full count, the blocks of the first
      30 rows follow (all of them when there are at most 30), and no
      notice of left-out rows is ever added. */
  lemma TitleAnalysisListing(project: Json, data: Json, items: seq<Json>)
    requires Probe(data, "title_analysis", "data").Ok?
    requires Elements(Probe(data, "title_analysis", "data").value) == Some(items) && items != []
    requires forall i :: 0 <= i < |items| ==> NotNullish(items[i])
    ensures Format(project, data).Ok?
    ensures |items| <= 30 ==>
              Format(project, data).value.text ==
              "## Title Analysis " + Dash + " Project " + ToStr(project) + "\n" + ("Titles analyzed: " + IntToString(|items|) + "\n\n")
              + FieldBlocks(items).value
    ensures |items| > 30 ==>
              Format(project, data).value.text ==
              "## Title Analysis " + Dash + " Project " + ToStr(project) + "\n" + ("Titles analyzed: " + IntToString(|items|) + "\n\n")
              + FieldBlocks(items[..30]).value
  {
    var results := Probe(data, "title_analysis", "data").value;
    ElementsMatchLength(results);
    FieldListingCapped(results, items, Cap);
  }

  /** Rows are taken from `title_analysis` when it is truthy, else from `data`;
      an empty `title_analysis` array hides `data` and gives the
      explanatory text. */
  lemma TitleAnalysisRowsSource(project: Json, data: Json)
    requires NotNullish(data)
    ensures Truthy(Prop(data, "title_analysis")) ==> Probe(data, "title_analysis", "data") == Ok(Prop(data, "title_analysis"))
    ensures !Truthy(Prop(data, "title_analysis")) && Truthy(Prop(data, "data")) ==>
              Probe(data, "title_analysis", "data") == Ok(Prop(data, "data"))
    ensures Prop(data, "title_analysis") == JArr([]) ==> Format(project, data) == Ok(ToolResult(NoRowsText(project, data), false))
  {
    ProbeOrder(data, "title_analysis", "data");
  }
}
