/** The `get_search_terms` tool: a project's keywords, the first 50 of them,
    a bare string as a bullet line and anything else as its non-empty fields.
    The client method `getSearchTerms` is not part of this model: the handler
    is modelled from the call it makes to the completion that call gives. */
module SearchTerms {
  import opened Js
  import opened Render

  /** The number of entries the listing shows. */
  const Cap: nat := 50

  /** The opening of the text when there are no rows. */
  const NoDataLead: string := "No search terms data found for project "

  /** `api.getSearchTerms(prefix, project)` */
  function Call(args: Json): DataCall {
    DataCall(PrefixArg(args), ProjectArg(args), None)
  }

  /** The text when there are no entries. */
  function NoRowsText(project: Json, data: Json): string {
    NoDataLead + ToStr(project) + ". " + ToStr(Or(Prop(data, "message"), JStr(UnderDevelopment)))
  }

  /** A string entry is one bullet line; any other entry is its field lines
      and a blank line, and `Object.entries` throws on a null or undefined
      one. */
  function TermBlock(term: Json): Result<string> {
    if term.JStr? then Ok(Bullet + " " + term.s + "\n") else FieldBlock(term)
  }

  function TermBlocks(terms: seq<Json>): Result<string> {
    if terms == [] then Ok("")
    else
      var first :- TermBlock(terms[0]);
      var rest :- TermBlocks(terms[1..]);
      Ok(first + rest)
  }

  /** The blocks of the first 50 entries. */
  function Listing(results: Json): Result<string> {
    match Elements(results)
    case None => Threw(TypeError("results.slice is not a function"))
    case Some(items) => TermBlocks(Take(items, Cap))
  }

  /** The tool's result for the response body `data`. */
  function Format(project: Json, data: Json): Result<ToolResult> {
    var results :- Probe(data, "search_terms", "data");
    if LengthIsZero(results) then Ok(Text(NoRowsText(project, data)))
    else
      var intro := "## Search Terms " + Dash + " Project " + ToStr(project) + "\n"
                   + ("Total keywords: " + ToStr(Prop(results, "length")) + "\n\n");
      var listing :- Listing(results);
      Ok(Text(intro + listing))
  }

  /** The handler never sets the error flag itself, and an error from the
      request is passed on as it is. */
  function Outcome(project: Json, fetched: Result<Json>): (r: Result<ToolResult>)
    ensures r.Ok? ==> !r.value.isError
    ensures fetched.Threw? ==> r == Threw(fetched.error)
  {
    var data :- fetched;
    Format(project, data)
  }

  /** `handleGetSearchTerms(api, args)` when the client call completes as
      `fetched`. */
  function Respond(args: Json, fetched: Result<Json>): Delegated {
    if !NotNullish(args) then Delegated(None, Threw(ReadError(args, "account_prefix")))
    else Delegated(Some(Call(args)), Outcome(ProjectArg(args), fetched))
  }

  method HandleGetSearchTerms(args: Json, fetched: Result<Json>) returns (call: Option<DataCall>, out: Result<ToolResult>)
    ensures Delegated(call, out) == Respond(args, fetched)
  {
    if args == JUndef || args == JNull {
      return None, Threw(ReadError(args, "account_prefix"));
    }
    var prefix := Or(Prop(args, "account_prefix"), JStr(DefaultPrefix));
    var project := Or(Prop(args, "project_number"), JNum(1));
    call := Some(DataCall(prefix, project, None));
    if fetched.Threw? {
      return call, Threw(fetched.error);
    }
    var data := fetched.value;
    if data == JUndef || data == JNull {
      return call, Threw(ReadError(data, "search_terms"));
    }
    var results := Or(Prop(data, "search_terms"), Or(Prop(data, "data"), JArr([])));
    if Prop(results, "length") == JNum(0) {
      return call, Ok(Text(NoRowsText(project, data)));
    }
    var text := "## Search Terms " + Dash + " Project " + ToStr(project) + "\n";
    text := text + ("Total keywords: " + ToStr(Prop(results, "length")) + "\n\n");
    var items := Elements(results);
    if items.None? {
      return call, Threw(TypeError("results.slice is not a function"));
    }
    var listing := WriteTerms(Take(items.value, Cap));
    if listing.Threw? {
      return call, Threw(listing.error);
    }
    return call, Ok(Text(text + listing.value));
  }

  method WriteTerms(display: seq<Json>) returns (r: Result<string>)
    ensures r == TermBlocks(display)
  {
    var text := "";
    assert display[0..] == display;
    PrependEmpty(text, TermBlocks(display));
    for i := 0 to |display|
      invariant TermBlocks(display) == Prepend(text, TermBlocks(display[i..]))
    {
      assert display[i..][1..] == display[i + 1..];
      var term := display[i];
      var block: string;
      if term.JStr? {
        block := Bullet + " " + term.s + "\n";
      } else {
        if term == JUndef || term == JNull {
          return Threw(TypeError("Cannot convert undefined or null to object"));
        }
        var lines := WriteFieldLines(OwnEntries(term), []);
        block := lines + "\n";
      }
      assert TermBlocks(display[i..]) == Prepend(block, TermBlocks(display[i + 1..]));
      PrependTwice(text, block, TermBlocks(display[i + 1..]));
      text := text + block;
    }
    assert display[|display|..] == [];
    PrependEmpty(text, Ok(""));
    return Ok(text);
  }

  // ---------------------------------------------------------------------------
  // Properties

  /** The call uses the defaulted prefix and project and no query
      parameters. */
  lemma SearchTermsCall(args: Json, fetched: Result<Json>)
    requires NotNullish(args)
    ensures Respond(args, fetched).call == Some(DataCall(PrefixArg(args), ProjectArg(args), None))
  {
  }

  /** With no entries the result is the explanatory text: the backend's
      truthy message, or the fixed fallback. */
  lemma SearchTermsNoRows(project: Json, data: Json)
    requires NotNullish(data)
    requires !Truthy(Prop(data, "search_terms")) && !Truthy(Prop(data, "data"))
    ensures Format(project, data) == Ok(ToolResult(NoRowsText(project, data), false))
    ensures Truthy(Prop(data, "message")) ==>
              NoRowsText(project, data) == NoDataLead + ToStr(project) + ". " + ToStr(Prop(data, "message"))
    ensures !Truthy(Prop(data, "message")) ==>
              NoRowsText(project, data) ==
              NoDataLead + ToStr(project) + ". " + UnderDevelopment
  {
  }

  /** A string entry is the single line "• term" with no blank line after it;
      an object entry is its printed fields followed by a blank line. */
  lemma TermShapes(s: string, fields: seq<(string, Json)>)
    ensures TermBlock(JStr(s)) == Ok("\U{2022} " + s + "\n")
    ensures TermBlock(JObj(fields)) == Ok(FieldLines(fields, []) + "\n")
  {
    assert Bullet + " " == "\U{2022} ";
  }

  /** Every entry gives a block when none is null or undefined, and each
      block is at least one character long (a line break at the least). */
  lemma {:induction false} TermBlocksDefined(terms: seq<Json>)
    requires forall i :: 0 <= i < |terms| ==> NotNullish(terms[i])
    ensures TermBlocks(terms).Ok?
    ensures |TermBlocks(terms).value| >= |terms|
  {
    if terms != [] {
      TermBlocksDefined(terms[1..]);
    }
  }

  /** With entries, "Total keywords:" reports the full count and the blocks
      of the first 50 entries follow (all of them when there are at most
      50). */
  lemma SearchTermsListing(project: Json, data: Json, items: seq<Json>)
    requires Probe(data, "search_terms", "data").Ok?
    requires Elements(Probe(data, "search_terms", "data").value) == Some(items) && items != []
    requires forall i :: 0 <= i < |items| ==> NotNullish(items[i])
    ensures Format(project, data).Ok?
    ensures |items| <= 50 ==>
              Format(project, data).value.text ==
              "## Search Terms " + Dash + " Project " + ToStr(project) + "\n" + ("Total keywords: " + IntToString(|items|) + "\n\n")
              + TermBlocks(items).value
    ensures |items| > 50 ==>
              Format(project, data).value.text ==
              "## Search Terms " + Dash + " Project " + ToStr(project) + "\n" + ("Total keywords: " + IntToString(|items|) + "\n\n")
              + TermBlocks(items[..50]).value
  {
    var results := Probe(data, "search_terms", "data").value;
    ElementsMatchLength(results);
    TermBlocksDefined(Take(items, Cap));
  }

  /** Entries are taken from `search_terms` when it is truthy, else from
      `data`; an empty `search_terms` array hides `data` and gives the
      explanatory text. */
  lemma SearchTermsRowsSource(project: Json, data: Json)
    requires NotNullish(data)
    ensures Truthy(Prop(data, "search_terms")) ==> Probe(data, "search_terms", "data") == Ok(Prop(data, "search_terms"))
    ensures !Truthy(Prop(data, "search_terms")) && Truthy(Prop(data, "data")) ==>
              Probe(data, "search_terms", "data") == Ok(Prop(data, "data"))
    ensures Prop(data, "search_terms") == JArr([]) ==> Format(project, data) == Ok(ToolResult(NoRowsText(project, data), false))
  {
    ProbeOrder(data, "search_terms", "data");
  }
}
