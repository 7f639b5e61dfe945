/** The `get_pricing` tool: pricing rows for a project, every non-empty field
    of the first 50 rows as a `key: val` line. The client method `getPricing`
    is not part of this model: the handler is modelled from the call it makes
    to the completion that call gives. */
module Pricing {
  import opened Js
  import opened Render

  /** The number of rows the listing shows. */
  const Cap: nat := 50

  /** The opening of the text when there are no rows. */
  const NoDataLead: string := "No pricing data found for project "

  const ParamKeys: seq<string> := ["search_term", "company", "device"]

  /** `{ search_term: args.search_term, company: args.company, device: args.device }` */
  function Params(args: Json): seq<(string, Json)> {
    ArgParams(args, ParamKeys)
  }

  /** `api.getPricing(prefix, project, params)` */
  function Call(args: Json): DataCall {
    DataCall(PrefixArg(args), ProjectArg(args), Some(Params(args)))
  }

  /** The text when there are no rows. */
  function NoRowsText(project: Json, data: Json): string {
    NoDataLead + ToStr(project) + ". " + ToStr(Or(Prop(data, "message"), JStr(UnderDevelopment)))
  }

  /** The tool's result for the response body `data`. */
  function Format(project: Json, data: Json): Result<ToolResult> {
    var results :- Probe(data, "pricing_data", "data");
    if LengthIsZero(results) then Ok(Text(NoRowsText(project, data)))
    else
      var intro := "## Pricing Data " + Dash + " Project " + ToStr(project) + "\n"
                   + ("Results: " + ToStr(Prop(results, "length")) + "\n\n");
      var listing :- FieldListing(results, Cap);
      Ok(Text(intro + listing))
  }

  /** The handler never sets the error flag itself, and an error from the
      request is passed on as it is. */
  function Outcome(project: Json, fetched: Result<Json>): (r: Result<ToolResult>)
    ensures r.Ok? ==> !r.value.isError
    ensures fetched.Threw? ==> r == Threw(fetched.error)
  {
    var data :- fetched;
    Format(project, data)
  }

  /** `handleGetPricing(api, args)` when the client call completes as `fetched`. */
  function Respond(args: Json, fetched: Result<Json>): Delegated {
    if !NotNullish(args) then Delegated(None, Threw(ReadError(args, "account_prefix")))
    else Delegated(Some(Call(args)), Outcome(ProjectArg(args), fetched))
  }

  method HandleGetPricing(args: Json, fetched: Result<Json>) returns (call: Option<DataCall>, out: Result<ToolResult>)
    ensures Delegated(call, out) == Respond(args, fetched)
  {
    if args == JUndef || args == JNull {
      return None, Threw(ReadError(args, "account_prefix"));
    }
    var prefix := Or(Prop(args, "account_prefix"), JStr(DefaultPrefix));
    var project := Or(Prop(args, "project_number"), JNum(1));
    var params := ArgParams(args, ["search_term", "company", "device"]);
    call := Some(DataCall(prefix, project, Some(params)));
    if fetched.Threw? {
      return call, Threw(fetched.error);
    }
    var data := fetched.value;
    if data == JUndef || data == JNull {
      return call, Threw(ReadError(data, "pricing_data"));
    }
    var results := Or(Prop(data, "pricing_data"), Or(Prop(data, "data"), JArr([])));
    if Prop(results, "length") == JNum(0) {
      return call, Ok(Text(NoRowsText(project, data)));
    }
    var text := "## Pricing Data " + Dash + " Project " + ToStr(project) + "\n";
    text := text + ("Results: " + ToStr(Prop(results, "length")) + "\n\n");
    var listing := WriteFieldListing(results, Cap);
    if listing.Threw? {
      return call, Threw(listing.error);
    }
    return call, Ok(Text(text + listing.value));
  }

  // ---------------------------------------------------------------------------
  // Properties

  /** The call uses the defaulted prefix and project and a parameter record of exactly search_term, company, device, each copied from the arguments. */
  lemma PricingCall(args: Json, fetched: Result<Json>)
    requires NotNullish(args)
    ensures Respond(args, fetched).call == Some(DataCall(PrefixArg(args), ProjectArg(args), Some(Params(args))))
    ensures |Respond(args, fetched).call.value.params.value| == 3
    ensures forall i :: 0 <= i < 3 ==>
              Respond(args, fetched).call.value.params.value[i] == (["search_term", "company", "device"][i], Prop(args, ["search_term", "company", "device"][i]))
  {
  }

  /** With no rows the result is the explanatory text: the backend's truthy
      message, or the fixed fallback. */
  lemma PricingNoRows(project: Json, data: Json)
    requires NotNullish(data)
    requires !Truthy(Prop(data, "pricing_data")) && !Truthy(Prop(data, "data"))
    ensures Format(project, data) == Ok(ToolResult(NoRowsText(project, data), false))
    ensures Truthy(Prop(data, "message")) ==>
              NoRowsText(project, data) == NoDataLead + ToStr(project) + ". " + ToStr(Prop(data, "message"))
    ensures !Truthy(Prop(data, "message")) ==>
              NoRowsText(project, data) ==
              NoDataLead + ToStr(project) + ". " + UnderDevelopment
  {
  }

  /** With rows, "Results:" reports the full count, the blocks of the first
      50 rows follow (all of them when there are at most 50), and no
      notice of left-out rows is ever added. */
  lemma PricingListing(project: Json, data: Json, items: seq<Json>)
    requires Probe(data, "pricing_data", "data").Ok?
    requires Elements(Probe(data, "pricing_data", "data").value) == Some(items) && items != []
    requires forall i :: 0 <= i < |items| ==> NotNullish(items[i])
    ensures Format(project, data).Ok?
    ensures |items| <= 50 ==>
              Format(project, data).value.text ==
              "## Pricing Data " + Dash + " Project " + ToStr(project) + "\n" + ("Results: " + IntToString(|items|) + "\n\n")
              + FieldBlocks(items).value
    ensures |items| > 50 ==>
              Format(project, data).value.text ==
              "## Pricing Data " + Dash + " Project " + ToStr(project) + "\n" + ("Results: " + IntToString(|items|) + "\n\n")
              + FieldBlocks(items[..50]).value
  {
    var results := Probe(data, "pricing_data", "data").value;
    ElementsMatchLength(results);
    FieldListingCapped(results, items, Cap);
  }

  /** Rows are taken from `pricing_data` when it is truthy, else from `data`;
      an empty `pricing_data` array hides `data` and gives the
      explanatory text. */
  lemma PricingRowsSource(project: Json, data: Json)
    requires NotNullish(data)
    ensures Truthy(Prop(data, "pricing_data")) ==> Probe(data, "pricing_data", "data") == Ok(Prop(data, "pricing_data"))
    ensures !Truthy(Prop(data, "pricing_data")) && Truthy(Prop(data, "data")) ==>
              Probe(data, "pricing_data", "data") == Ok(Prop(data, "data"))
    ensures Prop(data, "pricing_data") == JArr([]) ==> Format(project, data) == Ok(ToolResult(NoRowsText(project, data), false))
  {
    ProbeOrder(data, "pricing_data", "data");
  }
}
