/** The server's two request handlers: the tool list, and the dispatch of a
    tool call by name with its conversion of thrown errors into error
    results. */
module Server {
  import opened Js
  import opened Api
  import opened Render
  import ListAccounts
  import ListProjects
  import MarketShare
  import MarketOverview
  import Rankings

  /** The names of the advertised tools, in the order the tool list gives
      them; the descriptors' descriptions and input schemas are not
      modelled. */
  const ToolNames: seq<string> :=
    ["list_accounts", "list_projects", "get_market_share", "get_market_overview", "get_rankings"]

  /** The list of names the unknown-tool message quotes. */
  const AvailableTools: string :=
    "list_accounts" + ", " + ("list_projects" + ", " + ("get_market_share" + ", "
    + ("get_market_overview" + ", " + "get_rankings")))

  /** What a tool call returns, and the request it made, if any. */
  datatype Call = Call(sent: Option<HttpRequest>, result: ToolResult)

  /** `String(error)` for an error object: its name alone when the message is
      empty, otherwise name, colon and message. */
  function ErrorString(e: Thrown): (r: string)
    ensures e.message == "" ==> r == e.name
    ensures e.message != "" ==> r == e.name + ": " + e.message
  {
    if e.message == "" then e.name else e.name + ": " + e.message
  }

  /** The result the `catch` block makes of a thrown error. */
  function Failure(e: Thrown): ToolResult {
    ToolResult("Error: " + (if e.message != "" then e.message else ErrorString(e)), true)
  }

  /** The result of the `default` branch for a name that no case matches. */
  function Unknown(name: string): ToolResult {
    ToolResult("Unknown tool: " + name + ". Available tools: " + AvailableTools, true)
  }

  /** The handler a name selects, run against the network's `reply`; None
      for a name no case matches. */
  function Dispatch(api: RobinhoodApiClient, name: string, args: Json, reply: Reply): Option<Handled> {
    if name == "list_accounts" then Some(ListAccounts.Respond(api, reply))
    else if name == "list_projects" then Some(ListProjects.Respond(api, args, reply))
    else if name == "get_market_share" then Some(MarketShare.Respond(api, args, reply))
    else if name == "get_market_overview" then Some(MarketOverview.Respond(api, args, reply))
    else if name == "get_rankings" then Some(Rankings.Respond(api, args, reply))
    else None
  }

  /** The call-tool request handler: the selected handler's result as it is,
      its thrown error converted, or the unknown-tool result. */
  function CallTool(api: RobinhoodApiClient, name: string, args: Json, reply: Reply): Call {
    match Dispatch(api, name, args, reply)
    case None => Call(None, Unknown(name))
    case Some(Handled(sent, Ok(r))) => Call(sent, r)
    case Some(Handled(sent, Threw(e))) => Call(sent, Failure(e))
  }

  // ---------------------------------------------------------------------------
  // Properties

  /** The unknown-tool message quotes the advertised names in their order. */
  lemma AvailableToolsListed()
    ensures AvailableTools == JoinStrs(ToolNames, ", ")
  {
    calc {
      JoinStrs(ToolNames, ", ");
      "list_accounts" + ", " + JoinStrs(ToolNames[1..], ", ");
      { assert ToolNames[1..][1..] == ToolNames[2..]; }
      "list_accounts" + ", " + ("list_projects" + ", " + JoinStrs(ToolNames[2..], ", "));
      { assert ToolNames[2..][1..] == ToolNames[3..]; }
      "list_accounts" + ", " + ("list_projects" + ", " + ("get_market_share" + ", " + JoinStrs(ToolNames[3..], ", ")));
      { assert ToolNames[3..][1..] == ToolNames[4..]; }
      "list_accounts" + ", " + ("list_projects" + ", " + ("get_market_share" + ", "
        + ("get_market_overview" + ", " + JoinStrs(ToolNames[4..], ", "))));
      { assert ToolNames[4..] == ["get_rankings"]; }
      AvailableTools;
    }
  }

  /** Exactly the advertised names reach a handler. */
  lemma DispatchesListedTools(api: RobinhoodApiClient, name: string, args: Json, reply: Reply)
    ensures Dispatch(api, name, args, reply).Some? <==> name in ToolNames
  {
  }

  /** Each advertised name selects its own handler. */
  lemma DispatchTable(api: RobinhoodApiClient, args: Json, reply: Reply)
    ensures Dispatch(api, "list_accounts", args, reply) == Some(ListAccounts.Respond(api, reply))
    ensures Dispatch(api, "list_projects", args, reply) == Some(ListProjects.Respond(api, args, reply))
    ensures Dispatch(api, "get_market_share", args, reply) == Some(MarketShare.Respond(api, args, reply))
    ensures Dispatch(api, "get_market_overview", args, reply) == Some(MarketOverview.Respond(api, args, reply))
    ensures Dispatch(api, "get_rankings", args, reply) == Some(Rankings.Respond(api, args, reply))
  {
  }

  /** Any other name, the unwired tools' names among them, gives the
      unknown-tool error without a request. */
  lemma UnknownToolRejected(api: RobinhoodApiClient, name: string, args: Json, reply: Reply)
    requires name !in ToolNames
    ensures CallTool(api, name, args, reply) ==
            Call(None, ToolResult("Unknown tool: " + name + ". Available tools: " + JoinStrs(ToolNames, ", "), true))
  {
    AvailableToolsListed();
  }

  lemma UnwiredToolsUnknown()
    ensures "get_pricing" !in ToolNames && "get_google_ads" !in ToolNames
    ensures "get_title_analysis" !in ToolNames && "get_search_terms" !in ToolNames
    ensures "get_scraping_stats" !in ToolNames
  {
  }

  /** A handler's successful result is returned unchanged, and its request is
      the one the call made. */
  lemma SuccessPassedThrough(api: RobinhoodApiClient, name: string, args: Json, reply: Reply, r: ToolResult)
    requires Dispatch(api, name, args, reply).Some?
    requires Dispatch(api, name, args, reply).value.outcome == Ok(r)
    ensures CallTool(api, name, args, reply) == Call(Dispatch(api, name, args, reply).value.sent, r)
  {
  }

  /** A thrown error becomes "Error: " and its message, or `String(error)`
      when the message is empty. */
  lemma ThrownReported(api: RobinhoodApiClient, name: string, args: Json, reply: Reply, e: Thrown)
    requires Dispatch(api, name, args, reply).Some?
    requires Dispatch(api, name, args, reply).value.outcome == Threw(e)
    ensures CallTool(api, name, args, reply).result.isError
    ensures e.message != "" ==> CallTool(api, name, args, reply).result.text == "Error: " + e.message
    ensures e.message == "" ==> CallTool(api, name, args, reply).result.text == "Error: " + e.name
  {
  }

  /** No handler sets the error flag itself. */
  lemma HandlersNeverFlag(api: RobinhoodApiClient, name: string, args: Json, reply: Reply)
    requires Dispatch(api, name, args, reply).Some?
    requires Dispatch(api, name, args, reply).value.outcome.Ok?
    ensures !Dispatch(api, name, args, reply).value.outcome.value.isError
  {
  }

  /** The error flag is set exactly for an unknown name or a thrown error. */
  lemma ErrorFlagMeaning(api: RobinhoodApiClient, name: string, args: Json, reply: Reply)
    ensures CallTool(api, name, args, reply).result.isError <==>
            name !in ToolNames || Dispatch(api, name, args, reply).value.outcome.Threw?
  {
    if name in ToolNames && Dispatch(api, name, args, reply).value.outcome.Ok? {
      HandlersNeverFlag(api, name, args, reply);
    }
  }

  /** The message of the error that reading `account_prefix` off undefined
      throws. */
  lemma UndefinedPrefixMessage()
    ensures ReadError(JUndef, "account_prefix").message ==
            "Cannot read properties of undefined" + " (reading 'account_prefix')"
  {
    var head, tail := "Cannot read properties of undefined", " (reading 'account_prefix')";
    assert "Cannot read properties of " + "undefined" == head by {
      assert |"Cannot read properties of " + "undefined"| == |head|;
      forall i | 0 <= i < |head| ensures ("Cannot read properties of " + "undefined")[i] == head[i] {
      }
    }
    assert " (reading '" + "account_prefix" + "')" == tail by {
      assert |" (reading '" + "account_prefix" + "')"| == |tail|;
      forall i | 0 <= i < |tail| ensures (" (reading '" + "account_prefix" + "')")[i] == tail[i] {
      }
    }
  }

  /** A call without arguments to a tool that reads them fails before any
      request, with the error of reading `account_prefix` off undefined;
      `list_accounts` reads none. */
  lemma MissingArguments(api: RobinhoodApiClient, name: string, reply: Reply)
    requires name in ToolNames && name != "list_accounts"
    ensures CallTool(api, name, JUndef, reply) ==
            Call(None, ToolResult("Error: " + ("Cannot read properties of undefined" + " (reading 'account_prefix')"), true))
  {
    var thrown := Some(Handled(None, Threw(ReadError(JUndef, "account_prefix"))));
    if name == "list_projects" {
      assert Dispatch(api, name, JUndef, reply) == thrown;
    } else if name == "get_market_share" {
      assert Dispatch(api, name, JUndef, reply) == thrown;
    } else if name == "get_market_overview" {
      assert Dispatch(api, name, JUndef, reply) == thrown;
    } else {
      assert Dispatch(api, name, JUndef, reply) == thrown;
    }
    UndefinedPrefixMessage();
  }
}
