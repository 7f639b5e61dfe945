/** The `list_accounts` tool: every account the key can see, four lines each,
    then a hint to list projects. */
module ListAccounts {
  import opened Js
  import opened Api
  import opened Render

  const NoAccounts: string := "No accounts found. Your data may still be processing."
  const Hint: string := "Use `list_projects` with an account prefix to see projects."

  /** `acc.account_name || acc.account_prefix` */
  function DisplayName(acc: Json): Json {
    Or(Prop(acc, "account_name"), Prop(acc, "account_prefix"))
  }

  /** `acc.projects_count ?? "unknown"` */
  function ProjectsShown(acc: Json): Json {
    Coalesce(Prop(acc, "projects_count"), JStr("unknown"))
  }

  /** `acc.data_available ? "Yes" : "Pending"` */
  function Availability(acc: Json): string {
    if Truthy(Prop(acc, "data_available")) then "Yes" else "Pending"
  }

  /** An account's four lines and a blank line; reading `acc.account_name`
      throws on a null or undefined account. */
  function AccountBlock(acc: Json): Result<string> {
    var _ :- Member(acc, "account_name");
    Ok(Bullet + " **" + ToStr(DisplayName(acc)) + "**\n"
       + ("  Prefix: `" + ToStr(Prop(acc, "account_prefix")) + "`\n")
       + ("  Projects: " + ToStr(ProjectsShown(acc)) + "\n")
       + ("  Data available: " + Availability(acc) + "\n\n"))
  }

  function AccountBlocks(accounts: seq<Json>): Result<string> {
    if accounts == [] then Ok("")
    else
      var first :- AccountBlock(accounts[0]);
      var rest :- AccountBlocks(accounts[1..]);
      Ok(first + rest)
  }

  /** `for (const acc of accounts)` writing each account's block. */
  function Listing(accounts: Json): Result<string> {
    var items :- Iterated(accounts, "accounts");
    AccountBlocks(items)
  }

  /** The tool's result for the response body `data`. */
  function Format(data: Json): Result<ToolResult> {
    var found :- Member(data, "accounts");
    var accounts := Or(found, JArr([]));
    if LengthIsZero(accounts) then Ok(Text(NoAccounts))
    else
      var intro := "Found " + ToStr(Prop(accounts, "length")) + " account(s):\n\n";
      var body :- Listing(accounts);
      Ok(Text(intro + body + Hint))
  }

  /** The handler never sets the error flag itself, and an error from the
      request is passed on as it is. */
  function Outcome(fetched: Result<Json>): (r: Result<ToolResult>)
    ensures r.Ok? ==> !r.value.isError
    ensures fetched.Threw? ==> r == Threw(fetched.error)
  {
    var data :- fetched;
    Format(data)
  }

  /** `handleListAccounts(api)` when the network gives `reply`; the tool takes
      no arguments. */
  function Respond(api: RobinhoodApiClient, reply: Reply): Handled {
    Handled(Some(api.RequestFor("/v1/accounts", None)), Outcome(Receive(reply)))
  }

  method HandleListAccounts(api: RobinhoodApiClient, reply: Reply)
    returns (sent: Option<HttpRequest>, out: Result<ToolResult>)
    ensures Handled(sent, out) == Respond(api, reply)
  {
    var req, fetched := api.ListAccounts(reply);
    sent := Some(req);
    if fetched.Threw? {
      return sent, Threw(fetched.error);
    }
    var data := fetched.value;
    if data == JUndef || data == JNull {
      return sent, Threw(ReadError(data, "accounts"));
    }
    var accounts := Or(Prop(data, "accounts"), JArr([]));
    if Prop(accounts, "length") == JNum(0) {
      return sent, Ok(Text(NoAccounts));
    }
    var text := "Found " + ToStr(Prop(accounts, "length")) + " account(s):\n\n";
    var body := WriteListing(accounts);
    if body.Threw? {
      return sent, Threw(body.error);
    }
    text := text + body.value;
    text := text + Hint;
    return sent, Ok(Text(text));
  }

  method WriteListing(accounts: Json) returns (r: Result<string>)
    ensures r == Listing(accounts)
  {
    var items := Elements(accounts);
    if items.None? {
      return Threw(TypeError("accounts" + " is not iterable"));
    }
    var text := "";
    assert items.value[0..] == items.value;
    PrependEmpty(text, AccountBlocks(items.value));
    for i := 0 to |items.value|
      invariant AccountBlocks(items.value) == Prepend(text, AccountBlocks(items.value[i..]))
    {
      var acc := items.value[i];
      AccountBlocksStep(items.value, i);
      if acc == JUndef || acc == JNull {
        return Threw(ReadError(acc, "account_name"));
      }
      var block := WriteAccount(acc);
      PrependTwice(text, block, AccountBlocks(items.value[i + 1..]));
      text := text + block;
    }
    assert items.value[|items.value|..] == [];
    PrependEmpty(text, Ok(""));
    return Ok(text);
  }

  /** The blocks from account `i` on: account `i`'s block, or its error,
      then the blocks of the rest. */
  lemma AccountBlocksStep(items: seq<Json>, i: nat)
    requires i < |items|
    ensures AccountBlock(items[i]).Threw? ==> AccountBlocks(items[i..]) == Threw(AccountBlock(items[i]).error)
    ensures AccountBlock(items[i]).Ok? ==>
              AccountBlocks(items[i..]) == Prepend(AccountBlock(items[i]).value, AccountBlocks(items[i + 1..]))
  {
    assert items[i..][1..] == items[i + 1..];
  }

  /** The four lines of an account that is neither null nor undefined. */
  method WriteAccount(acc: Json) returns (block: string)
    requires NotNullish(acc)
    ensures AccountBlock(acc) == Ok(block)
  {
    block := Bullet + " **" + ToStr(Or(Prop(acc, "account_name"), Prop(acc, "account_prefix"))) + "**\n";
    block := block + ("  Prefix: `" + ToStr(Prop(acc, "account_prefix")) + "`\n");
    block := block + ("  Projects: " + ToStr(Coalesce(Prop(acc, "projects_count"), JStr("unknown"))) + "\n");
    block := block + ("  Data available: " + (if Truthy(Prop(acc, "data_available")) then "Yes" else "Pending") + "\n\n");
  }

  // ---------------------------------------------------------------------------
  // Properties

  /** The request goes to the account list, with the key headers and no
      query. */
  lemma ListAccountsRequest(api: RobinhoodApiClient, reply: Reply)
    ensures Respond(api, reply).sent.Some?
    ensures Respond(api, reply).sent.value.url == api.baseUrl + "/v1/accounts"
    ensures Respond(api, reply).sent.value.query == []
    ensures Respond(api, reply).sent.value.headers == [("x-api-key", api.apiKey), ("Accept", "application/json")]
  {
  }

  /** A missing, falsy or empty account list gives exactly the fixed text,
      without the error flag. */
  lemma ListAccountsNone(data: Json)
    requires NotNullish(data)
    requires !Truthy(Prop(data, "accounts")) || LengthIsZero(Prop(data, "accounts"))
    ensures Format(data) == Ok(ToolResult(NoAccounts, false))
  {
  }

  lemma {:induction false} AccountBlocksDefined(accounts: seq<Json>)
    requires forall i :: 0 <= i < |accounts| ==> NotNullish(accounts[i])
    ensures AccountBlocks(accounts).Ok?
  {
    if accounts != [] {
      AccountBlocksDefined(accounts[1..]);
    }
  }

  /** With accounts, the heading gives the full count, every account's block
      follows and the hint ends the text. */
  lemma ListAccountsAll(data: Json, items: seq<Json>)
    requires Prop(data, "accounts") == JArr(items) && items != []
    requires forall i :: 0 <= i < |items| ==> NotNullish(items[i])
    ensures AccountBlocks(items).Ok? && Format(data).Ok?
    ensures Format(data).value ==
            ToolResult("Found " + IntToString(|items|) + " account(s):\n\n" + AccountBlocks(items).value
                       + Hint, false)
  {
    AccountBlocksDefined(items);
    AccountsListed(items);
    FormatWithAccounts(data, items, AccountBlocks(items).value);
  }

  lemma AccountsListed(items: seq<Json>)
    ensures Listing(JArr(items)) == AccountBlocks(items)
  {
  }

  lemma FormatWithAccounts(data: Json, items: seq<Json>, blocks: string)
    requires Prop(data, "accounts") == JArr(items) && items != []
    requires Listing(JArr(items)) == Ok(blocks)
    ensures Format(data) == Ok(Text("Found " + IntToString(|items|) + " account(s):\n\n" + blocks + Hint))
  {
    assert NotNullish(data);
  }

  /** The name falls back to the prefix only when it is falsy; the project
      count to "unknown" only when it is null or undefined, so 0 is shown as
      0; availability is "Yes" exactly when `data_available` is truthy. */
  lemma AccountFallbacks(acc: Json)
    ensures DisplayName(acc) == if Truthy(Prop(acc, "account_name")) then Prop(acc, "account_name") else Prop(acc, "account_prefix")
    ensures NotNullish(Prop(acc, "projects_count")) ==> ProjectsShown(acc) == Prop(acc, "projects_count")
    ensures !NotNullish(Prop(acc, "projects_count")) ==> ToStr(ProjectsShown(acc)) == "unknown"
    ensures Prop(acc, "projects_count") == JNum(0) ==> ToStr(ProjectsShown(acc)) == "0"
    ensures Availability(acc) == "Yes" <==> Truthy(Prop(acc, "data_available"))
  {
  }
}
