/** The `list_projects` tool: every project of an account, with its country
    and its search term, location and device lists. */
module ListProjects {
  import opened Js
  import opened Api
  import opened Render

  const Processing: string := "Data may still be processing."

  function Path(prefix: Json): string {
    "/v1/accounts/" + ToStr(prefix) + "/projects"
  }

  /** The text when the account has no projects. */
  function NoProjectsText(prefix: Json, data: Json): string {
    "No projects found for account `" + ToStr(prefix) + "`. " + ToStr(Or(Prop(data, "message"), JStr(Processing)))
  }

  /** `if (p.key?.length) text += "  Caption: " + p.key.join(", ")`; only an
      array has `join`. */
  function ListLine(text: string, p: Json, key: string, caption: string): Result<string> {
    var list := Prop(p, key);
    if !Truthy(OptMember(list, "length")) then Ok(text)
    else if list.JArr? then Ok(text + ("  " + caption + ": " + ArrayJoin(list.items, ", ") + "\n"))
    else Threw(TypeError("p." + key + ".join is not a function"))
  }

  /** The first line of a project: its number and its name, or "Untitled". */
  function Heading(p: Json): string {
    Bullet + " **Project " + ToStr(Prop(p, "project_number")) + "**: " + ToStr(Or(Prop(p, "name"), JStr("Untitled"))) + "\n"
  }

  /** A project's block; reading `p.project_number` throws on a null or
      undefined project. */
  function ProjectBlock(p: Json): Result<string> {
    var _ :- Member(p, "project_number");
    ListLines(AppendIf(Heading(p), Truthy(Prop(p, "country")), "  Country: " + ToStr(Prop(p, "country")) + "\n"), p)
  }

  /** `text` followed by the search term, location and device lines, then
      the blank line that ends a project's block. */
  function ListLines(text: string, p: Json): Result<string> {
    var terms :- ListLine(text, p, "search_terms", "Search terms");
    var locations :- ListLine(terms, p, "locations", "Locations");
    var devices :- ListLine(locations, p, "devices", "Devices");
    Ok(devices + "\n")
  }

  function ProjectBlocks(projects: seq<Json>): Result<string> {
    if projects == [] then Ok("")
    else
      var first :- ProjectBlock(projects[0]);
      var rest :- ProjectBlocks(projects[1..]);
      Ok(first + rest)
  }

  /** `for (const p of projects)` writing each project's block. */
  function Listing(projects: Json): Result<string> {
    var items :- Iterated(projects, "projects");
    ProjectBlocks(items)
  }

  /** The tool's result for the response body `data`. */
  function Format(prefix: Json, data: Json): Result<ToolResult> {
    var found :- Member(data, "projects");
    var projects := Or(found, JArr([]));
    if LengthIsZero(projects) then Ok(Text(NoProjectsText(prefix, data)))
    else
      var intro := "Account `" + ToStr(prefix) + "` " + Dash + " " + ToStr(Prop(projects, "length")) + " project(s):\n\n";
      var body :- Listing(projects);
      Ok(Text(intro + body))
  }

  /** The handler never sets the error flag itself, and an error from the
      request is passed on as it is. */
  function Outcome(prefix: Json, fetched: Result<Json>): (r: Result<ToolResult>)
    ensures r.Ok? ==> !r.value.isError
    ensures fetched.Threw? ==> r == Threw(fetched.error)
  {
    var data :- fetched;
    Format(prefix, data)
  }

  /** `handleListProjects(api, args)` when the network gives `reply`. */
  function Respond(api: RobinhoodApiClient, args: Json, reply: Reply): Handled {
    if !NotNullish(args) then Handled(None, Threw(ReadError(args, "account_prefix")))
    else
      var prefix := PrefixArg(args);
      Handled(Some(api.RequestFor(Path(prefix), None)), Outcome(prefix, Receive(reply)))
  }

  method HandleListProjects(api: RobinhoodApiClient, args: Json, reply: Reply)
    returns (sent: Option<HttpRequest>, out: Result<ToolResult>)
    ensures Handled(sent, out) == Respond(api, args, reply)
  {
    if args == JUndef || args == JNull {
      return None, Threw(ReadError(args, "account_prefix"));
    }
    var prefix := Or(Prop(args, "account_prefix"), JStr(DefaultPrefix));
    var req, fetched := api.ListProjects(prefix, reply);
    sent := Some(req);
    if fetched.Threw? {
      return sent, Threw(fetched.error);
    }
    var data := fetched.value;
    if data == JUndef || data == JNull {
      return sent, Threw(ReadError(data, "projects"));
    }
    var projects := Or(Prop(data, "projects"), JArr([]));
    if Prop(projects, "length") == JNum(0) {
      return sent, Ok(Text(NoProjectsText(prefix, data)));
    }
    var text := "Account `" + ToStr(prefix) + "` " + Dash + " " + ToStr(Prop(projects, "length")) + " project(s):\n\n";
    var body := WriteListing(projects);
    if body.Threw? {
      return sent, Threw(body.error);
    }
    return sent, Ok(Text(text + body.value));
  }

  method WriteListing(projects: Json) returns (r: Result<string>)
    ensures r == Listing(projects)
  {
    var items := Elements(projects);
    if items.None? {
      return Threw(TypeError("projects" + " is not iterable"));
    }
    r := WriteProjects(items.value);
  }

  method WriteProjects(projects: seq<Json>) returns (r: Result<string>)
    ensures r == ProjectBlocks(projects)
  {
    var text := "";
    assert projects[0..] == projects;
    PrependEmpty(text, ProjectBlocks(projects));
    for i := 0 to |projects|
      invariant ProjectBlocks(projects) == Prepend(text, ProjectBlocks(projects[i..]))
    {
      assert projects[i..][1..] == projects[i + 1..];
      var block := WriteProject(projects[i]);
      if block.Threw? {
        return Threw(block.error);
      }
      assert ProjectBlocks(projects[i..]) == Prepend(block.value, ProjectBlocks(projects[i + 1..]));
      PrependTwice(text, block.value, ProjectBlocks(projects[i + 1..]));
      text := text + block.value;
    }
    assert projects[|projects|..] == [];
    PrependEmpty(text, Ok(""));
    return Ok(text);
  }

  method WriteProject(p: Json) returns (r: Result<string>)
    ensures r == ProjectBlock(p)
  {
    if p == JUndef || p == JNull {
      return Threw(ReadError(p, "project_number"));
    }
    var text := Bullet + " **Project " + ToStr(Prop(p, "project_number")) + "**: "
                + ToStr(Or(Prop(p, "name"), JStr("Untitled"))) + "\n";
    if Truthy(Prop(p, "country")) {
      text := text + ("  Country: " + ToStr(Prop(p, "country")) + "\n");
    }
    var terms := WriteListLine(text, p, "search_terms", "Search terms");
    if terms.Threw? {
      return terms;
    }
    var locations := WriteListLine(terms.value, p, "locations", "Locations");
    if locations.Threw? {
      return locations;
    }
    var devices := WriteListLine(locations.value, p, "devices", "Devices");
    if devices.Threw? {
      return devices;
    }
    text := devices.value;
    text := text + "\n";
    return Ok(text);
  }

  method WriteListLine(text: string, p: Json, key: string, caption: string) returns (r: Result<string>)
    ensures r == ListLine(text, p, key, caption)
  {
    var list := Prop(p, key);
    if list != JUndef && list != JNull && Truthy(Prop(list, "length")) {
      if !list.JArr? {
        return Threw(TypeError("p." + key + ".join is not a function"));
      }
      return Ok(text + ("  " + caption + ": " + ArrayJoin(list.items, ", ") + "\n"));
    }
    return Ok(text);
  }

  // ---------------------------------------------------------------------------
  // Properties

  /** The request goes to the account's project list, defaulted prefix
      included, with no query. */
  lemma ListProjectsRequest(api: RobinhoodApiClient, args: Json, reply: Reply)
    requires NotNullish(args)
    ensures Respond(api, args, reply).sent.Some?
    ensures Respond(api, args, reply).sent.value.url == api.baseUrl + ("/v1/accounts/" + ToStr(PrefixArg(args)) + "/projects")
    ensures Respond(api, args, reply).sent.value.query == []
    ensures !Truthy(Prop(args, "account_prefix")) ==>
              Respond(api, args, reply).sent.value.url == api.baseUrl + ("/v1/accounts/" + "acc1_" + "/projects")
  {
  }

  /** Without projects the result is the explanatory text naming the
      account: the backend's truthy message, or "Data may still be
      processing.". */
  lemma ListProjectsNone(prefix: Json, data: Json)
    requires NotNullish(data)
    requires !Truthy(Prop(data, "projects")) || LengthIsZero(Prop(data, "projects"))
    ensures Format(prefix, data) == Ok(ToolResult(NoProjectsText(prefix, data), false))
    ensures Truthy(Prop(data, "message")) ==>
              NoProjectsText(prefix, data) == "No projects found for account `" + ToStr(prefix) + "`. " + ToStr(Prop(data, "message"))
    ensures !Truthy(Prop(data, "message")) ==>
              NoProjectsText(prefix, data) == "No projects found for account `" + ToStr(prefix) + "`. " + Processing
  {
  }

  /** A project the code can render: not null or undefined, and each of its
      lists an array unless its `length` is falsy. */
  predicate Renderable(p: Json) {
    NotNullish(p)
    && (Prop(p, "search_terms").JArr? || !Truthy(OptMember(Prop(p, "search_terms"), "length")))
    && (Prop(p, "locations").JArr? || !Truthy(OptMember(Prop(p, "locations"), "length")))
    && (Prop(p, "devices").JArr? || !Truthy(OptMember(Prop(p, "devices"), "length")))
  }

  lemma {:induction false} ProjectBlocksDefined(projects: seq<Json>)
    requires forall i :: 0 <= i < |projects| ==> Renderable(projects[i])
    ensures ProjectBlocks(projects).Ok?
  {
    if projects != [] {
      ProjectBlocksDefined(projects[1..]);
    }
  }

  /** There is no cap: one more project adds its whole block at the end. */
  lemma {:induction false} ProjectBlocksAppend(projects: seq<Json>, p: Json)
    requires ProjectBlocks(projects).Ok? && ProjectBlock(p).Ok?
    ensures ProjectBlocks(projects + [p]) == Ok(ProjectBlocks(projects).value + ProjectBlock(p).value)
  {
    if projects == [] {
      assert projects + [p] == [p];
      assert [p][1..] == [];
      assert ProjectBlocks([p]) == Ok(ProjectBlock(p).value + "");
      assert ProjectBlock(p).value + "" == ProjectBlock(p).value;
      assert "" + ProjectBlock(p).value == ProjectBlock(p).value;
    } else {
      assert (projects + [p])[1..] == projects[1..] + [p];
      ProjectBlocksAppend(projects[1..], p);
      var first := ProjectBlock(projects[0]).value;
      var rest := ProjectBlocks(projects[1..]).value;
      assert first + (rest + ProjectBlock(p).value) == first + rest + ProjectBlock(p).value;
    }
  }

  /** With projects, the heading gives the full count and every project's
      block follows. */
  lemma ListProjectsAll(prefix: Json, data: Json, items: seq<Json>)
    requires Prop(data, "projects") == JArr(items) && items != []
    requires forall i :: 0 <= i < |items| ==> Renderable(items[i])
    ensures ProjectBlocks(items).Ok? && Format(prefix, data).Ok?
    ensures Format(prefix, data).value.text ==
            "Account `" + ToStr(prefix) + "` " + Dash + " " + IntToString(|items|) + " project(s):\n\n"
            + ProjectBlocks(items).value
  {
    ProjectBlocksDefined(items);
    ProjectsListed(items);
    FormatWithProjects(prefix, data, items, ProjectBlocks(items).value);
  }

  lemma ProjectsListed(items: seq<Json>)
    ensures Listing(JArr(items)) == ProjectBlocks(items)
  {
  }

  lemma FormatWithProjects(prefix: Json, data: Json, items: seq<Json>, blocks: string)
    requires Prop(data, "projects") == JArr(items) && items != []
    requires Listing(JArr(items)) == Ok(blocks)
    ensures Format(prefix, data) ==
            Ok(Text("Account `" + ToStr(prefix) + "` " + Dash + " " + IntToString(|items|) + " project(s):\n\n" + blocks))
  {
    assert NotNullish(data);
  }

  /** The first line names the project, or "Untitled" when its name is falsy;
      the lists follow only when they are non-empty, joined by ", ". */
  lemma ProjectLines(p: Json, text: string, key: string, caption: string)
    ensures !Truthy(Prop(p, "name")) ==>
              Heading(p) == Bullet + " **Project " + ToStr(Prop(p, "project_number")) + "**: " + "Untitled" + "\n"
    ensures Truthy(Prop(p, "name")) ==>
              Heading(p) == Bullet + " **Project " + ToStr(Prop(p, "project_number")) + "**: " + ToStr(Prop(p, "name")) + "\n"
    ensures Prop(p, key).JArr? && Prop(p, key).items != [] ==>
              ListLine(text, p, key, caption) == Ok(text + ("  " + caption + ": " + ArrayJoin(Prop(p, key).items, ", ") + "\n"))
    ensures Prop(p, key) == JArr([]) || !NotNullish(Prop(p, key)) ==> ListLine(text, p, key, caption) == Ok(text)
  {
  }

  /** The list lines only ever extend the text before them. */
  lemma ListLinesExtend(text: string, p: Json)
    ensures ListLines(text, p).Ok? ==> text <= ListLines(text, p).value
  {
  }

  /** The country line follows the first line exactly when the country is
      truthy: with a truthy country the block is the first line, the country
      line and the list lines; with a falsy one it is the first line and the
      list lines alone. */
  lemma ProjectCountry(p: Json)
    requires NotNullish(p)
    ensures Truthy(Prop(p, "country")) ==>
              ProjectBlock(p) == ListLines(Heading(p) + ("  Country: " + ToStr(Prop(p, "country")) + "\n"), p)
    ensures !Truthy(Prop(p, "country")) ==> ProjectBlock(p) == ListLines(Heading(p), p)
    ensures ProjectBlock(p).Ok? && Truthy(Prop(p, "country")) ==>
              Heading(p) + ("  Country: " + ToStr(Prop(p, "country")) + "\n") <= ProjectBlock(p).value
  {
    ListLinesExtend(AppendIf(Heading(p), Truthy(Prop(p, "country")), "  Country: " + ToStr(Prop(p, "country")) + "\n"), p);
  }

  /** A project with a falsy country and no lists is just its first line and
      a blank line. */
  lemma BareProject(p: Json)
    requires NotNullish(p) && !Truthy(Prop(p, "country"))
    requires !NotNullish(Prop(p, "search_terms")) && !NotNullish(Prop(p, "locations")) && !NotNullish(Prop(p, "devices"))
    ensures ProjectBlock(p) == Ok(Heading(p) + "\n")
  {
  }
}
