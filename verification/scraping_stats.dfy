/** The `get_scraping_stats` tool: the day's scan usage and limits. The client
    method `getScrapingStats` is not part of this model: the handler is
    modelled from the completion of that call, which takes no arguments. */
module ScrapingStats {
  import opened Js
  import opened Render

  /** `x ?? "N/A"` */
  function OrNA(x: Json): Json {
    Coalesce(x, JStr("N/A"))
  }

  /** The heading and the two lines that are always written; reading
      `data.scans_used_today` throws when `data` is null or undefined. */
  function Base(data: Json): Result<string> {
    var used :- Member(data, "scans_used_today");
    Ok("## Scraping Stats\n\n" + ("Scans used today: " + ToStr(OrNA(used)) + "\n")
       + ("Daily limit: " + ToStr(OrNA(Prop(data, "scans_limit"))) + "\n"))
  }

  /** The tool's result for the response body `data`. */
  function Format(data: Json): Result<ToolResult> {
    var base :- Base(data);
    var remaining := AppendIf(base, Defined(Prop(data, "scans_remaining")),
                              "Remaining: " + ToStr(Prop(data, "scans_remaining")) + "\n");
    var active := AppendIf(remaining, Defined(Prop(data, "projects_active")),
                           "Active projects: " + ToStr(Prop(data, "projects_active")) + "\n");
    var last := AppendIf(active, Truthy(Prop(data, "last_scan_at")), "Last scan: " + ToStr(Prop(data, "last_scan_at")) + "\n");
    Ok(Text(AppendIf(last, Truthy(Prop(data, "message")), "\nNote: " + ToStr(Prop(data, "message")) + "\n")))
  }

  /** `handleGetScrapingStats(api)` when the client call completes as
      `fetched`: it never sets the error flag itself, and an error from the
      call is passed on as it is. */
  function Outcome(fetched: Result<Json>): (r: Result<ToolResult>)
    ensures r.Ok? ==> !r.value.isError
    ensures fetched.Threw? ==> r == Threw(fetched.error)
  {
    var data :- fetched;
    Format(data)
  }

  method HandleGetScrapingStats(fetched: Result<Json>) returns (out: Result<ToolResult>)
    ensures out == Outcome(fetched)
  {
    if fetched.Threw? {
      return Threw(fetched.error);
    }
    var data := fetched.value;
    if data == JUndef || data == JNull {
      return Threw(ReadError(data, "scans_used_today"));
    }
    var text := "## Scraping Stats\n\n";
    text := text + ("Scans used today: " + ToStr(Coalesce(Prop(data, "scans_used_today"), JStr("N/A"))) + "\n");
    text := text + ("Daily limit: " + ToStr(Coalesce(Prop(data, "scans_limit"), JStr("N/A"))) + "\n");
    if Prop(data, "scans_remaining") != JUndef {
      text := text + ("Remaining: " + ToStr(Prop(data, "scans_remaining")) + "\n");
    }
    if Prop(data, "projects_active") != JUndef {
      text := text + ("Active projects: " + ToStr(Prop(data, "projects_active")) + "\n");
    }
    if Truthy(Prop(data, "last_scan_at")) {
      text := text + ("Last scan: " + ToStr(Prop(data, "last_scan_at")) + "\n");
    }
    if Truthy(Prop(data, "message")) {
      text := text + ("\nNote: " + ToStr(Prop(data, "message")) + "\n");
    }
    return Ok(Text(text));
  }

  // ---------------------------------------------------------------------------
  // Properties

  predicate EndsWith(s: string, suffix: string) {
    |suffix| <= |s| && s[|s| - |suffix|..] == suffix
  }

  /** There is no empty-result branch: every body that is not null or
      undefined gives a text, without the error flag, that starts with the
      heading and the two usage lines; "N/A" stands for a null or undefined
      value only. */
  lemma StatsBase(data: Json)
    requires NotNullish(data)
    ensures Format(data).Ok? && !Format(data).value.isError
    ensures Base(data).value <= Format(data).value.text
    ensures Base(data).value ==
            "## Scraping Stats\n\n"
            + ("Scans used today: "
               + (if NotNullish(Prop(data, "scans_used_today")) then ToStr(Prop(data, "scans_used_today")) else "N/A") + "\n")
            + ("Daily limit: "
               + (if NotNullish(Prop(data, "scans_limit")) then ToStr(Prop(data, "scans_limit")) else "N/A") + "\n")
  {
    var base := Base(data).value;
    var remaining := AppendIf(base, Defined(Prop(data, "scans_remaining")),
                              "Remaining: " + ToStr(Prop(data, "scans_remaining")) + "\n");
    var active := AppendIf(remaining, Defined(Prop(data, "projects_active")),
                           "Active projects: " + ToStr(Prop(data, "projects_active")) + "\n");
    var last := AppendIf(active, Truthy(Prop(data, "last_scan_at")), "Last scan: " + ToStr(Prop(data, "last_scan_at")) + "\n");
    AppendIfExtends(base, base, Defined(Prop(data, "scans_remaining")), "Remaining: " + ToStr(Prop(data, "scans_remaining")) + "\n");
    AppendIfExtends(base, remaining, Defined(Prop(data, "projects_active")),
                    "Active projects: " + ToStr(Prop(data, "projects_active")) + "\n");
    AppendIfExtends(base, active, Truthy(Prop(data, "last_scan_at")), "Last scan: " + ToStr(Prop(data, "last_scan_at")) + "\n");
    AppendIfExtends(base, last, Truthy(Prop(data, "message")), "\nNote: " + ToStr(Prop(data, "message")) + "\n");
  }

  /** Without the optional fields the text is exactly the heading and the two
      usage lines: Remaining and Active projects need a value that is not
      undefined, Last scan and the note a truthy one. */
  lemma StatsOptionalLines(data: Json)
    requires NotNullish(data)
    requires !Defined(Prop(data, "scans_remaining")) && !Defined(Prop(data, "projects_active"))
    requires !Truthy(Prop(data, "last_scan_at")) && !Truthy(Prop(data, "message"))
    ensures Format(data) == Ok(ToolResult(Base(data).value, false))
  {
  }

  /** The text is the heading and the two usage lines, then the Remaining
      and Active projects lines exactly when their values are not undefined
      (0 and null print), the Last scan line exactly when `last_scan_at` is
      truthy and the note exactly when the message is truthy, in that order;
      a missing field removes its own line and nothing else. */
  lemma StatsLines(data: Json)
    requires NotNullish(data)
    ensures Format(data) ==
            Ok(Text(Base(data).value
                    + (if Defined(Prop(data, "scans_remaining"))
                       then "Remaining: " + ToStr(Prop(data, "scans_remaining")) + "\n" else "")
                    + (if Defined(Prop(data, "projects_active"))
                       then "Active projects: " + ToStr(Prop(data, "projects_active")) + "\n" else "")
                    + (if Truthy(Prop(data, "last_scan_at"))
                       then "Last scan: " + ToStr(Prop(data, "last_scan_at")) + "\n" else "")
                    + (if Truthy(Prop(data, "message"))
                       then "\nNote: " + ToStr(Prop(data, "message")) + "\n" else "")))
  {
    var base := Base(data).value;
    var remaining := AppendIf(base, Defined(Prop(data, "scans_remaining")),
                              "Remaining: " + ToStr(Prop(data, "scans_remaining")) + "\n");
    var active := AppendIf(remaining, Defined(Prop(data, "projects_active")),
                           "Active projects: " + ToStr(Prop(data, "projects_active")) + "\n");
    var last := AppendIf(active, Truthy(Prop(data, "last_scan_at")), "Last scan: " + ToStr(Prop(data, "last_scan_at")) + "\n");
    AppendIfOptional(base, Defined(Prop(data, "scans_remaining")), "Remaining: " + ToStr(Prop(data, "scans_remaining")) + "\n");
    AppendIfOptional(remaining, Defined(Prop(data, "projects_active")),
                     "Active projects: " + ToStr(Prop(data, "projects_active")) + "\n");
    AppendIfOptional(active, Truthy(Prop(data, "last_scan_at")), "Last scan: " + ToStr(Prop(data, "last_scan_at")) + "\n");
    AppendIfOptional(last, Truthy(Prop(data, "message")), "\nNote: " + ToStr(Prop(data, "message")) + "\n");
  }

  /** A truthy message gives the note, and the note comes last. */
  lemma StatsNoteLast(data: Json)
    requires NotNullish(data) && Truthy(Prop(data, "message"))
    ensures EndsWith(Format(data).value.text, "\nNote: " + ToStr(Prop(data, "message")) + "\n")
  {
  }

  /** A 0 is printed as a value, not replaced by "N/A". */
  lemma StatsZeroShown(data: Json)
    requires NotNullish(data) && Prop(data, "scans_used_today") == JNum(0)
    ensures Base(data).value == "## Scraping Stats\n\n" + ("Scans used today: " + "0" + "\n")
                                + ("Daily limit: " + ToStr(OrNA(Prop(data, "scans_limit"))) + "\n")
  {
  }
}
