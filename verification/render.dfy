/** What the tool handlers share: the tool result, argument defaults, the
    ordered probing of candidate keys, the `key: val` field lines and row
    blocks, and the description of applied filters. */
module Render {
  import opened Js
  import opened Api

  /** The result of a tool call: one text content block, and whether the
      `isError` flag is set (it is only ever set to true). */
  datatype ToolResult = ToolResult(text: string, isError: bool)

  /** A result as every handler returns it: text, no `isError` flag. */
  function Text(text: string): ToolResult {
    ToolResult(text, false)
  }

  /** What a wired handler did: the request it sent, if it got that far, and
      how it completed. */
  datatype Handled = Handled(sent: Option<HttpRequest>, outcome: Result<ToolResult>)

  /** The arguments a handler hands to a client method that is not part of
      this model. */
  datatype DataCall = DataCall(accountPrefix: Json, projectNumber: Json, params: Option<seq<(string, Json)>>)

  /** What a handler whose client method is not part of this model did: the
      call it made, if it got that far, and how it completed. */
  datatype Delegated = Delegated(call: Option<DataCall>, outcome: Result<ToolResult>)

  const DefaultPrefix: string := "acc1_"
  /** The close of the texts for a missing listing. */
  const UnderDevelopment: string := "This endpoint may still be under development."
  const NotProcessed: string := ". The data may not have been processed yet."
  /** The em dash of the headings. */
  const Dash: string := "\U{2014}"
  /** The bullet of list entries. */
  const Bullet: string := "\U{2022}"

  // ---------------------------------------------------------------------------
  // Arguments

  /** `args.account_prefix || "acc1_"` */
  function PrefixArg(args: Json): (r: Json)
    ensures Truthy(r)
    ensures r == Prop(args, "account_prefix") || r == JStr(DefaultPrefix)
  {
    Or(Prop(args, "account_prefix"), JStr(DefaultPrefix))
  }

  /** `args.project_number || 1` */
  function ProjectArg(args: Json): (r: Json)
    ensures Truthy(r)
    ensures r == Prop(args, "project_number") || r == JNum(1)
  {
    Or(Prop(args, "project_number"), JNum(1))
  }

  /** The defaults apply to every falsy argument, "" and 0 included, and to
      nothing else. */
  lemma DefaultsFollowOr(args: Json)
    ensures Truthy(Prop(args, "account_prefix")) ==> PrefixArg(args) == Prop(args, "account_prefix")
    ensures !Truthy(Prop(args, "account_prefix")) ==> PrefixArg(args) == JStr("acc1_")
    ensures Truthy(Prop(args, "project_number")) ==> ProjectArg(args) == Prop(args, "project_number")
    ensures !Truthy(Prop(args, "project_number")) ==> ProjectArg(args) == JNum(1)
    ensures PrefixArg(JObj([("account_prefix", JStr(""))])) == JStr("acc1_")
    ensures ProjectArg(JObj([("project_number", JNum(0))])) == JNum(1)
  {
  }

  /** A record of query parameters copied from the arguments, one per key:
      `{ k1: args.k1, k2: args.k2, ... }`. */
  function ArgParams(args: Json, keys: seq<string>): (params: seq<(string, Json)>)
    ensures |params| == |keys|
    ensures forall i :: 0 <= i < |keys| ==> params[i] == (keys[i], Prop(args, keys[i]))
  {
    seq(|keys|, i requires 0 <= i < |keys| => (keys[i], Prop(args, keys[i])))
  }

  predicate DistinctStrings(keys: seq<string>) {
    forall i, j :: 0 <= i < j < |keys| ==> keys[i] != keys[j]
  }

  /** The query sent for a record copied from the arguments holds exactly the
      listed keys whose argument is not undefined, null or "", each with the
      argument as text. */
  lemma ArgQuery(args: Json, keys: seq<string>, key: string, text: string)
    requires DistinctStrings(keys)
    ensures (key, text) in QueryFrom(ArgParams(args, keys)) <==>
            key in keys && NonBlank(Prop(args, key)) && text == ToStr(Prop(args, key))
  {
    var params := ArgParams(args, keys);
    QueryParams(params, key, text);
    if key in keys && NonBlank(Prop(args, key)) && text == ToStr(Prop(args, key)) {
      var i :| 0 <= i < |keys| && keys[i] == key;
      assert params[i] == (key, Prop(args, key));
    }
  }

  // ---------------------------------------------------------------------------
  // Response data

  /** `data.first || data.second || []`, which throws when `data` is null or
      undefined. */
  function Probe(data: Json, first: string, second: string): Result<Json> {
    var a :- Member(data, first);
    Ok(Or(a, Or(Prop(data, second), JArr([]))))
  }

  /** The first truthy candidate wins; an empty array is truthy, so an empty
      first candidate hides the second. */
  lemma ProbeOrder(data: Json, first: string, second: string)
    requires NotNullish(data)
    ensures Truthy(Prop(data, first)) ==> Probe(data, first, second) == Ok(Prop(data, first))
    ensures !Truthy(Prop(data, first)) && Truthy(Prop(data, second)) ==>
              Probe(data, first, second) == Ok(Prop(data, second))
    ensures !Truthy(Prop(data, first)) && !Truthy(Prop(data, second)) ==>
              Probe(data, first, second) == Ok(JArr([]))
    ensures Prop(data, first) == JArr([]) ==> Probe(data, first, second) == Ok(JArr([]))
  {
  }

  // ---------------------------------------------------------------------------
  // Text

  /** `if (c) text += piece` */
  function AppendIf(text: string, c: bool, piece: string): string {
    if c then text + piece else text
  }

  /** A conditional append adds its piece when the test holds and nothing
      otherwise. */
  lemma AppendIfOptional(text: string, c: bool, piece: string)
    ensures AppendIf(text, c, piece) == text + (if c then piece else "")
  {
    if !c {
      assert text + "" == text;
    }
  }

  /** Conditional appends only ever extend the text. */
  lemma AppendIfExtends(prefix: string, text: string, c: bool, piece: string)
    requires prefix <= text
    ensures prefix <= AppendIf(text, c, piece)
  {
  }

  // ---------------------------------------------------------------------------
  // Field lines

  /** `  key: val` */
  function FieldLine(key: string, val: Json): string {
    "  " + key + ": " + ToStr(val) + "\n"
  }

  /** A field is printed unless its key is skipped or its value is null,
      undefined or "" (0 and false are printed). */
  predicate Printed(entry: (string, Json), skipped: seq<string>) {
    entry.0 !in skipped && NonBlank(entry.1)
  }

  /** The lines the loop over `Object.entries(row)` appends. */
  function FieldLines(entries: seq<(string, Json)>, skipped: seq<string>): string {
    if entries == [] then ""
    else
      (if Printed(entries[0], skipped) then FieldLine(entries[0].0, entries[0].1) else "")
      + FieldLines(entries[1..], skipped)
  }

  /** A single field gives its line exactly when it is printed. */
  lemma FieldLinesSingle(key: string, val: Json, skipped: seq<string>)
    ensures FieldLines([(key, val)], skipped) ==
            if key !in skipped && NonBlank(val) then "  " + key + ": " + ToStr(val) + "\n" else ""
  {
  }

  /** The lines of consecutive entries follow one another. */
  lemma {:induction false} FieldLinesAppend(a: seq<(string, Json)>, b: seq<(string, Json)>, skipped: seq<string>)
    ensures FieldLines(a + b, skipped) == FieldLines(a, skipped) + FieldLines(b, skipped)
  {
    if a != [] {
      assert (a + b)[1..] == a[1..] + b;
      FieldLinesAppend(a[1..], b, skipped);
    } else {
      assert a + b == b;
    }
  }

  /** An entry that is not printed (its key is skipped, or its value is null,
      undefined or "") leaves the lines exactly as they are without it. */
  lemma FieldLinesDropUnprinted(a: seq<(string, Json)>, entry: (string, Json), b: seq<(string, Json)>, skipped: seq<string>)
    requires !Printed(entry, skipped)
    ensures FieldLines(a + [entry] + b, skipped) == FieldLines(a + b, skipped)
  {
    FieldLinesAppend(a + [entry], b, skipped);
    FieldLinesAppend(a, [entry], skipped);
    FieldLinesAppend(a, b, skipped);
    assert FieldLines([entry], skipped) == "";
    assert FieldLines(a, skipped) + "" == FieldLines(a, skipped);
  }

  /** One step of the loop: the entry at `i` contributes its line, if it is
      printed, ahead of the lines of the entries after it. */
  lemma FieldLinesStep(entries: seq<(string, Json)>, i: nat, skipped: seq<string>)
    requires i < |entries|
    ensures Printed(entries[i], skipped) ==>
              FieldLines(entries[i..], skipped) == FieldLine(entries[i].0, entries[i].1) + FieldLines(entries[i + 1..], skipped)
    ensures !Printed(entries[i], skipped) ==>
              FieldLines(entries[i..], skipped) == FieldLines(entries[i + 1..], skipped)
  {
    assert entries[i..][1..] == entries[i + 1..];
  }

  method WriteFieldLines(entries: seq<(string, Json)>, skipped: seq<string>) returns (text: string)
    ensures text == FieldLines(entries, skipped)
  {
    text := "";
    for i := 0 to |entries|
      invariant text + FieldLines(entries[i..], skipped) == FieldLines(entries, skipped)
    {
      FieldLinesStep(entries, i, skipped);
      var (key, val) := entries[i];
      var rest := FieldLines(entries[i + 1..], skipped);
      if key in skipped {
        continue;
      }
      if val != JNull && val != JUndef && val != JStr("") {
        var line := "  " + key + ": " + ToStr(val) + "\n";
        assert text + (line + rest) == (text + line) + rest;
        text := text + line;
      }
    }
  }

  // ---------------------------------------------------------------------------
  // Row blocks: the printed fields of a row, then a blank line

  function FieldBlock(row: Json): Result<string> {
    var entries :- Entries(row);
    Ok(FieldLines(entries, []) + "\n")
  }

  /** The blocks of the rows in order; the first row that is null or undefined
      makes `Object.entries` throw. */
  function FieldBlocks(rows: seq<Json>): Result<string> {
    if rows == [] then Ok("")
    else
      var first :- FieldBlock(rows[0]);
      var rest :- FieldBlocks(rows[1..]);
      Ok(first + rest)
  }

  /** `text` followed by a completion that may have thrown. */
  function Prepend(text: string, r: Result<string>): Result<string> {
    if r.Ok? then Ok(text + r.value) else r
  }

  lemma PrependEmpty(text: string, r: Result<string>)
    ensures Prepend("", r) == r
    ensures Prepend(text, Ok("")) == Ok(text)
  {
    if r.Ok? {
      assert "" + r.value == r.value;
    }
    assert text + "" == text;
  }

  lemma PrependTwice(a: string, b: string, r: Result<string>)
    ensures Prepend(a, Prepend(b, r)) == Prepend(a + b, r)
  {
    if r.Ok? {
      assert a + (b + r.value) == (a + b) + r.value;
    }
  }

  /** Every row gets a block (at least its blank line) when none of them is
      null or undefined. */
  lemma {:induction false} FieldBlocksDefined(rows: seq<Json>)
    requires forall i :: 0 <= i < |rows| ==> NotNullish(rows[i])
    ensures FieldBlocks(rows).Ok?
    ensures |FieldBlocks(rows).value| >= |rows|
  {
    if rows != [] {
      FieldBlocksDefined(rows[1..]);
    }
  }

  method WriteFieldBlocks(rows: seq<Json>) returns (r: Result<string>)
    ensures r == FieldBlocks(rows)
  {
    var text := "";
    assert rows[0..] == rows;
    PrependEmpty(text, FieldBlocks(rows));
    for i := 0 to |rows|
      invariant FieldBlocks(rows) == Prepend(text, FieldBlocks(rows[i..]))
    {
      assert rows[i..][1..] == rows[i + 1..];
      var row := rows[i];
      if row == JUndef || row == JNull {
        return Threw(TypeError("Cannot convert undefined or null to object"));
      }
      var lines := WriteFieldLines(OwnEntries(row), []);
      assert FieldBlocks(rows[i..]) == Prepend(lines + "\n", FieldBlocks(rows[i + 1..]));
      PrependTwice(text, lines + "\n", FieldBlocks(rows[i + 1..]));
      text := text + (lines + "\n");
    }
    assert rows[|rows|..] == [];
    PrependEmpty(text, Ok(""));
    return Ok(text);
  }

  /** `for (const row of results.slice(0, cap))` writing each row's block. */
  function FieldListing(results: Json, cap: nat): Result<string> {
    match Elements(results)
    case None => Threw(TypeError("results.slice is not a function"))
    case Some(items) => FieldBlocks(Take(items, cap))
  }

  method WriteFieldListing(results: Json, cap: nat) returns (r: Result<string>)
    ensures r == FieldListing(results, cap)
  {
    var items := Elements(results);
    if items.None? {
      return Threw(TypeError("results.slice is not a function"));
    }
    r := WriteFieldBlocks(Take(items.value, cap));
  }

  /** A listing of rows none of which is null or undefined holds the blocks of
      the first `cap` rows, and of all rows when there are at most `cap`;
      nothing follows them. */
  lemma FieldListingCapped(results: Json, items: seq<Json>, cap: nat)
    requires Elements(results) == Some(items)
    requires forall i :: 0 <= i < |items| ==> NotNullish(items[i])
    ensures FieldListing(results, cap).Ok?
    ensures |items| <= cap ==> FieldListing(results, cap) == FieldBlocks(items)
    ensures |items| > cap ==> FieldListing(results, cap) == FieldBlocks(items[..cap])
    ensures |FieldListing(results, cap).value| >= if |items| <= cap then |items| else cap
  {
    FieldBlocksDefined(Take(items, cap));
  }

  // ---------------------------------------------------------------------------
  // Applied filters

  /** `Object.entries(filters).filter(([_, v]) => v).map(([k, v]) => `${k}=${v}`)` */
  function FilterPairs(entries: seq<(string, Json)>): seq<string> {
    if entries == [] then []
    else
      (if Truthy(entries[0].1) then [entries[0].0 + "=" + ToStr(entries[0].1)] else [])
      + FilterPairs(entries[1..])
  }

  /** The description of `filters`, joined by ", ". */
  function FilterDesc(filters: Json): string {
    JoinStrs(FilterPairs(OwnEntries(filters)), ", ")
  }

  lemma {:induction false} FilterPairsEmpty(entries: seq<(string, Json)>)
    ensures FilterPairs(entries) == [] <==> forall i :: 0 <= i < |entries| ==> !Truthy(entries[i].1)
    ensures FilterPairs(entries) != [] ==> FilterPairs(entries)[0] != ""
  {
    if entries != [] {
      FilterPairsEmpty(entries[1..]);
      if !Truthy(entries[0].1) {
        forall i | 0 < i < |entries|
          ensures entries[i].1 == entries[1..][i - 1].1
        {
        }
      }
    }
  }

  /** A text starts with what was written first. */
  lemma StartsWith(x: string, y: string, z: string)
    ensures x <= x + y + z
  {
    assert (x + y + z)[..|x|] == x;
  }

  lemma JoinStrsStartsWithFirst(parts: seq<string>, sep: string)
    requires parts != []
    ensures parts[0] <= JoinStrs(parts, sep)
  {
  }

  /** The description is empty exactly when no filter value is truthy, so
      the "Filters:" line is left out exactly then. */
  lemma FilterDescAbsent(filters: Json)
    ensures FilterDesc(filters) == "" <==>
            forall i :: 0 <= i < |OwnEntries(filters)| ==> !Truthy(OwnEntries(filters)[i].1)
  {
    var pairs := FilterPairs(OwnEntries(filters));
    FilterPairsEmpty(OwnEntries(filters));
    if pairs != [] {
      JoinStrsStartsWithFirst(pairs, ", ");
    }
  }
}
