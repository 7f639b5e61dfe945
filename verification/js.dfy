/** JavaScript values as the tool handlers see them once a response body or a
    tool-call argument object has been parsed, and the handful of JavaScript
    semantics the handlers depend on: the four presence tests, `||` and `??`,
    property reads, `Object.entries`, iteration, and conversion to text. */
module Js {

  /** A JavaScript value. Numbers are integers. The fields of a `JObj` are the
      object's own properties in `Object.entries` order, one per key, which is
      what `JSON.parse` produces. */
  datatype Json =
    | JUndef
    | JNull
    | JStr(s: string)
    | JNum(n: int)
    | JBool(b: bool)
    | JArr(items: seq<Json>)
    | JObj(fields: seq<(string, Json)>)

  /** An error object thrown by the code: its `name` and its `message`. */
  datatype Thrown = Thrown(name: string, message: string)

  function TypeError(message: string): Thrown {
    Thrown("TypeError", message)
  }

  datatype Option<+T> = None | Some(value: T)

  /** The completion of an operation that may throw. */
  datatype Result<+T> = Ok(value: T) | Threw(error: Thrown) {
    predicate IsFailure() {
      Threw?
    }

    function PropagateFailure<U>(): Result<U>
      requires Threw?
    {
      Threw(error)
    }

    function Extract(): T
      requires Ok?
    {
      value
    }
  }

  // ---------------------------------------------------------------------------
  // The four presence tests the code uses

  /** `if (x)`, `x || d`, `x ? a : b`: undefined, null, "", 0 and false are
      falsy; every array and every object, even an empty one, is truthy. */
  predicate Truthy(j: Json) {
    match j
    case JUndef => false
    case JNull => false
    case JStr(s) => s != ""
    case JNum(n) => n != 0
    case JBool(b) => b
    case JArr(_) => true
    case JObj(_) => true
  }

  /** `x ?? d` keeps `x` unless it is null or undefined. */
  predicate NotNullish(j: Json) {
    !j.JUndef? && !j.JNull?
  }

  /** `x !== undefined` */
  predicate Defined(j: Json) {
    !j.JUndef?
  }

  /** `x !== undefined && x !== null && x !== ""` */
  predicate NonBlank(j: Json) {
    NotNullish(j) && j != JStr("")
  }

  /** `a || b` */
  function Or(a: Json, b: Json): Json {
    if Truthy(a) then a else b
  }

  /** `a ?? b` */
  function Coalesce(a: Json, b: Json): Json {
    if NotNullish(a) then a else b
  }

  /** Each presence test is implied by the stricter one before it. */
  lemma PresenceTestsNest(j: Json)
    ensures Truthy(j) ==> NonBlank(j)
    ensures NonBlank(j) ==> NotNullish(j)
    ensures NotNullish(j) ==> Defined(j)
  {
  }

  /** The four tests are different: each pair is told apart by one value. */
  lemma PresenceTestsDiffer()
    ensures Truthy(JArr([])) && Truthy(JObj([]))
    ensures NonBlank(JNum(0)) && !Truthy(JNum(0))
    ensures NonBlank(JBool(false)) && !Truthy(JBool(false))
    ensures NotNullish(JStr("")) && !NonBlank(JStr(""))
    ensures Defined(JNull) && !NotNullish(JNull)
  {
  }

  // ---------------------------------------------------------------------------
  // Numbers as text

  predicate IsDigit(c: char) {
    '0' <= c <= '9'
  }

  function DigitChar(d: nat): (c: char)
    requires d < 10
    ensures IsDigit(c)
  {
    "0123456789"[d]
  }

  /** The decimal digits of `n`, most significant first, without leading zeros:
      what `Number.prototype.toString()` writes for a natural number. */
  function NatToString(n: nat): (r: string)
    ensures |r| >= 1
    ensures forall i :: 0 <= i < |r| ==> IsDigit(r[i])
    ensures r[0] == '0' ==> n == 0
  {
    if n < 10 then [DigitChar(n)] else NatToString(n / 10) + [DigitChar(n % 10)]
  }

  /** How a template literal renders an integer. */
  function IntToString(n: int): string {
    if n < 0 then "-" + NatToString(-n) else NatToString(n)
  }

  /** The number a string of decimal digits denotes. */
  function ParseDigits(s: string): nat
    requires forall i :: 0 <= i < |s| ==> IsDigit(s[i])
  {
    if s == [] then 0
    else
      assert IsDigit(s[|s| - 1]);
      ParseDigits(s[..|s| - 1]) * 10 + (s[|s| - 1] as int - '0' as int)
  }

  /** Reading the digits back gives the number: the text determines it. */
  lemma {:induction false} ParseNatToString(n: nat)
    ensures ParseDigits(NatToString(n)) == n
  {
    var r := NatToString(n);
    if n >= 10 {
      ParseNatToString(n / 10);
      assert r[..|r| - 1] == NatToString(n / 10);
    }
  }

  /** Two natural numbers are rendered alike only when they are equal. */
  lemma NatToStringInjective(m: nat, n: nat)
    ensures NatToString(m) == NatToString(n) ==> m == n
  {
    ParseNatToString(m);
    ParseNatToString(n);
  }

  // ---------------------------------------------------------------------------
  // Conversion to text

  /** `parts.join(sep)` on an array of strings. */
  function JoinStrs(parts: seq<string>, sep: string): string {
    if |parts| == 0 then ""
    else if |parts| == 1 then parts[0]
    else parts[0] + sep + JoinStrs(parts[1..], sep)
  }

  /** `String(x)`, which is also what a template literal `${x}` produces. */
  function ToStr(j: Json): string
    decreases j, 1
  {
    match j
    case JUndef => "undefined"
    case JNull => "null"
    case JStr(s) => s
    case JNum(n) => IntToString(n)
    case JBool(b) => if b then "true" else "false"
    case JArr(items) => ArrayJoin(items, ",")
    case JObj(_) => "[object Object]"
  }

  /** `items.join(sep)`: null and undefined elements become empty strings. */
  function ArrayJoin(items: seq<Json>, sep: string): string
    decreases items, 0
  {
    JoinStrs(seq(|items|, i requires 0 <= i < |items| => ElementText(items[i])), sep)
  }

  function ElementText(j: Json): string
    decreases j, 2
  {
    if NotNullish(j) then ToStr(j) else ""
  }

  // ---------------------------------------------------------------------------
  // Property access, entries and iteration

  /** The value of the first field named `key`, or undefined. */
  function Lookup(fields: seq<(string, Json)>, key: string): Json {
    if fields == [] then JUndef
    else if fields[0].0 == key then fields[0].1
    else Lookup(fields[1..], key)
  }

  /** `x.key` for an `x` that is neither null nor undefined: a field of an
      object, the `length` of an array or a string, and undefined otherwise. */
  function Prop(j: Json, key: string): Json {
    match j
    case JObj(fields) => Lookup(fields, key)
    case JArr(items) => if key == "length" then JNum(|items|) else JUndef
    case JStr(s) => if key == "length" then JNum(|s|) else JUndef
    case _ => JUndef
  }

  /** The TypeError that reading `x.key` throws when `x` is null or undefined. */
  function ReadError(j: Json, key: string): Thrown {
    TypeError("Cannot read properties of " + (if j.JNull? then "null" else "undefined")
              + " (reading '" + key + "')")
  }

  /** `x.key`, which throws when `x` is null or undefined. */
  function Member(j: Json, key: string): Result<Json> {
    if NotNullish(j) then Ok(Prop(j, key)) else Threw(ReadError(j, key))
  }

  /** `x?.key` */
  function OptMember(j: Json, key: string): Json {
    if NotNullish(j) then Prop(j, key) else JUndef
  }

  /** `x.length === 0` */
  predicate LengthIsZero(j: Json) {
    Prop(j, "length") == JNum(0)
  }

  /** `Object.entries(x)` for an `x` that is neither null nor undefined: the
      fields of an object, the indexed elements of an array or the indexed
      characters of a string, and nothing for a number or a boolean. */
  function OwnEntries(j: Json): seq<(string, Json)> {
    match j
    case JObj(fields) => fields
    case JArr(items) => seq(|items|, i requires 0 <= i < |items| => (NatToString(i), items[i]))
    case JStr(s) => seq(|s|, i requires 0 <= i < |s| => (NatToString(i), JStr([s[i]])))
    case _ => []
  }

  /** `Object.entries(x)`, which throws when `x` is null or undefined. */
  function Entries(j: Json): Result<seq<(string, Json)>> {
    if NotNullish(j) then Ok(OwnEntries(j))
    else Threw(TypeError("Cannot convert undefined or null to object"))
  }

  /** What `for (const e of x)` visits: the items of an array or the
      one-character strings of a string; None when `x` is not iterable. */
  function Elements(j: Json): Option<seq<Json>> {
    match j
    case JArr(items) => Some(items)
    case JStr(s) => Some(seq(|s|, i requires 0 <= i < |s| => JStr([s[i]])))
    case _ => None
  }

  /** `xs.slice(0, n)` */
  function Take(xs: seq<Json>, n: nat): (r: seq<Json>)
    ensures |r| == if |xs| <= n then |xs| else n
    ensures r <= xs
  {
    if |xs| <= n then xs else xs[..n]
  }

  /** `for (const e of x)` for a value named `name`: anything that is not an
      array or a string throws. */
  function Iterated(j: Json, name: string): Result<seq<Json>> {
    match Elements(j)
    case Some(xs) => Ok(xs)
    case None => Threw(TypeError(name + " is not iterable"))
  }

  /** An array or string has as many elements as its `length` says, so the
      emptiness test and iteration agree. */
  lemma ElementsMatchLength(j: Json)
    requires Elements(j).Some?
    ensures Prop(j, "length") == JNum(|Elements(j).value|)
    ensures LengthIsZero(j) <==> Elements(j).value == []
  {
  }
}
