/**
 * Parsed JSON values (RFC 8259) as both front ends see them after their JSON
 * library has run, and the typed look-ups each platform performs on them.
 * The parsers themselves (`JSONSerialization`, Json.NET) are not modelled: a
 * response body is its raw text together with the parser's verdict.
 */
module Json {
  import opened Wrappers
  import opened Text

  /** A JSON value. A number keeps the literal text it was written with. */
  datatype Json =
    | JNull
    | JBool(b: bool)
    | JNum(literal: string)
    | JStr(s: string)
    | JArr(items: seq<Json>)
    | JObj(members: seq<Member>)

  /** One `"key": value` member of an object, in document order. */
  datatype Member = Member(key: string, value: Json)

  /** The parser's verdict on a body: a parse error with its message, or a value. */
  datatype Parse = Malformed(reason: string) | Parsed(value: Json)

  /** A response body: the text received and what the JSON parser made of it. */
  datatype Body = Body(raw: string, parsed: Parse)

  /** The value of the last member named `key` (duplicates: the last one wins). */
  function Lookup(members: seq<Member>, key: string): (r: Option<Json>)
    ensures r.Some? <==> exists i :: 0 <= i < |members| && members[i].key == key
    ensures r.Some? ==> exists i :: 0 <= i < |members| && members[i] == Member(key, r.value)
                                    && NoKeyAfter(members, i, key)
  {
    if |members| == 0 then None
    else if members[|members| - 1].key == key then Some(members[|members| - 1].value)
    else
      var front := members[..|members| - 1];
      assert forall j :: 0 <= j < |front| ==> front[j] == members[j];
      Lookup(front, key)
  }

  /** No member after position `i` is named `key`. */
  predicate NoKeyAfter(members: seq<Member>, i: nat, key: string) {
    forall j :: i < j < |members| ==> members[j].key != key
  }

  /** A key that occurs once is found with its value. */
  lemma {:induction false} LookupUnique(ms: seq<Member>, i: int)
    requires 0 <= i < |ms|
    requires forall j :: 0 <= j < |ms| && j != i ==> ms[j].key != ms[i].key
    ensures Lookup(ms, ms[i].key) == Some(ms[i].value)
    decreases |ms|
  {
    if i != |ms| - 1 {
      LookupUnique(ms[..|ms| - 1], i);
    }
  }

  /** `obj[key]` on an object; nothing on any other value. */
  function Get(j: Json, key: string): Option<Json> {
    if j.JObj? then Lookup(j.members, key) else None
  }

  /** A one-member object `{key: value}`. */
  function Single(key: string, value: Json): Json {
    JObj([Member(key, value)])
  }

  /** Compact JSON text of a value (string escapes are not modelled). */
  function Render(j: Json): string
    decreases j
  {
    match j
    case JNull => "null"
    case JBool(b) => if b then "true" else "false"
    case JNum(lit) => lit
    case JStr(s) => "\"" + s + "\""
    case JArr(items) =>
      "[" + Join(seq(|items|, i requires 0 <= i < |items| => Render(items[i]))) + "]"
    case JObj(ms) =>
      "{" + Join(seq(|ms|, i requires 0 <= i < |ms| => RenderMember(ms[i], j))) + "}"
  }

  function RenderMember(m: Member, ghost parent: Json): string
    requires m.value < parent
    decreases parent, 0
  {
    "\"" + m.key + "\":" + Render(m.value)
  }

  /** Comma-separated concatenation. */
  function Join(parts: seq<string>): string {
    if |parts| == 0 then ""
    else if |parts| == 1 then parts[0]
    else parts[0] + "," + Join(parts[1..])
  }

  // ---- Swift: `as? String`, `as? [String: Any]`, `as? [[String: Any]]` ----

  /** `value as? String`. */
  function AsString(v: Option<Json>): (r: Option<string>)
    ensures r.Some? <==> v.Some? && v.value.JStr?
    ensures r.Some? ==> r.value == v.value.s
  {
    if v.Some? && v.value.JStr? then Some(v.value.s) else None
  }

  /** `value as? [String: Any]`. */
  function AsObject(v: Option<Json>): (r: Option<Json>)
    ensures r.Some? <==> v.Some? && v.value.JObj?
    ensures r.Some? ==> r == v
  {
    if v.Some? && v.value.JObj? then v else None
  }

  /** `(value as? [[String: Any]])?.first`: an array all of whose items are objects, non-empty. */
  function FirstOfObjectArray(v: Option<Json>): (r: Option<Json>)
    ensures r.Some? <==> v.Some? && v.value.JArr? && |v.value.items| > 0
                         && forall i :: 0 <= i < |v.value.items| ==> v.value.items[i].JObj?
    ensures r.Some? ==> r.value.JObj? && r.value == v.value.items[0]
  {
    if v.Some? && v.value.JArr? && |v.value.items| > 0
       && (forall i :: 0 <= i < |v.value.items| ==> v.value.items[i].JObj?)
    then Some(v.value.items[0])
    else None
  }

  // ---- Json.NET: `JToken.ToString()` and the cast `(JObject)token` ----

  /**
   * The text `JToken.ToString()` gives, as far as the model follows it: a
   * string token gives its text, a JSON null gives "", a boolean gives .NET's
   * "True"/"False". A number, object or array gives its compact JSON text
   * here; Json.NET formats numbers in the current culture and indents
   * objects and arrays, which is not modelled.
   */
  function TokenText(j: Json): string {
    match j
    case JStr(s) => s
    case JNull => ""
    case JBool(b) => if b then "True" else "False"
    case _ => Render(j)
  }

  /** The Json.NET class of a token, as named in .NET exception messages. */
  function TokenClass(j: Json): string {
    match j
    case JObj(_) => "Newtonsoft.Json.Linq.JObject"
    case JArr(_) => "Newtonsoft.Json.Linq.JArray"
    case _ => "Newtonsoft.Json.Linq.JValue"
  }

  /** The message of the `InvalidCastException` thrown by `(JObject)token`. */
  function CastMessage(j: Json): string {
    "Unable to cast object of type '" + TokenClass(j) + "' to type 'Newtonsoft.Json.Linq.JObject'."
  }
}
