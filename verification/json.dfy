/** JSON values as JavaScript sees them after `JSON.parse`, with the few pieces of JavaScript
    semantics the reply formatters depend on: truthiness, property access (which throws a
    TypeError on `null`/`undefined`), optional chaining and `String(v)`.
    Numbers are integers here: the floating-point side of JSON numbers is not modelled.
    `undefined` is `None` wherever a value is an `Option<Json>`. */
module Json {
  import opened Base
  import Text

  datatype Json =
    | JNull
    | JBool(b: bool)
    | JNum(n: int)
    | JStr(s: string)
    | JArr(items: seq<Json>)
    | JObj(fields: map<string, Json>)

  const TYPE_ERROR := "TypeError"

  /** JavaScript truthiness of a JSON value. */
  predicate Truthy(v: Json) {
    match v
    case JNull => false
    case JBool(b) => b
    case JNum(n) => n != 0
    case JStr(s) => s != ""
    case JArr(_) => true
    case JObj(_) => true
  }

  /** Truthiness of a possibly `undefined` value. */
  predicate Present(v: Option<Json>) {
    v.Some? && Truthy(v.value)
  }

  /** `v[key]` on a value that is neither `null` nor `undefined`: own fields of objects and the
      `length` of strings and arrays; every other property is `undefined`. */
  function Prop(v: Json, key: string): (r: Option<Json>)
    requires !v.JNull?
    ensures v.JObj? ==> (r.Some? <==> key in v.fields)
    ensures v.JNum? || v.JBool? ==> r.None?
  {
    match v
    case JObj(m) => if key in m then Some(m[key]) else None
    case JStr(s) => if key == "length" then Some(JNum(|s|)) else None
    case JArr(a) => if key == "length" then Some(JNum(|a|)) else None
    case _ => None
  }

  /** `v.key`: throws a TypeError when `v` is `null` or `undefined`. */
  function Get(v: Option<Json>, key: string): (r: Result<Option<Json>>)
    ensures r.Err? <==> (v.None? || v.value.JNull?)
  {
    if v.None? || v.value.JNull? then Err(TYPE_ERROR) else Ok(Prop(v.value, key))
  }

  /** `v?.key`: `undefined` when `v` is `null` or `undefined`. */
  function OptGet(v: Option<Json>, key: string): (r: Option<Json>)
    ensures v.None? || v.value.JNull? ==> r.None?
  {
    if v.None? || v.value.JNull? then None else Prop(v.value, key)
  }

  /** `a || b` where `b` is the fallback used when `a` is falsy or `undefined`. */
  function Fallback(a: Option<Json>, b: Json): (r: Json)
    ensures Present(a) ==> r == a.value
    ensures !Present(a) ==> r == b
  {
    if Present(a) then a.value else b
  }

  /** `String(v)`, which is also what a template literal `${v}` produces. Array elements that are
      `null` become the empty text, as `Array.prototype.join` does. */
  function ToText(v: Json): string {
    match v
    case JNull => "null"
    case JBool(b) => if b then "true" else "false"
    case JNum(n) => Text.IntToString(n)
    case JStr(s) => s
    case JArr(a) => JoinItems(a)
    case JObj(_) => "[object Object]"
  }

  function JoinItems(a: seq<Json>): string
    decreases a
  {
    if a == [] then []
    else
      var head := if a[0].JNull? then "" else ToText(a[0]);
      if |a| == 1 then head else head + "," + JoinItems(a[1..])
  }

  lemma ToTextOfString(s: string)
    ensures ToText(JStr(s)) == s
  {
  }

  // ---------------------------------------------------------------------------------------------
  // The fenced-block extraction shared by the two reply parsers: `/```json\n([\s\S]*?)\n```/`.

  const OPEN_FENCE := "```json\n"
  const CLOSE_FENCE := "\n```"

  /** Does `pat` occur in `s` starting at index `j`? */
  predicate At(s: string, pat: string, j: nat) {
    j + |pat| <= |s| && s[j..j + |pat|] == pat
  }

  /** The first index at or after `from` where `pat` starts, if any. */
  function FindFrom(s: string, pat: string, from: nat): (r: Option<nat>)
    requires |pat| > 0
    ensures r.Some? ==> from <= r.value && At(s, pat, r.value)
    ensures r.Some? ==> forall j: nat :: from <= j < r.value ==> !At(s, pat, j)
    ensures r.None? ==> forall j: nat :: from <= j ==> !At(s, pat, j)
    decreases |s| - from
  {
    if from + |pat| > |s| then None
    else if s[from..from + |pat|] == pat then Some(from)
    else FindFrom(s, pat, from + 1)
  }

  /** The body of the leftmost match of the lazy fenced-block pattern. The leftmost opening fence
      decides: a closing fence after a later opening fence also follows the first one, so when the
      first opening has no closing fence, no later one has either. */
  function FencedBody(text: string): (r: Option<string>)
    ensures r.Some? ==>
      exists i: nat, j: nat ::
        && i + |OPEN_FENCE| <= j && At(text, OPEN_FENCE, i) && At(text, CLOSE_FENCE, j)
        && (forall k: nat :: k < i ==> !At(text, OPEN_FENCE, k))
        && (forall k: nat :: i + |OPEN_FENCE| <= k < j ==> !At(text, CLOSE_FENCE, k))
        && r.value == text[i + |OPEN_FENCE|..j]
    ensures r.None? ==>
      forall i: nat, j: nat :: i + |OPEN_FENCE| <= j && At(text, OPEN_FENCE, i) ==> !At(text, CLOSE_FENCE, j)
  {
    match FindFrom(text, OPEN_FENCE, 0)
    case None => None
    case Some(i) =>
      match FindFrom(text, CLOSE_FENCE, i + |OPEN_FENCE|)
      case None => None
      case Some(j) => Some(text[i + |OPEN_FENCE|..j])
  }

  /** The text both reply parsers hand to `JSON.parse`: the first fenced block's body when there
      is one, the whole reply otherwise. */
  function JsonSource(text: string): (r: string)
    ensures FencedBody(text).None? ==> r == text
    ensures FencedBody(text).Some? ==> |r| < |text|
  {
    match FencedBody(text)
    case Some(body) => body
    case None => text
  }
}
