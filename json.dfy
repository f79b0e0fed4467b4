/**
 * Loosely typed artifact content, as `JSON.parse` produces it, and the safe readers the core
 * uses on it. Numbers are integers (fractional JSON numbers are not modelled). An object's
 * fields keep their insertion order; `Records.EnumerationOrder` is the order JavaScript
 * enumerates them in.
 */
module Json {
  import opened Wrappers
  import Records
  import Text

  datatype JValue =
    | JNull
    | JBool(b: bool)
    | JNum(n: int)
    | JString(s: string)
    | JArr(items: seq<JValue>)
    | JObj(fields: seq<(string, JValue)>)

  /** JavaScript truthiness: `null`, `false`, `0` and `""` are falsy, arrays and objects are truthy. */
  predicate Truthy(v: JValue) {
    match v
    case JNull => false
    case JBool(b) => b
    case JNum(n) => n != 0
    case JString(s) => s != ""
    case _ => true
  }

  /** Truthiness of a value that may be `undefined` (which is falsy). */
  predicate TruthyOpt(o: Option<JValue>) {
    o.Some? && Truthy(o.value)
  }

  /** `typeof v === "object" && v !== null`: arrays count as objects. */
  predicate IsObjectLike(v: JValue) {
    v.JArr? || v.JObj?
  }

  /**
   * `v[k]`: a field of an object. Reading a named field of anything else yields `undefined`
   * (array indices, `length` and prototype members are not keys the core reads).
   */
  function Get(v: JValue, k: string): (o: Option<JValue>)
    ensures o.Some? ==> v.JObj?
  {
    if v.JObj? then Records.Lookup(v.fields, k) else None
  }

  /** `k in v` for an object-like `v`. */
  predicate Has(v: JValue, k: string) {
    Get(v, k).Some?
  }

  /** `extractString(obj, key)`: the field when it is a string, otherwise `undefined`. */
  function ExtractString(obj: JValue, key: string): (r: Option<string>)
    ensures r.Some? <==> Get(obj, key).Some? && Get(obj, key).value.JString?
    ensures r.Some? ==> Get(obj, key) == Some(JString(r.value))
  {
    match Get(obj, key)
    case Some(JString(s)) => Some(s)
    case _ => None
  }

  /**
   * The string field as a `||` chain sees it: `undefined` and `""` are both falsy, so the
   * chain only needs the text, with `""` standing for either.
   */
  function Str(obj: JValue, key: string): string {
    ExtractString(obj, key).GetOr("")
  }

  /** `a || b` on strings. */
  function Or(a: string, b: string): string {
    if a != "" then a else b
  }

  /** `a || b` on values that may be `undefined`. */
  function OrValue(a: Option<JValue>, b: Option<JValue>): Option<JValue> {
    if TruthyOpt(a) then a else b
  }

  /** The elements of `obj[key]` when it is an array (`Array.isArray`), otherwise none. */
  function ArrayAt(obj: JValue, key: string): (r: seq<JValue>)
    ensures r != [] ==> Get(obj, key) == Some(JArr(r))
  {
    match Get(obj, key)
    case Some(JArr(items)) => items
    case _ => []
  }

  /** `Array.isArray(obj[key])`. */
  predicate IsArrayAt(obj: JValue, key: string) {
    Get(obj, key).Some? && Get(obj, key).value.JArr?
  }

  /** `xs.filter((x): x is string => typeof x === "string")`. */
  function StringsOf(xs: seq<JValue>): (r: seq<string>)
    ensures |r| <= |xs|
  {
    if xs == [] then []
    else
      var rest := StringsOf(xs[..|xs| - 1]);
      if xs[|xs| - 1].JString? then rest + [xs[|xs| - 1].s] else rest
  }

  /** The strings kept are exactly the string entries. */
  lemma {:induction false} StringsOfMembers(xs: seq<JValue>)
    ensures forall s :: s in StringsOf(xs) <==> JString(s) in xs
  {
    if xs != [] {
      var n := |xs| - 1;
      StringsOfMembers(xs[..n]);
      assert xs == xs[..n] + [xs[n]];
    }
  }

  /** Filtering distributes over concatenation, so it keeps the source order. */
  lemma {:induction false} StringsOfAppend(xs: seq<JValue>, ys: seq<JValue>)
    ensures StringsOf(xs + ys) == StringsOf(xs) + StringsOf(ys)
  {
    if ys != [] {
      var zs := ys[..|ys| - 1];
      assert (xs + ys)[..|xs + ys| - 1] == xs + zs;
      StringsOfAppend(xs, zs);
    } else {
      assert xs + ys == xs;
    }
  }

  /** The filter keeps exactly the strings: none of a list without strings, all of a list of strings. */
  lemma {:induction false} StringsOfAllStrings(ss: seq<string>)
    ensures StringsOf(seq(|ss|, i requires 0 <= i < |ss| => JString(ss[i]))) == ss
  {
    var xs := seq(|ss|, i requires 0 <= i < |ss| => JString(ss[i]));
    if ss != [] {
      var ts := ss[..|ss| - 1];
      assert xs[..|xs| - 1] == seq(|ts|, i requires 0 <= i < |ts| => JString(ts[i]));
      StringsOfAllStrings(ts);
      assert ss == ts + [ss[|ss| - 1]];
    }
  }

  /**
   * `String(v)`, as a template literal renders a value: numbers in decimal, arrays as their
   * elements joined by commas (with `null` rendered empty), objects as `[object Object]`.
   */
  function JsToString(v: JValue): (r: string)
    ensures v.JString? ==> r == v.s
    ensures v.JNum? ==> r == Text.IntToString(v.n)
    decreases v, 1
  {
    match v
    case JNull => "null"
    case JBool(b) => if b then "true" else "false"
    case JNum(n) => Text.IntToString(n)
    case JString(s) => s
    case JArr(items) => JoinItems(items)
    case JObj(_) => "[object Object]"
  }

  /** `Array.prototype.join(",")` with `null` elements rendered as the empty string. */
  function JoinItems(items: seq<JValue>): string
    decreases items, 0
  {
    if items == [] then ""
    else
      var first := if items[0].JNull? then "" else JsToString(items[0]);
      if |items| == 1 then first else first + "," + JoinItems(items[1..])
  }

  /** `record.content || {}`: falsy content is replaced by the empty object. */
  function ContentOr(o: Option<JValue>): (r: JValue)
    ensures TruthyOpt(o) ==> r == o.value
    ensures !TruthyOpt(o) ==> r == JObj([])
  {
    if TruthyOpt(o) then o.value else JObj([])
  }
}
