/** The JavaScript view of parsed JSON that the worker relies on: the values
    `JSON.parse` can produce, truthiness (`!x`, `x || y`), property reads
    (`x.key`, `x?.key`), and the text a template literal `${x}` inserts.
    `undefined` is `None`. */
module Js {

  datatype Option<+T> = None | Some(value: T)

  /** A parsed JSON value. Numbers are restricted to integers. */
  datatype Json =
    | JNull
    | JBool(b: bool)
    | JNum(n: int)
    | JStr(s: string)
    | JArr(elems: seq<Json>)
    | JObj(fields: map<string, Json>)

  /** JavaScript truthiness of a value that may be `undefined`. */
  predicate Truthy(v: Option<Json>)
  {
    match v
    case None => false
    case Some(j) =>
      match j
      case JNull => false
      case JBool(b) => b
      case JNum(n) => n != 0
      case JStr(s) => s != ""
      case JArr(_) => true
      case JObj(_) => true
  }

  /** `j.key` on a value that is not `null` (reading a property of `null`
      throws, which callers model themselves). Arrays and strings expose
      `length`; no other built-in property is ever read by the worker. */
  function Get(j: Json, key: string): (r: Option<Json>)
    requires !j.JNull?
    ensures j.JObj? ==> (r.Some? <==> key in j.fields)
    ensures j.JObj? && key in j.fields ==> r == Some(j.fields[key])
    ensures j.JArr? && key == "length" ==> r == Some(JNum(|j.elems|))
    ensures j.JStr? && key == "length" ==> r == Some(JNum(|j.s|))
    ensures r.Some? ==> j.JObj? || key == "length"
    ensures j.JBool? || j.JNum? ==> r.None?
  {
    match j
    case JObj(f) => if key in f then Some(f[key]) else None
    case JArr(es) => if key == "length" then Some(JNum(|es|)) else None
    case JStr(s) => if key == "length" then Some(JNum(|s|)) else None
    case _ => None
  }

  /** Optional chaining `v?.key`: `undefined` when `v` is `null` or `undefined`. */
  function Chain(v: Option<Json>, key: string): (r: Option<Json>)
    ensures (v.None? || v.value.JNull?) ==> r.None?
    ensures v.Some? && !v.value.JNull? ==> r == Get(v.value, key)
  {
    match v
    case None => None
    case Some(j) => if j.JNull? then None else Get(j, key)
  }

  /** `v > 0` for the values whose numeric conversion needs no parsing:
      numbers and booleans. */
  predicate Positive(v: Option<Json>)
  {
    match v
    case Some(JNum(n)) => n > 0
    case Some(JBool(b)) => b
    case _ => false
  }

  /** `String(j)` yields text rather than throwing a `TypeError`. A parsed
      object with its own `toString` key has a `toString` that is not
      callable, and its inherited `valueOf` returns the object itself, so no
      primitive comes out. An array prints its elements, so it is printable
      when they all are. */
  predicate Printable(j: Json)
  {
    match j
    case JObj(f) => "toString" !in f
    case JArr(es) => forall i :: 0 <= i < |es| ==> Printable(es[i])
    case _ => true
  }

  /** `${v}` yields text rather than throwing. */
  predicate Renders(v: Option<Json>)
  {
    v.None? || Printable(v.value)
  }

  /** The text `${v}` inserts into a template literal, when `Renders(v)`;
      callers model the `TypeError` otherwise. */
  function Render(v: Option<Json>): string
  {
    match v
    case None => "undefined"
    case Some(j) => Text(j)
  }

  /** `String(j)` for a `Printable` value: arrays join their elements with
      commas (rendering `null` elements as nothing), and objects without
      their own `toString` print as `[object Object]`. */
  function Text(j: Json): string
    decreases j, 1
  {
    match j
    case JNull => "null"
    case JBool(b) => if b then "true" else "false"
    case JNum(n) => NumberText(n)
    case JStr(s) => s
    case JArr(es) => ElemsText(j, |es|)
    case JObj(_) => "[object Object]"
  }

  /** The comma-joined text of the first `n` elements of array `j`. */
  function ElemsText(j: Json, n: nat): string
    requires j.JArr? && n <= |j.elems|
    decreases j, 0, n
  {
    if n == 0 then ""
    else
      var e := j.elems[n - 1];
      var t := if e.JNull? then "" else Text(e);
      if n == 1 then t else ElemsText(j, n - 1) + "," + t
  }

  /** Decimal text of an integer, as JavaScript prints integral numbers. */
  function NumberText(n: int): (r: string)
    ensures r != []
    ensures n >= 0 ==> IsDigits(r) && DigitsValue(r) == n && (|r| > 1 ==> r[0] != '0')
    ensures n < 0 ==> && r[0] == '-' && |r| > 1 && IsDigits(r[1..]) && DigitsValue(r[1..]) == -n
                      && (|r| > 2 ==> r[1] != '0')
  {
    if n < 0 then
      var d := NatText(-n);
      NatTextValue(-n);
      assert ("-" + d)[1..] == d;
      "-" + d
    else
      NatTextValue(n);
      NatText(n)
  }

  function NatText(n: nat): (r: string)
    ensures r != [] && IsDigits(r)
    ensures |r| > 1 ==> r[0] != '0'
  {
    if n < 10 then [Digit(n)] else NatText(n / 10) + [Digit(n % 10)]
  }

  function Digit(d: nat): (c: char)
    requires d < 10
    ensures '0' <= c <= '9' && c as int - '0' as int == d
  {
    ('0' as int + d) as char
  }

  predicate IsDigits(s: string)
  {
    forall i :: 0 <= i < |s| ==> '0' <= s[i] <= '9'
  }

  /** The number a string of decimal digits denotes (the partner of `NatText`). */
  function DigitsValue(s: string): nat
    requires IsDigits(s)
  {
    if s == [] then 0
    else DigitsValue(s[..|s| - 1]) * 10 + (s[|s| - 1] as int - '0' as int)
  }

  /** Reading back the digits `NatText` prints gives the number. */
  lemma {:induction false} NatTextValue(n: nat)
    ensures DigitsValue(NatText(n)) == n
  {
    if n >= 10 {
      NatTextValue(n / 10);
      var s := NatText(n / 10) + [Digit(n % 10)];
      assert s[..|s| - 1] == NatText(n / 10);
    }
  }

  /** `k` occurs in `t` starting at index `i`. */
  predicate OccursAt(t: string, k: string, i: int)
  {
    0 <= i && i + |k| <= |t| && t[i..i + |k|] == k
  }

  /** `t.includes(k)`: `k` occurs somewhere in `t`. */
  predicate Includes(t: string, k: string)
  {
    exists i | 0 <= i <= |t| - |k| :: OccursAt(t, k, i)
  }
}
