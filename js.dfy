/** The pieces of JavaScript's value semantics the admin console relies on:
    decoded JSON values, truthiness (`||`), nullish defaults (`??`), property
    reads on possibly-null values, `String(v)`, `Error` objects and the string
    methods `trim`, `toLowerCase`, `startsWith` and `includes`. */
module Js {

  datatype Option<+T> = None | Some(value: T)

  datatype Result<+T, +E> = Success(value: T) | Failure(error: E)

  /** A thrown JavaScript `Error`; the console only ever looks at its message. */
  datatype Error = Error(message: string)

  /** A value produced by `JSON.parse`. Numbers are integers in this model. */
  datatype Json =
    | JNull
    | JBool(b: bool)
    | JNum(n: int)
    | JStr(s: string)
    | JArr(items: seq<Json>)
    | JObj(fields: map<string, Json>)

  /** The `TypeError` a JavaScript engine (V8) throws for `null.key`. */
  function NullAccess(key: string): (e: Error)
    ensures StartsWith(e.message, "Cannot read properties of null")
  {
    Error("Cannot read properties of null (reading '" + key + "')")
  }

  /** The outcome of evaluating `v.key`: a thrown error, or the property (None = undefined). */
  datatype Access = Threw(error: Error) | Got(value: Option<Json>)

  /** `v.key` for a decoded JSON value `v`. */
  function Get(v: Json, key: string): (a: Access)
    ensures a.Threw? <==> v.JNull?
    ensures a.Threw? ==> a.error == NullAccess(key)
    ensures a.Got? && a.value.Some? <==> v.JObj? && key in v.fields
    ensures a.Got? && a.value.Some? ==> a.value.value == v.fields[key]
  {
    match v
    case JNull => Threw(NullAccess(key))
    case JObj(fields) => Got(if key in fields then Some(fields[key]) else None)
    case _ => Got(None)
  }

  /** `v?.key`: optional chaining turns a read on null into undefined. */
  function GetOpt(v: Json, key: string): (r: Option<Json>)
    ensures r.Some? <==> v.JObj? && key in v.fields
    ensures r.Some? ==> r.value == v.fields[key]
    ensures !v.JNull? ==> Get(v, key) == Got(r)
  {
    if v.JObj? && key in v.fields then Some(v.fields[key]) else None
  }

  /** JavaScript truthiness of a value that may be undefined (None). */
  predicate Truthy(v: Option<Json>) {
    match v
    case None => false
    case Some(JNull) => false
    case Some(JBool(b)) => b
    case Some(JNum(n)) => n != 0
    case Some(JStr(s)) => s != ""
    case Some(JArr(_)) => true
    case Some(JObj(_)) => true
  }

  /** `v ?? fallback` for a value that may be undefined (None). */
  function Nullish(v: Option<Json>, fallback: Json): (r: Json)
    ensures v.None? || v == Some(JNull) ==> r == fallback
    ensures v.Some? && !v.value.JNull? ==> r == v.value
  {
    if v.Some? && !v.value.JNull? then v.value else fallback
  }

  function DigitChar(d: nat): (c: char)
    requires d < 10
    ensures '0' <= c <= '9'
  {
    "0123456789"[d]
  }

  function DigitValue(c: char): (d: nat)
    requires '0' <= c <= '9'
    ensures d < 10
  {
    c as int - '0' as int
  }

  predicate AllDigits(s: string) {
    forall i :: 0 <= i < |s| ==> '0' <= s[i] <= '9'
  }

  /** Decimal rendering of a natural number, as `String(n)` gives for integers below 10^21. */
  function NatToString(n: nat): (s: string)
    ensures |s| > 0 && AllDigits(s)
    ensures n > 0 ==> s[0] != '0'
    decreases n
  {
    if n < 10 then [DigitChar(n)] else NatToString(n / 10) + [DigitChar(n % 10)]
  }

  /** The value of a string of decimal digits (an independent reading of NatToString). */
  function ParseNat(s: string): nat
    requires AllDigits(s)
  {
    if s == [] then 0 else ParseNat(s[..|s| - 1]) * 10 + DigitValue(s[|s| - 1])
  }

  function IntToString(n: int): (s: string)
    ensures |s| > 0
    ensures n < 0 <==> s[0] == '-'
  {
    if n < 0 then "-" + NatToString(-n) else NatToString(n)
  }

  /** Reading back NatToString gives the number: the rendering loses nothing. */
  lemma {:induction false} NatToStringRoundTrip(n: nat)
    ensures ParseNat(NatToString(n)) == n
  {
    if n >= 10 {
      NatToStringRoundTrip(n / 10);
      var s := NatToString(n);
      assert s[..|s| - 1] == NatToString(n / 10);
    }
  }

  /** Different numbers never render the same way. */
  lemma NatToStringInjective(m: nat, n: nat)
    requires NatToString(m) == NatToString(n)
    ensures m == n
  {
    NatToStringRoundTrip(m);
    NatToStringRoundTrip(n);
  }

  /** `Array.prototype.join` renders null elements as the empty string. */
  function ElementString(v: Json): string
    decreases v, 2
  {
    if v.JNull? then "" else StringOf(v)
  }

  /** `String(v)` for a decoded JSON value. */
  function StringOf(v: Json): (s: string)
    ensures v.JStr? ==> s == v.s
    ensures v.JObj? ==> s == "[object Object]"
    decreases v, 1
  {
    match v
    case JNull => "null"
    case JBool(b) => if b then "true" else "false"
    case JNum(n) => IntToString(n)
    case JStr(s) => s
    case JArr(items) => JoinFrom(v, 0)
    case JObj(_) => "[object Object]"
  }

  /** The elements of array `arr` from index `i` on, joined with commas. */
  function JoinFrom(arr: Json, i: nat): string
    requires arr.JArr? && i <= |arr.items|
    decreases arr, 0, |arr.items| - i
  {
    if i == |arr.items| then ""
    else if i + 1 == |arr.items| then ElementString(arr.items[i])
    else ElementString(arr.items[i]) + "," + JoinFrom(arr, i + 1)
  }

  /** `new Error(v || fallback)`: the value when truthy, rendered by `String`, else the fallback text. */
  function ErrorFrom(v: Option<Json>, fallback: string): (e: Error)
    ensures Truthy(v) ==> e.message == StringOf(v.value)
    ensures !Truthy(v) ==> e.message == fallback
    ensures v.Some? && v.value.JStr? && v.value.s != "" ==> e.message == v.value.s
  {
    Error(if Truthy(v) then StringOf(v.value) else fallback)
  }

  /** `e?.message || fallback` as the views use it to pick an alert text. */
  function MessageOr(e: Error, fallback: string): (text: string)
    ensures e.message != "" ==> text == e.message
    ensures e.message == "" ==> text == fallback
  {
    if e.message != "" then e.message else fallback
  }

  predicate StartsWith(s: string, prefix: string) {
    |prefix| <= |s| && s[..|prefix|] == prefix
  }

  /** `part` occurs in `s` starting at index `i`. */
  predicate OccursAt(s: string, part: string, i: int) {
    0 <= i <= |s| - |part| && s[i..i + |part|] == part
  }

  /** `s.includes(part)`. */
  predicate Contains(s: string, part: string) {
    exists i :: 0 <= i <= |s| - |part| && OccursAt(s, part, i)
  }

  lemma StartsWithContains(s: string, prefix: string)
    requires StartsWith(s, prefix)
    ensures Contains(s, prefix)
  {
    assert OccursAt(s, prefix, 0);
  }

  /** The characters `String.prototype.trim` removes: WhiteSpace and LineTerminator of ECMA-262. */
  predicate IsWhiteSpace(c: char) {
    c == '\t' || c == '\n' || c == '\U{000B}' || c == '\U{000C}' || c == '\r' || c == ' '
    || c == '\U{00A0}' || c == '\U{1680}' || ('\U{2000}' <= c <= '\U{200A}')
    || c == '\U{2028}' || c == '\U{2029}' || c == '\U{202F}' || c == '\U{205F}'
    || c == '\U{3000}' || c == '\U{FEFF}'
  }

  function TrimStart(s: string): (r: string)
    ensures |r| <= |s| && r == s[|s| - |r|..]
    ensures r != [] ==> !IsWhiteSpace(r[0])
    ensures forall i :: 0 <= i < |s| - |r| ==> IsWhiteSpace(s[i])
  {
    if s != [] && IsWhiteSpace(s[0]) then TrimStart(s[1..]) else s
  }

  function TrimEnd(s: string): (r: string)
    ensures |r| <= |s| && r == s[..|r|]
    ensures r != [] ==> !IsWhiteSpace(r[|r| - 1])
    ensures forall i :: |r| <= i < |s| ==> IsWhiteSpace(s[i])
  {
    if s != [] && IsWhiteSpace(s[|s| - 1]) then TrimEnd(s[..|s| - 1]) else s
  }

  /** `r` is `s` with white space only cut from before index `i` and after `i + |r|`. */
  predicate InfixAt(s: string, r: string, i: int) {
    && 0 <= i <= |s| - |r| && r == s[i..i + |r|]
    && (forall k :: 0 <= k < i ==> IsWhiteSpace(s[k]))
    && (forall k :: i + |r| <= k < |s| ==> IsWhiteSpace(s[k]))
  }

  /** `s.trim()`: the infix of `s` that neither starts nor ends with white space,
      such that everything cut away is white space. */
  function Trim(s: string): (r: string)
    ensures r != [] ==> !IsWhiteSpace(r[0]) && !IsWhiteSpace(r[|r| - 1])
    ensures exists i :: 0 <= i <= |s| - |r| && InfixAt(s, r, i)
  {
    var t := TrimStart(s);
    var r := TrimEnd(t);
    var i := |s| - |t|;
    assert r == s[i..i + |r|];
    assert InfixAt(s, r, i);
    r
  }

  /** Trimming twice is trimming once. */
  lemma TrimIdempotent(s: string)
    ensures Trim(Trim(s)) == Trim(s)
  {
    var r := Trim(s);
    assert TrimStart(r) == r;
    assert TrimEnd(r) == r;
  }

  /** Trim yields the empty string exactly for all-white-space input. */
  lemma TrimEmpty(s: string)
    ensures Trim(s) == "" <==> forall k :: 0 <= k < |s| ==> IsWhiteSpace(s[k])
  {
    if Trim(s) == "" {
      var i :| 0 <= i <= |s| && InfixAt(s, "", i);
      forall k | 0 <= k < |s| ensures IsWhiteSpace(s[k]) {
        if k < i { } else { }
      }
    }
  }

  /** `toLowerCase` on one character; only the ASCII letters are mapped in this model. */
  function LowerChar(c: char): (l: char)
    ensures !('A' <= l <= 'Z')
    ensures !('A' <= c <= 'Z') ==> l == c
  {
    if 'A' <= c <= 'Z' then (c as int + 32) as char else c
  }

  /** `s.toLowerCase()`, character by character. */
  function ToLower(s: string): (r: string)
    ensures |r| == |s|
    ensures forall i :: 0 <= i < |s| ==> r[i] == LowerChar(s[i])
  {
    if s == [] then [] else [LowerChar(s[0])] + ToLower(s[1..])
  }

  /** Lower-casing is idempotent and keeps the empty string, and only the empty string, empty. */
  lemma ToLowerIdempotent(s: string)
    ensures ToLower(ToLower(s)) == ToLower(s)
    ensures ToLower(s) == "" <==> s == ""
  {
  }
}
