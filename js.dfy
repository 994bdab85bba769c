/**
 * The pieces of JavaScript's built-in behaviour that the admin routes rely on:
 * truthiness (what `||`, `&&` and `!` test), property access, `Array.prototype.join`,
 * `String.prototype.replace` with a global one-character pattern, the decimal
 * rendering of integers in template literals, `Boolean.prototype.toString`, the
 * global `parseInt` and `FormData.get` / `URLSearchParams.get`.
 */
module Js {
  import opened Wrappers

  /** A JavaScript number as these routes produce it: an integer, or NaN from `parseInt`. */
  datatype Number = NaN | Int(value: int)

  /** A JavaScript value as it arrives from `JSON.parse` or `request.json()`. */
  datatype JsValue =
    | Undefined
    | Null
    | Bool(b: bool)
    | Num(n: Number)
    | Str(s: string)
    | Arr(items: seq<JsValue>)
    | Obj(props: map<string, JsValue>)

  /** ToBoolean(v) is false: exactly undefined, null, false, NaN, 0 and the empty string. */
  predicate Falsy(v: JsValue) {
    match v
    case Undefined => true
    case Null => true
    case Bool(b) => !b
    case Num(n) => n == NaN || n == Int(0)
    case Str(s) => s == ""
    case Arr(_) => false
    case Obj(_) => false
  }

  /** Property access `o[name]`: undefined when `o` is not an object or lacks the key. */
  function Prop(o: JsValue, name: string): (r: JsValue)
    ensures !o.Obj? ==> r == Undefined
    ensures o.Obj? && name in o.props ==> r == o.props[name]
    ensures o.Obj? && name !in o.props ==> r == Undefined
  {
    if o.Obj? && name in o.props then o.props[name] else Undefined
  }

  /** `parts.join(sep)` over strings. */
  function Join(parts: seq<string>, sep: string): (r: string)
    ensures |parts| == 1 ==> r == parts[0]
    ensures r == "" <==> (forall i :: 0 <= i < |parts| ==> parts[i] == "") && (|parts| <= 1 || sep == "")
    decreases |parts|
  {
    if |parts| == 0 then ""
    else if |parts| == 1 then parts[0]
    else
      var init := parts[..|parts| - 1];
      assert forall i :: 0 <= i < |init| ==> init[i] == parts[i];
      Join(init, sep) + sep + parts[|parts| - 1]
  }

  /** Joining one more part appends the separator and that part. */
  lemma JoinSnoc(parts: seq<string>, sep: string, p: string)
    requires |parts| > 0
    ensures Join(parts + [p], sep) == Join(parts, sep) + sep + p
  {
    assert (parts + [p])[..|parts|] == parts;
  }

  /** `s.replace(/c/g, d)` for a one-character pattern `c`. */
  function ReplaceAll(s: string, from: char, to: char): (r: string)
    ensures |r| == |s|
    ensures forall i :: 0 <= i < |s| ==> r[i] == (if s[i] == from then to else s[i])
    ensures from != to ==> from !in r
  {
    if s == [] then [] else [if s[0] == from then to else s[0]] + ReplaceAll(s[1..], from, to)
  }

  predicate IsDigit(c: char) {
    '0' <= c <= '9'
  }

  predicate AllDigits(s: string) {
    forall i :: 0 <= i < |s| ==> IsDigit(s[i])
  }

  function DigitChar(d: nat): (c: char)
    requires d < 10
    ensures IsDigit(c)
  {
    ('0' as int + d) as char
  }

  function DigitValue(c: char): (d: nat)
    requires IsDigit(c)
    ensures d < 10 && DigitChar(d) == c
  {
    c as int - '0' as int
  }

  /** The decimal rendering of a natural number, most significant digit first. */
  function NatToString(n: nat): (r: string)
    ensures |r| >= 1 && AllDigits(r)
    ensures r[0] == '0' ==> n == 0
  {
    if n < 10 then [DigitChar(n)] else NatToString(n / 10) + [DigitChar(n % 10)]
  }

  /** `String(i)` / `${i}` for an integer-valued number. */
  function IntToString(i: int): (r: string)
    ensures |r| >= 1
    ensures i < 0 <==> r[0] == '-'
  {
    if i < 0 then "-" + NatToString(-i) else NatToString(i)
  }

  /** The value of a string of decimal digits. */
  function DigitsValue(ds: string): nat
    requires AllDigits(ds)
    decreases |ds|
  {
    if ds == [] then 0 else DigitsValue(ds[..|ds| - 1]) * 10 + DigitValue(ds[|ds| - 1])
  }

  /** Reading back the decimal rendering gives the number. */
  lemma {:induction false} DigitsValueOfNatToString(n: nat)
    ensures DigitsValue(NatToString(n)) == n
  {
    if n >= 10 {
      DigitsValueOfNatToString(n / 10);
      var s := NatToString(n / 10) + [DigitChar(n % 10)];
      assert s[..|s| - 1] == NatToString(n / 10);
    }
  }

  /** The longest prefix of `s` made of decimal digits. */
  function LeadingDigits(s: string): (r: string)
    ensures r <= s && AllDigits(r)
    ensures |r| < |s| ==> !IsDigit(s[|r|])
  {
    if s != [] && IsDigit(s[0]) then [s[0]] + LeadingDigits(s[1..]) else []
  }

  /** A run of digits followed by a non-digit (or nothing) has exactly that run as its leading digits. */
  lemma {:induction false} LeadingDigitsOfDigitsThen(ds: string, rest: string)
    requires AllDigits(ds)
    requires rest == [] || !IsDigit(rest[0])
    ensures LeadingDigits(ds + rest) == ds
  {
    if ds != [] {
      assert (ds + rest)[1..] == ds[1..] + rest;
      LeadingDigitsOfDigitsThen(ds[1..], rest);
    }
  }

  /** ECMAScript StrWhiteSpaceChar: the white space and line terminators `parseInt` skips. */
  predicate IsWhitespace(c: char) {
    c == '\t' || c == '\n' || c == '\U{B}' || c == '\U{C}' || c == '\r' || c == ' '
    || c == '\U{A0}' || c == '\U{1680}' || ('\U{2000}' <= c <= '\U{200A}')
    || c == '\U{2028}' || c == '\U{2029}' || c == '\U{202F}' || c == '\U{205F}'
    || c == '\U{3000}' || c == '\U{FEFF}'
  }

  /** `s` without its leading white space. */
  function TrimStart(s: string): (r: string)
    ensures |r| <= |s| && r == s[|s| - |r|..]
    ensures forall i :: 0 <= i < |s| - |r| ==> IsWhitespace(s[i])
    ensures r != [] ==> !IsWhitespace(r[0])
  {
    if s != [] && IsWhitespace(s[0]) then TrimStart(s[1..]) else s
  }

  /**
   * The global `parseInt(raw)` with no radix: skip leading white space, take an optional
   * sign, then the longest run of decimal digits; NaN when that run is empty.
   */
  function ParseInt(raw: string): Number {
    ParseSigned(TrimStart(raw))
  }

  /** `parseInt` on text that starts after the white space. */
  function ParseSigned(t: string): Number {
    if t != [] && t[0] == '-' then Negate(ParseDigits(t[1..]))
    else if t != [] && t[0] == '+' then ParseDigits(t[1..])
    else ParseDigits(t)
  }

  /** The value of the leading digits of `u`, or NaN when it does not start with a digit. */
  function ParseDigits(u: string): (r: Number)
    ensures r == NaN <==> (u == [] || !IsDigit(u[0]))
  {
    var ds := LeadingDigits(u);
    if ds == [] then NaN else Int(DigitsValue(ds))
  }

  function Negate(n: Number): Number {
    match n
    case NaN => NaN
    case Int(v) => Int(-v)
  }

  /**
   * `parseInt` reads back the decimal rendering of every integer, whatever follows it,
   * provided what follows does not start with a digit.
   */
  lemma ParseIntOfIntToString(i: int, rest: string)
    requires rest == [] || !IsDigit(rest[0])
    ensures ParseInt(IntToString(i) + rest) == Int(i)
  {
    if i < 0 {
      ParseNegative(i, rest);
    } else {
      ParseNonNegative(i, rest);
    }
  }

  lemma ParseNonNegative(i: int, rest: string)
    requires i >= 0
    requires rest == [] || !IsDigit(rest[0])
    ensures ParseInt(IntToString(i) + rest) == Int(i)
  {
    var s := NatToString(i) + rest;
    assert IntToString(i) + rest == s;
    ParseDigitsOfNatToString(i, rest);
    assert s[0] == NatToString(i)[0];
    TrimStartNoop(s);
  }

  lemma ParseNegative(i: int, rest: string)
    requires i < 0
    requires rest == [] || !IsDigit(rest[0])
    ensures ParseInt(IntToString(i) + rest) == Int(i)
  {
    var n: nat := -i;
    var u := NatToString(n) + rest;
    ParseDigitsOfNatToString(n, rest);
    NegativeText(i, rest);
    ParseMinus(IntToString(i) + rest, u, n);
  }

  /** The rendering of a negative number is a minus sign before that of its magnitude. */
  lemma NegativeText(i: int, rest: string)
    requires i < 0
    ensures IntToString(i) + rest != [] && (IntToString(i) + rest)[0] == '-'
    ensures (IntToString(i) + rest)[1..] == NatToString(-i) + rest
  {
    var s := IntToString(i) + rest;
    assert s == "-" + (NatToString(-i) + rest);
  }

  /** `parseInt` of a minus sign followed by digits worth `m` gives `-m`. */
  lemma ParseMinus(s: string, u: string, m: int)
    requires s != [] && s[0] == '-' && s[1..] == u
    requires ParseDigits(u) == Int(m)
    ensures ParseInt(s) == Int(-m)
  {
    TrimStartNoop(s);
  }

  lemma ParseDigitsOfNatToString(n: nat, rest: string)
    requires rest == [] || !IsDigit(rest[0])
    ensures ParseDigits(NatToString(n) + rest) == Int(n)
  {
    LeadingDigitsOfDigitsThen(NatToString(n), rest);
    DigitsValueOfNatToString(n);
  }

  lemma TrimStartNoop(s: string)
    requires s != [] && (s[0] == '-' || IsDigit(s[0]))
    ensures TrimStart(s) == s
  {
  }

  /** Text with no decimal digit at all parses to NaN. */
  lemma ParseIntWithoutDigits(raw: string)
    requires forall i :: 0 <= i < |raw| ==> !IsDigit(raw[i])
    ensures ParseInt(raw) == NaN
  {
    var t := TrimStart(raw);
    if |t| > 1 {
      assert t[1] == raw[|raw| - |t| + 1];
    }
  }

  /** `b.toString()`. */
  function BoolToString(b: bool): (r: string)
    ensures r == "true" <==> b
    ensures r == "false" <==> !b
  {
    if b then "true" else "false"
  }

  /** `FormData.get(name)` / `URLSearchParams.get(name)`: the first value under `name`, or null. */
  function FormGet(form: seq<(string, string)>, name: string): Option<string> {
    if form == [] then None
    else if form[0].0 == name then Some(form[0].1)
    else FormGet(form[1..], name)
  }

  /**
   * `FormData.get(name)` is null exactly when no field is called `name`, and otherwise
   * the value of the first field that is.
   */
  lemma {:induction false} FormGetSpec(form: seq<(string, string)>, name: string)
    ensures FormGet(form, name).None? <==> forall i :: 0 <= i < |form| ==> form[i].0 != name
    ensures FormGet(form, name).Some? ==>
              exists i :: 0 <= i < |form| && form[i] == (name, FormGet(form, name).value)
                          && forall j :: 0 <= j < i ==> form[j].0 != name
  {
    if form != [] && form[0].0 != name {
      var r := FormGet(form[1..], name);
      FormGetSpec(form[1..], name);
      assert (forall i :: 0 <= i < |form[1..]| ==> form[1..][i].0 != name) ==> forall i :: 0 <= i < |form| ==> form[i].0 != name by {
        forall i | 0 <= i < |form| && i > 0 ensures form[i] == form[1..][i - 1] { }
      }
      if r.Some? {
        var k :| 0 <= k < |form[1..]| && form[1..][k] == (name, r.value)
                 && forall j :: 0 <= j < k ==> form[1..][j].0 != name;
        assert form[k + 1] == (name, r.value);
        forall j | 0 <= j < k + 1 ensures form[j].0 != name {
          if j > 0 { assert form[j] == form[1..][j - 1]; }
        }
      }
    }
  }

  /** The value of the first field called `name` is what `FormData.get(name)` returns. */
  lemma {:induction false} FormGetFirst(form: seq<(string, string)>, i: nat, name: string)
    requires i < |form| && form[i].0 == name
    requires forall j :: 0 <= j < i ==> form[j].0 != name
    ensures FormGet(form, name) == Some(form[i].1)
  {
    if i > 0 {
      assert form[0].0 != name;
      assert form[1..][i - 1] == form[i];
      FormGetFirst(form[1..], i - 1, name);
    }
  }

  /** With no field called `name`, `FormData.get(name)` is null. */
  lemma {:induction false} FormGetAbsent(form: seq<(string, string)>, name: string)
    requires forall j :: 0 <= j < |form| ==> form[j].0 != name
    ensures FormGet(form, name).None?
  {
    if form != [] {
      assert form[0].0 != name;
      FormGetAbsent(form[1..], name);
    }
  }
}
