/**
 * The slice of JavaScript's value model that the portfolio pipeline relies on:
 * loosely typed values as JSON.parse produces them, truthiness, nullish
 * coalescing, property reads, and the String and Number conversions, together
 * with the string helpers (trim, toUpperCase, split on a character) the
 * pipeline calls. Numbers are modelled over `real`; a double's rounding is not.
 */
module Js {

  datatype Option<T> = None | Some(value: T)

  /** A JavaScript number: a finite value, or one of the three non-finite ones. */
  datatype Num = Finite(value: real) | NaN | PosInfinity | NegInfinity

  /**
   * A loosely typed value (TypeScript's `unknown`). A number carries the text
   * that `String(n)` gives for it: the shortest round-trip decimal of a double
   * is not something this model computes, so it is part of the value.
   * Object property order is not modelled.
   */
  datatype JsValue =
    | Undefined
    | Null
    | Bool(b: bool)
    | Number(n: Num, text: string)
    | Str(s: string)
    | Arr(items: seq<JsValue>)
    | Obj(props: map<string, JsValue>)

  predicate IsNullish(v: JsValue) { v.Undefined? || v.Null? }

  /** `a ?? b` */
  function Coalesce(a: JsValue, b: JsValue): (r: JsValue)
    ensures !IsNullish(a) ==> r == a
    ensures IsNullish(a) ==> r == b
  {
    if IsNullish(a) then b else a
  }

  /** Boolean(v): the falsy values are undefined, null, false, 0, NaN and "". */
  predicate Truthy(v: JsValue)
  {
    || IsObject(v)
    || (v.Bool? && v.b)
    || (v.Number? && !(v.n.NaN? || (v.n.Finite? && v.n.value == 0.0)))
    || (v.Str? && v.s != "")
  }

  /** `typeof v === "object"` for a value that is not null. */
  predicate IsObject(v: JsValue) { v.Arr? || v.Obj? }

  /**
   * `key in v` for an object. The pipeline only asks for fixed names that are
   * neither "length" nor an array index, so an array carries none of them.
   */
  predicate HasProp(v: JsValue, key: string)
  {
    v.Obj? && key in v.props
  }

  /** `v[key]` on an object; undefined when there is no such property. */
  function Prop(v: JsValue, key: string): (r: JsValue)
    ensures HasProp(v, key) ==> r == v.props[key]
    ensures !HasProp(v, key) ==> r == Undefined
  {
    if HasProp(v, key) then v.props[key] else Undefined
  }

  // ---------------------------------------------------------------------------
  // Characters and strings

  predicate IsDigit(c: char) { '0' <= c <= '9' }

  /** WhiteSpace and LineTerminator code points, the ones String.prototype.trim strips. */
  predicate IsWhitespace(c: char)
  {
    c == '\t' || c == '\n' || c == '\U{B}' || c == '\U{C}' || c == '\r' || c == ' ' ||
    c == '\U{A0}' || c == '\U{1680}' || ('\U{2000}' <= c <= '\U{200A}') ||
    c == '\U{2028}' || c == '\U{2029}' || c == '\U{202F}' || c == '\U{205F}' ||
    c == '\U{3000}' || c == '\U{FEFF}'
  }

  function TrimStart(s: string): (r: string)
    ensures |r| <= |s| && r == s[|s| - |r|..]
    ensures r == [] || !IsWhitespace(r[0])
  {
    if s != [] && IsWhitespace(s[0]) then TrimStart(s[1..]) else s
  }

  function TrimEnd(s: string): (r: string)
    ensures |r| <= |s| && r == s[..|r|]
    ensures r == [] || !IsWhitespace(r[|r| - 1])
  {
    if s != [] && IsWhitespace(s[|s| - 1]) then TrimEnd(s[..|s| - 1]) else s
  }

  /** String.prototype.trim */
  function Trim(s: string): (r: string)
    ensures r == [] || (!IsWhitespace(r[0]) && !IsWhitespace(r[|r| - 1]))
  {
    TrimEnd(TrimStart(s))
  }

  lemma TrimIdempotent(s: string)
    ensures Trim(Trim(s)) == Trim(s)
  {
    var t := Trim(s);
    assert TrimStart(t) == t;
    assert TrimEnd(t) == t;
  }

  /** Only the two ends are inspected: a string that starts and ends with a non-space is its own trim. */
  lemma TrimUnpadded(s: string)
    requires s == [] || (!IsWhitespace(s[0]) && !IsWhitespace(s[|s| - 1]))
    ensures Trim(s) == s
  {
    assert TrimStart(s) == s;
  }

  /** The ASCII part of the upper-case mapping. */
  function UpperChar(c: char): char
  {
    if 'a' <= c <= 'z' then (c as int - 'a' as int + 'A' as int) as char else c
  }

  function LowerChar(c: char): char
  {
    if 'A' <= c <= 'Z' then (c as int - 'A' as int + 'a' as int) as char else c
  }

  /** String.prototype.toUpperCase, on ASCII letters. */
  function ToUpper(s: string): (r: string)
    ensures |r| == |s| && forall i :: 0 <= i < |s| ==> r[i] == UpperChar(s[i])
  {
    seq(|s|, i requires 0 <= i < |s| => UpperChar(s[i]))
  }

  /** String.prototype.toLowerCase, on ASCII letters. */
  function ToLower(s: string): (r: string)
    ensures |r| == |s| && forall i :: 0 <= i < |s| ==> r[i] == LowerChar(s[i])
  {
    seq(|s|, i requires 0 <= i < |s| => LowerChar(s[i]))
  }

  lemma UpperOfLower(s: string)
    ensures ToUpper(ToLower(s)) == ToUpper(s)
  {
  }

  predicate EndsWith(s: string, suffix: string)
  {
    |suffix| <= |s| && s[|s| - |suffix|..] == suffix
  }

  /** `sub` occurs in `s` starting at index i. */
  predicate OccursAt(s: string, sub: string, i: int)
  {
    0 <= i <= |s| - |sub| && s[i..i + |sub|] == sub
  }

  /** `s.includes(sub)`, searched from the left. */
  predicate Includes(s: string, sub: string): (b: bool)
    ensures b <==> exists i :: OccursAt(s, sub, i)
  {
    if |sub| <= |s| && s[..|sub|] == sub then
      assert OccursAt(s, sub, 0);
      true
    else if s == [] then
      false
    else
      OccursInTail(s, sub);
      Includes(s[1..], sub)
  }

  /** An occurrence in a non-empty s is at index 0 or is an occurrence in s[1..], one place to the right. */
  lemma OccursInTail(s: string, sub: string)
    requires s != []
    ensures (exists i :: OccursAt(s, sub, i)) <==> OccursAt(s, sub, 0) || exists i :: OccursAt(s[1..], sub, i)
  {
    forall i | OccursAt(s[1..], sub, i)
      ensures OccursAt(s, sub, i + 1)
    {
      assert s[1..][i..i + |sub|] == s[i + 1..i + 1 + |sub|];
    }
    forall i | OccursAt(s, sub, i) && i >= 1
      ensures OccursAt(s[1..], sub, i - 1)
    {
      assert s[1..][i - 1..i - 1 + |sub|] == s[i..i + |sub|];
    }
  }

  /** `s.split(sep)[0]`: the text before the first `sep`, or all of `s`. */
  function BeforeFirst(s: string, sep: char): (r: string)
    ensures sep !in r
    ensures |r| <= |s| && r == s[..|r|]
    ensures |r| < |s| ==> s[|r|] == sep
  {
    if s == [] || s[0] == sep then [] else [s[0]] + BeforeFirst(s[1..], sep)
  }

  /** A prefix one longer is the shorter prefix and one more element. */
  lemma PrefixSnoc<T>(s: seq<T>, i: nat)
    requires i < |s|
    ensures s[..i + 1] == s[..i] + [s[i]]
  {
  }

  /** The index of the first occurrence of x in s. */
  function FirstIndex<T(==)>(s: seq<T>, x: T): (i: nat)
    requires x in s
    ensures i < |s| && s[i] == x && x !in s[..i]
  {
    if s[0] == x then 0
    else
      var i := FirstIndex(s[1..], x);
      assert s[..i + 1] == [s[0]] + s[1..][..i];
      i + 1
  }

  /** Any index that holds x with no x before it is the first index. */
  lemma FirstIndexUnique<T>(s: seq<T>, x: T, i: nat)
    requires i < |s| && s[i] == x && x !in s[..i]
    ensures FirstIndex(s, x) == i
  {
  }

  /** Appending elements does not move a first occurrence. */
  lemma FirstIndexOfPrefix<T>(s: seq<T>, x: T, n: nat)
    requires n <= |s| && x in s[..n]
    ensures x in s && FirstIndex(s, x) == FirstIndex(s[..n], x)
  {
    var f := FirstIndex(s[..n], x);
    assert s[..n][..f] == s[..f];
    FirstIndexUnique(s, x, f);
  }

  /** Every element of u occurs in s, and u lists them in the order of their first occurrences in s. */
  predicate InFirstOccurrenceOrder<T(==)>(u: seq<T>, s: seq<T>)
  {
    && (forall i :: 0 <= i < |u| ==> u[i] in s)
    && (forall j, k :: 0 <= j < k < |u| ==> FirstIndex(s, u[j]) < FirstIndex(s, u[k]))
  }

  /**
   * One more element of s keeps u in order, and an element seen for the first
   * time may be appended to u.
   */
  lemma FirstOccurrenceOrderStep<T>(u: seq<T>, s: seq<T>, x: T)
    requires InFirstOccurrenceOrder(u, s)
    ensures InFirstOccurrenceOrder(u, s + [x])
    ensures x !in s ==> InFirstOccurrenceOrder(u + [x], s + [x])
  {
    var s' := s + [x];
    assert s'[..|s|] == s;
    forall i | 0 <= i < |u|
      ensures u[i] in s' && FirstIndex(s', u[i]) == FirstIndex(s, u[i])
    {
      FirstIndexOfPrefix(s', u[i], |s|);
    }
    if x !in s {
      FirstIndexUnique(s', x, |s|);
      var u' := u + [x];
      forall j, k | 0 <= j < k < |u'|
        ensures FirstIndex(s', u'[j]) < FirstIndex(s', u'[k])
      {
        if k == |u| {
          assert u'[j] == u[j];
        } else {
          assert u'[j] == u[j] && u'[k] == u[k];
        }
      }
    }
  }

  /** The text before the first "." of b + "." + rest is b, when b has no ".". */
  lemma {:induction false} BeforeFirstOfDotted(b: string, rest: string)
    requires '.' !in b
    ensures BeforeFirst(b + "." + rest, '.') == b
    decreases |b|
  {
    if b != [] {
      assert (b + "." + rest)[1..] == b[1..] + "." + rest;
      BeforeFirstOfDotted(b[1..], rest);
    }
  }

  /** `s.split(sep)[1]`: the piece after the first `sep`; undefined when there is none. */
  function SecondPiece(s: string, sep: char): (r: Option<string>)
    ensures r.None? <==> sep !in s
  {
    var head := BeforeFirst(s, sep);
    if |head| == |s| then None else Some(BeforeFirst(s[|head| + 1..], sep))
  }

  // ---------------------------------------------------------------------------
  // Integers as decimal text

  function DigitChar(d: nat): char
    requires d < 10
  {
    ('0' as int + d) as char
  }

  /** Decimal text of a natural number, without leading zeros. */
  function NatText(n: nat): (r: string)
    ensures |r| >= 1
    ensures forall i :: 0 <= i < |r| ==> IsDigit(r[i])
    decreases n
  {
    if n < 10 then [DigitChar(n)] else NatText(n / 10) + [DigitChar(n % 10)]
  }

  /** `String(k)` for an integer k. */
  function IntText(k: int): (r: string)
  {
    if k < 0 then "-" + NatText(-k) else NatText(k)
  }

  /** Math.trunc on a finite value: round toward zero. */
  function Trunc(r: real): (k: int)
    ensures r >= 0.0 ==> k as real <= r < k as real + 1.0
    ensures r < 0.0 ==> k as real - 1.0 < r <= k as real
  {
    if r >= 0.0 then r.Floor else -((-r).Floor)
  }

  // ---------------------------------------------------------------------------
  // String(v) and Number(v)

  function Join(parts: seq<string>): string
  {
    if parts == [] then "" else if |parts| == 1 then parts[0] else parts[0] + "," + Join(parts[1..])
  }

  /** `String(v)`; an array is joined with "," and a nullish element reads as "". */
  function ToJsString(v: JsValue): string
    decreases v
  {
    match v
    case Undefined => "undefined"
    case Null => "null"
    case Bool(b) => if b then "true" else "false"
    case Number(_, text) => text
    case Str(s) => s
    case Obj(_) => "[object Object]"
    case Arr(items) =>
      Join(seq(|items|, i requires 0 <= i < |items| =>
        if IsNullish(items[i]) then "" else ToJsString(items[i])))
  }

  function HexDigitValue(c: char): nat
  {
    if '0' <= c <= '9' then c as nat - '0' as nat
    else if 'a' <= c <= 'f' then c as nat - 'a' as nat + 10
    else if 'A' <= c <= 'F' then c as nat - 'A' as nat + 10
    else 16
  }

  predicate AllDigitsOf(s: string, radix: nat)
  {
    forall i :: 0 <= i < |s| ==> HexDigitValue(s[i]) < radix
  }

  function RadixValue(s: string, radix: nat): nat
  {
    if s == [] then 0 else RadixValue(s[..|s| - 1], radix) * radix + HexDigitValue(s[|s| - 1])
  }

  function Pow10(e: nat): (r: nat)
    ensures r >= 1
  {
    if e == 0 then 1 else 10 * Pow10(e - 1)
  }

  /** The first index of `c` or `e` in s, or |s|. */
  function ExponentStart(s: string): (k: nat)
    ensures k <= |s|
    ensures forall i :: 0 <= i < k ==> s[i] != 'e' && s[i] != 'E'
    ensures k < |s| ==> s[k] == 'e' || s[k] == 'E'
  {
    if s == [] || s[0] == 'e' || s[0] == 'E' then 0 else 1 + ExponentStart(s[1..])
  }

  /** An unsigned mantissa `digits [. digits]` or `. digits`, with at least one digit. */
  function MantissaValue(m: string): Option<real>
  {
    var intPart := BeforeFirst(m, '.');
    var rest := if |intPart| < |m| then m[|intPart| + 1..] else "";
    if AllDigitsOf(intPart, 10) && AllDigitsOf(rest, 10) && |intPart| + |rest| > 0 then
      Some(RadixValue(intPart, 10) as real + RadixValue(rest, 10) as real / Pow10(|rest|) as real)
    else
      None
  }

  /** A signed exponent `[+-] digits`. */
  function ExponentValue(e: string): Option<int>
  {
    if e != [] && (e[0] == '+' || e[0] == '-') then
      var digits := e[1..];
      if digits != [] && AllDigitsOf(digits, 10) then
        Some(if e[0] == '-' then -(RadixValue(digits, 10) as int) else RadixValue(digits, 10) as int)
      else None
    else if e != [] && AllDigitsOf(e, 10) then Some(RadixValue(e, 10) as int)
    else None
  }

  function Scale(x: real, e: int): real
    decreases if e < 0 then -e else e
  {
    if e == 0 then x else if e > 0 then Scale(x * 10.0, e - 1) else Scale(x / 10.0, e + 1)
  }

  /** StrUnsignedDecimalLiteral: a mantissa and an optional exponent, or Infinity. */
  function UnsignedDecimal(body: string): Num
  {
    if body == "Infinity" then PosInfinity
    else
      var k := ExponentStart(body);
      match MantissaValue(body[..k])
      case None => NaN
      case Some(m) =>
        if k == |body| then Finite(m)
        else match ExponentValue(body[k + 1..])
          case None => NaN
          case Some(e) => Finite(Scale(m, e))
  }

  function Negate(n: Num): Num
  {
    match n
    case Finite(x) => Finite(-x)
    case NaN => NaN
    case PosInfinity => NegInfinity
    case NegInfinity => PosInfinity
  }

  /** Number(s) for a string (StringNumericLiteral). */
  function StringToNumber(s: string): Num
  {
    var t := Trim(s);
    if t == "" then Finite(0.0)
    else if |t| > 2 && t[0] == '0' && (t[1] == 'x' || t[1] == 'X' || t[1] == 'o' || t[1] == 'O' || t[1] == 'b' || t[1] == 'B') then
      var radix := if t[1] == 'x' || t[1] == 'X' then 16 else if t[1] == 'o' || t[1] == 'O' then 8 else 2;
      if AllDigitsOf(t[2..], radix) then Finite(RadixValue(t[2..], radix) as real) else NaN
    else if t[0] == '-' then Negate(UnsignedDecimal(t[1..]))
    else if t[0] == '+' then UnsignedDecimal(t[1..])
    else UnsignedDecimal(t)
  }

  /** Number(v); an array or an object is first turned into its string. */
  function ToNumber(v: JsValue): Num
  {
    match v
    case Undefined => NaN
    case Null => Finite(0.0)
    case Bool(b) => Finite(if b then 1.0 else 0.0)
    case Number(n, _) => n
    case Str(s) => StringToNumber(s)
    case Arr(_) => StringToNumber(ToJsString(v))
    case Obj(_) => StringToNumber(ToJsString(v))
  }
}
