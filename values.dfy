/** JavaScript values as the pages and the relay see them after JSON parsing,
    with the few language rules the handlers rely on: truthiness, property
    access, `||`, `startsWith`, `trim` and `parseInt`. */
module Values {

  datatype Option<+T> = None | Some(value: T)

  /** A JSON value, plus `undefined` (what reading a missing property gives).
      Numbers are integers: the handlers never compute with fractions. */
  datatype Value =
    | Undefined
    | Null
    | Bool(b: bool)
    | Num(n: int)
    | Str(s: string)
    | Arr(items: seq<Value>)
    | Obj(fields: map<string, Value>)

  /** JavaScript truthiness: what `if (v)` and `!v` test. */
  predicate Truthy(v: Value) {
    match v
    case Undefined => false
    case Null => false
    case Bool(b) => b
    case Num(n) => n != 0
    case Str(s) => s != ""
    case Arr(_) => true
    case Obj(_) => true
  }

  predicate Nullish(v: Value) {
    v.Undefined? || v.Null?
  }

  /** `a || b` */
  function Or(a: Value, b: Value): (r: Value)
    ensures Truthy(r) <==> Truthy(a) || Truthy(b)
    ensures Truthy(a) ==> r == a
  {
    if Truthy(a) then a else b
  }

  /** `v.k` on a value that is neither null nor undefined: an own property of
      an object, and `undefined` otherwise (none of the property names the
      handlers read exists on strings, numbers, booleans or arrays). */
  function Get(v: Value, k: string): Value {
    if v.Obj? && k in v.fields then v.fields[k] else Undefined
  }

  /** `v.k`, where `None` is the TypeError thrown when `v` is null or undefined. */
  function Field(v: Value, k: string): (r: Option<Value>)
    ensures r.None? <==> Nullish(v)
    ensures r.Some? ==> r.value == Get(v, k)
  {
    if Nullish(v) then None else Some(Get(v, k))
  }

  /** A one-property object literal `{k: v}`. */
  function Object1(k: string, v: Value): Value {
    Obj(map[k := v])
  }

  /** `s.startsWith(prefix)` */
  predicate StartsWith(s: string, prefix: string) {
    |prefix| <= |s| && s[..|prefix|] == prefix
  }

  // ---------------------------------------------------------------------
  // Whitespace, trim

  /** The ECMAScript WhiteSpace and LineTerminator code points: what `trim`
      removes and what `parseInt` skips. */
  predicate IsSpace(c: char) {
    c == '\t' || c == '\n' || c == '\U{000B}' || c == '\U{000C}' || c == '\r' || c == ' '
    || c == '\U{00A0}' || c == '\U{1680}' || ('\U{2000}' <= c <= '\U{200A}')
    || c == '\U{2028}' || c == '\U{2029}' || c == '\U{202F}' || c == '\U{205F}'
    || c == '\U{3000}' || c == '\U{FEFF}'
  }

  /** The number of whitespace characters at the start of `s`. */
  function LeadingSpace(s: string): (n: nat)
    ensures n <= |s|
    ensures forall i | 0 <= i < n :: IsSpace(s[i])
    ensures n < |s| ==> !IsSpace(s[n])
  {
    if s == [] || !IsSpace(s[0]) then 0 else 1 + LeadingSpace(s[1..])
  }

  /** The number of whitespace characters at the end of `s`. */
  function TrailingSpace(s: string): (n: nat)
    ensures n <= |s|
    ensures forall i | |s| - n <= i < |s| :: IsSpace(s[i])
    ensures n < |s| ==> !IsSpace(s[|s| - n - 1])
  {
    if s == [] || !IsSpace(s[|s| - 1]) then 0 else 1 + TrailingSpace(s[..|s| - 1])
  }

  /** `s.trim()`: `s` without its leading and trailing whitespace. */
  function Trim(s: string): (t: string)
  {
    var a := LeadingSpace(s);
    var rest := s[a..];
    rest[..|rest| - TrailingSpace(rest)]
  }

  /** `trim` returns a slice of its input that neither starts nor ends with
      whitespace, and only whitespace is cut off on either side; it is empty
      exactly when the input is all whitespace. */
  lemma TrimProperties(s: string)
    ensures var t := Trim(s);
      && (exists a, b :: 0 <= a <= b <= |s| && t == s[a..b]
            && (forall i | 0 <= i < a :: IsSpace(s[i])) && (forall i | b <= i < |s| :: IsSpace(s[i])))
      && (t != [] ==> !IsSpace(t[0]) && !IsSpace(t[|t| - 1]))
      && (t == [] <==> forall i | 0 <= i < |s| :: IsSpace(s[i]))
  {
    var a := LeadingSpace(s);
    var rest := s[a..];
    var m := TrailingSpace(rest);
    var t := Trim(s);
    var b := a + |rest| - m;
    assert t == s[a..b];
    forall i | b <= i < |s| ensures IsSpace(s[i]) {
      assert s[i] == rest[i - a];
    }
    if t == [] {
      assert a == |s|;
    } else {
      assert t[0] == rest[0];
      assert t[|t| - 1] == rest[|rest| - m - 1];
      assert !IsSpace(s[a]);
    }
  }

  // ---------------------------------------------------------------------
  // Math.min and Math.max

  function Min(a: nat, b: nat): nat {
    if a <= b then a else b
  }

  function MinReal(a: real, b: real): real {
    if a <= b then a else b
  }

  function MaxReal(a: real, b: real): real {
    if a >= b then a else b
  }

  // ---------------------------------------------------------------------
  // parseInt

  /** A JavaScript number as `parseInt` returns it. */
  datatype Number = NaN | Finite(i: int)

  predicate IsDigit(c: char) {
    '0' <= c <= '9'
  }

  /** The number of decimal digits at the start of `s`. */
  function DigitRun(s: string): (n: nat)
    ensures n <= |s|
    ensures forall i | 0 <= i < n :: IsDigit(s[i])
    ensures n < |s| ==> !IsDigit(s[n])
  {
    if s == [] || !IsDigit(s[0]) then 0 else 1 + DigitRun(s[1..])
  }

  function DigitValue(c: char): nat
    requires IsDigit(c)
  {
    c as int - '0' as int
  }

  /** The value of a string of decimal digits, most significant first. */
  function DigitsValue(d: string): nat
    requires forall i | 0 <= i < |d| :: IsDigit(d[i])
  {
    if d == [] then 0
    else 10 * DigitsValue(d[..|d| - 1]) + DigitValue(d[|d| - 1])
  }

  /** `parseInt(s)` with no radix, for decimal text: skip leading whitespace,
      take an optional sign, then the longest run of digits. */
  function ParseIntString(s: string): Number {
    var t := s[LeadingSpace(s)..];
    var negative := t != [] && t[0] == '-';
    var u := if t != [] && (t[0] == '-' || t[0] == '+') then t[1..] else t;
    var n := DigitRun(u);
    if n == 0 then NaN
    else Finite(if negative then 0 - DigitsValue(u[..n]) else DigitsValue(u[..n]))
  }

  /** `parseInt(v)` reads the text of `v`: numbers are kept and strings are
      parsed. An array's text is its items joined by ",", so the parse stops
      inside the first item's text at the latest: it reads what that item
      reads, and an empty array ("") reads nothing. The text of every other
      value ("true", "null", "[object Object]", ...) is no number. */
  function ParseInt(v: Value): Number {
    match v
    case Num(n) => Finite(n)
    case Str(s) => ParseIntString(s)
    case Arr(items) => if items == [] then NaN else ParseInt(items[0])
    case _ => NaN
  }

  /** `parseInt` reads a CSS length such as "48px" as its digits. */
  lemma ParseIntReadsLeadingDigits(d: string, rest: string)
    requires d != [] && forall i | 0 <= i < |d| :: IsDigit(d[i])
    requires rest == [] || !IsDigit(rest[0])
    ensures ParseInt(Str(d + rest)) == Finite(DigitsValue(d))
  {
    var s := d + rest;
    assert !IsSpace(s[0]) by { assert s[0] == d[0]; }
    assert LeadingSpace(s) == 0;
    assert s[0..] == s;
    DigitRunOfDigits(d, rest);
    assert s[..|d|] == d;
  }

  lemma {:induction false} DigitRunOfDigits(d: string, rest: string)
    requires forall i | 0 <= i < |d| :: IsDigit(d[i])
    requires rest == [] || !IsDigit(rest[0])
    ensures DigitRun(d + rest) == |d|
  {
    if d == [] {
      assert d + rest == rest;
    } else {
      assert (d + rest)[1..] == d[1..] + rest;
      DigitRunOfDigits(d[1..], rest);
    }
  }
}
