/** The JavaScript built-ins the request validators rely on: `trim`,
    `toLowerCase`, `toUpperCase` and `Number(...)` coercion, over ASCII text,
    together with the JSON values a request body can carry. */
module Js {
  import opened Common

  /** A JSON value as it arrives in a request body or query. Numbers are
      integers (money in minor units, counts, percentages). */
  datatype JsValue =
    | Undefined
    | Null
    | Bool(b: bool)
    | Num(n: int)
    | Str(s: string)
    | Arr(items: seq<JsValue>)

  // ---------------------------------------------------------------- trim

  /** The whitespace `String.prototype.trim` removes, restricted to ASCII:
      tab, line feed, vertical tab, form feed, carriage return and space. */
  predicate IsSpace(c: char) {
    c == ' ' || '\t' <= c <= '\r'
  }

  /** `trimStart`: what is left after dropping the leading whitespace. */
  function TrimStart(s: string): (r: string)
    ensures |r| <= |s| && r == s[|s| - |r|..]
    ensures forall i :: 0 <= i < |s| - |r| ==> IsSpace(s[i])
    ensures r == [] || !IsSpace(r[0])
    decreases |s|
  {
    if s != [] && IsSpace(s[0]) then
      var r := TrimStart(s[1..]);
      assert s[1..][|s| - 1 - |r|..] == s[|s| - |r|..];
      r
    else s
  }

  /** `trimEnd`: what is left after dropping the trailing whitespace. */
  function TrimEnd(s: string): (r: string)
    ensures |r| <= |s| && r == s[..|r|]
    ensures forall i :: |r| <= i < |s| ==> IsSpace(s[i])
    ensures r == [] || !IsSpace(r[|r| - 1])
    decreases |s|
  {
    if s != [] && IsSpace(s[|s| - 1]) then
      var r := TrimEnd(s[..|s| - 1]);
      assert s[..|s| - 1][..|r|] == s[..|r|];
      r
    else s
  }

  /** The number of whitespace characters `trim` drops at the front. */
  function Leading(s: string): (a: nat)
    ensures a <= |s|
  {
    |s| - |TrimStart(s)|
  }

  /** `trim`: what is left of `s` once the leading and the trailing
      whitespace are dropped. Where that sits inside `s` is `TrimSlice`. */
  function Trim(s: string): (r: string)
    ensures |r| <= |s| - Leading(s)
    ensures r == [] || (!IsSpace(r[0]) && !IsSpace(r[|r| - 1]))
    ensures forall i :: 0 <= i < Leading(s) ==> IsSpace(s[i])
    ensures forall i :: Leading(s) + |r| <= i < |s| ==> IsSpace(s[i])
  {
    TrailingIsSpace(s);
    TrimEnd(TrimStart(s))
  }

  /** What `trimEnd` drops after `trimStart` is whitespace of `s`. */
  lemma TrailingIsSpace(s: string)
    ensures forall i :: Leading(s) + |TrimEnd(TrimStart(s))| <= i < |s| ==> IsSpace(s[i])
  {
    var t := TrimStart(s);
    var a := Leading(s);
    assert t == s[a..];
    forall i | a + |TrimEnd(t)| <= i < |s|
      ensures IsSpace(s[i])
    {
      assert s[i] == t[i - a];
    }
  }

  /** The trimmed text is the slice of `s` that starts after its leading
      whitespace. */
  lemma TrimSlice(s: string)
    ensures Trim(s) == s[Leading(s)..Leading(s) + |Trim(s)|]
  {
    var t := TrimStart(s);
    assert t == s[Leading(s)..];
    assert Trim(s) == t[..|Trim(s)|];
  }

  /** Trimming a string that is already trimmed changes nothing, so `trim`
      is idempotent. */
  lemma {:induction false} TrimIdempotent(s: string)
    ensures Trim(Trim(s)) == Trim(s)
  {
    var r := Trim(s);
    assert r == [] || !IsSpace(r[0]);
    assert TrimStart(r) == r;
    assert r == [] || !IsSpace(r[|r| - 1]);
    assert TrimEnd(r) == r;
  }

  /** `trim` yields the empty string exactly when the text is all whitespace. */
  lemma {:induction false} TrimEmptyIffBlank(s: string)
    ensures Trim(s) == [] <==> forall i :: 0 <= i < |s| ==> IsSpace(s[i])
  {
    var a := Leading(s);
    if Trim(s) != [] {
      TrimSlice(s);
      assert s[a] == Trim(s)[0];
    }
  }

  // ---------------------------------------------------------- letter case

  function LowerChar(c: char): char {
    if 'A' <= c <= 'Z' then (c as int + 32) as char else c
  }

  function UpperChar(c: char): char {
    if 'a' <= c <= 'z' then (c as int - 32) as char else c
  }

  /** `toLowerCase` on ASCII: every upper-case letter mapped, nothing else. */
  function ToLower(s: string): (r: string)
    ensures |r| == |s| && forall i :: 0 <= i < |s| ==> r[i] == LowerChar(s[i])
  {
    seq(|s|, i requires 0 <= i < |s| => LowerChar(s[i]))
  }

  /** `toUpperCase` on ASCII: every lower-case letter mapped, nothing else. */
  function ToUpper(s: string): (r: string)
    ensures |r| == |s| && forall i :: 0 <= i < |s| ==> r[i] == UpperChar(s[i])
  {
    seq(|s|, i requires 0 <= i < |s| => UpperChar(s[i]))
  }

  /** A lower-cased string has no upper-case letter, and lower-casing it
      again changes nothing. */
  lemma LowerIsLower(s: string)
    ensures forall i :: 0 <= i < |s| ==> !('A' <= ToLower(s)[i] <= 'Z')
    ensures ToLower(ToLower(s)) == ToLower(s)
  {
  }

  /** An upper-cased string has no lower-case letter, and upper-casing it
      again changes nothing. */
  lemma UpperIsUpper(s: string)
    ensures forall i :: 0 <= i < |s| ==> !('a' <= ToUpper(s)[i] <= 'z')
    ensures ToUpper(ToUpper(s)) == ToUpper(s)
  {
  }

  /** Case mapping keeps whitespace where it was, so it commutes with
      `trimStart`. */
  lemma {:induction false} TrimStartUpper(s: string)
    ensures TrimStart(ToUpper(s)) == ToUpper(TrimStart(s))
    decreases |s|
  {
    var u := ToUpper(s);
    if s != [] {
      assert u[0] == UpperChar(s[0]);
      assert IsSpace(u[0]) == IsSpace(s[0]);
    }
    if s != [] && IsSpace(s[0]) {
      assert u[1..] == ToUpper(s[1..]);
      TrimStartUpper(s[1..]);
    } else {
      assert TrimStart(s) == s && TrimStart(u) == u;
    }
  }

  lemma {:induction false} TrimEndUpper(s: string)
    ensures TrimEnd(ToUpper(s)) == ToUpper(TrimEnd(s))
    decreases |s|
  {
    var u := ToUpper(s);
    if s != [] {
      assert u[|s| - 1] == UpperChar(s[|s| - 1]);
      assert IsSpace(u[|s| - 1]) == IsSpace(s[|s| - 1]);
    }
    if s != [] && IsSpace(s[|s| - 1]) {
      assert u[..|s| - 1] == ToUpper(s[..|s| - 1]);
      TrimEndUpper(s[..|s| - 1]);
    } else {
      assert TrimEnd(s) == s && TrimEnd(u) == u;
    }
  }

  lemma {:induction false} TrimStartLower(s: string)
    ensures TrimStart(ToLower(s)) == ToLower(TrimStart(s))
    decreases |s|
  {
    var u := ToLower(s);
    if s != [] {
      assert u[0] == LowerChar(s[0]);
      assert IsSpace(u[0]) == IsSpace(s[0]);
    }
    if s != [] && IsSpace(s[0]) {
      assert u[1..] == ToLower(s[1..]);
      TrimStartLower(s[1..]);
    } else {
      assert TrimStart(s) == s && TrimStart(u) == u;
    }
  }

  lemma {:induction false} TrimEndLower(s: string)
    ensures TrimEnd(ToLower(s)) == ToLower(TrimEnd(s))
    decreases |s|
  {
    var u := ToLower(s);
    if s != [] {
      assert u[|s| - 1] == LowerChar(s[|s| - 1]);
      assert IsSpace(u[|s| - 1]) == IsSpace(s[|s| - 1]);
    }
    if s != [] && IsSpace(s[|s| - 1]) {
      assert u[..|s| - 1] == ToLower(s[..|s| - 1]);
      TrimEndLower(s[..|s| - 1]);
    } else {
      assert TrimEnd(s) == s && TrimEnd(u) == u;
    }
  }

  /** Trim-then-upper-case is a normal form: applying it to its own output
      gives the same text. */
  lemma {:induction false} TrimUpperIdempotent(s: string)
    ensures ToUpper(Trim(ToUpper(Trim(s)))) == ToUpper(Trim(s))
  {
    var t := Trim(s);
    TrimStartUpper(t);
    TrimEndUpper(TrimStart(t));
    TrimIdempotent(s);
    UpperIsUpper(t);
  }

  /** Trim-then-lower-case is a normal form as well. */
  lemma {:induction false} TrimLowerIdempotent(s: string)
    ensures ToLower(Trim(ToLower(Trim(s)))) == ToLower(Trim(s))
  {
    var t := Trim(s);
    TrimStartLower(t);
    TrimEndLower(TrimStart(t));
    TrimIdempotent(s);
    LowerIsLower(t);
  }

  // ------------------------------------------------------ Number(...) coercion

  predicate IsDigit(c: char) {
    '0' <= c <= '9'
  }

  predicate AllDigits(s: string) {
    forall i :: 0 <= i < |s| ==> IsDigit(s[i])
  }

  /** The value of a string of decimal digits. */
  function DigitsValue(s: string): nat
    requires AllDigits(s)
    decreases |s|
  {
    if s == [] then 0
    else 10 * DigitsValue(s[..|s| - 1]) + (s[|s| - 1] as int - '0' as int)
  }

  /** The decimal numeral of a natural number, as `String(n)` writes it. */
  function Decimal(n: nat): (s: string)
    ensures s != [] && AllDigits(s)
    ensures n < 10 <==> |s| == 1
  {
    if n < 10 then [('0' as int + n) as char]
    else Decimal(n / 10) + [('0' as int + n % 10) as char]
  }

  /** Reading back the numeral of `n` gives `n`. */
  lemma {:induction false} DecimalRoundTrip(n: nat)
    ensures DigitsValue(Decimal(n)) == n
  {
    if n >= 10 {
      var s := Decimal(n);
      assert s[..|s| - 1] == Decimal(n / 10);
      DecimalRoundTrip(n / 10);
    }
  }

  /** `String(x)` for an integer. */
  function IntText(x: int): string {
    if x < 0 then "-" + Decimal(-x) else Decimal(x)
  }

  /** The text after a leading sign, or the whole text when it has none. */
  function Unsigned(t: string): (u: string)
    ensures |u| <= |t| && u == t[|t| - |u|..]
  {
    if t != [] && (t[0] == '-' || t[0] == '+') then t[1..] else t
  }

  /** An optionally signed, non-empty run of decimal digits. */
  predicate IsNumeral(t: string) {
    Unsigned(t) != [] && AllDigits(Unsigned(t))
  }

  /** The value of text that has already been trimmed: empty text is 0, an
      optionally signed run of decimal digits is its value, anything else
      is NaN (`None`). */
  function NumeralValue(t: string): (r: Option<int>)
    ensures r.Some? <==> t == [] || IsNumeral(t)
    ensures t == [] ==> r == Some(0)
    ensures r.Some? && t != [] ==>
      r.value == if t[0] == '-' then -(DigitsValue(Unsigned(t)) as int) else DigitsValue(Unsigned(t))
    ensures r.Some? && t != [] ==> exists i :: 0 <= i < |t| && IsDigit(t[i])
  {
    if t == [] then Some(0)
    else if t[0] == '-' || t[0] == '+' then
      var digits := t[1..];
      if digits != [] && AllDigits(digits) then
        assert IsDigit(t[1]);
        var v: int := DigitsValue(digits);
        Some(if t[0] == '-' then -v else v)
      else None
    else if AllDigits(t) then
      assert IsDigit(t[0]);
      Some(DigitsValue(t))
    else None
  }

  /** `Number(s)` for a string, with `None` standing for NaN: surrounding
      whitespace is ignored, blank text is 0, an optionally signed run of
      decimal digits is its value, and any other text is NaN. */
  function StringToNumber(s: string): (r: Option<int>)
    ensures var t := Trim(s);
      && (r.Some? <==> t == [] || IsNumeral(t))
      && (t == [] ==> r == Some(0))
      && (r.Some? && t != [] ==>
            r.value == if t[0] == '-' then -(DigitsValue(Unsigned(t)) as int) else DigitsValue(Unsigned(t)))
  {
    NumeralValue(Trim(s))
  }

  /** Text that neither starts nor ends with whitespace is its own trim. */
  lemma TrimKeepsUnpadded(s: string)
    requires s != [] && !IsSpace(s[0]) && !IsSpace(s[|s| - 1])
    ensures TrimStart(s) == s && Trim(s) == s
  {
    assert TrimStart(s) == s;
    assert TrimEnd(s) == s;
  }

  /** A run of digits, with or without a minus sign in front, reads as its
      value or its negation. */
  lemma NumeralNumber(d: string)
    requires d != [] && AllDigits(d)
    ensures StringToNumber(d) == Some(DigitsValue(d))
    ensures StringToNumber("-" + d) == Some(-(DigitsValue(d) as int))
  {
    assert IsDigit(d[0]) && IsDigit(d[|d| - 1]);
    TrimKeepsUnpadded(d);
    var m := "-" + d;
    assert m[0] == '-' && m[|m| - 1] == d[|d| - 1];
    TrimKeepsUnpadded(m);
    SignedDigits(d);
  }

  lemma SignedDigits(d: string)
    requires d != [] && AllDigits(d)
    ensures NumeralValue(d) == Some(DigitsValue(d))
    ensures NumeralValue("-" + d) == Some(-(DigitsValue(d) as int))
  {
    assert IsDigit(d[0]);
    assert Unsigned(d) == d && IsNumeral(d);
    var m := "-" + d;
    assert m[0] == '-' && m[1..] == d;
    assert Unsigned(m) == d && IsNumeral(m);
  }

  /** `Number(String(x)) == x`: coercing an integer's own numeral gives it
      back. */
  lemma NumberOfIntText(x: int)
    ensures StringToNumber(IntText(x)) == Some(x)
  {
    var n: nat := if x < 0 then -x else x;
    DecimalRoundTrip(n);
    NumeralNumber(Decimal(n));
  }

  /** `Number(v)` with `None` standing for NaN (`z.coerce.number()` rejects
      NaN). Arrays and objects are not modelled and read as NaN. */
  function ToNumber(v: JsValue): (r: Option<int>)
    ensures v.Num? ==> r == Some(v.n)
    ensures v.Undefined? ==> r == None
    ensures v.Null? ==> r == Some(0)
    ensures v.Bool? ==> r == Some(if v.b then 1 else 0)
    ensures v.Str? ==> r == StringToNumber(v.s)
    ensures v.Arr? ==> r == None
  {
    match v
    case Undefined => None
    case Null => Some(0)
    case Bool(b) => Some(if b then 1 else 0)
    case Num(n) => Some(n)
    case Str(s) => StringToNumber(s)
    case Arr(_) => None
  }
}
