// Decimal numerals: rendering integers (`str(i)`, `String(n)`, template
// literals), Python's `int(text)` and JavaScript's `parseInt(text)`.
module Numerals {
  import opened Wrappers
  import opened Text

  predicate IsDigit(c: char)
  {
    '0' <= c <= '9'
  }

  predicate AllDigits(s: String)
  {
    forall i :: 0 <= i < |s| ==> IsDigit(s[i])
  }

  function DigitChar(d: nat): (c: char)
    requires d < 10
    ensures IsDigit(c) && c as int - '0' as int == d
  {
    ('0' as int + d) as char
  }

  function DigitValue(c: char): (d: nat)
    requires IsDigit(c)
    ensures d < 10 && DigitChar(d) == c
  {
    c as int - '0' as int
  }

  /** Decimal rendering of a natural number, without leading zeros. */
  function NatToString(n: nat): (r: String)
    ensures |r| >= 1 && AllDigits(r)
    ensures r[0] == '0' ==> n == 0 && |r| == 1
    ensures n < 10 <==> |r| == 1
  {
    if n < 10 then [DigitChar(n)] else NatToString(n / 10) + [DigitChar(n % 10)]
  }

  /** Decimal rendering of an integer, with a leading '-' when negative. */
  function IntToString(i: int): (r: String)
    ensures |r| >= 1
    ensures '_' !in r
    ensures forall k :: 0 <= k < |r| ==> IsDigit(r[k]) || r[k] == '-'
  {
    if i < 0 then "-" + NatToString(-i) else NatToString(i)
  }

  /** The value of a string of decimal digits, most significant first. */
  function DigitsValue(s: String): nat
    requires AllDigits(s)
  {
    if |s| == 0 then 0 else DigitsValue(s[..|s| - 1]) * 10 + DigitValue(s[|s| - 1])
  }

  /** A rendered integer is a non-empty digit run worth its magnitude,
      preceded by '-' exactly when it is negative. */
  lemma {:induction false} NumeralShape(i: int) returns (d: String, n: nat)
    ensures |d| > 0 && AllDigits(d) && DigitsValue(d) == n
    ensures IntToString(i) == if i < 0 then "-" + d else d
    ensures n == if i < 0 then -i else i
  {
    n := if i < 0 then -i else i;
    d := NatToString(n);
    NatToStringRoundTrip(n);
  }

  /** Reading back a rendered natural number gives the number. */
  lemma {:induction false} NatToStringRoundTrip(n: nat)
    ensures DigitsValue(NatToString(n)) == n
  {
    if n >= 10 {
      NatToStringRoundTrip(n / 10);
      var s := NatToString(n);
      assert s[..|s| - 1] == NatToString(n / 10);
    }
  }

  // ---------------------------------------------------------------------
  // Python `int(text)` for base 10.

  predicate IsDigitOrUnderscore(c: char)
  {
    IsDigit(c) || c == '_'
  }

  /** The digit part `int()` accepts: digits, single underscores only
      between two digits. */
  predicate WellFormedDigits(b: String)
  {
    |b| > 0 && IsDigit(b[0]) && IsDigit(b[|b| - 1])
    && (forall i :: 0 <= i < |b| ==> IsDigitOrUnderscore(b[i]))
    && (forall i :: 0 <= i < |b| - 1 ==> !(b[i] == '_' && b[i + 1] == '_'))
  }

  function RemoveUnderscores(b: String): (r: String)
    requires forall i :: 0 <= i < |b| ==> IsDigitOrUnderscore(b[i])
    ensures AllDigits(r) && |r| <= |b|
  {
    if |b| == 0 then []
    else
      var rest := RemoveUnderscores(b[1..]);
      if b[0] == '_' then rest
      else assert IsDigitOrUnderscore(b[0]); [b[0]] + rest
  }

  /** `int(text)`: surrounding whitespace is ignored, an optional sign is
      allowed, then ASCII decimal digits; anything else is a `ValueError`
      (`None`). Python also reads the other Unicode decimal digits; the
      model does not. */
  function PyInt(s: String): (r: Option<int>)
    ensures IsBlank(s) ==> r == None
  {
    TrimEmptyIffBlank(s);
    PyIntStripped(Trim(s))
  }

  /** `int()` on text already stripped of surrounding whitespace. */
  function PyIntStripped(t: String): Option<int>
  {
    var neg := |t| > 0 && t[0] == '-';
    var body := if |t| > 0 && (t[0] == '+' || t[0] == '-') then t[1..] else t;
    if !WellFormedDigits(body) then None
    else
      var v: int := DigitsValue(RemoveUnderscores(body));
      Some(if neg then -v else v)
  }

  lemma {:induction false} RemoveUnderscoresOfDigits(b: String)
    requires AllDigits(b)
    ensures RemoveUnderscores(b) == b
  {
    if |b| > 0 {
      RemoveUnderscoresOfDigits(b[1..]);
    }
  }

  /** `int()` reads a run of digits, with or without a leading '-'. */
  lemma {:induction false} PyIntOfNumeral(d: String)
    requires |d| > 0 && AllDigits(d)
    ensures PyIntStripped(d) == Some(DigitsValue(d) as int)
    ensures PyIntStripped("-" + d) == Some(-(DigitsValue(d) as int))
  {
    RemoveUnderscoresOfDigits(d);
    assert IsDigit(d[0]);
    assert WellFormedDigits(d);
    assert ("-" + d)[1..] == d;
  }

  /** `int(str(i)) == i`. */
  lemma {:induction false} PyIntRoundTrip(i: int)
    ensures PyInt(IntToString(i)) == Some(i)
  {
    NumeralTrimsToSelf(i);
    var m: nat := if i < 0 then -i else i;
    NatToStringRoundTrip(m);
    PyIntOfNumeral(NatToString(m));
  }

  lemma {:induction false} NumeralTrimsToSelf(i: int)
    ensures Trim(IntToString(i)) == IntToString(i)
    ensures TrimStart(IntToString(i)) == IntToString(i)
  {
    var s := IntToString(i);
    assert !IsSpace(s[0]) && !IsSpace(s[|s| - 1]);
    NoEdgeSpaceTrimsToSelf(s);
  }

  /** Rendering is injective: distinct integers have distinct numerals. */
  lemma {:induction false} IntToStringInjective(a: int, b: int)
    requires IntToString(a) == IntToString(b)
    ensures a == b
  {
    PyIntRoundTrip(a);
    PyIntRoundTrip(b);
  }

  // ---------------------------------------------------------------------
  // JavaScript `parseInt(text)` with the default radix.

  /** The length of the longest prefix of `s` made of decimal digits. */
  function DigitCount(s: String): (n: nat)
    ensures n <= |s|
    ensures forall k :: 0 <= k < n ==> IsDigit(s[k])
    ensures n < |s| ==> !IsDigit(s[n])
  {
    if |s| == 0 || !IsDigit(s[0]) then 0 else 1 + DigitCount(s[1..])
  }

  predicate IsHexDigit(c: char)
  {
    IsDigit(c) || 'a' <= c <= 'f' || 'A' <= c <= 'F'
  }

  function HexDigitValue(c: char): (d: nat)
    requires IsHexDigit(c)
    ensures d < 16
  {
    if IsDigit(c) then DigitValue(c)
    else if 'a' <= c <= 'f' then c as int - 'a' as int + 10
    else c as int - 'A' as int + 10
  }

  /** The length of the longest prefix of `s` made of hexadecimal digits. */
  function HexDigitCount(s: String): (n: nat)
    ensures n <= |s|
    ensures forall k :: 0 <= k < n ==> IsHexDigit(s[k])
    ensures n < |s| ==> !IsHexDigit(s[n])
  {
    if |s| == 0 || !IsHexDigit(s[0]) then 0 else 1 + HexDigitCount(s[1..])
  }

  function HexDigitsValue(s: String): nat
    requires forall k :: 0 <= k < |s| ==> IsHexDigit(s[k])
  {
    if |s| == 0 then 0 else HexDigitsValue(s[..|s| - 1]) * 16 + HexDigitValue(s[|s| - 1])
  }

  /** After the sign, "0x" or "0X" selects base 16. */
  predicate HasHexPrefix(body: String)
  {
    |body| >= 2 && body[0] == '0' && (body[1] == 'x' || body[1] == 'X')
  }

  /** `parseInt(text)`: leading whitespace skipped, an optional sign, then
      the longest run of digits, read in base 16 after a "0x"/"0X" prefix
      and in base 10 otherwise; no digits gives `NaN` (`None`). */
  function JsParseInt(s: String): (r: Option<int>)
    ensures IsBlank(s) ==> r == None
  {
    TrimEmptyIffBlank(s);
    JsParseIntStripped(TrimStart(s))
  }

  /** `parseInt()` on text whose leading whitespace is already skipped. */
  function JsParseIntStripped(t: String): Option<int>
  {
    var neg := |t| > 0 && t[0] == '-';
    var body := if |t| > 0 && (t[0] == '+' || t[0] == '-') then t[1..] else t;
    if HasHexPrefix(body) then
      var hex := body[2..];
      var n := HexDigitCount(hex);
      if n == 0 then None
      else
        var v: int := HexDigitsValue(hex[..n]);
        Some(if neg then -v else v)
    else
      var n := DigitCount(body);
      if n == 0 then None
      else
        var v: int := DigitsValue(body[..n]);
        Some(if neg then -v else v)
  }

  /** `parseInt("0x1A")` is 26 and `parseInt("-0x10")` is -16, while a
      bare "0x" is `NaN`. */
  lemma {:induction false} JsParseIntHexExamples()
    ensures JsParseIntStripped("0x1A") == Some(26)
    ensures JsParseIntStripped("-0x10") == Some(-16)
    ensures JsParseIntStripped("0x") == None
  {
    var a := "0x1A";
    assert HasHexPrefix(a);
    assert a[2..] == "1A";
    assert HexDigitCount("A") == 1;
    assert HexDigitCount("1A") == 2;
    assert "1A"[..2] == "1A" && "1A"[..1] == "1";
    assert HexDigitsValue("1A") == 26;
    var b := "-0x10";
    assert b[1..] == "0x10" && "0x10"[2..] == "10";
    assert HexDigitCount("0") == 1;
    assert HexDigitCount("10") == 2;
    assert "10"[..2] == "10" && "10"[..1] == "1";
    assert HexDigitsValue("10") == 16;
    assert "0x"[2..] == "";
  }

  lemma {:induction false} DigitCountOfDigits(s: String)
    requires AllDigits(s)
    ensures DigitCount(s) == |s|
  {
    if |s| > 0 {
      DigitCountOfDigits(s[1..]);
    }
  }

  /** `parseInt()` reads a run of digits, with or without a leading '-'. */
  lemma {:induction false} JsParseIntOfNumeral(d: String)
    requires |d| > 0 && AllDigits(d)
    ensures JsParseIntStripped(d) == Some(DigitsValue(d) as int)
    ensures JsParseIntStripped("-" + d) == Some(-(DigitsValue(d) as int))
  {
    DigitCountOfDigits(d);
    assert d[..|d|] == d;
    assert IsDigit(d[0]);
    assert |d| < 2 || IsDigit(d[1]);
    assert !HasHexPrefix(d);
    assert ("-" + d)[1..] == d;
  }

  /** `parseInt(String(i)) == i`: an `<option value={id}>` selects `id`. */
  lemma {:induction false} JsParseIntRoundTrip(i: int)
    ensures JsParseInt(IntToString(i)) == Some(i)
  {
    NumeralTrimsToSelf(i);
    var m: nat := if i < 0 then -i else i;
    NatToStringRoundTrip(m);
    JsParseIntOfNumeral(NatToString(m));
  }

  // ---------------------------------------------------------------------
  // JavaScript `Number(text)` for decimal text.

  /** The value of the digits after a decimal point, `0.d1d2...`, read from
      the right so that only division by ten is needed. */
  function FractionValue(s: String): (r: real)
    requires AllDigits(s)
    ensures 0.0 <= r <= 1.0
  {
    if |s| == 0 then 0.0 else (DigitValue(s[0]) as real + FractionValue(s[1..])) / 10.0
  }

  /** `Number(text)`: surrounding whitespace is ignored, blank text is 0, and
      otherwise an optional sign, digits and an optional fraction must make
      up the whole text; anything else is `NaN` (`None`). The `0x`, `0b`
      and `0o` prefixes and exponents, which `Number` also reads, are not
      modelled. */
  function JsNumber(s: String): (r: Option<real>)
    ensures IsBlank(s) ==> r == Some(0.0)
  {
    TrimEmptyIffBlank(s);
    var t := Trim(s);
    if t == [] then Some(0.0) else JsNumberStripped(t)
  }

  /** `Number()` on non-blank text stripped of surrounding whitespace. */
  function JsNumberStripped(t: String): Option<real>
    requires t != []
  {
    var neg := t[0] == '-';
    var body := if t[0] == '+' || t[0] == '-' then t[1..] else t;
    var n := DigitCount(body);
    var whole := body[..n];
    var rest := body[n..];
    var magnitude: Option<real> :=
      if rest == [] then
        if whole == [] then None else Some(DigitsValue(whole) as real)
      else if rest[0] == '.' && AllDigits(rest[1..]) && (whole != [] || |rest| > 1) then
        Some(DigitsValue(whole) as real + FractionValue(rest[1..]))
      else None;
    match magnitude
    case None => None
    case Some(m) => Some(if neg then -m else m)
  }

  /** `Number()` reads a run of digits worth `v`, with or without a
      leading '-'. */
  lemma {:induction false} JsNumberStrippedOfNumeral(d: String, v: nat)
    requires |d| > 0 && AllDigits(d) && DigitsValue(d) == v
    ensures JsNumberStripped(d) == Some(v as real)
    ensures JsNumberStripped("-" + d) == Some(-(v as real))
  {
    DigitCountOfDigits(d);
    assert d[..|d|] == d && d[|d|..] == [];
    assert IsDigit(d[0]);
    assert ("-" + d)[1..] == d;
  }

  /** The same through the trimming of `Number()`. */
  lemma {:induction false} JsNumberOfNumeral(d: String, v: nat)
    requires |d| > 0 && AllDigits(d) && DigitsValue(d) == v
    ensures JsNumber(d) == Some(v as real)
    ensures JsNumber("-" + d) == Some(-(v as real))
  {
    assert IsDigit(d[0]) && IsDigit(d[|d| - 1]);
    NoEdgeSpaceTrimsToSelf(d);
    NoEdgeSpaceTrimsToSelf("-" + d);
    JsNumberStrippedOfNumeral(d, v);
  }

  /** `Number()` of a digit run with an optional leading '-', stated for
      whatever value the caller names. */
  lemma {:induction false} JsNumberOfSigned(s: String, d: String, v: nat, neg: bool, x: real)
    requires |d| > 0 && AllDigits(d) && DigitsValue(d) == v
    requires s == if neg then "-" + d else d
    requires x == if neg then -(v as real) else v as real
    ensures JsNumber(s) == Some(x)
  {
    JsNumberOfNumeral(d, v);
  }

  /** `Number(String(i)) == i`. */
  lemma {:induction false} JsNumberRoundTrip(i: int)
    ensures JsNumber(IntToString(i)) == Some(i as real)
  {
    var d, n := NumeralShape(i);
    JsNumberOfSigned(IntToString(i), d, n, i < 0, i as real);
  }
}
