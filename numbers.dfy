/**
 * Text-to-integer conversions used on both sides of the MQTT settings form:
 * JavaScript's global `parseInt(text)` (no radix argument) in the browser and
 * Python's `int(text)` on the server, plus the decimal rendering of a number.
 */
module Numbers {
  import opened Values

  predicate IsDecimalDigit(c: char) { '0' <= c <= '9' }

  /** A digit of `radix` (10, or 16 after a `0x` prefix), in either letter case. */
  predicate IsDigitIn(c: char, radix: nat)
  {
    IsDecimalDigit(c) || (radix == 16 && ('a' <= c <= 'f' || 'A' <= c <= 'F'))
  }

  function DigitValue(c: char, radix: nat): (d: nat)
    requires IsDigitIn(c, radix)
    ensures d < radix || (radix < 10 && d < 10)
  {
    if IsDecimalDigit(c) then c as int - '0' as int
    else if 'a' <= c <= 'f' then c as int - 'a' as int + 10
    else c as int - 'A' as int + 10
  }

  predicate AllDigitsIn(ds: string, radix: nat)
  {
    forall i :: 0 <= i < |ds| ==> IsDigitIn(ds[i], radix)
  }

  /** The number the digit string `ds` denotes in base `radix`, most significant digit first. */
  function Value(ds: string, radix: nat): nat
    requires AllDigitsIn(ds, radix)
    decreases |ds|
  {
    if ds == [] then 0
    else Value(ds[..|ds| - 1], radix) * radix + DigitValue(ds[|ds| - 1], radix)
  }

  function DigitChar(d: nat): (c: char)
    requires d < 10
    ensures IsDecimalDigit(c) && DigitValue(c, 10) == d
  {
    ('0' as int + d) as char
  }

  /** The decimal rendering of `n` (JavaScript's String(n), Python's str(n)), without leading zeros. */
  function Decimal(n: nat): (s: string)
    ensures s != [] && AllDigitsIn(s, 10) && Value(s, 10) == n
    ensures s[0] == '0' <==> n == 0
    ensures n == 0 ==> s == "0"
    decreases n
  {
    if n < 10 then [DigitChar(n)]
    else
      var s := Decimal(n / 10) + [DigitChar(n % 10)];
      assert s[..|s| - 1] == Decimal(n / 10);
      s
  }

  /** The signed decimal rendering of an integer. */
  function SignedDecimal(n: int): string
  {
    if n < 0 then "-" + Decimal(-n) else Decimal(n)
  }

  // ---------------------------------------------------------------------------
  // JavaScript parseInt(string) with no radix (ECMAScript section 19.2.5)
  // ---------------------------------------------------------------------------

  /** StrWhiteSpaceChar of ECMAScript: the white space and line terminator code points. */
  predicate IsJsWhiteSpace(c: char)
  {
    c == '\t' || c == '\n' || c == '\U{000B}' || c == '\U{000C}' || c == '\r' || c == ' ' ||
    c == '\U{00A0}' || c == '\U{1680}' || ('\U{2000}' <= c <= '\U{200A}') ||
    c == '\U{2028}' || c == '\U{2029}' || c == '\U{202F}' || c == '\U{205F}' ||
    c == '\U{3000}' || c == '\U{FEFF}'
  }

  function TrimJsWhiteSpace(s: string): (t: string)
    ensures |t| <= |s|
    ensures t == [] || !IsJsWhiteSpace(t[0])
    decreases |s|
  {
    if s != [] && IsJsWhiteSpace(s[0]) then TrimJsWhiteSpace(s[1..]) else s
  }

  /** What is left after trimming is a suffix of the text, and only white space was removed. */
  lemma {:induction false} TrimmedSuffix(s: string)
    ensures var t := TrimJsWhiteSpace(s);
      t == s[|s| - |t|..] && forall i :: 0 <= i < |s| - |t| ==> IsJsWhiteSpace(s[i])
    decreases |s|
  {
    if s != [] && IsJsWhiteSpace(s[0]) {
      TrimmedSuffix(s[1..]);
    }
  }

  /** The longest prefix of `s` made of digits of `radix`. */
  function DigitPrefix(s: string, radix: nat): (z: string)
    ensures |z| <= |s| && z == s[..|z|] && AllDigitsIn(z, radix)
    ensures |z| == |s| || !IsDigitIn(s[|z|], radix)
    decreases |s|
  {
    if s == [] || !IsDigitIn(s[0], radix) then []
    else [s[0]] + DigitPrefix(s[1..], radix)
  }

  /** `s` starts with the hexadecimal prefix `0x` or `0X`. */
  predicate HasHexPrefix(s: string)
  {
    |s| >= 2 && s[0] == '0' && (s[1] == 'x' || s[1] == 'X')
  }

  /** The number read from the longest digit prefix of `s`, if there is one. */
  function LeadingNumber(s: string, radix: nat): (r: Option<nat>)
    ensures r.None? <==> s == [] || !IsDigitIn(s[0], radix)
  {
    var z := DigitPrefix(s, radix);
    if z == [] then None else Some(Value(z, radix))
  }

  /** The magnitude after the sign: base 16 after `0x`/`0X`, base 10 otherwise. */
  function ParseMagnitude(u: string): Option<nat>
  {
    if HasHexPrefix(u) then LeadingNumber(u[2..], 16) else LeadingNumber(u, 10)
  }

  function Negated(m: Option<nat>): (r: Option<int>)
    ensures r.Some? <==> m.Some?
    ensures m.Some? ==> r.value == -(m.value as int)
  {
    match m
    case None => None
    case Some(v) => Some(-(v as int))
  }

  function Widened(m: Option<nat>): (r: Option<int>)
    ensures r.Some? <==> m.Some?
    ensures m.Some? ==> r.value == m.value as int
  {
    match m
    case None => None
    case Some(v) => Some(v)
  }

  /**
   * JavaScript's `parseInt(s)`: skip leading white space, take an optional sign,
   * switch to base 16 after `0x`/`0X`, then read the longest digit prefix; with
   * no digit at all the result is NaN, here `None`. Trailing garbage is ignored.
   */
  function ParseInt(s: string): (r: Option<int>)
  {
    var t := TrimJsWhiteSpace(s);
    if t != [] && t[0] == '-' then Negated(ParseMagnitude(t[1..]))
    else if t != [] && t[0] == '+' then Widened(ParseMagnitude(t[1..]))
    else Widened(ParseMagnitude(t))
  }

  lemma {:induction false} DigitPrefixOfDigits(ds: string, rest: string, radix: nat)
    requires AllDigitsIn(ds, radix)
    requires rest == [] || !IsDigitIn(rest[0], radix)
    ensures DigitPrefix(ds + rest, radix) == ds
    decreases |ds|
  {
    if ds == [] {
      assert ds + rest == rest;
    } else {
      assert (ds + rest)[1..] == ds[1..] + rest;
      DigitPrefixOfDigits(ds[1..], rest, radix);
    }
  }

  /** Text that starts with neither white space nor a sign is read as a magnitude straight away. */
  lemma ParseIntUnsigned(u: string)
    requires u != [] && !IsJsWhiteSpace(u[0]) && u[0] != '-' && u[0] != '+'
    ensures ParseInt(u) == Widened(ParseMagnitude(u))
  {
    assert TrimJsWhiteSpace(u) == u;
  }

  /** Digits followed by text that does not continue them are read as their value. */
  lemma MagnitudeOfDigits(ds: string, rest: string)
    requires ds != [] && AllDigitsIn(ds, 10)
    requires rest == [] || !IsDecimalDigit(rest[0])
    requires ds[0] == '0' && |ds| == 1 ==> rest == [] || (rest[0] != 'x' && rest[0] != 'X')
    ensures (ds + rest)[0] == ds[0]
    ensures ParseMagnitude(ds + rest) == Some(Value(ds, 10))
  {
    var s := ds + rest;
    assert !HasHexPrefix(s) by {
      if |ds| == 1 { assert s == [ds[0]] + rest; } else { assert s[1] == ds[1]; }
    }
    DigitPrefixOfDigits(ds, rest, 10);
  }

  /**
   * A decimal number followed by anything that is not a digit parses back to
   * itself, except that "0" followed by "x" or "X" reads as a hexadecimal prefix.
   */
  lemma ParseIntDecimal(n: nat, rest: string)
    requires rest == [] || !IsDecimalDigit(rest[0])
    requires n == 0 ==> rest == [] || (rest[0] != 'x' && rest[0] != 'X')
    ensures ParseInt(Decimal(n) + rest) == Some(n)
  {
    var d := Decimal(n);
    MagnitudeOfDigits(d, rest);
    assert IsDecimalDigit((d + rest)[0]);
    ParseIntUnsigned(d + rest);
  }

  /** A decimal number with a minus sign in front parses as its negation. */
  lemma ParseIntNegativeDecimal(n: nat)
    ensures ParseInt("-" + Decimal(n)) == Some(-(n as int))
  {
    var d := Decimal(n);
    MagnitudeOfDigits(d, []);
    assert d + [] == d;
    ParseIntMinus(d);
  }


  /** Leading white space does not change what parseInt reads. */
  lemma ParseIntSkipsWhiteSpace(c: char, s: string)
    requires IsJsWhiteSpace(c)
    ensures ParseInt([c] + s) == ParseInt(s)
  {
    assert ([c] + s)[1..] == s;
  }

  /** A leading minus sign negates whatever the rest reads as. */
  lemma ParseIntMinus(u: string)
    ensures ParseInt("-" + u) == Negated(ParseMagnitude(u))
  {
    var m := "-" + u;
    assert m[0] == '-' && m[1..] == u;
    assert TrimJsWhiteSpace(m) == m;
  }



  /** With no radix argument a `0x` prefix switches to hexadecimal: the hex digits are read up to the first non-digit. */
  lemma ParseIntHexPrefix(h: string, rest: string)
    requires h != [] && AllDigitsIn(h, 16)
    requires rest == [] || !IsDigitIn(rest[0], 16)
    ensures ParseInt("0x" + h + rest) == Some(Value(h, 16))
  {
    var s := "0x" + h + rest;
    assert s[0] == '0' && s[1] == 'x' && s[2..] == h + rest;
    ParseIntUnsigned(s);
    DigitPrefixOfDigits(h, rest, 16);
  }

  /** Without a digit after the optional sign (and prefix) there is no number. */
  lemma ParseIntNeedsADigit(s: string)
    requires forall i :: 0 <= i < |s| ==> !IsDecimalDigit(s[i])
    ensures ParseInt(s) == None
  {
    var t := TrimJsWhiteSpace(s);
    TrimmedSuffix(s);
    assert forall i :: 0 <= i < |t| ==> t[i] == s[|s| - |t| + i];
    var u := if t != [] && (t[0] == '-' || t[0] == '+') then t[1..] else t;
    assert u == [] || !IsDecimalDigit(u[0]);
    assert !HasHexPrefix(u);
    assert ParseMagnitude(u) == None;
  }

  // ---------------------------------------------------------------------------
  // Python int(str) in base 10
  // ---------------------------------------------------------------------------

  /**
   * The white space that Python strips around an integer literal. Below
   * U+0080 only tab, line feed, vertical tab, form feed, carriage return
   * and space count: the ASCII separators U+001C to U+001F, which
   * `str.isspace` accepts, are kept and make `int()` fail. Above ASCII,
   * every character `str.isspace` accepts is turned into a space first.
   */
  predicate IsPyWhiteSpace(c: char)
  {
    if c <= '\U{0020}' then '\U{0009}' <= c <= '\U{000D}' || c == '\U{0020}'
    else '\U{0085}' <= c && IsWideWhiteSpace(c)
  }

  /** The white space above ASCII that `str.isspace` accepts. */
  predicate IsWideWhiteSpace(c: char)
  {
    c == '\U{0085}' || c == '\U{00A0}' || c == '\U{1680}' || ('\U{2000}' <= c <= '\U{200A}') ||
    c == '\U{2028}' || c == '\U{2029}' || c == '\U{202F}' || c == '\U{205F}' || c == '\U{3000}'
  }

  function StripPy(s: string): (t: string)
    ensures |t| <= |s|
    ensures t == [] || (!IsPyWhiteSpace(t[0]) && !IsPyWhiteSpace(t[|t| - 1]))
    decreases |s|
  {
    if s == [] then []
    else if IsPyWhiteSpace(s[0]) then StripPy(s[1..])
    else if IsPyWhiteSpace(s[|s| - 1]) then StripPy(s[..|s| - 1])
    else s
  }

  /** Digits with single underscores between them, as Python's integer literals allow. */
  predicate IsPyDigits(u: string)
  {
    u != [] && IsDecimalDigit(u[0]) && IsDecimalDigit(u[|u| - 1]) &&
    (forall i :: 0 <= i < |u| ==> IsDecimalDigit(u[i]) || u[i] == '_') &&
    (forall i :: 0 <= i < |u| - 1 ==> !(u[i] == '_' && u[i + 1] == '_'))
  }

  /** The characters of `u` other than underscores, in order: digits only when `u` holds only digits and underscores. */
  function DropUnderscores(u: string): (ds: string)
    ensures (forall i :: 0 <= i < |u| ==> IsDecimalDigit(u[i]) || u[i] == '_') ==> AllDigitsIn(ds, 10)
    decreases |u|
  {
    if u == [] then []
    else
      assert forall i :: 1 <= i < |u| ==> u[1..][i - 1] == u[i];
      (if u[0] == '_' then [] else [u[0]]) + DropUnderscores(u[1..])
  }

  /** The value of an unsigned Python integer literal, if `u` is one. */
  function PyUnsigned(u: string): Option<nat>
  {
    if IsPyDigits(u) then Some(Value(DropUnderscores(u), 10)) else None
  }

  /** Python's `int(s)` for a str: `None` where Python raises ValueError. */
  function PyIntOfString(s: string): (r: Option<int>)
  {
    var t := StripPy(s);
    if t != [] && t[0] == '-' then Negated(PyUnsigned(t[1..]))
    else if t != [] && t[0] == '+' then Widened(PyUnsigned(t[1..]))
    else Widened(PyUnsigned(t))
  }

  lemma {:induction false} DropUnderscoresOfDigits(ds: string)
    requires AllDigitsIn(ds, 10)
    ensures DropUnderscores(ds) == ds
    decreases |ds|
  {
    if ds != [] {
      DropUnderscoresOfDigits(ds[1..]);
      assert ds == [ds[0]] + ds[1..];
    }
  }

  lemma StripPyKeeps(s: string)
    requires s != [] && !IsPyWhiteSpace(s[0]) && !IsPyWhiteSpace(s[|s| - 1])
    ensures StripPy(s) == s
  {
  }

  /** After stripping, a leading minus makes Python negate the literal after the sign. */
  lemma PyIntOfMinus(s: string)
    requires StripPy(s) != [] && StripPy(s)[0] == '-'
    ensures PyIntOfString(s) == Negated(PyUnsigned(StripPy(s)[1..]))
  {
  }

  /** After stripping, text without a sign is read as an unsigned literal. */
  lemma PyIntOfUnsigned(s: string)
    requires StripPy(s) != [] && StripPy(s)[0] != '-' && StripPy(s)[0] != '+'
    ensures PyIntOfString(s) == Widened(PyUnsigned(StripPy(s)))
  {
  }

  /** A plain run of digits is an unsigned literal denoting its value. */
  lemma PyUnsignedOfDigits(ds: string)
    requires ds != [] && AllDigitsIn(ds, 10)
    ensures IsDecimalDigit(ds[0]) && IsDecimalDigit(ds[|ds| - 1])
    ensures PyUnsigned(ds) == Some(Value(ds, 10))
  {
    assert forall i :: 0 <= i < |ds| ==> IsDecimalDigit(ds[i]) by {
      forall i | 0 <= i < |ds| ensures IsDecimalDigit(ds[i]) {
        assert IsDigitIn(ds[i], 10);
      }
    }
    assert IsPyDigits(ds);
    DropUnderscoresOfDigits(ds);
  }

  /** Python reads a plain run of digits as its value. */
  lemma PyIntOfDigits(ds: string)
    requires ds != [] && AllDigitsIn(ds, 10)
    ensures PyIntOfString(ds) == Some(Value(ds, 10))
  {
    PyUnsignedOfDigits(ds);
    StripPyKeeps(ds);
    PyIntOfUnsigned(ds);
  }

  /** A minus sign followed by text ending in a digit: int() negates the literal after the sign. */
  lemma PyIntOfMinusDigits(ds: string)
    requires ds != [] && IsDecimalDigit(ds[|ds| - 1])
    ensures PyIntOfString("-" + ds) == Negated(PyUnsigned(ds))
  {
    var s := "-" + ds;
    assert s[0] == '-' && s[|s| - 1] == ds[|ds| - 1];
    StripPyKeeps(s);
    assert s[1..] == ds;
    PyIntOfMinus(s);
  }

  /** Python reads back every integer rendered in decimal: `int(str(n)) == n`. */
  lemma PyIntOfDecimal(n: int)
    ensures PyIntOfString(SignedDecimal(n)) == Some(n)
  {
    if n < 0 {
      var ds := Decimal(-n);
      PyUnsignedOfDigits(ds);
      PyIntOfMinusDigits(ds);
    } else {
      PyIntOfDigits(Decimal(n));
    }
  }

  /** The stripped text is a slice of the input with only white space cut off either end. */
  lemma {:induction false} StripPyInfix(s: string) returns (a: nat, b: nat)
    ensures a <= b <= |s| && StripPy(s) == s[a..b]
    ensures forall k :: 0 <= k < a ==> IsPyWhiteSpace(s[k])
    ensures forall k :: b <= k < |s| ==> IsPyWhiteSpace(s[k])
    ensures s != [] && !IsPyWhiteSpace(s[0]) ==> a == 0
    decreases |s|
  {
    if s == [] {
      a, b := 0, 0;
    } else if IsPyWhiteSpace(s[0]) {
      var tail := s[1..];
      var a', b' := StripPyInfix(tail);
      a, b := a' + 1, b' + 1;
      assert tail[a'..b'] == s[a..b];
      forall k | 0 <= k < a ensures IsPyWhiteSpace(s[k]) {
        if k > 0 { assert s[k] == tail[k - 1]; }
      }
      forall k | b <= k < |s| ensures IsPyWhiteSpace(s[k]) {
        assert s[k] == tail[k - 1];
      }
    } else if IsPyWhiteSpace(s[|s| - 1]) {
      var init := s[..|s| - 1];
      assert init[0] == s[0];
      var a', b' := StripPyInfix(init);
      a, b := a', b';
      assert init[a'..b'] == s[a..b];
      forall k | b <= k < |s| ensures IsPyWhiteSpace(s[k]) {
        if k < |s| - 1 { assert s[k] == init[k]; }
      }
    } else {
      a, b := 0, |s|;
      assert s[0..|s|] == s;
    }
  }

  /** The literal part of stripped text: what follows an optional sign. */
  function Unsigned(t: string): string
  {
    if t != [] && (t[0] == '-' || t[0] == '+') then t[1..] else t
  }

  /** int() fails exactly when what follows the optional sign is not a literal. */
  lemma PyIntFails(s: string)
    ensures PyIntOfString(s).None? <==> !IsPyDigits(Unsigned(StripPy(s)))
  {
  }

  /** A character that is neither a digit, an underscore, white space nor a sign. */
  predicate IsStray(c: char)
  {
    !IsDecimalDigit(c) && c != '_' && !IsPyWhiteSpace(c) && c != '-' && c != '+'
  }

  /**
   * A stray character anywhere makes int() fail: "abc", "12a", "0x10" and
   * "1.5" are all rejected.
   */
  lemma PyIntRejectsStrayCharacter(s: string, i: int)
    requires 0 <= i < |s| && IsStray(s[i])
    ensures PyIntOfString(s) == None
  {
    var a, b := StripPyInfix(s);
    assert a <= i < b;
    var t := StripPy(s);
    assert t[i - a] == s[i];
    var u := Unsigned(t);
    var j := if u == t then i - a else i - a - 1;
    assert 0 <= j < |u| && u[j] == s[i];
    PyIntFails(s);
  }

  /** Two underscores in a row make int() fail. */
  lemma PyIntRejectsDoubledUnderscore(s: string, i: int)
    requires 0 <= i < |s| - 1 && s[i] == '_' && s[i + 1] == '_'
    ensures PyIntOfString(s) == None
  {
    var a, b := StripPyInfix(s);
    assert a <= i && i + 1 < b;
    var t := StripPy(s);
    assert t[i - a] == '_' && t[i - a + 1] == '_';
    var u := Unsigned(t);
    var j := if u == t then i - a else i - a - 1;
    assert 0 <= j < |u| - 1 && u[j] == '_' && u[j + 1] == '_';
    PyIntFails(s);
  }

  lemma {:induction false} DropUnderscoresAppend(x: string, y: string)
    ensures DropUnderscores(x + y) == DropUnderscores(x) + DropUnderscores(y)
    decreases |x|
  {
    if x == [] {
      assert x + y == y;
    } else {
      assert (x + y)[1..] == x[1..] + y;
      DropUnderscoresAppend(x[1..], y);
    }
  }

  /** Two runs of digits joined by one underscore form a literal. */
  lemma UnderscoreJoinedIsLiteral(x: string, y: string)
    requires x != [] && AllDigitsIn(x, 10) && y != [] && AllDigitsIn(y, 10)
    ensures IsPyDigits(x + "_" + y)
  {
    var u := x + "_" + y;
    forall i | 0 <= i < |u| ensures IsDecimalDigit(u[i]) || u[i] == '_'
    {
      if i < |x| {
        assert u[i] == x[i] && IsDigitIn(x[i], 10);
      } else if |x| < i {
        assert u[i] == y[i - |x| - 1] && IsDigitIn(y[i - |x| - 1], 10);
      }
    }
    forall i | 0 <= i < |u| - 1 ensures !(u[i] == '_' && u[i + 1] == '_')
    {
      if i < |x| {
        assert u[i] == x[i] && IsDigitIn(x[i], 10);
      } else {
        assert u[i + 1] == y[i - |x|] && IsDigitIn(y[i - |x|], 10);
      }
    }
    assert u[0] == x[0] && IsDigitIn(x[0], 10);
    assert u[|u| - 1] == y[|y| - 1] && IsDigitIn(y[|y| - 1], 10);
  }

  /** Dropping the one underscore between two runs of digits leaves the two runs. */
  lemma UnderscoreJoined(x: string, y: string)
    requires x != [] && AllDigitsIn(x, 10) && y != [] && AllDigitsIn(y, 10)
    ensures IsPyDigits(x + "_" + y) && DropUnderscores(x + "_" + y) == x + y
  {
    UnderscoreJoinedIsLiteral(x, y);
    assert forall i :: 0 <= i < |x| ==> IsDigitIn(x[i], 10);
    assert forall i :: 0 <= i < |y| ==> IsDigitIn(y[i], 10);
    DropUnderscoresAppend(x, "_");
    DropUnderscoresAppend(x + "_", y);
    DropUnderscoresOfDigits(x);
    DropUnderscoresOfDigits(y);
    assert DropUnderscores("_") == [] by { assert "_"[1..] == []; }
    assert x + [] == x;
  }

  /** A single underscore between two runs of digits does not change the value int() reads. */
  lemma PyIntIgnoresUnderscore(x: string, y: string)
    requires x != [] && AllDigitsIn(x, 10) && y != [] && AllDigitsIn(y, 10)
    ensures PyIntOfString(x + "_" + y) == PyIntOfString(x + y) == Some(Value(x + y, 10))
  {
    var u := x + "_" + y;
    UnderscoreJoined(x, y);
    assert IsDecimalDigit(u[0]) && IsDecimalDigit(u[|u| - 1]);
    StripPyKeeps(u);
    PyIntOfUnsigned(u);
    assert AllDigitsIn(x + y, 10) by {
      assert forall i :: 0 <= i < |y| ==> (x + y)[|x| + i] == y[i];
    }
    PyIntOfDigits(x + y);
  }

  /** Text surrounded by runs of white space strips to itself. */
  lemma {:induction false} StripPyPadded(w: string, d: string, w': string)
    requires forall i :: 0 <= i < |w| ==> IsPyWhiteSpace(w[i])
    requires forall i :: 0 <= i < |w'| ==> IsPyWhiteSpace(w'[i])
    requires d != [] && !IsPyWhiteSpace(d[0]) && !IsPyWhiteSpace(d[|d| - 1])
    ensures StripPy(w + d + w') == d
    decreases |w| + |w'|
  {
    var s := w + d + w';
    if w != [] {
      assert s[0] == w[0] && s[1..] == w[1..] + d + w';
      StripPyPadded(w[1..], d, w');
    } else if w' != [] {
      assert s == d + w';
      assert s[0] == d[0] && s[|s| - 1] == w'[|w'| - 1];
      assert s[..|s| - 1] == [] + d + w'[..|w'| - 1];
      StripPyPadded([], d, w'[..|w'| - 1]);
    } else {
      assert s == d;
      StripPyKeeps(d);
    }
  }

  /** White space on either side does not change what int() reads back from a rendered integer. */
  lemma PyIntStripsWhiteSpace(w: string, n: int, w': string)
    requires forall i :: 0 <= i < |w| ==> IsPyWhiteSpace(w[i])
    requires forall i :: 0 <= i < |w'| ==> IsPyWhiteSpace(w'[i])
    ensures PyIntOfString(w + SignedDecimal(n) + w') == Some(n)
  {
    var d := SignedDecimal(n);
    var m := Decimal(if n < 0 then -n else n);
    assert IsDigitIn(m[0], 10) && IsDigitIn(m[|m| - 1], 10);
    assert d[|d| - 1] == m[|m| - 1];
    StripPyPadded(w, d, w');
    StripPyKeeps(d);
    PyIntOfDecimal(n);
  }
}
