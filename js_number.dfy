/** The parts of JavaScript's Number semantics the core relies on: the values
    NaN and ±Infinity, `Math.max`/`Math.min` of two arguments, `Number(s)`
    (also written unary `+s`) and `Number.parseInt(s)` without a radix.
    Numbers are exact reals: rounding to IEEE-754 double precision is not
    modelled. */
module JsNumber {
  import opened Wrappers
  import opened JsText

  datatype Number = Finite(v: real) | NaN | Infinity | NegInfinity

  /** The order `<=` on numbers that are not NaN (false whenever NaN is involved). */
  predicate Le(a: Number, b: Number) {
    match (a, b)
    case (NegInfinity, _) => b != NaN
    case (_, Infinity) => a != NaN
    case (Finite(x), Finite(y)) => x <= y
    case _ => false
  }

  /** `Math.max(a, b)` */
  function Max(a: Number, b: Number): (r: Number)
    ensures r == NaN <==> a == NaN || b == NaN
    ensures r != NaN ==> Le(a, r) && Le(b, r) && (r == a || r == b)
  {
    if a == NaN || b == NaN then NaN
    else if Le(a, b) then b
    else a
  }

  /** `Math.min(a, b)` */
  function Min(a: Number, b: Number): (r: Number)
    ensures r == NaN <==> a == NaN || b == NaN
    ensures r != NaN ==> Le(r, a) && Le(r, b) && (r == a || r == b)
  {
    if a == NaN || b == NaN then NaN
    else if Le(a, b) then a
    else b
  }

  /** Value of `c` as a digit (0-9, a-z, A-Z give 0..35), or -1. */
  function DigitValue(c: char): (d: int)
    ensures -1 <= d < 36
  {
    if '0' <= c <= '9' then c as int - '0' as int
    else if 'a' <= c <= 'z' then c as int - 'a' as int + 10
    else if 'A' <= c <= 'Z' then c as int - 'A' as int + 10
    else -1
  }

  predicate IsDigit(c: char, radix: nat) {
    0 <= DigitValue(c) < radix
  }

  predicate AllDigits(s: string, radix: nat) {
    forall c <- s :: IsDigit(c, radix)
  }

  /** The value of a string of digits, most significant first. */
  function DigitsValue(s: string, radix: nat): nat
    requires AllDigits(s, radix)
  {
    if s == [] then 0
    else
      assert s[|s| - 1] in s;
      DigitsValue(s[..|s| - 1], radix) * radix + DigitValue(s[|s| - 1])
  }

  /** Length of the longest prefix of `s` made of digits of `radix`. */
  function DigitPrefixLength(s: string, radix: nat): (n: nat)
    ensures n <= |s| && AllDigits(s[..n], radix)
    ensures n < |s| ==> !IsDigit(s[n], radix)
  {
    if s == [] || !IsDigit(s[0], radix) then 0
    else
      var n := 1 + DigitPrefixLength(s[1..], radix);
      assert s[..n] == [s[0]] + s[1..][..n - 1];
      n
  }


  /** Splits an optional leading sign off `s`. */
  function SplitSign(s: string): (int, string) {
    if s != [] && s[0] == '-' then (-1, s[1..])
    else if s != [] && s[0] == '+' then (1, s[1..])
    else (1, s)
  }

  /** `Number.parseInt(s)` (no radix): leading white space is skipped, then an
      optional sign, then `0x`/`0X` selects base 16; the longest run of digits
      that follows is read, and NaN results when there is none. */
  function ParseInt(s: string): (r: Number)
    ensures r == NaN || (r.Finite? && r.v == r.v.Floor as real)
  {
    var (sign, u) := SplitSign(TrimStart(s));
    var hex := |u| >= 2 && u[0] == '0' && (u[1] == 'x' || u[1] == 'X');
    var radix := if hex then 16 else 10;
    var w := if hex then u[2..] else u;
    var n := DigitPrefixLength(w, radix);
    if n == 0 then NaN
    else
      var d: int := DigitsValue(w[..n], radix);
      Finite((if sign < 0 then -d else d) as real)
  }

  /** `m` times ten to the power `x`. */
  function Scale(m: real, x: int): real
    decreases if x < 0 then -x else x
  {
    if x == 0 then m
    else if x > 0 then 10.0 * Scale(m, x - 1)
    else Scale(m, x + 1) / 10.0
  }

  /** The value of an unsigned decimal literal (`12`, `1.5`, `.5`, `3.`,
      `2e-3`, `1E+6`), or None. */
  function DecimalValue(u: string): Option<real> {
    var e := if IndexOf(u, 'e') < |u| then IndexOf(u, 'e') else IndexOf(u, 'E');
    var mantissa := u[..e];
    var exponent: Option<int> :=
      if e == |u| then Some(0)
      else
        var (sign, digits) := SplitSign(u[e + 1..]);
        if digits != [] && AllDigits(digits, 10) then Some(sign * DigitsValue(digits, 10)) else None;
    var dot := IndexOf(mantissa, '.');
    var whole := mantissa[..dot];
    var fraction := if dot < |mantissa| then mantissa[dot + 1..] else [];
    if exponent.None? || (whole == [] && fraction == [])
       || !AllDigits(whole, 10) || !AllDigits(fraction, 10) then None
    else
      Some(Scale(DigitsValue(whole + fraction, 10) as real, exponent.value - |fraction|))
  }

  /** `Number(s)` / `+s` for a string: surrounding white space is ignored; the
      empty string is 0; `0x`, `0o`, `0b` prefixes select bases 16, 8, 2;
      otherwise an optionally signed decimal literal or `Infinity`; anything
      else is NaN. */
  function ToNumber(s: string): Number {
    var t := Trim(s);
    if t == [] then Finite(0.0)
    else if |t| >= 2 && t[0] == '0' && t[1] in "xXoObB" then
      var radix := if t[1] in "xX" then 16 else if t[1] in "oO" then 8 else 2;
      var w := t[2..];
      if w != [] && AllDigits(w, radix) then Finite(DigitsValue(w, radix) as real) else NaN
    else
      var (sign, u) := SplitSign(t);
      if u == "Infinity" then (if sign < 0 then NegInfinity else Infinity)
      else match DecimalValue(u)
        case Some(x) => Finite(if sign < 0 then -x else x)
        case None => NaN
  }

  /** Facts about a non-empty string of decimal digits, each proved on its
      own so that the lemmas below do not unfold them again. */
  lemma DigitsFacts(s: string)
    requires s != [] && AllDigits(s, 10)
    ensures TrimStart(s) == s && TrimEnd(s) == s
    ensures SplitSign(s) == (1, s)
    ensures DigitPrefixLength(s, 10) == |s|
    ensures |s| >= 2 ==> s[1] !in "xXoObB"
    ensures 'e' !in s && 'E' !in s && '.' !in s
    ensures s != "Infinity"
  {
    DigitsUntrimmed(s);
    DigitsUnsigned(s);
    DigitsNoPrefix(s);
    DigitsNoInfinity(s);
    DigitsPrefixWhole(s);
    DigitsNoMarks(s);
  }

  lemma DigitsPrefixWhole(s: string)
    requires s != [] && AllDigits(s, 10)
    ensures DigitPrefixLength(s, 10) == |s|
  {
  }

  lemma DigitsNoMarks(s: string)
    requires AllDigits(s, 10)
    ensures 'e' !in s && 'E' !in s && '.' !in s
  {
  }

  lemma DigitsUntrimmed(s: string)
    requires s != [] && AllDigits(s, 10)
    ensures TrimStart(s) == s && TrimEnd(s) == s
  {
    assert s[0] in s && s[|s| - 1] in s;
  }

  lemma DigitsUnsigned(s: string)
    requires s != [] && AllDigits(s, 10)
    ensures SplitSign(s) == (1, s)
  {
    assert s[0] in s;
  }

  lemma DigitsNoPrefix(s: string)
    requires s != [] && AllDigits(s, 10)
    ensures |s| >= 2 ==> s[1] !in "xXoObB"
  {
    assert |s| >= 2 ==> s[1] in s;
  }

  lemma DigitsNoInfinity(s: string)
    requires s != [] && AllDigits(s, 10)
    ensures s != "Infinity"
  {
    assert !IsDigit('I', 10);
  }

  /** A string of decimal digits parses to the integer it spells. */
  lemma ParseIntOfDigits(s: string)
    requires s != [] && AllDigits(s, 10)
    ensures ParseInt(s) == Finite(DigitsValue(s, 10) as real)
  {
    DigitsFacts(s);
    assert s[..|s|] == s;
  }

  /** ... and `Number` gives the same value. */
  lemma ToNumberOfDigits(s: string)
    requires s != [] && AllDigits(s, 10)
    ensures ToNumber(s) == Finite(DigitsValue(s, 10) as real)
  {
    DigitsFacts(s);
    assert Trim(s) == s;
    DecimalValueOfDigits(s);
  }

  lemma DecimalValueOfDigits(s: string)
    requires s != [] && AllDigits(s, 10)
    ensures DecimalValue(s) == Some(DigitsValue(s, 10) as real)
  {
    DigitsFacts(s);
    assert IndexOf(s, 'e') == |s| && IndexOf(s, 'E') == |s|;
    assert s[..|s|] == s;
    assert IndexOf(s, '.') == |s|;
    assert s + [] == s;
  }

  // ---------------------------------------------------------------------
  // What `Number.parseInt` reads

  /** `-x` on numbers. */
  function Negate(a: Number): Number {
    match a
    case Finite(x) => Finite(-x)
    case NaN => NaN
    case Infinity => NegInfinity
    case NegInfinity => Infinity
  }

  /** The digit prefix of `d + r` is `d` when `r` does not go on with a digit. */
  lemma {:induction false} DigitPrefixOfDigits(d: string, r: string, radix: nat)
    requires AllDigits(d, radix)
    requires r == [] || !IsDigit(r[0], radix)
    ensures DigitPrefixLength(d + r, radix) == |d|
    decreases |d|
  {
    if d == [] {
      assert d + r == r;
    } else {
      assert d[0] in d;
      assert (d + r)[1..] == d[1..] + r;
      DigitPrefixOfDigits(d[1..], r, radix);
    }
  }

  lemma TrimStartIdempotent(s: string)
    ensures TrimStart(TrimStart(s)) == TrimStart(s)
  {
    TrimStartSuffix(s);
  }

  /** `parseInt` skips leading white space. */
  lemma ParseIntSkipsWhiteSpace(s: string)
    ensures ParseInt(s) == ParseInt(TrimStart(s))
  {
    TrimStartIdempotent(s);
  }

  /** A leading `-` negates what follows and a leading `+` changes nothing,
      when what follows starts with neither white space nor another sign. */
  lemma ParseIntSign(t: string)
    requires t == [] || (!IsWhiteSpace(t[0]) && t[0] != '-' && t[0] != '+')
    ensures ParseInt("-" + t) == Negate(ParseInt(t))
    ensures ParseInt("+" + t) == ParseInt(t)
  {
    assert TrimStart(t) == t;
    assert SplitSign(t) == (1, t);
    assert TrimStart("-" + t) == "-" + t && ("-" + t)[1..] == t;
    assert SplitSign("-" + t) == (-1, t);
    assert TrimStart("+" + t) == "+" + t && ("+" + t)[1..] == t;
    assert SplitSign("+" + t) == (1, t);
  }

  /** A run of decimal digits followed by anything that is not a digit reads
      as the integer the run spells (`"2px"` gives 2, `"1.5"` gives 1);
      except that `0x`/`0X` right after a lone `0` selects base 16. */
  lemma ParseIntDigitPrefix(d: string, r: string)
    requires d != [] && AllDigits(d, 10)
    requires r == [] || !IsDigit(r[0], 10)
    requires !(d == "0" && r != [] && (r[0] == 'x' || r[0] == 'X'))
    ensures ParseInt(d + r) == Finite(DigitsValue(d, 10) as real)
  {
    var u := d + r;
    assert d[0] in d;
    assert u[0] == d[0];
    assert TrimStart(u) == u;
    assert SplitSign(u) == (1, u);
    if |u| >= 2 && u[0] == '0' {
      if |d| >= 2 {
        assert d[1] in d;
        assert u[1] == d[1];
      } else {
        assert d == "0" && u[1] == r[0];
      }
    }
    DigitPrefixOfDigits(d, r, 10);
    assert u[..|d|] == d;
  }

  /** `0x` (or `0X`) followed by hexadecimal digits reads them in base 16,
      up to the first character that is not one. */
  lemma ParseIntHex(x: char, h: string, r: string)
    requires x == 'x' || x == 'X'
    requires h != [] && AllDigits(h, 16)
    requires r == [] || !IsDigit(r[0], 16)
    ensures ParseInt(['0', x] + h + r) == Finite(DigitsValue(h, 16) as real)
  {
    var u := ['0', x] + h + r;
    assert TrimStart(u) == u;
    assert SplitSign(u) == (1, u);
    assert u[2..] == h + r;
    DigitPrefixOfDigits(h, r, 16);
    assert (h + r)[..|h|] == h;
  }

  /** Without a digit (after white space and an optional sign is not there)
      the result is NaN. */
  lemma ParseIntNoDigits(s: string)
    requires var t := TrimStart(s);
             t == [] || (!IsDigit(t[0], 10) && t[0] != '-' && t[0] != '+')
    ensures ParseInt(s) == NaN
  {
    var t := TrimStart(s);
    assert SplitSign(t) == (1, t);
  }

  // ---------------------------------------------------------------------
  // What `Number` reads

  lemma {:induction false} IndexOfAbsent(s: string, c: char)
    requires c !in s
    ensures IndexOf(s, c) == |s|
    decreases |s|
  {
    if s != [] {
      assert s[0] in s;
      assert forall x <- s[1..] :: x in s;
      IndexOfAbsent(s[1..], c);
    }
  }

  lemma {:induction false} IndexOfFirst(a: string, c: char, b: string)
    requires c !in a
    ensures IndexOf(a + [c] + b, c) == |a|
    decreases |a|
  {
    if a != [] {
      assert a[0] in a;
      assert (a + [c] + b)[1..] == a[1..] + [c] + b;
      IndexOfFirst(a[1..], c, b);
    }
  }

  /** `w.f` with decimal digits `w` and `f`, not both empty, has the value
      of the digits `w + f` scaled down by `|f|` places. */
  lemma DecimalValueOfFraction(w: string, f: string)
    requires AllDigits(w, 10) && AllDigits(f, 10) && w + f != []
    ensures DecimalValue(w + "." + f) == Some(Scale(DigitsValue(w + f, 10) as real, -|f|))
  {
    var u := w + "." + f;
    DigitsNoMarks(w);
    DigitsNoMarks(f);
    assert 'e' !in u && 'E' !in u;
    IndexOfAbsent(u, 'e');
    IndexOfAbsent(u, 'E');
    assert u[..|u|] == u;
    IndexOfFirst(w, '.', f);
    assert u[..|w|] == w && u[|w| + 1..] == f;
    assert AllDigits(w + f, 10);
  }

  /** An optional sign in front of a string that starts and ends with a
      digit or a point (and is not `0x`, `0o` or `0b` prefixed) is read as
      a signed decimal literal. */
  lemma ToNumberSigned(sign: string, u: string)
    requires sign == "" || sign == "-" || sign == "+"
    requires u != [] && (IsDigit(u[0], 10) || u[0] == '.') && (IsDigit(u[|u| - 1], 10) || u[|u| - 1] == '.')
    requires |u| >= 2 ==> u[1] !in "xXoObB"
    ensures ToNumber(sign + u) == match DecimalValue(u)
                                  case Some(x) => Finite(if sign == "-" then -x else x)
                                  case None => NaN
  {
    var t := sign + u;
    assert t[|t| - 1] == u[|u| - 1];
    assert TrimStart(t) == t;
    assert TrimEnd(t) == t;
    assert Trim(t) == t;
    if sign == "" {
      assert t == u;
    } else {
      assert t[1..] == u;
    }
    assert SplitSign(t) == (if sign == "-" then -1 else 1, u);
    assert u != "Infinity" by { assert !IsDigit('I', 10); }
  }

  /** A signed run of decimal digits is the integer it spells. */
  lemma ToNumberSignedInteger(sign: string, d: string)
    requires sign == "" || sign == "-" || sign == "+"
    requires d != [] && AllDigits(d, 10)
    ensures ToNumber(sign + d) == Finite(if sign == "-" then -(DigitsValue(d, 10) as real) else DigitsValue(d, 10) as real)
  {
    assert d[0] in d && d[|d| - 1] in d;
    DigitsNoPrefix(d);
    ToNumberSigned(sign, d);
    DecimalValueOfDigits(d);
  }

  /** A signed decimal fraction `w.f` is the digits of `w + f` scaled down
      by `|f|` places (`"1.5"` is 15 / 10). */
  lemma ToNumberSignedDecimal(sign: string, w: string, f: string)
    requires sign == "" || sign == "-" || sign == "+"
    requires AllDigits(w, 10) && AllDigits(f, 10) && w + f != []
    ensures var x := Scale(DigitsValue(w + f, 10) as real, -|f|);
            ToNumber(sign + (w + "." + f)) == Finite(if sign == "-" then -x else x)
  {
    FractionShape(w, f);
    ToNumberSigned(sign, w + "." + f);
    DecimalValueOfFraction(w, f);
  }

  /** `w.f` starts and ends with a digit or the point, and has no base
      prefix. */
  lemma FractionShape(w: string, f: string)
    requires AllDigits(w, 10) && AllDigits(f, 10)
    ensures var u := w + "." + f;
            u != [] && (IsDigit(u[0], 10) || u[0] == '.') && (IsDigit(u[|u| - 1], 10) || u[|u| - 1] == '.')
            && (|u| >= 2 ==> u[1] !in "xXoObB")
  {
    var u := w + "." + f;
    if w != [] {
      assert u[0] == w[0] && w[0] in w;
    }
    if f != [] {
      assert u[|u| - 1] == f[|f| - 1] && f[|f| - 1] in f;
    }
    if |w| >= 2 {
      assert u[1] == w[1] && w[1] in w;
    } else if |w| == 1 {
      assert u[1] == '.';
    } else if f != [] {
      assert u[1] == f[0] && f[0] in f;
    }
  }

  /** A blank string is 0. */
  lemma ToNumberBlank(s: string)
    requires AllWhiteSpace(s)
    ensures ToNumber(s) == Finite(0.0)
  {
    TrimStartSuffix(s);
  }
}
