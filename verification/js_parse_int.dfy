/** The ECMAScript global `parseInt(string, 10)` restricted to what the tile
    fetcher needs: leading white space is skipped, one optional sign is taken,
    and the longest run of decimal digits that follows is read. Text after the
    digits is ignored. No digits at all yields `NaN`, written `None` here. */
module JsParseInt {
  import opened Wrappers

  /** WhiteSpace and LineTerminator code points that the standard's
      TrimString removes: TAB, LF, VT, FF, CR, SPACE, NBSP, OGHAM SPACE MARK,
      EN QUAD through HAIR SPACE, LS, PS, NNBSP, MMSP, IDEOGRAPHIC SPACE and
      the byte order mark. */
  predicate IsJsSpace(c: char) {
    || c == '\t' || c == '\n' || c == '\U{B}' || c == '\U{C}' || c == '\r'
    || c == ' ' || c == '\U{A0}' || c == '\U{1680}'
    || ('\U{2000}' <= c <= '\U{200A}')
    || c == '\U{2028}' || c == '\U{2029}' || c == '\U{202F}' || c == '\U{205F}'
    || c == '\U{3000}' || c == '\U{FEFF}'
  }

  predicate IsDigit(c: char) {
    '0' <= c <= '9'
  }

  predicate IsSignChar(c: char) {
    c == '+' || c == '-'
  }

  predicate AllSpace(s: string) {
    forall i :: 0 <= i < |s| ==> IsJsSpace(s[i])
  }

  predicate AllDigits(s: string) {
    forall i :: 0 <= i < |s| ==> IsDigit(s[i])
  }

  /** The sign texts parseInt accepts in front of the digits. */
  predicate IsSignText(sign: string) {
    |sign| == 0 || (|sign| == 1 && IsSignChar(sign[0]))
  }

  /** `v` with the sign the text `sign` gives it. */
  function Signed(sign: string, v: nat): int {
    if |sign| == 1 && sign[0] == '-' then -(v as int) else v
  }

  function DigitValue(c: char): (d: nat)
    requires IsDigit(c)
    ensures d < 10
  {
    (c as int) - ('0' as int)
  }

  function DigitChar(d: nat): (c: char)
    requires d < 10
    ensures IsDigit(c) && DigitValue(c) == d
  {
    ((d + '0' as int) as char)
  }

  /** The value of a run of decimal digits, most significant first. */
  function DecimalValue(ds: string): (v: nat)
    requires AllDigits(ds)
  {
    if |ds| == 0 then 0
    else 10 * DecimalValue(ds[..|ds| - 1]) + DigitValue(ds[|ds| - 1])
  }

  /** Drops the leading white space; what is left starts with a non-space. */
  function TrimStart(s: string): (t: string)
    ensures |t| <= |s| && t == s[|s| - |t|..]
    ensures t == [] || !IsJsSpace(t[0])
  {
    if |s| > 0 && IsJsSpace(s[0]) then TrimStart(s[1..]) else s
  }

  /** Length of the longest prefix made of decimal digits. */
  function DigitRun(s: string): (n: nat)
    ensures n <= |s|
    ensures AllDigits(s[..n])
    ensures n == |s| || !IsDigit(s[n])
  {
    if |s| > 0 && IsDigit(s[0]) then 1 + DigitRun(s[1..]) else 0
  }

  /** The digit run at the front of `u`, if there is one. */
  function ParseDigits(u: string): Option<nat> {
    var n := DigitRun(u);
    if n == 0 then None else Some(DecimalValue(u[..n]))
  }

  /** One optional sign, then the digit run. */
  function ParseSigned(t: string): Option<int> {
    if |t| > 0 && IsSignChar(t[0]) then
      match ParseDigits(t[1..])
      case None => None
      case Some(v) => Some(Signed(t[..1], v))
    else
      match ParseDigits(t)
      case None => None
      case Some(v) => Some(v)
  }

  /** `parseInt(s, 10)`; `None` is `NaN`. The value `-0` is returned as 0.
      After the leading white space and at most one sign, the number is
      the longest run of digits; it is `NaN` iff that run is empty. */
  function ParseInt(s: string): (r: Option<int>)
    ensures var t := TrimStart(s);
      var sign := if |t| > 0 && IsSignChar(t[0]) then t[..1] else [];
      var u := t[|sign|..];
      && (r.Some? <==> |u| > 0 && IsDigit(u[0]))
      && (r.Some? ==> r.value == Signed(sign, DecimalValue(u[..DigitRun(u)])))
  {
    ParseSigned(TrimStart(s))
  }

  /** Decimal rendering of a natural number, no leading zeros. */
  function NatToDecimal(n: nat): (s: string)
    ensures |s| > 0 && AllDigits(s)
    ensures DecimalValue(s) == n
  {
    if n < 10 then [DigitChar(n)]
    else
      var s := NatToDecimal(n / 10) + [DigitChar(n % 10)];
      assert s[..|s| - 1] == NatToDecimal(n / 10);
      s
  }

  /** Decimal rendering of an integer, as JavaScript's `String(n)` writes it
      for integers below 10^21 in magnitude; beyond that JavaScript switches
      to exponent notation, which this rendering does not. */
  function IntToDecimal(n: int): string {
    if n < 0 then "-" + NatToDecimal(-n) else NatToDecimal(n)
  }

  lemma {:induction false} TrimStartOfSpaces(w: string, t: string)
    requires AllSpace(w)
    requires t == [] || !IsJsSpace(t[0])
    ensures TrimStart(w + t) == t
    decreases |w|
  {
    if |w| > 0 {
      assert (w + t)[1..] == w[1..] + t;
      TrimStartOfSpaces(w[1..], t);
    } else {
      assert w + t == t;
    }
  }

  lemma {:induction false} DigitRunOfDigits(ds: string, rest: string)
    requires AllDigits(ds)
    requires rest == [] || !IsDigit(rest[0])
    ensures DigitRun(ds + rest) == |ds|
    decreases |ds|
  {
    if |ds| > 0 {
      assert (ds + rest)[1..] == ds[1..] + rest;
      DigitRunOfDigits(ds[1..], rest);
    } else {
      assert ds + rest == rest;
    }
  }

  /** Whatever follows the digits is ignored: white space, then an optional
      sign, then digits `ds`, then any `rest` that does not continue the digit
      run, parses to the signed value of `ds`. So "3abc" gives 3 and "-1"
      gives -1; no non-negativity or whole-string check is made. */
  lemma ParseIntAccepts(w: string, sign: string, ds: string, rest: string)
    requires AllSpace(w) && IsSignText(sign)
    requires |ds| > 0 && AllDigits(ds)
    requires rest == [] || !IsDigit(rest[0])
    ensures ParseInt(w + (sign + (ds + rest))) == Some(Signed(sign, DecimalValue(ds)))
  {
    var u := ds + rest;
    var t := sign + u;
    assert !IsJsSpace(t[0]) by {
      assert t[0] == if |sign| == 0 then ds[0] else sign[0];
    }
    TrimStartOfSpaces(w, t);
    ParseDigitsOfDigits(ds, rest);
    ParseSignedOfSign(sign, u);
    assert ParseInt(w + t) == ParseSigned(t);
  }

  lemma ParseDigitsOfDigits(ds: string, rest: string)
    requires |ds| > 0 && AllDigits(ds)
    requires rest == [] || !IsDigit(rest[0])
    ensures ParseDigits(ds + rest) == Some(DecimalValue(ds))
  {
    DigitRunOfDigits(ds, rest);
    assert (ds + rest)[..|ds|] == ds;
  }

  lemma ParseSignedOfSign(sign: string, u: string)
    requires IsSignText(sign)
    requires |u| > 0 && IsDigit(u[0]) && ParseDigits(u).Some?
    ensures ParseSigned(sign + u) == Some(Signed(sign, ParseDigits(u).value))
  {
    var t := sign + u;
    if |sign| == 0 {
      assert t == u;
    } else {
      assert t[1..] == u;
      assert t[..1] == sign;
    }
  }

  /** The `NaN` cases: after the white space and at most one sign, no digit
      follows. A second sign ("-+5") or a space after the sign ("- 5") ends
      the number before it starts. */
  lemma ParseIntRejects(w: string, sign: string, rest: string)
    requires AllSpace(w) && IsSignText(sign)
    requires rest == [] || !IsDigit(rest[0])
    requires |sign| == 0 ==> rest == [] || (!IsJsSpace(rest[0]) && !IsSignChar(rest[0]))
    ensures ParseInt(w + (sign + rest)) == None
  {
    var t := sign + rest;
    TrimStartOfSpaces(w, t);
    assert DigitRun(rest) == 0;
    if |sign| != 0 {
      assert t[1..] == rest;
    } else {
      assert t == rest;
    }
  }

  /** Decimal rendering followed by parsing gives back every integer, even
      when more text follows. */
  lemma ParseIntRoundTrip(n: int, rest: string)
    requires rest == [] || !IsDigit(rest[0])
    ensures ParseInt(IntToDecimal(n) + rest) == Some(n)
  {
    if n < 0 {
      var ds := NatToDecimal(-n);
      assert IntToDecimal(n) + rest == "-" + (ds + rest);
      ParseIntUnpadded("-", ds, rest);
    } else {
      var ds := NatToDecimal(n);
      assert IntToDecimal(n) + rest == ds + rest;
      ParseIntUnpadded("", ds, rest);
      assert "" + (ds + rest) == ds + rest;
    }
  }

  /** The decimal rendering of `n` alone parses to `n`. */
  lemma ParseIntOfDecimal(n: int)
    ensures ParseInt(IntToDecimal(n)) == Some(n)
  {
    ParseIntRoundTrip(n, []);
    assert IntToDecimal(n) + [] == IntToDecimal(n);
  }

  /** `ParseIntAccepts` without leading white space. */
  lemma ParseIntUnpadded(sign: string, ds: string, rest: string)
    requires IsSignText(sign)
    requires |ds| > 0 && AllDigits(ds)
    requires rest == [] || !IsDigit(rest[0])
    ensures ParseInt(sign + (ds + rest)) == Some(Signed(sign, DecimalValue(ds)))
  {
    var u := ds + rest;
    var t := sign + u;
    assert !IsJsSpace(t[0]) by {
      assert t[0] == if |sign| == 0 then ds[0] else sign[0];
    }
    assert TrimStart(t) == t;
    ParseDigitsOfDigits(ds, rest);
    ParseSignedOfSign(sign, u);
  }

  /** `parseInt(undefined, 10)` converts its argument to the text
      "undefined", which has no digits. */
  lemma UndefinedIsNaN()
    ensures ParseInt("undefined") == None
  {
    ParseIntRejects("", "", "undefined");
    assert "" + ("" + "undefined") == "undefined";
  }

  /** Trailing text after the digits is ignored. */
  lemma TrailingTextIgnored()
    ensures ParseInt("3abc") == Some(3)
  {
    assert NatToDecimal(3) == "3";
    assert IntToDecimal(3) + "abc" == "3abc";
    ParseIntRoundTrip(3, "abc");
  }

  /** A leading minus sign is accepted. */
  lemma NegativeAccepted()
    ensures ParseInt("-1") == Some(-1)
  {
    ParseIntOfDecimal(-1);
    assert NatToDecimal(1) == "1";
    assert IntToDecimal(-1) == "-1";
  }

  /** Text with no digits after the sign is `NaN`. */
  lemma NoDigitsRejected()
    ensures ParseInt("abc") == None
  {
    ParseIntRejects("", "", "abc");
    assert "" + ("" + "abc") == "abc";
  }

  /** Only one sign is taken. */
  lemma DoubleSignRejected()
    ensures ParseInt("-+5") == None
  {
    ParseIntRejects("", "-", "+5");
    assert "" + ("-" + "+5") == "-+5";
  }
}
