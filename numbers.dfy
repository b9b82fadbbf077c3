/** The part of JavaScript's number handling the pages rely on: `parseFloat`
    on the text of an amount field, and the decimal text of a number
    (`String(n)`, `n.toString()`) that is fed back into such a field. */
module JsNumber {
  import opened Wrappers
  import opened Text

  function Pow10(n: nat): (r: nat)
    ensures r >= 1
  {
    if n == 0 then 1 else 10 * Pow10(n - 1)
  }

  function DigitValue(c: char): (d: nat)
    requires IsDigit(c)
    ensures d < 10
  {
    c as int - '0' as int
  }

  function DigitChar(d: nat): (c: char)
    requires d < 10
    ensures IsDigit(c) && DigitValue(c) == d
  {
    ('0' as int + d) as char
  }

  predicate AllDigits(s: string) {
    forall i :: 0 <= i < |s| ==> IsDigit(s[i])
  }

  /** The number a run of decimal digits denotes, read left to right. */
  function DigitsValue(ds: string): nat
    requires AllDigits(ds)
  {
    if ds == [] then 0 else 10 * DigitsValue(ds[..|ds| - 1]) + DigitValue(ds[|ds| - 1])
  }

  /** Length of the run of digits at the front of `s`. */
  function DigitRun(s: string): (n: nat)
    ensures n <= |s|
    ensures AllDigits(s[..n])
    ensures n == |s| || !IsDigit(s[n])
  {
    if s != [] && IsDigit(s[0]) then 1 + DigitRun(s[1..]) else 0
  }

  predicate IsSpace(c: char) {
    c == ' ' || c == '\t' || c == '\n' || c == '\r'
  }

  function SkipSpaces(s: string): (r: string)
    ensures |r| <= |s|
    ensures r == [] || !IsSpace(r[0])
  {
    if s != [] && IsSpace(s[0]) then SkipSpaces(s[1..]) else s
  }

  /** 10 to the power `e`, for any integer `e`. */
  function Scale(e: int): (r: real)
    ensures r > 0.0
  {
    if e >= 0 then Pow10(e) as real else 1.0 / Pow10(-e) as real
  }

  /** The decimal exponent at the front of `s` (`e12`, `E-3`), or 0 when `s` does
      not start with one; an `e` not followed by digits is ignored, as in JavaScript. */
  function Exponent(s: string): int {
    if s == [] || (s[0] != 'e' && s[0] != 'E') then 0
    else
      var v := s[1..];
      var neg := v != [] && v[0] == '-';
      var body := if v != [] && (v[0] == '-' || v[0] == '+') then v[1..] else v;
      var k := DigitRun(body);
      if k == 0 then 0
      else if neg then -(DigitsValue(body[..k]) as int) else DigitsValue(body[..k])
  }

  /** The number written `whole.frac`. */
  function Mantissa(whole: nat, frac: string): real
    requires AllDigits(frac)
  {
    whole as real + FractionValue(frac)
  }

  /** The value of the digits after the point: `0.d1d2…`. */
  function FractionValue(frac: string): (r: real)
    requires AllDigits(frac)
    ensures 0.0 <= r <= 1.0
  {
    if frac == [] then 0.0 else (DigitValue(frac[0]) as real + FractionValue(frac[1..])) / 10.0
  }

  /** The number with whole digits `whole` and fraction digits `frac`, scaled
      by the exponent at the front of `after`; `None` when there is no digit
      at all. */
  function Reading(whole: string, frac: string, after: string): Option<real>
    requires AllDigits(whole) && AllDigits(frac)
  {
    if |whole| + |frac| == 0 then None
    else
      var e := Exponent(after);
      Some(if e == 0 then Mantissa(DigitsValue(whole), frac) else Mantissa(DigitsValue(whole), frac) * Scale(e))
  }

  /** What may follow the whole digits: a point and fraction digits, then the
      exponent. */
  function ReadAfterWhole(whole: string, rest: string): Option<real>
    requires AllDigits(whole)
  {
    if rest != [] && rest[0] == '.' then
      var t := rest[1..];
      var k := DigitRun(t);
      Reading(whole, t[..k], t[k..])
    else Reading(whole, "", rest)
  }

  /** The unsigned part of `parseFloat`: digits with an optional fraction (at
      least one digit in all) and an optional exponent; whatever follows is
      ignored. */
  function ParseUnsigned(u: string): Option<real> {
    var n := DigitRun(u);
    ReadAfterWhole(u[..n], u[n..])
  }

  function Negated(r: Option<real>): Option<real> {
    if r.None? then None else Some(-r.value)
  }

  /** `parseFloat(s)`, with `None` standing for `NaN`: leading white space is
      skipped, then an optional sign and the unsigned number are read. */
  function ParseFloat(s: string): (r: Option<real>)
    ensures var t := SkipSpaces(s);
      t == [] || (!IsDigit(t[0]) && t[0] != '-' && t[0] != '+' && t[0] != '.') ==> r.None?
  {
    var t := SkipSpaces(s);
    if t != [] && t[0] == '-' then Negated(ParseUnsigned(t[1..]))
    else if t != [] && t[0] == '+' then ParseUnsigned(t[1..])
    else ParseUnsigned(t)
  }

  /** The decimal text of a natural number, without leading zeros. */
  function NatToString(n: nat): (s: string)
    ensures s != [] && AllDigits(s)
    ensures DigitsValue(s) == n
  {
    if n < 10 then [DigitChar(n)]
    else
      var s := NatToString(n / 10) + [DigitChar(n % 10)];
      assert s[..|s| - 1] == NatToString(n / 10);
      s
  }

  type Digits = s: string | AllDigits(s)

  /** A number with finitely many decimal places, as `toString` writes it:
      a sign, the whole part, and the digits after the point. */
  datatype Decimal = Decimal(negative: bool, whole: nat, fraction: Digits) {
    function Magnitude(): real {
      Mantissa(whole, fraction)
    }
    function Value(): real {
      if negative then -Magnitude() else Magnitude()
    }
  }

  /** The text of a decimal: `-` when negative, the whole part, and a point
      followed by the fraction digits when there are any. */
  function DecimalText(d: Decimal): (s: string)
    ensures s != []
  {
    var body := NatToString(d.whole) + (if d.fraction == [] then "" else "." + d.fraction);
    if d.negative then "-" + body else body
  }

  lemma {:induction false} DigitRunStops(w: string, f: string)
    requires AllDigits(w)
    requires f == [] || !IsDigit(f[0])
    ensures DigitRun(w + f) == |w|
  {
    if w != [] {
      assert (w + f)[1..] == w[1..] + f;
      DigitRunStops(w[1..], f);
    } else {
      assert w + f == f;
    }
  }

  lemma DigitRunAll(w: string)
    requires AllDigits(w)
    ensures DigitRun(w) == |w|
  {
    DigitRunStops(w, "");
    assert w + "" == w;
  }

  /** The whole part followed by the point and the fraction digits reads back
      as whole plus fraction. */
  lemma ParseWholeAndFraction(w: string, f: string)
    requires w != [] && AllDigits(w) && f != [] && AllDigits(f)
    ensures ParseUnsigned(w + "." + f)
            == Some(Mantissa(DigitsValue(w), f))
  {
    var u := w + "." + f;
    DigitRunStops(w, "." + f);
    assert u == w + ("." + f);
    assert u[..|w|] == w && u[|w|..] == "." + f;
    assert ParseUnsigned(u) == ReadAfterWhole(w, "." + f);
    assert ("." + f)[1..] == f;
    DigitRunAll(f);
    assert f[..|f|] == f && f[|f|..] == [];
    assert ReadAfterWhole(w, "." + f) == Reading(w, f, []);
    assert Exponent([]) == 0 && Scale(0) == 1.0;
  }

  /** A run of digits alone reads back as its value. */
  lemma ParseWhole(w: string)
    requires w != [] && AllDigits(w)
    ensures ParseUnsigned(w) == Some(DigitsValue(w) as real)
  {
    DigitRunAll(w);
    assert w[..|w|] == w;
    assert w[|w|..] == [];
    assert ParseUnsigned(w) == Reading(w, "", []);
    assert DigitsValue("") == 0 && Pow10(0) == 1;
    assert Exponent([]) == 0 && Scale(0) == 1.0;
  }

  /** The text of a decimal without its sign reads back as its magnitude. */
  lemma ParseMagnitudeText(d: Decimal)
    ensures ParseUnsigned(NatToString(d.whole) + (if d.fraction == [] then "" else "." + d.fraction))
            == Some(d.Magnitude())
  {
    var w := NatToString(d.whole);
    if d.fraction == [] {
      assert w + "" == w;
      ParseWhole(w);
    } else {
      assert w + ("." + d.fraction) == w + "." + d.fraction;
      ParseWholeAndFraction(w, d.fraction);
    }
  }

  /** Text starting with a digit is read by the unsigned part alone. */
  lemma ParseFloatDigitFirst(u: string)
    requires u != [] && IsDigit(u[0])
    ensures ParseFloat(u) == ParseUnsigned(u)
  {
    assert SkipSpaces(u) == u;
  }

  /** With a minus sign in front, text starting with a digit reads as the
      negated number. */
  lemma ParseFloatMinusDigit(u: string)
    requires u != [] && IsDigit(u[0])
    ensures ParseFloat("-" + u) == Negated(ParseUnsigned(u))
  {
    var t := "-" + u;
    assert SkipSpaces(t) == t;
    assert t[1..] == u;
  }

  lemma ParseSignedText(negative: bool, body: string, m: real)
    requires body != [] && IsDigit(body[0]) && ParseUnsigned(body) == Some(m)
    ensures ParseFloat(if negative then "-" + body else body) == Some(if negative then -m else m)
  {
    if negative {
      ParseFloatMinusDigit(body);
    } else {
      ParseFloatDigitFirst(body);
    }
  }

  /** Reading back the text of a decimal gives the decimal's value. */
  lemma ParseDecimalText(d: Decimal)
    ensures ParseFloat(DecimalText(d)) == Some(d.Value())
  {
    var body := NatToString(d.whole) + (if d.fraction == [] then "" else "." + d.fraction);
    assert IsDigit(body[0]);
    ParseMagnitudeText(d);
    ParseSignedText(d.negative, body, d.Magnitude());
  }

  /** `parseFloat(String(n))` gives `n` back for every natural number. */
  lemma ParseNatText(n: nat)
    ensures ParseFloat(NatToString(n)) == Some(n as real)
  {
    var d := Decimal(false, n, "");
    assert NatToString(n) + "" == NatToString(n);
    assert DecimalText(d) == NatToString(n);
    assert DigitsValue("") == 0 && Pow10(0) == 1;
    assert d.Value() == n as real;
    ParseDecimalText(d);
  }
}
