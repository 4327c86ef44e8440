/** The numbers the quotation form reads and prints: digit strings, the exact
    decimals captured by `\d+(\.\d+)?` (read with `parseFloat`, printed with
    `Number.prototype.toString`), and the integers of `parseInt`, which may be
    `NaN`. */
module Numerals {
  import opened Options
  import opened JsText

  function DigitValue(c: char): nat
    requires IsDigit(c)
  {
    c as int - '0' as int
  }

  function DigitChar(d: nat): (c: char)
    requires d < 10
    ensures IsDigit(c) && DigitValue(c) == d
  {
    (d + '0' as int) as char
  }

  /** The value of a digit string, most significant digit first. */
  function DigitsValue(s: string): nat
    requires AllDigits(s)
  {
    if s == [] then 0 else DigitsValue(s[..|s| - 1]) * 10 + DigitValue(s[|s| - 1])
  }

  function Pow10(n: nat): (r: nat)
    ensures r >= 1
  {
    if n == 0 then 1 else 10 * Pow10(n - 1)
  }

  /** The decimal digits of `n` with no leading zero: what `String(n)` gives
      for a natural number. */
  function NatToString(n: nat): (s: string)
    ensures IsDigits(s) && DigitsValue(s) == n
    ensures |s| > 1 ==> s[0] != '0'
    decreases n
  {
    if n < 10 then [DigitChar(n)]
    else
      var t := NatToString(n / 10);
      var s := t + [DigitChar(n % 10)];
      assert s[..|s| - 1] == t;
      s
  }

  function Zeros(k: nat): (z: string)
    ensures |z| == k && AllDigits(z)
    ensures forall i :: 0 <= i < k ==> z[i] == '0'
  {
    seq(k, _ => '0')
  }

  lemma {:induction false} AllDigitsConcat(a: string, b: string)
    requires AllDigits(a) && AllDigits(b)
    ensures AllDigits(a + b)
  {
  }

  /** Leading zeros do not change the value of a digit string. */
  lemma {:induction false} LeadingZeros(z: string, s: string)
    requires AllDigits(s)
    requires forall i :: 0 <= i < |z| ==> z[i] == '0'
    ensures AllDigits(z + s)
    ensures DigitsValue(z + s) == DigitsValue(s)
  {
    if s == [] {
      assert z + s == z;
      ZerosValue(z);
    } else {
      var t := z + s;
      assert t[..|t| - 1] == z + s[..|s| - 1];
      LeadingZeros(z, s[..|s| - 1]);
    }
  }

  lemma {:induction false} ZerosValue(z: string)
    requires forall i :: 0 <= i < |z| ==> z[i] == '0'
    ensures AllDigits(z) && DigitsValue(z) == 0
  {
    if z != [] {
      ZerosValue(z[..|z| - 1]);
    }
  }

  // ---------------------------------------------------------------------
  // Exact decimals

  /** The number `mantissa / 10^scale`. */
  datatype Dec = Dec(mantissa: nat, scale: nat)

  /** The canonical form: no trailing zero after the decimal point. Two
      normalized decimals are equal exactly when their values are
      (`NormalizedUnique`), so datatype equality models JavaScript's `===`. */
  predicate Normalized(d: Dec) {
    d.scale == 0 || d.mantissa % 10 != 0
  }

  /** `a` and `b` denote the same number. */
  predicate SameValue(a: Dec, b: Dec) {
    a.mantissa * Pow10(b.scale) == b.mantissa * Pow10(a.scale)
  }

  /** The value is greater than zero. */
  predicate IsPositive(d: Dec) {
    d.mantissa > 0
  }

  /** The value is at least `n`. */
  predicate AtLeast(d: Dec, n: nat) {
    d.mantissa >= n * Pow10(d.scale)
  }

  /** The value is at most `n`. */
  predicate AtMost(d: Dec, n: nat) {
    d.mantissa <= n * Pow10(d.scale)
  }

  /** Drops trailing fractional zeros: the result is the same number with
      `d.scale - r.scale` fewer zeros at the end of its mantissa. */
  function Normalize(d: Dec): (r: Dec)
    ensures Normalized(r)
    ensures r.scale <= d.scale && r.mantissa * Pow10(d.scale - r.scale) == d.mantissa
    ensures Normalized(d) ==> r == d
    decreases d.scale
  {
    if d.scale > 0 && d.mantissa % 10 == 0 then
      var r := Normalize(Dec(d.mantissa / 10, d.scale - 1));
      var k := d.scale - 1 - r.scale;
      assert Pow10(k + 1) == Pow10(k) * 10;
      assert r.mantissa * Pow10(k + 1) == (r.mantissa * Pow10(k)) * 10;
      r
    else d
  }

  lemma Cancel(x: int, y: int, k: int)
    requires k > 0 && x * k == y * k
    ensures x == y
  {
    assert (x - y) * k == x * k - y * k;
  }

  lemma MulAssoc(x: int, y: int, z: int)
    ensures x * (y * z) == (x * y) * z
    ensures x * (z * y) == (x * y) * z
  {
  }

  lemma TimesTenMod(x: nat)
    ensures (x * 10) % 10 == 0
  {
  }

  lemma {:induction false} Pow10Add(a: nat, b: nat)
    ensures Pow10(a + b) == Pow10(a) * Pow10(b)
  {
    if b > 0 {
      Pow10Add(a, b - 1);
      assert Pow10(a + b) == 10 * Pow10(a + b - 1);
    }
  }

  /** Normalizing keeps the value. */
  lemma NormalizeSameValue(d: Dec)
    ensures SameValue(Normalize(d), d)
  {
    var r := Normalize(d);
    var k := d.scale - r.scale;
    Pow10Add(r.scale, k);
    MulAssoc(r.mantissa, Pow10(k), Pow10(r.scale));
  }

  lemma NormalizedUniqueOrdered(a: Dec, b: Dec)
    requires Normalized(a) && Normalized(b) && SameValue(a, b)
    requires a.scale <= b.scale
    ensures a == b
  {
    var k := b.scale - a.scale;
    var pa, pk := Pow10(a.scale), Pow10(k);
    Pow10Add(a.scale, k);
    assert Pow10(b.scale) == pa * pk;
    MulAssoc(a.mantissa, pk, pa);
    Cancel(a.mantissa * pk, b.mantissa, pa);
    if k > 0 {
      assert pk == 10 * Pow10(k - 1);
      MulAssoc(a.mantissa, Pow10(k - 1), 10);
      TimesTenMod(a.mantissa * Pow10(k - 1));
      assert false;
    }
  }

  /** Two normalized decimals that denote the same number are identical. */
  lemma NormalizedUnique(a: Dec, b: Dec)
    requires Normalized(a) && Normalized(b)
    ensures SameValue(a, b) <==> a == b
  {
    if SameValue(a, b) {
      if a.scale <= b.scale {
        NormalizedUniqueOrdered(a, b);
      } else {
        NormalizedUniqueOrdered(b, a);
      }
    }
  }

  // ---------------------------------------------------------------------
  // parseFloat and toString

  /** The position of the first `.` in `s`, if any. */
  function DotIndex(s: string): (r: Option<nat>)
    ensures r.None? <==> '.' !in s
    ensures r.Some? ==> r.value < |s| && s[r.value] == '.' && '.' !in s[..r.value]
  {
    if s == [] then None
    else if s[0] == '.' then Some(0)
    else match DotIndex(s[1..])
      case None => None
      case Some(k) =>
        assert s[..k + 1] == [s[0]] + s[1..][..k];
        Some(k + 1)
  }

  /** `\d+(\.\d+)?`: the strings the numeric capture groups hold. */
  predicate IsNumeral(s: string) {
    match DotIndex(s)
    case None => IsDigits(s)
    case Some(k) => IsDigits(s[..k]) && IsDigits(s[k + 1..])
  }

  /** `parseFloat` on what a numeric capture group yields: `undefined`
      (`None`), which gives `NaN` (`None`), or a numeral, which gives its
      exact value in canonical form. Strings that are not numerals never reach
      it and are read as `NaN`. A whole numeral reads as the value of its
      digits, leading zeros included ("010" is ten); a numeral with a point
      reads as its digits without the point, scaled by the length of the
      fraction. */
  function ParseFloat(g: Option<string>): (r: Option<Dec>)
    ensures r.Some? <==> g.Some? && IsNumeral(g.value)
    ensures r.Some? ==> Normalized(r.value)
    ensures g.Some? && IsDigits(g.value) ==> r == Some(Dec(DigitsValue(g.value), 0))
    ensures g.Some? && IsNumeral(g.value) && DotIndex(g.value).Some? ==>
      var k := DotIndex(g.value).value;
      AllDigits(g.value[..k] + g.value[k + 1..])
      && SameValue(r.value, Dec(DigitsValue(g.value[..k] + g.value[k + 1..]), |g.value| - k - 1))
  {
    match g
    case None => None
    case Some(s) =>
      match DotIndex(s)
      case None =>
        if IsDigits(s) then Some(Normalize(Dec(DigitsValue(s), 0))) else None
      case Some(k) =>
        var whole := s[..k];
        var frac := s[k + 1..];
        if IsDigits(whole) && IsDigits(frac) then
          AllDigitsConcat(whole, frac);
          NormalizeSameValue(Dec(DigitsValue(whole + frac), |frac|));
          Some(Normalize(Dec(DigitsValue(whole + frac), |frac|)))
        else None
  }

  /** Leading zeros do not change a dimension: "010" reads as ten. */
  lemma LeadingZerosWhole()
    ensures ParseFloat(Some("010")) == Some(Dec(10, 0))
  {
    assert "010"[..2] == "01" && "01"[..1] == "0" && "0"[..0] == "";
    assert DigitsValue("010") == 10;
  }

  /** Nor do they change a fraction: "05.50" reads as five and a half. */
  lemma LeadingZerosFraction()
    ensures ParseFloat(Some("05.50")) == Some(Dec(55, 1))
  {
    var s := "05.50";
    assert DotIndex(s) == Some(2);
    assert s[..2] + s[3..] == "0550";
    assert "0550"[..3] == "055" && "055"[..2] == "05" && "05"[..1] == "0";
    assert DigitsValue("0550") == 550;
    ParseFraction(s, 2);
    assert Normalize(Dec(55, 1)) == Dec(55, 1);
    assert Normalize(Dec(550, 2)) == Dec(55, 1);
  }

  /** The digits of the mantissa, padded with leading zeros so that at least
      one digit stands before the decimal point. */
  function PaddedDigits(d: Dec): (p: string)
    ensures IsDigits(p) && |p| > d.scale && DigitsValue(p) == d.mantissa
  {
    var ds := NatToString(d.mantissa);
    if |ds| <= d.scale then
      var z := Zeros(d.scale + 1 - |ds|);
      LeadingZeros(z, ds);
      z + ds
    else ds
  }

  /** `Number.prototype.toString` on an exact decimal: plain positional
      notation of its canonical form, with no trailing fractional zero. */
  function NumberToString(d: Dec): string {
    var n := Normalize(d);
    var p := PaddedDigits(n);
    if n.scale == 0 then p
    else p[..|p| - n.scale] + "." + p[|p| - n.scale..]
  }

  /** Printing a number and reading it back with `parseFloat` gives the
      number back. */
  lemma NumberToStringRoundTrip(d: Dec)
    ensures IsNumeral(NumberToString(d))
    ensures ParseFloat(Some(NumberToString(d))) == Some(Normalize(d))
  {
    var n := Normalize(d);
    assert NumberToString(n) == NumberToString(d);
    if n.scale == 0 {
      PrintWhole(n);
    } else {
      PrintFraction(n);
    }
  }

  lemma PrintWhole(n: Dec)
    requires Normalized(n) && n.scale == 0
    ensures IsNumeral(NumberToString(n))
    ensures ParseFloat(Some(NumberToString(n))) == Some(n)
  {
    var p := PaddedDigits(n);
    assert '.' !in p by {
      forall i | 0 <= i < |p| ensures p[i] != '.' {
        assert IsDigit(p[i]);
      }
    }
    assert DotIndex(p).None?;
    assert Normalize(Dec(DigitsValue(p), 0)) == n;
  }

  lemma PrintFraction(n: Dec)
    requires Normalized(n) && n.scale > 0
    ensures IsNumeral(NumberToString(n))
    ensures ParseFloat(Some(NumberToString(n))) == Some(n)
  {
    var p := PaddedDigits(n);
    FractionText(n);
    ReadFraction(NumberToString(n), p, |p| - n.scale, n);
  }

  /** A text made of the digits of `n` with a point `scale` digits from the
      end reads back as `n`. */
  lemma ReadFraction(s: string, p: string, k: nat, n: Dec)
    requires Normalized(n) && IsDigits(p) && DigitsValue(p) == n.mantissa
    requires 0 < k < |p| && |p| - k == n.scale
    requires DotIndex(s) == Some(k) && s[..k] == p[..k] && s[k + 1..] == p[k..]
    ensures IsNumeral(s)
    ensures ParseFloat(Some(s)) == Some(n)
  {
    var whole, frac := s[..k], s[k + 1..];
    assert whole + frac == p by {
      assert p[..k] + p[k..] == p;
    }
    DigitsSlices(p, k);
    ParseFraction(s, k);
    assert Dec(DigitsValue(whole + frac), |s| - k - 1) == n;
  }

  /** `parseFloat` of digits, a point and digits. */
  lemma ParseFraction(s: string, k: nat)
    requires DotIndex(s) == Some(k) && IsDigits(s[..k]) && IsDigits(s[k + 1..])
    ensures AllDigits(s[..k] + s[k + 1..])
    ensures ParseFloat(Some(s)) == Some(Normalize(Dec(DigitsValue(s[..k] + s[k + 1..]), |s| - k - 1)))
  {
    AllDigitsConcat(s[..k], s[k + 1..]);
  }

  lemma DigitsSlices(p: string, k: nat)
    requires IsDigits(p) && 0 < k < |p|
    ensures IsDigits(p[..k]) && IsDigits(p[k..])
  {
    assert forall i :: 0 <= i < k ==> p[..k][i] == p[i];
    assert forall i :: 0 <= i < |p| - k ==> p[k..][i] == p[k + i];
  }

  /** The printed fraction is the padded digits with a point `scale` digits
      from the end. */
  lemma FractionText(n: Dec)
    requires Normalized(n) && n.scale > 0
    ensures var p := PaddedDigits(n); var k := |p| - n.scale; var s := NumberToString(n);
      && DotIndex(s) == Some(k) && s[..k] == p[..k] && s[k + 1..] == p[k..]
  {
    var p := PaddedDigits(n);
    var s := NumberToString(n);
    var k := |p| - n.scale;
    assert s == p[..k] + "." + p[k..];
    assert '.' !in p[..k] by {
      forall i | 0 <= i < k ensures p[..k][i] != '.' {
        assert IsDigit(p[i]);
      }
    }
    SplitDot(p[..k], p[k..]);
  }

  lemma {:induction false} SplitDot(a: string, b: string)
    requires '.' !in a
    ensures DotIndex(a + "." + b) == Some(|a|)
  {
    var s := a + "." + b;
    if a != [] {
      assert s[1..] == a[1..] + "." + b;
      assert '.' !in a[1..];
      SplitDot(a[1..], b);
    }
  }

  // ---------------------------------------------------------------------
  // parseInt

  /** A JavaScript number produced by `parseInt`: an integer or `NaN`. */
  datatype Quantity = Num(value: int) | NaN

  /** The longest prefix of `s` made of digits. */
  function LeadingDigits(s: string): (r: string)
    ensures AllDigits(r) && |r| <= |s| && r == s[..|r|]
    ensures |r| < |s| ==> !IsDigit(s[|r|])
  {
    if s != [] && IsDigit(s[0]) then [s[0]] + LeadingDigits(s[1..]) else []
  }

  /** `parseInt(s)` with no radix, on strings without a `0x` prefix: skips
      leading white space, reads an optional sign and the longest run of
      decimal digits; no digit at all gives `NaN`. A digit string reads as
      its value, and a blank field, the empty one included, as `NaN`. */
  function ParseInt(s: string): (r: Quantity)
    ensures IsDigits(s) ==> r == Num(DigitsValue(s))
    ensures s != [] && IsDigit(s[0]) ==> r == Num(DigitsValue(LeadingDigits(s)))
    ensures (forall i :: 0 <= i < |s| ==> IsSpace(s[i])) ==> r == NaN
  {
    DigitsReadWhole(s);
    var t := TrimStart(s);
    var negative := t != [] && t[0] == '-';
    var body := if t != [] && (t[0] == '-' || t[0] == '+') then t[1..] else t;
    var ds := LeadingDigits(body);
    if ds == [] then NaN
    else if negative then Num(0 - DigitsValue(ds))
    else Num(DigitsValue(ds))
  }

  /** A digit string has no leading white space and is its own longest
      digit prefix. */
  lemma DigitsReadWhole(s: string)
    ensures s != [] && IsDigit(s[0]) ==> TrimStart(s) == s && LeadingDigits(s) != []
    ensures IsDigits(s) ==> LeadingDigits(s) == s
  {
    if s != [] && IsDigit(s[0]) {
      assert !IsSpace(s[0]);
    }
    if IsDigits(s) {
      LeadingDigitsAll(s);
    }
  }

  /** A quantity typed as "2.5" reads as two. */
  lemma ParseIntPrefix()
    ensures ParseInt("2.5") == Num(2)
  {
    var s := "2.5";
    assert !IsDigit(s[1..][0]);
    assert LeadingDigits(s[1..]) == "";
    assert LeadingDigits(s) == "2";
    assert DigitsValue("2") == 2;
  }

  /** A quantity typed as "1e3" reads as one. */
  lemma ParseIntExponent()
    ensures ParseInt("1e3") == Num(1)
  {
    var s := "1e3";
    assert !IsDigit(s[1..][0]);
    assert LeadingDigits(s[1..]) == "";
    assert LeadingDigits(s) == "1";
    assert DigitsValue("1") == 1;
  }

  lemma {:induction false} LeadingDigitsAll(s: string)
    requires AllDigits(s)
    ensures LeadingDigits(s) == s
  {
    if s != [] {
      LeadingDigitsAll(s[1..]);
      assert [s[0]] + s[1..] == s;
    }
  }

  /** `String(q)` for the result of `parseInt`. */
  function QuantityToString(q: Quantity): string {
    match q
    case NaN => "NaN"
    case Num(n) => if n >= 0 then NatToString(n) else "-" + NatToString(-n)
  }

  /** Reading back a printed `parseInt` result gives it back. */
  lemma QuantityToStringRoundTrip(q: Quantity)
    ensures ParseInt(QuantityToString(q)) == q
  {
    match q
    case NaN => NaNRoundTrip();
    case Num(n) =>
      if n >= 0 {
        assert IsDigits(NatToString(n));
      } else {
        NegativeRoundTrip(-n);
      }
  }

  lemma NaNRoundTrip()
    ensures ParseInt("NaN") == NaN
  {
    var s := "NaN";
    assert s[0] == 'N';
    assert TrimStart(s) == s;
    assert LeadingDigits(s) == [];
  }

  lemma NegativeRoundTrip(n: nat)
    requires n > 0
    ensures ParseInt("-" + NatToString(n)) == Num(0 - n)
  {
    var ds := NatToString(n);
    var s := "-" + ds;
    assert s[0] == '-';
    assert TrimStart(s) == s;
    assert s[1..] == ds;
    LeadingDigitsAll(ds);
  }

  /** JavaScript `+` on two such numbers: `NaN` absorbs everything. */
  function Plus(a: Quantity, b: Quantity): Quantity {
    if a.NaN? || b.NaN? then NaN else Num(a.value + b.value)
  }
}
