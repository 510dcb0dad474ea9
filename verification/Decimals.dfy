// The fixed-scale decimal parser and printer (src/seven_lens/analysis/contracts.py:64-65, 209-234).
//
// A value of scale `scale` is the integer number of its smallest units.

module Decimals {
  import opened Orders

  predicate IsDigit(c: char) { '0' <= c <= '9' }

  predicate AllDigits(s: string) { forall i :: 0 <= i < |s| ==> IsDigit(s[i]) }

  function DigitOf(n: nat): (c: char)
    requires n < 10
    ensures IsDigit(c) && c as int - '0' as int == n
  {
    ('0' as int + n) as char
  }

  function ValueOf(c: char): (n: nat)
    requires IsDigit(c)
    ensures n < 10 && DigitOf(n) == c
  {
    c as int - '0' as int
  }

  function Pow10(n: nat): (p: nat)
    ensures p >= 1
  {
    if n == 0 then 1 else 10 * Pow10(n - 1)
  }

  /** The number a digit string denotes. */
  function Number(s: string): nat
    requires AllDigits(s)
  {
    if s == "" then 0 else 10 * Number(s[..|s| - 1]) + ValueOf(s[|s| - 1])
  }

  // ---------------------------------------------------------------- the two parts

  /** A whole part: a lone zero, or digits that do not start with zero. */
  predicate WholePart(s: string) {
    s != "" && AllDigits(s) && (s == "0" || s[0] != '0')
  }

  function WholeText(n: nat): string {
    if n < 10 then [DigitOf(n)] else WholeText(n / 10) + [DigitOf(n % 10)]
  }

  function FractionText(n: nat, width: nat): string {
    if width == 0 then "" else FractionText(n / 10, width - 1) + [DigitOf(n % 10)]
  }

  lemma {:induction false} WholeReads(n: nat)
    ensures WholePart(WholeText(n)) && Number(WholeText(n)) == n
    ensures n > 0 ==> WholeText(n)[0] != '0'
  {
    var s := WholeText(n);
    if n < 10 {
      assert s[..0] == "";
      assert Number(s[..0]) == 0;
    } else {
      WholeReads(n / 10);
      assert s[..|s| - 1] == WholeText(n / 10);
    }
  }

  lemma {:induction false} WholeWrites(s: string)
    requires WholePart(s)
    ensures WholeText(Number(s)) == s
  {
    var rest, last := s[..|s| - 1], s[|s| - 1];
    assert s == rest + [last];
    if rest == "" {
      assert Number(rest) == 0;
    } else {
      WholeWrites(rest);
      WholePositive(rest);
    }
  }

  lemma {:induction false} WholePositive(s: string)
    requires WholePart(s) && s[0] != '0'
    ensures Number(s) > 0
  {
    if |s| == 1 { assert Number(s[..0]) == 0; } else { WholePositive(s[..|s| - 1]); }
  }

  lemma {:induction false} FractionReads(n: nat, width: nat)
    requires n < Pow10(width)
    ensures |FractionText(n, width)| == width && AllDigits(FractionText(n, width))
    ensures Number(FractionText(n, width)) == n
  {
    if width > 0 {
      FractionReads(n / 10, width - 1);
      var s := FractionText(n, width);
      assert s[..|s| - 1] == FractionText(n / 10, width - 1);
    }
  }

  lemma {:induction false} FractionWrites(s: string)
    requires AllDigits(s)
    ensures Number(s) < Pow10(|s|) && FractionText(Number(s), |s|) == s
  {
    if s != "" {
      FractionWrites(s[..|s| - 1]);
      assert s == s[..|s| - 1] + [s[|s| - 1]];
    }
  }

  // ---------------------------------------------------------------- texts of values

  function Quotient(n: nat, p: nat): nat
    requires p >= 1
  {
    n / p
  }

  function Remainder(n: nat, p: nat): nat
    requires p >= 1
  {
    n % p
  }

  lemma DivideOnce(n: nat, p: nat)
    requires p >= 1
    ensures Quotient(n, p) * p + Remainder(n, p) == n && Remainder(n, p) < p
  {
  }

  lemma DivideBack(q: nat, r: nat, p: nat)
    requires r < p
    ensures Quotient(q * p + r, p) == q && Remainder(q * p + r, p) == r
  {
    var n := q * p + r;
    var d := n / p;
    assert d * p <= n < d * p + p;
    assert (d - q) * p <= r < (d - q) * p + p;
    if d - q >= 1 { MultipleAtLeast(d - q, p); }
    if q - d >= 1 { MultipleAtLeast(q - d, p); }
    assert d == q;
  }

  lemma MultipleAtLeast(k: int, p: nat)
    requires k >= 1
    ensures k * p >= p && (0 - k) * p <= 0 - p
  {
  }

  /** The printer: sign, whole part, point, exactly `scale` digits. */
  function DecimalText(n: int, scale: nat): string {
    var units: nat := if n < 0 then -n else n;
    (if n < 0 then "-" else "") + WholeText(Quotient(units, Pow10(scale))) + "." + FractionText(Remainder(units, Pow10(scale)), scale)
  }

  function PointAt(s: string): (i: nat)
    ensures i <= |s| && (i < |s| ==> s[i] == '.') && forall j :: 0 <= j < i ==> s[j] != '.'
  {
    if s == "" || s[0] == '.' then 0 else 1 + PointAt(s[1..])
  }

  function Joined(whole: nat, fraction: nat, scale: nat): nat {
    whole * Pow10(scale) + fraction
  }

  /** The units of an unsigned text with one point and exactly `scale` digits after it. */
  function Units(body: string, scale: nat): Option<nat> {
    var p := PointAt(body);
    if !WholePart(body[..p]) || p == |body| then None
    else
      var fraction := body[p + 1..];
      if fraction == "" || !AllDigits(fraction) || |fraction| != scale then None
      else Some(Joined(Number(body[..p]), Number(fraction), scale))
  }

  /** The parser: signs only when the range is signed, never a negative zero. */
  function Parse(text: string, scale: nat, minimum: int, maximum: int): Option<int> {
    var negative := minimum < 0 && text != "" && text[0] == '-';
    var units := Units(if negative then text[1..] else text, scale);
    if units.None? then None
    else if negative && units.value == 0 then None
    else
      var n: int := if negative then 0 - units.value else units.value;
      if minimum <= n <= maximum then Some(n) else None
  }

  lemma UnitsOfText(n: nat, scale: nat)
    requires scale >= 1
    ensures Units(DecimalText(n, scale), scale) == Some(n)
    ensures DecimalText(n, scale)[0] != '-'
  {
    hide Quotient, Remainder, Pow10;
    var p := Pow10(scale);
    var q, r := Quotient(n, p), Remainder(n, p);
    DivideOnce(n, p);
    var whole, fraction := WholeText(q), FractionText(r, scale);
    WholeReads(q);
    FractionReads(r, scale);
    var body := DecimalText(n, scale);
    assert body == whole + "." + fraction;
    PointFollows(whole, fraction);
    assert body[..|whole|] == whole && body[|whole| + 1..] == fraction;
  }

  lemma {:induction false} PointFollows(whole: string, fraction: string)
    requires forall i :: 0 <= i < |whole| ==> whole[i] != '.'
    ensures PointAt(whole + "." + fraction) == |whole|
  {
    if whole != "" {
      assert (whole + "." + fraction)[1..] == whole[1..] + "." + fraction;
      PointFollows(whole[1..], fraction);
    }
  }

  lemma TextOfUnits(body: string, scale: nat)
    requires Units(body, scale).Some?
    ensures DecimalText(Units(body, scale).value, scale) == body
  {
    hide Quotient, Remainder, Pow10, Number, WholeText, FractionText, PointAt;
    var p := PointAt(body);
    var whole, fraction := body[..p], body[p + 1..];
    WholeWrites(whole);
    FractionWrites(fraction);
    var n := Units(body, scale).value;
    DivideBack(Number(whole), Number(fraction), Pow10(scale));
    assert body == whole + "." + fraction;
  }

  /**
   * The round trip: a text is accepted as `n` exactly when `n` is in range and the text is
   * what the printer writes for `n`.  So leading zeros, another scale and negative zero are
   * refused, and no two accepted texts mean the same value.
   */
  lemma ParseInvertsText(text: string, n: int, scale: nat, minimum: int, maximum: int)
    requires scale >= 1
    ensures Parse(text, scale, minimum, maximum) == Some(n) <==> minimum <= n <= maximum && text == DecimalText(n, scale)
  {
    hide Quotient, Remainder, Pow10, Units;
    if minimum <= n <= maximum && text == DecimalText(n, scale) {
      if n < 0 {
        assert text[1..] == DecimalText(-n, scale);
        UnitsOfText(-n, scale);
      } else {
        UnitsOfText(n, scale);
      }
    }
    if Parse(text, scale, minimum, maximum) == Some(n) {
      if n < 0 {
        TextOfUnits(text[1..], scale);
        assert text == "-" + text[1..];
      } else {
        TextOfUnits(text, scale);
      }
    }
  }
}
