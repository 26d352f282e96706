/**
 * The numeric conversions the parsers apply to OCR text: Python's `float()`
 * and `int()` on the subset of inputs they meet here (an optional sign, ASCII
 * digits, at most one decimal point, surrounding whitespace). A float is kept
 * as the exact decimal it was written as, and `round(x, 4)` rounds that exact
 * decimal half-to-even.
 */
module Numbers {
  import opened Strings

  function Pow10(n: nat): (p: nat)
    ensures p >= 1
  {
    if n == 0 then 1 else 10 * Pow10(n - 1)
  }

  /** The value of a run of decimal digits; the empty run is 0. */
  function DigitsValue(s: string): (n: nat)
    requires AllDigits(s)
    ensures n < Pow10(|s|)
  {
    if s == [] then 0 else DigitsValue(s[..|s| - 1]) * 10 + (s[|s| - 1] as int - '0' as int)
  }

  /** Appending digits shifts the value of the prefix left by their count. */
  lemma {:induction false} DigitsValueAppend(a: string, b: string)
    requires AllDigits(a) && AllDigits(b)
    ensures AllDigits(a + b)
    ensures DigitsValue(a + b) == DigitsValue(a) * Pow10(|b|) + DigitsValue(b)
  {
    if b == [] {
      assert a + b == a;
    } else {
      var b' := b[..|b| - 1];
      assert (a + b)[..|a + b| - 1] == a + b';
      DigitsValueAppend(a, b');
      var d := b[|b| - 1] as int - '0' as int;
      var x, y, p := DigitsValue(a), DigitsValue(b'), Pow10(|b'|);
      assert (a + b)[|a + b| - 1] == b[|b| - 1];
      assert DigitsValue(a + b) == DigitsValue(a + b') * 10 + d;
      assert DigitsValue(b) == y * 10 + d;
      assert Pow10(|b|) == 10 * p;
      ShiftStep(x, p, y, d);
    }
  }

  lemma ShiftStep(x: int, p: int, y: int, d: int)
    ensures (x * p + y) * 10 + d == x * (10 * p) + (y * 10 + d)
  {
    assert (x * p) * 10 == x * (10 * p);
  }

  lemma ScaleDown(n: int, x: int, p: int, y: int)
    requires p > 0 && n == x * p + y
    ensures n as real / p as real == x as real + y as real / p as real
  {
    assert (x * p) as real == x as real * p as real;
  }

  /** An exact decimal number: `mantissa` times ten to the power `-scale`. */
  datatype Decimal = Decimal(mantissa: int, scale: nat)
  {
    /** The number denoted. */
    function Real(): real {
      mantissa as real / Pow10(scale) as real
    }

    /** The same number with its sign flipped. */
    function Negate(): (r: Decimal)
      ensures r.scale == scale && r.mantissa == -mantissa
    {
      Decimal(-mantissa, scale)
    }
  }

  /** A decimal with a positive mantissa is a positive number. */
  lemma PositiveReal(d: Decimal)
    requires d.mantissa > 0
    ensures d.Real() > 0.0
  {
    assert Pow10(d.scale) > 0;
  }

  /** A whole number as a decimal. */
  function FromInt(n: int): (d: Decimal)
    ensures d.Real() == n as real
  {
    Decimal(n, 0)
  }

  /** Unsigned decimal syntax: digits with at most one '.', and at least one digit. */
  predicate IsUnsignedLiteral(s: string) {
    || IsDigits(s)
    || (|s| >= 2 && exists p | 0 <= p < |s| :: s[p] == '.' && AllDigits(s[..p]) && AllDigits(s[p + 1..]))
  }

  /** The value of the literal `whole.frac`, read positionally. */
  function DecimalValue(whole: string, frac: string): (v: real)
    requires AllDigits(whole) && AllDigits(frac)
  {
    DigitsValue(whole) as real + DigitsValue(frac) as real / Pow10(|frac|) as real
  }

  /** `whole.frac` is the integer `wholefrac` over a power of ten. */
  lemma DecimalValueScaled(whole: string, frac: string)
    requires AllDigits(whole) && AllDigits(frac)
    ensures AllDigits(whole + frac)
    ensures DecimalValue(whole, frac) == Decimal(DigitsValue(whole + frac), |frac|).Real()
  {
    DigitsValueAppend(whole, frac);
    var x, p, y := DigitsValue(whole), Pow10(|frac|), DigitsValue(frac);
    ScaleDown(DigitsValue(whole + frac), x, p, y);
  }

  /** `float(s)` for an unsigned literal without surrounding whitespace: the digits
      with the point removed, scaled by the number of digits after the point. */
  function ParseUnsigned(s: string): (r: Option<Decimal>)
    ensures r.Some? ==> r.value.mantissa >= 0
  {
    match IndexOf(s, '.')
    case None =>
      if IsDigits(s) then Some(Decimal(DigitsValue(s), 0)) else None
    case Some(p) =>
      var whole, frac := s[..p], s[p + 1..];
      if |s| >= 2 && AllDigits(whole) && AllDigits(frac) then
        AllDigitsAppend(whole, frac);
        Some(Decimal(DigitsValue(whole + frac), |frac|))
      else None
  }

  /** `ParseUnsigned` accepts exactly the unsigned literals. */
  lemma ParseUnsignedSyntax(s: string)
    ensures ParseUnsigned(s).Some? <==> IsUnsignedLiteral(s)
  {
    match IndexOf(s, '.')
    case None =>
    case Some(p) =>
      AllDigitsAt(s);
      forall q | 0 <= q < |s| && s[q] == '.' && AllDigits(s[..q])
        ensures q == p
      {
        AllDigitsAt(s[..q]);
      }
  }

  /** The first '.' of "a.b" is the one after `a` when `a` has none. */
  lemma {:induction false} IndexOfSeparator(a: string, b: string)
    requires '.' !in a
    ensures IndexOf(a + "." + b, '.') == Some(|a|)
  {
    if a != [] {
      assert (a + "." + b)[1..] == a[1..] + "." + b;
      IndexOfSeparator(a[1..], b);
    }
  }

  /** "a.b" is read as the value of `a` plus that of `b` scaled down by its length. */
  lemma ParseUnsignedSplit(a: string, b: string)
    requires AllDigits(a) && AllDigits(b) && |a| + |b| >= 1
    ensures ParseUnsigned(a + "." + b).Some?
    ensures ParseUnsigned(a + "." + b).value.scale == |b|
    ensures ParseUnsigned(a + "." + b).value.Real() == DecimalValue(a, b)
  {
    ParseUnsignedJoin(a, b);
    DecimalValueScaled(a, b);
  }

  /** "a.b" is read as the digits of `a` and `b` run together, with `|b|` places. */
  lemma ParseUnsignedJoin(a: string, b: string)
    requires AllDigits(a) && AllDigits(b) && |a| + |b| >= 1
    ensures AllDigits(a + b)
    ensures ParseUnsigned(a + "." + b) == Some(Decimal(DigitsValue(a + b), |b|))
  {
    var s := a + "." + b;
    AllDigitsAt(a);
    AllDigitsAppend(a, b);
    assert '.' !in a;
    IndexOfSeparator(a, b);
    assert s[..|a|] == a;
    assert s[|a| + 1..] == b;
  }

  /** A run of digits is read as its integer value. */
  lemma ParseUnsignedDigits(s: string)
    requires IsDigits(s)
    ensures ParseUnsigned(s) == Some(FromInt(DigitsValue(s)))
  {
    assert IndexOf(s, '.') == None by {
      AllDigitsAt(s);
      assert forall i | 0 <= i < |s| :: s[i] != '.';
    }
  }

  /** `float(t)` on a stripped string: an optional sign before an unsigned literal. */
  function ParseDecimal(t: string): (r: Option<Decimal>)
    ensures r.Some? && t != [] && t[0] == '-' ==> r.value.mantissa <= 0
    ensures r.Some? && (t == [] || t[0] != '-') ==> r.value.mantissa >= 0
  {
    if t != [] && t[0] == '-' then
      match ParseUnsigned(t[1..])
      case None => None
      case Some(v) => Some(v.Negate())
    else if t != [] && t[0] == '+' then ParseUnsigned(t[1..])
    else ParseUnsigned(t)
  }

  /** `ParseDecimal` accepts exactly an optional sign followed by an unsigned literal. */
  lemma ParseDecimalSyntax(t: string)
    ensures ParseDecimal(t).Some? <==>
      if t != [] && (t[0] == '-' || t[0] == '+') then IsUnsignedLiteral(t[1..]) else IsUnsignedLiteral(t)
  {
    if t != [] && (t[0] == '-' || t[0] == '+') {
      ParseUnsignedSyntax(t[1..]);
    } else {
      ParseUnsignedSyntax(t);
    }
  }

  /** Python `float(s)`: surrounding whitespace is ignored. */
  function ParseFloat(s: string): (r: Option<Decimal>)
  {
    ParseDecimal(Strip(s))
  }

  /** `float` ignores surrounding whitespace and accepts exactly the signed literals. */
  lemma ParseFloatSyntax(s: string)
    ensures var t := Strip(s);
      ParseFloat(s).Some? <==>
        if t != [] && (t[0] == '-' || t[0] == '+') then IsUnsignedLiteral(t[1..]) else IsUnsignedLiteral(t)
  {
    ParseDecimalSyntax(Strip(s));
  }

  /** "a.b" with a leading and a trailing digit is read by `float` as written: the digits
      of `a` and `b` run together, with `|b|` places after the point. */
  lemma ParseFloatPoint(s: string, a: string, b: string)
    requires s == a + "." + b && a != [] && b != []
    requires AllDigits(a) && AllDigits(b)
    ensures AllDigits(a + b)
    ensures ParseFloat(s) == Some(Decimal(DigitsValue(a + b), |b|))
  {
    AllDigitsAt(a);
    AllDigitsAt(b);
    assert s[0] == a[0] && s[|s| - 1] == b[|b| - 1];
    StripStripped(s);
    assert ParseDecimal(s) == ParseUnsigned(s);
    ParseUnsignedJoin(a, b);
  }

  /** Python `int(s)`: surrounding whitespace, an optional sign, then decimal digits. */
  function ParseInt(s: string): (r: Option<int>)
    ensures var t := Strip(s);
      r.Some? <==> IsDigits(t) || (|t| >= 2 && (t[0] == '-' || t[0] == '+') && IsDigits(t[1..]))
  {
    var t := Strip(s);
    if IsDigits(t) then Some(DigitsValue(t))
    else if |t| >= 2 && t[0] == '-' && IsDigits(t[1..]) then Some(-(DigitsValue(t[1..]) as int))
    else if |t| >= 2 && t[0] == '+' && IsDigits(t[1..]) then Some(DigitsValue(t[1..]))
    else None
  }

  /** A string of digits is read by `int` as its decimal value. */
  lemma ParseIntDigits(s: string)
    requires IsDigits(s)
    ensures ParseInt(s) == Some(DigitsValue(s))
  {
    AllDigitsAt(s);
    StripStripped(s);
  }

  /** `x / 100`, exactly: two more places after the point. */
  function Hundredth(d: Decimal): (r: Decimal)
    ensures r.mantissa == d.mantissa
  {
    Decimal(d.mantissa, d.scale + 2)
  }

  /** Dividing by a hundred is what `Hundredth` does. */
  lemma HundredthReal(d: Decimal)
    ensures Hundredth(d).Real() == d.Real() / 100.0
  {
    var m, p := d.mantissa as real, Pow10(d.scale) as real;
    assert Pow10(d.scale + 2) as real == 100.0 * p;
    assert m / (100.0 * p) == (m / p) / 100.0;
  }

  /** What dropping the lowest digits of a magnitude leaves: the digits kept, the
      highest digit dropped, and whether any lower dropped digit is non-zero. */
  datatype Cut = Cut(kept: nat, digit: nat, sticky: bool)

  /** Drops the lowest `k` digits of `m`, one at a time. */
  function DropDigits(m: nat, k: nat): (c: Cut)
    ensures c.digit < 10
    ensures k == 0 ==> c == Cut(m, 0, false)
  {
    if k == 0 then Cut(m, 0, false)
    else
      var c := DropDigits(m, k - 1);
      Cut(c.kept / 10, c.kept % 10, c.sticky || c.digit != 0)
  }

  /** After dropping `k >= 1` digits, `m` is the kept digits shifted back, plus the highest
      dropped digit in its place, plus the lower dropped digits, which are non-zero
      exactly when the sticky flag is set. */
  lemma {:induction false} DropDigitsSplit(m: nat, k: nat) returns (low: nat)
    requires k >= 1
    ensures var c := DropDigits(m, k);
      && m == c.kept * Pow10(k) + c.digit * Pow10(k - 1) + low
      && low < Pow10(k - 1)
      && (c.sticky <==> low > 0)
  {
    var c := DropDigits(m, k);
    if k == 1 {
      low := 0;
    } else {
      var prev := DropDigits(m, k - 1);
      var lowPrev := DropDigitsSplit(m, k - 1);
      var q := Pow10(k - 2);
      low := prev.digit * q + lowPrev;
      Regroup(m, c.kept, c.digit, prev.digit * q + lowPrev, Pow10(k - 1), Pow10(k));
      DigitBound(prev.digit, q, lowPrev);
    }
  }

  lemma Regroup(m: int, kept: int, digit: int, rest: int, p: int, p10: int)
    requires m == (10 * kept + digit) * p + rest && p10 == 10 * p
    ensures m == kept * p10 + digit * p + rest
  {
    assert (10 * kept + digit) * p == kept * (10 * p) + digit * p;
  }

  lemma DigitBound(digit: nat, q: nat, low: nat)
    requires digit < 10 && low < q
    ensures digit * q + low < 10 * q
    ensures digit * q + low == 0 <==> digit == 0 && low == 0
  {
    assert digit * q <= 9 * q;
  }

  /** `m` with its lowest `k` digits rounded away, half to even. */
  function RoundDigits(m: nat, k: nat): (n: nat)
  {
    var c := DropDigits(m, k);
    if c.digit > 5 || (c.digit == 5 && c.sticky) then c.kept + 1
    else if c.digit < 5 then c.kept
    else if c.kept % 2 == 0 then c.kept
    else c.kept + 1
  }

  /** Python `round(x, 4)` on the exact decimal: at most four places after the point,
      halves to the even neighbour, symmetric about zero. */
  function Round4(d: Decimal): (r: Decimal)
    ensures r.scale <= 4
    ensures d.scale <= 4 ==> r == d
    ensures d.scale > 4 ==> r.scale == 4
    ensures (d.mantissa >= 0 ==> r.mantissa >= 0) && (d.mantissa < 0 ==> r.mantissa <= 0)
  {
    if d.scale <= 4 then d
    else if d.mantissa < 0 then Decimal(-(RoundDigits(-d.mantissa, d.scale - 4) as int), 4)
    else Decimal(RoundDigits(d.mantissa, d.scale - 4), 4)
  }

  function Distance(a: int, b: int): nat {
    if a >= b then a - b else b - a
  }

  /** `RoundDigits` gives the nearest multiple of `10^k`: off by at most half of it,
      and by exactly half only when the kept digits end in an even digit. */
  lemma RoundDigitsNearest(m: nat, k: nat)
    requires k >= 1
    ensures var n := RoundDigits(m, k);
      && 2 * Distance(n * Pow10(k), m) <= Pow10(k)
      && (2 * Distance(n * Pow10(k), m) == Pow10(k) ==> n % 2 == 0)
  {
    var c := DropDigits(m, k);
    var low := DropDigitsSplit(m, k);
    NearestStep(m, c.kept, c.digit, low, Pow10(k - 1), Pow10(k), RoundDigits(m, k), c.sticky);
  }

  lemma NearestStep(m: int, kept: nat, digit: nat, low: nat, q: nat, p: nat, n: nat, sticky: bool)
    requires digit < 10 && low < q && p == 10 * q
    requires m == kept * p + digit * q + low
    requires sticky <==> low > 0
    requires n == if digit > 5 || (digit == 5 && sticky) then kept + 1
                 else if digit < 5 then kept
                 else if kept % 2 == 0 then kept else kept + 1
    ensures 2 * Distance(n * p, m) <= p && (2 * Distance(n * p, m) == p ==> n % 2 == 0)
  {
    assert (kept + 1) * p == kept * p + p;
    if digit > 5 {
      assert digit * q >= 6 * q;
    } else if digit == 5 {
      assert digit * q == 5 * q;
    } else {
      assert digit * q <= 4 * q;
    }
  }

  /** `round(x, 4)` with more than four places: the result, read at four places, is within
      half a unit of the fourth place of `x`, and an exact half goes to the even neighbour. */
  lemma Round4Nearest(d: Decimal)
    requires d.scale > 4
    ensures var r, p := Round4(d), Pow10(d.scale - 4);
      && 2 * Distance(r.mantissa * p, d.mantissa) <= p
      && (2 * Distance(r.mantissa * p, d.mantissa) == p ==> r.mantissa % 2 == 0)
  {
    var k := d.scale - 4;
    if d.mantissa < 0 {
      var n := RoundDigits(-d.mantissa, k);
      RoundDigitsNearest(-d.mantissa, k);
      NegatedDistance(n, Pow10(k), -d.mantissa);
    } else {
      RoundDigitsNearest(d.mantissa, k);
    }
  }

  lemma NegatedDistance(n: int, p: int, m: int)
    ensures Distance((-n) * p, -m) == Distance(n * p, m)
  {
    assert (-n) * p == -(n * p);
  }
}
