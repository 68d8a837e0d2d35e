/** `Long.centsToString()`: a price in integer cents, written as a decimal amount with
    exactly two fractional digits, by way of an exact `BigDecimal` division by 100 and
    `setScale(2, HALF_EVEN)`. */
module Cents {
  import opened Json

  /** The range of a Kotlin `Long`. */
  const LongMin: int := -0x8000_0000_0000_0000
  const LongMax: int := 0x7FFF_FFFF_FFFF_FFFF
  type Long = x: int | LongMin <= x <= LongMax

  /** `PaymentsUtil.CENTS`. */
  const CentsPerUnit: int := 100

  function Abs(x: int): nat { if x < 0 then -x else x }

  // ---------------------------------------------------------------------------
  // Decimal numerals

  predicate IsDigit(c: char) { '0' <= c <= '9' }

  predicate AllDigits(s: string) { forall i :: 0 <= i < |s| ==> IsDigit(s[i]) }

  function Digit(d: nat): (c: char)
    requires d < 10
    ensures IsDigit(c) && (c as int) - ('0' as int) == d
  {
    (('0' as int) + d) as char
  }

  function DigitValue(c: char): (d: nat)
    requires IsDigit(c)
    ensures d < 10 && Digit(d) == c
  {
    (c as int) - ('0' as int)
  }

  /** The shortest decimal numeral of `n`, as `BigInteger.toString` writes it. */
  function NatToString(n: nat): (s: string)
    ensures |s| >= 1 && AllDigits(s)
    ensures (s[0] == '0') <==> (n == 0)
    ensures n == 0 ==> s == "0"
    decreases n
  {
    if n < 10 then [Digit(n)] else NatToString(n / 10) + [Digit(n % 10)]
  }

  /** The number a string of digits denotes (leading zeros allowed). */
  function ParseNat(s: string): nat
    requires AllDigits(s)
  {
    if s == [] then 0 else ParseNat(s[..|s| - 1]) * 10 + DigitValue(s[|s| - 1])
  }

  /** Two digits for a value below 100, with a leading zero when needed. */
  function TwoDigits(d: nat): (s: string)
    requires d < 100
    ensures |s| == 2 && AllDigits(s)
  {
    [Digit(d / 10), Digit(d % 10)]
  }

  lemma {:induction false} ParseNatToString(n: nat)
    ensures ParseNat(NatToString(n)) == n
    decreases n
  {
    var s := NatToString(n);
    if n < 10 {
      assert s[..|s| - 1] == [];
    } else {
      assert s[..|s| - 1] == NatToString(n / 10);
      ParseNatToString(n / 10);
    }
  }

  lemma ParseTwo(s: string)
    requires |s| == 2 && AllDigits(s)
    ensures ParseNat(s) == DigitValue(s[0]) * 10 + DigitValue(s[1])
  {
    assert s[..|s| - 1] == [s[0]];
    assert [s[0]][..0] == [];
    assert ParseNat([s[0]]) == DigitValue(s[0]);
  }

  lemma ParseTwoDigits(d: nat)
    requires d < 100
    ensures ParseNat(TwoDigits(d)) == d
  {
    ParseTwo(TwoDigits(d));
  }

  lemma {:induction false} ParseNatPositive(s: string)
    requires |s| >= 1 && AllDigits(s) && s[0] != '0'
    ensures ParseNat(s) >= 1
    decreases |s|
  {
    if |s| == 1 {
      assert s[..0] == [];
    } else {
      ParseNatPositive(s[..|s| - 1]);
    }
  }

  /** A numeral without superfluous leading zeros is the one `NatToString` writes. */
  lemma {:induction false} NatToStringParse(s: string)
    requires |s| >= 1 && AllDigits(s) && (s[0] == '0' ==> |s| == 1)
    ensures NatToString(ParseNat(s)) == s
    decreases |s|
  {
    var p, c := s[..|s| - 1], s[|s| - 1];
    if |s| == 1 {
      assert p == [];
      assert NatToString(ParseNat(s)) == [Digit(DigitValue(c))];
    } else {
      ParseNatPositive(p);
      NatToStringParse(p);
      var n := ParseNat(s);
      assert n / 10 == ParseNat(p) && n % 10 == DigitValue(c);
      assert s == p + [c];
    }
  }

  // ---------------------------------------------------------------------------
  // The BigDecimal steps

  /** A `BigDecimal`: the number `unscaled / 10^scale` (only non-negative scales arise here). */
  datatype Decimal = Decimal(unscaled: int, scale: nat)

  function Pow10(k: nat): (r: nat)
    ensures r >= 1
  {
    if k == 0 then 1 else 10 * Pow10(k - 1)
  }

  lemma HundredDivides(n: int)
    requires n % 10 == 0
    ensures (n / 10) % 10 == 0 ==> n % 100 == 0
  {
    var k := n / 10;
    assert n == 10 * k;
    if k % 10 == 0 {
      assert k == 10 * (k / 10);
      assert n == 100 * (k / 10);
    }
  }

  /** `BigDecimal(n).divide(CENTS)`: the exact quotient `n / 100`. Its preferred scale is 0; when
      the quotient needs fractional digits it takes the smallest scale that holds it exactly.
      A division by 100 always terminates, so this never fails. */
  function DivideByCents(n: int): (q: Decimal)
    ensures q.scale <= 2
    ensures q.unscaled * CentsPerUnit == n * Pow10(q.scale)
    ensures q.scale > 0 ==> q.unscaled % 10 != 0
  {
    if n % 100 == 0 then Decimal(n / 100, 0)
    else if n % 10 == 0 then
      assert (n / 10) % 10 != 0 by {
        HundredDivides(n);
      }
      Decimal(n / 10, 1)
    else Decimal(n, 2)
  }

  lemma DivModParts(a: nat, m: nat)
    requires m >= 1
    ensures a == (a / m) * m + a % m && 0 <= a % m < m
  {
  }

  /** The rounding error of the HALF_EVEN choice between `q` and `q + 1` for `a = q * m + rem`. */
  lemma HalfEvenError(a: int, m: int, q: int, rem: int, r: int)
    requires a == q * m + rem && 0 <= rem < m
    requires r == if 2 * rem > m || (2 * rem == m && q % 2 == 1) then q + 1 else q
    ensures 2 * Abs(r * m - a) <= m
    ensures 2 * Abs(r * m - a) == m ==> r % 2 == 0
  {
    if r == q + 1 {
      assert r * m == q * m + m;
    }
  }

  /** `RoundingMode.HALF_EVEN` applied to `a / m` for a non-negative `a`. */
  function RoundHalfEvenNat(a: nat, m: nat): (r: nat)
    requires m >= 1
    ensures 2 * Abs(r * m - a) <= m
    ensures 2 * Abs(r * m - a) == m ==> r % 2 == 0
  {
    var q, rem := a / m, a % m;
    var r := if 2 * rem > m || (2 * rem == m && q % 2 == 1) then q + 1 else q;
    DivModParts(a, m);
    HalfEvenError(a, m, q, rem, r);
    r
  }

  /** `RoundingMode.HALF_EVEN` applied to `u / m`: the nearest integer, a tie going to the even
      one; the sign is handled by rounding the magnitude. */
  function RoundHalfEven(u: int, m: nat): (r: int)
    requires m >= 1
    ensures 2 * Abs(r * m - u) <= m
    ensures 2 * Abs(r * m - u) == m ==> r % 2 == 0
  {
    if u < 0 then
      var rq: int := RoundHalfEvenNat(-u, m);
      assert (-rq) * m - u == -(rq * m - (-u));
      -rq
    else RoundHalfEvenNat(u, m)
  }

  /** `setScale(newScale, HALF_EVEN)`: the same number at the given scale, rounded when digits
      would be lost. */
  function SetScaleHalfEven(d: Decimal, newScale: nat): (r: Decimal)
    ensures r.scale == newScale
  {
    if d.scale <= newScale then Decimal(d.unscaled * Pow10(newScale - d.scale), newScale)
    else Decimal(RoundHalfEven(d.unscaled, Pow10(d.scale - newScale)), newScale)
  }

  /** An amount of cents written directly on integers: the whole units, a point, and the
      remaining cents as two digits. */
  function FormatUnsigned(a: nat): (r: string)
    ensures |r| >= 4 && r[0] != '-'
    ensures forall i :: 0 <= i < |r| ==> (r[i] == '.' <==> i == |r| - 3)
    ensures r[..|r| - 3] == NatToString(a / 100)
    ensures r[|r| - 2..] == TwoDigits(a % 100)
  {
    var whole, frac := NatToString(a / 100), TwoDigits(a % 100);
    var r := whole + "." + frac;
    assert r[..|r| - 3] == whole && r[|r| - 2..] == frac;
    assert forall i :: 0 <= i < |whole| ==> r[i] == whole[i];
    r
  }

  /** The same with a leading `-` for a negative amount. */
  function FormatCents(n: int): (r: string)
    ensures |r| >= 4 && (r[0] == '-' <==> n < 0)
    ensures r == if n < 0 then "-" + FormatUnsigned(-n) else FormatUnsigned(n)
  {
    (if n < 0 then "-" else "") + FormatUnsigned(Abs(n))
  }

  /** `BigDecimal.toString` of a scale-2 decimal: plain notation, since the adjusted exponent of
      a scale-2 number is never below -6, so the digits of the unscaled value with a point
      before the last two, a leading `0` when there are no whole units, and `-` when negative. */
  function PlainString(d: Decimal): (r: string)
    requires d.scale == 2
    ensures |r| >= 4 && (r[0] == '-' <==> d.unscaled < 0)
    ensures var body := if d.unscaled < 0 then r[1..] else r;
      && |body| >= 4 && body[|body| - 3] == '.'
      && body[..|body| - 3] == NatToString(Abs(d.unscaled) / 100)
      && body[|body| - 2..] == TwoDigits(Abs(d.unscaled) % 100)
  {
    var r := FormatCents(d.unscaled);
    assert d.unscaled < 0 ==> r[1..] == FormatUnsigned(-d.unscaled);
    r
  }

  /** Dividing by 100 and then setting the scale to 2 is exact: HALF_EVEN never rounds, and the
      result is `n` hundredths. */
  lemma CentsScaleExact(n: int)
    ensures SetScaleHalfEven(DivideByCents(n), 2) == Decimal(n, 2)
  {
    var q := DivideByCents(n);
    assert Pow10(2) == 100 && Pow10(1) == 10 && Pow10(0) == 1;
    if q.scale == 0 {
      assert q.unscaled * 100 == n;
    } else if q.scale == 1 {
      assert q.unscaled * 100 == n * 10;
      assert q.unscaled * 10 == n;
    }
  }

  /** `Long.centsToString()`: `BigDecimal(this).divide(CENTS).setScale(2, HALF_EVEN).toString()`.
      It never throws and never rounds: it is the integer formatting of `n` cents. */
  function CentsToString(n: int): (r: string)
    ensures r == FormatCents(n)
  {
    CentsScaleExact(n);
    PlainString(SetScaleHalfEven(DivideByCents(n), 2))
  }

  /** The layout of every result: a `-` exactly for a negative amount, then the decimal
      numeral of the whole units, a single `.`, and the remaining cents as two digits. */
  lemma CentsToStringShape(n: int)
    ensures var r := CentsToString(n);
      var body := if n < 0 then r[1..] else r;
      && (r[0] == '-' <==> n < 0)
      && |body| >= 4
      && (forall i :: 0 <= i < |body| ==> (body[i] == '.' <==> i == |body| - 3))
      && body[..|body| - 3] == NatToString(Abs(n) / 100)
      && body[|body| - 2..] == TwoDigits(Abs(n) % 100)
      && AllDigits(body[|body| - 2..])
  {
    var r := CentsToString(n);
    if n < 0 {
      assert r[1..] == FormatUnsigned(-n);
    }
  }

  // ---------------------------------------------------------------------------
  // Reading an amount back

  /** Reads `digits.dd` as a number of cents. */
  function ParseUnsigned(body: string): Option<nat>
  {
    if |body| >= 4 && body[|body| - 3] == '.' && AllDigits(body[..|body| - 3]) && AllDigits(body[|body| - 2..]) then
      Some(ParseNat(body[..|body| - 3]) * 100 + ParseNat(body[|body| - 2..]))
    else None
  }

  /** Reads `[-]digits.dd` as a number of cents, i.e. the amount multiplied by 100. */
  function ParseCents(s: string): Option<int>
  {
    if |s| > 0 && s[0] == '-' then
      match ParseUnsigned(s[1..])
      case Some(v) => Some(-(v as int))
      case None => None
    else
      match ParseUnsigned(s)
      case Some(v) => Some(v)
      case None => None
  }

  /** The strings `centsToString` writes: an optional `-`, a numeral without superfluous
      leading zeros, a point and two digits, and no negative zero. */
  predicate IsUnsignedString(body: string)
  {
    && |body| >= 4 && body[|body| - 3] == '.'
    && AllDigits(body[..|body| - 3]) && AllDigits(body[|body| - 2..])
    && (body[0] == '0' ==> |body| == 4)
  }

  predicate IsCentsString(s: string)
  {
    if |s| > 0 && s[0] == '-' then IsUnsignedString(s[1..]) && s[1..] != "0.00"
    else IsUnsignedString(s)
  }

  lemma UnsignedRoundTrip(a: nat)
    ensures ParseUnsigned(FormatUnsigned(a)) == Some(a)
    ensures IsUnsignedString(FormatUnsigned(a))
    ensures a == 0 <==> FormatUnsigned(a) == "0.00"
  {
    ParseNatToString(a / 100);
    ParseTwoDigits(a % 100);
    if a != 0 {
      assert FormatUnsigned(a) != "0.00" by {
        if a / 100 == 0 {
          assert a % 100 != 0;
          assert TwoDigits(a % 100) != "00";
        }
      }
    } else {
      assert FormatUnsigned(0) == "0" + "." + "00";
    }
  }

  /** Reading the formatted amount back and multiplying by 100 gives the original cents,
      and the output always has the shape `IsCentsString` describes. */
  lemma CentsRoundTrip(n: int)
    ensures ParseCents(CentsToString(n)) == Some(n)
    ensures IsCentsString(CentsToString(n))
  {
    UnsignedRoundTrip(Abs(n));
    if n < 0 {
      assert CentsToString(n)[1..] == FormatUnsigned(-n);
    }
  }

  lemma FormatUnsignedParts(w: nat, f: nat)
    requires f < 100
    ensures FormatUnsigned(w * 100 + f) == NatToString(w) + "." + TwoDigits(f)
  {
    DivModOfParts(w, f);
  }

  lemma DivModOfParts(w: nat, f: nat)
    requires f < 100
    ensures (w * 100 + f) / 100 == w && (w * 100 + f) % 100 == f
  {
  }

  lemma TwoDigitsParse(frac: string)
    requires |frac| == 2 && AllDigits(frac)
    ensures ParseNat(frac) < 100 && TwoDigits(ParseNat(frac)) == frac
  {
    ParseTwo(frac);
  }

  lemma FormatUnsignedZero()
    ensures FormatUnsigned(0) == "0.00"
  {
    assert FormatUnsigned(0) == "0" + "." + "00";
  }

  lemma UnsignedStringRoundTrip(body: string)
    requires IsUnsignedString(body)
    ensures ParseUnsigned(body).Some? && FormatUnsigned(ParseUnsigned(body).value) == body
  {
    var whole, frac := body[..|body| - 3], body[|body| - 2..];
    TwoDigitsParse(frac);
    NatToStringParse(whole);
    FormatUnsignedParts(ParseNat(whole), ParseNat(frac));
    SplitAtPoint(body);
  }

  lemma SplitAtPoint(body: string)
    requires |body| >= 4 && body[|body| - 3] == '.'
    ensures body == body[..|body| - 3] + "." + body[|body| - 2..]
  {
  }

  lemma NegativeStringRoundTrip(s: string)
    requires |s| > 0 && s[0] == '-' && IsUnsignedString(s[1..]) && s[1..] != "0.00"
    ensures ParseCents(s).Some? && FormatCents(ParseCents(s).value) == s
  {
    UnsignedStringRoundTrip(s[1..]);
    var v := ParseUnsigned(s[1..]).value;
    FormatUnsignedZero();
    assert v != 0;
    assert ParseCents(s) == Some(-(v as int));
    assert FormatCents(-(v as int)) == "-" + FormatUnsigned(v);
    assert s == "-" + s[1..];
  }

  lemma PositiveStringRoundTrip(s: string)
    requires !(|s| > 0 && s[0] == '-') && IsUnsignedString(s)
    ensures ParseCents(s).Some? && FormatCents(ParseCents(s).value) == s
  {
    UnsignedStringRoundTrip(s);
  }

  /** Every string of that shape is the formatting of the amount it denotes. */
  lemma StringRoundTrip(s: string)
    requires IsCentsString(s)
    ensures ParseCents(s).Some? && CentsToString(ParseCents(s).value) == s
  {
    if |s| > 0 && s[0] == '-' {
      NegativeStringRoundTrip(s);
    } else {
      PositiveStringRoundTrip(s);
    }
  }

  /** Distinct amounts of cents are written differently. */
  lemma CentsToStringInjective(a: int, b: int)
    requires CentsToString(a) == CentsToString(b)
    ensures a == b
  {
    CentsRoundTrip(a);
    CentsRoundTrip(b);
  }

  /** Amounts written out: 10 cents, 9 cents, 250 cents, nothing, and minus 5 cents. */
  lemma TenCentsExample()
    ensures CentsToString(10) == "0.10"
  {
    assert TwoDigits(10) == "10";
    assert FormatUnsigned(10) == "0" + "." + "10";
  }

  lemma NineCentsExample()
    ensures CentsToString(9) == "0.09"
  {
    assert TwoDigits(9) == "09";
    assert FormatUnsigned(9) == "0" + "." + "09";
  }

  lemma TwoFiftyExample()
    ensures CentsToString(250) == "2.50"
  {
    assert TwoDigits(50) == "50";
    assert FormatUnsigned(250) == "2" + "." + "50";
  }

  lemma ZeroExample()
    ensures CentsToString(0) == "0.00"
  {
    FormatUnsignedZero();
  }

  /** A negative amount keeps its sign in front of the whole units. */
  lemma NegativeCentsExample()
    ensures CentsToString(-5) == "-0.05"
  {
    assert TwoDigits(5) == "05";
    assert FormatUnsigned(5) == "0" + "." + "05";
    assert FormatCents(-5) == "-" + FormatUnsigned(5);
  }
}
