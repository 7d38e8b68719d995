/** The volume arc: the music stream's volume as a percentage of its maximum, in Java
    `int` arithmetic, and the "N%" label drawn in the arc. */
module VolumeProgress {
  import opened JavaStrings

  const IntMin: int := -0x8000_0000
  const IntMax: int := 0x7fff_ffff

  /** A Java `int`. */
  type Int32 = x: int | IntMin <= x <= IntMax

  /** Two's-complement wrap-around of an `int` result. */
  function Wrap32(x: int): (r: Int32)
    ensures (r - x) % 0x1_0000_0000 == 0
    ensures IntMin <= x <= IntMax ==> r == x
  {
    var m := x % 0x1_0000_0000;
    if m > IntMax then m - 0x1_0000_0000 else m
  }

  function Abs(x: int): nat
  {
    if x < 0 then -x else x
  }

  /** Java integer division: the quotient truncated toward zero, wrapped (so
      Integer.MIN_VALUE / -1 is Integer.MIN_VALUE). Apart from that one overflow, the
      quotient's magnitude is the quotient of the magnitudes and its sign is negative
      exactly for operands of opposite signs (when it is not zero). */
  function JavaDiv(a: Int32, b: Int32): (q: Int32)
    requires b != 0
    ensures a == IntMin && b == -1 ==> q == IntMin
    ensures !(a == IntMin && b == -1) ==>
      && Abs(q) == Abs(a) / Abs(b)
      && (q < 0 ==> (a < 0) != (b < 0))
      && (q > 0 ==> (a < 0) == (b < 0))
  {
    var x: nat, y: nat := Abs(a), Abs(b);
    var q: int := MagnitudeQuotient(x, y);
    var signed := if (a < 0) != (b < 0) then -q else q;
    if a == IntMin && b == -1 then
      assert signed == 0x8000_0000;
      Wrap32(signed)
    else
      assert a < 0 && b < 0 && y == 1 ==> x < 0x8000_0000;
      assert IntMin <= signed <= IntMax;
      Wrap32(signed)
  }

  /** The quotient of two magnitudes, at most the dividend and smaller than it unless
      the divisor is 1 or the dividend 0. */
  function MagnitudeQuotient(x: nat, y: nat): (q: nat)
    requires y > 0
    ensures q == x / y
    ensures q <= x && (y > 1 && x > 0 ==> q < x)
  {
    NatDivision(x, y);
    x / y
  }

  /** Apart from the one overflow, Java's remainder a - (a / b) * b is smaller than the
      divisor in magnitude and is zero or has the sign of the dividend. */
  lemma JavaDivRemainder(a: Int32, b: Int32)
    requires b != 0 && !(a == IntMin && b == -1)
    ensures var rem := a - JavaDiv(a, b) * b;
      Abs(rem) < Abs(b) && (rem == 0 || (rem < 0) == (a < 0))
  {
    TruncatedDivision(a, b);
    var q := Abs(a) / Abs(b);
    var signed := if (a < 0) != (b < 0) then -q else q;
    assert JavaDiv(a, b) == signed;
  }

  /** Truncating division before the wrap: the remainder has the dividend's sign and is
      smaller than the divisor; the quotient's magnitude is at most the dividend's, and
      smaller unless the divisor is 1 or -1 or the dividend 0. */
  lemma TruncatedDivision(a: int, b: int)
    requires b != 0
    ensures var q := Abs(a) / Abs(b);
      var signed := if (a < 0) != (b < 0) then -q else q;
      && a - signed * b == (if a < 0 then -(Abs(a) % Abs(b)) else Abs(a) % Abs(b))
      && q <= Abs(a)
      && (Abs(b) > 1 && Abs(a) > 0 ==> q < Abs(a))
  {
    var x: nat, y: nat := Abs(a), Abs(b);
    NatDivision(x, y);
    var q := x / y;
    if a >= 0 && b > 0 {
      assert a - q * b == x - q * y;
    } else if a >= 0 {
      SignFlip(q, y);
      assert a - (-q) * b == x - q * y;
    } else if b > 0 {
      SignFlip(q, y);
      assert a - (-q) * b == -(x - q * y);
    } else {
      SignFlip(q, y);
      assert a - q * b == -(x - q * y);
    }
  }

  lemma SignFlip(q: int, y: int)
    ensures (-q) * (-y) == q * y && (-q) * y == -(q * y) && q * (-y) == -(q * y)
  {
  }

  lemma NatDivision(x: nat, y: nat)
    requires y > 0
    ensures x - (x / y) * y == x % y
    ensures x / y <= x
    ensures y > 1 && x > 0 ==> x / y < x
  {
    var q := x / y;
    MulMonotone(1, y, q);
    if y > 1 {
      MulMonotone(2, y, q);
    }
  }

  /** The value of `(currentVolume * 100) / maxVolume`, or the ArithmeticException that a
      zero maximum raises. */
  datatype Outcome = Percent(value: Int32) | DivideByZero

  function VolumePercent(current: Int32, max: Int32): (r: Outcome)
    ensures r.DivideByZero? <==> max == 0
  {
    if max == 0 then DivideByZero else Percent(JavaDiv(Wrap32(current * 100), max))
  }

  /** The label drawn in the arc: the decimal percent followed by a percent sign. It ends
      in '%' and what precedes it reads back as the percent. */
  function Label(percent: Int32): (l: string)
    ensures |l| >= 2 && l[|l| - 1] == '%'
    ensures IsDecimal(l[..|l| - 1]) && ParseInt(l[..|l| - 1]) == percent
  {
    var l := IntToString(percent) + "%";
    assert l[..|l| - 1] == IntToString(percent);
    IntToStringRoundTrip(percent);
    l
  }

  lemma DivMonotone(a: nat, b: nat, m: nat)
    requires a <= b && m > 0
    ensures a / m <= b / m
  {
    var qa, qb := a / m, b / m;
    assert m * qa <= a && b < m * qb + m;
    if qa > qb {
      MulMonotone(qb + 1, qa, m);
      assert false;
    }
  }

  lemma MulMonotone(a: nat, b: nat, m: nat)
    requires a <= b
    ensures a * m <= b * m
  {
  }

  /** A volume below the maximum is below 100 percent. */
  lemma BelowMaxBelowHundred(c: nat, m: nat)
    requires c < m
    ensures c * 100 / m < 100
  {
    var q := c * 100 / m;
    assert q * m <= c * 100;
    if q >= 100 {
      MulMonotone(100, q, m);
      assert false;
    }
  }

  /** Without overflow, for a volume between zero and a positive maximum, the percent is
      the floor of current * 100 / max. */
  lemma PercentIsFloor(current: Int32, max: Int32)
    requires 0 <= current <= max && 0 < max && current * 100 <= IntMax
    ensures VolumePercent(current, max) == Percent(current * 100 / max)
  {
  }

  /** The percent lies in [0, 100]; it is 0 for a muted stream and 100 exactly at the
      maximum. */
  lemma PercentBounds(current: Int32, max: Int32)
    requires 0 <= current <= max && 0 < max && current * 100 <= IntMax
    ensures VolumePercent(current, max).Percent?
    ensures 0 <= VolumePercent(current, max).value <= 100
    ensures current == 0 ==> VolumePercent(current, max).value == 0
    ensures VolumePercent(current, max).value == 100 <==> current == max
  {
    PercentIsFloor(current, max);
    FloorPercentBounds(current, max);
  }

  lemma FloorPercentBounds(c: nat, m: nat)
    requires c <= m && 0 < m
    ensures 0 <= c * 100 / m <= 100
    ensures c == 0 ==> c * 100 / m == 0
    ensures c * 100 / m == 100 <==> c == m
  {
    if c < m {
      BelowMaxBelowHundred(c, m);
    } else {
      TimesHundredOver(m);
    }
  }

  lemma TimesHundredOver(m: nat)
    requires m > 0
    ensures m * 100 / m == 100
  {
  }

  /** Raising the volume never lowers the percent. */
  lemma PercentMonotone(c1: Int32, c2: Int32, max: Int32)
    requires 0 <= c1 <= c2 <= max && 0 < max && c2 * 100 <= IntMax
    ensures VolumePercent(c1, max).value <= VolumePercent(c2, max).value
  {
    PercentIsFloor(c1, max);
    PercentIsFloor(c2, max);
    DivMonotone(c1 * 100, c2 * 100, max);
  }

  class VolumeProgressImageView {
    var volumePercent: Int32
    /** The label of the arc last drawn. */
    var arcLabel: string

    constructor ()
      ensures volumePercent == 0 && arcLabel == []
    {
      volumePercent := 0;
      arcLabel := [];
    }

    /** updateVolumePercent with the music stream's maximum and current volume. A zero
        maximum throws before the field is assigned: `crashed` reports it and nothing
        changes. */
    method UpdateVolumePercent(maxVolume: Int32, currentVolume: Int32) returns (crashed: bool)
      modifies this
      ensures crashed <==> maxVolume == 0
      ensures crashed ==> volumePercent == old(volumePercent) && arcLabel == old(arcLabel)
      ensures !crashed ==> VolumePercent(currentVolume, maxVolume) == Percent(volumePercent)
      ensures !crashed ==> arcLabel == Label(volumePercent)
    {
      if maxVolume == 0 {
        return true;
      }
      volumePercent := JavaDiv(Wrap32(currentVolume * 100), maxVolume);
      UpdateImageView();
      return false;
    }

    method UpdateImageView()
      modifies this
      ensures volumePercent == old(volumePercent) && arcLabel == Label(volumePercent)
    {
      arcLabel := IntToString(volumePercent) + "%";
    }
  }
}
