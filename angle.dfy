/** `convertHoursToAngle`: the sweep, in degrees, of the arc that shows a
    number of hours out of the total. The arithmetic is Kotlin `Float`
    arithmetic, modelled over the reals apart from the special values a
    division by zero yields. */
module Angle {
  import opened KotlinInt

  /** A float result: a finite value, or the special values of IEEE 754. */
  datatype Float = Finite(value: real) | NaN | Infinity(negative: bool)

  /** `(hours * 360f) / totalHours`. A zero total gives NaN for zero hours and
      an infinity of the sign of `hours` otherwise. */
  function HoursToAngle(hours: Int32, total: Int32): (r: Float)
    ensures r.Finite? <==> total != 0
    ensures r == Finite(0.0) <==> hours == 0 && total != 0
    ensures 0 < total && 0 <= hours <= total ==> r.Finite? && 0.0 <= r.value <= 360.0
    ensures total != 0 && hours == total ==> r == Finite(360.0)
  {
    if total != 0 then
      var a := (hours as real * 360.0) / (total as real);
      assert 0 < total && 0 <= hours <= total ==> 0.0 <= a <= 360.0 by {
        if 0 < total && 0 <= hours <= total {
          SweepWithinTurn(hours as real, total as real);
        }
      }
      assert hours != 0 ==> a != 0.0 by {
        if hours != 0 {
          SweepNonZero(hours as real, total as real);
        }
      }
      assert hours == total ==> a == 360.0 by {
        if hours == total {
          FullSweep(total as real);
        }
      }
      Finite(a)
    else if hours == 0 then NaN
    else Infinity(hours < 0)
  }

  lemma SweepWithinTurn(x: real, t: real)
    requires 0.0 < t && 0.0 <= x <= t
    ensures 0.0 <= (x * 360.0) / t <= 360.0
  {
    var q := (x * 360.0) / t;
    assert q * t == x * 360.0;
    if q > 360.0 {
      PositiveProduct(q - 360.0, t);
      assert false;
    }
    if q < 0.0 {
      PositiveProduct(-q, t);
      assert false;
    }
  }

  lemma PositiveProduct(a: real, t: real)
    requires a > 0.0 && t > 0.0
    ensures a * t > 0.0
  {
  }

  lemma FullSweep(t: real)
    requires t != 0.0
    ensures (t * 360.0) / t == 360.0
  {
  }

  lemma SweepNonZero(x: real, t: real)
    requires t != 0.0 && x != 0.0
    ensures (x * 360.0) / t != 0.0
  {
    assert ((x * 360.0) / t) * t == x * 360.0;
  }

  /** More hours never give a smaller sweep. */
  lemma HoursToAngleMonotone(h1: Int32, h2: Int32, total: Int32)
    requires 0 < total && h1 <= h2
    ensures HoursToAngle(h1, total).value <= HoursToAngle(h2, total).value
  {
    var t := total as real;
    assert h1 as real * 360.0 <= h2 as real * 360.0;
    assert (h1 as real * 360.0) / t <= (h2 as real * 360.0) / t;
  }
}
