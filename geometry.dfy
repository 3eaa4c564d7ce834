/** The string-length and pen-position formulas of the plotter: two pulleys a
    distance `sep` apart, each string running from its pulley rim to the pen.
    Lengths are exact reals standing for Java `double`s; `Math.sqrt` is not
    computed but appears as a value `r` with `IsSqrt(r, x)`. */
module Geometry {

  /** `Math.PI`, the double nearest to pi. Only its positivity is used. */
  const Pi: real := 3.141592653589793

  /** `radiansPerPulse`: the angle one encoder pulse turns a wheel. */
  function RadiansPerPulse(pulsesPerRevolution: real): (r: real)
    requires pulsesPerRevolution != 0.0
    ensures r * pulsesPerRevolution == 2.0 * Pi
    ensures pulsesPerRevolution > 0.0 ==> r > 0.0
  {
    (2.0 * Pi) / pulsesPerRevolution
  }

  /** `r` is what `Math.sqrt(x)` stands for: the non-negative square root. */
  predicate IsSqrt(r: real, x: real)
  {
    0.0 <= r && r * r == x
  }

  /** The argument of `Math.sqrt` for the initial left string: the pen starts
      `startLeft` to the right of and `startDown` below the left pulley. */
  function LeftStringSquared(startLeft: real, startDown: real): (r: real)
    ensures 0.0 <= r
  {
    startLeft * startLeft + startDown * startDown
  }

  /** The argument of `Math.sqrt` for the initial right string
      (`Math.pow(sep - startLeft, 2)` is the square of the horizontal offset). */
  function RightStringSquared(sep: real, startLeft: real, startDown: real): (r: real)
    ensures 0.0 <= r
  {
    (sep - startLeft) * (sep - startLeft) + startDown * startDown
  }

  /** The cosine of the angle at the left pulley centre, by the cosine rule on
      the triangle with sides `l0`, `l1` (pulley centre to pen) and `sep`. */
  function CosAlpha(l0: real, l1: real, sep: real): (r: real)
    requires l0 != 0.0 && sep != 0.0
    ensures l1 * l1 == l0 * l0 + sep * sep - 2.0 * l0 * sep * r
  {
    var d := 2.0 * l0 * sep;
    assert d != 0.0;
    (l0 * l0 + sep * sep - l1 * l1) / d
  }

  /** The x-coordinate of the pen, `cosAlpha * l[0]`: the one abscissa at
      which a point `l0` from the left pulley centre and `l1` from the right
      one lies at the same depth below both. */
  function PenX(l0: real, l1: real, sep: real): (x: real)
    requires l0 != 0.0 && sep != 0.0
    ensures l0 * l0 - x * x == l1 * l1 - (sep - x) * (sep - x)
  {
    var c := CosAlpha(l0, l1, sep);
    assert 2.0 * sep * (c * l0) == 2.0 * l0 * sep * c;
    c * l0
  }

  /** With `l[i] = sqrt(pulleyRadius^2 + strings[i]^2)`, the pulley radius
      cancels out of the pen's x-coordinate. */
  lemma PenXFromStrings(pulleyRadius: real, s0: real, s1: real, sep: real, l0: real, l1: real)
    requires IsSqrt(l0, pulleyRadius * pulleyRadius + s0 * s0)
    requires IsSqrt(l1, pulleyRadius * pulleyRadius + s1 * s1)
    requires l0 != 0.0 && sep != 0.0
    ensures PenX(l0, l1, sep) == (s0 * s0 - s1 * s1 + sep * sep) / (2.0 * sep)
  {
    var n := l0 * l0 + sep * sep - l1 * l1;
    assert n == s0 * s0 - s1 * s1 + sep * sep;
    calc {
      PenX(l0, l1, sep);
      (n / (2.0 * l0 * sep)) * l0;
      { DivCancel(n, 2.0 * sep, l0); }
      n / (2.0 * sep);
    }
  }

  lemma DivCancel(n: real, d: real, k: real)
    requires d != 0.0 && k != 0.0
    ensures (n / (k * d)) * k == n / d
  {
    assert k * d != 0.0;
    var q := n / (k * d);
    assert q * (k * d) == n;
    assert (q * k) * d == n;
  }

  /** Round trip of the constructor and `calculatePoint`: the string lengths the
      constructor derives from the start offset put the pen back at x = `startLeft`. */
  lemma StartPenX(pulleyRadius: real, sep: real, startLeft: real, startDown: real,
                  s0: real, s1: real, l0: real, l1: real)
    requires IsSqrt(s0, LeftStringSquared(startLeft, startDown))
    requires IsSqrt(s1, RightStringSquared(sep, startLeft, startDown))
    requires IsSqrt(l0, pulleyRadius * pulleyRadius + s0 * s0)
    requires IsSqrt(l1, pulleyRadius * pulleyRadius + s1 * s1)
    requires l0 != 0.0 && sep != 0.0
    ensures PenX(l0, l1, sep) == startLeft
  {
    PenXFromStrings(pulleyRadius, s0, s1, sep, l0, l1);
    assert s0 * s0 - s1 * s1 + sep * sep == 2.0 * sep * startLeft;
    assert (2.0 * sep * startLeft) / (2.0 * sep) == startLeft;
  }

  /** A pen started midway between the pulleys hangs from two strings of equal
      length, and `calculatePoint` puts it at x = `sep / 2`. */
  lemma SymmetricStart(pulleyRadius: real, sep: real, startDown: real,
                       s0: real, s1: real, l0: real, l1: real)
    requires IsSqrt(s0, LeftStringSquared(sep / 2.0, startDown))
    requires IsSqrt(s1, RightStringSquared(sep, sep / 2.0, startDown))
    requires IsSqrt(l0, pulleyRadius * pulleyRadius + s0 * s0)
    requires IsSqrt(l1, pulleyRadius * pulleyRadius + s1 * s1)
    requires l0 != 0.0 && sep != 0.0
    ensures s0 == s1
    ensures PenX(l0, l1, sep) == sep / 2.0
  {
    assert s0 * s0 == s1 * s1;
    SquareInjective(s0, s1);
    StartPenX(pulleyRadius, sep, sep / 2.0, startDown, s0, s1, l0, l1);
  }

  lemma SquareInjective(a: real, b: real)
    requires 0.0 <= a && 0.0 <= b && a * a == b * b
    ensures a == b
  {
    if a < b {
      SquareLess(a, b);
    } else if b < a {
      SquareLess(b, a);
    }
  }

  lemma SquareLess(a: real, b: real)
    requires 0.0 <= a < b
    ensures a * a < b * b
  {
    calc {
      a * a;
    <= a * b;
    < b * b;
    }
  }
}
