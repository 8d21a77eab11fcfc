/** The numeric library the tensor constructors call into (numpy's sqrt, exp, cos,
    sin, deg2rad, rad2deg and the power operator), over the reals instead of
    floating point. The transcendental functions are not defined here: a caller
    supplies them, and only the few facts in `Axioms` are ever assumed of them. */
module Numerics {

  /** The transcendental functions and the constant pi, supplied from outside. */
  datatype Transcendentals = Transcendentals(
    sqrt: real -> real,
    exp: real -> real,
    cos: real -> real,
    sin: real -> real,
    pi: real)

  /** The only facts about the transcendental functions that the model relies on. */
  ghost predicate Axioms(tr: Transcendentals)
  {
    && tr.pi > 0.0
    && tr.sqrt(0.0) == 0.0
    && (forall x :: x > 0.0 ==> tr.sqrt(x) > 0.0)
    && (forall x :: -1.0 <= tr.cos(x) <= 1.0)
  }

  /** numpy.deg2rad */
  function Deg2Rad(tr: Transcendentals, d: real): real
  {
    d * tr.pi / 180.0
  }

  /** numpy.rad2deg */
  function Rad2Deg(tr: Transcendentals, r: real): real
    requires Axioms(tr)
  {
    r * 180.0 / tr.pi
  }

  /** `x ** 2` */
  function Sq(x: real): real
  {
    x * x
  }

  /** `x ** 7` */
  function Pow7(x: real): real
  {
    x * x * x * x * x * x * x
  }

  /** `x ** (-2)`, defined wherever x is not zero. */
  function InvSquare(x: real): (r: real)
    requires x != 0.0
    ensures r > 0.0
  {
    SqPositive(x);
    QuotientPositive(1.0, Sq(x));
    1.0 / Sq(x)
  }

  lemma ProductNonNegative(a: real, b: real)
    requires a >= 0.0 && b >= 0.0
    ensures a * b >= 0.0
  {
  }

  lemma ProductPositive(a: real, b: real)
    requires a > 0.0 && b > 0.0
    ensures a * b > 0.0
  {
  }

  lemma ProductNonZero(a: real, b: real)
    requires a != 0.0 && b != 0.0
    ensures a * b != 0.0
  {
  }

  lemma QuotientNonNegative(a: real, b: real)
    requires a >= 0.0 && b > 0.0
    ensures a / b >= 0.0
  {
  }

  lemma QuotientPositive(a: real, b: real)
    requires a > 0.0 && b > 0.0
    ensures a / b > 0.0
  {
  }

  lemma SqNonNegative(x: real)
    ensures Sq(x) >= 0.0
  {
  }

  lemma SqPositive(x: real)
    requires x != 0.0
    ensures Sq(x) > 0.0
  {
    if x > 0.0 {
      calc {
        Sq(x);
        x * x;
      >  { assert x * x > x * 0.0; }
        0.0;
      }
    } else {
      calc {
        Sq(x);
        (-x) * (-x);
      >  { assert (-x) * (-x) > (-x) * 0.0; }
        0.0;
      }
    }
  }

  lemma Pow7NonNegative(x: real)
    requires x >= 0.0
    ensures Pow7(x) >= 0.0
  {
  }

  /** Under the axioms, sqrt is non-negative on the non-negative reals. */
  lemma SqrtNonNegative(tr: Transcendentals, x: real)
    requires Axioms(tr) && x >= 0.0
    ensures tr.sqrt(x) >= 0.0
  {
  }
}
