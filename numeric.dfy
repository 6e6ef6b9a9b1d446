/**
 * Numbers as the water-quality code sees them: JavaScript numbers are modelled
 * as mathematical reals, and the non-finite values that JavaScript division can
 * produce are kept apart in `Num`. `Math.exp` and `Math.pow` are not defined
 * here; every member that needs them takes a `MathLib` and the lemmas about
 * them assume only the few facts collected in `Sound`.
 */
module Numeric {

  datatype Option<+T> = None | Some(value: T)

  /** A JavaScript number: a finite value, NaN, or one of the two infinities. */
  datatype Num = Finite(value: real) | NaN | PosInf | NegInf

  /** `a / b` with JavaScript's answer for a zero divisor (the sign of zero is not modelled). */
  function Divide(a: real, b: real): (r: Num)
    ensures b != 0.0 ==> r.Finite? && r.value * b == a
    ensures b == 0.0 ==> !r.Finite? && (r == NaN <==> a == 0.0)
  {
    if b != 0.0 then Finite(a / b)
    else if a > 0.0 then PosInf
    else if a < 0.0 then NegInf
    else NaN
  }

  /** Multiplication of a JavaScript number by a positive finite constant. */
  function Times(v: Num, c: real): (r: Num)
    requires c > 0.0
    ensures r.Finite? <==> v.Finite?
    ensures v.Finite? ==> r.value / c == v.value
    ensures !v.Finite? ==> r == v
  {
    match v
    case Finite(x) => Finite(x * c)
    case _ => v
  }

  /** `Math.round`: the nearest integer, halves rounded up. */
  function Round(x: real): (n: int)
    ensures x - 0.5 < n as real <= x + 0.5
  {
    (x + 0.5).Floor
  }

  function Min(a: real, b: real): (r: real)
    ensures r <= a && r <= b && (r == a || r == b)
  {
    if a <= b then a else b
  }

  function Max(a: real, b: real): (r: real)
    ensures r >= a && r >= b && (r == a || r == b)
  {
    if a >= b then a else b
  }

  /** `v` lies between `a` and `b`, in whichever order they come. */
  predicate Between(v: real, a: real, b: real)
  {
    (a <= v <= b) || (b <= v <= a)
  }

  /** A convex combination of two numbers lies between them. */
  lemma ConvexBetween(up: real, d: real, w: real)
    ensures 0.0 <= w <= 1.0 ==> Between(w * up + (1.0 - w) * d, up, d)
  {
    if 0.0 <= w <= 1.0 {
      var v := w * up + (1.0 - w) * d;
      assert v - up == (1.0 - w) * (d - up);
      assert v - d == w * (up - d);
      if up <= d {
        MulSigns(1.0 - w, d - up);
        MulSigns(w, up - d);
      } else {
        MulSigns(1.0 - w, d - up);
        MulSigns(w, up - d);
      }
    }
  }

  /** `Math.exp` and `Math.pow`, supplied by the caller. */
  datatype MathLib = MathLib(exp: real -> real, pow: (real, real) -> real)

  /** The facts about `Math.exp` and `Math.pow` that the proofs rely on. */
  ghost predicate Sound(m: MathLib)
  {
    && m.exp(0.0) == 1.0
    && (forall x :: m.exp(x) > 0.0)
    && (forall x, y :: x <= y ==> m.exp(x) <= m.exp(y))
    && (forall b :: m.pow(b, 0.0) == 1.0)
    && (forall b, e :: b > 0.0 ==> m.pow(b, e) > 0.0)
  }

  /** With a sound `exp`, a non-positive exponent gives a factor in (0, 1]. */
  lemma ExpOfNonPositive(m: MathLib, x: real)
    requires Sound(m)
    requires x <= 0.0
    ensures 0.0 < m.exp(x) <= 1.0
  {
    assert m.exp(x) <= m.exp(0.0);
  }

  lemma MulLeftMono(a: real, b: real, c: real)
    requires a >= 0.0 && b <= c
    ensures a * b <= a * c
  {
  }

  lemma MulSigns(a: real, b: real)
    requires a >= 0.0
    ensures b >= 0.0 ==> a * b >= 0.0
    ensures b <= 0.0 ==> a * b <= 0.0
  {
    if b >= 0.0 {
      MulLeftMono(a, 0.0, b);
      assert a * 0.0 == 0.0;
    } else {
      MulLeftMono(a, b, 0.0);
      assert a * 0.0 == 0.0;
    }
  }

  lemma DivMono(a: real, b: real, q: real)
    requires q > 0.0 && a <= b
    ensures a / q <= b / q
  {
  }

  lemma MulLeftStrict(a: real, b: real, c: real)
    requires a > 0.0 && b < c
    ensures a * b < a * c
  {
  }

  /** A product with a positive factor has the sign of the other factor. */
  lemma ProductSign(u: real, s: real)
    requires s > 0.0
    ensures u * s >= 0.0 <==> u >= 0.0
    ensures u * s <= 0.0 <==> u <= 0.0
  {
    if u >= 0.0 {
      MulSigns(s, u);
    } else {
      MulLeftStrict(s, u, 0.0);
    }
    if u <= 0.0 {
      MulSigns(s, u);
    } else {
      MulLeftStrict(s, 0.0, u);
    }
  }
}
