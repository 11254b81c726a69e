/**
 * The easing curves of the controller: each maps time progress t in [0, 1]
 * to position progress. The model takes the library's four
 * curves as a closed set, so a curve is named by an `EasingKind` and
 * evaluated by one dispatch function.
 *
 * The arithmetic is over `real`; the curves' constants are exact
 * decimals, and 7.5625 is 2.75 * 2.75, so every branch value is rational.
 */
module Easing {

  datatype EasingKind = Linear | InOutQuad | InOutCubic | OutBounce

  /** The coefficient of every bounce parabola, 2.75 squared. */
  const BounceScale: real := 7.5625

  /** Quadratic ease-in-out: a parabola up to t = 0.5, its mirror image after. */
  function Quad(t: real): real {
    var u := t * 2.0;
    if u < 1.0 then 0.5 * u * u
    else
      var v := u - 1.0;
      -0.5 * (v * (v - 2.0) - 1.0)
  }

  /** Cubic ease-in-out: a cubic up to t = 0.5, its mirror image after. */
  function Cubic(t: real): real {
    var u := t * 2.0;
    if u < 1.0 then 0.5 * u * u * u
    else
      var v := u - 2.0;
      0.5 * (v * v * v + 2.0)
  }

  /** The left end of bounce branch j (the last three are the break points). */
  function BounceBreak(j: nat): real
    requires j < 4
  {
    if j == 0 then 0.0
    else if j == 1 then 1.0 / 2.75
    else if j == 2 then 2.0 / 2.75
    else 2.5 / 2.75
  }

  /** The formula of bounce branch j, whatever interval t lies in. */
  function BounceBranch(j: nat, t: real): real
    requires j < 4
  {
    if j == 0 then BounceScale * t * t
    else if j == 1 then
      var v := t - 1.5 / 2.75; BounceScale * v * v + 0.75
    else if j == 2 then
      var v := t - 2.25 / 2.75; BounceScale * v * v + 0.9375
    else
      var v := t - 2.625 / 2.75; BounceScale * v * v + 0.984375
  }

  /** Bounce ease-out: the branch is chosen by the break points, left-closed. */
  function Bounce(t: real): real {
    if t < BounceBreak(1) then BounceBranch(0, t)
    else if t < BounceBreak(2) then BounceBranch(1, t)
    else if t < BounceBreak(3) then BounceBranch(2, t)
    else BounceBranch(3, t)
  }

  /** Evaluates curve k at time progress t. */
  function Ease(k: EasingKind, t: real): (r: real)
    ensures t == 0.0 ==> r == 0.0
    ensures t == 1.0 ==> r == 1.0
    ensures t == 0.5 && (k.InOutQuad? || k.InOutCubic?) ==> r == 0.5
  {
    match k
    case Linear => t
    case InOutQuad => Quad(t)
    case InOutCubic => Cubic(t)
    case OutBounce => Bounce(t)
  }

  /** 0 <= a * b <= c * d when the factors are bounded this way. */
  lemma MulBounds(a: real, b: real, c: real, d: real)
    requires 0.0 <= a <= c && 0.0 <= b <= d
    ensures 0.0 <= a * b <= c * d
  {
    assert a * b <= c * b;
    assert c * b <= c * d;
  }

  /** A square is bounded by the square of a bound on the absolute value. */
  lemma {:induction false} SquareBound(v: real, w: real)
    requires -w <= v <= w
    ensures 0.0 <= v * v <= w * w
  {
    if v >= 0.0 {
      MulBounds(v, v, w, w);
    } else {
      MulBounds(-v, -v, w, w);
    }
  }

  lemma QuadBounded(t: real)
    requires 0.0 <= t <= 1.0
    ensures 0.0 <= Quad(t) <= 1.0
  {
    var u := t * 2.0;
    if u < 1.0 {
      MulBounds(u, u, 1.0, 1.0);
    } else {
      var v := u - 1.0;
      // -0.5 * (v * (v - 2) - 1) == 1 - 0.5 * (1 - v) * (1 - v)
      SquareBound(1.0 - v, 1.0);
      assert -0.5 * (v * (v - 2.0) - 1.0) == 1.0 - 0.5 * ((1.0 - v) * (1.0 - v));
    }
  }

  lemma CubicBounded(t: real)
    requires 0.0 <= t <= 1.0
    ensures 0.0 <= Cubic(t) <= 1.0
  {
    var u := t * 2.0;
    if u < 1.0 {
      MulBounds(u, u, 1.0, 1.0);
      MulBounds(u * u, u, 1.0, 1.0);
    } else {
      var w := 2.0 - u;
      // v == -w with 0 <= w <= 1, so v * v * v == -(w * w * w)
      MulBounds(w, w, 1.0, 1.0);
      MulBounds(w * w, w, 1.0, 1.0);
      assert (u - 2.0) * (u - 2.0) * (u - 2.0) == -(w * w * w);
    }
  }

  /** Each bounce branch stays within [0, 1] on its own interval. */
  lemma BounceBranchBounded(j: nat, t: real)
    requires j < 4
    requires BounceBreak(j) <= t <= (if j == 3 then 1.0 else BounceBreak(j + 1))
    ensures 0.0 <= BounceBranch(j, t) <= 1.0
  {
    if j == 0 {
      SquareBound(t, 1.0 / 2.75);
    } else if j == 1 {
      SquareBound(t - 1.5 / 2.75, 0.5 / 2.75);
    } else if j == 2 {
      SquareBound(t - 2.25 / 2.75, 0.25 / 2.75);
    } else {
      SquareBound(t - 2.625 / 2.75, 0.125 / 2.75);
    }
  }

  lemma BounceBounded(t: real)
    requires 0.0 <= t <= 1.0
    ensures 0.0 <= Bounce(t) <= 1.0
  {
    if t < BounceBreak(1) {
      BounceBranchBounded(0, t);
    } else if t < BounceBreak(2) {
      BounceBranchBounded(1, t);
    } else if t < BounceBreak(3) {
      BounceBranchBounded(2, t);
    } else {
      BounceBranchBounded(3, t);
    }
  }

  /** Every curve maps [0, 1] into [0, 1], as the class documentation says. */
  lemma EaseBounded(k: EasingKind, t: real)
    requires 0.0 <= t <= 1.0
    ensures 0.0 <= Ease(k, t) <= 1.0
  {
    match k
    case Linear =>
    case InOutQuad => QuadBounded(t);
    case InOutCubic => CubicBounded(t);
    case OutBounce => BounceBounded(t);
  }

  /**
   * The bounce curve has no jumps: at each break point the formula of the
   * branch to the left gives the same value as the branch that takes over.
   */
  lemma BounceContinuous(j: nat)
    requires 1 <= j < 4
    ensures BounceBranch(j - 1, BounceBreak(j)) == BounceBranch(j, BounceBreak(j))
    ensures Bounce(BounceBreak(j)) == BounceBranch(j, BounceBreak(j))
  {
  }

  /** The two in-out curves are point-symmetric about (0.5, 0.5). */
  lemma InOutSymmetric(k: EasingKind, t: real)
    requires k.InOutQuad? || k.InOutCubic?
    requires 0.0 <= t <= 1.0
    ensures Ease(k, 1.0 - t) == 1.0 - Ease(k, t)
  {
    if t > 0.5 {
      InOutSymmetricLower(k, 1.0 - t);
    } else {
      InOutSymmetricLower(k, t);
    }
  }

  lemma InOutSymmetricLower(k: EasingKind, t: real)
    requires k.InOutQuad? || k.InOutCubic?
    requires 0.0 <= t <= 0.5
    ensures Ease(k, 1.0 - t) == 1.0 - Ease(k, t)
  {
    if t < 0.5 {
      if k.InOutQuad? {
        var v := 2.0 * (1.0 - t) - 1.0;
        assert v == 1.0 - 2.0 * t;
        assert -0.5 * (v * (v - 2.0) - 1.0) == 1.0 - 2.0 * t * t;
      } else {
        var w := 2.0 * (1.0 - t) - 2.0;
        assert w == -2.0 * t;
        assert w * w * w == -8.0 * (t * t * t);
      }
    }
  }
}
