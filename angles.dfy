/** Angle arithmetic shared by the gear-chain geometry.

    Angles are reals in radians.  Python's `x % (2 * math.pi)` on floats is
    the remainder that takes the sign of the divisor; `Mod2Pi` is that
    operation on reals.  The generator folds an angular difference into
    [0, pi] in two different ways: the collision test uses
    `abs((a - b + pi) % 2pi - pi)` and the alignment solver uses
    `d = abs(a - b); if d > pi: d = 2pi - d`.  Both are defined here and
    shown to agree on normalised inputs.

    The trigonometric and square-root functions of Python's `math` module
    are collaborators: the model receives them as a `Trig` value and assumes
    nothing about them unless a lemma says so in its `requires`. */
module Angles {

  /** `math.pi`, as the decimal the float prints as. */
  const PI: real := 3.141592653589793

  /** `2 * math.pi` */
  const TWO_PI: real := 6.283185307179586

  /** The functions the geometry borrows from `math`. */
  datatype Trig = Trig(
    cos: real -> real,
    sin: real -> real,
    atan2: (real, real) -> real,
    sqrt: real -> real)

  function Abs(x: real): (r: real)
    ensures r >= 0.0 && (r == x || r == -x)
  {
    if x < 0.0 then -x else x
  }

  /** `x` and `y` differ by a whole number of turns. */
  predicate Congruent(x: real, y: real)
  {
    var q := (x - y) / TWO_PI;
    q.Floor as real == q
  }

  /** `x % (2 * math.pi)`: the representative of `x` in [0, 2pi); that it
      is congruent to `x` is `Mod2PiCongruentSelf`. */
  function Mod2Pi(x: real): (r: real)
    ensures 0.0 <= r < TWO_PI
  {
    x - TWO_PI * (x / TWO_PI).Floor as real
  }

  lemma Mod2PiCongruentSelf(x: real)
    ensures Congruent(x, Mod2Pi(x))
  {
    var k := (x / TWO_PI).Floor;
    assert (x - (x - TWO_PI * k as real)) / TWO_PI == k as real;
  }

  lemma CongruentSymmetric(x: real, y: real)
    requires Congruent(x, y)
    ensures Congruent(y, x)
  {
    var q := (x - y) / TWO_PI;
    assert (y - x) / TWO_PI == -q;
    assert (-q).Floor == -(q.Floor);
  }

  lemma CongruentTransitive(x: real, y: real, z: real)
    requires Congruent(x, y) && Congruent(y, z)
    ensures Congruent(x, z)
  {
    var p, q := (x - y) / TWO_PI, (y - z) / TWO_PI;
    assert (x - z) / TWO_PI == p + q;
    assert (p + q).Floor == p.Floor + q.Floor;
  }

  /** The remainder is the only representative in [0, 2pi). */
  lemma Mod2PiUnique(x: real, r: real)
    requires 0.0 <= r < TWO_PI
    requires Congruent(x, r)
    ensures Mod2Pi(x) == r
  {
    var k := ((x - r) / TWO_PI).Floor;
    assert x / TWO_PI == k as real + r / TWO_PI;
    assert 0.0 <= r / TWO_PI < 1.0;
    assert (x / TWO_PI).Floor == k;
  }

  /** Congruent angles have the same remainder, and only they do. */
  lemma Mod2PiCongruent(x: real, y: real)
    ensures Mod2Pi(x) == Mod2Pi(y) <==> Congruent(x, y)
  {
    Mod2PiCongruentSelf(x);
    Mod2PiCongruentSelf(y);
    if Congruent(x, y) {
      CongruentTransitive(x, y, Mod2Pi(y));
      Mod2PiUnique(x, Mod2Pi(y));
    }
    if Mod2Pi(x) == Mod2Pi(y) {
      CongruentSymmetric(y, Mod2Pi(y));
      CongruentTransitive(x, Mod2Pi(x), y);
    }
  }

  /** Reducing before adding a further turn changes nothing:
      `(x % 2pi + s) % 2pi == (x + s) % 2pi`. */
  lemma Mod2PiAddLeft(x: real, s: real)
    ensures Mod2Pi(Mod2Pi(x) + s) == Mod2Pi(x + s)
  {
    var m := Mod2Pi(x);
    Mod2PiCongruentSelf(x);
    assert (x + s - (m + s)) / TWO_PI == (x - m) / TWO_PI;
    CongruentSymmetric(x + s, m + s);
    Mod2PiCongruent(m + s, x + s);
  }

  /** `k` times `x = (x + step) % (2 * math.pi)`. */
  function Rotated(x: real, step: real, k: nat): real
  {
    if k == 0 then x else Mod2Pi(Rotated(x, step, k - 1) + step)
  }

  lemma ScaleSucc(n: nat, step: real)
    ensures n as real * step + step == (n + 1) as real * step
  {
  }

  /** `k >= 1` repeated steps add `k * step` and reduce once modulo 2pi. */
  lemma {:induction false} RotatedIsShift(x: real, step: real, k: nat)
    requires k >= 1
    ensures Rotated(x, step, k) == Mod2Pi(x + k as real * step)
  {
    if k > 1 {
      var j := k - 1;
      var y := x + j as real * step;
      var z := Rotated(x, step, j);
      assert z == Mod2Pi(y) by { RotatedIsShift(x, step, j); }
      assert y + step == x + k as real * step by { ScaleSucc(j, step); }
      calc {
        Rotated(x, step, k);
        Mod2Pi(z + step);
        Mod2Pi(Mod2Pi(y) + step);
        { Mod2PiAddLeft(y, step); }
        Mod2Pi(y + step);
        Mod2Pi(x + k as real * step);
      }
    } else {
      assert x + k as real * step == x + step;
    }
  }

  /** The collision test's fold, `abs((a - b + pi) % (2pi) - pi)`. */
  function FacingDiff(a: real, b: real): (r: real)
    ensures 0.0 <= r <= PI
  {
    Abs(Mod2Pi(a - b + PI) - PI)
  }

  /** The alignment solver's fold, `d = abs(a - b); 2pi - d if d > pi`. */
  function CircularDiff(a: real, b: real): (r: real)
    ensures r <= PI
    ensures Abs(a - b) <= TWO_PI ==> 0.0 <= r
  {
    var d := Abs(a - b);
    if d > PI then TWO_PI - d else d
  }

  /** On angles normalised to [0, 2pi) the solver's fold lies in [0, pi]. */
  lemma CircularDiffRange(a: real, b: real)
    requires 0.0 <= a < TWO_PI && 0.0 <= b < TWO_PI
    ensures 0.0 <= CircularDiff(a, b) <= PI
  {
  }

  /** The collision test's fold only depends on the angles modulo 2pi. */
  lemma FacingDiffCongruent(a: real, b: real, a': real, b': real)
    requires Congruent(a, a') && Congruent(b, b')
    ensures FacingDiff(a, b) == FacingDiff(a', b')
  {
    var p, q := (a - a') / TWO_PI, (b - b') / TWO_PI;
    assert ((a - b + PI) - (a' - b' + PI)) / TWO_PI == p - q;
    assert (p - q).Floor == p.Floor - q.Floor;
    Mod2PiCongruent(a - b + PI, a' - b' + PI);
  }

  /** On normalised angles the two folds are the same function. */
  lemma FoldsAgreeNormalised(a: real, b: real)
    requires 0.0 <= a < TWO_PI && 0.0 <= b < TWO_PI
    ensures CircularDiff(a, b) == FacingDiff(a, b)
  {
    var d := a - b;
    if d < -PI {
      assert ((d + PI) - (d + PI + TWO_PI)) / TWO_PI == -1.0;
      Mod2PiUnique(d + PI, d + PI + TWO_PI);
    } else if d < PI {
      assert ((d + PI) - (d + PI)) / TWO_PI == 0.0;
      Mod2PiUnique(d + PI, d + PI);
    } else if d == PI {
      assert ((d + PI) - 0.0) / TWO_PI == 1.0;
      Mod2PiUnique(d + PI, 0.0);
    } else {
      assert ((d + PI) - (d + PI - TWO_PI)) / TWO_PI == 1.0;
      Mod2PiUnique(d + PI, d + PI - TWO_PI);
    }
  }

  /** For all angles, the collision test's fold is the solver's fold applied
      to the normalised angles. */
  lemma FoldsAgree(a: real, b: real)
    ensures FacingDiff(a, b) == CircularDiff(Mod2Pi(a), Mod2Pi(b))
  {
    Mod2PiCongruentSelf(a);
    Mod2PiCongruentSelf(b);
    CongruentSymmetric(a, Mod2Pi(a));
    CongruentSymmetric(b, Mod2Pi(b));
    FacingDiffCongruent(a, b, Mod2Pi(a), Mod2Pi(b));
    FoldsAgreeNormalised(Mod2Pi(a), Mod2Pi(b));
  }
}
