/** Vocabulary shared by the three clickers: the mouse buttons reported by the
    input listener, the two clicked buttons, the uniform random draw they all
    use, and the arithmetic of rates and periods. */
module Common {

  datatype Option<T> = None | Some(value: T)

  /** The buttons the listener can report. `Other` stands for every button the
      clickers ignore (the middle button, for one). */
  datatype Button = Left | Right | X1 | X2 | Other

  /** The two buttons the clickers click. */
  datatype Side = LeftSide | RightSide

  /** The two side buttons ("x1" and "x2"). */
  predicate IsSideButton(b: Button) {
    b == X1 || b == X2
  }

  /** A draw of `random.uniform(a, b)`, computed as `a + (b - a) * u` where `u`
      is the underlying draw of `random.random()`, which lies in [0, 1).
      The draw is a parameter so that the model stays deterministic. */
  function Uniform(a: real, b: real, u: real): (r: real)
    requires 0.0 <= u < 1.0
    ensures a <= b ==> a <= r <= b
    ensures b <= a ==> b <= r <= a
    ensures a < b ==> r < b
  {
    var r := a + (b - a) * u;
    UniformWithin(a, b, u, r);
    r
  }

  /** The bounds of `Uniform`, proved once: the draw `r` lies between `a` and
      `b`, strictly short of `b` when `a < b`. */
  lemma UniformWithin(a: real, b: real, u: real, r: real)
    requires 0.0 <= u < 1.0
    requires r == a + (b - a) * u
    ensures a <= b ==> a <= r <= b
    ensures b <= a ==> b <= r <= a
    ensures a < b ==> r < b
  {
    ScaledStep(b - a, u, r - a);
  }

  /** A fraction `u` in [0, 1) of a distance `d` lies between zero and `d`,
      strictly short of `d` when `d` is not zero. */
  lemma ScaledStep(d: real, u: real, step: real)
    requires 0.0 <= u < 1.0
    requires step == d * u
    ensures d > 0.0 ==> 0.0 <= step < d
    ensures d < 0.0 ==> d < step <= 0.0
    ensures d == 0.0 ==> step == 0.0
  {
    var rest := d * (1.0 - u);
    MulDistributes(d, 1.0, u, rest, d * 1.0, step);
    MulSign(d, u, step);
    MulSign(d, 1.0 - u, rest);
  }

  /** The sign of a product `p` of `x` and `y`. Each arithmetic fact about
      products is stated on a named product so that the proofs using it only
      reason linearly. */
  lemma MulSign(x: real, y: real, p: real)
    requires p == x * y
    ensures 0.0 <= x && 0.0 <= y ==> 0.0 <= p
    ensures 0.0 < x && 0.0 < y ==> 0.0 < p
    ensures x < 0.0 && 0.0 <= y ==> p <= 0.0
    ensures x < 0.0 && 0.0 < y ==> p < 0.0
  {
  }

  /** `x * (y - z)` is `x * y - x * z`, on named products. */
  lemma MulDistributes(x: real, y: real, z: real, p: real, py: real, pz: real)
    requires p == x * (y - z) && py == x * y && pz == x * z
    ensures p == py - pz
  {
  }

  /** `(1 / y) * y` is one. */
  lemma ReciprocalProduct(y: real, p: real)
    requires y != 0.0
    requires p == (1.0 / y) * y
    ensures p == 1.0
  {
  }

  /** `x < 1/y` and `x * y < 1` say the same for a positive `y`. */
  lemma BelowReciprocal(x: real, y: real)
    requires y > 0.0
    ensures x < 1.0 / y <==> x * y < 1.0
  {
    var r := 1.0 / y;
    var p := x * y;
    var q := y * (r - x);
    ReciprocalProduct(y, r * y);
    MulDistributes(y, r, x, q, y * r, y * x);
    MulCommutes(y, r);
    MulCommutes(y, x);
    MulSign(r - x, y, (r - x) * y);
    MulCommutes(r - x, y);
    assert q == 1.0 - p;
  }

  /** Products commute, on named products. */
  lemma MulCommutes(x: real, y: real)
    ensures x * y == y * x
  {
  }

  /** A smaller positive rate has a longer period. */
  lemma ReciprocalAntitone(x: real, y: real)
    requires 0.0 < x <= y
    ensures 1.0 / y <= 1.0 / x
  {
    var rx := 1.0 / x;
    var one := rx * x;
    var ry := rx * y;
    ReciprocalProduct(x, one);
    MulSign(rx, x, one);
    assert rx > 0.0;
    MulSign(rx, y - x, rx * (y - x));
    MulDistributes(rx, y, x, rx * (y - x), ry, one);
    assert ry >= 1.0;
    BelowReciprocal(rx, y);
  }

  /** For a rate between `lo` and `hi`: a gap of at least one period is a gap
      whose product with the rate reaches one; such a gap is also at least a
      period of `hi`, and a gap of a period of `lo` is at least one period of
      the rate. */
  lemma PeriodElapsed(gap: real, rate: real, lo: real, hi: real)
    requires 0.0 < lo <= rate <= hi
    ensures gap >= 1.0 / rate <==> gap * rate >= 1.0
    ensures gap * rate >= 1.0 ==> gap * hi >= 1.0
    ensures gap * lo >= 1.0 ==> gap * rate >= 1.0
  {
    BelowReciprocal(gap, rate);
    Monotone(gap, rate, hi, gap * rate, gap * hi);
    Monotone(gap, lo, rate, gap * lo, gap * rate);
  }

  /** Scaling by `gap` keeps the order of `y <= z` when the scaled values can
      reach one: a product of at least one at `y` stays at least one at `z`. */
  lemma Monotone(gap: real, y: real, z: real, py: real, pz: real)
    requires 0.0 < y <= z
    requires py == gap * y && pz == gap * z
    ensures py >= 1.0 ==> pz >= 1.0
  {
    var pd := gap * (z - y);
    MulDistributes(gap, z, y, pd, pz, py);
    if gap >= 0.0 {
      MulSign(gap, z - y, pd);
    } else {
      MulSign(gap, y, py);
    }
  }
}
