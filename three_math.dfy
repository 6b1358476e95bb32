/** The slice of three.js's maths that the retargeting code uses: vectors,
    Euler angles, quaternions and scalar interpolation. Reals stand in for
    IEEE doubles. Quaternion construction and spherical interpolation are
    trigonometric and are kept abstract: they are function values handed to
    the model (`Quaternions`), never given a definition. */
module ThreeMath {

  datatype Vec3 = Vec3(x: real, y: real, z: real)

  /** `new Vector3()` / the JavaScript default `{ x: 0, y: 0, z: 0 }`. */
  const Zero: Vec3 := Vec3(0.0, 0.0, 0.0)

  /** Axis orders accepted by three's `Euler`. */
  datatype RotationOrder = XYZ | YZX | ZXY | XZY | YXZ | ZYX

  datatype Euler = Euler(x: real, y: real, z: real, order: RotationOrder)

  /** `new Euler()`: all angles zero, order "XYZ". */
  const EulerZero: Euler := Euler(0.0, 0.0, 0.0, XYZ)

  datatype Quat = Quat(x: real, y: real, z: real, w: real)

  /** `Quaternion.setFromEuler` and `Quaternion.slerp`, left uninterpreted. */
  datatype Quaternions = Quaternions(setFromEuler: Euler -> Quat, slerp: (Quat, Quat, real) -> Quat)

  /** `MathUtils.lerp(x, y, t)`: the point a fraction `t` of the way from `x` to `y`. */
  function Lerp(x: real, y: real, t: real): (r: real)
    ensures t == 0.0 ==> r == x
    ensures t == 1.0 ==> r == y
  {
    (1.0 - t) * x + t * y
  }

  /** What is left of the way to `y` after a blend: the fraction `1 - t` of it. */
  lemma LerpGap(x: real, y: real, t: real)
    ensures Lerp(x, y, t) - y == (1.0 - t) * (x - y)
  {
    assert (1.0 - t) * x + t * y - y == (1.0 - t) * x - (1.0 - t) * y;
  }

  /** `Vector3.lerp(v, alpha)` applied to `p`: each axis moves by `(v - p) * alpha`. */
  function Vec3Lerp(p: Vec3, v: Vec3, alpha: real): (r: Vec3)
    ensures r.x == Lerp(p.x, v.x, alpha) && r.y == Lerp(p.y, v.y, alpha) && r.z == Lerp(p.z, v.z, alpha)
  {
    LerpStep(p.x, v.x, alpha);
    LerpStep(p.y, v.y, alpha);
    LerpStep(p.z, v.z, alpha);
    Vec3(p.x + (v.x - p.x) * alpha, p.y + (v.y - p.y) * alpha, p.z + (v.z - p.z) * alpha)
  }

  /** Moving `x` by the fraction `t` of the way to `y` is the blend `Lerp(x, y, t)`. */
  lemma LerpStep(x: real, y: real, t: real)
    ensures x + (y - x) * t == Lerp(x, y, t)
  {
    assert (y - x) * t == y * t - x * t;
    assert (1.0 - t) * x == x - t * x;
  }

  /** Kalidokit's `Utils.clamp(v, lo, hi)`, that is `Math.max(Math.min(v, hi), lo)`. */
  function Clamp(v: real, lo: real, hi: real): (r: real)
    ensures lo <= hi ==> lo <= r <= hi
    ensures lo <= v <= hi ==> r == v
    ensures lo <= hi && hi <= v ==> r == hi
    ensures lo <= hi && v <= lo ==> r == lo
  {
    var m := if v < hi then v else hi;
    if m > lo then m else lo
  }

  function Pow(b: real, n: nat): real
  {
    if n == 0 then 1.0 else b * Pow(b, n - 1)
  }

  /** The value reached by applying `Lerp(_, target, t)` `n` times: the
      smoothing that one channel sees over `n` frames with a constant target. */
  function LerpIter(v: real, target: real, t: real, n: nat): real
    decreases n
  {
    if n == 0 then v else LerpIter(Lerp(v, target, t), target, t, n - 1)
  }

  /** A blend with weight in [0,1] lands between its two ends. */
  lemma LerpBetween(x: real, y: real, t: real)
    requires 0.0 <= t <= 1.0
    ensures x <= y ==> x <= Lerp(x, y, t) <= y
    ensures y <= x ==> y <= Lerp(x, y, t) <= x
  {
    assert Lerp(x, y, t) == x + t * (y - x);
    if x <= y {
      MulUnit(t, y - x);
    } else {
      MulUnit(t, x - y);
    }
  }

  /** After `n` blends toward a fixed target, the remaining distance is the
      initial distance scaled by `(1 - t)^n`: exponential smoothing. */
  lemma {:induction false} LerpIterDistance(v: real, target: real, t: real, n: nat)
    ensures LerpIter(v, target, t, n) - target == Pow(1.0 - t, n) * (v - target)
    decreases n
  {
    if n > 0 {
      var v1 := Lerp(v, target, t);
      var c, k, d := 1.0 - t, Pow(1.0 - t, n - 1), v - target;
      LerpIterDistance(v1, target, t, n - 1);
      LerpGap(v, target, t);
      ScaleStep(LerpIter(v, target, t, n) - target, k, v1 - target, c, d, Pow(1.0 - t, n));
    }
  }

  /** The arithmetic core of `LerpIterDistance`, on plain reals. */
  lemma ScaleStep(e: real, k: real, g: real, c: real, d: real, p: real)
    requires e == k * g && g == c * d && p == c * k
    ensures e == p * d
  {
  }

  /** With a weight in [0,1], repeated blending toward a fixed target never
      moves away from it: the distance after `n + 1` frames is at most the
      distance after `n`, which is at most the initial one. */
  lemma {:induction false} LerpIterConverges(v: real, target: real, t: real, n: nat)
    requires 0.0 <= t <= 1.0
    ensures Abs(LerpIter(v, target, t, n) - target) <= Abs(v - target)
    ensures Abs(LerpIter(v, target, t, n + 1) - target) <= Abs(LerpIter(v, target, t, n) - target)
    decreases n
  {
    LerpIterLast(v, target, t, n);
    LerpShrinks(LerpIter(v, target, t, n), target, t);
    if n > 0 {
      LerpIterConverges(v, target, t, n - 1);
    }
  }

  /** One more frame is one more blend of the value reached so far. */
  lemma {:induction false} LerpIterLast(v: real, target: real, t: real, n: nat)
    ensures LerpIter(v, target, t, n + 1) == Lerp(LerpIter(v, target, t, n), target, t)
    decreases n
  {
    if n > 0 {
      LerpIterLast(Lerp(v, target, t), target, t, n - 1);
    }
  }

  /** A blend with weight in [0,1] toward `target` does not move away from it. */
  lemma LerpShrinks(x: real, target: real, t: real)
    requires 0.0 <= t <= 1.0
    ensures Abs(Lerp(x, target, t) - target) <= Abs(x - target)
  {
    var gap := Lerp(x, target, t) - target;
    LerpGap(x, target, t);
    AbsScale(1.0 - t, x - target);
    assert Abs(gap) == (1.0 - t) * Abs(x - target);
    MulUnit(1.0 - t, Abs(x - target));
  }

  function Abs(r: real): real
  {
    if r < 0.0 then -r else r
  }

  /** Scaling a non-negative amount by a weight in [0,1] keeps it between 0 and itself. */
  lemma MulUnit(t: real, d: real)
    requires 0.0 <= t <= 1.0 && 0.0 <= d
    ensures 0.0 <= t * d <= d
  {
    assert d - t * d == (1.0 - t) * d;
  }

  lemma AbsScale(k: real, d: real)
    requires 0.0 <= k
    ensures Abs(k * d) == k * Abs(d)
  {
  }
}
