/** Unity's vector arithmetic over exact reals: the handful of operations the
    gesture and stroke code uses (addition, scaling, clamped interpolation,
    squared distance and the approximate zero test of `==`). */
module Vectors {

  datatype Vec3 = Vec3(x: real, y: real, z: real)
  datatype Vec2 = Vec2(x: real, y: real)

  datatype Option<T> = None | Some(value: T)

  const Zero3: Vec3 := Vec3(0.0, 0.0, 0.0)
  const Zero2: Vec2 := Vec2(0.0, 0.0)

  /** Unity compares vectors with `sqrMagnitude < kEpsilon * kEpsilon`, kEpsilon = 1e-5. */
  const EqualityEpsilonSq: real := 1.0 / 10000000000.0

  /** A camera transform: its position and its three basis vectors. */
  datatype CameraPose = CameraPose(position: Vec3, right: Vec3, up: Vec3, forward: Vec3)

  function Add3(a: Vec3, b: Vec3): Vec3 { Vec3(a.x + b.x, a.y + b.y, a.z + b.z) }
  function Sub3(a: Vec3, b: Vec3): Vec3 { Vec3(a.x - b.x, a.y - b.y, a.z - b.z) }
  function Scale3(a: Vec3, s: real): Vec3 { Vec3(a.x * s, a.y * s, a.z * s) }

  /** `(a + b) * 0.5f` */
  function Midpoint3(a: Vec3, b: Vec3): (m: Vec3)
    ensures Add3(Sub3(m, a), Sub3(m, b)) == Zero3
  {
    Scale3(Add3(a, b), 0.5)
  }

  function SqrDist3(a: Vec3, b: Vec3): (d: real)
    ensures d >= 0.0
  {
    var dx, dy, dz := a.x - b.x, a.y - b.y, a.z - b.z;
    dx * dx + dy * dy + dz * dz
  }

  function SqrDist2(a: Vec2, b: Vec2): (d: real)
    ensures d >= 0.0
  {
    var dx, dy := a.x - b.x, a.y - b.y;
    dx * dx + dy * dy
  }

  /** `Mathf.Clamp01` */
  function Clamp01(t: real): (r: real)
    ensures 0.0 <= r <= 1.0
    ensures 0.0 <= t <= 1.0 ==> r == t
    ensures t < 0.0 ==> r == 0.0
    ensures t > 1.0 ==> r == 1.0
  {
    if t < 0.0 then 0.0 else if t > 1.0 then 1.0 else t
  }

  /** `Mathf.Lerp`: the interpolation parameter is clamped to [0,1]. */
  function Lerp(a: real, b: real, t: real): real
  {
    a + (b - a) * Clamp01(t)
  }

  function Lerp3(a: Vec3, b: Vec3, t: real): Vec3
  {
    Vec3(Lerp(a.x, b.x, t), Lerp(a.y, b.y, t), Lerp(a.z, b.z, t))
  }

  function Lerp2(a: Vec2, b: Vec2, t: real): Vec2
  {
    Vec2(Lerp(a.x, b.x, t), Lerp(a.y, b.y, t))
  }

  /** `v == Vector2.zero` as Unity evaluates it. */
  predicate ApproxZero2(v: Vec2)
  {
    v.x * v.x + v.y * v.y < EqualityEpsilonSq
  }

  /** `v == Vector3.zero` as Unity evaluates it. */
  predicate ApproxZero3(v: Vec3)
  {
    v.x * v.x + v.y * v.y + v.z * v.z < EqualityEpsilonSq
  }

  /** `Distance(a, b) < d`, stated on the squared distance `sq`. */
  predicate DistLess(sq: real, d: real)
  {
    d > 0.0 && sq < d * d
  }

  /** `Distance(a, b) > d`, stated on the squared distance `sq`. */
  predicate DistGreater(sq: real, d: real)
  {
    d < 0.0 || sq > d * d
  }

  lemma MulNonNeg(x: real, y: real)
    requires x >= 0.0 && y >= 0.0
    ensures x * y >= 0.0
  {
  }

  lemma MulPos(x: real, y: real)
    requires x > 0.0 && y > 0.0
    ensures x * y > 0.0
  {
  }

  lemma SquareMonotone(a: real, b: real)
    requires 0.0 <= a < b
    ensures a * a < b * b
  {
    MulNonNeg(a, b - a);
    MulPos(b - a, b);
    calc {
      a * a;
    ==
      a * b - a * (b - a);
    <=
      a * b;
    <
      a * b + (b - a) * b;
    ==
      b * b;
    }
  }

  /** The squared comparisons agree with the comparisons on the true distance:
      for every non-negative `dist` whose square is `sq`, `DistLess` and
      `DistGreater` are exactly `dist < d` and `dist > d`. */
  lemma SquaredComparisonsExact(dist: real, sq: real, d: real)
    requires dist >= 0.0 && dist * dist == sq
    ensures DistLess(sq, d) <==> dist < d
    ensures DistGreater(sq, d) <==> dist > d
  {
    if dist < d {
      SquareMonotone(dist, d);
    } else if d >= 0.0 {
      if d < dist {
        SquareMonotone(d, dist);
      }
    }
  }

  /** A clamped interpolation never leaves the segment between its ends, and
      what is left of the gap to `b` is the gap times `1 - t`. */
  lemma LerpBetween(a: real, b: real, t: real)
    ensures a <= b ==> a <= Lerp(a, b, t) <= b
    ensures b <= a ==> b <= Lerp(a, b, t) <= a
    ensures Lerp(a, b, t) - b == (a - b) * (1.0 - Clamp01(t))
  {
    var c := Clamp01(t);
    if a <= b {
      MulNonNeg(b - a, c);
      MulNonNeg(b - a, 1.0 - c);
      assert (b - a) - (b - a) * c == (b - a) * (1.0 - c);
    } else {
      MulNonNeg(a - b, c);
      MulNonNeg(a - b, 1.0 - c);
      assert (a - b) - (a - b) * c == (a - b) * (1.0 - c);
      assert (b - a) * c == -((a - b) * c);
    }
    assert (a + (b - a) * c) - b == (a - b) * (1.0 - c);
  }

  /** Interpolating toward `b` with weight `1 - s` leaves the fraction `s` of
      the gap: the residual `r - b` is `(a - b) * s`, componentwise. */
  lemma Lerp3Residual(a: Vec3, b: Vec3, s: real)
    requires 0.0 <= s <= 1.0
    ensures Sub3(Lerp3(a, b, 1.0 - s), b) == Scale3(Sub3(a, b), s)
  {
    LerpBetween(a.x, b.x, 1.0 - s);
    LerpBetween(a.y, b.y, 1.0 - s);
    LerpBetween(a.z, b.z, 1.0 - s);
  }

  lemma Lerp2Residual(a: Vec2, b: Vec2, s: real)
    requires 0.0 <= s <= 1.0
    ensures Lerp2(a, b, 1.0 - s).x - b.x == (a.x - b.x) * s
    ensures Lerp2(a, b, 1.0 - s).y - b.y == (a.y - b.y) * s
  {
    LerpBetween(a.x, b.x, 1.0 - s);
    LerpBetween(a.y, b.y, 1.0 - s);
  }

  function Dot3(a: Vec3, b: Vec3): real
  {
    a.x * b.x + a.y * b.y + a.z * b.z
  }
}
