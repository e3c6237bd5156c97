/**
 * Three-component vectors over the reals: the model's stand-in for Unity's
 * `Vector3` (floating point is replaced by exact real arithmetic).
 */
module Vectors {

  datatype Vec3 = Vec3(x: real, y: real, z: real)

  const Zero: Vec3 := Vec3(0.0, 0.0, 0.0)

  function Add(a: Vec3, b: Vec3): Vec3 {
    Vec3(a.x + b.x, a.y + b.y, a.z + b.z)
  }

  function Sub(a: Vec3, b: Vec3): Vec3 {
    Vec3(a.x - b.x, a.y - b.y, a.z - b.z)
  }

  function Neg(a: Vec3): Vec3 {
    Vec3(-a.x, -a.y, -a.z)
  }

  /** `v * k` */
  function Scale(v: Vec3, k: real): Vec3 {
    Vec3(v.x * k, v.y * k, v.z * k)
  }

  /** `v / d`, component-wise. */
  function Div(v: Vec3, d: real): Vec3
    requires d != 0.0
  {
    Vec3(v.x / d, v.y / d, v.z / d)
  }

  function SqrMagnitude(v: Vec3): real {
    v.x * v.x + v.y * v.y + v.z * v.z
  }

  /**
   * `v.magnitude >= r`, decided without a square root: for r > 0 the test
   * is r*r <= |v|^2. MagnitudeAtLeastIsLengthTest shows it agrees with the
   * test on the true length.
   */
  predicate MagnitudeAtLeast(v: Vec3, r: real) {
    r <= 0.0 || r * r <= SqrMagnitude(v)
  }

  lemma MagnitudeAtLeastIsLengthTest(v: Vec3, r: real, m: real)
    requires 0.0 <= m && m * m == SqrMagnitude(v)
    ensures MagnitudeAtLeast(v, r) <==> r <= m
  {
    if 0.0 < r {
      var mm, mr, rr := m * m, m * r, r * r;
      if r <= m {
        assert rr <= mr <= mm;
      } else {
        assert mm <= mr < rr;
      }
    }
  }

  /** Unity's `Mathf.Clamp01`. */
  function Clamp01(t: real): (c: real)
    ensures 0.0 <= c <= 1.0
    ensures 0.0 <= t <= 1.0 ==> c == t
  {
    if t < 0.0 then 0.0 else if t > 1.0 then 1.0 else t
  }

  /** Unity's `Vector3.Lerp(a, b, t)`, which clamps t to [0, 1] first. */
  function Lerp(a: Vec3, b: Vec3, t: real): (r: Vec3)
    ensures t <= 0.0 ==> r == a
    ensures 1.0 <= t ==> r == b
  {
    var c := Clamp01(t);
    Vec3(a.x + (b.x - a.x) * c, a.y + (b.y - a.y) * c, a.z + (b.z - a.z) * c)
  }

  /**
   * The one property the model assumes of `Vector3.normalized`: the zero
   * vector normalises to the zero vector (never NaN). The normaliser itself
   * is a parameter of every member that normalises.
   */
  predicate ZeroPreserving(norm: Vec3 -> Vec3) {
    norm(Zero) == Zero
  }

  /** The sum of a sequence of vectors, accumulated front to back. */
  function Sum(vs: seq<Vec3>): Vec3 {
    if |vs| == 0 then Zero else Add(Sum(vs[..|vs| - 1]), vs[|vs| - 1])
  }

  lemma {:induction false} SumPrepend(v: Vec3, vs: seq<Vec3>)
    ensures Sum([v] + vs) == Add(v, Sum(vs))
  {
    if |vs| == 0 {
      assert ([v] + vs)[..0] == [];
    } else {
      var init := vs[..|vs| - 1];
      assert ([v] + vs)[..|vs|] == [v] + init;
      SumPrepend(v, init);
    }
  }

  /** n copies of one vector sum to that vector scaled by n. */
  lemma {:induction false} SumConstant(vs: seq<Vec3>, v: Vec3)
    requires forall i :: 0 <= i < |vs| ==> vs[i] == v
    ensures Sum(vs) == Scale(v, |vs| as real)
  {
    if |vs| > 0 {
      SumConstant(vs[..|vs| - 1], v);
    }
  }
}
