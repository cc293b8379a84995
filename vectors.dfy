/**
 * Three-component real vectors: three.js's `Vector3` and the plain
 * `{x, y, z}` records produced by the landmark detector.
 */
module Vectors {
  import opened Platform

  datatype Vec3 = Vec3(x: real, y: real, z: real)

  const Zero: Vec3 := Vec3(0.0, 0.0, 0.0)

  function Add(a: Vec3, b: Vec3): Vec3
  {
    Vec3(a.x + b.x, a.y + b.y, a.z + b.z)
  }

  function Sub(a: Vec3, b: Vec3): Vec3
  {
    Vec3(a.x - b.x, a.y - b.y, a.z - b.z)
  }

  function Scale(a: Vec3, s: real): Vec3
  {
    Vec3(a.x * s, a.y * s, a.z * s)
  }

  /** Squared Euclidean length. */
  function NormSq(a: Vec3): real
  {
    a.x * a.x + a.y * a.y + a.z * a.z
  }

  /** `Vector3.length()`. */
  function Length(sqrt: real -> real, a: Vec3): real
  {
    sqrt(NormSq(a))
  }

  /** The cross product; it is zero exactly for parallel vectors. */
  function Cross(a: Vec3, b: Vec3): Vec3
  {
    Vec3(a.y * b.z - a.z * b.y, a.z * b.x - a.x * b.z, a.x * b.y - a.y * b.x)
  }

  /** `Vector3.normalize()`: divides by the length, or by 1 when the length is
      0. The result keeps the zero vector at zero and is always parallel to
      the input; NormalizeIsUnit gives its length. */
  function Normalize(sqrt: real -> real, a: Vec3): (u: Vec3)
    ensures a == Zero ==> u == Zero
    ensures Cross(u, a) == Zero
  {
    var len := Length(sqrt, a);
    var k := 1.0 / (if len == 0.0 then 1.0 else len);
    CrossScale(a, a, k);
    Scale(a, k)
  }

  /** Scaling the first factor scales the cross product. */
  lemma CrossScale(a: Vec3, b: Vec3, s: real)
    ensures Cross(Scale(a, s), b) == Scale(Cross(a, b), s)
  {
    CrossTerm(a.y, b.z, a.z, b.y, s);
    CrossTerm(a.z, b.x, a.x, b.z, s);
    CrossTerm(a.x, b.y, a.y, b.x, s);
    calc {
      Cross(Scale(a, s), b);
    ==
      Vec3((a.y * s) * b.z - (a.z * s) * b.y,
           (a.z * s) * b.x - (a.x * s) * b.z,
           (a.x * s) * b.y - (a.y * s) * b.x);
    ==
      Vec3((a.y * b.z - a.z * b.y) * s,
           (a.z * b.x - a.x * b.z) * s,
           (a.x * b.y - a.y * b.x) * s);
    ==
      Scale(Cross(a, b), s);
    }
  }

  /** One component of CrossScale. */
  lemma CrossTerm(p: real, q: real, r: real, t: real, s: real)
    ensures (p * s) * q - (r * s) * t == (p * q - r * t) * s
  {
  }

  /** The dot product; it is positive exactly when the angle is acute. */
  function Dot(a: Vec3, b: Vec3): real
  {
    a.x * b.x + a.y * b.y + a.z * b.z
  }

  /** Scaling the first factor scales the dot product. */
  lemma DotScale(a: Vec3, b: Vec3, s: real)
    ensures Dot(Scale(a, s), b) == s * Dot(a, b)
  {
    assert (a.x * s) * b.x == s * (a.x * b.x);
    assert (a.y * s) * b.y == s * (a.y * b.y);
    assert (a.z * s) * b.z == s * (a.z * b.z);
  }

  lemma NormSqPositive(a: Vec3)
    ensures NormSq(a) >= 0.0
    ensures a != Zero ==> NormSq(a) > 0.0
  {
    SumOfSquares(a.x, a.y, a.z);
    if a != Zero {
      assert a.x != 0.0 || a.y != 0.0 || a.z != 0.0;
    }
  }

  lemma SumOfSquares(x: real, y: real, z: real)
    ensures NormSq(Vec3(x, y, z)) >= 0.0
    ensures x != 0.0 || y != 0.0 || z != 0.0 ==> NormSq(Vec3(x, y, z)) > 0.0
  {
    calc {
      NormSq(Vec3(x, y, z));
    ==
      x * x + y * y + z * z;
    >=  { RawSumOfSquares(x, y, z); }
      0.0;
    }
    if x != 0.0 || y != 0.0 || z != 0.0 {
      calc {
        NormSq(Vec3(x, y, z));
      ==
        x * x + y * y + z * z;
      >  { RawSumOfSquares(x, y, z); }
        0.0;
      }
    }
  }

  lemma RawSumOfSquares(x: real, y: real, z: real)
    ensures x * x + y * y + z * z >= 0.0
    ensures x != 0.0 || y != 0.0 || z != 0.0 ==> x * x + y * y + z * z > 0.0
  {
  }

  lemma NormSqScale(a: Vec3, s: real)
    ensures NormSq(Scale(a, s)) == s * s * NormSq(a)
  {
    assert (a.x * s) * (a.x * s) == s * s * (a.x * a.x);
    assert (a.y * s) * (a.y * s) == s * s * (a.y * a.y);
    assert (a.z * s) * (a.z * s) == s * s * (a.z * a.z);
  }

  /** A normalised vector has length 1 and points the same way as its
      input (a positive dot product with it), except the zero vector, which
      `normalize` leaves at zero. */
  lemma NormalizeIsUnit(sqrt: real -> real, a: Vec3)
    requires IsSqrt(sqrt)
    ensures a == Zero ==> Normalize(sqrt, a) == Zero
    ensures a != Zero ==> NormSq(Normalize(sqrt, a)) == 1.0
    ensures a != Zero ==> Dot(Normalize(sqrt, a), a) > 0.0
  {
    NormSqPositive(a);
    var q := NormSq(a);
    var len := sqrt(q);
    assert 0.0 <= len && len * len == q;
    if a != Zero {
      assert len != 0.0;
      var s := 1.0 / len;
      NormSqScale(a, s);
      assert s * s * q == (s * len) * (s * len);
      assert s * len == 1.0;
      assert s > 0.0;
      DotScale(a, a, s);
      assert Dot(a, a) == q;
      PositiveProduct(s, q);
    }
  }
}
