/** Three-component real vectors: the numpy float64 arrays of shape (3,) that
    hold positions, velocities and accelerations, with exact real arithmetic
    in place of floating point. */
module Vectors {

  datatype Vec3 = Vec3(x: real, y: real, z: real)

  const Zero: Vec3 := Vec3(0.0, 0.0, 0.0)

  function Add(a: Vec3, b: Vec3): Vec3 {
    Vec3(a.x + b.x, a.y + b.y, a.z + b.z)
  }

  function Sub(a: Vec3, b: Vec3): Vec3 {
    Vec3(a.x - b.x, a.y - b.y, a.z - b.z)
  }

  function Neg(a: Vec3): Vec3 {
    Vec3(-a.x, -a.y, -a.z)
  }

  /** Scalar times vector (numpy broadcasting `k * a` or `a * k`). */
  function Scale(k: real, a: Vec3): Vec3 {
    Vec3(k * a.x, k * a.y, k * a.z)
  }

  /** Vector divided componentwise by a non-zero scalar (`a / k`). */
  function Div(a: Vec3, k: real): Vec3
    requires k != 0.0
  {
    Vec3(a.x / k, a.y / k, a.z / k)
  }

  function Cube(n: real): real {
    n * n * n
  }

  /** The properties of `np.linalg.norm` the integrator relies on: it is
      symmetric, |-d| = |d|, and positive on every non-zero vector. Dafny has
      no square root, so the norm is a parameter known only to satisfy these. */
  ghost predicate IsNorm(norm: Vec3 -> real) {
    forall d :: norm(Neg(d)) == norm(d) && (d != Zero ==> norm(d) > 0.0)
  }

  lemma CubePositive(n: real)
    requires n > 0.0
    ensures Cube(n) > 0.0
  {
    assert n * n > 0.0;
    assert (n * n) * n > 0.0;
  }

  // Algebra of vectors. Each identity is proved on its own, by unfolding, so
  // that the proofs that use them need only equalities between vector terms.

  lemma AddZero(a: Vec3)
    ensures Add(Zero, a) == a && Add(a, Zero) == a
  {
  }

  lemma NegNeg(a: Vec3)
    ensures Neg(Neg(a)) == a
  {
  }

  lemma NegAdd(a: Vec3, b: Vec3)
    ensures Neg(Add(a, b)) == Add(Neg(a), Neg(b))
  {
  }

  lemma SubSwap(a: Vec3, b: Vec3)
    ensures Sub(b, a) == Neg(Sub(a, b))
  {
  }

  lemma ScaleZero(k: real)
    ensures Scale(k, Zero) == Zero
  {
  }

  lemma ScaleNeg(k: real, a: Vec3)
    ensures Scale(k, Neg(a)) == Neg(Scale(k, a))
  {
  }

  lemma ScaleAdd(k: real, a: Vec3, b: Vec3)
    ensures Scale(k, Add(a, b)) == Add(Scale(k, a), Scale(k, b))
  {
  }

  lemma ScaleScaleSwap(j: real, k: real, a: Vec3)
    ensures Scale(j, Scale(k, a)) == Scale(k, Scale(j, a))
  {
  }

  lemma DivOfScale(k: real, a: Vec3, c: real)
    requires c != 0.0
    ensures Div(Scale(k, a), c) == Scale(k / c, a)
  {
  }

  /** Python's built-in `sum` over a list of vectors: a left fold that starts
      from zero, ((0 + vs[0]) + vs[1]) + ... */
  function VSum(vs: seq<Vec3>): Vec3
    decreases |vs|
  {
    if |vs| == 0 then Zero else Add(VSum(vs[..|vs| - 1]), vs[|vs| - 1])
  }

  function AddEach(a: seq<Vec3>, b: seq<Vec3>): (c: seq<Vec3>)
    requires |a| == |b|
    ensures |c| == |a| && forall i :: 0 <= i < |a| ==> c[i] == Add(a[i], b[i])
  {
    seq(|a|, i requires 0 <= i < |a| => Add(a[i], b[i]))
  }

  function ScaleEach(k: real, a: seq<Vec3>): (c: seq<Vec3>)
    ensures |c| == |a| && forall i :: 0 <= i < |a| ==> c[i] == Scale(k, a[i])
  {
    seq(|a|, i requires 0 <= i < |a| => Scale(k, a[i]))
  }

  function NegEach(a: seq<Vec3>): (c: seq<Vec3>)
    ensures |c| == |a| && forall i :: 0 <= i < |a| ==> c[i] == Neg(a[i])
  {
    seq(|a|, i requires 0 <= i < |a| => Neg(a[i]))
  }

  lemma VSumSnoc(vs: seq<Vec3>, v: Vec3)
    ensures VSum(vs + [v]) == Add(VSum(vs), v)
  {
    assert (vs + [v])[..|vs|] == vs;
  }

  /** Summing one more element of a sequence adds it to the running sum. */
  lemma VSumPrefix(vs: seq<Vec3>, k: nat)
    requires k < |vs|
    ensures VSum(vs[..k + 1]) == Add(VSum(vs[..k]), vs[k])
  {
    assert vs[..k + 1][..k] == vs[..k];
  }

  lemma VSumOne(v: Vec3)
    ensures VSum([v]) == v
  {
    assert [v][..0] == [];
    AddZero(v);
  }

  lemma ShuffleSums(sa: Vec3, sb: Vec3, a: Vec3, b: Vec3)
    ensures Add(Add(sa, sb), Add(a, b)) == Add(Add(sa, a), Add(sb, b))
  {
  }

  /** Summing two lists elementwise and then adding is adding the sums. */
  lemma {:induction false} VSumAddEach(a: seq<Vec3>, b: seq<Vec3>)
    requires |a| == |b|
    ensures VSum(AddEach(a, b)) == Add(VSum(a), VSum(b))
  {
    if |a| > 0 {
      var n := |a| - 1;
      assert AddEach(a, b)[..n] == AddEach(a[..n], b[..n]);
      VSumAddEach(a[..n], b[..n]);
      ShuffleSums(VSum(a[..n]), VSum(b[..n]), a[n], b[n]);
    }
  }

  /** A common factor can be taken out of a sum. */
  lemma {:induction false} VSumScaleEach(k: real, a: seq<Vec3>)
    ensures VSum(ScaleEach(k, a)) == Scale(k, VSum(a))
  {
    if |a| > 0 {
      var n := |a| - 1;
      assert ScaleEach(k, a)[..n] == ScaleEach(k, a[..n]);
      VSumScaleEach(k, a[..n]);
      ScaleAdd(k, VSum(a[..n]), a[n]);
    } else {
      ScaleZero(k);
    }
  }

  lemma {:induction false} VSumNegEach(a: seq<Vec3>)
    ensures VSum(NegEach(a)) == Neg(VSum(a))
  {
    if |a| > 0 {
      var n := |a| - 1;
      assert NegEach(a)[..n] == NegEach(a[..n]);
      VSumNegEach(a[..n]);
      NegAdd(VSum(a[..n]), a[n]);
    }
  }
}
