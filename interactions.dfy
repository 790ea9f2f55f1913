/** The net acceleration on one body inside `System.update`: the list without
    the body itself (`np.delete`), the pull of each remaining body on it, in
    list order, and their sum from zero. It is stated for any pairwise law;
    module Gravity supplies the one the system uses. */
module Interactions {
  import opened Vectors

  /** A pairwise law: the acceleration of a body at the first position due
      to a body of the given mass at the second. */
  type Law = (Vec3, Vec3, real) -> Vec3

  /** The forces between a body of mass mi at ri and one of mass mj at rj
      are equal and opposite. */
  ghost predicate Opposite(law: Law, ri: Vec3, rj: Vec3, mi: real, mj: real) {
    Scale(mi, law(ri, rj, mj)) == Neg(Scale(mj, law(rj, ri, mi)))
  }

  /** Newton's third law holds for the law, between any two bodies at
      distinct positions. */
  ghost predicate ObeysThirdLaw(law: Law) {
    forall ri, rj, mi, mj :: ri != rj ==> Opposite(law, ri, rj, mi, mj)
  }

  /** `np.delete(s, i)`: the list without its element at index i. */
  function Delete<T>(s: seq<T>, i: nat): (r: seq<T>)
    requires i < |s|
    ensures |r| == |s| - 1
    ensures forall k :: 0 <= k < |r| ==> r[k] == if k < i then s[k] else s[k + 1]
  {
    s[..i] + s[i + 1..]
  }

  /** The list comprehension `[b.acceleration(b2) for b2 in others]` for a body
      at `ri`, where the others have positions `rs` and masses `ms`. */
  function Pulls(ri: Vec3, rs: seq<Vec3>, ms: seq<real>, law: Law): (ps: seq<Vec3>)
    requires |rs| == |ms|
    ensures |ps| == |rs|
    ensures forall k :: 0 <= k < |rs| ==> ps[k] == law(ri, rs[k], ms[k])
  {
    seq(|rs|, k requires 0 <= k < |rs| => law(ri, rs[k], ms[k]))
  }

  /** Net acceleration on body i: the sum, in index order and starting from
      zero, of the pulls of every body except i itself. */
  function NetAcc(rs: seq<Vec3>, ms: seq<real>, i: nat, law: Law): Vec3
    requires |rs| == |ms| && i < |rs|
  {
    VSum(Pulls(rs[i], Delete(rs, i), Delete(ms, i), law))
  }

  /** Removing index i and then appending is appending and then removing. */
  lemma DeleteSnoc<T>(s: seq<T>, i: nat)
    requires i + 1 < |s|
    ensures Delete(s, i) == Delete(s[..|s| - 1], i) + [s[|s| - 1]]
  {
    var n := |s| - 1;
    assert s[i + 1..] == s[..n][i + 1..] + [s[n]];
    assert s[..n][..i] == s[..i];
  }

  /** `np.delete` removes exactly index i: every other index survives, in order. */
  lemma DeleteKeepsOthers<T>(s: seq<T>, i: nat, j: nat)
    requires i < |s| && j < |s| && j != i
    ensures var k := if j < i then j else j - 1; k < |Delete(s, i)| && Delete(s, i)[k] == s[j]
  {
  }

  lemma PullsSnoc(ri: Vec3, rs: seq<Vec3>, ms: seq<real>, r: Vec3, m: real, law: Law)
    requires |rs| == |ms|
    ensures Pulls(ri, rs + [r], ms + [m], law) == Pulls(ri, rs, ms, law) + [law(ri, r, m)]
  {
  }

  /** Appending a body at the end adds its pull to the net acceleration of
      every earlier body. */
  lemma NetAccSnoc(rs: seq<Vec3>, ms: seq<real>, i: nat, law: Law)
    requires |rs| == |ms| && i + 1 < |rs|
    ensures NetAcc(rs, ms, i, law)
         == Add(NetAcc(rs[..|rs| - 1], ms[..|ms| - 1], i, law), law(rs[i], rs[|rs| - 1], ms[|ms| - 1]))
  {
    var n := |rs| - 1;
    var rs', ms' := rs[..n], ms[..n];
    var before := Pulls(rs[i], Delete(rs', i), Delete(ms', i), law);
    var last := law(rs[i], rs[n], ms[n]);
    assert Pulls(rs[i], Delete(rs, i), Delete(ms, i), law) == before + [last] by {
      DeleteSnoc(rs, i);
      DeleteSnoc(ms, i);
      PullsSnoc(rs[i], Delete(rs', i), Delete(ms', i), rs[n], ms[n], law);
    }
    assert rs'[i] == rs[i];
    VSumSnoc(before, last);
  }

  /** The last body feels the pulls of all the bodies before it. */
  lemma NetAccLast(rs: seq<Vec3>, ms: seq<real>, law: Law)
    requires |rs| == |ms| && 0 < |rs|
    ensures NetAcc(rs, ms, |rs| - 1, law) == VSum(Pulls(rs[|rs| - 1], rs[..|rs| - 1], ms[..|ms| - 1], law))
  {
    var n := |rs| - 1;
    assert Delete(rs, n) == rs[..n];
    assert Delete(ms, n) == ms[..n];
  }
}
