/** The pairwise gravitational pull, `Particle.acceleration`, with the
    gravitational constant taken as 1, and the laws it obeys. */
module Gravity {
  import opened Vectors
  import opened Interactions

  /** Acceleration of a body at `ri` due to a body of mass `mj` at `rj`:
      -mj * (ri - rj) / |ri - rj|**3. */
  function Acc(ri: Vec3, rj: Vec3, mj: real, norm: Vec3 -> real): Vec3
    requires IsNorm(norm) && ri != rj
  {
    var d := Sub(ri, rj);
    CubePositive(norm(d));
    Div(Scale(-mj, d), Cube(norm(d)))
  }

  /** The pull as a multiple of the separation ri - rj. */
  lemma AccAsScale(ri: Vec3, rj: Vec3, mj: real, norm: Vec3 -> real)
    requires IsNorm(norm) && ri != rj
    ensures Cube(norm(Sub(ri, rj))) > 0.0
    ensures Acc(ri, rj, mj, norm) == Scale(-mj / Cube(norm(Sub(ri, rj))), Sub(ri, rj))
  {
    var d := Sub(ri, rj);
    CubePositive(norm(d));
    DivOfScale(-mj, d, Cube(norm(d)));
  }

  /** The pull on the body at `ri` points from `ri` towards `rj`, with the
      factor mj / |ri - rj|**3, which is non-negative for a non-negative
      mass and positive for a positive one: gravity attracts, with the mass
      over the cubed distance times the separation. */
  lemma InverseSquareLaw(ri: Vec3, rj: Vec3, mj: real, norm: Vec3 -> real)
    requires IsNorm(norm) && ri != rj
    ensures Cube(norm(Sub(ri, rj))) > 0.0
    ensures Acc(ri, rj, mj, norm) == Scale(mj / Cube(norm(Sub(ri, rj))), Sub(rj, ri))
    ensures mj >= 0.0 ==> mj / Cube(norm(Sub(ri, rj))) >= 0.0
    ensures mj > 0.0 ==> mj / Cube(norm(Sub(ri, rj))) > 0.0
  {
    var d := Sub(ri, rj);
    AccAsScale(ri, rj, mj, norm);
    SubSwap(ri, rj);
    FlipFactor(mj, Cube(norm(d)), d);
  }

  lemma FlipFactor(m: real, c: real, d: Vec3)
    requires c > 0.0
    ensures Scale(-m / c, d) == Scale(m / c, Neg(d))
    ensures m >= 0.0 ==> m / c >= 0.0
    ensures m > 0.0 ==> m / c > 0.0
  {
  }

  /** The separation seen from the other body is the opposite vector, at the
      same distance. */
  lemma SeparationSymmetric(ri: Vec3, rj: Vec3, norm: Vec3 -> real)
    requires IsNorm(norm)
    ensures Sub(rj, ri) == Neg(Sub(ri, rj))
    ensures norm(Sub(rj, ri)) == norm(Sub(ri, rj))
  {
    SubSwap(ri, rj);
    assert norm(Neg(Sub(ri, rj))) == norm(Sub(ri, rj));
  }

  /** Swapping the two positions (same mass) reverses the pull. */
  lemma AccAntisymmetric(ri: Vec3, rj: Vec3, m: real, norm: Vec3 -> real)
    requires IsNorm(norm) && ri != rj
    ensures Acc(rj, ri, m, norm) == Neg(Acc(ri, rj, m, norm))
  {
    var d := Sub(ri, rj);
    SeparationSymmetric(ri, rj, norm);
    AccAsScale(ri, rj, m, norm);
    AccAsScale(rj, ri, m, norm);
    ScaleNeg(-m / Cube(norm(d)), d);
  }

  /** Newton's third law: mi * acc(i due to j) == -(mj * acc(j due to i)). */
  lemma NewtonThirdLaw(ri: Vec3, rj: Vec3, mi: real, mj: real, norm: Vec3 -> real)
    requires IsNorm(norm) && ri != rj
    ensures Scale(mi, Acc(ri, rj, mj, norm)) == Neg(Scale(mj, Acc(rj, ri, mi, norm)))
  {
    var d := Sub(ri, rj);
    SeparationSymmetric(ri, rj, norm);
    AccAsScale(ri, rj, mj, norm);
    AccAsScale(rj, ri, mi, norm);
    ThirdLawFactors(mi, mj, Cube(norm(d)), d);
  }

  lemma ThirdLawFactors(mi: real, mj: real, c: real, d: Vec3)
    requires c != 0.0
    ensures Scale(mi, Scale(-mj / c, d)) == Neg(Scale(mj, Scale(-mi / c, Neg(d))))
  {
    var u := Scale(1.0 / c, d);
    calc {
      Neg(Scale(mj, Scale(-mi / c, Neg(d))));
      { SplitFactor(-mi, c, Neg(d)); }
      Neg(Scale(mj, Scale(-mi, Scale(1.0 / c, Neg(d)))));
      { ScaleNeg(1.0 / c, d); }
      Neg(Scale(mj, Scale(-mi, Neg(u))));
      { ScaleNeg(-mi, u); }
      Neg(Scale(mj, Neg(Scale(-mi, u))));
      { ScaleNeg(mj, Scale(-mi, u)); }
      Neg(Neg(Scale(mj, Scale(-mi, u))));
      { NegNeg(Scale(mj, Scale(-mi, u))); }
      Scale(mj, Scale(-mi, u));
      { SwapMasses(mi, mj, u); }
      Scale(mi, Scale(-mj, u));
      { SplitFactor(-mj, c, d); }
      Scale(mi, Scale(-mj / c, d));
    }
  }

  lemma SplitFactor(k: real, c: real, d: Vec3)
    requires c != 0.0
    ensures Scale(k / c, d) == Scale(k, Scale(1.0 / c, d))
  {
  }

  lemma SwapMasses(mi: real, mj: real, u: Vec3)
    ensures Scale(mi, Scale(-mj, u)) == Scale(mj, Scale(-mi, u))
  {
  }

  /** Gravity as a pairwise law. Coincident positions are excluded wherever
      the law is applied; the law gives zero there only to be total. */
  function Gravitation(norm: Vec3 -> real): (law: Law)
    requires IsNorm(norm)
    ensures forall ri, rj, mj :: ri != rj ==> law(ri, rj, mj) == Acc(ri, rj, mj, norm)
  {
    (ri, rj, mj) => if ri == rj then Zero else Acc(ri, rj, mj, norm)
  }

  lemma GravitationObeysThirdLaw(norm: Vec3 -> real)
    requires IsNorm(norm)
    ensures ObeysThirdLaw(Gravitation(norm))
  {
    var law := Gravitation(norm);
    forall ri, rj, mi, mj | ri != rj
      ensures Opposite(law, ri, rj, mi, mj)
    {
      NewtonThirdLaw(ri, rj, mi, mj, norm);
    }
  }
}
