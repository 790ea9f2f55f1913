/** The time step of the N-body system as a function of values: the state of
    every body before the step determines the state of every body after it.
    The class-based model in module NBodySystem is proved to compute exactly
    this function for gravity, and the physics is proved here about it. The
    step is stated for any pairwise law, so that the proofs about sums of
    pulls depend only on the properties of the law they name. */
module Integrator {
  import opened Vectors
  import opened Interactions
  import opened Gravity

  /** What a particle holds between steps: position, velocity and mass. */
  datatype Body = Body(r: Vec3, v: Vec3, m: real)

  function Positions(s: seq<Body>): (rs: seq<Vec3>)
    ensures |rs| == |s| && forall i :: 0 <= i < |s| ==> rs[i] == s[i].r
  {
    seq(|s|, i requires 0 <= i < |s| => s[i].r)
  }

  function Masses(s: seq<Body>): (ms: seq<real>)
    ensures |ms| == |s| && forall i :: 0 <= i < |s| ==> ms[i] == s[i].m
  {
    seq(|s|, i requires 0 <= i < |s| => s[i].m)
  }

  /** No two bodies share a position, so every pairwise pull is defined. */
  ghost predicate DistinctPositions(rs: seq<Vec3>) {
    forall j, k :: 0 <= j < |rs| && 0 <= k < |rs| && j != k ==> rs[j] != rs[k]
  }

  /** The staged velocity delta `vp = a*dt`. */
  function Kick(a: Vec3, dt: real): Vec3 {
    Scale(dt, a)
  }

  /** The staged position delta `rp = 0.5*a*dt**2 + v*dt`. */
  function Drift(a: Vec3, v: Vec3, dt: real): Vec3 {
    Add(Scale(dt * dt, Scale(0.5, a)), Scale(dt, v))
  }

  /** A body after committing the deltas staged for acceleration `a`. */
  function Advance(b: Body, a: Vec3, dt: real): (b': Body)
    ensures b'.m == b.m
    ensures Sub(b'.v, b.v) == Kick(a, dt) && Sub(b'.r, b.r) == Drift(a, b.v, dt)
  {
    Body(Add(b.r, Drift(a, b.v, dt)), Add(b.v, Kick(a, dt)), b.m)
  }

  /** The net acceleration on body i in state s. */
  function AccOn(s: seq<Body>, i: nat, law: Law): Vec3
    requires i < |s|
  {
    NetAcc(Positions(s), Masses(s), i, law)
  }

  /** Entry k of ps is the pull on body i of the k-th other body, the
      bodies after i having moved down one place. (A predicate of its own, so
      that a proof about one entry need not unfold the others.) */
  ghost predicate PullAt(ps: seq<Vec3>, s: seq<Body>, i: nat, k: nat, law: Law) {
    var j := if k < i then k else k + 1;
    k < |ps| && i < |s| && j < |s| && ps[k] == law(s[i].r, s[j].r, s[j].m)
  }

  /** The pulls on body i, known by their entries, whose sum is its net
      acceleration. */
  lemma OtherPulls(s: seq<Body>, i: nat, law: Law) returns (ps: seq<Vec3>)
    requires i < |s|
    ensures |ps| == |s| - 1 && VSum(ps) == AccOn(s, i, law)
    ensures forall k: nat {:trigger PullAt(ps, s, i, k, law)} :: k < |ps| ==> PullAt(ps, s, i, k, law)
  {
    ps := Pulls(s[i].r, Delete(Positions(s), i), Delete(Masses(s), i), law);
  }

  /** One call of `System.update(dt)`: every body advances with the net
      acceleration of the state before the step. */
  function StepState(s: seq<Body>, dt: real, law: Law): (s': seq<Body>)
    ensures |s'| == |s|
  {
    seq(|s|, i requires 0 <= i < |s| => Advance(s[i], AccOn(s, i, law), dt))
  }

  /** A step changes no body's mass. */
  lemma StepKeepsMasses(s: seq<Body>, dt: real, law: Law)
    ensures Masses(StepState(s, dt, law)) == Masses(s)
  {
    var s' := StepState(s, dt, law);
    forall i | 0 <= i < |s|
      ensures s'[i].m == s[i].m
    {
      assert s'[i] == Advance(s[i], AccOn(s, i, law), dt);
    }
  }

  /** The step in the terms of the update rule: every body's new velocity and
      position are its old ones plus a*dt and 0.5*a*dt**2 + v*dt, where a is
      the sum, over every other body in index order, of its pull at the OLD
      positions. */
  lemma StepRule(s: seq<Body>, dt: real, law: Law, i: nat)
    requires i < |s|
    ensures var a := VSum(Pulls(s[i].r, Delete(Positions(s), i), Delete(Masses(s), i), law));
            && StepState(s, dt, law)[i].v == Add(s[i].v, Scale(dt, a))
            && StepState(s, dt, law)[i].r == Add(s[i].r, Add(Scale(dt * dt, Scale(0.5, a)), Scale(dt, s[i].v)))
            && StepState(s, dt, law)[i].m == s[i].m
  {
  }

  // The two phases of the step, as the source performs them.

  /** The deltas `rp` and `vp` a particle holds between the two loops. */
  datatype Delta = Delta(rp: Vec3, vp: Vec3)

  /** Entry i of ds holds the deltas body i stages in state s. (A predicate
      of its own, so that a proof about other entries need not unfold it.) */
  ghost predicate StagedAt(ds: seq<Delta>, s: seq<Body>, i: nat, dt: real, law: Law) {
    i < |s| && i < |ds| && ds[i] == Delta(Drift(AccOn(s, i, law), s[i].v, dt), Kick(AccOn(s, i, law), dt))
  }

  /** The first loop: the deltas every body stages, each from its net
      acceleration in the unchanged state s. */
  function Staged(s: seq<Body>, dt: real, law: Law): (ds: seq<Delta>)
    ensures |ds| == |s|
    ensures forall i: nat {:trigger StagedAt(ds, s, i, dt, law)} :: i < |s| ==> StagedAt(ds, s, i, dt, law)
  {
    seq(|s|, i requires 0 <= i < |s| => Delta(Drift(AccOn(s, i, law), s[i].v, dt), Kick(AccOn(s, i, law), dt)))
  }

  /** A list of deltas whose entries are the staged ones, known only by
      that property. */
  lemma StagedEntries(s: seq<Body>, dt: real, law: Law) returns (ds: seq<Delta>)
    ensures |ds| == |s|
    ensures forall i: nat {:trigger StagedAt(ds, s, i, dt, law)} :: i < |s| ==> StagedAt(ds, s, i, dt, law)
  {
    ds := Staged(s, dt, law);
  }

  /** Staged is the only list of deltas with entry i staged for body i. */
  lemma StagedUnique(ds: seq<Delta>, s: seq<Body>, dt: real, law: Law)
    requires |ds| == |s|
    requires forall i: nat {:trigger StagedAt(ds, s, i, dt, law)} :: i < |s| ==> StagedAt(ds, s, i, dt, law)
    ensures ds == Staged(s, dt, law)
  {
    var st := Staged(s, dt, law);
    forall i | 0 <= i < |s|
      ensures ds[i] == st[i]
    {
      assert StagedAt(ds, s, i, dt, law) && StagedAt(st, s, i, dt, law);
    }
  }

  /** The second loop: every body commits its own deltas. */
  function Applied(s: seq<Body>, ds: seq<Delta>): (s': seq<Body>)
    requires |ds| == |s|
    ensures |s'| == |s|
    ensures forall i :: 0 <= i < |s| ==>
      s'[i] == Body(Add(s[i].r, ds[i].rp), Add(s[i].v, ds[i].vp), s[i].m)
  {
    seq(|s|, i requires 0 <= i < |s| => Body(Add(s[i].r, ds[i].rp), Add(s[i].v, ds[i].vp), s[i].m))
  }

  /** Staging every delta before committing any is the step: no body's
      acceleration sees another body's new position. */
  lemma StageThenApply(s: seq<Body>, dt: real, law: Law)
    ensures Applied(s, Staged(s, dt, law)) == StepState(s, dt, law)
  {
    var lhs, rhs := Applied(s, Staged(s, dt, law)), StepState(s, dt, law);
    forall i | 0 <= i < |s|
      ensures lhs[i] == rhs[i]
    {
      assert StagedAt(Staged(s, dt, law), s, i, dt, law);
      assert rhs[i] == Advance(s[i], AccOn(s, i, law), dt);
    }
  }

  /** The step of the system, with gravity as the law. */
  function GravityStep(s: seq<Body>, dt: real, norm: Vec3 -> real): (s': seq<Body>)
    requires IsNorm(norm) && DistinctPositions(Positions(s))
    ensures |s'| == |s|
  {
    StepState(s, dt, Gravitation(norm))
  }

  /** Under gravity, the pull of body j on body i is the source's
      -m_j * (r_i - r_j) / |r_i - r_j|**3 at the old positions. */
  lemma GravityStepPulls(s: seq<Body>, norm: Vec3 -> real, i: nat)
    requires IsNorm(norm) && DistinctPositions(Positions(s)) && i < |s|
    ensures forall k :: 0 <= k < |s| - 1 ==>
      var j := if k < i then k else k + 1;
      s[j].r != s[i].r &&
      Pulls(s[i].r, Delete(Positions(s), i), Delete(Masses(s), i), Gravitation(norm))[k]
        == Acc(s[i].r, s[j].r, s[j].m, norm)
  {
  }

  /** A body alone feels no pull (`sum([])` is 0): its velocity is unchanged
      and its position advances by exactly v*dt. */
  lemma SingleBodyStep(b: Body, dt: real, law: Law)
    ensures StepState([b], dt, law) == [Body(Add(b.r, Scale(dt, b.v)), b.v, b.m)]
  {
    var s := [b];
    AloneFeelsNoPull(b, law);
    AdvanceFree(b, dt);
    assert StepState(s, dt, law)[0] == Advance(b, Zero, dt);
  }

  lemma AloneFeelsNoPull(b: Body, law: Law)
    ensures AccOn([b], 0, law) == Zero
  {
    assert Delete(Positions([b]), 0) == [];
  }

  lemma AdvanceFree(b: Body, dt: real)
    ensures Advance(b, Zero, dt) == Body(Add(b.r, Scale(dt, b.v)), b.v, b.m)
  {
    ScaleZero(0.5);
    ScaleZero(dt * dt);
    ScaleZero(dt);
    AddZero(Scale(dt, b.v));
    AddZero(b.v);
  }

  /** With two bodies, each feels exactly the pull of the other. */
  lemma TwoBodyStep(b0: Body, b1: Body, dt: real, law: Law)
    ensures StepState([b0, b1], dt, law)
         == [Advance(b0, law(b0.r, b1.r, b1.m), dt), Advance(b1, law(b1.r, b0.r, b0.m), dt)]
  {
    var s := [b0, b1];
    var rs, ms := Positions(s), Masses(s);
    assert Delete(rs, 0) == [b1.r] && Delete(ms, 0) == [b1.m];
    assert Delete(rs, 1) == [b0.r] && Delete(ms, 1) == [b0.m];
    assert Pulls(b0.r, [b1.r], [b1.m], law) == [law(b0.r, b1.r, b1.m)];
    assert Pulls(b1.r, [b0.r], [b0.m], law) == [law(b1.r, b0.r, b0.m)];
    VSumOne(law(b0.r, b1.r, b1.m));
    VSumOne(law(b1.r, b0.r, b0.m));
  }

  /** The body reflected through the origin: position and velocity negated. */
  function Mirror(b: Body): (b': Body)
    ensures b'.m == b.m && Add(b'.r, b.r) == Zero && Add(b'.v, b.v) == Zero
  {
    Body(Neg(b.r), Neg(b.v), b.m)
  }

  lemma DriftNeg(a: Vec3, v: Vec3, dt: real)
    ensures Drift(Neg(a), Neg(v), dt) == Neg(Drift(a, v, dt))
  {
    var h := Scale(0.5, a);
    ScaleNeg(0.5, a);
    ScaleNeg(dt * dt, h);
    ScaleNeg(dt, v);
    NegAdd(Scale(dt * dt, h), Scale(dt, v));
  }

  /** The opposite acceleration moves the mirrored body to the mirror image. */
  lemma AdvanceMirror(b: Body, a: Vec3, dt: real)
    ensures Advance(Mirror(b), Neg(a), dt) == Mirror(Advance(b, a, dt))
  {
    DriftNeg(a, b.v, dt);
    ScaleNeg(dt, a);
    NegAdd(b.r, Drift(a, b.v, dt));
    NegAdd(b.v, Kick(a, dt));
  }

  lemma PairOf(e: seq<Body>)
    requires |e| == 2
    ensures e == [e[0], e[1]]
  {
  }

  /** Only the origin is its own mirror image. */
  lemma NegFixed(r: Vec3)
    ensures Neg(r) == r ==> r == Zero
  {
  }

  /** Two bodies of equal mass placed symmetrically about the origin stay
      mirror images of each other after a step: each moves by the pull of
      the other, and the two pulls are opposite. */
  lemma MirrorStep(b: Body, dt: real, norm: Vec3 -> real)
    requires IsNorm(norm) && b.r != Zero
    ensures var law := Gravitation(norm);
      var c := Advance(b, law(b.r, Neg(b.r), b.m), dt);
      StepState([b, Mirror(b)], dt, law) == [c, Mirror(c)]
  {
    var law := Gravitation(norm);
    var b' := Mirror(b);
    NegFixed(b.r);
    var a := law(b.r, b'.r, b.m);
    TwoBodyStep(b, b', dt, law);
    AccAntisymmetric(b.r, b'.r, b.m, norm);
    assert law(b'.r, b.r, b'.m) == Neg(a);
    AdvanceMirror(b, a, dt);
  }

  /** ... and after every collision-free run of steps, the state is a body
      and its mirror image. */
  lemma {:induction false} MirrorEvolve(b: Body, n: nat, dt: real, norm: Vec3 -> real)
    requires IsNorm(norm) && CollisionFree([b, Mirror(b)], n, dt, Gravitation(norm))
    ensures var e := Evolve([b, Mirror(b)], n, dt, Gravitation(norm)); |e| == 2 && e[1] == Mirror(e[0])
    decreases n
  {
    if n > 0 {
      var law := Gravitation(norm);
      MirrorEvolve(b, n - 1, dt, norm);
      var e := Evolve([b, Mirror(b)], n - 1, dt, law);
      assert ApartAfter([b, Mirror(b)], n - 1, dt, law);
      var c := e[0];
      PairOf(e);
      assert Positions(e)[0] != Positions(e)[1];
      NegFixed(c.r);
      MirrorStep(c, dt, norm);
      var c' := Advance(c, law(c.r, Neg(c.r), c.m), dt);
      assert Evolve([b, Mirror(b)], n, dt, law) == StepState(e, dt, law) == [c', Mirror(c')];
    }
  }

  /** A vector along the x-axis. */
  predicate OnAxis(u: Vec3) {
    u.y == 0.0 && u.z == 0.0
  }

  lemma {:induction false} VSumOnAxis(vs: seq<Vec3>)
    requires forall k :: 0 <= k < |vs| ==> OnAxis(vs[k])
    ensures OnAxis(VSum(vs))
    decreases |vs|
  {
    if |vs| > 0 {
      VSumOnAxis(vs[..|vs| - 1]);
    }
  }

  /** Bodies that lie and move on the x-axis feel pulls along it. */
  lemma AccOnAxis(s: seq<Body>, i: nat, norm: Vec3 -> real)
    requires IsNorm(norm) && DistinctPositions(Positions(s)) && i < |s|
    requires forall k :: 0 <= k < |s| ==> OnAxis(s[k].r)
    ensures OnAxis(AccOn(s, i, Gravitation(norm)))
  {
    var law := Gravitation(norm);
    var ps := OtherPulls(s, i, law);
    forall k | 0 <= k < |ps|
      ensures OnAxis(ps[k])
    {
      assert PullAt(ps, s, i, k, law);
      var j := if k < i then k else k + 1;
      assert Positions(s)[i] != Positions(s)[j];
      AccAsScale(s[i].r, s[j].r, s[j].m, norm);
    }
    VSumOnAxis(ps);
  }

  lemma AdvanceOnAxis(b: Body, a: Vec3, dt: real)
    requires OnAxis(b.r) && OnAxis(b.v) && OnAxis(a)
    ensures OnAxis(Advance(b, a, dt).r) && OnAxis(Advance(b, a, dt).v)
  {
    assert OnAxis(Drift(a, b.v, dt)) && OnAxis(Kick(a, dt));
  }

  /** Every body lies and moves on the x-axis. */
  ghost predicate AlongAxis(s: seq<Body>) {
    forall k :: 0 <= k < |s| ==> OnAxis(s[k].r) && OnAxis(s[k].v)
  }

  /** Bodies that lie and move on the x-axis stay on it after a step of
      gravity. */
  lemma AxisStep(s: seq<Body>, dt: real, norm: Vec3 -> real)
    requires IsNorm(norm) && DistinctPositions(Positions(s)) && AlongAxis(s)
    ensures AlongAxis(StepState(s, dt, Gravitation(norm)))
  {
    var s' := StepState(s, dt, Gravitation(norm));
    forall k | 0 <= k < |s|
      ensures OnAxis(s'[k].r) && OnAxis(s'[k].v)
    {
      var a := AccOn(s, k, Gravitation(norm));
      AccOnAxis(s, k, norm);
      AdvanceOnAxis(s[k], a, dt);
      assert s'[k] == Advance(s[k], a, dt);
    }
  }

  /** Every body lies and moves on the x-axis after t steps. (A predicate
      of its own, so that a proof about one step need not unfold the
      others.) */
  ghost predicate AxisAfter(s: seq<Body>, t: nat, dt: real, law: Law) {
    AlongAxis(Evolve(s, t, dt, law))
  }

  lemma LastStepOnAxis(s: seq<Body>, n: nat, dt: real, norm: Vec3 -> real)
    requires 0 < n && IsNorm(norm) && CollisionFree(s, n, dt, Gravitation(norm))
    requires AxisAfter(s, n - 1, dt, Gravitation(norm))
    ensures AxisAfter(s, n, dt, Gravitation(norm))
  {
    assert ApartAfter(s, n - 1, dt, Gravitation(norm));
    AxisStep(Evolve(s, n - 1, dt, Gravitation(norm)), dt, norm);
  }

  /** ... and so they stay on it over every collision-free run of steps. */
  lemma AxisEvolve(s: seq<Body>, n: nat, dt: real, norm: Vec3 -> real)
    requires IsNorm(norm) && CollisionFree(s, n, dt, Gravitation(norm)) && AlongAxis(s)
    ensures AlongAxis(Evolve(s, n, dt, Gravitation(norm)))
  {
    var law := Gravitation(norm);
    assert Evolve(s, 0, dt, law) == s;
    var t: nat := 0;
    while t < n
      invariant t <= n && AxisAfter(s, t, dt, law)
    {
      assert CollisionFree(s, t + 1, dt, law);
      LastStepOnAxis(s, t + 1, dt, norm);
      t := t + 1;
    }
    assert AxisAfter(s, n, dt, law);
  }

  /** The x-components of the staged deltas, `0.5*a*dt**2 + v*dt` and
      `a*dt`, for a push along +x on a body at rest or moving along +x. */
  lemma ForwardDeltas(ax: real, vx: real, dt: real)
    requires ax > 0.0 && vx >= 0.0 && dt > 0.0
    ensures dt * dt * (0.5 * ax) + dt * vx > 0.0 && dt * ax > 0.0
  {
    assert dt * dt > 0.0;
    assert (dt * dt) * (0.5 * ax) > 0.0;
    assert dt * vx >= 0.0;
  }

  /** The same along -x. */
  lemma BackwardDeltas(ax: real, vx: real, dt: real)
    requires ax < 0.0 && vx <= 0.0 && dt > 0.0
    ensures dt * dt * (0.5 * ax) + dt * vx < 0.0 && dt * ax < 0.0
  {
    assert dt * dt > 0.0;
    assert (dt * dt) * (0.5 * ax) < 0.0;
    assert dt * vx <= 0.0;
  }

  /** A body pushed in the +x direction, at rest or moving that way, moves
      and speeds up in that direction over a step of positive length. */
  lemma AdvanceForward(b: Body, a: Vec3, dt: real)
    requires a.x > 0.0 && b.v.x >= 0.0 && dt > 0.0
    ensures Advance(b, a, dt).r.x > b.r.x && Advance(b, a, dt).v.x > 0.0
  {
    ForwardDeltas(a.x, b.v.x, dt);
  }

  /** The same in the -x direction. */
  lemma AdvanceBackward(b: Body, a: Vec3, dt: real)
    requires a.x < 0.0 && b.v.x <= 0.0 && dt > 0.0
    ensures Advance(b, a, dt).r.x < b.r.x && Advance(b, a, dt).v.x < 0.0
  {
    BackwardDeltas(a.x, b.v.x, dt);
  }

  /** A positive mass pulls along x towards itself. */
  lemma PullAlongX(ri: Vec3, rj: Vec3, mj: real, norm: Vec3 -> real)
    requires IsNorm(norm) && ri.x != rj.x && mj > 0.0
    ensures ri.x < rj.x ==> Gravitation(norm)(ri, rj, mj).x > 0.0
    ensures ri.x > rj.x ==> Gravitation(norm)(ri, rj, mj).x < 0.0
  {
    InverseSquareLaw(ri, rj, mj, norm);
    var f := mj / Cube(norm(Sub(ri, rj)));
    assert Gravitation(norm)(ri, rj, mj).x == f * (rj.x - ri.x);
    SameSign(f, rj.x - ri.x);
  }

  lemma SameSign(f: real, d: real)
    requires f > 0.0
    ensures d > 0.0 ==> f * d > 0.0
    ensures d < 0.0 ==> f * d < 0.0
  {
  }

  /** Two positive masses, the first to the left of the second, at rest or
      approaching each other: after a step of gravity the first has moved
      right and the second left, and each moves towards the other. */
  lemma TwoBodyApproach(b0: Body, b1: Body, dt: real, norm: Vec3 -> real)
    requires IsNorm(norm) && b0.r.x < b1.r.x && b0.m > 0.0 && b1.m > 0.0 && dt > 0.0
    requires b0.v.x >= 0.0 && b1.v.x <= 0.0
    ensures var s' := StepState([b0, b1], dt, Gravitation(norm));
      s'[0].r.x > b0.r.x && s'[0].v.x > 0.0 && s'[1].r.x < b1.r.x && s'[1].v.x < 0.0
  {
    var law := Gravitation(norm);
    TwoBodyStep(b0, b1, dt, law);
    PullAlongX(b0.r, b1.r, b1.m, norm);
    PullAlongX(b1.r, b0.r, b0.m, norm);
    AdvanceForward(b0, law(b0.r, b1.r, b1.m), dt);
    AdvanceBackward(b1, law(b1.r, b0.r, b0.m), dt);
  }

  // Conservation of momentum.

  lemma DistinctPrefix(rs: seq<Vec3>, n: nat)
    requires DistinctPositions(rs) && n <= |rs|
    ensures DistinctPositions(rs[..n])
  {
    var p := rs[..n];
    forall j, k | 0 <= j < n && 0 <= k < n && j != k
      ensures p[j] != p[k]
    {
      assert p[j] == rs[j] && p[k] == rs[k];
    }
  }

  /** The internal force on every body: its mass times its net acceleration. */
  function Forces(rs: seq<Vec3>, ms: seq<real>, law: Law): (fs: seq<Vec3>)
    requires |rs| == |ms|
    ensures |fs| == |rs|
    ensures forall i :: 0 <= i < |rs| ==> fs[i] == Scale(ms[i], NetAcc(rs, ms, i, law))
  {
    seq(|rs|, i requires 0 <= i < |rs| => Scale(ms[i], NetAcc(rs, ms, i, law)))
  }

  /** The force on each earlier body i due to the last body. */
  function PullsOfLast(rs: seq<Vec3>, ms: seq<real>, law: Law): (gs: seq<Vec3>)
    requires |rs| == |ms| && 0 < |rs|
    ensures |gs| == |rs| - 1
    ensures forall i :: 0 <= i < |rs| - 1 ==> gs[i] == Scale(ms[i], law(rs[i], rs[|rs| - 1], ms[|rs| - 1]))
  {
    var n := |rs| - 1;
    seq(n, i requires 0 <= i < n => Scale(ms[i], law(rs[i], rs[n], ms[n])))
  }

  /** Adding a last body adds its pull to the force on every earlier body. */
  lemma ForcesSnoc(rs: seq<Vec3>, ms: seq<real>, law: Law)
    requires |rs| == |ms| && 0 < |rs|
    ensures Forces(rs, ms, law)[..|rs| - 1]
         == AddEach(Forces(rs[..|rs| - 1], ms[..|ms| - 1], law), PullsOfLast(rs, ms, law))
  {
    var n := |rs| - 1;
    var lhs := Forces(rs, ms, law)[..n];
    var rhs := AddEach(Forces(rs[..n], ms[..n], law), PullsOfLast(rs, ms, law));
    forall i | 0 <= i < n
      ensures lhs[i] == rhs[i]
    {
      NetAccSnoc(rs, ms, i, law);
      ScaleAdd(ms[i], NetAcc(rs[..n], ms[..n], i, law), law(rs[i], rs[n], ms[n]));
    }
  }

  /** By the third law, the forces the last body exerts on the others are
      the opposites of the forces they exert on it. */
  lemma PullsOfLastOpposite(rs: seq<Vec3>, ms: seq<real>, law: Law)
    requires |rs| == |ms| && 0 < |rs| && DistinctPositions(rs) && ObeysThirdLaw(law)
    ensures PullsOfLast(rs, ms, law)
         == NegEach(ScaleEach(ms[|ms| - 1], Pulls(rs[|rs| - 1], rs[..|rs| - 1], ms[..|ms| - 1], law)))
  {
    var n := |rs| - 1;
    var lhs := PullsOfLast(rs, ms, law);
    var rhs := NegEach(ScaleEach(ms[n], Pulls(rs[n], rs[..n], ms[..n], law)));
    forall i | 0 <= i < n
      ensures lhs[i] == rhs[i]
    {
      assert rs[i] != rs[n];
      assert Opposite(law, rs[i], rs[n], ms[i], ms[n]);
    }
  }

  /** Splitting off the last body: the forces sum to the forces of the
      others among themselves, plus their pulls from the last body, plus the
      force on the last body. */
  lemma ForcesSumSnoc(rs: seq<Vec3>, ms: seq<real>, law: Law)
    requires |rs| == |ms| && 0 < |rs|
    ensures VSum(Forces(rs, ms, law))
         == Add(Add(VSum(Forces(rs[..|rs| - 1], ms[..|ms| - 1], law)), VSum(PullsOfLast(rs, ms, law))),
                Forces(rs, ms, law)[|rs| - 1])
  {
    var n := |rs| - 1;
    var fs := Forces(rs, ms, law);
    assert VSum(fs) == Add(VSum(fs[..n]), fs[n]);
    ForcesSnoc(rs, ms, law);
    VSumAddEach(Forces(rs[..n], ms[..n], law), PullsOfLast(rs, ms, law));
  }

  /** The total force the last body exerts on the others, by the third law. */
  lemma PullsOfLastSum(rs: seq<Vec3>, ms: seq<real>, law: Law)
    requires |rs| == |ms| && 0 < |rs| && DistinctPositions(rs) && ObeysThirdLaw(law)
    ensures var n := |rs| - 1;
      VSum(PullsOfLast(rs, ms, law)) == Neg(Scale(ms[n], VSum(Pulls(rs[n], rs[..n], ms[..n], law))))
  {
    var n := |rs| - 1;
    var ps := Pulls(rs[n], rs[..n], ms[..n], law);
    PullsOfLastOpposite(rs, ms, law);
    VSumNegEach(ScaleEach(ms[n], ps));
    VSumScaleEach(ms[n], ps);
  }

  /** The force on the last body. */
  lemma ForceOnLast(rs: seq<Vec3>, ms: seq<real>, law: Law)
    requires |rs| == |ms| && 0 < |rs|
    ensures var n := |rs| - 1;
      Forces(rs, ms, law)[n] == Scale(ms[n], VSum(Pulls(rs[n], rs[..n], ms[..n], law)))
  {
    NetAccLast(rs, ms, law);
  }

  /** The last body's pulls on the others balance the force on it. */
  lemma LastBodyBalance(rs: seq<Vec3>, ms: seq<real>, law: Law)
    requires |rs| == |ms| && 0 < |rs| && DistinctPositions(rs) && ObeysThirdLaw(law)
    ensures VSum(PullsOfLast(rs, ms, law)) == Neg(Forces(rs, ms, law)[|rs| - 1])
  {
    PullsOfLastSum(rs, ms, law);
    ForceOnLast(rs, ms, law);
  }

  lemma AddCancel(x: Vec3, f: Vec3)
    ensures Add(Add(x, Neg(f)), f) == x
  {
  }

  /** Removing the last body leaves the sum of the internal forces as it was. */
  lemma ForcesSumStep(rs: seq<Vec3>, ms: seq<real>, law: Law)
    requires |rs| == |ms| && 0 < |rs| && DistinctPositions(rs) && ObeysThirdLaw(law)
    ensures VSum(Forces(rs, ms, law)) == VSum(Forces(rs[..|rs| - 1], ms[..|ms| - 1], law))
  {
    ForcesSumSnoc(rs, ms, law);
    LastBodyBalance(rs, ms, law);
    AddCancel(VSum(Forces(rs[..|rs| - 1], ms[..|ms| - 1], law)), Forces(rs, ms, law)[|rs| - 1]);
  }

  /** Under a law that obeys the third law, the internal forces of the
      system sum to zero. */
  lemma {:induction false} InternalForcesCancel(rs: seq<Vec3>, ms: seq<real>, law: Law)
    requires |rs| == |ms| && DistinctPositions(rs) && ObeysThirdLaw(law)
    ensures VSum(Forces(rs, ms, law)) == Zero
  {
    if |rs| > 0 {
      ForcesSumStep(rs, ms, law);
      DistinctPrefix(rs, |rs| - 1);
      InternalForcesCancel(rs[..|rs| - 1], ms[..|ms| - 1], law);
    }
  }

  function Momenta(s: seq<Body>): (ps: seq<Vec3>)
    ensures |ps| == |s| && forall i :: 0 <= i < |s| ==> ps[i] == Scale(s[i].m, s[i].v)
  {
    seq(|s|, i requires 0 <= i < |s| => Scale(s[i].m, s[i].v))
  }

  /** Total momentum: the sum of m*v over all bodies. */
  function TotalMomentum(s: seq<Body>): Vec3 {
    VSum(Momenta(s))
  }

  lemma MomentaStep(s: seq<Body>, dt: real, law: Law)
    ensures Momenta(StepState(s, dt, law))
         == AddEach(Momenta(s), ScaleEach(dt, Forces(Positions(s), Masses(s), law)))
  {
    var s' := StepState(s, dt, law);
    var lhs := Momenta(s');
    var rhs := AddEach(Momenta(s), ScaleEach(dt, Forces(Positions(s), Masses(s), law)));
    forall i | 0 <= i < |s|
      ensures lhs[i] == rhs[i]
    {
      var a := AccOn(s, i, law);
      ScaleAdd(s[i].m, s[i].v, Scale(dt, a));
      ScaleScaleSwap(s[i].m, dt, a);
    }
  }

  /** The step conserves total momentum exactly (in real arithmetic) under
      any law that obeys the third law. */
  lemma MomentumConserved(s: seq<Body>, dt: real, law: Law)
    requires DistinctPositions(Positions(s)) && ObeysThirdLaw(law)
    ensures TotalMomentum(StepState(s, dt, law)) == TotalMomentum(s)
  {
    var fs := Forces(Positions(s), Masses(s), law);
    MomentaStep(s, dt, law);
    VSumAddEach(Momenta(s), ScaleEach(dt, fs));
    VSumScaleEach(dt, fs);
    InternalForcesCancel(Positions(s), Masses(s), law);
    ScaleZero(dt);
    AddZero(TotalMomentum(s));
  }

  /** The N-body step under gravity conserves total momentum. */
  lemma GravityConservesMomentum(s: seq<Body>, dt: real, norm: Vec3 -> real)
    requires IsNorm(norm) && DistinctPositions(Positions(s))
    ensures TotalMomentum(GravityStep(s, dt, norm)) == TotalMomentum(s)
  {
    GravitationObeysThirdLaw(norm);
    MomentumConserved(s, dt, Gravitation(norm));
  }

  // Many steps.

  /** The state after n steps of the same size dt. */
  function Evolve(s: seq<Body>, n: nat, dt: real, law: Law): (e: seq<Body>)
    ensures |e| == |s|
    decreases n
  {
    if n == 0 then s else StepState(Evolve(s, n - 1, dt, law), dt, law)
  }

  /** The clock after n steps from t0: dt added n times, as `time += dt`
      does once per step. */
  function Clock(t0: real, n: nat, dt: real): real
    decreases n
  {
    if n == 0 then t0 else Clock(t0, n - 1, dt) + dt
  }

  /** In exact arithmetic the repeated additions come to t0 + n * dt. */
  lemma {:induction false} ClockLinear(t0: real, n: nat, dt: real)
    ensures Clock(t0, n, dt) == t0 + n as real * dt
    decreases n
  {
    if n > 0 {
      ClockLinear(t0, n - 1, dt);
      assert (n - 1) as real * dt + dt == n as real * dt;
    }
  }

  /** No two bodies share a position after t steps. (A predicate of its own,
      so that a proof about one step need not unfold the others.) */
  ghost predicate ApartAfter(s: seq<Body>, t: nat, dt: real, law: Law) {
    DistinctPositions(Positions(Evolve(s, t, dt, law)))
  }

  /** No two bodies meet at the start of any of the first n steps. */
  ghost predicate CollisionFree(s: seq<Body>, n: nat, dt: real, law: Law) {
    forall t: nat {:trigger ApartAfter(s, t, dt, law)} :: t < n ==> ApartAfter(s, t, dt, law)
  }

  lemma LastStepConservesMomentum(s: seq<Body>, n: nat, dt: real, law: Law)
    requires 0 < n && ObeysThirdLaw(law) && CollisionFree(s, n, dt, law)
    ensures TotalMomentum(Evolve(s, n, dt, law)) == TotalMomentum(Evolve(s, n - 1, dt, law))
  {
    var e := Evolve(s, n - 1, dt, law);
    assert ApartAfter(s, n - 1, dt, law);
    MomentumConserved(e, dt, law);
  }

  /** Total momentum is the same after every collision-free run of steps
      under a law that obeys the third law. */
  lemma {:induction false} EvolveConservesMomentum(s: seq<Body>, n: nat, dt: real, law: Law)
    requires ObeysThirdLaw(law) && CollisionFree(s, n, dt, law)
    ensures TotalMomentum(Evolve(s, n, dt, law)) == TotalMomentum(s)
    decreases n
  {
    if n == 0 {
      assert Evolve(s, n, dt, law) == s;
    } else {
      var m: nat := n - 1;
      EvolveConservesMomentum(s, m, dt, law);
      LastStepConservesMomentum(s, n, dt, law);
      assert TotalMomentum(Evolve(s, m, dt, law)) == TotalMomentum(s);
    }
  }

  /** The same for gravity. */
  lemma GravityEvolveConservesMomentum(s: seq<Body>, n: nat, dt: real, norm: Vec3 -> real)
    requires IsNorm(norm) && CollisionFree(s, n, dt, Gravitation(norm))
    ensures TotalMomentum(Evolve(s, n, dt, Gravitation(norm))) == TotalMomentum(s)
  {
    GravitationObeysThirdLaw(norm);
    EvolveConservesMomentum(s, n, dt, Gravitation(norm));
  }
}
