/** The objects of the simulation: `Particle` holds one body and the deltas
    staged for it, `System` holds the particles and the simulated time and
    advances them with the two-phase step. Each method is proved to leave
    the objects in the state that `Integrator.StepState` and its helpers
    describe. */
module NBodySystem {
  import opened Vectors
  import opened Interactions
  import opened Gravity
  import opened Integrator

  class Particle {
    var r: Vec3
    var v: Vec3
    var m: real
    /** The position and velocity deltas staged by `Update`. */
    var rp: Vec3
    var vp: Vec3

    /** A particle at `r0` with velocity `v0` and mass `m0` (1 by default);
        nothing is staged yet. */
    constructor (r0: Vec3, v0: Vec3, m0: real := 1.0)
      ensures r == r0 && v == v0 && m == m0
      ensures rp == Zero && vp == Zero
    {
      r, v, m := r0, v0, m0;
      rp, vp := Zero, Zero;
    }

    /** Position, velocity and mass, as a value. */
    function State(): Body
      reads this
    {
      Body(r, v, m)
    }

    /** The pull of `other` on this particle: -m2 * (r1 - r2) / |r1 - r2|**3.
        It is the pairwise law `Gravitation` and points towards `other`. */
    method Acceleration(other: Particle, norm: Vec3 -> real) returns (a: Vec3)
      requires IsNorm(norm) && r != other.r
      ensures a == Gravitation(norm)(r, other.r, other.m)
      ensures Cube(norm(Sub(r, other.r))) > 0.0
      ensures a == Scale(other.m / Cube(norm(Sub(r, other.r))), Sub(other.r, r))
    {
      var d := Sub(r, other.r);
      CubePositive(norm(d));
      a := Div(Scale(-other.m, d), Cube(norm(d)));
      InverseSquareLaw(r, other.r, other.m, norm);
    }

    /** Stages the deltas for acceleration `a` over `dt` without moving the
        particle: vp = a*dt and rp = 0.5*a*dt**2 + v*dt. */
    method Update(a: Vec3, dt: real)
      modifies this`rp, this`vp
      ensures vp == Kick(a, dt) && rp == Drift(a, v, dt)
      ensures State() == old(State())
    {
      vp := Scale(dt, a);
      rp := Add(Scale(dt * dt, Scale(0.5, a)), Scale(dt, v));
    }

    /** Commits the staged deltas: v += vp and r += rp. */
    method Apply()
      modifies this`r, this`v
      ensures v == Add(old(v), vp) && r == Add(old(r), rp)
      ensures Sub(v, old(v)) == vp && Sub(r, old(r)) == rp
    {
      v := Add(v, vp);
      r := Add(r, rp);
    }
  }

  /** A particle that has never been updated stays where it is when its
      (zero) deltas are applied. */
  method ApplyFresh(r0: Vec3, v0: Vec3, m0: real) returns (p: Particle)
    ensures p.State() == Body(r0, v0, m0)
  {
    p := new Particle(r0, v0, m0);
    p.Apply();
    AddZero(r0);
    AddZero(v0);
  }

  /** No particle object appears twice in the list. */
  ghost predicate Unaliased(ps: seq<Particle>) {
    forall j, k :: 0 <= j < |ps| && 0 <= k < |ps| && j != k ==> ps[j] != ps[k]
  }

  class System {
    var bodies: seq<Particle>
    var time: real

    /** The state of every particle, in list order. */
    ghost function States(): (s: seq<Body>)
      reads this, bodies
      ensures |s| == |bodies|
      ensures forall i :: 0 <= i < |bodies| ==> s[i] == bodies[i].State()
    {
      seq(|bodies|, i reads this, bodies requires 0 <= i < |bodies| => bodies[i].State())
    }

    /** A system of the given particles (none by default) at time 0. */
    constructor (initial: seq<Particle> := [])
      ensures bodies == initial && time == 0.0
    {
      bodies := initial;
      time := 0.0;
    }

    /** Appends a particle to the list. */
    method Add(body: Particle)
      modifies this`bodies
      ensures bodies == old(bodies) + [body]
      ensures States() == old(States()) + [body.State()]
    {
      bodies := bodies + [body];
    }

    /** Particles at distinct positions are distinct objects, so the list
        holds no particle twice. */
    lemma ApartUnaliased()
      requires DistinctPositions(Positions(States()))
      ensures Unaliased(bodies)
    {
      forall j, k | 0 <= j < |bodies| && 0 <= k < |bodies| && j != k
        ensures bodies[j] != bodies[k]
      {
        assert Positions(States())[j] != Positions(States())[k];
      }
    }

    /** The net acceleration on particle i: the pulls of all the others, in
        list order, summed from zero. */
    method NetAcceleration(i: nat, norm: Vec3 -> real) returns (a: Vec3)
      requires IsNorm(norm) && i < |bodies| && DistinctPositions(Positions(States()))
      ensures a == AccOn(States(), i, Gravitation(norm))
    {
      ghost var s := States();
      ghost var ps := OtherPulls(s, i, Gravitation(norm));
      var others := Delete(bodies, i);
      a := Zero;
      for k := 0 to |others|
        invariant a == VSum(ps[..k])
      {
        ghost var j := if k < i then k else k + 1;
        assert others[k] == bodies[j] && s[j] == bodies[j].State();
        assert Positions(s)[j] != Positions(s)[i];
        var pull := bodies[i].Acceleration(others[k], norm);
        assert PullAt(ps, s, i, k, Gravitation(norm));
        VSumPrefix(ps, k);
        a := Vectors.Add(a, pull);
      }
      assert ps[..|others|] == ps;
    }

    /** The deltas every particle holds, in list order. */
    ghost function Deltas(): (ds: seq<Delta>)
      reads this, bodies
      ensures |ds| == |bodies|
      ensures forall i :: 0 <= i < |bodies| ==> ds[i] == Delta(bodies[i].rp, bodies[i].vp)
    {
      seq(|bodies|, i reads this, bodies requires 0 <= i < |bodies| => Delta(bodies[i].rp, bodies[i].vp))
    }

    /** One time step: first every particle stages its deltas from the net
        acceleration at the current positions, then every particle commits
        them, and the time advances by dt. The new states are exactly one
        `GravityStep` of the old ones, and every particle keeps the deltas
        it committed. */
    method Update(dt: real, norm: Vec3 -> real)
      requires IsNorm(norm) && DistinctPositions(Positions(States()))
      modifies this`time, bodies
      ensures bodies == old(bodies) && time == old(time) + dt
      ensures States() == GravityStep(old(States()), dt, norm)
      ensures Deltas() == Staged(old(States()), dt, Gravitation(norm))
    {
      ghost var s0 := States();
      Stage(dt, norm);
      Commit();
      time := time + dt;
      StageThenApply(s0, dt, Gravitation(norm));
    }

    /** The first loop of the step: every particle stages the deltas for
        its net acceleration at the current positions; nothing moves yet. */
    method Stage(dt: real, norm: Vec3 -> real)
      requires IsNorm(norm) && DistinctPositions(Positions(States()))
      modifies bodies
      ensures Unaliased(bodies) && States() == old(States())
      ensures Deltas() == Staged(old(States()), dt, Gravitation(norm))
    {
      ghost var s0 := States();
      ghost var law := Gravitation(norm);
      // The loop keeps only what defines each entry, not the whole list.
      ghost var ds := StagedEntries(s0, dt, law);
      ApartUnaliased();
      for i := 0 to |bodies|
        invariant forall k :: 0 <= k < |bodies| ==> bodies[k].State() == s0[k]
        invariant forall k :: 0 <= k < i ==> Delta(bodies[k].rp, bodies[k].vp) == ds[k]
      {
        assert States() == s0;
        label staging:
        StageOne(i, dt, norm, s0, ds);
        forall k | 0 <= k < |bodies| && k != i
          ensures bodies[k].State() == s0[k]
          ensures k < i ==> Delta(bodies[k].rp, bodies[k].vp) == ds[k]
        {
          assert bodies[k] != bodies[i];
          assert old@staging(bodies[k].State()) == s0[k];
        }
      }
      assert States() == s0;
      assert Deltas() == ds;
      StagedUnique(ds, s0, dt, law);
    }

    /** One pass of the first loop: particle i stages the deltas of entry i
        of ds; it does not move, and no other particle changes. */
    method StageOne(i: nat, dt: real, norm: Vec3 -> real, ghost s0: seq<Body>, ghost ds: seq<Delta>)
      requires IsNorm(norm) && i < |bodies| && States() == s0 && DistinctPositions(Positions(s0))
      requires |ds| == |s0|
      requires forall k: nat {:trigger StagedAt(ds, s0, k, dt, Gravitation(norm))} ::
        k < |s0| ==> StagedAt(ds, s0, k, dt, Gravitation(norm))
      modifies bodies[i]
      ensures bodies[i].State() == old(bodies[i].State())
      ensures Delta(bodies[i].rp, bodies[i].vp) == ds[i]
    {
      ghost var acc := AccOn(s0, i, Gravitation(norm));
      var a := NetAcceleration(i, norm);
      assert a == acc;
      ghost var v := bodies[i].v;
      assert v == s0[i].v;
      bodies[i].Update(a, dt);
      assert bodies[i].v == v;
      assert StagedAt(ds, s0, i, dt, Gravitation(norm));
    }

    /** The second loop of the step: every particle commits its staged
        deltas, r += rp and v += vp; the deltas stay as they were. */
    method Commit()
      requires Unaliased(bodies)
      modifies bodies
      ensures States() == Applied(old(States()), old(Deltas()))
      ensures Deltas() == old(Deltas())
    {
      ghost var s0, d0 := States(), Deltas();
      ghost var s1 := Applied(s0, d0);
      for i := 0 to |bodies|
        invariant forall k :: 0 <= k < i ==> bodies[k].State() == s1[k]
        invariant forall k :: i <= k < |bodies| ==> bodies[k].State() == s0[k]
        invariant forall k :: 0 <= k < |bodies| ==> Delta(bodies[k].rp, bodies[k].vp) == d0[k]
      {
        bodies[i].Apply();
      }
      assert States() == s1;
      assert Deltas() == d0;
    }

    /** The positions of all particles, in list order. */
    method Unpack() returns (snapshot: seq<Vec3>)
      ensures |snapshot| == |bodies|
      ensures forall k :: 0 <= k < |bodies| ==> snapshot[k] == bodies[k].r
      ensures snapshot == Positions(States())
    {
      snapshot := [];
      for i := 0 to |bodies|
        invariant |snapshot| == i
        invariant forall k :: 0 <= k < i ==> snapshot[k] == bodies[k].r
      {
        snapshot := snapshot + [bodies[i].r];
      }
    }
  }
}
