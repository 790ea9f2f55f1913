/** The frame loop of the simulator script: before each step it records a
    snapshot of every body's position, then advances the system by one time
    step. Initial conditions, progress output and the animation are not part
    of this model. */
module Simulator {
  import opened Vectors
  import opened Interactions
  import opened Gravity
  import opened Integrator
  import opened NBodySystem

  /** Frame u of rt holds the positions after u steps. (A predicate of its
      own, so that a proof about one frame need not unfold the others.) */
  ghost predicate FrameAt(rt: seq<seq<Vec3>>, s0: seq<Body>, u: nat, dt: real, law: Law) {
    u < |rt| && rt[u] == Positions(Evolve(s0, u, dt, law))
  }

  /** One pass of the frame loop, at step t: records the positions, then
      advances the system by one step. */
  method Frame(sys: System, dt: real, norm: Vec3 -> real, ghost s0: seq<Body>, ghost t: nat)
    returns (frame: seq<Vec3>)
    requires IsNorm(norm)
    requires sys.States() == Evolve(s0, t, dt, Gravitation(norm))
    requires ApartAfter(s0, t, dt, Gravitation(norm))
    modifies sys`time, sys.bodies
    ensures sys.bodies == old(sys.bodies) && sys.time == old(sys.time) + dt
    ensures frame == Positions(Evolve(s0, t, dt, Gravitation(norm)))
    ensures sys.States() == Evolve(s0, t + 1, dt, Gravitation(norm))
  {
    ghost var law := Gravitation(norm);
    ghost var e := Evolve(s0, t, dt, law);
    assert Evolve(s0, t + 1, dt, law) == StepState(e, dt, law);
    frame := sys.Unpack();
    assert DistinctPositions(Positions(e));
    sys.Update(dt, norm);
  }

  /** The snapshots the frame loop records in its first n passes, one per
      pass, each taken before that pass's step. */
  function Trajectory(s0: seq<Body>, n: nat, dt: real, law: Law): (tr: seq<seq<Vec3>>)
    ensures |tr| == n
    decreases n
  {
    if n == 0 then [] else Trajectory(s0, n - 1, dt, law) + [Positions(Evolve(s0, n - 1, dt, law))]
  }

  /** Snapshot u of the trajectory holds the positions after u steps. */
  lemma {:induction false} TrajectoryFrame(s0: seq<Body>, n: nat, u: nat, dt: real, law: Law)
    requires u < n
    ensures FrameAt(Trajectory(s0, n, dt, law), s0, u, dt, law)
    decreases n
  {
    var tr := Trajectory(s0, n, dt, law);
    if u < n - 1 {
      var tr0 := Trajectory(s0, n - 1, dt, law);
      TrajectoryFrame(s0, n - 1, u, dt, law);
      assert tr[u] == tr0[u];
    } else {
      assert u == n - 1;
    }
  }

  /** Every snapshot of the trajectory holds the positions after its number
      of steps. */
  lemma TrajectoryFrames(s0: seq<Body>, n: nat, dt: real, law: Law)
    ensures forall u: nat {:trigger FrameAt(Trajectory(s0, n, dt, law), s0, u, dt, law)} ::
      u < n ==> FrameAt(Trajectory(s0, n, dt, law), s0, u, dt, law)
  {
    forall u: nat | u < n
      ensures FrameAt(Trajectory(s0, n, dt, law), s0, u, dt, law)
    {
      TrajectoryFrame(s0, n, u, dt, law);
    }
  }

  /** The frame loop: runs nFrames steps of size dt. Frame t of the result
      holds the positions after t steps, and the system ends nFrames steps
      on, with its clock advanced by nFrames * dt. */
  method Frames(sys: System, nFrames: nat, dt: real, norm: Vec3 -> real) returns (rt: seq<seq<Vec3>>)
    requires IsNorm(norm)
    requires CollisionFree(sys.States(), nFrames, dt, Gravitation(norm))
    modifies sys`time, sys.bodies
    ensures sys.bodies == old(sys.bodies) && sys.time == Clock(old(sys.time), nFrames, dt)
    ensures sys.States() == Evolve(old(sys.States()), nFrames, dt, Gravitation(norm))
    ensures rt == Trajectory(old(sys.States()), nFrames, dt, Gravitation(norm))
  {
    ghost var s0 := sys.States();
    ghost var law := Gravitation(norm);
    rt := [];
    for t := 0 to nFrames
      invariant sys.bodies == old(sys.bodies)
      invariant sys.States() == Evolve(s0, t, dt, law)
      invariant sys.time == Clock(old(sys.time), t, dt)
      invariant rt == Trajectory(s0, t, dt, law)
    {
      assert ApartAfter(s0, t, dt, law);
      var frame := Frame(sys, dt, norm, s0, t);
      rt := rt + [frame];
    }
  }

  /** The simulation: the frame loop. Frame t of the result holds the
      positions after t steps; the clock ends at nFrames * dt past where it
      started, and the total momentum of the system is what it was at the
      start. */
  method Run(sys: System, nFrames: nat, dt: real, norm: Vec3 -> real) returns (rt: seq<seq<Vec3>>)
    requires IsNorm(norm)
    requires CollisionFree(sys.States(), nFrames, dt, Gravitation(norm))
    modifies sys`time, sys.bodies
    ensures sys.bodies == old(sys.bodies)
    ensures sys.time == old(sys.time) + nFrames as real * dt
    ensures sys.States() == Evolve(old(sys.States()), nFrames, dt, Gravitation(norm))
    ensures rt == Trajectory(old(sys.States()), nFrames, dt, Gravitation(norm))
    ensures forall t: nat {:trigger FrameAt(rt, old(sys.States()), t, dt, Gravitation(norm))} ::
      t < nFrames ==> FrameAt(rt, old(sys.States()), t, dt, Gravitation(norm))
    ensures TotalMomentum(sys.States()) == TotalMomentum(old(sys.States()))
  {
    ghost var s0 := sys.States();
    ghost var t0 := sys.time;
    rt := Frames(sys, nFrames, dt, norm);
    ClockLinear(t0, nFrames, dt);
    TrajectoryFrames(s0, nFrames, dt, Gravitation(norm));
    GravityEvolveConservesMomentum(s0, nFrames, dt, norm);
  }
}
