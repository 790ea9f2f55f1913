# N-body two-phase time step, in Dafny

A model of the particle system in `NBody/system.py` and of the frame loop
that drives it in `NBody/simulator.py`, with proofs about both.

A `Particle` is a point mass. It holds a position `r`, a velocity `v`, a
mass `m`, and the position and velocity deltas `rp` and `vp` that it stages
before committing them. A `System` holds a list of particles and the
elapsed `time`. `System.update(dt)` runs in two phases:

1. Every particle stages `vp = a*dt` and `rp = 0.5*a*dt**2 + v*dt`. Here
   `a` is the sum of the pulls `-m2 * (r1 - r2) / |r1 - r2|**3` of all the
   *other* particles, taken in list order and starting from zero.
2. Only after that does every particle commit its deltas. Then `time`
   advances by `dt`.

The model keeps that form:

- `Particle` and `System` are classes whose methods update their fields.
- The two loops of `System.update` are loops with invariants.
- Each method is proved to leave the objects in the state described by
  value-level definitions in module `Integrator`. These are `StepState`
  (one step), `Staged` (the first loop) and `Applied` (the second loop).
- The physics is proved about those definitions.

The main properties proved:

- **No half-updated positions.** The staged acceleration of every particle
  comes from the positions at the start of the step. Staging everything and
  then committing everything is exactly one step of the old state
  (`StageThenApply`, `System.Update`).
- **The pull.** `Particle.Acceleration` is `m2/|d|**3` times `r2 - r1`,
  so it points towards the other body whenever `m2 >= 0`
  (`InverseSquareLaw`). The pulls obey Newton's third law
  (`NewtonThirdLaw`).
- **Self-interaction is excluded, and the sum is over the others only.**
  `np.delete` removes exactly index i (`DeleteKeepsOthers`). A body alone
  keeps its velocity and drifts by exactly `v*dt` (`SingleBodyStep`).
- **Conservation of total momentum.** In exact arithmetic, total momentum is
  the same after one step and after any collision-free run of steps
  (`MomentumConserved`, `EvolveConservesMomentum`, `Simulator.Run`).
- **Symmetric configurations stay symmetric.** Two equal masses that are
  mirror images through the origin stay mirror images over every
  collision-free run of steps (`MirrorEvolve`). Here "mirror image" means
  opposite positions AND opposite velocities. Bodies that lie and move on
  the x-axis stay on it after a step (`AxisStep`) and over every
  collision-free run of steps (`AxisEvolve`). Take two positive masses, one
  to the left of the other in x, whose x-velocities are zero or point
  towards each other. After a step of positive length the left one's x has
  grown and the right one's has shrunk (`TwoBodyApproach`).
- **The frame loop.** The snapshots of `simulator.py` are the positions
  after 0, 1, …, n-1 steps. The clock ends `n*dt` later (`Simulator.Run`).

Modules, in dependency order:

- `Vectors` (vectors.dfy): real 3-vectors and sums of them.
- `Interactions` (interactions.dfy): `np.delete`, the list of pulls and the
  net acceleration, for any pairwise law.
- `Gravity` (gravity.dfy): the gravitational law and its symmetries.
- `Integrator` (integrator.dfy): the step as a function on states, its two
  phases, and the lemmas about it.
- `NBodySystem` (system.dfy): the `Particle` and `System` classes.
- `Simulator` (simulator.dfy): the frame loop.

Inputs and choices:

- **The norm.** `np.linalg.norm` is a parameter `norm: Vec3 -> real` of
  every operation that needs it. It is known only to satisfy `IsNorm`: it
  is symmetric, `|-d| = |d|`, and positive on every non-zero vector.
- **The pairwise law.** The sums and the momentum proofs are stated for
  any pairwise law `Law`. Gravity is the instance `Gravitation(norm)`.
- **Coincident positions.** The source divides by zero when two bodies
  coincide and checks for nothing. The model makes distinct positions a
  precondition wherever a pull is taken.
- **Errors.** The code does not detect coincident bodies and does not
  reject non-positive masses. The model follows the code: it has no error
  path, and it places no condition on masses.

## Model

| member | source | states |
|---|---|---|
| Vectors.VSum | NBody/system.py:52 | definition of Python's `sum` over vectors: a left fold from the zero vector; its properties are `VSumPrefix`, `VSumAddEach` and `VSumScaleEach` |
| Vectors.VSumPrefix | NBody/system.py:52 | summing one more pull adds it to the running left-to-right sum that `sum` builds from zero |
| Vectors.VSumAddEach | NBody/system.py:52 | the sum of elementwise sums is the sum of the two sums |
| Vectors.VSumScaleEach | NBody/system.py:52 | a common factor comes out of a sum |
| Interactions.Delete | NBody/system.py:52 | `np.delete(s, i)` has one element fewer, and entry k is `s[k]` before i and `s[k+1]` from i on |
| Interactions.DeleteKeepsOthers | NBody/system.py:52 | every index other than i survives the deletion, in order, so only the body itself is excluded |
| Interactions.Pulls | NBody/system.py:52 | the comprehension has one pull per other body, entry k being the pull of the k-th other body |
| Interactions.NetAcc | NBody/system.py:52 | definition of the net acceleration on body i: the sum from zero, in list order, of the pulls of every body except i; its properties are `NetAccSnoc`, `NetAccLast` and `Integrator.OtherPulls` |
| Interactions.NetAccSnoc | NBody/system.py:52 | appending a body adds exactly its pull to the net acceleration of every earlier body |
| Interactions.NetAccLast | NBody/system.py:52 | the last body's net acceleration is the sum of the pulls of all bodies before it |
| Gravity.Acc | NBody/system.py:20 | definition of the pull `-m2 * (r1 - r2) / |r1 - r2|**3`, for distinct positions; its properties are `AccAsScale`, `InverseSquareLaw`, `AccAntisymmetric` and `NewtonThirdLaw` |
| Gravity.AccAsScale | NBody/system.py:20 | the pull is `-m2/|d|**3` times the separation `d = r1 - r2`, with `|d|**3 > 0` |
| Gravity.InverseSquareLaw | NBody/system.py:19-21 | the pull is `m2/|d|**3` times `r2 - r1`; the factor is non-negative for `m2 >= 0` and positive for `m2 > 0`, so the pull then points towards the other body |
| Gravity.SeparationSymmetric | NBody/system.py:20 | the separation seen from the other body is the opposite vector, at the same distance |
| Gravity.AccAntisymmetric | NBody/system.py:20 | swapping the two positions, with the same mass, reverses the pull |
| Gravity.NewtonThirdLaw | NBody/system.py:20 | `m1 * acc(1 due to 2) == -(m2 * acc(2 due to 1))` for distinct positions |
| Gravity.Gravitation | NBody/system.py:19-21 | as a pairwise law, gravity gives the pull `Acc` at every pair of distinct positions |
| Gravity.GravitationObeysThirdLaw | NBody/system.py:20 | gravity satisfies the third law between any two bodies at distinct positions |
| Integrator.Positions | NBody/system.py:59-63 | one position per body, in list order |
| Integrator.Masses | NBody/system.py:12 | one mass per body, in list order |
| Integrator.Kick | NBody/system.py:25 | definition of the staged velocity delta `a*dt` |
| Integrator.Drift | NBody/system.py:26 | definition of the staged position delta `0.5*a*dt**2 + v*dt`; `DriftNeg` states how it reflects |
| Integrator.AccOn | NBody/system.py:52 | definition of body i's net acceleration in a state, from its positions and masses; `OtherPulls` states it as the sum of the others' pulls |
| Integrator.Advance | NBody/system.py:24-31 | committing the deltas staged for acceleration a changes v by `a*dt` and r by `0.5*a*dt**2 + v*dt`, with the old v, and keeps m |
| Integrator.OtherPulls | NBody/system.py:52 | the net acceleration of body i is the sum of n-1 pulls, the k-th being that of the k-th other body |
| Integrator.StepState | NBody/system.py:48-56 | a step keeps the number of bodies |
| Integrator.StepKeepsMasses | NBody/system.py:48-56 | a step keeps every mass |
| Integrator.StepRule | NBody/system.py:48-56 | after a step, body i has `v + A*dt` and `r + 0.5*A*dt**2 + v*dt`, where A is the sum of the pulls of the others at the OLD positions, and its mass is unchanged |
| Integrator.Staged | NBody/system.py:49-53 | the first loop stages for every body the deltas of its net acceleration in the unchanged state |
| Integrator.StagedEntries | NBody/system.py:49-53 | a list of deltas exists whose every entry is the staged one |
| Integrator.StagedUnique | NBody/system.py:49-53 | a list of deltas whose every entry is staged from the old state is the first loop's result |
| Integrator.Applied | NBody/system.py:54-55 | the second loop adds each body's own deltas to its position and velocity and keeps its mass |
| Integrator.StageThenApply | NBody/system.py:48-56 | staging every body before committing any is exactly one step of the old state |
| Integrator.GravityStep | NBody/system.py:48-56 | a gravity step keeps the number of bodies |
| Integrator.GravityStepPulls | NBody/system.py:52 | under gravity, entry k of the pulls on body i is `acc(r_i, r_j, m_j)` of the k-th other body j, at a distinct position |
| Integrator.AloneFeelsNoPull | NBody/system.py:52 | a body alone has net acceleration zero (`sum([])`) |
| Integrator.AdvanceFree | NBody/system.py:24-31 | with zero acceleration, the velocity is unchanged and the position advances by `v*dt` |
| Integrator.SingleBodyStep | NBody/system.py:48-56 | with one body, a step keeps its velocity and moves it by exactly `v*dt` |
| Integrator.TwoBodyStep | NBody/system.py:48-56 | with two bodies, each advances by the pull of the other alone |
| Integrator.Mirror | NBody/system.py:48-56 | the mirror image negates position and velocity and keeps the mass |
| Integrator.DriftNeg | NBody/system.py:26 | negating acceleration and velocity negates the position delta |
| Integrator.AdvanceMirror | NBody/system.py:24-31 | the opposite acceleration advances the mirrored body to the mirror image of the advanced body |
| Integrator.MirrorStep | NBody/system.py:48-56 | two equal masses placed symmetrically about the origin are mirror images after a step |
| Integrator.MirrorEvolve | NBody/system.py:48-56 | two equal masses placed symmetrically about the origin are mirror images after every collision-free run of steps |
| Integrator.VSumOnAxis | NBody/system.py:52 | a sum of vectors along the x-axis lies along it |
| Integrator.AccOnAxis | NBody/system.py:52 | bodies on the x-axis pull each other along it |
| Integrator.AdvanceOnAxis | NBody/system.py:24-31 | a body on the x-axis, moving and accelerated along it, stays on it |
| Integrator.AxisStep | NBody/system.py:48-56 | bodies that lie and move on the x-axis still do after a step |
| Integrator.LastStepOnAxis | NBody/simulator.py:71-73 | if the bodies lie and move on the x-axis after n-1 steps of a collision-free run, they still do after n |
| Integrator.AxisEvolve | NBody/simulator.py:71-73 | bodies that lie and move on the x-axis still do after every collision-free run of steps |
| Integrator.AdvanceForward | NBody/system.py:24-31 | a body at rest or moving in +x, accelerated in +x, moves and ends up moving in +x over a step with `dt > 0` |
| Integrator.AdvanceBackward | NBody/system.py:24-31 | the same in the -x direction |
| Integrator.PullAlongX | NBody/system.py:19-21 | a positive mass pulls along x towards itself: the x-component of the pull is positive when it lies to the right and negative when it lies to the left |
| Integrator.TwoBodyApproach | NBody/system.py:48-56 | two positive masses, the left at rest or moving right and the right at rest or moving left: after a step with `dt > 0` the left one's x has increased and the right one's decreased, and their velocities point towards each other |
| Integrator.DistinctPrefix | NBody/system.py:52 | the bodies before the last are at distinct positions if all are |
| Integrator.Forces | NBody/system.py:52 | the internal force on each body is its mass times its net acceleration |
| Integrator.PullsOfLast | NBody/system.py:52 | the force of the last body on each earlier one |
| Integrator.ForcesSnoc | NBody/system.py:52 | adding a last body adds its force to the force on every earlier body |
| Integrator.PullsOfLastOpposite | NBody/system.py:52 | by the third law, the last body's forces on the others are the opposites of theirs on it |
| Integrator.ForcesSumSnoc | NBody/system.py:52 | the total internal force splits into the others', the last body's on them, and theirs on it |
| Integrator.PullsOfLastSum | NBody/system.py:52 | the last body's total force on the others is minus its mass times its net acceleration |
| Integrator.ForceOnLast | NBody/system.py:52 | the force on the last body is its mass times the sum of the pulls of the others |
| Integrator.LastBodyBalance | NBody/system.py:52 | the last body's forces on the others balance the force on it |
| Integrator.ForcesSumStep | NBody/system.py:52 | removing the last body leaves the total internal force unchanged |
| Integrator.InternalForcesCancel | NBody/system.py:52 | under a law obeying the third law, the internal forces of any configuration of distinct positions sum to zero |
| Integrator.Momenta | NBody/system.py:48-56 | one momentum `m*v` per body |
| Integrator.TotalMomentum | NBody/system.py:48-56 | definition of total momentum, the sum of `m*v` over the bodies; `MomentumConserved` and `EvolveConservesMomentum` state that steps keep it |
| Integrator.MomentaStep | NBody/system.py:48-56 | a step adds `dt` times its internal force to each body's momentum |
| Integrator.MomentumConserved | NBody/system.py:48-56 | a step conserves total momentum under a law obeying the third law |
| Integrator.GravityConservesMomentum | NBody/system.py:48-56 | a gravity step conserves total momentum |
| Integrator.Evolve | NBody/simulator.py:71-73 | n steps keep the number of bodies |
| Integrator.Clock | NBody/system.py:56 | definition of the clock after n steps: dt added n times, once per step; `ClockLinear` states its value |
| Integrator.ClockLinear | NBody/system.py:56 | adding dt once per step for n steps advances the clock by `n*dt` |
| Integrator.LastStepConservesMomentum | NBody/system.py:48-56 | the last step of a collision-free run conserves total momentum |
| Integrator.EvolveConservesMomentum | NBody/simulator.py:71-73 | every collision-free run of steps under a third-law law conserves total momentum |
| Integrator.GravityEvolveConservesMomentum | NBody/simulator.py:71-73 | every collision-free run of gravity steps conserves total momentum |
| NBodySystem.Particle.constructor | NBody/system.py:9-13 | a new particle has the given position, velocity and mass (1 by default) and zero staged deltas |
| NBodySystem.Particle.State | NBody/system.py:9-12 | definition of a particle's position, velocity and mass as one value |
| NBodySystem.Particle.Acceleration | NBody/system.py:19-21 | it changes nothing and returns the gravitational pull of `other`, `m2/|d|**3` times `r2 - r1`, depending only on `r`, `other.r` and `other.m` |
| NBodySystem.Particle.Update | NBody/system.py:24-26 | it writes only `vp = a*dt` and `rp = 0.5*a*dt**2 + v*dt`, with the current v, and leaves r, v and m as they were |
| NBodySystem.Particle.Apply | NBody/system.py:29-31 | it writes only `v += vp` and `r += rp`, so the changes of v and r are exactly the staged deltas |
| NBodySystem.ApplyFresh | NBody/system.py:29-31 | committing the zero deltas of a fresh particle leaves it where it is |
| NBodySystem.System.States | NBody/system.py:38-42 | the state of every particle, in list order |
| NBodySystem.System.constructor | NBody/system.py:40-42 | a new system holds the given particles, none by default, at time 0 |
| NBodySystem.System.Add | NBody/system.py:44-45 | it appends the particle at the end and leaves the earlier particles and their states untouched |
| NBodySystem.System.ApartUnaliased | NBody/system.py:48-56 | particles at distinct positions are distinct objects, so a step under the distinct-position precondition never meets a particle listed twice |
| NBodySystem.System.NetAcceleration | NBody/system.py:52 | summing the pulls of the other particles in list order, from zero, gives the net acceleration of the current state |
| NBodySystem.System.Deltas | NBody/system.py:24-26 | the staged deltas of every particle, in list order |
| NBodySystem.System.Stage | NBody/system.py:49-53 | the first loop moves no particle and leaves every particle with the deltas staged from the state at the start |
| NBodySystem.System.StageOne | NBody/system.py:50-53 | one pass of the first loop stages the deltas of particle i from the unchanged state and does not move it |
| NBodySystem.System.Commit | NBody/system.py:54-55 | the second loop commits every particle's own deltas and keeps them |
| NBodySystem.System.Update | NBody/system.py:48-56 | one call is one step of the state at the start, keeping the list and the order of particles and advancing the time by exactly dt |
| NBodySystem.System.Unpack | NBody/system.py:59-63 | one position per particle, in list order, as a value that later steps cannot change |
| Simulator.Frame | NBody/simulator.py:72-73 | one pass records the positions after t steps, then advances the system to t + 1 steps |
| Simulator.Trajectory | NBody/simulator.py:70-73 | the first n snapshots number n |
| Simulator.TrajectoryFrame | NBody/simulator.py:70-73 | snapshot u of the trajectory holds the positions after u steps |
| Simulator.TrajectoryFrames | NBody/simulator.py:70-73 | every snapshot of the trajectory holds the positions after its number of steps |
| Simulator.Frames | NBody/simulator.py:70-76 | the loop records the trajectory and leaves the system n steps on, with the clock advanced n times by dt |
| Simulator.Run | NBody/simulator.py:70-76 | frame t holds the positions after t steps; the system ends n steps on, its clock `n*dt` later and its total momentum unchanged |

## Left out

- Floating point: every quantity is an exact `real`. IEEE-754 rounding,
  overflow, NaN/Inf and the effect of summation order are not modelled.
  Total momentum is conserved exactly in this model. It holds only up to
  rounding in the float64 source.
- The square root inside `np.linalg.norm`: Dafny has no square root, so the
  norm is a parameter known only by `IsNorm`. This is why there is no lemma
  on the magnitude `m2/|d|**2` of the pull.
- `Particle.__str__` (NBody/system.py:15-16): formatting only.
- The dead store `a = np.zeros(3)` (NBody/system.py:50): it is overwritten
  at once. `sum([])` is the integer 0 in Python. It acts like the zero vector
  in the arithmetic that follows, and the model uses the zero vector.
- Scalar zeros: the initial `rp = vp = 0` and `time = 0` are Python integers
  that numpy broadcasting treats as zero vectors and zero. The model uses
  `Zero` and `0.0`. The mass is a `real`. The simulator passes a shape-(1)
  array as the mass, which numpy broadcasts the same way.
- NBodySystem.System.Update: requires distinct positions. The source divides
  by zero on coincident bodies. It has no error or rollback path for that
  case, so there is none to model.
- NBodySystem.System.NetAcceleration: requires distinct positions, for the same reason.
- NBodySystem.System.Stage: requires distinct positions, for the same reason.
- NBodySystem.Particle.Acceleration: requires distinct positions, for the same reason.
- Gravity.Gravitation: is zero at coincident positions only to be a total
  function. No proof relies on that value, since every use has distinct
  positions.
- A particle listed twice: the constructor and `Add` accept it, as the
  source does. `np.delete(self.bodies, i)` then keeps the second copy, so
  the pull at NBody/system.py:20 is taken between the particle and itself,
  `0/0`, which is NaN. It is a case of coincident positions: the
  distinct-position precondition of `System.Update` excludes it
  (`System.ApartUnaliased`).
- Python list aliasing: the shared mutable default `bodies=[]` and the
  sharing of the caller's list are not modelled. The system holds its own
  sequence of particles, so changes a caller makes to its list later are
  not seen.
- Integrator.TwoBodyApproach: states the direction of motion for one step.
  Over many steps the bodies may pass each other or meet, after which the
  source divides by zero, so no lemma states it for longer runs.
- Simulator.Run: requires that no two bodies meet at the start of any step
  (`CollisionFree`). The source does not check this.
- The snapshot copy: `np.asarray` copies the position arrays in the source.
  In the model, positions are values, so a snapshot cannot alias a
  particle's state. Aliasing between numpy arrays is not modelled.
- The rest of NBody/simulator.py is not part of the model:
  - command-line parsing;
  - random initial conditions;
  - the progress output of lines 74-75;
  - the conversion `np.asarray(rt)` of line 76, which is a representation
    change only;
  - the matplotlib animation and the ffmpeg export.
