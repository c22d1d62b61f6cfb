/**
 * The ball's mover (BallMover): the two-phase integrator the simulation
 * driver runs for every ball in every step. updateDisplacements moves the
 * ball by its velocity and recomputes its angular velocity from its angular
 * momentum; updateVelocities adds gravity, or, for the one ball an external
 * controller has claimed, steers it toward the controller's target. A frozen
 * ball is left where it is.
 *
 * The orientation matrix update (skew-symmetric increment and
 * re-orthonormalisation) is matrix numerics on Matrix2D and is passed in as
 * the function rotate. The ball's bounding box is recorded as the position
 * and velocity it was last computed from.
 */
module Ball {
  import opened Geometry
  import opened Wrappers

  /** The ball's orientation matrix, treated as an opaque value. */
  datatype Matrix3 = Matrix3(entries: seq<real>)

  /** The part of PlayerPhysics the velocity update reads. */
  datatype PlayerPhysics = PlayerPhysics(
    gravity: Vec3,
    ballControl: bool,              // an external controller is steering a ball
    activeBallBC: Option<int>,      // id of the ball it has claimed (pactiveballBC)
    bcTarget: Option<Vec2>,         // the point it steers toward (pBCTarget)
    physFactor: real)               // PHYS_FACTOR, the physics step scale

  /** What the mover reads and writes, as one value. */
  datatype Motion = Motion(
    pos: Vec3,
    orientation: Matrix3,
    vel: Vec3,
    angularVelocity: Vec3,
    angularMomentum: Vec3,
    inertia: real,
    isFrozen: bool)

  /** The controller steers this ball: it is on, it claimed this ball and it has a target. */
  predicate Controls(player: PlayerPhysics, id: int)
    requires player.ballControl ==> player.activeBallBC.Some?
  {
    player.ballControl && player.activeBallBC.value == id && player.bcTarget.Some?
  }

  /**
   * The velocity the controller adds along one axis to head for target from
   * p: a tenth of the distance, but never more than 10 either way.
   */
  function Steer(target: real, p: real): (inc: real)
    ensures -10.0 <= inc <= 10.0
    ensures -100.0 <= target - p <= 100.0 ==> inc * 10.0 == target - p
    ensures target - p >= 100.0 ==> inc == 10.0
    ensures target - p <= -100.0 ==> inc == -10.0
  {
    Max(-10.0, Min(10.0, (target - p) / 10.0))
  }

  /**
   * updateDisplacements: a ball that is not frozen moves by vel * dtime, turns
   * by its current angular velocity, and then takes angularMomentum / inertia
   * as its new angular velocity. A frozen ball does not change.
   */
  function Displaced(m: Motion, dtime: real, rotate: (Matrix3, Vec3, real) -> Matrix3): (r: Motion)
    requires !m.isFrozen ==> m.inertia != 0.0
    ensures m.isFrozen ==> r == m
    ensures !m.isFrozen ==> r.pos == Add(m.pos, Scale(m.vel, dtime))
    ensures !m.isFrozen ==> r.orientation == rotate(m.orientation, m.angularVelocity, dtime)
    ensures !m.isFrozen ==> Scale(r.angularVelocity, m.inertia) == m.angularMomentum
    ensures r.vel == m.vel && r.angularMomentum == m.angularMomentum
    ensures r.inertia == m.inertia && r.isFrozen == m.isFrozen
  {
    if m.isFrozen then m
    else
      m.(pos := Add(m.pos, Scale(m.vel, dtime)),
         orientation := rotate(m.orientation, m.angularVelocity, dtime),
         angularVelocity := DivScalar(m.angularMomentum, m.inertia))
  }

  /**
   * updateVelocities: a ball that is not frozen gains gravity * PHYS_FACTOR,
   * unless the controller steers it; a steered ball keeps half of its x and y
   * velocity, gains the steering increment toward the target on x and y and
   * drops by 2 on z. A frozen ball does not change.
   */
  function Accelerated(m: Motion, id: int, player: PlayerPhysics): (r: Motion)
    requires !m.isFrozen && player.ballControl ==> player.activeBallBC.Some?
    ensures m.isFrozen ==> r == m
    ensures !m.isFrozen && !Controls(player, id) ==>
      r.vel == Add(m.vel, Scale(player.gravity, player.physFactor))
    ensures !m.isFrozen && Controls(player, id) ==>
      && r.vel.x == m.vel.x * 0.5 + Steer(player.bcTarget.value.x, m.pos.x)
      && r.vel.y == m.vel.y * 0.5 + Steer(player.bcTarget.value.y, m.pos.y)
      && r.vel.z == m.vel.z - 2.0
    ensures r == m.(vel := r.vel)
  {
    if m.isFrozen then m
    else if Controls(player, id) then
      var t := player.bcTarget.value;
      m.(vel := Vec3(m.vel.x * 0.5 + Steer(t.x, m.pos.x), m.vel.y * 0.5 + Steer(t.y, m.pos.y), m.vel.z - 2.0))
    else
      m.(vel := Add(m.vel, Scale(player.gravity, player.physFactor)))
  }

  /** A steered ball's x and y velocity stays within 10 of half its old value. */
  lemma SteeringIsBounded(m: Motion, id: int, player: PlayerPhysics)
    requires !m.isFrozen && player.ballControl ==> player.activeBallBC.Some?
    requires !m.isFrozen && Controls(player, id)
    ensures var r := Accelerated(m, id, player);
      && -10.0 <= r.vel.x - m.vel.x * 0.5 <= 10.0
      && -10.0 <= r.vel.y - m.vel.y * 0.5 <= 10.0
  {
  }

  /** The controller steers at most one ball: two balls with different ids are never both steered. */
  lemma OnlyClaimedBallIsSteered(player: PlayerPhysics, id1: int, id2: int)
    requires player.ballControl ==> player.activeBallBC.Some?
    requires id1 != id2
    ensures !(Controls(player, id1) && Controls(player, id2))
  {
  }

  /** One physics step of the driver: velocities first, then displacements. */
  datatype Step = Step(dtime: real, player: PlayerPhysics)

  /** Every step a ball's velocity update can be run in (a claimed ball exists when control is on). */
  predicate StepsWellFormed(steps: seq<Step>) {
    forall i :: 0 <= i < |steps| ==> (steps[i].player.ballControl ==> steps[i].player.activeBallBC.Some?)
  }

  /** The ball after running the given steps. */
  function Simulate(m: Motion, id: int, steps: seq<Step>, rotate: (Matrix3, Vec3, real) -> Matrix3): Motion
    requires !m.isFrozen ==> m.inertia != 0.0
    requires StepsWellFormed(steps)
    decreases |steps|
  {
    if steps == [] then m
    else
      var v := Accelerated(m, id, steps[0].player);
      Simulate(Displaced(v, steps[0].dtime, rotate), id, steps[1..], rotate)
  }

  /** A frozen ball stays exactly as it is over any number of steps. */
  lemma {:induction false} FrozenBallStaysPut(m: Motion, id: int, steps: seq<Step>,
                                             rotate: (Matrix3, Vec3, real) -> Matrix3)
    requires m.isFrozen
    requires StepsWellFormed(steps)
    ensures Simulate(m, id, steps, rotate) == m
    decreases |steps|
  {
    if steps != [] {
      assert StepsWellFormed(steps[1..]) by {
        forall i | 0 <= i < |steps[1..]|
          ensures steps[1..][i].player.ballControl ==> steps[1..][i].player.activeBallBC.Some?
        {
          assert steps[1..][i] == steps[i + 1];
        }
      }
      FrozenBallStaysPut(m, id, steps[1..], rotate);
    }
  }

  // ---------------------------------------------------------------------------
  // The ball's objects

  /** BallState: the render-facing position and orientation. */
  class BallState {
    var pos: Vec3
    var orientation: Matrix3

    constructor (pos: Vec3, orientation: Matrix3)
      ensures this.pos == pos && this.orientation == orientation
    {
      this.pos := pos;
      this.orientation := orientation;
    }
  }

  /** BallHit: the ball's live physical quantities. */
  class BallHit {
    const state: BallState
    var vel: Vec3
    var angularVelocity: Vec3
    var angularMomentum: Vec3
    const inertia: real
    var isFrozen: bool
    /** The position and velocity the bounding box was last computed from. */
    var bboxSource: (Vec3, Vec3)

    constructor (state: BallState, vel: Vec3, angularMomentum: Vec3, inertia: real)
      ensures this.state == state && this.vel == vel && this.angularMomentum == angularMomentum
      ensures this.inertia == inertia && !isFrozen
      ensures angularVelocity == Vec3(0.0, 0.0, 0.0)
      ensures bboxSource == (state.pos, vel)
    {
      this.state := state;
      this.vel := vel;
      this.angularVelocity := Vec3(0.0, 0.0, 0.0);
      this.angularMomentum := angularMomentum;
      this.inertia := inertia;
      this.isFrozen := false;
      this.bboxSource := (state.pos, vel);
    }

    /** calcHitBBox: the box now encloses the ball at its current position and velocity. */
    method CalcHitBBox()
      modifies this`bboxSource
      ensures bboxSource == (state.pos, vel)
    {
      bboxSource := (state.pos, vel);
    }
  }

  class BallMover {
    const id: int
    const state: BallState
    const hit: BallHit

    constructor (id: int, state: BallState, hit: BallHit)
      requires hit.state == state
      ensures this.id == id && this.state == state && this.hit == hit && Valid()
    {
      this.id := id;
      this.state := state;
      this.hit := hit;
    }

    /** The mover and the hit object work on the same ball state. */
    predicate Valid()
      reads this, hit
    {
      hit.state == state
    }

    function Current(): Motion
      reads this, state, hit
    {
      Motion(state.pos, state.orientation, hit.vel, hit.angularVelocity, hit.angularMomentum,
             hit.inertia, hit.isFrozen)
    }

    method UpdateDisplacements(dtime: real, rotate: (Matrix3, Vec3, real) -> Matrix3)
      requires Valid()
      requires !hit.isFrozen ==> hit.inertia != 0.0
      modifies state, hit
      ensures Valid()
      ensures Current() == Displaced(old(Current()), dtime, rotate)
      ensures old(hit.isFrozen) ==> hit.bboxSource == old(hit.bboxSource)
      ensures !old(hit.isFrozen) ==> hit.bboxSource == (state.pos, hit.vel)
    {
      if !hit.isFrozen {
        var ds := Scale(hit.vel, dtime);
        state.pos := Add(state.pos, ds);

        hit.CalcHitBBox();

        state.orientation := rotate(state.orientation, hit.angularVelocity, dtime);

        hit.angularVelocity := DivScalar(hit.angularMomentum, hit.inertia);
      }
    }

    method UpdateVelocities(player: PlayerPhysics)
      requires Valid()
      requires !hit.isFrozen && player.ballControl ==> player.activeBallBC.Some?
      modifies hit
      ensures Valid()
      ensures Current() == Accelerated(old(Current()), id, player)
      ensures hit.bboxSource == (state.pos, hit.vel)
    {
      if !hit.isFrozen {
        if player.ballControl && id == player.activeBallBC.value && player.bcTarget.Some? {
          hit.vel := hit.vel.(x := hit.vel.x * 0.5);
          hit.vel := hit.vel.(y := hit.vel.y * 0.5);

          var t := player.bcTarget.value;
          hit.vel := Add(hit.vel, Vec3(Max(-10.0, Min(10.0, (t.x - state.pos.x) / 10.0)),
                                       Max(-10.0, Min(10.0, (t.y - state.pos.y) / 10.0)),
                                       -2.0));
        } else {
          hit.vel := Add(hit.vel, Scale(player.gravity, player.physFactor));
        }
      }

      hit.CalcHitBBox();
    }
  }
}
