/**
 * The collision event a hit test fills in and the collision response reads:
 * the ball involved, the contact normal, and an element-specific flag (for
 * the spinner, which of its two faces was hit).
 */
module Collision {
  import opened Geometry
  import Ball

  class CollisionEvent {
    var ball: Ball.BallHit
    var hitNormal: Vec3
    var hitFlag: bool

    constructor (ball: Ball.BallHit, hitNormal: Vec3)
      ensures this.ball == ball && this.hitNormal == hitNormal && !hitFlag
    {
      this.ball := ball;
      this.hitNormal := hitNormal;
      this.hitFlag := false;
    }
  }
}
