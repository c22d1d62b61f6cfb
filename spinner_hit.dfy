/**
 * The spinner's collision object (SpinnerHit): two line segments over the
 * same two end points, one per face of the spinner plate; a hit test that
 * tries them in order and records which face was hit; and the collision
 * response that turns the ball's speed along the contact normal into an
 * angular speed of the plate, signed by the face.
 *
 * The swept-circle test LineSeg.hitTestBasic is passed in as a function from
 * segment to the time of impact and the contact normal it reports. The sine
 * and cosine of the plate's rotation and the physics constant PHYS_SKIN are
 * passed in as numbers.
 */
module Spinner {
  import opened Geometry
  import Collision

  /** The part of SpinnerData the collision object reads. */
  datatype SpinnerData = SpinnerData(center: Vec2, length: real, height: real)

  /** A LineSeg of collision type Spinner: end points and the z range it covers. */
  datatype LineSeg = LineSeg(v1: Vec2, v2: Vec2, zLow: real, zHigh: real)

  /** What hitTestBasic reports for one segment: a time of impact (negative for none) and the normal there. */
  datatype SegmentHit = SegmentHit(time: real, normal: Vec3)

  /** The value clamp(x, lo, hi) takes when lo <= hi. */
  function Clamp(x: real, lo: real, hi: real): real {
    Min(Max(x, lo), hi)
  }

  /**
   * The two segments the constructor builds: through the plate's center along
   * its rotation, oversized by PHYS_SKIN at both ends, the second one the
   * first one reversed, so that the two face opposite ways.
   */
  function Segments(d: SpinnerData, height: real, sn: real, cs: real, physSkin: real): (segs: seq<LineSeg>)
    ensures |segs| == 2
    ensures segs[1].v1 == segs[0].v2 && segs[1].v2 == segs[0].v1
    ensures segs[0].v1.x + segs[0].v2.x == 2.0 * d.center.x
    ensures segs[0].v1.y + segs[0].v2.y == 2.0 * d.center.y
    ensures segs[0].v2.x - segs[0].v1.x == cs * (d.length + 2.0 * physSkin)
    ensures segs[0].v2.y - segs[0].v1.y == sn * (d.length + 2.0 * physSkin)
    ensures segs[0].zLow == segs[1].zLow == height
    ensures segs[0].zHigh == segs[1].zHigh == height + 2.0 * physSkin
  {
    var halfLength := d.length * 0.5;
    var v1 := Vec2(d.center.x - cs * (halfLength + physSkin), d.center.y - sn * (halfLength + physSkin));
    var v2 := Vec2(d.center.x + cs * (halfLength + physSkin), d.center.y + sn * (halfLength + physSkin));
    [LineSeg(v1, v2, height, height + 2.0 * physSkin), LineSeg(v2, v1, height, height + 2.0 * physSkin)]
  }

  /** The angle the constructor gives the plate: 0, clamped into the mover's limits. */
  function InitialAngle(angleMin: real, angleMax: real): (angle: real)
    ensures angleMin <= angleMax ==> angleMin <= angle <= angleMax
    ensures angleMin <= 0.0 <= angleMax ==> angle == 0.0
    ensures angleMin <= angleMax && 0.0 < angleMin ==> angle == angleMin
    ensures angleMin <= angleMax && angleMax < 0.0 ==> angle == angleMax
  {
    Clamp(0.0, angleMin, angleMax)
  }

  /**
   * The angular speed a hit from the front gives the plate: |dot|, divided by
   * the axis height h only where |h| > 1, times the damping, negated when the
   * first face was hit.
   */
  function HitResponse(dot: real, h: real, damping: real, hitFlag: bool): (speed: real)
    ensures Abs(h) > 1.0 ==> speed * h == (if hitFlag then -Abs(dot) else Abs(dot)) * damping
    ensures Abs(h) <= 1.0 ==> speed == (if hitFlag then -Abs(dot) else Abs(dot)) * damping
    ensures damping >= 0.0 && h >= -1.0 && hitFlag ==> speed <= 0.0
    ensures damping >= 0.0 && h >= -1.0 && !hitFlag ==> speed >= 0.0
  {
    var q := if Abs(h) > 1.0 then Abs(dot) / h else Abs(dot);
    var s := q * damping;
    assert damping >= 0.0 && h >= -1.0 ==> s >= 0.0 by {
      if damping >= 0.0 && h >= -1.0 {
        assert q >= 0.0;
        MulMonotone(0.0, q, damping);
      }
    }
    if hitFlag then -s else s
  }

  /**
   * The guard against small axis heights means a hit never gives the plate
   * more than |dot| * |damping| of angular speed.
   */
  lemma HitResponseNeverAmplifies(dot: real, h: real, damping: real, hitFlag: bool)
    ensures Abs(HitResponse(dot, h, damping, hitFlag)) <= Abs(dot) * Abs(damping)
  {
    var q := if Abs(h) > 1.0 then Abs(dot) / h else Abs(dot);
    if Abs(h) > 1.0 {
      DivisionShrinks(Abs(dot), h);
    }
    AbsOfProduct(q, damping);
    MulMonotone(Abs(q), Abs(dot), Abs(damping));
  }

  lemma AbsOfProduct(x: real, y: real)
    ensures Abs(x * y) == Abs(x) * Abs(y)
  {
  }

  lemma MulMonotone(a: real, b: real, c: real)
    requires 0.0 <= a <= b && 0.0 <= c
    ensures a * c <= b * c
  {
  }

  /** Dividing by a number larger than 1 in magnitude never makes a value larger in magnitude. */
  lemma DivisionShrinks(a: real, h: real)
    requires 0.0 <= a && Abs(h) > 1.0
    ensures Abs(a / h) <= a
  {
    var q := a / h;
    assert q * h == a;
    AbsOfProduct(q, h);
    MulMonotone(1.0, Abs(h), Abs(q));
  }

  /** SpinnerState: the render-facing angle of the plate. */
  class SpinnerState {
    var angle: real

    constructor ()
      ensures angle == 0.0
    {
      angle := 0.0;
    }
  }

  /** The part of SpinnerMover the collision object uses. */
  class SpinnerMover {
    const angleMin: real
    const angleMax: real
    const damping: real
    var angleSpeed: real

    constructor (angleMin: real, angleMax: real, damping: real)
      ensures this.angleMin == angleMin && this.angleMax == angleMax && this.damping == damping
      ensures angleSpeed == 0.0
    {
      this.angleMin := angleMin;
      this.angleMax := angleMax;
      this.damping := damping;
      angleSpeed := 0.0;
    }
  }

  class SpinnerHit {
    const data: SpinnerData
    const state: SpinnerState
    const mover: SpinnerMover
    var lineSegs: seq<LineSeg>
    var isEnabled: bool

    predicate Valid()
      reads this
    {
      |lineSegs| == 2
    }

    constructor (data: SpinnerData, state: SpinnerState, mover: SpinnerMover, height: real,
                 sn: real, cs: real, physSkin: real)
      modifies state
      ensures this.data == data && this.state == state && this.mover == mover
      ensures lineSegs == Segments(data, height, sn, cs, physSkin) && Valid()
      ensures state.angle == InitialAngle(mover.angleMin, mover.angleMax)
      ensures isEnabled
    {
      this.data := data;
      this.state := state;
      this.mover := mover;
      isEnabled := true;
      var segs := Segments(data, height, sn, cs, physSkin);
      lineSegs := [];
      lineSegs := lineSegs + [segs[0]];
      lineSegs := lineSegs + [segs[1]];
      new;
      state.angle := Clamp(0.0, mover.angleMin, mover.angleMax);
    }

    /**
     * hitTest: a disabled spinner reports no hit and leaves the event alone.
     * Otherwise the first segment whose test gives a time that is not
     * negative wins, trying the first before the second, and the event's flag
     * says whether it was the first, and its normal is the one that segment's
     * test reported; with no such segment there is no hit (-1).
     */
    method HitTest(coll: Collision.CollisionEvent, hitTestBasic: LineSeg -> SegmentHit) returns (hitTime: real)
      requires Valid()
      modifies coll
      ensures coll.ball == old(coll.ball)
      ensures !isEnabled ==>
        hitTime == -1.0 && coll.hitFlag == old(coll.hitFlag) && coll.hitNormal == old(coll.hitNormal)
      ensures isEnabled && hitTestBasic(lineSegs[0]).time >= 0.0 ==>
        hitTime == hitTestBasic(lineSegs[0]).time && coll.hitFlag &&
        coll.hitNormal == hitTestBasic(lineSegs[0]).normal
      ensures isEnabled && hitTestBasic(lineSegs[0]).time < 0.0 && hitTestBasic(lineSegs[1]).time >= 0.0 ==>
        hitTime == hitTestBasic(lineSegs[1]).time && !coll.hitFlag &&
        coll.hitNormal == hitTestBasic(lineSegs[1]).normal
      ensures isEnabled && hitTestBasic(lineSegs[0]).time < 0.0 && hitTestBasic(lineSegs[1]).time < 0.0 ==>
        hitTime == -1.0 && coll.hitFlag == old(coll.hitFlag) && coll.hitNormal == old(coll.hitNormal)
    {
      if !isEnabled {
        return -1.0;
      }
      var i := 0;
      while i < 2
        invariant 0 <= i <= 2
        invariant forall j :: 0 <= j < i ==> hitTestBasic(lineSegs[j]).time < 0.0
        invariant coll.ball == old(coll.ball) && coll.hitNormal == old(coll.hitNormal)
        invariant coll.hitFlag == old(coll.hitFlag)
      {
        var hit := hitTestBasic(lineSegs[i]);
        if hit.time >= 0.0 {
          coll.hitNormal := hit.normal;
          coll.hitFlag := i == 0;
          return hit.time;
        }
        i := i + 1;
      }
      return -1.0;
    }

    /**
     * collide: a ball moving away from the contact normal (hit from the back)
     * changes nothing; otherwise the plate takes the hit response as its
     * angular speed.
     */
    method Collide(coll: Collision.CollisionEvent)
      modifies mover
      ensures Dot(coll.hitNormal, coll.ball.vel) < 0.0 ==> mover.angleSpeed == old(mover.angleSpeed)
      ensures Dot(coll.hitNormal, coll.ball.vel) >= 0.0 ==>
        mover.angleSpeed == HitResponse(Dot(coll.hitNormal, coll.ball.vel), data.height * 0.5,
                                        mover.damping, coll.hitFlag)
    {
      var dot := Dot(coll.hitNormal, coll.ball.vel);
      if dot < 0.0 {
        return;
      }

      var h := data.height * 0.5;

      mover.angleSpeed := Abs(dot);
      if Abs(h) > 1.0 {
        mover.angleSpeed := mover.angleSpeed / h;
      }
      mover.angleSpeed := mover.angleSpeed * mover.damping;

      if coll.hitFlag {
        mover.angleSpeed := -mover.angleSpeed;
      }
    }
  }
}
