/**
 * A hot-air balloon: the balloon drifts on sines of its local time along a slow climb, and
 * any height above 18 is replaced by -5; once the climb term passes 15.4 the balloon sits
 * at -5 on every frame. Its burner emits an exhaust of 30 particles that are recycled
 * above height 1.5.
 */
module HotAirBalloon {
  import opened Vectors
  import Emitter

  const ExhaustCount := 30

  /**
   * Initial x, z = (r - 0.5) * 0.2, initial y = r * 0.5; velocity x, z = (r - 0.5) * 0.01,
   * velocity y = r * 0.03 + 0.02; ceiling 1.5; respawned x, z = (r - 0.5) * 0.2.
   */
  const Exhaust := Emitter.Config(ExhaustCount, 0.2, 0.5, 0.01, 0.03, 0.02, 1.5, 0.2)

  /** Above this height the balloon is shown at WrapTo instead. */
  const WrapHeight := 18.0
  const WrapTo := -5.0

  /** Where the balloon group sits and how far it is tilted about z. */
  datatype Pose = Pose(position: Vec3, rotationZ: real)

  /** The height the floating formula gives, before the test against 18. */
  function Climb(speed: real, time: real, sin: real -> real): real {
    sin(time * 0.5 * speed) * 0.4 + 3.0 + time * 0.12 * speed
  }

  /**
   * The balloon's pose at local time `time`: it sways around its configured x and z,
   * rocks about z, and follows its climb, except that a height above 18 is replaced by -5.
   */
  function Float(base: Vec3, speed: real, time: real, sin: real -> real, cos: real -> real): (p: Pose)
    requires Wave(sin) && Wave(cos)
    ensures p.position.y <= WrapHeight
    ensures Climb(speed, time, sin) <= WrapHeight ==> p.position.y == Climb(speed, time, sin)
    ensures Climb(speed, time, sin) > WrapHeight ==> p.position.y == WrapTo
    ensures time >= 0.0 && speed >= 0.0 ==> p.position.y >= WrapTo
    ensures base.x - 0.6 <= p.position.x <= base.x + 0.6
    ensures base.z - 0.3 <= p.position.z <= base.z + 0.3
    ensures -0.12 <= p.rotationZ <= 0.12
  {
    var climb := Swing(sin(time * 0.5 * speed), 0.4) + 3.0 + time * 0.12 * speed;
    assert time >= 0.0 && speed >= 0.0 ==> time * 0.12 * speed >= 0.0;
    Pose(
      Vec3(Swing(sin(time * 0.3 * speed), 0.6) + base.x,
           if climb > WrapHeight then WrapTo else climb,
           Swing(cos(time * 0.25 * speed), 0.3) + base.z),
      Swing(sin(time * 0.4 * speed), 0.12))
  }

  /**
   * The climb is not undone by the reset: the height is recomputed from the clock on every
   * frame, so once the steady term time·0.12·speed exceeds 15.4 every frame shows -5.
   */
  lemma StaysDown(base: Vec3, speed: real, time: real, sin: real -> real, cos: real -> real)
    requires Wave(sin) && Wave(cos) && time * 0.12 * speed > 15.4
    ensures Float(base, speed, time, sin, cos).position.y == WrapTo
  {
  }

  /** While the steady term is below 14.6 the height is never replaced: it is the climb itself. */
  lemma StaysUp(base: Vec3, speed: real, time: real, sin: real -> real, cos: real -> real)
    requires Wave(sin) && Wave(cos) && time * 0.12 * speed < 14.6
    ensures Float(base, speed, time, sin, cos).position.y == Climb(speed, time, sin)
  {
  }

  class Balloon {
    const base: Vec3      // the configured position of the balloon group
    const delay: real     // the per-instance offset added to the clock
    const speed: real
    var position: Vec3
    var rotationZ: real
    const exhaust: Emitter.Emitter

    ghost predicate Valid()
      reads this, exhaust, exhaust.positions
    {
      exhaust.Valid() && exhaust.cfg == Exhaust
    }

    /** The group starts at its configured position, untilted; 180 samples build the exhaust. */
    constructor (base: Vec3, delay: real, speed: real, rand: seq<real>)
      requires Emitter.SpawnSamples(Exhaust, rand)
      ensures Valid()
      ensures this.base == base && this.delay == delay && this.speed == speed
      ensures position == base && rotationZ == 0.0
      ensures fresh(exhaust) && fresh(exhaust.positions)
      ensures exhaust.positions[..] == Emitter.InitialBuffer(Exhaust, rand)
      ensures exhaust.velocities == Emitter.InitialVelocities(Exhaust, rand)
      ensures exhaust.positions.Length == 3 * ExhaustCount && |exhaust.velocities| == ExhaustCount
      ensures forall i :: 0 <= i < ExhaustCount ==>
        var p := At(exhaust.positions[..], i);
        -0.1 <= p.x < 0.1 && 0.0 <= p.y < 0.5 && -0.1 <= p.z < 0.1
      ensures forall i :: 0 <= i < ExhaustCount ==>
        var v := exhaust.velocities[i];
        -0.005 <= v.x < 0.005 && 0.02 <= v.y < 0.05 && -0.005 <= v.z < 0.005
    {
      this.base := base;
      this.delay := delay;
      this.speed := speed;
      position := base;
      rotationZ := 0.0;
      exhaust := new Emitter.Emitter(Exhaust, rand);
    }

    /** The floating part of a frame: assign the pose, then replace a height above 18 by -5. */
    method Drift(time: real, sin: real -> real, cos: real -> real)
      requires Wave(sin) && Wave(cos)
      modifies this
      ensures Pose(position, rotationZ) == Float(base, speed, time, sin, cos)
    {
      position := position.(y := sin(time * 0.5 * speed) * 0.4 + 3.0 + time * 0.12 * speed);
      position := position.(x := sin(time * 0.3 * speed) * 0.6 + base.x);
      position := position.(z := cos(time * 0.25 * speed) * 0.3 + base.z);
      rotationZ := sin(time * 0.4 * speed) * 0.12;
      if position.y > WrapHeight {
        position := position.(y := WrapTo);
      }
    }

    /** One animation frame at clock reading `clock`; the burner flicker is not modelled. */
    method Frame(clock: real, sin: real -> real, cos: real -> real, jitter: seq<real>)
      requires Valid() && Wave(sin) && Wave(cos) && Emitter.FrameSamples(Exhaust, jitter)
      modifies this, exhaust.positions
      ensures Valid()
      ensures Pose(position, rotationZ) == Float(base, speed, clock + delay, sin, cos)
      ensures exhaust.positions[..] == Emitter.Frame(Exhaust, old(exhaust.positions[..]), exhaust.velocities, jitter)
      ensures forall i :: 0 <= i < ExhaustCount ==> 0.0 <= At(exhaust.positions[..], i).y <= 1.5
    {
      var time := clock + delay;
      Drift(time, sin, cos);
      exhaust.Advance(jitter);
      forall i | 0 <= i < ExhaustCount ensures 0.0 <= At(exhaust.positions[..], i).y <= 1.5 {
        assert 3 * i + 2 < exhaust.positions.Length;
      }
    }
  }

  /**
   * One frame with the exhaust's constants: a particle moves by its velocity, unless that
   * would take it above 1.5, in which case it restarts at height 0 within 0.1 of the axis.
   */
  lemma ExhaustStep(p: Vec3, v: Vec3, jx: real, jz: real)
    requires Unit(jx) && Unit(jz)
    ensures var q := Emitter.MoveParticle(Exhaust, p, v, jx, jz);
      && q.y <= 1.5
      && (p.y + v.y <= 1.5 ==> q == Vec3(p.x + v.x, p.y + v.y, p.z + v.z))
      && (p.y + v.y > 1.5 ==> q.y == 0.0 && -0.1 <= q.x < 0.1 && -0.1 <= q.z < 0.1)
  {
  }

  /** From construction on, through any number of frames, every exhaust height is in [0, 1.5]. */
  lemma ExhaustStaysInBand(rand: seq<real>, frames: seq<seq<real>>)
    requires Emitter.SpawnSamples(Exhaust, rand)
    requires frames != []
    requires forall f :: 0 <= f < |frames| ==> Emitter.FrameSamples(Exhaust, frames[f])
    ensures var ps := Emitter.Run(Exhaust, Emitter.InitialBuffer(Exhaust, rand), Emitter.InitialVelocities(Exhaust, rand), frames);
      forall i :: 0 <= i < ExhaustCount ==> 0.0 <= At(ps, i).y <= 1.5
  {
    Emitter.SpawnedRunInBand(Exhaust, rand, frames);
    var ps := Emitter.Run(Exhaust, Emitter.InitialBuffer(Exhaust, rand), Emitter.InitialVelocities(Exhaust, rand), frames);
    forall i | 0 <= i < ExhaustCount ensures 0.0 <= At(ps, i).y <= 1.5 {
      assert 3 * i + 2 < |ps|;
    }
  }
}
