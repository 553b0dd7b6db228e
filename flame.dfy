/**
 * The diya flame's sparkles: a recycling emitter of 50 particles that rise from the
 * wick and are recycled once they climb past height 4.
 */
module Flame {
  import opened Vectors
  import Emitter

  const SparkCount := 50

  /**
   * Initial x, z = (r - 0.5) * 0.5, initial y = r * 2; velocity x, z = (r - 0.5) * 0.02,
   * velocity y = r * 0.05 + 0.02; ceiling 4; respawned x, z = (r - 0.5) * 0.3.
   */
  const Sparks := Emitter.Config(SparkCount, 0.5, 2.0, 0.02, 0.05, 0.02, 4.0, 0.3)

  class Flame {
    const sparks: Emitter.Emitter

    ghost predicate Valid()
      reads this, sparks, sparks.positions
    {
      sparks.Valid() && sparks.cfg == Sparks
    }

    /** Builds the 150-entry buffer and the 50 velocities from 300 samples. */
    constructor (rand: seq<real>)
      requires Emitter.SpawnSamples(Sparks, rand)
      ensures Valid()
      ensures fresh(sparks) && fresh(sparks.positions)
      ensures sparks.positions[..] == Emitter.InitialBuffer(Sparks, rand)
      ensures sparks.velocities == Emitter.InitialVelocities(Sparks, rand)
      ensures sparks.positions.Length == 3 * SparkCount && |sparks.velocities| == SparkCount
      ensures forall i :: 0 <= i < SparkCount ==>
        var p := At(sparks.positions[..], i);
        -0.25 <= p.x < 0.25 && 0.0 <= p.y < 2.0 && -0.25 <= p.z < 0.25
      ensures forall i :: 0 <= i < SparkCount ==>
        var v := sparks.velocities[i];
        -0.01 <= v.x < 0.01 && 0.02 <= v.y < 0.07 && -0.01 <= v.z < 0.01
    {
      sparks := new Emitter.Emitter(Sparks, rand);
    }

    /** The particle part of one animation frame; the cone flicker is not modelled. */
    method Frame(jitter: seq<real>)
      requires Valid() && Emitter.FrameSamples(Sparks, jitter)
      modifies sparks.positions
      ensures Valid()
      ensures sparks.positions[..] == Emitter.Frame(Sparks, old(sparks.positions[..]), sparks.velocities, jitter)
      ensures forall i :: 0 <= i < SparkCount ==> 0.0 <= At(sparks.positions[..], i).y <= 4.0
    {
      sparks.Advance(jitter);
      forall i | 0 <= i < SparkCount ensures 0.0 <= At(sparks.positions[..], i).y <= 4.0 {
        assert 3 * i + 2 < sparks.positions.Length;
      }
    }
  }

  /**
   * One frame with the flame's constants: a spark moves by its velocity, unless that
   * would take it above 4, in which case it restarts at height 0 within 0.15 of the axis.
   */
  lemma SparkStep(p: Vec3, v: Vec3, jx: real, jz: real)
    requires Unit(jx) && Unit(jz)
    ensures var q := Emitter.MoveParticle(Sparks, p, v, jx, jz);
      && q.y <= 4.0
      && (p.y + v.y <= 4.0 ==> q == Vec3(p.x + v.x, p.y + v.y, p.z + v.z))
      && (p.y + v.y > 4.0 ==> q.y == 0.0 && -0.15 <= q.x < 0.15 && -0.15 <= q.z < 0.15)
  {
  }

  /** From construction on, through any number of frames, every spark height is in [0, 4]. */
  lemma SparksStayInBand(rand: seq<real>, frames: seq<seq<real>>)
    requires Emitter.SpawnSamples(Sparks, rand)
    requires frames != []
    requires forall f :: 0 <= f < |frames| ==> Emitter.FrameSamples(Sparks, frames[f])
    ensures var ps := Emitter.Run(Sparks, Emitter.InitialBuffer(Sparks, rand), Emitter.InitialVelocities(Sparks, rand), frames);
      forall i :: 0 <= i < SparkCount ==> 0.0 <= At(ps, i).y <= 4.0
  {
    Emitter.SpawnedRunInBand(Sparks, rand, frames);
    var ps := Emitter.Run(Sparks, Emitter.InitialBuffer(Sparks, rand), Emitter.InitialVelocities(Sparks, rand), frames);
    forall i | 0 <= i < SparkCount ensures 0.0 <= At(ps, i).y <= 4.0 {
      assert 3 * i + 2 < |ps|;
    }
  }
}
