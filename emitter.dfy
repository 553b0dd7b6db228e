/**
 * The recycling spark emitter behind the flame sparkles and the balloon burner
 * exhaust: a fixed buffer of particle positions and a fixed table of per-particle
 * velocities. Every frame each particle moves by its own velocity; one whose height
 * passes the ceiling is put back on the ground, near the axis.
 */
module Emitter {
  import opened Vectors

  /** The constants that tell one emitter from another. */
  datatype Config = Config(
    count: nat,          // particles in the buffer
    spawnWidth: real,    // initial x and z are (r - 0.5) * spawnWidth
    spawnHeight: real,   // initial y is r * spawnHeight
    driftWidth: real,    // velocity x and z are (r - 0.5) * driftWidth
    riseRange: real,     // velocity y is r * riseRange + riseMin
    riseMin: real,
    ceiling: real,       // a particle higher than this respawns
    respawnWidth: real)  // respawned x and z are (r - 0.5) * respawnWidth
  {
    predicate WellFormed() {
      && spawnWidth > 0.0 && spawnHeight > 0.0 && driftWidth > 0.0
      && riseRange > 0.0 && riseMin >= 0.0 && ceiling >= 0.0 && respawnWidth > 0.0
    }
  }

  /** Where a particle starts, from three Math.random() samples. */
  function InitialPosition(cfg: Config, rx: real, ry: real, rz: real): (p: Vec3)
    requires cfg.WellFormed() && Unit(rx) && Unit(ry) && Unit(rz)
    ensures -cfg.spawnWidth / 2.0 <= p.x < cfg.spawnWidth / 2.0
    ensures 0.0 <= p.y < cfg.spawnHeight
    ensures -cfg.spawnWidth / 2.0 <= p.z < cfg.spawnWidth / 2.0
  {
    Vec3(Centred(rx, cfg.spawnWidth), Scaled(ry, cfg.spawnHeight), Centred(rz, cfg.spawnWidth))
  }

  /** A particle's velocity, from three Math.random() samples: it always rises. */
  function InitialVelocity(cfg: Config, rx: real, ry: real, rz: real): (v: Vec3)
    requires cfg.WellFormed() && Unit(rx) && Unit(ry) && Unit(rz)
    ensures -cfg.driftWidth / 2.0 <= v.x < cfg.driftWidth / 2.0
    ensures cfg.riseMin <= v.y < cfg.riseMin + cfg.riseRange
    ensures -cfg.driftWidth / 2.0 <= v.z < cfg.driftWidth / 2.0
  {
    Vec3(Centred(rx, cfg.driftWidth), Scaled(ry, cfg.riseRange) + cfg.riseMin, Centred(rz, cfg.driftWidth))
  }

  /** Where a recycled particle reappears: on the ground, close to the axis. */
  function Respawn(cfg: Config, jx: real, jz: real): (p: Vec3)
    requires cfg.WellFormed() && Unit(jx) && Unit(jz)
    ensures p.y == 0.0
    ensures -cfg.respawnWidth / 2.0 <= p.x < cfg.respawnWidth / 2.0
    ensures -cfg.respawnWidth / 2.0 <= p.z < cfg.respawnWidth / 2.0
  {
    Vec3(Centred(jx, cfg.respawnWidth), 0.0, Centred(jz, cfg.respawnWidth))
  }

  /** One particle over one frame: move by the velocity, recycle above the ceiling. */
  function MoveParticle(cfg: Config, p: Vec3, v: Vec3, jx: real, jz: real): (q: Vec3)
    requires cfg.WellFormed() && Unit(jx) && Unit(jz)
    ensures q.y <= cfg.ceiling
    ensures Add(p, v).y <= cfg.ceiling ==> q == Add(p, v)
    ensures Add(p, v).y > cfg.ceiling ==>
      q.y == 0.0
      && -cfg.respawnWidth / 2.0 <= q.x < cfg.respawnWidth / 2.0
      && -cfg.respawnWidth / 2.0 <= q.z < cfg.respawnWidth / 2.0
    ensures p.y >= 0.0 && v.y >= 0.0 ==> q.y >= 0.0
  {
    var moved := Add(p, v);
    if moved.y > cfg.ceiling then Respawn(cfg, jx, jz) else moved
  }

  /** Per-frame respawn samples: two Math.random() results for every particle. */
  predicate FrameSamples(cfg: Config, jitter: seq<real>) {
    |jitter| == 2 * cfg.count && AllUnit(jitter)
  }

  /** The whole buffer over one frame. */
  function Frame(cfg: Config, ps: seq<real>, vs: seq<Vec3>, jitter: seq<real>): (r: seq<real>)
    requires cfg.WellFormed() && |vs| == cfg.count && |ps| == 3 * cfg.count
    requires FrameSamples(cfg, jitter)
    ensures |r| == |ps|
    ensures forall i :: 0 <= i < |vs| ==>
      At(r, i) == MoveParticle(cfg, At(ps, i), vs[i], jitter[2 * i], jitter[2 * i + 1])
  {
    var moved := seq(|vs|, i requires 0 <= i < |vs| =>
      MoveParticle(cfg, At(ps, i), vs[i], jitter[2 * i], jitter[2 * i + 1]));
    AtFlattenAll(moved);
    Flatten(moved)
  }

  /** No particle of the buffer is below the ground. */
  predicate Grounded(ps: seq<real>) {
    forall i :: 0 <= i < |ps| && 3 * i + 2 < |ps| ==> At(ps, i).y >= 0.0
  }

  /** No particle of the buffer is above `ceiling`. */
  predicate Below(ps: seq<real>, ceiling: real) {
    forall i :: 0 <= i < |ps| && 3 * i + 2 < |ps| ==> At(ps, i).y <= ceiling
  }

  /** Every velocity points upwards or is level. */
  predicate Rising(vs: seq<Vec3>) {
    forall i :: 0 <= i < |vs| ==> vs[i].y >= 0.0
  }

  /** After a frame every particle is under the ceiling, and none has sunk below ground. */
  lemma FrameInBand(cfg: Config, ps: seq<real>, vs: seq<Vec3>, jitter: seq<real>)
    requires cfg.WellFormed() && |vs| == cfg.count && |ps| == 3 * cfg.count
    requires FrameSamples(cfg, jitter)
    ensures Below(Frame(cfg, ps, vs, jitter), cfg.ceiling)
    ensures Grounded(ps) && Rising(vs) ==> Grounded(Frame(cfg, ps, vs, jitter))
  {
    var r := Frame(cfg, ps, vs, jitter);
    forall i | 0 <= i && 3 * i + 2 < |r|
      ensures At(r, i).y <= cfg.ceiling
      ensures Grounded(ps) && Rising(vs) ==> At(r, i).y >= 0.0
    {
      assert i < |vs|;
    }
  }

  /** The buffer after one frame per element of `frames`, in order. */
  function Run(cfg: Config, ps: seq<real>, vs: seq<Vec3>, frames: seq<seq<real>>): (r: seq<real>)
    requires cfg.WellFormed() && |vs| == cfg.count && |ps| == 3 * cfg.count
    requires forall f :: 0 <= f < |frames| ==> FrameSamples(cfg, frames[f])
    ensures |r| == |ps|
    decreases |frames|
  {
    if frames == [] then ps else Run(cfg, Frame(cfg, ps, vs, frames[0]), vs, frames[1..])
  }

  /**
   * However many frames run, a grounded buffer with rising velocities stays grounded,
   * and after at least one frame every particle is at or under the ceiling.
   */
  lemma {:induction false} RunInBand(cfg: Config, ps: seq<real>, vs: seq<Vec3>, frames: seq<seq<real>>)
    requires cfg.WellFormed() && |vs| == cfg.count && |ps| == 3 * cfg.count
    requires forall f :: 0 <= f < |frames| ==> FrameSamples(cfg, frames[f])
    requires Grounded(ps) && Rising(vs)
    ensures Grounded(Run(cfg, ps, vs, frames))
    ensures frames != [] ==> Below(Run(cfg, ps, vs, frames), cfg.ceiling)
    decreases |frames|
  {
    if frames != [] {
      var next := Frame(cfg, ps, vs, frames[0]);
      FrameInBand(cfg, ps, vs, frames[0]);
      RunInBand(cfg, next, vs, frames[1..]);
      if frames[1..] == [] {
        assert Run(cfg, ps, vs, frames) == next;
      }
    }
  }

  /** Construction samples: six Math.random() results for every particle. */
  predicate SpawnSamples(cfg: Config, rand: seq<real>) {
    |rand| == 6 * cfg.count && AllUnit(rand)
  }

  /** The buffer as construction leaves it: x, y, z of particle i from samples 6i to 6i+2. */
  function InitialBuffer(cfg: Config, rand: seq<real>): (ps: seq<real>)
    requires cfg.WellFormed() && SpawnSamples(cfg, rand)
    ensures |ps| == 3 * cfg.count && Grounded(ps)
    ensures forall i :: 0 <= i < cfg.count ==>
      At(ps, i) == InitialPosition(cfg, rand[6 * i], rand[6 * i + 1], rand[6 * i + 2])
  {
    var placed := seq(cfg.count, i requires 0 <= i < cfg.count =>
      InitialPosition(cfg, rand[6 * i], rand[6 * i + 1], rand[6 * i + 2]));
    AtFlattenAll(placed);
    Flatten(placed)
  }

  /** The velocity table construction leaves: particle i's from samples 6i+3 to 6i+5. */
  function InitialVelocities(cfg: Config, rand: seq<real>): (vs: seq<Vec3>)
    requires cfg.WellFormed() && SpawnSamples(cfg, rand)
    ensures |vs| == cfg.count && Rising(vs)
    ensures forall i :: 0 <= i < cfg.count ==>
      vs[i] == InitialVelocity(cfg, rand[6 * i + 3], rand[6 * i + 4], rand[6 * i + 5])
  {
    seq(cfg.count, i requires 0 <= i < cfg.count =>
      InitialVelocity(cfg, rand[6 * i + 3], rand[6 * i + 4], rand[6 * i + 5]))
  }

  /**
   * From construction on, whatever frames run, no particle is below ground, and
   * after the first frame none is above the ceiling.
   */
  lemma SpawnedRunInBand(cfg: Config, rand: seq<real>, frames: seq<seq<real>>)
    requires cfg.WellFormed() && SpawnSamples(cfg, rand)
    requires forall f :: 0 <= f < |frames| ==> FrameSamples(cfg, frames[f])
    ensures Grounded(Run(cfg, InitialBuffer(cfg, rand), InitialVelocities(cfg, rand), frames))
    ensures frames != [] ==>
      Below(Run(cfg, InitialBuffer(cfg, rand), InitialVelocities(cfg, rand), frames), cfg.ceiling)
  {
    RunInBand(cfg, InitialBuffer(cfg, rand), InitialVelocities(cfg, rand), frames);
  }

  /**
   * The construction loop: fills the position buffer and the velocity table,
   * drawing x, y, z of the position and then x, y, z of the velocity for each particle.
   */
  method Spawn(cfg: Config, rand: seq<real>) returns (positions: array<real>, velocities: seq<Vec3>)
    requires cfg.WellFormed() && SpawnSamples(cfg, rand)
    ensures fresh(positions)
    ensures positions[..] == InitialBuffer(cfg, rand)
    ensures velocities == InitialVelocities(cfg, rand)
  {
    positions := new real[3 * cfg.count];
    velocities := [];
    var i := 0;
    while i < cfg.count
      invariant 0 <= i <= cfg.count && |velocities| == i
      invariant forall j :: 0 <= j < i ==>
        At(positions[..], j) == InitialPosition(cfg, rand[6 * j], rand[6 * j + 1], rand[6 * j + 2])
      invariant forall j :: 0 <= j < i ==>
        velocities[j] == InitialVelocity(cfg, rand[6 * j + 3], rand[6 * j + 4], rand[6 * j + 5])
    {
      var p := InitialPosition(cfg, rand[6 * i], rand[6 * i + 1], rand[6 * i + 2]);
      positions[3 * i] := p.x;
      positions[3 * i + 1] := p.y;
      positions[3 * i + 2] := p.z;
      velocities := velocities + [InitialVelocity(cfg, rand[6 * i + 3], rand[6 * i + 4], rand[6 * i + 5])];
      i := i + 1;
    }
    SameParticles(positions[..], InitialBuffer(cfg, rand), cfg.count);
  }

  class Emitter {
    const cfg: Config
    const velocities: seq<Vec3>
    const positions: array<real>

    /** The buffer holds exactly `count` particles, none below ground, all rising. */
    ghost predicate Valid()
      reads this, positions
    {
      && cfg.WellFormed()
      && |velocities| == cfg.count
      && positions.Length == 3 * cfg.count
      && Rising(velocities)
      && Grounded(positions[..])
    }

    constructor (cfg: Config, rand: seq<real>)
      requires cfg.WellFormed() && SpawnSamples(cfg, rand)
      ensures Valid() && this.cfg == cfg
      ensures fresh(positions)
      ensures positions[..] == InitialBuffer(cfg, rand)
      ensures velocities == InitialVelocities(cfg, rand)
    {
      var ps, vs := Spawn(cfg, rand);
      this.cfg := cfg;
      velocities := vs;
      positions := ps;
    }

    /** The body of the frame loop: only entries 3i, 3i+1 and 3i+2 change. */
    method AdvanceParticle(i: nat, jx: real, jz: real)
      requires Valid() && i < cfg.count && Unit(jx) && Unit(jz)
      modifies positions
      ensures Valid()
      ensures At(positions[..], i) == MoveParticle(cfg, old(At(positions[..], i)), velocities[i], jx, jz)
      ensures forall k :: 0 <= k < positions.Length && !(3 * i <= k < 3 * i + 3) ==>
        positions[k] == old(positions[k])
    {
      var v := velocities[i];
      positions[3 * i] := positions[3 * i] + v.x;
      positions[3 * i + 1] := positions[3 * i + 1] + v.y;
      positions[3 * i + 2] := positions[3 * i + 2] + v.z;
      if positions[3 * i + 1] > cfg.ceiling {
        var p := Respawn(cfg, jx, jz);
        positions[3 * i] := p.x;
        positions[3 * i + 1] := p.y;
        positions[3 * i + 2] := p.z;
      }
      assert At(positions[..], i) == MoveParticle(cfg, old(At(positions[..], i)), velocities[i], jx, jz);
      forall j | 0 <= j && 3 * j + 2 < positions.Length ensures At(positions[..], j).y >= 0.0 {
        if j != i {
          assert At(positions[..], j) == old(At(positions[..], j));
        }
      }
    }

    /** One frame: every particle in index order, in place. */
    method Advance(jitter: seq<real>)
      requires Valid() && FrameSamples(cfg, jitter)
      modifies positions
      ensures Valid()
      ensures positions[..] == Frame(cfg, old(positions[..]), velocities, jitter)
      ensures Below(positions[..], cfg.ceiling)
    {
      ghost var before := positions[..];
      var i := 0;
      while i < cfg.count
        invariant 0 <= i <= cfg.count && Valid()
        invariant forall j :: 0 <= j < i ==>
          At(positions[..], j) == MoveParticle(cfg, At(before, j), velocities[j], jitter[2 * j], jitter[2 * j + 1])
        invariant forall k :: 3 * i <= k < positions.Length ==> positions[k] == before[k]
      {
        ghost var mid := positions[..];
        assert At(mid, i) == At(before, i);
        AdvanceParticle(i, jitter[2 * i], jitter[2 * i + 1]);
        forall j | 0 <= j < i
          ensures At(positions[..], j) == At(mid, j)
        {
        }
        i := i + 1;
      }
      var after := Frame(cfg, before, velocities, jitter);
      SameParticles(positions[..], after, cfg.count);
      FrameInBand(cfg, before, velocities, jitter);
    }
  }
}
