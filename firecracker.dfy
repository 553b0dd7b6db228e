/**
 * A firecracker rocket: on a 4-unit cycle of its local time it rises while recording a
 * 30-point trail, bursts into 100 particles that fly on fixed velocities under a small
 * gravity and fade over 2 units measured from the burst, and is then cleared.
 *
 * The exploded flag is cleared only inside the branch guarded by "not exploded", so a
 * firecracker bursts at most once: after its burst the rocket branch never runs again.
 */
module Firecracker {
  import opened Vectors

  const ParticleCount := 100
  const TrailCount := 30
  const Gravity := 0.005

  /** The rocket mesh's x and z are never assigned: they keep the mesh's default, 0. */
  const RocketX := 0.0
  const RocketZ := 0.0

  /** `time % 4` for the non-negative local times the frame reaches it with. */
  function CycleTime(time: real): (c: real)
    requires time >= 0.0
    ensures 0.0 <= c < 4.0 && c <= time
    ensures time < 4.0 ==> c == time
  {
    time - 4.0 * ((time / 4.0).Floor as real)
  }

  /** The cycle repeats every 4 units of local time. */
  lemma CyclePeriodic(time: real)
    requires time >= 0.0
    ensures CycleTime(time + 4.0) == CycleTime(time)
  {
    assert (time + 4.0) / 4.0 == time / 4.0 + 1.0;
  }

  /** One burst particle's velocity, from three Math.random() samples. */
  function BurstVelocity(sin: real -> real, cos: real -> real, rPhi: real, rTheta: real, rSpeed: real): (v: Vec3)
    requires Wave(sin) && Wave(cos) && Unit(rPhi) && Unit(rTheta) && Unit(rSpeed)
    ensures -0.2 < v.x < 0.2 && -0.2 < v.y < 0.2 && -0.2 < v.z < 0.2
  {
    var phi := rPhi * Pi * 2.0;
    var theta := rTheta * Pi;
    var speed := Scaled(rSpeed, 0.15) + 0.05;
    Vec3(Swing(Product(sin(theta), cos(phi)), speed),
         Swing(Product(sin(theta), sin(phi)), speed),
         Swing(cos(theta), speed))
  }

  /** Construction samples: phi, theta and speed for every burst particle. */
  predicate BurstSamples(rand: seq<real>) {
    |rand| == 3 * ParticleCount && AllUnit(rand)
  }

  /** The velocity table the construction loop draws, once per firecracker. */
  method DrawVelocities(sin: real -> real, cos: real -> real, rand: seq<real>) returns (vs: seq<Vec3>)
    requires Wave(sin) && Wave(cos) && BurstSamples(rand)
    ensures |vs| == ParticleCount
    ensures forall i :: 0 <= i < ParticleCount ==>
      vs[i] == BurstVelocity(sin, cos, rand[3 * i], rand[3 * i + 1], rand[3 * i + 2])
  {
    vs := [];
    for i := 0 to ParticleCount
      invariant |vs| == i
      invariant forall j :: 0 <= j < i ==>
        vs[j] == BurstVelocity(sin, cos, rand[3 * j], rand[3 * j + 1], rand[3 * j + 2])
    {
      vs := vs + [BurstVelocity(sin, cos, rand[3 * i], rand[3 * i + 1], rand[3 * i + 2])];
    }
  }

  /** Shift every trail point one slot toward the tail and put `p` in slot 0. */
  function RecordTrail(t: seq<real>, p: Vec3): (r: seq<real>)
    requires |t| >= 3
    ensures |r| == |t|
    ensures At(r, 0) == p
    ensures forall i :: 1 <= i < |t| && 3 * i + 2 < |t| ==> At(r, i) == At(t, i - 1)
  {
    [p.x, p.y, p.z] + t[..|t| - 3]
  }

  /** The trail after recording ps[0], then ps[1], and so on. */
  function RecordAll(t: seq<real>, ps: seq<Vec3>): (r: seq<real>)
    requires |t| >= 3
    ensures |r| == |t|
    decreases |ps|
  {
    if ps == [] then t else RecordAll(RecordTrail(t, ps[0]), ps[1..])
  }

  function Reversed(ps: seq<Vec3>): (r: seq<Vec3>)
    ensures |r| == |ps|
  {
    if ps == [] then [] else Reversed(ps[1..]) + [ps[0]]
  }

  /** Reversed puts the last point first: its slot i holds the original slot |ps| - 1 - i. */
  lemma {:induction false} ReversedAt(ps: seq<Vec3>, i: nat)
    requires i < |ps|
    ensures Reversed(ps)[i] == ps[|ps| - 1 - i]
    decreases |ps|
  {
    var rest := ps[1..];
    if i < |rest| {
      ReversedAt(rest, i);
      assert Reversed(ps)[i] == Reversed(rest)[i];
      assert rest[|rest| - 1 - i] == ps[|ps| - 1 - i];
    }
  }

  /**
   * After recording p1 .. pm into a trail of at least m points, the trail starts with
   * pm, .. , p1 (newest first) and continues with the newest |t|/3 - m points it held
   * before; its m oldest points are pushed out of the tail.
   */
  lemma {:induction false} TrailHistory(t: seq<real>, ps: seq<Vec3>)
    requires |t| >= 3 && 3 * |ps| <= |t|
    ensures RecordAll(t, ps) == Flatten(Reversed(ps)) + t[..|t| - 3 * |ps|]
    decreases |ps|
  {
    if ps != [] {
      var rest := ps[1..];
      var t' := RecordTrail(t, ps[0]);
      TrailHistory(t', rest);
      var rev := Reversed(rest);
      assert Reversed(ps) == rev + [ps[0]];
      assert (rev + [ps[0]])[..|rev|] == rev;
      assert Flatten(Reversed(ps)) == Flatten(rev) + [ps[0].x, ps[0].y, ps[0].z];
      assert t'[..|t| - 3 * |rest|] == [ps[0].x, ps[0].y, ps[0].z] + t[..|t| - 3 * |ps|];
    }
  }

  /** Thirty recordings into the 30-point trail leave exactly those points, newest first. */
  lemma TrailFull(t: seq<real>, ps: seq<Vec3>)
    requires |t| == 3 * TrailCount && |ps| == TrailCount
    ensures RecordAll(t, ps) == Flatten(Reversed(ps))
  {
    TrailHistory(t, ps);
  }

  /** One burst particle over one frame: its own velocity, and gravity on y. */
  function FlyParticle(p: Vec3, v: Vec3): Vec3 {
    Vec3(p.x + v.x, p.y + (v.y - Gravity), p.z + v.z)
  }

  /** The burst buffer over one frame. */
  function Burst(e: seq<real>, vs: seq<Vec3>): (r: seq<real>)
    requires |e| == 3 * |vs|
    ensures |r| == |e|
    ensures forall i :: 0 <= i < |vs| ==> At(r, i) == FlyParticle(At(e, i), vs[i])
  {
    var moved := seq(|vs|, i requires 0 <= i < |vs| => FlyParticle(At(e, i), vs[i]));
    AtFlattenAll(moved);
    Flatten(moved)
  }

  /** The burst buffer after n frames of flight. */
  function Fly(e: seq<real>, vs: seq<Vec3>, n: nat): (r: seq<real>)
    requires |e| == 3 * |vs|
    ensures |r| == |e|
  {
    if n == 0 then e else Burst(Fly(e, vs, n - 1), vs)
  }

  /** One more frame of flight moves each particle once, by its own velocity and gravity. */
  lemma FlyStep(e: seq<real>, vs: seq<Vec3>, n: nat, i: nat)
    requires |e| == 3 * |vs| && i < |vs|
    ensures At(Fly(e, vs, n + 1), i) == FlyParticle(At(Fly(e, vs, n), i), vs[i])
  {
    assert Fly(e, vs, n + 1) == Burst(Fly(e, vs, n), vs);
  }

  /** One more frame at a steady velocity: from (n - 1) frames' displacement to n frames'. */
  lemma LinearStep(n: nat, prev: Vec3, v: Vec3)
    requires n > 0
    requires prev == Vec3((n - 1) as real * v.x, (n - 1) as real * (v.y - Gravity), (n - 1) as real * v.z)
    ensures FlyParticle(prev, v) == Vec3(n as real * v.x, n as real * (v.y - Gravity), n as real * v.z)
  {
    var m := (n - 1) as real;
    assert n as real == m + 1.0;
    assert m * v.x + v.x == (m + 1.0) * v.x;
    assert m * (v.y - Gravity) + (v.y - Gravity) == (m + 1.0) * (v.y - Gravity);
    assert m * v.z + v.z == (m + 1.0) * v.z;
  }

  /** One particle flown on its own for n frames from p. */
  function Flight(p: Vec3, v: Vec3, n: nat): Vec3 {
    if n == 0 then p else FlyParticle(Flight(p, v, n - 1), v)
  }

  /** n frames of the whole burst buffer move each particle as if it flew on its own. */
  lemma {:induction false} FlyEachParticle(e: seq<real>, vs: seq<Vec3>, n: nat, i: nat)
    requires |e| == 3 * |vs| && i < |vs|
    ensures At(Fly(e, vs, n), i) == Flight(At(e, i), vs[i], n)
  {
    if n > 0 {
      FlyEachParticle(e, vs, n - 1, i);
      FlyStep(e, vs, n - 1, i);
    }
  }

  /** A particle flown from the origin for n frames is at n times its per-frame displacement. */
  lemma {:induction false} StraightLine(v: Vec3, n: nat)
    ensures Flight(Vec3(0.0, 0.0, 0.0), v, n)
      == Vec3(n as real * v.x, n as real * (v.y - Gravity), n as real * v.z)
  {
    if n > 0 {
      StraightLine(v, n - 1);
      LinearStep(n, Flight(Vec3(0.0, 0.0, 0.0), v, n - 1), v);
    }
  }

  /**
   * Starting from the cleared buffer, after n frames of flight each particle is at
   * n times its velocity, lowered by n times the gravity: a straight line.
   */
  lemma FlightIsLinear(vs: seq<Vec3>, n: nat, i: nat)
    requires i < |vs|
    ensures At(Fly(Zeros(|vs|), vs, n), i)
      == Vec3(n as real * vs[i].x, n as real * (vs[i].y - Gravity), n as real * vs[i].z)
  {
    assert At(Zeros(|vs|), i) == Vec3(0.0, 0.0, 0.0);
    FlyEachParticle(Zeros(|vs|), vs, n, i);
    StraightLine(vs[i], n);
  }

  /** Everything a frame reads or writes, as a value. */
  datatype Snapshot = Snapshot(
    isExploded: bool,
    explosionTime: real,
    rocketY: real,
    rocketVisible: bool,
    explosionVisible: bool,
    explosionOrigin: Vec3,
    trail: seq<real>,
    explosion: seq<real>,
    opacity: real,
    size: real)
  {
    predicate WellFormed() {
      |trail| == 3 * TrailCount && |explosion| == 3 * ParticleCount
    }
  }

  /** Rocket part of a frame at non-negative local time `time`. */
  function RocketPhase(s: Snapshot, baseY: real, time: real): Snapshot
    requires s.WellFormed() && time >= 0.0
  {
    if s.isExploded then s
    else
      var c := CycleTime(time);
      if c < 2.0 then
        var y := baseY + c * 4.0;
        s.(rocketY := y, rocketVisible := true, trail := RecordTrail(s.trail, Vec3(RocketX, y - 0.3, RocketZ)))
      else if c < 2.1 then
        s.(isExploded := true, explosionTime := time, rocketVisible := false,
           explosionOrigin := Vec3(RocketX, s.rocketY, RocketZ))
      else if c > 3.5 then
        s.(isExploded := false, rocketY := baseY)
      else s
  }

  function Max(a: real, b: real): real {
    if a >= b then a else b
  }

  /** Explosion part of a frame. */
  function ExplosionPhase(s: Snapshot, vs: seq<Vec3>, time: real): Snapshot
    requires s.WellFormed() && |vs| == ParticleCount
  {
    if !s.isExploded then s
    else
      var d := time - s.explosionTime;
      if d < 2.0 then
        s.(explosionVisible := true, explosion := Burst(s.explosion, vs),
           opacity := Max(0.0, 1.0 - d / 2.0), size := 0.15 * (1.0 + d))
      else
        s.(explosionVisible := false, explosion := Zeros(ParticleCount))
  }

  /** One frame at local time `time` (clock reading plus the instance's delay). */
  function Step(s: Snapshot, vs: seq<Vec3>, baseY: real, time: real): (r: Snapshot)
    requires s.WellFormed() && |vs| == ParticleCount
    ensures r.WellFormed()
    ensures time < 0.0 ==> r == s
    ensures s.isExploded ==>
      && r.isExploded && r.explosionTime == s.explosionTime
      && r.rocketY == s.rocketY && r.rocketVisible == s.rocketVisible && r.trail == s.trail
    ensures r.trail != s.trail ==> !s.isExploded && time >= 0.0 && CycleTime(time) < 2.0
  {
    if time < 0.0 then s else ExplosionPhase(RocketPhase(s, baseY, time), vs, time)
  }

  /** A rising frame: the rocket is at baseY + 4 * cycle time, shown, and recorded in the trail. */
  lemma RisingFrame(s: Snapshot, vs: seq<Vec3>, baseY: real, time: real)
    requires s.WellFormed() && |vs| == ParticleCount
    requires time >= 0.0 && !s.isExploded && CycleTime(time) < 2.0
    ensures var r := Step(s, vs, baseY, time);
      && r.rocketY == baseY + 4.0 * CycleTime(time)
      && baseY <= r.rocketY < baseY + 8.0
      && r.rocketVisible && !r.isExploded
      && r.trail == RecordTrail(s.trail, Vec3(RocketX, r.rocketY - 0.3, RocketZ))
      && r.explosion == s.explosion && r.explosionVisible == s.explosionVisible
  {
  }

  /**
   * A trigger frame: the burst starts now, at the rocket's current position; the rocket
   * is hidden but not moved, and the burst's first frame of flight happens in the same frame.
   */
  lemma TriggerFrame(s: Snapshot, vs: seq<Vec3>, baseY: real, time: real)
    requires s.WellFormed() && |vs| == ParticleCount
    requires time >= 0.0 && !s.isExploded && 2.0 <= CycleTime(time) < 2.1
    ensures var r := Step(s, vs, baseY, time);
      && r.isExploded && r.explosionTime == time
      && !r.rocketVisible && r.rocketY == s.rocketY && r.trail == s.trail
      && r.explosionOrigin == Vec3(RocketX, s.rocketY, RocketZ)
      && r.explosionVisible && r.opacity == 1.0 && r.size == 0.15
      && r.explosion == Burst(s.explosion, vs)
  {
  }

  /** Between 2.1 and 3.5 in the cycle, a frame of an unexploded rocket changes nothing. */
  lemma DeadZoneFrame(s: Snapshot, vs: seq<Vec3>, baseY: real, time: real)
    requires s.WellFormed() && |vs| == ParticleCount
    requires time >= 0.0 && !s.isExploded && 2.1 <= CycleTime(time) <= 3.5
    ensures Step(s, vs, baseY, time) == s
  {
  }

  /** Past 3.5 in the cycle, a frame of an unexploded rocket only puts it back at baseY. */
  lemma ResetFrame(s: Snapshot, vs: seq<Vec3>, baseY: real, time: real)
    requires s.WellFormed() && |vs| == ParticleCount
    requires time >= 0.0 && !s.isExploded && CycleTime(time) > 3.5
    ensures Step(s, vs, baseY, time) == s.(rocketY := baseY)
  {
  }

  /**
   * Within 2 units of the burst, whatever the cycle time was at the trigger, a frame flies
   * every particle once, and the opacity falls linearly from 1 while the size grows.
   */
  lemma FadeFrame(s: Snapshot, vs: seq<Vec3>, baseY: real, time: real)
    requires s.WellFormed() && |vs| == ParticleCount
    requires time >= 0.0 && s.isExploded && time - s.explosionTime < 2.0
    ensures var r := Step(s, vs, baseY, time);
      var d := time - s.explosionTime;
      && r.explosionVisible
      && r.explosion == Burst(s.explosion, vs)
      && r.opacity == Max(0.0, 1.0 - d / 2.0)
      && r.size == 0.15 * (1.0 + d)
      && (d >= 0.0 ==> 0.0 < r.opacity <= 1.0 && 0.15 <= r.size < 0.45)
  {
  }

  /** From 2 units after the burst on, every frame hides the burst and zeroes all 300 entries. */
  lemma ClearedFrame(s: Snapshot, vs: seq<Vec3>, baseY: real, time: real)
    requires s.WellFormed() && |vs| == ParticleCount
    requires time >= 0.0 && s.isExploded && time - s.explosionTime >= 2.0
    ensures var r := Step(s, vs, baseY, time);
      && !r.explosionVisible
      && |r.explosion| == 3 * ParticleCount
      && (forall k :: 0 <= k < |r.explosion| ==> r.explosion[k] == 0.0)
      && r.opacity == s.opacity && r.size == s.size
  {
  }

  /** The snapshot after one frame per element of `times`, in order. */
  function Run(s: Snapshot, vs: seq<Vec3>, baseY: real, times: seq<real>): (r: Snapshot)
    requires s.WellFormed() && |vs| == ParticleCount
    ensures r.WellFormed()
    decreases |times|
  {
    if times == [] then s else Run(Step(s, vs, baseY, times[0]), vs, baseY, times[1..])
  }

  /**
   * Once exploded, a firecracker stays exploded through any later frames, with the same
   * burst time, and its rocket and trail never change again: it never re-arms.
   */
  lemma {:induction false} NeverRearms(s: Snapshot, vs: seq<Vec3>, baseY: real, times: seq<real>)
    requires s.WellFormed() && |vs| == ParticleCount && s.isExploded
    ensures var r := Run(s, vs, baseY, times);
      && r.isExploded && r.explosionTime == s.explosionTime
      && r.rocketY == s.rocketY && r.rocketVisible == s.rocketVisible && r.trail == s.trail
    decreases |times|
  {
    if times != [] {
      NeverRearms(Step(s, vs, baseY, times[0]), vs, baseY, times[1..]);
    }
  }

  class Firecracker {
    const baseY: real              // y of the configured position
    const delay: real              // the per-instance offset added to the clock
    const velocities: seq<Vec3>    // drawn once, at construction
    var isExploded: bool
    var explosionTime: real
    var rocketY: real
    var rocketVisible: bool
    var explosionVisible: bool
    var explosionOrigin: Vec3
    const trail: array<real>
    const explosion: array<real>
    var opacity: real
    var size: real

    ghost predicate Valid()
      reads this
    {
      && trail.Length == 3 * TrailCount
      && explosion.Length == 3 * ParticleCount
      && |velocities| == ParticleCount
      && trail != explosion
    }

    ghost function State(): (s: Snapshot)
      reads this, trail, explosion
    {
      Snapshot(isExploded, explosionTime, rocketY, rocketVisible, explosionVisible, explosionOrigin,
               trail[..], explosion[..], opacity, size)
    }

    /** Before the first frame: unexploded, both buffers at the origin, burst hidden. */
    constructor (baseY: real, delay: real, sin: real -> real, cos: real -> real, rand: seq<real>)
      requires Wave(sin) && Wave(cos) && BurstSamples(rand)
      ensures Valid() && State().WellFormed()
      ensures this.baseY == baseY && this.delay == delay
      ensures fresh(trail) && fresh(explosion)
      ensures forall i :: 0 <= i < ParticleCount ==>
        velocities[i] == BurstVelocity(sin, cos, rand[3 * i], rand[3 * i + 1], rand[3 * i + 2])
      ensures State() == Snapshot(false, 0.0, 0.0, true, false, Vec3(0.0, 0.0, 0.0),
                                  Zeros(TrailCount), Zeros(ParticleCount), 1.0, 0.15)
    {
      this.baseY := baseY;
      this.delay := delay;
      var vs := DrawVelocities(sin, cos, rand);
      velocities := vs;
      isExploded := false;
      explosionTime := 0.0;
      rocketY := 0.0;
      rocketVisible := true;
      explosionVisible := false;
      explosionOrigin := Vec3(0.0, 0.0, 0.0);
      trail := new real[3 * TrailCount](_ => 0.0);
      explosion := new real[3 * ParticleCount](_ => 0.0);
      opacity := 1.0;
      size := 0.15;
      new;
      assert trail[..] == Zeros(TrailCount);
      assert explosion[..] == Zeros(ParticleCount);
    }

    /** The trail loop: from the tail down, each point takes its predecessor's place. */
    method RecordRocket(p: Vec3)
      requires Valid()
      modifies trail
      ensures trail[..] == RecordTrail(old(trail[..]), p)
    {
      var i := TrailCount - 1;
      while i > 0
        invariant 0 <= i <= TrailCount - 1
        invariant forall k :: 0 <= k < 3 * i + 3 ==> trail[k] == old(trail[k])
        invariant forall k :: 3 * i + 3 <= k < trail.Length ==> trail[k] == old(trail[k - 3])
      {
        trail[3 * i] := trail[3 * (i - 1)];
        trail[3 * i + 1] := trail[3 * (i - 1) + 1];
        trail[3 * i + 2] := trail[3 * (i - 1) + 2];
        i := i - 1;
      }
      trail[0] := p.x;
      trail[1] := p.y;
      trail[2] := p.z;
      assert trail[..] == [p.x, p.y, p.z] + old(trail[..])[..trail.Length - 3];
    }

    /** The flight loop: each particle moves by its velocity, with gravity on y. */
    method Fling()
      requires Valid()
      modifies explosion
      ensures explosion[..] == Burst(old(explosion[..]), velocities)
    {
      ghost var before := explosion[..];
      for i := 0 to ParticleCount
        invariant forall j :: 0 <= j < i ==> At(explosion[..], j) == FlyParticle(At(before, j), velocities[j])
        invariant forall k :: 3 * i <= k < explosion.Length ==> explosion[k] == before[k]
      {
        ghost var mid := explosion[..];
        var v := velocities[i];
        explosion[3 * i] := explosion[3 * i] + v.x;
        explosion[3 * i + 1] := explosion[3 * i + 1] + (v.y - Gravity);
        explosion[3 * i + 2] := explosion[3 * i + 2] + v.z;
        forall j | 0 <= j < i ensures At(explosion[..], j) == At(mid, j) {
        }
      }
      SameParticles(explosion[..], Burst(before, velocities), ParticleCount);
    }

    /** The reset loop: all 300 entries back to 0. */
    method Clear()
      requires Valid()
      modifies explosion
      ensures explosion[..] == Zeros(ParticleCount)
    {
      for k := 0 to explosion.Length
        invariant forall m :: 0 <= m < k ==> explosion[m] == 0.0
      {
        explosion[k] := 0.0;
      }
    }

    /** One animation frame at clock reading `clock`. */
    method Frame(clock: real)
      requires Valid()
      modifies this, trail, explosion
      ensures Valid()
      ensures State() == Step(old(State()), velocities, baseY, clock + delay)
    {
      var time := clock + delay;
      if time < 0.0 {
        return;
      }
      ghost var start := State();
      if !isExploded {
        var rocketTime := CycleTime(time);
        if rocketTime < 2.0 {
          rocketY := baseY + rocketTime * 4.0;
          rocketVisible := true;
          RecordRocket(Vec3(RocketX, rocketY - 0.3, RocketZ));
        } else if rocketTime >= 2.0 && rocketTime < 2.1 {
          isExploded := true;
          explosionTime := time;
          rocketVisible := false;
          explosionOrigin := Vec3(RocketX, rocketY, RocketZ);
        } else {
          if rocketTime > 3.5 {
            isExploded := false;
            rocketY := baseY;
          }
        }
      }
      assert State() == RocketPhase(start, baseY, time);
      ghost var mid := State();
      if isExploded {
        var explosionDuration := time - explosionTime;
        if explosionDuration < 2.0 {
          explosionVisible := true;
          Fling();
          opacity := Max(0.0, 1.0 - explosionDuration / 2.0);
          size := 0.15 * (1.0 + explosionDuration);
        } else {
          explosionVisible := false;
          Clear();
        }
      }
      assert State() == ExplosionPhase(mid, velocities, time);
    }
  }
}
