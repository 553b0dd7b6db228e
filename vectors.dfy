/**
 * Shared vocabulary of the particle effects: three-component vectors, the flat
 * x0, y0, z0, x1, y1, z1, ... layout of a position buffer, and the two kinds of
 * caller-supplied input that stand for the browser's randomness and trigonometry.
 */
module Vectors {

  /** A point or a velocity, in the local coordinates of the object that owns it. */
  datatype Vec3 = Vec3(x: real, y: real, z: real)

  /** The value JavaScript's Math.PI denotes, as a decimal. */
  const Pi: real := 3.141592653589793

  function Add(p: Vec3, v: Vec3): Vec3 {
    Vec3(p.x + v.x, p.y + v.y, p.z + v.z)
  }

  /** Particle `i` of a flat buffer: entries 3i, 3i+1 and 3i+2. */
  function At(s: seq<real>, i: nat): Vec3
    requires 3 * i + 2 < |s|
  {
    Vec3(s[3 * i], s[3 * i + 1], s[3 * i + 2])
  }

  /** The flat buffer whose particle i is ps[i]. */
  function Flatten(ps: seq<Vec3>): (s: seq<real>)
    ensures |s| == 3 * |ps|
  {
    if ps == [] then []
    else
      var last := ps[|ps| - 1];
      Flatten(ps[..|ps| - 1]) + [last.x, last.y, last.z]
  }

  /** A buffer of n particles, all at the origin: what a fresh Float32Array holds. */
  function Zeros(n: nat): (s: seq<real>)
    ensures |s| == 3 * n
    ensures forall k :: 0 <= k < |s| ==> s[k] == 0.0
  {
    seq(3 * n, _ => 0.0)
  }

  lemma {:induction false} AtFlatten(ps: seq<Vec3>, i: nat)
    requires i < |ps|
    ensures At(Flatten(ps), i) == ps[i]
  {
    var pre := ps[..|ps| - 1];
    if i < |ps| - 1 {
      AtFlatten(pre, i);
      assert Flatten(ps)[..3 * |pre|] == Flatten(pre);
    }
  }

  lemma AtFlattenAll(ps: seq<Vec3>)
    ensures forall i :: 0 <= i < |ps| ==> At(Flatten(ps), i) == ps[i]
  {
    forall i | 0 <= i < |ps| ensures At(Flatten(ps), i) == ps[i] {
      AtFlatten(ps, i);
    }
  }

  /** A flat buffer is determined by its particles: it is the flattening of them. */
  lemma {:induction false} FlattenAt(s: seq<real>, ps: seq<Vec3>)
    requires |s| == 3 * |ps|
    requires forall i :: 0 <= i < |ps| ==> At(s, i) == ps[i]
    ensures s == Flatten(ps)
  {
    if ps != [] {
      var n := |ps| - 1;
      var pre := s[..3 * n];
      forall i | 0 <= i < n ensures At(pre, i) == ps[..n][i] {
        assert At(s, i) == ps[i];
      }
      FlattenAt(pre, ps[..n]);
      assert At(s, n) == ps[n];
      assert s == pre + [s[3 * n], s[3 * n + 1], s[3 * n + 2]];
    }
  }

  /** Two buffers of n particles that agree particle by particle are equal. */
  lemma SameParticles(a: seq<real>, b: seq<real>, n: nat)
    requires |a| == 3 * n && |b| == 3 * n
    requires forall i :: 0 <= i < n ==> At(a, i) == At(b, i)
    ensures a == b
  {
    var ps := seq(n, i requires 0 <= i < n => At(a, i));
    FlattenAt(a, ps);
    FlattenAt(b, ps);
  }

  /** A value Math.random() can return. */
  predicate Unit(r: real) {
    0.0 <= r < 1.0
  }

  /** A sequence of Math.random() results. */
  predicate AllUnit(rs: seq<real>) {
    forall k :: 0 <= k < |rs| ==> Unit(rs[k])
  }

  /** The one fact the model uses about Math.sin and Math.cos: their range. */
  ghost predicate Wave(f: real -> real) {
    forall t :: -1.0 <= f(t) <= 1.0
  }

  /** (Math.random() - 0.5) * w, the source's centred jitter: it lies in [-w/2, w/2). */
  function Centred(r: real, w: real): (j: real)
    requires Unit(r) && w > 0.0
    ensures -w / 2.0 <= j < w / 2.0
  {
    assert r * w < 1.0 * w;
    (r - 0.5) * w
  }

  /** Math.random() * w, the source's scaled sample: it lies in [0, w). */
  function Scaled(r: real, w: real): (j: real)
    requires Unit(r) && w > 0.0
    ensures 0.0 <= j < w
  {
    assert r * w < 1.0 * w;
    r * w
  }

  /** u * a for u a sine or cosine value: an oscillation of amplitude a. */
  function Swing(u: real, a: real): (s: real)
    requires -1.0 <= u <= 1.0 && a >= 0.0
    ensures -a <= s <= a
  {
    assert (1.0 - u) * a >= 0.0;
    assert (1.0 + u) * a >= 0.0;
    u * a
  }

  /** The product of two sine or cosine values is again within [-1, 1]. */
  function Product(a: real, b: real): (p: real)
    requires -1.0 <= a <= 1.0 && -1.0 <= b <= 1.0
    ensures p == a * b
    ensures -1.0 <= p <= 1.0
  {
    if a >= 0.0 then Swing(b, a) else -Swing(b, -a)
  }
}
