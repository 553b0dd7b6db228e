/**
 * The background galaxy: three nested layers of 5000 points each on a three-armed spiral,
 * generated once, and afterwards only turned. Particle i of every layer shares one random
 * radius and lies on arm i mod 3; each layer winds, scales, scatters and colours its
 * copy differently.
 */
module Galaxy {
  import opened Vectors

  const ParticleCount := 5000
  const MaxRadius := 50.0

  /** A colour as the renderer reads it from a colour buffer. */
  datatype Rgb = Rgb(r: real, g: real, b: real)

  /**
   * How a layer draws its copy of the spiral: the spin angle is multiplied by `spin`,
   * the radius by `scale`, the horizontal jitter spans `spread`, the vertical `thickness`.
   */
  datatype Layer = Layer(spin: real, scale: real, spread: real, thickness: real)

  const Outer := Layer(1.0, 1.0, 5.0, 10.0)
  const Middle := Layer(0.7, 0.8, 4.0, 8.0)
  const Core := Layer(1.3, 0.6, 3.0, 6.0)

  predicate Drawable(layer: Layer) {
    layer.scale > 0.0 && layer.spread > 0.0 && layer.thickness > 0.0
  }

  /** The radius drawn for a particle, shared by all three layers. */
  function Radius(r: real): (radius: real)
    requires Unit(r)
    ensures 0.0 <= radius < MaxRadius
  {
    Scaled(r, MaxRadius)
  }

  /** The angle of particle i's arm, (i mod 3) / 3 of a full turn: one of 0, 2π/3, 4π/3. */
  function BranchAngle(i: nat): (a: real)
    ensures a == 0.0 || a == 2.0 * Pi / 3.0 || a == 4.0 * Pi / 3.0
  {
    ((i % 3) as real / 3.0) * Pi * 2.0
  }

  /** Particles whose indices differ by a multiple of 3 share their arm. */
  lemma {:induction false} ArmsRepeat(i: nat, k: nat)
    ensures BranchAngle(i + 3 * k) == BranchAngle(i)
  {
    if k > 0 {
      ArmsRepeat(i, k - 1);
      assert i + 3 * k == (i + 3 * (k - 1)) + 3;
    }
  }

  /** The particles of a layer lie on exactly three arms. */
  lemma ThreeArms()
    ensures (set i | 0 <= i < ParticleCount :: BranchAngle(i)) == {0.0, 2.0 * Pi / 3.0, 4.0 * Pi / 3.0}
    ensures |set i | 0 <= i < ParticleCount :: BranchAngle(i)| == 3
  {
    var arms := set i | 0 <= i < ParticleCount :: BranchAngle(i);
    var three := {0.0, 2.0 * Pi / 3.0, 4.0 * Pi / 3.0};
    assert BranchAngle(0) == 0.0 && BranchAngle(1) == 2.0 * Pi / 3.0 && BranchAngle(2) == 4.0 * Pi / 3.0;
    assert BranchAngle(0) in arms && BranchAngle(1) in arms && BranchAngle(2) in arms;
    assert three <= arms;
    assert arms <= three;
  }

  /** The angle at which particle i of `layer` sits, before jitter. */
  function Angle(layer: Layer, i: nat, radius: real): real {
    BranchAngle(i) + radius * 0.5 * layer.spin
  }

  /** How far from the axis a layer puts its arm point: the radius times the layer's scale. */
  function Reach(layer: Layer, radius: real): (reach: real)
    requires Drawable(layer) && 0.0 <= radius < MaxRadius
    ensures 0.0 <= reach < MaxRadius * layer.scale
  {
    assert radius * layer.scale < MaxRadius * layer.scale;
    assert radius * layer.scale >= 0.0 * layer.scale;
    radius * layer.scale
  }

  /**
   * Particle i of `layer`: on its arm, wound by its radius and scattered by three
   * Math.random() samples; the scatter is within half the spread horizontally and half
   * the thickness vertically, so the whole layer fits a box around the galaxy's axis.
   */
  function Point(layer: Layer, i: nat, radius: real, rx: real, ry: real, rz: real,
                 sin: real -> real, cos: real -> real): (p: Vec3)
    requires Drawable(layer) && 0.0 <= radius < MaxRadius && Unit(rx) && Unit(ry) && Unit(rz)
    requires Wave(sin) && Wave(cos)
    ensures -layer.spread / 2.0 <= p.x - cos(Angle(layer, i, radius)) * (radius * layer.scale) < layer.spread / 2.0
    ensures -layer.thickness / 2.0 <= p.y < layer.thickness / 2.0
    ensures -layer.spread / 2.0 <= p.z - sin(Angle(layer, i, radius)) * (radius * layer.scale) < layer.spread / 2.0
    ensures -MaxRadius * layer.scale - layer.spread / 2.0 < p.x < MaxRadius * layer.scale + layer.spread / 2.0
    ensures -MaxRadius * layer.scale - layer.spread / 2.0 < p.z < MaxRadius * layer.scale + layer.spread / 2.0
  {
    var angle := Angle(layer, i, radius);
    var reach := Reach(layer, radius);
    Vec3(Swing(cos(angle), reach) + Centred(rx, layer.spread),
         Centred(ry, layer.thickness),
         Swing(sin(angle), reach) + Centred(rz, layer.spread))
  }

  /** Every point of the outer layer is within height 5 of level and within 2.5 of its arm point, at arm scale 1. */
  lemma OuterBox(i: nat, radius: real, rx: real, ry: real, rz: real, sin: real -> real, cos: real -> real)
    requires 0.0 <= radius < MaxRadius && Unit(rx) && Unit(ry) && Unit(rz) && Wave(sin) && Wave(cos)
    ensures var p := Point(Outer, i, radius, rx, ry, rz, sin, cos);
      && -5.0 <= p.y < 5.0
      && -2.5 <= p.x - cos(Angle(Outer, i, radius)) * radius < 2.5
      && -2.5 <= p.z - sin(Angle(Outer, i, radius)) * radius < 2.5
  {
    assert Outer.scale == 1.0 && Outer.thickness / 2.0 == 5.0 && Outer.spread / 2.0 == 2.5;
  }

  /** Every point of the middle layer is within height 4 of level and within 2 of its arm point, at arm scale 0.8. */
  lemma MiddleBox(i: nat, radius: real, rx: real, ry: real, rz: real, sin: real -> real, cos: real -> real)
    requires 0.0 <= radius < MaxRadius && Unit(rx) && Unit(ry) && Unit(rz) && Wave(sin) && Wave(cos)
    ensures var p := Point(Middle, i, radius, rx, ry, rz, sin, cos);
      && -4.0 <= p.y < 4.0
      && -2.0 <= p.x - cos(Angle(Middle, i, radius)) * (radius * 0.8) < 2.0
      && -2.0 <= p.z - sin(Angle(Middle, i, radius)) * (radius * 0.8) < 2.0
  {
    assert Middle.scale == 0.8 && Middle.thickness / 2.0 == 4.0 && Middle.spread / 2.0 == 2.0;
  }

  /** Every point of the core layer is within height 3 of level and within 1.5 of its arm point, at arm scale 0.6. */
  lemma CoreBox(i: nat, radius: real, rx: real, ry: real, rz: real, sin: real -> real, cos: real -> real)
    requires 0.0 <= radius < MaxRadius && Unit(rx) && Unit(ry) && Unit(rz) && Wave(sin) && Wave(cos)
    ensures var p := Point(Core, i, radius, rx, ry, rz, sin, cos);
      && -3.0 <= p.y < 3.0
      && -1.5 <= p.x - cos(Angle(Core, i, radius)) * (radius * 0.6) < 1.5
      && -1.5 <= p.z - sin(Angle(Core, i, radius)) * (radius * 0.6) < 1.5
  {
    assert Core.scale == 0.6 && Core.thickness / 2.0 == 3.0 && Core.spread / 2.0 == 1.5;
  }

  /** Particle i's colour in a layer: the palette entry i mod the palette's length. */
  function Shade(palette: seq<Rgb>, i: nat): Rgb
    requires |palette| > 0
  {
    palette[i % |palette|]
  }

  function ColourAt(s: seq<real>, i: nat): Rgb
    requires 3 * i + 2 < |s|
  {
    Rgb(s[3 * i], s[3 * i + 1], s[3 * i + 2])
  }

  /** Generation samples: ten Math.random() results for every particle. */
  predicate GalaxySamples(rand: seq<real>) {
    |rand| == 10 * ParticleCount && AllUnit(rand)
  }

  /**
   * The first n particles of one layer are written: positions from the samples at
   * 10j + offset .. 10j + offset + 2, colours from the palette.
   */
  ghost predicate Filled(positions: seq<real>, colours: seq<real>, layer: Layer, palette: seq<Rgb>,
                         rand: seq<real>, offset: nat, sin: real -> real, cos: real -> real, n: nat)
  {
    && GalaxySamples(rand) && Wave(sin) && Wave(cos) && Drawable(layer) && |palette| > 0
    && 1 <= offset <= 7 && n <= ParticleCount
    && |positions| == |colours| == 3 * ParticleCount
    && forall j :: 0 <= j < n ==>
      && At(positions, j) == Point(layer, j, Radius(rand[10 * j]), rand[10 * j + offset],
                                       rand[10 * j + offset + 1], rand[10 * j + offset + 2], sin, cos)
      && ColourAt(colours, j) == Shade(palette, j)
  }

  /** A layer filled up to ParticleCount holds every particle's point and colour. */
  lemma Complete(positions: array<real>, colours: array<real>, layer: Layer, palette: seq<Rgb>,
                 rand: seq<real>, offset: nat, sin: real -> real, cos: real -> real)
    requires Filled(positions[..], colours[..], layer, palette, rand, offset, sin, cos, ParticleCount)
    ensures forall i :: 0 <= i < ParticleCount ==>
      && At(positions[..], i) == Point(layer, i, Radius(rand[10 * i]), rand[10 * i + offset],
                                       rand[10 * i + offset + 1], rand[10 * i + offset + 2], sin, cos)
      && ColourAt(colours[..], i) == Shade(palette, i)
  {
  }

  /** Writes particle i of one layer: its position triple and its colour triple. */
  method Place(positions: array<real>, colours: array<real>, layer: Layer, palette: seq<Rgb>,
               rand: seq<real>, offset: nat, sin: real -> real, cos: real -> real, i: nat)
    requires positions != colours && i < ParticleCount
    requires Filled(positions[..], colours[..], layer, palette, rand, offset, sin, cos, i)
    modifies positions, colours
    ensures Filled(positions[..], colours[..], layer, palette, rand, offset, sin, cos, i + 1)
    ensures forall k :: 0 <= k < positions.Length && !(3 * i <= k < 3 * i + 3) ==>
      positions[k] == old(positions[k])
    ensures forall k :: 0 <= k < colours.Length && !(3 * i <= k < 3 * i + 3) ==>
      colours[k] == old(colours[k])
  {
    var p := Point(layer, i, Radius(rand[10 * i]), rand[10 * i + offset], rand[10 * i + offset + 1],
                   rand[10 * i + offset + 2], sin, cos);
    var colour := Shade(palette, i);
    ghost var before := positions[..];
    ghost var tints := colours[..];
    positions[3 * i] := p.x;
    positions[3 * i + 1] := p.y;
    positions[3 * i + 2] := p.z;
    colours[3 * i] := colour.r;
    colours[3 * i + 1] := colour.g;
    colours[3 * i + 2] := colour.b;
    forall j | 0 <= j < i + 1
      ensures At(positions[..], j) == Point(layer, j, Radius(rand[10 * j]), rand[10 * j + offset],
                                            rand[10 * j + offset + 1], rand[10 * j + offset + 2], sin, cos)
      ensures ColourAt(colours[..], j) == Shade(palette, j)
    {
      if j < i {
        assert At(positions[..], j) == At(before, j);
        assert ColourAt(colours[..], j) == ColourAt(tints, j);
      }
    }
  }

  /**
   * The generation loop. For particle i it draws the radius (sample 10i), then the x, y, z
   * scatter of the outer (10i+1 .. 10i+3), middle (10i+4 .. 10i+6) and core (10i+7 .. 10i+9)
   * layers, and gives each layer the colour its palette holds at i mod 3.
   */
  method Generate(rand: seq<real>, palette1: seq<Rgb>, palette2: seq<Rgb>, palette3: seq<Rgb>,
                  sin: real -> real, cos: real -> real)
    returns (positions1: array<real>, positions2: array<real>, positions3: array<real>,
             colours1: array<real>, colours2: array<real>, colours3: array<real>)
    requires GalaxySamples(rand) && Wave(sin) && Wave(cos)
    requires |palette1| > 0 && |palette2| > 0 && |palette3| > 0
    ensures fresh(positions1) && fresh(positions2) && fresh(positions3)
    ensures fresh(colours1) && fresh(colours2) && fresh(colours3)
    ensures positions1.Length == positions2.Length == positions3.Length == 3 * ParticleCount
    ensures colours1.Length == colours2.Length == colours3.Length == 3 * ParticleCount
    ensures forall i :: 0 <= i < ParticleCount ==>
      && At(positions1[..], i) == Point(Outer, i, Radius(rand[10 * i]), rand[10 * i + 1], rand[10 * i + 2], rand[10 * i + 3], sin, cos)
      && At(positions2[..], i) == Point(Middle, i, Radius(rand[10 * i]), rand[10 * i + 4], rand[10 * i + 5], rand[10 * i + 6], sin, cos)
      && At(positions3[..], i) == Point(Core, i, Radius(rand[10 * i]), rand[10 * i + 7], rand[10 * i + 8], rand[10 * i + 9], sin, cos)
    ensures forall i :: 0 <= i < ParticleCount ==>
      && ColourAt(colours1[..], i) == Shade(palette1, i)
      && ColourAt(colours2[..], i) == Shade(palette2, i)
      && ColourAt(colours3[..], i) == Shade(palette3, i)
  {
    positions1 := new real[3 * ParticleCount];
    positions2 := new real[3 * ParticleCount];
    positions3 := new real[3 * ParticleCount];
    colours1 := new real[3 * ParticleCount];
    colours2 := new real[3 * ParticleCount];
    colours3 := new real[3 * ParticleCount];
    for i := 0 to ParticleCount
      invariant positions1 != colours1 && positions2 != colours2 && positions3 != colours3
      invariant Filled(positions1[..], colours1[..], Outer, palette1, rand, 1, sin, cos, i)
      invariant Filled(positions2[..], colours2[..], Middle, palette2, rand, 4, sin, cos, i)
      invariant Filled(positions3[..], colours3[..], Core, palette3, rand, 7, sin, cos, i)
    {
      ghost var middle, core := positions2[..], positions3[..];
      ghost var middleTints, coreTints := colours2[..], colours3[..];
      Place(positions1, colours1, Outer, palette1, rand, 1, sin, cos, i);
      assert positions2[..] == middle && colours2[..] == middleTints;
      assert positions3[..] == core && colours3[..] == coreTints;
      ghost var outer, outerTints := positions1[..], colours1[..];
      Place(positions2, colours2, Middle, palette2, rand, 4, sin, cos, i);
      assert positions1[..] == outer && colours1[..] == outerTints;
      assert positions3[..] == core && colours3[..] == coreTints;
      ghost var middleDone, middleTintsDone := positions2[..], colours2[..];
      Place(positions3, colours3, Core, palette3, rand, 7, sin, cos, i);
      assert positions1[..] == outer && colours1[..] == outerTints;
      assert positions2[..] == middleDone && colours2[..] == middleTintsDone;
    }
    Complete(positions1, colours1, Outer, palette1, rand, 1, sin, cos);
    Complete(positions2, colours2, Middle, palette2, rand, 4, sin, cos);
    Complete(positions3, colours3, Core, palette3, rand, 7, sin, cos);
  }

  /** The rotation angles a frame assigns: the group's turn, and each layer's turn and tilt. */
  datatype Rotations = Rotations(
    groupY: real,
    layer1Y: real, layer1Z: real,
    layer2Y: real, layer2Z: real,
    layer3Y: real, layer3Z: real)

  /**
   * The rotations at clock reading `time`: every turn about y grows linearly with time,
   * at its own rate, and every tilt about z stays within 0.1 of level.
   */
  function Turn(time: real, sin: real -> real, cos: real -> real): (r: Rotations)
    requires Wave(sin) && Wave(cos)
    ensures r.groupY == 0.05 * time
    ensures r.layer1Y == 0.02 * time && r.layer2Y == 0.03 * time && r.layer3Y == 0.04 * time
    ensures -0.1 <= r.layer1Z <= 0.1 && -0.1 <= r.layer2Z <= 0.1 && -0.1 <= r.layer3Z <= 0.1
  {
    Rotations(time * 0.05,
              time * 0.02, Swing(sin(time * 0.1), 0.1),
              time * 0.03, Swing(cos(time * 0.15), 0.1),
              time * 0.04, Swing(sin(time * 0.12), 0.1))
  }

  class Galaxy {
    const positions1: array<real>
    const positions2: array<real>
    const positions3: array<real>
    const colours1: array<real>
    const colours2: array<real>
    const colours3: array<real>
    var rotations: Rotations

    ghost predicate Valid()
      reads this
    {
      && positions1.Length == positions2.Length == positions3.Length == 3 * ParticleCount
      && colours1.Length == colours2.Length == colours3.Length == 3 * ParticleCount
    }

    /** Generates the three layers once, unrotated. */
    constructor (rand: seq<real>, palette1: seq<Rgb>, palette2: seq<Rgb>, palette3: seq<Rgb>,
                 sin: real -> real, cos: real -> real)
      requires GalaxySamples(rand) && Wave(sin) && Wave(cos)
      requires |palette1| > 0 && |palette2| > 0 && |palette3| > 0
      ensures Valid()
      ensures fresh(positions1) && fresh(positions2) && fresh(positions3)
      ensures fresh(colours1) && fresh(colours2) && fresh(colours3)
      ensures forall i :: 0 <= i < ParticleCount ==>
        && At(positions1[..], i) == Point(Outer, i, Radius(rand[10 * i]), rand[10 * i + 1], rand[10 * i + 2], rand[10 * i + 3], sin, cos)
        && At(positions2[..], i) == Point(Middle, i, Radius(rand[10 * i]), rand[10 * i + 4], rand[10 * i + 5], rand[10 * i + 6], sin, cos)
        && At(positions3[..], i) == Point(Core, i, Radius(rand[10 * i]), rand[10 * i + 7], rand[10 * i + 8], rand[10 * i + 9], sin, cos)
      ensures forall i :: 0 <= i < ParticleCount ==>
        && ColourAt(colours1[..], i) == Shade(palette1, i)
        && ColourAt(colours2[..], i) == Shade(palette2, i)
        && ColourAt(colours3[..], i) == Shade(palette3, i)
      ensures rotations == Rotations(0.0, 0.0, 0.0, 0.0, 0.0, 0.0, 0.0)
    {
      var p1, p2, p3, c1, c2, c3 := Generate(rand, palette1, palette2, palette3, sin, cos);
      positions1, positions2, positions3 := p1, p2, p3;
      colours1, colours2, colours3 := c1, c2, c3;
      rotations := Rotations(0.0, 0.0, 0.0, 0.0, 0.0, 0.0, 0.0);
    }

    /** One animation frame: only the rotations change; no point or colour is touched. */
    method Frame(clock: real, sin: real -> real, cos: real -> real)
      requires Valid() && Wave(sin) && Wave(cos)
      modifies this
      ensures Valid()
      ensures rotations == Turn(clock, sin, cos)
      ensures positions1[..] == old(positions1[..]) && positions2[..] == old(positions2[..])
      ensures positions3[..] == old(positions3[..])
      ensures colours1[..] == old(colours1[..]) && colours2[..] == old(colours2[..])
      ensures colours3[..] == old(colours3[..])
    {
      var time := clock;
      rotations := rotations.(groupY := time * 0.05);
      rotations := rotations.(layer1Y := time * 0.02, layer1Z := sin(time * 0.1) * 0.1);
      rotations := rotations.(layer2Y := time * 0.03, layer2Z := cos(time * 0.15) * 0.1);
      rotations := rotations.(layer3Y := time * 0.04, layer3Z := sin(time * 0.12) * 0.1);
    }
  }
}
