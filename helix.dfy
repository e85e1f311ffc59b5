/** The DNA helix at the centre of the scene: two strands of 60 samples each, wound twice
    around the vertical axis at radius 0.8 over a height of 8, half a turn apart, with a
    base-pair connector at every fourth sample.  The geometry is built once; each frame
    only spins the helix about the vertical axis. */
module Helix {
  import opened SceneMath

  const Segments: nat := 60
  const Radius: real := 0.8
  const Height: real := 8.0
  /** A base pair joins the strands at every sample whose index is a multiple of this. */
  const ConnectorStride: nat := 4
  const SpinRate: real := 0.2

  datatype Connector = Connector(start: Vec3, end: Vec3)

  datatype HelixGeometry = HelixGeometry(points1: seq<Vec3>, points2: seq<Vec3>, connectors: seq<Connector>)

  /** Height of sample i: the fraction i / 60 of the height, centred on 0. */
  function SampleY(i: nat): (y: real)
    ensures i == 0 ==> y == -4.0
    ensures i < Segments ==> -4.0 <= y < 4.0
  {
    (i as real / Segments as real) * Height - 4.0
  }

  /** Angle of sample i: two full turns over the 60 samples. */
  function SampleAngle(trig: Trig, i: nat): real
  {
    (i as real / Segments as real) * trig.pi * 4.0
  }

  /** A point of the first strand: on the circle of radius 0.8 at the sample's angle,
      at the sample's height. */
  function Strand1Point(trig: Trig, i: nat): (p: Vec3)
    ensures p.y == SampleY(i)
  {
    var a := SampleAngle(trig, i);
    Vec3(trig.cos(a) * Radius, SampleY(i), trig.sin(a) * Radius)
  }

  /** The second strand is the first one turned by pi. */
  function Strand2Point(trig: Trig, i: nat): (p: Vec3)
    ensures p.y == SampleY(i)
  {
    var a := SampleAngle(trig, i);
    Vec3(trig.cos(a + trig.pi) * Radius, SampleY(i), trig.sin(a + trig.pi) * Radius)
  }

  /** What the geometry built in the helix's constructor is. */
  ghost predicate IsHelix(trig: Trig, g: HelixGeometry)
  {
    && |g.points1| == Segments && |g.points2| == Segments
    && (forall i :: 0 <= i < Segments ==> g.points1[i] == Strand1Point(trig, i))
    && (forall i :: 0 <= i < Segments ==> g.points2[i] == Strand2Point(trig, i))
    && |g.connectors| == Segments / ConnectorStride
    && (forall c :: 0 <= c < |g.connectors| ==>
          g.connectors[c] == Connector(g.points1[ConnectorStride * c], g.points2[ConnectorStride * c]))
  }

  /** The first n samples of strand 1. */
  function Strand1Prefix(trig: Trig, n: nat): (s: seq<Vec3>)
    ensures |s| == n
  {
    if n == 0 then [] else Strand1Prefix(trig, n - 1) + [Strand1Point(trig, n - 1)]
  }

  /** The first n samples of strand 2. */
  function Strand2Prefix(trig: Trig, n: nat): (s: seq<Vec3>)
    ensures |s| == n
  {
    if n == 0 then [] else Strand2Prefix(trig, n - 1) + [Strand2Point(trig, n - 1)]
  }

  /** The connectors of the samples before index n. */
  function ConnectorsBefore(trig: Trig, n: nat): seq<Connector>
  {
    if n == 0 then []
    else if (n - 1) % ConnectorStride == 0 then
      ConnectorsBefore(trig, n - 1) + [Connector(Strand1Point(trig, n - 1), Strand2Point(trig, n - 1))]
    else ConnectorsBefore(trig, n - 1)
  }

  /** Samples the two strands, adding a connector between the latest pair of points
      whenever the sample index is a multiple of four. */
  method BuildHelix(trig: Trig) returns (g: HelixGeometry)
    ensures g == HelixGeometry(Strand1Prefix(trig, Segments), Strand2Prefix(trig, Segments),
                               ConnectorsBefore(trig, Segments))
    ensures IsHelix(trig, g)
    ensures |g.connectors| == 15
  {
    var points1: seq<Vec3> := [];
    var points2: seq<Vec3> := [];
    var connectors: seq<Connector> := [];
    var i := 0;
    while i < Segments
      invariant 0 <= i <= Segments
      invariant points1 == Strand1Prefix(trig, i) && points2 == Strand2Prefix(trig, i)
      invariant connectors == ConnectorsBefore(trig, i)
    {
      // t = i / 60, y = 8 t - 4, angle = 4 pi t: the formulas of Strand1Point and Strand2Point
      points1 := points1 + [Strand1Point(trig, i)];
      points2 := points2 + [Strand2Point(trig, i)];
      if i % ConnectorStride == 0 {
        connectors := connectors + [Connector(points1[|points1| - 1], points2[|points2| - 1])];
      }
      i := i + 1;
    }
    g := HelixGeometry(points1, points2, connectors);
    BuiltHelixShape(trig);
  }

  /** The point at index j of a strand prefix is that strand's j-th sample. */
  lemma {:induction false} PrefixPoints(trig: Trig, n: nat, j: nat)
    requires j < n
    ensures Strand1Prefix(trig, n)[j] == Strand1Point(trig, j)
    ensures Strand2Prefix(trig, n)[j] == Strand2Point(trig, j)
  {
    if j < n - 1 {
      PrefixPoints(trig, n - 1, j);
    }
  }

  /** Before index n there are ceil(n / 4) connectors, the c-th at sample 4c. */
  lemma {:induction false} ConnectorsBeforeShape(trig: Trig, n: nat)
    ensures ConnectorStride * |ConnectorsBefore(trig, n)| - ConnectorStride < n <= ConnectorStride * |ConnectorsBefore(trig, n)|
    ensures forall c :: 0 <= c < |ConnectorsBefore(trig, n)| ==>
              ConnectorsBefore(trig, n)[c] == Connector(Strand1Point(trig, ConnectorStride * c), Strand2Point(trig, ConnectorStride * c))
  {
    if n > 0 {
      ConnectorsBeforeShape(trig, n - 1);
      if (n - 1) % ConnectorStride == 0 {
        assert n - 1 == ConnectorStride * |ConnectorsBefore(trig, n - 1)|;
      }
    }
  }

  lemma BuiltHelixShape(trig: Trig)
    ensures IsHelix(trig, HelixGeometry(Strand1Prefix(trig, Segments), Strand2Prefix(trig, Segments),
                                        ConnectorsBefore(trig, Segments)))
    ensures |ConnectorsBefore(trig, Segments)| == 15
  {
    var g := HelixGeometry(Strand1Prefix(trig, Segments), Strand2Prefix(trig, Segments),
                           ConnectorsBefore(trig, Segments));
    forall j | 0 <= j < Segments
      ensures g.points1[j] == Strand1Point(trig, j) && g.points2[j] == Strand2Point(trig, j)
    {
      PrefixPoints(trig, Segments, j);
    }
    ConnectorsBeforeShape(trig, Segments);
  }

  /** A sample whose index is a multiple of four carries a connector. */
  lemma ConnectorAt(trig: Trig, g: HelixGeometry, i: nat)
    requires IsHelix(trig, g) && i < Segments
    ensures i % ConnectorStride == 0 ==>
              i / ConnectorStride < |g.connectors| &&
              g.connectors[i / ConnectorStride] == Connector(Strand1Point(trig, i), Strand2Point(trig, i))
  {
  }

  /** The samples climb evenly: 8/60 per step, so strictly upward. */
  lemma SamplesClimb(i: nat, j: nat)
    requires i < j
    ensures SampleY(j) - SampleY(i) == (j - i) as real * (Height / Segments as real)
    ensures SampleY(i) < SampleY(j)
  {
  }

  /** The two points of a sample are diametrically opposite about the vertical axis. */
  lemma StrandsOpposite(trig: Trig, i: nat)
    requires trig.Laws()
    ensures Strand2Point(trig, i) == Vec3(-Strand1Point(trig, i).x, Strand1Point(trig, i).y, -Strand1Point(trig, i).z)
  {
    var a := SampleAngle(trig, i);
    assert trig.cos(a + trig.pi) == -trig.cos(a) && trig.sin(a + trig.pi) == -trig.sin(a);
  }

  /** Every sample of either strand lies on the cylinder of radius 0.8 about the vertical axis. */
  lemma OnCylinder(trig: Trig, i: nat)
    requires trig.Laws()
    ensures var p := Strand1Point(trig, i); p.x * p.x + p.z * p.z == Radius * Radius
    ensures var q := Strand2Point(trig, i); q.x * q.x + q.z * q.z == Radius * Radius
  {
    var a := SampleAngle(trig, i);
    var c, s := trig.cos(a), trig.sin(a);
    assert s * s + c * c == 1.0;
    StrandsOpposite(trig, i);
    assert (c * Radius) * (c * Radius) + (s * Radius) * (s * Radius) == (c * c + s * s) * (Radius * Radius);
  }

  /** The two points of a sample are the diameter 1.6 apart. */
  lemma PairSpan(trig: Trig, i: nat)
    requires trig.Laws()
    ensures DistSq(Strand1Point(trig, i), Strand2Point(trig, i)) == (2.0 * Radius) * (2.0 * Radius)
  {
    var p, q := Strand1Point(trig, i), Strand2Point(trig, i);
    StrandsOpposite(trig, i);
    OnCylinder(trig, i);
    assert DistSq(p, q) == (2.0 * p.x) * (2.0 * p.x) + (2.0 * p.z) * (2.0 * p.z);
  }

  /** The helix: its geometry is fixed at construction; each frame sets its rotation about
      the vertical axis from the clock. */
  class HelixBody {
    const geometry: HelixGeometry
    var rotation: Vec3

    constructor (trig: Trig)
      ensures IsHelix(trig, geometry)
      ensures rotation == Origin
    {
      var g := BuildHelix(trig);
      geometry := g;
      rotation := Origin;
    }

    /** `rotation.y = elapsedTime * 0.2`. */
    method Frame(elapsed: real)
      modifies this
      ensures rotation == old(rotation).(y := elapsed * SpinRate)
    {
      rotation := rotation.(y := elapsed * SpinRate);
    }
  }
}
