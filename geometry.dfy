/** The UV-sphere parametrisation of kg-opentk/Common/Sphere.cs as pure functions:
    where stack row i and sector column j put their vertex, normal and texture
    coordinate, and what the three flat lists filled by CalculateVertecies hold,
    in generation order (stack row outer, sector column inner). */
module Geometry {
  import opened Sequences

  /** Math.PI rounded to single precision, as the generator's `const float PI`. */
  const Pi: real := 3.1415927410125732421875

  /** Radius, center, resolution, and the trigonometric functions the generator
      calls (Math.Cos and Math.Sin followed by the cast to float). */
  datatype SphereParams = SphereParams(
    R: real, X: real, Y: real, Z: real,
    SectorCount: nat, StackCount: nat,
    Cos: real -> real, Sin: real -> real)

  /** The generator divides by R and by both counts. */
  predicate WellFormed(p: SphereParams)
  {
    p.R != 0.0 && p.SectorCount >= 1 && p.StackCount >= 1
  }

  /** Vertices per stack row: the seam column is emitted twice (j = 0 and j = SectorCount). */
  function Columns(p: SphereParams): nat
  {
    p.SectorCount + 1
  }

  function VertexCount(p: SphereParams): nat
  {
    (p.StackCount + 1) * Columns(p)
  }

  /** Position of vertex (i, j) in generation order. */
  function Index(p: SphereParams, i: nat, j: nat): nat
  {
    i * Columns(p) + j
  }

  function SectorStep(p: SphereParams): real
    requires WellFormed(p)
  {
    2.0 * Pi / p.SectorCount as real
  }

  function StackStep(p: SphereParams): real
    requires WellFormed(p)
  {
    Pi / p.StackCount as real
  }

  /** Latitude of stack row i: from the north pole (pi/2) down to the south pole (-pi/2). */
  function StackAngle(p: SphereParams, i: nat): (a: real)
    requires WellFormed(p)
    ensures i == 0 ==> a == Pi / 2.0
    ensures i == p.StackCount ==> a == -Pi / 2.0
  {
    var n := p.StackCount as real;
    assert n * (Pi / n) == Pi;
    Pi / 2.0 - i as real * StackStep(p)
  }

  /** Longitude of sector column j: from 0 round to 2 pi. */
  function SectorAngle(p: SphereParams, j: nat): (a: real)
    requires WellFormed(p)
    ensures j == 0 ==> a == 0.0
    ensures j == p.SectorCount ==> a == 2.0 * Pi
  {
    var n := p.SectorCount as real;
    assert n * (2.0 * Pi / n) == 2.0 * Pi;
    j as real * SectorStep(p)
  }

  /** `xy`: distance of stack row i from the polar axis, computed once per row. */
  function RowRadius(p: SphereParams, i: nat): real
    requires WellFormed(p)
  {
    p.R * p.Cos(StackAngle(p, i))
  }

  /** `z`: height of stack row i above the center, computed once per row. */
  function RowHeight(p: SphereParams, i: nat): real
    requires WellFormed(p)
  {
    p.R * p.Sin(StackAngle(p, i))
  }

  /** Local `x` and `y` of vertex (i, j), before the center is added. */
  function LocalX(p: SphereParams, i: nat, j: nat): real
    requires WellFormed(p)
  {
    RowRadius(p, i) * p.Cos(SectorAngle(p, j))
  }

  function LocalY(p: SphereParams, i: nat, j: nat): real
    requires WellFormed(p)
  {
    RowRadius(p, i) * p.Sin(SectorAngle(p, j))
  }

  /** `lengthInv`: the normal is the local position scaled by 1/R. */
  function LengthInv(p: SphereParams): real
    requires WellFormed(p)
  {
    1.0 / p.R
  }

  /** The three per-vertex attributes, one flat list each. */
  datatype Attribute = Position | Normal | TexCoord

  /** Floats per vertex in an attribute's list. */
  function Width(a: Attribute): nat
  {
    match a
    case Position => 3
    case Normal => 3
    case TexCoord => 2
  }

  /** The floats appended for vertex (i, j) to the list of attribute a. */
  function Floats(p: SphereParams, a: Attribute, i: nat, j: nat): (r: seq<real>)
    requires WellFormed(p)
    ensures |r| == Width(a)
  {
    match a
    case Position =>
      [LocalX(p, i, j) + p.X, LocalY(p, i, j) + p.Y, RowHeight(p, i) + p.Z]
    case Normal =>
      [LocalX(p, i, j) * LengthInv(p), LocalY(p, i, j) * LengthInv(p), RowHeight(p, i) * LengthInv(p)]
    case TexCoord =>
      [j as real / p.SectorCount as real, i as real / p.StackCount as real]
  }

  /** Floats unfolded into the three displays, one per list. This is an unfolding aid for
      AddVertex, which compares its own displays with these, not a property of the sphere. */
  lemma VertexFloats(p: SphereParams, i: nat, j: nat)
    requires WellFormed(p)
    ensures Floats(p, Position, i, j) == [LocalX(p, i, j) + p.X, LocalY(p, i, j) + p.Y, RowHeight(p, i) + p.Z]
    ensures Floats(p, Normal, i, j)
         == [LocalX(p, i, j) * LengthInv(p), LocalY(p, i, j) * LengthInv(p), RowHeight(p, i) * LengthInv(p)]
    ensures Floats(p, TexCoord, i, j) == [j as real / p.SectorCount as real, i as real / p.StackCount as real]
  {
    var nrm := Floats(p, Normal, i, j);
    assert nrm[0] == LocalX(p, i, j) * LengthInv(p);
    assert nrm[1] == LocalY(p, i, j) * LengthInv(p);
    assert nrm[2] == RowHeight(p, i) * LengthInv(p);
  }

  /** One more vertex of row i appends its floats. */
  lemma EmittedStep(p: SphereParams, a: Attribute, i: nat, j: nat)
    requires WellFormed(p) && j < Columns(p)
    ensures Emitted(p, a, i, j + 1) == Emitted(p, a, i, j) + Floats(p, a, i, j)
  {
  }

  /** The same step seen from a list that already held base before generation started. */
  lemma EmittedExtend(p: SphereParams, a: Attribute, base: seq<real>, i: nat, j: nat)
    requires WellFormed(p) && j < Columns(p)
    ensures base + Emitted(p, a, i, j) + Floats(p, a, i, j) == base + Emitted(p, a, i, j + 1)
  {
    EmittedStep(p, a, i, j);
  }

  /** Finishing row i is starting row i + 1. */
  lemma EmittedNextRow(p: SphereParams, a: Attribute, base: seq<real>, i: nat)
    requires WellFormed(p)
    ensures base + Emitted(p, a, i, Columns(p)) == base + Emitted(p, a, i + 1, 0)
  {
  }

  /** The list of attribute a after rows 0..i-1 and the first j vertices of row i. */
  function Emitted(p: SphereParams, a: Attribute, i: nat, j: nat): seq<real>
    requires WellFormed(p) && j <= Columns(p)
    decreases i, j
  {
    if j > 0 then Emitted(p, a, i, j - 1) + Floats(p, a, i, j - 1)
    else if i > 0 then Emitted(p, a, i - 1, Columns(p))
    else []
  }

  /** The complete list of attribute a: rows 0..StackCount. */
  function Generated(p: SphereParams, a: Attribute): seq<real>
    requires WellFormed(p)
  {
    Emitted(p, a, p.StackCount + 1, 0)
  }

  lemma {:induction false} EmittedLength(p: SphereParams, a: Attribute, i: nat, j: nat)
    requires WellFormed(p) && j <= Columns(p)
    ensures |Emitted(p, a, i, j)| == Width(a) * Index(p, i, j)
    decreases i, j
  {
    if j > 0 {
      EmittedLength(p, a, i, j - 1);
    } else if i > 0 {
      EmittedLength(p, a, i - 1, Columns(p));
      assert (i - 1) * Columns(p) + Columns(p) == i * Columns(p);
    }
  }

  /** Every vertex emitted before step (i2, j2) sits in its own slot of Width(a) floats. */
  lemma {:induction false} EmittedAt(p: SphereParams, a: Attribute, i: nat, j: nat, i2: nat, j2: nat)
    requires WellFormed(p) && j < Columns(p) && j2 <= Columns(p)
    requires i < i2 || (i == i2 && j < j2)
    ensures Width(a) * Index(p, i, j) + Width(a) <= |Emitted(p, a, i2, j2)|
    ensures Emitted(p, a, i2, j2)[Width(a) * Index(p, i, j)..Width(a) * Index(p, i, j) + Width(a)]
         == Floats(p, a, i, j)
    decreases i2, j2
  {
    var lo := Width(a) * Index(p, i, j);
    if j2 > 0 {
      var prev := Emitted(p, a, i2, j2 - 1);
      var cur := Floats(p, a, i2, j2 - 1);
      assert Emitted(p, a, i2, j2) == prev + cur;
      if i == i2 && j == j2 - 1 {
        assert |prev| == lo by {
          EmittedLength(p, a, i2, j2 - 1);
        }
        ConcatRight(prev, cur, lo, Width(a));
      } else {
        assert lo + Width(a) <= |prev| && prev[lo..lo + Width(a)] == Floats(p, a, i, j) by {
          EmittedAt(p, a, i, j, i2, j2 - 1);
        }
        ConcatLeft(prev, cur, lo, lo + Width(a));
      }
    } else {
      EmittedAt(p, a, i, j, i2 - 1, Columns(p));
    }
  }

  lemma ConcatLeft(a: seq<real>, b: seq<real>, lo: nat, hi: nat)
    requires lo <= hi <= |a|
    ensures (a + b)[lo..hi] == a[lo..hi]
  {
  }

  /** Each list holds Width(a) floats for each of the (StackCount+1)*(SectorCount+1) vertices. */
  lemma GeneratedLength(p: SphereParams, a: Attribute)
    requires WellFormed(p)
    ensures |Generated(p, a)| == Width(a) * (p.StackCount + 1) * (p.SectorCount + 1)
  {
    EmittedLength(p, a, p.StackCount + 1, 0);
  }

  /** Row-major layout: vertex (i, j) is vertex number i*(SectorCount+1)+j of every list. */
  lemma Layout(p: SphereParams, a: Attribute, i: nat, j: nat)
    requires WellFormed(p) && i <= p.StackCount && j <= p.SectorCount
    ensures Index(p, i, j) < VertexCount(p)
    ensures |Generated(p, a)| == Width(a) * VertexCount(p)
    ensures Generated(p, a)[Width(a) * Index(p, i, j)..Width(a) * Index(p, i, j) + Width(a)]
         == Floats(p, a, i, j)
  {
    EmittedLength(p, a, p.StackCount + 1, 0);
    EmittedAt(p, a, i, j, p.StackCount + 1, 0);
    IndexBound(p, i, j);
  }

  lemma IndexBound(p: SphereParams, i: nat, j: nat)
    requires i <= p.StackCount && j <= p.SectorCount
    ensures Index(p, i, j) < VertexCount(p)
  {
    var c := Columns(p);
    assert (p.StackCount + 1) * c == p.StackCount * c + c;
    assert i * c <= p.StackCount * c by {
      assert p.StackCount * c == i * c + (p.StackCount - i) * c;
    }
  }

  /** Float c of vertex (i, j) in the list of attribute a. */
  lemma LayoutAt(p: SphereParams, a: Attribute, i: nat, j: nat, c: nat)
    requires WellFormed(p) && i <= p.StackCount && j <= p.SectorCount && c < Width(a)
    ensures Width(a) * Index(p, i, j) + c < |Generated(p, a)|
    ensures Generated(p, a)[Width(a) * Index(p, i, j) + c] == Floats(p, a, i, j)[c]
  {
    Layout(p, a, i, j);
    var lo := Width(a) * Index(p, i, j);
    assert Generated(p, a)[lo + c] == Generated(p, a)[lo..lo + Width(a)][c];
  }

  /** Positions, normals and texture coordinates are filled in lock-step: the three
      lists describe the same number of vertices, and each stored normal is the
      stored position minus the center, scaled by 1/R. */
  lemma NormalIsRadial(p: SphereParams, i: nat, j: nat)
    requires WellFormed(p) && i <= p.StackCount && j <= p.SectorCount
    ensures var v, n, t := Generated(p, Position), Generated(p, Normal), Generated(p, TexCoord);
      |v| == |n| == 3 * VertexCount(p) && |t| == 2 * VertexCount(p)
    ensures var k, v, n := Index(p, i, j), Generated(p, Position), Generated(p, Normal);
      3 * k + 2 < |v| == |n| &&
      n[3 * k] == (v[3 * k] - p.X) / p.R &&
      n[3 * k + 1] == (v[3 * k + 1] - p.Y) / p.R &&
      n[3 * k + 2] == (v[3 * k + 2] - p.Z) / p.R
  {
    var k, v, n := Index(p, i, j), Generated(p, Position), Generated(p, Normal);
    Layout(p, TexCoord, i, j);
    Layout(p, Position, i, j);
    Layout(p, Normal, i, j);
    var pos, nrm := Floats(p, Position, i, j), Floats(p, Normal, i, j);
    NormalOfPosition(p, i, j);
    assert v[3 * k..3 * k + 3] == pos && n[3 * k..3 * k + 3] == nrm;
    assert v[3 * k] == pos[0] && v[3 * k + 1] == pos[1] && v[3 * k + 2] == pos[2] by {
      assert v[3 * k..3 * k + 3][0] == v[3 * k];
      assert v[3 * k..3 * k + 3][1] == v[3 * k + 1];
      assert v[3 * k..3 * k + 3][2] == v[3 * k + 2];
    }
    assert n[3 * k] == nrm[0] && n[3 * k + 1] == nrm[1] && n[3 * k + 2] == nrm[2] by {
      assert n[3 * k..3 * k + 3][0] == n[3 * k];
      assert n[3 * k..3 * k + 3][1] == n[3 * k + 1];
      assert n[3 * k..3 * k + 3][2] == n[3 * k + 2];
    }
  }

  /** For one vertex: the normal floats are the position floats minus the center, over R. */
  lemma NormalOfPosition(p: SphereParams, i: nat, j: nat)
    requires WellFormed(p)
    ensures var pos, nrm := Floats(p, Position, i, j), Floats(p, Normal, i, j);
      nrm == [(pos[0] - p.X) / p.R, (pos[1] - p.Y) / p.R, (pos[2] - p.Z) / p.R]
  {
    var pos, nrm := Floats(p, Position, i, j), Floats(p, Normal, i, j);
    var x, y, z := LocalX(p, i, j), LocalY(p, i, j), RowHeight(p, i);
    assert pos[0] - p.X == x && pos[1] - p.Y == y && pos[2] - p.Z == z;
    assert nrm[0] == x * LengthInv(p) && nrm[1] == y * LengthInv(p) && nrm[2] == z * LengthInv(p);
    ScaleByInverse(p, x);
    ScaleByInverse(p, y);
    ScaleByInverse(p, z);
  }

  lemma ScaleByInverse(p: SphereParams, local: real)
    requires WellFormed(p)
    ensures local * LengthInv(p) == local / p.R
  {
  }

  /** `z` is computed once per stack row: every vertex of row i has the same height. */
  lemma RowSharesHeight(p: SphereParams, i: nat, j1: nat, j2: nat)
    requires WellFormed(p) && i <= p.StackCount && j1 <= p.SectorCount && j2 <= p.SectorCount
    ensures var v := Generated(p, Position);
      3 * Index(p, i, j1) + 2 < |v| && 3 * Index(p, i, j2) + 2 < |v| &&
      v[3 * Index(p, i, j1) + 2] == v[3 * Index(p, i, j2) + 2] &&
      v[3 * Index(p, i, j1) + 2] == p.R * p.Sin(Pi / 2.0 - i as real * StackStep(p)) + p.Z
  {
    LayoutAt(p, Position, i, j1, 2);
    LayoutAt(p, Position, i, j2, 2);
    assert Floats(p, Position, i, j1)[2] == RowHeight(p, i) + p.Z;
    assert StackAngle(p, i) == Pi / 2.0 - i as real * StackStep(p);
  }

  /** Texture coordinate of vertex (i, j) is (j/SectorCount, i/StackCount), inside the
      unit square, with s running 0..1 across the sectors and t 0..1 across the stacks. */
  lemma TexCoordAt(p: SphereParams, i: nat, j: nat)
    requires WellFormed(p) && i <= p.StackCount && j <= p.SectorCount
    ensures var k, t := Index(p, i, j), Generated(p, TexCoord);
      2 * k + 1 < |t| &&
      t[2 * k] == j as real / p.SectorCount as real &&
      t[2 * k + 1] == i as real / p.StackCount as real &&
      0.0 <= t[2 * k] <= 1.0 && 0.0 <= t[2 * k + 1] <= 1.0 &&
      (t[2 * k] == 0.0 <==> j == 0) && (t[2 * k] == 1.0 <==> j == p.SectorCount) &&
      (t[2 * k + 1] == 0.0 <==> i == 0) && (t[2 * k + 1] == 1.0 <==> i == p.StackCount)
  {
    LayoutAt(p, TexCoord, i, j, 0);
    LayoutAt(p, TexCoord, i, j, 1);
    UnitFraction(j, p.SectorCount);
    UnitFraction(i, p.StackCount);
  }

  lemma UnitFraction(m: nat, n: nat)
    requires 1 <= n && m <= n
    ensures 0.0 <= m as real / n as real <= 1.0
    ensures m as real / n as real == 0.0 <==> m == 0
    ensures m as real / n as real == 1.0 <==> m == n
  {
    var q := m as real / n as real;
    assert q * n as real == m as real;
    if m == n {
      assert q == 1.0;
    }
  }

  /** Row 0 is the north pole: given cos(pi/2) = 0 and sin(pi/2) = 1, every one of its
      SectorCount+1 vertices is the center moved up by R, with normal (0, 0, 1). */
  lemma NorthPole(p: SphereParams, j: nat)
    requires WellFormed(p) && j <= p.SectorCount
    requires p.Cos(Pi / 2.0) == 0.0 && p.Sin(Pi / 2.0) == 1.0
    ensures var k, v, n := Index(p, 0, j), Generated(p, Position), Generated(p, Normal);
      3 * k + 3 <= |v| == |n| &&
      v[3 * k..3 * k + 3] == [p.X, p.Y, p.Z + p.R] &&
      n[3 * k..3 * k + 3] == [0.0, 0.0, 1.0]
  {
    Layout(p, Position, 0, j);
    Layout(p, Normal, 0, j);
    assert StackAngle(p, 0) == Pi / 2.0;
    assert RowRadius(p, 0) == 0.0 && RowHeight(p, 0) == p.R;
    assert LocalX(p, 0, j) == 0.0 && LocalY(p, 0, j) == 0.0;
    ScaleByInverse(p, p.R);
    var nrm := Floats(p, Normal, 0, j);
    assert nrm[0] == 0.0 && nrm[1] == 0.0 && nrm[2] == 1.0;
  }

  /** Row StackCount is the south pole: given cos(-pi/2) = 0 and sin(-pi/2) = -1, its
      vertices are the center moved down by R, with normal (0, 0, -1). */
  lemma SouthPole(p: SphereParams, j: nat)
    requires WellFormed(p) && j <= p.SectorCount
    requires p.Cos(-Pi / 2.0) == 0.0 && p.Sin(-Pi / 2.0) == -1.0
    ensures var k, v, n := Index(p, p.StackCount, j), Generated(p, Position), Generated(p, Normal);
      3 * k + 3 <= |v| == |n| &&
      v[3 * k..3 * k + 3] == [p.X, p.Y, p.Z - p.R] &&
      n[3 * k..3 * k + 3] == [0.0, 0.0, -1.0]
  {
    Layout(p, Position, p.StackCount, j);
    Layout(p, Normal, p.StackCount, j);
    assert StackAngle(p, p.StackCount) == -Pi / 2.0;
    assert RowRadius(p, p.StackCount) == 0.0 && RowHeight(p, p.StackCount) == -p.R;
    assert LocalX(p, p.StackCount, j) == 0.0 && LocalY(p, p.StackCount, j) == 0.0;
    ScaleByInverse(p, -p.R);
    var nrm := Floats(p, Normal, p.StackCount, j);
    assert nrm[0] == 0.0 && nrm[1] == 0.0 && nrm[2] == -1.0;
  }

  /** The seam: given that cos and sin repeat after 2 pi, the first and last vertex of
      each row have the same position and normal but texture s of 0 and 1. */
  lemma Seam(p: SphereParams, i: nat)
    requires WellFormed(p) && i <= p.StackCount
    requires p.Cos(2.0 * Pi) == p.Cos(0.0) && p.Sin(2.0 * Pi) == p.Sin(0.0)
    ensures var first, last := Index(p, i, 0), Index(p, i, p.SectorCount);
      var v, n, t := Generated(p, Position), Generated(p, Normal), Generated(p, TexCoord);
      first < last && 3 * last + 3 <= |v| == |n| && 2 * last + 2 <= |t| &&
      v[3 * first..3 * first + 3] == v[3 * last..3 * last + 3] &&
      n[3 * first..3 * first + 3] == n[3 * last..3 * last + 3] &&
      t[2 * first] == 0.0 && t[2 * last] == 1.0 && t[2 * first + 1] == t[2 * last + 1]
  {
    var first, last := Index(p, i, 0), Index(p, i, p.SectorCount);
    Layout(p, Position, i, 0);
    Layout(p, Position, i, p.SectorCount);
    Layout(p, Normal, i, 0);
    Layout(p, Normal, i, p.SectorCount);
    LayoutAt(p, TexCoord, i, 0, 0);
    LayoutAt(p, TexCoord, i, 0, 1);
    LayoutAt(p, TexCoord, i, p.SectorCount, 0);
    LayoutAt(p, TexCoord, i, p.SectorCount, 1);
    SeamFloats(p, i);
  }

  lemma SeamFloats(p: SphereParams, i: nat)
    requires WellFormed(p)
    requires p.Cos(2.0 * Pi) == p.Cos(0.0) && p.Sin(2.0 * Pi) == p.Sin(0.0)
    ensures Floats(p, Position, i, 0) == Floats(p, Position, i, p.SectorCount)
    ensures Floats(p, Normal, i, 0) == Floats(p, Normal, i, p.SectorCount)
    ensures Floats(p, TexCoord, i, 0)[0] == 0.0
    ensures Floats(p, TexCoord, i, p.SectorCount)[0] == 1.0
    ensures Floats(p, TexCoord, i, 0)[1] == Floats(p, TexCoord, i, p.SectorCount)[1]
  {
    assert SectorAngle(p, 0) == 0.0;
    assert SectorAngle(p, p.SectorCount) == 2.0 * Pi;
    assert LocalX(p, i, 0) == LocalX(p, i, p.SectorCount);
    assert LocalY(p, i, 0) == LocalY(p, i, p.SectorCount);
    var first, last := Floats(p, Normal, i, 0), Floats(p, Normal, i, p.SectorCount);
    assert first[0] == last[0] && first[1] == last[1] && first[2] == last[2];
  }
}
