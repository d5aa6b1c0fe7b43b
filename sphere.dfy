/** The Sphere class of kg-opentk/Common/Sphere.cs: a UV sphere whose constructor fills
    three flat lists (positions, normals, texture coordinates) with nested loops over
    stack rows and sector columns, and whose accessors copy them out or pack them into
    one interleaved buffer. */
module Common {
  import opened Geometry
  import opened Interleaving

  /** The resolution the source hard-codes in its field initialisers. */
  const DefaultSectorCount: nat := 2048
  const DefaultStackCount: nat := 1024

  class Sphere {
    var Vertices: seq<real>
    var Normals: seq<real>
    var TexCoords: seq<real>

    const X: real
    const Y: real
    const Z: real
    const R: real
    const SectorCount: nat
    const StackCount: nat

    /** Math.Cos and Math.Sin, each followed by the cast to float. */
    const Cos: real -> real
    const Sin: real -> real

    function Params(): SphereParams
    {
      SphereParams(R, X, Y, Z, SectorCount, StackCount, Cos, Sin)
    }

    /** The three lists are exactly what the generation loops produce for these parameters. */
    ghost predicate Valid()
      reads this
    {
      WellFormed(Params()) &&
      |Vertices| == 3 * VertexCount(Params()) &&
      |Normals| == 3 * VertexCount(Params()) &&
      |TexCoords| == 2 * VertexCount(Params()) &&
      Vertices == Generated(Params(), Position) &&
      Normals == Generated(Params(), Normal) &&
      TexCoords == Generated(Params(), TexCoord)
    }

    /** Builds the sphere at the source's fixed resolution of 2048 sectors and 1024 stacks. */
    constructor (R: real, X: real, Y: real, Z: real, cos: real -> real, sin: real -> real)
      requires R != 0.0
      ensures Params() == SphereParams(R, X, Y, Z, DefaultSectorCount, DefaultStackCount, cos, sin)
      ensures Valid()
    {
      this.R, this.X, this.Y, this.Z := R, X, Y, Z;
      SectorCount, StackCount := DefaultSectorCount, DefaultStackCount;
      Cos, Sin := cos, sin;
      Vertices, Normals, TexCoords := [], [], [];
      new;
      CalculateVertices();
      Establish();
    }

    /** Builds the sphere at any resolution of at least one sector and one stack. */
    constructor WithResolution(R: real, X: real, Y: real, Z: real, sectorCount: nat, stackCount: nat,
                               cos: real -> real, sin: real -> real)
      requires R != 0.0 && sectorCount >= 1 && stackCount >= 1
      ensures Params() == SphereParams(R, X, Y, Z, sectorCount, stackCount, cos, sin)
      ensures Valid()
    {
      this.R, this.X, this.Y, this.Z := R, X, Y, Z;
      SectorCount, StackCount := sectorCount, stackCount;
      Cos, Sin := cos, sin;
      Vertices, Normals, TexCoords := [], [], [];
      new;
      CalculateVertices();
      Establish();
    }

    /** The lengths Valid() records follow from the generated lists. */
    lemma Establish()
      requires WellFormed(Params())
      requires Vertices == Generated(Params(), Position)
      requires Normals == Generated(Params(), Normal)
      requires TexCoords == Generated(Params(), TexCoord)
      ensures Valid()
    {
      GeneratedLength(Params(), Position);
      GeneratedLength(Params(), Normal);
      GeneratedLength(Params(), TexCoord);
    }

    /** A fresh array holding the positions. */
    method GetVertices() returns (r: array<real>)
      ensures fresh(r) && r[..] == Vertices
    {
      r := new real[|Vertices|](k requires 0 <= k < |Vertices| reads this => Vertices[k]);
    }

    /** A fresh array holding the normals. */
    method GetNormals() returns (r: array<real>)
      ensures fresh(r) && r[..] == Normals
    {
      r := new real[|Normals|](k requires 0 <= k < |Normals| reads this => Normals[k]);
    }

    /** Packs the lists vertex by vertex into a fresh array: position, then normal if
        isNormals, then texture coordinate if isTexCoords, for the Vertices.Count / 3
        whole positions. It indexes Normals and TexCoords only for the parts asked for. */
    method GetSphere(isNormals: bool, isTexCoords: bool) returns (r: array<real>)
      requires Holds(Vertices, Normals, TexCoords, isNormals, isTexCoords, |Vertices| / 3)
      ensures fresh(r)
      ensures r[..] == Interleave(Vertices, Normals, TexCoords, isNormals, isTexCoords, |Vertices| / 3)
      ensures r.Length == |Vertices| / 3 * Stride(isNormals, isTexCoords)
      ensures !isNormals && !isTexCoords ==> r[..] == Vertices[..|Vertices| / 3 * 3]
    {
      var count := |Vertices| / 3;
      var result: seq<real> := [];
      var i := 0;
      while i < count
        invariant 0 <= i <= count
        invariant result == Interleave(Vertices, Normals, TexCoords, isNormals, isTexCoords, i)
      {
        ghost var before := result;
        result := result + [Vertices[i * 3], Vertices[i * 3 + 1], Vertices[i * 3 + 2]];
        if isNormals {
          result := result + [Normals[i * 3], Normals[i * 3 + 1], Normals[i * 3 + 2]];
        }
        if isTexCoords {
          result := result + [TexCoords[i * 2], TexCoords[i * 2 + 1]];
        }
        assert result == before + Block(Vertices, Normals, TexCoords, isNormals, isTexCoords, i);
        i := i + 1;
      }
      InterleaveLength(Vertices, Normals, TexCoords, isNormals, isTexCoords, count);
      if !isNormals && !isTexCoords {
        InterleavePositionsOnly(Vertices, Normals, TexCoords, count);
      }
      r := new real[|result|](k requires 0 <= k < |result| => result[k]);
      assert r[..] == result;
    }

    /** A constructed sphere can be packed in every layout: its lists hold VertexCount
        whole vertices of each attribute, and nothing trails the last position. */
    lemma ValidPacks()
      requires Valid()
      ensures |Vertices| / 3 == VertexCount(Params())
      ensures Holds(Vertices, Normals, TexCoords, true, true, |Vertices| / 3)
      ensures Vertices[..|Vertices| / 3 * 3] == Vertices
    {
    }

    /** The body of the sector loop: appends vertex (i, j)'s position, normal and
        texture coordinate, from the row's `xy` and `z` and the steps computed once. */
    method AddVertex(i: nat, j: nat, sectorStep: real, lengthInv: real, xy: real, z: real)
      requires WellFormed(Params())
      requires sectorStep == SectorStep(Params()) && lengthInv == LengthInv(Params())
      requires xy == RowRadius(Params(), i) && z == RowHeight(Params(), i)
      modifies this
      ensures Vertices == old(Vertices) + Floats(Params(), Position, i, j)
      ensures Normals == old(Normals) + Floats(Params(), Normal, i, j)
      ensures TexCoords == old(TexCoords) + Floats(Params(), TexCoord, i, j)
    {
      var p := Params();
      var sectorAngle := j as real * sectorStep;
      var x := xy * Cos(sectorAngle);
      var y := xy * Sin(sectorAngle);
      assert x == LocalX(p, i, j) && y == LocalY(p, i, j) by {
        assert sectorAngle == SectorAngle(p, j);
      }
      var position := [x + X, y + Y, z + Z];
      var normal := [x * lengthInv, y * lengthInv, z * lengthInv];
      var texCoord := [j as real / SectorCount as real, i as real / StackCount as real];
      assert position == Floats(p, Position, i, j) && texCoord == Floats(p, TexCoord, i, j) by {
        VertexFloats(p, i, j);
      }
      assert normal == Floats(p, Normal, i, j) by {
        VertexFloats(p, i, j);
        var expected := Floats(p, Normal, i, j);
        assert normal[0] == expected[0] && normal[1] == expected[1] && normal[2] == expected[2];
      }
      Vertices := Vertices + position;
      Normals := Normals + normal;
      TexCoords := TexCoords + texCoord;
    }

    /** Appends every vertex's position, normal and texture coordinate, stack row by
        stack row (i = 0..StackCount) and, within a row, sector by sector (j = 0..SectorCount). */
    method CalculateVertices()
      requires WellFormed(Params())
      modifies this
      ensures Vertices == old(Vertices) + Generated(Params(), Position)
      ensures Normals == old(Normals) + Generated(Params(), Normal)
      ensures TexCoords == old(TexCoords) + Generated(Params(), TexCoord)
    {
      var p := Params();
      var lengthInv := 1.0 / R;
      assert lengthInv == LengthInv(p);
      var sectorStep := 2.0 * Pi / SectorCount as real;
      var stackStep := Pi / StackCount as real;
      var i := 0;
      while i <= StackCount
        invariant 0 <= i <= StackCount + 1
        invariant Vertices == old(Vertices) + Emitted(p, Position, i, 0)
        invariant Normals == old(Normals) + Emitted(p, Normal, i, 0)
        invariant TexCoords == old(TexCoords) + Emitted(p, TexCoord, i, 0)
      {
        var stackAngle := Pi / 2.0 - i as real * stackStep;
        var xy := R * Cos(stackAngle);
        var z := R * Sin(stackAngle);
        assert xy == RowRadius(p, i) && z == RowHeight(p, i) by {
          assert stackStep == StackStep(p);
          assert stackAngle == StackAngle(p, i);
        }
        var j := 0;
        while j <= SectorCount
          invariant 0 <= j <= SectorCount + 1
          invariant Vertices == old(Vertices) + Emitted(p, Position, i, j)
          invariant Normals == old(Normals) + Emitted(p, Normal, i, j)
          invariant TexCoords == old(TexCoords) + Emitted(p, TexCoord, i, j)
        {
          EmittedExtend(p, Position, old(Vertices), i, j);
          EmittedExtend(p, Normal, old(Normals), i, j);
          EmittedExtend(p, TexCoord, old(TexCoords), i, j);
          AddVertex(i, j, sectorStep, lengthInv, xy, z);
          j := j + 1;
        }
        EmittedNextRow(p, Position, old(Vertices), i);
        EmittedNextRow(p, Normal, old(Normals), i);
        EmittedNextRow(p, TexCoord, old(TexCoords), i);
        i := i + 1;
      }
    }
  }
}
