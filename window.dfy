/** What kg-opentk/Window.cs does with the sphere: it uploads one float buffer and reads
    it through three vertex-attribute pointers that all step 8 floats per vertex
    (position at offset 0, normal at 3, texture coordinate at 6), then draws
    Length / 3 vertices of the position list. */
module Window {
  import opened Geometry
  import opened Interleaving
  import opened Common

  /** One vertex-attribute pointer: size floats per vertex, stride floats between
      vertices, starting offset floats into each vertex. */
  datatype AttribPointer = AttribPointer(size: nat, stride: nat, offset: nat)

  const PositionPointer := AttribPointer(3, 8, 0)
  const NormalPointer := AttribPointer(3, 8, 3)
  const TexCoordPointer := AttribPointer(2, 8, 6)

  /** The reader stays inside the buffer for count vertices. */
  predicate InBounds(buf: seq<real>, ptr: AttribPointer, count: nat)
  {
    Reaches(|buf|, ptr.stride, ptr.offset, ptr.size, count)
  }

  /** What the pointer feeds the shader for the first count vertices. */
  function Read(buf: seq<real>, ptr: AttribPointer, count: nat): seq<real>
    requires InBounds(buf, ptr, count)
  {
    Fetch(buf, ptr.stride, ptr.offset, ptr.size, count)
  }

  /** The vertex count of the draw call: the position list's length over 3. */
  function DrawCount(positions: seq<real>): nat
  {
    |positions| / 3
  }

  /** As written, the uploaded buffer is the position list alone, but every pointer
      steps 8 floats per vertex: none of the three stays inside it for the vertices
      drawn, even though the draw count is the sphere's vertex count. */
  lemma PositionOnlyUploadOverruns(p: SphereParams)
    requires WellFormed(p)
    ensures var buf := Generated(p, Position);
      DrawCount(buf) == VertexCount(p) &&
      !InBounds(buf, PositionPointer, DrawCount(buf)) &&
      !InBounds(buf, NormalPointer, DrawCount(buf)) &&
      !InBounds(buf, TexCoordPointer, DrawCount(buf))
  {
    var n := VertexCount(p);
    GeneratedLength(p, Position);
    assert |Generated(p, Position)| == 3 * n;
    assert n >= 4 by {
      assert n == (p.StackCount + 1) * (p.SectorCount + 1);
    }
    assert (n - 1) * 8 + 0 + 3 > 3 * n;
  }

  /** Corrected upload: the buffer of GetSphere(true, true) feeds each pointer exactly
      the list it names, for the drawn vertex count. */
  lemma InterleavedUploadFeedsAttributes(p: SphereParams)
    requires WellFormed(p)
    ensures var v, nrm, t := Generated(p, Position), Generated(p, Normal), Generated(p, TexCoord);
      Holds(v, nrm, t, true, true, VertexCount(p)) &&
      var buf := Interleave(v, nrm, t, true, true, VertexCount(p));
      DrawCount(v) == VertexCount(p) && |buf| == 8 * VertexCount(p) &&
      InBounds(buf, PositionPointer, DrawCount(v)) && Read(buf, PositionPointer, DrawCount(v)) == v &&
      InBounds(buf, NormalPointer, DrawCount(v)) && Read(buf, NormalPointer, DrawCount(v)) == nrm &&
      InBounds(buf, TexCoordPointer, DrawCount(v)) && Read(buf, TexCoordPointer, DrawCount(v)) == t
  {
    var n := VertexCount(p);
    var v, nrm, t := Generated(p, Position), Generated(p, Normal), Generated(p, TexCoord);
    assert |v| == 3 * n && |nrm| == 3 * n && |t| == 2 * n by {
      GeneratedLength(p, Position);
      GeneratedLength(p, Normal);
      GeneratedLength(p, TexCoord);
    }
    assert DrawCount(v) == n;
    var buf := Interleave(v, nrm, t, true, true, n);
    assert |buf| == 8 * n by {
      InterleaveLength(v, nrm, t, true, true, n);
    }
    assert v[..3 * n] == v && nrm[..3 * n] == nrm && t[..2 * n] == t;
    FetchInterleave(v, nrm, t, true, true, n);
  }

  /** The corrected upload on a constructed sphere: the buffer handed to the GPU
      is the stride-8 packing, and each attribute pointer reads back its own list. */
  method UploadBuffer(sun: Sphere) returns (data: array<real>)
    requires sun.Valid()
    ensures data.Length == 8 * DrawCount(sun.Vertices)
    ensures InBounds(data[..], PositionPointer, DrawCount(sun.Vertices))
    ensures Read(data[..], PositionPointer, DrawCount(sun.Vertices)) == sun.Vertices
    ensures InBounds(data[..], NormalPointer, DrawCount(sun.Vertices))
    ensures Read(data[..], NormalPointer, DrawCount(sun.Vertices)) == sun.Normals
    ensures InBounds(data[..], TexCoordPointer, DrawCount(sun.Vertices))
    ensures Read(data[..], TexCoordPointer, DrawCount(sun.Vertices)) == sun.TexCoords
  {
    sun.ValidPacks();
    data := sun.GetSphere(true, true);
    InterleavedUploadFeedsAttributes(sun.Params());
  }
}
