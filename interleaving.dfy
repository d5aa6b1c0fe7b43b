/** The interleaved export of kg-opentk/Common/Sphere.cs (GetSphere) as pure functions
    over the three flat lists, and its inverse: reading one attribute back out of the
    packed buffer with a stride and an offset, as a vertex-attribute pointer does. */
module Interleaving {
  import opened Sequences

  /** Floats per vertex in the packed buffer: a position, then a normal and a texture
      coordinate when they are asked for. */
  function Stride(withNormals: bool, withTexCoords: bool): nat
  {
    3 + (if withNormals then 3 else 0) + (if withTexCoords then 2 else 0)
  }

  /** Where a vertex's texture coordinate starts inside its block. */
  function TexCoordOffset(withNormals: bool): nat
  {
    if withNormals then 6 else 3
  }

  /** The lists hold count vertices' worth of every attribute that is packed. */
  predicate Holds(v: seq<real>, n: seq<real>, t: seq<real>, withNormals: bool, withTexCoords: bool, count: nat)
  {
    3 * count <= |v| && (withNormals ==> 3 * count <= |n|) && (withTexCoords ==> 2 * count <= |t|)
  }

  /** The floats appended for vertex k by one iteration of the packing loop. */
  function Block(v: seq<real>, n: seq<real>, t: seq<real>, withNormals: bool, withTexCoords: bool, k: nat): seq<real>
    requires Holds(v, n, t, withNormals, withTexCoords, k + 1)
  {
    [v[3 * k], v[3 * k + 1], v[3 * k + 2]]
    + (if withNormals then [n[3 * k], n[3 * k + 1], n[3 * k + 2]] else [])
    + (if withTexCoords then [t[2 * k], t[2 * k + 1]] else [])
  }

  /** The packed buffer for the first count vertices. */
  function Interleave(v: seq<real>, n: seq<real>, t: seq<real>, withNormals: bool, withTexCoords: bool, count: nat): seq<real>
    requires Holds(v, n, t, withNormals, withTexCoords, count)
  {
    if count == 0 then []
    else Interleave(v, n, t, withNormals, withTexCoords, count - 1)
         + Block(v, n, t, withNormals, withTexCoords, count - 1)
  }

  /** The packed buffer holds exactly one block of Stride floats per vertex. */
  lemma {:induction false} InterleaveLength(v: seq<real>, n: seq<real>, t: seq<real>, withNormals: bool, withTexCoords: bool, count: nat)
    requires Holds(v, n, t, withNormals, withTexCoords, count)
    ensures |Interleave(v, n, t, withNormals, withTexCoords, count)| == count * Stride(withNormals, withTexCoords)
  {
    if count > 0 {
      InterleaveLength(v, n, t, withNormals, withTexCoords, count - 1);
      assert count * Stride(withNormals, withTexCoords)
          == (count - 1) * Stride(withNormals, withTexCoords) + Stride(withNormals, withTexCoords);
    }
  }

  /** Packing fewer vertices yields a prefix of the packed buffer. */
  lemma {:induction false} InterleavePrefix(v: seq<real>, n: seq<real>, t: seq<real>, withNormals: bool, withTexCoords: bool, count: nat, m: nat)
    requires Holds(v, n, t, withNormals, withTexCoords, count) && m <= count
    ensures Interleave(v, n, t, withNormals, withTexCoords, m) <= Interleave(v, n, t, withNormals, withTexCoords, count)
  {
    if m < count {
      InterleavePrefix(v, n, t, withNormals, withTexCoords, count - 1, m);
    }
  }

  /** Vertex k's block starts at k * Stride, and blocks appear in vertex order. */
  lemma InterleaveBlock(v: seq<real>, n: seq<real>, t: seq<real>, withNormals: bool, withTexCoords: bool, count: nat, k: nat)
    requires Holds(v, n, t, withNormals, withTexCoords, count) && k < count
    ensures var buf, s := Interleave(v, n, t, withNormals, withTexCoords, count), Stride(withNormals, withTexCoords);
      k * s + s <= |buf| && buf[k * s..k * s + s] == Block(v, n, t, withNormals, withTexCoords, k)
  {
    var s := Stride(withNormals, withTexCoords);
    var buf := Interleave(v, n, t, withNormals, withTexCoords, count);
    var before := Interleave(v, n, t, withNormals, withTexCoords, k);
    var block := Block(v, n, t, withNormals, withTexCoords, k);
    assert |before| == k * s && |block| == s by {
      InterleaveLength(v, n, t, withNormals, withTexCoords, k);
      BlockParts(v, n, t, withNormals, withTexCoords, k);
    }
    assert before + block <= buf by {
      InterleavePrefix(v, n, t, withNormals, withTexCoords, count, k + 1);
    }
    SliceAfter(before, block, buf, k * s, s);
  }

  /** A sequence that starts with before + block holds block right after before. */
  lemma SliceAfter(before: seq<real>, block: seq<real>, buf: seq<real>, lo: nat, s: nat)
    requires before + block <= buf && |before| == lo && |block| == s
    ensures lo + s <= |buf| && buf[lo..lo + s] == block
  {
    SliceOfPrefix(before + block, buf, lo, lo + s);
    ConcatRight(before, block, lo, s);
  }

  lemma SliceOfPrefix(a: seq<real>, b: seq<real>, lo: nat, hi: nat)
    requires a <= b && lo <= hi <= |a|
    ensures hi <= |b| && b[lo..hi] == a[lo..hi]
  {
  }

  /** Inside vertex k's block: its 3 position floats, then its 3 normal floats if
      normals are packed, then its 2 texture floats if texture coordinates are. */
  lemma InterleaveAt(v: seq<real>, n: seq<real>, t: seq<real>, withNormals: bool, withTexCoords: bool, count: nat, k: nat)
    requires Holds(v, n, t, withNormals, withTexCoords, count) && k < count
    ensures var buf, b := Interleave(v, n, t, withNormals, withTexCoords, count), k * Stride(withNormals, withTexCoords);
      b + Stride(withNormals, withTexCoords) <= |buf| &&
      buf[b..b + 3] == v[3 * k..3 * k + 3] &&
      (withNormals ==> buf[b + 3..b + 6] == n[3 * k..3 * k + 3]) &&
      (withTexCoords ==> buf[b + TexCoordOffset(withNormals)..b + TexCoordOffset(withNormals) + 2] == t[2 * k..2 * k + 2])
  {
    var buf, s := Interleave(v, n, t, withNormals, withTexCoords, count), Stride(withNormals, withTexCoords);
    var b, o := k * s, TexCoordOffset(withNormals);
    assert b + s <= |buf| && buf[b..b + s] == Block(v, n, t, withNormals, withTexCoords, k) by {
      InterleaveBlock(v, n, t, withNormals, withTexCoords, count, k);
    }
    var block := Block(v, n, t, withNormals, withTexCoords, k);
    BlockParts(v, n, t, withNormals, withTexCoords, k);
    Within(buf, block, b, s, 0, 3);
    if withNormals {
      Within(buf, block, b, s, 3, 6);
    }
    if withTexCoords {
      Within(buf, block, b, s, o, o + 2);
    }
  }

  /** A piece of a block found at offset b of buf is found at b plus its offset in the block. */
  lemma Within(buf: seq<real>, block: seq<real>, b: nat, s: nat, from: nat, to: nat)
    requires b + s <= |buf| && buf[b..b + s] == block && from <= to <= s
    ensures buf[b + from..b + to] == block[from..to]
  {
    forall i | 0 <= i < to - from
      ensures buf[b + from..b + to][i] == block[from..to][i]
    {
      assert block[from + i] == buf[b..b + s][from + i];
    }
  }

  lemma BlockParts(v: seq<real>, n: seq<real>, t: seq<real>, withNormals: bool, withTexCoords: bool, k: nat)
    requires Holds(v, n, t, withNormals, withTexCoords, k + 1)
    ensures var block, o := Block(v, n, t, withNormals, withTexCoords, k), TexCoordOffset(withNormals);
      |block| == Stride(withNormals, withTexCoords) &&
      block[0..3] == v[3 * k..3 * k + 3] &&
      (withNormals ==> block[3..6] == n[3 * k..3 * k + 3]) &&
      (withTexCoords ==> block[o..o + 2] == t[2 * k..2 * k + 2])
  {
  }

  /** With neither normals nor texture coordinates, packing returns the positions unchanged. */
  lemma {:induction false} InterleavePositionsOnly(v: seq<real>, n: seq<real>, t: seq<real>, count: nat)
    requires Holds(v, n, t, false, false, count)
    ensures Interleave(v, n, t, false, false, count) == v[..3 * count]
  {
    if count > 0 {
      InterleavePositionsOnly(v, n, t, count - 1);
      assert v[..3 * count] == v[..3 * (count - 1)] + v[3 * (count - 1)..3 * count];
    }
  }

  /** A reader that takes width floats per vertex, at offset floats into each
      vertex's stride-float block, stays inside a buffer of len floats. */
  predicate Reaches(len: nat, stride: nat, offset: nat, width: nat, count: nat)
  {
    count == 0 || (count - 1) * stride + offset + width <= len
  }

  /** The attribute a reader with this stride and offset sees for the first count vertices. */
  function Fetch(buf: seq<real>, stride: nat, offset: nat, width: nat, count: nat): seq<real>
    requires Reaches(|buf|, stride, offset, width, count)
  {
    if count == 0 then []
    else
      var at := (count - 1) * stride + offset;
      assert count > 1 ==> (count - 2) * stride + stride == (count - 1) * stride;
      Fetch(buf, stride, offset, width, count - 1) + buf[at..at + width]
  }

  /** Slot k of the reader's view matches the k-th width floats of src. */
  predicate SlotMatches(buf: seq<real>, stride: nat, offset: nat, width: nat, src: seq<real>, k: nat)
  {
    k * stride + offset + width <= |buf| && width * k + width <= |src| &&
    buf[k * stride + offset..k * stride + offset + width] == src[width * k..width * k + width]
  }

  lemma {:induction false} FetchOfSlots(buf: seq<real>, stride: nat, offset: nat, width: nat, src: seq<real>, count: nat)
    requires Reaches(|buf|, stride, offset, width, count) && width * count <= |src|
    requires forall k :: 0 <= k < count ==> SlotMatches(buf, stride, offset, width, src, k)
    ensures Fetch(buf, stride, offset, width, count) == src[..width * count]
  {
    if count > 0 {
      assert count > 1 ==> (count - 2) * stride + stride == (count - 1) * stride;
      FetchOfSlots(buf, stride, offset, width, src, count - 1);
      assert SlotMatches(buf, stride, offset, width, src, count - 1);
      assert width * count == width * (count - 1) + width;
      assert src[..width * count] == src[..width * (count - 1)] + src[width * (count - 1)..width * count];
    }
  }

  /** Round trip: reading each packed attribute back with the buffer's stride and the
      attribute's offset (0, 3, then 6 or 3) yields exactly the list it was packed from. */
  lemma FetchInterleave(v: seq<real>, n: seq<real>, t: seq<real>, withNormals: bool, withTexCoords: bool, count: nat)
    requires Holds(v, n, t, withNormals, withTexCoords, count)
    ensures var buf, s := Interleave(v, n, t, withNormals, withTexCoords, count), Stride(withNormals, withTexCoords);
      Reaches(|buf|, s, 0, 3, count) && Fetch(buf, s, 0, 3, count) == v[..3 * count] &&
      (withNormals ==> Reaches(|buf|, s, 3, 3, count) && Fetch(buf, s, 3, 3, count) == n[..3 * count]) &&
      (withTexCoords ==> Reaches(|buf|, s, TexCoordOffset(withNormals), 2, count) &&
                         Fetch(buf, s, TexCoordOffset(withNormals), 2, count) == t[..2 * count])
  {
    FetchPositions(v, n, t, withNormals, withTexCoords, count);
    if withNormals {
      FetchNormals(v, n, t, withTexCoords, count);
    }
    if withTexCoords {
      FetchTexCoords(v, n, t, withNormals, count);
    }
  }

  /** The packed buffer reaches every slot an attribute of the given offset and width names. */
  lemma InterleaveReaches(v: seq<real>, n: seq<real>, t: seq<real>, withNormals: bool, withTexCoords: bool, count: nat,
                          offset: nat, width: nat)
    requires Holds(v, n, t, withNormals, withTexCoords, count)
    requires offset + width <= Stride(withNormals, withTexCoords)
    ensures Reaches(|Interleave(v, n, t, withNormals, withTexCoords, count)|, Stride(withNormals, withTexCoords), offset, width, count)
  {
    var s := Stride(withNormals, withTexCoords);
    InterleaveLength(v, n, t, withNormals, withTexCoords, count);
    assert count > 0 ==> (count - 1) * s + s == count * s;
  }

  lemma FetchPositions(v: seq<real>, n: seq<real>, t: seq<real>, withNormals: bool, withTexCoords: bool, count: nat)
    requires Holds(v, n, t, withNormals, withTexCoords, count)
    ensures var buf, s := Interleave(v, n, t, withNormals, withTexCoords, count), Stride(withNormals, withTexCoords);
      Reaches(|buf|, s, 0, 3, count) && Fetch(buf, s, 0, 3, count) == v[..3 * count]
  {
    var buf, s := Interleave(v, n, t, withNormals, withTexCoords, count), Stride(withNormals, withTexCoords);
    assert Reaches(|buf|, s, 0, 3, count) by {
      InterleaveReaches(v, n, t, withNormals, withTexCoords, count, 0, 3);
    }
    assert forall k :: 0 <= k < count ==> SlotMatches(buf, s, 0, 3, v, k) by {
      forall k | 0 <= k < count
        ensures SlotMatches(buf, s, 0, 3, v, k)
      {
        InterleaveAt(v, n, t, withNormals, withTexCoords, count, k);
      }
    }
    FetchOfSlots(buf, s, 0, 3, v, count);
  }

  lemma FetchNormals(v: seq<real>, n: seq<real>, t: seq<real>, withTexCoords: bool, count: nat)
    requires Holds(v, n, t, true, withTexCoords, count)
    ensures var buf, s := Interleave(v, n, t, true, withTexCoords, count), Stride(true, withTexCoords);
      Reaches(|buf|, s, 3, 3, count) && Fetch(buf, s, 3, 3, count) == n[..3 * count]
  {
    var buf, s := Interleave(v, n, t, true, withTexCoords, count), Stride(true, withTexCoords);
    assert Reaches(|buf|, s, 3, 3, count) by {
      InterleaveReaches(v, n, t, true, withTexCoords, count, 3, 3);
    }
    assert forall k :: 0 <= k < count ==> SlotMatches(buf, s, 3, 3, n, k) by {
      forall k | 0 <= k < count
        ensures SlotMatches(buf, s, 3, 3, n, k)
      {
        InterleaveAt(v, n, t, true, withTexCoords, count, k);
      }
    }
    FetchOfSlots(buf, s, 3, 3, n, count);
  }

  lemma FetchTexCoords(v: seq<real>, n: seq<real>, t: seq<real>, withNormals: bool, count: nat)
    requires Holds(v, n, t, withNormals, true, count)
    ensures var buf, s, o := Interleave(v, n, t, withNormals, true, count), Stride(withNormals, true), TexCoordOffset(withNormals);
      Reaches(|buf|, s, o, 2, count) && Fetch(buf, s, o, 2, count) == t[..2 * count]
  {
    var buf, s, o := Interleave(v, n, t, withNormals, true, count), Stride(withNormals, true), TexCoordOffset(withNormals);
    assert Reaches(|buf|, s, o, 2, count) by {
      InterleaveReaches(v, n, t, withNormals, true, count, o, 2);
    }
    assert forall k :: 0 <= k < count ==> SlotMatches(buf, s, o, 2, t, k) by {
      forall k | 0 <= k < count
        ensures SlotMatches(buf, s, o, 2, t, k)
      {
        InterleaveAt(v, n, t, withNormals, true, count, k);
      }
    }
    FetchOfSlots(buf, s, o, 2, t, count);
  }
}
