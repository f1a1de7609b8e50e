/**
 * The geometry buffers a chunk mesh is made of, and how the faces the mesher
 * emits are written into them (`FaceData` and the list appends of
 * `GenerateMesh` in Assets/Scripts/Chunk.cs; the earlier Assets/Chunk.cs
 * builds its render buffers the same way).
 *
 * Vertex positions are integer triples: face corners are 0 or 1 and block
 * positions are integers.  A UV is named by its atlas cell and corner; the
 * float arithmetic that turns that into texture coordinates is not modelled.
 */
module Meshing {
  import opened Coordinates
  import opened BlockMetrics
  import opened BlockTypes
  import opened Sequences

  /** Corner `corner` (0 .. 3) of atlas cell `cell`. */
  datatype Uv = Uv(cell: TextureCoord, corner: nat)

  /** A face the mesher emits: the block's position, the face's direction, its atlas cell, the block's solidity. */
  datatype Quad = Quad(position: Coords, direction: Direction, cell: TextureCoord, solid: bool)

  /** The geometry of one face (`FaceData`). */
  datatype FaceData = FaceData(vertices: seq<Coords>, uvs: seq<Uv>, tris: seq<int>)

  /** The two triangles of face number `index`, over its four vertices 4 * index .. 4 * index + 3. */
  function FaceTris(index: int): (t: seq<int>)
    ensures |t| == 6
    ensures forall j :: 0 <= j < 6 ==> 4 * index <= t[j] < 4 * index + 4
    ensures t == [4 * index, 4 * index + 3, 4 * index + 1, 4 * index, 4 * index + 2, 4 * index + 3]
  {
    var maxId := index * 4 + 3;
    [maxId - 3, maxId, maxId - 2, maxId - 3, maxId - 1, maxId]
  }

  /**
   * The face of direction `direction` of the block at `blockPos`, numbered
   * `index` among the faces of its mesh: the four corners of the direction's
   * face table moved to the block, one UV per corner of the atlas cell, and
   * the face's two triangles.
   */
  function NewFaceData(blockPos: Coords, direction: Direction, textureCell: TextureCoord, index: int): (f: FaceData)
    ensures |f.vertices| == 4 && |f.uvs| == 4
    ensures forall k :: 0 <= k < 4 ==> f.vertices[k].Sub(blockPos) == GetFaceVertices(direction)[k]
    ensures forall k :: 0 <= k < 4 ==> f.uvs[k] == Uv(textureCell, k)
    ensures f.tris == FaceTris(index)
  {
    var corners := GetFaceVertices(direction);
    FaceData(seq(4, k requires 0 <= k < 4 => corners[k].Add(blockPos)),
             [Uv(textureCell, 0), Uv(textureCell, 1), Uv(textureCell, 2), Uv(textureCell, 3)],
             FaceTris(index))
  }

  /** The render buffers (vertices, uvs, tris) and the collision buffers (vertices, tris) of a chunk. */
  datatype MeshData = MeshData(vertices: seq<Coords>, uvs: seq<Uv>, tris: seq<int>,
                               colliderVertices: seq<Coords>, colliderTris: seq<int>)

  /** How many of the quads belong to solid blocks. */
  function SolidCount(quads: seq<Quad>): (n: nat)
    ensures n <= |quads|
  {
    if |quads| == 0 then 0
    else SolidCount(quads[..|quads| - 1]) + (if quads[|quads| - 1].solid then 1 else 0)
  }

  /**
   * The buffers `GenerateMesh` fills when it emits `quads` in this order:
   * quad k is written as `NewFaceData(.., k)`; the collision buffers get a
   * copy of the vertices and of the triangles of every solid quad.  With F
   * quads, S of them solid, there are 4F vertices and UVs, 6F render
   * indices, 4S collision vertices and 6S collision indices.
   */
  function MeshOf(quads: seq<Quad>): (m: MeshData)
    ensures |m.vertices| == 4 * |quads| && |m.uvs| == 4 * |quads| && |m.tris| == 6 * |quads|
    ensures |m.colliderVertices| == 4 * SolidCount(quads)
    ensures |m.colliderTris| == 6 * SolidCount(quads)
  {
    if |quads| == 0 then MeshData([], [], [], [], [])
    else
      var m := MeshOf(quads[..|quads| - 1]);
      var q := quads[|quads| - 1];
      var f := NewFaceData(q.position, q.direction, q.cell, |quads| - 1);
      MeshData(m.vertices + f.vertices, m.uvs + f.uvs, m.tris + f.tris,
               if q.solid then m.colliderVertices + f.vertices else m.colliderVertices,
               if q.solid then m.colliderTris + f.tris else m.colliderTris)
  }

  /** Emitting quad `q` after `quads`: the buffers of `quads`, followed by the face data of `q` at index |quads|. */
  lemma {:induction false} MeshOfAppend(quads: seq<Quad>, q: Quad)
    ensures var m, f := MeshOf(quads), NewFaceData(q.position, q.direction, q.cell, |quads|);
      MeshOf(quads + [q]) ==
        MeshData(m.vertices + f.vertices, m.uvs + f.uvs, m.tris + f.tris,
                 if q.solid then m.colliderVertices + f.vertices else m.colliderVertices,
                 if q.solid then m.colliderTris + f.tris else m.colliderTris)
  {
    assert (quads + [q])[..|quads|] == quads;
  }

  /** Emitting one more quad only appends to the render buffers. */
  lemma {:induction false} MeshOfStep(quads: seq<Quad>)
    requires |quads| > 0
    ensures var n, m, p := |quads|, MeshOf(quads), MeshOf(quads[..|quads| - 1]);
      var f := NewFaceData(quads[n - 1].position, quads[n - 1].direction, quads[n - 1].cell, n - 1);
      m.vertices == p.vertices + f.vertices && m.uvs == p.uvs + f.uvs && m.tris == p.tris + f.tris
  {
  }

  /** Emitting one more quad only appends to the collision buffers, and only when it is solid. */
  lemma {:induction false} ColliderStep(quads: seq<Quad>)
    requires |quads| > 0
    ensures var n, m, p := |quads|, MeshOf(quads), MeshOf(quads[..|quads| - 1]);
      var f := NewFaceData(quads[n - 1].position, quads[n - 1].direction, quads[n - 1].cell, n - 1);
      m.colliderVertices == p.colliderVertices + (if quads[n - 1].solid then f.vertices else []) &&
      m.colliderTris == p.colliderTris + (if quads[n - 1].solid then f.tris else [])
  {
    var p := MeshOf(quads[..|quads| - 1]);
    assert p.colliderVertices + [] == p.colliderVertices;
    assert p.colliderTris + [] == p.colliderTris;
  }

  /** The buffers of a prefix of the quads are prefixes of the buffers. */
  lemma {:induction false} MeshOfPrefix(quads: seq<Quad>, n: nat)
    requires n <= |quads|
    ensures var m, p := MeshOf(quads), MeshOf(quads[..n]);
      m.vertices[..4 * n] == p.vertices && m.uvs[..4 * n] == p.uvs && m.tris[..6 * n] == p.tris
    decreases |quads|
  {
    if n < |quads| {
      var init := quads[..|quads| - 1];
      MeshOfPrefix(init, n);
      assert init[..n] == quads[..n];
      MeshOfStep(quads);
      var m, mi := MeshOf(quads), MeshOf(init);
      var f := NewFaceData(quads[|quads| - 1].position, quads[|quads| - 1].direction, quads[|quads| - 1].cell, |quads| - 1);
      PrefixOfAppend(mi.vertices, f.vertices, 4 * n);
      PrefixOfAppend(mi.uvs, f.uvs, 4 * n);
      PrefixOfAppend(mi.tris, f.tris, 6 * n);
    } else {
      assert quads[..n] == quads;
    }
  }

  /** Face k of the mesh has the tris [4k, 4k+3, 4k+1, 4k, 4k+2, 4k+3]. */
  lemma {:induction false} TrisOfFace(quads: seq<Quad>, k: nat)
    requires k < |quads|
    ensures MeshOf(quads).tris[6 * k .. 6 * k + 6] == FaceTris(k)
  {
    var m := MeshOf(quads[..k + 1]);
    assert quads[..k + 1][..k] == quads[..k];
    assert m.tris[6 * k ..] == FaceTris(k);
    MeshOfPrefix(quads, k + 1);
    assert MeshOf(quads).tris[6 * k .. 6 * k + 6] == MeshOf(quads).tris[..6 * k + 6][6 * k ..];
  }

  /** Every render index names a render vertex. */
  lemma {:induction false} TrisInRange(quads: seq<Quad>)
    ensures var m := MeshOf(quads); forall j :: 0 <= j < |m.tris| ==> 0 <= m.tris[j] < |m.vertices|
  {
    if |quads| > 0 {
      var n := |quads|;
      TrisInRange(quads[..n - 1]);
      MeshOfStep(quads);
      var m, p := MeshOf(quads), MeshOf(quads[..n - 1]);
      forall j | 0 <= j < |m.tris| ensures 0 <= m.tris[j] < |m.vertices| {
        if j >= |p.tris| {
          assert m.tris[j] == FaceTris(n - 1)[j - |p.tris|];
        }
      }
    }
  }

  /** The vertices of face k are the corners of its direction's face table moved to its block. */
  lemma {:induction false} VerticesOfFace(quads: seq<Quad>, k: nat, c: nat)
    requires k < |quads| && c < 4
    ensures MeshOf(quads).vertices[4 * k + c] == GetFaceVertices(quads[k].direction)[c].Add(quads[k].position)
  {
    var p := MeshOf(quads[..k + 1]);
    assert quads[..k + 1][..k] == quads[..k];
    assert quads[..k + 1][k] == quads[k];
    MeshOfPrefix(quads, k + 1);
    assert MeshOf(quads).vertices[4 * k + c] == MeshOf(quads).vertices[..4 * (k + 1)][4 * k + c];
  }

  /**
   * The collision triangles are the render triangles of the solid faces,
   * copied unchanged: solid face k, the s-th solid face, occupies collision
   * indices 6s .. 6s + 5 with the same values as its render triangles.
   */
  lemma {:induction false} ColliderTrisCopied(quads: seq<Quad>, k: nat)
    requires k < |quads| && quads[k].solid
    ensures 6 * SolidCount(quads[..k]) + 6 <= |MeshOf(quads).colliderTris|
    ensures MeshOf(quads).colliderTris[6 * SolidCount(quads[..k]) .. 6 * SolidCount(quads[..k]) + 6]
         == MeshOf(quads).tris[6 * k .. 6 * k + 6]
    decreases |quads|, 1
  {
    if k < |quads| - 1 {
      ColliderTrisCopiedEarlier(quads, k);
    } else {
      assert quads[..|quads| - 1] == quads[..k];
      LastColliderTris(quads);
    }
  }

  lemma {:induction false} ColliderTrisCopiedEarlier(quads: seq<Quad>, k: nat)
    requires k + 1 < |quads| && quads[k].solid
    ensures 6 * SolidCount(quads[..k]) + 6 <= |MeshOf(quads).colliderTris|
    ensures MeshOf(quads).colliderTris[6 * SolidCount(quads[..k]) .. 6 * SolidCount(quads[..k]) + 6]
         == MeshOf(quads).tris[6 * k .. 6 * k + 6]
    decreases |quads|, 0
  {
    var init := quads[..|quads| - 1];
    ColliderTrisCopied(init, k);
    assert init[..k] == quads[..k];
    TrisKept(quads, k, SolidCount(quads[..k]));
  }

  /** Emitting a last quad keeps the earlier collision and render triangles in place. */
  lemma {:induction false} TrisKept(quads: seq<Quad>, k: nat, s: nat)
    requires k + 1 < |quads|
    requires var p := MeshOf(quads[..|quads| - 1]);
      6 * s + 6 <= |p.colliderTris| && p.colliderTris[6 * s .. 6 * s + 6] == p.tris[6 * k .. 6 * k + 6]
    ensures var m := MeshOf(quads);
      6 * s + 6 <= |m.colliderTris| && m.colliderTris[6 * s .. 6 * s + 6] == m.tris[6 * k .. 6 * k + 6]
  {
    ColliderTrisKept(quads, s);
    RenderTrisKept(quads, k);
  }

  lemma {:induction false} ColliderTrisKept(quads: seq<Quad>, s: nat)
    requires |quads| > 0
    requires 6 * s + 6 <= |MeshOf(quads[..|quads| - 1]).colliderTris|
    ensures 6 * s + 6 <= |MeshOf(quads).colliderTris|
    ensures MeshOf(quads).colliderTris[6 * s .. 6 * s + 6] == MeshOf(quads[..|quads| - 1]).colliderTris[6 * s .. 6 * s + 6]
  {
    ColliderStep(quads);
  }

  lemma {:induction false} RenderTrisKept(quads: seq<Quad>, k: nat)
    requires k + 1 < |quads|
    ensures MeshOf(quads).tris[6 * k .. 6 * k + 6] == MeshOf(quads[..|quads| - 1]).tris[6 * k .. 6 * k + 6]
  {
    MeshOfStep(quads);
  }

  lemma {:induction false} LastColliderTris(quads: seq<Quad>)
    requires |quads| > 0 && quads[|quads| - 1].solid
    ensures var n, s := |quads|, SolidCount(quads[..|quads| - 1]);
      6 * s + 6 <= |MeshOf(quads).colliderTris| &&
      MeshOf(quads).colliderTris[6 * s .. 6 * s + 6] == MeshOf(quads).tris[6 * (n - 1) .. 6 * (n - 1) + 6]
  {
    var n := |quads|;
    var p, m := MeshOf(quads[..n - 1]), MeshOf(quads);
    var f := NewFaceData(quads[n - 1].position, quads[n - 1].direction, quads[n - 1].cell, n - 1);
    MeshOfStep(quads);
    ColliderStep(quads);
    SliceOfAppend(p.colliderTris, f.tris);
    SliceOfAppend(p.tris, f.tris);
  }

  /**
   * As written, the collision triangles of a solid face emitted after a
   * non-solid face point past the collision vertices: here the collision
   * buffers hold 4 vertices and the indices 4 .. 7.
   */
  lemma ColliderIndicesOverrun(p: Coords, cell: TextureCoord)
    ensures var m := MeshOf([Quad(p, Up, cell, false), Quad(p, Down, cell, true)]);
      |m.colliderVertices| == 4 && m.colliderTris == [4, 7, 5, 4, 6, 7]
  {
    var quads := [Quad(p, Up, cell, false), Quad(p, Down, cell, true)];
    assert quads[..1][..0] == [];
    assert quads[..1] == [Quad(p, Up, cell, false)];
    var m0 := MeshOf(quads[..1]);
    assert m0.colliderVertices == [] && m0.colliderTris == [];
  }

  /** Collision buffers indexed against their own vertex list. */
  datatype ColliderMesh = ColliderMesh(vertices: seq<Coords>, tris: seq<int>)

  /**
   * Corrected collision buffers: the collision vertices of `MeshOf`, with
   * the s-th solid face's triangles numbered `FaceTris(s)`, so that every
   * collision index names a collision vertex.
   */
  function ColliderMeshOf(quads: seq<Quad>): (c: ColliderMesh)
    ensures |c.vertices| == 4 * SolidCount(quads) && |c.tris| == 6 * SolidCount(quads)
    ensures forall j :: 0 <= j < |c.tris| ==> 0 <= c.tris[j] < |c.vertices|
    ensures c.vertices == MeshOf(quads).colliderVertices
  {
    if |quads| == 0 then ColliderMesh([], [])
    else
      var init := quads[..|quads| - 1];
      var c := ColliderMeshOf(init);
      var q := quads[|quads| - 1];
      ColliderStep(quads);
      if q.solid then
        var f := NewFaceData(q.position, q.direction, q.cell, SolidCount(init));
        var r := ColliderMesh(c.vertices + f.vertices, c.tris + f.tris);
        assert forall j :: |c.tris| <= j < |r.tris| ==> r.tris[j] == f.tris[j - |c.tris|];
        r
      else c
  }

  /** When every face is solid, renumbering changes nothing: the source is right in that case. */
  lemma {:induction false} ColliderMeshAllSolid(quads: seq<Quad>)
    requires forall k :: 0 <= k < |quads| ==> quads[k].solid
    ensures SolidCount(quads) == |quads|
    ensures ColliderMeshOf(quads).tris == MeshOf(quads).colliderTris
  {
    if |quads| > 0 {
      var init := quads[..|quads| - 1];
      ColliderMeshAllSolid(init);
      ColliderStep(quads);
    }
  }
}
