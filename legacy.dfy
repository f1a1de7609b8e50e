/**
 * The earlier block and chunk of Assets/Block.cs and Assets/Chunk.cs: a
 * block is visible when one of its six neighbour slots is missing or empty,
 * and the mesher emits all six faces of every visible block, without
 * per-face culling, always with atlas cell (0, 0).
 */
module LegacyVoxels {
  import opened Coordinates
  import opened BlockTypes
  import opened Meshing
  import opened Cells
  import opened Sequences

  /** A block of the earlier version: a position and neighbour slots. */
  class Block {
    var position: Coords
    var neighbors: map<Direction, Block?>

    /** A new block has no neighbour entries, so it is visible. */
    constructor (position: Coords)
      ensures this.position == position && neighbors == map[]
      ensures IsVisible()
    {
      this.position := position;
      neighbors := map[];
      new;
      assert Open(Up);
    }

    /**
     * `Dictionary.Add`: the direction must not have an entry yet; exactly
     * that entry is added.
     */
    method SetNeighbor(direction: Direction, block: Block?)
      requires direction !in neighbors
      modifies this`neighbors
      ensures neighbors == old(neighbors)[direction := block]
      ensures neighbors.Keys == old(neighbors.Keys) + {direction}
    {
      neighbors := neighbors[direction := block];
    }

    /** Direction `d` has no entry or a null entry. */
    predicate Open(d: Direction)
      reads this
    {
      d !in neighbors || neighbors[d] == null
    }

    /** Some direction of `ds` is open: the enumeration of `IsVisible`. */
    predicate AnyOpen(ds: seq<Direction>)
      reads this
      ensures AnyOpen(ds) <==> exists i :: 0 <= i < |ds| && Open(ds[i])
    {
      |ds| > 0 && (Open(ds[0]) || AnyOpen(ds[1..]))
    }

    /**
     * The block is visible iff some direction has no entry or a null
     * entry; a block with a non-null entry for all six directions is not.
     */
    predicate IsVisible()
      reads this
      ensures IsVisible() <==> exists d :: Open(d)
      ensures (forall d :: d in neighbors && neighbors[d] != null) ==> !IsVisible()
    {
      OpenSomewhere(this);
      AnyOpen(Directions)
    }
  }

  /** Some direction is open iff one listed in `Directions` is. */
  lemma OpenSomewhere(b: Block)
    ensures (exists d :: b.Open(d)) <==> exists i :: 0 <= i < |Directions| && b.Open(Directions[i])
  {
    if d :| b.Open(d) {
      match d
      case Up => assert Directions[0] == d;
      case Down => assert Directions[1] == d;
      case North => assert Directions[2] == d;
      case East => assert Directions[3] == d;
      case South => assert Directions[4] == d;
      case West => assert Directions[5] == d;
    }
  }

  /** The faces of a visible block at `p` facing the directions `ds`, in that order, all with atlas cell (0, 0). */
  function QuadsAlong(p: Coords, ds: seq<Direction>): (r: seq<Quad>)
    ensures |r| == |ds|
    ensures forall k :: 0 <= k < |ds| ==> r[k] == Quad(p, ds[k], TextureCoord(0.0, 0.0), false)
  {
    seq(|ds|, k requires 0 <= k < |ds| => Quad(p, ds[k], TextureCoord(0.0, 0.0), false))
  }

  /** The six faces a visible block contributes, one per direction in `Directions` order. */
  function BlockQuads(p: Coords): seq<Quad>
  {
    QuadsAlong(p, Directions)
  }

  /** The faces a block contributes: all six when it is visible, none otherwise. */
  function BlockFaces(b: Block): seq<Quad>
    reads b
  {
    if b.IsVisible() then BlockQuads(b.position) else []
  }

  /** The mesher of the earlier version. */
  class Chunk {
    var blocks: array3?<Block>

    constructor ()
      ensures blocks == null
    {
      blocks := null;
    }

    /** Stores the given array itself (no copy) as the chunk's blocks. */
    method SetBlocks(blocks: array3<Block>)
      modifies this
      ensures this.blocks == blocks
    {
      this.blocks := blocks;
    }

    ghost predicate InArray(c: Cell)
      reads this
      requires blocks != null
    {
      0 <= c.0 < blocks.Length0 && 0 <= c.1 < blocks.Length1 && 0 <= c.2 < blocks.Length2
    }

    /** The faces the block at cell `c` contributes: all six when it is visible, none otherwise. */
    ghost function CellQuads(c: Cell): seq<Quad>
      reads *
      requires blocks != null && InArray(c)
    {
      BlockFaces(blocks[c.0, c.1, c.2])
    }

    /** The faces the blocks at `cells` contribute, in that order. */
    ghost function QuadsOf(cells: seq<Cell>): (r: seq<Quad>)
      reads *
      requires blocks != null && forall i :: 0 <= i < |cells| ==> InArray(cells[i])
    {
      if |cells| == 0 then []
      else QuadsOf(cells[..|cells| - 1]) + CellQuads(cells[|cells| - 1])
    }

    /** How many blocks at `cells` are visible. */
    ghost function VisibleCount(cells: seq<Cell>): nat
      reads *
      requires blocks != null && forall i :: 0 <= i < |cells| ==> InArray(cells[i])
    {
      if |cells| == 0 then 0
      else
        var c := cells[|cells| - 1];
        assert InArray(c);
        VisibleCount(cells[..|cells| - 1]) + if blocks[c.0, c.1, c.2].IsVisible() then 1 else 0
    }

    /**
     * The buffers and the face counter hold exactly the faces of the cells
     * a scan has visited before (x, y, z).
     */
    ghost predicate Scanned(x: nat, y: nat, z: nat, vertices: seq<Coords>, uvs: seq<Uv>, tris: seq<int>, i: int)
      reads *
    {
      blocks != null && x <= blocks.Length0 && y <= blocks.Length1 && z <= blocks.Length2 &&
      (x < blocks.Length0 || (y == 0 && z == 0)) && (y < blocks.Length1 || z == 0) &&
      var quads := QuadsOf(Visited(x, y, z, blocks.Length1, blocks.Length2));
      i == |quads| && MeshOf(quads) == MeshData(vertices, uvs, tris, [], [])
    }

    /**
     * The mesh: the render buffers of the six faces of every visible
     * block, in array enumeration order; no collision buffers.
     */
    method GenerateMesh() returns (vertices: seq<Coords>, uvs: seq<Uv>, tris: seq<int>)
      requires blocks != null
      ensures var quads := QuadsOf(RowMajor(blocks.Length0, blocks.Length1, blocks.Length2));
        MeshOf(quads) == MeshData(vertices, uvs, tris, [], [])
    {
      vertices, uvs, tris := [], [], [];
      var i := 0;
      var n0, n1, n2 := blocks.Length0, blocks.Length1, blocks.Length2;
      for x := 0 to n0
        invariant Scanned(x, 0, 0, vertices, uvs, tris, i)
      {
        vertices, uvs, tris, i := ScanPlane(x, vertices, uvs, tris, i);
      }
      VisitedAll(n0, n1, n2);
    }

    /** The plane x of the scan. */
    method ScanPlane(x: nat, vertices: seq<Coords>, uvs: seq<Uv>, tris: seq<int>, i: int)
      returns (vertices': seq<Coords>, uvs': seq<Uv>, tris': seq<int>, i': int)
      requires blocks != null && x < blocks.Length0
      requires Scanned(x, 0, 0, vertices, uvs, tris, i)
      ensures Scanned(x + 1, 0, 0, vertices', uvs', tris', i')
    {
      vertices', uvs', tris', i' := vertices, uvs, tris, i;
      for y := 0 to blocks.Length1
        invariant Scanned(x, y, 0, vertices', uvs', tris', i')
      {
        vertices', uvs', tris', i' := ScanRow(x, y, vertices', uvs', tris', i');
      }
      VisitedPlaneEnd(x, blocks.Length1, blocks.Length2);
    }

    /** The row (x, y) of the scan. */
    method ScanRow(x: nat, y: nat, vertices: seq<Coords>, uvs: seq<Uv>, tris: seq<int>, i: int)
      returns (vertices': seq<Coords>, uvs': seq<Uv>, tris': seq<int>, i': int)
      requires blocks != null && x < blocks.Length0 && y < blocks.Length1
      requires Scanned(x, y, 0, vertices, uvs, tris, i)
      ensures Scanned(x, y + 1, 0, vertices', uvs', tris', i')
    {
      vertices', uvs', tris', i' := vertices, uvs, tris, i;
      for z := 0 to blocks.Length2
        invariant Scanned(x, y, z, vertices', uvs', tris', i')
      {
        vertices', uvs', tris', i' := EmitCell(x, y, z, vertices', uvs', tris', i');
      }
      VisitedRowEnd(x, y, blocks.Length1, blocks.Length2);
    }

    /**
     * Visiting the block at (x, y, z): its six faces when it is visible,
     * from face counter `i` on, nothing otherwise.
     */
    method EmitCell(x: nat, y: nat, z: nat, vertices: seq<Coords>, uvs: seq<Uv>, tris: seq<int>, i: int)
      returns (vertices': seq<Coords>, uvs': seq<Uv>, tris': seq<int>, i': int)
      requires blocks != null && x < blocks.Length0 && y < blocks.Length1 && z < blocks.Length2
      requires Scanned(x, y, z, vertices, uvs, tris, i)
      ensures Scanned(x, y, z + 1, vertices', uvs', tris', i')
    {
      var block := blocks[x, y, z];
      vertices', uvs', tris', i' := EmitBlock(block, QuadsOf(Visited(x, y, z, blocks.Length1, blocks.Length2)), vertices, uvs, tris, i);
      ScanStep(x, y, z, vertices', uvs', tris', i');
    }

    /** One block: its six faces when it is visible, nothing otherwise. */
    method EmitBlock(block: Block, ghost before: seq<Quad>, vertices: seq<Coords>, uvs: seq<Uv>, tris: seq<int>, i: int)
      returns (vertices': seq<Coords>, uvs': seq<Uv>, tris': seq<int>, i': int)
      requires MeshOf(before) == MeshData(vertices, uvs, tris, [], []) && i == |before|
      ensures var quads := before + BlockFaces(block);
        MeshOf(quads) == MeshData(vertices', uvs', tris', [], []) && i' == |quads|
    {
      if block.IsVisible() {
        vertices', uvs', tris', i' := EmitFaces(block.position, Directions, before, vertices, uvs, tris, i);
      } else {
        vertices', uvs', tris', i' := vertices, uvs, tris, i;
        assert before + [] == before;
      }
    }

    /** The faces of a visible block at `p`, one per direction of `ds`, in that order. */
    method EmitFaces(p: Coords, ds: seq<Direction>, ghost before: seq<Quad>, vertices: seq<Coords>, uvs: seq<Uv>, tris: seq<int>, i: int)
      returns (vertices': seq<Coords>, uvs': seq<Uv>, tris': seq<int>, i': int)
      requires MeshOf(before) == MeshData(vertices, uvs, tris, [], []) && i == |before|
      ensures var quads := before + QuadsAlong(p, ds);
        MeshOf(quads) == MeshData(vertices', uvs', tris', [], []) && i' == |quads|
    {
      vertices', uvs', tris', i' := vertices, uvs, tris, i;
      ghost var faces := QuadsAlong(p, ds);
      assert before + faces[..0] == before;
      for k := 0 to |ds|
        invariant var quads := before + faces[..k];
          MeshOf(quads) == MeshData(vertices', uvs', tris', [], []) && i' == |quads|
      {
        var data := NewFaceData(p, ds[k], TextureCoord(0.0, 0.0), i');
        MeshOfAppend(before + faces[..k], faces[k]);
        PrefixStep(before, faces, k);
        vertices' := vertices' + data.vertices;
        uvs' := uvs' + data.uvs;
        tris' := tris' + data.tris;
        i' := i' + 1;
      }
      assert faces[..|ds|] == faces;
    }

    /**
     * Visiting the block at (x, y, z) appends its faces to those of the
     * cells visited before it, so buffers holding both are those of the
     * scan after (x, y, z).
     */
    lemma ScanStep(x: nat, y: nat, z: nat, vertices: seq<Coords>, uvs: seq<Uv>, tris: seq<int>, i: int)
      requires blocks != null && x < blocks.Length0 && y < blocks.Length1 && z < blocks.Length2
      requires var quads := QuadsOf(Visited(x, y, z, blocks.Length1, blocks.Length2)) + CellQuads((x, y, z));
        MeshOf(quads) == MeshData(vertices, uvs, tris, [], []) && i == |quads|
      ensures Scanned(x, y, z + 1, vertices, uvs, tris, i)
    {
      var done := Visited(x, y, z, blocks.Length1, blocks.Length2);
      VisitedStep(x, y, z, blocks.Length1, blocks.Length2);
      assert (done + [(x, y, z)])[..|done|] == done;
    }
  }

  /**
   * With V visible blocks among the cells, the faces number 6V, so the mesh
   * has 24V vertices, 24V UVs and 36V indices.
   */
  lemma {:induction false} QuadsOfCount(c: Chunk, cells: seq<Cell>)
    requires c.blocks != null && forall i :: 0 <= i < |cells| ==> c.InArray(cells[i])
    ensures |c.QuadsOf(cells)| == 6 * c.VisibleCount(cells)
    ensures var m, v := MeshOf(c.QuadsOf(cells)), c.VisibleCount(cells);
      |m.vertices| == 24 * v && |m.uvs| == 24 * v && |m.tris| == 36 * v
  {
    if |cells| > 0 {
      QuadsOfCount(c, cells[..|cells| - 1]);
    }
  }
}
