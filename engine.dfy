/**
 * The voxel world of Assets/Scripts: the `World` and its map of chunks, the
 * `Chunk` with its dense array of blocks, and the `Block` with its type and
 * its links to the six adjacent blocks.
 *
 * A chunk rebuilds its mesh on a worker thread (`GenerateMeshThreaded`);
 * here every such rebuild is a request, the chunk's position, appended to
 * the world's `rebuildRequests` log.
 */
module Engine {
  import opened Wrappers
  import opened Coordinates
  import opened BlockTypes
  import opened Meshing
  import opened Cells
  import opened Sequences

  /** The offsets of the four horizontal neighbour chunks, in the order `Load` and `Unload` visit them. */
  const HorizontalOffsets: seq<ChunkCoords> :=
    [ChunkCoords(1, 0), ChunkCoords(-1, 0), ChunkCoords(0, 1), ChunkCoords(0, -1)]

  /** The keys of the four horizontal neighbours of chunk `k`. */
  function Around(k: ChunkCoords): seq<ChunkCoords>
  {
    [k.Add(HorizontalOffsets[0]), k.Add(HorizontalOffsets[1]),
     k.Add(HorizontalOffsets[2]), k.Add(HorizontalOffsets[3])]
  }

  /** A chunk is not among its own horizontal neighbours. */
  lemma AroundOthers(k: ChunkCoords)
    ensures forall i :: 0 <= i < |Around(k)| ==> Around(k)[i] != k
  {
  }

  /**
   * The type `GenerateChunk` gives the blocks at local height `y`: grass in
   * the top layer, dirt in the two layers below it, stone underneath.
   */
  function BandType(catalogue: Catalogue, y: int): (t: BlockType)
    ensures 0 <= y < ChunkSize ==>
      (y == ChunkSize - 1 ==> t == catalogue.grass) &&
      (y == ChunkSize - 2 || y == ChunkSize - 3 ==> t == catalogue.dirt) &&
      (y < ChunkSize - 3 ==> t == catalogue.stone)
  {
    if y == ChunkSize - 1 then catalogue.grass
    else if y > ChunkSize - 4 then catalogue.dirt
    else catalogue.stone
  }

  /** The world: the generated chunks by position, and the log of mesh rebuild requests. */
  class World {
    var chunks: map<ChunkCoords, Chunk>
    var rebuildRequests: seq<ChunkCoords>
    const catalogue: Catalogue

    constructor (catalogue: Catalogue)
      ensures chunks == map[] && rebuildRequests == [] && this.catalogue == catalogue
      ensures Valid()
    {
      chunks := map[];
      rebuildRequests := [];
      this.catalogue := catalogue;
    }

    /** The chunk at `coords`; null iff there is none. */
    function GetChunk(coords: ChunkCoords): (c: Chunk?)
      reads this`chunks
      ensures c == null <==> coords !in chunks
      ensures c != null ==> c == chunks[coords]
    {
      if coords !in chunks then null else chunks[coords]
    }

    /** Every chunk of the map has its block array. */
    predicate Ready()
      reads this`chunks, chunks.Values`blocks
    {
      forall k :: k in chunks ==> chunks[k].HasBlocks()
    }

    /** Every chunk of the map belongs to this world. */
    predicate Owns()
      reads this`chunks
    {
      forall k :: k in chunks ==> chunks[k].world == this
    }

    /**
     * The invariant `GenerateChunk` keeps: each chunk is stored under its
     * own position, belongs to this world and holds, at every local index,
     * its block for that voxel; every block has a type; and every block is
     * linked, in each of the six directions, to the block the world holds
     * next to it (null where there is none).
     */
    ghost predicate Valid()
      reads this`chunks, chunks.Values`blocks, set c | c in chunks.Values :: c.blocks,
        AllBlocks()`neighbors, AllBlocks()`blockType
    {
      Ready() && Owns() && PlacedChunks(chunks) && Linked() && AllTyped()
    }

    /** The block at voxel `coords`: null when its chunk is absent, else what that chunk holds there. */
    function GetBlock(coords: Coords): (b: Block?)
      requires Ready()
      reads this`chunks, chunks.Values`blocks, set c | c in chunks.Values :: c.blocks
      ensures coords.GetChunk() !in chunks ==> b == null
      ensures coords.GetChunk() in chunks ==> b == chunks[coords.GetChunk()].GetBlock(coords)
    {
      var chunk := coords.GetChunk();
      if chunk !in chunks then null else chunks[chunk].GetBlock(coords)
    }

    /** The blocks held by the chunks of the map. */
    ghost function AllBlocks(): set<Block>
      reads this`chunks, chunks.Values`blocks, set c | c in chunks.Values :: c.blocks
    {
      set k, x, y, z | k in chunks && chunks[k].blocks != null &&
        0 <= x < chunks[k].blocks.Length0 && 0 <= y < chunks[k].blocks.Length1 &&
        0 <= z < chunks[k].blocks.Length2 && chunks[k].blocks[x, y, z] != null
        :: chunks[k].blocks[x, y, z]
    }

    /** Chunk k is in the map, has its array, and holds a block at local index (x, y, z). */
    ghost predicate Holds(k: ChunkCoords, x: int, y: int, z: int)
      reads this`chunks, chunks.Values`blocks, set c | c in chunks.Values :: c.blocks
    {
      k in chunks && chunks[k].HasBlocks() && 0 <= x < ChunkSize && 0 <= y < ChunkSize && 0 <= z < ChunkSize &&
      chunks[k].blocks[x, y, z] != null
    }

    /**
     * What `GetBlock(coords)` finds, defined also while a chunk of the map
     * has no array yet: such a chunk holds no block.
     */
    ghost function Lookup(coords: Coords): Block?
      reads this`chunks, chunks.Values`blocks, set c | c in chunks.Values :: c.blocks
    {
      var k := coords.GetChunk();
      if k in chunks && chunks[k].HasBlocks() then chunks[k].GetBlock(coords) else null
    }

    /** Block b has an entry for d, and it is the block the world holds next to b that way (null included). */
    ghost predicate LinkedAt(b: Block, d: Direction)
      reads this`chunks, chunks.Values`blocks, set c | c in chunks.Values :: c.blocks, b`neighbors
    {
      d in b.neighbors && b.neighbors[d] == Lookup(b.position.Neighbor(d))
    }

    /** Every block of the world is linked, in each direction, to the block the world holds there. */
    ghost predicate Linked()
      reads this`chunks, chunks.Values`blocks, set c | c in chunks.Values :: c.blocks, AllBlocks()`neighbors
    {
      forall k, x, y, z, d :: Holds(k, x, y, z) ==> LinkedAt(chunks[k].blocks[x, y, z], d)
    }

    /** Every block of the world has a type. */
    ghost predicate AllTyped()
      reads this`chunks, chunks.Values`blocks, set c | c in chunks.Values :: c.blocks, AllBlocks()`blockType
    {
      forall k, x, y, z :: Holds(k, x, y, z) ==> chunks[k].blocks[x, y, z].blockType.Some?
    }

    /**
     * Every chunk sits under its own key, and each block it holds belongs to
     * it and is positioned at the voxel its local index stands for.
     */
    ghost predicate Positioned()
      reads this`chunks, chunks.Values`blocks, set c | c in chunks.Values :: c.blocks
    {
      forall k :: k in chunks ==> chunks[k].position == k && chunks[k].HoldsOwn()
    }

    /** A block `Lookup` finds is positioned at the voxel it was looked up by and belongs to that voxel's chunk. */
    lemma LookupLocates(q: Coords)
      requires Positioned()
      ensures Lookup(q) != null ==> Lookup(q).position == q && Lookup(q).chunk == chunks[q.GetChunk()]
    {
      var k := q.GetChunk();
      if k in chunks && chunks[k].HasBlocks() {
        var r := q.Sub(chunks[k].position.GetStartPos());
        if InChunk(r) {
          AddSub(q, chunks[k].position.GetStartPos());
          assert Coords(r.x, r.y, r.z) == r;
        }
      }
    }

    /** Looking up a held block by its own position finds that block. */
    lemma LookupFinds(k: ChunkCoords, x: int, y: int, z: int)
      requires Positioned() && Holds(k, x, y, z)
      ensures Lookup(chunks[k].blocks[x, y, z].position) == chunks[k].blocks[x, y, z]
    {
      StartPosRoundTrip(k, x, y, z);
      AddSub(Coords(x, y, z), k.GetStartPos());
    }

    /** Both lookup facts, for every voxel and every held block. */
    lemma LookupFacts()
      requires Positioned()
      ensures forall q :: Lookup(q) != null ==> Lookup(q).position == q
      ensures forall k, x, y, z :: Holds(k, x, y, z) ==> Lookup(chunks[k].blocks[x, y, z].position) == chunks[k].blocks[x, y, z]
      ensures Ready() ==> forall q :: GetBlock(q) == Lookup(q)
    {
      forall q ensures Lookup(q) != null ==> Lookup(q).position == q {
        LookupLocates(q);
      }
      forall k, x, y, z | Holds(k, x, y, z)
        ensures Lookup(chunks[k].blocks[x, y, z].position) == chunks[k].blocks[x, y, z]
      {
        LookupFinds(k, x, y, z);
      }
    }

    /** Under `Valid` every chunk is positioned. */
    lemma ValidPositioned()
      requires Valid()
      ensures Positioned()
    {
    }

    /**
     * The world stays linked when what it holds at every voxel, the blocks
     * it holds and their links are all as they were.
     */
    twostate lemma LinkedKept()
      requires old(Linked())
      requires forall q :: Lookup(q) == old(Lookup(q))
      requires forall k, x, y, z :: Holds(k, x, y, z) ==>
        old(Holds(k, x, y, z)) && old(chunks[k].blocks[x, y, z]) == chunks[k].blocks[x, y, z] &&
        chunks[k].blocks[x, y, z].neighbors == old(chunks[k].blocks[x, y, z].neighbors)
      ensures Linked()
    {
      forall k, x, y, z, d | Holds(k, x, y, z) ensures LinkedAt(chunks[k].blocks[x, y, z], d) {
        assert old(LinkedAt(chunks[k].blocks[x, y, z], d));
      }
    }

    /** The map, the arrays of its chunks and their contents are as they were. */
    twostate predicate Frozen()
      reads this`chunks, chunks.Values`blocks, set c | c in chunks.Values :: c.blocks
    {
      chunks == old(chunks) && (forall k :: k in chunks ==> chunks[k].blocks == old(chunks[k].blocks)) &&
      forall k, x, y, z :: k in chunks && chunks[k].HasBlocks() && 0 <= x < ChunkSize && 0 <= y < ChunkSize && 0 <= z < ChunkSize ==>
        chunks[k].blocks[x, y, z] == old(chunks[k].blocks[x, y, z])
    }

    /** A frozen world whose blocks keep their links and types stays linked and typed. */
    twostate lemma LinksKept()
      requires old(Linked() && AllTyped()) && Frozen()
      requires forall b: Block :: old(allocated(b)) ==> b.neighbors == old(b.neighbors) && b.blockType == old(b.blockType)
      ensures Linked() && AllTyped()
    {
      FrozenLookup();
      LinkedKept();
    }

    /** A frozen world holds what it held, at every voxel and at every local index. */
    twostate lemma FrozenLookup()
      requires Frozen()
      ensures forall q :: Lookup(q) == old(Lookup(q))
      ensures forall k, x, y, z :: Holds(k, x, y, z) ==>
        old(Holds(k, x, y, z)) && old(chunks[k].blocks[x, y, z]) == chunks[k].blocks[x, y, z]
    {
      forall q ensures Lookup(q) == old(Lookup(q)) {
        var k := q.GetChunk();
        if k in chunks && chunks[k].HasBlocks() {
          var r := q.Sub(chunks[k].position.GetStartPos());
          if InChunk(r) {
            assert chunks[k].blocks[r.x, r.y, r.z] == old(chunks[k].blocks[r.x, r.y, r.z]);
          }
        }
      }
    }

    /**
     * Storing `block` at local index (x, y, z) of chunk c, when every chunk
     * sits under its own key and the other chunks keep their arrays and
     * contents, changes what the world holds at block's voxel only, where it
     * now finds `block`.
     */
    twostate lemma StoreLookup(new c: Chunk, new x: int, new y: int, new z: int, new block: Block)
      requires 0 <= x < ChunkSize && 0 <= y < ChunkSize && 0 <= z < ChunkSize
      requires chunks == old(chunks) && c.position in chunks && chunks[c.position] == c
      requires forall k :: k in chunks ==> chunks[k].position == k && chunks[k].blocks == old(chunks[k].blocks)
      requires forall k, i, j, l ::
        (k in chunks && chunks[k] != c && chunks[k].HasBlocks() &&
         0 <= i < ChunkSize && 0 <= j < ChunkSize && 0 <= l < ChunkSize) ==>
        chunks[k].blocks[i, j, l] == old(chunks[k].blocks[i, j, l])
      requires c.HasBlocks() && c.blocks[x, y, z] == block
      requires forall i, j, l :: 0 <= i < ChunkSize && 0 <= j < ChunkSize && 0 <= l < ChunkSize && (i, j, l) != (x, y, z) ==>
        c.blocks[i, j, l] == old(c.blocks[i, j, l])
      requires block.position == Coords(x, y, z).Add(c.position.GetStartPos())
      ensures forall q :: q != block.position ==> Lookup(q) == old(Lookup(q))
      ensures Lookup(block.position) == block
      ensures forall k, i, j, l :: Holds(k, i, j, l) && chunks[k].blocks[i, j, l] != block ==>
        old(Holds(k, i, j, l)) && old(chunks[k].blocks[i, j, l]) == chunks[k].blocks[i, j, l]
    {
      var start := c.position.GetStartPos();
      forall q | q != block.position ensures Lookup(q) == old(Lookup(q)) {
        var k := q.GetChunk();
        if k == c.position {
          var r := q.Sub(start);
          AddSub(q, start);
          assert r != Coords(x, y, z);
        }
      }
      StartPosRoundTrip(c.position, x, y, z);
      AddSub(Coords(x, y, z), start);
    }

    /** What the world holds at q once `block` is stored at p. */
    ghost function LookupWith(p: Coords, block: Block, q: Coords): Block?
      reads this`chunks, chunks.Values`blocks, set c | c in chunks.Values :: c.blocks
    {
      if q == p then block else Lookup(q)
    }

    /**
     * The world is linked as it will be once `block` is stored at p: the
     * entries of `block` and of every block held name what the world holds
     * next to them, with `block` at p.
     */
    ghost predicate LinkedWith(p: Coords, block: Block)
      reads this`chunks, chunks.Values`blocks, set c | c in chunks.Values :: c.blocks, AllBlocks()`neighbors,
        block`neighbors
    {
      (forall d: Direction :: d in block.neighbors && block.neighbors[d] == LookupWith(p, block, p.Neighbor(d))) &&
      forall k, x, y, z, d :: Holds(k, x, y, z) ==>
        d in chunks[k].blocks[x, y, z].neighbors &&
        chunks[k].blocks[x, y, z].neighbors[d] == LookupWith(p, block, chunks[k].blocks[x, y, z].position.Neighbor(d))
    }

    /**
     * The constructor of a block at p, in a linked world that holds nothing
     * at p, leaves the world linked as it will be once the block is stored:
     * the block took the blocks the world held around p, each of them was
     * linked back to it, and no other entry changed.
     */
    twostate lemma Relinked(new p: Coords, new found: seq<Block?>, new block: Block)
      requires old(Linked())
      requires old(forall q :: Lookup(q) != null ==> Lookup(q).position == q)
      requires old(forall k, x, y, z :: Holds(k, x, y, z) ==>
        Lookup(chunks[k].blocks[x, y, z].position) == chunks[k].blocks[x, y, z])
      requires Frozen()
      requires |found| == |Directions| && forall d: Direction :: found[d.Index()] == old(Lookup(p.Neighbor(d)))
      requires forall d: Direction :: d in block.neighbors && block.neighbors[d] == found[d.Index()]
      requires forall d: Direction :: found[d.Index()] != null ==>
        d.Opposite() in found[d.Index()].neighbors && found[d.Index()].neighbors[d.Opposite()] == block
      requires forall n: Block, e: Direction :: old(allocated(n)) && found[e.Opposite().Index()] != n ==>
        (e in n.neighbors <==> e in old(n.neighbors)) && (e in n.neighbors ==> n.neighbors[e] == old(n.neighbors[e]))
      ensures LinkedWith(p, block)
    {
      FrozenLookup();
      forall k, x, y, z, d | Holds(k, x, y, z)
        ensures d in chunks[k].blocks[x, y, z].neighbors &&
          chunks[k].blocks[x, y, z].neighbors[d] == LookupWith(p, block, chunks[k].blocks[x, y, z].position.Neighbor(d))
      {
        var b := chunks[k].blocks[x, y, z];
        var q := b.position.Neighbor(d);
        assert old(LinkedAt(chunks[k].blocks[x, y, z], d));
        assert old(Lookup(b.position)) == b;
        var back := d.Opposite();
        OppositeInvolution(d);
        NeighborOpposite(b.position, d);
        NeighborOpposite(p, back);
        if q == p {
          assert found[back.Index()] == b;
        } else if found[back.Index()] == b {
          assert false;
        }
      }
    }

    /**
     * Storing the block at p, which changes what the world holds at p only
     * and no link, turns the world linked as it would be with the block at p
     * into a linked world.
     */
    twostate lemma Settle(new p: Coords, block: Block)
      requires old(LinkedWith(p, block))
      requires block.position == p
      requires forall q :: q != p ==> Lookup(q) == old(Lookup(q))
      requires Lookup(p) == block
      requires forall k, x, y, z :: Holds(k, x, y, z) && chunks[k].blocks[x, y, z] != block ==>
        old(Holds(k, x, y, z)) && old(chunks[k].blocks[x, y, z]) == chunks[k].blocks[x, y, z]
      requires forall n: Block :: old(allocated(n)) ==> n.neighbors == old(n.neighbors)
      ensures Linked()
    {
      forall k, x, y, z, d | Holds(k, x, y, z) ensures LinkedAt(chunks[k].blocks[x, y, z], d) {
        var b := chunks[k].blocks[x, y, z];
        if b == block {
          assert p.Neighbor(d) != p;
        }
      }
    }

    /** The blocks the world holds next to voxel `p`, one entry per direction of `Directions`. */
    function NeighborsOf(p: Coords): (r: seq<Block?>)
      requires Ready()
      reads this`chunks, chunks.Values`blocks, set c | c in chunks.Values :: c.blocks
      ensures |r| == |Directions|
      ensures forall j :: 0 <= j < |Directions| ==> r[j] == GetBlock(p.Neighbor(Directions[j]))
    {
      [GetBlock(p.Neighbor(Up)), GetBlock(p.Neighbor(Down)), GetBlock(p.Neighbor(North)),
       GetBlock(p.Neighbor(East)), GetBlock(p.Neighbor(South)), GetBlock(p.Neighbor(West))]
    }

    /** The blocks adjacent to voxel `p`, the ones a new block there links to. */
    ghost function BlocksAround(p: Coords): (r: set<Block>)
      requires Ready()
      reads this`chunks, chunks.Values`blocks, set c | c in chunks.Values :: c.blocks
    {
      set b: Block | b in NeighborsOf(p)
    }

    /** Every block the chunks of the map hold is in `S`. */
    ghost predicate BlocksWithin(S: set<Block>)
      reads this`chunks, chunks.Values`blocks, set c | c in chunks.Values :: c.blocks
    {
      forall k, x, y, z ::
        (k in chunks && chunks[k].blocks != null &&
         0 <= x < chunks[k].blocks.Length0 && 0 <= y < chunks[k].blocks.Length1 &&
         0 <= z < chunks[k].blocks.Length2 && chunks[k].blocks[x, y, z] != null) ==>
        chunks[k].blocks[x, y, z] in S
    }

    /** The blocks a new block at `p` may link to are among those the map holds. */
    lemma AroundWithin(p: Coords, S: set<Block>)
      requires Ready() && BlocksWithin(S)
      ensures BlocksAround(p) <= S
    {
      forall d: Direction | GetBlock(p.Neighbor(d)) != null ensures GetBlock(p.Neighbor(d)) in S {
        var q := p.Neighbor(d);
        var r := q.Sub(chunks[q.GetChunk()].position.GetStartPos());
        assert chunks[q.GetChunk()].blocks[r.x, r.y, r.z] == GetBlock(q);
      }
    }

    /**
     * What `UpdateChunk` on the chunks at `keys`, in order, appends to the
     * log: the position of each such chunk that exists and is loaded.
     */
    function RequestsFor(keys: seq<ChunkCoords>): (r: seq<ChunkCoords>)
      reads this`chunks, chunks.Values`loaded
      ensures |r| <= |keys|
    {
      if |keys| == 0 then [] else RequestsFor(keys[..|keys| - 1]) + RequestAt(keys[|keys| - 1])
    }

    /** What `UpdateChunk` on the chunk at `key` appends: its position when it exists and is loaded. */
    function RequestAt(key: ChunkCoords): (r: seq<ChunkCoords>)
      reads this`chunks, chunks.Values`loaded
    {
      if key in chunks && chunks[key].loaded then [chunks[key].position] else []
    }

    /** `GetChunk(key)?.UpdateChunk()`: a rebuild request for the chunk at `key` when it exists and is loaded. */
    method UpdateChunkAt(key: ChunkCoords)
      requires Owns()
      modifies this`rebuildRequests
      ensures rebuildRequests == old(rebuildRequests) + old(RequestAt(key))
    {
      var c := GetChunk(key);
      if c != null {
        c.UpdateChunk();
      }
    }

    /** Removes every chunk. */
    method ClearWorld()
      modifies this`chunks
      ensures chunks == map[]
      ensures Valid()
    {
      chunks := map[];
    }

    /**
     * A request for chunk c is among those for `keys` exactly when some key
     * names an existing loaded chunk at position c.
     */
    lemma {:induction false} RequestsForExact(keys: seq<ChunkCoords>)
      ensures forall c :: c in RequestsFor(keys) <==>
        (exists i :: 0 <= i < |keys| && keys[i] in chunks && chunks[keys[i]].loaded && c == chunks[keys[i]].position)
    {
      if |keys| > 0 {
        var init := keys[..|keys| - 1];
        RequestsForExact(init);
        forall c | c in RequestsFor(keys)
          ensures exists i :: 0 <= i < |keys| && keys[i] in chunks && chunks[keys[i]].loaded && c == chunks[keys[i]].position
        {
          if c in RequestsFor(init) {
            var i :| 0 <= i < |init| && init[i] in chunks && chunks[init[i]].loaded && c == chunks[init[i]].position;
            assert keys[i] == init[i];
          } else {
            assert c in RequestAt(keys[|keys| - 1]);
          }
        }
        forall c | exists i :: 0 <= i < |keys| && keys[i] in chunks && chunks[keys[i]].loaded && c == chunks[keys[i]].position
          ensures c in RequestsFor(keys)
        {
          var i :| 0 <= i < |keys| && keys[i] in chunks && chunks[keys[i]].loaded && c == chunks[keys[i]].position;
          if i < |init| {
            assert init[i] == keys[i];
          }
        }
      }
    }

    /** Keys the map does not hold request nothing. */
    lemma {:induction false} RequestsForAbsent(keys: seq<ChunkCoords>)
      requires forall i :: 0 <= i < |keys| ==> keys[i] !in chunks
      ensures RequestsFor(keys) == []
    {
      if |keys| > 0 {
        RequestsForAbsent(keys[..|keys| - 1]);
      }
    }

    /**
     * Under `Valid`, `GetBlock(p)` finds a block exactly when p's chunk
     * exists and p's height lies in [0, ChunkSize), and the block it finds is
     * the one at p, held by p's chunk.
     */
    lemma GetBlockLocates(p: Coords)
      requires Valid()
      ensures GetBlock(p) != null <==> p.GetChunk() in chunks && 0 <= p.y < ChunkSize
      ensures GetBlock(p) != null ==> GetBlock(p).position == p && GetBlock(p).chunk == chunks[p.GetChunk()]
    {
      var k := p.GetChunk();
      if k in chunks {
        var r := p.Sub(chunks[k].position.GetStartPos());
        if InChunk(r) {
          AddSub(p, chunks[k].position.GetStartPos());
          assert Coords(r.x, r.y, r.z) == r;
        }
      }
    }

    /**
     * Under `Valid` every block links, in each direction, to the block
     * `GetBlock` finds next to it, null included.
     */
    lemma LinkedResolved(b: Block, d: Direction)
      requires Valid() && b in AllBlocks()
      ensures d in b.neighbors && b.neighbors[d] == GetBlock(b.position.Neighbor(d))
    {
      var k, x, y, z :| k in chunks && chunks[k].blocks != null &&
        0 <= x < chunks[k].blocks.Length0 && 0 <= y < chunks[k].blocks.Length1 &&
        0 <= z < chunks[k].blocks.Length2 && chunks[k].blocks[x, y, z] == b;
      assert Holds(k, x, y, z);
      assert LinkedAt(b, d);
      GetBlockLookup(b.position.Neighbor(d));
    }

    /** Once every chunk has its array, `GetBlock` finds what `Lookup` defines. */
    lemma GetBlockLookup(q: Coords)
      requires Ready()
      ensures GetBlock(q) == Lookup(q)
    {
    }

    /** Under `Valid` links are symmetric: a block linked to in direction d links back in the opposite direction. */
    lemma LinksSymmetric(k: ChunkCoords, x: int, y: int, z: int, d: Direction)
      requires Valid() && Holds(k, x, y, z)
      ensures var b := chunks[k].blocks[x, y, z];
        d in b.neighbors && (b.neighbors[d] != null ==>
          d.Opposite() in b.neighbors[d].neighbors && b.neighbors[d].neighbors[d.Opposite()] == b)
    {
      var b := chunks[k].blocks[x, y, z];
      assert LinkedAt(b, d);
      ValidPositioned();
      var q := b.position.Neighbor(d);
      if b.neighbors[d] != null {
        var kq := q.GetChunk();
        var r := q.Sub(chunks[kq].position.GetStartPos());
        assert Holds(kq, r.x, r.y, r.z);
        LookupLocates(q);
        assert LinkedAt(chunks[kq].blocks[r.x, r.y, r.z], d.Opposite());
        NeighborOpposite(b.position, d);
        LookupFinds(k, x, y, z);
      }
    }

    /** Under `Valid` every chunk of the map can be meshed: its blocks and the blocks they link to are typed. */
    lemma ValidMeshable(k: ChunkCoords)
      requires Valid() && k in chunks
      ensures chunks[k].Meshable()
    {
      var c := chunks[k];
      forall x, y, z | 0 <= x < ChunkSize && 0 <= y < ChunkSize && 0 <= z < ChunkSize
        ensures c.blocks[x, y, z] != null && Typed(c.blocks[x, y, z])
      {
        var b := c.blocks[x, y, z];
        assert Holds(k, x, y, z);
        forall d | d in b.neighbors && b.neighbors[d] != null ensures b.neighbors[d].blockType.Some? {
          assert LinkedAt(b, d);
          var q := b.position.Neighbor(d);
          var kq := q.GetChunk();
          var r := q.Sub(chunks[kq].position.GetStartPos());
          assert Holds(kq, r.x, r.y, r.z);
        }
      }
    }

    /**
     * `GenerateChunk`: when the map has no chunk at `coords`, a new chunk is
     * made there, filled with new blocks linked to their neighbours, typed
     * in bands by height and loaded, which requests rebuilds of the loaded
     * chunks beside it; when the map already has one, nothing changes.  The
     * blocks already there keep every link, except that a null link may
     * come to name a block of the new chunk.  Either way the chunk at
     * `coords` can then be meshed.
     */
    method GenerateChunk(coords: ChunkCoords)
      requires Valid()
      modifies this`chunks, this`rebuildRequests, AllBlocks()`neighbors
      ensures Valid() && coords in chunks && chunks[coords].Meshable()
      ensures old(coords in chunks) ==> chunks == old(chunks) && rebuildRequests == old(rebuildRequests)
      ensures old(coords in chunks) ==> forall b :: b in old(AllBlocks()) ==> b.neighbors == old(b.neighbors)
      ensures !old(coords in chunks) ==>
        chunks == old(chunks)[coords := chunks[coords]] && fresh(chunks[coords]) && chunks[coords].loaded
      ensures !old(coords in chunks) ==>
        forall x, y, z :: 0 <= x < ChunkSize && 0 <= y < ChunkSize && 0 <= z < ChunkSize ==>
          chunks[coords].blocks[x, y, z].blockType == Some(BandType(catalogue, y))
      ensures !old(coords in chunks) ==> rebuildRequests == old(rebuildRequests) + RequestsFor(Around(coords))
      ensures !old(coords in chunks) ==>
        forall b :: b in old(AllBlocks()) ==> LinksGrew(old(b.neighbors), b.neighbors, chunks[coords])
      ensures old(chunks) == map[] ==> rebuildRequests == old(rebuildRequests)
    {
      if coords !in chunks {
        BuildChunk(coords);
        LinksGrown(coords);
      }
      ValidMeshable(coords);
    }

    /** The branch of `GenerateChunk` for a position the map lacks. */
    method BuildChunk(coords: ChunkCoords)
      requires Valid() && coords !in chunks
      modifies this`chunks, this`rebuildRequests, AllBlocks()`neighbors
      ensures Valid()
      ensures coords in chunks && chunks == old(chunks)[coords := chunks[coords]] &&
        fresh(chunks[coords]) && chunks[coords].loaded
      ensures forall x, y, z :: 0 <= x < ChunkSize && 0 <= y < ChunkSize && 0 <= z < ChunkSize ==>
        chunks[coords].blocks[x, y, z].blockType == Some(BandType(catalogue, y))
      ensures rebuildRequests == old(rebuildRequests) + RequestsFor(Around(coords))
      ensures old(chunks) == map[] ==> rebuildRequests == old(rebuildRequests)
    {
      var types := BandTypes(catalogue);
      label banded:
      ghost var before := chunks;
      var chunk := AddChunk(coords);
      ghost var added := chunks;
      chunk.Populate(types);
      assert chunks == added;
      forall x, y, z | 0 <= x < ChunkSize && 0 <= y < ChunkSize && 0 <= z < ChunkSize
        ensures chunk.blocks[x, y, z].blockType == Some(BandType(catalogue, y))
      {
        assert types[x, y, z] == old@banded(types[x, y, z]);
      }
      ValidAdded(chunk);
      if before == map[] {
        AloneQuiet(coords);
      }
    }

    /** A placed chunk stored under its position beside placed chunks of this world, linked and typed, is valid. */
    lemma ValidAdded(chunk: Chunk)
      requires chunk.position in chunks && chunks[chunk.position] == chunk && chunk.Placed()
      requires forall k :: k in chunks ==> chunks[k].position == k
      requires forall k :: k in chunks && chunks[k] != chunk ==> chunks[k].Placed()
      requires Owns() && Linked() && AllTyped()
      ensures Valid()
    {
    }

    /** The only chunk of the map finds no neighbour to request a rebuild of. */
    lemma AloneQuiet(coords: ChunkCoords)
      requires chunks.Keys == {coords}
      ensures RequestsFor(Around(coords)) == []
    {
      AroundOthers(coords);
      RequestsForAbsent(Around(coords));
    }

    /** `chunks.Add(coords, new Chunk(coords, this))` for a position the map lacks. */
    method AddChunk(coords: ChunkCoords) returns (chunk: Chunk)
      requires Valid() && coords !in chunks
      modifies this`chunks
      ensures chunks == old(chunks)[coords := chunk]
      ensures fresh(chunk) && chunk.position == coords && chunk.world == this
      ensures chunk.blocks == null && !chunk.loaded
      ensures Owns() && PlacedChunks(old(chunks)) && AllBlocks() <= old(AllBlocks())
      ensures forall k :: k in chunks ==> chunks[k].position == k
      ensures forall k :: k in chunks && chunks[k] != chunk ==> chunks[k].Placed()
      ensures Linked() && AllTyped()
    {
      chunk := new Chunk(coords, this);
      chunks := chunks[coords := chunk];
      Grown(chunk);
    }

    /**
     * Storing a chunk without an array under a new position, and changing
     * no array, no cell and no block, adds no block and keeps a valid
     * world linked and typed.
     */
    twostate lemma Grown(new chunk: Chunk)
      requires old(Valid()) && chunk.position !in old(chunks)
      requires chunks == old(chunks)[chunk.position := chunk] && chunk.blocks == null
      requires forall k :: k in old(chunks) ==> chunks[k].blocks == old(chunks[k].blocks)
      requires forall k, x, y, z :: k in old(chunks) && 0 <= x < ChunkSize && 0 <= y < ChunkSize && 0 <= z < ChunkSize ==>
        chunks[k].blocks[x, y, z] == old(chunks[k].blocks[x, y, z])
      requires forall b: Block :: old(allocated(b)) ==> b.neighbors == old(b.neighbors) && b.blockType == old(b.blockType)
      ensures AllBlocks() <= old(AllBlocks()) && Linked() && AllTyped()
    {
      var coords := chunk.position;
      forall b | b in AllBlocks() ensures b in old(AllBlocks()) {
        var k, x, y, z :| k in chunks && chunks[k].blocks != null &&
          0 <= x < chunks[k].blocks.Length0 && 0 <= y < chunks[k].blocks.Length1 &&
          0 <= z < chunks[k].blocks.Length2 && chunks[k].blocks[x, y, z] == b;
        assert k in old(chunks) && chunks[k] == old(chunks[k]);
      }
      forall q ensures Lookup(q) == old(Lookup(q)) {
        var k := q.GetChunk();
        if k in chunks && k != coords {
          assert chunks[k] == old(chunks[k]);
        }
      }
      LinkedKept();
      forall k, x, y, z | Holds(k, x, y, z) ensures chunks[k].blocks[x, y, z].blockType.Some? {
        assert old(Holds(k, x, y, z));
      }
    }

    /**
     * Adding a chunk at a position the map lacked, and keeping every other
     * array and its contents, a valid world stays valid only if every block
     * it held keeps its links, except null ones that now name a block of
     * the new chunk.
     */
    twostate lemma LinksGrown(new coords: ChunkCoords)
      requires old(Valid()) && Valid() && coords !in old(chunks)
      requires coords in chunks && chunks == old(chunks)[coords := chunks[coords]]
      requires forall k :: k in old(chunks) ==> chunks[k].blocks == old(chunks[k].blocks)
      requires forall k, x, y, z :: k in old(chunks) && 0 <= x < ChunkSize && 0 <= y < ChunkSize && 0 <= z < ChunkSize ==>
        chunks[k].blocks[x, y, z] == old(chunks[k].blocks[x, y, z])
      ensures forall b :: b in old(AllBlocks()) ==> LinksGrew(old(b.neighbors), b.neighbors, chunks[coords])
    {
      forall q: Coords | q.GetChunk() != coords ensures Lookup(q) == old(Lookup(q)) {
        var kq := q.GetChunk();
        if kq in chunks {
          assert kq in old(chunks) && chunks[kq] == old(chunks[kq]);
        }
      }
      forall b, d: Direction | b in old(AllBlocks()) && d in old(b.neighbors)
        ensures d in b.neighbors && LinkGrew(old(b.neighbors[d]), b.neighbors[d], chunks[coords])
      {
        var k, x, y, z :| old(k in chunks && chunks[k].blocks != null &&
          0 <= x < chunks[k].blocks.Length0 && 0 <= y < chunks[k].blocks.Length1 &&
          0 <= z < chunks[k].blocks.Length2 && chunks[k].blocks[x, y, z] == b);
        LinkGrownAt(coords, k, x, y, z, d);
      }
    }

    /** The step of `LinksGrown` for the block chunk k held at (x, y, z) and direction d. */
    twostate lemma LinkGrownAt(new coords: ChunkCoords, new k: ChunkCoords, new x: int, new y: int, new z: int, new d: Direction)
      requires old(Valid()) && Valid() && coords !in old(chunks) && old(Holds(k, x, y, z))
      requires coords in chunks && chunks == old(chunks)[coords := chunks[coords]]
      requires forall k :: k in old(chunks) ==> chunks[k].blocks == old(chunks[k].blocks)
      requires forall k, x, y, z :: k in old(chunks) && 0 <= x < ChunkSize && 0 <= y < ChunkSize && 0 <= z < ChunkSize ==>
        chunks[k].blocks[x, y, z] == old(chunks[k].blocks[x, y, z])
      requires forall q: Coords :: q.GetChunk() != coords ==> Lookup(q) == old(Lookup(q))
      ensures var b := chunks[k].blocks[x, y, z];
        d in old(b.neighbors) && d in b.neighbors && LinkGrew(old(b.neighbors[d]), b.neighbors[d], chunks[coords])
    {
      ValidPositioned();
      var b := chunks[k].blocks[x, y, z];
      assert Holds(k, x, y, z);
      assert LinkedAt(b, d);
      assert old(LinkedAt(chunks[k].blocks[x, y, z], d));
      var q := b.position.Neighbor(d);
      if q.GetChunk() == coords {
        LookupLocates(q);
      }
    }

    /** `GenerateWorld`: the world is cleared and then holds just the loaded chunk (0, 0). */
    method GenerateWorld()
      requires Valid()
      modifies this`chunks, this`rebuildRequests, AllBlocks()`neighbors
      ensures Valid()
      ensures chunks.Keys == {ChunkCoords(0, 0)} && chunks[ChunkCoords(0, 0)].loaded
      ensures chunks[ChunkCoords(0, 0)].Meshable()
      ensures rebuildRequests == old(rebuildRequests)
    {
      ClearWorld();
      assert AllBlocks() == {};
      GenerateChunk(ChunkCoords(0, 0));
    }
  }

  /**
   * Links `after` keep every entry of `before`, except that a null entry
   * may come to name a block of chunk c.
   */
  ghost predicate LinksGrew(before: map<Direction, Block?>, after: map<Direction, Block?>, c: Chunk)
  {
    forall d :: d in before ==> d in after && LinkGrew(before[d], after[d], c)
  }

  /** One entry of `LinksGrew`: kept, or null before and now a block of chunk c. */
  ghost predicate LinkGrew(before: Block?, after: Block?, c: Chunk)
  {
    after == before || (before == null && after != null && after.chunk == c)
  }

  /** The type array of `GenerateChunk`, filled by its triple loop with the band type of each cell's height. */
  method BandTypes(catalogue: Catalogue) returns (types: array3<BlockType>)
    ensures fresh(types)
    ensures types.Length0 == ChunkSize && types.Length1 == ChunkSize && types.Length2 == ChunkSize
    ensures forall x, y, z :: 0 <= x < ChunkSize && 0 <= y < ChunkSize && 0 <= z < ChunkSize ==>
      types[x, y, z] == BandType(catalogue, y)
  {
    types := new BlockType[ChunkSize, ChunkSize, ChunkSize]((_, _, _) => catalogue.stone);
    for x := 0 to ChunkSize
      invariant forall i, j, l :: 0 <= i < ChunkSize && 0 <= j < ChunkSize && 0 <= l < ChunkSize && Before((i, j, l), x, 0, 0) ==>
        types[i, j, l] == BandType(catalogue, j)
    {
      for y := 0 to ChunkSize
        invariant forall i, j, l :: 0 <= i < ChunkSize && 0 <= j < ChunkSize && 0 <= l < ChunkSize && Before((i, j, l), x, y, 0) ==>
          types[i, j, l] == BandType(catalogue, j)
      {
        for z := 0 to ChunkSize
          invariant forall i, j, l :: 0 <= i < ChunkSize && 0 <= j < ChunkSize && 0 <= l < ChunkSize && Before((i, j, l), x, y, z) ==>
            types[i, j, l] == BandType(catalogue, j)
        {
          types[x, y, z] := BandType(catalogue, y);
        }
      }
    }
  }

  /** Each chunk of `m` is stored under its own position and holds its blocks at their local indices. */
  ghost predicate PlacedChunks(m: map<ChunkCoords, Chunk>)
    reads m.Values`blocks, set c | c in m.Values :: c.blocks
  {
    forall k :: k in m ==> m[k].position == k && m[k].Placed()
  }

  /** Storing a placed chunk under its own position keeps every chunk placed. */
  lemma PlacedChunksAdd(m: map<ChunkCoords, Chunk>, c: Chunk)
    requires PlacedChunks(m) && c.Placed()
    ensures PlacedChunks(m[c.position := c])
  {
  }

  /** Cell c is a local index of a chunk's block array. */
  predicate InGrid(c: Cell)
  {
    0 <= c.0 < ChunkSize && 0 <= c.1 < ChunkSize && 0 <= c.2 < ChunkSize
  }

  /** The cells a scan of a chunk's array has visited are indices of the array. */
  lemma VisitedInGrid(x: nat, y: nat, z: nat)
    requires x <= ChunkSize && y <= ChunkSize && z <= ChunkSize
    requires (x < ChunkSize || (y == 0 && z == 0)) && (y < ChunkSize || z == 0)
    ensures var v := Visited(x, y, z, ChunkSize, ChunkSize); forall i :: 0 <= i < |v| ==> InGrid(v[i])
  {
    var v := Visited(x, y, z, ChunkSize, ChunkSize);
    forall i | 0 <= i < |v| ensures InGrid(v[i]) {
      assert Before(v[i], x, y, z);
    }
  }

  /** Block index (x, y, z) lies inside a chunk. */
  predicate InChunk(c: Coords)
  {
    0 <= c.x < ChunkSize && 0 <= c.y < ChunkSize && 0 <= c.z < ChunkSize
  }

  /**
   * The neighbour entries after the first `k` steps of the block
   * constructor's loop: `m` with `Directions[j]` mapped to `found[j]` for
   * every j < k.
   */
  function LinksUpTo(m: map<Direction, Block?>, found: seq<Block?>, k: nat): map<Direction, Block?>
    requires k <= |found| && k <= |Directions|
  {
    if k == 0 then m else LinksUpTo(m, found, k - 1)[Directions[k - 1] := found[k - 1]]
  }

  /**
   * After k steps every direction of index below k holds what was found
   * there, and the other directions are as they were.
   */
  lemma {:induction false} LinksUpToAt(m: map<Direction, Block?>, found: seq<Block?>, k: nat, d: Direction)
    requires k <= |found| && k <= |Directions|
    ensures d.Index() < k ==> d in LinksUpTo(m, found, k) && LinksUpTo(m, found, k)[d] == found[d.Index()]
    ensures d.Index() >= k ==>
      (d in LinksUpTo(m, found, k) <==> d in m) && (d in m ==> LinksUpTo(m, found, k)[d] == m[d])
  {
    if k > 0 {
      LinksUpToAt(m, found, k - 1, d);
      IndexInverse(k - 1);
    }
  }

  /**
   * The entries of block `n` after the first `k` steps: each step j < k
   * whose found block is `n` links `n` back to `target` through the
   * opposite of `Directions[j]`.
   */
  function BackLinksUpTo(m: map<Direction, Block?>, n: Block, found: seq<Block?>, k: nat, target: Block): map<Direction, Block?>
    requires k <= |found| && k <= |Directions|
  {
    if k == 0 then m
    else
      var r := BackLinksUpTo(m, n, found, k - 1, target);
      if found[k - 1] == n then r[Directions[k - 1].Opposite() := target] else r
  }

  /**
   * After k steps, direction e of `n` holds `target` when the step for the
   * opposite of e came before k and found `n`; every other entry is as it was.
   */
  lemma {:induction false} BackLinksUpToAt(m: map<Direction, Block?>, n: Block, found: seq<Block?>, k: nat, target: Block, e: Direction)
    requires k <= |found| && k <= |Directions|
    ensures e.Opposite().Index() < k && found[e.Opposite().Index()] == n ==>
      e in BackLinksUpTo(m, n, found, k, target) && BackLinksUpTo(m, n, found, k, target)[e] == target
    ensures !(e.Opposite().Index() < k && found[e.Opposite().Index()] == n) ==>
      (e in BackLinksUpTo(m, n, found, k, target) <==> e in m) &&
      (e in m ==> BackLinksUpTo(m, n, found, k, target)[e] == m[e])
  {
    if k > 0 {
      BackLinksUpToAt(m, n, found, k - 1, target, e);
      IndexInverse(k - 1);
      OppositeInvolution(Directions[k - 1]);
      OppositeInjective(Directions[k - 1]);
    }
  }

  /** A column of the world: a position, its owner, its blocks and whether it is loaded. */
  class Chunk {
    const position: ChunkCoords
    const world: World
    var blocks: array3?<Block?>
    var loaded: bool

    /** A new chunk holds no block array yet and is not loaded. */
    constructor (coords: ChunkCoords, world: World)
      ensures position == coords && this.world == world
      ensures blocks == null && !loaded
    {
      position := coords;
      this.world := world;
      blocks := null;
      loaded := false;
    }

    /** The block array exists and is ChunkSize on every side. */
    predicate HasBlocks()
      reads this`blocks
    {
      blocks != null && blocks.Length0 == ChunkSize && blocks.Length1 == ChunkSize && blocks.Length2 == ChunkSize
    }

    /**
     * Every local index holds a block of this chunk positioned at the voxel
     * that index stands for; `CreateBlocks` establishes it.
     */
    ghost predicate Placed()
      reads this`blocks, blocks
    {
      HasBlocks() &&
      forall x, y, z :: 0 <= x < ChunkSize && 0 <= y < ChunkSize && 0 <= z < ChunkSize ==>
        blocks[x, y, z] != null && blocks[x, y, z].chunk == this &&
        blocks[x, y, z].position == Coords(x, y, z).Add(position.GetStartPos())
    }

    /**
     * Each block the array holds belongs to this chunk and is positioned at
     * the voxel its local index stands for (cells may still be empty).
     */
    ghost predicate HoldsOwn()
      reads this`blocks, blocks
    {
      HasBlocks() ==>
        forall x, y, z :: 0 <= x < ChunkSize && 0 <= y < ChunkSize && 0 <= z < ChunkSize && blocks[x, y, z] != null ==>
          blocks[x, y, z].chunk == this && blocks[x, y, z].position == Coords(x, y, z).Add(position.GetStartPos())
    }

    /** The cells before (x, y, z) in row-major order hold their placed blocks. */
    ghost predicate FilledUpTo(x: int, y: int, z: int)
      reads this`blocks, blocks
    {
      HasBlocks() &&
      forall i, j, l :: 0 <= i < ChunkSize && 0 <= j < ChunkSize && 0 <= l < ChunkSize && Before((i, j, l), x, y, z) ==>
        blocks[i, j, l] != null && blocks[i, j, l].chunk == this &&
        blocks[i, j, l].position == Coords(i, j, l).Add(position.GetStartPos())
    }

    /**
     * The state of `CreateBlocks` before cell (x, y, z): the cells before it
     * hold their blocks, every chunk of the world has its array, and the
     * world holds only blocks of `S`.
     */
    ghost predicate Filling(x: int, y: int, z: int, S: set<Block>)
      reads this`blocks, blocks, world`chunks, world.chunks.Values`blocks,
        set c | c in world.chunks.Values :: c.blocks
    {
      FilledUpTo(x, y, z) && world.Ready() && world.BlocksWithin(S)
    }

    /**
     * The rest of the state of `CreateBlocks` before cell (x, y, z): the
     * cells from (x, y, z) on are still empty, every chunk of the world sits
     * under its own key, this one included, and every other chunk is placed,
     * in an array of its own.
     */
    ghost predicate Placing(x: int, y: int, z: int)
      reads this`blocks, blocks, world`chunks, world.chunks.Values`blocks,
        set c | c in world.chunks.Values :: c.blocks
    {
      HasBlocks() && position in world.chunks && world.chunks[position] == this &&
      (forall i, j, l :: 0 <= i < ChunkSize && 0 <= j < ChunkSize && 0 <= l < ChunkSize && !Before((i, j, l), x, y, z) ==>
        blocks[i, j, l] == null) &&
      (forall k :: k in world.chunks ==> world.chunks[k].position == k) &&
      (forall k :: k in world.chunks && world.chunks[k] != this ==>
        world.chunks[k].Placed() && world.chunks[k].blocks != blocks)
    }

    /** While the array fills, every chunk of the world is positioned. */
    lemma PlacingPositioned(x: int, y: int, z: int)
      requires FilledUpTo(x, y, z) && Placing(x, y, z)
      ensures world.Positioned()
    {
      assert HoldsOwn();
    }

    /** The cells before (x, y, z) in row-major order hold blocks of `created`. */
    ghost predicate CreatedUpTo(x: int, y: int, z: int, created: set<Block>)
      reads this`blocks, blocks
    {
      HasBlocks() &&
      forall i, j, l :: 0 <= i < ChunkSize && 0 <= j < ChunkSize && 0 <= l < ChunkSize && Before((i, j, l), x, y, z) ==>
        blocks[i, j, l] in created
    }

    /**
     * Allocates a new ChunkSize³ array and fills it in row-major order with
     * new blocks at the voxels the indices stand for; each new block links
     * itself into the world as its constructor does, so a linked world is
     * linked again once the array is full, the new blocks included.
     */
    method CreateBlocks()
      requires blocks == null && position in world.chunks && world.chunks[position] == this
      requires forall k :: k in world.chunks ==> world.chunks[k].position == k
      requires forall k :: k in world.chunks && world.chunks[k] != this ==> world.chunks[k].Placed()
      requires world.Linked()
      modifies this`blocks, world.AllBlocks()`neighbors
      ensures Placed() && fresh(blocks)
      ensures forall i, j, l :: 0 <= i < ChunkSize && 0 <= j < ChunkSize && 0 <= l < ChunkSize ==> fresh(blocks[i, j, l])
      ensures forall k :: k in world.chunks && world.chunks[k] != this ==> world.chunks[k].Placed()
      ensures world.Linked()
      ensures old(world.AllTyped()) ==> forall k, x, y, z :: world.Holds(k, x, y, z) && world.chunks[k] != this ==>
        world.chunks[k].blocks[x, y, z].blockType.Some? && world.chunks[k].blocks[x, y, z].chunk != this
    {
      ghost var known := world.AllBlocks();
      var cells := Allocate();
      FillPlanes(known);
      forall k, x, y, z | old(world.AllTyped()) && world.Holds(k, x, y, z) && world.chunks[k] != this
        ensures world.chunks[k].blocks[x, y, z].blockType.Some? && world.chunks[k].blocks[x, y, z].chunk != this
      {
        assert old(world.Holds(k, x, y, z));
      }
    }

    /** The loop of `CreateBlocks` over the planes of the new array. */
    method FillPlanes(ghost known: set<Block>)
      requires Filling(0, 0, 0, known) && CreatedUpTo(0, 0, 0, {}) && Placing(0, 0, 0) && world.Linked()
      modifies blocks, known`neighbors
      ensures Placed() && Placing(ChunkSize, 0, 0) && world.Linked()
      ensures forall i, j, l :: 0 <= i < ChunkSize && 0 <= j < ChunkSize && 0 <= l < ChunkSize ==> fresh(blocks[i, j, l])
    {
      ghost var created: set<Block> := {};
      for x := 0 to ChunkSize
        invariant Filling(x, 0, 0, known + created) && CreatedUpTo(x, 0, 0, created) && fresh(created)
        invariant Placing(x, 0, 0) && world.Linked()
      {
        created := CreatePlane(x, known, created);
      }
    }

    /** `blocks = new Block[ChunkSize, ChunkSize, ChunkSize]`: an array of empty cells, which keeps the world linked. */
    method Allocate() returns (cells: array3<Block?>)
      requires blocks == null && position in world.chunks && world.chunks[position] == this
      requires forall k :: k in world.chunks ==> world.chunks[k].position == k
      requires forall k :: k in world.chunks && world.chunks[k] != this ==> world.chunks[k].Placed()
      requires world.Linked()
      modifies this`blocks
      ensures fresh(cells) && blocks == cells
      ensures Filling(0, 0, 0, old(world.AllBlocks())) && CreatedUpTo(0, 0, 0, {})
      ensures Placing(0, 0, 0) && world.Linked()
    {
      cells := new Block?[ChunkSize, ChunkSize, ChunkSize]((_, _, _) => null);
      blocks := cells;
      forall q ensures world.Lookup(q) == old(world.Lookup(q)) {
        var k := q.GetChunk();
        if k in world.chunks && k != position {
          assert world.chunks[k] != this;
        }
      }
      world.LinkedKept();
    }

    /**
     * The steps of `GenerateChunk` after the new chunk is in the map:
     * `CreateBlocks`, `SetBlocks(types)` (the chunk is not loaded yet, so
     * no rebuild is requested) and `Load`.
     */
    method Populate(types: array3<BlockType>)
      requires blocks == null && !loaded && world.Owns() && position in world.chunks && world.chunks[position] == this
      requires forall k :: k in world.chunks ==> world.chunks[k].position == k
      requires forall k :: k in world.chunks && world.chunks[k] != this ==> world.chunks[k].Placed()
      requires world.Linked() && world.AllTyped()
      requires types.Length0 >= ChunkSize && types.Length1 >= ChunkSize && types.Length2 >= ChunkSize
      modifies this`blocks, this`loaded, world.AllBlocks()`neighbors, world`rebuildRequests
      ensures Placed() && fresh(blocks) && loaded
      ensures forall k :: k in world.chunks && world.chunks[k] != this ==> world.chunks[k].Placed()
      ensures forall i, j, l :: 0 <= i < ChunkSize && 0 <= j < ChunkSize && 0 <= l < ChunkSize ==>
        blocks[i, j, l].blockType == Some(types[i, j, l])
      ensures world.Linked() && world.AllTyped()
      ensures world.rebuildRequests == old(world.rebuildRequests) + world.RequestsFor(Around(position))
    {
      CreateTypedBlocks(types);
      label typed:
      Load();
      world.LinksKept@typed();
    }

    /** `CreateBlocks` and then `SetBlocks(types)`, on a chunk not loaded yet. */
    method CreateTypedBlocks(types: array3<BlockType>)
      requires blocks == null && !loaded && world.Owns() && position in world.chunks && world.chunks[position] == this
      requires forall k :: k in world.chunks ==> world.chunks[k].position == k
      requires forall k :: k in world.chunks && world.chunks[k] != this ==> world.chunks[k].Placed()
      requires world.Linked() && world.AllTyped()
      requires types.Length0 >= ChunkSize && types.Length1 >= ChunkSize && types.Length2 >= ChunkSize
      modifies this`blocks, world.AllBlocks()`neighbors, world`rebuildRequests
      ensures Placed() && fresh(blocks)
      ensures forall k :: k in world.chunks && world.chunks[k] != this ==> world.chunks[k].Placed()
      ensures forall i, j, l :: 0 <= i < ChunkSize && 0 <= j < ChunkSize && 0 <= l < ChunkSize ==>
        blocks[i, j, l].blockType == Some(types[i, j, l])
      ensures world.Linked() && world.AllTyped()
      ensures world.rebuildRequests == old(world.rebuildRequests)
    {
      CreateBlocks();
      TypeBlocks(types);
    }

    /**
     * `SetBlocks(types)` on the new blocks of an unloaded chunk whose
     * world holds typed blocks elsewhere: the links stay as they were and
     * every block of the world is then typed.
     */
    method TypeBlocks(types: array3<BlockType>)
      requires Placed() && !loaded && position in world.chunks && world.chunks[position] == this
      requires types.Length0 >= ChunkSize && types.Length1 >= ChunkSize && types.Length2 >= ChunkSize
      requires world.Linked()
      requires forall k, x, y, z :: world.Holds(k, x, y, z) && world.chunks[k] != this ==>
        world.chunks[k].blocks[x, y, z].blockType.Some? && world.chunks[k].blocks[x, y, z].chunk != this
      modifies (set i, j, l | 0 <= i < ChunkSize && 0 <= j < ChunkSize && 0 <= l < ChunkSize :: blocks[i, j, l])`blockType
      modifies world`rebuildRequests
      ensures Placed()
      ensures forall i, j, l :: 0 <= i < ChunkSize && 0 <= j < ChunkSize && 0 <= l < ChunkSize ==>
        blocks[i, j, l].blockType == Some(types[i, j, l])
      ensures world.Linked() && world.AllTyped()
      ensures world.rebuildRequests == old(world.rebuildRequests)
    {
      SetBlocks(types);
      world.LinkedKept();
      forall k, x, y, z | world.Holds(k, x, y, z)
        ensures world.chunks[k].blocks[x, y, z].blockType.Some?
      {
        if world.chunks[k] != this {
          assert old(world.chunks[k].blocks[x, y, z].blockType.Some?);
        }
      }
    }

    /** The plane x of `CreateBlocks`. */
    method CreatePlane(x: int, ghost known: set<Block>, ghost created: set<Block>) returns (ghost created': set<Block>)
      requires 0 <= x < ChunkSize && Filling(x, 0, 0, known + created) && CreatedUpTo(x, 0, 0, created)
      requires Placing(x, 0, 0) && world.Linked()
      modifies blocks, (known + created)`neighbors
      ensures Filling(x + 1, 0, 0, known + created') && CreatedUpTo(x + 1, 0, 0, created')
      ensures Placing(x + 1, 0, 0) && world.Linked()
      ensures created <= created' && fresh(created' - created)
    {
      created' := created;
      for y := 0 to ChunkSize
        invariant Filling(x, y, 0, known + created') && CreatedUpTo(x, y, 0, created')
        invariant Placing(x, y, 0) && world.Linked()
        invariant created <= created' && fresh(created' - created)
      {
        created' := CreateRow(x, y, known, created');
      }
    }

    /** The row (x, y) of `CreateBlocks`. */
    method CreateRow(x: int, y: int, ghost known: set<Block>, ghost created: set<Block>) returns (ghost created': set<Block>)
      requires 0 <= x < ChunkSize && 0 <= y < ChunkSize && Filling(x, y, 0, known + created) && CreatedUpTo(x, y, 0, created)
      requires Placing(x, y, 0) && world.Linked()
      modifies blocks, (known + created)`neighbors
      ensures Filling(x, y + 1, 0, known + created') && CreatedUpTo(x, y + 1, 0, created')
      ensures Placing(x, y + 1, 0) && world.Linked()
      ensures created <= created' && fresh(created' - created)
    {
      created' := created;
      for z := 0 to ChunkSize
        invariant Filling(x, y, z, known + created') && CreatedUpTo(x, y, z, created')
        invariant Placing(x, y, z) && world.Linked()
        invariant created <= created' && fresh(created' - created)
      {
        var block := CreateBlock(x, y, z, known + created', created');
        created' := created' + {block};
      }
    }

    /** `blocks[x, y, z] = new Block(new Coords(x, y, z) + position.GetStartPos(), this)`. */
    method CreateBlock(x: int, y: int, z: int, ghost S: set<Block>, ghost created: set<Block>) returns (block: Block)
      requires 0 <= x < ChunkSize && 0 <= y < ChunkSize && 0 <= z < ChunkSize && Filling(x, y, z, S)
      requires CreatedUpTo(x, y, z, created) && Placing(x, y, z) && world.Linked()
      modifies blocks, S`neighbors
      ensures fresh(block) && Filling(x, y, z + 1, S + {block}) && CreatedUpTo(x, y, z + 1, created + {block})
      ensures Placing(x, y, z + 1) && world.Linked()
    {
      world.AroundWithin(Coords(x, y, z).Add(position.GetStartPos()), S);
      PlacingPositioned(x, y, z);
      block := NewBlock(x, y, z, S);
      Kept(x, y, z, S);
      Store(x, y, z, block, S, created);
    }

    /** The state of `CreateBlocks` before cell (x, y, z) survives any change that leaves the world frozen. */
    twostate lemma Kept(new x: int, new y: int, new z: int, S: set<Block>)
      requires old(Filling(x, y, z, S) && Placing(x, y, z))
      requires world.Frozen()
      ensures Filling(x, y, z, S) && Placing(x, y, z)
    {
    }

    /**
     * `new Block(new Coords(x, y, z) + position.GetStartPos(), this)`: the
     * world is then linked as it will be once the block is stored.
     */
    method NewBlock(x: int, y: int, z: int, ghost S: set<Block>) returns (block: Block)
      requires world.Ready() && world.Positioned() && world.Linked()
      requires world.BlocksAround(Coords(x, y, z).Add(position.GetStartPos())) <= S
      modifies S`neighbors
      ensures fresh(block) && block.chunk == this && block.position == Coords(x, y, z).Add(position.GetStartPos())
      ensures world.LinkedWith(block.position, block) && world.Frozen()
    {
      var p := Coords(x, y, z).Add(position.GetStartPos());
      world.LookupFacts();
      ghost var found := world.NeighborsOf(p);
      assert forall d: Direction :: found[d.Index()] == world.Lookup(p.Neighbor(d));
      block := new Block(p, this);
      world.Relinked(p, found, block);
    }

    /**
     * `blocks[x, y, z] = block` for the block just made for that cell: the
     * world, linked as it would be with the block there, is then linked.
     */
    method Store(x: int, y: int, z: int, block: Block, ghost S: set<Block>, ghost created: set<Block>)
      requires 0 <= x < ChunkSize && 0 <= y < ChunkSize && 0 <= z < ChunkSize && Filling(x, y, z, S)
      requires CreatedUpTo(x, y, z, created) && Placing(x, y, z)
      requires block.chunk == this && block.position == Coords(x, y, z).Add(position.GetStartPos())
      requires world.LinkedWith(block.position, block)
      modifies blocks
      ensures Filling(x, y, z + 1, S + {block}) && CreatedUpTo(x, y, z + 1, created + {block}) && Placing(x, y, z + 1)
      ensures blocks[x, y, z] == block
      ensures forall i, j, l :: 0 <= i < ChunkSize && 0 <= j < ChunkSize && 0 <= l < ChunkSize && (i, j, l) != (x, y, z) ==>
        blocks[i, j, l] == old(blocks[i, j, l])
      ensures world.Linked()
    {
      blocks[x, y, z] := block;
      forall i, j, l | 0 <= i < ChunkSize && 0 <= j < ChunkSize && 0 <= l < ChunkSize && Before((i, j, l), x, y, z + 1)
        ensures blocks[i, j, l] in created + {block}
      {
        if (i, j, l) != (x, y, z) {
          assert old(blocks[i, j, l]) in created;
        }
      }
      Stored(x, y, z, block);
    }

    /**
     * Writing `block` into cell (x, y, z), and nothing else, links the world
     * that was linked as it would be with the block there.
     */
    twostate lemma Stored(new x: int, new y: int, new z: int, block: Block)
      requires 0 <= x < ChunkSize && 0 <= y < ChunkSize && 0 <= z < ChunkSize
      requires old(Placing(x, y, z)) && block.position == Coords(x, y, z).Add(position.GetStartPos())
      requires old(world.LinkedWith(block.position, block))
      requires world.chunks == old(world.chunks)
      requires forall k :: k in world.chunks ==> world.chunks[k].blocks == old(world.chunks[k].blocks)
      requires forall k, i, j, l ::
        (k in world.chunks && world.chunks[k] != this && world.chunks[k].HasBlocks() &&
         0 <= i < ChunkSize && 0 <= j < ChunkSize && 0 <= l < ChunkSize) ==>
        world.chunks[k].blocks[i, j, l] == old(world.chunks[k].blocks[i, j, l])
      requires HasBlocks() && blocks[x, y, z] == block
      requires forall i, j, l :: 0 <= i < ChunkSize && 0 <= j < ChunkSize && 0 <= l < ChunkSize && (i, j, l) != (x, y, z) ==>
        blocks[i, j, l] == old(blocks[i, j, l])
      requires forall n: Block :: old(allocated(n)) ==> n.neighbors == old(n.neighbors)
      ensures world.Linked()
    {
      world.StoreLookup(this, x, y, z, block);
      world.Settle(block.position, block);
    }

    /** Every block of the array links only to blocks of its own world. */
    ghost predicate LinksInWorld()
      reads *
      requires HasBlocks()
    {
      forall i, j, l :: 0 <= i < ChunkSize && 0 <= j < ChunkSize && 0 <= l < ChunkSize && blocks[i, j, l] != null ==>
        blocks[i, j, l].SameWorld()
    }

    /** The blocks of the cells before (x, y, z) have the types `types` gives their cells. */
    ghost predicate TypedUpTo(types: array3<BlockType>, x: int, y: int, z: int)
      reads *
      requires HasBlocks() && types.Length0 >= ChunkSize && types.Length1 >= ChunkSize && types.Length2 >= ChunkSize
    {
      forall i, j, l :: 0 <= i < ChunkSize && 0 <= j < ChunkSize && 0 <= l < ChunkSize && Before((i, j, l), x, y, z) ==>
        blocks[i, j, l] != null && blocks[i, j, l].blockType == Some(types[i, j, l])
    }

    /**
     * Gives the block at every local index the type `types` holds there, in
     * row-major order.  Each `SetType` of a loaded chunk's block requests
     * rebuilds, so the log only grows; an unloaded chunk requests nothing.
     */
    method SetBlocks(types: array3<BlockType>)
      requires Placed() && types.Length0 >= ChunkSize && types.Length1 >= ChunkSize && types.Length2 >= ChunkSize
      requires loaded ==> LinksInWorld()
      modifies (set i, j, l | 0 <= i < ChunkSize && 0 <= j < ChunkSize && 0 <= l < ChunkSize :: blocks[i, j, l])`blockType
      modifies world`rebuildRequests
      ensures Placed()
      ensures forall i, j, l :: 0 <= i < ChunkSize && 0 <= j < ChunkSize && 0 <= l < ChunkSize ==>
        blocks[i, j, l].blockType == Some(types[i, j, l])
      ensures old(world.rebuildRequests) <= world.rebuildRequests
      ensures !loaded ==> world.rebuildRequests == old(world.rebuildRequests)
    {
      ghost var log := world.rebuildRequests;
      for x := 0 to ChunkSize
        invariant Setting(types, x, 0, 0, log)
      {
        SetPlane(types, x, log);
      }
    }

    /**
     * The state of `SetBlocks` before cell (x, y, z), the log having been
     * `log` at the start.
     */
    ghost predicate Setting(types: array3<BlockType>, x: int, y: int, z: int, log: seq<ChunkCoords>)
      reads *
    {
      Placed() && types.Length0 >= ChunkSize && types.Length1 >= ChunkSize && types.Length2 >= ChunkSize &&
      TypedUpTo(types, x, y, z) && (loaded ==> LinksInWorld()) &&
      log <= world.rebuildRequests && (!loaded ==> world.rebuildRequests == log)
    }

    /** The plane x of `SetBlocks`. */
    method SetPlane(types: array3<BlockType>, x: int, ghost log: seq<ChunkCoords>)
      requires 0 <= x < ChunkSize && Setting(types, x, 0, 0, log)
      modifies (set i, j, l | 0 <= i < ChunkSize && 0 <= j < ChunkSize && 0 <= l < ChunkSize :: blocks[i, j, l])`blockType
      modifies world`rebuildRequests
      ensures Setting(types, x + 1, 0, 0, log)
    {
      for y := 0 to ChunkSize
        invariant Setting(types, x, y, 0, log)
      {
        SetRow(types, x, y, log);
      }
    }

    /** The row (x, y) of `SetBlocks`. */
    method SetRow(types: array3<BlockType>, x: int, y: int, ghost log: seq<ChunkCoords>)
      requires 0 <= x < ChunkSize && 0 <= y < ChunkSize && Setting(types, x, y, 0, log)
      modifies (set i, j, l | 0 <= i < ChunkSize && 0 <= j < ChunkSize && 0 <= l < ChunkSize :: blocks[i, j, l])`blockType
      modifies world`rebuildRequests
      ensures Setting(types, x, y + 1, 0, log)
    {
      for z := 0 to ChunkSize
        invariant Setting(types, x, y, z, log)
      {
        SetCell(types, x, y, z, log);
      }
    }

    /** `this.blocks[x, y, z].SetType(blocks[x, y, z])`. */
    method SetCell(types: array3<BlockType>, x: int, y: int, z: int, ghost log: seq<ChunkCoords>)
      requires 0 <= x < ChunkSize && 0 <= y < ChunkSize && 0 <= z < ChunkSize && Setting(types, x, y, z, log)
      modifies blocks[x, y, z]`blockType, world`rebuildRequests
      ensures Setting(types, x, y, z + 1, log)
    {
      var block := blocks[x, y, z];
      forall i, j, l | 0 <= i < ChunkSize && 0 <= j < ChunkSize && 0 <= l < ChunkSize && Before((i, j, l), x, y, z)
        ensures blocks[i, j, l] != block
      {
        assert blocks[i, j, l].position.Sub(position.GetStartPos()) == Coords(i, j, l);
      }
      label pre:
      block.SetType(types[x, y, z]);
      forall i, j, l | 0 <= i < ChunkSize && 0 <= j < ChunkSize && 0 <= l < ChunkSize && Before((i, j, l), x, y, z + 1)
        ensures blocks[i, j, l] != null && blocks[i, j, l].blockType == Some(types[i, j, l])
      {
        if (i, j, l) != (x, y, z) {
          assert old@pre(blocks[i, j, l].blockType) == Some(types[i, j, l]);
        }
      }
    }

    /**
     * The block at voxel `coords`: null unless every component of `coords`
     * relative to the chunk's corner lies in [0, ChunkSize), else the block
     * at that local index.
     */
    function GetBlock(coords: Coords): (b: Block?)
      requires HasBlocks()
      reads this`blocks, blocks
      ensures var r := coords.Sub(position.GetStartPos());
        (!InChunk(r) ==> b == null) && (InChunk(r) ==> b == blocks[r.x, r.y, r.z])
    {
      var relative := coords.Sub(position.GetStartPos());
      if relative.x < 0 || relative.x >= ChunkSize || relative.y < 0 || relative.y >= ChunkSize ||
         relative.z < 0 || relative.z >= ChunkSize
      then null
      else blocks[relative.x, relative.y, relative.z]
    }

    /** Once the blocks are placed, looking a block up by its own position finds that block. */
    lemma GetBlockPlaced(x: int, y: int, z: int)
      requires Placed() && 0 <= x < ChunkSize && 0 <= y < ChunkSize && 0 <= z < ChunkSize
      ensures GetBlock(blocks[x, y, z].position) == blocks[x, y, z]
    {
      AddSub(Coords(x, y, z), position.GetStartPos());
    }

    /** The array is there, and every block of it has a type and links only to typed blocks. */
    ghost predicate Meshable()
      reads *
    {
      HasBlocks() &&
      forall x, y, z :: 0 <= x < ChunkSize && 0 <= y < ChunkSize && 0 <= z < ChunkSize ==>
        blocks[x, y, z] != null && Typed(blocks[x, y, z])
    }

    /** The faces the block at cell `c` contributes to the mesh. */
    ghost function CellQuads(c: Cell): seq<Quad>
      reads *
      requires Meshable() && InGrid(c)
    {
      BlockFaces(blocks[c.0, c.1, c.2])
    }

    /** The faces the blocks at `cells` contribute, in that order. */
    ghost function QuadsOf(cells: seq<Cell>): seq<Quad>
      reads *
      requires Meshable() && forall i :: 0 <= i < |cells| ==> InGrid(cells[i])
    {
      if |cells| == 0 then []
      else QuadsOf(cells[..|cells| - 1]) + CellQuads(cells[|cells| - 1])
    }

    /**
     * The buffers and the face counter hold exactly the faces of the cells
     * a scan has visited before (x, y, z).
     */
    ghost predicate Scanned(x: nat, y: nat, z: nat, buffers: MeshData, i: int)
      reads *
    {
      Meshable() && x <= ChunkSize && y <= ChunkSize && z <= ChunkSize &&
      (x < ChunkSize || (y == 0 && z == 0)) && (y < ChunkSize || z == 0) &&
      (VisitedInGrid(x, y, z);
       var quads := QuadsOf(Visited(x, y, z, ChunkSize, ChunkSize));
       i == |quads| && MeshOf(quads) == buffers)
    }

    /**
     * `GenerateMesh`: the render buffers of every face the blocks show, in
     * array enumeration order and, within a block, in `Directions` order;
     * the faces of solid blocks are copied into the collision buffers.
     */
    method GenerateMesh() returns (mesh: MeshData)
      requires Meshable()
      ensures mesh == MeshOf(QuadsOf(RowMajor(ChunkSize, ChunkSize, ChunkSize)))
    {
      mesh := MeshData([], [], [], [], []);
      var i := 0;
      for x := 0 to ChunkSize
        invariant Scanned(x, 0, 0, mesh, i)
      {
        mesh, i := ScanPlane(x, mesh, i);
      }
      VisitedAll(ChunkSize, ChunkSize, ChunkSize);
    }

    /** The plane x of the scan. */
    method ScanPlane(x: nat, buffers: MeshData, i: int) returns (buffers': MeshData, i': int)
      requires x < ChunkSize && Scanned(x, 0, 0, buffers, i)
      ensures Scanned(x + 1, 0, 0, buffers', i')
    {
      buffers', i' := buffers, i;
      for y := 0 to ChunkSize
        invariant Scanned(x, y, 0, buffers', i')
      {
        buffers', i' := ScanRow(x, y, buffers', i');
      }
      VisitedPlaneEnd(x, ChunkSize, ChunkSize);
    }

    /** The row (x, y) of the scan. */
    method ScanRow(x: nat, y: nat, buffers: MeshData, i: int) returns (buffers': MeshData, i': int)
      requires x < ChunkSize && y < ChunkSize && Scanned(x, y, 0, buffers, i)
      ensures Scanned(x, y + 1, 0, buffers', i')
    {
      buffers', i' := buffers, i;
      for z := 0 to ChunkSize
        invariant Scanned(x, y, z, buffers', i')
      {
        buffers', i' := ScanCell(x, y, z, buffers', i');
      }
      VisitedRowEnd(x, y, ChunkSize, ChunkSize);
    }

    /** The block at (x, y, z) of the scan. */
    method ScanCell(x: nat, y: nat, z: nat, buffers: MeshData, i: int) returns (buffers': MeshData, i': int)
      requires x < ChunkSize && y < ChunkSize && z < ChunkSize && Scanned(x, y, z, buffers, i)
      ensures Scanned(x, y, z + 1, buffers', i')
    {
      CellTyped(x, y, z);
      var block := blocks[x, y, z];
      VisitedInGrid(x, y, z);
      buffers', i' := EmitBlock(block, QuadsOf(Visited(x, y, z, ChunkSize, ChunkSize)), buffers, i);
      ScanStep(x, y, z, buffers', i');
    }

    /** The block at a cell of a meshable chunk is there and typed, neighbours included. */
    lemma CellTyped(x: nat, y: nat, z: nat)
      requires Meshable() && x < ChunkSize && y < ChunkSize && z < ChunkSize
      ensures HasBlocks() && blocks[x, y, z] != null && Typed(blocks[x, y, z])
    {
    }

    /**
     * Visiting one block: nothing when it is invisible, else the faces it
     * shows, in `Directions` order, numbered from the face counter `i` on.
     */
    method EmitBlock(block: Block, ghost before: seq<Quad>, buffers: MeshData, i: int) returns (buffers': MeshData, i': int)
      requires Typed(block) && MeshOf(before) == buffers && i == |before|
      ensures var quads := before + BlockFaces(block); MeshOf(quads) == buffers' && i' == |quads|
    {
      buffers', i' := buffers, i;
      if !block.IsVisible() {
        assert before + [] == before;
        return;
      }
      buffers', i' := EmitFaces(block, Directions, before, buffers, i);
    }

    /** The direction loop of a visible block, over the directions `ds` in order. */
    method EmitFaces(block: Block, ds: seq<Direction>, ghost before: seq<Quad>, buffers: MeshData, i: int)
      returns (buffers': MeshData, i': int)
      requires Typed(block) && MeshOf(before) == buffers && i == |before|
      ensures var quads := before + FacesAlong(block, ds); MeshOf(quads) == buffers' && i' == |quads|
    {
      buffers', i' := buffers, i;
      assert before + FacesAlong(block, ds[..0]) == before;
      for k := 0 to |ds|
        invariant var quads := before + FacesAlong(block, ds[..k]); MeshOf(quads) == buffers' && i' == |quads|
      {
        buffers', i' := EmitDirection(block, ds, k, before, buffers', i');
      }
      assert ds[..|ds|] == ds;
    }

    /** Direction k of the loop: the faces of `ds[..k]` become those of `ds[..k + 1]`. */
    method EmitDirection(block: Block, ds: seq<Direction>, k: nat, ghost before: seq<Quad>, buffers: MeshData, i: int)
      returns (buffers': MeshData, i': int)
      requires Typed(block) && k < |ds|
      requires var quads := before + FacesAlong(block, ds[..k]); MeshOf(quads) == buffers && i == |quads|
      ensures var quads := before + FacesAlong(block, ds[..k + 1]); MeshOf(quads) == buffers' && i' == |quads|
    {
      ghost var quads := before + FacesAlong(block, ds[..k]);
      buffers', i' := EmitFace(block, ds[k], quads, buffers, i);
      FacesAlongStep(block, ds, k);
      AppendAssoc(before, FacesAlong(block, ds[..k]), FaceAt(block, ds[k]));
    }

    /**
     * One direction for a visible block: when the block is visible from it
     * and its model has a face for it, that face is written as face number
     * `i`, into the collision buffers too when the block is solid.
     */
    method EmitFace(block: Block, direction: Direction, ghost quads: seq<Quad>, buffers: MeshData, i: int)
      returns (buffers': MeshData, i': int)
      requires Typed(block) && MeshOf(quads) == buffers && i == |quads|
      ensures var quads' := quads + FaceAt(block, direction); MeshOf(quads') == buffers' && i' == |quads'|
    {
      var face := block.blockType.value.model.GetFace(direction);
      if !block.IsVisibleFrom(direction) || face.None? {
        assert quads + [] == quads;
        return buffers, i;
      }
      var data := NewFaceData(block.position, direction, face.value.textureCoord, i);
      MeshOfAppend(quads, Quad(block.position, direction, face.value.textureCoord, block.blockType.value.solid));
      buffers' := MeshData(buffers.vertices + data.vertices, buffers.uvs + data.uvs, buffers.tris + data.tris,
        if block.blockType.value.solid then buffers.colliderVertices + data.vertices else buffers.colliderVertices,
        if block.blockType.value.solid then buffers.colliderTris + data.tris else buffers.colliderTris);
      i' := i + 1;
    }

    /**
     * Visiting the block at (x, y, z) appends its faces to those of the
     * cells visited before it, so buffers holding both are those of the
     * scan after (x, y, z).
     */
    lemma ScanStep(x: nat, y: nat, z: nat, buffers: MeshData, i: int)
      requires Meshable() && x < ChunkSize && y < ChunkSize && z < ChunkSize
      requires (VisitedInGrid(x, y, z);
        var quads := QuadsOf(Visited(x, y, z, ChunkSize, ChunkSize)) + BlockFaces(blocks[x, y, z]);
        MeshOf(quads) == buffers && i == |quads|)
      ensures Scanned(x, y, z + 1, buffers, i)
    {
      VisitedStep(x, y, z, ChunkSize, ChunkSize);
      VisitedInGrid(x, y, z);
      VisitedInGrid(x, y, z + 1);
      QuadsOfAppend(Visited(x, y, z, ChunkSize, ChunkSize), (x, y, z));
    }

    /** The faces of one more cell follow those of the cells before it. */
    lemma QuadsOfAppend(cells: seq<Cell>, c: Cell)
      requires Meshable() && InGrid(c) && forall i :: 0 <= i < |cells| ==> InGrid(cells[i])
      ensures QuadsOf(cells + [c]) == QuadsOf(cells) + CellQuads(c)
    {
      assert (cells + [c])[..|cells|] == cells;
    }

    /** A rebuild of the mesh is requested, only when the chunk is loaded. */
    method UpdateChunk()
      modifies world`rebuildRequests
      ensures world.rebuildRequests == old(world.rebuildRequests) + (if loaded then [position] else [])
    {
      if !loaded {
        return;
      }
      world.rebuildRequests := world.rebuildRequests + [position];
    }

    /**
     * Loading an unloaded chunk sets `loaded` and requests rebuilds of the
     * loaded chunks at +x, -x, +z and -z, in that order; a loaded chunk is
     * left as it is.
     */
    method Load()
      requires world.Owns()
      modifies this`loaded, world`rebuildRequests
      ensures loaded
      ensures old(loaded) ==> world.rebuildRequests == old(world.rebuildRequests)
      ensures !old(loaded) ==>
        world.rebuildRequests == old(world.rebuildRequests) + world.RequestsFor(Around(position))
      ensures world.Frozen()
      ensures forall b: Block :: old(allocated(b)) ==> b.neighbors == old(b.neighbors) && b.blockType == old(b.blockType)
    {
      if loaded {
        return;
      }
      loaded := true;
      RequestAround();
    }

    /**
     * Unloading a loaded chunk clears `loaded` and requests rebuilds of the
     * loaded chunks at +x, -x, +z and -z, in that order; an unloaded chunk
     * is left as it is.
     */
    method Unload()
      requires world.Owns()
      modifies this`loaded, world`rebuildRequests
      ensures !loaded
      ensures !old(loaded) ==> world.rebuildRequests == old(world.rebuildRequests)
      ensures old(loaded) ==>
        world.rebuildRequests == old(world.rebuildRequests) + world.RequestsFor(Around(position))
    {
      if !loaded {
        return;
      }
      loaded := false;
      RequestAround();
    }

    /** The four `world.GetChunk(position + offset)?.UpdateChunk()` calls of `Load` and `Unload`. */
    method RequestAround()
      requires world.Owns()
      modifies world`rebuildRequests
      ensures world.rebuildRequests == old(world.rebuildRequests) + world.RequestsFor(Around(position))
    {
      ghost var keys := Around(position);
      ghost var log := world.rebuildRequests;
      ghost var expected := world.RequestsFor(keys);
      assert keys[..1][..0] == [] && keys[..2][..1] == keys[..1] && keys[..3][..2] == keys[..2];
      assert keys[..4][..3] == keys[..3] && keys[..4] == keys;
      ghost var p1, p2, p3 := world.RequestsFor(keys[..1]), world.RequestsFor(keys[..2]), world.RequestsFor(keys[..3]);
      ghost var a1, a2, a3 := world.RequestAt(keys[1]), world.RequestAt(keys[2]), world.RequestAt(keys[3]);
      assert p1 == [] + world.RequestAt(keys[0]) && p2 == p1 + a1 && p3 == p2 + a2 && expected == p3 + a3;
      world.UpdateChunkAt(position.Add(ChunkCoords(1, 0)));
      assert world.rebuildRequests == log + p1;
      world.UpdateChunkAt(position.Add(ChunkCoords(-1, 0)));
      AppendAssoc(log, p1, a1);
      world.UpdateChunkAt(position.Add(ChunkCoords(0, 1)));
      AppendAssoc(log, p2, a2);
      world.UpdateChunkAt(position.Add(ChunkCoords(0, -1)));
      AppendAssoc(log, p3, a3);
      assert world.RequestsFor(keys) == expected;
    }
  }

  /** A voxel: its position, its chunk, its type (None until one is set) and its neighbour links. */
  class Block {
    const position: Coords
    const chunk: Chunk
    var blockType: Option<BlockType>
    var neighbors: map<Direction, Block?>

    /**
     * A new block at `position` of `chunk`: it asks the world for the block
     * in each direction, records the answer (null included), and links every
     * block it finds back to itself through the opposite direction.  The
     * back links are the only change to other blocks.
     */
    constructor (position: Coords, chunk: Chunk)
      requires chunk.world.Ready()
      modifies chunk.world.BlocksAround(position)`neighbors
      ensures this.position == position && this.chunk == chunk && blockType == None
      ensures var found := old(chunk.world.NeighborsOf(position));
        (forall d: Direction :: d in neighbors && neighbors[d] == found[d.Index()]) &&
        (forall d: Direction :: found[d.Index()] != null ==>
          d.Opposite() in found[d.Index()].neighbors && found[d.Index()].neighbors[d.Opposite()] == this) &&
        (forall n: Block, e: Direction :: old(allocated(n)) && found[e.Opposite().Index()] != n ==>
          (e in n.neighbors <==> e in old(n.neighbors)) && (e in n.neighbors ==> n.neighbors[e] == old(n.neighbors[e])))
    {
      var found := chunk.world.NeighborsOf(position);
      this.position := position;
      this.chunk := chunk;
      blockType := None;
      neighbors := map[];
      new;
      LinkAll(found);
    }

    /**
     * The constructor's loop over `Directions`: step k records `found[k]`
     * as the entry for `Directions[k]` and links a non-null `found[k]` back.
     */
    method LinkAll(found: seq<Block?>)
      requires |found| == |Directions|
      requires forall j :: 0 <= j < |found| ==> found[j] != this
      modifies this`neighbors, (set j | 0 <= j < |found| && found[j] != null :: found[j])`neighbors
      ensures forall d: Direction :: d in neighbors && neighbors[d] == found[d.Index()]
      ensures forall d: Direction :: found[d.Index()] != null ==>
        d.Opposite() in found[d.Index()].neighbors && found[d.Index()].neighbors[d.Opposite()] == this
      ensures forall n: Block, e: Direction :: old(allocated(n)) && n != this && found[e.Opposite().Index()] != n ==>
        (e in n.neighbors <==> e in old(n.neighbors)) && (e in n.neighbors ==> n.neighbors[e] == old(n.neighbors[e]))
    {
      for k := 0 to |Directions|
        invariant neighbors == LinksUpTo(old(neighbors), found, k)
        invariant forall n: Block :: old(allocated(n)) && n != this ==>
          n.neighbors == BackLinksUpTo(old(n.neighbors), n, found, k, this)
      {
        Link(Directions[k], found[k]);
      }
      forall d: Direction ensures d in neighbors && neighbors[d] == found[d.Index()] {
        LinksUpToAt(old(neighbors), found, |Directions|, d);
      }
      forall n: Block, e: Direction | old(allocated(n)) && n != this
        ensures found[e.Opposite().Index()] == n ==> e in n.neighbors && n.neighbors[e] == this
        ensures found[e.Opposite().Index()] != n ==>
          (e in n.neighbors <==> e in old(n.neighbors)) && (e in n.neighbors ==> n.neighbors[e] == old(n.neighbors[e]))
      {
        BackLinksUpToAt(old(n.neighbors), n, found, |Directions|, this, e);
      }
      forall d: Direction | found[d.Index()] != null
        ensures d.Opposite() in found[d.Index()].neighbors && found[d.Index()].neighbors[d.Opposite()] == this
      {
        OppositeInvolution(d);
      }
    }

    /** One step of the constructor's loop: the entry for `direction`, and the back link of a found block. */
    method Link(direction: Direction, neighbor: Block?)
      requires neighbor != this
      modifies this`neighbors, (if neighbor == null then {} else {neighbor})`neighbors
      ensures neighbors == old(neighbors)[direction := neighbor]
      ensures neighbor != null ==> neighbor.neighbors == old(neighbor.neighbors)[direction.Opposite() := this]
    {
      SetNeighbor(direction, neighbor);
      if neighbor != null {
        neighbor.SetNeighbor(direction.Opposite(), this);
      }
    }

    /** Links `direction` to `block`, inserting the entry or overwriting it. */
    method SetNeighbor(direction: Direction, block: Block?)
      modifies this`neighbors
      ensures neighbors.Keys == old(neighbors.Keys) + {direction}
      ensures neighbors[direction] == block
      ensures forall d :: d in old(neighbors) && d != direction ==> neighbors[d] == old(neighbors[d])
    {
      // The indexer assignment of an existing key and `Add` of a new one are both this map update.
      neighbors := neighbors[direction := block];
    }

    /** Every linked block has a type (the visibility test reads it). */
    predicate NeighborsTyped()
      reads this`neighbors, (set b: Block | b in neighbors.Values)`blockType
    {
      forall d :: d in neighbors && neighbors[d] != null ==> neighbors[d].blockType.Some?
    }

    /** Every linked block belongs to a chunk of this block's world. */
    predicate SameWorld()
      reads this`neighbors
    {
      forall d :: d in neighbors && neighbors[d] != null ==> neighbors[d].chunk.world == chunk.world
    }

    /**
     * The face towards `direction` can be seen: there is no entry, the entry
     * is null, the neighbour is transparent, or the neighbour lies in another
     * chunk that is not loaded.  Otherwise an opaque neighbour of this chunk
     * or of a loaded chunk hides it.
     */
    predicate IsVisibleFrom(direction: Direction)
      requires NeighborsTyped()
      reads this`neighbors, (set b: Block | b in neighbors.Values)`blockType, (set b: Block | b in neighbors.Values :: b.chunk)`loaded
      ensures !IsVisibleFrom(direction) <==>
        direction in neighbors && neighbors[direction] != null &&
        !neighbors[direction].blockType.value.transparent &&
        (neighbors[direction].chunk == chunk || neighbors[direction].chunk.loaded)
    {
      if direction !in neighbors then true
      else
        var neighbor := neighbors[direction];
        neighbor == null || neighbor.blockType.value.transparent || (neighbor.chunk != chunk && !neighbor.chunk.loaded)
    }

    /** The scan of `IsVisible` over `ds`: some direction of `ds` sees out. */
    predicate AnyVisibleFrom(ds: seq<Direction>)
      requires NeighborsTyped()
      reads this`neighbors, (set b: Block | b in neighbors.Values)`blockType, (set b: Block | b in neighbors.Values :: b.chunk)`loaded
      ensures AnyVisibleFrom(ds) <==> exists i :: 0 <= i < |ds| && IsVisibleFrom(ds[i])
    {
      |ds| > 0 && (IsVisibleFrom(ds[0]) || AnyVisibleFrom(ds[1..]))
    }

    /** The block is visible iff it is visible from some direction. */
    predicate IsVisible()
      requires NeighborsTyped()
      reads this`neighbors, (set b: Block | b in neighbors.Values)`blockType, (set b: Block | b in neighbors.Values :: b.chunk)`loaded
      ensures IsVisible() <==> exists d: Direction :: IsVisibleFrom(d)
    {
      VisibleSomewhere(this);
      AnyVisibleFrom(Directions)
    }

    /** The request `chunk.UpdateChunk()` makes: the chunk's position when it is loaded. */
    function OwnRequest(): (r: seq<ChunkCoords>)
      reads chunk`loaded
    {
      if chunk.loaded then [chunk.position] else []
    }

    /**
     * The requests `BlockUpdate(false)` on the blocks linked in the
     * directions `ds`, in order, make: each linked block's own request.
     */
    function NeighborRequests(ds: seq<Direction>): (r: seq<ChunkCoords>)
      reads this`neighbors, (set b: Block | b in neighbors.Values :: b.chunk)`loaded
    {
      if |ds| == 0 then []
      else
        var d := ds[|ds| - 1];
        NeighborRequests(ds[..|ds| - 1]) +
        if d in neighbors && neighbors[d] != null then neighbors[d].OwnRequest() else []
    }

    /**
     * What `BlockUpdate(updateNeighbors)` appends to the log: the request of
     * the own chunk, then, when `updateNeighbors`, that of each linked block.
     */
    function UpdateRequests(updateNeighbors: bool): (r: seq<ChunkCoords>)
      reads chunk`loaded, this`neighbors, (set b: Block | b in neighbors.Values :: b.chunk)`loaded
    {
      OwnRequest() + if updateNeighbors then NeighborRequests(Directions) else []
    }

    /**
     * Sets the type; when the block's chunk is loaded, the block then
     * requests rebuilds of its own chunk and of its neighbours' chunks.
     */
    method SetType(t: BlockType)
      requires chunk.loaded ==> SameWorld()
      modifies this`blockType, chunk.world`rebuildRequests
      ensures blockType == Some(t)
      ensures chunk.world.rebuildRequests ==
        old(chunk.world.rebuildRequests) + if chunk.loaded then UpdateRequests(true) else []
    {
      blockType := Some(t);
      if chunk.loaded {
        BlockUpdate(true);
      }
    }

    /**
     * Requests a rebuild of the own chunk and, when `updateNeighbors`, calls
     * `BlockUpdate(false)` on every linked block, in `Directions` order.
     */
    method BlockUpdate(updateNeighbors: bool)
      requires updateNeighbors ==> SameWorld()
      modifies chunk.world`rebuildRequests
      ensures chunk.world.rebuildRequests == old(chunk.world.rebuildRequests) + UpdateRequests(updateNeighbors)
      decreases updateNeighbors, 2
    {
      ghost var start := chunk.world.rebuildRequests;
      chunk.UpdateChunk();
      if updateNeighbors {
        UpdateNeighbors();
        AppendAssoc(start, OwnRequest(), NeighborRequests(Directions));
      }
    }

    /** The loop of `BlockUpdate(true)`: `BlockUpdate(false)` on each linked block. */
    method UpdateNeighbors()
      requires SameWorld()
      modifies chunk.world`rebuildRequests
      ensures chunk.world.rebuildRequests == old(chunk.world.rebuildRequests) + NeighborRequests(Directions)
      decreases true, 1
    {
      ghost var start := chunk.world.rebuildRequests;
      for k := 0 to |Directions|
        invariant chunk.world.rebuildRequests == start + NeighborRequests(Directions[..k])
      {
        assert Directions[..k + 1][..k] == Directions[..k];
        ghost var before := NeighborRequests(Directions[..k]);
        ghost var request := if Directions[k] in neighbors && neighbors[Directions[k]] != null
          then neighbors[Directions[k]].OwnRequest() else [];
        assert NeighborRequests(Directions[..k + 1]) == before + request;
        UpdateNeighborAt(Directions[k]);
        AppendAssoc(start, before, request);
      }
      assert Directions[..|Directions|] == Directions;
    }

    /** `neighbors[direction]?.BlockUpdate(false)`: the linked block's own request, if there is one. */
    method UpdateNeighborAt(direction: Direction)
      requires SameWorld()
      modifies chunk.world`rebuildRequests
      ensures chunk.world.rebuildRequests == old(chunk.world.rebuildRequests) +
        if direction in neighbors && neighbors[direction] != null then neighbors[direction].OwnRequest() else []
      decreases true, 0
    {
      if direction in neighbors && neighbors[direction] != null {
        var neighbor := neighbors[direction];
        neighbor.BlockUpdate(false);
        assert neighbor.UpdateRequests(false) == neighbor.OwnRequest();
      }
    }
  }

  /** Some direction sees out iff one listed in `Directions` does. */
  lemma VisibleSomewhere(b: Block)
    requires b.NeighborsTyped()
    ensures (exists d: Direction :: b.IsVisibleFrom(d)) <==>
      exists i :: 0 <= i < |Directions| && b.IsVisibleFrom(Directions[i])
  {
    if d: Direction :| b.IsVisibleFrom(d) {
      assert Directions[d.Index()] == d;
    }
  }

  /**
   * The neighbour requests are the positions of the loaded chunks of the
   * blocks linked in the directions `ds`, at most one per direction.
   */
  lemma {:induction false} NeighborRequestsExact(b: Block, ds: seq<Direction>)
    ensures |b.NeighborRequests(ds)| <= |ds|
    ensures forall c :: c in b.NeighborRequests(ds) <==>
      exists d :: d in ds && d in b.neighbors && b.neighbors[d] != null &&
        b.neighbors[d].chunk.loaded && c == b.neighbors[d].chunk.position
  {
    if |ds| > 0 {
      var init, d := ds[..|ds| - 1], ds[|ds| - 1];
      NeighborRequestsExact(b, init);
      assert ds == init + [d];
      forall c | c in b.NeighborRequests(ds)
        ensures exists e :: (e in ds && e in b.neighbors && b.neighbors[e] != null &&
          b.neighbors[e].chunk.loaded && c == b.neighbors[e].chunk.position)
      {
        if c !in b.NeighborRequests(init) {
          assert d in ds;
        }
      }
      forall c, e | e in ds && e in b.neighbors && b.neighbors[e] != null &&
          b.neighbors[e].chunk.loaded && c == b.neighbors[e].chunk.position
        ensures c in b.NeighborRequests(ds)
      {
        if e != d {
          assert e in init;
        }
      }
    }
  }

  /**
   * `BlockUpdate(true)` stops after one hop: at most seven requests, each
   * for the block's own chunk or for the chunk of a linked block; and
   * `BlockUpdate(false)` requests only the own chunk.
   */
  lemma OneHop(b: Block)
    ensures |b.UpdateRequests(true)| <= 1 + |Directions|
    ensures forall c :: c in b.UpdateRequests(true) ==>
      c == b.chunk.position || exists d :: d in b.neighbors && b.neighbors[d] != null && c == b.neighbors[d].chunk.position
    ensures b.UpdateRequests(false) == b.OwnRequest()
  {
    NeighborRequestsExact(b, Directions);
  }
  /** A block whose faces can be computed: it has a type and every linked block has one. */
  ghost predicate Typed(b: Block)
    reads b, b.neighbors.Values
  {
    b.blockType.Some? && b.NeighborsTyped()
  }

  /**
   * The face block `b` shows towards `d`: one quad when that side is
   * visible and the block's model has a face pointing that way, none
   * otherwise.
   */
  ghost function FaceAt(b: Block, d: Direction): seq<Quad>
    reads *
    requires Typed(b)
  {
    var face := b.blockType.value.model.GetFace(d);
    if b.IsVisibleFrom(d) && face.Some? then [Quad(b.position, d, face.value.textureCoord, b.blockType.value.solid)]
    else []
  }

  /** The faces block `b` shows towards the directions `ds`, in that order. */
  ghost function FacesAlong(b: Block, ds: seq<Direction>): seq<Quad>
    reads *
    requires Typed(b)
  {
    if |ds| == 0 then [] else FacesAlong(b, ds[..|ds| - 1]) + FaceAt(b, ds[|ds| - 1])
  }

  /** One more direction appends the face shown there. */
  lemma FacesAlongStep(b: Block, ds: seq<Direction>, k: nat)
    requires Typed(b) && k < |ds|
    ensures FacesAlong(b, ds[..k + 1]) == FacesAlong(b, ds[..k]) + FaceAt(b, ds[k])
  {
    assert ds[..k + 1][..k] == ds[..k];
  }

  /** The faces the mesher emits for block `b`: none for an invisible block, else those along `Directions`. */
  ghost function BlockFaces(b: Block): seq<Quad>
    reads *
    requires Typed(b)
  {
    if b.IsVisible() then FacesAlong(b, Directions) else []
  }

  /** A quad is among the faces along `ds` exactly when its direction is in `ds` and the block shows it there. */
  lemma {:induction false} FacesAlongExact(b: Block, ds: seq<Direction>)
    requires Typed(b)
    ensures |FacesAlong(b, ds)| <= |ds|
    ensures forall q :: q in FacesAlong(b, ds) <==> q.direction in ds && FaceAt(b, q.direction) == [q]
  {
    if |ds| > 0 {
      var init, d := ds[..|ds| - 1], ds[|ds| - 1];
      FacesAlongExact(b, init);
      assert ds == init + [d];
      forall q ensures q in FacesAlong(b, ds) <==> q.direction in ds && FaceAt(b, q.direction) == [q] {
        if q in FaceAt(b, d) {
          assert FaceAt(b, d) == [q];
        }
      }
    }
  }

  /**
   * The faces of a block: at most six, and quad q is among them exactly
   * when it sits at the block's position, the block is visible from q's
   * direction, its model has a face f for that direction, and q carries f's
   * atlas cell and the block type's solidity.
   */
  lemma BlockFacesExact(b: Block)
    requires Typed(b)
    ensures |BlockFaces(b)| <= 6
    ensures forall q :: q in BlockFaces(b) <==>
      q.position == b.position && b.IsVisibleFrom(q.direction) &&
      b.blockType.value.model.GetFace(q.direction).Some? &&
      q.cell == b.blockType.value.model.GetFace(q.direction).value.textureCoord &&
      q.solid == b.blockType.value.solid
  {
    FacesAlongExact(b, Directions);
    DirectionsEnumerate();
  }
}
