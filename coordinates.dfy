/**
 * Voxel coordinates, chunk coordinates and the six axis directions of the
 * voxel world (the value types of Assets/Scripts/World.cs).
 *
 * A chunk is a column: `ChunkCoords` has only x and z, and every chunk spans
 * the voxel heights 0 .. ChunkSize-1.
 */
module Coordinates {

  /** Positive integers. */
  type Positive = n: int | n > 0 witness 1

  /**
   * The edge length of a chunk (`Reference.Instance.chunkSize`).  It is a
   * value configured in the scene; the model only knows that it is positive.
   */
  const ChunkSize: Positive

  /** An absolute voxel position. */
  datatype Coords = Coords(x: int, y: int, z: int) {

    /** Component-wise sum (`operator +`). */
    function Add(b: Coords): Coords
    {
      Coords(x + b.x, y + b.y, z + b.z)
    }

    /** Component-wise difference (`operator -`). */
    function Sub(b: Coords): Coords
    {
      Coords(x - b.x, y - b.y, z - b.z)
    }

    /** The adjacent voxel in direction `d`: this position plus the direction's offset. */
    function Neighbor(d: Direction): (r: Coords)
      ensures r.Sub(this) == d.Offset()
      ensures r != this
    {
      Add(d.Offset())
    }

    /**
     * The chunk whose column holds this voxel: x and z floor-divided by the
     * chunk size, y ignored.  The voxel lies in that chunk's column.
     */
    function GetChunk(): (r: ChunkCoords)
      ensures r.GetStartPos().x <= x < r.GetStartPos().x + ChunkSize
      ensures r.GetStartPos().z <= z < r.GetStartPos().z + ChunkSize
      ensures r.GetStartPos().y == 0
    {
      FloorDivBounds(x);
      FloorDivBounds(z);
      ChunkCoords(x / ChunkSize, z / ChunkSize)
    }
  }

  /** A chunk position on the horizontal grid. */
  datatype ChunkCoords = ChunkCoords(x: int, z: int) {

    /**
     * The voxel at the chunk's corner with the smallest coordinates: the
     * chunk's column starts there (`StartPosRoundTrip`, `GetChunkUnique`).
     */
    function GetStartPos(): (r: Coords)
      ensures r.y == 0
      ensures r.x == x * ChunkSize && r.z == z * ChunkSize
    {
      Coords(x * ChunkSize, 0, z * ChunkSize)
    }

    /** Component-wise sum (`operator +`). */
    function Add(b: ChunkCoords): ChunkCoords
    {
      ChunkCoords(x + b.x, z + b.z)
    }

    /** Component-wise difference (`operator -`). */
    function Sub(b: ChunkCoords): ChunkCoords
    {
      ChunkCoords(x - b.x, z - b.z)
    }
  }

  /** x == (x / ChunkSize) * ChunkSize + a remainder in [0, ChunkSize). */
  lemma FloorDivBounds(x: int)
    ensures (x / ChunkSize) * ChunkSize <= x < (x / ChunkSize) * ChunkSize + ChunkSize
  {
  }

  /**
   * The chunk of a voxel is the only chunk whose column holds it: any chunk
   * whose x and z ranges contain the voxel is `GetChunk()`.
   */
  lemma {:induction false} GetChunkUnique(c: Coords, k: ChunkCoords)
    requires k.GetStartPos().x <= c.x < k.GetStartPos().x + ChunkSize
    requires k.GetStartPos().z <= c.z < k.GetStartPos().z + ChunkSize
    ensures c.GetChunk() == k
  {
    FloorDivUnique(c.x, k.x);
    FloorDivUnique(c.z, k.z);
  }

  lemma FloorDivUnique(v: int, q: int)
    requires q * ChunkSize <= v < q * ChunkSize + ChunkSize
    ensures v / ChunkSize == q
  {
    var r := v / ChunkSize;
    FloorDivBounds(v);
    if r < q {
      assert r * ChunkSize + ChunkSize <= q * ChunkSize by {
        MulMonotone(r + 1, q);
      }
    } else if r > q {
      assert (q + 1) * ChunkSize <= r * ChunkSize by {
        MulMonotone(q + 1, r);
      }
    }
  }

  lemma MulMonotone(a: int, b: int)
    requires a <= b
    ensures a * ChunkSize <= b * ChunkSize
  {
  }

  /** Every voxel of a chunk's column maps back to that chunk. */
  lemma {:induction false} StartPosRoundTrip(k: ChunkCoords, dx: int, y: int, dz: int)
    requires 0 <= dx < ChunkSize && 0 <= dz < ChunkSize
    ensures Coords(dx, y, dz).Add(k.GetStartPos()).GetChunk() == k
  {
    GetChunkUnique(Coords(dx, y, dz).Add(k.GetStartPos()), k);
  }

  /** The six axis directions (`Direction.UP`, ... in World.cs). */
  datatype Direction = Up | Down | North | East | South | West {

    /**
     * The unit offset of the direction: up/down move along y, north/south
     * along z, east/west along x; up, north and east are the positive senses.
     */
    function Offset(): (r: Coords)
      ensures (r.x != 0 <==> (this == East || this == West))
      ensures (r.y != 0 <==> (this == Up || this == Down))
      ensures (r.z != 0 <==> (this == North || this == South))
      ensures Abs(r.x) + Abs(r.y) + Abs(r.z) == 1
      ensures (r.x + r.y + r.z == 1 <==> (this == Up || this == North || this == East))
    {
      match this
      case Up => Coords(0, 1, 0)
      case Down => Coords(0, -1, 0)
      case North => Coords(0, 0, 1)
      case East => Coords(1, 0, 0)
      case South => Coords(0, 0, -1)
      case West => Coords(-1, 0, 0)
    }

    /** The position of the direction in `Directions`. */
    function Index(): (i: nat)
      ensures i < |Directions| && Directions[i] == this
    {
      match this
      case Up => 0
      case Down => 1
      case North => 2
      case East => 3
      case South => 4
      case West => 5
    }

    /** The reverse direction: its offset is this one's negated, so the two cancel. */
    function Opposite(): (r: Direction)
      ensures r != this
      ensures r.Offset() == Coords(-Offset().x, -Offset().y, -Offset().z)
    {
      match this
      case Up => Down
      case Down => Up
      case North => South
      case East => West
      case South => North
      case West => East
    }
  }

  function Abs(v: int): (r: nat)
    ensures r == v || r == -v
  {
    if v < 0 then -v else v
  }

  /** `Direction.directions`: the iteration order used by the block and mesh code. */
  const Directions: seq<Direction> := [Up, Down, North, East, South, West]

  /** `Directions` lists each of the six directions exactly once. */
  lemma DirectionsEnumerate()
    ensures |Directions| == 6
    ensures forall d: Direction :: d in Directions
    ensures forall i, j :: 0 <= i < j < |Directions| ==> Directions[i] != Directions[j]
  {
    forall d: Direction ensures d in Directions {
      assert Directions[d.Index()] == d;
    }
  }

  /** `Index` inverts indexing into `Directions`. */
  lemma IndexInverse(k: nat)
    requires k < |Directions|
    ensures Directions[k].Index() == k
  {
  }

  /** `Opposite` is an involution. */
  lemma OppositeInvolution(d: Direction)
    ensures d.Opposite().Opposite() == d
  {
    match d
    case Up =>
    case Down =>
    case North =>
    case East =>
    case South =>
    case West =>
  }

  /** Only `d` has the opposite direction of `d`. */
  lemma OppositeInjective(d: Direction)
    ensures forall e: Direction :: e.Opposite() == d.Opposite() ==> e == d
  {
  }

  /** Stepping to a neighbour and back the opposite way returns to the start. */
  lemma NeighborOpposite(c: Coords, d: Direction)
    ensures c.Neighbor(d).Neighbor(d.Opposite()) == c
  {
  }

  /** Different directions have different offsets. */
  lemma {:induction false} OffsetInjective(d: Direction, e: Direction)
    requires d.Offset() == e.Offset()
    ensures d == e
  {
  }

  /** Sum then difference is the identity, in either order. */
  lemma AddSub(a: Coords, b: Coords)
    ensures a.Add(b).Sub(b) == a
    ensures a.Sub(b).Add(b) == a
  {
  }

  /** The same for chunk positions. */
  lemma ChunkAddSub(a: ChunkCoords, b: ChunkCoords)
    ensures a.Add(b).Sub(b) == a
    ensures a.Sub(b).Add(b) == a
  {
  }
}
