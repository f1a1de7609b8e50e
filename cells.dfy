/**
 * The order in which C# enumerates a three-dimensional array with
 * `foreach` and in which the source's nested x, y, z loops visit it:
 * row-major, the last index varying fastest.
 */
module Cells {

  /** An index triple (x, y, z) into a three-dimensional array. */
  type Cell = (int, int, int)

  /** Cell `c` comes before (x, y, z) in row-major order. */
  predicate Before(c: Cell, x: int, y: int, z: int)
  {
    c.0 < x || (c.0 == x && (c.1 < y || (c.1 == y && c.2 < z)))
  }

  /** The cells (x, y, 0) .. (x, y, z - 1). */
  function RowUpTo(x: int, y: int, z: nat): (r: seq<Cell>)
    ensures |r| == z
    ensures forall c :: c in r <==> c.0 == x && c.1 == y && 0 <= c.2 < z
  {
    var r := seq(z, k => (x, y, k));
    assert forall c: Cell | c.0 == x && c.1 == y && 0 <= c.2 < z :: r[c.2] == c;
    r
  }

  /** The rows 0 .. y - 1 of plane x, each `n2` cells long. */
  function PlaneUpTo(x: int, y: nat, n2: nat): (r: seq<Cell>)
    ensures forall c :: c in r <==> c.0 == x && 0 <= c.1 < y && 0 <= c.2 < n2
  {
    if y == 0 then [] else PlaneUpTo(x, y - 1, n2) + RowUpTo(x, y - 1, n2)
  }

  /** The planes 0 .. x - 1 of an n0 x n1 x n2 array. */
  function GridUpTo(x: nat, n1: nat, n2: nat): (r: seq<Cell>)
    ensures forall c :: c in r <==> 0 <= c.0 < x && 0 <= c.1 < n1 && 0 <= c.2 < n2
  {
    if x == 0 then [] else GridUpTo(x - 1, n1, n2) + PlaneUpTo(x - 1, n1, n2)
  }

  /** All cells of an n0 x n1 x n2 array in enumeration order. */
  function RowMajor(n0: nat, n1: nat, n2: nat): (r: seq<Cell>)
    ensures forall c :: c in r <==> 0 <= c.0 < n0 && 0 <= c.1 < n1 && 0 <= c.2 < n2
  {
    GridUpTo(n0, n1, n2)
  }

  /**
   * The cells a row-major scan of an _ x n1 x n2 array has visited when it
   * is about to visit (x, y, z).
   */
  function Visited(x: nat, y: nat, z: nat, n1: nat, n2: nat): (r: seq<Cell>)
    requires y <= n1 && z <= n2 && (y < n1 || z == 0)
    ensures forall c :: c in r <==> Before(c, x, y, z) && 0 <= c.0 && 0 <= c.1 < n1 && 0 <= c.2 < n2
    ensures forall i :: 0 <= i < |r| ==> Before(r[i], x, y, z) && 0 <= r[i].0 && 0 <= r[i].1 < n1 && 0 <= r[i].2 < n2
  {
    GridUpTo(x, n1, n2) + PlaneUpTo(x, y, n2) + RowUpTo(x, y, z)
  }

  /** Visiting (x, y, z) appends it to the visited cells. */
  lemma VisitedStep(x: nat, y: nat, z: nat, n1: nat, n2: nat)
    requires y < n1 && z < n2
    ensures Visited(x, y, z + 1, n1, n2) == Visited(x, y, z, n1, n2) + [(x, y, z)]
  {
    assert RowUpTo(x, y, z + 1) == RowUpTo(x, y, z) + [(x, y, z)];
  }

  /** The end of a row is the start of the next one. */
  lemma VisitedRowEnd(x: nat, y: nat, n1: nat, n2: nat)
    requires y < n1
    ensures Visited(x, y, n2, n1, n2) == Visited(x, y + 1, 0, n1, n2)
  {
    assert RowUpTo(x, y + 1, 0) == [];
  }

  /** The end of a plane is the start of the next one. */
  lemma VisitedPlaneEnd(x: nat, n1: nat, n2: nat)
    ensures Visited(x, n1, 0, n1, n2) == Visited(x + 1, 0, 0, n1, n2)
  {
    assert RowUpTo(x, n1, 0) == [] && RowUpTo(x + 1, 0, 0) == [];
  }

  /** A finished scan has visited all cells in row-major order. */
  lemma VisitedAll(n0: nat, n1: nat, n2: nat)
    ensures Visited(n0, 0, 0, n1, n2) == RowMajor(n0, n1, n2)
  {
    assert RowUpTo(n0, 0, 0) == [];
  }
}
