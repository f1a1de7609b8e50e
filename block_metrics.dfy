/**
 * The unit-cube face tables used to build block meshes
 * (Assets/Scripts/BlockMetrics.cs).  Corners are integer triples: every
 * coordinate of a corner is 0 or 1.
 */
module BlockMetrics {
  import opened Coordinates

  // The eight cube corners, named west/east (x), down/up (y), south/north (z).
  const Wds := Coords(0, 0, 0)
  const Eds := Coords(1, 0, 0)
  const Wus := Coords(0, 1, 0)
  const Eus := Coords(1, 1, 0)
  const Wdn := Coords(0, 0, 1)
  const Edn := Coords(1, 0, 1)
  const Wun := Coords(0, 1, 1)
  const Eun := Coords(1, 1, 1)

  const Corners: set<Coords> := {Wds, Eds, Wus, Eus, Wdn, Edn, Wun, Eun}

  // One quad per face, in the order bottom left, bottom right, top left, top right.
  const UpFace: seq<Coords> := [Eun, Wun, Eus, Wus]
  const DownFace: seq<Coords> := [Eds, Wds, Edn, Wdn]
  const NorthFace: seq<Coords> := [Edn, Wdn, Eun, Wun]
  const EastFace: seq<Coords> := [Eds, Edn, Eus, Eun]
  const SouthFace: seq<Coords> := [Wds, Eds, Wus, Eus]
  const WestFace: seq<Coords> := [Wdn, Wds, Wun, Wus]

  /** The corner lies on the side of the unit cube that `d` points to. */
  predicate OnFace(v: Coords, d: Direction)
  {
    match d
    case Up => v.y == 1
    case Down => v.y == 0
    case North => v.z == 1
    case South => v.z == 0
    case East => v.x == 1
    case West => v.x == 0
  }

  /** The two corners differ in both coordinates that span the plane of face `d`. */
  predicate DiagonalIn(a: Coords, b: Coords, d: Direction)
  {
    match d
    case Up | Down => a.x != b.x && a.z != b.z
    case North | South => a.x != b.x && a.y != b.y
    case East | West => a.y != b.y && a.z != b.z
  }

  /**
   * The local corner offsets of face `d`.  The source falls back to the up
   * face for a direction it does not know; every direction of the model is
   * one of the six.  `FaceGeometry` states what the tables hold.
   */
  function GetFaceVertices(d: Direction): (r: seq<Coords>)
    ensures |r| == 4
  {
    if d == Up then UpFace
    else if d == Down then DownFace
    else if d == North then NorthFace
    else if d == East then EastFace
    else if d == South then SouthFace
    else if d == West then WestFace
    else UpFace
  }

  /**
   * The table of face `d` is a quad of four distinct cube corners on the
   * side `d` points to, with corners 0 and 3, and 1 and 2, diagonally
   * opposite.
   */
  lemma FaceGeometry(d: Direction)
    ensures var r := GetFaceVertices(d);
      (forall i :: 0 <= i < 4 ==> r[i] in Corners && OnFace(r[i], d)) &&
      (forall i, j :: 0 <= i < j < 4 ==> r[i] != r[j]) &&
      DiagonalIn(r[0], r[3], d) && DiagonalIn(r[1], r[2], d)
  {
  }

  /** Every corner has coordinates in {0, 1}. */
  lemma CornersAreUnit(v: Coords)
    requires v in Corners
    ensures 0 <= v.x <= 1 && 0 <= v.y <= 1 && 0 <= v.z <= 1
  {
  }
}
