/**
 * Block types and their face models (Assets/Scripts/BlockType.cs).  Block
 * types are assets that nothing changes after loading, so they are values.
 */
module BlockTypes {
  import opened Wrappers
  import opened Coordinates

  /** The six logical faces of a block model (`BlockFace.Face`). */
  datatype Face = Top | Bottom | Front | Back | Left | Right

  /** The atlas cell of a face; only stored and copied, never computed with. */
  datatype TextureCoord = TextureCoord(x: real, y: real)

  /** One textured face of a block model (`BlockFace`). */
  datatype BlockFace = BlockFace(textureCoord: TextureCoord, face: Face, adjacent: bool)

  /** A new `BlockFace`: `adjacent` starts true, as its field initialiser in BlockType.cs says. */
  function NewBlockFace(textureCoord: TextureCoord, face: Face): (f: BlockFace)
    ensures f.adjacent
    ensures f.textureCoord == textureCoord && f.face == face
  {
    BlockFace(textureCoord, face, true)
  }

  /**
   * The direction a logical face points to: top up, bottom down, front
   * north, left east, back south, right west.
   */
  function GetDirectionFromFace(face: Face): (d: Direction)
    ensures FaceOfDirection(d) == face
  {
    match face
    case Top => Up
    case Bottom => Down
    case Front => North
    case Left => East
    case Back => South
    case Right => West
  }

  /** The inverse of `GetDirectionFromFace`. */
  function FaceOfDirection(d: Direction): (face: Face)
  {
    match d
    case Up => Top
    case Down => Bottom
    case North => Front
    case East => Left
    case South => Back
    case West => Right
  }

  /** `GetDirectionFromFace` is a bijection between faces and directions. */
  lemma DirectionFromFaceBijective(d: Direction, f: Face, g: Face)
    ensures GetDirectionFromFace(FaceOfDirection(d)) == d
    ensures GetDirectionFromFace(f) == GetDirectionFromFace(g) ==> f == g
  {
    match d
    case Up =>
    case Down =>
    case North =>
    case East =>
    case South =>
    case West =>
  }

  /** The textured faces of a block type (`BlockModel`). */
  datatype BlockModel = BlockModel(faces: seq<BlockFace>) {

    /**
     * The first face of `faces` whose logical face points in direction `d`,
     * or None when there is none.  The source's linear search with early
     * return, written as recursion on the remaining faces.
     */
    function GetFace(d: Direction): (r: Option<BlockFace>)
      ensures r.Some? ==> GetDirectionFromFace(r.value.face) == d
      ensures r.None? <==> forall i :: 0 <= i < |faces| ==> GetDirectionFromFace(faces[i].face) != d
      ensures r.Some? ==> exists i :: 0 <= i < |faces| && faces[i] == r.value &&
                            forall j :: 0 <= j < i ==> GetDirectionFromFace(faces[j].face) != d
      decreases |faces|
    {
      if |faces| == 0 then None
      else if GetDirectionFromFace(faces[0].face) == d then Some(faces[0])
      else
        var rest := faces[1..];
        var r := BlockModel(rest).GetFace(d);
        assert r.Some? ==> exists i :: 1 <= i < |faces| && faces[i] == r.value &&
                              forall j :: 0 <= j < i ==> GetDirectionFromFace(faces[j].face) != d by {
          if r.Some? {
            var k :| 0 <= k < |rest| && rest[k] == r.value &&
                     forall j :: 0 <= j < k ==> GetDirectionFromFace(rest[j].face) != d;
            assert faces[k + 1] == r.value;
            forall j | 0 <= j < k + 1 ensures GetDirectionFromFace(faces[j].face) != d {
              if j > 0 { assert faces[j] == rest[j - 1]; }
            }
          }
        }
        assert r.None? ==> forall i :: 0 <= i < |faces| ==> GetDirectionFromFace(faces[i].face) != d by {
          if r.None? {
            forall i | 0 <= i < |faces| ensures GetDirectionFromFace(faces[i].face) != d {
              if i > 0 { assert faces[i] == rest[i - 1]; }
            }
          }
        }
        r
    }
  }

  /**
   * A block type (`BlockType`): `solid` blocks produce collision geometry,
   * `transparent` ones do not hide their neighbours' faces.
   */
  datatype BlockType = BlockType(name: string, solid: bool, transparent: bool, model: BlockModel)

  /** A new `BlockType`: solid and opaque, as its field initialisers in BlockType.cs say. */
  function NewBlockType(name: string, model: BlockModel): (t: BlockType)
    ensures t.solid && !t.transparent
    ensures t.name == name && t.model == model
  {
    BlockType(name, true, false, model)
  }

  /**
   * The block catalogue of the scene (`Blocks.Instance`).  Which assets it
   * holds is configuration, so the model takes it as a value.
   */
  datatype Catalogue = Catalogue(dirt: BlockType, grass: BlockType, stone: BlockType,
                                 sand: BlockType, water: BlockType)
}
