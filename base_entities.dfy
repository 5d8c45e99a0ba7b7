/**
 * Entities of the entity component: the player, whose camera sits one unit
 * above its position, and the unit cube, whose model is a fixed list of 36
 * vertices (six faces, two triangles each, drawn as a plain triangle list).
 */
module BaseEntities {
  import opened Geometry

  const White := Vec3(255.0, 255.0, 255.0)

  /** The cube mesh built by `CubeEntity::new`: 36 vertices, front, back, left, right, top, bottom. */
  function CubeModel(): (m: seq<Vertex>)
    ensures |m| == 36
  {
    [
      Vertex(Vec3(-0.5, -0.5, 0.5), Vec3(255.0, 255.0, 255.0), Vec2(0.0, 0.0)),
      Vertex(Vec3(0.5, 0.5, 0.5), Vec3(255.0, 255.0, 255.0), Vec2(1.0, 1.0)),
      Vertex(Vec3(0.5, -0.5, 0.5), Vec3(255.0, 255.0, 255.0), Vec2(1.0, 0.0)),
      Vertex(Vec3(-0.5, -0.5, 0.5), Vec3(255.0, 255.0, 255.0), Vec2(0.0, 0.0)),
      Vertex(Vec3(-0.5, 0.5, 0.5), Vec3(255.0, 255.0, 255.0), Vec2(1.0, 0.0)),
      Vertex(Vec3(0.5, 0.5, 0.5), Vec3(255.0, 255.0, 255.0), Vec2(1.0, 1.0)),
      Vertex(Vec3(0.5, -0.5, -0.5), Vec3(255.0, 255.0, 255.0), Vec2(0.0, 1.0)),
      Vertex(Vec3(0.5, 0.5, -0.5), Vec3(255.0, 255.0, 255.0), Vec2(0.0, 0.0)),
      Vertex(Vec3(-0.5, -0.5, -0.5), Vec3(255.0, 255.0, 255.0), Vec2(1.0, 1.0)),
      Vertex(Vec3(-0.5, -0.5, -0.5), Vec3(255.0, 255.0, 255.0), Vec2(0.0, 1.0)),
      Vertex(Vec3(0.5, 0.5, -0.5), Vec3(255.0, 255.0, 255.0), Vec2(1.0, 0.0)),
      Vertex(Vec3(-0.5, 0.5, -0.5), Vec3(255.0, 255.0, 255.0), Vec2(1.0, 1.0)),
      Vertex(Vec3(-0.5, -0.5, -0.5), Vec3(255.0, 255.0, 255.0), Vec2(0.0, 0.0)),
      Vertex(Vec3(-0.5, 0.5, 0.5), Vec3(255.0, 255.0, 255.0), Vec2(1.0, 1.0)),
      Vertex(Vec3(-0.5, -0.5, 0.5), Vec3(255.0, 255.0, 255.0), Vec2(1.0, 0.0)),
      Vertex(Vec3(-0.5, -0.5, -0.5), Vec3(255.0, 255.0, 255.0), Vec2(0.0, 0.0)),
      Vertex(Vec3(-0.5, 0.5, -0.5), Vec3(255.0, 255.0, 255.0), Vec2(1.0, 0.0)),
      Vertex(Vec3(-0.5, 0.5, 0.5), Vec3(255.0, 255.0, 255.0), Vec2(1.0, 1.0)),
      Vertex(Vec3(0.5, -0.5, 0.5), Vec3(255.0, 255.0, 255.0), Vec2(0.0, 0.0)),
      Vertex(Vec3(0.5, 0.5, -0.5), Vec3(255.0, 255.0, 255.0), Vec2(1.0, 1.0)),
      Vertex(Vec3(0.5, -0.5, -0.5), Vec3(255.0, 255.0, 255.0), Vec2(1.0, 0.0)),
      Vertex(Vec3(0.5, -0.5, 0.5), Vec3(255.0, 255.0, 255.0), Vec2(0.0, 0.0)),
      Vertex(Vec3(0.5, 0.5, 0.5), Vec3(255.0, 255.0, 255.0), Vec2(1.0, 0.0)),
      Vertex(Vec3(0.5, 0.5, -0.5), Vec3(255.0, 255.0, 255.0), Vec2(1.0, 1.0)),
      Vertex(Vec3(-0.5, 0.5, 0.5), Vec3(255.0, 255.0, 255.0), Vec2(0.0, 0.0)),
      Vertex(Vec3(0.5, 0.5, -0.5), Vec3(255.0, 255.0, 255.0), Vec2(1.0, 1.0)),
      Vertex(Vec3(0.5, 0.5, 0.5), Vec3(255.0, 255.0, 255.0), Vec2(1.0, 0.0)),
      Vertex(Vec3(-0.5, 0.5, 0.5), Vec3(255.0, 255.0, 255.0), Vec2(0.0, 0.0)),
      Vertex(Vec3(-0.5, 0.5, -0.5), Vec3(255.0, 255.0, 255.0), Vec2(1.0, 0.0)),
      Vertex(Vec3(0.5, 0.5, -0.5), Vec3(255.0, 255.0, 255.0), Vec2(1.0, 1.0)),
      Vertex(Vec3(-0.5, -0.5, -0.5), Vec3(255.0, 255.0, 255.0), Vec2(0.0, 0.0)),
      Vertex(Vec3(0.5, -0.5, 0.5), Vec3(255.0, 255.0, 255.0), Vec2(1.0, 1.0)),
      Vertex(Vec3(0.5, -0.5, -0.5), Vec3(255.0, 255.0, 255.0), Vec2(1.0, 0.0)),
      Vertex(Vec3(-0.5, -0.5, -0.5), Vec3(255.0, 255.0, 255.0), Vec2(0.0, 0.0)),
      Vertex(Vec3(-0.5, -0.5, 0.5), Vec3(255.0, 255.0, 255.0), Vec2(1.0, 0.0)),
      Vertex(Vec3(0.5, -0.5, 0.5), Vec3(255.0, 255.0, 255.0), Vec2(1.0, 1.0))
    ]
  }

  /** A whole number of triangles: the mesh is drawn as a non-indexed triangle list. */
  lemma CubeModelIsTriangleList()
    ensures |CubeModel()| % 3 == 0 && |CubeModel()| / 3 == 12
  {
  }

  /** Every vertex is white and sits on a corner of the cube of side 1 centred at the origin. */
  lemma CubeVerticesAreWhiteCorners()
    ensures forall i :: 0 <= i < |CubeModel()| ==>
      CubeModel()[i].color == White && IsCorner(CubeModel()[i].position)
  {
  }

  predicate IsHalf(c: real) { c == 0.5 || c == -0.5 }

  predicate IsCorner(p: Vec3) { IsHalf(p.x) && IsHalf(p.y) && IsHalf(p.z) }

  /**
   * The six groups of six vertices are the faces named in the source,
   * +Z, -Z, -X, +X, +Y, -Y: each group lies in its face's plane.
   */
  lemma CubeFacesAreAxisAligned()
    ensures forall i :: 0 <= i < 6 ==> CubeModel()[i].position.z == 0.5
    ensures forall i :: 6 <= i < 12 ==> CubeModel()[i].position.z == -0.5
    ensures forall i :: 12 <= i < 18 ==> CubeModel()[i].position.x == -0.5
    ensures forall i :: 18 <= i < 24 ==> CubeModel()[i].position.x == 0.5
    ensures forall i :: 24 <= i < 30 ==> CubeModel()[i].position.y == 0.5
    ensures forall i :: 30 <= i < 36 ==> CubeModel()[i].position.y == -0.5
  {
  }

  /** The camera transform of a player: one unit higher, same rotation and size. */
  function CameraTransformOf(t: Transform): (c: Transform)
    ensures c.position.x == t.position.x && c.position.z == t.position.z
    ensures c.position.y == t.position.y + 1.0
    ensures c.rotation == t.rotation && c.size == t.size
  {
    t.(position := Vec3(t.position.x, t.position.y + 1.0, t.position.z))
  }

  /** An entity as the repository holds it (`Box<dyn Entity>`): one of the two kinds. */
  datatype BoxedEntity = Player(player: PlayerEntity) | Cube(cube: CubeEntity)

  class PlayerEntity {
    var transform: Transform

    constructor (transform: Transform)
      ensures this.transform == transform
    {
      this.transform := transform;
    }

    /** `get_transform`: the transform the entity holds now. */
    function GetTransform(): (t: Transform)
      reads this
      ensures t == transform
    {
      transform
    }

    /** Replaces the transform; a following `GetTransform` returns exactly the new one. */
    method SetTransform(newTransform: Transform)
      modifies this
      ensures GetTransform() == newTransform
    {
      transform := newTransform;
    }

    /**
     * Computes the camera transform from a copy of the player's transform.
     * No `modifies` clause: the player's own transform is left as it was.
     */
    method GetCameraTransform() returns (camera: Transform)
      ensures camera == CameraTransformOf(transform)
      ensures camera.position.y == transform.position.y + 1.0
    {
      camera := transform;
      camera := camera.(position := Vec3(camera.position.x, camera.position.y + 1.0, camera.position.z));
    }
  }

  class CubeEntity {
    var transform: Transform
    /** Built once, when the cube is constructed. */
    const model: seq<Vertex> := CubeModel()

    constructor (transform: Transform)
      ensures this.transform == transform && model == CubeModel()
    {
      this.transform := transform;
    }

    /** `get_transform`: the transform the entity holds now. */
    function GetTransform(): (t: Transform)
      reads this
      ensures t == transform
    {
      transform
    }

    method SetTransform(newTransform: Transform)
      modifies this
      ensures GetTransform() == newTransform
    {
      transform := newTransform;
    }

    /** The model built by the constructor: the 36-vertex cube. */
    function GetModel(): (m: seq<Vertex>)
      reads this
      ensures |m| == 36 && m == CubeModel()
    {
      model
    }
  }
}
