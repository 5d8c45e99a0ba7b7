/**
 * The older cube entity (components/_old): an id, a transform and the same
 * 36-vertex cube model. It has no mutable state; receiving a command does nothing.
 */
module OldCube {
  import opened Geometry
  import BaseEntities

  /** Commands an entity can receive; their shape is irrelevant here, a cube ignores them all. */
  datatype EntityCommand = EntityCommand(code: nat)

  datatype CubeEntity = CubeEntity(id: nat, transform: Transform, model: seq<Vertex>)

  /** `CubeEntity::new(id, transform)`: keeps the id and the transform, builds the cube model. */
  function New(id: nat, transform: Transform): (c: CubeEntity)
    ensures c.id == id && c.transform == transform
    ensures |c.model| == 36
  {
    CubeEntity(id, transform, [
      Vertex(Vec3(-0.5, -0.5, 0.5), Vec3(255.0, 255.0, 255.0), Vec2(0.0, 0.0)),
      Vertex(Vec3(0.5, 0.5, 0.5), Vec3(255.0, 255.0, 255.0), Vec2(1.0, 1.0)),
      Vertex(Vec3(0.5, -0.5, 0.5), Vec3(255.0, 255.0, 255.0), Vec2(1.0, 0.0)),
      Vertex(Vec3(-0.5, -0.5, 0.5), Vec3(255.0, 255.0, 255.0), Vec2(0.0, 0.0)),
      Vertex(Vec3(-0.5, 0.5, 0.5), Vec3(255.0, 255.0, 255.0), Vec2(1.0, 0.0)),
      Vertex(Vec3(0.5, 0.5, 0.5), Vec3(255.0, 255.0, 255.0), Vec2(1.0, 1.0)),
      Vertex(Vec3(0.5, -0.5, -0.5), Vec3(255.0, 255.0, 255.0), Vec2(0.0, 1.0)),
      Vertex(Vec3(0.5, 0.5, -0.5), Vec3(255.0, 255.0, 255.0), Vec2(0.0, 0.0)),
      Vertex(Vec3(-0.5, -0.5, -0.5), Vec3(255.0, 255.0, 255.0), Vec2(1.0, 1.0)),
      Vertex(Vec3(-0.5, -0.5, -0.5), Vec3(255.0, 255.0, 255.0), Vec2(0.0, 1.0)),
      Vertex(Vec3(0.5, 0.5, -0.5), Vec3(255.0, 255.0, 255.0), Vec2(1.0, 0.0)),
      Vertex(Vec3(-0.5, 0.5, -0.5), Vec3(255.0, 255.0, 255.0), Vec2(1.0, 1.0)),
      Vertex(Vec3(-0.5, -0.5, -0.5), Vec3(255.0, 255.0, 255.0), Vec2(0.0, 0.0)),
      Vertex(Vec3(-0.5, 0.5, 0.5), Vec3(255.0, 255.0, 255.0), Vec2(1.0, 1.0)),
      Vertex(Vec3(-0.5, -0.5, 0.5), Vec3(255.0, 255.0, 255.0), Vec2(1.0, 0.0)),
      Vertex(Vec3(-0.5, -0.5, -0.5), Vec3(255.0, 255.0, 255.0), Vec2(0.0, 0.0)),
      Vertex(Vec3(-0.5, 0.5, -0.5), Vec3(255.0, 255.0, 255.0), Vec2(1.0, 0.0)),
      Vertex(Vec3(-0.5, 0.5, 0.5), Vec3(255.0, 255.0, 255.0), Vec2(1.0, 1.0)),
      Vertex(Vec3(0.5, -0.5, 0.5), Vec3(255.0, 255.0, 255.0), Vec2(0.0, 0.0)),
      Vertex(Vec3(0.5, 0.5, -0.5), Vec3(255.0, 255.0, 255.0), Vec2(1.0, 1.0)),
      Vertex(Vec3(0.5, -0.5, -0.5), Vec3(255.0, 255.0, 255.0), Vec2(1.0, 0.0)),
      Vertex(Vec3(0.5, -0.5, 0.5), Vec3(255.0, 255.0, 255.0), Vec2(0.0, 0.0)),
      Vertex(Vec3(0.5, 0.5, 0.5), Vec3(255.0, 255.0, 255.0), Vec2(1.0, 0.0)),
      Vertex(Vec3(0.5, 0.5, -0.5), Vec3(255.0, 255.0, 255.0), Vec2(1.0, 1.0)),
      Vertex(Vec3(-0.5, 0.5, 0.5), Vec3(255.0, 255.0, 255.0), Vec2(0.0, 0.0)),
      Vertex(Vec3(0.5, 0.5, -0.5), Vec3(255.0, 255.0, 255.0), Vec2(1.0, 1.0)),
      Vertex(Vec3(0.5, 0.5, 0.5), Vec3(255.0, 255.0, 255.0), Vec2(1.0, 0.0)),
      Vertex(Vec3(-0.5, 0.5, 0.5), Vec3(255.0, 255.0, 255.0), Vec2(0.0, 0.0)),
      Vertex(Vec3(-0.5, 0.5, -0.5), Vec3(255.0, 255.0, 255.0), Vec2(1.0, 0.0)),
      Vertex(Vec3(0.5, 0.5, -0.5), Vec3(255.0, 255.0, 255.0), Vec2(1.0, 1.0)),
      Vertex(Vec3(-0.5, -0.5, -0.5), Vec3(255.0, 255.0, 255.0), Vec2(0.0, 0.0)),
      Vertex(Vec3(0.5, -0.5, 0.5), Vec3(255.0, 255.0, 255.0), Vec2(1.0, 1.0)),
      Vertex(Vec3(0.5, -0.5, -0.5), Vec3(255.0, 255.0, 255.0), Vec2(1.0, 0.0)),
      Vertex(Vec3(-0.5, -0.5, -0.5), Vec3(255.0, 255.0, 255.0), Vec2(0.0, 0.0)),
      Vertex(Vec3(-0.5, -0.5, 0.5), Vec3(255.0, 255.0, 255.0), Vec2(1.0, 0.0)),
      Vertex(Vec3(0.5, -0.5, 0.5), Vec3(255.0, 255.0, 255.0), Vec2(1.0, 1.0))
    ])
  }

  /** `get_id`: the cube's own id. */
  function GetId(c: CubeEntity): (id: nat)
    ensures id == c.id
  {
    c.id
  }

  /** `get_model`: the cube's own vertex list. */
  function GetModel(c: CubeEntity): (model: seq<Vertex>)
    ensures model == c.model
  {
    c.model
  }

  /**
   * The id given to the constructor is the one `get_id` reports, and
   * `get_model` reports the shared cube mesh.
   */
  lemma GetIdReturnsConstructorId(id: nat, transform: Transform)
    ensures GetId(New(id, transform)) == id
    ensures GetModel(New(id, transform)) == BaseEntities.CubeModel()
  {
    ModelMatchesBaseCube(id, transform);
  }

  /** Receiving any command leaves the cube exactly as it was. */
  function ReceiveCommand(c: CubeEntity, command: EntityCommand): (c': CubeEntity)
    ensures c' == c
  {
    c
  }

  /** The old cube's vertex list is, element for element, the one of the current cube entity. */
  lemma ModelMatchesBaseCube(id: nat, transform: Transform)
    ensures GetModel(New(id, transform)) == BaseEntities.CubeModel()
  {
  }
}
