/**
 * Plain value types shared by the engine: glam vectors, the vertex layout
 * uploaded to the GPU and the world transform of an entity.
 * Coordinates are `real`: every constant used by the engine is exactly
 * representable and the only arithmetic modelled is `+ 1.0`.
 */
module Geometry {
  datatype Vec2 = Vec2(x: real, y: real)

  datatype Vec3 = Vec3(x: real, y: real, z: real)

  /** A vertex as laid out for the vertex shader: position, colour, texture coordinate. */
  datatype Vertex = Vertex(position: Vec3, color: Vec3, texCoord: Vec2)

  /** World transform of an entity (position, rotation in radians, scale). */
  datatype Transform = Transform(position: Vec3, rotation: Vec3, size: Vec3)
}
