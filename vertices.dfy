/** The vertex layouts shared by the meshes: SharpDX `Vector3`/`Vector2` fields flattened to reals. */
module Vertices {

  datatype Vector3 = Vector3(x: real, y: real, z: real)

  const Zero3: Vector3 := Vector3(0.0, 0.0, 0.0)

  /** `PositionTextureVertex`: a position and a texture coordinate. */
  datatype PositionTextureVertex = PositionTextureVertex(x: real, y: real, z: real, tu: real, tv: real)

  /** `PositionTextureNormalVertex`: a position, a texture coordinate and a normal. */
  datatype PositionTextureNormalVertex = PositionTextureNormalVertex(position: Vector3, tu: real, tv: real, normal: Vector3)
}
