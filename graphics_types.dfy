/**
 * The vertex records of graphics_generics.h, shared by the scene and HUD batchers.
 *
 * The fixed-size C arrays (a cube, a cube's index block, a quad) are sequence values of the
 * fixed length, and the buffers that hold many of them (`cube cube_array[N]`, ...) are Dafny
 * arrays of those values, so `cube_array[i]` is slot i. A writer that fills one of the C arrays
 * element by element stores the whole new value into its slot.
 */
module GraphicsTypes {
  import opened Linear

  /** scene_vertex: a position and a texture coordinate (the union's `v` view). */
  datatype SceneVertex = SceneVertex(pos: Vec3, uv: Vec2)

  /** hud_vertex: [0-1] screen position, [2-3] texture coordinate, [4] texture id. */
  datatype HudVertex = HudVertex(pos: Vec2, uv: Vec2, tex: real)

  /** cube: 24 scene vertices, six faces of four. */
  type Cube = c: seq<SceneVertex> | |c| == 24
    witness seq(24, _ => SceneVertex(Zero3, Vec2(0.0, 0.0)))

  /** cube_elements: the 36 vertex indices of one cube's triangles. */
  type CubeElements = e: seq<int> | |e| == 36
    witness seq(36, _ => 0)

  /** quad: 4 HUD vertices. */
  type Quad = q: seq<HudVertex> | |q| == 4
    witness seq(4, _ => HudVertex(Vec2(0.0, 0.0), Vec2(0.0, 0.0), 0.0))
}
