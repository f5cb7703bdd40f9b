/**
 * The CPU-side geometry of graphics.h: the per-cube index block, the unit cube's vertex table,
 * the screen quad, and the in-place transform of a cube's positions.
 *
 * Each writer takes the caller's buffer and the index k of the slot it fills, one slot holding a
 * whole cube_elements, cube or quad record, which is what the C code's `&elements_array[i]`,
 * `&cube_array[i]` and `quad` arguments address.
 */
module Graphics {
  import opened Linear
  import opened GraphicsTypes
  import Bmath

  const I32Min: int := -0x8000_0000
  const I32Max: int := 0x7fff_ffff

  // ---------------------------------------------------------------- fill_cube_elements

  /** The 36 indices of cube 0: each face's quad as the two triangles (a, b, c), (c, d, a). */
  const ElementPattern: seq<int> :=
    [ 0,  3,  2,   2,  1,  0,
      4,  5,  6,   6,  7,  4,
     11,  8,  9,   9, 10, 11,
     12, 13, 14,  14, 15, 12,
     16, 17, 18,  18, 19, 16,
     20, 21, 22,  22, 23, 20]

  /** The index block fill_cube_elements writes for cube `offset`: the pattern moved by 24 * offset. */
  function ElementsFor(offset: int): CubeElements {
    seq(36, j requires 0 <= j < 36 => ElementPattern[j] + 24 * offset)
  }

  /** `offset * 24` and every index derived from it fit an i32 (signed overflow is undefined). */
  predicate ElementsFitI32(offset: int) {
    I32Min <= 24 * offset && 24 * offset + 23 <= I32Max
  }

  /** fill_cube_elements(data[k], offset): the 36 stores, as one store of the block they form. */
  method FillCubeElements(data: array<CubeElements>, k: nat, offset: int)
    requires k < data.Length
    requires ElementsFitI32(offset)
    modifies data
    ensures data[..] == old(data[..])[k := ElementsFor(offset)]
  {
    var i := offset * 24;

    var e := [ 0 + i,  3 + i,  2 + i,  2 + i,  1 + i,  0 + i,
               4 + i,  5 + i,  6 + i,  6 + i,  7 + i,  4 + i,
              11 + i,  8 + i,  9 + i,  9 + i, 10 + i, 11 + i,
              12 + i, 13 + i, 14 + i, 14 + i, 15 + i, 12 + i,
              16 + i, 17 + i, 18 + i, 18 + i, 19 + i, 16 + i,
              20 + i, 21 + i, 22 + i, 22 + i, 23 + i, 20 + i];
    assert forall j | 0 <= j < 36 :: e[j] == ElementsFor(offset)[j];
    assert e == ElementsFor(offset);
    data[k] := e;
  }

  /** Every index of cube k's block names one of cube k's own 24 vertices. */
  lemma ElementsInRange(offset: int)
    ensures forall j | 0 <= j < 36 :: 24 * offset <= ElementsFor(offset)[j] < 24 * offset + 24
  {
    assert forall j | 0 <= j < 36 :: 0 <= ElementPattern[j] < 24;
  }

  /** Cube k's block is cube 0's block with 24 * k added to every entry. */
  lemma ElementsTranslate(offset: int)
    ensures forall j | 0 <= j < 36 :: ElementsFor(offset)[j] == ElementsFor(0)[j] + 24 * offset
  {
  }

  /**
   * Face f of block e (of cube o / 24): its six indices are (a, b, c, c, d, a), and a, b, c, d
   * are four distinct vertices of the face's own group o + 4f .. o + 4f + 3, hence all four.
   */
  predicate FaceTriangles(e: CubeElements, f: nat, o: int)
    requires f < 6
  {
    var a, b, c, d := e[6 * f], e[6 * f + 1], e[6 * f + 2], e[6 * f + 4];
    e[6 * f + 3] == c && e[6 * f + 5] == a &&
    a != b && a != c && a != d && b != c && b != d && c != d &&
    o + 4 * f <= a < o + 4 * f + 4 && o + 4 * f <= b < o + 4 * f + 4 &&
    o + 4 * f <= c < o + 4 * f + 4 && o + 4 * f <= d < o + 4 * f + 4
  }

  // Three facts about the pattern itself, from which FaceTriangles follows for every cube.

  lemma PatternTriangles()
    ensures forall f | 0 <= f < 6 ::
      ElementPattern[6 * f + 3] == ElementPattern[6 * f + 2] && ElementPattern[6 * f + 5] == ElementPattern[6 * f]
  {
  }

  lemma PatternFaceRange()
    ensures forall j | 0 <= j < 36 :: 4 * (j / 6) <= ElementPattern[j] < 4 * (j / 6) + 4
  {
  }

  lemma PatternCornersDistinct()
    ensures forall f | 0 <= f < 6 ::
      var e := ElementPattern;
      e[6 * f] != e[6 * f + 1] && e[6 * f] != e[6 * f + 2] && e[6 * f] != e[6 * f + 4] &&
      e[6 * f + 1] != e[6 * f + 2] && e[6 * f + 1] != e[6 * f + 4] && e[6 * f + 2] != e[6 * f + 4]
  {
  }

  /** The block is six faces of two triangles each, in the (a, b, c), (c, d, a) form. */
  lemma ElementsFaces(offset: int)
    ensures forall f | 0 <= f < 6 :: FaceTriangles(ElementsFor(offset), f, 24 * offset)
  {
    PatternTriangles();
    PatternFaceRange();
    PatternCornersDistinct();
    forall f | 0 <= f < 6
      ensures FaceTriangles(ElementsFor(offset), f, 24 * offset)
    {
      assert (6 * f) / 6 == f && (6 * f + 1) / 6 == f && (6 * f + 2) / 6 == f && (6 * f + 4) / 6 == f;
    }
  }

  /** Every one of cube k's 24 vertices is referenced by some index. */
  lemma ElementsCoverCube(offset: int)
    ensures forall v | 24 * offset <= v < 24 * offset + 24 :: v in ElementsFor(offset)
  {
    forall v | 24 * offset <= v < 24 * offset + 24
      ensures v in ElementsFor(offset)
    {
      var r := v - 24 * offset;
      assert r in ElementPattern;
      var j :| 0 <= j < 36 && ElementPattern[j] == r;
      assert ElementsFor(offset)[j] == v;
    }
  }

  // ---------------------------------------------------------------- make_cube

  /** The unit cube, centred on the origin: the 24 vertices make_cube writes (CUBE_VERTICES). */
  const UnitCube: seq<SceneVertex> :=
    [
     SceneVertex(Vec3(-0.5, -0.5, -0.5), Vec2( 0.0,  0.0)),
     SceneVertex(Vec3( 0.5, -0.5, -0.5), Vec2( 1.0,  0.0)),
     SceneVertex(Vec3( 0.5,  0.5, -0.5), Vec2( 1.0,  1.0)),
     SceneVertex(Vec3(-0.5,  0.5, -0.5), Vec2( 0.0,  1.0)),
     SceneVertex(Vec3(-0.5, -0.5,  0.5), Vec2( 0.0,  0.0)),
     SceneVertex(Vec3( 0.5, -0.5,  0.5), Vec2( 1.0,  0.0)),
     SceneVertex(Vec3( 0.5,  0.5,  0.5), Vec2( 1.0,  1.0)),
     SceneVertex(Vec3(-0.5,  0.5,  0.5), Vec2( 0.0,  1.0)),

     SceneVertex(Vec3(-0.5,  0.5, -0.5), Vec2( 0.0,  0.0)),
     SceneVertex(Vec3(-0.5, -0.5, -0.5), Vec2( 1.0,  0.0)),
     SceneVertex(Vec3(-0.5, -0.5,  0.5), Vec2( 1.0,  1.0)),
     SceneVertex(Vec3(-0.5,  0.5,  0.5), Vec2( 0.0,  1.0)),
     SceneVertex(Vec3( 0.5, -0.5, -0.5), Vec2( 0.0,  0.0)),
     SceneVertex(Vec3( 0.5,  0.5, -0.5), Vec2( 1.0,  0.0)),
     SceneVertex(Vec3( 0.5,  0.5,  0.5), Vec2( 1.0,  1.0)),
     SceneVertex(Vec3( 0.5, -0.5,  0.5), Vec2( 0.0,  1.0)),

     SceneVertex(Vec3(-0.5, -0.5, -0.5), Vec2( 0.0,  0.0)),
     SceneVertex(Vec3( 0.5, -0.5, -0.5), Vec2( 1.0,  0.0)),
     SceneVertex(Vec3( 0.5, -0.5,  0.5), Vec2( 1.0,  1.0)),
     SceneVertex(Vec3(-0.5, -0.5,  0.5), Vec2( 0.0,  1.0)),
     SceneVertex(Vec3( 0.5,  0.5, -0.5), Vec2( 0.0,  0.0)),
     SceneVertex(Vec3(-0.5,  0.5, -0.5), Vec2( 1.0,  0.0)),
     SceneVertex(Vec3(-0.5,  0.5,  0.5), Vec2( 1.0,  1.0)),
     SceneVertex(Vec3( 0.5,  0.5,  0.5), Vec2( 0.0,  1.0))
    ]

  /** fill_scene_vertex(data, index, ...): vertex `index` of the cube is replaced, the rest kept. */
  function FillSceneVertex(c: Cube, index: nat, x: real, y: real, z: real, uvx: real, uvz: real): (r: Cube)
    requires index < 24
    ensures r[index] == SceneVertex(Vec3(x, y, z), Vec2(uvx, uvz))
    ensures forall j | 0 <= j < 24 && j != index :: r[j] == c[j]
  {
    c[index := SceneVertex(Vec3(x, y, z), Vec2(uvx, uvz))]
  }

  /** make_cube(data[k]): 24 fill_scene_vertex calls; the slot ends up holding the unit cube. */
  method MakeCube(data: array<Cube>, k: nat)
    requires k < data.Length
    modifies data
    ensures data[..] == old(data[..])[k := UnitCube]
  {
    var c := data[k];
    c := FillSceneVertex(c,  0, -0.5, -0.5, -0.5,  0.0,  0.0);
    c := FillSceneVertex(c,  1,  0.5, -0.5, -0.5,  1.0,  0.0);
    c := FillSceneVertex(c,  2,  0.5,  0.5, -0.5,  1.0,  1.0);
    c := FillSceneVertex(c,  3, -0.5,  0.5, -0.5,  0.0,  1.0);
    c := FillSceneVertex(c,  4, -0.5, -0.5,  0.5,  0.0,  0.0);
    c := FillSceneVertex(c,  5,  0.5, -0.5,  0.5,  1.0,  0.0);
    c := FillSceneVertex(c,  6,  0.5,  0.5,  0.5,  1.0,  1.0);
    c := FillSceneVertex(c,  7, -0.5,  0.5,  0.5,  0.0,  1.0);

    c := FillSceneVertex(c,  8, -0.5,  0.5, -0.5,  0.0,  0.0);
    c := FillSceneVertex(c,  9, -0.5, -0.5, -0.5,  1.0,  0.0);
    c := FillSceneVertex(c, 10, -0.5, -0.5,  0.5,  1.0,  1.0);
    c := FillSceneVertex(c, 11, -0.5,  0.5,  0.5,  0.0,  1.0);
    c := FillSceneVertex(c, 12,  0.5, -0.5, -0.5,  0.0,  0.0);
    c := FillSceneVertex(c, 13,  0.5,  0.5, -0.5,  1.0,  0.0);
    c := FillSceneVertex(c, 14,  0.5,  0.5,  0.5,  1.0,  1.0);
    c := FillSceneVertex(c, 15,  0.5, -0.5,  0.5,  0.0,  1.0);

    c := FillSceneVertex(c, 16, -0.5, -0.5, -0.5,  0.0,  0.0);
    c := FillSceneVertex(c, 17,  0.5, -0.5, -0.5,  1.0,  0.0);
    c := FillSceneVertex(c, 18,  0.5, -0.5,  0.5,  1.0,  1.0);
    c := FillSceneVertex(c, 19, -0.5, -0.5,  0.5,  0.0,  1.0);
    c := FillSceneVertex(c, 20,  0.5,  0.5, -0.5,  0.0,  0.0);
    c := FillSceneVertex(c, 21, -0.5,  0.5, -0.5,  1.0,  0.0);
    c := FillSceneVertex(c, 22, -0.5,  0.5,  0.5,  1.0,  1.0);
    c := FillSceneVertex(c, 23,  0.5,  0.5,  0.5,  0.0,  1.0);

    assert forall j | 0 <= j < 24 :: c[j] == UnitCube[j];
    assert c == UnitCube;
    data[k] := c;
  }

  /** The texture coordinates of a unit square's corners, counter-clockwise from (0, 0). */
  function CornerUV(t: nat): Vec2
    requires t < 4
  {
    if t == 0 then Vec2(0.0, 0.0) else if t == 1 then Vec2(1.0, 0.0)
    else if t == 2 then Vec2(1.0, 1.0) else Vec2(0.0, 1.0)
  }

  predicate IsHalf(a: real) { a == -0.5 || a == 0.5 }

  /** Every vertex of the unit cube is a corner (coordinates +-0.5) with a 0/1 texture coordinate. */
  lemma UnitCubeCorners()
    ensures |UnitCube| == 24
    ensures forall j | 0 <= j < 24 ::
      IsHalf(UnitCube[j].pos.x) && IsHalf(UnitCube[j].pos.y) && IsHalf(UnitCube[j].pos.z)
    ensures forall j | 0 <= j < 24 :: UnitCube[j].uv == CornerUV(j % 4)
  {
  }

  /**
   * Face g of the cube (vertices 4g .. 4g + 3) lies in the plane z = -0.5, z = 0.5, x = -0.5,
   * x = 0.5, y = -0.5, y = 0.5 for g = 0 .. 5 respectively.
   */
  function FacePlane(g: nat, p: Vec3): real
    requires g < 6
  {
    if g < 2 then p.z else if g < 4 then p.x else p.y
  }

  function FaceSide(g: nat): real {
    if g % 2 == 0 then -0.5 else 0.5
  }

  lemma UnitCubeFaces()
    ensures forall j | 0 <= j < 24 :: FacePlane(j / 4, UnitCube[j].pos) == FaceSide(j / 4)
  {
  }

  /**
   * The index block and the cube agree: every vertex a triangle of face f names lies in face
   * f's plane, so the six faces are drawn flat.
   */
  lemma {:induction false} TrianglesLieOnTheirFace()
    ensures forall j | 0 <= j < 36 ::
      0 <= ElementsFor(0)[j] < 24 &&
      FacePlane(j / 6, UnitCube[ElementsFor(0)[j]].pos) == FaceSide(j / 6)
  {
    PatternFaceRange();
    UnitCubeFaces();
    forall j | 0 <= j < 36
      ensures 0 <= ElementsFor(0)[j] < 24 &&
        FacePlane(j / 6, UnitCube[ElementsFor(0)[j]].pos) == FaceSide(j / 6)
    {
      var v := ElementsFor(0)[j];
      assert v == ElementPattern[j];
      assert v / 4 == j / 6;
    }
  }

  // ---------------------------------------------------------------- transform_cube

  /** Every position of c moved by the model matrix as a point (w = 1); texture coordinates kept. */
  function Transformed(m: Mat4, c: Cube): Cube {
    seq(24, i requires 0 <= i < 24 => c[i].(pos := Mulv3(m, 1.0, c[i].pos)))
  }

  /**
   * transform_cube(data[k], model): a 24-step loop applying mat4_mulv3(model, 1, pos, pos) to
   * each vertex's position in place.
   */
  method TransformCube(data: array<Cube>, k: nat, model: array2<real>)
    requires k < data.Length && Bmath.IsMat4(model)
    modifies data
    ensures data[..] == old(data[..])[k := Transformed(Bmath.M4(model), old(data[k]))]
  {
    ghost var c0 := data[k];
    var m := Bmath.M4(model);
    for i := 0 to 24
      invariant forall j | 0 <= j < data.Length && j != k :: data[j] == old(data[j])
      invariant forall j | 0 <= j < 24 ::
        data[k][j] == if j < i then c0[j].(pos := Mulv3(m, 1.0, c0[j].pos)) else c0[j]
    {
      data[k] := data[k][i := data[k][i].(pos := Mulv3(m, 1.0, data[k][i].pos))];
    }
    assert data[k] == Transformed(m, c0);
    assert data[..] == old(data[..])[k := Transformed(m, c0)];
  }

  /** The identity model leaves a cube where it is. */
  lemma {:induction false} TransformedIdentity(c: Cube)
    ensures Transformed(Identity4, c) == c
  {
    forall i | 0 <= i < 24
      ensures Transformed(Identity4, c)[i] == c[i]
    {
      Mulv3ScalarForm(Identity4, 1.0, c[i].pos);
    }
  }

  /** Transforming by b and then by a is transforming once by the product a * b (b affine). */
  lemma {:induction false} TransformedComposes(a: Mat4, b: Mat4, c: Cube)
    requires IsAffine(b)
    ensures Transformed(a, Transformed(b, c)) == Transformed(Mul4(a, b), c)
  {
    forall i | 0 <= i < 24
      ensures Transformed(a, Transformed(b, c))[i] == Transformed(Mul4(a, b), c)[i]
    {
      Mulv3Composes(a, b, c[i].pos);
    }
  }

  // ---------------------------------------------------------------- make_quad

  /** The quad make_quad writes: centre (x, y), size w by h, the full texture, texture id 0. */
  function ScreenQuad(x: real, y: real, w: real, h: real): Quad {
    var hw, hh := w * 0.5, h * 0.5;
    [HudVertex(Vec2(x - hw, y - hh), Vec2(0.0, 0.0), 0.0),
     HudVertex(Vec2(x + hw, y - hh), Vec2(1.0, 0.0), 0.0),
     HudVertex(Vec2(x + hw, y + hh), Vec2(1.0, 1.0), 0.0),
     HudVertex(Vec2(x - hw, y + hh), Vec2(0.0, 1.0), 0.0)]
  }

  /**
   * make_quad(data[k], x, y, w, h): its 20 stores fill slot k with exactly the four vertices
   * ScreenQuad lists, so the model stores that value in one step.
   */
  method MakeQuad(data: array<Quad>, k: nat, x: real, y: real, w: real, h: real)
    requires k < data.Length
    modifies data
    ensures data[..] == old(data[..])[k := ScreenQuad(x, y, w, h)]
  {
    data[k] := ScreenQuad(x, y, w, h);
  }

  /**
   * The corners run bottom-left, bottom-right, top-right, top-left around a w by h box centred
   * on (x, y); corner t carries CornerUV(t) and texture id 0.
   */
  lemma ScreenQuadLayout(x: real, y: real, w: real, h: real)
    ensures var q := ScreenQuad(x, y, w, h);
      q[1].pos.x - q[0].pos.x == w && q[2].pos.x == q[1].pos.x && q[3].pos.x == q[0].pos.x &&
      q[3].pos.y - q[0].pos.y == h && q[1].pos.y == q[0].pos.y && q[2].pos.y == q[3].pos.y &&
      (q[0].pos.x + q[2].pos.x) / 2.0 == x && (q[0].pos.y + q[2].pos.y) / 2.0 == y &&
      forall t | 0 <= t < 4 :: q[t].uv == CornerUV(t) && q[t].tex == 0.0
  {
  }
}
