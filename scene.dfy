/**
 * The buffers main builds for the two batched draws: the static HUD index buffer, the scene's
 * element buffer, the per-frame lattice of transformed cubes and the per-frame HUD text.
 */
module Scene {
  import opened Linear
  import opened GraphicsTypes
  import Bmath
  import Graphics
  import Text

  /** HUD_MAX_QUAD_COUNT, HUD_MAX_INDEX_COUNT and SCENE_MAX_CUBES. */
  const HudMaxQuadCount: nat := 1000
  const HudMaxIndexCount: nat := HudMaxQuadCount * 6
  const SceneMaxCubes: nat := 2050

  // ---------------------------------------------------------------- HUD index buffer

  /** The corners of a quad's two triangles: (0, 1, 2) and (2, 3, 0). */
  const QuadCorner: seq<int> := [0, 1, 2, 2, 3, 0]

  /** Where index t of quad q sits in the buffer. */
  function Slot(q: nat, t: nat): nat {
    6 * q + t
  }

  /** The value the HUD index buffer holds for index t of quad q. */
  function TextIndex(q: nat, t: nat): int
    requires t < 6
  {
    4 * q + QuadCorner[t]
  }

  /** Each quad's six indices name only its own four vertices, and every one of them. */
  lemma TextIndexInQuad(q: nat)
    ensures forall t | 0 <= t < 6 :: 4 * q <= TextIndex(q, t) < 4 * q + 4
    ensures TextIndex(q, 0) == 4 * q && TextIndex(q, 1) == 4 * q + 1
    ensures TextIndex(q, 2) == TextIndex(q, 3) == 4 * q + 2 && TextIndex(q, 4) == 4 * q + 3
    ensures TextIndex(q, 5) == TextIndex(q, 0)
  {
  }

  /**
   * The text index loop: six indices per quad with a vertex offset that grows by four. The
   * offset stays below 4 * HUD_MAX_QUAD_COUNT, so its u32 type never wraps.
   */
  method FillTextIndices(indices: array<int>)
    requires indices.Length == HudMaxIndexCount
    modifies indices
    ensures forall q, t | 0 <= q < HudMaxQuadCount && 0 <= t < 6 :: indices[Slot(q, t)] == TextIndex(q, t)
    ensures forall j | 0 <= j < indices.Length :: 0 <= indices[j] < 4 * HudMaxQuadCount
  {
    var offset := 0;
    var i := 0;
    ghost var k: nat := 0;
    while i < HudMaxIndexCount
      invariant i == 6 * k && offset == 4 * k && k <= HudMaxQuadCount
      invariant forall q, t | 0 <= q < k && 0 <= t < 6 :: indices[Slot(q, t)] == TextIndex(q, t)
      invariant forall j | 0 <= j < i :: 0 <= indices[j] < 4 * k
    {
      indices[i + 0] := 0 + offset;
      indices[i + 1] := 1 + offset;
      indices[i + 2] := 2 + offset;

      indices[i + 3] := 2 + offset;
      indices[i + 4] := 3 + offset;
      indices[i + 5] := 0 + offset;

      offset := offset + 4;
      i := i + 6;
      k := k + 1;
    }
  }

  // ---------------------------------------------------------------- scene element buffer

  /**
   * The element loop as written: its counter is declared without an initial value. `start`
   * stands for whatever value the counter happens to hold; slots before it keep the
   * buffer's previous (uninitialised) contents.
   */
  function ElementsFrom(start: nat, before: seq<CubeElements>): (r: seq<CubeElements>)
    requires |before| == SceneMaxCubes
    ensures |r| == SceneMaxCubes
  {
    seq(SceneMaxCubes, k requires 0 <= k < SceneMaxCubes =>
      if start <= k then Graphics.ElementsFor(k) else before[k])
  }

  /** The loop as written, from the counter's indeterminate first value. */
  method FillElementsFrom(elements: array<CubeElements>, start: nat)
    requires elements.Length == SceneMaxCubes
    modifies elements
    ensures elements[..] == ElementsFrom(start, old(elements[..]))
    ensures forall k | 0 <= k < start && k < SceneMaxCubes :: elements[k] == old(elements[k])
    ensures forall k | start <= k < SceneMaxCubes :: elements[k] == Graphics.ElementsFor(k)
  {
    var i := start;
    while i < SceneMaxCubes
      invariant start <= i || SceneMaxCubes <= start
      invariant forall k | 0 <= k < SceneMaxCubes ::
        elements[k] == if start <= k < i then Graphics.ElementsFor(k) else old(elements[k])
    {
      Graphics.FillCubeElements(elements, i, i);
      i := i + 1;
    }
  }

  /**
   * When the counter happens to start at 1, cube 0's indices are never written, and a buffer
   * that held zeros draws its first cube as 36 references to vertex 0.
   */
  lemma UninitialisedCounterSkipsCubes()
    ensures var before := seq(SceneMaxCubes, _ => seq(36, _ => 0));
      ElementsFrom(1, before)[0] != Graphics.ElementsFor(0)
  {
    var before: seq<CubeElements> := seq(SceneMaxCubes, _ => seq(36, _ => 0));
    assert ElementsFrom(1, before)[0] == before[0];
    assert before[0][1] == 0;
    assert Graphics.ElementsFor(0)[1] == Graphics.ElementPattern[1] == 3;
  }

  /** The buffer the loop is meant to build: cube k's 36 indices, for every cube. */
  function SceneElements(): (r: seq<CubeElements>)
    ensures |r| == SceneMaxCubes
  {
    seq(SceneMaxCubes, k requires 0 <= k < SceneMaxCubes => Graphics.ElementsFor(k))
  }

  /** The loop with its counter starting at zero, as intended. */
  method FillSceneElements(elements: array<CubeElements>)
    requires elements.Length == SceneMaxCubes
    modifies elements
    ensures elements[..] == SceneElements()
    ensures forall k | 0 <= k < SceneMaxCubes :: elements[k] == Graphics.ElementsFor(k)
  {
    FillElementsFrom(elements, 0);
    assert ElementsFrom(0, old(elements[..])) == SceneElements();
  }

  /**
   * Every index of the intended buffer names a vertex of its own cube, so the one draw of
   * SCENE_MAX_CUBES * 36 indices reads only vertices the lattice loop writes.
   */
  lemma SceneElementsInRange()
    ensures forall k, j | 0 <= k < SceneMaxCubes && 0 <= j < 36 ::
      24 * k <= SceneElements()[k][j] < 24 * k + 24 && SceneElements()[k][j] < 24 * SceneMaxCubes
  {
    forall k | 0 <= k < SceneMaxCubes
      ensures forall j | 0 <= j < 36 :: 24 * k <= SceneElements()[k][j] < 24 * k + 24
    {
      Graphics.ElementsInRange(k);
    }
  }

  // ---------------------------------------------------------------- cube lattice

  /** x_begin and the spacing of the lattice. */
  const XBegin: real := -50.0
  const Spacing: real := 1.5

  /** The axis every cube turns about, and its (unit) scale. */
  const Axis: Vec3 := Vec3(1.0, 0.3, 0.5)
  const UnitScale: Vec3 := Vec3(1.0, 1.0, 1.0)

  /**
   * The integer lattice cell of cube i: ten cubes along x, ten rows of them along z, and a new
   * layer up y every hundred cubes, starting one step above the ground.
   */
  function Cell(i: nat): (int, int, int) {
    (i % 10, i / 100 + 1, (i % 100) / 10)
  }

  /** The position of a cell: scaled by the spacing and moved to start at x_begin. */
  function PosOf(cell: (int, int, int)): Vec3 {
    Vec3(XBegin + Spacing * cell.0 as real, Spacing * cell.1 as real, Spacing * cell.2 as real)
  }

  /** The position of cube i. */
  function LatticePos(i: nat): Vec3 {
    PosOf(Cell(i))
  }

  /** The cell m_pos stands for before iteration i: the start (x_begin, 0, 0), then cube i - 1's. */
  function CellBefore(i: nat): (int, int, int) {
    if i == 0 then (0, 0, 0) else Cell(i - 1)
  }

  /** The three updates of m_pos in iteration i. */
  function StepPos(p: Vec3, i: nat): Vec3 {
    var p := p.(x := p.x + Spacing);
    var p := if i % 10 == 0 then p.(z := p.z + Spacing, x := XBegin) else p;
    if i % 100 == 0 then p.(z := 0.0, x := XBegin, y := p.y + Spacing) else p
  }

  /** The same updates on the cell. */
  function StepCell(c: (int, int, int), i: nat): (int, int, int) {
    var c := (c.0 + 1, c.1, c.2);
    var c := if i % 10 == 0 then (0, c.1, c.2 + 1) else c;
    if i % 100 == 0 then (0, c.1 + 1, 0) else c
  }

  /** Updating the position is updating the cell. */
  lemma StepPosOnCells(c: (int, int, int), i: nat)
    ensures StepPos(PosOf(c), i) == PosOf(StepCell(c, i))
  {
  }

  /** Division by ten: the quotient and remainder are the only ones. */
  lemma Div10(n: int, q: int, r: int)
    requires n == 10 * q + r && 0 <= r < 10
    ensures n / 10 == q && n % 10 == r
  {
  }

  /** Division by a hundred: the quotient and remainder are the only ones. */
  lemma Div100(n: int, q: int, r: int)
    requires n == 100 * q + r && 0 <= r < 100
    ensures n / 100 == q && n % 100 == r
  {
  }

  /** The digits of a cube number in each place, read back by division. */
  lemma Digits(n: nat, a: nat, b: nat, c: nat)
    requires n == 100 * a + 10 * b + c && b < 10 && c < 10
    ensures Cell(n) == (c, a + 1, b) && n % 100 == 10 * b + c
  {
    Div10(n, 10 * a + b, c);
    Div100(n, a, 10 * b + c);
    Div10(10 * b + c, b, c);
  }

  /** The accumulated cell is cube i's: the loop's update in closed form. */
  lemma {:induction false} CellStep(i: nat)
    ensures StepCell(CellBefore(i), i) == Cell(i)
  {
    if i > 0 {
      var a, b, c := i / 100, (i % 100) / 10, i % 10;
      Div100(i, a, i % 100);
      Div10(i % 100, b, c);
      Digits(i, a, b, c);
      if c > 0 {
        Digits(i - 1, a, b, c - 1);
      } else if b > 0 {
        Digits(i - 1, a, b - 1, 9);
      } else {
        Digits(i - 1, a - 1, 9, 9);
      }
    }
  }

  /** The accumulated m_pos is cube i's lattice position. */
  lemma LatticeStep(i: nat)
    ensures StepPos(PosOf(CellBefore(i)), i) == LatticePos(i)
  {
    StepPosOnCells(CellBefore(i), i);
    CellStep(i);
  }

  /** A cube number is recovered from its cell. */
  lemma {:induction false} Recompose(n: nat)
    ensures n == 100 * (Cell(n).1 - 1) + 10 * Cell(n).2 + Cell(n).0
  {
    var a, r := n / 100, n % 100;
    var b, c := r / 10, r % 10;
    assert n == 100 * a + 10 * b + c;
    Digits(n, a, b, c);
  }

  /** Cube numbers and cells correspond one to one. */
  lemma CellInjective(i: nat, j: nat)
    requires Cell(i) == Cell(j)
    ensures i == j
  {
    Recompose(i);
    Recompose(j);
  }

  /** No two cubes share a position. */
  lemma LatticeInjective(i: nat, j: nat)
    requires LatticePos(i) == LatticePos(j)
    ensures i == j
  {
    assert Cell(i) == Cell(j);
    CellInjective(i, j);
  }

  /** The model matrix of cube i: translate to its cell, scale by one, turn rot + i degrees. */
  function ModelOf(i: nat, rot: real, libm: Libm): Mat4 {
    var m := Translate4(Identity4, LatticePos(i));
    var m := ScaleTo4(m, UnitScale);
    Rotate4(m, ToRadians(rot + i as real), Axis, libm)
  }

  /** The cube's centre lands on its lattice position: the rotation turns it in place. */
  lemma CubeCentreOnLattice(i: nat, rot: real, libm: Libm)
    ensures Mulv3(ModelOf(i, rot, libm), 1.0, Zero3) == LatticePos(i)
  {
    OriginToTranslation(ModelOf(i, rot, libm));
  }

  /** Cube i of the frame: the unit cube moved by its model matrix. */
  function PlacedCube(i: nat, rot: real, libm: Libm): Cube {
    Graphics.Transformed(ModelOf(i, rot, libm), Graphics.UnitCube)
  }

  /** The m_pos updates at the top of iteration i. */
  method AdvancePos(mPos: array<real>, i: nat)
    requires mPos.Length == 3
    modifies mPos
    ensures Bmath.V3(mPos) == StepPos(old(Bmath.V3(mPos)), i)
  {
    mPos[0] := mPos[0] + Spacing;
    if i % 10 == 0 {
      mPos[2] := mPos[2] + Spacing;
      mPos[0] := XBegin;
    }
    if i % 100 == 0 {
      mPos[2] := 0.0;
      mPos[0] := XBegin;
      mPos[1] := mPos[1] + Spacing;
    }
  }

  /** The rest of iteration i: build the model matrix from m_pos, then the cube in slot i. */
  method PlaceCube(cubes: array<Cube>, i: nat, mPos: array<real>, mAxis: array<real>, mScale: array<real>,
                   model: array2<real>, rot: real, libm: Libm)
    requires i < cubes.Length && mPos.Length == 3 && mAxis.Length == 3 && mScale.Length == 3
    requires Bmath.IsMat4(model) && Bmath.M4(model) == Identity4
    requires Bmath.V3(mPos) == LatticePos(i) && Bmath.V3(mAxis) == Axis && Bmath.V3(mScale) == UnitScale
    modifies cubes, model
    ensures cubes[i] == PlacedCube(i, rot, libm)
    ensures forall k | 0 <= k < cubes.Length && k != i :: cubes[k] == old(cubes[k])
  {
    ghost var translated := Translate4(Identity4, LatticePos(i));
    ghost var scaled := ScaleTo4(translated, UnitScale);
    Bmath.Mat4Translate(model, mPos);
    assert Bmath.M4(model) == translated;
    Bmath.Mat4Scale(model, mScale);
    assert Bmath.M4(model) == scaled;
    Bmath.Mat4Rotate(model, ToRadians(rot + i as real), mAxis, libm);
    assert Bmath.M4(model) == ModelOf(i, rot, libm);
    Graphics.MakeCube(cubes, i);
    assert cubes[i] == Graphics.UnitCube;
    Graphics.TransformCube(cubes, i, model);
  }

  /** The loop's locals before iteration i: m_pos at cube i - 1's position, axis and scale as set. */
  predicate LatticeLocalsAt(mPos: array<real>, mAxis: array<real>, mScale: array<real>, p: Vec3)
    reads mPos, mAxis, mScale
  {
    mPos.Length == 3 && mAxis.Length == 3 && mScale.Length == 3 && mPos != mAxis && mPos != mScale &&
    Bmath.V3(mPos) == p && Bmath.V3(mAxis) == Axis && Bmath.V3(mScale) == UnitScale
  }

  /**
   * Iteration i of the lattice loop; m_pos moves on from cube i - 1's position to cube i's.
   * `want` names the cubes of the frame, so that callers need not unfold them.
   */
  method LatticeIteration(cubes: array<Cube>, i: nat, mPos: array<real>, mAxis: array<real>,
                          mScale: array<real>, model: array2<real>, rot: real, libm: Libm,
                          ghost want: nat -> Cube)
    requires i < cubes.Length && Bmath.IsMat4(model) && LatticeLocalsAt(mPos, mAxis, mScale, PosOf(CellBefore(i)))
    requires forall k: nat :: want(k) == PlacedCube(k, rot, libm)
    modifies cubes, model, mPos
    ensures LatticeLocalsAt(mPos, mAxis, mScale, LatticePos(i))
    ensures cubes[..] == old(cubes[..])[i := want(i)]
  {
    Bmath.Mat4Identity(model);
    AdvancePos(mPos, i);
    assert Bmath.V3(mAxis) == Axis && Bmath.V3(mScale) == UnitScale;
    LatticeStep(i);
    PlaceCube(cubes, i, mPos, mAxis, mScale, model, rot, libm);
    assert Bmath.V3(mAxis) == Axis && Bmath.V3(mScale) == UnitScale;
  }

  /** The loop's locals: m_pos at (x_begin, 0, 0), the axis, the unit scale and the model matrix. */
  method LatticeLocals() returns (mPos: array<real>, mAxis: array<real>, mScale: array<real>, model: array2<real>)
    ensures fresh(mPos) && fresh(mAxis) && fresh(mScale) && fresh(model)
    ensures Bmath.IsMat4(model) && LatticeLocalsAt(mPos, mAxis, mScale, PosOf(CellBefore(0)))
  {
    mPos := new real[3];
    mPos[0], mPos[1], mPos[2] := XBegin, 0.0, 0.0;
    mAxis := new real[3];
    mAxis[0], mAxis[1], mAxis[2] := 1.0, 0.3, 0.5;
    mScale := new real[3];
    mScale[0], mScale[1], mScale[2] := 1.0, 1.0, 1.0;
    model := new real[4, 4];
  }

  /** The cubes of the frame, slot by slot. */
  function FrameCubes(rot: real, libm: Libm): (want: nat -> Cube)
    ensures forall i: nat :: want(i) == PlacedCube(i, rot, libm)
  {
    (i: nat) => PlacedCube(i, rot, libm)
  }

  /** Slots 0 to i - 1 hold the cubes want gives them. */
  ghost predicate PlacedUpTo(s: seq<Cube>, i: nat, want: nat -> Cube) {
    i <= |s| && forall k | 0 <= k < i :: s[k] == want(k)
  }

  /** Filling slot i extends the filled prefix by one slot. */
  lemma PlacedStep(s: seq<Cube>, i: nat, want: nat -> Cube)
    requires PlacedUpTo(s, i, want) && i < |s|
    ensures PlacedUpTo(s[i := want(i)], i + 1, want)
  {
  }

  /** The lattice loop: every cube of the buffer rebuilt and moved to its place for this frame. */
  method PlaceCubes(cubes: array<Cube>, rot: real, libm: Libm)
    requires cubes.Length == SceneMaxCubes
    modifies cubes
    ensures forall i | 0 <= i < SceneMaxCubes :: cubes[i] == PlacedCube(i, rot, libm)
  {
    PlaceCubesAs(cubes, rot, libm, FrameCubes(rot, libm));
  }

  /** The loop of PlaceCubes, for any name `want` of the frame's cubes. */
  method PlaceCubesAs(cubes: array<Cube>, rot: real, libm: Libm, ghost want: nat -> Cube)
    requires cubes.Length == SceneMaxCubes
    requires forall k: nat :: want(k) == PlacedCube(k, rot, libm)
    modifies cubes
    ensures PlacedUpTo(cubes[..], SceneMaxCubes, want)
  {
    var mPos, mAxis, mScale, model := LatticeLocals();
    var i := 0;
    while i < SceneMaxCubes
      invariant 0 <= i <= SceneMaxCubes && Bmath.IsMat4(model) && LatticeLocalsAt(mPos, mAxis, mScale, PosOf(CellBefore(i)))
      invariant PlacedUpTo(cubes[..], i, want)
    {
      ghost var before := cubes[..];
      LatticeIteration(cubes, i, mPos, mAxis, mScale, model, rot, libm, want);
      PlacedStep(before, i, want);
      i := i + 1;
    }
  }

  // ---------------------------------------------------------------- HUD text

  /** A string of single-byte characters as the bytes C stores for it. */
  function AsBytes(s: string): (b: seq<Text.byte>)
    requires forall i | 0 <= i < |s| :: s[i] as int < 256
    ensures |b| == |s| && forall i | 0 <= i < |s| :: b[i] as int == s[i] as int
  {
    seq(|s|, i requires 0 <= i < |s| => s[i] as int as Text.byte)
  }

  /** The two hint rows; neither format string has a conversion, so each prints as written. */
  const TextHint: seq<Text.byte> := AsBytes("Press f to disable/enable text")
  const ModeHint: seq<Text.byte> := AsBytes("Press space to change mode")

  /** One row never appends more than 99 quads, the characters its message buffer keeps. */
  lemma RowQuadsBounded(formatted: seq<Text.byte>)
    ensures Text.NonSpaceCount(Text.Visible(formatted)) < Text.MessageSize
  {
    Text.VisibleBounded(formatted);
    Text.NonSpaceCountBounded(Text.Visible(formatted));
  }

  /** A u32 counter that has not reached 2^32 holds its value. */
  lemma NoWrap(x: int)
    requires 0 <= x < Text.U32
    ensures x % Text.U32 == x
  {
  }

  /**
   * The rows of the HUD: the formatted FPS line near the bottom, then the two hints at the
   * top, each row starting at the left edge (-w) of the [-w, w] x [-h, h] projection.
   */
  function HudRows(f: Text.Font, w: real, h: real, fpsText: seq<Text.byte>,
                   stale0: nat -> Text.GlyphQuad, stale1: nat -> Text.GlyphQuad, stale2: nat -> Text.GlyphQuad): seq<Text.Row> {
    [Text.TextRow(f, Vec2(-w, -h + 100.0), Text.Visible(fpsText), stale0),
     Text.TextRow(f, Vec2(-w, h - 16.0), Text.Visible(TextHint), stale1),
     Text.TextRow(f, Vec2(-w, h - 116.0), Text.Visible(ModeHint), stale2)]
  }

  /**
   * One HUD row: the pen is set to the row's start and make_text_row appends its quads after
   * the av already written. With fewer than 2^32 indices the u32 count is six per quad.
   */
  method HudRow(f: Text.Font, txtPos: array<real>, pen: Vec2, av: int, indexCount: int,
                quadArr: array<Quad>, formatted: seq<Text.byte>, stale: nat -> Text.GlyphQuad)
    returns (av': int, indexCount': int)
    requires txtPos.Length == 2 && quadArr.Length == HudMaxQuadCount
    requires 0 <= av <= 2 * (Text.MessageSize - 1) && indexCount == 6 * av
    modifies txtPos, quadArr
    ensures var r := Text.TextRow(f, pen, Text.Visible(formatted), stale);
      av' == av + |r.quads| && |r.quads| < Text.MessageSize &&
      quadArr[..av'] == old(quadArr[..av]) + r.quads
    ensures indexCount' == 6 * av'
    ensures forall j | av' <= j < quadArr.Length :: quadArr[j] == old(quadArr[j])
  {
    RowQuadsBounded(formatted);
    txtPos[0], txtPos[1] := pen.x, pen.y;
    assert Bmath.V2(txtPos) == pen;
    ghost var before := quadArr[..];
    av', indexCount' := Text.MakeTextRow(f, txtPos, av, indexCount, quadArr, formatted, stale);
    NoWrap(6 * av');
    assert quadArr[..av] == before[..av];
    assert quadArr[..av'] == quadArr[..av] + quadArr[av..av'];
  }

  /**
   * The HUD text of one frame: three rows appended from slot 0 on. The quads fit the buffer,
   * so the u32 index count is exactly six per quad and the draw of that many indices of the
   * HUD index buffer reads only the quads written this frame.
   */
  method DrawHudText(f: Text.Font, w: real, h: real, fpsText: seq<Text.byte>, quadArr: array<Quad>,
                     stale0: nat -> Text.GlyphQuad, stale1: nat -> Text.GlyphQuad, stale2: nat -> Text.GlyphQuad)
    returns (indexCount: int, quads: int)
    requires quadArr.Length == HudMaxQuadCount
    modifies quadArr
    ensures var rows := HudRows(f, w, h, fpsText, stale0, stale1, stale2);
      quads == |rows[0].quads| + |rows[1].quads| + |rows[2].quads| <= 3 * (Text.MessageSize - 1) &&
      quadArr[..quads] == rows[0].quads + rows[1].quads + rows[2].quads
    ensures indexCount == 6 * quads
    ensures forall j | quads <= j < quadArr.Length :: quadArr[j] == old(quadArr[j])
    ensures forall q, t | 0 <= q < quads && 0 <= t < 6 :: 0 <= TextIndex(q, t) < 4 * quads
  {
    ghost var rows := HudRows(f, w, h, fpsText, stale0, stale1, stale2);
    var txtPos := new real[2];
    var av, count := 0, 0;
    av, count := HudRow(f, txtPos, Vec2(-w, -h + 100.0), av, count, quadArr, fpsText, stale0);
    assert quadArr[..av] == rows[0].quads;
    av, count := HudRow(f, txtPos, Vec2(-w, h - 16.0), av, count, quadArr, TextHint, stale1);
    assert quadArr[..av] == rows[0].quads + rows[1].quads;
    av, count := HudRow(f, txtPos, Vec2(-w, h - 116.0), av, count, quadArr, ModeHint, stale2);
    assert quadArr[..av] == rows[0].quads + rows[1].quads + rows[2].quads;
    indexCount, quads := count, av;
    HudIndicesInRange(quads);
  }

  /** The first 6 * quads HUD indices name vertices of the first quads quads only. */
  lemma HudIndicesInRange(quads: nat)
    ensures forall q, t | 0 <= q < quads && 0 <= t < 6 :: 0 <= TextIndex(q, t) < 4 * quads
  {
    forall q, t | 0 <= q < quads && 0 <= t < 6
      ensures 0 <= TextIndex(q, t) < 4 * quads
    {
      TextIndexInQuad(q);
    }
  }
}
