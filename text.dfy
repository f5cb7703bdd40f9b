/**
 * The HUD text batcher of text.c: one glyph per printable character, laid out as a screen
 * quad in the shared quad buffer.
 *
 * The message is a sequence of bytes. make_text_row reads it as `const char` (signed) and
 * hands each byte to get_glyph_quad as `unsigned char`; a `byte` here is that unsigned value,
 * so "c >= 32 && c < 128" and "c != ' '" and "!c" keep their meaning for every byte.
 */
module Text {
  import opened Linear
  import opened GraphicsTypes
  import Bmath
  import Graphics

  newtype byte = b: int | 0 <= b < 256

  const Space: byte := 32
  /** char message[100] */
  const MessageSize: nat := 100
  /** The range of a u32 counter. */
  const U32: nat := 0x1_0000_0000

  /** glyph_quad: the screen box and the atlas box of one glyph. */
  datatype GlyphQuad = GlyphQuad(bbmin: Vec2, bbmax: Vec2, uvmin: Vec2, uvmax: Vec2)

  /** stbtt_aligned_quad: the baked box (x0, y0)-(x1, y1) and its atlas box (s0, t0)-(s1, t1). */
  datatype AlignedQuad = AlignedQuad(x0: real, y0: real, s0: real, t0: real,
                                     x1: real, y1: real, s1: real, t1: real)

  /**
   * font. The baked character data and the bitmap are represented by `baked`, the lookup
   * stbtt_GetBakedQuad performs on them: given a glyph index and the pen position it returns
   * the glyph's aligned quad and the advanced pen position.
   */
  datatype Font = Font(numGlyphs: int, size: int, w: int, h: int,
                       baked: (int, Vec2) -> (AlignedQuad, Vec2))

  predicate Printable(c: byte) {
    32 <= c < 128
  }

  // ---------------------------------------------------------------- get_glyph_quad

  /** A glyph box and the pen position after it. */
  datatype Glyph = Glyph(quad: GlyphQuad, pen: Vec2)

  /**
   * get_glyph_quad(c, pen, f, size) as a value. A printable byte looks up baked glyph c - 32,
   * which also advances the pen; the box is scaled by size and mirrored in the x axis (y grows
   * down in the baked font and up on screen). Any other byte leaves the pen alone and returns
   * the uninitialised local `g`, whose contents the caller supplies as `stale`.
   */
  function GlyphAt(f: Font, c: byte, pen: Vec2, size: real, stale: GlyphQuad): Glyph {
    if Printable(c) then
      var looked := f.baked(c as int - 32, pen);
      var q := looked.0;
      Glyph(GlyphQuad(Vec2(q.x0 * size, -q.y1 * size), Vec2(q.x1 * size, -q.y0 * size),
                      Vec2(q.s0, q.t0), Vec2(q.s1, q.t1)),
            looked.1)
    else
      Glyph(stale, pen)
  }

  /** txt_pos: the pen, a vec2 that get_glyph_quad advances in place. */
  method GetGlyphQuad(c: byte, txtPos: array<real>, f: Font, size: real, stale: GlyphQuad)
    returns (g: GlyphQuad)
    requires txtPos.Length == 2
    modifies txtPos
    ensures Glyph(g, Bmath.V2(txtPos)) == GlyphAt(f, c, old(Bmath.V2(txtPos)), size, stale)
  {
    g := stale;
    if c >= 32 && c < 128 {
      var looked := f.baked(c as int - 32, Bmath.V2(txtPos));
      var q := looked.0;
      txtPos[0], txtPos[1] := looked.1.x, looked.1.y;

      g := GlyphQuad(Vec2(q.x0 * size, -q.y1 * size), Vec2(q.x1 * size, -q.y0 * size),
                     Vec2(q.s0, q.t0), Vec2(q.s1, q.t1));
    }
  }

  /** Outside [32, 128) the glyph table is not consulted: the pen stays and `g` is stale. */
  lemma UnprintableKeepsPen(f: Font, c: byte, pen: Vec2, size: real, stale: GlyphQuad)
    requires !Printable(c)
    ensures GlyphAt(f, c, pen, size, stale) == Glyph(stale, pen)
  {
  }

  lemma ScaleMonotone(a: real, b: real, size: real)
    requires a <= b && 0.0 <= size
    ensures a * size <= b * size
  {
    assert b * size - a * size == (b - a) * size;
  }

  /**
   * Mirroring keeps the box well formed: a baked box with x0 <= x1 and y0 <= y1 and a
   * non-negative size gives bbmin <= bbmax on both axes, with the box's width and height
   * scaled by size and its atlas box unchanged.
   */
  lemma {:induction false} GlyphBoxWellFormed(f: Font, c: byte, pen: Vec2, size: real, stale: GlyphQuad)
    requires Printable(c) && 0.0 <= size
    requires var q := f.baked(c as int - 32, pen).0; q.x0 <= q.x1 && q.y0 <= q.y1
    ensures var q := f.baked(c as int - 32, pen).0;
      var g := GlyphAt(f, c, pen, size, stale).quad;
      g.bbmin.x <= g.bbmax.x && g.bbmin.y <= g.bbmax.y &&
      g.bbmax.x - g.bbmin.x == (q.x1 - q.x0) * size && g.bbmax.y - g.bbmin.y == (q.y1 - q.y0) * size &&
      g.uvmin == Vec2(q.s0, q.t0) && g.uvmax == Vec2(q.s1, q.t1)
  {
    var q := f.baked(c as int - 32, pen).0;
    ScaleMonotone(q.x0, q.x1, size);
    ScaleMonotone(q.y0, q.y1, size);
    assert q.x1 * size - q.x0 * size == (q.x1 - q.x0) * size;
    assert -q.y0 * size - -q.y1 * size == (q.y1 - q.y0) * size;
  }

  // ---------------------------------------------------------------- make_glyph_quad

  /** The quad make_glyph_quad writes for the glyph box g. */
  function GlyphCorners(g: GlyphQuad): Quad {
    [HudVertex(g.bbmin, Vec2(g.uvmin.x, g.uvmax.y), 0.0),
     HudVertex(Vec2(g.bbmax.x, g.bbmin.y), g.uvmax, 0.0),
     HudVertex(g.bbmax, Vec2(g.uvmax.x, g.uvmin.y), 0.0),
     HudVertex(Vec2(g.bbmin.x, g.bbmax.y), g.uvmin, 0.0)]
  }

  /**
   * make_glyph_quad(data[k], g): its 20 stores fill slot k with exactly the four vertices
   * GlyphCorners lists, so the model stores that value in one step.
   */
  method MakeGlyphQuad(data: array<Quad>, k: nat, g: GlyphQuad)
    requires k < data.Length
    modifies data
    ensures data[..] == old(data[..])[k := GlyphCorners(g)]
  {
    data[k] := GlyphCorners(g);
  }

  /** lo for a 0 selector, hi otherwise. */
  function Pick(sel: real, lo: real, hi: real): real {
    if sel == 0.0 then lo else hi
  }

  /**
   * The corners run bottom-left, bottom-right, top-right, top-left (the order make_quad uses,
   * Graphics.CornerUV), each corner at that corner of the screen box; the atlas box is taken
   * upside down, since the atlas's rows run top to bottom; texture id 0 everywhere.
   */
  lemma GlyphCornersLayout(g: GlyphQuad)
    ensures forall t | 0 <= t < 4 ::
      var sel := Graphics.CornerUV(t);
      GlyphCorners(g)[t] == HudVertex(
        Vec2(Pick(sel.x, g.bbmin.x, g.bbmax.x), Pick(sel.y, g.bbmin.y, g.bbmax.y)),
        Vec2(Pick(sel.x, g.uvmin.x, g.uvmax.x), Pick(sel.y, g.uvmax.y, g.uvmin.y)),
        0.0)
  {
  }

  // ---------------------------------------------------------------- the message

  /**
   * char message[100] after memset(message, 0, 100) and vsnprintf(message, 100, ...) wrote
   * the formatted text: at most 99 of its bytes, then zeros to the end.
   */
  function Message(formatted: seq<byte>): (m: seq<byte>)
    ensures |m| == MessageSize && m[MessageSize - 1] == 0
  {
    var n := if |formatted| < MessageSize - 1 then |formatted| else MessageSize - 1;
    formatted[..n] + seq(MessageSize - n, _ => 0 as byte)
  }

  /** The bytes before the first NUL. */
  function UntilNul(s: seq<byte>): seq<byte> {
    if s == [] || s[0] == 0 then [] else [s[0]] + UntilNul(s[1..])
  }

  /** What make_text_row draws: the message up to its first NUL. */
  function Visible(formatted: seq<byte>): seq<byte> {
    UntilNul(Message(formatted))
  }

  lemma {:induction false} UntilNulPrefix(s: seq<byte>)
    ensures var v := UntilNul(s);
      |v| <= |s| && v == s[..|v|] && (|v| < |s| ==> s[|v|] == 0) &&
      forall j | 0 <= j < |v| :: v[j] != 0
  {
    if s != [] && s[0] != 0 {
      UntilNulPrefix(s[1..]);
    }
  }

  /**
   * Only the characters before the first NUL are drawn, never more than 99 of them (the last
   * byte of the buffer is always NUL), and they are the formatted text's first bytes.
   */
  lemma {:induction false} VisibleBounded(formatted: seq<byte>)
    ensures var v := Visible(formatted); var m := Message(formatted);
      |v| < MessageSize && v == m[..|v|] && m[|v|] == 0 &&
      (forall j | 0 <= j < |v| :: v[j] != 0) &&
      |v| <= |formatted| && v == formatted[..|v|]
  {
    var m := Message(formatted);
    UntilNulPrefix(m);
    var v := Visible(formatted);
    var n := if |formatted| < MessageSize - 1 then |formatted| else MessageSize - 1;
    assert m[n] == 0;
    assert |v| <= n;
    assert forall j | 0 <= j < |v| :: v[j] == m[j] == formatted[j];
  }

  // ---------------------------------------------------------------- make_text_row

  /** The counted characters: everything but spaces. */
  function NonSpaceCount(s: seq<byte>): nat {
    if s == [] then 0 else (if s[0] == Space then 0 else 1) + NonSpaceCount(s[1..])
  }

  lemma {:induction false} NonSpaceCountAppend(a: seq<byte>, b: seq<byte>)
    ensures NonSpaceCount(a + b) == NonSpaceCount(a) + NonSpaceCount(b)
  {
    if a == [] {
      assert a + b == b;
    } else {
      assert (a + b)[1..] == a[1..] + b;
      NonSpaceCountAppend(a[1..], b);
    }
  }

  lemma {:induction false} NonSpaceCountBounded(s: seq<byte>)
    ensures NonSpaceCount(s) <= |s|
  {
    if s != [] {
      NonSpaceCountBounded(s[1..]);
    }
  }

  /** The quads a text row appends, in order, and where it leaves the pen. */
  datatype Row = Row(quads: seq<Quad>, pen: Vec2)

  /**
   * The text row for s from the pen position pen, character by character: every byte moves
   * the pen as get_glyph_quad does (a space too), and every byte but a space appends the quad
   * of its glyph. stale(i) is the uninitialised glyph of an unprintable byte at position i.
   */
  function TextRow(f: Font, pen: Vec2, s: seq<byte>, stale: nat -> GlyphQuad): Row
    decreases |s|
  {
    if s == [] then Row([], pen)
    else
      var prev := TextRow(f, pen, s[..|s| - 1], stale);
      var c := s[|s| - 1];
      var g := GlyphAt(f, c, prev.pen, 1.0, stale(|s| - 1));
      Row(if c == Space then prev.quads else prev.quads + [GlyphCorners(g.quad)], g.pen)
  }

  /** One quad per non-space character. */
  lemma {:induction false} TextRowCount(f: Font, pen: Vec2, s: seq<byte>, stale: nat -> GlyphQuad)
    ensures |TextRow(f, pen, s, stale).quads| == NonSpaceCount(s)
    decreases |s|
  {
    if s != [] {
      var init := s[..|s| - 1];
      TextRowCount(f, pen, init, stale);
      assert s == init + [s[|s| - 1]];
      NonSpaceCountAppend(init, [s[|s| - 1]]);
    }
  }

  /** The pen's path never depends on the uninitialised glyphs. */
  lemma {:induction false} TextRowPenIgnoresStale(f: Font, pen: Vec2, s: seq<byte>, stale: nat -> GlyphQuad, stale': nat -> GlyphQuad)
    ensures TextRow(f, pen, s, stale).pen == TextRow(f, pen, s, stale').pen
    decreases |s|
  {
    if s != [] {
      TextRowPenIgnoresStale(f, pen, s[..|s| - 1], stale, stale');
    }
  }

  /** A message of printable characters only is drawn without any uninitialised glyph. */
  lemma {:induction false} TextRowPrintable(f: Font, pen: Vec2, s: seq<byte>, stale: nat -> GlyphQuad, stale': nat -> GlyphQuad)
    requires forall j | 0 <= j < |s| :: Printable(s[j])
    ensures TextRow(f, pen, s, stale) == TextRow(f, pen, s, stale')
    decreases |s|
  {
    if s != [] {
      TextRowPrintable(f, pen, s[..|s| - 1], stale, stale');
    }
  }

  /**
   * make_text_row(f, txt_pos, &av, &index_count, quad_arr, formatted). The quads of the
   * visible text's non-space characters go to the consecutive slots from av on, and nothing
   * else in quad_arr changes; av grows by their number and the u32 index_count by six times
   * their number; the pen ends where the row ends. quad_arr has no capacity check of its own,
   * so the caller must leave room.
   */
  method MakeTextRow(f: Font, txtPos: array<real>, av: int, indexCount: int, quadArr: array<Quad>,
                     formatted: seq<byte>, stale: nat -> GlyphQuad)
    returns (av': int, indexCount': int)
    requires txtPos.Length == 2
    requires 0 <= av && 0 <= indexCount < U32
    requires av + NonSpaceCount(Visible(formatted)) <= quadArr.Length
    modifies txtPos, quadArr
    ensures var r := TextRow(f, old(Bmath.V2(txtPos)), Visible(formatted), stale);
      |r.quads| == NonSpaceCount(Visible(formatted)) &&
      av' == av + |r.quads| && indexCount' == IndexCountAfter(indexCount, |r.quads|) &&
      quadArr[av..av'] == r.quads && Bmath.V2(txtPos) == r.pen
    ensures forall j | 0 <= j < quadArr.Length && !(av <= j < av') :: quadArr[j] == old(quadArr[j])
  {
    var message := Message(formatted);
    ghost var visible := Visible(formatted);
    ghost var pen0 := Bmath.V2(txtPos);
    ghost var before := quadArr[..];
    VisibleBounded(formatted);
    RowStart(f, pen0, visible, stale, before, av, indexCount);

    av', indexCount' := av, indexCount;
    var i := 0;
    while i < MessageSize
      invariant i <= |visible|
      invariant RowInvariant(f, pen0, visible, stale, before, av, indexCount,
                             RowState(i, quadArr[..], av', indexCount', Bmath.V2(txtPos)))
    {
      var c := message[i];
      if c == 0 {
        break;
      }
      assert c == visible[i];
      ghost var s := RowState(i, quadArr[..], av', indexCount', Bmath.V2(txtPos));
      RowStep(f, pen0, visible, stale, before, av, indexCount, s);

      var g := GetGlyphQuad(c, txtPos, f, 1.0, stale(i));
      if c != Space {
        MakeGlyphQuad(quadArr, av', g);
        indexCount' := (indexCount' + 6) % U32;
        av' := av' + 1;
      }
      i := i + 1;
      assert RowState(i, quadArr[..], av', indexCount', Bmath.V2(txtPos)) == Advance(f, visible[s.i], stale, s);
    }
    assert i == |visible|;
    RowDone(f, pen0, visible, stale, before, av, indexCount,
            RowState(i, quadArr[..], av', indexCount', Bmath.V2(txtPos)));
    assert quadArr[av..av'] == quadArr[..][av..av'];
  }

  /** The loop's state after the first i bytes: the quad buffer, the two counters, the pen. */
  datatype RowState = RowState(i: nat, quads: seq<Quad>, av: int, count: int, pen: Vec2)

  /** cur is before with quads stored at the consecutive slots from av on. */
  ghost predicate Appended(cur: seq<Quad>, before: seq<Quad>, av: int, quads: seq<Quad>) {
    |cur| == |before| && 0 <= av && av + |quads| <= |cur| &&
    forall j | 0 <= j < |cur| :: cur[j] == if av <= j < av + |quads| then quads[j - av] else before[j]
  }

  /** The loop invariant: after i bytes the state is that of the text row for those bytes. */
  ghost predicate RowInvariant(f: Font, pen0: Vec2, visible: seq<byte>, stale: nat -> GlyphQuad,
                               before: seq<Quad>, av0: int, count0: int, s: RowState) {
    s.i <= |visible| && av0 + NonSpaceCount(visible) <= |before| &&
    var row := TextRow(f, pen0, visible[..s.i], stale);
    NonSpaceCount(visible) == |row.quads| + NonSpaceCount(visible[s.i..]) &&
    s.av == av0 + |row.quads| && s.count == IndexCountAfter(count0, |row.quads|) &&
    Appended(s.quads, before, av0, row.quads) && s.pen == row.pen
  }

  /** What one pass of the loop body does to the state, reading byte c. */
  function Advance(f: Font, c: byte, stale: nat -> GlyphQuad, s: RowState): RowState
    requires 0 <= s.av < |s.quads| || c == Space
  {
    var g := GlyphAt(f, c, s.pen, 1.0, stale(s.i));
    if c == Space then s.(i := s.i + 1, pen := g.pen)
    else RowState(s.i + 1, s.quads[s.av := GlyphCorners(g.quad)], s.av + 1, (s.count + 6) % U32, g.pen)
  }

  lemma RowStart(f: Font, pen0: Vec2, visible: seq<byte>, stale: nat -> GlyphQuad,
                 before: seq<Quad>, av0: int, count0: int)
    requires 0 <= av0 && 0 <= count0 < U32 && av0 + NonSpaceCount(visible) <= |before|
    ensures RowInvariant(f, pen0, visible, stale, before, av0, count0, RowState(0, before, av0, count0, pen0))
  {
    assert visible[..0] == [] && visible[0..] == visible;
  }

  lemma RowStep(f: Font, pen0: Vec2, visible: seq<byte>, stale: nat -> GlyphQuad,
                before: seq<Quad>, av0: int, count0: int, s: RowState)
    requires RowInvariant(f, pen0, visible, stale, before, av0, count0, s) && s.i < |visible|
    ensures 0 <= s.av < |s.quads| || visible[s.i] == Space
    ensures RowInvariant(f, pen0, visible, stale, before, av0, count0, Advance(f, visible[s.i], stale, s))
  {
    TextStep(f, pen0, visible, s.i, stale);
    if visible[s.i] == Space {
      SpaceStep(f, pen0, visible, stale, before, av0, count0, s);
    } else {
      GlyphStep(f, pen0, visible, stale, before, av0, count0, s);
    }
  }

  /** A space moves the pen and nothing else. */
  lemma SpaceStep(f: Font, pen0: Vec2, visible: seq<byte>, stale: nat -> GlyphQuad,
                  before: seq<Quad>, av0: int, count0: int, s: RowState)
    requires RowInvariant(f, pen0, visible, stale, before, av0, count0, s) && s.i < |visible|
    requires visible[s.i] == Space
    ensures RowInvariant(f, pen0, visible, stale, before, av0, count0, Advance(f, visible[s.i], stale, s))
  {
    var i := s.i;
    var row := TextRow(f, pen0, visible[..i], stale);
    var next := TextRow(f, pen0, visible[..i + 1], stale);
    TextStep(f, pen0, visible, i, stale);
    var t := Advance(f, Space, stale, s);
    assert t.pen == next.pen && next.quads == row.quads;
  }

  /** Any other byte also appends its quad and bumps both counters. */
  lemma GlyphStep(f: Font, pen0: Vec2, visible: seq<byte>, stale: nat -> GlyphQuad,
                  before: seq<Quad>, av0: int, count0: int, s: RowState)
    requires RowInvariant(f, pen0, visible, stale, before, av0, count0, s) && s.i < |visible|
    requires visible[s.i] != Space
    ensures 0 <= s.av < |s.quads|
    ensures RowInvariant(f, pen0, visible, stale, before, av0, count0, Advance(f, visible[s.i], stale, s))
  {
    var i := s.i;
    var g := GlyphAt(f, visible[i], s.pen, 1.0, stale(i));
    TextStep(f, pen0, visible, i, stale);
    AppendStep(f, pen0, visible, stale, before, av0, count0, s, GlyphCorners(g.quad), g.pen);
  }

  /** The bookkeeping of GlyphStep, for the quad q and the pen position pen the byte yields. */
  lemma AppendStep(f: Font, pen0: Vec2, visible: seq<byte>, stale: nat -> GlyphQuad,
                   before: seq<Quad>, av0: int, count0: int, s: RowState, q: Quad, pen: Vec2)
    requires RowInvariant(f, pen0, visible, stale, before, av0, count0, s) && s.i < |visible|
    requires visible[s.i] != Space
    requires NonSpaceCount(visible[s.i..]) == 1 + NonSpaceCount(visible[s.i + 1..])
    requires TextRow(f, pen0, visible[..s.i + 1], stale) == Row(TextRow(f, pen0, visible[..s.i], stale).quads + [q], pen)
    ensures 0 <= s.av < |s.quads|
    ensures RowInvariant(f, pen0, visible, stale, before, av0, count0,
                         RowState(s.i + 1, s.quads[s.av := q], s.av + 1, (s.count + 6) % U32, pen))
  {
    var row := TextRow(f, pen0, visible[..s.i], stale);
    AppendedStep(s.quads, before, av0, row.quads, q);
    CounterStep(s.count, count0, |row.quads|);
  }

  lemma RowDone(f: Font, pen0: Vec2, visible: seq<byte>, stale: nat -> GlyphQuad,
                before: seq<Quad>, av0: int, count0: int, s: RowState)
    requires RowInvariant(f, pen0, visible, stale, before, av0, count0, s) && s.i == |visible|
    ensures var r := TextRow(f, pen0, visible, stale);
      |r.quads| == NonSpaceCount(visible) && s.av == av0 + |r.quads| &&
      s.count == IndexCountAfter(count0, |r.quads|) && s.quads[av0..s.av] == r.quads && s.pen == r.pen &&
      forall j | 0 <= j < |s.quads| && !(av0 <= j < s.av) :: s.quads[j] == before[j]
  {
    assert visible[..s.i] == visible;
    TextRowCount(f, pen0, visible, stale);
    AppendedSlice(s.quads, before, av0, TextRow(f, pen0, visible, stale).quads);
  }

  lemma AppendedStep(cur: seq<Quad>, before: seq<Quad>, av: int, quads: seq<Quad>, q: Quad)
    requires Appended(cur, before, av, quads) && av + |quads| < |cur|
    ensures Appended(cur[av + |quads| := q], before, av, quads + [q])
  {
  }

  lemma AppendedSlice(cur: seq<Quad>, before: seq<Quad>, av: int, quads: seq<Quad>)
    requires Appended(cur, before, av, quads)
    ensures cur[av..av + |quads|] == quads
    ensures forall j | 0 <= j < |cur| && !(av <= j < av + |quads|) :: cur[j] == before[j]
  {
    assert forall j | 0 <= j < |quads| :: cur[av..av + |quads|][j] == quads[j];
  }

  /** One step of the loop: the row for the first i + 1 visible bytes. */
  lemma {:induction false} TextStep(f: Font, pen0: Vec2, visible: seq<byte>, i: nat, stale: nat -> GlyphQuad)
    requires i < |visible|
    ensures var prev := TextRow(f, pen0, visible[..i], stale);
      var g := GlyphAt(f, visible[i], prev.pen, 1.0, stale(i));
      TextRow(f, pen0, visible[..i + 1], stale) ==
        Row(if visible[i] == Space then prev.quads else prev.quads + [GlyphCorners(g.quad)], g.pen)
    ensures NonSpaceCount(visible[..i + 1]) == NonSpaceCount(visible[..i]) + (if visible[i] == Space then 0 else 1)
    ensures NonSpaceCount(visible[i..]) == (if visible[i] == Space then 0 else 1) + NonSpaceCount(visible[i + 1..])
  {
    assert visible[..i + 1][..i] == visible[..i];
    assert visible[..i + 1] == visible[..i] + [visible[i]];
    NonSpaceCountAppend(visible[..i], [visible[i]]);
    assert visible[i..][1..] == visible[i + 1..];
  }

  /** A u32 index counter started at start, after n quads. */
  function IndexCountAfter(start: int, n: nat): int {
    (start + 6 * n) % U32
  }

  /** Six more indices on a u32 counter that already wrapped wraps the same way. */
  lemma CounterStep(count: int, start: int, n: nat)
    requires count == IndexCountAfter(start, n)
    ensures (count + 6) % U32 == IndexCountAfter(start, n + 1)
  {
    var a := start + 6 * n;
    var q := a / U32;
    assert a == q * U32 + count;
    ModShift(count + 6, q);
  }

  lemma ModShift(x: int, q: int)
    ensures (x + q * U32) % U32 == x % U32
  {
    var r := x % U32;
    var d := x / U32;
    assert x + q * U32 == (d + q) * U32 + r;
  }
}
