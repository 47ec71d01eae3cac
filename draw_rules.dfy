/**
 * The calculations of the 2D drawing layer (gl3_draw.c) once the OpenGL
 * calls are taken out: palette words, the glyph-grid cell of a character,
 * the asset path of a picture name, the vertex buffers of a quad, the fill
 * colour and the conversion of a palette-indexed video frame.
 *
 * Coordinates, sizes and texture coordinates are exact reals; the float
 * rounding of the source is not modelled.
 */
module GL3DrawRules {
  import opened GL3Local

  // ---------------------------------------------------------------------
  // Palette words
  // ---------------------------------------------------------------------

  /** The little-endian RGBA word: red in the lowest byte, alpha in the highest. */
  function Word(r: bv8, g: bv8, b: bv8, a: bv8): bv32 {
    (a as bv32 << 24) | (b as bv32 << 16) | (g as bv32 << 8) | (r as bv32)
  }

  /** Byte `k` of a word as a little-endian `byte v[4]` view of it gives it. */
  function Channel(w: bv32, k: nat): bv8
    requires k < 4
  {
    if k == 0 then (w & 0xff) as bv8
    else if k == 1 then ((w >> 8) & 0xff) as bv8
    else if k == 2 then ((w >> 16) & 0xff) as bv8
    else (w >> 24) as bv8
  }

  /** Unpacking a word gives back the four channels it was packed from. */
  lemma WordChannels(r: bv8, g: bv8, b: bv8, a: bv8)
    ensures Channel(Word(r, g, b, a), 0) == r
    ensures Channel(Word(r, g, b, a), 1) == g
    ensures Channel(Word(r, g, b, a), 2) == b
    ensures Channel(Word(r, g, b, a), 3) == a
  {
  }

  /**
   * The palette loop adds alpha 255 shifted into the top byte to r, g and b
   * shifted into bytes 0, 1 and 2; the summands occupy disjoint bytes, so
   * the sum is the word with alpha 255.
   */
  lemma FullAlphaSumIsWord(r: bv8, g: bv8, b: bv8)
    ensures (255 as bv32 << 24) + (r as bv32 << 0) + (g as bv32 << 8) + (b as bv32 << 16)
            == Word(r, g, b, 255)
  {
  }

  /** Masking with 0xffffff clears the alpha byte and keeps red, green and blue. */
  lemma MaskClearsAlpha(r: bv8, g: bv8, b: bv8)
    ensures Word(r, g, b, 255) & 0xffffff == Word(r, g, b, 0)
  {
  }

  /**
   * Entry `i` of d_8to24table after GL3_Draw_GetPalette: the `i`th RGB
   * triplet of the colormap palette, alpha 255 except for the transparent
   * index 255.
   */
  function PaletteEntry(pal: seq<bv8>, i: nat): bv32
    requires |pal| >= 768 && i < 256
  {
    Word(pal[3 * i], pal[3 * i + 1], pal[3 * i + 2], if i == 255 then 0 else 255)
  }

  /** The channels of every palette entry: the palette's RGB, alpha 255, and alpha 0 at 255. */
  lemma PaletteEntryChannels(pal: seq<bv8>, i: nat)
    requires |pal| >= 768 && i < 256
    ensures Channel(PaletteEntry(pal, i), 0) == pal[3 * i]
    ensures Channel(PaletteEntry(pal, i), 1) == pal[3 * i + 1]
    ensures Channel(PaletteEntry(pal, i), 2) == pal[3 * i + 2]
    ensures Channel(PaletteEntry(pal, i), 3) == if i == 255 then 0 else 255
  {
    WordChannels(pal[3 * i], pal[3 * i + 1], pal[3 * i + 2], if i == 255 then 0 else 255);
  }

  // ---------------------------------------------------------------------
  // Quads
  // ---------------------------------------------------------------------

  /** The arguments of drawTexturedRectangle: a screen rectangle and a texture rectangle. */
  datatype Quad = Quad(x: real, y: real, w: real, h: real,
                       sl: real, tl: real, sh: real, th: real)

  /**
   * The 16 values drawTexturedRectangle uploads: four (X, Y, S, T)
   * vertices, in triangle-strip order (x,y+h), (x,y), (x+w,y+h), (x+w,y).
   */
  function QuadVertices(q: Quad): (buf: seq<real>)
    ensures |buf| == 16
  {
    [q.x,       q.y + q.h, q.sl, q.th,
     q.x,       q.y,       q.sl, q.tl,
     q.x + q.w, q.y + q.h, q.sh, q.th,
     q.x + q.w, q.y,       q.sh, q.tl]
  }

  /** The 8 values of a position-only quad over the same corners (Fill, FadeScreen). */
  function PositionQuad(x: real, y: real, w: real, h: real): (buf: seq<real>)
    ensures |buf| == 8
  {
    [x,     y + h,
     x,     y,
     x + w, y + h,
     x + w, y]
  }

  /** Twice the signed area of the triangle (p, q, r). */
  function Cross(px: real, py: real, qx: real, qy: real, rx: real, ry: real): real {
    (qx - px) * (ry - py) - (qy - py) * (rx - px)
  }

  /**
   * Twice the signed area of triangle `i` (0 or 1) of a 4-vertex strip in
   * the buffer `buf` of vertices `stride` values apart. OpenGL takes the
   * second triangle of a strip as (v2, v1, v3) so that both triangles keep
   * the same winding.
   */
  function StripTriangleArea(buf: seq<real>, stride: nat, i: nat): real
    requires stride >= 2 && |buf| == 4 * stride && i < 2
  {
    var a := if i == 0 then 0 else 2;
    var b := 1;
    var c := if i == 0 then 2 else 3;
    Cross(buf[a * stride], buf[a * stride + 1],
          buf[b * stride], buf[b * stride + 1],
          buf[c * stride], buf[c * stride + 1])
  }

  /**
   * The strip covers the rectangle with two triangles of the same winding,
   * each of area w*h/2: no triangle is flipped.
   */
  lemma QuadStripWinding(q: Quad)
    ensures StripTriangleArea(QuadVertices(q), 4, 0) == q.w * q.h
    ensures StripTriangleArea(QuadVertices(q), 4, 1) == q.w * q.h
  {
  }

  lemma DivSelf(d: real)
    requires d != 0.0
    ensures d / d == 1.0 && 0.0 / d == 0.0
  {
  }

  /**
   * Texture coordinates follow position without mirroring: at each vertex
   * S runs from sl at x to sh at x+w and T runs from tl at y to th at y+h.
   */
  lemma QuadTexcoordsFollowPosition(q: Quad, k: nat)
    requires k < 4 && q.w != 0.0 && q.h != 0.0
    ensures QuadVertices(q)[4 * k + 2] == q.sl + (QuadVertices(q)[4 * k] - q.x) / q.w * (q.sh - q.sl)
    ensures QuadVertices(q)[4 * k + 3] == q.tl + (QuadVertices(q)[4 * k + 1] - q.y) / q.h * (q.th - q.tl)
  {
    var v := QuadVertices(q);
    DivSelf(q.w);
    DivSelf(q.h);
    if v[4 * k] == q.x + q.w {
      assert v[4 * k] - q.x == q.w;
    } else {
      assert v[4 * k] - q.x == 0.0;
    }
    if v[4 * k + 1] == q.y + q.h {
      assert v[4 * k + 1] - q.y == q.h;
    } else {
      assert v[4 * k + 1] - q.y == 0.0;
    }
  }

  /** Both vertex layouts put the same four corners in the same order. */
  lemma PositionQuadMatchesQuad(q: Quad, k: nat)
    requires k < 4
    ensures PositionQuad(q.x, q.y, q.w, q.h)[2 * k] == QuadVertices(q)[4 * k]
    ensures PositionQuad(q.x, q.y, q.w, q.h)[2 * k + 1] == QuadVertices(q)[4 * k + 1]
  {
  }

  // ---------------------------------------------------------------------
  // Characters
  // ---------------------------------------------------------------------

  /** A cell of the 16x16 glyph grid of the console font. */
  datatype Cell = Cell(row: nat, col: nat)

  /**
   * The glyph cell GL3_Draw_CharScaled draws for code `num` at height `y`,
   * or None when it draws nothing: a space (low seven bits 32, so 160 too)
   * or a glyph wholly above the screen.
   */
  function CharCell(num: int, y: int): (cell: Option<Cell>)
    ensures cell.None? <==> num % 128 == 32 || y <= -8
    ensures cell.Some? ==> cell.value.row < 16 && cell.value.col < 16
    ensures cell.Some? ==> 16 * cell.value.row + cell.value.col == num % 256
  {
    var n := num % 256;             // the low byte of the code
    assert n % 128 == num % 128 by { ModOfMod(num); }
    if n % 128 == 32 then None      // a space, with or without the high bit
    else if y <= -8 then None       // wholly above the screen
    else Some(Cell(n / 16, n % 16)) // high nibble is the row, low nibble the column
  }

  lemma ModOfMod(num: int)
    ensures (num % 256) % 128 == num % 128
  {
    var q := num / 256;
    assert num == 256 * q + num % 256;
    assert num % 256 == 128 * ((num % 256) / 128) + (num % 256) % 128;
    assert num == 128 * (2 * q + (num % 256) / 128) + (num % 256) % 128;
  }

  /** The drawTexturedRectangle arguments of GL3_Draw_CharScaled. */
  function CharQuad(x: int, y: int, num: int, scale: real): Option<Quad> {
    match CharCell(num, y)
    case None => None
    case Some(c) =>
      var frow := c.row as real * 0.0625;
      var fcol := c.col as real * 0.0625;
      var size := 0.0625;
      var scaledSize := 8.0 * scale;
      Some(Quad(x as real, y as real, scaledSize, scaledSize, fcol, frow, fcol + size, frow + size))
  }

  /**
   * A drawn character is a square of side 8*scale at (x, y) textured with
   * exactly its cell [col/16, (col+1)/16] x [row/16, (row+1)/16].
   */
  lemma CharQuadIsCell(x: int, y: int, num: int, scale: real)
    requires CharCell(num, y).Some?
    ensures CharQuad(x, y, num, scale).Some?
    ensures var q := CharQuad(x, y, num, scale).value;
            var c := CharCell(num, y).value;
            && q.x == x as real && q.y == y as real
            && q.w == 8.0 * scale && q.h == 8.0 * scale
            && q.sl == c.col as real / 16.0 && q.sh == (c.col + 1) as real / 16.0
            && q.tl == c.row as real / 16.0 && q.th == (c.row + 1) as real / 16.0
  {
  }

  /** Texture rectangles of different codes do not overlap: every code has a cell of its own. */
  lemma {:induction false} CharCellsDisjoint(num1: int, num2: int, x: int, y: int, scale: real)
    requires CharCell(num1, y).Some? && CharCell(num2, y).Some?
    requires num1 % 256 != num2 % 256
    ensures var q1 := CharQuad(x, y, num1, scale).value;
            var q2 := CharQuad(x, y, num2, scale).value;
            q1.sh <= q2.sl || q2.sh <= q1.sl || q1.th <= q2.tl || q2.th <= q1.tl
  {
    var c1 := CharCell(num1, y).value;
    var c2 := CharCell(num2, y).value;
    CharQuadIsCell(x, y, num1, scale);
    CharQuadIsCell(x, y, num2, scale);
    assert c1 != c2;
    if c1.col != c2.col {
      assert c1.col + 1 <= c2.col || c2.col + 1 <= c1.col;
    } else {
      assert c1.row + 1 <= c2.row || c2.row + 1 <= c1.row;
    }
  }

  // ---------------------------------------------------------------------
  // Pictures
  // ---------------------------------------------------------------------

  predicate IsSeparator(c: char) {
    c == '/' || c == '\\'
  }

  /** The name is an asset path of its own: it starts with '/' or '\'. */
  predicate IsLiteralName(name: string) {
    |name| > 0 && IsSeparator(name[0])
  }

  /**
   * The path GL3_Draw_FindPic asks the texture cache for. An empty name is
   * not literal: its first char is the terminating NUL.
   */
  function PicPath(name: string): (path: string)
    ensures IsLiteralName(name) ==> path == name[1..]
    ensures !IsLiteralName(name) ==>
              && |path| == |name| + 9
              && path[..5] == "pics/"
              && path[5..|path| - 4] == name
              && path[|path| - 4..] == ".pcx"
  {
    if !IsLiteralName(name) then "pics/" + name + ".pcx" else name[1..]
  }

  /** Every asset path can be reached by a literal name. */
  lemma LiteralNameRoundTrip(path: string)
    ensures PicPath("/" + path) == path
    ensures PicPath("\\" + path) == path
  {
    assert ("/" + path)[1..] == path;
    assert ("\\" + path)[1..] == path;
  }

  /**
   * MAX_QPATH, the size of the path buffer of GL3_Draw_FindPic, with room
   * for the terminating NUL (its value is set in the shared Quake II header).
   */
  const MaxQPath := 64

  /** The expanded path of a plain name fits the path buffer, so it is not truncated. */
  predicate FitsQPath(name: string) {
    |name| + 9 < MaxQPath
  }

  /** Distinct plain names short enough not to be truncated resolve to distinct paths. */
  lemma PlainNamesInjective(a: string, b: string)
    requires !IsLiteralName(a) && !IsLiteralName(b)
    requires FitsQPath(a) && FitsQPath(b)
    requires PicPath(a) == PicPath(b)
    ensures a == b
  {
    var p := PicPath(a);
    assert a == p[5..|p| - 4];
  }

  /** GL3_Draw_FindPic over the texture cache, seen as a map from path to image. */
  function FindPic(images: map<string, Image>, name: string): (found: Option<Image>)
    ensures found.Some? <==> PicPath(name) in images
    ensures found.Some? ==> found.value == images[PicPath(name)]
  {
    var path := PicPath(name);
    if path in images then Some(images[path]) else None
  }

  /** GL3_Draw_GetPicSize: (-1, -1) when the picture is missing, else its width and height. */
  function GetPicSize(images: map<string, Image>, name: string): (size: (int, int))
    ensures PicPath(name) !in images ==> size == (-1, -1)
    ensures PicPath(name) in images ==>
              size == (images[PicPath(name)].width, images[PicPath(name)].height)
  {
    match FindPic(images, name)
    case None => (-1, -1)
    case Some(gl) => (gl.width, gl.height)
  }

  /**
   * A plain name short enough not to be truncated and the literal form of
   * its path name the same picture.
   */
  lemma PlainAndLiteralAgree(images: map<string, Image>, name: string)
    requires !IsLiteralName(name) && FitsQPath(name)
    ensures FindPic(images, "/" + PicPath(name)) == FindPic(images, name)
    ensures GetPicSize(images, "/" + PicPath(name)) == GetPicSize(images, name)
  {
    LiteralNameRoundTrip(PicPath(name));
  }

  /** The drawTexturedRectangle arguments of GL3_Draw_StretchPic. */
  function StretchPicQuad(gl: Image, x: int, y: int, w: int, h: int): Quad {
    Quad(x as real, y as real, w as real, h as real, gl.sl, gl.tl, gl.sh, gl.th)
  }

  /** The drawTexturedRectangle arguments of GL3_Draw_PicScaled. */
  function PicScaledQuad(gl: Image, x: int, y: int, factor: real): Quad {
    Quad(x as real, y as real, gl.width as real * factor, gl.height as real * factor,
         gl.sl, gl.tl, gl.sh, gl.th)
  }

  /** PicScaled draws the picture at the size GetPicSize reports, times the factor. */
  lemma PicScaledUsesPicSize(images: map<string, Image>, name: string, x: int, y: int, factor: real)
    requires FindPic(images, name).Some?
    ensures var q := PicScaledQuad(FindPic(images, name).value, x, y, factor);
            && q.w == GetPicSize(images, name).0 as real * factor
            && q.h == GetPicSize(images, name).1 as real * factor
  {
  }

  /** StretchPic at the picture's own size draws the same quad as PicScaled at factor 1. */
  lemma StretchAtNativeSizeIsScaledByOne(gl: Image, x: int, y: int)
    ensures StretchPicQuad(gl, x, y, gl.width, gl.height) == PicScaledQuad(gl, x, y, 1.0)
  {
  }

  /** The drawTexturedRectangle arguments of GL3_Draw_TileClear: a 64-pixel tile period. */
  function TileClearQuad(x: int, y: int, w: int, h: int): Quad {
    Quad(x as real, y as real, w as real, h as real,
         x as real / 64.0, y as real / 64.0, (x + w) as real / 64.0, (y + h) as real / 64.0)
  }

  /**
   * The tile is anchored at the screen origin: every vertex's texture
   * coordinate is its screen position divided by 64, so neighbouring
   * cleared rectangles continue the same pattern.
   */
  lemma TileClearAnchored(x: int, y: int, w: int, h: int, k: nat)
    requires k < 4
    ensures var v := QuadVertices(TileClearQuad(x, y, w, h));
            v[4 * k + 2] == v[4 * k] / 64.0 && v[4 * k + 3] == v[4 * k + 1] / 64.0
  {
  }

  /** TileClear(64, 64, 128, 64) samples the texture rectangle (1, 1) - (3, 2). */
  lemma TileClearExample()
    ensures var q := TileClearQuad(64, 64, 128, 64);
            q.sl == 1.0 && q.tl == 1.0 && q.sh == 3.0 && q.th == 2.0
  {
  }

  /** The drawTexturedRectangle arguments of GL3_Draw_StretchRaw: the whole texture. */
  function RawQuad(x: int, y: int, w: int, h: int): Quad {
    Quad(x as real, y as real, w as real, h as real, 0.0, 0.0, 1.0, 1.0)
  }

  // ---------------------------------------------------------------------
  // Flat colour
  // ---------------------------------------------------------------------

  /** C's conversion of an int to a 32-bit unsigned. */
  function ToUnsigned(c: i32): nat {
    if c < 0 then c as int + 0x1_0000_0000 else c as int
  }

  /** The test `(unsigned)c > 255` of GL3_Draw_Fill: any index outside 0..255, negatives included. */
  function FillIndexBad(c: i32): (bad: bool)
    ensures bad <==> c < 0 || c > 255
  {
    ToUnsigned(c) > 255
  }

  function ChannelValue(v: bv8): real {
    (v as int) as real / 255.0
  }

  /** The colour GL3_Draw_Fill passes for palette word `entry`: its RGB bytes scaled to [0, 1], alpha 1. */
  function FillColor(entry: bv32): (color: RGBA)
    ensures 0.0 <= color.r <= 1.0 && 0.0 <= color.g <= 1.0 && 0.0 <= color.b <= 1.0
    ensures color.a == 1.0
    ensures color.r * 255.0 == (Channel(entry, 0) as int) as real
    ensures color.g * 255.0 == (Channel(entry, 1) as int) as real
    ensures color.b * 255.0 == (Channel(entry, 2) as int) as real
  {
    RGBA(ChannelValue(Channel(entry, 0)), ChannelValue(Channel(entry, 1)),
         ChannelValue(Channel(entry, 2)), 1.0)
  }

  /**
   * Fill with index c shows the palette's own RGB for c at full alpha, even for
   * the transparent index 255.
   */
  lemma FillColorOfPalette(pal: seq<bv8>, c: nat)
    requires |pal| >= 768 && c < 256
    ensures FillColor(PaletteEntry(pal, c))
            == RGBA(ChannelValue(pal[3 * c]), ChannelValue(pal[3 * c + 1]),
                    ChannelValue(pal[3 * c + 2]), 1.0)
  {
    PaletteEntryChannels(pal, c);
  }

  /** The colour of GL3_Draw_FadeScreen: black at alpha 0.6. */
  const FadeColor := RGBA(0.0, 0.0, 0.0, 0.6)

  // ---------------------------------------------------------------------
  // Raw video
  // ---------------------------------------------------------------------

  /** Pixels of the on-stack buffer of GL3_Draw_StretchRaw. */
  const RawBudget := 320 * 240

  /**
   * The products `cols*rows` and `cols*rows*4` of GL3_Draw_StretchRaw are C
   * ints: outside this range they overflow, which C leaves undefined.
   */
  predicate SizesInIntRange(cols: int, rows: int) {
    -0x8000_0000 <= cols * rows * 4 < 0x8000_0000
  }

  /** The source takes a heap buffer exactly when the frame does not fit the stack buffer. */
  predicate UsesHeap(cols: int, rows: int) {
    cols * rows > RawBudget
  }

  /** Pixels the nested loops write: cols*rows when both are positive, else none. */
  function FrameSize(cols: int, rows: int): nat {
    if cols > 0 && rows > 0 then cols * rows else 0
  }

  /** The length of the buffer GL3_Draw_StretchRaw writes into. */
  function BufferLength(cols: int, rows: int): nat {
    if UsesHeap(cols, rows) then cols * rows else RawBudget
  }

  /**
   * Every pixel the loops write lies inside the chosen buffer. This is exact
   * arithmetic; StretchRaw requires SizesInIntRange, the range where the
   * source's int products agree with it.
   */
  lemma FrameFitsBuffer(cols: int, rows: int)
    ensures FrameSize(cols, rows) <= BufferLength(cols, rows)
  {
  }

  /** The budget edge: a 320x240 frame stays on the stack, one pixel more goes to the heap. */
  lemma BudgetEdge()
    ensures !UsesHeap(320, 240)
    ensures UsesHeap(320 * 240 + 1, 1)
  {
  }

  /** The RGBA frame: pixel k is the raw palette's entry for byte k. */
  function RawToRGBA(data: seq<bv8>, n: nat, palette: seq<bv32>): (img: seq<bv32>)
    requires n <= |data| && |palette| == 256
    ensures |img| == n
    ensures forall k :: 0 <= k < n ==> img[k] == palette[data[k]]
  {
    seq(n, k requires 0 <= k < n => palette[data[k]])
  }

  /** Row i, column j of a row-major frame sits at i*cols + j, inside the frame. */
  lemma RowMajorIndex(cols: int, rows: int, i: int, j: int)
    requires 0 <= i < rows && 0 <= j < cols
    ensures 0 <= i * cols + j < FrameSize(cols, rows)
    ensures i * cols + j + 1 <= (i + 1) * cols
  {
    assert (rows - (i + 1)) * cols >= 0;
    assert rows * cols == (i + 1) * cols + (rows - (i + 1)) * cols;
  }

  /** Every converted pixel, addressed by row and column, is the palette entry of its byte. */
  lemma RawPixelAt(data: seq<bv8>, palette: seq<bv32>, cols: int, rows: int, i: int, j: int)
    requires |palette| == 256 && FrameSize(cols, rows) <= |data|
    requires 0 <= i < rows && 0 <= j < cols
    ensures i * cols + j < FrameSize(cols, rows)
    ensures RawToRGBA(data, FrameSize(cols, rows), palette)[i * cols + j] == palette[data[i * cols + j]]
  {
    RowMajorIndex(cols, rows, i, j);
  }
}
