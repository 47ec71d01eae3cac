/**
 * The 2D drawing routines of gl3_draw.c as methods over the renderer's
 * state. Each routine's postcondition gives the exact calls it appends to
 * the trace of the shared GL3State, in terms of the calculations of
 * GL3DrawRules and the bind state cached before the call.
 */
module GL3Draw {
  import opened GL3Local
  import opened GL3DrawRules

  /**
   * A buffer taken before `b` and released after it is counted once each
   * way, whatever the calls around it, as long as they do not use the heap;
   * without the buffer no call uses the heap at all.
   */
  lemma HeapBracketCounts(a: seq<Event>, b: seq<Event>, c: seq<Event>, bytes: int, heap: bool)
    requires NoHeapCalls(a) && NoHeapCalls(b) && NoHeapCalls(c)
    ensures var t := a + (if heap then [Malloc(bytes)] else []) + b + (if heap then [Free] else []) + c;
            && multiset(t)[Malloc(bytes)] == (if heap then 1 else 0)
            && multiset(t)[Free] == (if heap then 1 else 0)
            && (!heap ==> NoHeapCalls(t))
  {
    NoHeapCallsCount(a, bytes);
    NoHeapCallsCount(b, bytes);
    NoHeapCallsCount(c, bytes);
    if !heap {
      assert a + [] + b + [] + c == a + b + c;
      NoHeapCallsAppend(a, b);
      NoHeapCallsAppend(a + b, c);
    }
  }

  /**
   * The file-level state of gl3_draw.c (d_8to24table, draw_chars and the
   * 2D buffer and vertex-array handles made by GL3_Draw_InitLocal) with the
   * globals it reads: gl3state, gl3_rawpalette, the texture cache and the
   * size of the video mode.
   */
  class Draw2D {
    const gl: GL3State
    const table8to24: array<bv32>
    const rawPalette: array<bv32>
    const drawChars: Image
    const vbo2D: nat
    const vao2D: nat
    const vao2Dcolor: nat
    const images: map<string, Image>
    const vidWidth: int
    const vidHeight: int

    ghost predicate Valid()
      reads this, gl
    {
      && gl.Valid()
      && table8to24.Length == 256 && rawPalette.Length == 256
      && table8to24 != rawPalette  // two distinct globals
    }

    /** The state once GL3_Draw_InitLocal has made its handles; the palette table is still zero. */
    constructor (gl: GL3State, rawPalette: array<bv32>, drawChars: Image,
                 vbo2D: nat, vao2D: nat, vao2Dcolor: nat,
                 images: map<string, Image>, vidWidth: int, vidHeight: int)
      requires gl.Valid() && rawPalette.Length == 256
      ensures Valid() && fresh(table8to24)
      ensures forall i :: 0 <= i < 256 ==> table8to24[i] == 0
      ensures this.gl == gl && this.rawPalette == rawPalette && this.drawChars == drawChars
      ensures this.vbo2D == vbo2D && this.vao2D == vao2D && this.vao2Dcolor == vao2Dcolor
      ensures this.images == images && this.vidWidth == vidWidth && this.vidHeight == vidHeight
    {
      this.gl := gl;
      this.table8to24 := new bv32[256](_ => 0);
      this.rawPalette := rawPalette;
      this.drawChars := drawChars;
      this.vbo2D := vbo2D;
      this.vao2D := vao2D;
      this.vao2Dcolor := vao2Dcolor;
      this.images := images;
      this.vidWidth := vidWidth;
      this.vidHeight := vidHeight;
    }

    // -------------------------------------------------------------------
    // The calls each routine issues, given the cached program and vertex
    // array before it runs.
    // -------------------------------------------------------------------

    /** drawTexturedRectangle: bind the textured layout, upload 16 values, draw one strip of 4. */
    function TexturedRectCalls(currentVAO: nat, q: Quad): seq<Event> {
      BindCalls(VertexArray, currentVAO, vao2D)
      + [BindBuffer(vbo2D), BufferData(QuadVertices(q)), DrawStrip(0, 4)]
    }

    /** A textured draw: the 2D program, the picture's texture, then the quad. */
    function PicCalls(currentProgram: nat, currentVAO: nat, texnum: nat, q: Quad): seq<Event> {
      BindCalls(Program, currentProgram, gl.si2D.shaderProgram)
      + [Bind(texnum)]
      + TexturedRectCalls(currentVAO, q)
    }

    /** A flat-colour draw: the colour program and layout, the colour, then 8 position values. */
    function ColorQuadCalls(currentProgram: nat, currentVAO: nat, color: RGBA, buf: seq<real>): seq<Event> {
      BindCalls(Program, currentProgram, gl.si2Dcolor.shaderProgram)
      + BindCalls(VertexArray, currentVAO, vao2Dcolor)
      + [Uniform4(gl.si2Dcolor.uniColor, color), BindBuffer(vbo2D), BufferData(buf), DrawStrip(0, 4)]
    }

    /** The upload half of GL3_Draw_StretchRaw: the 2D program, then a new texture holding the frame. */
    function RawUploadCalls(currentProgram: nat, tex: nat, cols: int, rows: int, pixels: seq<bv32>): (calls: seq<Event>)
      ensures NoHeapCalls(calls)
      ensures |calls| >= 3 && calls[|calls| - 1] == TexImage(cols, rows, pixels)
    {
      BindCalls(Program, currentProgram, gl.si2D.shaderProgram)
      + [GenTexture(tex), BindTexture(tex), TexImage(cols, rows, pixels)]
    }

    /** The drawing half: linear filtering, the quad over the whole texture, then the texture is deleted. */
    function RawDrawCalls(currentVAO: nat, tex: nat, x: int, y: int, w: int, h: int): (calls: seq<Event>)
      ensures NoHeapCalls(calls)
    {
      var rect := TexturedRectCalls(currentVAO, RawQuad(x, y, w, h));
      assert NoHeapCalls(rect) by {
        var vaoCalls := BindCalls(VertexArray, currentVAO, vao2D);
        assert vaoCalls == [] || vaoCalls == [BindVertexArray(vao2D)];
      }
      [SetTexParameter(MinFilterLinear), SetTexParameter(MagFilterLinear)]
      + rect
      + [DeleteTexture(tex), Bind(0)]
    }

    /**
     * GL3_Draw_StretchRaw: an ephemeral texture of the converted frame,
     * drawn and deleted, with a heap buffer around the upload when the frame
     * is too big for the stack one.
     */
    function StretchRawCalls(currentProgram: nat, currentVAO: nat, tex: nat,
                             x: int, y: int, w: int, h: int, cols: int, rows: int,
                             pixels: seq<bv32>): seq<Event> {
      [Bind(0)]
      + (if UsesHeap(cols, rows) then [Malloc(cols * rows * 4)] else [])
      + RawUploadCalls(currentProgram, tex, cols, rows, pixels)
      + (if UsesHeap(cols, rows) then [Free] else [])
      + RawDrawCalls(currentVAO, tex, x, y, w, h)
    }

    /**
     * The heap buffer of StretchRaw is taken and freed exactly when the
     * frame exceeds the stack budget, each at most once, and the free
     * comes after the upload that reads the buffer.
     */
    lemma StretchRawFreesHeapBuffer(currentProgram: nat, currentVAO: nat, tex: nat,
                                    x: int, y: int, w: int, h: int, cols: int, rows: int,
                                    pixels: seq<bv32>)
      ensures var calls := StretchRawCalls(currentProgram, currentVAO, tex, x, y, w, h, cols, rows, pixels);
              && multiset(calls)[Malloc(cols * rows * 4)] == (if UsesHeap(cols, rows) then 1 else 0)
              && multiset(calls)[Free] == (if UsesHeap(cols, rows) then 1 else 0)
              && (UsesHeap(cols, rows) ==>
                    exists u, f :: 0 <= u < f < |calls| && calls[u] == TexImage(cols, rows, pixels) && calls[f] == Free)
              && (!UsesHeap(cols, rows) ==> NoHeapCalls(calls))
    {
      var heap := UsesHeap(cols, rows);
      var upload := RawUploadCalls(currentProgram, tex, cols, rows, pixels);
      var calls := StretchRawCalls(currentProgram, currentVAO, tex, x, y, w, h, cols, rows, pixels);
      var k := if heap then 1 else 0;
      assert && multiset(calls)[Malloc(cols * rows * 4)] == k && multiset(calls)[Free] == k
             && (!heap ==> NoHeapCalls(calls)) by {
        HeapBracketCounts([Bind(0)], upload, RawDrawCalls(currentVAO, tex, x, y, w, h), cols * rows * 4, heap);
      }
      if heap {
        var u := 1 + |upload|;
        assert calls[u] == TexImage(cols, rows, pixels) && calls[u + 1] == Free by {
          assert calls[u] == upload[|upload| - 1];
        }
      }
    }

    // -------------------------------------------------------------------
    // The routines
    // -------------------------------------------------------------------

    /** drawTexturedRectangle; the caller has bound the texture. */
    method DrawTexturedRectangle(q: Quad)
      requires Valid()
      modifies gl
      ensures Valid()
      ensures gl.trace == old(gl.trace) + TexturedRectCalls(old(gl.currentVAO), q)
      ensures gl.currentVAO == vao2D && gl.currentShaderProgram == old(gl.currentShaderProgram)
    {
      var vBuf := QuadVertices(q);
      gl.BindVAO(vao2D);
      // the vertex array does not bind its buffer for the upload, so the buffer is bound here
      gl.Issue(BindBuffer(vbo2D));
      gl.Issue(BufferData(vBuf));
      gl.Issue(DrawStrip(0, 4));
    }

    /** GL3_Draw_CharScaled */
    method CharScaled(x: int, y: int, num: int, scale: real)
      requires Valid()
      modifies gl
      ensures Valid()
      ensures gl.trace == old(gl.trace) +
                match CharQuad(x, y, num, scale)
                case None => []
                case Some(q) => PicCalls(old(gl.currentShaderProgram), old(gl.currentVAO), drawChars.texnum, q)
    {
      var n := num % 256;
      if n % 128 == 32 {
        assert CharCell(num, y).None?;
        return; // a space draws nothing
      }
      if y <= -8 {
        assert CharCell(num, y).None?;
        return; // wholly above the screen
      }
      var row := n / 16;
      var col := n % 16;
      assert CharCell(num, y) == Some(Cell(row, col));
      var frow := row as real * 0.0625;
      var fcol := col as real * 0.0625;
      var size := 0.0625;
      var scaledSize := 8.0 * scale;
      var q := Quad(x as real, y as real, scaledSize, scaledSize, fcol, frow, fcol + size, frow + size);
      assert CharQuad(x, y, num, scale) == Some(q);
      ghost var t0, program0, vao0 := gl.trace, gl.currentShaderProgram, gl.currentVAO;
      gl.UseProgram(gl.si2D.shaderProgram);
      gl.Issue(Bind(drawChars.texnum));
      DrawTexturedRectangle(q);
      assert gl.trace == t0 + BindCalls(Program, program0, gl.si2D.shaderProgram) + [Bind(drawChars.texnum)]
                        + TexturedRectCalls(vao0, q);
    }

    /** GL3_Draw_StretchPic; a missing picture draws nothing. */
    method StretchPic(x: int, y: int, w: int, h: int, pic: string)
      requires Valid()
      modifies gl
      ensures Valid()
      ensures gl.trace == old(gl.trace) +
                match FindPic(images, pic)
                case None => []
                case Some(im) =>
                  PicCalls(old(gl.currentShaderProgram), old(gl.currentVAO), im.texnum, StretchPicQuad(im, x, y, w, h))
    {
      var found := FindPic(images, pic);
      if found.None? {
        return;
      }
      var im := found.value;
      gl.UseProgram(gl.si2D.shaderProgram);
      gl.Issue(Bind(im.texnum));
      DrawTexturedRectangle(Quad(x as real, y as real, w as real, h as real, im.sl, im.tl, im.sh, im.th));
    }

    /** GL3_Draw_PicScaled; a missing picture draws nothing. */
    method PicScaled(x: int, y: int, pic: string, factor: real)
      requires Valid()
      modifies gl
      ensures Valid()
      ensures gl.trace == old(gl.trace) +
                match FindPic(images, pic)
                case None => []
                case Some(im) =>
                  PicCalls(old(gl.currentShaderProgram), old(gl.currentVAO), im.texnum, PicScaledQuad(im, x, y, factor))
    {
      var found := FindPic(images, pic);
      if found.None? {
        return;
      }
      var im := found.value;
      gl.UseProgram(gl.si2D.shaderProgram);
      gl.Issue(Bind(im.texnum));
      var q := Quad(x as real, y as real, im.width as real * factor, im.height as real * factor,
                    im.sl, im.tl, im.sh, im.th);
      assert q == PicScaledQuad(im, x, y, factor);
      DrawTexturedRectangle(q);
    }

    /** GL3_Draw_TileClear; a missing picture draws nothing. */
    method TileClear(x: int, y: int, w: int, h: int, pic: string)
      requires Valid()
      modifies gl
      ensures Valid()
      ensures gl.trace == old(gl.trace) +
                match FindPic(images, pic)
                case None => []
                case Some(im) =>
                  PicCalls(old(gl.currentShaderProgram), old(gl.currentVAO), im.texnum, TileClearQuad(x, y, w, h))
    {
      var image := FindPic(images, pic);
      if image.None? {
        return;
      }
      gl.UseProgram(gl.si2D.shaderProgram);
      gl.Issue(Bind(image.value.texnum));
      DrawTexturedRectangle(Quad(x as real, y as real, w as real, h as real,
                                 x as real / 64.0, y as real / 64.0,
                                 (x + w) as real / 64.0, (y + h) as real / 64.0));
    }

    /**
     * GL3_Draw_Fill. An index outside 0..255 is the fatal "bad color"
     * error: `fatal` is set and nothing is drawn.
     */
    method Fill(x: int, y: int, w: int, h: int, c: i32) returns (fatal: bool)
      requires Valid()
      modifies gl
      ensures Valid()
      ensures fatal <==> c < 0 || c > 255
      ensures fatal ==> gl.trace == old(gl.trace)
      ensures !fatal ==>
                gl.trace == old(gl.trace) +
                  ColorQuadCalls(old(gl.currentShaderProgram), old(gl.currentVAO),
                                 FillColor(table8to24[c as int]),
                                 PositionQuad(x as real, y as real, w as real, h as real))
    {
      if ToUnsigned(c) > 255 {
        return true; // the fatal bad-colour error
      }
      var color := table8to24[c as int];
      var cf := new real[3];
      for i := 0 to 3
        invariant forall k :: 0 <= k < i ==> cf[k] == ChannelValue(Channel(color, k))
        modifies cf
      {
        cf[i] := ChannelValue(Channel(color, i));
      }
      var vBuf := [x as real,           (y + h) as real,
                   x as real,           y as real,
                   (x + w) as real,     (y + h) as real,
                   (x + w) as real,     y as real];
      var rgba := RGBA(cf[0], cf[1], cf[2], 1.0);
      assert rgba == FillColor(color);
      assert vBuf == PositionQuad(x as real, y as real, w as real, h as real);
      DrawColorQuad(rgba, vBuf);
      fatal := false;
    }

    /** The second half of GL3_Draw_Fill: the colour program and layout, the colour, the strip. */
    method DrawColorQuad(color: RGBA, vBuf: seq<real>)
      requires Valid()
      modifies gl
      ensures Valid()
      ensures gl.trace == old(gl.trace) + ColorQuadCalls(old(gl.currentShaderProgram), old(gl.currentVAO), color, vBuf)
    {
      ghost var t0, program0, vao0 := gl.trace, gl.currentShaderProgram, gl.currentVAO;
      ghost var useCalls := BindCalls(Program, program0, gl.si2Dcolor.shaderProgram);
      ghost var vaoCalls := BindCalls(VertexArray, vao0, vao2Dcolor);
      ghost var drawCalls := [Uniform4(gl.si2Dcolor.uniColor, color), BindBuffer(vbo2D), BufferData(vBuf), DrawStrip(0, 4)];
      gl.UseProgram(gl.si2Dcolor.shaderProgram);
      gl.BindVAO(vao2Dcolor);
      ghost var t2 := gl.trace;
      assert t2 == t0 + useCalls + vaoCalls;
      gl.Issue(Uniform4(gl.si2Dcolor.uniColor, color));
      gl.Issue(BindBuffer(vbo2D));
      gl.Issue(BufferData(vBuf));
      gl.Issue(DrawStrip(0, 4));
      assert gl.trace == t2 + drawCalls;
      AppendAssoc(t0, useCalls, vaoCalls);
      AppendAssoc(t0, useCalls + vaoCalls, drawCalls);
      assert old(gl.trace) == t0 && old(gl.currentShaderProgram) == program0 && old(gl.currentVAO) == vao0;
    }

    /** GL3_Draw_FadeScreen: the whole mode in black at alpha 0.6, blended. */
    method FadeScreen()
      requires Valid()
      modifies gl
      ensures Valid()
      ensures gl.trace == old(gl.trace) + [EnableBlend] +
                ColorQuadCalls(old(gl.currentShaderProgram), old(gl.currentVAO), FadeColor,
                               PositionQuad(0.0, 0.0, vidWidth as real, vidHeight as real)) +
                [DisableBlend]
    {
      var w := vidWidth as real;
      var h := vidHeight as real;
      var vBuf := [0.0, h,
                   0.0, 0.0,
                   w,   h,
                   w,   0.0];
      ghost var t0, program0, vao0 := gl.trace, gl.currentShaderProgram, gl.currentVAO;
      gl.Issue(EnableBlend);
      ghost var t1 := gl.trace;
      DrawColorQuad(RGBA(0.0, 0.0, 0.0, 0.6), vBuf);
      ghost var quadCalls := ColorQuadCalls(program0, vao0, FadeColor, vBuf);
      assert gl.trace == t1 + quadCalls;
      gl.Issue(DisableBlend);
      assert vBuf == PositionQuad(0.0, 0.0, vidWidth as real, vidHeight as real);
      assert old(gl.trace) == t0 && old(gl.currentShaderProgram) == program0 && old(gl.currentVAO) == vao0;
    }

    /**
     * GL3_Draw_StretchRaw. `data` holds the rows*cols palette indices of
     * the frame, row after row; `tex` is the name glGenTextures hands out.
     */
    method StretchRaw(x: int, y: int, w: int, h: int, cols: int, rows: int, data: seq<bv8>, tex: nat)
      requires Valid()
      requires FrameSize(cols, rows) <= |data|
      requires SizesInIntRange(cols, rows)
      modifies gl
      ensures Valid()
      ensures gl.trace == old(gl.trace) +
                StretchRawCalls(old(gl.currentShaderProgram), old(gl.currentVAO), tex, x, y, w, h, cols, rows,
                                RawToRGBA(data, FrameSize(cols, rows), rawPalette[..]))
    {
      ghost var t0, program0, vao0 := gl.trace, gl.currentShaderProgram, gl.currentVAO;
      ghost var heap := UsesHeap(cols, rows);
      gl.Issue(Bind(0));
      var image32 := new bv32[RawBudget];
      var img := image32;
      if cols * rows > RawBudget {
        // the frame is larger than the stack buffer: take one from the heap
        img := new bv32[cols * rows];
        gl.Issue(Malloc(cols * rows * 4));
      }
      assert img != image32 <==> heap;
      ghost var alloc := if heap then [Malloc(cols * rows * 4)] else [];
      ghost var t1 := gl.trace;
      assert t1 == t0 + ([Bind(0)] + alloc);
      FrameFitsBuffer(cols, rows);
      ConvertFrame(img, data, cols, rows);
      var pixels := img[..FrameSize(cols, rows)];
      UploadFrame(tex, cols, rows, pixels);
      ghost var upload := RawUploadCalls(program0, tex, cols, rows, pixels);
      ghost var t2 := gl.trace;
      if img != image32 {
        gl.Issue(Free);
      }
      ghost var free := if heap then [Free] else [];
      ghost var t3 := gl.trace;
      assert t3 == t2 + free;
      DrawFrame(tex, x, y, w, h);
      ghost var draw := RawDrawCalls(vao0, tex, x, y, w, h);
      assert gl.trace == t3 + draw;
      AppendAssoc(t0, [Bind(0)] + alloc, upload);
      AppendAssoc(t0, [Bind(0)] + alloc + upload, free);
      AppendAssoc(t0, [Bind(0)] + alloc + upload + free, draw);
      assert old(gl.trace) == t0 && old(gl.currentShaderProgram) == program0 && old(gl.currentVAO) == vao0;
    }

    /** The upload half of GL3_Draw_StretchRaw; `pixels` is the converted frame. */
    method UploadFrame(tex: nat, cols: int, rows: int, pixels: seq<bv32>)
      requires Valid()
      modifies gl
      ensures Valid()
      ensures gl.currentVAO == old(gl.currentVAO)
      ensures gl.trace == old(gl.trace) + RawUploadCalls(old(gl.currentShaderProgram), tex, cols, rows, pixels)
    {
      ghost var t0, program0 := gl.trace, gl.currentShaderProgram;
      gl.UseProgram(gl.si2D.shaderProgram);
      gl.Issue(GenTexture(tex));
      gl.Issue(BindTexture(tex));
      gl.Issue(TexImage(cols, rows, pixels));
      assert gl.trace == t0 + BindCalls(Program, program0, gl.si2D.shaderProgram)
                        + [GenTexture(tex), BindTexture(tex), TexImage(cols, rows, pixels)];
      assert old(gl.trace) == t0 && old(gl.currentShaderProgram) == program0;
    }

    /** The drawing half of GL3_Draw_StretchRaw, once the frame is uploaded to `tex`. */
    method DrawFrame(tex: nat, x: int, y: int, w: int, h: int)
      requires Valid()
      modifies gl
      ensures Valid()
      ensures gl.trace == old(gl.trace) + RawDrawCalls(old(gl.currentVAO), tex, x, y, w, h)
    {
      ghost var t0, vao0 := gl.trace, gl.currentVAO;
      gl.Issue(SetTexParameter(MinFilterLinear));
      gl.Issue(SetTexParameter(MagFilterLinear));
      ghost var t1 := gl.trace;
      assert t1 == t0 + [SetTexParameter(MinFilterLinear), SetTexParameter(MagFilterLinear)];
      DrawTexturedRectangle(RawQuad(x, y, w, h));
      ghost var t2 := gl.trace;
      assert t2 == t1 + TexturedRectCalls(vao0, RawQuad(x, y, w, h));
      gl.Issue(DeleteTexture(tex));
      gl.Issue(Bind(0));
      assert gl.trace == t2 + [DeleteTexture(tex), Bind(0)];
      AppendAssoc(t0, [SetTexParameter(MinFilterLinear), SetTexParameter(MagFilterLinear)],
                  TexturedRectCalls(vao0, RawQuad(x, y, w, h)));
      AppendAssoc(t0, [SetTexParameter(MinFilterLinear), SetTexParameter(MagFilterLinear)]
                      + TexturedRectCalls(vao0, RawQuad(x, y, w, h)), [DeleteTexture(tex), Bind(0)]);
      assert old(gl.trace) == t0 && old(gl.currentVAO) == vao0;
    }

    /** The nested loops of GL3_Draw_StretchRaw: row-major conversion of the frame into `img`. */
    method ConvertFrame(img: array<bv32>, data: seq<bv8>, cols: int, rows: int)
      requires Valid() && img != rawPalette
      requires FrameSize(cols, rows) <= |data| && FrameSize(cols, rows) <= img.Length
      modifies img
      ensures img[..FrameSize(cols, rows)] == RawToRGBA(data, FrameSize(cols, rows), rawPalette[..])
    {
      var i := 0;
      ghost var done := 0;  // pixels converted so far: the first i rows
      while i < rows
        invariant 0 <= i && (rows > 0 ==> i <= rows)
        invariant done == if cols > 0 then cols * i else 0
        invariant done <= FrameSize(cols, rows)
        invariant forall k :: 0 <= k < done ==> img[k] == rawPalette[data[k]]
      {
        var rowOffset := i * cols;
        var j := 0;
        while j < cols
          invariant 0 <= j && (cols > 0 ==> j <= cols)
          invariant cols > 0 ==> rowOffset == done
          invariant done + j <= FrameSize(cols, rows)
          invariant forall k :: 0 <= k < done + j ==> img[k] == rawPalette[data[k]]
        {
          RowMajorIndex(cols, rows, i, j);
          var palIdx := data[rowOffset + j];
          img[rowOffset + j] := rawPalette[palIdx];
          j := j + 1;
        }
        if cols > 0 {
          done := done + cols;
          assert done == cols * (i + 1);
        }
        i := i + 1;
      }
      ghost var n := FrameSize(cols, rows);
      assert img[..n] == RawToRGBA(data, n, rawPalette[..]);
    }

    /**
     * GL3_Draw_GetPalette. `pal` is the palette the colormap picture loaded
     * with, None when it did not load: the fatal error, with the table left
     * as it was.
     */
    method GetPalette(pal: Option<seq<bv8>>) returns (fatal: bool)
      requires Valid()
      requires pal.Some? ==> |pal.value| >= 768
      modifies table8to24
      ensures Valid()
      ensures fatal <==> pal.None?
      ensures fatal ==> unchanged(table8to24)
      ensures !fatal ==> forall i :: 0 <= i < 256 ==> table8to24[i] == PaletteEntry(pal.value, i)
    {
      if pal.None? {
        return true; // the fatal error for a colormap that did not load
      }
      var p := pal.value;
      for i := 0 to 256
        invariant forall k :: 0 <= k < i ==> table8to24[k] == Word(p[3 * k], p[3 * k + 1], p[3 * k + 2], 255)
      {
        var r := p[i * 3 + 0];
        var g := p[i * 3 + 1];
        var b := p[i * 3 + 2];
        var v: bv32 := (255 << 24) + (r as bv32 << 0) + (g as bv32 << 8) + (b as bv32 << 16);
        FullAlphaSumIsWord(r, g, b);
        table8to24[i] := v;
      }
      ghost var beforeMask := table8to24[..];
      table8to24[255] := table8to24[255] & 0xffffff; // clear the alpha of the transparent index
      forall i | 0 <= i < 256
        ensures table8to24[i] == PaletteEntry(p, i)
      {
        if i == 255 {
          MaskClearsAlpha(p[765], p[766], p[767]);
        } else {
          assert table8to24[i] == beforeMask[i];
        }
      }
      return false;
    }
  }
}
