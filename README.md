# yquake2 OpenGL3 renderer: the 2D drawing layer

This project models the 2D layer of the OpenGL3 renderer of Yamagi Quake II in Dafny. It covers:

- the console font;
- pictures looked up by name;
- stretched, scaled and tiled pictures;
- flat-colour fills and the screen fade;
- cinematic frames drawn from 8-bit palette indices;
- the 256-entry palette table built from `pics/colormap.pcx`;
- underneath all of them, the renderer's cache of the currently bound shader program and vertex array.

Each call into OpenGL and into the C allocator is recorded as an `Event` in a ghost trace kept by the shared renderer state. Every drawing routine is a method. Its postcondition gives the exact calls it appends, in terms of:

- pure functions for the calculations (glyph cell, picture path, vertex buffer, colour, converted frame);
- the bind state cached before the call.

Lemmas then state what those calculations promise.

Three modules, one per file:

- `local.dfy`, module `GL3Local`, models `header/local.h`:
  - the image record and the shader record;
  - the event alphabet;
  - `Current`, what a trace leaves bound;
  - the `GL3State` class with `GL3_UseProgram` and `GL3_BindVAO`.

  Its invariant `Valid()` says the cached handles are always those of the last bind in the trace.
- `draw_rules.dfy`, module `GL3DrawRules`, holds the pure calculations of `gl3_draw.c`:
  - palette words;
  - the glyph cell;
  - picture-name resolution;
  - the two vertex layouts;
  - the Fill index check and colour;
  - the raw-frame conversion.
- `draw.dfy`, module `GL3Draw`, holds the `Draw2D` class. It has:
  - the file's globals (`d_8to24table`, `draw_chars`, the 2D buffer and vertex arrays);
  - references to `gl3state` and `gl3_rawpalette`;
  - the texture cache, seen as a map from path to image;
  - the video size.

  Each drawing routine is an imperative method of this class. `GL3_Draw_GetPalette` fills the table array in a loop. `GL3_Draw_StretchRaw` converts the frame into an array in nested loops.

Modelling choices:

- Coordinates, sizes and texture coordinates are exact reals.
- Palette words are `bv32`, so C's unsigned arithmetic wraps as in the source.
- `Fill`'s index is a 32-bit `i32`, so the test `(unsigned)c > 255` is modelled with its conversion.
- A fatal `Sys_Error` is a returned `fatal` flag. When it is set the routine has done nothing.
- The texture name `glGenTextures` hands out is a parameter of `StretchRaw`.
- The palette `LoadPCX` produces is a parameter of `GetPalette` (`None` when loading failed).
- `GL3_Bind`, the texture cache's own bind, is recorded as the event `Bind(texnum)`.

## Model

| member | source | states |
|---|---|---|
| GL3Local.BindCalls | src/client/refresh/gl3/header/local.h:224-242 | The calls one cached bind helper issues: nothing exactly when the name is already current, else exactly one bind of that name |
| GL3Local.GL3State.UseProgram | src/client/refresh/gl3/header/local.h:224-232 | Afterwards the cached program is the requested one and the vertex array is untouched. The trace grows by one glUseProgram when the program differed and by nothing otherwise. The cache invariant is kept |
| GL3Local.GL3State.BindVAO | src/client/refresh/gl3/header/local.h:234-242 | Afterwards the cached vertex array is the requested one and the program is untouched. The trace grows by one glBindVertexArray when the array differed and by nothing otherwise. The cache invariant is kept |
| GL3Local.GL3State.UseProgramTwice | src/client/refresh/gl3/header/local.h:224-232 | Two GL3_UseProgram calls with the same program append exactly the calls of one, at most one glUseProgram, and leave that program cached and bound |
| GL3Local.GL3State.BindVAOTwice | src/client/refresh/gl3/header/local.h:234-242 | Two GL3_BindVAO calls with the same vertex array append exactly the calls of one, at most one glBindVertexArray, and leave that array cached and bound |
| GL3Local.GL3State.constructor | src/client/refresh/gl3/header/local.h:137-140 | A zero-initialised gl3state: nothing cached, nothing issued, and the cache agrees with the empty trace |
| GL3Local.CurrentAppend | src/client/refresh/gl3/header/local.h:224-242 | What a trace leaves bound is decided by its last bind: appending calls that bind the target overrides it, and appending calls that do not leaves it as it was |
| GL3Local.BindTwiceIssuesOnce | src/client/refresh/gl3/header/local.h:224-242 | Idempotence: a second request for the same name issues nothing, so two requests issue the bind at most once in total |
| GL3Local.BindCallsEffect | src/client/refresh/gl3/header/local.h:224-242 | After a helper's calls the context has the requested name bound, and the other piece of state is as it was |
| GL3DrawRules.WordChannels | src/client/refresh/gl3/gl3_draw.c:398-406 | The packed word has r in byte 0, g in byte 1, b in byte 2 and a in byte 3 |
| GL3DrawRules.FullAlphaSumIsWord | src/client/refresh/gl3/gl3_draw.c:403 | The sum `(255<<24) + (r<<0) + (g<<8) + (b<<16)` equals the word r, g, b with alpha 255, because the summands occupy disjoint bytes |
| GL3DrawRules.MaskClearsAlpha | src/client/refresh/gl3/gl3_draw.c:408 | Masking with 0xffffff keeps red, green and blue and sets alpha to 0 |
| GL3DrawRules.PaletteEntryChannels | src/client/refresh/gl3/gl3_draw.c:398-408 | Entry i has the palette's i-th RGB triplet, and alpha 255 except at index 255, which has alpha 0 |
| GL3Draw.Draw2D.GetPalette | src/client/refresh/gl3/gl3_draw.c:381-414 | Fatal exactly when no palette loaded, and then the table is unchanged. Otherwise every entry i of d_8to24table is the palette word of triplet i: alpha 255, and alpha 0 for index 255 |
| GL3DrawRules.QuadVertices | src/client/refresh/gl3/gl3_draw.c:90-106 | Exactly 16 values: (x,y+h,sl,th), (x,y,sl,tl), (x+w,y+h,sh,th), (x+w,y,sh,tl) in that order |
| GL3DrawRules.QuadStripWinding | src/client/refresh/gl3/gl3_draw.c:100-115 | Both triangles of the 4-vertex strip have twice-area w*h with the same sign: the strip covers the rectangle without a flipped triangle |
| GL3DrawRules.QuadTexcoordsFollowPosition | src/client/refresh/gl3/gl3_draw.c:90-106 | For a rectangle of non-zero size, at every vertex S runs linearly from sl at x to sh at x+w and T from tl at y to th at y+h, with no mirroring |
| GL3DrawRules.PositionQuad | src/client/refresh/gl3/gl3_draw.c:274-280 | Exactly 8 position values |
| GL3DrawRules.PositionQuadMatchesQuad | src/client/refresh/gl3/gl3_draw.c:274-280 | The position-only layout of Fill and FadeScreen has the same corners in the same order as the textured layout |
| GL3Draw.Draw2D.DrawTexturedRectangle | src/client/refresh/gl3/gl3_draw.c:86-118 | Appends the textured vertex array bind (when not current), the buffer bind, the upload of QuadVertices and one strip of 4. Leaves that array cached and the program untouched |
| GL3DrawRules.CharCell | src/client/refresh/gl3/gl3_draw.c:130-143 | No glyph exactly when the low seven bits of the code are 32 (spaces 32 and 160) or y <= -8. Otherwise a cell with row and column in 0..15 and 16*row + col equal to the code masked to 8 bits |
| GL3DrawRules.CharQuadIsCell | src/client/refresh/gl3/gl3_draw.c:142-155 | A drawn character is a square of side 8*scale at (x, y) textured with [col/16, (col+1)/16] x [row/16, (row+1)/16] |
| GL3DrawRules.CharCellsDisjoint | src/client/refresh/gl3/gl3_draw.c:142-155 | Codes that differ in their low 8 bits get texture rectangles that do not overlap |
| GL3Draw.Draw2D.CharScaled | src/client/refresh/gl3/gl3_draw.c:125-156 | Appends nothing for a skipped code. Otherwise appends the 2D program, the font texture and the character's quad |
| GL3DrawRules.PicPath | src/client/refresh/gl3/gl3_draw.c:164-172 | A name starting with '/' or '\' resolves to the rest of the name. Any other name resolves to "pics/" + name + ".pcx" |
| GL3DrawRules.LiteralNameRoundTrip | src/client/refresh/gl3/gl3_draw.c:170-173 | Prefixing any path with '/' or '\' resolves back to that path |
| GL3DrawRules.PlainNamesInjective | src/client/refresh/gl3/gl3_draw.c:164-168 | Distinct plain names short enough that the path fits `MAX_QPATH` (64, with its NUL) resolve to distinct paths |
| GL3DrawRules.FindPic | src/client/refresh/gl3/gl3_draw.c:158-175 | Finds an image exactly when the resolved path is in the cache, and then it is the image under that path |
| GL3DrawRules.GetPicSize | src/client/refresh/gl3/gl3_draw.c:177-192 | (-1, -1) when the picture is missing, else the image's width and height |
| GL3DrawRules.PlainAndLiteralAgree | src/client/refresh/gl3/gl3_draw.c:158-192 | A plain name whose path fits `MAX_QPATH` and the literal form of that path find the same picture and report the same size |
| GL3Draw.Draw2D.StretchPic | src/client/refresh/gl3/gl3_draw.c:194-209 | A missing picture appends nothing. Otherwise appends the 2D program, the picture's texture and the w x h quad with the image's texture rectangle |
| GL3Draw.Draw2D.PicScaled | src/client/refresh/gl3/gl3_draw.c:211-225 | A missing picture appends nothing. Otherwise appends the 2D program, the picture's texture and a quad of the image's size times the factor |
| GL3DrawRules.PicScaledUsesPicSize | src/client/refresh/gl3/gl3_draw.c:211-224 | The scaled quad's width and height are GetPicSize's width and height times the factor |
| GL3DrawRules.StretchAtNativeSizeIsScaledByOne | src/client/refresh/gl3/gl3_draw.c:194-224 | StretchPic at the image's own width and height draws the same quad as PicScaled at factor 1 |
| GL3Draw.Draw2D.TileClear | src/client/refresh/gl3/gl3_draw.c:232-246 | A missing picture appends nothing. Otherwise appends the 2D program, the tile's texture and the quad with UVs x/64, y/64, (x+w)/64, (y+h)/64 |
| GL3DrawRules.TileClearAnchored | src/client/refresh/gl3/gl3_draw.c:245 | Every vertex's texture coordinate is its screen position divided by 64, so the tile pattern is anchored at the screen origin |
| GL3DrawRules.TileClearExample | src/client/refresh/gl3/gl3_draw.c:245 | Clearing (64, 64, 128, 64) samples the texture rectangle (1, 1) to (3, 2) |
| GL3DrawRules.FillIndexBad | src/client/refresh/gl3/gl3_draw.c:262-265 | `(unsigned)c > 255` holds exactly for c < 0 or c > 255 |
| GL3DrawRules.FillColor | src/client/refresh/gl3/gl3_draw.c:267-272 | Red, green and blue are the entry's low three bytes divided by 255, each in [0, 1], and alpha is 1 |
| GL3DrawRules.FillColorOfPalette | src/client/refresh/gl3/gl3_draw.c:267-286 | Filling with index c shows the palette's RGB for c at alpha 1, including the transparent index 255 |
| GL3Draw.Draw2D.Fill | src/client/refresh/gl3/gl3_draw.c:251-292 | Fatal exactly when c is outside 0..255, and then nothing is appended. Otherwise appends the colour program and vertex array, the colour of d_8to24table[c], and the 8-value quad |
| GL3Draw.Draw2D.DrawColorQuad | src/client/refresh/gl3/gl3_draw.c:282-291 | Appends the colour program and vertex array when not current, the colour uniform, the buffer bind, the upload and one strip of 4 |
| GL3Draw.Draw2D.FadeScreen | src/client/refresh/gl3/gl3_draw.c:294-328 | Appends blending on, the colour quad over the whole video mode in black at alpha 0.6, then blending off |
| GL3DrawRules.FrameFitsBuffer | src/client/refresh/gl3/gl3_draw.c:337-356 | The pixels the loops write never exceed the chosen buffer: the 320x240 stack one, or the cols*rows heap one. This is exact arithmetic; `StretchRaw` requires `SizesInIntRange` (cols*rows*4 within a C int), where the source's products agree with it |
| GL3DrawRules.BudgetEdge | src/client/refresh/gl3/gl3_draw.c:341 | A 320x240 frame stays on the stack; one pixel more takes the heap |
| GL3DrawRules.RawToRGBA | src/client/refresh/gl3/gl3_draw.c:348-356 | The converted frame has one pixel per byte, and pixel k is the raw palette's entry for byte k |
| GL3DrawRules.RowMajorIndex | src/client/refresh/gl3/gl3_draw.c:348-356 | Row i, column j lies at i*cols + j, inside the frame and before the next row |
| GL3DrawRules.RawPixelAt | src/client/refresh/gl3/gl3_draw.c:348-356 | For all i < rows and j < cols, pixel i*cols + j of the frame is gl3_rawpalette of data[i*cols + j] |
| GL3Draw.Draw2D.ConvertFrame | src/client/refresh/gl3/gl3_draw.c:348-356 | After the nested loops, the written prefix of img is the converted frame |
| GL3Draw.Draw2D.RawUploadCalls | src/client/refresh/gl3/gl3_draw.c:358-365 | The upload makes no heap call and ends with the glTexImage2D of the frame |
| GL3Draw.Draw2D.RawDrawCalls | src/client/refresh/gl3/gl3_draw.c:372-378 | The filtering, drawing and deletion calls make no heap call |
| GL3Draw.Draw2D.UploadFrame | src/client/refresh/gl3/gl3_draw.c:358-365 | Appends the 2D program when not current, the new texture's creation and bind, and the upload of the frame. Leaves the vertex array untouched |
| GL3Draw.Draw2D.DrawFrame | src/client/refresh/gl3/gl3_draw.c:372-378 | Appends linear filtering, the whole-texture quad, the texture's deletion and the unbind |
| GL3Draw.Draw2D.StretchRawFreesHeapBuffer | src/client/refresh/gl3/gl3_draw.c:341-370 | The heap buffer is taken and freed exactly when cols*rows > 320*240, once each, and the free comes after the upload that reads it. A frame within 320x240 makes no heap call at all |
| GL3Draw.Draw2D.StretchRaw | src/client/refresh/gl3/gl3_draw.c:330-379 | For cols*rows*4 within a C int, appends the unbind, the malloc when the frame is too big, the upload of the converted frame, the matching free, then the whole-texture draw and the texture's deletion |

## Left out

- `GL3_Draw_InitLocal` and `GL3_Draw_ShutdownLocal` create and delete the buffer and the vertex arrays. The `Draw2D` constructor starts from their handles. InitLocal binds both vertex arrays with `glBindVertexArray` directly, bypassing the cache, so its closing `GL3_BindVAO(0)` is skipped whenever the cache already holds 0. The model's cache invariant holds for every call made through the helpers and is not claimed for that sequence.
- The OpenGL calls themselves are foreign code. They are events in a ghost trace; their effect on the driver is not modelled.
- `LoadPCX` reads a file. `GetPalette` takes its palette as a parameter. The two `free` calls on LoadPCX's buffers are not recorded.
- `GL3_FindImage` and `GL3_Bind`, the texture cache in `gl3_image.c`, are not part of this model. The cache is a fixed map from path to image, and `GL3_Bind` is an event that does not model that cache's own check for the current texture.
- `ri.Sys_Error` does not return in the source. The model returns `fatal` and draws nothing.
- `R_Printf` on a missing picture is logging and is not recorded.
- IEEE float rounding of UVs, `8*scale`, `width*factor`, `x/64.0f` and `1/255` is replaced by exact reals.
- `LittleLong` is taken as the identity and the byte view in `Fill` as little-endian.
- malloc returning NULL (gl3_draw.c:344) is not modelled: the heap buffer is always available, while the source would write through a null pointer at line 353.
- `255 << 24` overflows a signed int in C. The model uses the two's-complement word that compilers produce.
- Com_sprintf may truncate `fullname` to `MAX_QPATH`. `PicPath` does not model that; the lemmas about plain names hold only for names that pass `FitsQPath`.
- `int` overflow of coordinates and `x + w` is not modelled; those are unbounded integers. `StretchRaw` requires `SizesInIntRange`, so `cols*rows` and `cols*rows*4` never overflow in the modelled calls. `+`, `<<` and `&` on palette words are 32-bit.
- The video size is a constant of `Draw2D`, read by `FadeScreen`.
- The other declarations of `local.h` (lightmaps, models, surfaces, cvars, `STUB_ONCE`) are not part of this model.
- GL3Draw.Draw2D.StretchRaw: the routine is modelled as four steps, `ConvertFrame`, `UploadFrame`, `DrawFrame` and the heap bookkeeping. The stack buffer is an array allocated for the call, not a C stack array, and `glTexImage2D` records the converted pixels, not the buffer's address.
