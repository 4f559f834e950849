# YV12 test renderer: a Dafny model of its core logic

The renderer in `jni/gl_code.cpp` draws a synthetic YUV 4:2:0 frame with OpenGL ES 2.0. Every frame it does the following:

- fills its three CPU planes (Y, U, V) with one grey level and then advances that level;
- uploads each plane as a sub-image of a luminance texture whose size is padded to a power of two;
- draws one full-surface quad through a zoom window, using an orthographic projection.

This project models the logic around those GL calls and proves properties of it:

| file | module | source |
|---|---|---|
| `power_of_two.dfy` | `PowerOfTwo` | `align_on_power_of_2`, an ascending scan over `1 << i` with an early return |
| `texture_layout.dfy` | `TextureLayout` | sizes of the CPU planes, the padded textures and the uploaded sub-images, and the UV extent that crops the padding |
| `viewport.dfy` | `Viewport` | the quad vertices, their UVs, `vpDim`, the `ENSURE_RANGE_A_INSIDE_RANGE_B` clamp (written as the function `ClampCenter`) and the resulting crop window |
| `orthographic.dfy` | `Orthographic` | `load_orthographic_matrix`, as a specification function and as a method that fills a caller's array in place |
| `renderer.dfy` | `Renderer` | the process-wide state as the class `RendererState`, plus `setupGraphics` and `renderFrame` |

The state in `RendererState` is:

- the three plane buffers (`null` when not allocated);
- the program;
- the backing surface size;
- the padded size;
- `bNeedInit`;
- the static `color` counter;
- an abstract log of driver calls.

The log records three kinds of call:

- `glTexImage2D` allocations;
- `glTexSubImage2D` uploads, together with the bytes read;
- the single `glDrawArrays`, with the projection, rotation, vertex and UV arrays in force when it is issued.

How the source's types are modelled:

- Floats are `real`, and rounding is not modelled.
- `unsigned int` is the subset type `uint32`.
- `unsigned char` is `byte`, and `color++` wraps explicitly modulo 256.
- The float-to-int conversion of the quad position truncates toward zero.

These results come from the environment and are parameters of `SetupGraphics`:

- whether each `malloc` succeeds;
- the handle `createProgram` returns (0 on failure).

Five behaviours of the code shape the model:

- The CPU planes are `W*H` bytes for Y and `W*H/4` bytes for each of U and V, all at the unpadded size (jni/gl_code.cpp:236-238).
- `bNeedInit` is cleared after the three `glTexImage2D` calls, whatever they returned (jni/gl_code.cpp:324).
- The frame size is the constant 1920 x 1080 (jni/gl_code.cpp:295-296 and 351-369). The `w, h` given to `setupGraphics` only set the backing surface size (jni/gl_code.cpp:266-268).
- When `createProgram` returns 0, `setupGraphics` returns false straight away (jni/gl_code.cpp:249-253). The three buffers stay allocated, and `bNeedInit` and the surface size keep their old values.
- The padded size is computed as an `unsigned int` and stored in the signed `int gl_width` and `gl_height` (jni/gl_code.cpp:68-69, 295-296). The model keeps both: `Aligned` is the unsigned value, and `UnsignedToInt` is the conversion into the field.

## Model

| member | source | states |
|---|---|---|
| `PowerOfTwo.AlignFrom` | jni/gl_code.cpp:75-80 | the scan from exponent i on returns 0 when it runs out, and otherwise a value at least as large as its argument |
| `PowerOfTwo.Aligned` | jni/gl_code.cpp:72-81 | the result of align_on_power_of_2 is 0 or at least value; 0 is padded to 1 |
| `PowerOfTwo.UnsignedToInt` | jni/gl_code.cpp:68-69 | storing an `unsigned int` in an `int` yields the one value in [-2^31, 2^31) congruent to it modulo 2^32, which is the value itself below 2^31 |
| `PowerOfTwo.PaddedSizeAsInt` | jni/gl_code.cpp:295-296 | the padded size survives the store into `int gl_width` for values up to 2^30; for 2^30 < value <= 2^31 it becomes -2^31 |
| `PowerOfTwo.AlignOnPowerOf2` | jni/gl_code.cpp:72-81 | the loop over `1 << i`, i = 0..31, with its early return, computes `Aligned(value)` |
| `PowerOfTwo.AlignedCharacterization` | jni/gl_code.cpp:72-81 | up to 2^31 the result is 2^k with 2^(k-1) < value <= 2^k; above 2^31 the result is 0 |
| `PowerOfTwo.AlignedBounds` | jni/gl_code.cpp:72-81 | for 0 < value <= 2^31: value <= result < 2*value, and result <= 2^31 |
| `PowerOfTwo.AlignedIsPowerOfTwo` | jni/gl_code.cpp:72-81 | up to 2^31 the result is one of the 32 powers of two |
| `PowerOfTwo.AlignedIsMinimal` | jni/gl_code.cpp:72-81 | no power of two that is at least value is smaller than the result |
| `PowerOfTwo.AlignedIsSmallestPower` | jni/gl_code.cpp:72-81 | the result is the smallest power of two >= value and < 2*value; 0 gives 1; values above 2^31 give 0 |
| `PowerOfTwo.AlignedInWindow` | jni/gl_code.cpp:72-81 | any value in (2^(k-1), 2^k] is padded to exactly 2^k |
| `PowerOfTwo.AlignedOfPowerOfTwo` | jni/gl_code.cpp:72-81 | every power of two up to 2^31 is mapped to itself |
| `PowerOfTwo.AlignedIdempotent` | jni/gl_code.cpp:72-81 | padding a padded value again changes nothing (values up to 2^31) |
| `PowerOfTwo.AlignedNotIdempotentAboveRange` | jni/gl_code.cpp:72-81 | above 2^31 idempotence fails: 2^31+1 gives 0, and 0 gives 1 |
| `PowerOfTwo.AlignedExamples` | jni/gl_code.cpp:295-296 | 1920 and 1080 both pad to 2048; 1 gives 1 and 2 gives 2 |
| `TextureLayout.LumaPlaneBytes` | jni/gl_code.cpp:236 | the Y plane has one byte per pixel, so a non-empty plane holds at least a full row and a full column |
| `TextureLayout.ChromaPlaneBytes` | jni/gl_code.cpp:237-238 | each chroma plane is a quarter of the luma plane, rounded down |
| `TextureLayout.ChromaTextureSize` | jni/gl_code.cpp:314-322 | `gl_width >> 1` halves and rounds down, so half of 2^k is 2^(k-1) |
| `TextureLayout.ChromaUploadWidth` | jni/gl_code.cpp:359-369 | `W/2` halves the width and rounds down |
| `TextureLayout.ChromaUploadHeight` | jni/gl_code.cpp:359-369 | `H >> 1` halves the height and rounds down |
| `TextureLayout.ChromaUploadFitsPlane` | jni/gl_code.cpp:237-238 | a (W/2) x (H>>1) chroma upload reads at most the W*H/4 bytes of its plane, and exactly that many for even W and H |
| `TextureLayout.UploadFitsTexture` | jni/gl_code.cpp:306-322 | luma texture (padded) >= W; chroma texture (padded >> 1) >= W/2 and >= H>>1; both are powers of two |
| `TextureLayout.UvExtent` | jni/gl_code.cpp:327-328 | the extent size/(padded+1) is non-negative, and below 1 when size <= padded |
| `TextureLayout.UvExtentCropsPadding` | jni/gl_code.cpp:327-328 | in texel units the sampled edge lies strictly between size-1 and size: inside the uploaded image, less than one texel short |
| `TextureLayout.UvExtentOfAligned` | jni/gl_code.cpp:327-328 | with padding by align_on_power_of_2 the extent is in [1/2, 1) |
| `TextureLayout.UvExtentExamples` | jni/gl_code.cpp:327-328 | the extents for 1920 x 1080 are 1920/2049 and 1080/2049 |
| `Viewport.TruncateToInt` | jni/gl_code.cpp:383-384 | float-to-int conversion truncates toward zero and loses less than 1 |
| `Viewport.PixelPosition` | jni/gl_code.cpp:383-384 | `x = xpos * screenW`; a zero position gives pixel 0 |
| `Viewport.QuadVertices` | jni/gl_code.cpp:386-393 | a triangle strip (left-bottom, right-bottom, left-top, right-top) of an axis-aligned rectangle, w/screenW by h/screenH in size and centred on (x/screenW, y/screenH) |
| `Viewport.FullSurfaceQuad` | jni/gl_code.cpp:377-393 | at position 0 with the surface's own size, the quad spans [-0.5, 0.5] on both axes for any non-zero surface size |
| `Viewport.SquareUvs` | jni/gl_code.cpp:334-339 | the UV corners pair up like the strip corners: vertices 0 and 2 take uLeft, 1 and 3 take uRight; the bottom vertices 0 and 1 take vTop, and the top ones take vBottom |
| `Viewport.UvsMapImageUpright` | jni/gl_code.cpp:334-339 | a vertex gets u = uLeft exactly on the left edge, and v = vTop exactly on the bottom edge, so the first uploaded row is shown at the top |
| `Viewport.VpDim` | jni/gl_code.cpp:396-401 | vpDim is positive and 2 * vpDim * zoom == VP_SIZE |
| `Viewport.ClampCenter` | jni/gl_code.cpp:403-411 | snap case (2*aSize >= bMax-bMin): the centre becomes exactly 0; shift case: the window ends inside [bMin, bMax], and a centre already inside is unchanged |
| `Viewport.ClampIdempotent` | jni/gl_code.cpp:403-411 | clamping twice gives the same result as clamping once |
| `Viewport.ClampMovesLeast` | jni/gl_code.cpp:406-411 | the shift moves the centre no further than any other admissible centre would |
| `Viewport.CropWindow` | jni/gl_code.cpp:413-421 | the window is 1/zoom wide and high (never degenerate); on each axis it lies inside the quad when smaller than it, and is centred at 0 otherwise |
| `Viewport.DefaultZoomWindow` | jni/gl_code.cpp:396-414 | at zoom 1, vpDim = 0.5, both centres snap to 0, and the window is [-0.5, 0.5]^2 whatever centre is requested |
| `Orthographic.OrthographicMatrix` | jni/gl_code.cpp:83-107 | column-major, 16 entries: all off-diagonal entries outside the last column are 0 and m[15] = 1; the scales satisfy m[0]*(r-l) = 2, m[5]*(t-b) = 2 and m[10]*(f-n) = -2; the translations satisfy m[12]*(r-l) = -(r+l), m[13]*(t-b) = -(t+b) and m[14]*(f-n) = -(f+n) |
| `Orthographic.OrthographicMapsBoxToCube` | jni/gl_code.cpp:83-107 | the column-major matrix sends (left, bottom, -near, 1) to (-1, -1, -1, 1) and (right, top, -far, 1) to (1, 1, 1, 1) |
| `Orthographic.AxisToUnit` | jni/gl_code.cpp:88-96 | scale 2/(r-l) with translation -(r+l)/(r-l) sends l to -1 and r to 1 (the same for b and t) |
| `Orthographic.DepthToUnit` | jni/gl_code.cpp:90-105 | scale -2/(f-n) with translation -(f+n)/(f-n) sends depth -n to -1 and -f to 1 |
| `Orthographic.OrthographicSymmetric` | jni/gl_code.cpp:88-96 | for symmetric bounds (-d, d) both translations are 0 and both scales are 1/d |
| `Orthographic.LoadOrthographicMatrix` | jni/gl_code.cpp:83-107 | fills mat[0..15] with the orthographic matrix (1-4, 6-9 and 11 are zero, mat[15] = 1) and leaves everything past index 15 unchanged |
| `Renderer.NextColor` | jni/gl_code.cpp:347 | `color++` on an unsigned char adds 1 below 255 and wraps 255 to 0 |
| `Renderer.ColorCycles` | jni/gl_code.cpp:342-347 | after n frames the colour is (start + n) mod 256 |
| `Renderer.Fill` | jni/gl_code.cpp:344-346 | memset: the first n bytes equal the value and the rest are unchanged |
| `Renderer.Malloc` | jni/gl_code.cpp:236-238 | a fresh buffer of the requested size, or null when the allocation fails |
| `Renderer.TextureAllocations` | jni/gl_code.cpp:306-322 | three glTexImage2D calls for Y, U and V in that order; the luma texture is a power of two on each axis and at least 1920 x 1080; both chroma textures are half its size (`>> 1`) |
| `Renderer.SubImageUploads` | jni/gl_code.cpp:351-369 | three glTexSubImage2D calls for Y, U and V: 1920 x 1080 luma, (W/2) x (H>>1) chroma; each reads width*height bytes, and those bytes are a prefix of its plane |
| `Renderer.PlaneUploads` | jni/gl_code.cpp:344-369 | from planes memset to a colour, every uploaded byte of every plane is that colour |
| `Renderer.FrameQuad` | jni/gl_code.cpp:377-393 | the quad renderFrame draws is [-0.5, 0.5] on both axes for any non-zero surface size |
| `Renderer.FrameUvs` | jni/gl_code.cpp:326-339 | the UVs are (0, 1080/2049), (1920/2049, 1080/2049), (0, 0), (1920/2049, 0) in strip order |
| `Renderer.FrameProjection` | jni/gl_code.cpp:395-421 | the projection uploaded at zoom 1 is the orthographic matrix of [-0.5, 0.5]^2 with depth [0, 0.5]: diagonal 2, 2, -4 and translation (0, 0, -1) |
| `Renderer.FrameCalls` | jni/gl_code.cpp:294-446 | one frame issues 7 calls when bNeedInit is set and 4 otherwise, and the last one is a 4-vertex draw with the current program |
| `Renderer.FrameAllocatesOnlyWhenNeeded` | jni/gl_code.cpp:298-325 | a frame allocates textures exactly when bNeedInit was set, and does so before any upload |
| `Renderer.AllocationsHoldUploads` | jni/gl_code.cpp:306-369 | the textures are 2048x2048 (Y) and 1024x1024 (U, V); each holds the sub-image uploaded into it; each upload reads no more than its plane holds |
| `Renderer.FrameDrawsOnce` | jni/gl_code.cpp:326-444 | each frame ends with exactly one 4-vertex draw: the quad is [-0.5, 0.5]^2, the UVs end at 1920/2049 and 1080/2049, and the projection is the matrix for [-0.5, 0.5]^2 with depth [0, 0.5] |
| `Renderer.RendererState.constructor` | jni/gl_code.cpp:59-70 | static initial state: null buffers, program 0, bNeedInit false, colour 0, empty log |
| `Renderer.RendererState.SetupGraphics` | jni/gl_code.cpp:229-289 | returns true iff all three mallocs and createProgram succeed; a failed malloc leaves all three pointers null; on success it records the surface size and sets bNeedInit; on failure bNeedInit is unchanged |
| `Renderer.RendererState.InitTexturesIfNeeded` | jni/gl_code.cpp:295-325 | pads 1920 x 1080 and stores the result in the int fields (2048 each); allocates the three textures only if bNeedInit was set; then bNeedInit is false |
| `Renderer.RendererState.RegeneratePlanes` | jni/gl_code.cpp:342-347 | every byte of the Y, U and V planes equals the old colour, and the colour becomes (old + 1) mod 256 |
| `Renderer.UploadPlanes` | jni/gl_code.cpp:348-370 | the uploads read from the plane buffers are exactly `SubImageUploads` of their contents, whatever those contents are |
| `Renderer.DrawQuad` | jni/gl_code.cpp:326-444 | the draw call is built from the quad, the UVs, the clamped crop window and the matrix written in place |
| `Renderer.RendererState.RenderFrame` | jni/gl_code.cpp:294-446 | bNeedInit is cleared; every plane byte equals the old colour; the colour advances mod 256; the log grows by exactly that frame's calls (allocations only if bNeedInit was set, then three uploads, then one draw) |

## Left out

- Every GL call other than `glTexImage2D`, `glTexSubImage2D` and `glDrawArrays` is left out: texture names, filter and wrap parameters, uniform locations, `glViewport`, `glClear`, attribute pointers and `glGetError`. So are `printGLString`, `checkGlError` and the logging macros. These are driver calls whose effect cannot be observed here. The draw entry carries the values the uniforms and attribute arrays hold when it is issued.
- `loadShader` and `createProgram` are not modelled; their result is the `createdProgram` parameter of `SetupGraphics`. They compile and link on the GPU driver. One quirk is not captured: a failed compile with an empty info log keeps the shader and carries on.
- The GLSL sources, the YUV to RGB coefficients and the shader-side rotation are not modelled. They run on the GPU.
- `degreesToRadians` is only used as the constant rotation 0.
- IEEE single-precision rounding is not modelled; the quad, UV, vpDim and matrix arithmetic use exact reals. The unused integer `aspectratio` is ignored.
- The JNI entry points `GL2JNILib.init` and `GL2JNILib.step` only forward to `setupGraphics` and `renderFrame`. They are host glue.
- `free` and leaks are not tracked. Calling `setupGraphics` again overwrites the buffer pointers without freeing the old buffers, and the model does not record that. Freshly malloc'd bytes are indeterminate in C but zero in Dafny. Nothing reads them before `renderFrame` fills them.
- `Renderer.SubImageUploads`: the bytes read by an upload are taken as width*height. This ignores `GL_UNPACK_ALIGNMENT`, which makes no difference for the 1920- and 960-byte rows used here (both are multiples of 4).
- `Renderer.RendererState.RenderFrame` requires allocated buffers and a non-zero surface size. The buffers are NULL before any `setupGraphics` and after one whose malloc failed (jni/gl_code.cpp:239-243, 272-288); there the source would memset through NULL. After a setup that failed only at `createProgram` (jni/gl_code.cpp:249-253) the buffers stay allocated, and the model allows the frame. A zero surface size makes the quad NaN, which reals cannot express.
- `Orthographic.LoadOrthographicMatrix` requires right != left, top != bottom and far != near. `Viewport.VpDim` requires zoom > 0. The source divides by these values without checking and would produce inf or NaN.
- `PowerOfTwo.AlignOnPowerOf2`: `1 << 31` on a signed `int` is taken as 2^31. That is what converting to `unsigned int` yields on the targets this code runs on.
- `TextureLayout.UploadFitsTexture` speaks of the unsigned padded value. The source halves the value after storing it in `int gl_width`, and that only agrees up to 2^30. For 2^30 < size <= 2^31 the stored value is INT_MIN (`PowerOfTwo.PaddedSizeAsInt`), so the C chroma size would be negative. The renderer only pads 1920 and 1080.
- `TextureLayout.UvExtentOfAligned` also uses the unsigned padded value. For 2^30 < size <= 2^31 the source's `(float)(gl_width + 1)` is negative, and so is its extent. This range is not used by the renderer.
- `PowerOfTwo.AlignedIdempotent` is stated only for values up to 2^31. Above that the first call gives 0 and padding 0 gives 1; `PowerOfTwo.AlignedNotIdempotentAboveRange` proves this.
- No explicit teardown exists in the source, so none is modelled.
