/** The renderer's process-wide state (the three YUV plane buffers, the program, the
    surface size, the bNeedInit flag and the static frame colour) and the two entry
    points that change it: setupGraphics and renderFrame. The GL driver is an opaque
    environment; the calls that matter are recorded in an abstract log. */
module Renderer {
  import opened PowerOfTwo
  import opened TextureLayout
  import opened Viewport
  import opened Orthographic

  /** A C `unsigned char`. */
  type byte = x: int | 0 <= x < 256

  /** TEST_YUV_WIDTH x TEST_YUV_HEIGHT: the size of the synthetic source frame. */
  const TestYuvWidth: uint32 := 1920
  const TestYuvHeight: uint32 := 1080

  /** The hardcoded viewport state of renderFrame. */
  const Near: real := 0.0
  const Far: real := 0.5
  const ZoomFactor: real := 1.0
  const ZoomCx: real := 0.0
  const ZoomCy: real := 0.0
  const XPos: real := 0.0
  const YPos: real := 0.0
  /** degreesToRadians(0). */
  const Rotation: real := 0.0

  /** The three planes; Y, U and V are bound to texture units 0, 1 and 2. */
  datatype Plane = Y | U | V

  /** The driver calls the model keeps track of. */
  datatype GlCall =
    | /** glTexImage2D: storage of width x height luminance texels, content undefined. */
      TexImage(plane: Plane, width: nat, height: nat)
    | /** glTexSubImage2D at offset (0, 0), reading width * height bytes of the plane. */
      TexSubImage(plane: Plane, width: nat, height: nat, pixels: seq<byte>)
    | /** glDrawArrays(GL_TRIANGLE_STRIP, 0, count) with the uniforms and attribute
          arrays in force at that moment. */
      Draw(program: nat, projection: seq<real>, rotation: real, vertices: seq<real>, uvs: seq<real>, count: nat)

  /** `color++` on an unsigned char. */
  function NextColor(c: byte): (n: byte)
    ensures c < 255 ==> n == c + 1
    ensures c == 255 ==> n == 0
  {
    (c + 1) % 256
  }

  /** The colour after a number of frames. */
  function ColorAfter(c: byte, frames: nat): byte {
    if frames == 0 then c else NextColor(ColorAfter(c, frames - 1))
  }

  /** The frame colour cycles: after n frames it is (start + n) mod 256. */
  lemma {:induction false} ColorCycles(c: byte, frames: nat)
    ensures ColorAfter(c, frames) == (c + frames) % 256
  {
    if frames > 0 {
      var a: nat := c + frames - 1;
      ColorCycles(c, frames - 1);
      ModSuccessor(a);
      assert ColorAfter(c, frames) == NextColor(a % 256);
    }
  }

  lemma {:induction false} ModSuccessor(a: nat)
    ensures ((a % 256) + 1) % 256 == (a + 1) % 256
  {
    var q, r := a / 256, a % 256;
    assert a == 256 * q + r;
    if r < 255 {
      assert a + 1 == 256 * q + (r + 1);
    } else {
      assert a + 1 == 256 * (q + 1);
    }
  }

  /** A plane of n bytes all equal to v: what memset leaves. */
  function Flat(n: nat, v: byte): (s: seq<byte>)
    ensures |s| == n
  {
    seq(n, _ => v)
  }

  /** memset(a, v, n). */
  method Fill(a: array<byte>, n: nat, v: byte)
    requires n <= a.Length
    modifies a
    ensures a[..n] == Flat(n, v)
    ensures a[n..] == old(a[n..])
  {
    for i := 0 to n
      invariant a[..i] == Flat(i, v)
      invariant a[i..] == old(a[i..])
    {
      a[i] := v;
    }
  }

  /** malloc(n): a fresh buffer of n bytes, or null when the environment refuses. */
  method Malloc(n: nat, succeeds: bool) returns (a: array?<byte>)
    ensures succeeds ==> a != null && fresh(a) && a.Length == n
    ensures !succeeds ==> a == null
  {
    if succeeds {
      a := new byte[n];
    } else {
      a := null;
    }
  }

  /** The one-time texture allocation: one texture per plane, in the order Y, U, V;
      luma at the padded size, a power of two holding the whole frame, and both
      chroma textures at half of it. */
  function TextureAllocations(): (allocs: seq<GlCall>)
    ensures |allocs| == 3 && allocs[0].TexImage? && allocs[1].TexImage? && allocs[2].TexImage?
    ensures allocs[0].plane == Y && allocs[1].plane == U && allocs[2].plane == V
    ensures IsPowerOfTwo(allocs[0].width) && TestYuvWidth <= allocs[0].width
    ensures IsPowerOfTwo(allocs[0].height) && TestYuvHeight <= allocs[0].height
    ensures allocs[1].width == allocs[2].width == ChromaTextureSize(allocs[0].width)
    ensures allocs[1].height == allocs[2].height == ChromaTextureSize(allocs[0].height)
  {
    Pow2Top();
    UploadFitsTexture(TestYuvWidth);
    UploadFitsTexture(TestYuvHeight);
    var pw, ph := Aligned(TestYuvWidth), Aligned(TestYuvHeight);
    [TexImage(Y, pw, ph),
     TexImage(U, ChromaTextureSize(pw), ChromaTextureSize(ph)),
     TexImage(V, ChromaTextureSize(pw), ChromaTextureSize(ph))]
  }

  /** The three glTexSubImage2D calls of a frame, given the contents of the Y, U and V
      planes: each uploads the unpadded sub-image at offset (0, 0) and reads its
      width * height bytes from the start of its plane. */
  function SubImageUploads(y: seq<byte>, u: seq<byte>, v: seq<byte>): (calls: seq<GlCall>)
    requires |y| == LumaPlaneBytes(TestYuvWidth, TestYuvHeight)
    requires |u| == ChromaPlaneBytes(TestYuvWidth, TestYuvHeight)
    requires |v| == ChromaPlaneBytes(TestYuvWidth, TestYuvHeight)
    ensures |calls| == 3 && calls[0].TexSubImage? && calls[1].TexSubImage? && calls[2].TexSubImage?
    ensures calls[0].plane == Y && calls[1].plane == U && calls[2].plane == V
    ensures calls[0].width == TestYuvWidth && calls[0].height == TestYuvHeight
    ensures calls[1].width == calls[2].width == ChromaUploadWidth(TestYuvWidth)
    ensures calls[1].height == calls[2].height == ChromaUploadHeight(TestYuvHeight)
    ensures forall i :: 0 <= i < 3 ==> |calls[i].pixels| == calls[i].width * calls[i].height
    ensures calls[0].pixels <= y && calls[1].pixels <= u && calls[2].pixels <= v
  {
    var w, h := TestYuvWidth, TestYuvHeight;
    var cw, ch := ChromaUploadWidth(w), ChromaUploadHeight(h);
    ChromaUploadFitsPlane(w, h);
    [TexSubImage(Y, w, h, y[..w * h]),
     TexSubImage(U, cw, ch, u[..cw * ch]),
     TexSubImage(V, cw, ch, v[..cw * ch])]
  }

  /** The per-frame uploads from planes that memset has filled with color: every byte
      uploaded to every texture is that color. */
  function PlaneUploads(color: byte): (ups: seq<GlCall>)
    ensures |ups| == 3 && forall i :: 0 <= i < 3 ==> ups[i].TexSubImage?
    ensures forall i, j :: 0 <= i < 3 && 0 <= j < |ups[i].pixels| ==> ups[i].pixels[j] == color
  {
    var chroma := ChromaPlaneBytes(TestYuvWidth, TestYuvHeight);
    SubImageUploads(Flat(LumaPlaneBytes(TestYuvWidth, TestYuvHeight), color), Flat(chroma, color), Flat(chroma, color))
  }

  /** The quad for a surface of screenW x screenH at the hardcoded position: it
      covers [-0.5, 0.5] on both axes whatever the surface size. */
  function FrameQuad(screenW: int, screenH: int): (q: seq<real>)
    requires screenW != 0 && screenH != 0
    ensures q == [-0.5, -0.5, 0.5, -0.5, -0.5, 0.5, 0.5, 0.5]
  {
    FullSurfaceQuad(screenW, screenH);
    QuadVertices(PixelPosition(XPos, screenW), PixelPosition(YPos, screenH), screenW, screenH, screenW, screenH)
  }

  /** The texture coordinates, cropping the padding away: they stop at 1920/2049 across
      and 1080/2049 up, with the first image row at the top of the quad. */
  function FrameUvs(): (uv: seq<real>)
    ensures uv == [0.0, 1080.0 / 2049.0, 1920.0 / 2049.0, 1080.0 / 2049.0, 0.0, 0.0, 1920.0 / 2049.0, 0.0]
  {
    UvExtentExamples();
    SquareUvs(0.0, UvExtent(TestYuvWidth, Aligned(TestYuvWidth)),
              0.0, UvExtent(TestYuvHeight, Aligned(TestYuvHeight)))
  }

  /** The projection for the hardcoded zoom state, clamped against the quad: the
      orthographic matrix of the window [-0.5, 0.5]^2 with depth range [0, 0.5]. */
  function FrameProjection(screenW: int, screenH: int): (m: seq<real>)
    requires screenW != 0 && screenH != 0
    ensures m == [2.0, 0.0, 0.0, 0.0,
                  0.0, 2.0, 0.0, 0.0,
                  0.0, 0.0, -4.0, 0.0,
                  0.0, 0.0, -1.0, 1.0]
  {
    DefaultZoomWindow(ZoomCx, ZoomCy, screenW, screenH);
    var win := CropWindow(ZoomFactor, ZoomCx, ZoomCy, FrameQuad(screenW, screenH));
    OrthographicMatrix(win.left, win.right, win.bottom, win.top, Near, Far)
  }

  /** Everything one renderFrame asks of the driver, in order: three allocations when
      bNeedInit is set, three uploads, and one draw of four vertices. */
  function FrameCalls(needInit: bool, color: byte, screenW: int, screenH: int, program: nat): (calls: seq<GlCall>)
    requires screenW != 0 && screenH != 0
    ensures |calls| == (if needInit then 7 else 4)
    ensures calls[|calls| - 1].Draw? && calls[|calls| - 1].count == 4 && calls[|calls| - 1].program == program
  {
    (if needInit then TextureAllocations() else [])
    + PlaneUploads(color)
    + [Draw(program, FrameProjection(screenW, screenH), Rotation, FrameQuad(screenW, screenH), FrameUvs(), 4)]
  }

  /** A frame allocates texture storage exactly when bNeedInit was set, and then before
      anything is uploaded. */
  lemma {:induction false} FrameAllocatesOnlyWhenNeeded(needInit: bool, color: byte, screenW: int, screenH: int, program: nat)
    requires screenW != 0 && screenH != 0
    ensures var calls := FrameCalls(needInit, color, screenW, screenH, program);
      (needInit <==> exists i :: 0 <= i < |calls| && calls[i].TexImage?) &&
      (needInit ==> calls[..3] == TextureAllocations())
  {
    var calls := FrameCalls(needInit, color, screenW, screenH, program);
    var rest := PlaneUploads(color) + [Draw(program, FrameProjection(screenW, screenH), Rotation, FrameQuad(screenW, screenH), FrameUvs(), 4)];
    assert forall i :: 0 <= i < |rest| ==> !rest[i].TexImage?;
    if needInit {
      assert calls == TextureAllocations() + rest;
      assert calls[0].TexImage?;
    } else {
      assert calls == rest;
    }
  }

  /** The textures are allocated at 2048 x 2048 (luma) and 1024 x 1024 (chroma), and
      each holds the sub-image uploaded into it every frame; each upload reads no more
      bytes than its plane buffer has. */
  lemma {:induction false} AllocationsHoldUploads(color: byte)
    ensures TextureAllocations()
         == [TexImage(Y, 2048, 2048), TexImage(U, 1024, 1024), TexImage(V, 1024, 1024)]
    ensures var allocs, ups := TextureAllocations(), PlaneUploads(color);
      forall i :: 0 <= i < 3 ==>
        allocs[i].plane == ups[i].plane &&
        ups[i].width <= allocs[i].width && ups[i].height <= allocs[i].height
    ensures |PlaneUploads(color)[0].pixels| <= LumaPlaneBytes(TestYuvWidth, TestYuvHeight)
    ensures |PlaneUploads(color)[1].pixels| <= ChromaPlaneBytes(TestYuvWidth, TestYuvHeight)
    ensures |PlaneUploads(color)[2].pixels| <= ChromaPlaneBytes(TestYuvWidth, TestYuvHeight)
  {
    AlignedExamples();
    ChromaUploadFitsPlane(TestYuvWidth, TestYuvHeight);
  }

  /** Every frame ends with exactly one draw of a 4-vertex strip: the quad spans
      [-0.5, 0.5], the UVs stop at 1920/2049 and 1080/2049, and the projection is the
      orthographic one for the window [-0.5, 0.5]^2 and depth range [0, 0.5]. */
  lemma {:induction false} FrameDrawsOnce(needInit: bool, color: byte, screenW: int, screenH: int, program: nat)
    requires screenW != 0 && screenH != 0
    ensures var calls := FrameCalls(needInit, color, screenW, screenH, program);
      |calls| > 0 &&
      (forall i :: 0 <= i < |calls| - 1 ==> !calls[i].Draw?) &&
      calls[|calls| - 1] == Draw(program,
        [2.0, 0.0, 0.0, 0.0,
         0.0, 2.0, 0.0, 0.0,
         0.0, 0.0, -4.0, 0.0,
         0.0, 0.0, -1.0, 1.0],
        0.0,
        [-0.5, -0.5, 0.5, -0.5, -0.5, 0.5, 0.5, 0.5],
        [0.0, 1080.0 / 2049.0, 1920.0 / 2049.0, 1080.0 / 2049.0, 0.0, 0.0, 1920.0 / 2049.0, 0.0],
        4)
  {
    var calls := FrameCalls(needInit, color, screenW, screenH, program);
    var prefix := (if needInit then TextureAllocations() else []) + PlaneUploads(color);
    assert forall i :: 0 <= i < |prefix| ==> !prefix[i].Draw?;
    assert calls == prefix + [calls[|calls| - 1]];
  }

  /** The renderer's globals. The buffers are either all allocated, at their fixed
      sizes, or all null. */
  class RendererState {
    var yBuffer: array?<byte>
    var uBuffer: array?<byte>
    var vBuffer: array?<byte>
    var program: nat
    var backingWidth: int
    var backingHeight: int
    /** gl_width and gl_height: the padded size, stored in a signed int. */
    var glWidth: int
    var glHeight: int
    var needInit: bool
    var color: byte
    /** Every call made to the driver so far. */
    var log: seq<GlCall>

    ghost predicate Allocated()
      reads this
    {
      yBuffer != null && uBuffer != null && vBuffer != null &&
      yBuffer.Length == LumaPlaneBytes(TestYuvWidth, TestYuvHeight) &&
      uBuffer.Length == ChromaPlaneBytes(TestYuvWidth, TestYuvHeight) &&
      vBuffer.Length == ChromaPlaneBytes(TestYuvWidth, TestYuvHeight) &&
      uBuffer != vBuffer
    }

    ghost predicate Valid()
      reads this
    {
      Allocated() || (yBuffer == null && uBuffer == null && vBuffer == null)
    }

    /** The state before any entry point has run: static storage is zero. */
    constructor ()
      ensures Valid()
      ensures yBuffer == null && uBuffer == null && vBuffer == null
      ensures program == 0 && !needInit && color == 0 && log == []
      ensures backingWidth == 0 && backingHeight == 0 && glWidth == 0 && glHeight == 0
    {
      yBuffer, uBuffer, vBuffer := null, null, null;
      program := 0;
      backingWidth, backingHeight := 0, 0;
      glWidth, glHeight := 0, 0;
      needInit := false;
      color := 0;
      log := [];
    }

    /** setupGraphics. Whether each malloc succeeds and what createProgram returns
        (0 on a compile or link failure) come from the environment. A failed malloc
        frees and nulls all three buffers; a failed program leaves the buffers
        allocated and the flag alone; success records the surface size and sets
        bNeedInit. */
    method SetupGraphics(w: int, h: int, yAllocOk: bool, uAllocOk: bool, vAllocOk: bool, createdProgram: nat)
      returns (ok: bool)
      modifies this
      ensures Valid()
      ensures ok <==> yAllocOk && uAllocOk && vAllocOk && createdProgram != 0
      ensures !(yAllocOk && uAllocOk && vAllocOk) ==>
        yBuffer == null && uBuffer == null && vBuffer == null && program == old(program)
      ensures yAllocOk && uAllocOk && vAllocOk ==>
        Allocated() && fresh(yBuffer) && fresh(uBuffer) && fresh(vBuffer) && program == createdProgram
      ensures ok ==> needInit && backingWidth == w && backingHeight == h
      ensures !ok ==> needInit == old(needInit) && backingWidth == old(backingWidth) && backingHeight == old(backingHeight)
      ensures color == old(color) && log == old(log) && glWidth == old(glWidth) && glHeight == old(glHeight)
    {
      yBuffer := Malloc(LumaPlaneBytes(TestYuvWidth, TestYuvHeight), yAllocOk);
      uBuffer := Malloc(ChromaPlaneBytes(TestYuvWidth, TestYuvHeight), uAllocOk);
      vBuffer := Malloc(ChromaPlaneBytes(TestYuvWidth, TestYuvHeight), vAllocOk);
      if yBuffer == null || uBuffer == null || vBuffer == null {
        // the cleanup path: free and null whatever was allocated
        if yBuffer != null {
          yBuffer := null;
        }
        if uBuffer != null {
          uBuffer := null;
        }
        if vBuffer != null {
          vBuffer := null;
        }
        return false;
      }

      program := createdProgram;
      if program == 0 {
        return false;
      }
      backingWidth := w;
      backingHeight := h;
      needInit := true;
      return true;
    }

    /** The head of renderFrame: pad the source size to powers of two and, the first
        time after setup, allocate the three textures at the padded size (chroma at
        half) and clear bNeedInit. */
    method InitTexturesIfNeeded()
      modifies this
      ensures !needInit
      ensures glWidth == UnsignedToInt(Aligned(TestYuvWidth)) && glHeight == UnsignedToInt(Aligned(TestYuvHeight))
      ensures glWidth == Aligned(TestYuvWidth) && glHeight == Aligned(TestYuvHeight)
      ensures log == old(log) + (if old(needInit) then TextureAllocations() else [])
      ensures yBuffer == old(yBuffer) && uBuffer == old(uBuffer) && vBuffer == old(vBuffer)
      ensures program == old(program) && color == old(color)
      ensures backingWidth == old(backingWidth) && backingHeight == old(backingHeight)
    {
      var gw := AlignOnPowerOf2(TestYuvWidth);
      var gh := AlignOnPowerOf2(TestYuvHeight);
      AlignedExamples();
      glWidth, glHeight := UnsignedToInt(gw), UnsignedToInt(gh);
      if needInit {
        log := log + [TexImage(Y, glWidth, glHeight),
                      TexImage(U, ChromaTextureSize(glWidth), ChromaTextureSize(glHeight)),
                      TexImage(V, ChromaTextureSize(glWidth), ChromaTextureSize(glHeight))];
        needInit := false;
      }
    }

    /** The synthetic frame source: memset all three planes to the static colour,
        then advance the colour, wrapping at 256. */
    method RegeneratePlanes()
      requires Allocated()
      modifies this`color, yBuffer, uBuffer, vBuffer
      ensures color == NextColor(old(color))
      ensures yBuffer[..] == Flat(yBuffer.Length, old(color))
      ensures uBuffer[..] == Flat(uBuffer.Length, old(color))
      ensures vBuffer[..] == Flat(vBuffer.Length, old(color))
    {
      Fill(yBuffer, LumaPlaneBytes(TestYuvWidth, TestYuvHeight), color);
      Fill(uBuffer, ChromaPlaneBytes(TestYuvWidth, TestYuvHeight), color);
      Fill(vBuffer, ChromaPlaneBytes(TestYuvWidth, TestYuvHeight), color);
      color := NextColor(color);
      assert yBuffer[..] == yBuffer[..yBuffer.Length];
      assert uBuffer[..] == uBuffer[..uBuffer.Length];
      assert vBuffer[..] == vBuffer[..vBuffer.Length];
    }

    /** renderFrame: pads the source size, allocates the textures if bNeedInit is set
        (and clears it), fills all three planes with the current colour and advances
        it, uploads the planes and draws the quad. */
    method RenderFrame()
      requires Allocated()
      requires backingWidth != 0 && backingHeight != 0
      modifies this, yBuffer, uBuffer, vBuffer
      ensures Valid() && Allocated()
      ensures yBuffer == old(yBuffer) && uBuffer == old(uBuffer) && vBuffer == old(vBuffer)
      ensures program == old(program) && backingWidth == old(backingWidth) && backingHeight == old(backingHeight)
      ensures !needInit
      ensures color == NextColor(old(color))
      ensures yBuffer[..] == Flat(yBuffer.Length, old(color))
      ensures uBuffer[..] == Flat(uBuffer.Length, old(color))
      ensures vBuffer[..] == Flat(vBuffer.Length, old(color))
      ensures glWidth == UnsignedToInt(Aligned(TestYuvWidth)) && glHeight == UnsignedToInt(Aligned(TestYuvHeight))
      ensures log == old(log) + FrameCalls(old(needInit), old(color), backingWidth, backingHeight, program)
    {
      InitTexturesIfNeeded();
      RegeneratePlanes();
      var uploads := UploadPlanes(yBuffer, uBuffer, vBuffer);
      log := log + uploads;

      var draw := DrawQuad(program, backingWidth, backingHeight, glWidth, glHeight);
      log := log + [draw];
    }
  }

  /** The three glTexSubImage2D calls of a frame, reading the unpadded sub-images from
      the start of the plane buffers. */
  method UploadPlanes(yPlane: array<byte>, uPlane: array<byte>, vPlane: array<byte>)
    returns (calls: seq<GlCall>)
    requires yPlane.Length == LumaPlaneBytes(TestYuvWidth, TestYuvHeight)
    requires uPlane.Length == ChromaPlaneBytes(TestYuvWidth, TestYuvHeight)
    requires vPlane.Length == ChromaPlaneBytes(TestYuvWidth, TestYuvHeight)
    ensures calls == SubImageUploads(yPlane[..], uPlane[..], vPlane[..])
  {
    var cw, ch := ChromaUploadWidth(TestYuvWidth), ChromaUploadHeight(TestYuvHeight);
    ChromaUploadFitsPlane(TestYuvWidth, TestYuvHeight);
    calls := [TexSubImage(Y, TestYuvWidth, TestYuvHeight, yPlane[..TestYuvWidth * TestYuvHeight]),
              TexSubImage(U, cw, ch, uPlane[..cw * ch]),
              TexSubImage(V, cw, ch, vPlane[..cw * ch])];
  }

  /** The geometry and uniforms of the frame's single draw call: the quad from the
      surface size, the UVs from the padded size, the zoom window clamped against the
      quad and its orthographic matrix, built in a local 16-float array. */
  method DrawQuad(program: nat, screenW: int, screenH: int, glWidth: int, glHeight: int)
    returns (call: GlCall)
    requires screenW != 0 && screenH != 0
    requires glWidth == Aligned(TestYuvWidth) && glHeight == Aligned(TestYuvHeight)
    ensures call == Draw(program, FrameProjection(screenW, screenH), Rotation, FrameQuad(screenW, screenH), FrameUvs(), 4)
  {
    var uRight := UvExtent(TestYuvWidth, glWidth);
    var vTop := UvExtent(TestYuvHeight, glHeight);
    var uvs := SquareUvs(0.0, uRight, 0.0, vTop);

    var x := PixelPosition(XPos, screenW);
    var y := PixelPosition(YPos, screenH);
    var quad := QuadVertices(x, y, screenW, screenH, screenW, screenH);

    var vpDim := VpDim(ZoomFactor);
    var cx := ClampCenter(ZoomCx, vpDim, quad[0], quad[2]);
    var cy := ClampCenter(ZoomCy, vpDim, quad[1], quad[7]);
    var mat := new real[16];
    LoadOrthographicMatrix(cx - vpDim, cx + vpDim, cy - vpDim, cy + vpDim, Near, Far, mat);
    assert mat[..] == mat[..16];

    call := Draw(program, mat[..], Rotation, quad, uvs, 4);
  }
}
