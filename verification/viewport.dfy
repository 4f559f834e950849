/** The per-frame geometry of renderFrame: the vertex quad for the surface, its
    texture coordinates, and the zoom crop window clamped inside the quad.
    Floats are modelled as reals; rounding is not modelled. */
module Viewport {

  /** VP_SIZE: the extent of the crop window at zoom factor 1. */
  const VpSize: real := 1.0

  /** The C conversion of a float to an int: truncation toward zero. */
  function TruncateToInt(r: real): (t: int)
    ensures r >= 0.0 ==> 0 <= t && t as real <= r < t as real + 1.0
    ensures r < 0.0 ==> t <= 0 && t as real - 1.0 < r <= t as real
  {
    if r >= 0.0 then r.Floor else -((-r).Floor)
  }

  /** `x = xpos * screenW`: a logical position in surface units turned into pixels. */
  function PixelPosition(pos: real, screen: int): (p: int)
    ensures pos == 0.0 ==> p == 0
  {
    TruncateToInt(pos * screen as real)
  }

  /** The eight coordinates of the quad, in triangle-strip order: (left, bottom),
      (right, bottom), (left, top), (right, top), where the quad of w x h pixels is
      centred on (x, y) and divided by the surface size. */
  function QuadVertices(x: int, y: int, w: int, h: int, screenW: int, screenH: int): (q: seq<real>)
    requires screenW != 0 && screenH != 0
    ensures |q| == 8
    ensures q[0] == q[4] && q[2] == q[6] && q[1] == q[3] && q[5] == q[7]
    ensures q[2] - q[0] == w as real / screenW as real
    ensures q[5] - q[1] == h as real / screenH as real
    ensures q[0] + q[2] == 2.0 * x as real / screenW as real
    ensures q[1] + q[5] == 2.0 * y as real / screenH as real
  {
    var sw, sh := screenW as real, screenH as real;
    var left := (x as real - w as real * 0.5) / sw - 0.0;
    var right := (x as real + w as real * 0.5) / sw - 0.0;
    var bottom := (y as real - h as real * 0.5) / sh - 0.0;
    var top := (y as real + h as real * 0.5) / sh - 0.0;
    assert right - left == w as real / sw by {
      assert (x as real + w as real * 0.5) - (x as real - w as real * 0.5) == w as real;
    }
    assert top - bottom == h as real / sh by {
      assert (y as real + h as real * 0.5) - (y as real - h as real * 0.5) == h as real;
    }
    assert left + right == 2.0 * x as real / sw by {
      assert (x as real - w as real * 0.5) + (x as real + w as real * 0.5) == 2.0 * x as real;
    }
    assert bottom + top == 2.0 * y as real / sh by {
      assert (y as real - h as real * 0.5) + (y as real + h as real * 0.5) == 2.0 * y as real;
    }
    [left, bottom, right, bottom, left, top, right, top]
  }

  /** The quad drawn by renderFrame (position 0, size of the whole surface) spans
      [-0.5, 0.5] on both axes, whatever the surface size. */
  lemma {:induction false} FullSurfaceQuad(screenW: int, screenH: int)
    requires screenW != 0 && screenH != 0
    ensures QuadVertices(0, 0, screenW, screenH, screenW, screenH)
         == [-0.5, -0.5, 0.5, -0.5, -0.5, 0.5, 0.5, 0.5]
  {
    var q := QuadVertices(0, 0, screenW, screenH, screenW, screenH);
    assert q[2] - q[0] == 1.0 && q[0] + q[2] == 0.0;
    assert q[5] - q[1] == 1.0 && q[1] + q[5] == 0.0;
  }

  /** The texture coordinates of the four strip vertices. They pair up like the
      corners of QuadVertices (vertices 0 and 2 share u, 0 and 1 share v), with the
      image flipped vertically: the bottom vertices 0 and 1 take vTop. */
  function SquareUvs(uLeft: real, uRight: real, vBottom: real, vTop: real): (uv: seq<real>)
    ensures |uv| == 8
    ensures uv[0] == uv[4] == uLeft && uv[2] == uv[6] == uRight
    ensures uv[1] == uv[3] == vTop && uv[5] == uv[7] == vBottom
  {
    [uLeft, vTop,
     uRight, vTop,
     uLeft, vBottom,
     uRight, vBottom]
  }

  /** Each vertex takes the left texture column exactly when it is on the quad's left
      edge, and the last uploaded row (vTop) exactly when it is on the quad's bottom
      edge: the first image row, uploaded at v = 0, is shown at the top. */
  lemma {:induction false} UvsMapImageUpright(x: int, y: int, w: int, h: int, screenW: int, screenH: int,
                           uRight: real, vTop: real, i: nat)
    requires screenW != 0 && screenH != 0 && w != 0 && h != 0
    requires uRight != 0.0 && vTop != 0.0
    requires i < 4
    ensures var q, uv := QuadVertices(x, y, w, h, screenW, screenH), SquareUvs(0.0, uRight, 0.0, vTop);
      (uv[2 * i] == 0.0 <==> q[2 * i] == q[0]) &&
      (uv[2 * i + 1] == vTop <==> q[2 * i + 1] == q[1])
  {
    var q := QuadVertices(x, y, w, h, screenW, screenH);
    assert q[2] != q[0] && q[5] != q[1];
  }

  /** vpDim: half the crop window's extent, VP_SIZE / zoom / 2. */
  function VpDim(zoom: real): (d: real)
    requires zoom > 0.0
    ensures d > 0.0
    ensures 2.0 * d * zoom == VpSize
  {
    (VpSize * (1.0 / zoom)) / 2.0
  }

  /** ENSURE_RANGE_A_INSIDE_RANGE_B: the centre a of a window of half-size aSize is
      snapped to 0 when the window is at least as wide as [bMin, bMax], and otherwise
      shifted by exactly the overflow so that the window lies inside [bMin, bMax]. */
  function ClampCenter(a: real, aSize: real, bMin: real, bMax: real): (r: real)
    ensures 2.0 * aSize >= bMax - bMin ==> r == 0.0
    ensures 2.0 * aSize < bMax - bMin ==> bMin <= r - aSize && r + aSize <= bMax
    ensures 2.0 * aSize < bMax - bMin && bMin <= a - aSize && a + aSize <= bMax ==> r == a
  {
    if 2.0 * aSize >= bMax - bMin then 0.0
    else if a - aSize < bMin || a + aSize > bMax then
      var diff := if a - aSize < bMin then bMin - (a - aSize) else bMax - (a + aSize);
      a + diff
    else a
  }

  /** Clamping an already clamped centre leaves it where it is. */
  lemma {:induction false} ClampIdempotent(a: real, aSize: real, bMin: real, bMax: real)
    ensures var r := ClampCenter(a, aSize, bMin, bMax);
      ClampCenter(r, aSize, bMin, bMax) == r
  {
  }

  /** When the window fits, the clamp moves the centre no further than any other centre
      that keeps the window inside [bMin, bMax]: it is the nearest admissible centre. */
  lemma {:induction false} ClampMovesLeast(a: real, aSize: real, bMin: real, bMax: real, other: real)
    requires 2.0 * aSize < bMax - bMin
    requires bMin <= other - aSize && other + aSize <= bMax
    ensures var r := ClampCenter(a, aSize, bMin, bMax);
      (if r >= a then r - a else a - r) <= (if other >= a then other - a else a - other)
  {
  }

  /** The crop window handed to the orthographic projection. */
  datatype Window = Window(left: real, right: real, bottom: real, top: real)

  /** The crop window for a zoom factor and a requested centre, each axis clamped
      against the quad's own extent (quad[0]..quad[2] across, quad[1]..quad[7] up). */
  function CropWindow(zoom: real, cx: real, cy: real, quad: seq<real>): (win: Window)
    requires zoom > 0.0 && |quad| == 8
    ensures win.right - win.left == VpSize / zoom && win.top - win.bottom == VpSize / zoom
    ensures win.right != win.left && win.top != win.bottom
    ensures VpSize / zoom < quad[2] - quad[0] ==> quad[0] <= win.left && win.right <= quad[2]
    ensures VpSize / zoom >= quad[2] - quad[0] ==> win.left + win.right == 0.0
    ensures VpSize / zoom < quad[7] - quad[1] ==> quad[1] <= win.bottom && win.top <= quad[7]
    ensures VpSize / zoom >= quad[7] - quad[1] ==> win.bottom + win.top == 0.0
  {
    var d := VpDim(zoom);
    assert 2.0 * d == VpSize / zoom;
    var x := ClampCenter(cx, d, quad[0], quad[2]);
    var y := ClampCenter(cy, d, quad[1], quad[7]);
    Window(x - d, x + d, y - d, y + d)
  }

  /** At the hardcoded zoom factor 1 the crop window is as large as the full-surface
      quad, so both centres snap to 0 and the window is [-0.5, 0.5] on both axes,
      whatever centre was asked for. */
  lemma {:induction false} DefaultZoomWindow(cx: real, cy: real, screenW: int, screenH: int)
    requires screenW != 0 && screenH != 0
    ensures VpDim(1.0) == 0.5
    ensures CropWindow(1.0, cx, cy, QuadVertices(0, 0, screenW, screenH, screenW, screenH))
         == Window(-0.5, 0.5, -0.5, 0.5)
  {
    FullSurfaceQuad(screenW, screenH);
  }
}
