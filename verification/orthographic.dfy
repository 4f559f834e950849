/** load_orthographic_matrix: a column-major 4x4 orthographic projection, written into
    a caller-supplied float array. Floats are modelled as reals. */
module Orthographic {

  /** The sixteen entries, column by column: a diagonal scale, a translation in the
      last column, and zeros elsewhere. The code divides by right - left, top - bottom
      and far - near without checking them. */
  function OrthographicMatrix(left: real, right: real, bottom: real, top: real, near: real, far: real): (m: seq<real>)
    requires right != left && top != bottom && far != near
    ensures |m| == 16
    ensures forall i :: 0 <= i < 12 && i != 0 && i != 5 && i != 10 ==> m[i] == 0.0
    ensures m[15] == 1.0
    ensures m[0] * (right - left) == 2.0 && m[5] * (top - bottom) == 2.0 && m[10] * (far - near) == -2.0
    ensures m[12] * (right - left) == -(right + left) && m[13] * (top - bottom) == -(top + bottom)
    ensures m[14] * (far - near) == -(far + near)
  {
    [2.0 / (right - left), 0.0, 0.0, 0.0,
     0.0, 2.0 / (top - bottom), 0.0, 0.0,
     0.0, 0.0, -2.0 / (far - near), 0.0,
     -(right + left) / (right - left), -(top + bottom) / (top - bottom), -(far + near) / (far - near), 1.0]
  }

  /** Row `row` of the product of a column-major matrix with a column vector. */
  function Transform(m: seq<real>, v: seq<real>, row: nat): real
    requires |m| == 16 && |v| == 4 && row < 4
  {
    m[row] * v[0] + m[4 + row] * v[1] + m[8 + row] * v[2] + m[12 + row] * v[3]
  }

  /** The defining property of the projection: the corner (left, bottom, -near) of the
      view box goes to (-1, -1, -1) and the corner (right, top, -far) to (1, 1, 1),
      with w kept at 1. */
  lemma {:induction false} OrthographicMapsBoxToCube(left: real, right: real, bottom: real, top: real, near: real, far: real)
    requires right != left && top != bottom && far != near
    ensures var m := OrthographicMatrix(left, right, bottom, top, near, far);
      Transform(m, [left, bottom, -near, 1.0], 0) == -1.0 &&
      Transform(m, [left, bottom, -near, 1.0], 1) == -1.0 &&
      Transform(m, [left, bottom, -near, 1.0], 2) == -1.0 &&
      Transform(m, [left, bottom, -near, 1.0], 3) == 1.0 &&
      Transform(m, [right, top, -far, 1.0], 0) == 1.0 &&
      Transform(m, [right, top, -far, 1.0], 1) == 1.0 &&
      Transform(m, [right, top, -far, 1.0], 2) == 1.0 &&
      Transform(m, [right, top, -far, 1.0], 3) == 1.0
  {
    var m := OrthographicMatrix(left, right, bottom, top, near, far);
    AxisToUnit(left, right, m[0], m[12]);
    AxisToUnit(bottom, top, m[5], m[13]);
    DepthToUnit(near, far, m[10], m[14]);
  }

  /** One screen axis: scale 2/(hi-lo) and shift -(hi+lo)/(hi-lo) send lo to -1 and
      hi to 1. */
  lemma {:induction false} AxisToUnit(lo: real, hi: real, scale: real, shift: real)
    requires hi != lo
    requires scale == 2.0 / (hi - lo) && shift == -(hi + lo) / (hi - lo)
    ensures scale * lo + shift == -1.0 && scale * hi + shift == 1.0
  {
    var d := hi - lo;
    assert scale * d == 2.0;
    assert shift * d == -(hi + lo);
    Cancel(scale * lo + shift, d, -1.0);
    Cancel(scale * hi + shift, d, 1.0);
  }

  /** The depth axis: scale -2/(far-near) and shift -(far+near)/(far-near) send the
      eye-space depth -near to -1 and -far to 1. */
  lemma {:induction false} DepthToUnit(near: real, far: real, scale: real, shift: real)
    requires far != near
    requires scale == -2.0 / (far - near) && shift == -(far + near) / (far - near)
    ensures scale * -near + shift == -1.0 && scale * -far + shift == 1.0
  {
    var d := far - near;
    assert scale * d == -2.0;
    assert shift * d == -(far + near);
    Cancel(scale * -near + shift, d, -1.0);
    Cancel(scale * -far + shift, d, 1.0);
  }

  lemma {:induction false} Cancel(x: real, d: real, c: real)
    requires d != 0.0 && x * d == c * d
    ensures x == c
  {
    assert (x - c) * d == 0.0;
  }

  /** For a box symmetric about the origin in x and y the translations vanish and the
      scales are 1/d. */
  lemma {:induction false} OrthographicSymmetric(d: real, near: real, far: real)
    requires d != 0.0 && far != near
    ensures var m := OrthographicMatrix(-d, d, -d, d, near, far);
      m[12] == 0.0 && m[13] == 0.0 && m[0] == 1.0 / d && m[5] == 1.0 / d
  {
  }

  /** load_orthographic_matrix: writes the sixteen entries into mat[0..15] and nothing
      else. */
  method LoadOrthographicMatrix(left: real, right: real, bottom: real, top: real, near: real, far: real, mat: array<real>)
    requires right != left && top != bottom && far != near
    requires mat.Length >= 16
    modifies mat
    ensures mat[..16] == OrthographicMatrix(left, right, bottom, top, near, far)
    ensures mat[16..] == old(mat[16..])
  {
    var rl := right - left;
    var tb := top - bottom;
    var fn := far - near;
    var tx := -(right + left) / (right - left);
    var ty := -(top + bottom) / (top - bottom);
    var tz := -(far + near) / (far - near);

    mat[0] := 2.0 / rl;
    mat[1], mat[2], mat[3] := 0.0, 0.0, 0.0;

    mat[4] := 0.0;
    mat[5] := 2.0 / tb;
    mat[6], mat[7] := 0.0, 0.0;

    mat[8], mat[9] := 0.0, 0.0;
    mat[10] := -2.0 / fn;
    mat[11] := 0.0;

    mat[12] := tx;
    mat[13] := ty;
    mat[14] := tz;
    mat[15] := 1.0;
    assert mat[..16] == [2.0 / rl, 0.0, 0.0, 0.0, 0.0, 2.0 / tb, 0.0, 0.0,
                         0.0, 0.0, -2.0 / fn, 0.0, tx, ty, tz, 1.0];
  }
}
