/** Sizes of the CPU planes, the GPU textures and the uploaded sub-images, and the
    UV extent that crops the padding away. */
module TextureLayout {
  import opened PowerOfTwo

  /** Bytes malloc'd for the Y plane: one byte per pixel, so a non-empty plane holds
      at least a full row and a full column. */
  function LumaPlaneBytes(width: nat, height: nat): (b: nat)
    ensures 0 < height ==> width <= b
    ensures 0 < width ==> height <= b
  {
    RowAndColumnFit(width, height);
    width * height
  }

  lemma {:induction false} RowAndColumnFit(width: nat, height: nat)
    ensures 0 < height ==> width <= width * height
    ensures 0 < width ==> height <= width * height
  {
    if 0 < height {
      MulMonotone(width, width, 1, height);
    }
    if 0 < width {
      MulMonotone(1, width, height, height);
    }
  }

  /** Bytes malloc'd for each of the U and V planes: a quarter of the luma plane,
      rounded down. */
  function ChromaPlaneBytes(width: nat, height: nat): (b: nat)
    ensures 4 * b <= LumaPlaneBytes(width, height) < 4 * b + 4
  {
    width * height / 4
  }

  /** A chroma texture dimension: the padded luma dimension shifted right by one, so
      half of a power of two is the next smaller power. */
  function ChromaTextureSize(paddedLuma: nat): (s: nat)
    ensures 2 * s <= paddedLuma < 2 * s + 2
    ensures forall k: nat :: 0 < k && paddedLuma == Pow2(k) ==> s == Pow2(k - 1)
  {
    paddedLuma / 2
  }

  /** Width of the chroma sub-image uploaded with glTexSubImage2D (`W/2`): half the
      width, rounded down. */
  function ChromaUploadWidth(width: nat): (c: nat)
    ensures 2 * c <= width < 2 * c + 2
  {
    width / 2
  }

  /** Height of the chroma sub-image uploaded with glTexSubImage2D (`H >> 1`): for a
      non-negative height the shift is halving, rounded down. */
  function ChromaUploadHeight(height: nat): (c: nat)
    ensures 2 * c <= height < 2 * c + 2
  {
    height / 2
  }

  /** The chroma sub-image of (W/2) x (H>>1) bytes never reads past the end of a
      chroma plane of W*H/4 bytes, and for even dimensions it is the whole plane. */
  lemma {:induction false} ChromaUploadFitsPlane(width: nat, height: nat)
    ensures ChromaUploadWidth(width) * ChromaUploadHeight(height) <= ChromaPlaneBytes(width, height)
    ensures width % 2 == 0 && height % 2 == 0 ==>
      ChromaUploadWidth(width) * ChromaUploadHeight(height) == ChromaPlaneBytes(width, height)
  {
    var w2, h2 := width / 2, height / 2;
    assert 2 * w2 <= width && 2 * h2 <= height;
    MulMonotone(2 * w2, width, 2 * h2, height);
    assert (2 * w2) * (2 * h2) == 4 * (w2 * h2);
    assert 4 * (w2 * h2) <= width * height;
    DivFloorBound(w2 * h2, width * height);
    if width % 2 == 0 && height % 2 == 0 {
      assert width * height == 4 * (w2 * h2);
    }
  }

  lemma {:induction false} MulMonotone(a: nat, b: nat, c: nat, d: nat)
    requires a <= b && c <= d
    ensures a * c <= b * d
  {
    assert a * c <= b * c;
    assert b * c <= b * d;
  }

  lemma {:induction false} DivFloorBound(q: nat, n: nat)
    requires 4 * q <= n
    ensures q <= n / 4
  {
  }

  /** Both textures are large enough for what is uploaded into them: the luma texture
      of padded size holds the W x H image, and the chroma texture of half the padded
      size holds the (W/2) x (H>>1) image. Both texture sizes are powers of two
      (the chroma one once the padded size is at least 2). */
  lemma {:induction false} UploadFitsTexture(size: uint32)
    requires 0 < size <= Pow2(31)
    ensures size <= Aligned(size)
    ensures ChromaUploadWidth(size) <= ChromaTextureSize(Aligned(size))
    ensures ChromaUploadHeight(size) <= ChromaTextureSize(Aligned(size))
    ensures IsPowerOfTwo(Aligned(size))
    ensures size > 1 ==> IsPowerOfTwo(ChromaTextureSize(Aligned(size)))
  {
    AlignedBounds(size);
    AlignedIsPowerOfTwo(size);
    var k := AlignFromScan(size, 0);
    if size > 1 {
      assert k > 0;
      assert ChromaTextureSize(Aligned(size)) == Pow2(k - 1);
    }
  }

  /** The UV coordinate of the right (or top) edge of the quad: the image size over the
      padded size plus one. */
  function UvExtent(size: nat, padded: nat): (e: real)
    ensures e >= 0.0
    ensures size <= padded ==> e < 1.0
  {
    size as real / (padded + 1) as real
  }

  /** The sampled crop lies inside the uploaded image and loses less than one texel:
      in texel units the edge sits strictly between size - 1 and size. */
  lemma {:induction false} UvExtentCropsPadding(size: nat, padded: nat)
    requires 0 < size <= padded
    ensures (size - 1) as real < UvExtent(size, padded) * padded as real < size as real
  {
    var e := UvExtent(size, padded);
    var n := (padded + 1) as real;
    assert e * n == size as real;
    assert e * padded as real == size as real - e;
    assert 0.0 < e < 1.0;
  }

  /** With the padding of align_on_power_of_2 the image fills more than half of the
      texture on each axis: 1/2 <= extent < 1. */
  lemma {:induction false} UvExtentOfAligned(size: uint32)
    requires 0 < size <= Pow2(31)
    ensures 0.5 <= UvExtent(size, Aligned(size)) < 1.0
  {
    AlignedBounds(size);
    RatioAtLeastHalf(size as real, (Aligned(size) + 1) as real);
  }

  lemma {:induction false} RatioAtLeastHalf(s: real, n: real)
    requires 0.0 < s && 0.0 < n <= 2.0 * s
    ensures s / n >= 0.5
  {
    var e := s / n;
    assert e * n == s;
    if e < 0.5 {
      assert e * n < 0.5 * n;
    }
  }

  /** The renderer's UV extents for its 1920 x 1080 source: 1920/2049 and 1080/2049. */
  lemma {:induction false} UvExtentExamples()
    ensures UvExtent(1920, Aligned(1920)) == 1920.0 / 2049.0
    ensures UvExtent(1080, Aligned(1080)) == 1080.0 / 2049.0
  {
    AlignedExamples();
  }
}
