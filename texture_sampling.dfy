/**
 * sampleTextureAtUV (renderer.cpp): a nearest-pixel lookup with C++ integer semantics.
 * The UV is scaled by the texture size, truncated toward zero, reduced with C++'s
 * truncating `%` and clamped into the texture; a missing texture, an empty buffer, an
 * out-of-range byte index or fewer than three channels all give opaque white.
 */
module TextureSampling {
  import opened Glm
  import opened Utils

  /** static_cast<int> of a float: truncation toward zero. */
  function Trunc(r: real): (t: int)
    ensures r >= 0.0 ==> t >= 0 && t as real <= r < t as real + 1.0
    ensures r < 0.0 ==> t <= 0 && t as real - 1.0 < r <= t as real
  {
    if r >= 0.0 then r.Floor else -((-r).Floor)
  }

  function IntAbs(a: int): nat { if a < 0 then -a else a }
  function IntMin(a: int, b: int): int { if b < a then b else a }
  function IntMax(a: int, b: int): int { if a < b then b else a }

  /** C++ `a % b` on int: the remainder has the sign of the dividend and |r| < |b|. */
  function CRem(a: int, b: int): (r: int)
    requires b != 0
    ensures a >= 0 ==> 0 <= r < IntAbs(b)
    ensures a < 0 ==> r <= 0 && -r < IntAbs(b)
    ensures IntAbs(r) == IntAbs(a) % IntAbs(b)
  {
    if a >= 0 then a % IntAbs(b) else -((-a) % IntAbs(b))
  }

  /** One pixel coordinate: static_cast<int>(coord * size) % size, then clamped to [0, size - 1]. */
  function PixelCoord(coord: real, size: int): (p: int)
    requires size > 0
    ensures 0 <= p <= size - 1
  {
    var wrapped := CRem(Trunc(coord * (size as real)), size);
    IntMax(0, IntMin(wrapped, size - 1))
  }

  /** A byte read as a colour channel: byte / 255. */
  function Channel(b: Byte): (c: real)
    ensures 0.0 <= c <= 1.0
  {
    (b as real) / 255.0
  }

  /** The first byte of pixel (x, y) in a row-major buffer of `channels` bytes per pixel. */
  function PixelIndex(t: TextureInfo, x: int, y: int): int {
    (y * t.width + x) * t.channels
  }

  /** Pixel coordinates inside the texture give a byte index that is not negative. */
  lemma PixelIndexNonNegative(t: TextureInfo, x: int, y: int)
    requires 0 <= x && 0 <= y && 0 <= t.width
    ensures 0 <= PixelIndex(t, x, y)
  {
    var row := y * t.width;
    assert 0 <= row;
    assert 0 <= (row + x) * t.channels;
  }

  /** sampleTextureAtUV. */
  function SampleTextureAtUV(t: TextureInfo, uv: Vec2): (c: Vec4)
    requires t.WellFormed()
    ensures 0.0 <= c.x <= 1.0 && 0.0 <= c.y <= 1.0 && 0.0 <= c.z <= 1.0 && 0.0 <= c.w <= 1.0
  {
    if t.path == EMPTY_TEXTURE then White4
    else if t.texture == [] then White4
    else
      var x := PixelCoord(uv.x, t.width);
      var y := PixelCoord(uv.y, t.height);
      var index := PixelIndex(t, x, y);
      PixelIndexNonNegative(t, x, y);
      if index + t.channels <= |t.texture| && t.channels >= 3 then
        Vec4(
          Channel(t.texture[index]),
          Channel(t.texture[index + 1]),
          Channel(t.texture[index + 2]),
          if t.channels >= 4 then Channel(t.texture[index + 3]) else 1.0)
      else White4
  }

  /** No texture, or no pixels, samples as opaque white whatever the UV. */
  lemma MissingTextureIsWhite(t: TextureInfo, uv: Vec2)
    requires t.path == EMPTY_TEXTURE || t.texture == []
    ensures SampleTextureAtUV(t, uv) == White4
  {
  }

  /** The default texture slot samples as opaque white. */
  lemma DefaultTextureIsWhite(uv: Vec2)
    ensures SampleTextureAtUV(DefaultTextureInfo(), uv) == White4
  {
  }

  /** A non-negative coordinate repeats: the remainder is the usual non-negative one. */
  lemma NonNegativeCoordWraps(coord: real, size: int)
    requires size > 0 && coord >= 0.0
    ensures PixelCoord(coord, size) == (coord * (size as real)).Floor % size
  {
    var scaled := coord * (size as real);
    assert scaled >= 0.0;
    var t := Trunc(scaled);
    assert t == scaled.Floor;
    assert IntAbs(size) == size;
    var wrapped := CRem(t, size);
    assert wrapped == t % size;
    assert 0 <= wrapped < size;
    assert PixelCoord(coord, size) == IntMax(0, IntMin(wrapped, size - 1));
  }

  /** A negative coordinate truncates toward zero, leaves a non-positive remainder and clamps to 0. */
  lemma NegativeCoordClampsToZero(coord: real, size: int)
    requires size > 0 && coord < 0.0
    ensures PixelCoord(coord, size) == 0
  {
    assert coord * (size as real) < 0.0;
  }

  /** Where the byte index leaves the buffer, or there are fewer than 3 channels, the result is white. */
  lemma UnreadablePixelIsWhite(t: TextureInfo, uv: Vec2)
    requires t.WellFormed() && t.path != EMPTY_TEXTURE && t.texture != []
    requires var index := PixelIndex(t, PixelCoord(uv.x, t.width), PixelCoord(uv.y, t.height));
      index + t.channels > |t.texture| || t.channels < 3
    ensures SampleTextureAtUV(t, uv) == White4
  {
  }

  /**
   * A readable pixel gives its first three bytes over 255 as RGB, and its fourth byte as
   * alpha when there are at least four channels, opaque otherwise.
   */
  lemma ReadablePixelDecodes(t: TextureInfo, uv: Vec2)
    requires t.WellFormed() && t.path != EMPTY_TEXTURE && t.texture != []
    requires var index := PixelIndex(t, PixelCoord(uv.x, t.width), PixelCoord(uv.y, t.height));
      index + t.channels <= |t.texture| && t.channels >= 3
    ensures var index := PixelIndex(t, PixelCoord(uv.x, t.width), PixelCoord(uv.y, t.height));
      var c := SampleTextureAtUV(t, uv);
      && 0 <= index && index + 2 < |t.texture|
      && c.x * 255.0 == t.texture[index] as real
      && c.y * 255.0 == t.texture[index + 1] as real
      && c.z * 255.0 == t.texture[index + 2] as real
      && (t.channels == 3 ==> c.w == 1.0)
      && (t.channels >= 4 ==> index + 3 < |t.texture| && c.w * 255.0 == t.texture[index + 3] as real)
  {
    PixelIndexNonNegative(t, PixelCoord(uv.x, t.width), PixelCoord(uv.y, t.height));
  }

  /** A 2x2 RGB checkerboard: black at pixels (0,0) and (1,1), white at (1,0) and (0,1). */
  const Checkerboard := TextureInfo("checker", 0,
    [0, 0, 0, 255, 255, 255,
     255, 255, 255, 0, 0, 0], 2, 2, 3)

  lemma CheckerboardCoords()
    ensures PixelCoord(0.25, 2) == 0 && PixelCoord(0.75, 2) == 1 && PixelCoord(-0.25, 2) == 0
  {
    assert Trunc(0.5) == 0;
    assert Trunc(1.5) == 1;
    assert Trunc(-0.5) == 0;
  }

  /** UV (0.25, 0.25) lands on pixel (0,0), which is black. */
  lemma CheckerboardBlackCorner()
    ensures SampleTextureAtUV(Checkerboard, Vec2(0.25, 0.25)) == Vec4(0.0, 0.0, 0.0, 1.0)
  {
    CheckerboardCoords();
    var c := SampleTextureAtUV(Checkerboard, Vec2(0.25, 0.25));
    assert c.x == 0.0 && c.y == 0.0 && c.z == 0.0;
    assert c.w == 1.0;
  }

  /** UV (0.75, 0.25) lands on pixel (1,0), which is white. */
  lemma CheckerboardWhiteNeighbour()
    ensures SampleTextureAtUV(Checkerboard, Vec2(0.75, 0.25)) == White4
  {
    CheckerboardCoords();
    assert PixelIndex(Checkerboard, 1, 0) == 3;
  }

  /** UV (0.75, 0.75) lands on pixel (1,1), black again: the diagonal of a checkerboard matches. */
  lemma CheckerboardDiagonal()
    ensures SampleTextureAtUV(Checkerboard, Vec2(0.75, 0.75)) == Vec4(0.0, 0.0, 0.0, 1.0)
  {
    CheckerboardCoords();
    assert PixelIndex(Checkerboard, 1, 1) == 9;
  }

  /** A negative U clamps to column 0: UV (-0.25, 0.75) reads pixel (0,1), which is white. */
  lemma CheckerboardNegativeU()
    ensures SampleTextureAtUV(Checkerboard, Vec2(-0.25, 0.75)) == White4
  {
    CheckerboardCoords();
    assert PixelIndex(Checkerboard, 0, 1) == 6;
  }
}
