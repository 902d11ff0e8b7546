/**
 * The mip pyramid of AnyTexture: how many levels it has, the extent of each
 * level, the 2×2×2 box-filter sampler that reduces one level to the next,
 * and the loop that fills a whole level from the one before it.
 */
module MipPyramid {
  import opened TexelLayout

  function Max(a: int, b: int): int {
    if a >= b then a else b
  }

  function Min(a: int, b: int): int {
    if a <= b then a else b
  }

  /** `v >> n` on a non-negative Java int: n successive halvings. */
  function Shr(v: nat, n: nat): nat {
    if n == 0 then v else Shr(v, n - 1) / 2
  }

  /** floor(log2 m), by integer halving. */
  function Log2Floor(m: nat): nat
    requires m >= 1
  {
    if m < 2 then 0 else 1 + Log2Floor(m / 2)
  }

  /** Extent of one axis at a mip level: max(1, dim >> level). */
  function MipDim(dim: nat, level: nat): nat {
    Max(1, Shr(dim, level))
  }

  /** Extent of a whole mip level. */
  function LevelDims(base: Dims, level: nat): (m: Dims)
    ensures m.Valid()
  {
    Dims(MipDim(base.width, level), MipDim(base.height, level), MipDim(base.depth, level))
  }

  /**
   * Number of levels: 1 + floor(log2(max(width, height, depth))), so that
   * the largest axis has shrunk to exactly one texel at the last level and
   * would vanish at the next.
   */
  function MipLevelCount(base: Dims): (r: nat)
    requires base.Valid()
    ensures r >= 1
    ensures Shr(Max(base.width, Max(base.height, base.depth)), r - 1) == 1
    ensures Shr(Max(base.width, Max(base.height, base.depth)), r) == 0
  {
    ShrByLog2(Max(base.width, Max(base.height, base.depth)));
    1 + Log2Floor(Max(base.width, Max(base.height, base.depth)))
  }

  // ---------------------------------------------------------------------
  // Shifts and levels
  // ---------------------------------------------------------------------

  /** Halving first and then shifting is the same as shifting one more. */
  lemma {:induction false} ShrSuccessor(v: nat, n: nat)
    ensures Shr(v, n + 1) == Shr(v / 2, n)
  {
    if n > 0 {
      ShrSuccessor(v, n - 1);
    }
  }

  lemma {:induction false} ShrAtMost(v: nat, n: nat)
    ensures Shr(v, n) <= v
  {
    if n > 0 {
      ShrAtMost(v, n - 1);
    }
  }

  lemma {:induction false} ShrMonotone(u: nat, v: nat, n: nat)
    requires u <= v
    ensures Shr(u, n) <= Shr(v, n)
  {
    if n > 0 {
      ShrMonotone(u, v, n - 1);
    }
  }

  /** Shifting m right by floor(log2 m) leaves exactly 1; one more leaves 0. */
  lemma {:induction false} ShrByLog2(m: nat)
    requires m >= 1
    ensures Shr(m, Log2Floor(m)) == 1
    ensures Shr(m, Log2Floor(m) + 1) == 0
  {
    if m >= 2 {
      ShrByLog2(m / 2);
      ShrSuccessor(m, Log2Floor(m / 2));
      ShrSuccessor(m, Log2Floor(m / 2) + 1);
    }
  }

  /** Every mip extent is at least 1, at most the level-0 extent, and does not grow. */
  lemma {:induction false} MipDimBounds(dim: nat, level: nat)
    requires dim >= 1
    ensures 1 <= MipDim(dim, level) <= dim
    ensures MipDim(dim, level + 1) <= MipDim(dim, level)
    ensures MipDim(dim, 0) == dim
  {
    ShrAtMost(dim, level);
  }

  /** Level 0 is the texture itself. */
  lemma LevelZeroIsBase(base: Dims)
    requires base.Valid()
    ensures LevelDims(base, 0) == base
  {
    MipDimBounds(base.width, 0);
    MipDimBounds(base.height, 0);
    MipDimBounds(base.depth, 0);
  }

  /**
   * The chain stops exactly at the first 1×1×1 level: the last level is a
   * single texel, and the level before it (if any) is not.
   */
  lemma LastLevelIsSingleTexel(base: Dims)
    requires base.Valid()
    ensures LevelDims(base, MipLevelCount(base) - 1) == Dims(1, 1, 1)
    ensures MipLevelCount(base) >= 2 ==> LevelDims(base, MipLevelCount(base) - 2) != Dims(1, 1, 1)
  {
    var m := Max(base.width, Max(base.height, base.depth));
    var k := Log2Floor(m);
    ShrByLog2(m);
    ShrMonotone(base.width, m, k);
    ShrMonotone(base.height, m, k);
    ShrMonotone(base.depth, m, k);
    if k >= 1 {
      assert Shr(m, k) == Shr(m, k - 1) / 2;
      assert Shr(m, k - 1) >= 2;
      assert MipDim(m, k - 1) >= 2;
    }
  }

  /** A default 1024×1024×1 texture has 11 levels, the last one 1×1×1. */
  lemma DefaultTextureLevels()
    ensures MipLevelCount(Dims(1024, 1024, 1)) == 11
    ensures LevelDims(Dims(1024, 1024, 1), 10) == Dims(1, 1, 1)
  {
    assert Log2Floor(1) == 0;
    assert Log2Floor(2) == 1;
    assert Log2Floor(4) == 2;
    assert Log2Floor(8) == 3;
    assert Log2Floor(16) == 4;
    assert Log2Floor(32) == 5;
    assert Log2Floor(64) == 6;
    assert Log2Floor(128) == 7;
    assert Log2Floor(256) == 8;
    assert Log2Floor(512) == 9;
    assert Log2Floor(1024) == 10;
    LastLevelIsSingleTexel(Dims(1024, 1024, 1));
  }

  // ---------------------------------------------------------------------
  // The box-filter sampler
  // ---------------------------------------------------------------------

  /**
   * Sample k (0 ≤ k < 8) of the 2×2×2 neighbourhood of (x, y, z) in a level
   * of extent m, visited with the x offset fastest, then y, then z; each
   * coordinate is clamped to the last texel of its axis.
   */
  function SampleAt(m: Dims, mip: seq<real>, x: nat, y: nat, z: nat, k: nat): Rgba
    requires m.Valid() && |mip| == m.Size() && k < 8
  {
    var sx := Min(x + k % 2, m.width - 1);
    var sy := Min(y + k / 2 % 2, m.height - 1);
    var sz := Min(z + k / 4, m.depth - 1);
    TexelIndexInBounds(sx, sy, sz, m);
    ReadTexel(mip, TexelIndex(sx, sy, sz, m.width, m.height))
  }

  /** The accumulator after the first k samples; it starts at the bias. */
  function Accumulated(m: Dims, mip: seq<real>, x: nat, y: nat, z: nat, bias: real, k: nat): Rgba
    requires m.Valid() && |mip| == m.Size() && k <= 8
  {
    if k == 0 then Splat(bias)
    else Accumulated(m, mip, x, y, z, bias, k - 1).Plus(SampleAt(m, mip, x, y, z, k - 1))
  }

  /**
   * Starting the accumulator at the bias instead of at zero adds the bias
   * once to every channel of the running sum.
   */
  lemma {:induction false} AccumulatedBias(m: Dims, mip: seq<real>, x: nat, y: nat, z: nat, bias: real, k: nat)
    requires m.Valid() && |mip| == m.Size() && k <= 8
    ensures Accumulated(m, mip, x, y, z, bias, k) == Accumulated(m, mip, x, y, z, 0.0, k).Plus(Splat(bias))
  {
    if k > 0 {
      AccumulatedBias(m, mip, x, y, z, bias, k - 1);
    }
  }

  /**
   * The sampler's result: the accumulator over all 8 samples, divided by 8.
   * Because the accumulator starts at the bias, this is the mean of the 8
   * clamped samples plus bias / 8 in every channel.
   */
  function BoxSample(m: Dims, mip: seq<real>, x: nat, y: nat, z: nat, bias: real): (r: Rgba)
    requires m.Valid() && |mip| == m.Size()
    ensures r == Accumulated(m, mip, x, y, z, 0.0, 8).Div(8.0).Plus(Splat(bias / 8.0))
  {
    AccumulatedBias(m, mip, x, y, z, bias, 8);
    Accumulated(m, mip, x, y, z, bias, 8).Div(8.0)
  }

  /**
   * sampleMipLevel: visits the 8 clamped neighbours of (x, y, z) in the given
   * level of a texture of extent base, adds each into an accumulator that
   * starts at bias, and divides by the number of samples taken, which is
   * always 8 (clamped duplicates are counted).
   */
  method SampleMipLevel(base: Dims, level: nat, x: nat, y: nat, z: nat, mip: seq<real>, bias: real)
    returns (color: Rgba, samples: nat)
    requires base.Valid() && |mip| == LevelDims(base, level).Size()
    ensures samples == 8
    ensures color == BoxSample(LevelDims(base, level), mip, x, y, z, bias)
  {
    var m := LevelDims(base, level);
    color := Splat(bias);
    samples := 0;
    var offsetZ := 0;
    while offsetZ < 2
      invariant 0 <= offsetZ <= 2
      invariant samples == 4 * offsetZ
      invariant color == Accumulated(m, mip, x, y, z, bias, samples)
    {
      var offsetY := 0;
      while offsetY < 2
        invariant 0 <= offsetY <= 2
        invariant samples == 4 * offsetZ + 2 * offsetY
        invariant color == Accumulated(m, mip, x, y, z, bias, samples)
      {
        var offsetX := 0;
        while offsetX < 2
          invariant 0 <= offsetX <= 2
          invariant samples == 4 * offsetZ + 2 * offsetY + offsetX
          invariant color == Accumulated(m, mip, x, y, z, bias, samples)
        {
          var texel := FetchSample(m, mip, x, y, z, offsetX, offsetY, offsetZ);
          assert Accumulated(m, mip, x, y, z, bias, samples + 1) == color.Plus(texel);
          color := color.Plus(texel);
          samples := samples + 1;
          offsetX := offsetX + 1;
        }
        offsetY := offsetY + 1;
      }
      offsetZ := offsetZ + 1;
    }
    color := color.Div(samples as real);
  }

  /** The body of sampleMipLevel's innermost loop: reads the clamped texel at offset (ox, oy, oz). */
  method FetchSample(m: Dims, mip: seq<real>, x: nat, y: nat, z: nat, ox: nat, oy: nat, oz: nat) returns (texel: Rgba)
    requires m.Valid() && |mip| == m.Size() && ox < 2 && oy < 2 && oz < 2
    ensures texel == SampleAt(m, mip, x, y, z, 4 * oz + 2 * oy + ox)
  {
    var sampleX := Min(x + ox, m.width - 1);
    var sampleY := Min(y + oy, m.height - 1);
    var sampleZ := Min(z + oz, m.depth - 1);
    SampleStep(m, mip, x, y, z, ox, oy, oz);
    var index := TexelIndex(sampleX, sampleY, sampleZ, m.width, m.height) * 4;
    texel := Rgba(mip[index], mip[index + 1], mip[index + 2], mip[index + 3]);
  }

  /** Sample number 4·oz + 2·oy + ox is the clamped texel at offset (ox, oy, oz). */
  lemma SampleStep(m: Dims, mip: seq<real>, x: nat, y: nat, z: nat, ox: nat, oy: nat, oz: nat)
    requires m.Valid() && |mip| == m.Size() && ox < 2 && oy < 2 && oz < 2
    ensures var t := TexelIndex(Min(x + ox, m.width - 1), Min(y + oy, m.height - 1),
                                Min(z + oz, m.depth - 1), m.width, m.height);
            && t * 4 + 3 < |mip|
            && SampleAt(m, mip, x, y, z, 4 * oz + 2 * oy + ox) == ReadTexel(mip, t)
  {
    var k := 4 * oz + 2 * oy + ox;
    assert k % 2 == ox && k / 2 % 2 == oy && k / 4 == oz;
    TexelIndexInBounds(Min(x + ox, m.width - 1), Min(y + oy, m.height - 1), Min(z + oz, m.depth - 1), m);
  }

  /**
   * A sample coordinate of an output texel of level L overshoots level L-1
   * by at most one, so clamping moves it by at most one texel, and that
   * only ever happens on an axis whose level L-1 extent has shrunk to 1.
   */
  lemma SampleCoordinateInRange(dim: nat, level: nat, x: nat, offset: nat)
    requires dim >= 1 && level >= 1 && x < MipDim(dim, level) && offset < 2
    ensures 2 * x + offset <= MipDim(dim, level - 1)
    ensures MipDim(dim, level - 1) >= 2 ==> 2 * x + offset <= MipDim(dim, level - 1) - 1
  {
    var prev := Shr(dim, level - 1);
    assert Shr(dim, level) == prev / 2;
    if MipDim(dim, level - 1) >= 2 {
      assert prev >= 2;
      assert MipDim(dim, level) == prev / 2;
      assert 2 * x + 1 <= 2 * (prev / 2) - 1;
    }
  }

  /** A buffer all of whose texels equal v. */
  ghost predicate Uniform(mip: seq<real>, v: Rgba) {
    forall i :: 0 <= i < |mip| ==> mip[i] == v.Channel(i % 4)
  }

  lemma UniformTexel(mip: seq<real>, v: Rgba, t: nat)
    requires Uniform(mip, v) && t * 4 + 3 < |mip|
    ensures ReadTexel(mip, t) == v
  {
    var i := t * 4;
    assert i % 4 == 0 && (i + 1) % 4 == 1 && (i + 2) % 4 == 2 && (i + 3) % 4 == 3;
    assert mip[i] == v.r && mip[i + 1] == v.g && mip[i + 2] == v.b && mip[i + 3] == v.a;
  }

  /** v added to itself k times. */
  function Repeat(v: Rgba, k: nat): Rgba {
    if k == 0 then Splat(0.0) else Repeat(v, k - 1).Plus(v)
  }

  lemma {:induction false} RepeatScales(v: Rgba, k: nat)
    ensures Repeat(v, k) == v.Scale(k as real)
  {
    if k > 0 {
      RepeatScales(v, k - 1);
      ScaleStep(v, (k - 1) as real);
    }
  }

  /** Adding v once more to n copies of v gives n + 1 copies. */
  lemma ScaleStep(v: Rgba, n: real)
    ensures v.Scale(n).Plus(v) == v.Scale(n + 1.0)
  {
    OneMoreCopy(n, v.r);
    OneMoreCopy(n, v.g);
    OneMoreCopy(n, v.b);
    OneMoreCopy(n, v.a);
  }

  lemma OneMoreCopy(n: real, c: real)
    ensures n * c + c == (n + 1.0) * c
  {
  }

  /** On a uniform level every sample is v. */
  lemma SampleUniform(m: Dims, mip: seq<real>, x: nat, y: nat, z: nat, v: Rgba, k: nat)
    requires m.Valid() && |mip| == m.Size() && k < 8 && Uniform(mip, v)
    ensures SampleAt(m, mip, x, y, z, k) == v
  {
    var ox, oy, oz := k % 2, k / 2 % 2, k / 4;
    assert k == 4 * oz + 2 * oy + ox;
    SampleStep(m, mip, x, y, z, ox, oy, oz);
    var t := TexelIndex(Min(x + ox, m.width - 1), Min(y + oy, m.height - 1), Min(z + oz, m.depth - 1), m.width, m.height);
    UniformTexel(mip, v, t);
  }

  /** On a uniform level every partial sum is the bias plus k copies of v. */
  lemma {:induction false} AccumulatedUniform(m: Dims, mip: seq<real>, x: nat, y: nat, z: nat, bias: real, v: Rgba, k: nat)
    requires m.Valid() && |mip| == m.Size() && k <= 8 && Uniform(mip, v)
    ensures Accumulated(m, mip, x, y, z, bias, k) == Splat(bias).Plus(Repeat(v, k))
  {
    if k > 0 {
      AccumulatedUniform(m, mip, x, y, z, bias, v, k - 1);
      SampleUniform(m, mip, x, y, z, v, k - 1);
    }
  }

  /**
   * Because the accumulator starts at the displacement bias, a level whose
   * texels all equal v reduces to v + bias/8 in every channel, not to v;
   * only with bias 0 does a uniform level reduce to itself.
   */
  lemma BoxSampleUniform(m: Dims, mip: seq<real>, x: nat, y: nat, z: nat, bias: real, v: Rgba)
    requires m.Valid() && |mip| == m.Size() && Uniform(mip, v)
    ensures BoxSample(m, mip, x, y, z, bias)
         == Rgba(v.r + bias / 8.0, v.g + bias / 8.0, v.b + bias / 8.0, v.a + bias / 8.0)
    ensures bias == 0.0 ==> BoxSample(m, mip, x, y, z, bias) == v
  {
    AccumulatedUniform(m, mip, x, y, z, bias, v, 8);
    RepeatScales(v, 8);
  }

  // ---------------------------------------------------------------------
  // Whole levels
  // ---------------------------------------------------------------------

  /** Channel i of level `level`, sampled from level `level - 1` at twice the coordinates. */
  function DownsampledChannel(base: Dims, level: nat, prev: seq<real>, bias: real, i: nat): real
    requires base.Valid() && level >= 1 && |prev| == LevelDims(base, level - 1).Size()
  {
    var m := LevelDims(base, level);
    var t := i / 4;
    var x, y, z := TexelX(t, m.width), TexelY(t, m.width, m.height), TexelZ(t, m.width, m.height);
    BoxSample(LevelDims(base, level - 1), prev, 2 * x, 2 * y, 2 * z, bias).Channel(i % 4)
  }

  /** The contents of level `level` computed from the finished level `level - 1`. */
  function Downsample(base: Dims, level: nat, prev: seq<real>, bias: real): (r: seq<real>)
    requires base.Valid() && level >= 1 && |prev| == LevelDims(base, level - 1).Size()
    ensures |r| == LevelDims(base, level).Size()
  {
    seq(LevelDims(base, level).Size(), i requires 0 <= i => DownsampledChannel(base, level, prev, bias, i))
  }

  /** Level `level` of the pyramid whose level 0 is `data`. */
  function MipLevelData(base: Dims, data: seq<real>, bias: real, level: nat): (r: seq<real>)
    requires base.Valid() && |data| == base.Size()
    ensures |r| == LevelDims(base, level).Size()
  {
    if level == 0 then
      LevelZeroIsBase(base);
      data
    else
      Downsample(base, level, MipLevelData(base, data, bias, level - 1), bias)
  }

  /**
   * The first n levels of the chain, each after the first built from the
   * one before it, as generateMipmaps builds them.
   */
  function MipChainPrefix(base: Dims, data: seq<real>, bias: real, n: nat): (r: seq<seq<real>>)
    requires base.Valid() && |data| == base.Size() && n >= 1
    ensures |r| == n && |r[n - 1]| == LevelDims(base, n - 1).Size()
  {
    if n == 1 then
      LevelZeroIsBase(base);
      [data]
    else
      var prev := MipChainPrefix(base, data, bias, n - 1);
      prev + [Downsample(base, n - 1, prev[n - 2], bias)]
  }

  /** The whole chain, levels 0 .. MipLevelCount(base) - 1. */
  function MipChain(base: Dims, data: seq<real>, bias: real): (r: seq<seq<real>>)
    requires base.Valid() && |data| == base.Size()
    ensures |r| == MipLevelCount(base)
  {
    MipChainPrefix(base, data, bias, MipLevelCount(base))
  }

  /** Level l of an n-level prefix is level l of the pyramid. */
  lemma {:induction false} MipChainPrefixLevels(base: Dims, data: seq<real>, bias: real, n: nat)
    requires base.Valid() && |data| == base.Size() && n >= 1
    ensures forall l :: 0 <= l < n ==> MipChainPrefix(base, data, bias, n)[l] == MipLevelData(base, data, bias, l)
  {
    if n > 1 {
      MipChainPrefixLevels(base, data, bias, n - 1);
      var prev := MipChainPrefix(base, data, bias, n - 1);
      var r := MipChainPrefix(base, data, bias, n);
      forall l | 0 <= l < n
        ensures r[l] == MipLevelData(base, data, bias, l)
      {
        if l < n - 1 {
          assert r[l] == prev[l];
        } else {
          assert r[l] == Downsample(base, n - 1, prev[n - 2], bias);
        }
      }
    }
  }

  /**
   * The chain holds one level per mip level, level 0 being the texture's
   * own buffer and level l being level l of the pyramid.
   */
  lemma MipChainLevels(base: Dims, data: seq<real>, bias: real)
    requires base.Valid() && |data| == base.Size()
    ensures |MipChain(base, data, bias)| == MipLevelCount(base)
    ensures MipChain(base, data, bias)[0] == data
    ensures forall l :: 0 <= l < MipLevelCount(base) ==> MipChain(base, data, bias)[l] == MipLevelData(base, data, bias, l)
  {
    MipChainPrefixLevels(base, data, bias, MipLevelCount(base));
  }

  /**
   * The level loop of generateMipmaps: level 0 is the texture's own buffer,
   * and each further level is built from the one before it.
   */
  method BuildMipChain(base: Dims, data: seq<real>, bias: real) returns (chain: seq<seq<real>>)
    requires base.Valid() && |data| == base.Size()
    ensures chain == MipChain(base, data, bias)
  {
    var mipLevels := MipLevelCount(base);
    chain := [data];
    var level := 1;
    while level < mipLevels
      invariant 1 <= level <= mipLevels
      invariant chain == MipChainPrefix(base, data, bias, level)
    {
      var prev := chain[level - 1];
      var next := BuildMipLevel(base, level, prev, bias);
      assert MipChainPrefix(base, data, bias, level + 1) == chain + [next];
      chain := chain + [next];
      level := level + 1;
    }
  }

  /**
   * One pass of generateMipmaps' level loop: fills level `level` (x fastest,
   * then y, then z) with the box-filtered samples of level `level - 1` at
   * (2x, 2y, 2z).
   */
  method BuildMipLevel(base: Dims, level: nat, prev: seq<real>, bias: real) returns (data: seq<real>)
    requires base.Valid() && level >= 1 && |prev| == LevelDims(base, level - 1).Size()
    ensures data == Downsample(base, level, prev, bias)
  {
    var m := LevelDims(base, level);
    ghost var spec := Downsample(base, level, prev, bias);
    var mipWidth, mipHeight, mipDepth := m.width, m.height, m.depth;
    var dst := new real[m.Size()];
    var z := 0;
    while z < mipDepth
      invariant 0 <= z <= mipDepth
      invariant TexelIndex(0, 0, z, mipWidth, mipHeight) <= m.Texels()
      invariant forall i :: 0 <= i < TexelIndex(0, 0, z, mipWidth, mipHeight) * 4 ==> dst[i] == spec[i]
    {
      var y := 0;
      while y < mipHeight
        invariant 0 <= y <= mipHeight
        invariant TexelIndex(0, y, z, mipWidth, mipHeight) <= m.Texels()
        invariant forall i :: 0 <= i < TexelIndex(0, y, z, mipWidth, mipHeight) * 4 ==> dst[i] == spec[i]
      {
        var x := 0;
        while x < mipWidth
          invariant 0 <= x <= mipWidth
          invariant TexelIndex(x, y, z, mipWidth, mipHeight) <= m.Texels()
          invariant forall i :: 0 <= i < TexelIndex(x, y, z, mipWidth, mipHeight) * 4 ==> dst[i] == spec[i]
        {
          var color, _ := SampleMipLevel(base, level - 1, x * 2, y * 2, z * 2, prev, bias);
          SetMipPixel(dst, m, x, y, z, color, base, level, prev, bias, TexelIndex(x, y, z, mipWidth, mipHeight));
          x := x + 1;
        }
        RowMajorSteps(y, z, m);
        y := y + 1;
      }
      RowMajorSteps(y, z, m);
      z := z + 1;
    }
    RowMajorSteps(0, z, m);
    data := dst[..];
  }

  /** setMipPixel: writes the four channels of texel (x, y, z) of a level. */
  method SetMipPixel(dst: array<real>, m: Dims, x: nat, y: nat, z: nat, color: Rgba,
                     ghost base: Dims, ghost level: nat, ghost prev: seq<real>, ghost bias: real, ghost t: nat)
    requires base.Valid() && level >= 1 && |prev| == LevelDims(base, level - 1).Size()
    requires m == LevelDims(base, level) && dst.Length == m.Size()
    requires x < m.width && y < m.height && z < m.depth && t == TexelIndex(x, y, z, m.width, m.height)
    requires color == BoxSample(LevelDims(base, level - 1), prev, 2 * x, 2 * y, 2 * z, bias)
    modifies dst
    ensures t < m.Texels()
    ensures forall i :: 0 <= i < t * 4 ==> dst[i] == old(dst[i])
    ensures forall i :: t * 4 <= i < t * 4 + 4 ==> dst[i] == Downsample(base, level, prev, bias)[i]
    ensures forall i :: t * 4 + 4 <= i < dst.Length ==> dst[i] == old(dst[i])
  {
    DownsampledAt(base, level, prev, bias, x, y, z, t);
    StoreTexel(dst, TexelIndex(x, y, z, m.width, m.height), color);
  }

  /** The four channel stores of setMipPixel, at texel number t. */
  method StoreTexel(dst: array<real>, t: nat, color: Rgba)
    requires t * 4 + 4 <= dst.Length
    modifies dst
    ensures forall i :: 0 <= i < t * 4 ==> dst[i] == old(dst[i])
    ensures forall i :: t * 4 <= i < t * 4 + 4 ==> dst[i] == color.Channel(i - t * 4)
    ensures forall i :: t * 4 + 4 <= i < dst.Length ==> dst[i] == old(dst[i])
  {
    var index := t * 4;
    dst[index] := color.r;
    dst[index + 1] := color.g;
    dst[index + 2] := color.b;
    dst[index + 3] := color.a;
  }

  /** Output texel t = (x, y, z), channel index by channel index. */
  lemma DownsampledAt(base: Dims, level: nat, prev: seq<real>, bias: real, x: nat, y: nat, z: nat, t: nat)
    requires base.Valid() && level >= 1 && |prev| == LevelDims(base, level - 1).Size()
    requires x < LevelDims(base, level).width && y < LevelDims(base, level).height
    requires z < LevelDims(base, level).depth
    requires t == TexelIndex(x, y, z, LevelDims(base, level).width, LevelDims(base, level).height)
    ensures t < LevelDims(base, level).Texels()
    ensures forall i :: t * 4 <= i < t * 4 + 4 ==>
      Downsample(base, level, prev, bias)[i]
      == BoxSample(LevelDims(base, level - 1), prev, 2 * x, 2 * y, 2 * z, bias).Channel(i - t * 4)
  {
    TexelIndexInBounds(x, y, z, LevelDims(base, level));
    forall i | t * 4 <= i < t * 4 + 4
      ensures Downsample(base, level, prev, bias)[i]
              == BoxSample(LevelDims(base, level - 1), prev, 2 * x, 2 * y, 2 * z, bias).Channel(i - t * 4)
    {
      DownsampledTexel(base, level, prev, bias, x, y, z, i - t * 4);
    }
  }

  /** Channel c of output texel (x, y, z) is channel c of the sample at (2x, 2y, 2z). */
  lemma DownsampledTexel(base: Dims, level: nat, prev: seq<real>, bias: real, x: nat, y: nat, z: nat, c: nat)
    requires base.Valid() && level >= 1 && |prev| == LevelDims(base, level - 1).Size()
    requires x < LevelDims(base, level).width && y < LevelDims(base, level).height
    requires z < LevelDims(base, level).depth && c < 4
    ensures var i := TexelIndex(x, y, z, LevelDims(base, level).width, LevelDims(base, level).height) * 4 + c;
            && i < LevelDims(base, level).Size()
            && Downsample(base, level, prev, bias)[i]
               == BoxSample(LevelDims(base, level - 1), prev, 2 * x, 2 * y, 2 * z, bias).Channel(c)
  {
    var m := LevelDims(base, level);
    var t := TexelIndex(x, y, z, m.width, m.height);
    TexelIndexInBounds(x, y, z, m);
    TexelIndexRoundTrip(x, y, z, m.width, m.height);
    assert (t * 4 + c) / 4 == t && (t * 4 + c) % 4 == c;
  }
}
