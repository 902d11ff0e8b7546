/**
 * The AnyTexture engine: a width × height × depth grid of RGBA texels held
 * in one flat buffer, together with the descriptor state that its passes
 * update (the mipmap flag, the derived-map flags and the displacement
 * parameters) and the mip chain built from it.
 */
module Texture {
  import opened TexelLayout
  import opened MipPyramid
  import opened NormalMap
  import opened ColorGrading

  const DefaultResolution: nat := 1024

  /** The failure the normal- and displacement-map passes signal. */
  datatype Outcome = Done | IllegalState(message: string)

  class AnyTexture {
    const width: nat
    const height: nat
    const depth: nat
    /** Level 0: texel (x, y, z) channel c at (z*height*width + y*width + x)*4 + c. */
    const pixels: array<real>
    var mipmapsGenerated: bool
    var isNormalMap: bool
    var isDisplacementMap: bool
    var displacementScale: real
    var displacementBias: real
    /** Levels 0 .. MipLevelCount - 1 once generateMipmaps has run. */
    var mipmaps: seq<seq<real>>

    function Extent(): Dims {
      Dims(width, height, depth)
    }

    ghost predicate Valid()
      reads this
    {
      && Extent().Valid()
      && pixels.Length == Extent().Size()
      && (mipmapsGenerated ==> |mipmaps| == MipLevelCount(Extent()))
    }

    /** The descriptor a constructor leaves behind. */
    ghost predicate Fresh()
      reads this, pixels
    {
      && !mipmapsGenerated && !isNormalMap && !isDisplacementMap
      && displacementScale == 1.0 && displacementBias == 0.0
      && mipmaps == []
      && forall i :: 0 <= i < pixels.Length ==> pixels[i] == 0.0
    }

    /** The no-argument constructor: a 1024 × 1024 × 1 texture. */
    constructor Default()
      ensures Valid() && Fresh() && fresh(pixels)
      ensures width == DefaultResolution && height == DefaultResolution && depth == 1
    {
      width, height, depth := DefaultResolution, DefaultResolution, 1;
      pixels := new real[DefaultResolution * DefaultResolution * 1 * 4](_ => 0.0);
      mipmapsGenerated, isNormalMap, isDisplacementMap := false, false, false;
      displacementScale, displacementBias := 1.0, 0.0;
      mipmaps := [];
    }

    /** The two-argument constructor: a single-slice texture. */
    constructor Flat(w: nat, h: nat)
      requires w >= 1 && h >= 1
      ensures Valid() && Fresh() && fresh(pixels)
      ensures width == w && height == h && depth == 1
    {
      width, height, depth := w, h, 1;
      pixels := new real[w * h * 1 * 4](_ => 0.0);
      mipmapsGenerated, isNormalMap, isDisplacementMap := false, false, false;
      displacementScale, displacementBias := 1.0, 0.0;
      mipmaps := [];
    }

    constructor (w: nat, h: nat, d: nat)
      requires w >= 1 && h >= 1 && d >= 1
      ensures Valid() && Fresh() && fresh(pixels)
      ensures width == w && height == h && depth == d
    {
      width, height, depth := w, h, d;
      pixels := new real[w * h * d * 4](_ => 0.0);
      mipmapsGenerated, isNormalMap, isDisplacementMap := false, false, false;
      displacementScale, displacementBias := 1.0, 0.0;
      mipmaps := [];
    }

    /** getPixel: the texel at (x, y, z) of level 0. */
    function GetPixel(x: nat, y: nat, z: nat): (px: Rgba)
      reads pixels
      requires pixels.Length == Extent().Size() && x < width && y < height && z < depth
      ensures TexelIndex(x, y, z, width, height) * 4 + 3 < pixels.Length
      ensures px == ReadTexel(pixels[..], TexelIndex(x, y, z, width, height))
    {
      TexelIndexInBounds(x, y, z, Extent());
      var i := TexelIndex(x, y, z, width, height) * 4;
      Rgba(pixels[i], pixels[i + 1], pixels[i + 2], pixels[i + 3])
    }

    /** setPixel: overwrites the four channels of texel (x, y, z) and nothing else. */
    method SetPixel(x: nat, y: nat, z: nat, v: Rgba)
      requires pixels.Length == Extent().Size() && x < width && y < height && z < depth
      modifies pixels
      ensures TexelIndex(x, y, z, width, height) * 4 + 3 < pixels.Length
      ensures GetPixel(x, y, z) == v
      ensures forall i :: TexelIndex(x, y, z, width, height) * 4 <= i < TexelIndex(x, y, z, width, height) * 4 + 4
                ==> pixels[i] == v.Channel(i - TexelIndex(x, y, z, width, height) * 4)
      ensures forall i ::
                0 <= i < pixels.Length && !(TexelIndex(x, y, z, width, height) * 4 <= i < TexelIndex(x, y, z, width, height) * 4 + 4)
                ==> pixels[i] == old(pixels[i])
    {
      TexelIndexInBounds(x, y, z, Extent());
      var index := TexelIndex(x, y, z, width, height) * 4;
      pixels[index] := v.r;
      pixels[index + 1] := v.g;
      pixels[index + 2] := v.b;
      pixels[index + 3] := v.a;
    }

    /**
     * generateMipmaps: a no-op once the flag is set; otherwise builds levels
     * 1 .. MipLevelCount - 1 from level 0, each from the one before, and
     * sets the flag only after the last level is built.
     */
    method GenerateMipmaps()
      requires Valid()
      modifies this
      ensures Valid() && mipmapsGenerated
      ensures old(mipmapsGenerated) ==> mipmaps == old(mipmaps)
      ensures !old(mipmapsGenerated) ==> mipmaps == MipChain(Extent(), pixels[..], displacementBias)
      ensures isNormalMap == old(isNormalMap) && isDisplacementMap == old(isDisplacementMap)
      ensures displacementScale == old(displacementScale) && displacementBias == old(displacementBias)
    {
      if mipmapsGenerated {
        return;
      }
      var chain := BuildMipChain(Extent(), pixels[..], displacementBias);
      mipmaps := chain;
      mipmapsGenerated := true;
    }

    /**
     * applyNormalMap: refuses a texture with more than one slice; otherwise
     * snapshots the heights (the red channel) of every texel, then writes
     * every texel from the snapshot, and marks the texture a normal map.
     */
    method ApplyNormalMap(shade: (real, real) -> Rgb) returns (outcome: Outcome)
      requires Valid()
      modifies this, pixels
      ensures Valid()
      ensures depth != 1 ==> outcome.IllegalState? && unchanged(this) && unchanged(pixels)
      ensures depth == 1 ==>
                outcome == Done && isNormalMap && pixels[..] == NormalMapped(old(pixels[..]), width, height, shade)
      ensures mipmapsGenerated == old(mipmapsGenerated) && mipmaps == old(mipmaps)
      ensures isDisplacementMap == old(isDisplacementMap)
      ensures displacementScale == old(displacementScale) && displacementBias == old(displacementBias)
    {
      if depth != 1 {
        return IllegalState("Normal map can only be applied to 2D textures");
      }
      var heightMap := SnapshotHeights();
      WriteNormals(heightMap, shade);
      isNormalMap := true;
      return Done;
    }

    /** The read phase of applyNormalMap: heightMap[y, x] is the red channel of texel (x, y). */
    method SnapshotHeights() returns (heightMap: array2<real>)
      requires pixels.Length == Extent().Size() && depth == 1
      ensures fresh(heightMap) && heightMap.Length0 == height && heightMap.Length1 == width
      ensures forall y, x :: 0 <= y < height && 0 <= x < width ==> heightMap[y, x] == HeightAt(pixels[..], width, height, x, y)
    {
      heightMap := new real[height, width];
      var y := 0;
      while y < height
        invariant 0 <= y <= height
        invariant forall yy, xx :: 0 <= yy < y && 0 <= xx < width ==> heightMap[yy, xx] == HeightAt(pixels[..], width, height, xx, yy)
      {
        var x := 0;
        while x < width
          invariant 0 <= x <= width
          invariant forall yy, xx :: 0 <= yy < y && 0 <= xx < width ==> heightMap[yy, xx] == HeightAt(pixels[..], width, height, xx, yy)
          invariant forall xx :: 0 <= xx < x ==> heightMap[y, xx] == HeightAt(pixels[..], width, height, xx, y)
        {
          heightMap[y, x] := GetPixel(x, y, 0).r;
          x := x + 1;
        }
        y := y + 1;
      }
    }

    /**
     * The write phase of applyNormalMap: every texel becomes the normal of
     * the snapshot's gradient around it; the snapshot is never written.
     */
    method WriteNormals(heightMap: array2<real>, shade: (real, real) -> Rgb)
      requires pixels.Length == Extent().Size() && depth == 1
      requires width >= 1 && height >= 1
      requires heightMap.Length0 == height && heightMap.Length1 == width
      requires forall y, x :: 0 <= y < height && 0 <= x < width ==> heightMap[y, x] == HeightAt(pixels[..], width, height, x, y)
      modifies pixels
      ensures pixels[..] == NormalMapped(old(pixels[..]), width, height, shade)
    {
      ghost var before := pixels[..];
      ghost var spec := NormalMapped(before, width, height, shade);
      var dims := Extent();
      var y := 0;
      while y < height
        invariant 0 <= y <= height
        invariant TexelIndex(0, y, 0, width, height) <= dims.Texels()
        invariant forall i :: 0 <= i < TexelIndex(0, y, 0, width, height) * 4 ==> pixels[i] == spec[i]
        invariant forall i :: TexelIndex(0, y, 0, width, height) * 4 <= i < pixels.Length ==> pixels[i] == before[i]
      {
        var x := 0;
        while x < width
          invariant 0 <= x <= width
          invariant TexelIndex(x, y, 0, width, height) <= dims.Texels()
          invariant forall i :: 0 <= i < TexelIndex(x, y, 0, width, height) * 4 ==> pixels[i] == spec[i]
          invariant forall i :: TexelIndex(x, y, 0, width, height) * 4 <= i < pixels.Length ==> pixels[i] == before[i]
        {
          CalculateNormal(x, y, heightMap, shade, before, TexelIndex(x, y, 0, width, height));
          x := x + 1;
        }
        RowMajorSteps(y, 0, dims);
        y := y + 1;
      }
      RowMajorSteps(0, 0, dims);
    }

    /**
     * applyDisplacementMap: refuses a texture with more than one slice;
     * otherwise records the scale and bias and marks the texture a
     * displacement map.  The texels are not rewritten.
     */
    method ApplyDisplacementMap(scale: real, bias: real) returns (outcome: Outcome)
      requires Valid()
      modifies this
      ensures Valid()
      ensures depth != 1 ==> outcome.IllegalState? && unchanged(this)
      ensures depth == 1 ==>
                outcome == Done && isDisplacementMap && displacementScale == scale && displacementBias == bias
      ensures mipmapsGenerated == old(mipmapsGenerated) && mipmaps == old(mipmaps)
      ensures isNormalMap == old(isNormalMap)
    {
      if depth != 1 {
        return IllegalState("Displacement map can only be applied to 2D textures");
      }
      isDisplacementMap := true;
      displacementScale := scale;
      displacementBias := bias;
      return Done;
    }

    /**
     * applyColorGrading: visits every texel of every slice (x fastest, then
     * y, then z), grades its RGB and writes it back with its alpha.
     */
    method ApplyColorGrading(settings: Settings)
      requires Valid()
      modifies pixels
      ensures pixels[..] == GradeBuffer(old(pixels[..]), settings)
    {
      ghost var before := pixels[..];
      ghost var spec := GradeBuffer(before, settings);
      var dims := Extent();
      var z := 0;
      while z < depth
        invariant 0 <= z <= depth
        invariant TexelIndex(0, 0, z, width, height) <= dims.Texels()
        invariant forall i :: 0 <= i < TexelIndex(0, 0, z, width, height) * 4 ==> pixels[i] == spec[i]
        invariant forall i :: TexelIndex(0, 0, z, width, height) * 4 <= i < pixels.Length ==> pixels[i] == before[i]
      {
        var y := 0;
        while y < height
          invariant 0 <= y <= height
          invariant TexelIndex(0, y, z, width, height) <= dims.Texels()
          invariant forall i :: 0 <= i < TexelIndex(0, y, z, width, height) * 4 ==> pixels[i] == spec[i]
          invariant forall i :: TexelIndex(0, y, z, width, height) * 4 <= i < pixels.Length ==> pixels[i] == before[i]
        {
          var x := 0;
          while x < width
            invariant 0 <= x <= width
            invariant TexelIndex(x, y, z, width, height) <= dims.Texels()
            invariant forall i :: 0 <= i < TexelIndex(x, y, z, width, height) * 4 ==> pixels[i] == spec[i]
            invariant forall i :: TexelIndex(x, y, z, width, height) * 4 <= i < pixels.Length ==> pixels[i] == before[i]
          {
            GradeTexelAt(x, y, z, settings, before, TexelIndex(x, y, z, width, height));
            x := x + 1;
          }
          RowMajorSteps(y, z, dims);
          y := y + 1;
        }
        RowMajorSteps(y, z, dims);
        z := z + 1;
      }
      RowMajorSteps(0, z, dims);
    }

    /**
     * One step of applyColorGrading's loop: texel (x, y, z), whose texel
     * number is t and which still holds its original value, is graded.
     */
    method GradeTexelAt(x: nat, y: nat, z: nat, settings: Settings, ghost before: seq<real>, ghost t: nat)
      requires pixels.Length == Extent().Size() && |before| == pixels.Length
      requires x < width && y < height && z < depth && t == TexelIndex(x, y, z, width, height)
      requires forall i :: t * 4 <= i < pixels.Length ==> pixels[i] == before[i]
      modifies pixels
      ensures t < Extent().Texels()
      ensures forall i :: 0 <= i < pixels.Length && !(t * 4 <= i < t * 4 + 4) ==> pixels[i] == old(pixels[i])
      ensures forall i :: t * 4 <= i < t * 4 + 4 ==> pixels[i] == GradeBuffer(before, settings)[i]
    {
      var pixel := GetPixel(x, y, z);
      assert pixel == ReadTexel(before, t);
      var graded := GradeTexel(pixel, settings);
      GradeBufferTexel(before, settings, t);
      TexelChannels(GradeBuffer(before, settings), t, graded);
      SetPixel(x, y, z, graded);
    }

    /**
     * One step of applyNormalMap's write loop: texel (x, y), whose texel
     * number is t, becomes the normal of the snapshot's gradient around it.
     */
    method CalculateNormal(x: nat, y: nat, heightMap: array2<real>, shade: (real, real) -> Rgb,
                           ghost before: seq<real>, ghost t: nat)
      requires pixels.Length == Extent().Size() && depth == 1 && |before| == pixels.Length
      requires x < width && y < height && t == TexelIndex(x, y, 0, width, height)
      requires heightMap.Length0 == height && heightMap.Length1 == width
      requires forall y, x :: 0 <= y < height && 0 <= x < width ==> heightMap[y, x] == HeightAt(before, width, height, x, y)
      modifies pixels
      ensures t < Extent().Texels()
      ensures forall i :: 0 <= i < pixels.Length && !(t * 4 <= i < t * 4 + 4) ==> pixels[i] == old(pixels[i])
      ensures forall i :: t * 4 <= i < t * 4 + 4 ==> pixels[i] == NormalMapped(before, width, height, shade)[i]
    {
      var gradient := SampleGradient(x, y, heightMap, before);
      var normal := NormalTexel(shade, gradient);
      NormalMappedAt(before, width, height, shade, x, y, t);
      SetPixel(x, y, 0, normal);
    }

    /** The central differences at (x, y), read from the height snapshot. */
    method SampleGradient(x: nat, y: nat, heightMap: array2<real>, ghost before: seq<real>) returns (gradient: (real, real))
      requires |before| == Extent().Size() && depth == 1
      requires x < width && y < height
      requires heightMap.Length0 == height && heightMap.Length1 == width
      requires forall y, x :: 0 <= y < height && 0 <= x < width ==> heightMap[y, x] == HeightAt(before, width, height, x, y)
      ensures gradient == Gradient(before, width, height, x, y)
    {
      NeighboursInRange(x, width);
      NeighboursInRange(y, height);
      var left := heightMap[y, Prev(x, width)];
      var right := heightMap[y, Next(x, width)];
      var top := heightMap[Prev(y, height), x];
      var bottom := heightMap[Next(y, height), x];
      gradient := (right - left, bottom - top);
    }
  }
}
