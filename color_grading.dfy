/**
 * The color-grading pipeline of AnyTexture, stage by stage, over real
 * numbers.  A pixel's RGB triple passes, in this fixed order, through
 * saturation, contrast, gamma, brightness/exposure and color balance; alpha
 * is carried through untouched.  Nothing is clamped.
 */
module ColorGrading {
  import opened TexelLayout

  /**
   * The grading parameters.  The two stages that need a floating-point
   * power take it precomputed: gammaCurve is the map c ↦ c^(1/gamma) and
   * exposureFactor is 2^exposure.
   */
  datatype Settings = Settings(
    saturation: real,
    contrast: real,
    gammaCurve: real -> real,
    brightness: real,
    exposureFactor: real,
    shadowsColor: Rgb,
    midtonesColor: Rgb,
    highlightsColor: Rgb)

  const Black := Rgb(0.0, 0.0, 0.0)

  /** Settings under which every stage leaves its input as it is. */
  function NeutralSettings(): Settings {
    Settings(1.0, 1.0, c => c, 1.0, 1.0, Black, Black, Black)
  }

  function Abs(v: real): real {
    if v < 0.0 then -v else v
  }

  /** Rec. 601 luma weights, as the source uses them. */
  function Luminance(c: Rgb): real {
    c.r * 0.299 + c.g * 0.587 + c.b * 0.114
  }

  function Lerp(a: real, b: real, t: real): real {
    a + (b - a) * t
  }

  function Gray(v: real): Rgb {
    Rgb(v, v, v)
  }

  /**
   * Blends each channel away from the luminance by the saturation factor.
   * The channels move along the gray axis, so luminance is unchanged.
   */
  function ApplySaturation(c: Rgb, saturation: real): (r: Rgb)
    ensures Luminance(r) == Luminance(c)
  {
    var l := Luminance(c);
    Rgb(Lerp(l, c.r, saturation), Lerp(l, c.g, saturation), Lerp(l, c.b, saturation))
  }

  /**
   * Scales each channel's distance from mid-gray 0.5 by the contrast factor;
   * the luminance's distance from 0.5 scales by the same factor.
   */
  function ApplyContrast(c: Rgb, contrast: real): (r: Rgb)
    ensures Luminance(r) - 0.5 == (Luminance(c) - 0.5) * contrast
  {
    Rgb((c.r - 0.5) * contrast + 0.5, (c.g - 0.5) * contrast + 0.5, (c.b - 0.5) * contrast + 0.5)
  }

  function ApplyGamma(c: Rgb, curve: real -> real): Rgb {
    Rgb(curve(c.r), curve(c.g), curve(c.b))
  }

  function ApplyBrightnessAndExposure(c: Rgb, brightness: real, exposureFactor: real): Rgb {
    Rgb(c.r * brightness * exposureFactor, c.g * brightness * exposureFactor, c.b * brightness * exposureFactor)
  }

  /**
   * Adds the three tint colors, weighted by how dark (1 - L), how mid
   * (0.5 - |L - 0.5|) and how bright (L) the pixel is.  Black tints add
   * nothing.
   */
  function ApplyColorBalance(c: Rgb, shadows: Rgb, midtones: Rgb, highlights: Rgb): (r: Rgb)
    ensures shadows == Black && midtones == Black && highlights == Black ==> r == c
  {
    var l := Luminance(c);
    var ws, wm, wh := 1.0 - l, 0.5 - Abs(l - 0.5), l;
    Rgb(c.r + shadows.r * ws + midtones.r * wm + highlights.r * wh,
        c.g + shadows.g * ws + midtones.g * wm + highlights.g * wh,
        c.b + shadows.b * ws + midtones.b * wm + highlights.b * wh)
  }

  /**
   * applyColorGradingToPixel: the five stages in their fixed order.  When
   * every stage is set to its neutral value (saturation and contrast 1, an
   * identity gamma curve, a unit brightness-exposure gain, black tints) the
   * pixel comes out as it went in.
   */
  function GradePixel(c: Rgb, s: Settings): (r: Rgb)
    ensures s.saturation == 1.0 && s.contrast == 1.0 && (forall v :: s.gammaCurve(v) == v)
            && s.brightness * s.exposureFactor == 1.0
            && s.shadowsColor == Black && s.midtonesColor == Black && s.highlightsColor == Black
            ==> r == c
  {
    var saturated := ApplySaturation(c, s.saturation);
    var contrasted := ApplyContrast(saturated, s.contrast);
    var corrected := ApplyGamma(contrasted, s.gammaCurve);
    var exposed := ApplyBrightnessAndExposure(corrected, s.brightness, s.exposureFactor);
    ApplyColorBalance(exposed, s.shadowsColor, s.midtonesColor, s.highlightsColor)
  }

  /** One texel of applyColorGrading: RGB graded, alpha passed through. */
  function GradeTexel(px: Rgba, s: Settings): (r: Rgba)
    ensures r.a == px.a
  {
    var g := GradePixel(Rgb(px.r, px.g, px.b), s);
    Rgba(g.r, g.g, g.b, px.a)
  }

  /** The whole buffer after applyColorGrading: every texel graded. */
  function GradeBuffer(buf: seq<real>, s: Settings): (r: seq<real>)
    requires |buf| % 4 == 0
    ensures |r| == |buf|
  {
    MapTexels(buf, px => GradeTexel(px, s))
  }

  // ---------------------------------------------------------------------
  // Stage properties
  // ---------------------------------------------------------------------

  /** The luma weights sum to 1, so a gray pixel's luminance is its level. */
  lemma LuminanceOfGray(v: real)
    ensures Luminance(Gray(v)) == v
  {
  }

  /**
   * Saturation 0 collapses a pixel to the gray of its original luminance,
   * saturation 1 keeps it, and a gray pixel is kept under any factor.
   */
  lemma SaturationExtremes(c: Rgb, saturation: real)
    ensures ApplySaturation(c, 0.0) == Gray(Luminance(c))
    ensures ApplySaturation(c, 1.0) == c
    ensures c.r == c.g == c.b ==> ApplySaturation(c, saturation) == c
  {
  }

  /** A nonzero saturation factor is undone by its reciprocal. */
  lemma SaturationInverse(c: Rgb, saturation: real)
    requires saturation != 0.0
    ensures ApplySaturation(ApplySaturation(c, saturation), 1.0 / saturation) == c
  {
    var l := Luminance(c);
    var once := ApplySaturation(c, saturation);
    assert (c.r - l) * saturation * (1.0 / saturation) == c.r - l;
    assert (c.g - l) * saturation * (1.0 / saturation) == c.g - l;
    assert (c.b - l) * saturation * (1.0 / saturation) == c.b - l;
  }

  /** Contrast 1 is the identity, and mid-gray is a fixed point of every contrast. */
  lemma ContrastNeutral(c: Rgb, contrast: real)
    ensures ApplyContrast(c, 1.0) == c
    ensures ApplyContrast(Gray(0.5), contrast) == Gray(0.5)
  {
  }

  /** A nonzero contrast factor is undone by its reciprocal. */
  lemma ContrastInverse(c: Rgb, contrast: real)
    requires contrast != 0.0
    ensures ApplyContrast(ApplyContrast(c, contrast), 1.0 / contrast) == c
  {
    assert (c.r - 0.5) * contrast * (1.0 / contrast) == c.r - 0.5;
    assert (c.g - 0.5) * contrast * (1.0 / contrast) == c.g - 0.5;
    assert (c.b - 0.5) * contrast * (1.0 / contrast) == c.b - 0.5;
  }

  /**
   * A black pixel (L = 0) receives exactly the shadow tint, a white-luminance
   * pixel (L = 1) exactly the highlight tint, and a mid-gray-luminance pixel
   * (L = 0.5) half of each of the three tints.
   */
  lemma ColorBalanceExtremes(c: Rgb, shadows: Rgb, midtones: Rgb, highlights: Rgb)
    ensures Luminance(c) == 0.0 ==>
      ApplyColorBalance(c, shadows, midtones, highlights)
      == Rgb(c.r + shadows.r, c.g + shadows.g, c.b + shadows.b)
    ensures Luminance(c) == 1.0 ==>
      ApplyColorBalance(c, shadows, midtones, highlights)
      == Rgb(c.r + highlights.r, c.g + highlights.g, c.b + highlights.b)
    ensures Luminance(c) == 0.5 ==>
      ApplyColorBalance(c, shadows, midtones, highlights)
      == Rgb(c.r + (shadows.r + midtones.r + highlights.r) * 0.5,
             c.g + (shadows.g + midtones.g + highlights.g) * 0.5,
             c.b + (shadows.b + midtones.b + highlights.b) * 0.5)
  {
  }

  /** With neutral settings the whole pipeline is the identity on RGB. */
  lemma NeutralGradingIsIdentity(c: Rgb)
    ensures GradePixel(c, NeutralSettings()) == c
  {
    var s := NeutralSettings();
    assert forall v :: s.gammaCurve(v) == v;
  }

  // ---------------------------------------------------------------------
  // Buffer properties
  // ---------------------------------------------------------------------

  /** Every texel of the graded buffer is its original texel, graded. */
  lemma GradeBufferTexel(buf: seq<real>, s: Settings, t: nat)
    requires |buf| % 4 == 0 && t * 4 + 3 < |buf|
    ensures ReadTexel(GradeBuffer(buf, s), t) == GradeTexel(ReadTexel(buf, t), s)
    ensures GradeBuffer(buf, s)[t * 4 + 3] == buf[t * 4 + 3]
  {
    MapTexelsTexel(buf, px => GradeTexel(px, s), t);
  }

  /** Grading with neutral settings leaves the buffer as it was. */
  lemma NeutralGradingKeepsBuffer(buf: seq<real>)
    requires |buf| % 4 == 0
    ensures GradeBuffer(buf, NeutralSettings()) == buf
  {
    var f := px => GradeTexel(px, NeutralSettings());
    forall px: Rgba
      ensures f(px) == px
    {
      NeutralGradingIsIdentity(Rgb(px.r, px.g, px.b));
    }
    MapTexelsIdentity(buf, f);
  }
}
