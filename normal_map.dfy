/**
 * Normal-map derivation for a 2D texture (depth 1).  Heights are the red
 * channel of the texture as it was before the pass; neighbours wrap around
 * both axes, so the texture is treated as seamlessly tileable.  Each texel
 * becomes the caller's encoding of the central-difference gradient at that
 * point, with alpha 1.
 */
module NormalMap {
  import opened TexelLayout

  /** The neighbour before x on a wrapping axis of length n. */
  function Prev(x: nat, n: nat): nat
    requires n >= 1
  {
    (x - 1 + n) % n
  }

  /** The neighbour after x on a wrapping axis of length n. */
  function Next(x: nat, n: nat): nat
    requires n >= 1
  {
    (x + 1) % n
  }

  /**
   * Toroidal addressing: neighbours of an in-range coordinate are in range,
   * the first coordinate's predecessor is the last one and the last
   * coordinate's successor is the first one, interior neighbours are the
   * adjacent coordinates, and stepping forward then back returns to x.
   */
  lemma NeighboursWrap(x: nat, n: nat)
    requires x < n
    ensures Prev(x, n) < n && Next(x, n) < n
    ensures x == 0 ==> Prev(x, n) == n - 1
    ensures x == n - 1 ==> Next(x, n) == 0
    ensures 0 < x ==> Prev(x, n) == x - 1
    ensures x + 1 < n ==> Next(x, n) == x + 1
    ensures Prev(Next(x, n), n) == x && Next(Prev(x, n), n) == x
  {
    if x == 0 {
      DivModUnique(0, n - 1, n);
    } else {
      DivModUnique(1, x - 1, n);
    }
    if x + 1 < n {
      DivModUnique(0, x + 1, n);
      DivModUnique(1, x, n);
    } else {
      DivModUnique(1, 0, n);
      DivModUnique(0, n - 1, n);
    }
    DivModUnique(0, x, n);
  }

  /** Neighbours of an in-range coordinate are in range. */
  lemma NeighboursInRange(x: nat, n: nat)
    requires x < n
    ensures Prev(x, n) < n && Next(x, n) < n
  {
  }

  /** The height sample at (x, y): the red channel of that texel. */
  function HeightAt(buf: seq<real>, w: nat, h: nat, x: nat, y: nat): real
    requires |buf| == Dims(w, h, 1).Size() && x < w && y < h
  {
    TexelIndexInBounds(x, y, 0, Dims(w, h, 1));
    buf[TexelIndex(x, y, 0, w, h) * 4]
  }

  /** The central differences (right - left, bottom - top) at (x, y). */
  function Gradient(buf: seq<real>, w: nat, h: nat, x: nat, y: nat): (real, real)
    requires |buf| == Dims(w, h, 1).Size() && x < w && y < h
  {
    NeighboursInRange(x, w);
    NeighboursInRange(y, h);
    (HeightAt(buf, w, h, Next(x, w), y) - HeightAt(buf, w, h, Prev(x, w), y),
     HeightAt(buf, w, h, x, Next(y, h)) - HeightAt(buf, w, h, x, Prev(y, h)))
  }

  /** The output texel for a gradient: the encoded normal, alpha 1. */
  function NormalTexel(shade: (real, real) -> Rgb, gradient: (real, real)): Rgba {
    var n := shade(gradient.0, gradient.1);
    Rgba(n.r, n.g, n.b, 1.0)
  }

  /** The buffer after the pass: every texel replaced by its normal. */
  function NormalMapped(buf: seq<real>, w: nat, h: nat, shade: (real, real) -> Rgb): (r: seq<real>)
    requires w >= 1 && h >= 1 && |buf| == Dims(w, h, 1).Size()
    ensures |r| == |buf|
  {
    seq(|buf|, i requires 0 <= i < |buf| =>
      var t := i / 4;
      TexelDecodeInRange(t, Dims(w, h, 1));
      NormalTexel(shade, Gradient(buf, w, h, TexelX(t, w), TexelY(t, w, h))).Channel(i % 4))
  }

  /** Texel (x, y) of the result is the normal of the original heights around (x, y). */
  lemma NormalMappedTexel(buf: seq<real>, w: nat, h: nat, shade: (real, real) -> Rgb, x: nat, y: nat)
    requires |buf| == Dims(w, h, 1).Size() && x < w && y < h
    ensures var t := TexelIndex(x, y, 0, w, h);
            && t * 4 + 3 < |buf|
            && ReadTexel(NormalMapped(buf, w, h, shade), t) == NormalTexel(shade, Gradient(buf, w, h, x, y))
  {
    var r := NormalMapped(buf, w, h, shade);
    var n := NormalTexel(shade, Gradient(buf, w, h, x, y));
    var t := TexelIndex(x, y, 0, w, h);
    NormalMappedAt(buf, w, h, shade, x, y, t);
    assert r[t * 4] == n.Channel(0) && r[t * 4 + 1] == n.Channel(1);
    assert r[t * 4 + 2] == n.Channel(2) && r[t * 4 + 3] == n.Channel(3);
  }

  /** The same, channel index by channel index, for the texel numbered t. */
  lemma NormalMappedAt(buf: seq<real>, w: nat, h: nat, shade: (real, real) -> Rgb, x: nat, y: nat, t: nat)
    requires |buf| == Dims(w, h, 1).Size() && x < w && y < h && t == TexelIndex(x, y, 0, w, h)
    ensures t * 4 + 3 < |buf|
    ensures forall i :: t * 4 <= i < t * 4 + 4 ==>
      NormalMapped(buf, w, h, shade)[i] == NormalTexel(shade, Gradient(buf, w, h, x, y)).Channel(i - t * 4)
  {
    TexelIndexInBounds(x, y, 0, Dims(w, h, 1));
    forall i | t * 4 <= i < t * 4 + 4
      ensures NormalMapped(buf, w, h, shade)[i] == NormalTexel(shade, Gradient(buf, w, h, x, y)).Channel(i - t * 4)
    {
      NormalMappedChannel(buf, w, h, shade, x, y, i - t * 4);
    }
  }

  lemma NormalMappedChannel(buf: seq<real>, w: nat, h: nat, shade: (real, real) -> Rgb, x: nat, y: nat, c: nat)
    requires |buf| == Dims(w, h, 1).Size() && x < w && y < h && c < 4
    ensures var i := TexelIndex(x, y, 0, w, h) * 4 + c;
            && i < |buf|
            && NormalMapped(buf, w, h, shade)[i] == NormalTexel(shade, Gradient(buf, w, h, x, y)).Channel(c)
  {
    var t := TexelIndex(x, y, 0, w, h);
    TexelIndexInBounds(x, y, 0, Dims(w, h, 1));
    TexelIndexRoundTrip(x, y, 0, w, h);
    assert (t * 4 + c) / 4 == t && (t * 4 + c) % 4 == c;
  }

  /**
   * The result depends on the original buffer only through its heights:
   * two buffers with the same red channel yield the same normal map.
   */
  lemma NormalMapReadsHeightsOnly(buf: seq<real>, buf': seq<real>, w: nat, h: nat, shade: (real, real) -> Rgb)
    requires w >= 1 && h >= 1 && |buf| == |buf'| == Dims(w, h, 1).Size()
    requires forall t :: 0 <= t < Dims(w, h, 1).Texels() ==> buf[t * 4] == buf'[t * 4]
    ensures NormalMapped(buf, w, h, shade) == NormalMapped(buf', w, h, shade)
  {
    var r, r' := NormalMapped(buf, w, h, shade), NormalMapped(buf', w, h, shade);
    forall i | 0 <= i < |buf|
      ensures r[i] == r'[i]
    {
      var t := i / 4;
      TexelDecodeInRange(t, Dims(w, h, 1));
      var x, y := TexelX(t, w), TexelY(t, w, h);
      NeighboursInRange(x, w);
      NeighboursInRange(y, h);
      SameHeight(buf, buf', w, h, Next(x, w), y);
      SameHeight(buf, buf', w, h, Prev(x, w), y);
      SameHeight(buf, buf', w, h, x, Next(y, h));
      SameHeight(buf, buf', w, h, x, Prev(y, h));
      assert Gradient(buf, w, h, x, y) == Gradient(buf', w, h, x, y);
    }
  }

  lemma SameHeight(buf: seq<real>, buf': seq<real>, w: nat, h: nat, x: nat, y: nat)
    requires |buf| == |buf'| == Dims(w, h, 1).Size() && x < w && y < h
    requires forall t :: 0 <= t < Dims(w, h, 1).Texels() ==> buf[t * 4] == buf'[t * 4]
    ensures HeightAt(buf, w, h, x, y) == HeightAt(buf', w, h, x, y)
  {
    TexelIndexInBounds(x, y, 0, Dims(w, h, 1));
  }

  /**
   * A flat height field has zero gradient everywhere, so every texel is the
   * encoding of the gradient (0, 0).  The encoding is the caller's shade
   * function, so this says only that every texel is shade(0, 0) with alpha
   * 1, not which color that is (for the usual encoding of the unit normal
   * (0, 0, 1), the color (0.5, 0.5, 1)).
   */
  lemma FlatHeightsGiveFlatNormals(buf: seq<real>, w: nat, h: nat, shade: (real, real) -> Rgb, height: real)
    requires w >= 1 && h >= 1 && |buf| == Dims(w, h, 1).Size()
    requires forall t :: 0 <= t < Dims(w, h, 1).Texels() ==> buf[t * 4] == height
    ensures forall i :: 0 <= i < |buf| ==>
      NormalMapped(buf, w, h, shade)[i] == NormalTexel(shade, (0.0, 0.0)).Channel(i % 4)
  {
    var r := NormalMapped(buf, w, h, shade);
    forall i | 0 <= i < |buf|
      ensures r[i] == NormalTexel(shade, (0.0, 0.0)).Channel(i % 4)
    {
      var t := i / 4;
      TexelDecodeInRange(t, Dims(w, h, 1));
      var x, y := TexelX(t, w), TexelY(t, w, h);
      NeighboursInRange(x, w);
      NeighboursInRange(y, h);
      FlatHeight(buf, w, h, height, Next(x, w), y);
      FlatHeight(buf, w, h, height, Prev(x, w), y);
      FlatHeight(buf, w, h, height, x, Next(y, h));
      FlatHeight(buf, w, h, height, x, Prev(y, h));
      assert Gradient(buf, w, h, x, y) == (0.0, 0.0);
    }
  }

  lemma FlatHeight(buf: seq<real>, w: nat, h: nat, height: real, x: nat, y: nat)
    requires |buf| == Dims(w, h, 1).Size() && x < w && y < h
    requires forall t :: 0 <= t < Dims(w, h, 1).Texels() ==> buf[t * 4] == height
    ensures HeightAt(buf, w, h, x, y) == height
  {
    TexelIndexInBounds(x, y, 0, Dims(w, h, 1));
  }
}
