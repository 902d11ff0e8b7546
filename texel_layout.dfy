/**
 * Memory layout of an AnyTexture pixel buffer: a flat sequence of
 * width × height × depth texels, four channels (RGBA) each, with x varying
 * fastest, then y, then z.  The texel at (x, y, z) of a level that is
 * w texels wide and h texels high starts at channel index
 * (z*h*w + y*w + x) * 4.
 */
module TexelLayout {

  /** One texel: four unclamped channel values. */
  datatype Rgba = Rgba(r: real, g: real, b: real, a: real) {

    function Plus(o: Rgba): Rgba {
      Rgba(r + o.r, g + o.g, b + o.b, a + o.a)
    }

    function Scale(s: real): Rgba {
      Rgba(s * r, s * g, s * b, s * a)
    }

    function Div(n: real): Rgba
      requires n != 0.0
    {
      Rgba(r / n, g / n, b / n, a / n)
    }

    /** The four channels in storage order. */
    function Channels(): (r: seq<real>)
      ensures |r| == 4
    {
      [r, g, b, a]
    }

    /** Channel c of the texel, in storage order r, g, b, a. */
    function Channel(c: nat): real
      requires c < 4
    {
      if c == 0 then r else if c == 1 then g else if c == 2 then b else a
    }
  }

  /** A color without alpha. */
  datatype Rgb = Rgb(r: real, g: real, b: real)

  /** A texel whose four channels all hold v. */
  function Splat(v: real): Rgba {
    Rgba(v, v, v, v)
  }

  /** Extent of a texture or of one of its mip levels. */
  datatype Dims = Dims(width: nat, height: nat, depth: nat) {

    predicate Valid() {
      width >= 1 && height >= 1 && depth >= 1
    }

    /** Number of texels. */
    function Texels(): nat {
      width * height * depth
    }

    /** Number of channel values in a buffer of this extent. */
    function Size(): nat {
      Texels() * 4
    }
  }

  /** Flat texel number of (x, y, z) in a level w texels wide and h high. */
  function TexelIndex(x: nat, y: nat, z: nat, w: nat, h: nat): nat {
    z * h * w + y * w + x
  }

  /** Inverse of TexelIndex, one coordinate at a time. */
  function TexelX(t: nat, w: nat): nat
    requires w >= 1
  {
    t % w
  }

  function TexelY(t: nat, w: nat, h: nat): nat
    requires w >= 1 && h >= 1
  {
    (t / w) % h
  }

  function TexelZ(t: nat, w: nat, h: nat): nat
    requires w >= 1 && h >= 1
  {
    t / w / h
  }

  /** The texel stored at flat texel number t of a buffer. */
  function ReadTexel(buf: seq<real>, t: nat): Rgba
    requires t * 4 + 3 < |buf|
  {
    var i := t * 4;
    Rgba(buf[i], buf[i + 1], buf[i + 2], buf[i + 3])
  }

  /** A texel that lies inside a prefix reads the same from the prefix. */
  lemma ReadTexelPrefix(buf: seq<real>, n: nat, t: nat)
    requires t * 4 + 3 < n <= |buf|
    ensures ReadTexel(buf[..n], t) == ReadTexel(buf, t)
  {
  }

  /** A buffer that ends with the channels of v has v as its last texel. */
  lemma LastTexel(buf: seq<real>, t: nat, v: Rgba)
    requires t * 4 + 4 == |buf| && buf[t * 4..] == v.Channels()
    ensures ReadTexel(buf, t) == v
  {
    assert buf[t * 4..][0] == v.r && buf[t * 4..][1] == v.g && buf[t * 4..][2] == v.b && buf[t * 4..][3] == v.a;
  }

  /** The four channels a texel read consists of, index by index. */
  lemma TexelChannels(buf: seq<real>, t: nat, v: Rgba)
    requires t * 4 + 3 < |buf| && ReadTexel(buf, t) == v
    ensures forall i :: t * 4 <= i < t * 4 + 4 ==> buf[i] == v.Channel(i - t * 4)
  {
  }

  /**
   * The buffer with f applied to every texel, the last texel after all
   * the ones before it.
   */
  function MapTexels(buf: seq<real>, f: Rgba -> Rgba): (r: seq<real>)
    requires |buf| % 4 == 0
    ensures |r| == |buf|
    decreases |buf|
  {
    if buf == [] then []
    else
      var n := |buf| - 4;
      MapTexels(buf[..n], f) + f(ReadTexel(buf, n / 4)).Channels()
  }

  /** Texel t of the mapped buffer is f of texel t of the original. */
  lemma {:induction false} MapTexelsTexel(buf: seq<real>, f: Rgba -> Rgba, t: nat)
    requires |buf| % 4 == 0 && t * 4 + 3 < |buf|
    ensures ReadTexel(MapTexels(buf, f), t) == f(ReadTexel(buf, t))
    decreases |buf|
  {
    var n := |buf| - 4;
    var r := MapTexels(buf, f);
    assert r[..n] == MapTexels(buf[..n], f);
    if t * 4 == n {
      assert r[n..] == f(ReadTexel(buf, t)).Channels();
      LastTexel(r, t, f(ReadTexel(buf, t)));
    } else {
      MapTexelsTexel(buf[..n], f, t);
      ReadTexelPrefix(buf, n, t);
      ReadTexelPrefix(r, n, t);
    }
  }

  /** Mapping a function that keeps every texel keeps the buffer. */
  lemma {:induction false} MapTexelsIdentity(buf: seq<real>, f: Rgba -> Rgba)
    requires |buf| % 4 == 0 && forall v :: f(v) == v
    ensures MapTexels(buf, f) == buf
    decreases |buf|
  {
    if buf != [] {
      var n := |buf| - 4;
      MapTexelsIdentity(buf[..n], f);
      assert ReadTexel(buf, n / 4).Channels() == buf[n..];
      assert buf == buf[..n] + buf[n..];
    }
  }

  /** Multiplying by a natural number preserves order. */
  lemma MulMonotone(a: nat, b: nat, c: nat)
    requires a <= b
    ensures a * c <= b * c
  {
  }

  lemma MulDistributes(a: int, b: int, c: int)
    ensures (a + b) * c == a * c + b * c
  {
  }

  /** Euclidean division has a unique quotient and remainder. */
  lemma DivModUnique(q: nat, r: nat, n: nat)
    requires r < n
    ensures (q * n + r) / n == q
    ensures (q * n + r) % n == r
  {
    var a := q * n + r;
    var q', r' := a / n, a % n;
    assert q' * n + r' == q * n + r;
    if q' > q {
      MulMonotone(q + 1, q', n);
      MulDistributes(q, 1, n);
    } else if q' < q {
      MulMonotone(q' + 1, q, n);
      MulDistributes(q', 1, n);
    }
  }

  /** Every in-range coordinate triple addresses a texel of the buffer. */
  lemma TexelIndexInBounds(x: nat, y: nat, z: nat, dims: Dims)
    requires x < dims.width && y < dims.height && z < dims.depth
    ensures TexelIndex(x, y, z, dims.width, dims.height) < dims.Texels()
    ensures TexelIndex(x, y, z, dims.width, dims.height) * 4 + 3 < dims.Size()
  {
    var w, h, d := dims.width, dims.height, dims.depth;
    RowBound(y, z, h, d);
    RowBound(x, z * h + y, w, d * h);
    assert TexelIndex(x, y, z, w, h) == (z * h + y) * w + x by {
      MulDistributes(z * h, y, w);
    }
    assert d * h * w == dims.Texels();
  }

  /** An in-range column of an in-range row lies before the end of the last row. */
  lemma RowBound(x: nat, row: nat, w: nat, rows: nat)
    requires x < w && row < rows
    ensures row * w + x < rows * w
  {
    MulMonotone(row + 1, rows, w);
    MulDistributes(row, 1, w);
  }

  /**
   * Row-major stepping: after the last x of a row comes the first x of the
   * next row, after the last row of a slice the first row of the next slice,
   * and after the last slice every texel has been visited.
   */
  lemma RowMajorSteps(y: nat, z: nat, dims: Dims)
    ensures TexelIndex(dims.width, y, z, dims.width, dims.height)
         == TexelIndex(0, y + 1, z, dims.width, dims.height)
    ensures TexelIndex(0, dims.height, z, dims.width, dims.height)
         == TexelIndex(0, 0, z + 1, dims.width, dims.height)
    ensures TexelIndex(0, 0, dims.depth, dims.width, dims.height) == dims.Texels()
  {
    var w, h, d := dims.width, dims.height, dims.depth;
    MulDistributes(y, 1, w);
    MulDistributes(z, 1, h);
    MulDistributes(z * h, h, w);
    assert d * h * w == w * h * d;
  }

  /** Decoding the flat texel number gives back the coordinates. */
  lemma TexelIndexRoundTrip(x: nat, y: nat, z: nat, w: nat, h: nat)
    requires x < w && y < h
    ensures TexelX(TexelIndex(x, y, z, w, h), w) == x
    ensures TexelY(TexelIndex(x, y, z, w, h), w, h) == y
    ensures TexelZ(TexelIndex(x, y, z, w, h), w, h) == z
  {
    var t := TexelIndex(x, y, z, w, h);
    assert t == (z * h + y) * w + x;
    DivModUnique(z * h + y, x, w);
    DivModUnique(z, y, h);
  }

  /** Distinct coordinate triples never share storage. */
  lemma TexelIndexInjective(x: nat, y: nat, z: nat, x': nat, y': nat, z': nat, w: nat, h: nat)
    requires x < w && y < h && x' < w && y' < h
    requires TexelIndex(x, y, z, w, h) == TexelIndex(x', y', z', w, h)
    ensures x == x' && y == y' && z == z'
  {
    TexelIndexRoundTrip(x, y, z, w, h);
    TexelIndexRoundTrip(x', y', z', w, h);
  }

  /**
   * Channel c of texel t lives at t * 4 + c: distinct (texel, channel)
   * pairs never share a slot of the flat buffer.
   */
  lemma ChannelIndexInjective(t: nat, c: nat, t': nat, c': nat)
    requires c < 4 && c' < 4 && t * 4 + c == t' * 4 + c'
    ensures t == t' && c == c'
  {
    DivModUnique(t, c, 4);
    DivModUnique(t', c', 4);
  }

  /** Every in-range texel number is the index of its decoded coordinates. */
  lemma TexelDecodeInRange(t: nat, dims: Dims)
    requires dims.Valid() && t < dims.Texels()
    ensures TexelX(t, dims.width) < dims.width
    ensures TexelY(t, dims.width, dims.height) < dims.height
    ensures TexelZ(t, dims.width, dims.height) < dims.depth
    ensures TexelIndex(TexelX(t, dims.width), TexelY(t, dims.width, dims.height),
                       TexelZ(t, dims.width, dims.height), dims.width, dims.height) == t
  {
    var w, h, d := dims.width, dims.height, dims.depth;
    var q := t / w;
    assert t == q * w + t % w;
    assert q == q / h * h + q % h;
    QuotientBound(t, w, d * h);
    QuotientBound(q, h, d);
  }

  /** A quotient by w of something below m*w is below m. */
  lemma QuotientBound(a: nat, w: nat, m: nat)
    requires w >= 1 && a < m * w
    ensures a / w < m
  {
    var q := a / w;
    assert q * w <= a;
    if q >= m {
      MulMonotone(m, q, w);
    }
  }
}
