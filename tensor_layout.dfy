/**
 * Tensor layout policy of the super-resolution upscaler: the two memory layouts of a
 * 4-D tensor (N, C, H, W), the strides `Upscaler::GetStrides` derives from a shape and a
 * layout, and the ceiling division `DivUp` that sizes the compute grid.
 *
 * The index arithmetic is stated once, as a mixed-radix packing of four digits
 * (`Pack`/`Unpack`); each layout is the packing of the coordinates in its own order
 * (N, C, H, W for the default layout, N, H, W, C for NHWC).
 */
module TensorLayoutPolicy {
  import opened UInt32

  /** `enum class TensorLayout`: channel-major (NCHW) or channel-minor (NHWC). */
  datatype TensorLayout = Default | Nhwc

  /** A `uint32_t[4]` of sizes or strides, in (N, C, H, W) order. */
  datatype Dims = Dims(n: u32, c: u32, h: u32, w: u32)

  /** A logical element position (batch, channel, row, column) of a 4-D tensor. */
  datatype Coord = Coord(n: nat, c: nat, h: nat, w: nat)

  /** Four digits of a mixed-radix number, most significant first. */
  datatype Digits = Digits(d0: nat, d1: nat, d2: nat, d3: nat)

  /** Number of elements of one batch entry (one output channel of a filter): C*H*W. */
  function BatchVolume(sz: Dims): nat
  {
    var ch: nat := sz.c * sz.h;
    ch * sz.w
  }

  /** Number of elements of the tensor: N*C*H*W. */
  function Volume(sz: Dims): nat
  {
    sz.n * BatchVolume(sz)
  }

  /** A shape whose dimensions are all positive and whose element count fits a `uint32_t`. */
  predicate WellFormed(sz: Dims)
  {
    sz.n > 0 && sz.c > 0 && sz.h > 0 && sz.w > 0 && Volume(sz) < Modulus
  }

  predicate InBox(sz: Dims, x: Coord)
  {
    x.n < sz.n && x.c < sz.c && x.h < sz.h && x.w < sz.w
  }

  // ---------------------------------------------------------------------------
  // GetStrides and DivUp, as the source computes them (uint32_t arithmetic)
  // ---------------------------------------------------------------------------

  /** `Upscaler::GetStrides`: the strides of a tensor of shape `sizes` in `layout`. */
  function GetStrides(sizes: Dims, layout: TensorLayout): (strides: Dims)
    ensures layout == Default ==> strides.w == 1
    ensures layout == Nhwc ==> strides.c == 1 && strides.w == sizes.c
  {
    var chw := Mul(Mul(sizes.c, sizes.h), sizes.w);
    match layout
    case Nhwc => Dims(chw, 1, Mul(sizes.c, sizes.w), sizes.c)
    case Default => Dims(chw, Mul(sizes.h, sizes.w), sizes.w, 1)
  }

  /** The element offset of position `x` in a tensor with the given strides. */
  function Offset(strides: Dims, x: Coord): nat
  {
    x.n * strides.n + x.c * strides.c + x.h * strides.h + x.w * strides.w
  }

  /** The anonymous-namespace `DivUp`: `(a + b - 1) / b` on `UINT`. */
  function DivUp(a: u32, b: u32): u32
    requires b > 0
  {
    Wrap(a + b - 1) / b
  }

  /** Horizontal and vertical extent in pixels of one thread group of the conversion shader. */
  const GroupWidth: u32 := 32
  const GroupHeight: u32 := 16

  // ---------------------------------------------------------------------------
  // Reference definitions: row-major indices in each layout's dimension order
  // ---------------------------------------------------------------------------

  /** The number whose digits, in radices (_, b, c, d), are (a0, a1, a2, a3). */
  function Pack(x: Digits, b: nat, c: nat, d: nat): nat
  {
    x.d0 * (b * c * d) + x.d1 * (c * d) + x.d2 * d + x.d3
  }

  /** The digits of `p` in radices (_, b, c, d). */
  function Unpack(p: nat, b: nat, c: nat, d: nat): Digits
    requires b > 0 && c > 0 && d > 0
  {
    var r := p % (b * c * d);
    var r2 := r % (c * d);
    Digits(p / (b * c * d), r / (c * d), r2 / d, r2 % d)
  }

  /** Index of `x` when the tensor is stored densely with the layout's dimension order. */
  function RowMajorIndex(layout: TensorLayout, sz: Dims, x: Coord): nat
  {
    match layout
    case Default => Pack(Digits(x.n, x.c, x.h, x.w), sz.c, sz.h, sz.w)
    case Nhwc => Pack(Digits(x.n, x.h, x.w, x.c), sz.h, sz.w, sz.c)
  }

  /** The position stored at index `p` of a dense tensor in the given layout. */
  function RowMajorCoord(layout: TensorLayout, sz: Dims, p: nat): (x: Coord)
    requires sz.c > 0 && sz.h > 0 && sz.w > 0
  {
    match layout
    case Default =>
      var d := Unpack(p, sz.c, sz.h, sz.w);
      Coord(d.d0, d.d1, d.d2, d.d3)
    case Nhwc =>
      var d := Unpack(p, sz.h, sz.w, sz.c);
      Coord(d.d0, d.d3, d.d1, d.d2)
  }

  /**
   * For index `p` of a tensor stored in `layout`, the index the same element has in
   * the default (NCHW) layout.
   */
  function SourceIndex(layout: TensorLayout, sz: Dims, p: nat): nat
    requires sz.c > 0 && sz.h > 0 && sz.w > 0
  {
    RowMajorIndex(Default, sz, RowMajorCoord(layout, sz, p))
  }

  // ---------------------------------------------------------------------------
  // Arithmetic helpers
  // ---------------------------------------------------------------------------

  lemma MulMonotone(a: nat, b: nat, c: nat)
    requires a <= b
    ensures a * c <= b * c
  {
  }

  /** Two-digit division: the quotient and remainder of `a * m + r` by `m`. */
  lemma Radix(a: nat, r: nat, m: nat)
    requires r < m
    ensures (a * m + r) / m == a && (a * m + r) % m == r
  {
    var p := a * m + r;
    var q, s := p / m, p % m;
    assert p == q * m + s;
    if q < a {
      MulMonotone(q + 1, a, m);
      assert false;
    } else if q > a {
      MulMonotone(a + 1, q, m);
      assert false;
    }
  }

  lemma RadixBound(a: nat, bound: nat, r: nat, m: nat)
    requires a < bound && r < m
    ensures a * m + r < bound * m
  {
    MulMonotone(a + 1, bound, m);
  }

  lemma QuotientBound(p: nat, bound: nat, m: nat)
    requires m > 0 && p < bound * m
    ensures p / m < bound
  {
    if p / m >= bound {
      MulMonotone(bound, p / m, m);
      assert false;
    }
  }

  // ---------------------------------------------------------------------------
  // Packing and unpacking are inverse on in-range digits
  // ---------------------------------------------------------------------------

  lemma {:induction false} UnpackPack(x: Digits, b: nat, c: nat, d: nat)
    requires x.d1 < b && x.d2 < c && x.d3 < d
    ensures Unpack(Pack(x, b, c, d), b, c, d) == x
    ensures Pack(x, b, c, d) - x.d0 * (b * c * d) < b * c * d
  {
    var lo2 := x.d2 * d + x.d3;
    RadixBound(x.d2, c, x.d3, d);
    var lo1 := x.d1 * (c * d) + lo2;
    RadixBound(x.d1, b, lo2, c * d);
    assert b * (c * d) == b * c * d;
    Radix(x.d0, lo1, b * c * d);
    Radix(x.d1, lo2, c * d);
    Radix(x.d2, x.d3, d);
  }

  lemma {:induction false} PackUnpack(p: nat, b: nat, c: nat, d: nat)
    requires b > 0 && c > 0 && d > 0
    ensures Unpack(p, b, c, d).d1 < b
    ensures Unpack(p, b, c, d).d2 < c
    ensures Unpack(p, b, c, d).d3 < d
    ensures Pack(Unpack(p, b, c, d), b, c, d) == p
  {
    var r := p % (b * c * d);
    var r2 := r % (c * d);
    assert b * c * d == b * (c * d);
    QuotientBound(r, b, c * d);
    QuotientBound(r2, c, d);
  }

  lemma {:induction false} PackBound(x: Digits, a: nat, b: nat, c: nat, d: nat)
    requires x.d0 < a && x.d1 < b && x.d2 < c && x.d3 < d
    ensures Pack(x, b, c, d) < a * (b * c * d)
  {
    UnpackPack(x, b, c, d);
    RadixBound(x.d0, a, Pack(x, b, c, d) - x.d0 * (b * c * d), b * c * d);
  }

  lemma QuotientOfPack(p: nat, a: nat, b: nat, c: nat, d: nat)
    requires b > 0 && c > 0 && d > 0 && p < a * (b * c * d)
    ensures Unpack(p, b, c, d).d0 < a
  {
    QuotientBound(p, a, b * c * d);
  }

  // ---------------------------------------------------------------------------
  // Properties of the layouts
  // ---------------------------------------------------------------------------

  /** Both layouts count the same elements: N*C*H*W and N*H*W*C agree. */
  lemma VolumeInLayoutOrder(sz: Dims)
    ensures Volume(sz) == sz.n * (sz.c * sz.h * sz.w)
    ensures Volume(sz) == sz.n * (sz.h * sz.w * sz.c)
  {
    assert sz.c * sz.h * sz.w == sz.h * sz.w * sz.c;
  }

  /** Every position of the tensor has an index below N*C*H*W, and reading it back gives the position. */
  lemma {:induction false} RowMajorRoundTrip(layout: TensorLayout, sz: Dims, x: Coord)
    requires InBox(sz, x)
    ensures RowMajorIndex(layout, sz, x) < Volume(sz)
    ensures RowMajorCoord(layout, sz, RowMajorIndex(layout, sz, x)) == x
  {
    VolumeInLayoutOrder(sz);
    match layout
    case Default =>
      UnpackPack(Digits(x.n, x.c, x.h, x.w), sz.c, sz.h, sz.w);
      PackBound(Digits(x.n, x.c, x.h, x.w), sz.n, sz.c, sz.h, sz.w);
    case Nhwc =>
      UnpackPack(Digits(x.n, x.h, x.w, x.c), sz.h, sz.w, sz.c);
      PackBound(Digits(x.n, x.h, x.w, x.c), sz.n, sz.h, sz.w, sz.c);
  }

  /** Every index below N*C*H*W holds some position of the tensor, and that position's index is it. */
  lemma {:induction false} RowMajorCoordRoundTrip(layout: TensorLayout, sz: Dims, p: nat)
    requires sz.c > 0 && sz.h > 0 && sz.w > 0 && p < Volume(sz)
    ensures InBox(sz, RowMajorCoord(layout, sz, p))
    ensures RowMajorIndex(layout, sz, RowMajorCoord(layout, sz, p)) == p
  {
    VolumeInLayoutOrder(sz);
    match layout
    case Default =>
      PackUnpack(p, sz.c, sz.h, sz.w);
      QuotientOfPack(p, sz.n, sz.c, sz.h, sz.w);
    case Nhwc =>
      PackUnpack(p, sz.h, sz.w, sz.c);
      QuotientOfPack(p, sz.n, sz.h, sz.w, sz.c);
  }

  /** No product `GetStrides` forms wraps around: C*H, H*W, C*W and C*H*W all fit a `uint32_t`. */
  predicate StridesFit(sz: Dims)
  {
    sz.c * sz.h < Modulus && sz.h * sz.w < Modulus && sz.c * sz.w < Modulus && sz.c * sz.h * sz.w < Modulus
  }

  /** The partial products of a well-formed shape's dimensions all fit a `uint32_t`. */
  lemma {:induction false} ProductsFit(sz: Dims)
    requires WellFormed(sz)
    ensures StridesFit(sz)
  {
    var c: nat, h: nat, w: nat := sz.c, sz.h, sz.w;
    var chw: nat := c * h * w;
    MulMonotone(1, sz.n, chw);
    MulMonotone(1, w, c * h);
    assert c * h <= chw;
    MulMonotone(1, c, h * w);
    assert h * w <= c * (h * w);
    assert c * (h * w) == chw;
    MulMonotone(1, h, c * w);
    assert c * w <= h * (c * w);
    assert h * (c * w) == chw;
  }

  /**
   * Without wrap-around, `GetStrides` gives the exact place values: (C*H*W, H*W, W, 1) for
   * the default layout and (C*H*W, 1, C*W, C) for NHWC.
   */
  lemma {:induction false} GetStridesExact(sz: Dims, layout: TensorLayout)
    requires StridesFit(sz)
    ensures GetStrides(sz, layout).n == sz.c * sz.h * sz.w
    ensures layout == Default ==>
      GetStrides(sz, layout).c == sz.h * sz.w && GetStrides(sz, layout).h == sz.w &&
      GetStrides(sz, layout).w == 1
    ensures layout == Nhwc ==>
      GetStrides(sz, layout).c == 1 && GetStrides(sz, layout).h == sz.c * sz.w &&
      GetStrides(sz, layout).w == sz.c
  {
    assert Mul(sz.c, sz.h) == sz.c * sz.h;
    assert Mul(Mul(sz.c, sz.h), sz.w) == sz.c * sz.h * sz.w;
    assert Mul(sz.h, sz.w) == sz.h * sz.w;
    assert Mul(sz.c, sz.w) == sz.c * sz.w;
  }

  /** The offset given by the strides of `GetStrides` is the layout's row-major index. */
  lemma {:induction false} StridesAddressRowMajor(sz: Dims, layout: TensorLayout, x: Coord)
    requires StridesFit(sz)
    ensures Offset(GetStrides(sz, layout), x) == RowMajorIndex(layout, sz, x)
  {
    GetStridesExact(sz, layout);
    var st := GetStrides(sz, layout);
    match layout
    case Default => PlaceValueOffset(st, Digits(x.n, x.c, x.h, x.w), sz.c, sz.h, sz.w);
    case Nhwc =>
      var c: nat, h: nat, w: nat := sz.c, sz.h, sz.w;
      BatchVolumeChannelMinor(c, h, w);
      assert c * w == w * c;
      ChannelMinorOffset(st, Digits(x.n, x.h, x.w, x.c), h, w, c);
  }

  /** Strides that are the place values of radices (b, c, d) address the packed index. */
  lemma PlaceValueOffset(st: Dims, x: Digits, b: nat, c: nat, d: nat)
    requires st.n == b * c * d && st.c == c * d && st.h == d && st.w == 1
    ensures Offset(st, Coord(x.d0, x.d1, x.d2, x.d3)) == Pack(x, b, c, d)
  {
  }

  /** The same, with the least significant digit moved to the channel position (NHWC). */
  lemma ChannelMinorOffset(st: Dims, x: Digits, b: nat, c: nat, d: nat)
    requires st.n == b * c * d && st.h == c * d && st.w == d && st.c == 1
    ensures Offset(st, Coord(x.d0, x.d3, x.d1, x.d2)) == Pack(x, b, c, d)
  {
  }

  /** The largest digits in radices (_, b, c, d) pack to a * b * c * d - 1. */
  lemma {:induction false} PackOfLargestDigits(a: nat, b: nat, c: nat, d: nat)
    requires a > 0 && b > 0 && c > 0 && d > 0
    ensures Pack(Digits(a - 1, b - 1, c - 1, d - 1), b, c, d) == a * (b * c * d) - 1
  {
    var bcd: nat, cd: nat := b * c * d, c * d;
    assert bcd == b * cd;
    assert (a - 1) * bcd == a * bcd - bcd;
    assert (b - 1) * cd == bcd - cd;
    assert (c - 1) * d == cd - d;
  }

  /**
   * Under both layouts the strides of `GetStrides` map the positions of a well-formed
   * tensor one-to-one onto the indices below N*C*H*W.
   */
  lemma {:induction false} StridesAreABijection(sz: Dims, layout: TensorLayout)
    requires WellFormed(sz)
    ensures forall x :: InBox(sz, x) ==> Offset(GetStrides(sz, layout), x) < Volume(sz)
    ensures forall x, y :: (InBox(sz, x) && InBox(sz, y) &&
      Offset(GetStrides(sz, layout), x) == Offset(GetStrides(sz, layout), y)) ==> x == y
    ensures forall p :: 0 <= p < Volume(sz) ==>
      InBox(sz, RowMajorCoord(layout, sz, p)) &&
      Offset(GetStrides(sz, layout), RowMajorCoord(layout, sz, p)) == p
  {
    ProductsFit(sz);
    forall x | InBox(sz, x)
      ensures Offset(GetStrides(sz, layout), x) < Volume(sz)
      ensures RowMajorCoord(layout, sz, Offset(GetStrides(sz, layout), x)) == x
    {
      StridesAddressRowMajor(sz, layout, x);
      RowMajorRoundTrip(layout, sz, x);
    }
    forall p | 0 <= p < Volume(sz)
      ensures InBox(sz, RowMajorCoord(layout, sz, p))
      ensures Offset(GetStrides(sz, layout), RowMajorCoord(layout, sz, p)) == p
    {
      RowMajorCoordRoundTrip(layout, sz, p);
      StridesAddressRowMajor(sz, layout, RowMajorCoord(layout, sz, p));
    }
  }

  /**
   * In both layouts the last position (N-1, C-1, H-1, W-1) has offset N*C*H*W - 1, so the
   * two layouts describe buffers of the same extent.
   */
  lemma {:induction false} BothLayoutsSpanTheVolume(sz: Dims, layout: TensorLayout)
    requires WellFormed(sz)
    ensures Offset(GetStrides(sz, layout), Coord(sz.n - 1, sz.c - 1, sz.h - 1, sz.w - 1)) == Volume(sz) - 1
  {
    ProductsFit(sz);
    StridesAddressRowMajor(sz, layout, Coord(sz.n - 1, sz.c - 1, sz.h - 1, sz.w - 1));
    VolumeInLayoutOrder(sz);
    match layout
    case Default => PackOfLargestDigits(sz.n, sz.c, sz.h, sz.w);
    case Nhwc => PackOfLargestDigits(sz.n, sz.h, sz.w, sz.c);
  }

  /**
   * Reordering a tensor between layouts is a permutation of its indices: `SourceIndex`
   * maps [0, N*C*H*W) one-to-one onto itself, and is the identity for the default layout.
   */
  lemma {:induction false} SourceIndexIsAPermutation(sz: Dims, layout: TensorLayout)
    requires sz.c > 0 && sz.h > 0 && sz.w > 0
    ensures forall p :: 0 <= p < Volume(sz) ==> SourceIndex(layout, sz, p) < Volume(sz)
    ensures forall p, q :: (0 <= p < Volume(sz) && 0 <= q < Volume(sz) &&
      SourceIndex(layout, sz, p) == SourceIndex(layout, sz, q)) ==> p == q
    ensures forall s :: 0 <= s < Volume(sz) ==>
      SourceIndex(layout, sz, RowMajorIndex(layout, sz, RowMajorCoord(Default, sz, s))) == s
    ensures layout == Default ==> forall p :: 0 <= p < Volume(sz) ==> SourceIndex(layout, sz, p) == p
  {
    forall p | 0 <= p < Volume(sz)
      ensures SourceIndex(layout, sz, p) < Volume(sz)
      ensures RowMajorIndex(layout, sz, RowMajorCoord(layout, sz, p)) == p
      ensures RowMajorCoord(Default, sz, SourceIndex(layout, sz, p)) == RowMajorCoord(layout, sz, p)
    {
      RowMajorCoordRoundTrip(layout, sz, p);
      RowMajorRoundTrip(Default, sz, RowMajorCoord(layout, sz, p));
    }
    forall s | 0 <= s < Volume(sz)
      ensures SourceIndex(layout, sz, RowMajorIndex(layout, sz, RowMajorCoord(Default, sz, s))) == s
    {
      RowMajorCoordRoundTrip(Default, sz, s);
      RowMajorRoundTrip(layout, sz, RowMajorCoord(Default, sz, s));
    }
  }

  /**
   * In the NHWC layout the element at position (n, c, h, w) sits at index
   * n*C*H*W + h*(W*C) + w*C + c, and the default-layout index of that element is
   * w + h*W + c*H*W + n*C*H*W: the two index expressions of the NHWC weight loop.
   */
  lemma {:induction false} NhwcIndexPair(sz: Dims, x: Coord)
    requires InBox(sz, x)
    ensures RowMajorIndex(Nhwc, sz, x) == x.n * BatchVolume(sz) + x.h * (sz.w * sz.c) + x.w * sz.c + x.c
    ensures RowMajorIndex(Default, sz, x) == x.w + x.h * sz.w + x.c * sz.h * sz.w + x.n * BatchVolume(sz)
    ensures RowMajorIndex(Nhwc, sz, x) < Volume(sz) && RowMajorIndex(Default, sz, x) < Volume(sz)
    ensures SourceIndex(Nhwc, sz, RowMajorIndex(Nhwc, sz, x)) == RowMajorIndex(Default, sz, x)
  {
    RowMajorRoundTrip(Nhwc, sz, x);
    RowMajorRoundTrip(Default, sz, x);
    NhwcIndexExpanded(sz, x);
    DefaultIndexExpanded(sz, x);
  }

  /** The NHWC index of a position, written out as the weight loop computes it. */
  lemma NhwcIndexExpanded(sz: Dims, x: Coord)
    ensures RowMajorIndex(Nhwc, sz, x) == x.n * BatchVolume(sz) + x.h * (sz.w * sz.c) + x.w * sz.c + x.c
  {
    var c: nat, h: nat, w: nat := sz.c, sz.h, sz.w;
    var bv: nat := h * w * c;
    assert bv == BatchVolume(sz) by {
      BatchVolumeChannelMinor(c, h, w);
    }
    assert RowMajorIndex(Nhwc, sz, x) == x.n * bv + x.h * (w * c) + x.w * c + x.c;
  }

  /** The default-layout index of a position, written out as the weight loop computes it. */
  lemma DefaultIndexExpanded(sz: Dims, x: Coord)
    ensures RowMajorIndex(Default, sz, x) == x.w + x.h * sz.w + x.c * sz.h * sz.w + x.n * BatchVolume(sz)
  {
    var c: nat, h: nat, w: nat := sz.c, sz.h, sz.w;
    assert x.c * (h * w) == x.c * h * w;
  }

  /** The volume of one batch, counted in NHWC order: H rows of W pixels of C channels. */
  lemma BatchVolumeChannelMinor(c: nat, h: nat, w: nat)
    ensures h * (w * c) == c * h * w
    ensures h * w * c == c * h * w
  {
  }

  /** One more block of `b` elements: (a + 1) * b == a * b + b. */
  lemma MulSucc(a: nat, b: nat)
    ensures (a + 1) * b == a * b + b
  {
  }

  /** A product of dimensions with an element has no zero factor. */
  lemma PositiveFactors(c: nat, h: nat, w: nat)
    requires c * h * w > 0
    ensures c > 0 && h > 0 && w > 0
  {
  }

  // ---------------------------------------------------------------------------
  // DivUp and the compute grid
  // ---------------------------------------------------------------------------

  /** Without wrap-around, `DivUp(a, b)` is the ceiling of a / b. */
  lemma DivUpIsCeiling(a: u32, b: u32)
    requires b > 0 && a + b - 1 < Modulus
    ensures b * DivUp(a, b) >= a
    ensures b * (DivUp(a, b) - 1) < a
  {
    var q := (a + b - 1) / b;
    var r := (a + b - 1) % b;
    assert a + b - 1 == q * b + r;
  }

  /**
   * The grid `Dispatch(DivUp(width, 32), DivUp(height, 16), 1)` of 32x16 thread groups
   * has a group for every source pixel, and no column or row of groups lies wholly
   * outside the image.
   */
  lemma {:induction false} GridCoversImage(width: u32, height: u32, x: nat, y: nat)
    requires width + GroupWidth - 1 < Modulus && height + GroupHeight - 1 < Modulus
    requires x < width && y < height
    ensures x / GroupWidth < DivUp(width, GroupWidth)
    ensures y / GroupHeight < DivUp(height, GroupHeight)
    ensures (DivUp(width, GroupWidth) - 1) * GroupWidth < width
    ensures (DivUp(height, GroupHeight) - 1) * GroupHeight < height
  {
    DivUpIsCeiling(width, GroupWidth);
    DivUpIsCeiling(height, GroupHeight);
  }

  /** Beyond the bound, the `UINT` sum wraps and `DivUp` is no longer a ceiling. */
  lemma DivUpWrapsNearTheTop()
    ensures DivUp(Modulus - 1, GroupWidth) == 0
  {
  }

  /**
   * `StridesFit` cannot be relaxed to C*H*W < 2^32: with no channels the element count is 0,
   * but the default layout's channel stride H*W = 2^32 wraps to 0.
   */
  lemma StridesWrapWithNoChannels()
    ensures var sz := Dims(1, 0, 0x1_0000, 0x1_0000);
      BatchVolume(sz) == 0 && GetStrides(sz, Default).c == 0 && sz.h * sz.w == Modulus
  {
  }
}
