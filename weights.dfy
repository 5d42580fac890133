/**
 * What `Upscaler::CreateWeightTensors` must emit for one convolution layer: the
 * half-precision filter buffer, in the order the tensor layout calls for, with the
 * layer's scale coefficients fused in, and one bias per output channel.
 *
 * The float product `filterWeights[idx] * scaleWeights[n]` and
 * `Float16Compressor::compress` are not interpreted: they are the parameters `mul` and
 * `compress`, and everything proved here holds whatever they compute.
 */
module WeightPreprocessing {
  import opened UInt32
  import opened TensorLayoutPolicy

  datatype Option<T> = None | Some(value: T)

  /** A half-precision value as `Float16Compressor::compress` returns it: its 16 bits. */
  type Half = bv16

  /** `WeightMapType`: the loaded weights, by layer name. */
  type WeightMap<F> = map<string, seq<F>>

  /** The value of `weights[name]` on the map: a missing layer reads as an empty vector. */
  function Lookup<F>(weights: WeightMap<F>, name: string): seq<F>
  {
    if name in weights then weights[name] else []
  }

  /**
   * The map after `weights[name]`: the subscript operator inserts a missing name, with an
   * empty vector, and leaves every other entry as it was.
   */
  function Touch<F>(weights: WeightMap<F>, name: string): (r: WeightMap<F>)
    ensures r.Keys == weights.Keys + {name}
    ensures forall k :: k in weights ==> k in r && r[k] == weights[k]
    ensures name !in weights ==> r[name] == []
    ensures forall k :: Lookup(r, k) == Lookup(weights, k)
  {
    if name in weights then weights else weights[name := []]
  }

  /**
   * The float converted for filter element `src` of output channel `n`: scaled by the
   * channel's scale coefficient when the layer has scale and shift weights.
   */
  function FusedWeight<F>(filter: seq<F>, scale: seq<F>, useScaleShift: bool, mul: (F, F) -> F, src: nat, n: nat): F
    requires src < |filter| && (useScaleShift ==> n < |scale|)
  {
    if useScaleShift then mul(filter[src], scale[n]) else filter[src]
  }

  /** The weight store holds enough values for a filter of shape `sz`. */
  predicate WeightsCover<F>(sz: Dims, filter: seq<F>, scale: seq<F>, useScaleShift: bool)
  {
    |filter| >= Volume(sz) && (useScaleShift ==> |scale| >= sz.n)
  }

  /**
   * Entry `p` of the half-precision filter buffer in `layout`: the converted, possibly
   * scaled, weight of the element the layout stores at index `p`.
   */
  function FilterValue<F>(layout: TensorLayout, sz: Dims, filter: seq<F>, scale: seq<F>, useScaleShift: bool,
                          mul: (F, F) -> F, compress: F -> Half, p: nat): Half
    requires sz.c > 0 && sz.h > 0 && sz.w > 0 && p < Volume(sz)
    requires WeightsCover(sz, filter, scale, useScaleShift)
  {
    RowMajorCoordRoundTrip(layout, sz, p);
    RowMajorRoundTrip(Default, sz, RowMajorCoord(layout, sz, p));
    compress(FusedWeight(filter, scale, useScaleShift, mul, SourceIndex(layout, sz, p), RowMajorCoord(layout, sz, p).n))
  }

  /** `out` is a correct beginning of the filter buffer. */
  predicate FilterPrefix<F>(out: seq<Half>, layout: TensorLayout, sz: Dims, filter: seq<F>, scale: seq<F>,
                            useScaleShift: bool, mul: (F, F) -> F, compress: F -> Half)
    requires WeightsCover(sz, filter, scale, useScaleShift)
  {
    |out| <= Volume(sz) &&
    forall p :: 0 <= p < |out| ==>
      sz.c > 0 && sz.h > 0 && sz.w > 0 &&
      out[p] == FilterValue(layout, sz, filter, scale, useScaleShift, mul, compress, p)
  }

  /** `out` is the whole filter buffer: N*C*H*W entries, each as `FilterValue` says. */
  predicate IsFilterBuffer<F>(out: seq<Half>, layout: TensorLayout, sz: Dims, filter: seq<F>, scale: seq<F>,
                              useScaleShift: bool, mul: (F, F) -> F, compress: F -> Half)
    requires WeightsCover(sz, filter, scale, useScaleShift)
  {
    |out| == Volume(sz) && FilterPrefix(out, layout, sz, filter, scale, useScaleShift, mul, compress)
  }

  /** `out` is the bias buffer: one converted shift value per output channel, or nothing. */
  predicate IsBiasBuffer<F>(out: seq<Half>, sz: Dims, shift: seq<F>, useScaleShift: bool, compress: F -> Half)
  {
    |out| == (if useScaleShift then sz.n else 0) &&
    forall n :: 0 <= n < |out| ==> n < |shift| && out[n] == compress(shift[n])
  }

  /** Appending the next correct value to a correct beginning gives a longer correct beginning. */
  lemma {:induction false} FilterPrefixExtend<F>(out: seq<Half>, v: Half, layout: TensorLayout, sz: Dims,
      filter: seq<F>, scale: seq<F>, useScaleShift: bool, mul: (F, F) -> F, compress: F -> Half)
    requires WeightsCover(sz, filter, scale, useScaleShift)
    requires FilterPrefix(out, layout, sz, filter, scale, useScaleShift, mul, compress)
    requires sz.c > 0 && sz.h > 0 && sz.w > 0 && |out| < Volume(sz)
    requires v == FilterValue(layout, sz, filter, scale, useScaleShift, mul, compress, |out|)
    ensures FilterPrefix(out + [v], layout, sz, filter, scale, useScaleShift, mul, compress)
  {
    var o := out + [v];
    forall p | 0 <= p < |o|
      ensures o[p] == FilterValue(layout, sz, filter, scale, useScaleShift, mul, compress, p)
    {
      if p < |out| {
        assert o[p] == out[p];
      }
    }
  }

  // ---------------------------------------------------------------------------
  // The entries the two emission loops of the source produce
  // ---------------------------------------------------------------------------

  /**
   * In the default layout, entry n*C*H*W + i of the filter buffer is the converted weight
   * at the same index of the source, scaled by channel n's coefficient.
   */
  lemma {:induction false} DefaultEntry<F>(sz: Dims, filter: seq<F>, scale: seq<F>, useScaleShift: bool,
                                           mul: (F, F) -> F, compress: F -> Half, n: nat, i: nat)
    requires WeightsCover(sz, filter, scale, useScaleShift)
    requires n < sz.n && i < BatchVolume(sz)
    ensures sz.c > 0 && sz.h > 0 && sz.w > 0
    ensures n * BatchVolume(sz) + i < Volume(sz)
    ensures FilterValue(Default, sz, filter, scale, useScaleShift, mul, compress, n * BatchVolume(sz) + i) ==
      compress(FusedWeight(filter, scale, useScaleShift, mul, n * BatchVolume(sz) + i, n))
  {
    PositiveFactors(sz.c, sz.h, sz.w);
    var p := n * BatchVolume(sz) + i;
    RadixBound(n, sz.n, i, BatchVolume(sz));
    Radix(n, i, BatchVolume(sz));
    RowMajorCoordRoundTrip(Default, sz, p);
  }

  /**
   * In the NHWC layout, entry n*C*H*W + h*(W*C) + w*C + c of the filter buffer is the
   * converted weight at source index w + h*W + c*H*W + n*C*H*W, scaled by channel n's
   * coefficient.
   */
  lemma {:induction false} NhwcEntry<F>(sz: Dims, filter: seq<F>, scale: seq<F>, useScaleShift: bool,
                                        mul: (F, F) -> F, compress: F -> Half, x: Coord, p: int, idx: int)
    requires WeightsCover(sz, filter, scale, useScaleShift)
    requires InBox(sz, x)
    requires p == x.n * BatchVolume(sz) + x.h * (sz.w * sz.c) + x.w * sz.c + x.c
    requires idx == x.w + x.h * sz.w + x.c * sz.h * sz.w + x.n * BatchVolume(sz)
    ensures 0 <= p < Volume(sz) && 0 <= idx < Volume(sz)
    ensures FilterValue(Nhwc, sz, filter, scale, useScaleShift, mul, compress, p) ==
      compress(FusedWeight(filter, scale, useScaleShift, mul, idx, x.n))
  {
    NhwcIndexPair(sz, x);
    RowMajorRoundTrip(Nhwc, sz, x);
  }

  // ---------------------------------------------------------------------------
  // Where each weight lands, and how the layouts relate
  // ---------------------------------------------------------------------------

  /**
   * The weight of position (n, c, h, w) of the filter, whose source index is its offset
   * under the default strides, is stored at its offset under the strides `GetStrides`
   * gives for the buffer's layout.
   */
  lemma {:induction false} WeightLandsAtStrideOffset<F>(out: seq<Half>, layout: TensorLayout, sz: Dims,
      filter: seq<F>, scale: seq<F>, useScaleShift: bool, mul: (F, F) -> F, compress: F -> Half, x: Coord)
    requires WellFormed(sz) && InBox(sz, x)
    requires WeightsCover(sz, filter, scale, useScaleShift)
    requires IsFilterBuffer(out, layout, sz, filter, scale, useScaleShift, mul, compress)
    ensures Offset(GetStrides(sz, layout), x) < |out|
    ensures Offset(GetStrides(sz, Default), x) < |filter|
    ensures out[Offset(GetStrides(sz, layout), x)] ==
      compress(FusedWeight(filter, scale, useScaleShift, mul, Offset(GetStrides(sz, Default), x), x.n))
  {
    ProductsFit(sz);
    StridesAddressRowMajor(sz, layout, x);
    StridesAddressRowMajor(sz, Default, x);
    RowMajorRoundTrip(layout, sz, x);
    RowMajorRoundTrip(Default, sz, x);
  }

  /**
   * The NHWC filter buffer is the default-layout buffer permuted by `SourceIndex` (a
   * permutation of the indices, see `SourceIndexIsAPermutation`): entry p of the one
   * is entry SourceIndex(p) of the other, so no weight is lost or duplicated.
   */
  lemma {:induction false} NhwcBufferPermutesDefaultBuffer<F>(nhwc: seq<Half>, nchw: seq<Half>, sz: Dims,
      filter: seq<F>, scale: seq<F>, useScaleShift: bool, mul: (F, F) -> F, compress: F -> Half)
    requires WeightsCover(sz, filter, scale, useScaleShift)
    requires IsFilterBuffer(nhwc, Nhwc, sz, filter, scale, useScaleShift, mul, compress)
    requires IsFilterBuffer(nchw, Default, sz, filter, scale, useScaleShift, mul, compress)
    ensures |nhwc| == |nchw|
    ensures forall p :: 0 <= p < |nhwc| ==>
      sz.c > 0 && sz.h > 0 && sz.w > 0 && SourceIndex(Nhwc, sz, p) < |nchw| &&
      nhwc[p] == nchw[SourceIndex(Nhwc, sz, p)]
  {
    forall p | 0 <= p < |nhwc|
      ensures sz.c > 0 && sz.h > 0 && sz.w > 0 && SourceIndex(Nhwc, sz, p) < |nchw|
      ensures nhwc[p] == nchw[SourceIndex(Nhwc, sz, p)]
    {
      var s := SourceIndex(Nhwc, sz, p);
      RowMajorCoordRoundTrip(Nhwc, sz, p);
      RowMajorRoundTrip(Default, sz, RowMajorCoord(Nhwc, sz, p));
      RowMajorCoordRoundTrip(Default, sz, s);
      assert SourceIndex(Default, sz, s) == s;
    }
  }

  /** The bias buffer depends on the shift weights only: not on the filter, not on the scale. */
  lemma {:induction false} BiasIgnoresScale<F>(b1: seq<Half>, b2: seq<Half>, sz: Dims, shift: seq<F>,
                                               useScaleShift: bool, compress: F -> Half)
    requires IsBiasBuffer(b1, sz, shift, useScaleShift, compress)
    requires IsBiasBuffer(b2, sz, shift, useScaleShift, compress)
    ensures b1 == b2
  {
    assert |b1| == |b2|;
    forall n | 0 <= n < |b1| ensures b1[n] == b2[n] {
    }
  }
}
