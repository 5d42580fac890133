/**
 * The index enums of `Upscaler`: the slots of its two descriptor heaps and the root
 * parameters of its compute and render root signatures. Each enum is a datatype whose
 * `Index` is the C++ enumerator value; each `...FromIndex` is its inverse.
 */
module Descriptors {

  /** `SrvDescriptors`: the slots of the shader-visible CBV/SRV/UAV heap. */
  datatype SrvDescriptor = DescTexture | DescModelInput | DescModelOutput | DescFinalResultTextureSrv
  {
    function Index(): (i: nat)
      ensures i < SrvDescCount
    {
      match this
      case DescTexture => 0
      case DescModelInput => 1
      case DescModelOutput => 2
      case DescFinalResultTextureSrv => 3
    }
  }

  /** `e_srvDescCount`: the size of the CBV/SRV/UAV heap. */
  const SrvDescCount: nat := 4

  /** Every SRV heap slot belongs to exactly one descriptor: the enumerators are 0..3, distinct. */
  function SrvFromIndex(i: nat): (d: SrvDescriptor)
    requires i < SrvDescCount
    ensures d.Index() == i
    ensures forall e: SrvDescriptor :: e.Index() == i ==> e == d
  {
    if i == 0 then DescTexture
    else if i == 1 then DescModelInput
    else if i == 2 then DescModelOutput
    else DescFinalResultTextureSrv
  }

  /** `RtvDescriptors`: the slots of the render-target-view heap. */
  datatype RtvDescriptor = DescFinalResultTextureRtv
  {
    function Index(): (i: nat)
      ensures i < RtvDescCount
    {
      0
    }
  }

  /** `e_rtvDescCount`: the size of the RTV heap. */
  const RtvDescCount: nat := 1

  /** `ComputeRootParameters`: the root parameters of the image-to-tensor compute pass. */
  datatype ComputeRootParameter = ComputeCb | ComputeSrv | ComputeUav
  {
    function Index(): (i: nat)
      ensures i < ComputeRootParameterCount
    {
      match this
      case ComputeCb => 0
      case ComputeSrv => 1
      case ComputeUav => 2
    }
  }

  /** `e_crpIdxCount`. */
  const ComputeRootParameterCount: nat := 3

  function ComputeRootParameterFromIndex(i: nat): (p: ComputeRootParameter)
    requires i < ComputeRootParameterCount
    ensures p.Index() == i
    ensures forall q: ComputeRootParameter :: q.Index() == i ==> q == p
  {
    if i == 0 then ComputeCb else if i == 1 then ComputeSrv else ComputeUav
  }

  /** `TensorRenderRootParameters`: the root parameters of the tensor-to-image render pass. */
  datatype RenderRootParameter = RenderCb | RenderSrv
  {
    function Index(): (i: nat)
      ensures i < RenderRootParameterCount
    {
      match this
      case RenderCb => 0
      case RenderSrv => 1
    }
  }

  /** `e_rrpIdxCount`. */
  const RenderRootParameterCount: nat := 2

  function RenderRootParameterFromIndex(i: nat): (p: RenderRootParameter)
    requires i < RenderRootParameterCount
    ensures p.Index() == i
    ensures forall q: RenderRootParameter :: q.Index() == i ==> q == p
  {
    if i == 0 then RenderCb else RenderSrv
  }
}
