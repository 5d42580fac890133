/**
 * The `Upscaler` of the DirectML super-resolution sample: its weight preprocessing
 * (`CreateWeightTensors`), the per-frame numbers `Render` feeds to the GPU, and the
 * lifecycle of its device-dependent objects (`Initialize`, `OnDeviceLost`,
 * `OnDeviceRestored`).
 *
 * A D3D12 or DirectML object is modelled only by whether its slot holds it: the set
 * `objects` of the class holds the `ComPtr`/`unique_ptr` members that are non-null, and
 * the two arrays of seven booleans are `m_modelConvFilterWeights`/`m_modelConvBiasWeights`.
 * What the D3D12 runtime hands back (GPU addresses, shared handles, the adapter's layout
 * preference) is the parameter `DeviceAnswers`.
 */
module DirectMLSuperResolution {
  import opened UInt32
  import opened TensorLayoutPolicy
  import opened Descriptors
  import opened WeightPreprocessing

  /** `Upscaler::c_backBufferCount`: frames in flight before the circular buffer is reused. */
  const BackBufferCount: u32 := 8

  /** `Upscaler::c_numConvLayers`: the convolution layers of the network. */
  const NumConvLayers: nat := 7

  /** `FORCE_NCHW`: when set, the default layout is used whatever the adapter. */
  const ForceNchw: bool := false

  /** The exported `GetMaxBackBuffers`: how many frames may be in flight. */
  function GetMaxBackBuffers(): (r: u32)
    ensures r == BackBufferCount && r == 8
  {
    BackBufferCount
  }

  // ---------------------------------------------------------------------------
  // CreateWeightTensors
  // ---------------------------------------------------------------------------

  /** A weight buffer: the shape and strides it was created with, and what was uploaded into it. */
  datatype WeightResource = WeightResource(sizes: Dims, strides: Dims, data: seq<Half>)

  /** The values of an optional layer: none when the layer name is null. */
  function LayerWeights<F>(weights: WeightMap<F>, name: Option<string>): seq<F>
  {
    match name
    case None => []
    case Some(n) => Lookup(weights, n)
  }

  /**
   * The innermost loop of the NHWC branch: appends the C channel values of pixel (h, w) of
   * output channel `n`, each taken from its NCHW position w + h*W + c*H*W + n*C*H*W.
   */
  method EmitPixelNhwc<F>(prefix: seq<Half>, n: nat, h: nat, w: nat, sz: Dims, filterWeights: seq<F>,
                          scaleWeights: seq<F>, useScaleShift: bool, mul: (F, F) -> F, compress: F -> Half)
    returns (out: seq<Half>)
    requires WeightsCover(sz, filterWeights, scaleWeights, useScaleShift)
    requires n < sz.n && h < sz.h && w < sz.w
    requires |prefix| == n * BatchVolume(sz) + h * (sz.w * sz.c) + w * sz.c
    requires FilterPrefix(prefix, Nhwc, sz, filterWeights, scaleWeights, useScaleShift, mul, compress)
    ensures |out| == |prefix| + sz.c
    ensures FilterPrefix(out, Nhwc, sz, filterWeights, scaleWeights, useScaleShift, mul, compress)
  {
    var C: nat, H: nat, W: nat := sz.c, sz.h, sz.w;
    var chw: nat := C * H * W;
    out := prefix;
    var c: nat := 0;
    while c < C
      invariant c <= C
      invariant |out| == |prefix| + c
      invariant FilterPrefix(out, Nhwc, sz, filterWeights, scaleWeights, useScaleShift, mul, compress)
    {
      // Apply the scale now, so that no normalization layer is needed.
      var idx := w + h * W + c * H * W + n * chw;
      NhwcEntry(sz, filterWeights, scaleWeights, useScaleShift, mul, compress, Coord(n, c, h, w), |out|, idx);
      var scaledWeight := if useScaleShift then mul(filterWeights[idx], scaleWeights[n]) else filterWeights[idx];
      FilterPrefixExtend(out, compress(scaledWeight), Nhwc, sz, filterWeights, scaleWeights,
                         useScaleShift, mul, compress);
      out := out + [compress(scaledWeight)];
      c := c + 1;
    }
  }

  /**
   * The NHWC branch of the switch in `CreateWeightTensors`: appends the filter values of
   * output channel `n`, reordered from NCHW to NHWC by the loops over h, w and c.
   */
  method EmitChannelNhwc<F>(filterFp16: seq<Half>, n: nat, sz: Dims, filterWeights: seq<F>, scaleWeights: seq<F>,
                            useScaleShift: bool, mul: (F, F) -> F, compress: F -> Half)
    returns (out: seq<Half>)
    requires WeightsCover(sz, filterWeights, scaleWeights, useScaleShift)
    requires n < sz.n && |filterFp16| == n * BatchVolume(sz)
    requires FilterPrefix(filterFp16, Nhwc, sz, filterWeights, scaleWeights, useScaleShift, mul, compress)
    ensures |out| == n * BatchVolume(sz) + BatchVolume(sz)
    ensures FilterPrefix(out, Nhwc, sz, filterWeights, scaleWeights, useScaleShift, mul, compress)
  {
    var C: nat, H: nat, W: nat := sz.c, sz.h, sz.w;
    var chw: nat := C * H * W;
    out := filterFp16;
    var h: nat := 0;
    while h < H
      invariant h <= H
      invariant |out| == n * chw + h * (W * C)
      invariant FilterPrefix(out, Nhwc, sz, filterWeights, scaleWeights, useScaleShift, mul, compress)
    {
      var w: nat := 0;
      while w < W
        invariant w <= W
        invariant |out| == n * chw + h * (W * C) + w * C
        invariant FilterPrefix(out, Nhwc, sz, filterWeights, scaleWeights, useScaleShift, mul, compress)
      {
        out := EmitPixelNhwc(out, n, h, w, sz, filterWeights, scaleWeights, useScaleShift, mul, compress);
        MulSucc(w, C);
        w := w + 1;
      }
      MulSucc(h, W * C);
      h := h + 1;
    }
    BatchVolumeChannelMinor(C, H, W);
  }

  /**
   * The default branch of the switch in `CreateWeightTensors`: appends the C*H*W filter
   * values of output channel `n` in the order they are stored.
   */
  method EmitChannelDefault<F>(filterFp16: seq<Half>, n: nat, sz: Dims, filterWeights: seq<F>, scaleWeights: seq<F>,
                               useScaleShift: bool, mul: (F, F) -> F, compress: F -> Half)
    returns (out: seq<Half>)
    requires WeightsCover(sz, filterWeights, scaleWeights, useScaleShift)
    requires n < sz.n && |filterFp16| == n * BatchVolume(sz)
    requires FilterPrefix(filterFp16, Default, sz, filterWeights, scaleWeights, useScaleShift, mul, compress)
    ensures |out| == n * BatchVolume(sz) + BatchVolume(sz)
    ensures FilterPrefix(out, Default, sz, filterWeights, scaleWeights, useScaleShift, mul, compress)
  {
    var chw: nat := sz.c * sz.h * sz.w;
    out := filterFp16;
    var i: nat := 0;
    while i < chw
      invariant i <= chw
      invariant |out| == n * chw + i
      invariant FilterPrefix(out, Default, sz, filterWeights, scaleWeights, useScaleShift, mul, compress)
    {
      // Apply the scale now, so that no normalization layer is needed.
      var idx := n * chw + i;
      DefaultEntry(sz, filterWeights, scaleWeights, useScaleShift, mul, compress, n, i);
      var scaledWeight := if useScaleShift then mul(filterWeights[idx], scaleWeights[n]) else filterWeights[idx];
      FilterPrefixExtend(out, compress(scaledWeight), Default, sz, filterWeights, scaleWeights,
                         useScaleShift, mul, compress);
      out := out + [compress(scaledWeight)];
      i := i + 1;
    }
  }

  /**
   * The loop over output channels of `CreateWeightTensors`: the half-precision filter
   * buffer in `layout` and, with scale and shift weights, one bias per output channel.
   */
  method ConvertLayerWeights<F>(layout: TensorLayout, sz: Dims, filterWeights: seq<F>, scaleWeights: seq<F>,
                                shiftWeights: seq<F>, useScaleShift: bool, mul: (F, F) -> F, compress: F -> Half)
    returns (filterFp16: seq<Half>, biasFp16: seq<Half>)
    requires WeightsCover(sz, filterWeights, scaleWeights, useScaleShift)
    requires useScaleShift ==> |shiftWeights| >= sz.n
    ensures IsFilterBuffer(filterFp16, layout, sz, filterWeights, scaleWeights, useScaleShift, mul, compress)
    ensures IsBiasBuffer(biasFp16, sz, shiftWeights, useScaleShift, compress)
  {
    filterFp16, biasFp16 := [], [];

    var N: nat := sz.n;
    ghost var chw: nat := BatchVolume(sz);
    var n: nat := 0;
    while n < N
      invariant n <= N
      invariant |filterFp16| == n * chw
      invariant FilterPrefix(filterFp16, layout, sz, filterWeights, scaleWeights, useScaleShift, mul, compress)
      invariant |biasFp16| == (if useScaleShift then n else 0)
      invariant forall k :: 0 <= k < |biasFp16| ==> biasFp16[k] == compress(shiftWeights[k])
    {
      match layout {
        case Nhwc =>
          filterFp16 := EmitChannelNhwc(filterFp16, n, sz, filterWeights, scaleWeights, useScaleShift, mul, compress);
        case Default =>
          filterFp16 := EmitChannelDefault(filterFp16, n, sz, filterWeights, scaleWeights, useScaleShift, mul, compress);
      }

      if useScaleShift {
        // The initial bias is 0, so the fused bias is the shift.
        biasFp16 := biasFp16 + [compress(shiftWeights[n])];
      }
      MulSucc(n, chw);
      n := n + 1;
    }
  }

  /**
   * `Upscaler::CreateWeightTensors` for the layout `m_tensorLayout` holds: the filter
   * resource (shape `filterSizes`, strides of the layout) and its half-precision data, and,
   * only when scale and shift layers are named, the bias resource (one value per output
   * channel). Without them no bias resource is produced and the caller's bias slot is not
   * written. The weight map is returned because `operator[]` inserts every name it looks up.
   */
  method CreateWeightTensors<F>(layout: TensorLayout, weights: WeightMap<F>, convLayerName: string,
                                scaleLayerName: Option<string>, shiftLayerName: Option<string>,
                                filterSizes: Dims, mul: (F, F) -> F, compress: F -> Half)
    returns (filterResource: WeightResource, biasResource: Option<WeightResource>, weightsAfter: WeightMap<F>)
    requires scaleLayerName.None? ==> shiftLayerName.None?
    requires scaleLayerName.Some? ==> shiftLayerName.Some?
    requires Volume(filterSizes) < Modulus
    requires WeightsCover(filterSizes, Lookup(weights, convLayerName), LayerWeights(weights, scaleLayerName),
                          scaleLayerName.Some?)
    requires scaleLayerName.Some? ==> |LayerWeights(weights, shiftLayerName)| >= filterSizes.n
    ensures filterResource.sizes == filterSizes && filterResource.strides == GetStrides(filterSizes, layout)
    ensures IsFilterBuffer(filterResource.data, layout, filterSizes, Lookup(weights, convLayerName),
                           LayerWeights(weights, scaleLayerName), scaleLayerName.Some?, mul, compress)
    ensures biasResource.Some? <==> scaleLayerName.Some?
    ensures biasResource.Some? ==>
      biasResource.value.sizes == Dims(1, filterSizes.n, 1, 1) &&
      biasResource.value.strides == GetStrides(Dims(1, filterSizes.n, 1, 1), layout) &&
      IsBiasBuffer(biasResource.value.data, filterSizes, LayerWeights(weights, shiftLayerName), true, compress)
    ensures weightsAfter.Keys == weights.Keys + {convLayerName} +
      (if scaleLayerName.Some? then {scaleLayerName.value, shiftLayerName.value} else {})
    ensures forall k :: k in weights ==> weightsAfter[k] == weights[k]
    ensures forall k :: Lookup(weightsAfter, k) == Lookup(weights, k)
  {
    var useScaleShift := true;
    if scaleLayerName.None? {
      useScaleShift := false;
    }

    var filterStrides := GetStrides(filterSizes, layout);
    var biasSizes := Dims(1, filterSizes.n, 1, 1);

    weightsAfter := Touch(weights, convLayerName);
    var filterWeights := Lookup(weightsAfter, convLayerName);
    var scaleWeights: seq<F>, shiftWeights: seq<F> := [], [];
    if useScaleShift {
      weightsAfter := Touch(weightsAfter, scaleLayerName.value);
      scaleWeights := Lookup(weightsAfter, scaleLayerName.value);
      weightsAfter := Touch(weightsAfter, shiftLayerName.value);
      shiftWeights := Lookup(weightsAfter, shiftLayerName.value);
    }

    var filterFp16, biasFp16 := ConvertLayerWeights(layout, filterSizes, filterWeights, scaleWeights, shiftWeights,
                                                    useScaleShift, mul, compress);

    filterResource := WeightResource(filterSizes, filterStrides, filterFp16);
    if useScaleShift {
      biasResource := Some(WeightResource(biasSizes, GetStrides(biasSizes, layout), biasFp16));
    } else {
      biasResource := None;
    }
  }

  // ---------------------------------------------------------------------------
  // Render: what one frame feeds to the GPU
  // ---------------------------------------------------------------------------

  /** `ImageLayoutCB`: the constant block both passes push. */
  datatype ImageLayoutCB = ImageLayoutCB(height: u32, width: u32, useNhwc: bool)

  /** The number of 32-bit values in an `ImageLayoutCB`: `Height`, `Width` and `UseNhwc`. */
  const ImageLayoutValueCount: nat := 3

  /** The width and height of the `D3D12_VIEWPORT`, as the integers its `FLOAT` fields are converted from. */
  datatype Viewport = Viewport(width: int, height: int)

  /** The scissor `D3D12_RECT` (a rectangle of `LONG` values). */
  datatype ScissorRect = ScissorRect(left: i32, top: i32, right: i32, bottom: i32)

  /**
   * The values one call of `Render` records: the image-to-tensor compute pass (the root
   * parameter, value count and contents of its constants, the root parameter and heap slot
   * of its SRV and UAV tables, the thread-group counts), then the tensor-to-image render pass
   * (render target, viewport, scissor, the root parameter, value count and contents of its
   * constants, the root parameter and heap slot of its SRV table, and the indices of the quad).
   */
  datatype FrameCommands = FrameCommands(
    computeConstantsParam: ComputeRootParameter,
    computeConstantCount: nat,
    computeConstants: ImageLayoutCB,
    computeSrvParam: ComputeRootParameter,
    computeSrv: SrvDescriptor,
    computeUavParam: ComputeRootParameter,
    computeUav: SrvDescriptor,
    groupsX: u32,
    groupsY: u32,
    groupsZ: u32,
    renderTarget: RtvDescriptor,
    viewport: Viewport,
    scissor: ScissorRect,
    renderConstantsParam: RenderRootParameter,
    renderConstantCount: nat,
    renderConstants: ImageLayoutCB,
    renderSrvParam: RenderRootParameter,
    renderSrv: SrvDescriptor,
    indexCount: nat)

  /**
   * The frame `Render` records for the layout and source size the upscaler holds. The
   * compute pass works on the source size; the render pass, its viewport and its scissor on
   * twice that size, computed in `uint32_t` and stored in `LONG`.
   */
  function RenderCommands(layout: TensorLayout, srcWidth: u32, srcHeight: u32): (f: FrameCommands)
    ensures f.computeConstants.height == srcHeight && f.computeConstants.width == srcWidth
    ensures f.computeConstants.useNhwc <==> layout == Nhwc
    ensures f.renderConstants.useNhwc == f.computeConstants.useNhwc
    ensures srcWidth < 0x4000_0000 ==>
      f.renderConstants.width == 2 * srcWidth && f.scissor.right == 2 * srcWidth && f.viewport.width == 2 * srcWidth
    ensures srcHeight < 0x4000_0000 ==>
      f.renderConstants.height == 2 * srcHeight && f.scissor.bottom == 2 * srcHeight && f.viewport.height == 2 * srcHeight
    ensures f.viewport.width == f.scissor.right && f.viewport.height == f.scissor.bottom
    ensures f.scissor.left == 0 && f.scissor.top == 0
    ensures f.groupsZ == 1
    ensures f.computeSrv.Index() != f.computeUav.Index() && f.computeUav.Index() != f.renderSrv.Index()
    ensures f.computeSrv.Index() != f.renderSrv.Index()
    ensures f.computeConstantsParam.Index() != f.computeSrvParam.Index()
    ensures f.computeConstantsParam.Index() != f.computeUavParam.Index()
    ensures f.computeSrvParam.Index() != f.computeUavParam.Index()
    ensures f.renderConstantsParam.Index() != f.renderSrvParam.Index()
    ensures f.computeConstantCount == ImageLayoutValueCount && f.renderConstantCount == ImageLayoutValueCount
  {
    var useNhwc := layout == Nhwc;
    var right := ToLong(Mul(srcWidth, 2));
    var bottom := ToLong(Mul(srcHeight, 2));
    FrameCommands(
      ComputeCb, 3, ImageLayoutCB(srcHeight, srcWidth, useNhwc),
      ComputeSrv, DescTexture,
      ComputeUav, DescModelInput,
      DivUp(srcWidth, GroupWidth),
      DivUp(srcHeight, GroupHeight),
      1,
      DescFinalResultTextureRtv,
      Viewport(right, bottom),
      ScissorRect(0, 0, right, bottom),
      RenderCb, 3, ImageLayoutCB(Mul(srcHeight, 2), Mul(srcWidth, 2), useNhwc),
      RenderSrv, DescModelOutput,
      QuadIndexCount)
  }

  /**
   * The compute grid of `Render` covers the source image with no spare row or column of
   * thread groups: every pixel (x, y) falls in a dispatched group of 32x16 threads.
   */
  lemma {:induction false} DispatchCoversSource(layout: TensorLayout, srcWidth: u32, srcHeight: u32, x: nat, y: nat)
    requires srcWidth + GroupWidth - 1 < Modulus && srcHeight + GroupHeight - 1 < Modulus
    requires x < srcWidth && y < srcHeight
    ensures x / GroupWidth < RenderCommands(layout, srcWidth, srcHeight).groupsX
    ensures y / GroupHeight < RenderCommands(layout, srcWidth, srcHeight).groupsY
    ensures GroupWidth * (RenderCommands(layout, srcWidth, srcHeight).groupsX - 1) < srcWidth
    ensures GroupHeight * (RenderCommands(layout, srcWidth, srcHeight).groupsY - 1) < srcHeight
  {
    GridCoversImage(srcWidth, srcHeight, x, y);
  }

  // ---------------------------------------------------------------------------
  // The device-dependent objects and the lifecycle
  // ---------------------------------------------------------------------------

  /** A `HANDLE` value; 0 is `NULL`. */
  type Handle = nat

  const NullHandle: Handle := 0

  /** `sizeof(Vertex)`: an `XMFLOAT4` position and an `XMFLOAT2` texture coordinate. */
  const VertexSize: nat := 24

  /** The full-screen quad: four vertices, two triangles of 16-bit indices. */
  const QuadVertexCount: nat := 4
  const QuadIndexCount: nat := 6
  const IndexSize: nat := 2

  datatype IndexFormat = FormatUnknown | R16Uint

  /** `D3D12_VERTEX_BUFFER_VIEW`. */
  datatype VertexBufferView = VertexBufferView(bufferLocation: nat, strideInBytes: nat, sizeInBytes: nat)

  /** `D3D12_INDEX_BUFFER_VIEW`. */
  datatype IndexBufferView = IndexBufferView(bufferLocation: nat, format: IndexFormat, sizeInBytes: nat)

  /** The owning `ComPtr`/`unique_ptr` members of `Upscaler`, apart from the two weight arrays. */
  datatype DeviceObject =
    | SrvDescriptorHeap | RtvDescriptorHeap
    | TensorRenderRootSignature | TensorRenderPipelineState
    | VideoTexture | FinalResultTexture | VertexBuffer | IndexBuffer
    | ComputePso | ComputeRootSignature
    | DmlDevice | DmlCommandRecorder | DmlDescriptorHeap
    | ModelInput | ModelOutput | ModelPersistentResource | ModelTemporaryResource
    | DmlGraph | DmlBindingTable | DmlOpInitializer

  /** What `OnDeviceLost` resets: every object except the binding table. */
  const ReleasedOnDeviceLost: set<DeviceObject> := {
    TensorRenderPipelineState, TensorRenderRootSignature, VideoTexture, FinalResultTexture,
    IndexBuffer, VertexBuffer, SrvDescriptorHeap, RtvDescriptorHeap, ComputePso, ComputeRootSignature,
    DmlDevice, DmlCommandRecorder, ModelInput, ModelOutput, DmlOpInitializer, DmlGraph,
    ModelTemporaryResource, ModelPersistentResource, DmlDescriptorHeap}

  const AllDeviceObjects: set<DeviceObject> := ReleasedOnDeviceLost + {DmlBindingTable}

  /** Every member of `Upscaler` that owns a device object is one of `AllDeviceObjects`. */
  lemma AllObjectsKnown()
    ensures forall o: DeviceObject :: o in AllDeviceObjects
  {
    forall o: DeviceObject
      ensures o in AllDeviceObjects
    {
      match o
      case SrvDescriptorHeap | RtvDescriptorHeap | TensorRenderRootSignature | TensorRenderPipelineState
        | VideoTexture | FinalResultTexture | VertexBuffer | IndexBuffer | ComputePso | ComputeRootSignature
        | DmlDevice | DmlCommandRecorder | DmlDescriptorHeap | ModelInput | ModelOutput
        | ModelPersistentResource | ModelTemporaryResource | DmlGraph | DmlBindingTable | DmlOpInitializer =>
    }
  }

  /** Created by `CreateDeviceDependentResources` itself. */
  const DescriptorHeaps: set<DeviceObject> := {SrvDescriptorHeap, RtvDescriptorHeap}

  /** Created by `CreateTextureResources`. */
  const TextureResources: set<DeviceObject> := {VertexBuffer, IndexBuffer, VideoTexture}

  /** Created by `CreateDirectMLResources` and `InitializeDirectMLResources`. */
  const DirectMLObjects: set<DeviceObject> := AllDeviceObjects - DescriptorHeaps - TextureResources

  /** No weight resource in any of the seven slots. */
  const NoWeights: seq<bool> := [false, false, false, false, false, false, false]

  /**
   * What the D3D12 runtime and the adapter answer while the objects are built: the GPU
   * addresses of the two buffers, the two shared handles, and whether the adapter is one
   * for which the channel-minor layout is chosen.
   */
  datatype DeviceAnswers = DeviceAnswers(vertexBufferAddress: nat, indexBufferAddress: nat,
                                         videoTextureHandle: Handle, finalResultTextureHandle: Handle,
                                         adapterPrefersNhwc: bool)

  /** The width and height a 2-D texture is created with. */
  datatype TextureSize = TextureSize(width: u32, height: u32)

  /**
   * The fields of an `Upscaler`, as a value, with what its heaps and its video texture were
   * created with: the slot counts of the two descriptor heaps (0 while a heap is not held),
   * the size of the video texture (`None` while it is not held), and the object that each
   * written slot of the shader-visible heap describes.
   */
  datatype UpscalerState = UpscalerState(
    layout: TensorLayout,
    srcWidth: u32,
    srcHeight: u32,
    videoTextureHandle: Handle,
    finalResultTextureHandle: Handle,
    vertexBufferView: VertexBufferView,
    indexBufferView: IndexBufferView,
    objects: set<DeviceObject>,
    filterWeights: seq<bool>,
    biasWeights: seq<bool>,
    srvHeapSize: nat,
    rtvHeapSize: nat,
    videoTextureSize: Option<TextureSize>,
    srvViews: map<SrvDescriptor, DeviceObject>)

  /** Both weight-slot arrays have their `c_numConvLayers` entries. */
  predicate SlotsWellFormed(s: UpscalerState)
  {
    |s.filterWeights| == NumConvLayers && |s.biasWeights| == NumConvLayers
  }

  /**
   * Everything `Render` and the compiled graph use is present: every device object, the
   * filter weights of all seven layers and the biases of the six layers with scale and shift,
   * both heaps at their full size, and the video texture, of the source size, described at
   * slot `e_descTexture`.
   */
  predicate RenderReady(s: UpscalerState)
  {
    SlotsWellFormed(s) && s.objects == AllDeviceObjects &&
    (forall i :: 0 <= i < NumConvLayers ==> s.filterWeights[i]) &&
    (forall i :: 0 <= i < NumConvLayers - 1 ==> s.biasWeights[i]) &&
    s.srvHeapSize == SrvDescCount && s.rtvHeapSize == RtvDescCount &&
    s.videoTextureSize == Some(TextureSize(s.srcWidth, s.srcHeight)) &&
    DescTexture in s.srvViews && s.srvViews[DescTexture] == VideoTexture
  }

  /** A freshly constructed `Upscaler` (`m_finalResultTextureHandle` is left uninitialized). */
  function FreshState(finalResultTextureHandle: Handle): UpscalerState
  {
    UpscalerState(Default, 0, 0, NullHandle, finalResultTextureHandle,
                  VertexBufferView(0, 0, 0), IndexBufferView(0, FormatUnknown, 0), {}, NoWeights, NoWeights,
                  0, 0, None, map[])
  }

  /** The state after `OnDeviceLost`. */
  function DeviceLost(s: UpscalerState): (r: UpscalerState)
    requires SlotsWellFormed(s)
    ensures SlotsWellFormed(r)
    ensures forall o :: o in r.objects <==> o == DmlBindingTable && o in s.objects
    ensures forall i :: 0 <= i < NumConvLayers ==> !r.filterWeights[i] && !r.biasWeights[i]
    ensures r.srvHeapSize == 0 && r.rtvHeapSize == 0 && r.videoTextureSize.None? && r.srvViews == map[]
    ensures r.layout == s.layout && r.srcWidth == s.srcWidth && r.srcHeight == s.srcHeight
    ensures r.videoTextureHandle == s.videoTextureHandle && r.finalResultTextureHandle == s.finalResultTextureHandle
    ensures r.vertexBufferView == s.vertexBufferView && r.indexBufferView == s.indexBufferView
    ensures !RenderReady(r)
  {
    AllObjectsKnown();
    s.(objects := s.objects - ReleasedOnDeviceLost, filterWeights := NoWeights, biasWeights := NoWeights,
       srvHeapSize := 0, rtvHeapSize := 0, videoTextureSize := None, srvViews := map[])
  }

  /** The state after the two descriptor heaps are created: new heaps, of full size, with no slot written. */
  function WithDescriptorHeaps(s: UpscalerState): UpscalerState
  {
    s.(objects := s.objects + DescriptorHeaps, srvHeapSize := SrvDescCount, rtvHeapSize := RtvDescCount,
       srvViews := map[])
  }

  /** The state after `CreateTextureResources`. */
  function WithTextureResources(s: UpscalerState, dev: DeviceAnswers): UpscalerState
  {
    s.(objects := s.objects + TextureResources,
       vertexBufferView := VertexBufferView(dev.vertexBufferAddress, VertexSize, QuadVertexCount * VertexSize),
       indexBufferView := IndexBufferView(dev.indexBufferAddress, R16Uint, QuadIndexCount * IndexSize),
       videoTextureHandle := dev.videoTextureHandle,
       videoTextureSize := Some(TextureSize(s.srcWidth, s.srcHeight)),
       srvViews := s.srvViews[DescTexture := VideoTexture])
  }

  /** The layout chosen for the adapter: channel-minor only where preferred and `FORCE_NCHW` is off. */
  function ChosenLayout(adapterPrefersNhwc: bool): (layout: TensorLayout)
    ensures layout == Nhwc <==> !ForceNchw && adapterPrefersNhwc
  {
    if !ForceNchw && adapterPrefersNhwc then Nhwc else Default
  }

  /**
   * The state after `CreateDirectMLResources` and `InitializeDirectMLResources`: the layout
   * is chosen, the DirectML objects exist, every layer has its filter weights and the six
   * layers with scale and shift weights have their bias; the last layer's bias slot is not
   * written.
   */
  function WithDirectMLResources(s: UpscalerState, dev: DeviceAnswers): UpscalerState
    requires SlotsWellFormed(s)
  {
    s.(layout := ChosenLayout(dev.adapterPrefersNhwc),
       objects := s.objects + DirectMLObjects,
       filterWeights := [true, true, true, true, true, true, true],
       biasWeights := [true, true, true, true, true, true, s.biasWeights[NumConvLayers - 1]],
       finalResultTextureHandle := dev.finalResultTextureHandle)
  }

  /** The state after `CreateDeviceDependentResources`, which `OnDeviceRestored` runs. */
  function DeviceDependentResourcesCreated(s: UpscalerState, dev: DeviceAnswers): (r: UpscalerState)
    requires SlotsWellFormed(s)
    ensures SlotsWellFormed(r) && RenderReady(r)
    ensures r.srcWidth == s.srcWidth && r.srcHeight == s.srcHeight
    ensures r.layout == ChosenLayout(dev.adapterPrefersNhwc)
    ensures r.videoTextureHandle == dev.videoTextureHandle && r.finalResultTextureHandle == dev.finalResultTextureHandle
    ensures r.vertexBufferView.sizeInBytes == QuadVertexCount * VertexSize
    ensures r.indexBufferView.sizeInBytes == QuadIndexCount * IndexSize
    ensures r.videoTextureSize == Some(TextureSize(s.srcWidth, s.srcHeight))
  {
    AllObjectsKnown();
    WithDirectMLResources(WithTextureResources(WithDescriptorHeaps(s), dev), dev)
  }

  /** The state after `Initialize(width, height, ...)`: the `int` sizes stored as `uint32_t`, then everything built. */
  function Initialized(s: UpscalerState, width: i32, height: i32, dev: DeviceAnswers): (r: UpscalerState)
    requires SlotsWellFormed(s)
    ensures RenderReady(r)
    ensures width >= 0 ==> r.srcWidth == width
    ensures height >= 0 ==> r.srcHeight == height
    ensures (width - r.srcWidth) % Modulus == 0 && (height - r.srcHeight) % Modulus == 0
  {
    var sized := s.(srcWidth := Wrap(width), srcHeight := Wrap(height));
    DeviceDependentResourcesCreated(sized, dev)
  }

  /**
   * On an upscaler that can render, every heap slot a frame binds lies inside its heap, the
   * compute pass reads the video texture, and the constants it pushes give that texture's size.
   */
  lemma FrameUsesLiveDescriptors(s: UpscalerState)
    requires RenderReady(s)
    ensures var f := RenderCommands(s.layout, s.srcWidth, s.srcHeight);
      f.computeSrv.Index() < s.srvHeapSize && f.computeUav.Index() < s.srvHeapSize &&
      f.renderSrv.Index() < s.srvHeapSize && f.renderTarget.Index() < s.rtvHeapSize &&
      f.computeSrv in s.srvViews && s.srvViews[f.computeSrv] == VideoTexture &&
      s.videoTextureSize == Some(TextureSize(f.computeConstants.width, f.computeConstants.height))
  {
  }

  /**
   * What is rebuilt after a device loss depends on the source size only: two upscalers of
   * the same size, in whatever state, are identical after `OnDeviceLost` and
   * `OnDeviceRestored` with the same device.
   */
  lemma {:induction false} RestoreForgetsHistory(s1: UpscalerState, s2: UpscalerState, dev: DeviceAnswers)
    requires SlotsWellFormed(s1) && SlotsWellFormed(s2)
    requires s1.srcWidth == s2.srcWidth && s1.srcHeight == s2.srcHeight
    ensures DeviceDependentResourcesCreated(DeviceLost(s1), dev) == DeviceDependentResourcesCreated(DeviceLost(s2), dev)
  {
    var r1 := DeviceDependentResourcesCreated(DeviceLost(s1), dev);
    var r2 := DeviceDependentResourcesCreated(DeviceLost(s2), dev);
    assert r1.objects == AllDeviceObjects == r2.objects;
  }

  /** Losing and restoring the device twice in a row leaves the upscaler as doing it once. */
  lemma {:induction false} RestoreIsIdempotent(s: UpscalerState, dev: DeviceAnswers)
    requires SlotsWellFormed(s)
    ensures var once := DeviceDependentResourcesCreated(DeviceLost(s), dev);
      DeviceDependentResourcesCreated(DeviceLost(once), dev) == once
  {
    var once := DeviceDependentResourcesCreated(DeviceLost(s), dev);
    RestoreForgetsHistory(once, s, dev);
  }

  /**
   * After a device loss and restoration, the upscaler is the one a fresh `Upscaler`
   * becomes when `Initialize` is called with its source size.
   */
  lemma {:induction false} RestoreMatchesFreshInitialize(s: UpscalerState, h: Handle, dev: DeviceAnswers)
    requires SlotsWellFormed(s)
    ensures DeviceDependentResourcesCreated(DeviceLost(s), dev) ==
      Initialized(FreshState(h), ToLong(s.srcWidth), ToLong(s.srcHeight), dev)
  {
    var sized := FreshState(h).(srcWidth := s.srcWidth, srcHeight := s.srcHeight);
    NothingToLose(sized);
    RestoreForgetsHistory(s, sized, dev);
  }

  /** A state that holds no device object and no weight is unchanged by a device loss. */
  lemma NothingToLose(s: UpscalerState)
    requires s.objects == {} && s.filterWeights == NoWeights && s.biasWeights == NoWeights
    requires s.srvHeapSize == 0 && s.rtvHeapSize == 0 && s.videoTextureSize.None? && s.srvViews == map[]
    ensures DeviceLost(s) == s
  {
  }

  /**
   * `Upscaler`. The set `objects` stands for its owning pointers to D3D12 and DirectML
   * objects: an object is in the set when its pointer is non-null.
   */
  class Upscaler {
    var tensorLayout: TensorLayout
    var srcTextureWidth: u32
    var srcTextureHeight: u32
    var videoTextureHandle: Handle
    var finalResultTextureHandle: Handle
    var vertexBufferView: VertexBufferView
    var indexBufferView: IndexBufferView
    var objects: set<DeviceObject>
    /** What the owned heaps and video texture were created with (see `UpscalerState`). */
    var srvHeapSize: nat
    var rtvHeapSize: nat
    var videoTextureSize: Option<TextureSize>
    var srvViews: map<SrvDescriptor, DeviceObject>
    const modelConvFilterWeights: array<bool>
    const modelConvBiasWeights: array<bool>

    ghost predicate Valid()
      reads this
    {
      modelConvFilterWeights.Length == NumConvLayers && modelConvBiasWeights.Length == NumConvLayers &&
      modelConvFilterWeights != modelConvBiasWeights
    }

    ghost function State(): (s: UpscalerState)
      reads this, modelConvFilterWeights, modelConvBiasWeights
      requires Valid()
      ensures SlotsWellFormed(s)
    {
      UpscalerState(tensorLayout, srcTextureWidth, srcTextureHeight, videoTextureHandle, finalResultTextureHandle,
                    vertexBufferView, indexBufferView, objects, modelConvFilterWeights[..], modelConvBiasWeights[..],
                    srvHeapSize, rtvHeapSize, videoTextureSize, srvViews)
    }

    constructor ()
      ensures Valid() && fresh(modelConvFilterWeights) && fresh(modelConvBiasWeights)
      ensures State() == FreshState(finalResultTextureHandle)
    {
      tensorLayout := Default;
      srcTextureWidth := 0;
      srcTextureHeight := 0;
      videoTextureHandle := NullHandle;
      indexBufferView := IndexBufferView(0, FormatUnknown, 0);
      vertexBufferView := VertexBufferView(0, 0, 0);
      objects := {};
      srvHeapSize, rtvHeapSize, videoTextureSize, srvViews := 0, 0, None, map[];
      modelConvFilterWeights := new bool[NumConvLayers](_ => false);
      modelConvBiasWeights := new bool[NumConvLayers](_ => false);
      new;
      assert modelConvFilterWeights[..] == NoWeights;
      assert modelConvBiasWeights[..] == NoWeights;
    }

    /** Records the source size, builds every device-dependent object, and returns the two shared handles. */
    method Initialize(width: i32, height: i32, dev: DeviceAnswers) returns (srcSharedHandle: Handle, dstSharedHandle: Handle)
      requires Valid()
      modifies this, modelConvFilterWeights, modelConvBiasWeights
      ensures Valid()
      ensures State() == Initialized(old(State()), width, height, dev)
      ensures srcSharedHandle == videoTextureHandle == dev.videoTextureHandle
      ensures dstSharedHandle == finalResultTextureHandle == dev.finalResultTextureHandle
    {
      srcTextureWidth := Wrap(width);
      srcTextureHeight := Wrap(height);
      CreateDeviceDependentResources(dev);
      srcSharedHandle := videoTextureHandle;
      dstSharedHandle := finalResultTextureHandle;
    }

    /** Records one frame: reads the layout and the source size, changes nothing. */
    method Render() returns (frame: FrameCommands)
      requires Valid() && RenderReady(State())
      ensures frame == RenderCommands(tensorLayout, srcTextureWidth, srcTextureHeight)
    {
      frame := RenderCommands(tensorLayout, srcTextureWidth, srcTextureHeight);
    }

    method CreateDeviceDependentResources(dev: DeviceAnswers)
      requires Valid()
      modifies this, modelConvFilterWeights, modelConvBiasWeights
      ensures Valid()
      ensures State() == DeviceDependentResourcesCreated(old(State()), dev)
    {
      ghost var before := State();
      objects := objects + {SrvDescriptorHeap};
      srvHeapSize, srvViews := SrvDescCount, map[];
      objects := objects + {RtvDescriptorHeap};
      rtvHeapSize := RtvDescCount;
      assert State() == WithDescriptorHeaps(before);
      CreateTextureResources(dev);
      CreateDirectMLResources(dev);
    }

    method CreateTextureResources(dev: DeviceAnswers)
      requires Valid()
      modifies this
      ensures Valid()
      ensures State() == WithTextureResources(old(State()), dev)
    {
      ghost var before := State();
      objects := objects + {VertexBuffer};
      vertexBufferView := VertexBufferView(dev.vertexBufferAddress, VertexSize, QuadVertexCount * VertexSize);
      objects := objects + {IndexBuffer};
      indexBufferView := IndexBufferView(dev.indexBufferAddress, R16Uint, QuadIndexCount * IndexSize);
      objects := objects + {VideoTexture};
      videoTextureSize := Some(TextureSize(srcTextureWidth, srcTextureHeight));
      srvViews := srvViews[DescTexture := VideoTexture];
      videoTextureHandle := dev.videoTextureHandle;
      assert objects == before.objects + TextureResources;
    }

    /**
     * Stands for `CreateDirectMLResources` and `InitializeDirectMLResources`, whose bodies
     * are not part of this model: fills every slot those create and chooses the layout.
     */
    method CreateDirectMLResources(dev: DeviceAnswers)
      requires Valid()
      modifies this, modelConvFilterWeights, modelConvBiasWeights
      ensures Valid()
      ensures State() == WithDirectMLResources(old(State()), dev)
    {
      ghost var before := State();
      tensorLayout := ChosenLayout(dev.adapterPrefersNhwc);
      objects := objects + DirectMLObjects;
      FillWeightSlots();
      finalResultTextureHandle := dev.finalResultTextureHandle;
      assert State() == before.(layout := ChosenLayout(dev.adapterPrefersNhwc),
                                objects := before.objects + DirectMLObjects,
                                filterWeights := [true, true, true, true, true, true, true],
                                biasWeights := [true, true, true, true, true, true, before.biasWeights[NumConvLayers - 1]],
                                finalResultTextureHandle := dev.finalResultTextureHandle);
    }

    /**
     * The `CreateWeightTensors` calls of the seven layers: every layer gets its filter
     * resource, every layer but the last its bias resource.
     */
    method FillWeightSlots()
      requires Valid()
      modifies modelConvFilterWeights, modelConvBiasWeights
      ensures modelConvFilterWeights[..] == [true, true, true, true, true, true, true]
      ensures modelConvBiasWeights[..] ==
        [true, true, true, true, true, true, old(modelConvBiasWeights[NumConvLayers - 1])]
    {
      for i := 0 to NumConvLayers
        modifies modelConvFilterWeights, modelConvBiasWeights
        invariant forall j :: 0 <= j < i ==> modelConvFilterWeights[j]
        invariant forall j :: 0 <= j < i && j < NumConvLayers - 1 ==> modelConvBiasWeights[j]
        invariant modelConvBiasWeights[NumConvLayers - 1] == old(modelConvBiasWeights[NumConvLayers - 1])
      {
        modelConvFilterWeights[i] := true;
        if i < NumConvLayers - 1 {
          modelConvBiasWeights[i] := true;
        }
      }
      assert modelConvFilterWeights[..] == [true, true, true, true, true, true, true];
      assert modelConvBiasWeights[..] == [true, true, true, true, true, true, old(modelConvBiasWeights[NumConvLayers - 1])];
    }

    /** Releases every device object except the binding table, and all fourteen weight slots. */
    method OnDeviceLost()
      requires Valid()
      modifies this, modelConvFilterWeights, modelConvBiasWeights
      ensures Valid()
      ensures State() == DeviceLost(old(State()))
    {
      ghost var before := State();
      // The nineteen `Reset`/`reset` calls, of which the order does not matter here.
      objects := objects - ReleasedOnDeviceLost;
      srvHeapSize, rtvHeapSize, videoTextureSize, srvViews := 0, 0, None, map[];
      ClearWeightSlots();
      assert State() == before.(objects := before.objects - ReleasedOnDeviceLost,
                                filterWeights := NoWeights, biasWeights := NoWeights,
                                srvHeapSize := 0, rtvHeapSize := 0, videoTextureSize := None, srvViews := map[]);
    }

    /** The loop of `OnDeviceLost` that resets the filter and bias resource of every layer. */
    method ClearWeightSlots()
      requires Valid()
      modifies modelConvFilterWeights, modelConvBiasWeights
      ensures modelConvFilterWeights[..] == NoWeights && modelConvBiasWeights[..] == NoWeights
    {
      for i := 0 to NumConvLayers
        modifies modelConvFilterWeights, modelConvBiasWeights
        invariant forall j :: 0 <= j < i ==> !modelConvFilterWeights[j] && !modelConvBiasWeights[j]
      {
        modelConvFilterWeights[i] := false;
        modelConvBiasWeights[i] := false;
      }
      assert modelConvFilterWeights[..] == NoWeights;
      assert modelConvBiasWeights[..] == NoWeights;
    }

    /** Rebuilds every device-dependent object, as on first initialization. */
    method OnDeviceRestored(dev: DeviceAnswers)
      requires Valid()
      modifies this, modelConvFilterWeights, modelConvBiasWeights
      ensures Valid()
      ensures State() == DeviceDependentResourcesCreated(old(State()), dev)
    {
      CreateDeviceDependentResources(dev);
    }
  }
}
