# DirectML super-resolution upscaler: a Dafny model

This project models the `Upscaler` of the DirectML super-resolution sample. The upscaler
takes a shared video texture, converts it to a tensor, runs a seven-layer convolutional
network on it with DirectML, and renders the result into a texture of twice the size.
The model covers the sequential logic around those GPU calls. Five files hold it:

- `uint32.dfy` (`UInt32`): the `uint32_t`, `int` and `LONG` arithmetic of the source. It
  writes out the wrap-around of `uint32_t` multiplication and the conversions between
  `int`, `uint32_t` and `LONG`.
- `tensor_layout.dfy` (`TensorLayoutPolicy`): the `TensorLayout` enum, `GetStrides`,
  `DivUp` and the 32×16 thread-group size. Each layout has a reference definition: the
  row-major index of a position in that layout's dimension order (N, C, H, W or N, H, W, C).
  The lemmas prove that the strides `GetStrides` returns address exactly those indices.
- `descriptors.dfy` (`Descriptors`): the descriptor-heap and root-parameter enums, with
  their inverses.
- `weights.dfy` (`WeightPreprocessing`): what `CreateWeightTensors` must emit. The filter
  buffer is specified entry by entry (`FilterValue`) and the bias buffer as one value per
  output channel. The lemmas say where each weight lands and how the NHWC buffer permutes
  the NCHW one.
- `upscaler.dfy` (`DirectMLSuperResolution`): `CreateWeightTensors` as a method with the
  source's nested loops, proved against `weights.dfy`. It also holds the numbers `Render`
  records for a frame and the `Upscaler` class with its lifecycle. The class holds the
  source size, the layout, the shared handles and the buffer views. It records which
  device objects and weight slots are filled, but not their contents. It also records the
  slot counts of the two heaps, the size of the video texture, and which object each
  written heap slot describes. Each lifecycle method is specified by a function
  on an `UpscalerState` value, and the lemmas are proved about those functions.

The float product `filterWeights[idx] * scaleWeights[n]` and `Float16Compressor::compress`
are the parameters `mul` and `compress`. Every weight property holds whatever they compute.
The D3D12 runtime's answers are the parameter `DeviceAnswers`: GPU addresses, shared
handles, and the adapter's layout preference.

Three points of the code shape the model:

- Device loss. `OnDeviceLost` (`DirectMLSuperResolution.cpp:457-489`) resets every owned
  device object except `m_dmlBindingTable`. It also keeps the two shared-handle values, the
  vertex and index buffer views, the layout and the source size.
- Missing weight layers. `CreateWeightTensors` reads `weights[name]` with `operator[]`
  (`DirectMLSuperResolution.cpp:346-351`), which inserts an empty vector and reports
  nothing. The model states the lengths the loops need as preconditions. It returns the map
  with the inserted names.
- Layout. The only assignment to `m_tensorLayout` in the modelled files is the
  constructor's `Default` (`DirectMLSuperResolution.cpp:48`). The comment at
  `DirectMLSuperResolution.h:14-16` says the layout depends on the adapter. The methods
  `CreateDirectMLResources` and `InitializeDirectMLResources` are not part of this model,
  and they are the only remaining writers. So the model assumes the choice is made there,
  on every build, and re-chooses it on every restoration.

## Model

| member | source | states |
|---|---|---|
| UInt32.Wrap | Samples/DirectMLSuperResolution/DirectMLSuperResolution.cpp:72-73 | storing an `int` in a `uint32_t` keeps every representable value and otherwise reduces modulo 2^32 |
| UInt32.Mul | Samples/DirectMLSuperResolution/DirectMLSuperResolution.cpp:152-153 | a `uint32_t` product is the true product when that fits in 32 bits |
| UInt32.ToLong | Samples/DirectMLSuperResolution/DirectMLSuperResolution.cpp:138-139 | storing a `uint32_t` in a `LONG` keeps values below 2^31 and makes larger ones negative; storing the result back in a `uint32_t` recovers the value |
| TensorLayoutPolicy.GetStrides | Samples/DirectMLSuperResolution/DirectMLSuperResolution.cpp:413-434 | the innermost stride: W is contiguous (stride 1) in the default layout; in NHWC, C is contiguous and W steps over C channels |
| TensorLayoutPolicy.GetStridesExact | Samples/DirectMLSuperResolution/DirectMLSuperResolution.cpp:419-433 | for a shape where none of the products C·H, H·W, C·W, C·H·W wraps: Default gives (C·H·W, H·W, W, 1), NHWC gives (C·H·W, 1, C·W, C), so stride 0 is the same in both |
| TensorLayoutPolicy.StridesAddressRowMajor | Samples/DirectMLSuperResolution/DirectMLSuperResolution.cpp:419-433 | when no product of `GetStrides` wraps, the dot product of a position with the strides is the position's row-major index in the layout's dimension order |
| TensorLayoutPolicy.StridesAreABijection | Samples/DirectMLSuperResolution/DirectMLSuperResolution.cpp:419-433 | in both layouts the strides map the positions of the shape one-to-one onto the offsets 0 .. N·C·H·W−1 |
| TensorLayoutPolicy.BothLayoutsSpanTheVolume | Samples/DirectMLSuperResolution/DirectMLSuperResolution.cpp:419-433 | in both layouts the last position lies at offset N·C·H·W−1, so both layouts span the same element count |
| TensorLayoutPolicy.SourceIndexIsAPermutation | Samples/DirectMLSuperResolution/DirectMLSuperResolution.cpp:366-378 | the map from an index of the reordered buffer to the NCHW index it is read from is a permutation of 0 .. N·C·H·W−1, and is the identity for the default layout |
| TensorLayoutPolicy.NhwcIndexPair | Samples/DirectMLSuperResolution/DirectMLSuperResolution.cpp:373 | position (n, c, h, w) has NHWC index n·C·H·W + h·W·C + w·C + c and NCHW index w + h·W + c·H·W + n·C·H·W; both are in range, and the first is read from the second |
| TensorLayoutPolicy.DivUpIsCeiling | Samples/DirectMLSuperResolution/DirectMLSuperResolution.cpp:41-44 | when a + b − 1 does not overflow, `DivUp(a, b)` is the ceiling of a/b: b·DivUp ≥ a and b·(DivUp − 1) < a |
| TensorLayoutPolicy.GridCoversImage | Samples/DirectMLSuperResolution/DirectMLSuperResolution.cpp:107 | the 32×16 dispatch grid has a thread group for every source pixel and no group beyond the image |
| TensorLayoutPolicy.StridesWrapWithNoChannels | Samples/DirectMLSuperResolution/DirectMLSuperResolution.cpp:428-432 | with C = 0 and H = W = 2^16 the element count is 0, yet the default layout's channel stride H·W wraps to 0, so exact strides need every partial product to fit |
| TensorLayoutPolicy.DivUpWrapsNearTheTop | Samples/DirectMLSuperResolution/DirectMLSuperResolution.cpp:41-44 | near 2^32 the sum a + b − 1 wraps: `DivUp(2^32 − 1, 32)` is 0 |
| Descriptors.SrvDescriptor.Index | Samples/DirectMLSuperResolution/DirectMLSuperResolution.h:117-124 | every SRV heap slot lies below `e_srvDescCount` = 4 |
| Descriptors.SrvFromIndex | Samples/DirectMLSuperResolution/DirectMLSuperResolution.h:117-124 | each of the indices 0..3 belongs to exactly one SRV descriptor |
| Descriptors.RtvDescriptor.Index | Samples/DirectMLSuperResolution/DirectMLSuperResolution.h:126-130 | the RTV heap has the single slot 0, below `e_rtvDescCount` = 1 |
| Descriptors.ComputeRootParameter.Index | Samples/DirectMLSuperResolution/DirectMLSuperResolution.h:132-138 | compute root parameters lie below `e_crpIdxCount` = 3 |
| Descriptors.ComputeRootParameterFromIndex | Samples/DirectMLSuperResolution/DirectMLSuperResolution.h:132-138 | CB, SRV and UAV are the distinct parameters 0, 1 and 2 |
| Descriptors.RenderRootParameter.Index | Samples/DirectMLSuperResolution/DirectMLSuperResolution.h:140-145 | render root parameters lie below `e_rrpIdxCount` = 2 |
| Descriptors.RenderRootParameterFromIndex | Samples/DirectMLSuperResolution/DirectMLSuperResolution.h:140-145 | CB and SRV are the distinct parameters 0 and 1 |
| WeightPreprocessing.Touch | Samples/DirectMLSuperResolution/DirectMLSuperResolution.cpp:346-351 | `weights[name]` adds a missing name with an empty vector, keeps every other entry, and changes no lookup |
| WeightPreprocessing.DefaultEntry | Samples/DirectMLSuperResolution/DirectMLSuperResolution.cpp:381-391 | in the default layout, entry n·C·H·W + i is the converted weight at the same source index, times scale[n] when scale and shift are used |
| WeightPreprocessing.NhwcEntry | Samples/DirectMLSuperResolution/DirectMLSuperResolution.cpp:366-378 | in NHWC, entry n·C·H·W + h·W·C + w·C + c is the converted weight at source index w + h·W + c·H·W + n·C·H·W, scaled when scale and shift are used |
| WeightPreprocessing.FilterPrefixExtend | Samples/DirectMLSuperResolution/DirectMLSuperResolution.cpp:377 | pushing the next correct value onto a correct beginning of the buffer gives a longer correct beginning |
| WeightPreprocessing.WeightLandsAtStrideOffset | Samples/DirectMLSuperResolution/DirectMLSuperResolution.cpp:362-392 | the weight of position (n, c, h, w) is stored at the offset the layout's `GetStrides` strides give that position |
| WeightPreprocessing.NhwcBufferPermutesDefaultBuffer | Samples/DirectMLSuperResolution/DirectMLSuperResolution.cpp:362-392 | the NHWC filter buffer has the default buffer's length, and entry p of it is entry SourceIndex(p) of the default buffer: no weight is lost or duplicated |
| WeightPreprocessing.BiasIgnoresScale | Samples/DirectMLSuperResolution/DirectMLSuperResolution.cpp:394-398 | the bias buffer depends on the shift weights only |
| DirectMLSuperResolution.GetMaxBackBuffers | Samples/DirectMLSuperResolution/DirectMLSuperResolution.cpp:518-521 | reports `c_backBufferCount`, which is 8 |
| DirectMLSuperResolution.EmitPixelNhwc | Samples/DirectMLSuperResolution/DirectMLSuperResolution.cpp:370-378 | the channel loop grows a correct beginning of the filter buffer by the C values of pixel (h, w), and every entry of the result is the one `FilterValue` specifies for its index |
| DirectMLSuperResolution.EmitChannelNhwc | Samples/DirectMLSuperResolution/DirectMLSuperResolution.cpp:366-379 | the NHWC branch appends the C·H·W correct values of output channel n |
| DirectMLSuperResolution.EmitChannelDefault | Samples/DirectMLSuperResolution/DirectMLSuperResolution.cpp:381-391 | the default branch appends the C·H·W correct values of output channel n |
| DirectMLSuperResolution.ConvertLayerWeights | Samples/DirectMLSuperResolution/DirectMLSuperResolution.cpp:362-399 | the loop over output channels yields the whole filter buffer (N·C·H·W values, as `IsFilterBuffer` specifies) and, when scale and shift are used, one bias compress(shift[n]) per output channel, otherwise none |
| DirectMLSuperResolution.CreateWeightTensors | Samples/DirectMLSuperResolution/DirectMLSuperResolution.cpp:309-411 | the filter resource has the filter's shape and the layout's strides, and holds exactly N·C·H·W values as `IsFilterBuffer` specifies; a bias resource of shape (1, N, 1, 1) holding compress(shift[n]) for n = 0..N−1 exists if and only if a scale layer is named, otherwise the caller's bias slot is not written; the weight map gains exactly the looked-up names |
| DirectMLSuperResolution.RenderCommands | Samples/DirectMLSuperResolution/DirectMLSuperResolution.cpp:97-157 | the compute pass pushes {srcH, srcW, layout == NHWC}; below 2^30 the render pass pushes {2·srcH, 2·srcW, same flag} and the viewport and scissor are exactly 2·srcW × 2·srcH; the viewport always equals the scissor; the dispatch depth is 1; the compute SRV, compute UAV and render SRV use distinct heap slots; the compute constants, SRV and UAV go to three distinct root parameters and the render constants and SRV to two; each constant push has 3 values, the size of `ImageLayoutCB` |
| DirectMLSuperResolution.FrameUsesLiveDescriptors | Samples/DirectMLSuperResolution/DirectMLSuperResolution.cpp:101-157 | on an upscaler that can render, every heap slot a frame binds lies inside its heap (`e_srvDescCount`, `e_rtvDescCount`), the compute pass reads the video texture, and its constants give that texture's width and height |
| DirectMLSuperResolution.DispatchCoversSource | Samples/DirectMLSuperResolution/DirectMLSuperResolution.cpp:107 | the thread groups `Render` dispatches cover every source pixel, with no spare row or column of groups |
| DirectMLSuperResolution.DeviceLost | Samples/DirectMLSuperResolution/DirectMLSuperResolution.cpp:457-489 | after a device loss, only the binding table can remain, every filter and bias slot is empty, and no heap or video texture is held; layout, source size, shared handles and buffer views are unchanged; the upscaler cannot render |
| DirectMLSuperResolution.ChosenLayout | Samples/DirectMLSuperResolution/DirectMLSuperResolution.h:14-16 | NHWC is chosen exactly when `FORCE_NCHW` is off and the adapter prefers it |
| DirectMLSuperResolution.DeviceDependentResourcesCreated | Samples/DirectMLSuperResolution/DirectMLSuperResolution.cpp:175-198 | after building, every object and weight slot `Render` needs is present; both heaps have their full slot count; the video texture has the source size and is described at `e_descTexture`; the source size is kept; the layout and both shared handles come from the device; the buffer views have the sizes of the static quad data (96 and 12 bytes) |
| DirectMLSuperResolution.Initialized | Samples/DirectMLSuperResolution/DirectMLSuperResolution.cpp:70-78 | `Initialize` stores the sizes as `uint32_t` (unchanged when non-negative, congruent modulo 2^32 always), and, when every D3D12 call succeeds, the upscaler can then render |
| DirectMLSuperResolution.RestoreForgetsHistory | Samples/DirectMLSuperResolution/DirectMLSuperResolution.cpp:457-494 | with the same device answers, a device loss and restoration give the same state for any two upscalers of the same source size: nothing else that was there before matters |
| DirectMLSuperResolution.RestoreIsIdempotent | Samples/DirectMLSuperResolution/DirectMLSuperResolution.cpp:457-494 | with the same device answers, a second device loss and restoration leaves the state of the first one |
| DirectMLSuperResolution.RestoreMatchesFreshInitialize | Samples/DirectMLSuperResolution/DirectMLSuperResolution.cpp:47-78 | with the same device answers, a device loss and restoration leave the upscaler equal to a freshly constructed one initialized with the same source size |
| DirectMLSuperResolution.Upscaler.constructor | Samples/DirectMLSuperResolution/DirectMLSuperResolution.cpp:47-54 | a new upscaler has the default layout, size 0×0, a NULL video handle, zeroed buffer views, no device objects, and seven empty filter and seven empty bias slots |
| DirectMLSuperResolution.Upscaler.Initialize | Samples/DirectMLSuperResolution/DirectMLSuperResolution.cpp:70-78 | records the source size, builds everything (when every D3D12 call succeeds), and returns the video and final-result shared handles |
| DirectMLSuperResolution.Upscaler.Render | Samples/DirectMLSuperResolution/DirectMLSuperResolution.cpp:83-169 | on a built upscaler, records the frame `RenderCommands` gives for its layout and source size, and changes nothing |
| DirectMLSuperResolution.Upscaler.CreateDeviceDependentResources | Samples/DirectMLSuperResolution/DirectMLSuperResolution.cpp:175-198 | creates the two heaps with `e_srvDescCount` and `e_rtvDescCount` slots, then the texture resources, then the DirectML resources |
| DirectMLSuperResolution.Upscaler.CreateTextureResources | Samples/DirectMLSuperResolution/DirectMLSuperResolution.cpp:200-307 | creates the vertex buffer, the index buffer and the video texture; sets the views to 4 vertices of 24 bytes and 6 16-bit indices; creates the video texture at the source width and height and describes it at SRV slot `e_descTexture`; sets the video shared handle |
| DirectMLSuperResolution.Upscaler.CreateDirectMLResources | Samples/DirectMLSuperResolution/DirectMLSuperResolution.cpp:196-197 | chooses the layout, creates the DirectML objects, fills all seven filter slots and the bias slots of the six layers with scale and shift, and sets the final-result handle |
| DirectMLSuperResolution.Upscaler.OnDeviceLost | Samples/DirectMLSuperResolution/DirectMLSuperResolution.cpp:457-489 | resets every listed object, so the heaps with their descriptors and the video texture are gone, and, in a loop, all 7 filter and 7 bias slots; nothing else changes |
| DirectMLSuperResolution.Upscaler.ClearWeightSlots | Samples/DirectMLSuperResolution/DirectMLSuperResolution.cpp:483-487 | after the loop, all 7 filter and all 7 bias slots are empty |
| DirectMLSuperResolution.Upscaler.OnDeviceRestored | Samples/DirectMLSuperResolution/DirectMLSuperResolution.cpp:491-494 | rebuilds exactly as `CreateDeviceDependentResources` does |

## Left out

- D3D12 calls are not modelled: `CreateCommittedResource`, `Map`/`memcpy`/`Unmap`, view creation, `CreateSharedHandle`, barriers, clears, draw and dispatch recording. The model keeps the heap sizes, the video texture's size and view slot, and what `Render` binds (root parameters, constant counts, heap slots, group counts, viewport, scissor). Resource formats, heap types and flags, resource states, the binding of the vertex and index buffer views by `Render` (`IASetVertexBuffers`, `IASetIndexBuffer`), and the render target view of the final texture are not modelled.
- Initialized / Upscaler.Initialize / OnDeviceRestored: every `DX::ThrowIfFailed` call is assumed to succeed, so the build always ends render-ready. In the source, a failing D3D12 call throws out of the build and leaves a half-built upscaler. For example, a zero or negative size gives a video texture width of 0 or above 2^31, which `CreateCommittedResource` rejects. The model has no state for a half-built upscaler, and it puts no `requires` on the size, since the source accepts the call.
- DirectML is not modelled: graph compilation, `RecordDispatch`, the binding table, the operator initializer and `DMLCalcBufferTensorSize`. Their formulas are in a library.
- Upscaler.CreateDirectMLResources: stands for `CreateDirectMLResources` and `InitializeDirectMLResources`. Their bodies are not part of this model. It fills the slots they own (the loop `FillWeightSlots`), but writes no SRV heap view: the views at `e_descModelInput`, `e_descModelOutput` and `e_descFinalResultTextureSrv` are not part of this model, takes the layout choice from the adapter as a parameter, and does not call `CreateWeightTensors` for the seven layers.
- CreateWeightTensors: requires N·C·H·W < 2^32. Below that bound its `uint32_t` index arithmetic cannot wrap; the source does not check it.
- CreateWeightTensors: requires that scale and shift are named together. A null scale with a non-null shift fails the source's `assert`; a scale with a null shift would build a `std::string` from a null pointer.
- CreateWeightTensors: the upload through `ResourceUploadBatch` is modelled as the data of the returned resource. The buffer size from `DMLCalcBufferTensorSize` is not modelled.
- `Float16Compressor::compress` (IEEE half-precision rounding) and the float multiply are parameters and are not interpreted.
- Fences, `Prepare`, `SubmitWork`, `WaitForGpu`, `DX::DeviceResources` and the destructor are not modelled. They are GPU synchronisation and an external collaborator.
- The exported wrappers `CreateUpscaler`, `RenderUpscale` and `DeleteUpscaler` are not modelled; only `GetMaxBackBuffers` is. `DeleteUpscaler` deletes through `void*`, so the destructor's GPU drain is not run, and no drain is modelled.
- The static vertex and index data are not modelled, only their sizes.
- Loading the weights file is not part of this model.
- RenderCommands: the viewport's `FLOAT` fields hold the exact integers they are converted from. A `FLOAT` is exact only up to 2^24.
- Upscaler.Render: requires a built upscaler, since calling it earlier dereferences null pointers. Resource state transitions are not modelled.
