# RayVox-Engine: the bookkeeping under the Direct3D 12 calls

RayVox-Engine is a small Direct3D 12 engine for Windows with two renderers:

- a rasterising renderer (`DX12Context`) that clears and draws into the swap chain's back buffers;
- a compute renderer (`DX12ComputeContext`) that dispatches a shader over an off-screen image and copies the image into the back buffer.

Underneath the API calls is a sequential layer of bookkeeping, and this project models that layer and proves its properties:

- which back buffer is current;
- the fence value recorded for each frame slot;
- the resource states each recorded barrier assumes;
- when the host waits for the GPU;
- when allocators, lists, back buffers and the swap chain may be reused or released.

The GPU and the platform are environment objects whose usage rules are preconditions, so the verifier checks that the engine's call order obeys them:

- a barrier's "before" state must be the resource's current state;
- a host wait may only name a value already signalled;
- an allocator may only be reset once its work has completed;
- back-buffer references may only be dropped while the queue is idle;
- the swap chain may only be resized when no back-buffer reference is held.

The GPU appears in the model only as a fence whose completed value is monotone and never above the signalled value. Every other platform choice is a parameter:

- the next back-buffer index;
- every HRESULT;
- the adapters enumerated;
- the message the window receives;
- the random colours.

The modules follow the engine's files:

- `Failures` (`ThrowIfFailed`);
- `Barriers` (resource states, recorded commands and their replay semantics);
- `Gpu` (the environment objects);
- `Graphics` (`DX12Context`);
- `Compute` (`DX12ComputeContext`);
- `WindowTools` (the window layer);
- `ConstantBuffers` (`DX12Resource`);
- `Voxels`.

A raised exception is an explicit `Thrown` outcome. The member returns it at once and keeps any state it already changed.

## Model

| member | source | states |
|---|---|---|
| Failures.ThrowIfFailed | src/AssertUtils.h:8-14 | raises exactly when the HRESULT is negative, and returns normally exactly when it is not |
| Barriers.Step | src/DX12Context.cpp:264-273 | a command runs exactly when the resources it touches are in the states it needs; a transition sets its resource to the "after" state and changes nothing else |
| Gpu.Fence.WaitFor | src/DX12ComputeContext.cpp:254-257 | waiting on a value that has been signalled returns with the completed value at least that value, never lower than before, never above what was signalled |
| Gpu.ReleaseBackBuffer | src/DX12ComputeContext.cpp:281-284 | a back-buffer reference may only be dropped when the GPU has completed everything signalled; it clears only that slot |
| Gpu.SwapChain.ResizeBuffers | src/WindowsTools.cpp:61-62 | allowed only when no back-buffer reference is held; on success a new generation of buffers with the new size and the index the platform reports, on failure no change |
| Graphics.PresentArguments | src/DX12Context.cpp:324-325 | the sync interval is 1 iff vsync is on (0 otherwise); the tearing flag is set iff tearing is supported and vsync is off (0 otherwise) |
| Graphics.RtvHandlesDistinct | src/DX12Context.cpp:230-242 | with a positive descriptor increment, the views of different back buffers sit at different handles |
| Graphics.UpdateRenderTargetViews | src/DX12Context.cpp:225-243 | for every i < 3, slot i holds back buffer i and the view at heap start + i * increment views it; every other descriptor is unchanged |
| Barriers.BarrierRoundTrip | src/DX12Context.cpp:294-295 | a transition followed by its mirror image (as in the PRESENT to RENDER_TARGET pair at lines 294-295 and its mirror at line 320) is legal from the "before" state and leaves every state as it was |
| Graphics.GraphicsFrameReturnsToPresent | src/DX12Context.cpp:294-320 | the frame's transitions (PRESENT to RENDER_TARGET before clear and draw, then back) are legal iff the back buffer starts in PRESENT, and then every state ends as it started |
| Graphics.LeaderIsFirstMaximum | src/DX12Context.cpp:51-70 | the adapter kept by the loop has the greatest dedicated memory among eligible adapters and beats every earlier one strictly; there is none iff no eligible adapter has any |
| Graphics.GetAdapter | src/DX12Context.cpp:28-74 | factory failure raises; WARP when asked; otherwise the first eligible adapter of maximal dedicated memory, none if all have zero, and a raise iff an interface query fails on an adapter that became the maximum |
| Graphics.DX12Context.InitContext | src/DX12Context.cpp:565-590 | width and height from the client size, tearing support recorded, the current index read from the swap chain, fence values 0, and a view written for every back buffer |
| Graphics.DX12Context.GetCurrentBackBuffer | src/DX12Context.cpp:281-284 | the swap chain's buffer at the current index |
| Graphics.DX12Context.GetCurrentRenderTargetView | src/DX12Context.cpp:275-279 | a descriptor handle whose view is the current back buffer's render target view |
| Graphics.DX12Context.RecordFrame | src/DX12Context.cpp:288-320 | the recorded list is exactly: transition to RENDER_TARGET, clear, draw six indices, transition back to PRESENT; every "before" state is checked against the tracked state |
| Graphics.DX12Context.Render | src/DX12Context.cpp:286-331 | the frame is submitted; the fence value it got is stored for the pre-present slot and no other slot; Present gets the vsync/tearing arguments; the new index is the platform's; the host waits for the new slot's fence value; a failed Present raises |
| Graphics.DX12Context.UpdateBufferResource | src/DX12Context.cpp:333-376 | a COMMON default-heap buffer of numElements * elementSize bytes (size_t wrap); an upload buffer of that size and a recorded copy exactly when there is data; either failure raises |
| Graphics.DX12Context.UploadPlane | src/DX12Context.cpp:425-448 | uploads 48 vertex bytes (stride 12) and 12 index bytes; the index view is R16_UINT over 12 bytes but addresses the vertex buffer, as written |
| Graphics.DX12Context.InitShaders | src/DX12Context.cpp:423-550 | the context is marked initialised exactly when every step succeeded, and only after the copy queue's upload batch has been submitted and waited for |
| Graphics.DX12Context.Flush | src/DX12Context.cpp:417-421 | the direct, compute and copy queues are flushed in that order, each left with its completed value equal to its new fence value |
| Compute.ThreadGroupCount | src/DX12ComputeContext.cpp:51-53 | the 8-wide group count: count * 8 covers dim and falls short of dim + 8; the uint32 sum wraps for the seven largest dims, giving 0 |
| Compute.ComputeFrameRestoresStates | src/DX12ComputeContext.cpp:220-245 | dispatch, image UAV to COPY_SOURCE, back buffer PRESENT to COPY_DEST, copy, and both back: legal iff the image starts in UAV and the back buffer in PRESENT, and then every state ends as it started |
| Compute.InitialStates | src/DX12ComputeContext.cpp:142-157 | after init the image is in UNORDERED_ACCESS, as created, and every back buffer in PRESENT |
| Compute.DX12ComputeContext.Init | src/DX12ComputeContext.cpp:46-164 | width and height both from clientHeight; X and Y group counts cover them; Z is 1; fence value 0; vsync on; buffers fetched; the image's view at the heap start; the list open and empty |
| Compute.DX12ComputeContext.RecordFrame | src/DX12ComputeContext.cpp:208-245 | the recorded list is exactly the compute frame for the current back buffer, dispatching before the pre-copy barriers, copying only while the image is COPY_SOURCE and the back buffer COPY_DEST |
| Compute.DX12ComputeContext.Submit | src/DX12ComputeContext.cpp:249-260 | the list is executed; the fence value goes up by exactly 1 before the signal; the host waits until it completes; only then are the allocator and the list reset |
| Compute.DX12ComputeContext.Render | src/DX12ComputeContext.cpp:206-264 | one frame executed for the back buffer the swap chain named; the fence value +1 and completed; Present(1, 0) with its HRESULT ignored; the resource states unchanged |
| Compute.DX12ComputeContext.Flush | src/DX12ComputeContext.cpp:266-287 | the same fence value is signalled again and waited for; only then are all back buffers, the swap chain and the device released |
| WindowTools.TruncDiv | src/WindowsTools.cpp:18-19 | C++ integer division truncates toward zero: the quotient has the sign of the dividend, and its multiple of the divisor lies within one divisor of the dividend, on the side of zero |
| WindowTools.TruncDivIsUnique | src/WindowsTools.cpp:18-19 | those bounds determine the quotient: any q that meets them is the truncated quotient |
| WindowTools.WindowOrigin | src/WindowsTools.cpp:18-19 | the origin is never negative, centres the window when it fits on the screen, and is 0 when it does not |
| WindowTools.CreateWindowPlacement | src/WindowsTools.cpp:11-28 | the window keeps its adjusted size and is placed at the centred, clamped origin on both axes |
| WindowTools.BorderlessStyle | src/WindowsTools.cpp:84 | the overlapped-window style without caption, system menu, frame or boxes, which is 0 |
| WindowTools.ToUint32 | src/WindowsTools.cpp:188-191 | the int width and height of the client rectangle as the uint32 Resize receives |
| WindowTools.AtLeastOne | src/WindowsTools.cpp:46-47 | max(1, n): 1 when n is 0, and n itself otherwise |
| WindowTools.WindowState.constructor | src/WindowTools.h:22-23 | the client area starts at 1080 x 720 |
| WindowTools.WindowState.ReleaseBackBuffers | src/WindowsTools.cpp:52-58 | with the queue idle, every back-buffer reference is dropped and every slot takes the current slot's pre-resize fence value |
| WindowTools.WindowState.Resize | src/WindowsTools.cpp:40-69 | nothing changes when the size is unchanged: size, fence, swap chain (with its log of presents), submitted lists, slots and views all stay. Otherwise: the clamped new size; one flush before any release; every slot released and given the current slot's fence value; then on success the resized swap chain, the index re-read and the views rebuilt; on failure the swap chain and the views stay. No path presents or submits a command list. The window's style, rectangle, z-order and show command never change |
| WindowTools.WindowState.SetFullscreen | src/WindowsTools.cpp:71-118 | nothing when already in that mode; otherwise the mode is set and the window is either saved and made borderless, topmost and monitor-sized, or given back its decorations and saved rectangle |
| WindowTools.WindowState.OnKeyDown | src/WindowsTools.cpp:160-175 | V toggles vsync; Escape posts quit; F11, or Enter with Alt held, toggles fullscreen with SetFullscreen's effect on the window (entering: saved, borderless, topmost, maximised; leaving: restored); any other key leaves the window as it was; the size and the frame slot never change |
| WindowTools.WindowState.WndProc | src/WindowsTools.cpp:145-207 | before initialisation every message goes to the default procedure and the state stays as it was. After it: a key message toggles vsync on V and fullscreen on F11 or Alt+Enter, with the window effect of SetFullscreen; WM_SIZE has exactly Resize's effect for the client rectangle's size; WM_DESTROY posts quit; unknown messages go to the default procedure. Only a key message changes vsync or the fullscreen state. Every message other than an initialised WM_SIZE leaves the size, the frame slots, the fence, the swap chain and the views as they were |
| WindowTools.FullscreenRoundTrip | src/WindowsTools.cpp:73-115 | entering and then leaving fullscreen restores the decorated style and the window's rectangle |
| ConstantBuffers.AlignedSize | src/DX12Resource.h:19 | the 64-bit (n + 255) & ~255 is a multiple of 256 and at least n |
| ConstantBuffers.AlignedSizeIsTight | src/DX12Resource.h:19 | and at most 255 above n, so it is the least such multiple |
| ConstantBuffers.AlignUpIsLeastMultiple | src/DX12Resource.h:19 | the integer size the model uses is the least multiple of 256 that is at least n |
| ConstantBuffers.Memcpy | src/DX12Resource.h:64 | the first len(src) bytes become src and the rest are untouched |
| ConstantBuffers.DX12Resource.constructor | src/DX12Resource.h:8-10 | no resource, zeroed handles |
| ConstantBuffers.DX12Resource.CreateOrUpdateConstantBuffer | src/DX12Resource.h:13-67 | the buffer and its view are created only when there is none (the device counts one more resource), with that view at the heap start covering the aligned size. Every successful call writes the data at offset 0 and leaves the padding alone. A failed create or map writes nothing. The GPU handle is never assigned |
| ConstantBuffers.UpdateTwice | src/DX12Resource.h:21-66 | a second call reuses the buffer and the view of the first: the device creates exactly one buffer, and the heap gains exactly one view, the CBV of that buffer at the heap start. The buffer ends up holding the second value |
| Voxels.PositionAtInChunk | src/VoxelDataStructs.cpp:26-32 | every index of the list names a cell of the 64 x 40 x 64 chunk, and the index of that cell is the index itself |
| Voxels.IndexOfInRange | src/VoxelDataStructs.cpp:26-32 | the cell (i, j, k) is at index (i * 40 + j) * 64 + k, inside the list |
| Voxels.EachCellOnce | src/VoxelDataStructs.cpp:26-35 | every cell of the chunk occurs in the list, and at only one index |
| Voxels.ListIsLexOrdered | src/VoxelDataStructs.cpp:26-32 | the list is in lexicographic order of positions, k varying fastest |
| Voxels.GenerateChunkDebug | src/VoxelDataStructs.cpp:18-38 | exactly 163840 voxels, the n-th at the n-th position with the n-th colour drawn |
| Voxels.SVO.Construct | src/VoxelDataStructs.cpp:6-8 | leaves the octree unchanged |
| Voxels.SVO.Construct64X3 | src/VoxelDataStructs.cpp:10-16 | six empty iterations; leaves the octree unchanged |

## Left out

- Setup whose work is foreign API calls is outside the model. InitContext and Init take the objects it produces as parameters and assume those calls succeed. This covers:
  - device, factory, debug layer and info queue;
  - queue, swap-chain, heap and fence creation;
  - `CreateDevice`, `CreateSwapChain`, `CheckTearingSupport` and `retreiveDebugMessage`.
- Shader compilation, root signatures and pipeline state are outside the model. In InitShaders their failures are one HRESULT parameter.
- Graphics.DX12Context.InitContext: the adapter choice that precedes it is the separate GetAdapter.
- `CommandQueue` is not part of this model. Its `GetCommandList`, `ExecuteCommandList`, `WaitForFenceValue` and `Flush` have assumed contracts: the fence value grows by one per submission and per flush, a wait returns once that value has completed, and a flush leaves the queue idle.
- The window layer drives `g_*` context members that `DX12Context` no longer declares, including `g_Fence`, `g_FenceValue` and the free `Flush`. They live in WindowState, and the queue flush uses the same assumed `CommandQueue` contract. The back buffers Resize releases (`g_BackBuffers`, src/WindowsTools.cpp:56) and the member `backBuffers` that UpdateRenderTargetViews refills (src/DX12Context.cpp:239) are one array here, WindowState.backBuffers: the model identifies the two.
- WindowTools.WindowState.constructor: only the 1080 x 720 client size comes from the source. The flags start false, because the members they stand for are no longer declared.
- Facts assumed of the platform:
  - the device's RTV descriptor increment is positive;
  - `GetBuffer` and the other calls in InitContext and in the RTV loop succeed;
  - the HRESULTs of `Close`, `Signal`, `SetEventOnCompletion` and the resets in the compute renderer are S_OK;
  - `WaitForSingleObject` does not fail. So the raise on `WAIT_FAILED` in the compute renderer's wait (src/DX12ComputeContext.cpp:252-254) is not modelled: Compute.DX12ComputeContext.Submit always waits and returns, and `Fence.WaitFor` has no failure path.
- Compute.DX12ComputeContext.Render: `Present`'s HRESULT is ignored, as written. That Present follows the reset holds by the method's statement order; no ensures records the order.
- The real concurrency between host and GPU is outside the model. The GPU exists only as a fence whose completed value grows monotonically up to what was signalled, advanced by waits or by an explicit `Fence.Progress` step.
- Fence values are unbounded; the uint64 wrap of `fenceValues` and `fence_value` is not modelled.
- The copy queue's implicit COMMON promotion is not modelled. Buffer uploads are recorded without a state check.
- D3D12 gives PRESENT and COMMON the same numeric value. The model keeps them as distinct states, as the source's barriers name them.
- These are left out because they are floating point, timing or output:
  - the clear colour, viewport and scissor rectangle;
  - the camera and input code;
  - the FPS counter (`Update`).
- WindowTools.WindowState.WndProc: WindowState does not hold a DX12Context, so on WM_PAINT the model leaves out the frame that `dx_ctx.Render()` (Graphics.DX12Context.Render) records, submits and presents, and the FPS update before it; a WM_PAINT changes nothing in the model. That frame is modelled on its own by Graphics.DX12Context.Render.
- Window plumbing outside the listed handlers is outside the model: class registration, console redirection, the message loop and `DefWindowProc` itself. `AdjustWindowRect`, `GetWindowRect`, `GetMonitorInfo` and `GetClientRect` results are parameters.
- `generateChunk_debug`'s Mersenne Twister is a parameter `draw(n)` giving the n-th colour; colours are unconstrained 32-bit values.
- The octree nodes and `Chunk` are plain data; `construct` and `construct64_3` do nothing, so nothing about them is modelled beyond that.
- ConstantBuffers.CreateOrUpdateConstantBuffer: the value's bytes stand for `T`, and it requires that a buffer made by an earlier call fits them, because the source relies on every call using the same `T`.
- ConstantBuffers.AlignUpIsLeastMultiple: the mask expression and its unbounded-integer counterpart are each proved to be the least multiple of 256 covering the size, but not equal to each other by a single lemma.
