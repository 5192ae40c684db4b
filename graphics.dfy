/** The rasterising renderer (DX12Context): swap-chain back buffers with one
    render-target view each, one fence value per back buffer recording the frame last
    submitted from it, and a frame that clears and draws into the current back buffer
    between two transitions. Also the adapter choice made at start-up and the buffer
    uploads made when the plane's geometry is created. */
module Graphics {
  import opened Failures
  import opened Barriers
  import opened Gpu

  /** DX12Context::bufferCount. */
  const BufferCount: nat := 3
  /** DXGI_PRESENT_ALLOW_TEARING. */
  const AllowTearing: bv32 := 0x200
  /** DXGI_ADAPTER_FLAG_SOFTWARE. */
  const SoftwareAdapterFlag: bv32 := 2
  /** DXGI_FORMAT_R16_UINT. */
  const R16Uint: nat := 57
  /** The plane: four vertices of one XMFLOAT3 each, six 16-bit indices. */
  const VertexCount: nat := 4
  const VertexStride: nat := 12
  const IndexCount: nat := 6
  const IndexSize: nat := 2

  /** size_t. */
  type SizeT = n: nat | n < 0x1_0000_0000_0000_0000

  // ---------------------------------------------------------------- present flags

  /** The sync interval and flags Render passes to Present. */
  function PresentArguments(useVSync: bool, tearingSupported: bool): (p: PresentCall)
    ensures p.syncInterval == 1 <==> useVSync
    ensures p.syncInterval == 0 <==> !useVSync
    ensures p.flags == AllowTearing <==> tearingSupported && !useVSync
    ensures p.flags == 0 <==> !(tearingSupported && !useVSync)
  {
    PresentCall(if useVSync then 1 else 0, if tearingSupported && !useVSync then AllowTearing else 0)
  }

  // ---------------------------------------------------------- render-target views

  /** The CPU handle of slot `i` in a heap starting at `start`, `size` bytes per slot
      (the CD3DX12_CPU_DESCRIPTOR_HANDLE offset constructor). */
  function RtvHandle(start: nat, i: nat, size: nat): nat
  {
    start + i * size
  }

  /** `h` is the handle of one of the back buffers' views. */
  ghost predicate IsRtvSlot(start: nat, size: nat, h: nat)
  {
    exists i :: 0 <= i < BufferCount && h == RtvHandle(start, i, size)
  }

  /** Multiplying by a positive number keeps a strict order. */
  lemma {:induction false} MulStrictlyMonotone(a: nat, b: nat, c: nat)
    requires a < b && c > 0
    ensures a * c < b * c
    decreases b
  {
    assert b * c == (b - 1) * c + c;
    if a < b - 1 {
      MulStrictlyMonotone(a, b - 1, c);
    }
  }

  /** With a positive increment, different slots have different handles. */
  lemma RtvHandlesDistinct(start: nat, size: nat, i: nat, j: nat)
    requires size > 0 && i != j
    ensures RtvHandle(start, i, size) != RtvHandle(start, j, size)
  {
    if i < j {
      MulStrictlyMonotone(i, j, size);
    } else {
      MulStrictlyMonotone(j, i, size);
    }
  }

  /** UpdateRenderTargetViews: for every back buffer i, fetch it from the swap chain,
      write its view at the heap start plus i increments and keep a reference to it.
      No other descriptor changes. */
  method UpdateRenderTargetViews(device: Device, swapChain: SwapChain, heap: DescriptorHeap,
                                 backBuffers: array<Option<ResourceId>>)
    requires device.Valid() && swapChain.bufferCount == BufferCount
    requires backBuffers.Length == BufferCount
    modifies backBuffers, heap
    ensures forall i :: 0 <= i < BufferCount ==> backBuffers[i] == Some(swapChain.Buffer(i))
    ensures forall i :: 0 <= i < BufferCount ==>
              RtvHandle(heap.start, i, device.rtvIncrement) in heap.views &&
              heap.views[RtvHandle(heap.start, i, device.rtvIncrement)] == Rtv(swapChain.Buffer(i))
    ensures forall h :: h in old(heap.views) && !IsRtvSlot(heap.start, device.rtvIncrement, h) ==>
              h in heap.views && heap.views[h] == old(heap.views)[h]
  {
    var size := device.rtvIncrement;
    var handle := heap.start;
    for i := 0 to BufferCount
      invariant handle == RtvHandle(heap.start, i, size)
      invariant forall j :: 0 <= j < i ==> backBuffers[j] == Some(swapChain.Buffer(j))
      invariant forall j :: 0 <= j < i ==>
                  RtvHandle(heap.start, j, size) in heap.views &&
                  heap.views[RtvHandle(heap.start, j, size)] == Rtv(swapChain.Buffer(j))
      invariant forall h :: h in old(heap.views) && !IsRtvSlot(heap.start, size, h) ==>
                  h in heap.views && heap.views[h] == old(heap.views)[h]
    {
      var backBuffer := swapChain.Buffer(i);
      assert IsRtvSlot(heap.start, size, handle);
      forall j | 0 <= j < i
        ensures RtvHandle(heap.start, j, size) != handle
      {
        RtvHandlesDistinct(heap.start, size, j, i);
      }
      heap.CreateView(handle, Rtv(backBuffer));
      backBuffers[i] := Some(backBuffer);
      handle := handle + size;
    }
  }

  // -------------------------------------------------------------------- one frame

  /** What Render records for back buffer `bb` and its view `rtv`, in order. */
  function GraphicsFrame(bb: ResourceId, rtv: nat): seq<Command>
  {
    [ Barrier(bb, Present, RenderTarget),
      ClearRenderTarget(bb, rtv),
      DrawIndexed(bb, IndexCount),
      Barrier(bb, RenderTarget, Present) ]
  }

  /** The frame's hard-coded "before" states are right exactly when the back buffer
      starts in PRESENT, and then the frame leaves every state as it found it. */
  lemma GraphicsFrameReturnsToPresent(s: States, bb: ResourceId, rtv: nat)
    ensures Replay(s, GraphicsFrame(bb, rtv)).Some? <==> InState(s, bb, Present)
    ensures InState(s, bb, Present) ==> Replay(s, GraphicsFrame(bb, rtv)) == Some(s)
  {
    var f := GraphicsFrame(bb, rtv);
    if InState(s, bb, Present) {
      var t := s[bb := RenderTarget];
      assert f[1..] == [ClearRenderTarget(bb, rtv), DrawIndexed(bb, IndexCount), Barrier(bb, RenderTarget, Present)];
      assert f[1..][1..] == [DrawIndexed(bb, IndexCount), Barrier(bb, RenderTarget, Present)];
      assert f[1..][1..][1..] == [Barrier(bb, RenderTarget, Present)];
      assert f[1..][1..][1..][1..] == [];
      assert t[bb := Present] == s;
      assert Replay(t, f[1..][1..][1..]) == Some(s);
      assert Replay(t, f[1..][1..]) == Some(s);
      assert Replay(t, f[1..]) == Some(s);
    } else {
      assert Step(s, f[0]) == None;
    }
  }

  // ------------------------------------------------------------- adapter choice

  /** What enumeration reports about one adapter, and how the two calls made on it
      would fail: D3D12CreateDevice at feature level 11_0, and the IDXGIAdapter4 query. */
  datatype AdapterDesc = AdapterDesc(flags: bv32, dedicatedVideoMemory: nat,
                                     createDeviceHr: HResult, queryHr: HResult)

  datatype AdapterChoice = NoAdapter | Hardware(index: nat) | Warp

  /** A hardware adapter able to create a device. */
  predicate Eligible(a: AdapterDesc) {
    a.flags & SoftwareAdapterFlag == 0 && !Failed(a.createDeviceHr)
  }

  /** `maxDedicatedVideoMemory` after the first `n` adapters. */
  function MaxMemory(ads: seq<AdapterDesc>, n: nat): nat
    requires n <= |ads|
    decreases n, 1
  {
    if n == 0 then 0
    else if NewMaximum(ads, n - 1) then ads[n - 1].dedicatedVideoMemory
    else MaxMemory(ads, n - 1)
  }

  /** Adapter i beats every adapter before it. */
  predicate NewMaximum(ads: seq<AdapterDesc>, i: nat)
    requires i < |ads|
    decreases i, 2
  {
    Eligible(ads[i]) && ads[i].dedicatedVideoMemory > MaxMemory(ads, i)
  }

  /** The adapter held after the first `n` adapters: the last new maximum. */
  function Leader(ads: seq<AdapterDesc>, n: nat): Option<nat>
    requires n <= |ads|
  {
    if n == 0 then None
    else if NewMaximum(ads, n - 1) then Some(n - 1)
    else Leader(ads, n - 1)
  }

  /** MaxMemory bounds every eligible adapter seen so far, and the leader attains it:
      the leader is the first adapter with the greatest dedicated memory, and there is
      none exactly when no eligible adapter has any dedicated memory. */
  lemma {:induction false} LeaderIsFirstMaximum(ads: seq<AdapterDesc>, n: nat)
    requires n <= |ads|
    ensures forall j :: 0 <= j < n && Eligible(ads[j]) ==>
              ads[j].dedicatedVideoMemory <= MaxMemory(ads, n)
    ensures Leader(ads, n) == None <==> MaxMemory(ads, n) == 0
    ensures Leader(ads, n).Some? ==>
              var k := Leader(ads, n).value;
              k < n && Eligible(ads[k]) && ads[k].dedicatedVideoMemory == MaxMemory(ads, n) &&
              forall j :: 0 <= j < k && Eligible(ads[j]) ==>
                ads[j].dedicatedVideoMemory < ads[k].dedicatedVideoMemory
  {
    if n > 0 {
      LeaderIsFirstMaximum(ads, n - 1);
    }
  }

  /** GetAdapter. With `useWarp`, the WARP software adapter. Otherwise the adapters
      are enumerated in order and each eligible one with more dedicated memory than
      the best so far becomes the answer; a failing interface query on such an
      adapter raises. The factory is created first, and its failure raises. */
  method GetAdapter(useWarp: bool, factoryHr: HResult, warpHr: HResult, warpQueryHr: HResult,
                    adapters: seq<AdapterDesc>)
    returns (o: Outcome, chosen: AdapterChoice)
    ensures Failed(factoryHr) ==> o == Thrown
    ensures !Failed(factoryHr) && useWarp ==>
              (o == Ok <==> !Failed(warpHr) && !Failed(warpQueryHr)) && (o == Ok ==> chosen == Warp)
    ensures !Failed(factoryHr) && !useWarp ==>
              (o == Thrown <==> exists i :: 0 <= i < |adapters| && NewMaximum(adapters, i) &&
                                           Failed(adapters[i].queryHr))
    ensures !Failed(factoryHr) && !useWarp && o == Ok ==>
              (chosen == NoAdapter <==> forall i :: 0 <= i < |adapters| && Eligible(adapters[i]) ==>
                                                    adapters[i].dedicatedVideoMemory == 0)
    ensures !Failed(factoryHr) && !useWarp && o == Ok && chosen != NoAdapter ==>
              chosen.Hardware? && chosen.index < |adapters| && Eligible(adapters[chosen.index]) &&
              (forall j :: 0 <= j < |adapters| && Eligible(adapters[j]) ==>
                 adapters[j].dedicatedVideoMemory <= adapters[chosen.index].dedicatedVideoMemory) &&
              (forall j :: 0 <= j < chosen.index && Eligible(adapters[j]) ==>
                 adapters[j].dedicatedVideoMemory < adapters[chosen.index].dedicatedVideoMemory)
  {
    chosen := NoAdapter;
    if Failed(factoryHr) {
      return Thrown, chosen;
    }
    if useWarp {
      if Failed(warpHr) || Failed(warpQueryHr) {
        return Thrown, chosen;
      }
      return Ok, Warp;
    }
    var maxDedicatedVideoMemory := 0;
    var i := 0;
    while i < |adapters|
      invariant 0 <= i <= |adapters|
      invariant maxDedicatedVideoMemory == MaxMemory(adapters, i)
      invariant chosen == (match Leader(adapters, i) case None => NoAdapter case Some(k) => Hardware(k))
      invariant forall j :: 0 <= j < i && NewMaximum(adapters, j) ==> !Failed(adapters[j].queryHr)
    {
      var a := adapters[i];
      if a.flags & SoftwareAdapterFlag == 0 && !Failed(a.createDeviceHr) &&
         a.dedicatedVideoMemory > maxDedicatedVideoMemory
      {
        maxDedicatedVideoMemory := a.dedicatedVideoMemory;
        if Failed(a.queryHr) {
          return Thrown, chosen;
        }
        chosen := Hardware(i);
      }
      i := i + 1;
    }
    LeaderIsFirstMaximum(adapters, |adapters|);
    o := Ok;
  }

  // ------------------------------------------------------------------ the context

  datatype VertexBufferView = VertexBufferView(location: ResourceId, sizeInBytes: nat, strideInBytes: nat)
  datatype IndexBufferView = IndexBufferView(location: ResourceId, format: nat, sizeInBytes: nat)

  /** PlaneRenderTarget: the plane's buffers and the views the draw binds. */
  datatype PlaneRenderTarget = PlaneRenderTarget(
    vertexBuffer: Option<ResourceId>, vertexBufferView: Option<VertexBufferView>,
    indexBuffer: Option<ResourceId>, indexBufferView: Option<IndexBufferView>)

  datatype QueueKind = DirectQueue | ComputeQueue | CopyQueue

  /** size_t multiplication. */
  function SizeProduct(numElements: SizeT, elementSize: SizeT): SizeT {
    (numElements * elementSize) % 0x1_0000_0000_0000_0000
  }

  class DX12Context {
    const device: Device
    const swapChain: SwapChain
    const backBuffers: array<Option<ResourceId>>
    const rtvHeap: DescriptorHeap
    const directQueue: CommandQueue
    const computeQueue: CommandQueue
    const copyQueue: CommandQueue
    const fenceValues: array<nat>
    const rtvDescriptorSize: nat
    var currentBackBufferIndex: nat
    var width: nat
    var height: nat
    var useVSync: bool
    var isTearingSupported: bool
    var isInitialized: bool
    var plane: PlaneRenderTarget
    /** The resource states all submitted work leaves behind. */
    ghost var states: States
    /** The queues flushed so far, in order. */
    ghost var flushed: seq<QueueKind>

    /** The three queues are consistent and use different fences. */
    ghost predicate QueuesValid()
      reads directQueue, directQueue.fence, computeQueue, computeQueue.fence
      reads copyQueue, copyQueue.fence
    {
      && directQueue.Valid() && computeQueue.Valid() && copyQueue.Valid()
      && directQueue.fence != computeQueue.fence && directQueue.fence != copyQueue.fence
      && computeQueue.fence != copyQueue.fence
    }

    /** The current index is the swap chain's. */
    ghost predicate SwapChainValid()
      reads this, swapChain
    {
      swapChain.Valid() && swapChain.bufferCount == BufferCount &&
      currentBackBufferIndex == swapChain.currentIndex
    }

    /** Every slot holds its back buffer, and the view at its handle views it. */
    ghost predicate ViewsValid()
      reads swapChain, backBuffers, rtvHeap
    {
      && backBuffers.Length == BufferCount
      && (forall i :: 0 <= i < BufferCount ==> backBuffers[i] == Some(swapChain.Buffer(i)))
      && (forall i :: 0 <= i < BufferCount ==>
            RtvHandle(rtvHeap.start, i, rtvDescriptorSize) in rtvHeap.views &&
            rtvHeap.views[RtvHandle(rtvHeap.start, i, rtvDescriptorSize)] == Rtv(swapChain.Buffer(i)))
    }

    /** No slot records a fence value the direct queue has not signalled. */
    ghost predicate FenceValuesSignalled()
      reads fenceValues, directQueue
    {
      fenceValues.Length == BufferCount &&
      forall i :: 0 <= i < BufferCount ==> fenceValues[i] <= directQueue.fenceValue
    }

    /** Between frames every back buffer is in PRESENT. */
    ghost predicate BackBuffersPresentable()
      reads this, swapChain
    {
      forall i :: 0 <= i < BufferCount ==> InState(states, swapChain.Buffer(i), Present)
    }

    ghost predicate Valid()
      reads this, device, swapChain, backBuffers, rtvHeap, fenceValues
      reads directQueue, directQueue.fence, computeQueue, computeQueue.fence
      reads copyQueue, copyQueue.fence
    {
      && device.Valid() && rtvDescriptorSize == device.rtvIncrement
      && QueuesValid() && SwapChainValid() && ViewsValid() && FenceValuesSignalled()
      && BackBuffersPresentable()
    }

    /** InitContext, from the point where the device, the three queues, the swap chain
        (of BufferCount buffers) and the RTV heap have been created by the platform:
        the current index is read from the swap chain, the RTV increment from the
        device, and a view is written for every back buffer. */
    constructor InitContext(clientWidth: nat, clientHeight: nat, tearingSupported: bool,
                            device: Device, directQueue: CommandQueue, computeQueue: CommandQueue,
                            copyQueue: CommandQueue, swapChain: SwapChain, rtvHeap: DescriptorHeap)
      requires device.Valid() && swapChain.Valid() && swapChain.bufferCount == BufferCount
      requires directQueue.Valid() && computeQueue.Valid() && copyQueue.Valid()
      requires directQueue.fence != computeQueue.fence && directQueue.fence != copyQueue.fence
      requires computeQueue.fence != copyQueue.fence
      modifies rtvHeap
      ensures Valid() && !isInitialized && !useVSync
      ensures width == clientWidth && height == clientHeight
      ensures isTearingSupported == tearingSupported
      ensures currentBackBufferIndex == swapChain.currentIndex
      ensures forall i :: 0 <= i < BufferCount ==> fenceValues[i] == 0
      ensures flushed == []
    {
      this.width := clientWidth;
      this.height := clientHeight;
      isTearingSupported := tearingSupported;
      useVSync := false;
      isInitialized := false;
      this.device := device;
      this.directQueue := directQueue;
      this.computeQueue := computeQueue;
      this.copyQueue := copyQueue;
      this.swapChain := swapChain;
      currentBackBufferIndex := swapChain.CurrentBackBufferIndex();
      this.rtvHeap := rtvHeap;
      rtvDescriptorSize := device.rtvIncrement;
      var held := new Option<ResourceId>[] [None, None, None];
      backBuffers := held;
      fenceValues := new nat[] [0, 0, 0];
      plane := PlaneRenderTarget(None, None, None, None);
      states := map[swapChain.Buffer(0) := Present, swapChain.Buffer(1) := Present,
                    swapChain.Buffer(2) := Present];
      flushed := [];
      new;
      assert QueuesValid() && SwapChainValid() && FenceValuesSignalled() && BackBuffersPresentable();
      UpdateRenderTargetViews(device, swapChain, rtvHeap, held);
    }

    /** GetCurrentBackBuffer: the swap chain's buffer at the current index. */
    function GetCurrentBackBuffer(): (r: Option<ResourceId>)
      requires Valid()
      reads this, device, swapChain, backBuffers, rtvHeap, fenceValues
      reads directQueue, directQueue.fence, computeQueue, computeQueue.fence
      reads copyQueue, copyQueue.fence
      ensures r == Some(swapChain.Buffer(currentBackBufferIndex))
    {
      backBuffers[currentBackBufferIndex]
    }

    /** GetCurrentRenderTargetView: the descriptor that views the current back buffer. */
    function GetCurrentRenderTargetView(): (h: nat)
      requires Valid()
      reads this, device, swapChain, backBuffers, rtvHeap, fenceValues
      reads directQueue, directQueue.fence, computeQueue, computeQueue.fence
      reads copyQueue, copyQueue.fence
      ensures h in rtvHeap.views && rtvHeap.views[h] == Rtv(swapChain.Buffer(currentBackBufferIndex))
    {
      RtvHandle(rtvHeap.start, currentBackBufferIndex, rtvDescriptorSize)
    }

    /** The recording half of Render: a list from the direct queue that moves the current
        back buffer PRESENT -> RENDER_TARGET, clears it through its view, draws the plane
        into it and moves it back to PRESENT. Every barrier's "before" state is the
        buffer's state at that point, and the list leaves the states as it found them. */
    method RecordFrame() returns (commandList: CommandList)
      requires Valid()
      ensures fresh(commandList) && commandList.Valid() && !commandList.closed
      ensures commandList.commands ==
                GraphicsFrame(swapChain.Buffer(currentBackBufferIndex),
                              RtvHandle(rtvHeap.start, currentBackBufferIndex, rtvDescriptorSize))
      ensures commandList.start == states && commandList.tracked == states
    {
      commandList := directQueue.GetCommandList(states);
      var backBuffer := GetCurrentBackBuffer().value;
      var rtv := GetCurrentRenderTargetView();
      GraphicsFrameReturnsToPresent(states, backBuffer, rtv);

      commandList.ResourceBarrier(backBuffer, Present, RenderTarget);
      commandList.ClearRenderTargetView(rtvHeap, rtv);
      commandList.OMSetRenderTargets(rtvHeap, rtv);
      commandList.DrawIndexedInstanced(IndexCount);
      commandList.ResourceBarrier(backBuffer, RenderTarget, Present);
      assert commandList.commands == GraphicsFrame(backBuffer, rtv);
    }

    /** Render one frame into the current back buffer and present it. The fence value
        of the submission is stored for the slot it was drawn from; after Present the
        slot the swap chain names next becomes current, and the host waits until the
        frame last drawn from that slot has completed. A failed Present raises. */
    method Render(next: nat, presentHr: HResult) returns (o: Outcome)
      requires Valid() && next < BufferCount
      modifies this, fenceValues, directQueue, directQueue.fence, swapChain
      ensures Valid() && o == ThrowIfFailed(presentHr)
      ensures directQueue.fenceValue == old(directQueue.fenceValue) + 1
      ensures fenceValues[old(currentBackBufferIndex)] == directQueue.fenceValue
      ensures forall i :: 0 <= i < BufferCount && i != old(currentBackBufferIndex) ==>
                fenceValues[i] == old(fenceValues[i])
      ensures directQueue.executed == old(directQueue.executed) +
                [GraphicsFrame(old(swapChain.Buffer(currentBackBufferIndex)),
                               RtvHandle(rtvHeap.start, old(currentBackBufferIndex), rtvDescriptorSize))]
      ensures swapChain.presents == old(swapChain.presents) + [PresentArguments(useVSync, isTearingSupported)]
      ensures currentBackBufferIndex == (if o == Ok then next else old(currentBackBufferIndex))
      ensures o == Ok ==> directQueue.fence.completed >= fenceValues[currentBackBufferIndex]
      ensures states == old(states) && flushed == old(flushed) && plane == old(plane)
      ensures useVSync == old(useVSync) && isTearingSupported == old(isTearingSupported)
      ensures isInitialized == old(isInitialized) && width == old(width) && height == old(height)
    {
      var commandList := RecordFrame();

      var v := directQueue.ExecuteCommandList(commandList);
      fenceValues[currentBackBufferIndex] := v;
      assert FenceValuesSignalled();

      var args := PresentArguments(useVSync, isTearingSupported);
      o := swapChain.Present(args.syncInterval, args.flags, presentHr, next);
      if o == Thrown {
        return;
      }
      currentBackBufferIndex := swapChain.CurrentBackBufferIndex();
      directQueue.WaitForFenceValue(fenceValues[currentBackBufferIndex]);
    }

    /** UpdateBufferResource: a GPU-only buffer of numElements * elementSize bytes (with
        size_t wrap-around) created in COMMON; when there is data, an upload buffer of the
        same size in GENERIC_READ and a recorded copy from it. */
    method UpdateBufferResource(commandList: CommandList, numElements: SizeT, elementSize: SizeT,
                                hasData: bool, destinationHr: HResult, intermediateHr: HResult)
      returns (o: Outcome, destination: Buffer?, intermediate: Buffer?)
      requires commandList.Valid() && !commandList.closed
      modifies device, commandList
      ensures commandList.Valid() && !commandList.closed
      ensures commandList.start == old(commandList.start) && commandList.tracked == old(commandList.tracked)
      ensures o == Ok <==> !Failed(destinationHr) && (hasData ==> !Failed(intermediateHr))
      ensures !Failed(destinationHr) ==>
                destination != null && fresh(destination) && destination.heap == DefaultHeap &&
                destination.size == SizeProduct(numElements, elementSize) &&
                destination.initialState == Common && destination.id == Committed(old(device.created))
      ensures Failed(destinationHr) ==> destination == null && device.created == old(device.created)
      ensures intermediate != null <==> !Failed(destinationHr) && hasData && !Failed(intermediateHr)
      ensures intermediate != null ==>
                fresh(intermediate) && intermediate.heap == UploadHeap &&
                intermediate.size == SizeProduct(numElements, elementSize) &&
                intermediate.initialState == GenericRead &&
                intermediate.id == Committed(old(device.created) + 1)
      ensures commandList.commands == old(commandList.commands) +
                (if o == Ok && hasData
                 then [UploadCopy(destination.id, intermediate.id, SizeProduct(numElements, elementSize))]
                 else [])
      ensures o == Ok ==> device.created == old(device.created) + (if hasData then 2 else 1)
    {
      var bufferSize := SizeProduct(numElements, elementSize);
      intermediate := null;
      o, destination := device.CreateCommittedResource(DefaultHeap, bufferSize, Common, destinationHr);
      if o == Thrown {
        return;
      }
      if hasData {
        o, intermediate := device.CreateCommittedResource(UploadHeap, bufferSize, GenericRead, intermediateHr);
        if o == Thrown {
          return;
        }
        commandList.UpdateSubresources(destination.id, intermediate.id, bufferSize);
      }
    }

    /** The uploads of InitShaders: the four vertices and six indices of the plane, each
        into a new GPU buffer through an upload buffer, and the views the draw binds. The
        index view's address is the vertex buffer's, as written. */
    method UploadPlane(commandList: CommandList, plane0: PlaneRenderTarget, vertexHr: HResult,
                       vertexUploadHr: HResult, indexHr: HResult, indexUploadHr: HResult)
      returns (o: Outcome, p: PlaneRenderTarget)
      requires commandList.Valid() && !commandList.closed
      modifies device, commandList
      ensures commandList.Valid() && !commandList.closed
      ensures commandList.start == old(commandList.start) && commandList.tracked == old(commandList.tracked)
      ensures o == Ok <==> (!Failed(vertexHr) && !Failed(vertexUploadHr) && !Failed(indexHr) &&
                            !Failed(indexUploadHr))
      ensures o == Ok ==>
                var c := old(device.created);
                commandList.commands == old(commandList.commands) +
                  [UploadCopy(Committed(c), Committed(c + 1), VertexCount * VertexStride),
                   UploadCopy(Committed(c + 2), Committed(c + 3), IndexCount * IndexSize)] &&
                p == PlaneRenderTarget(
                       Some(Committed(c)),
                       Some(VertexBufferView(Committed(c), VertexCount * VertexStride, VertexStride)),
                       Some(Committed(c + 2)),
                       Some(IndexBufferView(Committed(c), R16Uint, IndexCount * IndexSize)))
    {
      p := plane0;
      var vertexBuffer, intermediateVertexBuffer;
      o, vertexBuffer, intermediateVertexBuffer :=
        UpdateBufferResource(commandList, VertexCount, VertexStride, true, vertexHr, vertexUploadHr);
      if o == Thrown {
        return;
      }
      p := p.(vertexBuffer := Some(vertexBuffer.id),
              vertexBufferView := Some(VertexBufferView(vertexBuffer.id, VertexCount * VertexStride, VertexStride)));

      var indexBuffer, intermediateIndexBuffer;
      o, indexBuffer, intermediateIndexBuffer :=
        UpdateBufferResource(commandList, IndexCount, IndexSize, true, indexHr, indexUploadHr);
      if o == Thrown {
        return;
      }
      p := p.(indexBuffer := Some(indexBuffer.id),
              indexBufferView := Some(IndexBufferView(vertexBuffer.id, R16Uint, IndexCount * IndexSize)));
    }

    /** The end of InitShaders: the plane is uploaded through the copy queue; once the
        shader and pipeline work has also succeeded, the copy is submitted and the host
        waits for it, and only then is the context marked initialised. */
    method InitShaders(vertexHr: HResult, vertexUploadHr: HResult, indexHr: HResult,
                       indexUploadHr: HResult, pipelineHr: HResult)
      returns (o: Outcome)
      requires Valid()
      modifies this, device, copyQueue, copyQueue.fence
      ensures Valid()
      ensures o == Ok <==> (!Failed(vertexHr) && !Failed(vertexUploadHr) && !Failed(indexHr) &&
                            !Failed(indexUploadHr) && !Failed(pipelineHr))
      ensures isInitialized == (old(isInitialized) || o == Ok)
      ensures o == Ok ==> copyQueue.fenceValue == old(copyQueue.fenceValue) + 1 &&
                          copyQueue.fence.completed >= copyQueue.fenceValue
      ensures o == Ok ==>
                var c := old(device.created);
                copyQueue.executed == old(copyQueue.executed) +
                  [[UploadCopy(Committed(c), Committed(c + 1), VertexCount * VertexStride),
                    UploadCopy(Committed(c + 2), Committed(c + 3), IndexCount * IndexSize)]] &&
                plane.vertexBufferView == Some(VertexBufferView(Committed(c), VertexCount * VertexStride, VertexStride)) &&
                plane.indexBuffer == Some(Committed(c + 2)) &&
                plane.indexBufferView == Some(IndexBufferView(Committed(c), R16Uint, IndexCount * IndexSize))
      ensures o == Thrown ==> copyQueue.executed == old(copyQueue.executed) &&
                              copyQueue.fenceValue == old(copyQueue.fenceValue)
      ensures currentBackBufferIndex == old(currentBackBufferIndex) && states == old(states)
      ensures useVSync == old(useVSync) && flushed == old(flushed)
    {
      var commandList := copyQueue.GetCommandList(states);
      ghost var c := device.created;
      var p;
      o, p := UploadPlane(commandList, plane, vertexHr, vertexUploadHr, indexHr, indexUploadHr);
      plane := p;
      if o == Thrown {
        return;
      }
      assert commandList.commands ==
               [UploadCopy(Committed(c), Committed(c + 1), VertexCount * VertexStride),
                UploadCopy(Committed(c + 2), Committed(c + 3), IndexCount * IndexSize)];
      o := ThrowIfFailed(pipelineHr);
      if o == Thrown {
        return;
      }
      var fenceValue := copyQueue.ExecuteCommandList(commandList);
      copyQueue.WaitForFenceValue(fenceValue);
      isInitialized := true;
    }

    /** Flush: the direct, compute and copy queues, in that order, each left idle. */
    method Flush()
      requires Valid()
      modifies this, directQueue, directQueue.fence, computeQueue, computeQueue.fence
      modifies copyQueue, copyQueue.fence
      ensures Valid() && flushed == old(flushed) + [DirectQueue, ComputeQueue, CopyQueue]
      ensures directQueue.fence.completed == directQueue.fenceValue == old(directQueue.fenceValue) + 1
      ensures computeQueue.fence.completed == computeQueue.fenceValue == old(computeQueue.fenceValue) + 1
      ensures copyQueue.fence.completed == copyQueue.fenceValue == old(copyQueue.fenceValue) + 1
      ensures currentBackBufferIndex == old(currentBackBufferIndex) && states == old(states)
      ensures isInitialized == old(isInitialized) && useVSync == old(useVSync)
    {
      directQueue.Flush();
      flushed := flushed + [DirectQueue];
      computeQueue.Flush();
      flushed := flushed + [ComputeQueue];
      copyQueue.Flush();
      flushed := flushed + [CopyQueue];
    }
  }
}
