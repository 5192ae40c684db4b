/** The compute renderer (DX12ComputeContext): one command list, one allocator and one
    fence on a direct queue. Each frame dispatches a compute shader over an off-screen
    image kept in UNORDERED_ACCESS, copies the image into the current back buffer
    between two pairs of transitions, then blocks until the GPU is done before the
    allocator is reused. */
module Compute {
  import opened Failures
  import opened Barriers
  import opened Gpu

  /** DX12ComputeContext::buffer_count. */
  const BufferCount: nat := 3
  /** threadGroupSizeX and threadGroupSizeY. */
  const ThreadGroupSize: nat := 8

  type Uint32 = n: nat | n < 0x1_0000_0000

  /** (dim + threadGroupSize - 1) / threadGroupSize in uint32 arithmetic: the number of
      8-wide groups covering `dim`, except that the sum wraps for the seven largest
      values and the count drops to 0. */
  function ThreadGroupCount(dim: Uint32): (count: Uint32)
    ensures dim < 0x1_0000_0000 - (ThreadGroupSize - 1) ==>
              dim <= count * ThreadGroupSize < dim + ThreadGroupSize
    ensures dim >= 0x1_0000_0000 - (ThreadGroupSize - 1) ==> count == 0
  {
    ((dim + ThreadGroupSize - 1) % 0x1_0000_0000) / ThreadGroupSize
  }

  /** What render records for back buffer `bb` and the off-screen image `fb`, in order. */
  function ComputeFrame(bb: ResourceId, fb: ResourceId, x: nat, y: nat, z: nat): seq<Command>
  {
    [ Command.Dispatch(fb, x, y, z),
      Barrier(fb, UnorderedAccess, CopySource),
      Barrier(bb, Present, CopyDest),
      Copy(bb, fb),
      Barrier(fb, CopySource, UnorderedAccess),
      Barrier(bb, CopyDest, Present) ]
  }

  /** The frame's hard-coded "before" states are right exactly when the image starts in
      UNORDERED_ACCESS and the back buffer in PRESENT, and the frame then leaves both
      where they started. */
  lemma ComputeFrameRestoresStates(s: States, bb: ResourceId, fb: ResourceId, x: nat, y: nat, z: nat)
    requires bb != fb
    ensures Replay(s, ComputeFrame(bb, fb, x, y, z)).Some? <==>
              InState(s, fb, UnorderedAccess) && InState(s, bb, Present)
    ensures InState(s, fb, UnorderedAccess) && InState(s, bb, Present) ==>
              Replay(s, ComputeFrame(bb, fb, x, y, z)) == Some(s)
  {
    var f := ComputeFrame(bb, fb, x, y, z);
    var f1 := f[1..];
    var f2 := f1[1..];
    var f3 := f2[1..];
    var f4 := f3[1..];
    var f5 := f4[1..];
    var f6 := f5[1..];
    assert f6 == [];
    if !InState(s, fb, UnorderedAccess) {
      assert Step(s, f[0]) == None;
    } else {
      assert Replay(s, f) == Replay(s, f1);
      var s1 := s[fb := CopySource];
      assert Replay(s, f1) == Replay(s1, f2);
      if !InState(s, bb, Present) {
        assert Step(s1, f2[0]) == None;
      } else {
        var s2 := s1[bb := CopyDest];
        assert Replay(s1, f2) == Replay(s2, f3);
        assert Replay(s2, f3) == Replay(s2, f4);
        var s3 := s2[fb := UnorderedAccess];
        assert Replay(s2, f4) == Replay(s3, f5);
        var s4 := s3[bb := Present];
        assert Replay(s3, f5) == Replay(s4, f6);
        assert s4 == s;
      }
    }
  }

  /** The states right after init: the image in UNORDERED_ACCESS, as created, and the
      back buffers of the swap chain's current generation in PRESENT. */
  ghost function InitialStates(generation: nat): (s: States)
    ensures InState(s, FrameBuffer, UnorderedAccess)
    ensures forall i :: 0 <= i < BufferCount ==> InState(s, BackBuffer(generation, i), Present)
  {
    map[FrameBuffer := UnorderedAccess, BackBuffer(generation, 0) := Present,
        BackBuffer(generation, 1) := Present, BackBuffer(generation, 2) := Present]
  }

  class DX12ComputeContext {
    const queue: Queue
    const allocator: CommandAllocator
    const commandList: CommandList
    const fence: Fence
    const descriptorHeap: DescriptorHeap
    const swapChainBuffers: array<Option<ResourceId>>
    var swapChain: SwapChain?
    var device: Device?
    var fenceValue: nat
    var bufferIndex: nat
    var useVSync: bool
    var isInitialized: bool
    var width: Uint32
    var height: Uint32
    var threadGroupCountX: Uint32
    var threadGroupCountY: Uint32
    var threadGroupCountZ: Uint32
    /** The resource states all submitted work leaves behind. */
    ghost var states: States

    /** The fence carries exactly the values this context signals. */
    ghost predicate FenceValid()
      reads this, fence
    {
      fence.Valid() && fence.signalled == fenceValue
    }

    /** The list is open and empty, and its allocator is free to be recorded into. */
    ghost predicate ListReady()
      reads this, commandList, allocator, fence
    {
      && commandList.Valid() && !commandList.closed && commandList.commands == []
      && commandList.start == states && commandList.tracked == states
      && commandList.computeTable == None
      && !allocator.pending && allocator.guard <= fence.completed
    }

    /** The swap chain is alive and every slot holds its back buffer, in PRESENT; the
        image is in UNORDERED_ACCESS and viewed by the first descriptor of the heap. */
    ghost predicate ResourcesValid()
      reads this, swapChain, swapChainBuffers, descriptorHeap
    {
      && swapChain != null && device != null
      && swapChain.Valid() && swapChain.bufferCount == BufferCount
      && swapChainBuffers.Length == BufferCount
      && (forall i :: 0 <= i < BufferCount ==> swapChainBuffers[i] == Some(swapChain.Buffer(i)))
      && (forall i :: 0 <= i < BufferCount ==> InState(states, swapChain.Buffer(i), Present))
      && InState(states, FrameBuffer, UnorderedAccess)
      && descriptorHeap.start in descriptorHeap.views
      && descriptorHeap.views[descriptorHeap.start] == Uav(FrameBuffer)
    }

    ghost predicate Valid()
      reads this, swapChain, swapChainBuffers, descriptorHeap, commandList, allocator, fence
    {
      FenceValid() && ListReady() && ResourcesValid()
    }

    /** init, from the point where the device, the swap chain and the descriptor heap
        exist: both dimensions are taken from the client height, as written; the group
        counts cover them; the fence starts at 0; the swap chain's buffers are fetched;
        the image is created in UNORDERED_ACCESS and its view written at the heap start.
        The list is created, closed and reset, so it is open on return. */
    constructor Init(clientWidth: Uint32, clientHeight: Uint32, swapChain: SwapChain,
                     device: Device, descriptorHeap: DescriptorHeap)
      requires swapChain.Valid() && swapChain.bufferCount == BufferCount
      modifies descriptorHeap
      ensures Valid() && isInitialized && useVSync && this.swapChain == swapChain
      ensures width == clientHeight && height == clientHeight
      ensures threadGroupCountX == ThreadGroupCount(width)
      ensures threadGroupCountY == ThreadGroupCount(height)
      ensures threadGroupCountZ == 1
      ensures fenceValue == 0 && fence.completed == 0
      ensures fresh(queue) && fresh(fence) && fresh(allocator) && fresh(commandList)
      ensures queue.executed == []
    {
      // The buffer loop and the view come first here, before any object is allocated;
      // neither depends on the objects created below.
      var buffers := new Option<ResourceId>[BufferCount];
      for i := 0 to BufferCount
        invariant forall j :: 0 <= j < i ==> buffers[j] == Some(swapChain.Buffer(j))
      {
        buffers[i] := Some(swapChain.Buffer(i));
      }
      descriptorHeap.CreateView(descriptorHeap.start, Uav(FrameBuffer));
      width := clientHeight;
      height := clientHeight;
      threadGroupCountX := ThreadGroupCount(clientHeight);
      threadGroupCountY := ThreadGroupCount(clientHeight);
      threadGroupCountZ := 1;
      useVSync := true;
      bufferIndex := 0;
      this.device := device;
      this.descriptorHeap := descriptorHeap;
      queue := new Queue();
      allocator := new CommandAllocator();
      fenceValue := 0;
      fence := new Fence(0);
      this.swapChain := swapChain;
      swapChainBuffers := buffers;
      var s := InitialStates(swapChain.generation);
      states := s;
      commandList := new CommandList(s);
      isInitialized := true;
      new;
    }

    /** The recording half of render: dispatch into the image, then the image to
        COPY_SOURCE and the back buffer to COPY_DEST, the copy, and both back. */
    method RecordFrame(backBuffer: ResourceId)
      requires Valid() && InState(states, backBuffer, Present)
      requires backBuffer.BackBuffer?
      modifies commandList
      ensures commandList.Valid() && !commandList.closed
      ensures commandList.commands ==
                ComputeFrame(backBuffer, FrameBuffer, threadGroupCountX, threadGroupCountY, threadGroupCountZ)
      ensures commandList.start == states && commandList.tracked == states
    {
      ComputeFrameRestoresStates(states, backBuffer, FrameBuffer,
                                 threadGroupCountX, threadGroupCountY, threadGroupCountZ);
      commandList.SetComputeRootDescriptorTable(descriptorHeap, descriptorHeap.start);
      commandList.Dispatch(threadGroupCountX, threadGroupCountY, threadGroupCountZ);
      commandList.ResourceBarrier(FrameBuffer, UnorderedAccess, CopySource);
      commandList.ResourceBarrier(backBuffer, Present, CopyDest);
      commandList.CopyResource(backBuffer, FrameBuffer);
      commandList.ResourceBarrier(FrameBuffer, CopySource, UnorderedAccess);
      commandList.ResourceBarrier(backBuffer, CopyDest, Present);
      assert commandList.commands ==
               ComputeFrame(backBuffer, FrameBuffer, threadGroupCountX, threadGroupCountY, threadGroupCountZ);
    }

    /** The submission half of render: close and execute the list, signal the next
        fence value and block until the GPU has reached it, then reset the allocator
        and the list for the next frame. */
    method Submit()
      requires FenceValid() && ResourcesValid()
      requires commandList.Valid() && !commandList.closed
      requires commandList.start == states && commandList.tracked == states
      requires !allocator.pending && allocator.guard <= fence.completed
      modifies this, queue, allocator, commandList, fence
      ensures Valid()
      ensures fenceValue == old(fenceValue) + 1 && fence.completed == fenceValue
      ensures queue.executed == old(queue.executed) + [old(commandList.commands)]
      ensures swapChain == old(swapChain) && states == old(states) && bufferIndex == old(bufferIndex)
      ensures width == old(width) && height == old(height) && isInitialized == old(isInitialized)
      ensures threadGroupCountX == old(threadGroupCountX) && threadGroupCountY == old(threadGroupCountY)
      ensures threadGroupCountZ == old(threadGroupCountZ)
    {
      commandList.Close();
      queue.ExecuteCommandLists(commandList, allocator);

      fenceValue := fenceValue + 1;
      queue.Signal(fence, fenceValue, allocator);
      fence.WaitFor(fenceValue);

      allocator.Reset(fence);
      commandList.Reset(allocator, states);
    }

    /** render: record the frame into the back buffer the swap chain names, submit it,
        signal the next fence value, block until the GPU reaches it, reset the allocator
        and the list, and present with sync interval 1 and no flags (the HRESULT of
        Present is not checked). */
    method Render(next: nat, presentHr: HResult)
      requires Valid() && next < BufferCount
      modifies this, queue, allocator, commandList, fence, swapChain
      ensures Valid() && swapChain == old(swapChain)
      ensures fenceValue == old(fenceValue) + 1
      ensures fence.signalled == fenceValue && fence.completed == fenceValue
      ensures bufferIndex == old(swapChain.currentIndex)
      ensures queue.executed == old(queue.executed) +
                [ComputeFrame(old(swapChain.Buffer(swapChain.currentIndex)), FrameBuffer,
                              threadGroupCountX, threadGroupCountY, threadGroupCountZ)]
      ensures swapChain.presents == old(swapChain.presents) + [PresentCall(1, 0)]
      ensures swapChain.currentIndex == (if Failed(presentHr) then old(swapChain.currentIndex) else next)
      ensures states == old(states) && width == old(width) && height == old(height)
      ensures threadGroupCountX == old(threadGroupCountX) && threadGroupCountY == old(threadGroupCountY)
      ensures threadGroupCountZ == old(threadGroupCountZ) && isInitialized == old(isInitialized)
    {
      bufferIndex := swapChain.CurrentBackBufferIndex();
      var backBuffer := swapChainBuffers[bufferIndex].value;
      RecordFrame(backBuffer);

      Submit();

      var _ := swapChain.Present(1, 0, presentHr, next);
    }

    /** flush: wait for the last signalled value if the GPU is behind it, signal that
        same value again and wait for it; only then drop the back buffers, the swap chain
        and the device. */
    method Flush()
      requires FenceValid() && swapChainBuffers.Length == BufferCount
      modifies this, fence, allocator, swapChainBuffers
      ensures fenceValue == old(fenceValue)
      ensures fence.Valid() && fence.signalled == fenceValue && fence.completed == fenceValue
      ensures forall i :: 0 <= i < BufferCount ==> swapChainBuffers[i] == None
      ensures swapChain == null && device == null
      ensures old(fence.completed) <= fence.completed
    {
      if fence.CompletedValue() < fenceValue {
        fence.WaitFor(fenceValue);
      }
      queue.Signal(fence, fenceValue, allocator);
      fence.WaitFor(fenceValue);
      for i := 0 to BufferCount
        invariant fenceValue == old(fenceValue)
        invariant fence.Valid() && fence.signalled == fenceValue && fence.completed == fenceValue
        invariant forall j :: 0 <= j < i ==> swapChainBuffers[j] == None
      {
        ReleaseBackBuffer(swapChainBuffers, i, fence);
      }
      swapChain := null;
      device := null;
    }
  }
}
