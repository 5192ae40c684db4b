/** The parts of Direct3D 12 and DXGI that the renderers drive, reduced to the state
    the renderers' correctness depends on. Each object keeps that state in fields,
    and the API's usage rules are preconditions: a barrier's "before" state must be
    the resource's current state, a host wait may only name a value that has been
    signalled, an allocator may only be reset once the GPU is done with it, and
    back-buffer references may only be dropped, and the swap chain resized, when
    nothing in flight still uses them. Choices the platform makes (which back buffer
    comes next, whether a call fails) are parameters. */
module Gpu {
  import opened Failures
  import opened Barriers

  /** A D3D12 fence. `signalled` is the last value a queue asked it to reach;
      `completed` is what the GPU has reached so far. The GPU only moves forward
      and never runs ahead of what was asked. */
  class Fence {
    var signalled: nat
    var completed: nat

    ghost predicate Valid()
      reads this
    {
      completed <= signalled
    }

    /** A fence created with initial value `v`. */
    constructor (v: nat)
      ensures signalled == v && completed == v
    {
      signalled := v;
      completed := v;
    }

    /** ID3D12Fence::GetCompletedValue. */
    function CompletedValue(): nat
      reads this
    {
      completed
    }

    /** SetEventOnCompletion(v) followed by an unbounded WaitForSingleObject: the host
        blocks until the GPU has reached `v`. Meanwhile the GPU may get further, up
        to what was signalled. Waiting on a value never signalled would block forever. */
    method WaitFor(v: nat)
      requires Valid() && v <= signalled
      modifies this
      ensures Valid()
      ensures signalled == old(signalled)
      ensures old(completed) <= completed && v <= completed
    {
      var c :| completed <= c <= signalled && v <= c;
      completed := c;
    }

    /** The GPU making progress on its own, between host steps. */
    method Progress(to: nat)
      requires Valid() && completed <= to <= signalled
      modifies this
      ensures Valid() && signalled == old(signalled) && completed == to
    {
      completed := to;
    }
  }

  /** An ID3D12CommandAllocator. `pending` holds while lists recorded into it have
      been submitted with no fence signal queued behind them; `guard` is the fence
      value whose completion frees the memory those lists used. */
  class CommandAllocator {
    ghost var pending: bool
    ghost var guard: nat

    constructor ()
      ensures !pending && guard == 0
    {
      pending := false;
      guard := 0;
    }

    /** ID3D12CommandAllocator::Reset: only legal once the GPU is past `guard`. */
    method Reset(fence: Fence)
      requires !pending && guard <= fence.completed
      ensures pending == old(pending) && guard == old(guard)
    {
    }
  }

  /** A descriptor: a render target view, an unordered access view, or a constant
      buffer view over the first `sizeInBytes` bytes of a buffer. */
  datatype View =
    | Rtv(resource: ResourceId)
    | Uav(resource: ResourceId)
    | Cbv(resource: ResourceId, sizeInBytes: nat)

  /** A CPU-visible descriptor heap: slot handles are the heap start plus an offset. */
  class DescriptorHeap {
    const start: nat
    var views: map<nat, View>

    constructor (start: nat)
      ensures this.start == start && views == map[]
    {
      this.start := start;
      views := map[];
    }

    /** CreateRenderTargetView / CreateUnorderedAccessView at `handle`. */
    method CreateView(handle: nat, v: View)
      modifies this
      ensures views == old(views)[handle := v]
    {
      views := views[handle := v];
    }
  }

  /** A graphics command list. `tracked` is what the resource states will be once
      everything recorded so far has run, starting from `start`. */
  class CommandList {
    var commands: seq<Command>
    var closed: bool
    var renderTarget: Option<ResourceId>
    var computeTable: Option<ResourceId>
    ghost var start: States
    ghost var tracked: States

    ghost predicate Valid()
      reads this
    {
      Replay(start, commands) == Some(tracked)
    }

    /** A list open for recording, from resource states `s`. */
    constructor (ghost s: States)
      ensures Valid() && commands == [] && !closed && start == s && tracked == s
      ensures renderTarget == None && computeTable == None
    {
      commands := [];
      closed := false;
      renderTarget := None;
      computeTable := None;
      start := s;
      tracked := s;
    }

    /** ResourceBarrier with one transition: the resource must be in `before`. */
    method ResourceBarrier(r: ResourceId, before: ResourceState, after: ResourceState)
      requires Valid() && !closed && InState(tracked, r, before)
      modifies this
      ensures Valid() && !closed && start == old(start)
      ensures commands == old(commands) + [Barrier(r, before, after)]
      ensures tracked == old(tracked)[r := after]
      ensures renderTarget == old(renderTarget) && computeTable == old(computeTable)
    {
      ReplaySnoc(start, commands, Barrier(r, before, after), tracked);
      commands := commands + [Barrier(r, before, after)];
      tracked := tracked[r := after];
    }

    /** ClearRenderTargetView through the descriptor at `rtv`: the viewed resource
        must be a render target at this point. */
    method ClearRenderTargetView(heap: DescriptorHeap, rtv: nat)
      requires Valid() && !closed
      requires rtv in heap.views && heap.views[rtv].Rtv?
      requires InState(tracked, heap.views[rtv].resource, RenderTarget)
      modifies this
      ensures Valid() && !closed && start == old(start) && tracked == old(tracked)
      ensures commands == old(commands) + [ClearRenderTarget(heap.views[rtv].resource, rtv)]
      ensures renderTarget == old(renderTarget) && computeTable == old(computeTable)
    {
      var c := ClearRenderTarget(heap.views[rtv].resource, rtv);
      ReplaySnoc(start, commands, c, tracked);
      commands := commands + [c];
    }

    /** OMSetRenderTargets with the one descriptor at `rtv`. */
    method OMSetRenderTargets(heap: DescriptorHeap, rtv: nat)
      requires Valid() && !closed
      requires rtv in heap.views && heap.views[rtv].Rtv?
      modifies this
      ensures Valid() && !closed && start == old(start) && tracked == old(tracked)
      ensures commands == old(commands) && computeTable == old(computeTable)
      ensures renderTarget == Some(heap.views[rtv].resource)
    {
      renderTarget := Some(heap.views[rtv].resource);
    }

    /** DrawIndexedInstanced into the bound render target. */
    method DrawIndexedInstanced(indexCount: nat)
      requires Valid() && !closed && renderTarget.Some?
      requires InState(tracked, renderTarget.value, RenderTarget)
      modifies this
      ensures Valid() && !closed && start == old(start) && tracked == old(tracked)
      ensures renderTarget == old(renderTarget) && computeTable == old(computeTable)
      ensures commands == old(commands) + [DrawIndexed(renderTarget.value, indexCount)]
    {
      var c := DrawIndexed(renderTarget.value, indexCount);
      ReplaySnoc(start, commands, c, tracked);
      commands := commands + [c];
    }

    /** SetComputeRootDescriptorTable with the table starting at `handle`. */
    method SetComputeRootDescriptorTable(heap: DescriptorHeap, handle: nat)
      requires Valid() && !closed
      requires handle in heap.views && heap.views[handle].Uav?
      modifies this
      ensures Valid() && !closed && start == old(start) && tracked == old(tracked)
      ensures commands == old(commands) && renderTarget == old(renderTarget)
      ensures computeTable == Some(heap.views[handle].resource)
    {
      computeTable := Some(heap.views[handle].resource);
    }

    /** Dispatch: the compute shader writes the resource its table views. */
    method Dispatch(x: nat, y: nat, z: nat)
      requires Valid() && !closed && computeTable.Some?
      requires InState(tracked, computeTable.value, UnorderedAccess)
      modifies this
      ensures Valid() && !closed && start == old(start) && tracked == old(tracked)
      ensures renderTarget == old(renderTarget) && computeTable == old(computeTable)
      ensures commands == old(commands) + [Command.Dispatch(computeTable.value, x, y, z)]
    {
      var c := Command.Dispatch(computeTable.value, x, y, z);
      ReplaySnoc(start, commands, c, tracked);
      commands := commands + [c];
    }

    /** CopyResource(dst, src). */
    method CopyResource(dst: ResourceId, src: ResourceId)
      requires Valid() && !closed
      requires InState(tracked, dst, CopyDest) && InState(tracked, src, CopySource)
      modifies this
      ensures Valid() && !closed && start == old(start) && tracked == old(tracked)
      ensures commands == old(commands) + [Copy(dst, src)]
      ensures renderTarget == old(renderTarget) && computeTable == old(computeTable)
    {
      ReplaySnoc(start, commands, Copy(dst, src), tracked);
      commands := commands + [Copy(dst, src)];
    }

    /** UpdateSubresources: copy `size` bytes from an upload buffer into `dst`. */
    method UpdateSubresources(dst: ResourceId, src: ResourceId, size: nat)
      requires Valid() && !closed
      modifies this
      ensures Valid() && !closed && start == old(start) && tracked == old(tracked)
      ensures commands == old(commands) + [UploadCopy(dst, src, size)]
      ensures renderTarget == old(renderTarget) && computeTable == old(computeTable)
    {
      ReplaySnoc(start, commands, UploadCopy(dst, src, size), tracked);
      commands := commands + [UploadCopy(dst, src, size)];
    }

    /** Close: recording ends; only a closed list can be executed. */
    method Close()
      requires Valid()
      modifies this
      ensures Valid() && closed
      ensures commands == old(commands) && start == old(start) && tracked == old(tracked)
      ensures renderTarget == old(renderTarget) && computeTable == old(computeTable)
    {
      closed := true;
    }

    /** Reset(allocator): a closed list starts recording afresh, from states `s`.
        The allocator must itself have been reset. */
    method Reset(allocator: CommandAllocator, ghost s: States)
      requires closed && !allocator.pending
      modifies this
      ensures Valid() && !closed && commands == [] && start == s && tracked == s
      ensures renderTarget == None && computeTable == None
    {
      commands := [];
      closed := false;
      renderTarget := None;
      computeTable := None;
      start := s;
      tracked := s;
    }
  }

  /** A raw ID3D12CommandQueue: the lists it was given, in order. */
  class Queue {
    var executed: seq<seq<Command>>

    constructor ()
      ensures executed == []
    {
      executed := [];
    }

    /** ExecuteCommandLists with one closed list recorded into `allocator`. */
    method ExecuteCommandLists(cl: CommandList, ghost allocator: CommandAllocator)
      requires cl.closed
      modifies this, allocator
      ensures executed == old(executed) + [cl.commands]
      ensures allocator.pending && allocator.guard == old(allocator.guard)
    {
      executed := executed + [cl.commands];
      allocator.pending := true;
    }

    /** Signal(fence, v): once the work queued so far is done, the fence reaches `v`.
        Fence values only grow. The allocator used by that work is freed by `v`. */
    method Signal(fence: Fence, v: nat, ghost allocator: CommandAllocator)
      requires fence.Valid() && fence.signalled <= v
      modifies fence, allocator
      ensures fence.Valid() && fence.signalled == v && fence.completed == old(fence.completed)
      ensures !allocator.pending && allocator.guard == v
      ensures executed == old(executed)
    {
      fence.signalled := v;
      allocator.pending := false;
      allocator.guard := v;
    }
  }

  /** The engine's CommandQueue wrapper around a queue, a fence and its last
      signalled value. Its implementation is not part of this model; the
      contracts below are the behaviour its callers rely on. */
  class CommandQueue {
    const fence: Fence
    var fenceValue: nat
    var executed: seq<seq<Command>>

    ghost predicate Valid()
      reads this, fence
    {
      fence.Valid() && fence.signalled == fenceValue
    }

    constructor ()
      ensures Valid() && fresh(fence) && fenceValue == 0 && executed == []
      ensures fence.completed == 0
    {
      fence := new Fence(0);
      fenceValue := 0;
      executed := [];
    }

    /** GetCommandList: a list open for recording, from resource states `s`. */
    method GetCommandList(ghost s: States) returns (cl: CommandList)
      ensures fresh(cl) && cl.Valid() && !cl.closed && cl.commands == []
      ensures cl.start == s && cl.tracked == s
      ensures cl.renderTarget == None && cl.computeTable == None
    {
      cl := new CommandList(s);
    }

    /** ExecuteCommandList: closes and submits the list, then signals the next fence
        value and returns it. */
    method ExecuteCommandList(cl: CommandList) returns (v: nat)
      requires Valid() && cl.Valid()
      modifies this, fence, cl
      ensures Valid() && v == old(fenceValue) + 1 && fenceValue == v
      ensures fence.completed == old(fence.completed)
      ensures executed == old(executed) + [cl.commands]
      ensures cl.closed && cl.commands == old(cl.commands) && cl.tracked == old(cl.tracked)
      ensures cl.start == old(cl.start)
    {
      cl.Close();
      executed := executed + [cl.commands];
      fenceValue := fenceValue + 1;
      fence.signalled := fenceValue;
      v := fenceValue;
    }

    /** WaitForFenceValue: blocks until the fence has reached `v`. */
    method WaitForFenceValue(v: nat)
      requires Valid() && v <= fenceValue
      modifies fence
      ensures Valid() && fence.completed >= v && fence.completed >= old(fence.completed)
    {
      fence.WaitFor(v);
    }

    /** Flush: signals the next value and waits for it, so the queue is idle. */
    method Flush()
      requires Valid()
      modifies this, fence
      ensures Valid() && fenceValue == old(fenceValue) + 1
      ensures fence.completed == fenceValue && executed == old(executed)
    {
      fenceValue := fenceValue + 1;
      fence.signalled := fenceValue;
      fence.WaitFor(fenceValue);
    }
  }

  /** One IDXGISwapChain::Present call. */
  datatype PresentCall = PresentCall(syncInterval: nat, flags: bv32)

  /** An IDXGISwapChain holding `bufferCount` back buffers. ResizeBuffers replaces
      them, which is why buffer identities carry a generation. */
  class SwapChain {
    const bufferCount: nat
    var generation: nat
    var currentIndex: nat
    var width: nat
    var height: nat
    var presents: seq<PresentCall>

    ghost predicate Valid()
      reads this
    {
      currentIndex < bufferCount
    }

    constructor (bufferCount: nat, width: nat, height: nat, firstIndex: nat)
      requires firstIndex < bufferCount
      ensures Valid() && this.bufferCount == bufferCount && generation == 0
      ensures currentIndex == firstIndex && this.width == width && this.height == height
      ensures presents == []
    {
      this.bufferCount := bufferCount;
      generation := 0;
      currentIndex := firstIndex;
      this.width := width;
      this.height := height;
      presents := [];
    }

    /** The resource GetBuffer(i) returns. */
    function Buffer(i: nat): ResourceId
      reads this
    {
      BackBuffer(generation, i)
    }

    /** GetCurrentBackBufferIndex. */
    function CurrentBackBufferIndex(): nat
      reads this
    {
      currentIndex
    }

    /** Present: queues the current back buffer for display. When the call
        succeeds, the swap chain moves on to back buffer `next`, which is its
        own choice. */
    method Present(syncInterval: nat, flags: bv32, hr: HResult, next: nat) returns (o: Outcome)
      requires Valid() && next < bufferCount
      modifies this
      ensures Valid() && o == ThrowIfFailed(hr)
      ensures presents == old(presents) + [PresentCall(syncInterval, flags)]
      ensures currentIndex == (if o == Ok then next else old(currentIndex))
      ensures generation == old(generation) && width == old(width) && height == old(height)
    {
      presents := presents + [PresentCall(syncInterval, flags)];
      o := ThrowIfFailed(hr);
      if o == Ok {
        currentIndex := next;
      }
    }

    /** ResizeBuffers: every reference to a back buffer must have been released. */
    method ResizeBuffers(held: array<Option<ResourceId>>, count: nat, w: nat, h: nat, hr: HResult, next: nat)
      returns (o: Outcome)
      requires Valid() && count == bufferCount && next < bufferCount
      requires forall i :: 0 <= i < held.Length ==> held[i] == None
      modifies this
      ensures Valid() && o == ThrowIfFailed(hr) && presents == old(presents)
      ensures o == Ok ==> generation == old(generation) + 1 && width == w && height == h
      ensures o == Ok ==> currentIndex == next
      ensures o == Thrown ==> generation == old(generation) && width == old(width)
      ensures o == Thrown ==> height == old(height) && currentIndex == old(currentIndex)
    {
      o := ThrowIfFailed(hr);
      if o == Ok {
        generation := generation + 1;
        width := w;
        height := h;
        currentIndex := next;
      }
    }
  }

  /** Dropping the reference held in slot `i` (ComPtr::Reset). A back buffer may only
      be let go of once the GPU has finished everything it was signalled to do. */
  method ReleaseBackBuffer(held: array<Option<ResourceId>>, i: nat, fence: Fence)
    requires i < held.Length && fence.signalled <= fence.completed
    modifies held
    ensures held[i] == None
    ensures forall j :: 0 <= j < held.Length && j != i ==> held[j] == old(held[j])
  {
    held[i] := None;
  }

  /** D3D12_HEAP_TYPE: GPU-only memory, or memory the CPU can map and write. */
  datatype HeapType = DefaultHeap | UploadHeap

  /** A committed buffer resource and, for an upload heap, its CPU-visible bytes. */
  class Buffer {
    const id: ResourceId
    const heap: HeapType
    const size: nat
    const initialState: ResourceState
    const bytes: array<bv8>
    var mapped: bool

    ghost predicate Valid()
      reads this
    {
      bytes.Length == size
    }

    constructor (id: ResourceId, heap: HeapType, size: nat, initialState: ResourceState)
      ensures Valid() && fresh(bytes) && !mapped
      ensures this.id == id && this.heap == heap && this.size == size
      ensures this.initialState == initialState
    {
      this.id := id;
      this.heap := heap;
      this.size := size;
      this.initialState := initialState;
      bytes := new bv8[size];
      mapped := false;
    }

    /** Map: on success, the bytes are writable by the CPU. */
    method Map(hr: HResult) returns (o: Outcome)
      requires heap == UploadHeap
      modifies this
      ensures o == ThrowIfFailed(hr) && mapped == (old(mapped) || o == Ok)
    {
      o := ThrowIfFailed(hr);
      if o == Ok {
        mapped := true;
      }
    }

    method Unmap()
      modifies this
      ensures !mapped
    {
      mapped := false;
    }
  }

  /** An ID3D12Device: what it creates, and the descriptor increment it reports. */
  class Device {
    const rtvIncrement: nat
    var created: nat

    ghost predicate Valid()
      reads this
    {
      rtvIncrement > 0
    }

    constructor (rtvIncrement: nat)
      requires rtvIncrement > 0
      ensures Valid() && this.rtvIncrement == rtvIncrement && created == 0
    {
      this.rtvIncrement := rtvIncrement;
      created := 0;
    }

    /** CreateCommittedResource for a buffer of `size` bytes: a fresh buffer on success,
        null on failure. */
    method CreateCommittedResource(heap: HeapType, size: nat, initial: ResourceState, hr: HResult)
      returns (o: Outcome, b: Buffer?)
      modifies this
      ensures o == ThrowIfFailed(hr)
      ensures o == Ok ==> b != null && fresh(b) && fresh(b.bytes) && b.Valid() && !b.mapped
      ensures o == Ok ==> b.id == Committed(old(created)) && b.heap == heap && b.size == size
      ensures o == Ok ==> b.initialState == initial && created == old(created) + 1
      ensures o == Thrown ==> b == null && created == old(created)
    {
      o := ThrowIfFailed(hr);
      if o == Ok {
        b := new Buffer(Committed(created), heap, size, initial);
        created := created + 1;
      } else {
        b := null;
      }
    }
  }
}
