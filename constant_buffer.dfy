/** DX12Resource: a resource with one descriptor, and the helper that creates a
    constant buffer on first use and copies new contents into it on every call. The
    contents are the bytes of a value of some type T, so `|data|` plays sizeof(T). */
module ConstantBuffers {
  import opened Failures
  import opened Barriers
  import opened Gpu

  /** The bit trick (n + 255) & ~255 on a 64-bit size: a multiple of 256 (its low
      eight bits are clear), at least n, and less than 256 above it, so the least
      multiple of 256 that holds n bytes. Sizes within 255 of 2^64 would wrap. */
  function AlignedSize(n: bv64): (r: bv64)
    requires n <= 0xFFFF_FFFF_FFFF_FF00
    ensures r & 0xFF == 0
    ensures n <= r
  {
    (n + 255) & !255
  }

  /** The aligned size wastes at most 255 bytes. */
  lemma AlignedSizeIsTight(n: bv64)
    requires n <= 0xFFFF_FFFF_FFFF_FF00
    ensures AlignedSize(n) - n <= 0xFF
  {
  }

  /** The same size on unbounded integers, as the model below uses it. */
  function AlignUp(n: nat): nat
  {
    (n + 255) - (n + 255) % 256
  }

  /** AlignUp(n) is the least multiple of 256 that is at least n. */
  lemma AlignUpIsLeastMultiple(n: nat, m: nat)
    ensures AlignUp(n) % 256 == 0 && n <= AlignUp(n) < n + 256
    ensures m % 256 == 0 && n <= m ==> AlignUp(n) <= m
  {
  }

  /** memcpy of `src` to the start of `dst`. */
  method Memcpy(dst: array<bv8>, src: seq<bv8>)
    requires |src| <= dst.Length
    modifies dst
    ensures dst[..|src|] == src
    ensures dst[|src|..] == old(dst[|src|..])
  {
    for i := 0 to |src|
      invariant dst[..i] == src[..i]
      invariant dst[i..] == old(dst[i..])
    {
      dst[i] := src[i];
      assert dst[..i + 1] == src[..i + 1];
    }
  }

  class DX12Resource {
    var resource: Buffer?
    var cpuDescriptorHandle: nat
    var gpuDescriptorHandle: nat

    /** A resource starts empty, with zeroed handles. */
    constructor ()
      ensures resource == null && cpuDescriptorHandle == 0 && gpuDescriptorHandle == 0
    {
      resource := null;
      cpuDescriptorHandle := 0;
      gpuDescriptorHandle := 0;
    }

    /** The buffer a previous call created is one this call can use: an upload buffer
        large enough for `data` (the same T on every call). */
    ghost predicate Fits(data: seq<bv8>)
      reads this, resource
    {
      resource != null ==>
        resource.Valid() && resource.heap == UploadHeap && AlignUp(|data|) <= resource.size
    }

    /** createOrUpdateConstantBuffer. The first successful call creates an upload buffer
        of AlignUp(|data|) bytes in GENERIC_READ and a constant buffer view covering all
        of it at the heap start; later calls reuse both. Every call then maps the buffer,
        copies `data` to its start, leaving the padding untouched, and unmaps it. A
        failed create leaves the resource null and a failed map leaves the bytes
        untouched. The GPU handle is never assigned. */
    method CreateOrUpdateConstantBuffer(device: Device, data: seq<bv8>, heap: DescriptorHeap,
                                        createHr: HResult, mapHr: HResult)
      returns (o: Outcome)
      requires Fits(data)
      modifies this, device, heap
      modifies if resource != null then {resource, resource.bytes} else {}
      ensures Fits(data) && gpuDescriptorHandle == old(gpuDescriptorHandle)
      ensures o == Ok <==> (old(resource) != null || !Failed(createHr)) && !Failed(mapHr)
      ensures old(resource) != null ==>
                && resource == old(resource) && cpuDescriptorHandle == old(cpuDescriptorHandle)
                && heap.views == old(heap.views) && device.created == old(device.created)
      ensures old(resource) == null && Failed(createHr) ==>
                resource == null && heap.views == old(heap.views) &&
                cpuDescriptorHandle == old(cpuDescriptorHandle)
      ensures old(resource) == null && !Failed(createHr) ==>
                && resource != null && fresh(resource) && fresh(resource.bytes)
                && resource.id == Committed(old(device.created))
                && device.created == old(device.created) + 1
                && resource.size == AlignUp(|data|) && resource.initialState == GenericRead
                && cpuDescriptorHandle == heap.start
                && heap.views == old(heap.views)[heap.start := Cbv(resource.id, AlignUp(|data|))]
      ensures resource != null ==> !resource.mapped || o == Thrown
      ensures o == Ok ==> resource.bytes[..|data|] == data
      ensures old(resource) != null && o == Ok ==>
                resource.bytes[|data|..] == old(resource.bytes[|data|..])
      ensures old(resource) != null && o == Thrown ==> resource.bytes[..] == old(resource.bytes[..])
    {
      var bufferSize := AlignUp(|data|);
      AlignUpIsLeastMultiple(|data|, 0);
      if resource == null {
        var b;
        o, b := device.CreateCommittedResource(UploadHeap, bufferSize, GenericRead, createHr);
        if o == Thrown { return; }
        resource := b;
        cpuDescriptorHandle := heap.start;
        heap.CreateView(cpuDescriptorHandle, Cbv(resource.id, bufferSize));
      }
      o := resource.Map(mapHr);
      if o == Thrown { return; }
      Memcpy(resource.bytes, data);
      resource.Unmap();
    }
  }

  /** Two calls with values of the same type: the second reuses the buffer and the view
      the first created, and the buffer ends up holding the second value. */
  method UpdateTwice(r: DX12Resource, device: Device, heap: DescriptorHeap,
                     first: seq<bv8>, second: seq<bv8>)
    requires r.resource == null && |first| == |second|
    modifies r, device, heap
    ensures r.resource != null && r.resource.Valid() && r.resource.size == AlignUp(|first|)
    ensures r.cpuDescriptorHandle == heap.start
    ensures |second| <= r.resource.bytes.Length && r.resource.bytes[..|second|] == second
    ensures device.created == old(device.created) + 1
    ensures r.resource.id == Committed(old(device.created))
    ensures heap.views == old(heap.views)[heap.start := Cbv(r.resource.id, AlignUp(|first|))]
  {
    AlignUpIsLeastMultiple(|first|, 0);
    var o := r.CreateOrUpdateConstantBuffer(device, first, heap, S_OK, S_OK);
    o := r.CreateOrUpdateConstantBuffer(device, second, heap, S_OK, S_OK);
  }
}
