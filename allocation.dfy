/**
 * The buffer allocations of the render backend: a VMA buffer owned through a
 * shared allocator pointer (`Allocation`), its persistently mapped host-visible
 * variant (`HostVisibleAllocation`), and the typed array view over that
 * mapping (`TypedHostVisibleAllocation<T[]>` and `<T[N]>`). The C++ class
 * `HostVisibleAllocation` derives from `Allocation`; here it repeats the base
 * fields, and the typed views are functions of the element size `sizeof(T)`.
 * A null shared pointer or handle is `NULL`.
 */
module Allocation {
  import opened Common
  import opened Vk
  import VkResults

  /** The allocation create info of the plain constructor: automatic memory usage and nothing else. */
  const PLAIN_REQUEST := AllocationRequest(NoHostAccess, false, false)

  /** The first request of the host-visible constructor: mapped, and coherent memory preferred. */
  function HostVisibleRequest(randomAccess: bool): AllocationRequest
  {
    AllocationRequest(if randomAccess then RandomAccess else SequentialWrite, true, true)
  }

  /**
   * `vmaCreateBuffer` answering `result` (any code but success is a failure):
   * on success the buffer and its allocation get fresh handles, on failure
   * both stay null.
   */
  method VmaCreateBuffer(drv: Driver, allocator: Handle, info: BufferInfo, request: AllocationRequest,
                         result: VkResults.VkResult) returns (buffer: Handle, allocation: Handle)
    modifies drv
    ensures result == VkResults.Success ==>
      buffer == old(drv.last) + 1 && allocation == old(drv.last) + 2 && drv.last == allocation
    ensures result != VkResults.Success ==> buffer == NULL && allocation == NULL && drv.last == old(drv.last)
    ensures drv.log == old(drv.log) + [CreateBuffer(allocator, info, request, buffer, allocation)]
    ensures drv.fences == old(drv.fences)
  {
    buffer, allocation := NULL, NULL;
    if result == VkResults.Success {
      buffer := drv.Fresh();
      allocation := drv.Fresh();
    }
    drv.Record(CreateBuffer(allocator, info, request, buffer, allocation));
  }

  class Allocation {
    /** The shared `VulkanAllocator`. */
    var allocator: Handle
    var allocation: Handle
    var buffer: Handle
    var size: nat

    /** The default constructor: owns nothing. */
    constructor ()
      ensures allocator == NULL && allocation == NULL && buffer == NULL && size == 0
    {
      allocator, allocation, buffer, size := NULL, NULL, NULL, 0;
    }

    /** A constructed object before its buffer exists. */
    constructor Reserved(allocator: Handle, size: nat)
      ensures this.allocator == allocator && this.size == size && allocation == NULL && buffer == NULL
    {
      this.allocator, this.size := allocator, size;
      allocation, buffer := NULL, NULL;
    }

    /**
     * The move constructor: takes over `other`'s allocation, buffer and size
     * and empties them there, but `other` keeps its allocator.
     */
    constructor Moved(other: Allocation)
      modifies other
      ensures allocator == old(other.allocator) && allocation == old(other.allocation) &&
              buffer == old(other.buffer) && size == old(other.size)
      ensures other.allocator == old(other.allocator) && other.allocation == NULL && other.buffer == NULL &&
              other.size == 0
    {
      allocator, allocation, buffer, size := other.allocator, other.allocation, other.buffer, other.size;
      new;
      other.allocation, other.buffer, other.size := NULL, NULL, 0;
    }

    /**
     * Move assignment: copies `other`'s allocator and swaps allocation, buffer
     * and size with it, so `other` now owns what this object owned.
     */
    method MoveAssign(other: Allocation)
      modifies this, other
      ensures allocator == old(other.allocator) && other.allocator == old(other.allocator)
      ensures allocation == old(other.allocation) && other.allocation == old(allocation)
      ensures buffer == old(other.buffer) && other.buffer == old(buffer)
      ensures size == old(other.size) && other.size == old(size)
    {
      allocator := other.allocator;
      var a := allocation;
      allocation := other.allocation;
      other.allocation := a;
      var b := buffer;
      buffer := other.buffer;
      other.buffer := b;
      var s := size;
      size := other.size;
      other.size := s;
    }

    /** The destructor: `vmaDestroyBuffer` through the allocator, when there is one. */
    method Drop(drv: Driver)
      modifies drv
      ensures drv.log == old(drv.log) + (if allocator != NULL then [DestroyBuffer(allocator, buffer, allocation)] else [])
      ensures drv.last == old(drv.last) && drv.fences == old(drv.fences)
    {
      if allocator != NULL {
        drv.Record(DestroyBuffer(allocator, buffer, allocation));
      }
    }
  }

  /**
   * The public constructor: a buffer of `size` bytes and `usage` from the
   * shared allocator, or `VulkanException` with the failing result. A
   * throwing constructor runs no destructor, so a failure destroys nothing.
   */
  method NewAllocation(drv: Driver, allocator: Handle, size: nat, usage: nat, result: VkResults.VkResult)
    returns (r: Result<Allocation>)
    requires allocator != NULL
    modifies drv
    ensures r.Ok? <==> result == VkResults.Success
    ensures r.Err? ==>
      r.error == VulkanException(result) &&
      drv.log == old(drv.log) + [CreateBuffer(allocator, BufferInfo(size, usage), PLAIN_REQUEST, NULL, NULL)]
    ensures r.Ok? ==>
      fresh(r.value) && r.value.allocator == allocator && r.value.size == size &&
      r.value.buffer == old(drv.last) + 1 && r.value.allocation == old(drv.last) + 2 &&
      drv.log == old(drv.log) + [CreateBuffer(allocator, BufferInfo(size, usage), PLAIN_REQUEST, r.value.buffer,
                                              r.value.allocation)]
    ensures drv.fences == old(drv.fences)
  {
    var a := new Allocation.Reserved(allocator, size);
    var b, m := VmaCreateBuffer(drv, allocator, BufferInfo(size, usage), PLAIN_REQUEST, result);
    if result != VkResults.Success {
      return Err(VulkanException(result));
    }
    a.buffer, a.allocation := b, m;
    return Ok(a);
  }

  /**
   * Moving out of an allocation and then destroying both objects frees its
   * buffer once: the moved-from object still has the allocator, but hands it
   * only null handles, which VMA ignores.
   */
  method MoveThenDropBoth(drv: Driver, a: Allocation) returns (b: Allocation)
    modifies drv, a
    ensures fresh(b)
    ensures drv.log == old(drv.log) +
      (if old(a.allocator) == NULL then []
       else [DestroyBuffer(old(a.allocator), NULL, NULL),
             DestroyBuffer(old(a.allocator), old(a.buffer), old(a.allocation))])
  {
    b := new Allocation.Moved(a);
    a.Drop(drv);
    b.Drop(drv);
  }

  /**
   * Move-assigning into a live allocation hands its old buffer to the source
   * object, whose destructor then frees it through the source's allocator.
   */
  method AssignThenDropSource(drv: Driver, target: Allocation, source: Allocation)
    requires target != source
    modifies drv, target, source
    ensures target.buffer == old(source.buffer) && target.allocation == old(source.allocation)
    ensures drv.log == old(drv.log) +
      (if old(source.allocator) == NULL then []
       else [DestroyBuffer(old(source.allocator), old(target.buffer), old(target.allocation))])
  {
    target.MoveAssign(source);
    source.Drop(drv);
  }

  class HostVisibleAllocation {
    /** The shared `VulkanAllocator`. */
    var allocator: Handle
    var allocation: Handle
    var buffer: Handle
    var size: nat
    /** Whether the memory is host-coherent, so that writes need no flush. */
    var coherent: bool
    var randomAccess: bool
    /** The persistently mapped address, `get_map()`. */
    var mapping: Handle

    /** The default constructor: owns nothing, not coherent, not mapped. */
    constructor ()
      ensures allocator == NULL && allocation == NULL && buffer == NULL && size == 0
      ensures !coherent && !randomAccess && mapping == NULL
    {
      allocator, allocation, buffer, size := NULL, NULL, NULL, 0;
      coherent, randomAccess, mapping := false, false, NULL;
    }

    /** The host-visible constructor after its base part: allocator and size set, no buffer yet. */
    constructor Reserved(allocator: Handle, size: nat, randomAccess: bool)
      ensures this.allocator == allocator && this.size == size && this.randomAccess == randomAccess
      ensures allocation == NULL && buffer == NULL && !coherent && mapping == NULL
    {
      this.allocator, this.size, this.randomAccess := allocator, size, randomAccess;
      allocation, buffer, coherent, mapping := NULL, NULL, false, NULL;
    }

    /** `flush(offset, size)`: a VMA flush of that range, unless the memory is coherent. */
    method FlushRange(drv: Driver, offset: nat, length: nat)
      modifies drv
      ensures drv.log == old(drv.log) + (if coherent then [] else [FlushAllocation(allocation, offset, length)])
      ensures drv.last == old(drv.last) && drv.fences == old(drv.fences)
    {
      if !coherent {
        drv.Record(FlushAllocation(allocation, offset, length));
      }
    }

    /** `flush()`: the whole buffer, from offset 0 for `size` bytes. */
    method Flush(drv: Driver)
      modifies drv
      ensures drv.log == old(drv.log) + (if coherent then [] else [FlushAllocation(allocation, 0, size)])
      ensures drv.last == old(drv.last) && drv.fences == old(drv.fences)
    {
      FlushRange(drv, 0, size);
    }

    /**
     * The move constructor: the base part moves as `Allocation`'s does (the
     * source keeps its allocator); coherence and mapping move too and are
     * cleared in the source.
     */
    constructor Moved(other: HostVisibleAllocation)
      modifies other
      ensures allocator == old(other.allocator) && allocation == old(other.allocation) &&
              buffer == old(other.buffer) && size == old(other.size)
      ensures coherent == old(other.coherent) && mapping == old(other.mapping) && !randomAccess
      ensures other.allocator == old(other.allocator) && other.allocation == NULL && other.buffer == NULL &&
              other.size == 0 && !other.coherent && other.mapping == NULL
      ensures other.randomAccess == old(other.randomAccess)
    {
      allocator, allocation, buffer, size := other.allocator, other.allocation, other.buffer, other.size;
      coherent, mapping, randomAccess := other.coherent, other.mapping, false;
      new;
      other.allocation, other.buffer, other.size := NULL, NULL, 0;
      other.coherent, other.mapping := false, NULL;
    }

    /**
     * Move assignment as written: takes every field but `random_access` from
     * `other` and zeroes all of `other`'s, its allocator included, so that
     * `other`'s destructor frees nothing, and this object's old buffer with it.
     */
    method MoveAssignAsWritten(other: HostVisibleAllocation)
      requires other != this
      modifies this, other
      ensures allocator == old(other.allocator) && allocation == old(other.allocation) &&
              buffer == old(other.buffer) && size == old(other.size)
      ensures coherent == old(other.coherent) && mapping == old(other.mapping) && randomAccess == old(randomAccess)
      ensures other.allocator == NULL && other.allocation == NULL && other.buffer == NULL && other.size == 0
      ensures !other.coherent && other.mapping == NULL && other.randomAccess == old(other.randomAccess)
    {
      allocator, allocation, buffer, size := other.allocator, other.allocation, other.buffer, other.size;
      coherent, mapping := other.coherent, other.mapping;
      other.allocator, other.allocation, other.buffer, other.size := NULL, NULL, NULL, 0;
      other.coherent, other.mapping := false, NULL;
    }

    /**
     * Move assignment corrected: exchanges every field but `random_access`
     * with `other`, the allocator included, as the base class exchanges the
     * buffer, so that `other`'s destructor frees this object's old buffer
     * through the allocator that made it.
     */
    method MoveAssign(other: HostVisibleAllocation)
      requires other != this
      modifies this, other
      ensures allocator == old(other.allocator) && allocation == old(other.allocation) &&
              buffer == old(other.buffer) && size == old(other.size)
      ensures coherent == old(other.coherent) && mapping == old(other.mapping) && randomAccess == old(randomAccess)
      ensures other.allocator == old(allocator) && other.allocation == old(allocation) &&
              other.buffer == old(buffer) && other.size == old(size)
      ensures other.coherent == old(coherent) && other.mapping == old(mapping) &&
              other.randomAccess == old(other.randomAccess)
    {
      allocator, other.allocator := other.allocator, allocator;
      allocation, other.allocation := other.allocation, allocation;
      buffer, other.buffer := other.buffer, buffer;
      size, other.size := other.size, size;
      coherent, other.coherent := other.coherent, coherent;
      mapping, other.mapping := other.mapping, mapping;
    }

    /** The inherited destructor: `vmaDestroyBuffer` through the allocator, when there is one. */
    method Drop(drv: Driver)
      modifies drv
      ensures drv.log == old(drv.log) + (if allocator != NULL then [DestroyBuffer(allocator, buffer, allocation)] else [])
      ensures drv.last == old(drv.last) && drv.fences == old(drv.fences)
    {
      if allocator != NULL {
        drv.Record(DestroyBuffer(allocator, buffer, allocation));
      }
    }

    /** `count()` of the `T[]` view with `sizeof(T) == typeSize`: how many whole elements fit in the buffer. */
    function Count(typeSize: nat): (r: nat)
      requires typeSize > 0
      reads this
      ensures r * typeSize <= size < (r + 1) * typeSize
    {
      size / typeSize
    }

    /** `operator[]`: the address of element `i`, which the source asserts is below `count()`. */
    function Element(i: nat, typeSize: nat): (r: nat)
      requires typeSize > 0 && i < Count(typeSize)
      reads this
      ensures mapping <= r && r + typeSize <= mapping + size
      ensures r == mapping + Offset(i, typeSize)
    {
      ElementInBounds(i, Count(typeSize), typeSize);
      mapping + Offset(i, typeSize)
    }

    /** `end()`: one past the last whole element, never past the mapped bytes. */
    function End(typeSize: nat): (r: nat)
      requires typeSize > 0
      reads this
      ensures mapping <= r <= mapping + size && mapping + size < r + typeSize
      ensures r == mapping + Offset(Count(typeSize), typeSize)
    {
      mapping + Offset(Count(typeSize), typeSize)
    }
  }

  /** `offset(i)`: element `i` starts `i * sizeof(T)` bytes into the mapping. */
  function Offset(i: nat, typeSize: nat): nat
  {
    i * typeSize
  }

  /** Multiplication distributes over a sum of element counts. */
  lemma Distribute(a: nat, b: nat, c: nat)
    ensures (a + b) * c == a * c + b * c
  {
  }

  /** More elements never take fewer bytes. */
  lemma MulMonotone(a: nat, b: nat, c: nat)
    requires a <= b
    ensures a * c <= b * c
  {
    Distribute(a, b - a, c);
  }

  /** Element `i` of `count` ends no later than the last whole element does. */
  lemma ElementInBounds(i: nat, count: nat, typeSize: nat)
    requires i < count
    ensures Offset(i, typeSize) + typeSize <= Offset(count, typeSize)
  {
    Distribute(i, 1, typeSize);
    MulMonotone(i + 1, count, typeSize);
  }

  /** A buffer of `sizeof(T) * n` bytes holds exactly `n` elements, which is why the `T[N]` view has `count() == N`. */
  lemma CountOfArraySize(typeSize: nat, n: nat)
    requires typeSize > 0
    ensures (typeSize * n) / typeSize == n
  {
    var q := (typeSize * n) / typeSize;
    assert q * typeSize <= n * typeSize < q * typeSize + typeSize by {
      assert typeSize * n == q * typeSize + (typeSize * n) % typeSize;
    }
    if q < n {
      Distribute(q, 1, typeSize);
      MulMonotone(q + 1, n, typeSize);
    } else if q > n {
      Distribute(n, 1, typeSize);
      MulMonotone(n + 1, q, typeSize);
    }
  }

  /** What the second create is handed: the `buffer` field's bytes as the source passes them, or the intended create info. */
  function RetryInfo(size: nat, usage: nat, retryFromField: bool): BufferInfo
  {
    if retryFromField then BufferFieldBytes(NULL) else BufferInfo(size, usage)
  }

  /**
   * The calls of the host-visible constructor when the last handle given out
   * was `base`: a create preferring coherent memory; if that fails, a retry
   * without the preference; if that fails too, the base destructor of the
   * partly built object, which holds only null handles.
   */
  function HostVisibleCalls(allocator: Handle, size: nat, usage: nat, randomAccess: bool,
                            first: VkResults.VkResult, second: VkResults.VkResult, base: Handle,
                            retryInfo: BufferInfo): seq<Call>
  {
    var request := HostVisibleRequest(randomAccess);
    var retry := request.(preferCoherent := false);
    if first == VkResults.Success then [CreateBuffer(allocator, BufferInfo(size, usage), request, base + 1, base + 2)]
    else if second == VkResults.Success then
      [CreateBuffer(allocator, BufferInfo(size, usage), request, NULL, NULL),
       CreateBuffer(allocator, retryInfo, retry, base + 1, base + 2)]
    else
      [CreateBuffer(allocator, BufferInfo(size, usage), request, NULL, NULL),
       CreateBuffer(allocator, retryInfo, retry, NULL, NULL),
       DestroyBuffer(allocator, NULL, NULL)]
  }

  /**
   * The host-visible constructor, answering `first` and `second` for the two
   * creates and `mapped` for the mapped address; `retryFromField` says
   * whether the retry reads its create info from the `buffer` field.
   */
  method BuildHostVisible(drv: Driver, allocator: Handle, size: nat, usage: nat, randomAccess: bool,
                          first: VkResults.VkResult, second: VkResults.VkResult, mapped: Handle,
                          retryFromField: bool)
    returns (r: Result<HostVisibleAllocation>)
    requires allocator != NULL
    modifies drv
    ensures r.Ok? <==> first == VkResults.Success || second == VkResults.Success
    ensures r.Err? ==> r.error == VulkanException(second)
    ensures r.Ok? ==>
      fresh(r.value) && r.value.allocator == allocator && r.value.size == size &&
      r.value.randomAccess == randomAccess && r.value.mapping == mapped &&
      r.value.buffer == old(drv.last) + 1 && r.value.allocation == old(drv.last) + 2 &&
      (r.value.coherent <==> first == VkResults.Success)
    ensures drv.log == old(drv.log) + HostVisibleCalls(allocator, size, usage, randomAccess, first, second,
                                                       old(drv.last), RetryInfo(size, usage, retryFromField))
    ensures drv.fences == old(drv.fences)
  {
    var h := new HostVisibleAllocation.Reserved(allocator, size, randomAccess);
    var request := HostVisibleRequest(randomAccess);
    var b, a := VmaCreateBuffer(drv, allocator, BufferInfo(size, usage), request, first);
    h.buffer, h.allocation := b, a;
    if first != VkResults.Success {
      var retryInfo := if retryFromField then BufferFieldBytes(h.buffer) else BufferInfo(size, usage);
      b, a := VmaCreateBuffer(drv, allocator, retryInfo, request.(preferCoherent := false), second);
      h.buffer, h.allocation := b, a;
      if second != VkResults.Success {
        h.Drop(drv);
        return Err(VulkanException(second));
      }
      h.coherent := false;
    } else {
      h.coherent := true;
    }
    h.mapping := mapped;
    return Ok(h);
  }

  /** The host-visible constructor as written: the retry passes the address of `buffer` as its create info. */
  method NewHostVisibleAsWritten(drv: Driver, allocator: Handle, size: nat, usage: nat, randomAccess: bool,
                                 first: VkResults.VkResult, second: VkResults.VkResult, mapped: Handle)
    returns (r: Result<HostVisibleAllocation>)
    requires allocator != NULL
    modifies drv
    ensures r.Ok? <==> first == VkResults.Success || second == VkResults.Success
    ensures r.Ok? ==> fresh(r.value) && (r.value.coherent <==> first == VkResults.Success)
    ensures drv.log == old(drv.log) + HostVisibleCalls(allocator, size, usage, randomAccess, first, second,
                                                       old(drv.last), BufferFieldBytes(NULL))
  {
    r := BuildHostVisible(drv, allocator, size, usage, randomAccess, first, second, mapped, true);
  }

  /**
   * The host-visible constructor with the retry handed the same create info
   * as the first attempt: coherent exactly when the first create succeeds,
   * `VulkanException` with the second result when both fail.
   */
  method NewHostVisible(drv: Driver, allocator: Handle, size: nat, usage: nat, randomAccess: bool,
                        first: VkResults.VkResult, second: VkResults.VkResult, mapped: Handle)
    returns (r: Result<HostVisibleAllocation>)
    requires allocator != NULL
    modifies drv
    ensures r.Ok? <==> first == VkResults.Success || second == VkResults.Success
    ensures r.Err? ==> r.error == VulkanException(second)
    ensures r.Ok? ==>
      fresh(r.value) && r.value.allocator == allocator && r.value.size == size &&
      r.value.randomAccess == randomAccess && r.value.mapping == mapped &&
      r.value.buffer == old(drv.last) + 1 && r.value.allocation == old(drv.last) + 2 &&
      (r.value.coherent <==> first == VkResults.Success)
    ensures drv.log == old(drv.log) + HostVisibleCalls(allocator, size, usage, randomAccess, first, second,
                                                       old(drv.last), BufferInfo(size, usage))
    ensures drv.fences == old(drv.fences)
  {
    r := BuildHostVisible(drv, allocator, size, usage, randomAccess, first, second, mapped, false);
  }

  /** As written, a retry is handed the null handle's bytes rather than the requested size and usage. */
  lemma RetryReadsBufferField(allocator: Handle, size: nat, usage: nat, randomAccess: bool,
                              first: VkResults.VkResult, second: VkResults.VkResult, base: Handle)
    requires first != VkResults.Success
    ensures var calls := HostVisibleCalls(allocator, size, usage, randomAccess, first, second, base,
                                          BufferFieldBytes(NULL));
            |calls| >= 2 && calls[1].CreateBuffer? && calls[1].bufferInfo != BufferInfo(size, usage)
  {
  }

  /** Corrected, every create the constructor makes asks for the requested size and usage. */
  lemma EveryCreateIsRequested(allocator: Handle, size: nat, usage: nat, randomAccess: bool,
                               first: VkResults.VkResult, second: VkResults.VkResult, base: Handle)
    ensures var calls := HostVisibleCalls(allocator, size, usage, randomAccess, first, second, base,
                                          BufferInfo(size, usage));
            forall i :: 0 <= i < |calls| && calls[i].CreateBuffer? ==> calls[i].bufferInfo == BufferInfo(size, usage)
  {
  }

  /** The `T[]` constructor: a host-visible buffer of `count` elements of `typeSize` bytes, which holds exactly `count`. */
  method NewTypedArray(drv: Driver, allocator: Handle, typeSize: nat, count: nat, usage: nat, randomAccess: bool,
                       first: VkResults.VkResult, second: VkResults.VkResult, mapped: Handle)
    returns (r: Result<HostVisibleAllocation>)
    requires allocator != NULL && typeSize > 0
    modifies drv
    ensures r.Ok? <==> first == VkResults.Success || second == VkResults.Success
    ensures r.Ok? ==> fresh(r.value) && r.value.size == typeSize * count && r.value.Count(typeSize) == count
    ensures drv.log == old(drv.log) + HostVisibleCalls(allocator, typeSize * count, usage, randomAccess, first,
                                                       second, old(drv.last), BufferInfo(typeSize * count, usage))
  {
    r := NewHostVisible(drv, allocator, typeSize * count, usage, randomAccess, first, second, mapped);
    CountOfArraySize(typeSize, count);
  }

  /**
   * Move-assigning into a live host-visible allocation as written drops its
   * buffer: of the two destructors only the target's destroys anything, the
   * moved buffer, and neither object holds the old buffer afterwards.
   */
  method AssignOverLiveAsWritten(drv: Driver, target: HostVisibleAllocation, source: HostVisibleAllocation)
    requires target != source && target.buffer != source.buffer
    modifies drv, target, source
    ensures target.buffer != old(target.buffer) && source.buffer == NULL
    ensures drv.log == old(drv.log) +
      (if old(source.allocator) != NULL then [DestroyBuffer(old(source.allocator), old(source.buffer),
                                                           old(source.allocation))] else [])
  {
    target.MoveAssignAsWritten(source);
    source.Drop(drv);
    target.Drop(drv);
  }

  /**
   * With the corrected move assignment, the two destructors free both
   * buffers once each, each through the allocator that made it: the
   * source's frees the target's old buffer, then the target's the moved one.
   */
  method AssignOverLive(drv: Driver, target: HostVisibleAllocation, source: HostVisibleAllocation)
    requires target != source
    modifies drv, target, source
    ensures target.buffer == old(source.buffer) && source.buffer == old(target.buffer)
    ensures drv.log == old(drv.log) +
      (if old(target.allocator) != NULL then [DestroyBuffer(old(target.allocator), old(target.buffer),
                                                           old(target.allocation))] else []) +
      (if old(source.allocator) != NULL then [DestroyBuffer(old(source.allocator), old(source.buffer),
                                                           old(source.allocation))] else [])
  {
    target.MoveAssign(source);
    source.Drop(drv);
    target.Drop(drv);
  }
}
