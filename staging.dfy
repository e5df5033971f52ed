/**
 * The engine's staging engine: `VulkanBackend::StagingBuffer`, a fixed
 * `SIZE`-byte host-visible source buffer with its own command buffer and
 * transfer fence, and `VulkanBackend::load`, which moves a mesh's vertex and
 * index bytes into a device buffer through it in chunks of at most `SIZE`
 * bytes. The GPU's copy is applied to the destination's bytes when the copy
 * is submitted.
 */
module Staging {
  import opened Common
  import opened Vk
  import VkResults
  import opened Bytes
  import Allocation

  /** `StagingBuffer::SIZE`. */
  const SIZE: nat := 8192
  /** `vk::BufferUsageFlagBits::eTransferSrc`. */
  const TRANSFER_SRC: nat := 0x1
  /** `eVertexBuffer | eIndexBuffer | eTransferDst`, the usage of a loaded mesh's buffer. */
  const MESH_USAGE: nat := 0xC2
  /** `sizeof(GouraudVertex)`: a position and a colour, three 4-byte floats each. */
  const VERTEX_SIZE: nat := 24
  /** `sizeof(uint32_t)`, the size of an index. */
  const INDEX_SIZE: nat := 4

  function Min(a: nat, b: nat): nat
  {
    if a < b then a else b
  }

  /** One turn of an upload loop: `size` bytes copied to destination offset `offset`. */
  datatype Chunk = Chunk(offset: nat, size: nat)

  /** The chunks in which `n` bytes are moved to destination offset `offset` on: `SIZE` at a time, the rest last. */
  function Chunks(offset: nat, n: nat): seq<Chunk>
    decreases n
  {
    if n == 0 then [] else [Chunk(offset, Min(n, SIZE))] + Chunks(offset + Min(n, SIZE), n - Min(n, SIZE))
  }

  /**
   * `cs` tiles the `n` bytes from `offset` on: no chunk is empty or larger
   * than `SIZE`, the first starts at `offset`, each starts where the
   * previous one ended and the last ends at `offset + n`.
   */
  ghost predicate Tiles(cs: seq<Chunk>, offset: nat, n: nat)
  {
    (cs == [] <==> n == 0) &&
    (forall k :: 0 <= k < |cs| ==> 0 < cs[k].size <= SIZE) &&
    (forall k :: 0 <= k < |cs| - 1 ==> cs[k + 1].offset == cs[k].offset + cs[k].size) &&
    (cs != [] ==> cs[0].offset == offset && cs[|cs| - 1].offset + cs[|cs| - 1].size == offset + n)
  }

  /** The chunks of two sequences are no larger than `SIZE` and not empty when those of each are not. */
  lemma ConcatSizes(a: seq<Chunk>, b: seq<Chunk>)
    requires forall k :: 0 <= k < |a| ==> 0 < a[k].size <= SIZE
    requires forall k :: 0 <= k < |b| ==> 0 < b[k].size <= SIZE
    ensures forall k :: 0 <= k < |a + b| ==> 0 < (a + b)[k].size <= SIZE
  {
    var cs := a + b;
    forall k | 0 <= k < |cs|
      ensures 0 < cs[k].size <= SIZE
    {
      if k < |a| {
        assert cs[k] == a[k];
      } else {
        assert cs[k] == b[k - |a|];
      }
    }
  }

  /** Two chained sequences whose seam also chains give a chained concatenation. */
  lemma ConcatLinks(a: seq<Chunk>, b: seq<Chunk>)
    requires forall k :: 0 <= k < |a| - 1 ==> a[k + 1].offset == a[k].offset + a[k].size
    requires forall k :: 0 <= k < |b| - 1 ==> b[k + 1].offset == b[k].offset + b[k].size
    requires a != [] && b != [] ==> b[0].offset == a[|a| - 1].offset + a[|a| - 1].size
    ensures forall k :: 0 <= k < |a + b| - 1 ==> (a + b)[k + 1].offset == (a + b)[k].offset + (a + b)[k].size
  {
    var cs := a + b;
    forall k | 0 <= k < |cs| - 1
      ensures cs[k + 1].offset == cs[k].offset + cs[k].size
    {
      if k + 1 < |a| {
        assert cs[k] == a[k] && cs[k + 1] == a[k + 1];
      } else if k + 1 == |a| {
        assert cs[k] == a[|a| - 1] && cs[k + 1] == b[0];
      } else {
        assert cs[k] == b[k - |a|] && cs[k + 1] == b[k - |a| + 1];
      }
    }
  }

  /** A tiling of one region followed by a tiling of the next tiles both. */
  lemma TilesConcat(a: seq<Chunk>, b: seq<Chunk>, offset: nat, n: nat, m: nat)
    requires Tiles(a, offset, n) && Tiles(b, offset + n, m)
    ensures Tiles(a + b, offset, n + m)
  {
    ConcatSizes(a, b);
    ConcatLinks(a, b);
    var cs := a + b;
    if cs != [] {
      if a == [] {
        assert cs == b;
      } else if b == [] {
        assert cs == a;
      } else {
        assert cs[0] == a[0] && cs[|cs| - 1] == b[|b| - 1];
      }
    }
  }

  /** A chunk of at most `SIZE` bytes followed by a tiling of the bytes right after it tiles both. */
  lemma TilesCons(c: Chunk, rest: seq<Chunk>, n: nat)
    requires 0 < c.size <= SIZE && Tiles(rest, c.offset + c.size, n)
    ensures Tiles([c] + rest, c.offset, c.size + n)
  {
    assert Tiles([c], c.offset, c.size) by {
      assert |[c]| == 1 && [c][0] == c;
    }
    TilesConcat([c], rest, c.offset, c.size, n);
  }

  /** `Chunks` tiles its region. */
  lemma {:induction false} ChunksTile(offset: nat, n: nat)
    ensures Tiles(Chunks(offset, n), offset, n)
    decreases n
  {
    if n > 0 {
      var b := Min(n, SIZE);
      var rest := Chunks(offset + b, n - b);
      ChunksTile(offset + b, n - b);
      TilesCons(Chunk(offset, b), rest, n - b);
      assert Chunks(offset, n) == [Chunk(offset, b)] + rest;
    }
  }

  /** Every chunk of `Chunks` but the last is full. */
  lemma {:induction false} ChunksFull(offset: nat, n: nat)
    ensures forall k :: 0 <= k < |Chunks(offset, n)| - 1 ==> Chunks(offset, n)[k].size == SIZE
    decreases n
  {
    if n > 0 {
      var b := Min(n, SIZE);
      var rest := Chunks(offset + b, n - b);
      ChunksFull(offset + b, n - b);
      var cs := Chunks(offset, n);
      assert cs == [Chunk(offset, b)] + rest;
      forall k | 0 <= k < |cs| - 1
        ensures cs[k].size == SIZE
      {
        if k == 0 {
          assert rest != [];
        } else {
          assert cs[k] == rest[k - 1];
        }
      }
    }
  }

  /** Every chunk of `Chunks(offset, n)` lies inside the `n` bytes from `offset` on. */
  lemma {:induction false} ChunksWithin(offset: nat, n: nat)
    ensures forall c :: c in Chunks(offset, n) ==> offset <= c.offset && c.offset + c.size <= offset + n
    decreases n
  {
    if n > 0 {
      ChunksWithin(offset + Min(n, SIZE), n - Min(n, SIZE));
    }
  }

  /**
   * Where `load`'s copy of the chunk `rd` bytes in starts reading, in bytes
   * from the start of the data, when the data is reached through a pointer
   * to elements of `elemSize` bytes: `vertices.data() + rdbuff_off` and
   * `indices.data() + rdbuff_off` scale `rdbuff_off`, itself a count of
   * bytes, by the element size.
   */
  function TypedSource(rd: nat, elemSize: nat): nat
  {
    rd * elemSize
  }

  /** The typed read starts at `rd` for bytes or for the first chunk, and beyond `rd` for later chunks of wider elements. */
  lemma TypedSourceBounds(rd: nat, elemSize: nat)
    ensures elemSize == 1 || rd == 0 ==> TypedSource(rd, elemSize) == rd
    ensures rd > 0 && elemSize >= 2 ==> TypedSource(rd, elemSize) > rd
  {
    if rd > 0 && elemSize >= 2 {
      assert rd * elemSize == rd + rd * (elemSize - 1);
    }
  }

  /**
   * How far an upload as written has got after `rd` bytes, `mem` being the
   * destination's bytes: the chunks so far were full, the upload only ends
   * without a read past the data for bytes or a single chunk, and the
   * destination holds the data's first `rd` bytes while every read so far
   * started where it should.
   */
  ghost predicate AsWrittenSoFar(memory: seq<byte>, dstBase: nat, data: seq<byte>, elemSize: nat, rd: nat,
                                 mem: seq<byte>)
  {
    rd <= |data| && |mem| == |memory| && dstBase + |data| <= |memory| &&
    (rd == 0 || rd >= SIZE || rd == |data|) &&
    (rd == |data| ==> elemSize == 1 || |data| <= SIZE) &&
    (elemSize == 1 || rd <= SIZE ==> mem == memory[..dstBase] + data[..rd] + memory[dstBase + rd..])
  }

  /** A read past the data comes only after a full chunk, and only for elements wider than a byte. */
  lemma AsWrittenOverrun(memory: seq<byte>, dstBase: nat, data: seq<byte>, elemSize: nat, rd: nat, mem: seq<byte>)
    requires AsWrittenSoFar(memory, dstBase, data, elemSize, rd, mem) && rd < |data| && elemSize >= 1
    requires TypedSource(rd, elemSize) + Min(|data| - rd, SIZE) > |data|
    ensures elemSize >= 2 && SIZE <= rd
  {
    TypedSourceBounds(rd, elemSize);
  }

  /** A chunk read in bounds and written to the destination keeps `AsWrittenSoFar`. */
  lemma AsWrittenAdvance(memory: seq<byte>, dstBase: nat, data: seq<byte>, elemSize: nat, rd: nat, mem: seq<byte>,
                         mem': seq<byte>)
    requires AsWrittenSoFar(memory, dstBase, data, elemSize, rd, mem) && rd < |data| && elemSize >= 1
    requires TypedSource(rd, elemSize) + Min(|data| - rd, SIZE) <= |data|
    requires mem' == Overwrite(mem, dstBase + rd, data[TypedSource(rd, elemSize)..TypedSource(rd, elemSize) + Min(|data| - rd, SIZE)])
    ensures AsWrittenSoFar(memory, dstBase, data, elemSize, rd + Min(|data| - rd, SIZE), mem')
  {
    TypedSourceBounds(rd, elemSize);
    if elemSize == 1 || rd == 0 {
      OverwriteExtends(memory, mem, dstBase, data, rd, Min(|data| - rd, SIZE));
    }
  }

  /**
   * The state of an upload as written after `rd` bytes, from log `log0` and
   * fences `fences0`: `AsWrittenSoFar` holds of the destination's bytes
   * `mem` and `LogSoFar` of the log `log` and the fences `fences`.
   */
  ghost predicate UploadProgress(st: StagingState, dst: Handle, data: seq<byte>, elemSize: nat, dstBase: nat,
                                 memory: seq<byte>, log0: seq<Call>, fences0: map<Handle, bool>, rd: nat,
                                 mem: seq<byte>, log: seq<Call>, fences: map<Handle, bool>)
  {
    AsWrittenSoFar(memory, dstBase, data, elemSize, rd, mem) && LogSoFar(st, dst, |data|, dstBase, log0, fences0, rd, log, fences)
  }

  /**
   * After `rd` of `n` bytes, from log `log0` and fences `fences0`: the log
   * is the start of the whole upload's calls with the calls of the
   * remaining bytes still to come, and the transfer fence is unsignaled
   * once a chunk went.
   */
  ghost predicate LogSoFar(st: StagingState, dst: Handle, n: nat, dstBase: nat, log0: seq<Call>,
                           fences0: map<Handle, bool>, rd: nat, log: seq<Call>, fences: map<Handle, bool>)
  {
    rd <= n &&
    log + UploadCalls(st, dst, dstBase + rd, n - rd) == log0 + UploadCalls(st, dst, dstBase, n) &&
    |log0| <= |log| &&
    fences == if rd == 0 then fences0 else fences0[st.fence := false]
  }

  /** One more chunk's calls, and its fence reset, keep `LogSoFar`. */
  lemma LogAdvance(st: StagingState, dst: Handle, n: nat, dstBase: nat, log0: seq<Call>, fences0: map<Handle, bool>,
                   rd: nat, log: seq<Call>, fences: map<Handle, bool>, log': seq<Call>, fences': map<Handle, bool>)
    requires LogSoFar(st, dst, n, dstBase, log0, fences0, rd, log, fences) && rd < n
    requires log' == log + ChunkCalls(st, dst, Chunk(dstBase + rd, Min(n - rd, SIZE))) && fences' == fences[st.fence := false]
    ensures LogSoFar(st, dst, n, dstBase, log0, fences0, rd + Min(n - rd, SIZE), log', fences')
  {
    LogStep(log, log0 + UploadCalls(st, dst, dstBase, n), st, dst, dstBase + rd, n - rd);
    assert fences' == fences0[st.fence := false];
  }

  /** Where an upload as written ends: past the data's end after a full chunk, or at the end with the data moved. */
  lemma UploadOutcome(st: StagingState, dst: Handle, data: seq<byte>, elemSize: nat, dstBase: nat, memory: seq<byte>,
                      log0: seq<Call>, fences0: map<Handle, bool>, rd: nat, mem: seq<byte>, log: seq<Call>,
                      fences: map<Handle, bool>, overran: bool)
    requires UploadProgress(st, dst, data, elemSize, dstBase, memory, log0, fences0, rd, mem, log, fences)
    requires overran ==> elemSize >= 2 && SIZE <= rd < |data|
    requires !overran ==> rd == |data|
    ensures overran <==> elemSize >= 2 && |data| > SIZE
    ensures !overran ==>
      mem == memory[..dstBase] + data + memory[dstBase + |data|..] && log == log0 + UploadCalls(st, dst, dstBase, |data|) &&
      fences == if |data| == 0 then fences0 else fences0[st.fence := false]
    ensures overran ==> log0 <= log <= log0 + UploadCalls(st, dst, dstBase, |data|) && fences == fences0[st.fence := false]
  {
    if overran {
      assert (log + UploadCalls(st, dst, dstBase + rd, |data| - rd))[..|log|] == log;
      assert (log0 + UploadCalls(st, dst, dstBase, |data|))[..|log0|] == log0;
    } else {
      assert data[..rd] == data;
    }
  }

  /** The copy of chunk `c` of an `n`-byte upload, read through such a pointer, ends past the data. */
  predicate ReadsPastEnd(n: nat, elemSize: nat, c: Chunk)
  {
    TypedSource(c.offset, elemSize) + c.size > n
  }

  /**
   * As written, some chunk of an upload of `n` bytes reads past their end
   * exactly when the elements are wider than a byte and the upload takes
   * more than one chunk: the last chunk starts `elemSize` times too far in.
   */
  lemma TypedUploadOverruns(n: nat, elemSize: nat)
    requires elemSize >= 1
    ensures (exists c :: c in Chunks(0, n) && ReadsPastEnd(n, elemSize, c)) <==> elemSize >= 2 && n > SIZE
  {
    var cs := Chunks(0, n);
    ChunksWithin(0, n);
    ChunksTile(0, n);
    if elemSize >= 2 && n > SIZE {
      var last := cs[|cs| - 1];
      assert last.offset > 0;
      assert last.offset * elemSize >= last.offset * 2;
      assert last in cs && ReadsPastEnd(n, elemSize, last);
    } else if n <= SIZE {
      assert n == 0 ==> cs == [];
      assert n > 0 ==> cs == [Chunk(0, n)];
    } else {
      assert elemSize == 1;
    }
  }

  /** The handles of a staging buffer that its calls mention, and whether its memory is coherent. */
  datatype StagingState = StagingState(alloc: Handle, buffer: Handle, cmd: Handle, fence: Handle, coherent: bool)

  /**
   * The calls of one chunk: wait on the transfer fence, reset it, flush the
   * written bytes when the memory is not coherent, re-record the copy and
   * submit it on the fence.
   */
  function ChunkCalls(st: StagingState, dst: Handle, c: Chunk): seq<Call>
  {
    [WaitForFence(st.fence), ResetFence(st.fence)] +
    (if st.coherent then [] else [FlushAllocation(st.alloc, 0, c.size)]) +
    TransferCalls(st, dst, 0, c.offset, c.size)
  }

  /** The calls of `transfer`: reset, begin, copy, end and submit on the transfer fence. */
  function TransferCalls(st: StagingState, dst: Handle, srcOffset: nat, dstOffset: nat, size: nat): seq<Call>
  {
    [ResetCommandBuffer(st.cmd), BeginCommandBuffer(st.cmd), CopyBuffer(st.cmd, st.buffer, dst, srcOffset, dstOffset, size),
     EndCommandBuffer(st.cmd), SubmitTransfer(st.cmd, st.fence)]
  }

  function ChunkSeqCalls(st: StagingState, dst: Handle, cs: seq<Chunk>): seq<Call>
  {
    if cs == [] then [] else ChunkCalls(st, dst, cs[0]) + ChunkSeqCalls(st, dst, cs[1..])
  }

  /** The calls that move `n` bytes to destination offset `offset` on. */
  function UploadCalls(st: StagingState, dst: Handle, offset: nat, n: nat): seq<Call>
  {
    ChunkSeqCalls(st, dst, Chunks(offset, n))
  }

  /** The first chunk of an upload, then the rest. */
  lemma UploadStep(st: StagingState, dst: Handle, offset: nat, n: nat)
    requires n > 0
    ensures UploadCalls(st, dst, offset, n) ==
            ChunkCalls(st, dst, Chunk(offset, Min(n, SIZE))) + UploadCalls(st, dst, offset + Min(n, SIZE), n - Min(n, SIZE))
  {
    var cs := Chunks(offset, n);
    assert cs[0] == Chunk(offset, Min(n, SIZE)) && cs[1..] == Chunks(offset + Min(n, SIZE), n - Min(n, SIZE));
  }

  /** A log that ends up as `whole` once an upload of `n` bytes is done still does after its first chunk. */
  lemma LogStep(log: seq<Call>, whole: seq<Call>, st: StagingState, dst: Handle, offset: nat, n: nat)
    requires n > 0 && log + UploadCalls(st, dst, offset, n) == whole
    ensures (log + ChunkCalls(st, dst, Chunk(offset, Min(n, SIZE)))) +
            UploadCalls(st, dst, offset + Min(n, SIZE), n - Min(n, SIZE)) == whole
  {
    UploadStep(st, dst, offset, n);
  }

  /** `mem` with `chunk` written at `off`. */
  function Overwrite(mem: seq<byte>, off: nat, chunk: seq<byte>): (r: seq<byte>)
    requires off + |chunk| <= |mem|
    ensures |r| == |mem| && r[off..off + |chunk|] == chunk
    ensures r[..off] == mem[..off] && r[off + |chunk|..] == mem[off + |chunk|..]
  {
    mem[..off] + chunk + mem[off + |chunk|..]
  }

  /** Writing the next piece of `data` right after the part already written extends that part. */
  lemma OverwriteExtends(memory: seq<byte>, mem: seq<byte>, base: nat, data: seq<byte>, rd: nat, b: nat)
    requires rd + b <= |data| && base + |data| <= |memory|
    requires mem == memory[..base] + data[..rd] + memory[base + rd..]
    ensures Overwrite(mem, base + rd, data[rd..rd + b]) == memory[..base] + data[..rd + b] + memory[base + rd + b..]
  {
    var r := Overwrite(mem, base + rd, data[rd..rd + b]);
    var want := memory[..base] + data[..rd + b] + memory[base + rd + b..];
    assert |r| == |want| == |memory|;
    forall k | 0 <= k < |r|
      ensures r[k] == want[k]
    {
      if k < base {
        assert r[k] == mem[k] == memory[k];
      } else if k < base + rd {
        assert r[k] == mem[k] == data[k - base];
      } else if k < base + rd + b {
        assert r[k] == data[rd..rd + b][k - base - rd] == data[k - base];
      } else {
        assert r[k] == mem[k] == memory[k];
      }
    }
  }

  /** The two creations `init` may make, the second without the preference for coherent memory. */
  function StagingCreateCalls(allocator: Handle, first: VkResults.VkResult, second: VkResults.VkResult,
                              base: Handle): seq<Call>
  {
    var info := BufferInfo(SIZE, TRANSFER_SRC);
    var request := Allocation.HostVisibleRequest(false);
    if first == VkResults.Success then [CreateBuffer(allocator, info, request, base + 1, base + 2)]
    else [CreateBuffer(allocator, info, request, NULL, NULL),
          if second == VkResults.Success then CreateBuffer(allocator, info, request.(preferCoherent := false), base + 1, base + 2)
          else CreateBuffer(allocator, info, request.(preferCoherent := false), NULL, NULL)]
  }

  /** Both attempts of `init` ask for a `SIZE`-byte transfer-source buffer: the retry passes the same create info. */
  lemma StagingRetryAsksTheSame(allocator: Handle, first: VkResults.VkResult, second: VkResults.VkResult, base: Handle)
    ensures forall c :: c in StagingCreateCalls(allocator, first, second, base) ==>
      c.CreateBuffer? && c.bufferInfo == BufferInfo(SIZE, TRANSFER_SRC) && c.allocator == allocator &&
      c.request.hostAccess == SequentialWrite && c.request.mapped
    ensures |StagingCreateCalls(allocator, first, second, base)| == if first == VkResults.Success then 1 else 2
  {
  }

  /** The mesh `load` returns: its buffer, the vertices at offset 0 and `indexCount` indices from `indexOffset`. */
  datatype Mesh = Mesh(allocation: Allocation.Allocation, vertexOffset: nat, indexOffset: nat, indexCount: nat)

  class StagingBuffer {
    var alloc: Handle
    var buffer: Handle
    var cmd: Handle
    var transferFence: Handle
    var isCoherent: bool
    var mapping: Handle
    /** The `SIZE` bytes behind the mapping. */
    var contents: seq<byte>

    /** `m_staging_buffer = {}`: every handle null, not coherent. */
    constructor ()
      ensures alloc == NULL && buffer == NULL && cmd == NULL && transferFence == NULL && mapping == NULL
      ensures !isCoherent && contents == seq(SIZE, _ => 0)
    {
      alloc, buffer, cmd, transferFence, isCoherent, mapping := NULL, NULL, NULL, NULL, false, NULL;
      contents := seq(SIZE, _ => 0);
    }

    function State(): StagingState
      reads this`alloc, this`buffer, this`cmd, this`transferFence, this`isCoherent
    {
      StagingState(alloc, buffer, cmd, transferFence, isCoherent)
    }

    /**
     * `init`: create the buffer preferring coherent memory, retrying once
     * without that preference; a second failure throws with its result.
     * On success the buffer adopts `cmd` and `fence` and records whether
     * the memory is coherent.
     */
    method Init(drv: Driver, allocator: Handle, cmd: Handle, fence: Handle, first: VkResults.VkResult,
                second: VkResults.VkResult, mapped: Handle)
      returns (r: Result<()>)
      modifies this`alloc, this`buffer, this`cmd, this`transferFence, this`isCoherent, this`mapping, drv
      ensures r.Ok? <==> first == VkResults.Success || second == VkResults.Success
      ensures drv.log == old(drv.log) + StagingCreateCalls(allocator, first, second, old(drv.last))
      ensures drv.fences == old(drv.fences)
      ensures r.Err? ==>
        r.error == VulkanException(second) && buffer == NULL && alloc == NULL &&
        this.cmd == old(this.cmd) && transferFence == old(transferFence) && isCoherent == old(isCoherent) &&
        mapping == old(mapping)
      ensures r.Ok? ==>
        buffer == old(drv.last) + 1 && alloc == old(drv.last) + 2 && (isCoherent <==> first == VkResults.Success) &&
        mapping == mapped && this.cmd == cmd && transferFence == fence
    {
      var info := BufferInfo(SIZE, TRANSFER_SRC);
      var request := Allocation.HostVisibleRequest(false);
      buffer, alloc := Allocation.VmaCreateBuffer(drv, allocator, info, request, first);
      if first != VkResults.Success {
        buffer, alloc := Allocation.VmaCreateBuffer(drv, allocator, info, request.(preferCoherent := false), second);
        if second != VkResults.Success {
          return Err(VulkanException(second));
        }
        isCoherent := false;
      } else {
        isCoherent := true;
      }
      mapping := mapped;
      this.cmd := cmd;
      transferFence := fence;
      return Ok(());
    }

    /** `flush`: the range is flushed only when the memory is not coherent. */
    method Flush(drv: Driver, offset: nat, length: nat)
      modifies drv
      ensures drv.log == old(drv.log) + (if isCoherent then [] else [FlushAllocation(alloc, offset, length)])
      ensures drv.last == old(drv.last) && drv.fences == old(drv.fences)
    {
      if !isCoherent {
        drv.Record(FlushAllocation(alloc, offset, length));
      }
    }

    /** `memcpy` into the mapping: `src` lands at the start of the buffer. */
    method CopyIn(src: seq<byte>)
      requires |src| <= |contents|
      modifies this`contents
      ensures |contents| == old(|contents|) && contents[..|src|] == src && contents[|src|..] == old(contents)[|src|..]
    {
      contents := src + contents[|src|..];
    }

    /**
     * `transfer`: re-record the copy command buffer with one copy and submit
     * it on the transfer fence, which is unsignaled until the copy is done.
     * `copied` is `dstMemory` once the copy has executed.
     */
    method Transfer(drv: Driver, dst: Handle, srcOffset: nat, dstOffset: nat, size: nat, dstMemory: seq<byte>)
      returns (copied: seq<byte>)
      requires srcOffset + size <= |contents| && dstOffset + size <= |dstMemory|
      modifies drv
      ensures drv.log == old(drv.log) + TransferCalls(State(), dst, srcOffset, dstOffset, size)
      ensures drv.fences == old(drv.fences)[transferFence := false] && drv.last == old(drv.last)
      ensures copied == Overwrite(dstMemory, dstOffset, contents[srcOffset..srcOffset + size])
    {
      drv.Record(ResetCommandBuffer(cmd));
      drv.Record(BeginCommandBuffer(cmd));
      drv.Record(CopyBuffer(cmd, buffer, dst, srcOffset, dstOffset, size));
      drv.Record(EndCommandBuffer(cmd));
      drv.SubmitWork(SubmitTransfer(cmd, transferFence), transferFence);
      copied := Overwrite(dstMemory, dstOffset, contents[srcOffset..srcOffset + size]);
    }

    /** `reset`: unsignal the transfer fence. */
    method Reset(drv: Driver)
      modifies drv
      ensures drv.log == old(drv.log) + [ResetFence(transferFence)]
      ensures drv.fences == old(drv.fences)[transferFence := false] && drv.last == old(drv.last)
    {
      drv.Reset(transferFence);
    }

    /**
     * `wait`: wait on the transfer fence. A timeout throws `VulkanException`;
     * any other failure is thrown by the bindings.
     */
    method Wait(drv: Driver, result: VkResults.VkResult) returns (r: Result<()>)
      modifies drv
      ensures drv.log == old(drv.log) + [WaitForFence(transferFence)] && drv.last == old(drv.last)
      ensures r.Ok? <==> result == VkResults.Success
      ensures r.Err? ==> r.error == Failure(result, WAIT_RETURNS) && drv.fences == old(drv.fences)
      ensures r.Ok? ==> drv.fences == old(drv.fences)[transferFence := true]
    {
      drv.Wait(transferFence, result);
      if result != VkResults.Success {
        return Err(Failure(result, WAIT_RETURNS));
      }
      return Ok(());
    }

    /**
     * `deinit`: nothing when there is no buffer; otherwise destroy the
     * fence, free the command buffer, destroy the buffer and clear every
     * field.
     */
    method Deinit(drv: Driver, pool: Handle, allocator: Handle)
      modifies this`alloc, this`buffer, this`cmd, this`transferFence, this`isCoherent, this`mapping, drv
      ensures old(buffer) == NULL ==>
        drv.log == old(drv.log) && drv.fences == old(drv.fences) && State() == old(State()) && mapping == old(mapping)
      ensures old(buffer) != NULL ==>
        drv.log == old(drv.log) + [DestroyFence(old(transferFence)), FreeCommandBuffer(pool, old(cmd)),
                                   DestroyBuffer(allocator, old(buffer), old(alloc))] &&
        drv.fences == old(drv.fences) - {old(transferFence)} &&
        State() == StagingState(NULL, NULL, NULL, NULL, false) && mapping == NULL
      ensures drv.last == old(drv.last)
    {
      if buffer == NULL {
        return;
      }
      drv.DropFence(transferFence);
      drv.Record(FreeCommandBuffer(pool, cmd));
      drv.Record(DestroyBuffer(allocator, buffer, alloc));
      transferFence, cmd, buffer, alloc := NULL, NULL, NULL, NULL;
      isCoherent, mapping := false, NULL;
    }

    /**
     * One of `load`'s two loops: move `data` to destination offset
     * `dstBase` on, a chunk at a time, each after waiting on and resetting
     * the transfer fence. The destination's bytes outside the region are
     * kept; inside it they become `data`.
     */
    method UploadRegion(drv: Driver, dst: Handle, data: seq<byte>, dstBase: nat, memory: seq<byte>)
      returns (mem: seq<byte>)
      requires |contents| == SIZE && dstBase + |data| <= |memory|
      modifies drv, this`contents
      ensures |contents| == SIZE
      ensures mem == memory[..dstBase] + data + memory[dstBase + |data|..]
      ensures drv.log == old(drv.log) + UploadCalls(State(), dst, dstBase, |data|)
      ensures drv.fences == if |data| == 0 then old(drv.fences) else old(drv.fences)[transferFence := false]
      ensures drv.last == old(drv.last)
    {
      ghost var st, all := State(), UploadCalls(State(), dst, dstBase, |data|);
      var rd := 0;
      mem := memory;
      while rd < |data|
        invariant rd <= |data| && |contents| == SIZE && State() == st
        invariant mem == memory[..dstBase] + data[..rd] + memory[dstBase + rd..]
        invariant drv.log + UploadCalls(st, dst, dstBase + rd, |data| - rd) == old(drv.log) + all
        invariant rd == 0 ==> drv.fences == old(drv.fences)
        invariant rd > 0 ==> drv.fences == old(drv.fences)[st.fence := false]
        invariant drv.last == old(drv.last)
        decreases |data| - rd
      {
        ghost var log := drv.log;
        LogStep(log, old(drv.log) + all, st, dst, dstBase + rd, |data| - rd);
        rd, mem := UploadNext(drv, dst, data, dstBase, memory, rd, mem);
      }
      assert data[..rd] == data;
    }

    /**
     * One turn of an upload loop, from `rd` bytes of `data` moved already:
     * the next chunk, at most `SIZE` bytes, lands right after them.
     */
    method UploadNext(drv: Driver, dst: Handle, data: seq<byte>, dstBase: nat, memory: seq<byte>, rd: nat,
                      mem: seq<byte>)
      returns (rd': nat, mem': seq<byte>)
      requires rd < |data| && |contents| == SIZE && dstBase + |data| <= |memory|
      requires mem == memory[..dstBase] + data[..rd] + memory[dstBase + rd..]
      modifies drv, this`contents
      ensures rd' == rd + Min(|data| - rd, SIZE) && |contents| == SIZE
      ensures mem' == memory[..dstBase] + data[..rd'] + memory[dstBase + rd'..]
      ensures drv.log == old(drv.log) + ChunkCalls(State(), dst, Chunk(dstBase + rd, rd' - rd))
      ensures drv.fences == old(drv.fences)[transferFence := false] && drv.last == old(drv.last)
    {
      var bytes := Min(|data| - rd, SIZE);
      OverwriteExtends(memory, mem, dstBase, data, rd, bytes);
      mem' := UploadChunk(drv, dst, data[rd..rd + bytes], dstBase + rd, mem);
      rd' := rd + bytes;
    }

    /**
     * One turn of an upload loop: wait, reset, copy `chunk` in, flush it,
     * and transfer it to offset `off` of the destination, whose bytes
     * `memory` were.
     */
    method UploadChunk(drv: Driver, dst: Handle, chunk: seq<byte>, off: nat, memory: seq<byte>)
      returns (mem: seq<byte>)
      requires 0 < |chunk| <= SIZE == |contents| && off + |chunk| <= |memory|
      modifies drv, this`contents
      ensures |contents| == SIZE && mem == Overwrite(memory, off, chunk)
      ensures drv.log == old(drv.log) + ChunkCalls(State(), dst, Chunk(off, |chunk|))
      ensures drv.fences == old(drv.fences)[transferFence := false] && drv.last == old(drv.last)
    {
      var _ := Wait(drv, VkResults.Success);
      Reset(drv);
      CopyIn(chunk);
      Flush(drv, 0, |chunk|);
      mem := Transfer(drv, dst, 0, off, |chunk|, memory);
    }

    /**
     * One of `load`'s two loops as written: each chunk is read from
     * `TypedSource(rd, elemSize)`, the byte count so far scaled by the size
     * of the elements the data pointer points to. A read past the data's
     * end is undefined behaviour, and the model ends the upload before that
     * chunk, with `overran` set. That happens exactly for elements wider
     * than a byte and more than `SIZE` bytes; otherwise the upload is that
     * of `UploadRegion`.
     */
    method UploadRegionAsWritten(drv: Driver, dst: Handle, data: seq<byte>, elemSize: nat, dstBase: nat,
                                 memory: seq<byte>)
      returns (mem: seq<byte>, overran: bool)
      requires |contents| == SIZE && dstBase + |data| <= |memory| && elemSize >= 1
      modifies drv, this`contents
      ensures |contents| == SIZE && |mem| == |memory|
      ensures overran <==> elemSize >= 2 && |data| > SIZE
      ensures !overran ==> mem == memory[..dstBase] + data + memory[dstBase + |data|..]
      ensures !overran ==> drv.log == old(drv.log) + UploadCalls(State(), dst, dstBase, |data|)
      ensures overran ==> old(drv.log) <= drv.log <= old(drv.log) + UploadCalls(State(), dst, dstBase, |data|)
      ensures !overran ==>
        drv.fences == if |data| == 0 then old(drv.fences) else old(drv.fences)[transferFence := false]
      ensures overran ==> drv.fences == old(drv.fences)[transferFence := false]
      ensures drv.last == old(drv.last)
    {
      ghost var st := State();
      var rd := 0;
      mem, overran := memory, false;
      while rd < |data| && !overran
        invariant |contents| == SIZE && State() == st && drv.last == old(drv.last)
        invariant UploadProgress(st, dst, data, elemSize, dstBase, memory, old(drv.log), old(drv.fences), rd, mem,
                                 drv.log, drv.fences)
        invariant overran ==> elemSize >= 2 && SIZE <= rd < |data|
        decreases |data| - rd, if overran then 0 else 1
      {
        ghost var log, fences := drv.log, drv.fences;
        var mem', past := UploadNextAsWritten(drv, dst, data, elemSize, dstBase, rd, mem);
        if past {
          AsWrittenOverrun(memory, dstBase, data, elemSize, rd, mem);
          overran := true;
        } else {
          AsWrittenAdvance(memory, dstBase, data, elemSize, rd, mem, mem');
          LogAdvance(st, dst, |data|, dstBase, old(drv.log), old(drv.fences), rd, log, fences, drv.log, drv.fences);
          rd, mem := rd + Min(|data| - rd, SIZE), mem';
        }
      }
      UploadOutcome(st, dst, data, elemSize, dstBase, memory, old(drv.log), old(drv.fences), rd, mem, drv.log, drv.fences,
                    overran);
    }

    /**
     * One turn of an upload loop as written, from `rd` bytes moved already:
     * the next chunk is read from `TypedSource(rd, elemSize)`. When that read
     * would go past the data's end nothing is done and `overran` is set.
     */
    method UploadNextAsWritten(drv: Driver, dst: Handle, data: seq<byte>, elemSize: nat, dstBase: nat, rd: nat,
                               mem: seq<byte>)
      returns (mem': seq<byte>, overran: bool)
      requires rd < |data| && |contents| == SIZE && dstBase + |data| <= |mem|
      modifies drv, this`contents
      ensures |contents| == SIZE && drv.last == old(drv.last)
      ensures overran <==> TypedSource(rd, elemSize) + Min(|data| - rd, SIZE) > |data|
      ensures overran ==> mem' == mem && drv.log == old(drv.log) && drv.fences == old(drv.fences)
      ensures !overran ==>
        mem' == Overwrite(mem, dstBase + rd, data[TypedSource(rd, elemSize)..TypedSource(rd, elemSize) + Min(|data| - rd, SIZE)]) &&
        drv.log == old(drv.log) + ChunkCalls(State(), dst, Chunk(dstBase + rd, Min(|data| - rd, SIZE))) &&
        drv.fences == old(drv.fences)[transferFence := false]
    {
      var bytes := Min(|data| - rd, SIZE);
      var from := TypedSource(rd, elemSize);
      if from + bytes > |data| {
        return mem, true;
      }
      mem' := UploadChunk(drv, dst, data[from..from + bytes], dstBase + rd, mem);
      overran := false;
    }
  }

  /**
   * `load`: allocate one buffer for the vertex bytes followed by the index
   * bytes, throwing if that fails; move the vertices to offset 0 and the
   * indices right after them through the staging buffer; wait once more for
   * the last transfer. The mesh's indices start where the vertices end.
   */
  method Load(drv: Driver, staging: StagingBuffer, allocator: Handle, vertexBytes: seq<byte>, indices: seq<u32>,
              allocResult: VkResults.VkResult)
    returns (r: Result<Mesh>, uploaded: seq<byte>)
    requires allocator != NULL && |staging.contents| == SIZE
    modifies drv, staging`contents
    ensures r.Ok? <==> allocResult == VkResults.Success
    ensures r.Err? ==>
      r.error == VulkanException(allocResult) &&
      drv.log == old(drv.log) + [CreateBuffer(allocator, BufferInfo(|vertexBytes| + 4 * |indices|, MESH_USAGE),
                                              Allocation.PLAIN_REQUEST, NULL, NULL)]
    ensures r.Ok? ==>
      var mesh := r.value;
      fresh(mesh.allocation) && mesh.allocation.size == |vertexBytes| + 4 * |indices| &&
      mesh.vertexOffset == 0 && mesh.indexOffset == |vertexBytes| && mesh.indexCount == |indices| &&
      uploaded == vertexBytes + WordBytes(indices) &&
      drv.log == old(drv.log) +
        [CreateBuffer(allocator, BufferInfo(|vertexBytes| + 4 * |indices|, MESH_USAGE), Allocation.PLAIN_REQUEST,
                      mesh.allocation.buffer, mesh.allocation.allocation)] +
        UploadCalls(staging.State(), mesh.allocation.buffer, 0, |vertexBytes|) +
        UploadCalls(staging.State(), mesh.allocation.buffer, |vertexBytes|, 4 * |indices|) +
        [WaitForFence(staging.transferFence)]
  {
    var indexBytes := WordBytes(indices);
    var total := |vertexBytes| + |indexBytes|;
    var a := Allocation.NewAllocation(drv, allocator, total, MESH_USAGE, allocResult);
    if a.Err? {
      return Err(a.error), [];
    }
    var blank := seq(total, _ => 0);
    var withVertices := staging.UploadRegion(drv, a.value.buffer, vertexBytes, 0, blank);
    assert withVertices[..|vertexBytes|] == vertexBytes;
    uploaded := staging.UploadRegion(drv, a.value.buffer, indexBytes, |vertexBytes|, withVertices);
    assert uploaded == vertexBytes + indexBytes;
    var _ := staging.Wait(drv, VkResults.Success);
    r := Ok(Mesh(a.value, 0, |vertexBytes|, |indices|));
  }

  /**
   * `load` as written: as `Load`, but each loop reads its chunks as
   * `UploadRegionAsWritten` does, through a pointer to `GouraudVertex`es of
   * `VERTEX_SIZE` bytes and then to indices of `INDEX_SIZE` bytes. It stops
   * at the first read past an array's end, which happens exactly when there
   * are more than `SIZE` vertex bytes or more than `SIZE` index bytes.
   */
  method LoadAsWritten(drv: Driver, staging: StagingBuffer, allocator: Handle, vertexBytes: seq<byte>,
                       indices: seq<u32>, allocResult: VkResults.VkResult)
    returns (r: Result<Mesh>, uploaded: seq<byte>, overran: bool)
    requires allocator != NULL && |staging.contents| == SIZE
    modifies drv, staging`contents
    ensures r.Ok? <==> allocResult == VkResults.Success
    ensures r.Err? ==>
      !overran && r.error == VulkanException(allocResult) &&
      drv.log == old(drv.log) + [CreateBuffer(allocator, BufferInfo(|vertexBytes| + 4 * |indices|, MESH_USAGE),
                                              Allocation.PLAIN_REQUEST, NULL, NULL)]
    ensures r.Ok? ==>
      var mesh := r.value;
      var created := old(drv.log) +
        [CreateBuffer(allocator, BufferInfo(|vertexBytes| + 4 * |indices|, MESH_USAGE), Allocation.PLAIN_REQUEST,
                      mesh.allocation.buffer, mesh.allocation.allocation)];
      var moved := created + UploadCalls(staging.State(), mesh.allocation.buffer, 0, |vertexBytes|) +
        UploadCalls(staging.State(), mesh.allocation.buffer, |vertexBytes|, 4 * |indices|);
      fresh(mesh.allocation) && mesh.allocation.size == |vertexBytes| + 4 * |indices| &&
      mesh.vertexOffset == 0 && mesh.indexOffset == |vertexBytes| && mesh.indexCount == |indices| &&
      (overran <==> |vertexBytes| > SIZE || 4 * |indices| > SIZE) &&
      (!overran ==> uploaded == vertexBytes + WordBytes(indices) && drv.log == moved + [WaitForFence(staging.transferFence)]) &&
      (overran ==> created <= drv.log <= moved)
  {
    var indexBytes := WordBytes(indices);
    var total := |vertexBytes| + |indexBytes|;
    var a := Allocation.NewAllocation(drv, allocator, total, MESH_USAGE, allocResult);
    if a.Err? {
      return Err(a.error), [], false;
    }
    r := Ok(Mesh(a.value, 0, |vertexBytes|, |indices|));
    ghost var created, st := drv.log, staging.State();
    ghost var vertexCalls := UploadCalls(st, a.value.buffer, 0, |vertexBytes|);
    ghost var indexCalls := UploadCalls(st, a.value.buffer, |vertexBytes|, |indexBytes|);
    var blank := seq(total, _ => 0);
    var withVertices, past := staging.UploadRegionAsWritten(drv, a.value.buffer, vertexBytes, VERTEX_SIZE, 0, blank);
    if past {
      PrefixWithin(created, drv.log, vertexCalls, indexCalls);
      return r, withVertices, true;
    }
    assert withVertices[..|vertexBytes|] == vertexBytes;
    uploaded, overran := staging.UploadRegionAsWritten(drv, a.value.buffer, indexBytes, INDEX_SIZE, |vertexBytes|,
                                                       withVertices);
    if overran {
      PrefixWithin(created, drv.log, vertexCalls, indexCalls);
      return;
    }
    assert uploaded == vertexBytes + indexBytes;
    var _ := staging.Wait(drv, VkResults.Success);
  }

  /** A log between `log0` and `log0 + more` lies between `log0` and `log0 + more + rest`. */
  lemma PrefixWithin(log0: seq<Call>, log: seq<Call>, more: seq<Call>, rest: seq<Call>)
    requires log0 <= log <= log0 + more || log0 + more <= log <= log0 + more + rest
    ensures log0 <= log <= log0 + more + rest
  {
    assert (log0 + more + rest)[..|log0 + more|] == log0 + more;
    assert (log0 + more)[..|log0|] == log0;
  }

  /**
   * The destination offsets of `load`'s chunks, vertices then indices, are
   * contiguous, start at 0 and end at the buffer's size, and no chunk is
   * larger than `SIZE`.
   */
  lemma LoadChunksAreContiguous(vbuf: nat, ibuf: nat)
    ensures Tiles(Chunks(0, vbuf) + Chunks(vbuf, ibuf), 0, vbuf + ibuf)
  {
    ChunksTile(0, vbuf);
    ChunksTile(vbuf, ibuf);
    TilesConcat(Chunks(0, vbuf), Chunks(vbuf, ibuf), 0, vbuf, ibuf);
  }
}
