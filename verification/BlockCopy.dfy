/** The storage node's batch copy with striped worker threads (storage/raft_blockcopy_server.cpp). */
module BlockCopy {
  import opened Basics
  import opened Extents
  import opened EntryCodec
  import opened Chunks

  // ---------------------------------------------------------------- request validation

  datatype BatchReq = BatchReq(pbaSrcs: seq<nat>, pbaDsts: seq<nat>, nbytes: seq<nat>, blockSize: nat, srcDev: int,
                               dstDev: int)

  datatype Plan = Plan(chunks: seq<Chunk>, workers: nat)

  const INT_MAX: nat := 0x7FFF_FFFF

  /** Size of chunk `i`: its own entry, or the common block size when no sizes are given. */
  function SizeOf(req: BatchReq, i: nat): nat {
    if req.nbytes == [] then req.blockSize else if i < |req.nbytes| then req.nbytes[i] else 0
  }

  ghost predicate Acceptable(req: BatchReq, numDevs: nat) {
    && |req.pbaSrcs| == |req.pbaDsts|
    && 0 <= req.srcDev < numDevs && 0 <= req.dstDev < numDevs
    && (if req.nbytes == [] then req.blockSize != 0 else |req.nbytes| == |req.pbaSrcs|)
    && (exists i :: 0 <= i < |req.pbaSrcs| && SizeOf(req, i) > 0)
    && (forall i :: 0 <= i < |req.pbaSrcs| ==> SizeOf(req, i) <= INT_MAX)
  }

  /** The checks at the head of `handle_write_pba_batch`. A non-empty request is accepted exactly when
      its lists agree, its devices exist and its sizes are usable; the plan then lists every chunk in
      order and uses between one and `count` workers. */
  method PlanBatch(req: BatchReq, numDevs: nat, copyWorkers: int) returns (r: Result<Plan>)
    ensures req.pbaSrcs == [] ==> r == Ok(Plan([], 0))
    ensures req.pbaSrcs != [] ==> (r.Ok? <==> Acceptable(req, numDevs))
    ensures r.Ok? && req.pbaSrcs != [] ==>
              && |r.value.chunks| == |req.pbaSrcs|
              && (forall i :: 0 <= i < |r.value.chunks| ==>
                    r.value.chunks[i] == Chunk(req.pbaSrcs[i], req.pbaDsts[i], SizeOf(req, i)))
              && 1 <= r.value.workers <= |r.value.chunks|
              && (copyWorkers >= 1 ==> r.value.workers <= copyWorkers)
  {
    var count := |req.pbaSrcs|;
    if count == 0 {
      return Ok(Plan([], 0));
    }
    if count != |req.pbaDsts| {
      return Err("PbaSrcs and PbaDsts length mismatch");
    }
    if !(0 <= req.srcDev < numDevs) || !(0 <= req.dstDev < numDevs) {
      return Err("device index out of range");
    }
    var sizes := req.nbytes;
    if sizes == [] {
      if req.blockSize == 0 {
        return Err("neither Nbytes nor BlockSize provided");
      }
      sizes := seq(count, i => req.blockSize);
    } else if |sizes| != count {
      return Err("Nbytes length mismatch");
    }
    assert forall i :: 0 <= i < count ==> sizes[i] == SizeOf(req, i);
    var maxSize := MaxOf(sizes);
    if maxSize == 0 {
      return Err("all entries have zero size");
    }
    if maxSize > INT_MAX {
      return Err("chunk size exceeds INT_MAX");
    }
    assert exists i :: 0 <= i < count && SizeOf(req, i) > 0 by {
      var i :| 0 <= i < |sizes| && sizes[i] == maxSize;
      assert SizeOf(req, i) > 0;
    }
    var w := if copyWorkers < count then copyWorkers else count;
    if w < 1 {
      w := 1;
    }
    var chunks := seq(count, i requires 0 <= i < count => Chunk(req.pbaSrcs[i], req.pbaDsts[i], sizes[i]));
    return Ok(Plan(chunks, w));
  }

  method MaxOf(sizes: seq<nat>) returns (m: nat)
    ensures forall i :: 0 <= i < |sizes| ==> sizes[i] <= m
    ensures m == 0 || exists i :: 0 <= i < |sizes| && sizes[i] == m
  {
    m := 0;
    for k := 0 to |sizes|
      invariant forall i :: 0 <= i < k ==> sizes[i] <= m
      invariant m == 0 || exists i :: 0 <= i < k && sizes[i] == m
    {
      if sizes[k] > m {
        m := sizes[k];
      }
    }
  }

  // ---------------------------------------------------------------- sequential copy

  /** A chunk lies inside both devices. */
  predicate InRange(c: Chunk, src: Device, dst: Device) {
    c.src + c.len <= |src| && c.dst + c.len <= |dst|
  }

  function Data(c: Chunk, src: Device): (s: seq<Byte>)
    requires c.src + c.len <= |src|
    ensures |s| == c.len
  {
    src[c.src..c.src + c.len]
  }

  /** The destination after the first `k` chunks are copied one after the other. */
  function CopyInOrder(src: Device, dst: Device, chunks: seq<Chunk>, k: nat): (dst': Device)
    requires k <= |chunks| && forall i :: 0 <= i < k ==> InRange(chunks[i], src, dst)
    ensures |dst'| == |dst|
  {
    if k == 0 then dst
    else
      assert InRange(chunks[k - 1], src, dst);
      Patch(CopyInOrder(src, dst, chunks, k - 1), chunks[k - 1].dst, Data(chunks[k - 1], src))
  }

  ghost predicate Disjoint(chunks: seq<Chunk>) {
    forall i, j :: 0 <= i < j < |chunks| ==> DisjointRanges(chunks[i].dst, chunks[i].len, chunks[j].dst, chunks[j].len)
  }

  predicate Touches(c: Chunk, p: int) { c.dst <= p < c.dst + c.len }

  lemma PatchAt(dev: Device, a: nat, data: seq<Byte>, p: nat)
    requires a + |data| <= |dev| && p < |dev|
    ensures Patch(dev, a, data)[p] == if a <= p < a + |data| then data[p - a] else dev[p]
  {}

  /** With disjoint destinations, every chunk's data survives and every other byte is unchanged. */
  lemma {:induction false} CopyInOrderAt(src: Device, dst: Device, chunks: seq<Chunk>, k: nat, p: nat)
    requires k <= |chunks| && (forall i :: 0 <= i < k ==> InRange(chunks[i], src, dst))
    requires Disjoint(chunks) && p < |dst|
    ensures forall i :: 0 <= i < k && Touches(chunks[i], p) ==>
              CopyInOrder(src, dst, chunks, k)[p] == src[chunks[i].src + (p - chunks[i].dst)]
    ensures (forall i :: 0 <= i < k ==> !Touches(chunks[i], p)) ==> CopyInOrder(src, dst, chunks, k)[p] == dst[p]
  {
    hide CopyInOrder;
    hide Patch;
    CopyStep(src, dst, chunks, k);
    if k > 0 {
      CopyInOrderAt(src, dst, chunks, k - 1, p);
      var c := chunks[k - 1];
      assert InRange(c, src, dst);
      PatchAt(CopyInOrder(src, dst, chunks, k - 1), c.dst, Data(c, src), p);
    }
  }

  lemma CopyStep(src: Device, dst: Device, chunks: seq<Chunk>, k: nat)
    requires k <= |chunks| && (forall i :: 0 <= i < k ==> InRange(chunks[i], src, dst))
    ensures k == 0 ==> CopyInOrder(src, dst, chunks, k) == dst
    ensures k > 0 ==>
              && InRange(chunks[k - 1], src, dst)
              && CopyInOrder(src, dst, chunks, k) ==
                 Patch(CopyInOrder(src, dst, chunks, k - 1), chunks[k - 1].dst, Data(chunks[k - 1], src))
  {
    hide Patch;
    assert k > 0 ==> InRange(chunks[k - 1], src, dst);
  }

  // ---------------------------------------------------------------- striped workers

  /** The source device may change while the workers read it: `srcs` are the states it goes through. A byte that is
      read at address `a` is the byte of one of them. */
  ghost predicate SeenAt(srcs: seq<Device>, a: nat, v: Byte) {
    exists t :: 0 <= t < |srcs| && a < |srcs[t]| && srcs[t][a] == v
  }

  /** What one read of a chunk may return, each byte from any of the states. */
  ghost predicate ReadBytes(srcs: seq<Device>, c: Chunk, buf: seq<Byte>) {
    && srcs != [] && c.src + c.len <= |srcs[0]| && |buf| == c.len
    && forall i :: 0 <= i < |buf| ==> SeenAt(srcs, c.src + i, buf[i])
  }

  /** Where one worker thread stands. Worker w takes the chunks w, w + W, w + 2W, ... */
  datatype Phase =
    | Reading(i: nat)
    | Writing(i: nat, buf: seq<Byte>)
    | Finished
    | Failed

  datatype CopyState = CopyState(dst: Device, workers: seq<Phase>, hasError: bool, copies: seq<nat>)

  ghost predicate Start(s: CopyState, dst: Device, count: nat, w: nat) {
    && s.dst == dst && !s.hasError
    && |s.workers| == w && (forall k :: 0 <= k < w ==> s.workers[k] == Reading(k))
    && |s.copies| == count && (forall c :: 0 <= c < count ==> s.copies[c] == 0)
  }

  function NextPhase(i: nat, count: nat, w: nat): Phase {
    if i + w < count then Reading(i + w) else Finished
  }

  ghost predicate ReadOk(s: CopyState, s': CopyState, srcs: seq<Device>, chunks: seq<Chunk>, k: nat, buf: seq<Byte>) {
    && k < |s.workers| && s.workers[k].Reading? && s.workers[k].i < |chunks|
    && ReadBytes(srcs, chunks[s.workers[k].i], buf)
    && s' == s.(workers := s.workers[k := Writing(s.workers[k].i, buf)])
  }

  ghost predicate ReadFails(s: CopyState, s': CopyState, k: nat) {
    && k < |s.workers| && s.workers[k].Reading?
    && s' == s.(workers := s.workers[k := Failed], hasError := true)
  }

  ghost predicate WriteOk(s: CopyState, s': CopyState, chunks: seq<Chunk>, k: nat) {
    && k < |s.workers| && s.workers[k].Writing?
    && var i := s.workers[k].i;
       && i < |chunks| && i < |s.copies|
       && |s.workers[k].buf| == chunks[i].len && chunks[i].dst + chunks[i].len <= |s.dst|
       && s' == s.(dst := Patch(s.dst, chunks[i].dst, s.workers[k].buf),
                   workers := s.workers[k := NextPhase(i, |chunks|, |s.workers|)],
                   copies := s.copies[i := s.copies[i] + 1])
  }

  /** A failed write may leave anything in the chunk's own range. */
  ghost predicate WriteFails(s: CopyState, s': CopyState, chunks: seq<Chunk>, k: nat) {
    && k < |s.workers| && s.workers[k].Writing? && s.workers[k].i < |chunks|
    && |s'.dst| == |s.dst|
    && (forall p :: 0 <= p < |s.dst| && !Touches(chunks[s.workers[k].i], p) ==> s'.dst[p] == s.dst[p])
    && s' == s.(dst := s'.dst, workers := s.workers[k := Failed], hasError := true)
  }

  /** Any worker takes its next step; workers never look at each other's errors. */
  ghost predicate Next(s: CopyState, s': CopyState, srcs: seq<Device>, chunks: seq<Chunk>) {
    || (exists k, buf :: ReadOk(s, s', srcs, chunks, k, buf))
    || (exists k :: ReadFails(s, s', k) || WriteOk(s, s', chunks, k) || WriteFails(s, s', chunks, k))
  }

  ghost predicate IsRun(run: seq<CopyState>, srcs: seq<Device>, dst: Device, chunks: seq<Chunk>, w: nat) {
    && run != [] && Start(run[0], dst, |chunks|, w)
    && forall n :: 0 < n < |run| ==> Next(run[n - 1], run[n], srcs, chunks)
  }

  /** All threads are joined and none recorded an error. */
  ghost predicate ErrorFree(s: CopyState) {
    !s.hasError && forall k :: 0 <= k < |s.workers| ==> s.workers[k].Finished? || s.workers[k].Failed?
  }

  // ---------------------------------------------------------------- invariant

  /** First chunk of its stripe the worker has not written yet. */
  function Progress(p: Phase, count: nat): nat {
    match p
    case Reading(i) => i
    case Writing(i, _) => i
    case _ => count
  }

  predicate Written(s: CopyState, c: nat, count: nat)
    requires |s.workers| > 0
  {
    c < Progress(s.workers[c % |s.workers|], count)
  }

  ghost predicate WorkerOk(s: CopyState, srcs: seq<Device>, chunks: seq<Chunk>, k: nat)
    requires k < |s.workers|
  {
    match s.workers[k]
    case Reading(i) => i < |chunks| && i % |s.workers| == k
    case Writing(i, buf) => i < |chunks| && i % |s.workers| == k && ReadBytes(srcs, chunks[i], buf)
    case Finished => true
    case Failed => false
  }

  /** A chunk lies inside source and destination, and every byte of its destination was read from the source. */
  ghost predicate ChunkCopied(srcs: seq<Device>, dst: Device, c: Chunk) {
    && srcs != [] && InRange(c, srcs[0], dst)
    && forall p :: Touches(c, p) ==> SeenAt(srcs, c.src + (p - c.dst), dst[p])
  }

  ghost predicate ChunkState(s: CopyState, srcs: seq<Device>, chunks: seq<Chunk>, c: nat)
    requires |s.workers| > 0 && c < |chunks| && |s.copies| == |chunks|
  {
    && s.copies[c] == (if Written(s, c, |chunks|) then 1 else 0)
    && (Written(s, c, |chunks|) ==> ChunkCopied(srcs, s.dst, chunks[c]))
  }

  ghost predicate Untouched(s: CopyState, chunks: seq<Chunk>, p: nat)
    requires |s.workers| > 0
  {
    forall c :: 0 <= c < |chunks| && Written(s, c, |chunks|) ==> !Touches(chunks[c], p)
  }

  ghost predicate Inv(s: CopyState, srcs: seq<Device>, dst: Device, chunks: seq<Chunk>, w: nat) {
    && w > 0 && |s.workers| == w && |s.copies| == |chunks| && |s.dst| == |dst|
    && (!s.hasError ==>
          && (forall k :: 0 <= k < w ==> WorkerOk(s, srcs, chunks, k))
          && (forall c :: 0 <= c < |chunks| ==> ChunkState(s, srcs, chunks, c))
          && (forall p :: 0 <= p < |dst| && Untouched(s, chunks, p) ==> s.dst[p] == dst[p]))
  }

  /** Between two indexes of one stripe that are one stride apart lies no third. */
  lemma StripeStep(c: nat, i: nat, w: nat)
    requires w > 0 && c % w == i % w && i <= c < i + w
    ensures c == i
  {
    assert c == c / w * w + c % w && i == i / w * w + i % w;
    var d := c / w - i / w;
    assert c - i == d * w;
    assert d >= 1 ==> d * w >= w;
    assert d < 0 ==> d * w < 0;
  }

  lemma StripeNext(i: nat, w: nat)
    requires w > 0
    ensures (i + w) % w == i % w
  {
    RemainderUnique(i + w, w, i / w + 1, i % w);
  }

  /** A successful write moves exactly one chunk into the written set. */
  lemma WrittenAfter(s: CopyState, s': CopyState, srcs: seq<Device>, chunks: seq<Chunk>, k: nat, c: nat)
    requires |s.workers| > 0 && WriteOk(s, s', chunks, k) && WorkerOk(s, srcs, chunks, k) && c < |chunks|
    ensures |s'.workers| == |s.workers|
    ensures Written(s', c, |chunks|) <==> Written(s, c, |chunks|) || c == s.workers[k].i
  {
    hide ReadBytes;
    var i, w := s.workers[k].i, |s.workers|;
    if c % w == k && i <= c < i + w {
      StripeStep(c, i, w);
    }
  }

  lemma ReadKeepsInv(s: CopyState, s': CopyState, srcs: seq<Device>, dst: Device, chunks: seq<Chunk>, w: nat, k: nat,
                     buf: seq<Byte>)
    requires Inv(s, srcs, dst, chunks, w) && ReadOk(s, s', srcs, chunks, k, buf)
    ensures Inv(s', srcs, dst, chunks, w)
  {
    hide ReadBytes;
    hide ChunkCopied;
    if !s'.hasError {
      assert WorkerOk(s, srcs, chunks, k);
      forall j | 0 <= j < w ensures WorkerOk(s', srcs, chunks, j) {
        assert WorkerOk(s, srcs, chunks, j);
      }
      forall c | 0 <= c < |chunks|
        ensures Written(s', c, |chunks|) == Written(s, c, |chunks|) && ChunkState(s', srcs, chunks, c)
      {
        assert ChunkState(s, srcs, chunks, c);
      }
      assert forall p :: Untouched(s', chunks, p) ==> Untouched(s, chunks, p);
    }
  }

  /** Writing a chunk copies it. */
  lemma PatchCopies(srcs: seq<Device>, dst: Device, c: Chunk, buf: seq<Byte>)
    requires ReadBytes(srcs, c, buf) && c.dst + c.len <= |dst|
    ensures ChunkCopied(srcs, Patch(dst, c.dst, buf), c)
  {
    hide SeenAt;
    var dst' := Patch(dst, c.dst, buf);
    forall p | Touches(c, p) ensures SeenAt(srcs, c.src + (p - c.dst), dst'[p]) {
      PatchAt(dst, c.dst, buf, p);
      assert SeenAt(srcs, c.src + (p - c.dst), buf[p - c.dst]);
    }
  }

  /** Writing elsewhere leaves a copied chunk. */
  lemma PatchKeeps(srcs: seq<Device>, dst: Device, c: Chunk, other: Chunk, buf: seq<Byte>)
    requires ChunkCopied(srcs, dst, c) && other.dst + other.len <= |dst| && |buf| == other.len
    requires DisjointRanges(c.dst, c.len, other.dst, other.len)
    ensures ChunkCopied(srcs, Patch(dst, other.dst, buf), c)
  {
    hide SeenAt;
    var dst' := Patch(dst, other.dst, buf);
    forall p | Touches(c, p) ensures SeenAt(srcs, c.src + (p - c.dst), dst'[p]) {
      PatchAt(dst, other.dst, buf, p);
      assert SeenAt(srcs, c.src + (p - c.dst), dst[p]);
    }
  }

  lemma WriteKeepsChunk(s: CopyState, s': CopyState, srcs: seq<Device>, dst: Device, chunks: seq<Chunk>, w: nat, k: nat,
                        c: nat)
    requires Inv(s, srcs, dst, chunks, w) && !s.hasError && Disjoint(chunks) && WriteOk(s, s', chunks, k)
    requires c < |chunks|
    ensures |s'.workers| > 0 && |s'.copies| == |chunks| && ChunkState(s', srcs, chunks, c)
  {
    hide ReadBytes;
    hide ChunkCopied;
    hide Patch;
    assert WorkerOk(s, srcs, chunks, k) && ChunkState(s, srcs, chunks, c);
    WrittenAfter(s, s', srcs, chunks, k, c);
    var i := s.workers[k].i;
    assert !Written(s, i, |chunks|);
    if c == i {
      PatchCopies(srcs, s.dst, chunks[i], s.workers[k].buf);
    } else if Written(s, c, |chunks|) {
      assert DisjointRanges(chunks[c].dst, chunks[c].len, chunks[i].dst, chunks[i].len);
      PatchKeeps(srcs, s.dst, chunks[c], chunks[i], s.workers[k].buf);
    }
  }

  lemma WriteKeepsRest(s: CopyState, s': CopyState, srcs: seq<Device>, dst: Device, chunks: seq<Chunk>, w: nat, k: nat,
                       p: nat)
    requires Inv(s, srcs, dst, chunks, w) && !s.hasError && WriteOk(s, s', chunks, k) && p < |dst|
    requires |s'.workers| > 0 && Untouched(s', chunks, p)
    ensures s'.dst[p] == dst[p]
  {
    hide ReadBytes;
    hide ChunkCopied;
    assert WorkerOk(s, srcs, chunks, k);
    var i := s.workers[k].i;
    forall c | 0 <= c < |chunks| && (Written(s, c, |chunks|) || c == i) ensures !Touches(chunks[c], p) {
      WrittenAfter(s, s', srcs, chunks, k, c);
    }
    assert Untouched(s, chunks, p) && !Touches(chunks[i], p);
  }

  lemma WriteKeepsInv(s: CopyState, s': CopyState, srcs: seq<Device>, dst: Device, chunks: seq<Chunk>, w: nat, k: nat)
    requires Inv(s, srcs, dst, chunks, w) && Disjoint(chunks) && WriteOk(s, s', chunks, k)
    ensures Inv(s', srcs, dst, chunks, w)
  {
    hide ReadBytes;
    hide ChunkCopied;
    if !s'.hasError {
      assert WorkerOk(s, srcs, chunks, k);
      StripeNext(s.workers[k].i, w);
      forall j | 0 <= j < w ensures WorkerOk(s', srcs, chunks, j) {
        assert WorkerOk(s, srcs, chunks, j);
      }
      forall c | 0 <= c < |chunks| ensures ChunkState(s', srcs, chunks, c) {
        WriteKeepsChunk(s, s', srcs, dst, chunks, w, k, c);
      }
      forall p | 0 <= p < |dst| && Untouched(s', chunks, p) ensures s'.dst[p] == dst[p] {
        WriteKeepsRest(s, s', srcs, dst, chunks, w, k, p);
      }
    }
  }

  lemma StartInv(s: CopyState, srcs: seq<Device>, dst: Device, chunks: seq<Chunk>, w: nat)
    requires 0 < w <= |chunks| && Start(s, dst, |chunks|, w)
    ensures Inv(s, srcs, dst, chunks, w)
  {
    forall k | 0 <= k < w ensures WorkerOk(s, srcs, chunks, k) {
      ModSmall(k, w);
    }
    forall c | 0 <= c < |chunks| ensures !Written(s, c, |chunks|) && ChunkState(s, srcs, chunks, c) {
      assert s.workers[c % w] == Reading(c % w);
      assert c % w <= c;
    }
  }

  lemma {:induction false} RunKeepsInv(run: seq<CopyState>, srcs: seq<Device>, dst: Device, chunks: seq<Chunk>, w: nat,
                                       n: nat)
    requires 0 < w <= |chunks| && Disjoint(chunks) && IsRun(run, srcs, dst, chunks, w) && n < |run|
    ensures Inv(run[n], srcs, dst, chunks, w)
  {
    if n == 0 {
      StartInv(run[0], srcs, dst, chunks, w);
    } else {
      RunKeepsInv(run, srcs, dst, chunks, w, n - 1);
      var s, s' := run[n - 1], run[n];
      assert Next(s, s', srcs, chunks);
      if k, buf :| ReadOk(s, s', srcs, chunks, k, buf) {
        ReadKeepsInv(s, s', srcs, dst, chunks, w, k, buf);
      } else {
        var k :| ReadFails(s, s', k) || WriteOk(s, s', chunks, k) || WriteFails(s, s', chunks, k);
        if WriteOk(s, s', chunks, k) {
          WriteKeepsInv(s, s', srcs, dst, chunks, w, k);
        }
      }
    }
  }

  /** For every worker count and every interleaving, and however the source changes meanwhile, an error-free return
      has copied every chunk exactly once, every byte of a chunk's destination is the source byte of some moment,
      and every other byte is unchanged. */
  lemma ParallelCopy(run: seq<CopyState>, srcs: seq<Device>, dst: Device, chunks: seq<Chunk>, w: nat, n: nat)
    requires 0 < w <= |chunks| && Disjoint(chunks)
    requires IsRun(run, srcs, dst, chunks, w) && n < |run| && ErrorFree(run[n])
    ensures |run[n].dst| == |dst| && forall c :: 0 <= c < |chunks| ==> ChunkCopied(srcs, run[n].dst, chunks[c])
    ensures forall p :: 0 <= p < |dst| && (forall c :: 0 <= c < |chunks| ==> !Touches(chunks[c], p)) ==>
              run[n].dst[p] == dst[p]
    ensures |run[n].copies| == |chunks| && forall c :: 0 <= c < |chunks| ==> run[n].copies[c] == 1
  {
    hide ChunkCopied;
    hide ReadBytes;
    RunKeepsInv(run, srcs, dst, chunks, w, n);
    var s := run[n];
    forall c | 0 <= c < |chunks| ensures ChunkCopied(srcs, s.dst, chunks[c]) && s.copies[c] == 1 {
      assert WorkerOk(s, srcs, chunks, c % w);
      assert Written(s, c, |chunks|) && ChunkState(s, srcs, chunks, c);
    }
    forall p | 0 <= p < |dst| && (forall c :: 0 <= c < |chunks| ==> !Touches(chunks[c], p)) ensures s.dst[p] == dst[p] {
      assert Untouched(s, chunks, p);
    }
  }

  /** With an unchanging source the destination is exactly as copying the chunks one by one would leave it. */
  lemma ParallelRefinesSequential(run: seq<CopyState>, src: Device, dst: Device, chunks: seq<Chunk>, w: nat, n: nat)
    requires 0 < w <= |chunks| && Disjoint(chunks)
    requires IsRun(run, [src], dst, chunks, w) && n < |run| && ErrorFree(run[n])
    ensures forall c :: 0 <= c < |chunks| ==> InRange(chunks[c], src, dst)
    ensures run[n].dst == CopyInOrder(src, dst, chunks, |chunks|)
    ensures |run[n].copies| == |chunks| && forall c :: 0 <= c < |chunks| ==> run[n].copies[c] == 1
  {
    ParallelCopy(run, [src], dst, chunks, w, n);
    var dst' := run[n].dst;
    assert forall c :: 0 <= c < |chunks| ==> InRange(chunks[c], src, dst) by {
      forall c | 0 <= c < |chunks| ensures InRange(chunks[c], src, dst) {
        assert ChunkCopied([src], dst', chunks[c]);
      }
    }
    forall p | 0 <= p < |dst| ensures dst'[p] == CopyInOrder(src, dst, chunks, |chunks|)[p] {
      CopyInOrderAt(src, dst, chunks, |chunks|, p);
      if c :| 0 <= c < |chunks| && Touches(chunks[c], p) {
        assert ChunkCopied([src], dst', chunks[c]);
        assert SeenAt([src], chunks[c].src + (p - chunks[c].dst), dst'[p]);
      }
    }
  }
}
