/** The leader's side of AppendEntries as its two locked steps: building the request (Lock B) and taking
    the reply (Lock C). core/src/raft_append_entries.cpp, core/src/raft_pba.cpp. */
module Progress {
  import opened Basics
  import opened Extents
  import opened Ring
  import opened Types
  import opened Batch

  datatype Config = Config(maxBatch: nat, maxBatchBytes: nat, extents: seq<Extent>)

  // ---------------------------------------------------------------- Lock B: the request

  /** `leader_pba_for_range`: where a slot range lies on the device and how many bytes are contiguous there,
      both rounded up to pages. */
  function LeaderPbaForRange(es: seq<Extent>, startSlot: nat, totalSlots: nat): Result<Segment> {
    if totalSlots == 0 then Ok(Segment(0, 0))
    else
      var nbytes := AlignUpPage(512 * totalSlots);
      match LookupSpec(es, SlotOffset(startSlot), nbytes)
      case Err(e) => Err(e)
      case Ok(seg) =>
        if seg.pba == 0 then Err("hole in ring file")
        else Ok(Segment(seg.pba, if 0 < seg.len < nbytes then AlignUpPage(seg.len) else nbytes))
  }

  /** A ring file that is one extent at device address `base`. */
  function OneExtent(base: nat, ringSlots: nat): seq<Extent> {
    [Extent(0, base, SlotOffset(ringSlots))]
  }

  /** On a single extent a range that ends inside the ring is never cut, and its address is linear in the slot. */
  lemma OneExtentRange(base: nat, ringSlots: nat, startSlot: nat, totalSlots: nat)
    requires base > 0 && 0 < totalSlots && startSlot + totalSlots <= ringSlots
    ensures var r := LeaderPbaForRange(OneExtent(base, ringSlots), startSlot, totalSlots);
            r.Ok? && r.value.pba == base + SlotOffset(startSlot) && r.value.len / 512 >= totalSlots
  {
    var es := OneExtent(base, ringSlots);
    assert es[0].Covers(SlotOffset(startSlot));
    ScanIsUnique(es, SlotOffset(startSlot), 0);
  }

  /** What the follower is told about an entry: its term and the length of its command, 0 once the leader
      has applied it and cleared command and ring slot. */
  function MetaOf(e: Entry): EntryMeta {
    EntryMeta(e.term, if e.command == [] && e.ringSlot != 0 then e.cmdLen else |e.command|)
  }

  /** Slot counts of the entries from `next` up to the end of the log. */
  function NeedsFrom(n: Node, next: nat): (r: seq<nat>)
    requires LogOk(n) && Oldest(n) <= next <= n.tailLogIndex
    ensures |r| == n.tailLogIndex - next
  {
    seq<nat>(n.tailLogIndex - next, k requires 0 <= k < n.tailLogIndex - next => SlotsForLogIndex(n, next + k))
  }

  datatype BatchChoice = BatchChoice(len: nat, total: nat, start: nat, pba: nat)

  const NO_BATCH: BatchChoice := BatchChoice(0, 0, 0, 0)

  /** The first record is gone or was never made, so only a heartbeat can be sent. */
  predicate RecordMissing(n: Node, next: nat) {
    (n.gcHasRun && next <= n.gcUpTo) || next !in n.logSlotMap
  }

  /** A recorded entry starts inside the ring and is still in memory. */
  predicate Readable(n: Node, i: nat)
    requires LogOk(n) && i in n.logSlotMap
  {
    n.logSlotMap[i].start <= n.ringSlots && Oldest(n) <= i
  }

  /** Slot-map lookup, clamp passes and address lookup. */
  function ChooseBatch(n: Node, next: nat, cfg: Config): Result<BatchChoice>
    requires LogOk(n) && next <= n.tailLogIndex && (next in n.logSlotMap ==> Readable(n, next))
  {
    if next == n.tailLogIndex || cfg.maxBatch == 0 || RecordMissing(n, next) then Ok(NO_BATCH)
    else
      var start := n.logSlotMap[next].start;
      var needs := NeedsFrom(n, next);
      var untilEnd := n.ringSlots - start;
      var len := BatchLen(needs, cfg.maxBatch, cfg.maxBatchBytes, untilEnd);
      if len == 0 then Ok(BatchChoice(0, 0, start, 0))
      else match LeaderPbaForRange(cfg.extents, start, Sum(needs, len))
        case Err(e) => Err(e)
        case Ok(seg) =>
          var len2 := BatchLen(needs, cfg.maxBatch, cfg.maxBatchBytes, Min(untilEnd, seg.len / 512));
          Ok(BatchChoice(len2, Sum(needs, len2), start, seg.pba))
  }

  /** A worker that has released Lock B and waits for its RPC. */
  datatype Worker = Worker(fi: nat, next: nat, req: AERequest) {
    predicate HasEntries() { req.numEntries > 0 }
  }

  datatype SendOutcome =
    | Blocked(node: Node)
    | Sent(node: Node, worker: Worker)
    | Crashed(error: string)

  /** What Lock B relies on: no recorded entry has been trimmed away. The next index itself may have been; then
      it has no record, and only a heartbeat goes out. */
  predicate SendReady(n: Node, fi: nat) {
    LogOk(n) && fi < |n.cluster| && forall i :: i in n.logSlotMap ==> Readable(n, i)
  }

  function PrevTerm(n: Node, prev: nat): nat
    requires LogOk(n)
  {
    if Oldest(n) <= prev < n.tailLogIndex then EntryAt(n, prev).term else 0
  }

  function RequestFor(n: Node, next: nat, b: BatchChoice): AERequest
    requires LogOk(n) && next + b.len <= n.tailLogIndex && (b.len > 0 ==> Oldest(n) <= next)
  {
    var prev := if next > 0 then next - 1 else 0;
    AERequest(n.currentTerm, prev, PrevTerm(n, prev), n.commitIndex, b.pba, b.total, b.len, b.start,
              seq(b.len, k requires 0 <= k < b.len => MetaOf(EntryAt(n, next + k))))
  }

  /** Lock B. */
  function SendAE(n: Node, fi: nat, cfg: Config): SendOutcome
    requires SendReady(n, fi)
  {
    var next := Min(n.cluster[fi].nextIndex, n.tailLogIndex);
    var n1 := WithMember(n, fi, n.cluster[fi].(nextIndex := next));
    if next < n.tailLogIndex && n.cluster[fi].inflight then Blocked(n1)
    else match ChooseBatch(n1, next, cfg)
      case Err(e) => Crashed(e)
      case Ok(b) =>
        assert b.len <= n.tailLogIndex - next;
        var n2 := if b.len > 0 then WithMember(n1, fi, n1.cluster[fi].(inflight := true)) else n1;
        Sent(n2, Worker(fi, next, RequestFor(n1, next, b)))
  }

  // ---------------------------------------------------------------- Lock C: the reply

  /** `apply_ae_success`. */
  function AeSuccess(n: Node, fi: nat, next: nat, len: nat): Node
    requires fi < |n.cluster|
  {
    var nx := Max(Max(next + len, 1), n.cluster[fi].nextIndex);
    WithMember(n, fi, n.cluster[fi].(nextIndex := nx, matchIndex := nx - 1))
  }

  /** Backward scan of the leader log for the conflicting term: one past its last entry, if it is there. */
  function ScanBack(n: Node, j: nat, term: nat): (r: Option<nat>)
    requires LogOk(n) && j < n.tailLogIndex
    ensures r.Some? ==> 2 <= r.value <= j + 1
    decreases j
  {
    if j < 1 || j < Oldest(n) then None
    else if EntryAt(n, j).term == term then Some(j + 1)
    else if EntryAt(n, j).term < term || j == Oldest(n) then None
    else ScanBack(n, j - 1, term)
  }

  /** The next index a rejection asks for, before it is made to decrease and floored. */
  function HintedNext(n: Node, prevLogIndex: nat, conflictTerm: nat, conflictIndex: nat, prev: nat): nat
    requires LogOk(n) && prevLogIndex < n.tailLogIndex
  {
    if conflictTerm == 0 && conflictIndex == 0 then (if prev > 0 then prev - 1 else 0)
    else if conflictTerm == 0 then conflictIndex
    else match ScanBack(n, prevLogIndex, conflictTerm)
      case Some(x) => x
      case None => conflictIndex
  }

  function BackedOff(n: Node, fi: nat, prevLogIndex: nat, conflictTerm: nat, conflictIndex: nat): nat
    requires LogOk(n) && prevLogIndex < n.tailLogIndex && fi < |n.cluster|
  {
    var prev := n.cluster[fi].nextIndex;
    var hinted := HintedNext(n, prevLogIndex, conflictTerm, conflictIndex, prev);
    var lower := if hinted >= prev then (if prev > 0 then prev - 1 else 0) else hinted;
    Max(Max(lower, 1), n.cluster[fi].matchIndex + 1)
  }

  /** `apply_ae_failure_backoff`: nothing happens if another worker has moved the next index meanwhile. */
  function AeBackoff(n: Node, fi: nat, prevLogIndex: nat, conflictTerm: nat, conflictIndex: nat, sentNext: nat): Node
    requires LogOk(n) && prevLogIndex < n.tailLogIndex && fi < |n.cluster|
  {
    if n.cluster[fi].nextIndex != sentNext then n
    else WithMember(n, fi, n.cluster[fi].(nextIndex := BackedOff(n, fi, prevLogIndex, conflictTerm, conflictIndex)))
  }

  /** Lock C. No response means the copy or the RPC failed. */
  function TakeReply(n: Node, w: Worker, rsp: Option<AEResponse>): Node
    requires LogOk(n) && w.fi < |n.cluster| && w.req.prevLogIndex < n.tailLogIndex
  {
    var n1 := if w.HasEntries() then WithMember(n, w.fi, n.cluster[w.fi].(inflight := false)) else n;
    if rsp.None? || rsp.value.term > n.currentTerm || (rsp.value.term != w.req.term && n.role.Leader?) then n1
    else if rsp.value.success then AeSuccess(n1, w.fi, w.next, w.req.numEntries)
    else AeBackoff(n1, w.fi, w.req.prevLogIndex, rsp.value.conflictTerm, rsp.value.conflictIndex, w.next)
  }

  // ---------------------------------------------------------------- backoff

  /** Whatever the hints, a rejection never takes the next index below the confirmed part, and takes it
      strictly down until it is there. */
  lemma BackoffDescends(n: Node, fi: nat, prevLogIndex: nat, conflictTerm: nat, conflictIndex: nat)
    requires LogOk(n) && prevLogIndex < n.tailLogIndex && fi < |n.cluster|
    requires n.cluster[fi].matchIndex + 1 <= n.cluster[fi].nextIndex
    ensures var m := n.cluster[fi];
            var nx := BackedOff(n, fi, prevLogIndex, conflictTerm, conflictIndex);
            m.matchIndex + 1 <= nx && nx <= Max(m.matchIndex + 1, m.nextIndex - 1)
  {}

  /** One rejection of the request that is outstanding for the current next index. */
  function Rejected(n: Node, fi: nat, conflictTerm: nat, conflictIndex: nat): Node
    requires LogOk(n) && fi < |n.cluster| && 1 <= n.cluster[fi].nextIndex <= n.tailLogIndex
  {
    var next := n.cluster[fi].nextIndex;
    AeBackoff(n, fi, next - 1, conflictTerm, conflictIndex, next)
  }

  /** The state after the first `k` of a list of rejections. */
  function AfterRejections(n: Node, fi: nat, hints: seq<(nat, nat)>, k: nat): (n': Node)
    requires LogOk(n) && fi < |n.cluster| && n.cluster[fi].matchIndex + 1 <= n.cluster[fi].nextIndex <= n.tailLogIndex
    requires k <= |hints|
    ensures n'.log == n.log && n'.tailLogIndex == n.tailLogIndex && |n'.cluster| == |n.cluster|
    ensures n'.cluster[fi].matchIndex == n.cluster[fi].matchIndex
    ensures n'.cluster[fi].matchIndex + 1 <= n'.cluster[fi].nextIndex <= n'.tailLogIndex
  {
    if k == 0 then n
    else Rejected(AfterRejections(n, fi, hints, k - 1), fi, hints[k - 1].0, hints[k - 1].1)
  }

  /** After k rejections with arbitrary hints the next index is k lower or at its floor, so at most
      `nextIndex - matchIndex - 1` rejections can lower it. */
  lemma {:induction false} RejectionsReachFloor(n: Node, fi: nat, hints: seq<(nat, nat)>, k: nat)
    requires LogOk(n) && fi < |n.cluster| && n.cluster[fi].matchIndex + 1 <= n.cluster[fi].nextIndex <= n.tailLogIndex
    requires k <= |hints|
    ensures AfterRejections(n, fi, hints, k).cluster[fi].nextIndex <=
            Max(n.cluster[fi].matchIndex + 1, if k <= n.cluster[fi].nextIndex then n.cluster[fi].nextIndex - k else 0)
    ensures k >= n.cluster[fi].nextIndex - n.cluster[fi].matchIndex - 1 ==>
            AfterRejections(n, fi, hints, k).cluster[fi].nextIndex == n.cluster[fi].matchIndex + 1
  {
    if k > 0 {
      RejectionsReachFloor(n, fi, hints, k - 1);
    }
  }
}
