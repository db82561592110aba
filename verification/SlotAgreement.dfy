/** Where leader and follower believe the entries of one batch lie. The leader has a recorded slot for each
    (core/src/raft_persist.cpp); the follower counts slots from the start slot and the command lengths it is
    told (core/src/raft_handle_append_entries.cpp). */
module SlotAgreement {
  import opened Basics
  import opened Ring
  import opened Types
  import opened Batch
  import opened Progress
  import opened Commit
  import opened Election
  import opened Follower

  /** Record `i + 1` was placed right after record `i`, or at the ring start if it did not fit there. */
  predicate Linked(m: LogSlotMap, ringSlots: nat, i: nat)
    requires i in m && i + 1 in m
  {
    m[i + 1].start == PlaceAt(m[i].End(), m[i + 1].numSlots, ringSlots)
  }

  /** Consecutive records follow each other on the ring, gaps at the ring end aside. */
  ghost predicate Chained(m: LogSlotMap, ringSlots: nat) {
    forall i {:trigger Linked(m, ringSlots, i)} :: i in m && i + 1 in m ==> Linked(m, ringSlots, i)
  }

  /** The batch [next, next + len) is recorded and ends inside the ring. */
  ghost predicate BatchRecorded(n: Node, next: nat, len: nat) {
    && LogOk(n) && Oldest(n) <= next && next + len <= n.tailLogIndex
    && (forall i :: next <= i < next + len ==> i in n.logSlotMap)
    && (len > 0 ==> n.logSlotMap[next].start + Sum(NeedsFrom(n, next), len) <= n.ringSlots)
  }

  lemma NeedsAt(n: Node, next: nat, k: nat)
    requires LogOk(n) && Oldest(n) <= next && next + k < n.tailLogIndex && next + k in n.logSlotMap
    ensures NeedsFrom(n, next)[k] == n.logSlotMap[next + k].numSlots
  {
    assert NeedsFrom(n, next)[k] == SlotsForLogIndex(n, next + k);
  }

  /** Every selected batch lies contiguously on the ring: each start is the start slot plus the slots of the
      entries before it, although the ring as a whole has gaps. */
  lemma {:induction false} BatchContiguous(n: Node, next: nat, len: nat, k: nat)
    requires Chained(n.logSlotMap, n.ringSlots) && BatchRecorded(n, next, len) && k < len
    ensures n.logSlotMap[next + k].start == n.logSlotMap[next].start + Sum(NeedsFrom(n, next), k)
  {
    if k > 0 {
      BatchContiguous(n, next, len, k - 1);
      assert Linked(n.logSlotMap, n.ringSlots, next + k - 1);
      NeedsAt(n, next, k - 1);
      NeedsAt(n, next, k);
      SumGrows(NeedsFrom(n, next), k + 1, len);
    }
  }

  // ---------------------------------------------------------------- the follower's reconstruction

  /** While the announced lengths give the recorded slot counts, the follower counts right. */
  lemma {:induction false} CountsRight(metas: seq<EntryMeta>, needs: seq<nat>, start: nat, ringSlots: nat, k: nat)
    requires k <= |metas| && k <= |needs| && start + Sum(needs, k) < ringSlots
    requires forall j :: 0 <= j < k ==> SlotsForEntry(metas[j].cmdLen) == needs[j]
    ensures SlotFor(metas, start, ringSlots, k) == start + Sum(needs, k)
  {
    if k > 0 {
      CountsRight(metas, needs, start, ringSlots, k - 1);
    }
  }

  /** The first entry whose slots the follower undercounts puts the next one at the wrong slot. */
  lemma {:induction false} CountsWrong(metas: seq<EntryMeta>, needs: seq<nat>, start: nat, ringSlots: nat,
                                       j: nat) returns (k: nat)
    requires j < |metas| && j < |needs| && start + Sum(needs, j + 1) < ringSlots
    requires forall i :: 0 <= i <= j ==> SlotsForEntry(metas[i].cmdLen) <= needs[i]
    requires SlotsForEntry(metas[j].cmdLen) < needs[j]
    ensures 0 < k <= j + 1 && SlotFor(metas, start, ringSlots, k) != start + Sum(needs, k)
    decreases j
  {
    if i :| 0 <= i < j && SlotsForEntry(metas[i].cmdLen) < needs[i] {
      SumGrows(needs, i + 1, j + 1);
      k := CountsWrong(metas, needs, start, ringSlots, i);
    } else {
      CountsRight(metas, needs, start, ringSlots, j);
      k := j + 1;
    }
  }

  /** A leader's own entry: recorded with the slots its command needs, cleared once it is applied. */
  ghost predicate OwnEntry(n: Node, i: nat)
    requires LogOk(n) && Oldest(n) <= i < n.tailLogIndex && i in n.logSlotMap
  {
    var e := EntryAt(n, i);
    && e.ringSlot == 0 && n.logSlotMap[i].numSlots >= 1
    && (if i < n.lastApplied then e.command == [] else n.logSlotMap[i].numSlots == SlotsForEntry(|e.command|))
  }

  /** The leader has not applied entry `i` yet, or it fits one slot. */
  predicate AnnouncedInFull(n: Node, i: nat)
    requires i in n.logSlotMap
  {
    i >= n.lastApplied || n.logSlotMap[i].numSlots == 1
  }

  /** Announced and recorded slots of an entry agree exactly if it is unapplied or fits one slot. */
  lemma AnnouncedSlots(n: Node, i: nat)
    requires LogOk(n) && Oldest(n) <= i < n.tailLogIndex && i in n.logSlotMap && OwnEntry(n, i)
    ensures SlotsForEntry(MetaOf(EntryAt(n, i)).cmdLen) <= n.logSlotMap[i].numSlots
    ensures SlotsForEntry(MetaOf(EntryAt(n, i)).cmdLen) == n.logSlotMap[i].numSlots <==> AnnouncedInFull(n, i)
  {}

  /** A batch of the leader's own entries, about to be announced. */
  ghost predicate OwnBatch(n: Node, next: nat, b: BatchChoice) {
    && Chained(n.logSlotMap, n.ringSlots) && 1 <= next && 0 < b.len && BatchRecorded(n, next, b.len)
    && b.start == n.logSlotMap[next].start
    && (forall i :: next <= i < next + b.len ==> OwnEntry(n, i))
  }

  /** Leader and follower have entry `k` of the batch at the same slot. */
  predicate SameSlot(n: Node, next: nat, start: nat, metas: seq<EntryMeta>, k: nat)
    requires k < |metas| && next + k in n.logSlotMap
  {
    SlotFor(metas, start, n.ringSlots, k) == n.logSlotMap[next + k].start
  }

  lemma BatchEntry(n: Node, next: nat, b: BatchChoice, metas: seq<EntryMeta>, needs: seq<nat>, k: nat)
    requires OwnBatch(n, next, b) && metas == RequestFor(n, next, b).metas && needs == NeedsFrom(n, next) && k < b.len
    ensures |metas| == b.len <= |needs| && next + k in n.logSlotMap
    ensures n.logSlotMap[next + k].start == b.start + Sum(needs, k) < b.start + Sum(needs, k + 1) <= n.ringSlots
    ensures SlotsForEntry(metas[k].cmdLen) <= needs[k]
    ensures SlotsForEntry(metas[k].cmdLen) == needs[k] <==> AnnouncedInFull(n, next + k)
  {
    NeedsAt(n, next, k);
    BatchContiguous(n, next, b.len, k);
    assert OwnEntry(n, next + k);
    AnnouncedSlots(n, next + k);
    SumGrows(needs, k + 1, b.len);
  }

  lemma FullyAnnouncedAgrees(n: Node, next: nat, b: BatchChoice, metas: seq<EntryMeta>, k: nat)
    requires OwnBatch(n, next, b) && metas == RequestFor(n, next, b).metas && k < b.len
    requires forall i :: next <= i < next + k ==> AnnouncedInFull(n, i)
    ensures |metas| == b.len && SameSlot(n, next, b.start, metas, k)
  {
    var needs := NeedsFrom(n, next);
    hide OwnBatch;
    hide RequestFor;
    BatchEntry(n, next, b, metas, needs, k);
    forall j | 0 <= j < k ensures SlotsForEntry(metas[j].cmdLen) == needs[j] {
      BatchEntry(n, next, b, metas, needs, j);
    }
    CountsRight(metas, needs, b.start, n.ringSlots, k);
  }

  lemma AppliedEntryDisagrees(n: Node, next: nat, b: BatchChoice, metas: seq<EntryMeta>, j: nat) returns (k: nat)
    requires OwnBatch(n, next, b) && metas == RequestFor(n, next, b).metas && j + 1 < b.len
    requires next + j in n.logSlotMap && !AnnouncedInFull(n, next + j)
    ensures k < b.len == |metas| && next + k in n.logSlotMap && !SameSlot(n, next, b.start, metas, k)
  {
    var needs := NeedsFrom(n, next);
    hide OwnBatch;
    hide RequestFor;
    forall i | 0 <= i < b.len
      ensures |metas| == b.len <= |needs| && SlotsForEntry(metas[i].cmdLen) <= needs[i]
    {
      BatchEntry(n, next, b, metas, needs, i);
    }
    BatchEntry(n, next, b, metas, needs, j);
    BatchEntry(n, next, b, metas, needs, j + 1);
    k := CountsWrong(metas, needs, b.start, n.ringSlots, j);
    BatchEntry(n, next, b, metas, needs, k);
  }

  /** Exactly when the follower's slots are the leader's, for every entry of a batch: no entry but the last
      has been applied by the leader before it was announced, unless it fits one slot. */
  lemma SlotAgreementIff(n: Node, next: nat, b: BatchChoice)
    requires OwnBatch(n, next, b)
    ensures (forall k: nat :: k < b.len ==> SameSlot(n, next, b.start, RequestFor(n, next, b).metas, k))
       <==> (forall i :: next <= i < next + b.len - 1 ==> AnnouncedInFull(n, i))
  {
    var metas := RequestFor(n, next, b).metas;
    if forall i :: next <= i < next + b.len - 1 ==> AnnouncedInFull(n, i) {
      forall k: nat | k < b.len ensures SameSlot(n, next, b.start, metas, k) {
        FullyAnnouncedAgrees(n, next, b, metas, k);
      }
    } else {
      var i :| next <= i < next + b.len - 1 && !AnnouncedInFull(n, i);
      var k := AppliedEntryDisagrees(n, next, b, metas, i - next);
    }
  }

  // ---------------------------------------------------------------- what an entry is announced with, later

  /** An entry that was told to a follower is announced by it, should it lead, exactly as it was told, and implies the
      same slots, unless it lies at slot 0: then it is announced without a command. */
  lemma ReannouncedIff(metas: seq<EntryMeta>, start: nat, ringSlots: nat, i: nat)
    requires i < |metas|
    ensures var e := Deferred(metas, start, ringSlots, i);
            && e.term == metas[i].term && EntrySlots(e) == SlotsForEntry(metas[i].cmdLen)
            && (MetaOf(e) == metas[i] <==> SlotFor(metas, start, ringSlots, i) != 0 || metas[i].cmdLen == 0)
  {
    hide SlotFor;
    hide SlotsForEntry;
  }

  /** Once it is loaded it is announced with the command that was read, and nothing is left to load. */
  lemma LoadedAnnounced(e: Entry, read: Reader)
    requires e.command == [] && e.ringSlot != 0 && read(e.ringSlot).Some?
    ensures var e' := Loaded(e, read);
            && MetaOf(e') == EntryMeta(e.term, |read(e.ringSlot).value|) && Loaded(e', read) == e'
            && e'.term == e.term && e'.cmdLen == e.cmdLen && e'.committed == e.committed
  {}

  /** Applying an entry leaves the slots it implies as they were, exactly if its command was in memory or needed one
      slot. */
  lemma AppliedKeepsSlotsIff(e: Entry)
    ensures EntrySlots(Cleared(e)) == EntrySlots(e) <==> e.command != [] || SlotsForEntry(e.cmdLen) == 1
  {}
}
