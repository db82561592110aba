/** A follower's write pointer along a run of a first leader, and the no-op that a promotion would write there. */
module WritePointer {
  import opened Basics
  import opened Extents
  import opened EntryCodec
  import opened Ring
  import opened Types
  import opened Batch
  import opened Progress
  import opened Commit
  import opened Election
  import opened Follower
  import opened LeaderLog
  import opened SlotAgreement
  import opened Replication
  import opened ReplicationRuns
  import opened FirstLeader
  import opened DataPath
  import opened Mirror
  import opened MirrorLog
  import RingRuns
  import CatchUpLimits

  // ---------------------------------------------------------------- the gap behind a record

  /** The slot right behind `e`, on a ring of so many slots. */
  function Around(e: nat, ringSlots: nat): nat {
    if e >= ringSlots then 0 else e
  }

  /** Of the uncollected records, only that of the next entry can cover the slot right behind a record; behind the
      newest one it can also be a record that starts there, when the ring is full. */
  lemma OnlyNextBehind(n: Node, full: seq<Entry>, last: nat, i: nat)
    requires LeaderRing(n, full) && last in n.logSlotMap
    requires Covers(n.logSlotMap, i, Around(n.logSlotMap[last].End(), n.ringSlots))
    ensures i == last + 1 ||
            (last + 1 == n.tailLogIndex
             && n.logSlotMap[i].start == Around(n.logSlotMap[last].End(), n.ringSlots))
  {
    LeaderRingParts(n, full);
    hide LeaderRing;
    var m, R := n.logSlotMap, n.ringSlots;
    RingRecord(m, n.tailSlot, n.headSlot, R, i);
    RingRecord(m, n.tailSlot, n.headSlot, R, last);
    hide RingOk;
    if last + 1 < n.tailLogIndex && i != last + 1 {
      RingApart(m, n.tailSlot, n.headSlot, R, i, last + 1);
      RingRecord(m, n.tailSlot, n.headSlot, R, last + 1);
      assert Linked(m, R, last);
      RingApart(m, n.tailSlot, n.headSlot, R, last, last + 1);
      if i > last {
        EndsBefore(n, full, last, i);
      } else {
        EndsUpTo(n, full, last, i);
      }
    }
  }

  lemma RingRecord(m: LogSlotMap, tail: nat, head: nat, ringSlots: nat, i: nat)
    requires RingOk(m, tail, head, ringSlots) && i in m
    ensures RecordOk(m[i], tail, head, ringSlots)
  {}

  lemma RingApart(m: LogSlotMap, tail: nat, head: nat, ringSlots: nat, i: nat, j: nat)
    requires RingOk(m, tail, head, ringSlots) && i in m && j in m && i != j
    ensures Apart(m[i], m[j])
  {}

  /** Entry `last + 1` was put at the ring start although the ring has room left behind `last`. */
  ghost predicate WrapsBehind(n: Node, last: nat) {
    && last in n.logSlotMap && last + 1 in n.logSlotMap && n.logSlotMap[last + 1].start == 0
    && n.logSlotMap[last].End() < n.ringSlots
  }

  /** From there on the records stay in front of `last`. */
  lemma {:induction false} EndsBefore(n: Node, full: seq<Entry>, last: nat, j: nat)
    requires LeaderRing(n, full) && WrapsBehind(n, last) && last < j && j in n.logSlotMap
    ensures n.logSlotMap[j].End() <= n.logSlotMap[last].start
  {
    LeaderRingParts(n, full);
    hide LeaderRing;
    var m := n.logSlotMap;
    RingRecord(m, n.tailSlot, n.headSlot, n.ringSlots, j);
    RingRecord(m, n.tailSlot, n.headSlot, n.ringSlots, last);
    RingApart(m, n.tailSlot, n.headSlot, n.ringSlots, last, j);
    if j > last + 1 {
      RingApart(m, n.tailSlot, n.headSlot, n.ringSlots, last + 1, j);
      RingRecord(m, n.tailSlot, n.headSlot, n.ringSlots, last + 1);
      hide RingOk;
      EndsBefore(n, full, last, j - 1);
      assert Linked(m, n.ringSlots, j - 1);
    }
  }

  /** Up to `last` none ends behind it. */
  lemma {:induction false} EndsUpTo(n: Node, full: seq<Entry>, last: nat, j: nat)
    requires LeaderRing(n, full) && WrapsBehind(n, last) && j <= last && j in n.logSlotMap
    ensures n.logSlotMap[j].End() <= n.logSlotMap[last].End()
    decreases last - j
  {
    LeaderRingParts(n, full);
    hide LeaderRing;
    var m := n.logSlotMap;
    if j < last {
      RingRecord(m, n.tailSlot, n.headSlot, n.ringSlots, j + 1);
      RingRecord(m, n.tailSlot, n.headSlot, n.ringSlots, last + 1);
      RingApart(m, n.tailSlot, n.headSlot, n.ringSlots, j + 1, last + 1);
      hide RingOk;
      EndsUpTo(n, full, last, j + 1);
      assert Linked(m, n.ringSlots, j);
    }
  }

  // ---------------------------------------------------------------- counting the slots of a batch

  /** Slots that the follower counts for each entry of a batch. */
  function Counts(metas: seq<EntryMeta>): (r: seq<nat>)
    ensures |r| == |metas| && forall j :: 0 <= j < |r| ==> r[j] == SlotsForEntry(metas[j].cmdLen) >= 1
  {
    seq<nat>(|metas|, j requires 0 <= j < |metas| => SlotsForEntry(metas[j].cmdLen))
  }

  /** Counting over a whole batch that fits in front of the ring end leads right behind it. */
  lemma CountsLeadBehind(metas: seq<EntryMeta>, start: nat, ringSlots: nat)
    requires metas != [] && start + Sum(Counts(metas), |metas|) <= ringSlots
    ensures SlotFor(metas, start, ringSlots, |metas|) == Around(start + Sum(Counts(metas), |metas|), ringSlots)
  {
    CountsRight(metas, Counts(metas), start, ringSlots, |metas| - 1);
  }

  lemma {:induction false} CountsBelow(a: seq<nat>, b: seq<nat>, k: nat)
    requires k <= |a| && k <= |b| && forall j :: 0 <= j < k ==> a[j] <= b[j]
    ensures Sum(a, k) <= Sum(b, k)
    ensures Sum(a, k) == Sum(b, k) <==> a[..k] == b[..k]
  {
    if k == 0 {
      assert a[..k] == b[..k];
    } else {
      CountsBelow(a, b, k - 1);
      assert a[..k] == a[..k - 1] + [a[k - 1]] && b[..k] == b[..k - 1] + [b[k - 1]];
    }
  }

  /** The entry of a batch that has the slot at distance `d` from its start. */
  function EntryAtDistance(needs: seq<nat>, d: nat, k: nat): (q: nat)
    requires k <= |needs| && d < Sum(needs, k)
    ensures q < k && Sum(needs, q) <= d < Sum(needs, q + 1)
  {
    if d < Sum(needs, k - 1) then EntryAtDistance(needs, d, k - 1) else k - 1
  }

  lemma DistanceIsIn(needs: seq<nat>, d: nat, k: nat, q: nat)
    requires q < k <= |needs| && d < Sum(needs, k) && Sum(needs, q) <= d < Sum(needs, q + 1)
    ensures q == EntryAtDistance(needs, d, k)
  {
    var q' := EntryAtDistance(needs, d, k);
    if q < q' {
      SumGrows(needs, q + 1, q');
    } else if q' < q {
      SumGrows(needs, q' + 1, q);
    }
  }

  /** No entry is announced longer than it is. */
  ghost predicate NotLonger(full: seq<Entry>, w: Worker) {
    && w.next + w.req.numEntries <= |full| && |w.req.metas| == w.req.numEntries
    && forall j :: 0 <= j < w.req.numEntries ==> w.req.metas[j].cmdLen <= |full[w.next + j].command|
  }

  /** Slots the entries of a batch have. */
  ghost function SlotNeeds(full: seq<Entry>, w: Worker): (r: seq<nat>)
    requires w.next + w.req.numEntries <= |full|
    ensures |r| == w.req.numEntries
    ensures forall j :: 0 <= j < |r| ==> r[j] == SlotsForEntry(|full[w.next + j].command|)
  {
    hide SlotsForEntry;
    RingRuns.RecordNeeds(BatchOf(full, w))
  }

  /** Slots behind the start slot where the follower's count of the batch ends. */
  ghost function CountedSlots(w: Worker): nat {
    Sum(Counts(w.req.metas), |w.req.metas|)
  }

  lemma CountedBelow(full: seq<Entry>, w: Worker)
    requires NotLonger(full, w) && w.HasEntries()
    ensures 0 < CountedSlots(w) <= Sum(SlotNeeds(full, w), w.req.numEntries)
    ensures CountedSlots(w) == Sum(SlotNeeds(full, w), w.req.numEntries) <==> Counts(w.req.metas) == SlotNeeds(full, w)
  {
    var a, b, k := Counts(w.req.metas), SlotNeeds(full, w), w.req.numEntries;
    forall j | 0 <= j < k ensures a[j] <= b[j] {
      SlotsMonotone(w.req.metas[j].cmdLen, |full[w.next + j].command|);
    }
    CountsBelow(a, b, k);
    assert a[..k] == a && b[..k] == b;
    SumGrows(a, 1, k);
  }

  lemma SlotsMonotone(a: nat, b: nat)
    requires a <= b
    ensures SlotsForEntry(a) <= SlotsForEntry(b)
  {}

  // ---------------------------------------------------------------- which entries the no-op hits

  /** Where a promotion of the server would record its no-op (`PromotedMap`). */
  function Noop(n: Node): SlotRecord {
    PlaceOf([1], n.tailSlot, n.ringSlots, 0)
  }

  /** That slot belongs to an uncollected entry that follower `f` has. */
  ghost predicate NoopHits(s: Sys, f: nat) {
    && s.ld < |s.nodes| && f < |s.nodes|
    && exists i :: i in Lead(s).logSlotMap && i < s.nodes[f].tailLogIndex &&
                   !Apart(Lead(s).logSlotMap[i], Noop(s.nodes[f]))
  }

  /** An entry that the follower has covers slot `p`. */
  ghost predicate Hit(n: Node, tail: nat, p: nat) {
    exists i: nat :: Covers(n.logSlotMap, i, p) && i < tail
  }

  /** After a copy that failed: the batch repeats entries the follower has, and they are uncollected. */
  predicate FailedOnHeld(n: Node, w: Worker, tail: nat) {
    w.next in n.logSlotMap && w.next < tail
  }

  /** After a copy that worked. The count ends inside the batch, at an uncollected entry; or it ends behind the batch,
      which is uncollected, holds the leader's newest entry and is followed on the ring by the start of a record. */
  ghost predicate CountedOnto(n: Node, full: seq<Entry>, w: Worker)
    requires w.next + w.req.numEntries <= |full|
  {
    EndsOnto(n, w, SlotNeeds(full, w), CountedSlots(w))
  }

  ghost predicate EndsOnto(n: Node, w: Worker, needs: seq<nat>, d: nat)
    requires |needs| == w.req.numEntries
  {
    if d < Sum(needs, |needs|) then w.next + EntryAtDistance(needs, d, |needs|) in n.logSlotMap
    else BehindBatch(n, w, Around(w.req.startSlot + d, n.ringSlots))
  }

  /** The batch holds the leader's newest entry, uncollected, and the ring is full: a record starts behind it. */
  ghost predicate BehindBatch(n: Node, w: Worker, p: nat) {
    && w.req.numEntries > 0 && w.next + w.req.numEntries == n.tailLogIndex
    && w.next + w.req.numEntries - 1 in n.logSlotMap && exists z :: z in n.logSlotMap && n.logSlotMap[z].start == p
  }

  lemma BatchRecord(n: Node, full: seq<Entry>, w: Worker, base: nat, j: nat)
    requires LeaderRing(n, full) && RequestSlots(n, full, w, base) && j < w.req.numEntries
    requires w.next + j in n.logSlotMap
    ensures n.logSlotMap[w.next + j].start == w.req.startSlot + Sum(SlotNeeds(full, w), j)
    ensures n.logSlotMap[w.next + j].End() == w.req.startSlot + Sum(SlotNeeds(full, w), j + 1)
    ensures Sum(SlotNeeds(full, w), j) < Sum(SlotNeeds(full, w), j + 1)
  {
    hide *;
    BatchSize(n, full, w, base);
    StartOf(n, full, w, base, j);
    RecordSlots(n, full, w.next + j);
    var needs := SlotNeeds(full, w);
    NextSum(needs, j);
    assert needs[j] == SlotsForEntry(|full[w.next + j].command|);
  }

  lemma RecordSlots(n: Node, full: seq<Entry>, i: nat)
    requires LeaderRing(n, full) && i in n.logSlotMap
    ensures i < |full| && n.logSlotMap[i].numSlots == SlotsForEntry(|full[i].command|) >= 1
    ensures n.logSlotMap[i].End() == n.logSlotMap[i].start + n.logSlotMap[i].numSlots
  {
    hide RingOk;
    hide Chained;
    hide SlotsForEntry;
    assert RecordFits(n.logSlotMap, full, n.ringSlots, i);
  }

  lemma NextSum(needs: seq<nat>, j: nat)
    requires j < |needs|
    ensures Sum(needs, j + 1) == Sum(needs, j) + needs[j]
  {}

  lemma StartOf(n: Node, full: seq<Entry>, w: Worker, base: nat, j: nat)
    requires RequestSlots(n, full, w, base) && j < w.req.numEntries && w.next + j in n.logSlotMap
    ensures w.next + w.req.numEntries <= |full|
    ensures n.logSlotMap[w.next + j].start == w.req.startSlot + Sum(SlotNeeds(full, w), j)
  {
    hide SlotsForEntry;
    hide Sum;
    assert SlotOf(n, full, w, j);
  }

  lemma BatchSize(n: Node, full: seq<Entry>, w: Worker, base: nat)
    requires RequestSlots(n, full, w, base)
    ensures w.next + w.req.numEntries <= |full|
    ensures w.req.blockLength == Sum(SlotNeeds(full, w), w.req.numEntries)
    ensures w.req.startSlot + w.req.blockLength <= n.ringSlots
  {
    hide Sum;
  }

  /** An uncollected entry in front of another one: that one is uncollected too. */
  lemma LaterLive(n: Node, full: seq<Entry>, i: nat, j: nat)
    requires LeaderRing(n, full) && i in n.logSlotMap && i <= j < n.tailLogIndex
    ensures j in n.logSlotMap
  {
    hide RingOk;
    hide Chained;
  }

  lemma LiveInLog(n: Node, full: seq<Entry>, i: nat)
    requires LeaderRing(n, full) && i in n.logSlotMap
    ensures i < n.tailLogIndex && n.logSlotMap[i].start < n.logSlotMap[i].End() <= n.ringSlots
  {
    LeaderRingParts(n, full);
    RingRecord(n.logSlotMap, n.tailSlot, n.headSlot, n.ringSlots, i);
  }

  lemma LiveApart(n: Node, full: seq<Entry>, i: nat, j: nat)
    requires LeaderRing(n, full) && i in n.logSlotMap && j in n.logSlotMap && i != j
    ensures Apart(n.logSlotMap[i], n.logSlotMap[j])
  {
    LeaderRingParts(n, full);
    RingApart(n.logSlotMap, n.tailSlot, n.headSlot, n.ringSlots, i, j);
  }

  /** An entry of the batch covers the slots that the counts in front of it and its own lead to. */
  lemma BatchCovers(n: Node, full: seq<Entry>, w: Worker, base: nat, j: nat, d: nat)
    requires LeaderRing(n, full) && RequestSlots(n, full, w, base) && j < w.req.numEntries
    ensures w.next + w.req.numEntries <= |full|
    ensures Covers(n.logSlotMap, w.next + j, w.req.startSlot + d)
       <==> w.next + j in n.logSlotMap && Sum(SlotNeeds(full, w), j) <= d < Sum(SlotNeeds(full, w), j + 1)
  {
    hide *;
    BatchSize(n, full, w, base);
    CoversIs(n.logSlotMap, w.next + j, w.req.startSlot + d);
    if w.next + j in n.logSlotMap {
      BatchRecord(n, full, w, base, j);
    }
  }

  lemma CoversIs(live: LogSlotMap, i: nat, y: nat)
    ensures Covers(live, i, y) <==> i in live && live[i].start <= y < live[i].End()
  {}

  lemma HitBy(n: Node, tail: nat, p: nat, i: nat)
    requires Covers(n.logSlotMap, i, p) && i < tail
    ensures Hit(n, tail, p)
  {}

  lemma WhoIsHit(n: Node, tail: nat, p: nat) returns (i: nat)
    requires Hit(n, tail, p)
    ensures Covers(n.logSlotMap, i, p) && i < tail && i in n.logSlotMap
  {
    i :| Covers(n.logSlotMap, i, p) && i < tail;
  }

  /** Pointer back at the start of a batch whose copy failed. */
  lemma FailedHitsIff(n: Node, full: seq<Entry>, w: Worker, base: nat, tail: nat)
    requires LeaderRing(n, full) && n.tailLogIndex == |full| && RequestSlots(n, full, w, base)
    requires w.next <= tail < w.next + w.req.numEntries
    ensures Hit(n, tail, w.req.startSlot) <==> FailedOnHeld(n, w, tail)
  {
    hide *;
    BatchSize(n, full, w, base);
    BatchCovers(n, full, w, base, 0, 0);
    FirstSum(SlotNeeds(full, w));
    if w.next in n.logSlotMap && w.next < tail {
      HitBy(n, tail, w.req.startSlot, w.next);
    }
    if Hit(n, tail, w.req.startSlot) {
      var i := WhoIsHit(n, tail, w.req.startSlot);
      if i < w.next {
        LaterLive(n, full, i, w.next);
        LiveApart(n, full, i, w.next);
        CoverOne(n.logSlotMap, i, w.next, w.req.startSlot);
      } else if i > w.next {
        BatchCovers(n, full, w, base, i - w.next, 0);
        SumGrows(SlotNeeds(full, w), 1, i - w.next);
      }
    }
    FailedIs(n, w, tail);
  }

  lemma FailedIs(n: Node, w: Worker, tail: nat)
    ensures FailedOnHeld(n, w, tail) <==> w.next in n.logSlotMap && w.next < tail
  {}

  lemma FirstSum(needs: seq<nat>)
    requires needs != [] && needs[0] >= 1
    ensures Sum(needs, 0) == 0 < Sum(needs, 1)
  {}

  /** Records that are apart do not cover the same slot. */
  lemma CoverOne(live: LogSlotMap, i: nat, j: nat, y: nat)
    requires i in live && j in live && Apart(live[i], live[j])
    ensures !(Covers(live, i, y) && Covers(live, j, y))
  {}

  /** Pointer behind what was counted of a batch that has been copied. */
  lemma CountedHitsIff(n: Node, full: seq<Entry>, w: Worker, base: nat)
    requires LeaderRing(n, full) && n.tailLogIndex == |full| && RequestSlots(n, full, w, base)
    requires NotLonger(full, w) && w.HasEntries()
    ensures Hit(n, w.next + w.req.numEntries, Around(w.req.startSlot + CountedSlots(w), n.ringSlots))
       <==> CountedOnto(n, full, w)
  {
    hide *;
    BatchSize(n, full, w, base);
    CountedBelow(full, w);
    var d, k := CountedSlots(w), w.req.numEntries;
    var tail, p := w.next + k, Around(w.req.startSlot + d, n.ringSlots);
    OntoIs(n, full, w);
    EndsWhere(n, w, SlotNeeds(full, w), d);
    if d < Sum(SlotNeeds(full, w), k) {
      InsideIff(n, full, w, base, d, EntryAtDistance(SlotNeeds(full, w), d, k));
    } else {
      BehindIff(n, full, w, base, d, p);
    }
  }

  lemma OntoIs(n: Node, full: seq<Entry>, w: Worker)
    requires w.next + w.req.numEntries <= |full|
    ensures CountedOnto(n, full, w) <==> EndsOnto(n, w, SlotNeeds(full, w), CountedSlots(w))
  {
    hide EndsOnto;
    hide CountedSlots;
  }

  lemma EndsWhere(n: Node, w: Worker, needs: seq<nat>, d: nat)
    requires |needs| == w.req.numEntries
    ensures EndsOnto(n, w, needs, d) <==>
              if d < Sum(needs, |needs|) then w.next + EntryAtDistance(needs, d, |needs|) in n.logSlotMap
              else BehindBatch(n, w, Around(w.req.startSlot + d, n.ringSlots))
  {}

  lemma InsideIff(n: Node, full: seq<Entry>, w: Worker, base: nat, d: nat, q: nat)
    requires LeaderRing(n, full) && n.tailLogIndex == |full| && RequestSlots(n, full, w, base)
    requires w.next + w.req.numEntries <= |full| && d < Sum(SlotNeeds(full, w), w.req.numEntries)
    requires q == EntryAtDistance(SlotNeeds(full, w), d, w.req.numEntries)
    ensures Hit(n, w.next + w.req.numEntries, Around(w.req.startSlot + d, n.ringSlots))
       <==> w.next + q in n.logSlotMap
  {
    hide *;
    BatchSize(n, full, w, base);
    BatchCovers(n, full, w, base, q, d);
    var k, p := w.req.numEntries, w.req.startSlot + d;
    InsideRing(p, n.ringSlots);
    if w.next + q in n.logSlotMap {
      HitBy(n, w.next + k, p, w.next + q);
    }
    if Hit(n, w.next + k, p) {
      var i := WhoIsHit(n, w.next + k, p);
      if i < w.next {
        LaterLive(n, full, i, w.next + q);
      } else {
        BatchCovers(n, full, w, base, i - w.next, d);
        DistanceIsIn(SlotNeeds(full, w), d, k, i - w.next);
      }
    }
  }

  lemma InsideRing(p: nat, ringSlots: nat)
    requires p < ringSlots
    ensures Around(p, ringSlots) == p
  {}

  lemma BehindIff(n: Node, full: seq<Entry>, w: Worker, base: nat, d: nat, p: nat)
    requires LeaderRing(n, full) && n.tailLogIndex == |full| && RequestSlots(n, full, w, base) && w.HasEntries()
    requires w.next + w.req.numEntries <= |full| && d == Sum(SlotNeeds(full, w), w.req.numEntries)
    requires p == Around(w.req.startSlot + d, n.ringSlots)
    ensures Hit(n, w.next + w.req.numEntries, p) <==> BehindBatch(n, w, p)
  {
    hide *;
    HasSome(w);
    BatchSize(n, full, w, base);
    var tail := w.next + w.req.numEntries;
    if BehindBatch(n, w, p) {
      var z := StartsAt(n, w, p);
      LiveInLog(n, full, z);
      CoversIs(n.logSlotMap, z, p);
      HitBy(n, tail, p, z);
    }
    if Hit(n, tail, p) {
      var i := WhoIsHit(n, tail, p);
      LaterLive(n, full, i, tail - 1);
      BatchRecord(n, full, w, base, w.req.numEntries - 1);
      OnlyNextBehind(n, full, tail - 1, i);
      IsBehind(n, w, p, i);
    }
  }

  lemma HasSome(w: Worker)
    requires w.HasEntries()
    ensures w.req.numEntries > 0
  {}

  lemma StartsAt(n: Node, w: Worker, p: nat) returns (z: nat)
    requires BehindBatch(n, w, p)
    ensures z in n.logSlotMap && n.logSlotMap[z].start == p && w.next + w.req.numEntries == n.tailLogIndex
  {
    z :| z in n.logSlotMap && n.logSlotMap[z].start == p;
  }

  lemma IsBehind(n: Node, w: Worker, p: nat, z: nat)
    requires w.req.numEntries > 0 && w.next + w.req.numEntries == n.tailLogIndex
    requires w.next + w.req.numEntries - 1 in n.logSlotMap && z in n.logSlotMap && n.logSlotMap[z].start == p
    ensures BehindBatch(n, w, p)
  {}

  // ---------------------------------------------------------------- how the pointer moves

  /** The handler moves the write pointer exactly when it copies: behind the counted slots of the batch, or back to its
      start if the copy fails. */
  lemma PointerMoves(n: Node, req: AERequest, copyOk: bool)
    requires LogOk(n) && ClusterOk(n) && |req.metas| == req.numEntries
    ensures var n' := HandleAE(n, req, copyOk).0;
            && n'.ringSlots == n.ringSlots
            && (!Copies(n, req) ==> n'.tailSlot == n.tailSlot && n'.tailLogIndex == n.tailLogIndex)
            && (Copies(n, req) && !copyOk ==> n'.tailSlot == req.startSlot && n'.tailLogIndex == n.tailLogIndex)
            && (Copies(n, req) && copyOk ==>
                  && n'.tailSlot == SlotFor(req.metas, req.startSlot, n.ringSlots, req.numEntries)
                  && n'.tailLogIndex == req.prevLogIndex + 1 + req.numEntries)
            && (Copies(n, req) ==>
                  req.prevLogIndex < n.tailLogIndex && n.tailLogIndex < req.prevLogIndex + 1 + req.numEntries)
  {
    hide Accept;
    hide NeedsCopy;
    hide PrevConflict;
    var n1 := Heard(n, req.term);
    assert LogOk(n1) && ClusterOk(n1) && n1.tailLogIndex == n.tailLogIndex && n1.tailSlot == n.tailSlot
           && n1.ringSlots == n.ringSlots;
    if n1.role.Follower? && req.term >= n1.currentTerm && PrevConflict(n1, req).None? {
      PrevInLog(n1, req);
      AcceptPointer(n1, req, copyOk);
    }
  }

  lemma AcceptPointer(n: Node, req: AERequest, copyOk: bool)
    requires LogOk(n) && ClusterOk(n) && req.prevLogIndex < n.tailLogIndex && |req.metas| == req.numEntries
    ensures var n' := Accept(n, req, copyOk).0;
            && n'.ringSlots == n.ringSlots
            && (!NeedsCopy(n, req) ==> n'.tailSlot == n.tailSlot && n'.tailLogIndex == n.tailLogIndex)
            && (NeedsCopy(n, req) && !copyOk ==> n'.tailSlot == req.startSlot && n'.tailLogIndex == n.tailLogIndex)
            && (NeedsCopy(n, req) && copyOk ==>
                  && n'.tailSlot == SlotFor(req.metas, req.startSlot, n.ringSlots, req.numEntries)
                  && n'.tailLogIndex == req.prevLogIndex + 1 + req.numEntries)
            && (NeedsCopy(n, req) ==> n.tailLogIndex < req.prevLogIndex + 1 + req.numEntries)
  {
    hide NewDeferred;
    hide SlotFor;
  }

  /** What is known of requests to the follower, and that both rings have the same size. */
  ghost predicate ToldInv(s: Sys, f: nat) {
    && s.ld < |s.nodes| && f < |s.nodes| && s.nodes[f].ringSlots == Lead(s).ringSlots
    && forall msg :: msg in s.sent && msg.worker.HasEntries() ==> NotLonger(s.full, msg.worker)
  }

  /** Entries are announced with the length of their command, or none. */
  lemma SentNotLonger(s: Sys, fi: nat, wid: nat)
    requires Inv1(s) && Enabled(s, Send(fi, wid)) && SendAE(Lead(s), fi, s.cfg).Sent?
    ensures NotLonger(s.full, SendAE(Lead(s), fi, s.cfg).worker)
  {
    hide LeaderRing;
    hide Network;
    hide CommitsHeld;
    hide SendAE;
    SendFits(s, fi, wid);
    var n, w := Lead(s), SendAE(Lead(s), fi, s.cfg).worker;
    SendFacts(n, fi, s.cfg);
    assert PeerOk(s, fi);
    forall j | 0 <= j < w.req.numEntries ensures w.req.metas[j].cmdLen <= |s.full[w.next + j].command| {
      assert EntryAt(n, w.next + j) == Seen(s.full[w.next + j], w.next + j, s.c0, n.commitIndex, s.a0, n.lastApplied);
      assert w.req.metas[j] == MetaOf(EntryAt(n, w.next + j));
    }
  }

  lemma ToldStep(s: Sys, step: Step, f: nat)
    requires Inv1(s) && Enabled(s, step) && ToldInv(s, f) && f != s.ld
    ensures ToldInv(Do(s, step), f)
  {
    hide Inv1;
    hide Do;
    hide Enabled;
    hide SendAE;
    hide NotLonger;
    hide HandleAE;
    hide RingGoesOn;
    var s' := Do(s, step);
    RingChange(s, step);
    RingFrame(s, s');
    NewRequest(s, step);
    forall msg | msg in s'.sent && msg.worker.HasEntries() ensures NotLonger(s'.full, msg.worker) {
      if msg !in s.sent {
        assert step == Send(step.fi, step.wid);
        SentNotLonger(s, step.fi, step.wid);
      }
      NotLongerOn(s.full, s'.full, msg.worker);
    }
    if step.Deliver? && step.msg.worker.fi == f {
      FollowerOk(s, f);
      DeliveredNode(s, step.msg, step.copyOk, f);
      HandleRing(s.nodes[f], step.msg.worker.req, step.copyOk);
    } else {
      SameFollower(s, step, f);
    }
  }

  lemma NotLongerOn(full: seq<Entry>, full': seq<Entry>, w: Worker)
    requires NotLonger(full, w) && full <= full'
    ensures NotLonger(full', w)
  {}

  lemma {:induction false} ToldRunKeeps(run: seq<Sys>, steps: seq<Step>, m: seq<nat>, mf: seq<nat>, base: nat, f: nat,
                                        k: nat)
    requires FollowerRun(run, steps, m, mf, base, f) && k < |run|
    ensures ToldInv(run[k], f)
  {
    hide *;
    FollowerRunIs(run, steps, m, mf, base, f);
    RunShape(run, steps);
    if k == 0 {
      ToldStart(run, steps, m, mf, base, f);
    } else {
      ToldRunKeeps(run, steps, m, mf, base, f, k - 1);
      FirstRunKeepsInv(run, steps, k - 1);
      SlotsRunKeeps(run, steps, m, mf, base, f, k - 1);
      SlotsThere(run[k - 1], m, mf, base, f);
      FirstStep(run, steps, k - 1);
      ToldStep(run[k - 1], steps[k - 1], f);
    }
  }

  lemma FollowerRunIs(run: seq<Sys>, steps: seq<Step>, m: seq<nat>, mf: seq<nat>, base: nat, f: nat)
    requires FollowerRun(run, steps, m, mf, base, f)
    ensures IsFirstRun(run, steps) && |run| == |steps| + 1
  {
    hide IsFirstRun;
    hide Linear;
    RunShape(run, steps);
  }

  lemma ToldStart(run: seq<Sys>, steps: seq<Step>, m: seq<nat>, mf: seq<nat>, base: nat, f: nat)
    requires FollowerRun(run, steps, m, mf, base, f)
    ensures ToldInv(run[0], f)
  {
    hide Linear;
    FirstFields(run[0]);
  }

  // ---------------------------------------------------------------- along a run

  /** The last copy of follower `f` before state `k` is that of step `c`. */
  ghost predicate LastCopy(run: seq<Sys>, steps: seq<Step>, f: nat, c: nat, k: nat) {
    && c < k < |run| == |steps| + 1 && CopyStep(run[c], steps[c], f)
    && forall j :: c < j < k ==> !CopyStep(run[j], steps[j], f)
  }

  /** That copy has brought it the batch of `w`. */
  ghost predicate Received(run: seq<Sys>, steps: seq<Step>, f: nat, w: Worker, c: nat, k: nat) {
    && LastCopy(run, steps, f, c, k) && steps[c].Deliver? && steps[c].msg.worker == w && steps[c].copyOk
  }

  /** Write pointer and end of the log as a copy has left them. */
  ghost predicate PointsAfter(s: Sys, f: nat, w: Worker, copyOk: bool) {
    && s.ld < |s.nodes| && f < |s.nodes| && |w.req.metas| == w.req.numEntries
    && (exists wid :: Msg(wid, w) in s.sent)
    && var n := s.nodes[f];
       && w.HasEntries()
       && (if copyOk then
             && n.tailSlot == SlotFor(w.req.metas, w.req.startSlot, n.ringSlots, w.req.numEntries)
             && n.tailLogIndex == w.next + w.req.numEntries
           else n.tailSlot == w.req.startSlot && w.next <= n.tailLogIndex < w.next + w.req.numEntries)
  }

  lemma AfterCopy(s: Sys, step: Step, f: nat)
    requires Inv1(s) && Enabled(s, step) && CopyStep(s, step, f) && f != s.ld
    ensures step.Deliver? && PointsAfter(Do(s, step), f, step.msg.worker, step.copyOk)
  {
    hide Inv1;
    hide Enabled;
    hide Do;
    hide HandleAE;
    hide Copies;
    var msg, s' := step.msg, Do(s, step);
    DeliverRequest(s, msg, step.copyOk);
    DeliverSent(s, msg, step.copyOk);
    DeliveredNode(s, msg, step.copyOk, f);
    PointerMoves(s.nodes[f], msg.worker.req, step.copyOk);
    HandleRing(s.nodes[f], msg.worker.req, step.copyOk);
    assert msg == Msg(msg.wid, msg.worker);
  }

  lemma DeliverRequest(s: Sys, msg: Msg, copyOk: bool)
    requires Inv1(s) && Enabled(s, Deliver(msg, copyOk))
    ensures msg in s.sent && msg.worker.next == msg.worker.req.prevLogIndex + 1
    ensures |msg.worker.req.metas| == msg.worker.req.numEntries
  {
    hide LeaderRing;
    hide CommitsHeld;
    assert RequestOk(s, msg.worker);
  }

  lemma DeliverSent(s: Sys, msg: Msg, copyOk: bool)
    requires Enabled(s, Deliver(msg, copyOk))
    ensures Do(s, Deliver(msg, copyOk)).sent == s.sent && Do(s, Deliver(msg, copyOk)).ld == s.ld
  {
    hide HandleAE;
  }

  lemma StillPoints(s: Sys, step: Step, f: nat, w: Worker, copyOk: bool)
    requires Inv1(s) && Enabled(s, step) && !CopyStep(s, step, f) && f != s.ld && PointsAfter(s, f, w, copyOk)
    ensures PointsAfter(Do(s, step), f, w, copyOk)
  {
    hide Inv1;
    hide Enabled;
    hide Do;
    hide HandleAE;
    hide Copies;
    StepFrame(s, step);
    SentStays(s, step);
    FollowerOk(s, f);
    if step.Deliver? && step.msg.worker.fi == f {
      DeliverRequest(s, step.msg, step.copyOk);
      DeliveredNode(s, step.msg, step.copyOk, f);
      PointerMoves(s.nodes[f], step.msg.worker.req, step.copyOk);
    } else {
      SameFollower(s, step, f);
    }
  }

  lemma SentStays(s: Sys, step: Step)
    requires Enabled(s, step)
    ensures s.sent <= Do(s, step).sent
  {
    hide AppendCommands;
    hide SendAE;
    hide HandleAE;
    hide TakeReply;
    hide AdvanceCommit;
    hide ApplyPending;
    hide DoSlotGc;
  }

  lemma {:induction false} PointsRunKeeps(run: seq<Sys>, steps: seq<Step>, m: seq<nat>, mf: seq<nat>, base: nat, f: nat,
                                          c: nat, k: nat)
    requires FollowerRun(run, steps, m, mf, base, f) && LastCopy(run, steps, f, c, k)
    ensures steps[c].Deliver? && PointsAfter(run[k], f, steps[c].msg.worker, steps[c].copyOk)
    decreases k
  {
    hide *;
    FollowerRunIs(run, steps, m, mf, base, f);
    LastCopyParts(run, steps, f, c, k);
    FirstRunKeepsInv(run, steps, k - 1);
    SlotsRunKeeps(run, steps, m, mf, base, f, k - 1);
    SlotsThere(run[k - 1], m, mf, base, f);
    FirstStep(run, steps, k - 1);
    if c == k - 1 {
      AfterCopy(run[c], steps[c], f);
    } else {
      PointsRunKeeps(run, steps, m, mf, base, f, c, k - 1);
      StillPoints(run[k - 1], steps[k - 1], f, steps[c].msg.worker, steps[c].copyOk);
    }
  }

  lemma LastCopyParts(run: seq<Sys>, steps: seq<Step>, f: nat, c: nat, k: nat)
    requires LastCopy(run, steps, f, c, k)
    ensures c < k < |run| == |steps| + 1 && CopyStep(run[c], steps[c], f)
    ensures c < k - 1 ==> LastCopy(run, steps, f, c, k - 1) && !CopyStep(run[k - 1], steps[k - 1], f)
  {
    hide CopyStep;
  }

  // ---------------------------------------------------------------- the theorems

  lemma LaunchEnabled(run: seq<Sys>, steps: seq<Step>, j: nat, w: Worker)
    requires LaunchedAt(run, steps, j, w)
    ensures j < |steps| == |run| - 1 && Enabled(run[j], steps[j])
  {
    hide SendAE;
    hide Enabled;
  }

  lemma ExtentOf(s: Sys, m: seq<nat>, mf: seq<nat>, base: nat, f: nat)
    requires SlotsInv(s, m, mf, base, f)
    ensures s.ld < |s.nodes| && base > 0 && s.cfg.extents == OneExtent(base, Lead(s).ringSlots)
    ensures Inv1(s) && Lead(s).ringSlots > 0
  {
    hide Inv1;
    hide Linear;
    hide RequestSlots;
    InvParts(s);
  }

  lemma PointsTo(s: Sys, f: nat, w: Worker)
    requires PointsAfter(s, f, w, true) && ToldInv(s, f)
    ensures s.ld < |s.nodes| && f < |s.nodes| && |w.req.metas| == w.req.numEntries
    ensures s.nodes[f].tailLogIndex == w.next + w.req.numEntries
    ensures s.nodes[f].tailSlot == SlotFor(w.req.metas, w.req.startSlot, Lead(s).ringSlots, w.req.numEntries)
  {
    hide SlotFor;
    hide NotLonger;
  }

  /** Announced lengths that are the real ones count the real slots. */
  lemma FullCounts(full: seq<Entry>, w: Worker)
    requires w.next + w.req.numEntries <= |full| && |w.req.metas| == w.req.numEntries
    requires forall j :: 0 <= j < w.req.numEntries ==>
               w.req.metas[j] == EntryMeta(full[w.next + j].term, |full[w.next + j].command|)
    ensures Counts(w.req.metas) == SlotNeeds(full, w) && CountedSlots(w) == Sum(SlotNeeds(full, w), w.req.numEntries)
  {
    hide SlotsForEntry;
    assert Counts(w.req.metas) == SlotNeeds(full, w);
  }

  lemma SomeMetas(w: Worker)
    requires w.HasEntries() && |w.req.metas| == w.req.numEntries
    ensures w.req.metas != [] && w.req.numEntries > 0 && CountedSlots(w) == Sum(Counts(w.req.metas), |w.req.metas|)
  {}

  /** The entries of a batch that is sent are recorded. */
  lemma SentRecorded(s: Sys, step: Step, w: Worker)
    requires Inv1(s) && Enabled(s, step) && step.Send? && SendReady(Lead(s), step.fi)
    requires SendAE(Lead(s), step.fi, s.cfg).Sent? && SendAE(Lead(s), step.fi, s.cfg).worker == w && w.HasEntries()
    ensures s.ld < |s.nodes| && forall i :: w.next <= i < w.next + w.req.numEntries ==> i in Lead(s).logSlotMap
  {
    hide *;
    InvParts(s);
    assert step == Send(step.fi, step.wid);
    SendMember(s, step.fi, step.wid);
    SendMoves(s, step.fi, step.wid);
    SendFlight(s, step.fi, step.wid);
    SentInMemory(s, step.fi, w);
    forall i | w.next <= i < w.next + w.req.numEntries ensures i in Lead(s).logSlotMap {
      FlightInOnePiece(Lead(s), s.full, w, i - w.next);
    }
  }

  /** The leader has announced the batch before it applied any of it. */
  ghost predicate AnnouncedUnapplied(run: seq<Sys>, steps: seq<Step>, j: nat, w: Worker) {
    && LaunchedAt(run, steps, j, w) && w.HasEntries()
    && run[j].ld < |run[j].nodes| && w.next >= Lead(run[j]).lastApplied
  }

  lemma UnappliedParts(run: seq<Sys>, steps: seq<Step>, j: nat, w: Worker)
    requires AnnouncedUnapplied(run, steps, j, w)
    ensures LaunchedAt(run, steps, j, w) && w.HasEntries() && w.req.numEntries > 0 && j < |run|
    ensures run[j].ld < |run[j].nodes| && w.next >= Lead(run[j]).lastApplied
  {
    hide SendAE;
    hide Enabled;
  }

  lemma ReceivedParts(run: seq<Sys>, steps: seq<Step>, f: nat, w: Worker, c: nat, k: nat)
    requires Received(run, steps, f, w, c, k)
    ensures LastCopy(run, steps, f, c, k) && k < |run| == |steps| + 1
    ensures c < |steps| && steps[c].Deliver? && steps[c].msg.worker == w && steps[c].copyOk
  {
    hide CopyStep;
  }

  /** The follower's log ends with entry `last`, and its write pointer is right behind the leader's record of it, or at
      slot 0 if that ends where the ring does. */
  ghost predicate PointsBehind(ld: Node, last: nat, n: Node) {
    && last in ld.logSlotMap && ld.logSlotMap[last].End() <= ld.ringSlots && n.tailLogIndex == last + 1
    && n.tailSlot == if ld.logSlotMap[last].End() == ld.ringSlots then 0 else ld.logSlotMap[last].End()
  }

  lemma IsBehindRecord(ld: Node, last: nat, n: Node, end: nat)
    requires last in ld.logSlotMap && ld.logSlotMap[last].End() == end <= ld.ringSlots && n.tailLogIndex == last + 1
    requires n.tailSlot == Around(end, ld.ringSlots)
    ensures PointsBehind(ld, last, n)
  {}

  /** Where the write pointer is once a follower has received a batch that was announced before the leader applied it,
      and from then on until its next copy. */
  lemma PointerBehindBatch(run: seq<Sys>, steps: seq<Step>, m: seq<nat>, mf: seq<nat>, base: nat, f: nat, j: nat,
                           w: Worker, c: nat, k: nat)
    requires FollowerRun(run, steps, m, mf, base, f) && Received(run, steps, f, w, c, k)
    requires AnnouncedUnapplied(run, steps, j, w)
    ensures j < |run| && run[j].ld < |run[j].nodes| && k < |run| && f < |run[k].nodes| && w.req.numEntries > 0
    ensures PointsBehind(Lead(run[j]), w.next + w.req.numEntries - 1, run[k].nodes[f])
  {
    hide *;
    FollowerRunIs(run, steps, m, mf, base, f);
    UnappliedParts(run, steps, j, w);
    LaunchParts(run, steps, j, w);
    LaunchEnabled(run, steps, j, w);
    ReceivedParts(run, steps, f, w, c, k);
    LastCopyParts(run, steps, f, c, k);
    FirstRunKeepsInv(run, steps, j);
    var s := run[j];
    InvParts(s);
    SlotsRunKeeps(run, steps, m, mf, base, f, j);
    ExtentOf(s, m, mf, base, f);
    SentSlots(s, steps[j], base);
    AnnouncedInFullLength(s, steps[j].fi, steps[j].wid);
    PointsRunKeeps(run, steps, m, mf, base, f, c, k);
    ToldRunKeeps(run, steps, m, mf, base, f, k);
    SlotsRunKeeps(run, steps, m, mf, base, f, k);
    SlotsThere(run[k], m, mf, base, f);
    SlotsThere(s, m, mf, base, f);
    PointsTo(run[k], f, w);
    FullCounts(s.full, w);
    SomeMetas(w);
    BatchSize(Lead(s), s.full, w, base);
    CountsLeadBehind(w.req.metas, w.req.startSlot, Lead(s).ringSlots);
    SentRecorded(s, steps[j], w);
    BatchRecord(Lead(s), s.full, w, base, w.req.numEntries - 1);
    IsBehindRecord(Lead(s), w.next + w.req.numEntries - 1, run[k].nodes[f], w.req.startSlot + w.req.blockLength);
  }

  lemma NoopAt(n: Node)
    requires n.tailSlot < n.ringSlots
    ensures Noop(n) == SlotRecord(n.tailSlot, 1)
  {}

  lemma HitsIs(s: Sys, f: nat)
    requires s.ld < |s.nodes| && f < |s.nodes| && s.nodes[f].tailSlot < s.nodes[f].ringSlots
    ensures NoopHits(s, f) <==> Hit(Lead(s), s.nodes[f].tailLogIndex, s.nodes[f].tailSlot)
  {
    NoopAt(s.nodes[f]);
    hide Noop;
    var m, n := Lead(s).logSlotMap, s.nodes[f];
    assert forall i :: i in m ==> (!Apart(m[i], SlotRecord(n.tailSlot, 1)) <==> Covers(m, i, n.tailSlot));
  }

  /** What a copy leaves behind, in slots. */
  lemma PointsWhere(s: Sys, f: nat, w: Worker, copyOk: bool, m: seq<nat>, mf: seq<nat>, base: nat)
    requires SlotsInv(s, m, mf, base, f) && ToldInv(s, f) && PointsAfter(s, f, w, copyOk)
    ensures s.ld < |s.nodes| && f < |s.nodes| && s.nodes[f].ringSlots == Lead(s).ringSlots
    ensures RequestSlots(Lead(s), s.full, w, base) && NotLonger(s.full, w) && w.HasEntries()
    ensures if copyOk then
              && s.nodes[f].tailLogIndex == w.next + w.req.numEntries
              && s.nodes[f].tailSlot == SlotFor(w.req.metas, w.req.startSlot, Lead(s).ringSlots, w.req.numEntries)
            else
              && s.nodes[f].tailSlot == w.req.startSlot
              && w.next <= s.nodes[f].tailLogIndex < w.next + w.req.numEntries
  {
    hide Inv1;
    hide Linear;
    hide RequestSlots;
    hide NotLonger;
    hide SlotFor;
  }

  lemma LeaderOf(s: Sys)
    requires Inv1(s)
    ensures s.ld < |s.nodes| && LeaderRing(Lead(s), s.full) && Lead(s).tailLogIndex == |s.full|
  {
    InvParts(s);
    hide Inv1;
  }

  /** When the no-op of a promotion would be written over an uncollected entry of the follower's log, in any state of a
      run: exactly in these cases after the follower's last copy. */
  lemma NoopHitsIff(run: seq<Sys>, steps: seq<Step>, m: seq<nat>, mf: seq<nat>, base: nat, f: nat, c: nat, k: nat)
    requires FollowerRun(run, steps, m, mf, base, f) && LastCopy(run, steps, f, c, k)
    ensures steps[c].Deliver? && run[k].ld < |run[k].nodes| && f < |run[k].nodes|
    ensures var w := steps[c].msg.worker;
            && w.next + w.req.numEntries <= |run[k].full|
            && (NoopHits(run[k], f) <==>
                  if steps[c].copyOk then CountedOnto(Lead(run[k]), run[k].full, w)
                  else FailedOnHeld(Lead(run[k]), w, run[k].nodes[f].tailLogIndex))
  {
    hide *;
    FollowerRunIs(run, steps, m, mf, base, f);
    LastCopyParts(run, steps, f, c, k);
    PointsRunKeeps(run, steps, m, mf, base, f, c, k);
    ToldRunKeeps(run, steps, m, mf, base, f, k);
    SlotsRunKeeps(run, steps, m, mf, base, f, k);
    var s, w := run[k], steps[c].msg.worker;
    ExtentOf(s, m, mf, base, f);
    LeaderOf(s);
    PointsWhere(s, f, w, steps[c].copyOk, m, mf, base);
    PointerInRing(Lead(s), s.full, w, base);
    HitsIs(s, f);
    if steps[c].copyOk {
      CountedHitsIff(Lead(s), s.full, w, base);
    } else {
      FailedHitsIff(Lead(s), s.full, w, base, s.nodes[f].tailLogIndex);
    }
  }

  /** Both places where the pointer can be are in the ring. */
  lemma PointerInRing(n: Node, full: seq<Entry>, w: Worker, base: nat)
    requires RequestSlots(n, full, w, base) && NotLonger(full, w) && w.HasEntries()
    ensures |w.req.metas| == w.req.numEntries && w.next + w.req.numEntries <= |full|
    ensures w.req.startSlot < n.ringSlots
    ensures SlotFor(w.req.metas, w.req.startSlot, n.ringSlots, w.req.numEntries)
         == Around(w.req.startSlot + CountedSlots(w), n.ringSlots) < n.ringSlots
  {
    hide *;
    BatchSize(n, full, w, base);
    CountedBelow(full, w);
    MetasOf(full, w);
    SomeMetas(w);
    CountsLeadBehind(w.req.metas, w.req.startSlot, n.ringSlots);
    AroundInRing(w.req.startSlot + CountedSlots(w), n.ringSlots);
  }

  lemma MetasOf(full: seq<Entry>, w: Worker)
    requires NotLonger(full, w)
    ensures |w.req.metas| == w.req.numEntries
  {}

  lemma AroundInRing(e: nat, ringSlots: nat)
    requires ringSlots > 0
    ensures Around(e, ringSlots) < ringSlots
  {}

  /** So behind a batch that was announced before it was applied, the no-op hits nothing until the ring is full: as long
      as the follower has not made another copy, exactly a leader with nothing newer and a record that starts at the
      pointer is in the way. */
  lemma NoopBehindBatchHitsIff(run: seq<Sys>, steps: seq<Step>, m: seq<nat>, mf: seq<nat>, base: nat, f: nat, j: nat,
                               w: Worker, c: nat, k: nat)
    requires FollowerRun(run, steps, m, mf, base, f) && Received(run, steps, f, w, c, k)
    requires AnnouncedUnapplied(run, steps, j, w) && j <= k
    ensures k < |run| && run[k].ld < |run[k].nodes| && f < |run[k].nodes|
    ensures NoopHits(run[k], f) <==> BehindBatch(Lead(run[k]), w, run[k].nodes[f].tailSlot)
  {
    hide *;
    FollowerRunIs(run, steps, m, mf, base, f);
    UnappliedParts(run, steps, j, w);
    LaunchParts(run, steps, j, w);
    LaunchEnabled(run, steps, j, w);
    ReceivedParts(run, steps, f, w, c, k);
    LastCopyParts(run, steps, f, c, k);
    FirstRunKeepsInv(run, steps, j);
    AnnouncedInFullLength(run[j], steps[j].fi, steps[j].wid);
    RingRunGoesOn(run, steps, j, k);
    RingFrame(run[j], run[k]);
    FullCounts(run[k].full, w);
    NoopHitsIff(run, steps, m, mf, base, f, c, k);
    OntoIs(Lead(run[k]), run[k].full, w);
    EndsWhere(Lead(run[k]), w, SlotNeeds(run[k].full, w), CountedSlots(w));
    ToldRunKeeps(run, steps, m, mf, base, f, k);
    PointsRunKeeps(run, steps, m, mf, base, f, c, k);
    SlotsRunKeeps(run, steps, m, mf, base, f, k);
    PointsWhere(run[k], f, w, true, m, mf, base);
    PointerInRing(Lead(run[k]), run[k].full, w, base);
  }

  /** A follower that has not copied anything has no entry to lose. */
  lemma {:induction false} NothingToHit(run: seq<Sys>, steps: seq<Step>, m: seq<nat>, mf: seq<nat>, base: nat, f: nat,
                                        k: nat)
    requires FollowerRun(run, steps, m, mf, base, f) && k < |run| == |steps| + 1
    requires forall j :: 0 <= j < k ==> !CopyStep(run[j], steps[j], f)
    ensures f < |run[k].nodes| && run[k].nodes[f].tailLogIndex == 1 && !NoopHits(run[k], f)
  {
    hide *;
    FollowerRunIs(run, steps, m, mf, base, f);
    SlotsRunKeeps(run, steps, m, mf, base, f, k);
    SlotsThere(run[k], m, mf, base, f);
    FirstRunKeepsInv(run, steps, k);
    if k == 0 {
      EmptyLog(run, steps, m, mf, base, f);
    } else {
      NothingToHit(run, steps, m, mf, base, f, k - 1);
      SlotsRunKeeps(run, steps, m, mf, base, f, k - 1);
      SlotsThere(run[k - 1], m, mf, base, f);
      FirstRunKeepsInv(run, steps, k - 1);
      FirstStep(run, steps, k - 1);
      TailStays(run[k - 1], steps[k - 1], f);
    }
    LeaderOf(run[k]);
    NoneBelowOne(run[k], f);
  }

  lemma EmptyLog(run: seq<Sys>, steps: seq<Step>, m: seq<nat>, mf: seq<nat>, base: nat, f: nat)
    requires FollowerRun(run, steps, m, mf, base, f)
    ensures |run| > 0 && f < |run[0].nodes| && run[0].nodes[f].tailLogIndex == 1
  {
    RunShape(run, steps);
    hide IsFirstRun;
    hide Linear;
  }

  lemma NoneBelowOne(s: Sys, f: nat)
    requires s.ld < |s.nodes| && LeaderRing(Lead(s), s.full) && f < |s.nodes| && s.nodes[f].tailLogIndex == 1
    ensures !NoopHits(s, f)
  {
    hide RingOk;
    hide Chained;
  }

  lemma TailStays(s: Sys, step: Step, f: nat)
    requires Inv1(s) && Enabled(s, step) && !CopyStep(s, step, f) && FollowerThere(s, f) && f != s.ld
    ensures f < |Do(s, step).nodes| && Do(s, step).nodes[f].tailLogIndex == s.nodes[f].tailLogIndex
  {
    hide Inv1;
    hide Enabled;
    hide Do;
    hide HandleAE;
    hide Copies;
    if step.Deliver? && step.msg.worker.fi == f {
      DeliverRequest(s, step.msg, step.copyOk);
      DeliveredNode(s, step.msg, step.copyOk, f);
      PointerMoves(s.nodes[f], step.msg.worker.req, step.copyOk);
    } else {
      SameFollower(s, step, f);
    }
  }

  // ---------------------------------------------------------------- the no-op itself

  /** A promotion records its no-op there. */
  lemma NoopPlaced(n: Node, read: Reader)
    requires LogOk(n) && ClusterOk(n) && Elected(n)
    ensures var n' := BecomeLeader(n, read);
            && n.tailLogIndex in n'.logSlotMap && n'.logSlotMap[n.tailLogIndex] == Noop(n)
  {
    hide BecomeLeader;
    CatchUpLimits.PromotedMap(n, read);
  }

  /** Once the no-op has been written, an entry that the device held is still there exactly if the no-op does not lie on
      it, or looks the same as what it replaces. */
  lemma NoopKeepsEntryIff(live: LogSlotMap, full: seq<Entry>, fd: Device, mf: seq<nat>, i: nat, p: nat, noop: Record)
    requires mf != [] && SlotsOn(mf, |fd|) && i in live && HeldAt(live, full, fd, mf, i) && p < |mf|
    requires i < |full| && live[i].numSlots == SlotsForEntry(|full[i].command|) && noop.command == []
    ensures |Encode(noop)| == 512 && |DataOf(full, i)| == 512 * live[i].numSlots
    ensures var fd' := WriteSlots(fd, mf, p, Encode(noop));
            HeldAt(live, full, fd', mf, i) <==>
              Apart(live[i], SlotRecord(p, 1)) || Block(DataOf(full, i), p - live[i].start) == Encode(noop)
  {
    EncodedSize(noop);
    EncodedSize(Record(full[i].term, full[i].command, i));
    WriteBlock(fd, mf, p, Encode(noop));
    hide SlotsOn;
    hide Encode;
    hide SlotsForEntry;
    hide SlotBytes;
    hide WriteSlots;
    OverwrittenIff(fd, WriteSlots(fd, mf, p, Encode(noop)), mf, live[i].start, DataOf(full, i), p, Encode(noop));
  }

  lemma EncodedSize(r: Record)
    ensures |Encode(r)| == 512 * SlotsForEntry(|r.command|)
    ensures r.command == [] ==> |Encode(r)| == 512
  {}

  /** One slot of the device gets other contents. */
  lemma OverwrittenIff(fd: Device, fd': Device, mf: seq<nat>, start: nat, data: seq<Byte>, p: nat, block: seq<Byte>)
    requires mf != [] && SlotsOn(mf, |fd|) && |fd'| == |fd| && p < |mf| && |block| == 512
    requires Holds(fd, mf, start, data) && |data| % 512 == 0 && start + |data| / 512 <= |mf|
    requires Holds(fd', mf, p, block)
    requires forall t :: 0 <= t < |mf| && !(p <= t < p + 1) ==> SlotBytes(fd', mf, t) == SlotBytes(fd, mf, t)
    ensures Holds(fd', mf, start, data) <==> !(start <= p < start + |data| / 512) || Block(data, p - start) == block
  {
    ModSmall(p, |mf|);
    assert SlotBytes(fd', mf, (p + 0) % |mf|) == Block(block, 0) == block;
    forall j | 0 <= j < |data| / 512
      ensures SlotBytes(fd', mf, (start + j) % |mf|) == if start + j == p then block else Block(data, j)
    {
      ModSmall(start + j, |mf|);
      assert SlotBytes(fd, mf, (start + j) % |mf|) == Block(data, j);
    }
    if start <= p < start + |data| / 512 {
      assert SlotBytes(fd', mf, (start + (p - start)) % |mf|) == block;
    }
  }
}
