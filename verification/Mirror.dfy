/** A follower's device along a run of a first leader: what an entry decodes to later, after further copies, page
    rounding and the leader's appends and collections. */
module Mirror {
  import opened Basics
  import opened Extents
  import opened EntryCodec
  import opened Ring
  import opened Types
  import opened Batch
  import opened Progress
  import opened Commit
  import opened Election
  import opened Follower
  import opened Replication
  import opened ReplicationRuns
  import opened FirstLeader
  import opened Chunks
  import opened EndToEnd
  import opened DataPath
  import RingRuns
  import BlockCopy

  // ---------------------------------------------------------------- one copy

  /** The bytes of a sector, each as one of the states of a device has it. */
  ghost predicate SectorSeen(srcs: seq<Device>, a: nat, bytes: seq<Byte>)
    requires |bytes| == 512
  {
    forall i :: 0 <= i < 512 ==> BlockCopy.SeenAt(srcs, a + i, bytes[i])
  }

  /** Slot `t` of the follower after a copy that read the states `srcs` of the leader's device: inside the rounded
      window it has the leader's sector at the same distance behind the announced address, unless the copy failed
      before it got there; outside it is unchanged. A sector is written as a whole or not at all. */
  ghost predicate SlotLands(srcs: seq<Device>, fd: Device, fd': Device, mf: seq<nat>, req: AERequest, copyOk: bool,
                            t: nat)
    requires t < |mf| && req.startSlot < |mf| && SlotsOn(mf, |fd|) && |fd'| == |fd|
  {
    var q := Behind(t, req.startSlot, |mf|);
    || (SlotBytes(fd', mf, t) == SlotBytes(fd, mf, t) && (!copyOk || q >= RoundedSectors(req.blockLength)))
    || (SectorSeen(srcs, req.pbaSrc + 512 * q, SlotBytes(fd', mf, t)) && q < RoundedSectors(req.blockLength))
  }

  ghost predicate CopyLands(srcs: seq<Device>, fd: Device, fd': Device, mf: seq<nat>, req: AERequest, copyOk: bool) {
    && req.startSlot < |mf| && SlotsOn(mf, |fd|) && |fd'| == |fd| && RoundedSectors(req.blockLength) <= |mf|
    && forall t :: 0 <= t < |mf| ==> SlotLands(srcs, fd, fd', mf, req, copyOk, t)
  }

  /** An error-free striped copy of the requested range lands in this sense. */
  lemma ReplicatedLands(srcs: seq<Device>, fd: Device, fd': Device, es: seq<Extent>, ringSlots: nat, req: AERequest,
                        chunks: seq<Chunk>, cuts: seq<nat>, run: seq<BlockCopy.CopyState>, w: nat)
    requires Replicated(srcs, fd, fd', es, ringSlots, req.pbaSrc, req.startSlot, req.blockLength, chunks, cuts, run, w)
    requires req.startSlot < ringSlots
    ensures Mounted(fd', es, ringSlots) && CopyLands(srcs, fd, fd', SlotMap(es, ringSlots), req, true)
  {
    hide *;
    ReplicatedParts(srcs, fd, fd', es, ringSlots, req.pbaSrc, req.startSlot, req.blockLength, chunks, cuts, run, w);
    MountedSlots(fd, es, ringSlots);
    var mf := SlotMap(es, ringSlots);
    CopyEffect(srcs, fd, fd', es, ringSlots, req.pbaSrc, req.startSlot, req.blockLength, chunks, cuts, run, w,
               req.startSlot);
    forall t | 0 <= t < ringSlots ensures SlotLands(srcs, fd, fd', mf, req, true, t) {
      CopyEffect(srcs, fd, fd', es, ringSlots, req.pbaSrc, req.startSlot, req.blockLength, chunks, cuts, run, w, t);
      BehindIs(t, req.startSlot, ringSlots);
      Lands(srcs, fd, fd', mf, req, t);
    }
    IsCopyLands(srcs, fd, fd', mf, req, true);
  }

  lemma IsCopyLands(srcs: seq<Device>, fd: Device, fd': Device, mf: seq<nat>, req: AERequest, copyOk: bool)
    requires req.startSlot < |mf| && SlotsOn(mf, |fd|) && |fd'| == |fd| && RoundedSectors(req.blockLength) <= |mf|
    requires forall t :: 0 <= t < |mf| ==> SlotLands(srcs, fd, fd', mf, req, copyOk, t)
    ensures CopyLands(srcs, fd, fd', mf, req, copyOk)
  {}

  lemma Lands(srcs: seq<Device>, fd: Device, fd': Device, mf: seq<nat>, req: AERequest, t: nat)
    requires t < |mf| && req.startSlot < |mf| && SlotsOn(mf, |fd|) && |fd'| == |fd|
    requires var q := Behind(t, req.startSlot, |mf|);
             if q < RoundedSectors(req.blockLength) then Arrived(srcs, req.pbaSrc, fd', mf, req.startSlot, q)
             else SlotBytes(fd', mf, t) == SlotBytes(fd, mf, t)
    requires SlotAt(req.startSlot, Behind(t, req.startSlot, |mf|), |mf|) == t
    ensures SlotLands(srcs, fd, fd', mf, req, true, t)
  {
    hide SlotAt;
    hide RoundedSectors;
  }

  // ---------------------------------------------------------------- an entry on a device

  /** The device holds the entry at index `i` where the leader's slot map has it. */
  ghost predicate HeldAt(live: LogSlotMap, full: seq<Entry>, fd: Device, mf: seq<nat>, i: nat)
    requires mf != [] && SlotsOn(mf, |fd|) && i in live
  {
    && i < |full|
    && live[i].End() <= |mf|
    && Holds(fd, mf, live[i].start, Encode(Record(full[i].term, full[i].command, i)))
  }

  /** It does if the entry is uncollected and the log of the device's owner reaches it. */
  ghost predicate Held(live: LogSlotMap, full: seq<Entry>, tail: nat, fd: Device, mf: seq<nat>, i: nat) {
    mf != [] && SlotsOn(mf, |fd|) && (i in live && i < tail ==> HeldAt(live, full, fd, mf, i))
  }

  /** Where the leader's ring lies, and what a request for a batch says about it: address and slots of its entries, as
      far as they are not collected. */
  ghost predicate RequestSlots(n: Node, full: seq<Entry>, w: Worker, base: nat) {
    && w.next + w.req.numEntries <= |full| && w.req.pbaSrc == base + SlotOffset(w.req.startSlot)
    && w.req.startSlot + w.req.blockLength <= n.ringSlots
    && var needs := RingRuns.RecordNeeds(BatchOf(full, w));
       && w.req.blockLength == Sum(needs, w.req.numEntries)
       && forall j {:trigger SlotOf(n, full, w, j)} :: 0 <= j < w.req.numEntries && w.next + j in n.logSlotMap ==>
         SlotOf(n, full, w, j)
  }

  /** The entries a request stands for, as records. */
  ghost function BatchOf(full: seq<Entry>, w: Worker): (r: seq<Record>)
    requires w.next + w.req.numEntries <= |full|
    ensures |r| == w.req.numEntries == |RingRuns.RecordNeeds(r)|
    ensures forall j :: 0 <= j < |r| ==> r[j] == Record(full[w.next + j].term, full[w.next + j].command, w.next + j)
  {
    hide SlotsForEntry;
    Records(full)[w.next..w.next + w.req.numEntries]
  }

  ghost predicate SlotOf(n: Node, full: seq<Entry>, w: Worker, j: nat)
    requires w.next + w.req.numEntries <= |full| && j < w.req.numEntries && w.next + j in n.logSlotMap
  {
    n.logSlotMap[w.next + j].start == w.req.startSlot + Sum(RingRuns.RecordNeeds(BatchOf(full, w)), j)
  }

  lemma RequestSlotsOn(n: Node, n': Node, full: seq<Entry>, full': seq<Entry>, w: Worker, base: nat)
    requires RequestSlots(n, full, w, base) && full <= full' && n'.ringSlots == n.ringSlots
    requires forall i :: i in n'.logSlotMap && i < |full| ==> i in n.logSlotMap && n'.logSlotMap[i] == n.logSlotMap[i]
    ensures RequestSlots(n', full', w, base)
  {
    hide Sum;
    assert BatchOf(full', w) == BatchOf(full, w);
    forall j | 0 <= j < w.req.numEntries && w.next + j in n'.logSlotMap ensures SlotOf(n', full', w, j) {
      assert SlotOf(n, full, w, j);
    }
  }

  /** A batch in flight says so about its slots. */
  lemma FlightSlots(n: Node, full: seq<Entry>, w: Worker, base: nat)
    requires LogOk(n) && LeaderRing(n, full) && FlightOk(n, w) && w.HasEntries() && n.tailLogIndex == |full|
    requires Oldest(n) <= w.next && n.gcUpTo < w.next && w.req.pbaSrc == base + SlotOffset(w.req.startSlot)
    ensures RequestSlots(n, full, w, base)
  {
    hide *;
    FlightInside(n, full, w);
    var recs := BatchOf(full, w);
    forall j | 0 <= j < |recs| ensures HasSlots(n.logSlotMap, w.next, recs, j) {
      FlightInOnePiece(n, full, w, j);
      FlightRecordFits(n, full, w, j, recs);
    }
    FlightInOnePiece(n, full, w, 0);
    SpanIsNeeds(n.logSlotMap, w.next, recs, w.req.numEntries);
    forall j | 0 <= j < w.req.numEntries && w.next + j in n.logSlotMap ensures SlotOf(n, full, w, j) {
      FlightInOnePiece(n, full, w, j);
      SpanIsNeeds(n.logSlotMap, w.next, recs, j);
      IsSlotOf(n, full, w, j);
    }
    IsRequestSlots(n, full, w, base);
  }

  lemma IsSlotOf(n: Node, full: seq<Entry>, w: Worker, j: nat)
    requires w.next + w.req.numEntries <= |full| && j < w.req.numEntries && w.next + j in n.logSlotMap
    requires n.logSlotMap[w.next + j].start == w.req.startSlot + Sum(RingRuns.RecordNeeds(BatchOf(full, w)), j)
    ensures SlotOf(n, full, w, j)
  {}

  lemma IsRequestSlots(n: Node, full: seq<Entry>, w: Worker, base: nat)
    requires w.next + w.req.numEntries <= |full| && w.req.pbaSrc == base + SlotOffset(w.req.startSlot)
    requires w.req.startSlot + w.req.blockLength <= n.ringSlots
    requires w.req.blockLength == Sum(RingRuns.RecordNeeds(BatchOf(full, w)), w.req.numEntries)
    requires forall j {:trigger SlotOf(n, full, w, j)} :: 0 <= j < w.req.numEntries && w.next + j in n.logSlotMap ==>
               SlotOf(n, full, w, j)
    ensures RequestSlots(n, full, w, base)
  {
    hide Sum;
    hide SlotOf;
  }

  // ---------------------------------------------------------------- a copy keeps an entry

  /** Slots at the ring start that a copy reaches by going round: they get sectors from behind the leader's ring. */
  function SpillEnd(req: AERequest, ringSlots: nat): nat {
    if req.startSlot + RoundedSectors(req.blockLength) <= ringSlots then 0
    else req.startSlot + RoundedSectors(req.blockLength) - ringSlots
  }

  /** The leader's slots lie one behind the other from `base` on. */
  ghost predicate Linear(m: seq<nat>, base: nat) {
    forall t :: 0 <= t < |m| ==> m[t] == base + SlotOffset(t)
  }

  /** All states that were read have the record. */
  ghost predicate AllHold(srcs: seq<Device>, m: seq<nat>, start: nat, data: seq<Byte>) {
    m != [] && forall d :: 0 <= d < |srcs| ==> SlotsOn(m, |srcs[d]|) && Holds(srcs[d], m, start, data)
  }

  lemma SeenIs(srcs: seq<Device>, m: seq<nat>, start: nat, data: seq<Byte>, j: nat, bytes: seq<Byte>)
    requires AllHold(srcs, m, start, data) && j < |data| / 512 && start + j < |m| && |bytes| == 512
    requires SectorSeen(srcs, m[start + j], bytes)
    ensures bytes == Block(data, j)
  {
    hide SlotsApart;
    ModSmall(start + j, |m|);
    forall i | 0 <= i < 512 ensures bytes[i] == Block(data, j)[i] {
      assert BlockCopy.SeenAt(srcs, m[start + j] + i, bytes[i]);
      var d :| 0 <= d < |srcs| && m[start + j] + i < |srcs[d]| && srcs[d][m[start + j] + i] == bytes[i];
      assert SlotOk(m, start + j, |srcs[d]|);
      assert SlotBytes(srcs[d], m, (start + j) % |m|) == Block(data, j);
    }
  }

  /** One slot of a record after a copy that does not spill onto it. */
  lemma SlotKept(srcs: seq<Device>, m: seq<nat>, base: nat, fd: Device, fd': Device, mf: seq<nat>, req: AERequest,
                 copyOk: bool, start: nat, data: seq<Byte>, j: nat)
    requires m != [] && |m| == |mf| && Linear(m, base) && req.pbaSrc == base + SlotOffset(req.startSlot)
    requires CopyLands(srcs, fd, fd', mf, req, copyOk) && j < |data| / 512 && start + |data| / 512 <= |m|
    requires AllHold(srcs, m, start, data) && SpillEnd(req, |m|) <= start + j
    requires Holds(fd, mf, start, data) ||
             (copyOk && req.startSlot <= start + j < req.startSlot + RoundedSectors(req.blockLength))
    ensures SlotsOn(mf, |fd'|) && SlotBytes(fd', mf, (start + j) % |mf|) == Block(data, j)
  {
    hide RoundedSectors;
    hide SectorSeen;
    hide AllHold;
    var t := start + j;
    ModSmall(t, |m|);
    assert SlotLands(srcs, fd, fd', mf, req, copyOk, t);
    assert SlotOk(mf, t, |fd'|);
    if Holds(fd, mf, start, data) {
      assert SlotBytes(fd, mf, (start + j) % |mf|) == Block(data, j);
    }
    if t >= req.startSlot && SectorSeen(srcs, req.pbaSrc + 512 * (t - req.startSlot), SlotBytes(fd', mf, t)) {
      assert req.pbaSrc + 512 * Behind(t, req.startSlot, |mf|) == m[t];
      SeenIs(srcs, m, start, data, j, SlotBytes(fd', mf, t));
    }
  }

  lemma RecordKept(srcs: seq<Device>, m: seq<nat>, base: nat, fd: Device, fd': Device, mf: seq<nat>, req: AERequest,
                   copyOk: bool, start: nat, data: seq<Byte>)
    requires m != [] && |m| == |mf| && Linear(m, base) && req.pbaSrc == base + SlotOffset(req.startSlot)
    requires CopyLands(srcs, fd, fd', mf, req, copyOk) && start + |data| / 512 <= |m|
    requires AllHold(srcs, m, start, data) && SpillEnd(req, |m|) <= start
    requires Holds(fd, mf, start, data) ||
             (copyOk && req.startSlot <= start
              && start + |data| / 512 <= req.startSlot + RoundedSectors(req.blockLength))
    ensures SlotsOn(mf, |fd'|) && Holds(fd', mf, start, data)
  {
    hide AllHold;
    assert SlotsOn(mf, |fd'|);
    forall j | 0 <= j < |data| / 512 ensures SlotBytes(fd', mf, (start + j) % |mf|) == Block(data, j) {
      SlotKept(srcs, m, base, fd, fd', mf, req, copyOk, start, data, j);
    }
  }

  /** The leader's device holds an uncollected entry. */
  lemma LeaderHeld(n: Node, full: seq<Entry>, dev: Device, m: seq<nat>, i: nat)
    requires RingRuns.Inv(RingOf(n, full, dev), m) && i in n.logSlotMap
    ensures m != [] && SlotsOn(m, |dev|) && HeldAt(n.logSlotMap, full, dev, m, i)
    ensures n.logSlotMap[i].numSlots == SlotsForEntry(|full[i].command|)
  {
    hide Holds;
    hide SlotsOn;
    var r := RingOf(n, full, dev);
    assert RingRuns.LiveOk(r, m, i) && RecordOk(r.live[i], r.tail, r.head, |m|);
  }

  /** The entry at index `i`, as it is encoded. */
  ghost function DataOf(full: seq<Entry>, i: nat): seq<Byte>
    requires i < |full|
  {
    Encode(Record(full[i].term, full[i].command, i))
  }

  /** Where an entry lies that the follower has or that the batch brings it, seen from the request. */
  lemma EntryPlace(n: Node, full: seq<Entry>, m: seq<nat>, base: nat, fd: Device, mf: seq<nat>, w: Worker, tail: nat,
                   i: nat)
    requires i in n.logSlotMap && i < |full| && n.logSlotMap[i].numSlots == SlotsForEntry(|full[i].command|)
    requires n.logSlotMap[i].End() <= |mf| && RequestSlots(n, full, w, base)
    requires Held(n.logSlotMap, full, tail, fd, mf, i) && w.next <= tail
    requires i < Max(tail, w.next + w.req.numEntries)
    ensures var start, data := n.logSlotMap[i].start, DataOf(full, i);
            && start + |data| / 512 <= |mf|
            && (i < tail ==> Holds(fd, mf, start, data))
            && (i >= tail ==> w.req.startSlot <= start &&
                              start + |data| / 512 <= w.req.startSlot + RoundedSectors(w.req.blockLength))
  {
    hide Holds;
    hide SlotsOn;
    hide Sum;
    hide RoundedSectors;
    hide SlotsForEntry;
    var rec := Record(full[i].term, full[i].command, i);
    assert |Encode(rec)| == rec.Slots() * 512;
    hide Encode;
    if i >= tail {
      var j := i - w.next;
      assert SlotOf(n, full, w, j) && BatchOf(full, w)[j] == rec;
      SumBounds(BatchOf(full, w), j);
    }
  }

  /** A copy keeps an entry it does not spill onto, and brings those of the batch if it works. */
  lemma CopyHolds(n: Node, full: seq<Entry>, srcs: seq<Device>, m: seq<nat>, base: nat, fd: Device, fd': Device,
                  mf: seq<nat>, w: Worker, copyOk: bool, tail: nat, tail': nat, i: nat)
    requires i in n.logSlotMap && i < |full| && n.logSlotMap[i].numSlots == SlotsForEntry(|full[i].command|)
    requires n.logSlotMap[i].End() <= |mf| && AllHold(srcs, m, n.logSlotMap[i].start, DataOf(full, i))
    requires |m| == |mf| && Linear(m, base) && Held(n.logSlotMap, full, tail, fd, mf, i)
    requires RequestSlots(n, full, w, base) && CopyLands(srcs, fd, fd', mf, w.req, copyOk)
    requires SpillEnd(w.req, |mf|) <= n.logSlotMap[i].start && w.next <= tail
    requires tail' == tail || (copyOk && tail' == Max(tail, w.next + w.req.numEntries))
    requires i < tail'
    ensures Held(n.logSlotMap, full, tail', fd', mf, i)
  {
    hide Holds;
    hide AllHold;
    hide CopyLands;
    hide SlotsOn;
    hide SpillEnd;
    hide RequestSlots;
    hide RoundedSectors;
    hide SlotsForEntry;
    hide Linear;
    EntryPlace(n, full, m, base, fd, mf, w, tail, i);
    AllHoldSome(srcs, m, n.logSlotMap[i].start, DataOf(full, i));
    RequestAddress(n, full, w, base);
    hide Encode;
    RecordKept(srcs, m, base, fd, fd', mf, w.req, copyOk, n.logSlotMap[i].start, DataOf(full, i));
  }

  lemma AllHoldSome(srcs: seq<Device>, m: seq<nat>, start: nat, data: seq<Byte>)
    requires AllHold(srcs, m, start, data)
    ensures m != []
  {}

  lemma RequestAddress(n: Node, full: seq<Entry>, w: Worker, base: nat)
    requires RequestSlots(n, full, w, base)
    ensures w.req.pbaSrc == base + SlotOffset(w.req.startSlot) && w.next + w.req.numEntries <= |full|
  {}

  // ---------------------------------------------------------------- steps

  /** The handler gets as far as the block copy. */
  predicate Copies(n: Node, req: AERequest)
    requires LogOk(n) && ClusterOk(n)
  {
    var n1 := Heard(n, req.term);
    && n1.role.Follower? && req.term >= n1.currentTerm && LogOk(n1) && PrevConflict(n1, req).None? && NeedsCopy(n1, req)
  }

  ghost predicate FollowerThere(s: Sys, f: nat) {
    s.ld < |s.nodes| && f < |s.nodes| && LogOk(s.nodes[f]) && ClusterOk(s.nodes[f])
  }

  /** Follower `f` handles a request that makes it copy. */
  ghost predicate CopyStep(s: Sys, step: Step, f: nat) {
    FollowerThere(s, f) && step.Deliver? && step.msg.worker.fi == f && Copies(s.nodes[f], step.msg.worker.req)
  }

  /** That copy spills onto the entry at index `i`, which the follower has or which comes with the batch. */
  ghost predicate SpillsOnto(s: Sys, step: Step, f: nat, ringSlots: nat, i: nat) {
    && CopyStep(s, step, f) && i in Lead(s).logSlotMap
    && i < Max(s.nodes[f].tailLogIndex, step.msg.worker.req.prevLogIndex + 1 + step.msg.worker.req.numEntries)
    && Lead(s).logSlotMap[i].start < SpillEnd(step.msg.worker.req, ringSlots)
  }

  /** What is known of slots and requests in every state. */
  ghost predicate SlotsInv(s: Sys, m: seq<nat>, mf: seq<nat>, base: nat, f: nat) {
    && Inv1(s) && f < |s.nodes| && f != s.ld && LogOk(s.nodes[f]) && ClusterOk(s.nodes[f])
    && s.cfg.extents == OneExtent(base, Lead(s).ringSlots) && base > 0
    && |m| == |mf| == Lead(s).ringSlots && m != [] && Linear(m, base) && s.nodes[f].tailLogIndex <= |s.full|
    && (forall msg :: msg in s.sent && msg.worker.HasEntries() ==> RequestSlots(Lead(s), s.full, msg.worker, base))
  }

  lemma TailGrowsByCopy(n: Node, req: AERequest, copyOk: bool)
    requires LogOk(n) && ClusterOk(n)
    ensures var n' := HandleAE(n, req, copyOk).0;
            && (n'.tailLogIndex != n.tailLogIndex ==> copyOk && Copies(n, req))
            && (Copies(n, req) ==> req.prevLogIndex < n.tailLogIndex && req.numEntries > 0)
  {
    hide Accept;
    hide NeedsCopy;
    hide PrevConflict;
    var n1 := Heard(n, req.term);
    assert LogOk(n1) && ClusterOk(n1) && n1.tailLogIndex == n.tailLogIndex;
    if n1.role.Follower? && req.term >= n1.currentTerm && PrevConflict(n1, req).None? {
      PrevInLog(n1, req);
      AcceptTail(n1, req, copyOk);
    }
  }

  lemma AcceptTail(n: Node, req: AERequest, copyOk: bool)
    requires LogOk(n) && ClusterOk(n) && req.prevLogIndex < n.tailLogIndex
    ensures Accept(n, req, copyOk).0.tailLogIndex != n.tailLogIndex ==> copyOk && NeedsCopy(n, req)
    ensures NeedsCopy(n, req) ==> req.numEntries > 0
  {
    hide NewDeferred;
    hide SlotFor;
  }

  /** Along any step, records of earlier entries stay as they are or go. */
  ghost predicate RingGoesOn(s: Sys, s': Sys) {
    && s.ld < |s.nodes| && s'.ld == s.ld && |s'.nodes| == |s.nodes| && s'.cfg == s.cfg && s.full <= s'.full
    && Lead(s').ringSlots == Lead(s).ringSlots
    && forall i :: i in Lead(s').logSlotMap && i < |s.full| ==>
      i in Lead(s).logSlotMap && Lead(s').logSlotMap[i] == Lead(s).logSlotMap[i]
  }

  lemma RingChange(s: Sys, step: Step)
    requires Inv1(s) && Enabled(s, step)
    ensures RingGoesOn(s, Do(s, step))
  {
    hide *;
    InvParts(s);
    StepFrame(s, step);
    if step.Append? {
      AppendLeads(s, step.commands);
      AppendIs(Lead(s), step.commands);
      NeedsPositive(step.commands);
      RecordedAt(Lead(s).logSlotMap, Lead(s).tailLogIndex, Needs(step.commands), Lead(s).tailSlot, Lead(s).ringSlots,
                 |step.commands|);
      LeaderRingParts(Lead(s), s.full);
      AppendGoesOn(s, Do(s, step), step.commands);
    } else if step.Collect? {
      CollectLeads(s);
      CollectIs(Lead(s));
      CollectGoesOn(s, Do(s, step));
    } else {
      OtherSameRing(s, step);
      SameRingParts(Lead(s), Lead(Do(s, step)));
      SameGoesOn(s, Do(s, step));
    }
  }

  lemma StepFrame(s: Sys, step: Step)
    requires Enabled(s, step)
    ensures var s' := Do(s, step); s'.ld == s.ld && |s'.nodes| == |s.nodes| && s'.cfg == s.cfg
  {
    hide AppendCommands;
    hide SendAE;
    hide HandleAE;
    hide TakeReply;
    hide AdvanceCommit;
    hide ApplyPending;
    hide DoSlotGc;
  }

  lemma AppendGoesOn(s: Sys, s': Sys, commands: seq<seq<Byte>>)
    requires s.ld < |s.nodes| && s'.ld == s.ld && |s'.nodes| == |s.nodes| && s'.cfg == s.cfg
    requires s'.full == s.full + NewEntries(Lead(s).currentTerm, commands) && Lead(s').ringSlots == Lead(s).ringSlots
    requires Lead(s).tailLogIndex == |s.full|
    requires forall i :: i in Lead(s').logSlotMap <==> i in Lead(s).logSlotMap || |s.full| <= i < |s.full| + |commands|
    requires forall i :: i in Lead(s).logSlotMap && i < |s.full| ==>
               i in Lead(s').logSlotMap && Lead(s').logSlotMap[i] == Lead(s).logSlotMap[i]
    ensures RingGoesOn(s, s')
  {}

  lemma CollectGoesOn(s: Sys, s': Sys)
    requires s.ld < |s.nodes| && s'.ld == s.ld && |s'.nodes| == |s.nodes| && s'.cfg == s.cfg && s'.full == s.full
    requires Lead(s').ringSlots == Lead(s).ringSlots
    requires exists least :: Lead(s').logSlotMap == FreedMap(Lead(s).logSlotMap, Lead(s).gcUpTo, least)
    ensures RingGoesOn(s, s')
  {}

  lemma SameGoesOn(s: Sys, s': Sys)
    requires s.ld < |s.nodes| && s'.ld == s.ld && |s'.nodes| == |s.nodes| && s'.cfg == s.cfg && s'.full == s.full
    requires Lead(s').ringSlots == Lead(s).ringSlots && Lead(s').logSlotMap == Lead(s).logSlotMap
    ensures RingGoesOn(s, s')
  {}

  /** The requests of a state after a step: the earlier ones, and a new one that a worker has just sent. */
  lemma RequestsGoOn(s: Sys, step: Step, base: nat)
    requires Inv1(s) && Enabled(s, step) && RingGoesOn(s, Do(s, step))
    requires s.cfg.extents == OneExtent(base, Lead(s).ringSlots) && base > 0
    requires forall msg :: msg in s.sent && msg.worker.HasEntries() ==> RequestSlots(Lead(s), s.full, msg.worker, base)
    ensures var s' := Do(s, step);
            forall msg :: msg in s'.sent && msg.worker.HasEntries() ==>
              RequestSlots(Lead(s'), s'.full, msg.worker, base)
  {
    hide RequestSlots;
    hide Inv1;
    hide RingGoesOn;
    hide Enabled;
    hide Do;
    var s' := Do(s, step);
    NewRequest(s, step);
    forall msg | msg in s'.sent && msg.worker.HasEntries() ensures RequestSlots(Lead(s'), s'.full, msg.worker, base) {
      if msg !in s.sent {
        SentSlots(s, step, base);
      }
      GoneOn(s, s', msg.worker, base);
    }
  }

  lemma GoneOn(s: Sys, s': Sys, w: Worker, base: nat)
    requires RingGoesOn(s, s') && RequestSlots(Lead(s), s.full, w, base)
    ensures RequestSlots(Lead(s'), s'.full, w, base)
  {
    RequestSlotsOn(Lead(s), Lead(s'), s.full, s'.full, w, base);
  }

  lemma NewRequest(s: Sys, step: Step)
    requires Enabled(s, step)
    ensures s.ld < |s.nodes| && |Do(s, step).nodes| == |s.nodes| && Do(s, step).ld == s.ld
    ensures forall msg :: msg in Do(s, step).sent && msg !in s.sent ==>
              && step.Send? && SendReady(Lead(s), step.fi) && SendAE(Lead(s), step.fi, s.cfg).Sent?
              && msg.worker == SendAE(Lead(s), step.fi, s.cfg).worker
  {
    hide AppendCommands;
    hide SendAE;
    hide HandleAE;
    hide TakeReply;
    hide AdvanceCommit;
    hide ApplyPending;
    hide DoSlotGc;
  }

  lemma SentSlots(s: Sys, step: Step, base: nat)
    requires Inv1(s) && Enabled(s, step) && step.Send? && SendReady(Lead(s), step.fi)
    requires SendAE(Lead(s), step.fi, s.cfg).Sent?
    requires SendAE(Lead(s), step.fi, s.cfg).worker.HasEntries()
    requires s.cfg.extents == OneExtent(base, Lead(s).ringSlots) && base > 0
    ensures RequestSlots(Lead(s), s.full, SendAE(Lead(s), step.fi, s.cfg).worker, base)
  {
    hide *;
    InvParts(s);
    var w := SendAE(Lead(s), step.fi, s.cfg).worker;
    assert step == Send(step.fi, step.wid);
    SendMember(s, step.fi, step.wid);
    SendMoves(s, step.fi, step.wid);
    SendFlight(s, step.fi, step.wid);
    AnnouncedAddress(s, step.fi, step.wid, base);
    SentInMemory(s, step.fi, w);
    FlightSlots(Lead(s), s.full, w, base);
  }

  lemma SentInMemory(s: Sys, fi: nat, w: Worker)
    requires Inv1(s) && fi < |s.nodes| && fi != s.ld && w.next == Lead(s).cluster[fi].nextIndex && FlightOk(Lead(s), w)
    ensures Oldest(Lead(s)) <= w.next && Lead(s).gcUpTo < w.next
  {
    hide LeaderRing;
    hide Network;
    hide CommitsHeld;
    hide Span;
    assert PeerInStep(Lead(s), fi);
  }

  lemma SameFollower(s: Sys, step: Step, f: nat)
    requires Enabled(s, step) && f < |s.nodes| && f != s.ld && !(step.Deliver? && step.msg.worker.fi == f)
    ensures |Do(s, step).nodes| == |s.nodes| && Do(s, step).nodes[f] == s.nodes[f]
  {
    hide AppendCommands;
    hide SendAE;
    hide HandleAE;
    hide TakeReply;
    hide AdvanceCommit;
    hide ApplyPending;
    hide DoSlotGc;
  }

  lemma DeliveredTail(s: Sys, msg: Msg, copyOk: bool, f: nat)
    requires Inv1(s) && Enabled(s, Deliver(msg, copyOk)) && msg.worker.fi == f && f < |s.nodes| && LogOk(s.nodes[f])
    requires ClusterOk(s.nodes[f])
    ensures msg in s.sent && msg.worker.next == msg.worker.req.prevLogIndex + 1
    ensures var n, req := s.nodes[f], msg.worker.req;
            var tail' := HandleAE(n, req, copyOk).0.tailLogIndex;
            && tail' <= |s.full|
            && (tail' == n.tailLogIndex || tail' == Max(n.tailLogIndex, msg.worker.next + req.numEntries))
            && |Do(s, Deliver(msg, copyOk)).nodes| == |s.nodes|
            && Do(s, Deliver(msg, copyOk)).nodes[f].tailLogIndex == tail'
  {
    hide LeaderRing;
    hide HandleAE;
    hide CommitsHeld;
    assert RequestOk(s, msg.worker) && PeerOk(s, f);
    HandleAEGrows(s.nodes[f], msg.worker.req, copyOk);
  }

  lemma FollowerOk(s: Sys, f: nat)
    requires Inv1(s) && f < |s.nodes|
    ensures s.ld < |s.nodes| && LogOk(s.nodes[f]) && ClusterOk(s.nodes[f])
  {
    hide LeaderRing;
    assert NodeShape(s, f);
  }

  lemma DeliverLeads(s: Sys, msg: Msg, copyOk: bool)
    requires Inv1(s) && Enabled(s, Deliver(msg, copyOk))
    ensures var s' := Do(s, Deliver(msg, copyOk)); s'.ld < |s'.nodes| && Lead(s') == Lead(s) && s'.full == s.full
  {
    hide *;
    InvParts(s);
    DeliverLeavesLeader(s, msg, copyOk);
  }

  lemma SlotsStep(s: Sys, step: Step, m: seq<nat>, mf: seq<nat>, base: nat, f: nat)
    requires SlotsInv(s, m, mf, base, f) && Enabled(s, step) && (step.Append? ==> SafeAppend(Lead(s), step.commands))
    ensures SlotsInv(Do(s, step), m, mf, base, f) && RingGoesOn(s, Do(s, step))
  {
    hide Do;
    hide Inv1;
    hide SafeAppend;
    hide RequestSlots;
    hide Linear;
    hide RingGoesOn;
    StepInStep(s, step);
    RingChange(s, step);
    RingFrame(s, Do(s, step));
    RequestsGoOn(s, step, base);
    FollowerOk(Do(s, step), f);
    FollowerInLog(s, step, f);
  }

  lemma RingFrame(s: Sys, s': Sys)
    requires RingGoesOn(s, s')
    ensures s'.ld == s.ld < |s.nodes| == |s'.nodes| && s'.cfg == s.cfg && Lead(s').ringSlots == Lead(s).ringSlots
    ensures s.full <= s'.full
  {}

  lemma FollowerInLog(s: Sys, step: Step, f: nat)
    requires Enabled(s, step) && Inv1(s) && Inv1(Do(s, step)) && f < |s.nodes| && f != s.ld
    requires |Do(s, step).nodes| == |s.nodes| && Do(s, step).ld == s.ld
    ensures Do(s, step).nodes[f].tailLogIndex <= |Do(s, step).full|
  {
    hide Do;
    hide LeaderRing;
    hide CommitsHeld;
    hide Network;
    assert PeerOk(Do(s, step), f);
  }

  // ---------------------------------------------------------------- runs

  /** The copy of step `k` read the leader's device in the states from `from` on. By then the request had been sent, and
      the follower handles no other request meanwhile. */
  ghost predicate CopiedFrom(run: seq<Sys>, steps: seq<Step>, devs: seq<Device>, fds: seq<Device>, mf: seq<nat>, f: nat,
                             k: nat, from: nat)
    requires k < |steps| == |run| - 1 && |devs| == |fds| == |run| && steps[k].Deliver?
  {
    && from <= k && steps[k].msg in run[from].sent
    && (forall j :: from <= j < k ==> !(steps[j].Deliver? && steps[j].msg.worker.fi == f))
    && CopyLands(devs[from..k + 1], fds[k], fds[k + 1], mf, steps[k].msg.worker.req, steps[k].copyOk)
  }

  /** What step `k` does to the follower's device: only a copy for it writes. */
  ghost predicate MirrorAt(run: seq<Sys>, steps: seq<Step>, devs: seq<Device>, fds: seq<Device>, mf: seq<nat>, f: nat,
                           k: nat)
    requires k < |steps| == |run| - 1 && |devs| == |fds| == |run|
  {
    if CopyStep(run[k], steps[k], f) then exists from: nat :: CopiedFrom(run, steps, devs, fds, mf, f, k, from)
    else fds[k + 1] == fds[k]
  }

  /** A run of a first leader with its device and that of follower `f`, which starts with an empty log. */
  ghost predicate MirrorRun(run: seq<Sys>, steps: seq<Step>, devs: seq<Device>, fds: seq<Device>, m: seq<nat>,
                            mf: seq<nat>, base: nat, f: nat) {
    && DeviceRun(run, steps, devs, m) && |fds| == |run| && f < |run[0].nodes| && f != run[0].ld
    && run[0].nodes[f].tailLogIndex == 1 && run[0].nodes[f].ringSlots == |mf|
    && |mf| == |m| > 0 && SlotsOn(mf, |fds[0]|) && base > 0 && Linear(m, base)
    && run[0].cfg.extents == OneExtent(base, |m|)
    && forall k {:trigger MirrorAt(run, steps, devs, fds, mf, f, k)} :: 0 <= k < |steps| ==>
      MirrorAt(run, steps, devs, fds, mf, f, k)
  }

  /** No copy before state `k` has spilled onto the entry at index `i`. */
  ghost predicate NeverSpilled(run: seq<Sys>, steps: seq<Step>, f: nat, ringSlots: nat, k: nat, i: nat)
    requires k <= |steps| <= |run|
  {
    forall j :: 0 <= j < k ==> !SpillsOnto(run[j], steps[j], f, ringSlots, i)
  }

  /** Its beginning, seen from the follower. */
  ghost predicate FollowerRun(run: seq<Sys>, steps: seq<Step>, m: seq<nat>, mf: seq<nat>, base: nat, f: nat) {
    && IsFirstRun(run, steps) && run[0].ld < |run[0].nodes| && f < |run[0].nodes| && f != run[0].ld
    && run[0].nodes[f].tailLogIndex == 1 && run[0].nodes[f].ringSlots == |mf|
    && |mf| == |m| == Lead(run[0]).ringSlots > 0 && base > 0 && Linear(m, base)
    && run[0].cfg.extents == OneExtent(base, |m|)
  }

  lemma RunSizes(run: seq<Sys>, steps: seq<Step>, devs: seq<Device>, fds: seq<Device>, m: seq<nat>, mf: seq<nat>,
                 base: nat, f: nat)
    requires MirrorRun(run, steps, devs, fds, m, mf, base, f)
    ensures |fds| == |devs| == |run| == |steps| + 1 && DeviceRun(run, steps, devs, m) && IsFirstRun(run, steps)
    ensures mf != [] && |m| == |mf| && FollowerRun(run, steps, m, mf, base, f)
  {
    hide RingRuns.Inv;
    hide FirstTerm;
    hide Start;
    hide MirrorAt;
    hide Linear;
  }

  lemma SlotsStart(run: seq<Sys>, steps: seq<Step>, m: seq<nat>, mf: seq<nat>, base: nat, f: nat)
    requires FollowerRun(run, steps, m, mf, base, f)
    ensures SlotsInv(run[0], m, mf, base, f)
  {
    hide Linear;
    hide Inv1;
    FirstRunKeepsInv(run, steps, 0);
    FollowerOk(run[0], f);
    FirstFields(run[0]);
  }

  lemma {:induction false} SlotsRunKeeps(run: seq<Sys>, steps: seq<Step>, m: seq<nat>, mf: seq<nat>, base: nat, f: nat,
                                         k: nat)
    requires FollowerRun(run, steps, m, mf, base, f) && k < |run|
    ensures SlotsInv(run[k], m, mf, base, f)
  {
    hide SlotsInv;
    hide IsFirstRun;
    hide Linear;
    if k == 0 {
      SlotsStart(run, steps, m, mf, base, f);
    } else {
      SlotsRunKeeps(run, steps, m, mf, base, f, k - 1);
      RunShape(run, steps);
      FirstStep(run, steps, k - 1);
      SlotsThere(run[k - 1], m, mf, base, f);
      SlotsStep(run[k - 1], steps[k - 1], m, mf, base, f);
    }
  }

  lemma FirstStep(run: seq<Sys>, steps: seq<Step>, k: nat)
    requires IsFirstRun(run, steps) && k < |steps|
    ensures |run| == |steps| + 1 && Enabled(run[k], steps[k]) && run[k + 1] == Do(run[k], steps[k])
    ensures steps[k].Append? && run[k].ld < |run[k].nodes| ==> SafeAppend(Lead(run[k]), steps[k].commands)
  {
    hide Do;
    hide Enabled;
    hide Start;
    hide FirstTerm;
    hide SafeAppend;
  }

  lemma SlotsThere(s: Sys, m: seq<nat>, mf: seq<nat>, base: nat, f: nat)
    requires SlotsInv(s, m, mf, base, f)
    ensures FollowerThere(s, f) && f != s.ld && |m| == |mf| == Lead(s).ringSlots && mf != [] && Linear(m, base)
    ensures s.nodes[f].tailLogIndex <= |s.full|
  {
    hide Inv1;
    hide Linear;
    hide RequestSlots;
    FollowerOk(s, f);
  }

  lemma GoesOnTrans(a: Sys, b: Sys, c: Sys)
    requires RingGoesOn(a, b) && RingGoesOn(b, c)
    ensures RingGoesOn(a, c)
  {}

  lemma {:induction false} RingRunGoesOn(run: seq<Sys>, steps: seq<Step>, t: nat, k: nat)
    requires IsFirstRun(run, steps) && t <= k < |run|
    ensures RingGoesOn(run[t], run[k])
    decreases k - t
  {
    hide IsFirstRun;
    hide RingGoesOn;
    hide Inv1;
    hide Do;
    hide Enabled;
    FirstRunKeepsInv(run, steps, t);
    if t < k {
      RingRunGoesOn(run, steps, t, k - 1);
      FirstRunKeepsInv(run, steps, k - 1);
      RunShape(run, steps);
      FirstStep(run, steps, k - 1);
      RingChange(run[k - 1], steps[k - 1]);
      GoesOnTrans(run[t], run[k - 1], run[k]);
    } else {
      GoesOnSelf(run[t]);
    }
  }

  lemma RunShape(run: seq<Sys>, steps: seq<Step>)
    requires IsFirstRun(run, steps)
    ensures |run| == |steps| + 1
  {
    hide Start;
    hide FirstTerm;
  }

  lemma GoesOnSelf(s: Sys)
    requires Inv1(s)
    ensures RingGoesOn(s, s)
  {
    hide LeaderRing;
    hide Network;
    hide CommitsHeld;
  }

  lemma {:induction false} FollowerWaits(run: seq<Sys>, steps: seq<Step>, from: nat, k: nat, f: nat)
    requires IsFirstRun(run, steps) && from <= k < |run| == |steps| + 1 && f < |run[from].nodes| && f != run[from].ld
    requires forall j :: from <= j < k ==> !(steps[j].Deliver? && steps[j].msg.worker.fi == f)
    ensures run[k].ld == run[from].ld && f < |run[k].nodes| && run[k].nodes[f] == run[from].nodes[f]
    decreases k - from
  {
    hide IsFirstRun;
    hide Do;
    hide Enabled;
    if from < k {
      FollowerWaits(run, steps, from, k - 1, f);
      FirstStep(run, steps, k - 1);
      StepFrame(run[k - 1], steps[k - 1]);
      SameFollower(run[k - 1], steps[k - 1], f);
    }
  }

  /** Every state that a copy reads has the entries the follower has or is to get, as far as they are still
      uncollected when it is done. */
  lemma SourcesHold(run: seq<Sys>, steps: seq<Step>, devs: seq<Device>, m: seq<nat>, f: nat, from: nat, k: nat, i: nat)
    requires DeviceRun(run, steps, devs, m) && from <= k < |steps| && |run| == |devs| == |steps| + 1
    requires steps[k].Deliver? && steps[k].msg.worker.fi == f && steps[k].msg in run[from].sent
    requires run[k].ld < |run[k].nodes| && f < |run[k].nodes| && f < |run[from].nodes| && f != run[from].ld
    requires run[k].nodes[f] == run[from].nodes[f] && i in Lead(run[k]).logSlotMap && i < |run[k].full|
    requires i < run[k].nodes[f].tailLogIndex || i < steps[k].msg.worker.next + steps[k].msg.worker.req.numEntries
    ensures AllHold(devs[from..k + 1], m, Lead(run[k]).logSlotMap[i].start, DataOf(run[k].full, i))
    ensures Lead(run[k]).logSlotMap[i].End() <= |m|
    ensures Lead(run[k]).logSlotMap[i].numSlots == SlotsForEntry(|run[k].full[i].command|)
  {
    hide *;
    DeviceRunFirst(run, steps, devs, m);
    FirstRunKeepsInv(run, steps, from);
    SentReach(run[from], steps[k].msg, f);
    var start, data := Lead(run[k]).logSlotMap[i].start, DataOf(run[k].full, i);
    HeldThen(run, steps, devs, m, k, k, i);
    forall t | from <= t <= k ensures m != [] && SlotsOn(m, |devs[t]|) && Holds(devs[t], m, start, data) {
      RingRunGoesOn(run, steps, from, t);
      RingFrame(run[from], run[t]);
      HeldThen(run, steps, devs, m, t, k, i);
    }
    IsAllHold(devs, from, k, m, start, data);
  }

  lemma DeviceRunFirst(run: seq<Sys>, steps: seq<Step>, devs: seq<Device>, m: seq<nat>)
    requires DeviceRun(run, steps, devs, m)
    ensures IsFirstRun(run, steps)
  {
    hide IsFirstRun;
    hide RingRuns.Inv;
    hide DeviceAt;
  }

  lemma IsAllHold(devs: seq<Device>, from: nat, k: nat, m: seq<nat>, start: nat, data: seq<Byte>)
    requires from <= k < |devs|
    requires forall t :: from <= t <= k ==> m != [] && SlotsOn(m, |devs[t]|) && Holds(devs[t], m, start, data)
    ensures AllHold(devs[from..k + 1], m, start, data)
  {
    hide Holds;
    hide SlotsOn;
    var srcs := devs[from..k + 1];
    forall d | 0 <= d < |srcs| ensures SlotsOn(m, |srcs[d]|) && Holds(srcs[d], m, start, data) {
      assert srcs[d] == devs[from + d];
    }
    assert devs[from] == devs[from];
  }

  lemma SentReach(s: Sys, msg: Msg, f: nat)
    requires Inv1(s) && msg in s.sent && msg.worker.fi == f && f < |s.nodes| && f != s.ld
    ensures msg.worker.next + msg.worker.req.numEntries <= |s.full| && s.nodes[f].tailLogIndex <= |s.full|
  {
    hide LeaderRing;
    hide CommitsHeld;
    assert RequestOk(s, msg.worker) && PeerOk(s, f);
  }

  /** State `t` has an entry that state `k` still has. */
  lemma HeldThen(run: seq<Sys>, steps: seq<Step>, devs: seq<Device>, m: seq<nat>, t: nat, k: nat, i: nat)
    requires DeviceRun(run, steps, devs, m) && t <= k < |run| == |devs| && run[k].ld < |run[k].nodes|
    requires i in Lead(run[k]).logSlotMap && i < |run[t].full| && i < |run[k].full|
    ensures m != [] && SlotsOn(m, |devs[t]|)
    ensures Holds(devs[t], m, Lead(run[k]).logSlotMap[i].start, DataOf(run[k].full, i))
    ensures Lead(run[k]).logSlotMap[i].End() <= |m|
    ensures Lead(run[k]).logSlotMap[i].numSlots == SlotsForEntry(|run[k].full[i].command|)
  {
    hide *;
    DeviceRunFirst(run, steps, devs, m);
    RingRunGoesOn(run, steps, t, k);
    RingFrame(run[t], run[k]);
    SameRecord(run[t], run[k], i);
    DeviceRunKeepsRecords(run, steps, devs, m, t);
    LeaderHeld(Lead(run[t]), run[t].full, devs[t], m, i);
    HeldParts(Lead(run[t]).logSlotMap, run[t].full, devs[t], m, i);
  }

  lemma SameRecord(s: Sys, s': Sys, i: nat)
    requires RingGoesOn(s, s') && s'.ld < |s'.nodes| && i in Lead(s').logSlotMap && i < |s.full|
    ensures s.ld < |s.nodes| && i in Lead(s).logSlotMap && Lead(s').logSlotMap[i] == Lead(s).logSlotMap[i]
    ensures i < |s'.full| && DataOf(s'.full, i) == DataOf(s.full, i) && s'.full[i] == s.full[i]
  {
    hide Encode;
  }

  lemma HeldParts(live: LogSlotMap, full: seq<Entry>, fd: Device, mf: seq<nat>, i: nat)
    requires mf != [] && SlotsOn(mf, |fd|) && i in live && HeldAt(live, full, fd, mf, i)
    ensures i < |full| && live[i].End() <= |mf| && Holds(fd, mf, live[i].start, DataOf(full, i))
  {
    hide Holds;
    hide SlotsOn;
    hide Encode;
  }

  lemma HeldOn(s: Sys, s': Sys, tail: nat, fd: Device, mf: seq<nat>, i: nat)
    requires RingGoesOn(s, s') && tail <= |s.full| && Held(Lead(s).logSlotMap, s.full, tail, fd, mf, i)
    ensures Held(Lead(s').logSlotMap, s'.full, tail, fd, mf, i)
  {
    hide Holds;
    hide SlotsOn;
    hide Encode;
  }

  /** A request handled by the follower. */
  lemma DeliverHeld(run: seq<Sys>, steps: seq<Step>, devs: seq<Device>, fds: seq<Device>, m: seq<nat>, mf: seq<nat>,
                    base: nat, f: nat, k: nat, from: nat, i: nat)
    requires DeviceRun(run, steps, devs, m) && k < |steps| == |run| - 1 && |run| == |devs| == |fds|
    requires SlotsInv(run[k], m, mf, base, f) && steps[k].Deliver? && steps[k].msg.worker.fi == f
    requires CopyStep(run[k], steps[k], f) && CopiedFrom(run, steps, devs, fds, mf, f, k, from)
    requires run[k].ld < |run[k].nodes| && f < |run[from].nodes| && f != run[from].ld && f < |run[k].nodes|
    requires Held(Lead(run[k]).logSlotMap, run[k].full, run[k].nodes[f].tailLogIndex, fds[k], mf, i)
    requires Enabled(run[k], steps[k]) && !SpillsOnto(run[k], steps[k], f, |mf|, i)
    ensures var s' := Do(run[k], steps[k]);
            && f < |s'.nodes|
            && Held(Lead(run[k]).logSlotMap, run[k].full, s'.nodes[f].tailLogIndex, fds[k + 1], mf, i)
  {
    hide HandleAE;
    hide Inv1;
    hide DeviceRun;
    hide CopyLands;
    hide Linear;
    hide Holds;
    hide SlotsOn;
    hide RequestSlots;
    hide AllHold;
    hide Copies;
    hide Enabled;
    hide Do;
    hide Encode;
    hide SpillEnd;
    hide SlotsForEntry;
    var s, msg, srcs := run[k], steps[k].msg, devs[from..k + 1];
    var n, w := s.nodes[f], msg.worker;
    DeviceRunFirst(run, steps, devs, m);
    FollowerWaits(run, steps, from, k, f);
    DeliveredTail(s, msg, steps[k].copyOk, f);
    TailGrowsByCopy(n, w.req, steps[k].copyOk);
    var tail' := HandleAE(n, w.req, steps[k].copyOk).0.tailLogIndex;
    LandsSize(srcs, fds[k], fds[k + 1], mf, w.req, steps[k].copyOk);
    if i in Lead(s).logSlotMap && i < tail' {
      SourcesHold(run, steps, devs, m, f, from, k, i);
      CopyHolds(Lead(s), s.full, srcs, m, base, fds[k], fds[k + 1], mf, w, steps[k].copyOk, n.tailLogIndex, tail', i);
    }
  }

  lemma LandsSize(srcs: seq<Device>, fd: Device, fd': Device, mf: seq<nat>, req: AERequest, copyOk: bool)
    requires CopyLands(srcs, fd, fd', mf, req, copyOk)
    ensures SlotsOn(mf, |fd'|) && mf != []
  {}

  /** Every other step. */
  lemma OtherHeld(s: Sys, step: Step, m: seq<nat>, mf: seq<nat>, base: nat, f: nat, fd: Device, i: nat)
    requires SlotsInv(s, m, mf, base, f) && Enabled(s, step) && RingGoesOn(s, Do(s, step)) && FollowerThere(s, f)
    requires Held(Lead(s).logSlotMap, s.full, s.nodes[f].tailLogIndex, fd, mf, i) && !CopyStep(s, step, f)
    ensures var s' := Do(s, step);
            && s'.ld < |s'.nodes| && f < |s'.nodes|
            && Held(Lead(s').logSlotMap, s'.full, s'.nodes[f].tailLogIndex, fd, mf, i)
  {
    hide HandleAE;
    hide Inv1;
    hide Linear;
    hide Held;
    hide RequestSlots;
    hide Copies;
    hide RingGoesOn;
    hide Do;
    hide Enabled;
    RingFrame(s, Do(s, step));
    if step.Deliver? && step.msg.worker.fi == f {
      DeliveredTail(s, step.msg, step.copyOk, f);
      TailGrowsByCopy(s.nodes[f], step.msg.worker.req, step.copyOk);
    } else {
      SameFollower(s, step, f);
    }
    HeldOn(s, Do(s, step), s.nodes[f].tailLogIndex, fd, mf, i);
  }

  lemma {:induction false} HeldRunKeeps(run: seq<Sys>, steps: seq<Step>, devs: seq<Device>, fds: seq<Device>,
                                        m: seq<nat>, mf: seq<nat>, base: nat, f: nat, k: nat, i: nat)
    requires MirrorRun(run, steps, devs, fds, m, mf, base, f) && k < |run| == |steps| + 1
    requires NeverSpilled(run, steps, f, |mf|, k, i)
    ensures FollowerThere(run[k], f) && |fds| == |run|
    ensures Held(Lead(run[k]).logSlotMap, run[k].full, run[k].nodes[f].tailLogIndex, fds[k], mf, i)
  {
    hide *;
    RunSizes(run, steps, devs, fds, m, mf, base, f);
    SlotsRunKeeps(run, steps, m, mf, base, f, k);
    SlotsThere(run[k], m, mf, base, f);
    if k == 0 {
      HeldStart(run, steps, devs, fds, m, mf, base, f, i);
    } else {
      NotYetSpilled(run, steps, f, |mf|, k, i);
      HeldRunKeeps(run, steps, devs, fds, m, mf, base, f, k - 1, i);
      HeldStep(run, steps, devs, fds, m, mf, base, f, k - 1, i);
    }
  }

  lemma NotYetSpilled(run: seq<Sys>, steps: seq<Step>, f: nat, ringSlots: nat, k: nat, i: nat)
    requires 0 < k <= |steps| <= |run| && NeverSpilled(run, steps, f, ringSlots, k, i)
    ensures NeverSpilled(run, steps, f, ringSlots, k - 1, i) && !SpillsOnto(run[k - 1], steps[k - 1], f, ringSlots, i)
  {
    hide SpillsOnto;
  }

  lemma HeldStart(run: seq<Sys>, steps: seq<Step>, devs: seq<Device>, fds: seq<Device>, m: seq<nat>, mf: seq<nat>,
                  base: nat, f: nat, i: nat)
    requires MirrorRun(run, steps, devs, fds, m, mf, base, f)
    ensures run[0].ld < |run[0].nodes| && f < |run[0].nodes|
    ensures Held(Lead(run[0]).logSlotMap, run[0].full, run[0].nodes[f].tailLogIndex, fds[0], mf, i)
  {
    hide RingRuns.Inv;
    hide SlotsOn;
    hide Linear;
    hide MirrorAt;
    hide HeldAt;
    FirstFields(run[0]);
  }

  lemma HeldStep(run: seq<Sys>, steps: seq<Step>, devs: seq<Device>, fds: seq<Device>, m: seq<nat>, mf: seq<nat>,
                 base: nat, f: nat, k: nat, i: nat)
    requires MirrorRun(run, steps, devs, fds, m, mf, base, f) && k < |steps| == |run| - 1 && |fds| == |run|
    requires FollowerThere(run[k], f) && FollowerThere(run[k + 1], f) && !SpillsOnto(run[k], steps[k], f, |mf|, i)
    requires Held(Lead(run[k]).logSlotMap, run[k].full, run[k].nodes[f].tailLogIndex, fds[k], mf, i)
    ensures Held(Lead(run[k + 1]).logSlotMap, run[k + 1].full, run[k + 1].nodes[f].tailLogIndex, fds[k + 1], mf, i)
  {
    hide MirrorRun;
    hide Held;
    hide Do;
    hide Enabled;
    hide SlotsInv;
    hide SpillsOnto;
    hide IsFirstRun;
    hide DeviceRun;
    hide CopyStep;
    hide SafeAppend;
    hide RingGoesOn;
    RunSizes(run, steps, devs, fds, m, mf, base, f);
    SlotsRunKeeps(run, steps, m, mf, base, f, k);
    FirstStep(run, steps, k);
    SlotsStep(run[k], steps[k], m, mf, base, f);
    MirrorStepAt(run, steps, devs, fds, m, mf, base, f, k);
    if CopyStep(run[k], steps[k], f) {
      CopyStepParts(run[k], steps[k], f);
      var from: nat :| CopiedFrom(run, steps, devs, fds, mf, f, k, from);
      SlotsRunKeeps(run, steps, m, mf, base, f, from);
      SlotsThere(run[from], m, mf, base, f);
      DeliverHeld(run, steps, devs, fds, m, mf, base, f, k, from, i);
      DeliverStays(run[k], steps[k], m, mf, base, f);
    } else {
      OtherHeld(run[k], steps[k], m, mf, base, f, fds[k], i);
    }
  }

  lemma MirrorStepAt(run: seq<Sys>, steps: seq<Step>, devs: seq<Device>, fds: seq<Device>, m: seq<nat>, mf: seq<nat>,
                     base: nat, f: nat, k: nat)
    requires MirrorRun(run, steps, devs, fds, m, mf, base, f) && k < |steps| == |run| - 1 && |fds| == |run| == |devs|
    ensures MirrorAt(run, steps, devs, fds, mf, f, k)
  {
    hide DeviceRun;
    hide MirrorAt;
    hide SlotsOn;
    hide Linear;
  }

  lemma CopyStepParts(s: Sys, step: Step, f: nat)
    requires CopyStep(s, step, f)
    ensures step.Deliver? && step.msg.worker.fi == f
  {}

  lemma DeliverStays(s: Sys, step: Step, m: seq<nat>, mf: seq<nat>, base: nat, f: nat)
    requires SlotsInv(s, m, mf, base, f) && Enabled(s, step) && step.Deliver?
    ensures var s' := Do(s, step); s.ld < |s.nodes| && s'.ld < |s'.nodes| && Lead(s') == Lead(s) && s'.full == s.full
  {
    hide Inv1;
    hide Do;
    hide Enabled;
    hide Linear;
    hide RequestSlots;
    FollowerOk(s, f);
    DeliverLeads(s, step.msg, step.copyOk);
  }

  /** In every state of such a run, whatever has been copied since: an uncollected entry that the follower holds
      decodes on the follower's device, at the slot where the leader recorded it, to the term and command that were
      appended at its index, unless a copy has spilled onto it. */
  lemma {:induction false} UncollectedEntriesDecode(run: seq<Sys>, steps: seq<Step>, devs: seq<Device>,
                                                    fds: seq<Device>, m: seq<nat>, mf: seq<nat>, base: nat, f: nat,
                                                    k: nat, i: nat)
    requires MirrorRun(run, steps, devs, fds, m, mf, base, f) && k < |run| == |steps| + 1 && FollowerThere(run[k], f)
    requires i in Lead(run[k]).logSlotMap && i < run[k].nodes[f].tailLogIndex
    requires NeverSpilled(run, steps, f, |mf|, k, i)
    ensures |fds| == |run| && SlotsOn(mf, |fds[k]|) && i < |run[k].full| && Lead(run[k]).logSlotMap[i].start < |mf|
    ensures var r := ReadSpec(fds[k], mf, Lead(run[k]).logSlotMap[i].start);
            r.term == run[k].full[i].term && r.command == run[k].full[i].command
  {
    hide MirrorRun;
    hide ReadSpec;
    hide SlotsOn;
    hide Holds;
    hide RingRuns.Inv;
    hide DeviceRun;
    hide IsFirstRun;
    hide NeverSpilled;
    RunSizes(run, steps, devs, fds, m, mf, base, f);
    HeldRunKeeps(run, steps, devs, fds, m, mf, base, f, k, i);
    DeviceRunKeepsRecords(run, steps, devs, m, k);
    RecordFitsHeader(Lead(run[k]), run[k].full, devs[k], m, i);
    ReadStored(fds[k], mf, Lead(run[k]).logSlotMap[i].start, Record(run[k].full[i].term, run[k].full[i].command, i));
  }

  lemma RecordFitsHeader(n: Node, full: seq<Entry>, dev: Device, m: seq<nat>, i: nat)
    requires RingRuns.Inv(RingOf(n, full, dev), m) && i in n.logSlotMap
    ensures i < |full| && Record(full[i].term, full[i].command, i).Fits() && n.logSlotMap[i].numSlots >= 1
  {
    hide Holds;
    hide SlotsOn;
    var r := RingOf(n, full, dev);
    assert RingRuns.LiveOk(r, m, i) && RecordOk(r.live[i], r.tail, r.head, |m|);
  }
}
