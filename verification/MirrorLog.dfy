/** The follower's own log along such a run: the slots it keeps for its entries, and what they decode to. */
module MirrorLog {
  import opened Basics
  import opened Extents
  import opened EntryCodec
  import opened Ring
  import opened Types
  import opened Batch
  import opened Progress
  import opened Commit
  import opened Election
  import opened Follower
  import opened LeaderLog
  import opened Replication
  import opened ReplicationRuns
  import opened FirstLeader
  import opened DataPath
  import opened SlotAgreement
  import opened Mirror
  import RingRuns

  // ---------------------------------------------------------------- the follower's own slots

  /** No batch for follower `f` goes out with an entry but the last that is applied and takes more than one slot. */
  ghost predicate AnnouncedEarly(run: seq<Sys>, steps: seq<Step>, f: nat) {
    forall k: nat, w: Worker :: LaunchedAt(run, steps, k, w) && w.HasEntries() && w.fi == f ==> Early(Lead(run[k]), w)
  }

  /** The condition of `AnnouncedSlotsAgreeIff`. */
  ghost predicate Early(n: Node, w: Worker) {
    forall i :: w.next <= i < w.next + w.req.numEntries - 1 && i in n.logSlotMap ==> AnnouncedInFull(n, i)
  }

  /** The follower has uncollected entries at the slots where the leader recorded them, and all of them deferred. */
  ghost predicate SlotsAgree(n: Node, live: LogSlotMap) {
    && LogOk(n) && Oldest(n) == 1 && AllDeferred(n)
    && forall i :: i in live && i < n.tailLogIndex ==> i >= 1 && AgreesAt(n, live, i)
  }

  ghost predicate AllDeferred(n: Node)
    requires LogOk(n)
  {
    forall i :: Oldest(n) <= i < n.tailLogIndex ==> EntryAt(n, i).command == []
  }

  predicate AgreesAt(n: Node, live: LogSlotMap, i: nat)
    requires LogOk(n) && i in live
  {
    Oldest(n) <= i < n.tailLogIndex && EntryAt(n, i).ringSlot == live[i].start
  }

  ghost predicate AllAnnounced(s: Sys, f: nat)
    requires s.ld < |s.nodes|
  {
    forall msg :: msg in s.sent && msg.worker.HasEntries() && msg.worker.fi == f ==>
      InFull(s.full, msg.worker, Lead(s).ringSlots)
  }

  /** The announced lengths give every entry of the batch the slot its predecessors lead to. */
  ghost predicate InFull(full: seq<Entry>, w: Worker, ringSlots: nat) {
    && w.next + w.req.numEntries <= |full| && |w.req.metas| == w.req.numEntries
    && forall j {:trigger CountsTo(full, w, ringSlots, j)} :: 0 <= j < w.req.numEntries ==>
      CountsTo(full, w, ringSlots, j)
  }

  ghost predicate CountsTo(full: seq<Entry>, w: Worker, ringSlots: nat, j: nat)
    requires w.next + w.req.numEntries <= |full| && |w.req.metas| == w.req.numEntries && j < w.req.numEntries
  {
    SlotFor(w.req.metas, w.req.startSlot, ringSlots, j)
    == w.req.startSlot + Sum(RingRuns.RecordNeeds(BatchOf(full, w)), j)
  }

  lemma InFullOn(full: seq<Entry>, full': seq<Entry>, w: Worker, ringSlots: nat)
    requires InFull(full, w, ringSlots) && full <= full'
    ensures InFull(full', w, ringSlots)
  {
    hide SlotFor;
    hide Sum;
    assert BatchOf(full', w) == BatchOf(full, w);
    forall j | 0 <= j < w.req.numEntries ensures CountsTo(full', w, ringSlots, j) {
      assert CountsTo(full, w, ringSlots, j);
    }
  }

  /** An entry added from a batch that was announced in full gets the leader's slot. */
  lemma AddedSlot(n: Node, live: LogSlotMap, ln: Node, full: seq<Entry>, w: Worker, base: nat, i: nat, ringSlots: nat)
    requires LogOk(n) && Oldest(n) <= i < n.tailLogIndex && i in live && ln.logSlotMap == live
    requires InFull(full, w, ringSlots) && RequestSlots(ln, full, w, base)
    requires w.next == w.req.prevLogIndex + 1 && FromBatch(n, w.req, ringSlots, i)
    ensures AgreesAt(n, live, i)
  {
    hide Sum;
    hide SlotFor;
    assert SlotOf(ln, full, w, i - w.next) && CountsTo(full, w, ringSlots, i - w.next);
  }

  ghost predicate AgreeInv(s: Sys, f: nat) {
    && f < |s.nodes| && s.ld < |s.nodes| && s.nodes[f].ringSlots == Lead(s).ringSlots
    && SlotsAgree(s.nodes[f], Lead(s).logSlotMap) && AllAnnounced(s, f)
  }

  lemma DeliverAgrees(s: Sys, msg: Msg, copyOk: bool, m: seq<nat>, mf: seq<nat>, base: nat, f: nat)
    requires SlotsInv(s, m, mf, base, f) && AgreeInv(s, f) && Enabled(s, Deliver(msg, copyOk))
    requires msg.worker.fi == f
    ensures var n' := HandleAE(s.nodes[f], msg.worker.req, copyOk).0;
            SlotsAgree(n', Lead(s).logSlotMap) && n'.ringSlots == s.nodes[f].ringSlots
  {
    hide HandleAE;
    hide Inv1;
    hide RequestSlots;
    hide InFull;
    hide Linear;
    hide SlotFor;
    var n, w, live := s.nodes[f], msg.worker, Lead(s).logSlotMap;
    DeliveredTail(s, msg, copyOk, f);
    SentShape(s, msg, f);
    HandleAEGrows(n, w.req, copyOk);
    HandleRing(n, w.req, copyOk);
    var n' := HandleAE(n, w.req, copyOk).0;
    forall i | i in live && i < n'.tailLogIndex ensures i >= 1 && AgreesAt(n', live, i) {
      if i < n.tailLogIndex {
        assert AgreesAt(n, live, i) && EntryAt(n', i) == EntryAt(n, i);
      } else {
        assert FromBatch(n', w.req, n.ringSlots, i);
        BatchHasEntries(n', w, n.ringSlots, i);
        AddedSlot(n', live, Lead(s), s.full, w, base, i, n.ringSlots);
      }
    }
    forall i | Oldest(n') <= i < n'.tailLogIndex ensures EntryAt(n', i).command == [] {
      if i < n.tailLogIndex {
        assert EntryAt(n', i) == EntryAt(n, i);
      } else {
        assert FromBatch(n', w.req, n.ringSlots, i);
      }
    }
  }

  lemma BatchHasEntries(n: Node, w: Worker, ringSlots: nat, i: nat)
    requires LogOk(n) && Oldest(n) <= i < n.tailLogIndex && |w.req.metas| == w.req.numEntries
    requires FromBatch(n, w.req, ringSlots, i)
    ensures w.HasEntries()
  {}

  lemma SentShape(s: Sys, msg: Msg, f: nat)
    requires Inv1(s) && msg in s.sent && msg.worker.fi == f
    ensures f < |s.nodes| && s.nodes[f].commitIndex < s.nodes[f].tailLogIndex
    ensures |msg.worker.req.metas| == msg.worker.req.numEntries
    ensures (msg.worker.req.numEntries > 0 ==> msg.worker.req.pbaSrc != 0)
  {
    hide LeaderRing;
    hide CommitsHeld;
    assert RequestOk(s, msg.worker) && NodeShape(s, f);
  }

  lemma HandleRing(n: Node, req: AERequest, copyOk: bool)
    requires LogOk(n) && ClusterOk(n)
    ensures HandleAE(n, req, copyOk).0.ringSlots == n.ringSlots
  {
    hide Accept;
    hide PrevConflict;
    var n1 := Heard(n, req.term);
    if n1.role.Follower? && req.term >= n1.currentTerm && PrevConflict(n1, req).None? {
      PrevInLog(n1, req);
      AcceptRing(n1, req, copyOk);
    }
  }

  lemma AcceptRing(n: Node, req: AERequest, copyOk: bool)
    requires LogOk(n) && ClusterOk(n) && req.prevLogIndex < n.tailLogIndex
    ensures Accept(n, req, copyOk).0.ringSlots == n.ringSlots
  {
    hide NewDeferred;
    hide SlotFor;
  }

  /** Steps that leave the follower alone keep its slots in agreement: earlier records stay or go. */
  lemma OtherAgrees(s: Sys, s': Sys, f: nat)
    requires AgreeInv(s, f) && RingGoesOn(s, s') && s'.nodes[f] == s.nodes[f] && s.nodes[f].tailLogIndex <= |s.full|
    ensures SlotsAgree(s'.nodes[f], Lead(s').logSlotMap) && s'.nodes[f].ringSlots == Lead(s').ringSlots
  {
    forall i | i in Lead(s').logSlotMap && i < s'.nodes[f].tailLogIndex
      ensures i >= 1 && AgreesAt(s'.nodes[f], Lead(s').logSlotMap, i)
    {
      assert AgreesAt(s.nodes[f], Lead(s).logSlotMap, i);
    }
  }

  /** New requests are announced in full as long as they go out early. */
  lemma AnnouncedGoesOn(s: Sys, step: Step, base: nat, f: nat)
    requires Inv1(s) && Enabled(s, step) && s.ld < |s.nodes| && AllAnnounced(s, f) && RingGoesOn(s, Do(s, step))
    requires s.cfg.extents == OneExtent(base, Lead(s).ringSlots) && base > 0
    requires SendsEarly(s, step, f)
    ensures AllAnnounced(Do(s, step), f)
  {
    hide InFull;
    hide Inv1;
    hide Enabled;
    hide Do;
    hide SendAE;
    hide Early;
    var s' := Do(s, step);
    NewRequest(s, step);
    forall msg | msg in s'.sent && msg.worker.HasEntries() && msg.worker.fi == f
      ensures InFull(s'.full, msg.worker, Lead(s').ringSlots)
    {
      if msg !in s.sent {
        SentInFull(s, step, base);
      }
      InFullOn(s.full, s'.full, msg.worker, Lead(s).ringSlots);
    }
  }

  ghost predicate SendsEarly(s: Sys, step: Step, f: nat)
    requires Enabled(s, step)
  {
    step.Send? && SendAE(Lead(s), step.fi, s.cfg).Sent? ==>
      var w := SendAE(Lead(s), step.fi, s.cfg).worker;
      w.HasEntries() && w.fi == f ==> Early(Lead(s), w)
  }

  lemma SentInFull(s: Sys, step: Step, base: nat)
    requires Inv1(s) && Enabled(s, step) && s.ld < |s.nodes| && step.Send? && SendReady(Lead(s), step.fi)
    requires SendAE(Lead(s), step.fi, s.cfg).Sent? && SendAE(Lead(s), step.fi, s.cfg).worker.HasEntries()
    requires s.cfg.extents == OneExtent(base, Lead(s).ringSlots) && base > 0
    requires Early(Lead(s), SendAE(Lead(s), step.fi, s.cfg).worker)
    ensures InFull(s.full, SendAE(Lead(s), step.fi, s.cfg).worker, Lead(s).ringSlots)
  {
    hide Inv1;
    hide Enabled;
    hide SendAE;
    hide SlotFor;
    hide Sum;
    hide AnnouncedInFull;
    assert step == Send(step.fi, step.wid);
    SentSlots(s, step, base);
    SendSlotsAgreeIff(s, step.fi, step.wid);
    var n, w := Lead(s), SendAE(Lead(s), step.fi, s.cfg).worker;
    forall j | 0 <= j < w.req.numEntries ensures CountsTo(s.full, w, n.ringSlots, j) {
      assert SameSlot(n, w.next, w.req.startSlot, w.req.metas, j) && SlotOf(n, s.full, w, j);
    }
  }

  lemma {:induction false} AgreeRunKeeps(run: seq<Sys>, steps: seq<Step>, m: seq<nat>, mf: seq<nat>, base: nat, f: nat,
                                         k: nat)
    requires FollowerRun(run, steps, m, mf, base, f) && AnnouncedEarly(run, steps, f) && k < |run|
    ensures AgreeInv(run[k], f)
  {
    hide SlotsInv;
    hide AgreeInv;
    hide IsFirstRun;
    hide Do;
    hide Enabled;
    hide AnnouncedEarly;
    hide Linear;
    RunShape(run, steps);
    if k == 0 {
      AgreeStart(run, steps, m, mf, base, f);
    } else {
      AgreeRunKeeps(run, steps, m, mf, base, f, k - 1);
      SlotsRunKeeps(run, steps, m, mf, base, f, k - 1);
      FirstStep(run, steps, k - 1);
      EarlySend(run, steps, k - 1, f);
      AgreeStep(run[k - 1], steps[k - 1], m, mf, base, f);
    }
  }

  lemma AgreeStart(run: seq<Sys>, steps: seq<Step>, m: seq<nat>, mf: seq<nat>, base: nat, f: nat)
    requires FollowerRun(run, steps, m, mf, base, f)
    ensures AgreeInv(run[0], f)
  {
    hide Inv1;
    hide Linear;
    FirstRunKeepsInv(run, steps, 0);
    FollowerOk(run[0], f);
    FirstFields(run[0]);
    assert forall i :: i in Lead(run[0]).logSlotMap ==> i == 1;
  }

  lemma AgreeStep(s: Sys, step: Step, m: seq<nat>, mf: seq<nat>, base: nat, f: nat)
    requires Enabled(s, step) && SlotsInv(s, m, mf, base, f) && AgreeInv(s, f) && SendsEarly(s, step, f)
    ensures AgreeInv(Do(s, step), f)
  {
    hide Do;
    hide Inv1;
    hide AllAnnounced;
    hide SlotsAgree;
    hide Linear;
    hide RequestSlots;
    var s' := Do(s, step);
    RingChange(s, step);
    AnnouncedGoesOn(s, step, base, f);
    if step.Deliver? && step.msg.worker.fi == f {
      DeliverAgrees(s, step.msg, step.copyOk, m, mf, base, f);
      DeliverLeads(s, step.msg, step.copyOk);
      DeliveredNode(s, step.msg, step.copyOk, f);
    } else {
      SameFollower(s, step, f);
      OtherAgrees(s, s', f);
    }
  }

  lemma EarlySend(run: seq<Sys>, steps: seq<Step>, k: nat, f: nat)
    requires k < |steps| == |run| - 1 && AnnouncedEarly(run, steps, f) && Enabled(run[k], steps[k])
    ensures SendsEarly(run[k], steps[k], f)
  {
    hide SendAE;
    hide Early;
    var s, step := run[k], steps[k];
    if step.Send? && SendAE(Lead(s), step.fi, s.cfg).Sent? {
      assert LaunchedAt(run, steps, k, SendAE(Lead(s), step.fi, s.cfg).worker);
    }
  }

  lemma DeliveredNode(s: Sys, msg: Msg, copyOk: bool, f: nat)
    requires Enabled(s, Deliver(msg, copyOk)) && msg.worker.fi == f && f < |s.nodes|
    ensures var s' := Do(s, Deliver(msg, copyOk));
            && |s'.nodes| == |s.nodes| && s'.ld == s.ld && LogOk(s.nodes[f]) && ClusterOk(s.nodes[f])
            && s'.nodes[f] == HandleAE(s.nodes[f], msg.worker.req, copyOk).0
  {
    hide HandleAE;
  }

  /** So the follower's own log works: every uncollected entry it holds, unless a copy has spilled onto it, decodes at
      the slot its log gives for it to what was appended at its index, in every state of the run. */
  lemma {:induction false} FollowerLogDecodes(run: seq<Sys>, steps: seq<Step>, devs: seq<Device>, fds: seq<Device>,
                                              m: seq<nat>, mf: seq<nat>, base: nat, f: nat, k: nat, i: nat)
    requires MirrorRun(run, steps, devs, fds, m, mf, base, f) && AnnouncedEarly(run, steps, f)
    requires k < |run| == |steps| + 1 && FollowerThere(run[k], f)
    requires i in Lead(run[k]).logSlotMap && i < run[k].nodes[f].tailLogIndex
    requires NeverSpilled(run, steps, f, |mf|, k, i)
    ensures Oldest(run[k].nodes[f]) <= i < |run[k].full| && |fds| == |run| && SlotsOn(mf, |fds[k]|)
    ensures EntryAt(run[k].nodes[f], i).ringSlot < |mf|
    ensures var r := ReadSpec(fds[k], mf, EntryAt(run[k].nodes[f], i).ringSlot);
            r.term == run[k].full[i].term && r.command == run[k].full[i].command
  {
    hide MirrorRun;
    hide ReadSpec;
    hide SlotsOn;
    hide NeverSpilled;
    hide AllDeferred;
    UncollectedEntriesDecode(run, steps, devs, fds, m, mf, base, f, k, i);
    RunSizes(run, steps, devs, fds, m, mf, base, f);
    AgreeRunKeeps(run, steps, m, mf, base, f, k);
    assert AgreesAt(run[k].nodes[f], Lead(run[k]).logSlotMap, i);
  }

  // ---------------------------------------------------------------- slots that were used again

  /** The record of entry `i` covers slot `y`. */
  predicate Covers(live: LogSlotMap, i: nat, y: nat) {
    i in live && live[i].start <= y < live[i].End()
  }

  /** Slot `y` belongs to an uncollected entry that the follower has and that no copy has spilled onto. */
  ghost predicate Owned(run: seq<Sys>, steps: seq<Step>, f: nat, ringSlots: nat, k: nat, y: nat)
    requires k < |run| && |run| == |steps| + 1 && FollowerThere(run[k], f)
  {
    exists i :: OwnedBy(run, steps, f, ringSlots, k, y, i)
  }

  ghost predicate OwnedBy(run: seq<Sys>, steps: seq<Step>, f: nat, ringSlots: nat, k: nat, y: nat, i: nat)
    requires k < |run| && |run| == |steps| + 1 && FollowerThere(run[k], f)
  {
    && Covers(Lead(run[k]).logSlotMap, i, y) && i < run[k].nodes[f].tailLogIndex && i < |run[k].full|
    && Lead(run[k]).logSlotMap[i].numSlots * 512 <= |DataOf(run[k].full, i)|
    && NeverSpilled(run, steps, f, ringSlots, k, i)
  }

  /** What the slot map and the log say is in such a slot. */
  ghost function BlockNow(run: seq<Sys>, steps: seq<Step>, f: nat, ringSlots: nat, k: nat, y: nat): (b: seq<Byte>)
    requires k < |run| && |run| == |steps| + 1 && FollowerThere(run[k], f) && Owned(run, steps, f, ringSlots, k, y)
    ensures |b| == 512
  {
    var i :| OwnedBy(run, steps, f, ringSlots, k, y, i);
    Block(DataOf(run[k].full, i), y - Lead(run[k]).logSlotMap[i].start)
  }

  /** It is what the follower's device has there. */
  lemma OwnedSlot(run: seq<Sys>, steps: seq<Step>, devs: seq<Device>, fds: seq<Device>, m: seq<nat>, mf: seq<nat>,
                  base: nat, f: nat, k: nat, y: nat)
    requires MirrorRun(run, steps, devs, fds, m, mf, base, f) && k < |run| == |steps| + 1 && FollowerThere(run[k], f)
    requires y < |mf| && Owned(run, steps, f, |mf|, k, y)
    ensures |fds| == |run| && SlotsOn(mf, |fds[k]|)
    ensures SlotBytes(fds[k], mf, y) == BlockNow(run, steps, f, |mf|, k, y)
  {
    hide MirrorRun;
    hide NeverSpilled;
    hide Encode;
    hide SlotsApart;
    var i :| OwnedBy(run, steps, f, |mf|, k, y, i) &&
             BlockNow(run, steps, f, |mf|, k, y) ==
             Block(DataOf(run[k].full, i), y - Lead(run[k]).logSlotMap[i].start);
    var start, data := Lead(run[k]).logSlotMap[i].start, DataOf(run[k].full, i);
    HeldRunKeeps(run, steps, devs, fds, m, mf, base, f, k, i);
    var j := y - start;
    ModSmall(y, |mf|);
    assert SlotBytes(fds[k], mf, (start + j) % |mf|) == Block(data, j);
  }

  /** All `n` slots from `x` on are such slots. */
  ghost predicate AllOwned(run: seq<Sys>, steps: seq<Step>, f: nat, ringSlots: nat, k: nat, x: nat, n: nat)
    requires k < |run| && |run| == |steps| + 1 && FollowerThere(run[k], f)
  {
    forall y {:trigger Owned(run, steps, f, ringSlots, k, y)} :: x <= y < x + n ==>
      Owned(run, steps, f, ringSlots, k, y)
  }

  /** Byte `p` of a command that is read from slot `x` on, as the slot map and the log have it. */
  ghost function ByteNow(run: seq<Sys>, steps: seq<Step>, f: nat, ringSlots: nat, k: nat, x: nat, n: nat, numSlots: nat,
                         p: nat): Byte
    requires k < |run| && |run| == |steps| + 1 && FollowerThere(run[k], f)
    requires AllOwned(run, steps, f, ringSlots, k, x, n) && n >= 1 && 32 + p < 512 * n
  {
    if p < 480 then
      assert Owned(run, steps, f, ringSlots, k, x);
      BlockNow(run, steps, f, ringSlots, k, x)[32 + p]
    else
      var j := 1 + (p - 480) / 512;
      assert j < n && Owned(run, steps, f, ringSlots, k, x + j);
      if j < numSlots then BlockNow(run, steps, f, ringSlots, k, x + j)[(p - 480) % 512] else 0
  }

  /** Read from slot `x` on, the uncollected entries that lie there look like `e`: term, length and command. */
  ghost predicate LooksLike(run: seq<Sys>, steps: seq<Step>, f: nat, ringSlots: nat, k: nat, x: nat, e: Entry)
    requires k < |run| && |run| == |steps| + 1 && FollowerThere(run[k], f)
    requires AllOwned(run, steps, f, ringSlots, k, x, SlotsForEntry(|e.command|))
  {
    var n := SlotsForEntry(|e.command|);
    assert Owned(run, steps, f, ringSlots, k, x);
    var h := BlockNow(run, steps, f, ringSlots, k, x);
    && LeValue(h[0..8]) == e.term && LeValue(h[8..16]) == |e.command|
    && forall p :: 0 <= p < |e.command| ==>
         ByteNow(run, steps, f, ringSlots, k, x, n, LeValue(h[16..24]), p) == e.command[p]
  }

  /** An entry of the follower's log whose slots have all been used again, by one entry or by several, from their
      beginning or from the middle: it still decodes to its own content if and only if the new entries look like it.
      Slot map and log decide that. Nothing clears such an entry from the follower's log, and promotion loads it. */
  lemma {:induction false} ReusedSlotsDecodeIff(run: seq<Sys>, steps: seq<Step>, devs: seq<Device>, fds: seq<Device>,
                                                m: seq<nat>, mf: seq<nat>, base: nat, f: nat, k: nat, e: nat)
    requires MirrorRun(run, steps, devs, fds, m, mf, base, f) && k < |run| == |steps| + 1 && FollowerThere(run[k], f)
    requires Oldest(run[k].nodes[f]) <= e < run[k].nodes[f].tailLogIndex && e < |run[k].full|
    requires var x, n := EntryAt(run[k].nodes[f], e).ringSlot, SlotsForEntry(|run[k].full[e].command|);
             x + n <= |mf| && AllOwned(run, steps, f, |mf|, k, x, n)
    ensures |fds| == |run| && SlotsOn(mf, |fds[k]|) && EntryAt(run[k].nodes[f], e).ringSlot < |mf|
    ensures var x, own := EntryAt(run[k].nodes[f], e).ringSlot, run[k].full[e];
            var r := ReadSpec(fds[k], mf, x);
            (r.term == own.term && r.command == own.command) <==> LooksLike(run, steps, f, |mf|, k, x, own)
  {
    hide MirrorRun;
    hide Owned;
    hide BlockNow;
    var x, own := EntryAt(run[k].nodes[f], e).ringSlot, run[k].full[e];
    var n := SlotsForEntry(|own.command|);
    assert Owned(run, steps, f, |mf|, k, x);
    OwnedSlot(run, steps, devs, fds, m, mf, base, f, k, x);
    var h := BlockNow(run, steps, f, |mf|, k, x);
    var numSlots := LeValue(h[16..24]);
    forall p | 0 <= p < |own.command|
      ensures 32 + p < 512 * n
      ensures CommandByte(fds[k], mf, x, numSlots, p) == ByteNow(run, steps, f, |mf|, k, x, n, numSlots, p)
    {
      if p >= 480 {
        var j := 1 + (p - 480) / 512;
        assert Owned(run, steps, f, |mf|, k, x + j);
        OwnedSlot(run, steps, devs, fds, m, mf, base, f, k, x + j);
        ModSmall(x + j, |mf|);
      }
    }
    var r := ReadSpec(fds[k], mf, x);
    assert |r.command| == LeValue(h[8..16]);
    assert forall p :: 0 <= p < |r.command| ==> r.command[p] == CommandByte(fds[k], mf, x, numSlots, p);
  }

  /** Where the new entry begins at the old one's slot, the old one decodes to its own content if and only if the two
      have the same content, whatever lies behind. */
  lemma {:induction false} ReusedStartDecodesIff(run: seq<Sys>, steps: seq<Step>, devs: seq<Device>, fds: seq<Device>,
                                                 m: seq<nat>, mf: seq<nat>, base: nat, f: nat, k: nat, e: nat, i: nat)
    requires MirrorRun(run, steps, devs, fds, m, mf, base, f) && k < |run| == |steps| + 1 && FollowerThere(run[k], f)
    requires i in Lead(run[k]).logSlotMap && i < run[k].nodes[f].tailLogIndex
    requires NeverSpilled(run, steps, f, |mf|, k, i)
    requires Oldest(run[k].nodes[f]) <= e < run[k].nodes[f].tailLogIndex && e < |run[k].full|
    requires EntryAt(run[k].nodes[f], e).ringSlot == Lead(run[k]).logSlotMap[i].start
    ensures |fds| == |run| && SlotsOn(mf, |fds[k]|) && i < |run[k].full| && EntryAt(run[k].nodes[f], e).ringSlot < |mf|
    ensures var r, full := ReadSpec(fds[k], mf, EntryAt(run[k].nodes[f], e).ringSlot), run[k].full;
            (r.term == full[e].term && r.command == full[e].command) <==>
            (full[i].term == full[e].term && full[i].command == full[e].command)
  {
    hide MirrorRun;
    hide ReadSpec;
    hide SlotsOn;
    hide NeverSpilled;
    UncollectedEntriesDecode(run, steps, devs, fds, m, mf, base, f, k, i);
  }

  // ---------------------------------------------------------------- what a promoted follower hands out

  /** What the state machine of a follower gets when it is promoted. */
  ghost function HandedOut(n: Node, read: Reader): seq<seq<Byte>>
    requires LogOk(n)
  {
    ApplyOutput(Promoted(n, read).(lastApplied := n.lastApplied))
  }

  /** The reader decodes the follower's device. */
  ghost predicate ReadsDevice(read: Reader, fd: Device, mf: seq<nat>)
    requires SlotsOn(mf, |fd|)
  {
    forall x :: 0 <= x < |mf| ==> read(x) == Some(ReadSpec(fd, mf, x).command)
  }

  /** Commands that are right or dropped come to the right ones exactly if none is dropped. */
  lemma {:induction false} HandsOut(n: Node, full: seq<Entry>, lo: nat, hi: nat)
    requires LogOk(n) && Oldest(n) <= lo && hi <= n.tailLogIndex && hi <= |full|
    requires forall i :: lo <= i < hi ==> EntryAt(n, i).command == [] || EntryAt(n, i).command == full[i].command
    ensures |CommandsOf(n, lo, hi)| <= |NonEmpty(full, lo, hi)|
    ensures CommandsOf(n, lo, hi) == NonEmpty(full, lo, hi) <==>
            forall i :: lo <= i < hi ==> EntryAt(n, i).command == full[i].command
    decreases hi
  {
    if lo < hi {
      HandsOut(n, full, lo, hi - 1);
      var a, b := CommandsOf(n, lo, hi - 1), NonEmpty(full, lo, hi - 1);
      var c := EntryAt(n, hi - 1).command;
      if c == full[hi - 1].command {
        var x := if c == [] then [] else [c];
        assert (a + x == b + x) <==> a == b by {
          if a + x == b + x {
            assert |a| == |b| && a == (a + x)[..|a|] && b == (b + x)[..|b|];
          }
        }
      } else {
        assert CommandsOf(n, lo, hi) == a && |NonEmpty(full, lo, hi)| == |b| + 1;
      }
    }
  }

  /** Promotion loads every entry and applies the committed ones. */
  lemma HandedOutIs(n: Node, read: Reader)
    requires LogOk(n) && Oldest(n) <= n.lastApplied <= n.commitIndex + 1 <= n.tailLogIndex
    ensures var n1 := Promoted(n, read);
            && LogOk(n1) && Oldest(n1) == Oldest(n) && n1.tailLogIndex == n.tailLogIndex
            && HandedOut(n, read) == CommandsOf(n1, n.lastApplied, n.commitIndex + 1)
            && forall i :: Oldest(n) <= i < n.tailLogIndex ==> EntryAt(n1, i) == Loaded(EntryAt(n, i), read)
  {
    hide HeadOf;
    var n1 := Promoted(n, read);
    var n2 := n1.(lastApplied := n.lastApplied);
    assert n1.log == LoadLog(n.log, read);
    SameCommands(n1, n2, n.lastApplied, n.commitIndex + 1);
  }

  lemma {:induction false} SameCommands(n: Node, n': Node, lo: nat, hi: nat)
    requires LogOk(n) && n'.log == n.log && n'.tailLogIndex == n.tailLogIndex && Oldest(n) <= lo && hi <= n.tailLogIndex
    ensures CommandsOf(n', lo, hi) == CommandsOf(n, lo, hi)
    decreases hi
  {
    if lo < hi {
      SameCommands(n, n', lo, hi - 1);
    }
  }

  /** What a follower hands out when it is promoted at some point of a run and loads its log from its own device. If
      none of its committed entries is collected or spilled onto, its state machine gets exactly the commands the
      leader appended, in order, if and only if no committed entry with a command lies at ring slot 0. */
  lemma PromotionHandsOutIff(run: seq<Sys>, steps: seq<Step>, devs: seq<Device>, fds: seq<Device>, m: seq<nat>,
                             mf: seq<nat>, base: nat, f: nat, k: nat, read: Reader)
    requires MirrorRun(run, steps, devs, fds, m, mf, base, f) && AnnouncedEarly(run, steps, f)
    requires k < |run| == |steps| + 1 && FollowerThere(run[k], f) && |fds| == |run|
    requires SlotsOn(mf, |fds[k]|) && ReadsDevice(read, fds[k], mf)
    requires var n := run[k].nodes[f];
             1 <= n.lastApplied <= n.commitIndex + 1 <= n.tailLogIndex <= |run[k].full|
    requires var n := run[k].nodes[f];
             forall i :: n.lastApplied <= i <= n.commitIndex ==>
               i in Lead(run[k]).logSlotMap && NeverSpilled(run, steps, f, |mf|, k, i)
    ensures var n := run[k].nodes[f];
            && Oldest(n) == 1
            && (HandedOut(n, read) == NonEmpty(run[k].full, n.lastApplied, n.commitIndex + 1) <==>
                forall i :: n.lastApplied <= i <= n.commitIndex && EntryAt(n, i).ringSlot == 0 ==>
                  run[k].full[i].command == [])
  {
    hide FollowerRun;
    hide IsFirstRun;
    hide DeviceRun;
    hide MirrorRun;
    hide AnnouncedEarly;
    hide NeverSpilled;
    hide SlotsOn;
    hide ReadSpec;
    hide Promoted;
    hide HandedOut;
    hide AllAnnounced;
    var n, full := run[k].nodes[f], run[k].full;
    RunSizes(run, steps, devs, fds, m, mf, base, f);
    AgreeRunKeeps(run, steps, m, mf, base, f, k);
    HandedOutIs(n, read);
    var n1 := Promoted(n, read);
    forall i | n.lastApplied <= i < n.commitIndex + 1
      ensures EntryAt(n1, i).command == if EntryAt(n, i).ringSlot == 0 then [] else full[i].command
    {
      FollowerLogDecodes(run, steps, devs, fds, m, mf, base, f, k, i);
      assert EntryAt(n1, i) == Loaded(EntryAt(n, i), read) && EntryAt(n, i).command == [];
    }
    HandsOut(n1, full, n.lastApplied, n.commitIndex + 1);
  }

  /** In general: it gets them if every committed entry reads right, whatever lies in its slots by now. For entries
      whose slots were used again, `ReusedSlotsDecodeIff` says when that is. */
  lemma PromotionHandsOut(run: seq<Sys>, steps: seq<Step>, devs: seq<Device>, fds: seq<Device>, m: seq<nat>,
                          mf: seq<nat>, base: nat, f: nat, k: nat, read: Reader)
    requires MirrorRun(run, steps, devs, fds, m, mf, base, f) && AnnouncedEarly(run, steps, f)
    requires k < |run| == |steps| + 1 && FollowerThere(run[k], f) && |fds| == |run|
    requires SlotsOn(mf, |fds[k]|) && ReadsDevice(read, fds[k], mf)
    requires var n := run[k].nodes[f];
             1 <= n.lastApplied <= n.commitIndex + 1 <= n.tailLogIndex <= |run[k].full| && Oldest(n) == 1
    requires var n := run[k].nodes[f];
             forall i :: n.lastApplied <= i <= n.commitIndex ==>
               var x, c := EntryAt(n, i).ringSlot, run[k].full[i].command;
               if x == 0 then c == [] else x < |mf| && ReadSpec(fds[k], mf, x).command == c
    ensures var n := run[k].nodes[f];
            HandedOut(n, read) == NonEmpty(run[k].full, n.lastApplied, n.commitIndex + 1)
  {
    hide FollowerRun;
    hide IsFirstRun;
    hide DeviceRun;
    hide MirrorRun;
    hide AnnouncedEarly;
    hide SlotsOn;
    hide ReadSpec;
    hide Promoted;
    hide HandedOut;
    hide AllAnnounced;
    var n, full := run[k].nodes[f], run[k].full;
    RunSizes(run, steps, devs, fds, m, mf, base, f);
    AgreeRunKeeps(run, steps, m, mf, base, f, k);
    HandedOutIs(n, read);
    var n1 := Promoted(n, read);
    forall i | n.lastApplied <= i < n.commitIndex + 1 ensures EntryAt(n1, i).command == full[i].command {
      assert EntryAt(n1, i) == Loaded(EntryAt(n, i), read) && EntryAt(n, i).command == [];
    }
    HandsOut(n1, full, n.lastApplied, n.commitIndex + 1);
  }
}
