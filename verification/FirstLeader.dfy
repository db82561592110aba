/** The slot map of a first leader, over every run of its term: which records exist, that collection never takes
    one that a worker still needs, and that a batch can always be sent. */
module FirstLeader {
  import opened Basics
  import opened Extents
  import opened Ring
  import opened Types
  import opened Batch
  import opened Progress
  import opened Commit
  import opened Election
  import opened Follower
  import opened LeaderLog
  import opened SlotAgreement
  import opened Replication
  import opened ReplicationRuns

  /** Slots of `k` records from `first` on. */
  function Span(m: LogSlotMap, first: nat, k: nat): nat {
    if k == 0 then 0 else Span(m, first, k - 1) + (if first + k - 1 in m then m[first + k - 1].numSlots else 0)
  }

  lemma {:induction false} SpanSame(m: LogSlotMap, m': LogSlotMap, first: nat, k: nat)
    requires forall i :: first <= i < first + k ==> i in m && i in m' && m'[i] == m[i]
    ensures Span(m', first, k) == Span(m, first, k)
  {
    if k > 0 {
      SpanSame(m, m', first, k - 1);
    }
  }

  /** Record of entry `i`: inside the ring, with the slots the command needs. */
  predicate RecordFits(m: LogSlotMap, full: seq<Entry>, ringSlots: nat, i: nat)
    requires i in m
  {
    i < |full| && m[i].End() <= ringSlots && m[i].numSlots == SlotsForEntry(|full[i].command|)
  }

  /** The leader's ring: exactly the uncollected entries are recorded, one after the other up to the write
      pointer, each with its slots, none overlapping another. */
  ghost predicate LeaderRing(n: Node, full: seq<Entry>) {
    && n.gcUpTo < n.tailLogIndex
    && (forall i :: i in n.logSlotMap <==> n.gcUpTo < i < n.tailLogIndex)
    && (forall i :: i in n.logSlotMap ==> RecordFits(n.logSlotMap, full, n.ringSlots, i))
    && Chained(n.logSlotMap, n.ringSlots)
    && (n.tailLogIndex - 1 in n.logSlotMap ==> n.logSlotMap[n.tailLogIndex - 1].End() == n.tailSlot)
    && RingOk(n.logSlotMap, n.tailSlot, n.headSlot, n.ringSlots)
    && Anchored(n.logSlotMap, n.tailSlot, n.headSlot)
  }

  predicate SameRing(n: Node, n': Node) {
    && n'.logSlotMap == n.logSlotMap && n'.ringSlots == n.ringSlots && n'.tailSlot == n.tailSlot
    && n'.headSlot == n.headSlot && n'.gcUpTo == n.gcUpTo && n'.tailLogIndex == n.tailLogIndex
  }

  /** A member's next index is right behind what it confirmed, and nothing it lacks has been collected. */
  ghost predicate PeerInStep(n: Node, f: nat)
    requires f < |n.cluster|
  {
    n.cluster[f].nextIndex == n.cluster[f].matchIndex + 1 && n.gcUpTo <= n.cluster[f].matchIndex
  }

  /** The records of a batch in flight are where the request says, and the batch ends inside the ring. */
  ghost predicate FlightOk(n: Node, w: Worker) {
    && w.next + w.req.numEntries <= n.tailLogIndex
    && w.next in n.logSlotMap && n.logSlotMap[w.next].start == w.req.startSlot
    && Span(n.logSlotMap, w.next, w.req.numEntries) == w.req.blockLength
    && w.req.startSlot + w.req.blockLength <= n.ringSlots
  }

  ghost predicate WorkerInStep(n: Node, w: Worker)
    requires w.fi < |n.cluster|
  {
    && w.next <= n.cluster[w.fi].nextIndex
    && (w.HasEntries() ==> w.next == n.cluster[w.fi].nextIndex && FlightOk(n, w))
  }

  /** Settings and history of a first leader: a single-extent ring, batches of at least one entry, and only
      entries of its own. */
  ghost predicate Setting(s: Sys)
    requires s.ld < |s.nodes|
  {
    && s.cfg.maxBatch >= 1 && s.a0 == 1
    && (exists base :: base > 0 && s.cfg.extents == OneExtent(base, Lead(s).ringSlots))
    && (forall i :: 0 <= i < |s.full| ==> s.full[i].ringSlot == 0 && s.full[i].cmdLen == 0)
  }

  ghost predicate Inv1(s: Sys) {
    && Inv(s) && Setting(s) && LeaderRing(Lead(s), s.full)
    && (forall f :: 0 <= f < |s.nodes| && f != s.ld ==> PeerInStep(Lead(s), f))
    && (forall w :: w in s.workers ==> s.workers[w].fi < |Lead(s).cluster| && WorkerInStep(Lead(s), s.workers[w]))
  }

  /** Right after the first promotion: the no-op is the only entry, at slot 0, and nobody has confirmed it. */
  ghost predicate FirstTerm(s: Sys) {
    && Start(s)
    && s.cfg.maxBatch >= 1
    && var n := Lead(s);
       && (exists base :: base > 0 && s.cfg.extents == OneExtent(base, n.ringSlots))
       && n.ringSlots >= 1 && n.tailLogIndex == 2 && s.full == [SENTINEL, Entry([], n.currentTerm, Waiting, 0, 0)]
       && n.commitIndex == 0 && n.lastApplied == 1
       && n.logSlotMap == map[1 := SlotRecord(0, 1)] && n.tailSlot == 1 && n.headSlot == 0 && n.gcUpTo == 0
       && !n.gcHasRun
       && (forall f :: 0 <= f < |n.cluster| ==> n.cluster[f].nextIndex == 1 && n.cluster[f].matchIndex == 0)
  }

  /** What a client batch must respect besides the capacity check: exactly what keeps the ring sound
      (AppendKeepsRingIff). */
  ghost predicate SafeAppend(n: Node, commands: seq<seq<Byte>>) {
    && CanWriteAll(n.logSlotMap, n.tailSlot, n.headSlot, n.ringSlots, Needs(commands))
    && SafeBatch(n.logSlotMap, n.tailSlot, n.headSlot, n.ringSlots, Needs(commands))
  }

  ghost predicate IsFirstRun(run: seq<Sys>, steps: seq<Step>) {
    && IsRun(run, steps) && FirstTerm(run[0])
    && forall k :: 0 <= k < |steps| && steps[k].Append? && run[k].ld < |run[k].nodes| ==>
      SafeAppend(Lead(run[k]), steps[k].commands)
  }

  // ---------------------------------------------------------------- appending

  lemma {:induction false} ChainGrows(m: LogSlotMap, first: nat, needs: seq<nat>, slot: nat, ringSlots: nat, k: nat)
    requires k <= |needs| && Chained(m, ringSlots) && (forall i :: i in m ==> i < first)
    requires first > 0 && first - 1 in m ==> m[first - 1].End() == slot
    ensures Chained(Recorded(m, first, needs, slot, ringSlots, k), ringSlots)
  {
    var r := Recorded(m, first, needs, slot, ringSlots, k);
    RecordedAt(m, first, needs, slot, ringSlots, k);
    forall i | i in r && i + 1 in r ensures Linked(r, ringSlots, i) {
      if i + 1 < first {
        assert Linked(m, ringSlots, i);
      } else if i >= first {
        assert r[i] == PlaceOf(needs, slot, ringSlots, i - first);
        assert r[i + 1] == PlaceOf(needs, slot, ringSlots, i + 1 - first);
      } else {
        assert r[i + 1] == PlaceOf(needs, slot, ringSlots, 0);
      }
    }
  }

  /** Appending keeps the ring. */
  lemma AppendRing(n: Node, full: seq<Entry>, commands: seq<seq<Byte>>)
    requires LogOk(n) && ClusterOk(n) && n.role.Leader? && n.tailLogIndex == |full| && LeaderRing(n, full)
    requires commands != [] && SafeAppend(n, commands)
    ensures LeaderRing(AppendCommands(n, commands), full + NewEntries(n.currentTerm, commands))
    ensures var n' := AppendCommands(n, commands);
            && n'.gcUpTo == n.gcUpTo && n'.ringSlots == n.ringSlots
            && forall i :: i in n.logSlotMap ==> i in n'.logSlotMap && n'.logSlotMap[i] == n.logSlotMap[i]
  {
    AppendIs(n, commands);
    hide AppendCommands;
    AppendedRing(n, AppendCommands(n, commands), full, commands);
  }

  lemma AppendedRing(n: Node, n': Node, full: seq<Entry>, commands: seq<seq<Byte>>)
    requires n.tailLogIndex == |full| > 0 && LeaderRing(n, full) && commands != [] && SafeAppend(n, commands)
    requires n'.logSlotMap == Recorded(n.logSlotMap, n.tailLogIndex, Needs(commands), n.tailSlot, n.ringSlots,
                                       |commands|)
    requires n'.tailSlot == Ptr(Needs(commands), n.tailSlot, n.ringSlots, |commands|)
    requires n'.tailLogIndex == n.tailLogIndex + |commands| && n'.gcUpTo == n.gcUpTo
    requires n'.ringSlots == n.ringSlots && n'.headSlot == n.headSlot
    ensures LeaderRing(n', full + NewEntries(n.currentTerm, commands))
    ensures forall i :: i in n.logSlotMap ==> i in n'.logSlotMap && n'.logSlotMap[i] == n.logSlotMap[i]
  {
    hide *;
    var needs, k, m := Needs(commands), |commands|, n.logSlotMap;
    var full' := full + NewEntries(n.currentTerm, commands);
    NewNeeds(full, n.currentTerm, commands);
    LeaderRingParts(n, full);
    ChainGrows(m, n.tailLogIndex, needs, n.tailSlot, n.ringSlots, k);
    SafeParts(n, commands);
    PlaceSound(m, n.tailSlot, n.headSlot, n.ringSlots, n.tailLogIndex, needs, k);
    RecordsFit(m, full, full', needs, n.tailSlot, n.ringSlots, k);
    RecordedAt(m, n.tailLogIndex, needs, n.tailSlot, n.ringSlots, k);
    AnchorKept(m, n.tailSlot, n.headSlot, n.ringSlots, n.tailLogIndex, needs);
    LeaderRingFrom(n', full');
  }

  lemma NewNeeds(full: seq<Entry>, term: nat, commands: seq<seq<Byte>>)
    ensures var full' := full + NewEntries(term, commands);
            && full <= full' && |full'| == |full| + |commands| && |Needs(commands)| == |commands|
            && forall j :: 0 <= j < |commands| ==> Needs(commands)[j] == SlotsForEntry(|full'[|full| + j].command|)
  {}

  lemma SafeParts(n: Node, commands: seq<seq<Byte>>)
    requires SafeAppend(n, commands) && commands != []
    requires RingOk(n.logSlotMap, n.tailSlot, n.headSlot, n.ringSlots)
    ensures Sized(Needs(commands), n.ringSlots)
    ensures Advance(Needs(commands), n.tailSlot, n.ringSlots, |commands|)
            <= FreeArc(n.logSlotMap, n.tailSlot, n.headSlot, n.ringSlots)
  {
    AcceptedStaysInArcIff(n.logSlotMap, n.tailSlot, n.headSlot, n.ringSlots, Needs(commands));
    PassingSized(n.tailSlot, n.headSlot, n.ringSlots, Needs(commands));
  }

  lemma LeaderRingParts(n: Node, full: seq<Entry>)
    requires LeaderRing(n, full)
    ensures Chained(n.logSlotMap, n.ringSlots) && RingOk(n.logSlotMap, n.tailSlot, n.headSlot, n.ringSlots)
    ensures Anchored(n.logSlotMap, n.tailSlot, n.headSlot)
    ensures forall i :: i in n.logSlotMap ==> i < n.tailLogIndex
    ensures forall i :: i in n.logSlotMap ==> RecordFits(n.logSlotMap, full, n.ringSlots, i)
    ensures forall i :: i in n.logSlotMap <==> n.gcUpTo < i < n.tailLogIndex
    ensures n.gcUpTo < n.tailLogIndex
    ensures n.tailLogIndex - 1 in n.logSlotMap ==> n.logSlotMap[n.tailLogIndex - 1].End() == n.tailSlot
  {
    hide RingOk;
    hide RecordFits;
    hide Linked;
  }

  lemma LeaderRingFrom(n: Node, full: seq<Entry>)
    requires n.gcUpTo < n.tailLogIndex
    requires forall i :: i in n.logSlotMap <==> n.gcUpTo < i < n.tailLogIndex
    requires forall i :: i in n.logSlotMap ==> RecordFits(n.logSlotMap, full, n.ringSlots, i)
    requires Chained(n.logSlotMap, n.ringSlots) && RingOk(n.logSlotMap, n.tailSlot, n.headSlot, n.ringSlots)
    requires Anchored(n.logSlotMap, n.tailSlot, n.headSlot)
    requires n.tailLogIndex - 1 in n.logSlotMap ==> n.logSlotMap[n.tailLogIndex - 1].End() == n.tailSlot
    ensures LeaderRing(n, full)
  {
    hide RingOk;
    hide RecordFits;
    hide Linked;
  }

  /** If the pointer is at or behind the head afterwards, it was so before or an entry has been put at slot 0. */
  lemma AnchorKept(m: LogSlotMap, tail: nat, head: nat, ringSlots: nat, first: nat, needs: seq<nat>)
    requires RingOk(m, tail, head, ringSlots) && Anchored(m, tail, head) && (forall i :: i in m ==> i < first)
    requires needs != [] && forall i :: 0 <= i < |needs| ==> needs[i] >= 1
    ensures Anchored(Recorded(m, first, needs, tail, ringSlots, |needs|), Ptr(needs, tail, ringSlots, |needs|), head)
  {
    var n := |needs|;
    var m', p := Recorded(m, first, needs, tail, ringSlots, n), Ptr(needs, tail, ringSlots, n);
    RecordedAt(m, first, needs, tail, ringSlots, n);
    if m != map[] && tail <= head {
      var z :| z in m && AtZero(m[z]);
      assert AtZero(m'[z]);
    } else if p <= head {
      NoWrapAdvances(needs, tail, ringSlots, n);
      var z := WrappedAtZero(m, tail, false, ringSlots, first, needs, n);
    }
  }

  lemma {:induction false} NoWrapAdvances(needs: seq<nat>, slot: nat, ringSlots: nat, i: nat)
    requires i <= |needs| && forall k :: 0 <= k < |needs| ==> needs[k] >= 1
    ensures Wrapped(needs, slot, false, ringSlots, i) || Ptr(needs, slot, ringSlots, i) >= slot + i
  {
    if i > 0 {
      NoWrapAdvances(needs, slot, ringSlots, i - 1);
    }
  }

  lemma RecordsFit(m: LogSlotMap, full: seq<Entry>, full': seq<Entry>, needs: seq<nat>, slot: nat, ringSlots: nat,
                   k: nat)
    requires 0 < k == |needs| && |full'| == |full| + k && full <= full' && Sized(needs, ringSlots)
    requires forall j :: 0 <= j < k ==> needs[j] == SlotsForEntry(|full'[|full| + j].command|)
    requires forall i :: i in m ==> RecordFits(m, full, ringSlots, i)
    ensures var r := Recorded(m, |full|, needs, slot, ringSlots, k);
            && (forall i :: i in r ==> RecordFits(r, full', ringSlots, i))
            && |full| + k - 1 in r && r[|full| + k - 1].End() == Ptr(needs, slot, ringSlots, k)
  {
    hide SlotsForEntry;
    var r := Recorded(m, |full|, needs, slot, ringSlots, k);
    RecordedAt(m, |full|, needs, slot, ringSlots, k);
    hide Recorded;
    forall i | i in r ensures RecordFits(r, full', ringSlots, i) {
      if i < |full| {
        assert RecordFits(m, full, ringSlots, i);
      } else {
        assert r[i] == PlaceOf(needs, slot, ringSlots, i - |full|);
        assert needs[i - |full|] == SlotsForEntry(|full'[|full| + (i - |full|)].command|);
      }
    }
    assert r[|full| + k - 1] == PlaceOf(needs, slot, ringSlots, k - 1);
  }

  /** What an append does to the ring. */
  lemma AppendIs(n: Node, commands: seq<seq<Byte>>)
    requires LogOk(n) && ClusterOk(n) && n.role.Leader?
    ensures var n' := AppendCommands(n, commands);
            && n'.logSlotMap == Recorded(n.logSlotMap, n.tailLogIndex, Needs(commands), n.tailSlot, n.ringSlots,
                                         |commands|)
            && n'.tailSlot == Ptr(Needs(commands), n.tailSlot, n.ringSlots, |commands|)
            && n'.tailLogIndex == n.tailLogIndex + |commands| && n'.gcUpTo == n.gcUpTo
            && n'.ringSlots == n.ringSlots && n'.headSlot == n.headSlot
  {
    hide *;
    var n1 := n.(log := n.log + NewEntries(n.currentTerm, commands), tailLogIndex := n.tailLogIndex + |commands|);
    AppendIsPersist(n, commands, n1);
    SameNeeds(n.log, n1, commands);
    PersistIs(n1, |commands|, n.tailLogIndex, Needs(commands));
  }

  lemma AppendIsPersist(n: Node, commands: seq<seq<Byte>>, n1: Node)
    requires LogOk(n) && ClusterOk(n)
    requires n1 == n.(log := n.log + NewEntries(n.currentTerm, commands), tailLogIndex := n.tailLogIndex + |commands|)
    ensures LogOk(n1) && ClusterOk(n1) && |commands| < |n1.log| && n.log != []
    ensures AppendCommands(n, commands) == PersistLog(n1, |commands|)
  {
    hide PersistLog;
  }

  lemma PersistIs(n: Node, k: nat, first: nat, needs: seq<nat>)
    requires LogOk(n) && ClusterOk(n) && n.role.Leader? && k < |n.log| && first == n.tailLogIndex - k
    requires needs == NewestNeeds(n, k)
    ensures var n' := PersistLog(n, k);
            && n'.logSlotMap == Recorded(n.logSlotMap, first, needs, n.tailSlot, n.ringSlots, k)
            && n'.tailSlot == Ptr(needs, n.tailSlot, n.ringSlots, k)
            && n'.tailLogIndex == n.tailLogIndex && n'.gcUpTo == n.gcUpTo
            && n'.ringSlots == n.ringSlots && n'.headSlot == n.headSlot
  {
    hide Recorded;
    hide Ptr;
  }

  lemma SameNeeds(log: seq<Entry>, n: Node, commands: seq<seq<Byte>>)
    requires log != [] && n.log == log + NewEntries(n.currentTerm, commands)
    ensures NewestNeeds(n, |commands|) == Needs(commands)
  {
    forall i | 0 <= i < |commands| ensures NewestNeeds(n, |commands|)[i] == Needs(commands)[i] {
      assert n.log[|log| + i].command == commands[i];
    }
  }

  // ---------------------------------------------------------------- steps that leave members and workers alone

  lemma FlightKept(n: Node, n': Node, w: Worker)
    requires FlightOk(n, w) && w.HasEntries() && n.tailLogIndex <= n'.tailLogIndex && n'.ringSlots == n.ringSlots
    requires forall i :: w.next <= i < w.next + w.req.numEntries ==>
               i in n.logSlotMap && i in n'.logSlotMap && n'.logSlotMap[i] == n.logSlotMap[i]
    ensures FlightOk(n', w)
  {
    SpanSame(n.logSlotMap, n'.logSlotMap, w.next, w.req.numEntries);
  }

  /** Recorded entries stay, except that collected ones may go. */
  ghost predicate KeepsRecords(n: Node, n': Node) {
    && n'.ringSlots == n.ringSlots && n.tailLogIndex <= n'.tailLogIndex && n'.cluster == n.cluster
    && (forall i :: i in n.logSlotMap && i in n'.logSlotMap ==> n'.logSlotMap[i] == n.logSlotMap[i])
    && (forall f :: 0 <= f < |n.cluster| && f != n.clusterIndex ==> n'.gcUpTo <= n.cluster[f].matchIndex)
  }

  lemma WorkerKept(n: Node, n': Node, full: seq<Entry>, full': seq<Entry>, w: Worker)
    requires LeaderRing(n, full) && LeaderRing(n', full') && KeepsRecords(n, n')
    requires w.fi < |n.cluster| && w.fi != n.clusterIndex && PeerInStep(n, w.fi) && WorkerInStep(n, w)
    ensures w.fi < |n'.cluster| && WorkerInStep(n', w)
  {
    if w.HasEntries() {
      hide RingOk;
      hide Chained;
      FlightKept(n, n', w);
    }
  }

  lemma QuietInStep(s: Sys, s': Sys)
    requires Inv1(s) && Inv(s') && QuietStep(s, s') && Setting(s')
    requires LeaderRing(Lead(s'), s'.full) && KeepsRecords(Lead(s), Lead(s'))
    ensures Inv1(s')
  {
    hide Tracks;
    hide Peers;
    hide CommitsHeld;
    hide LeaderRing;
    forall f | 0 <= f < |s'.nodes| && f != s'.ld ensures PeerInStep(Lead(s'), f) {
      assert PeerInStep(Lead(s), f);
    }
    forall w | w in s'.workers ensures s'.workers[w].fi < |Lead(s').cluster| && WorkerInStep(Lead(s'), s'.workers[w]) {
      assert RequestOk(s, s.workers[w]);
      WorkerKept(Lead(s), Lead(s'), s.full, s'.full, s.workers[w]);
    }
  }

  lemma InvParts(s: Sys)
    requires Inv1(s)
    ensures Inv(s) && Shape(s) && s.ld < |s.nodes| && LogOk(Lead(s)) && ClusterOk(Lead(s)) && Lead(s).role.Leader?
    ensures RecordsOk(Lead(s))
    ensures Lead(s).tailLogIndex == |s.full| && LeaderRing(Lead(s), s.full) && Setting(s)
    ensures Lead(s).clusterIndex == s.ld && |Lead(s).cluster| == |s.nodes|
    ensures forall f :: 0 <= f < |s.nodes| && f != s.ld ==> PeerInStep(Lead(s), f)
  {
    hide LeaderRing;
    hide Network;
    hide Peers;
    hide CommitsHeld;
  }

  lemma AppendInStep(s: Sys, commands: seq<seq<Byte>>)
    requires Inv1(s) && Enabled(s, Append(commands)) && SafeAppend(Lead(s), commands)
    ensures Inv1(Do(s, Append(commands)))
  {
    hide *;
    var s' := Do(s, Append(commands));
    InvParts(s);
    StepKeepsInv(s, Append(commands));
    AppendQuiet(s, commands);
    AppendEnabled(s, commands);
    AppendRing(Lead(s), s.full, commands);
    AppendFields(Lead(s), commands);
    AppendSetting(s, commands);
    QuietInStep(s, s');
  }

  lemma AppendEnabled(s: Sys, commands: seq<seq<Byte>>)
    requires Enabled(s, Append(commands)) && s.ld < |s.nodes|
    ensures commands != []
    ensures CanWriteAll(Lead(s).logSlotMap, Lead(s).tailSlot, Lead(s).headSlot, Lead(s).ringSlots, Needs(commands))
  {}

  lemma AppendSetting(s: Sys, commands: seq<seq<Byte>>)
    requires Inv1(s) && Enabled(s, Append(commands))
    requires var n' := AppendCommands(Lead(s), commands);
             && n'.gcUpTo == Lead(s).gcUpTo && n'.ringSlots == Lead(s).ringSlots && n'.cluster == Lead(s).cluster
             && n'.tailLogIndex == Lead(s).tailLogIndex + |commands|
             && forall i :: i in Lead(s).logSlotMap ==> i in n'.logSlotMap && n'.logSlotMap[i] == Lead(s).logSlotMap[i]
    ensures var s' := Do(s, Append(commands));
            && s'.ld < |s'.nodes| && Lead(s') == AppendCommands(Lead(s), commands)
            && s'.full == s.full + NewEntries(Lead(s).currentTerm, commands)
            && Setting(s') && KeepsRecords(Lead(s), Lead(s'))
  {
    hide AppendCommands;
    hide LeaderRing;
    hide Tracks;
    hide Network;
    hide Peers;
    hide CommitsHeld;
    forall f | 0 <= f < |Lead(s).cluster| && f != Lead(s).clusterIndex
      ensures Lead(s).gcUpTo <= Lead(s).cluster[f].matchIndex
    {
      assert PeerInStep(Lead(s), f);
    }
  }

  /** Commit and apply leave the ring alone. */
  lemma SameRingInStep(s: Sys, s': Sys)
    requires Inv1(s) && Inv(s') && QuietStep(s, s') && s'.full == s.full && s'.cfg == s.cfg
    requires SameRing(Lead(s), Lead(s'))
    ensures Inv1(s')
  {
    hide Tracks;
    hide Peers;
    hide Network;
    hide CommitsHeld;
    hide RingOk;
    hide Chained;
    forall f | 0 <= f < |Lead(s).cluster| && f != Lead(s).clusterIndex
      ensures Lead(s).gcUpTo <= Lead(s).cluster[f].matchIndex
    {
      assert PeerInStep(Lead(s), f);
    }
    QuietInStep(s, s');
  }

  lemma CommitInStep(s: Sys)
    requires Inv1(s) && Enabled(s, Commit)
    ensures Inv1(Do(s, Commit))
  {
    CommitQuiet(s);
    StepKeepsInv(s, Commit);
    CommitSameRing(s);
    hide *;
    SameRingInStep(s, Do(s, Commit));
  }

  lemma CommitSameRing(s: Sys)
    requires Enabled(s, Commit)
    ensures var s' := Do(s, Commit);
            s.ld < |s'.nodes| && s'.ld == s.ld && s'.full == s.full && s'.cfg == s.cfg && SameRing(Lead(s), Lead(s'))
  {
    hide QuorumIndex;
  }

  lemma ApplyInStep(s: Sys)
    requires Inv1(s) && Enabled(s, Apply)
    ensures Inv1(Do(s, Apply))
  {
    ApplyQuiet(s);
    StepKeepsInv(s, Apply);
    ApplySameRing(s);
    hide *;
    SameRingInStep(s, Do(s, Apply));
  }

  lemma ApplySameRing(s: Sys)
    requires Enabled(s, Apply)
    ensures var s' := Do(s, Apply);
            s.ld < |s'.nodes| && s'.ld == s.ld && s'.full == s.full && s'.cfg == s.cfg && SameRing(Lead(s), Lead(s'))
  {}

  // ---------------------------------------------------------------- collection

  /** What a collection does to the ring. */
  lemma CollectIs(n: Node)
    requires LogOk(n) && n.role.Leader?
    ensures var n', least := DoSlotGc(n), MinMatch(n, |n.cluster|);
            && n'.logSlotMap == FreedMap(n.logSlotMap, n.gcUpTo, least) && n'.gcUpTo == least
            && n'.tailSlot == n.tailSlot && n'.ringSlots == n.ringSlots && n'.tailLogIndex == n.tailLogIndex
            && n'.cluster == n.cluster
            && n'.headSlot == (if n'.logSlotMap == n.logSlotMap then n.headSlot else HeadOf(n'.logSlotMap, n.tailSlot))
  {
    hide HeadOf;
    hide Removable;
    hide MinMatch;
  }

  lemma CollectRing(n: Node, full: seq<Entry>)
    requires LogOk(n) && n.role.Leader? && n.tailLogIndex == |full| && LeaderRing(n, full)
    requires forall f :: 0 <= f < |n.cluster| && f != n.clusterIndex ==> n.gcUpTo <= n.cluster[f].matchIndex
    ensures LeaderRing(DoSlotGc(n), full) && KeepsRecords(n, DoSlotGc(n))
  {
    hide *;
    var n' := DoSlotGc(n);
    CollectIs(n);
    LeaderRingParts(n, full);
    MinMatchFloor(n, |n.cluster|, n.gcUpTo);
    CollectedRing(n, n', full, MinMatch(n, |n.cluster|));
    CollectKeepsRecords(n, n');
  }

  lemma CollectKeepsRecords(n: Node, n': Node)
    requires LogOk(n) && n'.gcUpTo == MinMatch(n, |n.cluster|)
    requires n'.logSlotMap == FreedMap(n.logSlotMap, n.gcUpTo, n'.gcUpTo)
    requires n'.ringSlots == n.ringSlots && n'.tailLogIndex == n.tailLogIndex && n'.cluster == n.cluster
    ensures KeepsRecords(n, n')
  {}

  lemma CollectedRing(n: Node, n': Node, full: seq<Entry>, least: nat)
    requires LeaderRing(n, full) && n.gcUpTo <= least < n.tailLogIndex
    requires n'.logSlotMap == FreedMap(n.logSlotMap, n.gcUpTo, least) && n'.gcUpTo == least
    requires n'.tailSlot == n.tailSlot && n'.ringSlots == n.ringSlots && n'.tailLogIndex == n.tailLogIndex
    requires n'.headSlot == if n'.logSlotMap == n.logSlotMap then n.headSlot else HeadOf(n'.logSlotMap, n.tailSlot)
    ensures LeaderRing(n', full)
  {
    LeaderRingParts(n, full);
    hide LeaderRing;
    hide RingOk;
    hide HeadOf;
    var m, m' := n.logSlotMap, n'.logSlotMap;
    assert RingOk(m', n'.tailSlot, n'.headSlot, n'.ringSlots) by {
      if m' != m {
        FreeSound(m, n.tailSlot, n.headSlot, n.ringSlots, m');
      }
    }
    forall i | i in m' && i + 1 in m' ensures Linked(m', n.ringSlots, i) {
      assert Linked(m, n.ringSlots, i);
    }
    forall i | i in m' ensures RecordFits(m', full, n.ringSlots, i) {
      assert RecordFits(m, full, n.ringSlots, i);
    }
    assert Anchored(m', n.tailSlot, n'.headSlot) by {
      if m' != m && m' != map[] {
        hide Anchored;
        HeadAnchored(m', n.tailSlot, n'.headSlot, n.ringSlots, least, n.tailLogIndex);
      }
    }
    LeaderRingFrom(n', full);
  }

  /** A head at or ahead of the tail belongs to a record from before the last wrap; the record that wrapped is
      newer, so it is still there. */
  lemma HeadAnchored(m: LogSlotMap, tail: nat, head: nat, ringSlots: nat, lo: nat, hi: nat)
    requires IsHead(m, tail, head) && Chained(m, ringSlots) && m != map[]
    requires (forall i :: i in m <==> lo < i < hi) && (forall i :: i in m ==> m[i].numSlots >= 1)
    requires hi > 0 && hi - 1 in m && m[hi - 1].End() == tail
    ensures Anchored(m, tail, head)
  {
    if tail <= head {
      var i :| i in m && m[i].start == head;
      var z := ChainReturns(m, tail, ringSlots, lo, hi, i);
    }
  }

  /** A chain from a record that starts at or behind `tail` to one that ends at it passes slot 0. */
  lemma {:induction false} ChainReturns(m: LogSlotMap, tail: nat, ringSlots: nat, lo: nat, hi: nat,
                                        i: nat) returns (z: nat)
    requires Chained(m, ringSlots) && (forall j :: j in m <==> lo < j < hi)
    requires (forall j :: j in m ==> m[j].numSlots >= 1)
    requires i in m && m[i].start >= tail && m[hi - 1].End() == tail
    ensures z in m && AtZero(m[z])
    decreases hi - i
  {
    assert i < hi - 1;
    assert i + 1 in m && Linked(m, ringSlots, i);
    if m[i + 1].start == 0 {
      z := i + 1;
    } else {
      z := ChainReturns(m, tail, ringSlots, lo, hi, i + 1);
    }
  }

  lemma CollectInStep(s: Sys)
    requires Inv1(s) && Enabled(s, Collect)
    ensures Inv1(Do(s, Collect))
  {
    hide *;
    InvParts(s);
    StepKeepsInv(s, Collect);
    CollectQuiet(s);
    CollectPeers(s);
    CollectRing(Lead(s), s.full);
    CollectSetting(s);
    QuietInStep(s, Do(s, Collect));
  }

  lemma CollectPeers(s: Sys)
    requires Inv1(s)
    ensures forall f :: 0 <= f < |Lead(s).cluster| && f != Lead(s).clusterIndex ==>
              Lead(s).gcUpTo <= Lead(s).cluster[f].matchIndex
  {
    hide LeaderRing;
    hide Tracks;
    hide Network;
    hide Peers;
    forall f | 0 <= f < |Lead(s).cluster| && f != Lead(s).clusterIndex
      ensures Lead(s).gcUpTo <= Lead(s).cluster[f].matchIndex
    {
      assert PeerInStep(Lead(s), f);
    }
  }

  lemma CollectSetting(s: Sys)
    requires Enabled(s, Collect) && Setting(s) && KeepsRecords(Lead(s), DoSlotGc(Lead(s)))
    ensures var s' := Do(s, Collect);
            s'.ld < |s'.nodes| && Lead(s') == DoSlotGc(Lead(s)) && s'.full == s.full && Setting(s')
  {
    hide DoSlotGc;
  }

  // ---------------------------------------------------------------- a follower's step

  lemma DeliverInStep(s: Sys, msg: Msg, copyOk: bool)
    requires Inv1(s) && Enabled(s, Deliver(msg, copyOk))
    ensures Inv1(Do(s, Deliver(msg, copyOk)))
  {
    hide *;
    InvParts(s);
    StepKeepsInv(s, Deliver(msg, copyOk));
    DeliverLeavesLeader(s, msg, copyOk);
    SameLeaderInStep(s, Do(s, Deliver(msg, copyOk)));
  }

  lemma DeliverLeavesLeader(s: Sys, msg: Msg, copyOk: bool)
    requires Inv(s) && Enabled(s, Deliver(msg, copyOk))
    ensures var s' := Do(s, Deliver(msg, copyOk));
            && |s'.nodes| == |s.nodes| && s'.ld == s.ld < |s.nodes| && Lead(s') == Lead(s) && s'.workers == s.workers
            && s'.full == s.full && s'.cfg == s.cfg && s'.a0 == s.a0
  {
    assert RequestOk(s, msg.worker);
    hide HandleAE;
  }

  lemma SameLeaderInStep(s: Sys, s': Sys)
    requires Inv1(s) && Inv(s') && |s'.nodes| == |s.nodes| && s'.ld == s.ld < |s.nodes| && Lead(s') == Lead(s)
    requires s'.workers == s.workers
    requires s'.full == s.full && s'.cfg == s.cfg && s'.a0 == s.a0
    ensures Inv1(s')
  {
    hide LeaderRing;
    hide Inv;
    hide PeerInStep;
    hide WorkerInStep;
  }

  // ---------------------------------------------------------------- Lock B

  lemma {:induction false} SpanIsSum(n: Node, next: nat, k: nat)
    requires LogOk(n) && Oldest(n) <= next && next + k <= n.tailLogIndex
    requires forall i :: next <= i < next + k ==> i in n.logSlotMap
    ensures Sum(NeedsFrom(n, next), k) == Span(n.logSlotMap, next, k)
  {
    if k > 0 {
      SpanIsSum(n, next, k - 1);
      NeedsAt(n, next, k - 1);
    }
  }

  /** A record that should be there is there, so a batch of at least one entry is found at its recorded start,
      ends inside the ring, and has a device address. */
  lemma BatchFound(n: Node, full: seq<Entry>, next: nat, cfg: Config, base: nat)
    requires LogOk(n) && RecordsOk(n) && LeaderRing(n, full) && n.gcUpTo < next < n.tailLogIndex
    requires cfg.maxBatch >= 1 && base > 0 && cfg.extents == OneExtent(base, n.ringSlots)
    ensures !RecordMissing(n, next) && Readable(n, next)
    ensures ChooseBatch(n, next, cfg).Ok?
    ensures var b := ChooseBatch(n, next, cfg).value;
            && b.len == BatchLen(NeedsFrom(n, next), cfg.maxBatch, cfg.maxBatchBytes,
                                 n.ringSlots - n.logSlotMap[next].start)
            && b.len >= 1 && next + b.len <= n.tailLogIndex && b.start == n.logSlotMap[next].start
            && b.total == Span(n.logSlotMap, next, b.len) && b.start + b.total <= n.ringSlots
            && b.pba == base + SlotOffset(b.start)
  {
    hide LeaderRing;
    hide RecordsOk;
    hide LeaderPbaForRange;
    InMemory(n, full, next);
    var needs := NeedsFrom(n, next);
    NeedsFit(n, full, next);
    var start := n.logSlotMap[next].start;
    BatchNotEmpty(needs, cfg.maxBatch, cfg.maxBatchBytes, n.ringSlots - start);
    var len := BatchLen(needs, cfg.maxBatch, cfg.maxBatchBytes, n.ringSlots - start);
    SumPositive(needs, len);
    OneExtentRange(base, n.ringSlots, start, Sum(needs, len));
    var seg := LeaderPbaForRange(cfg.extents, start, Sum(needs, len)).value;
    SameBatch(needs, cfg.maxBatch, cfg.maxBatchBytes, n.ringSlots - start, seg.len / 512);
    SpanIsSum(n, next, len);
  }

  /** An uncollected entry is recorded, and so still in memory. */
  lemma InMemory(n: Node, full: seq<Entry>, next: nat)
    requires RecordsOk(n) && LeaderRing(n, full) && n.gcUpTo < next < n.tailLogIndex
    ensures next in n.logSlotMap && Readable(n, next)
  {
    hide RingOk;
    hide Chained;
    hide Anchored;
    assert RecordFits(n.logSlotMap, full, n.ringSlots, next);
  }

  lemma NeedsFit(n: Node, full: seq<Entry>, next: nat)
    requires LogOk(n) && LeaderRing(n, full) && Oldest(n) <= next < n.tailLogIndex && n.gcUpTo < next
    ensures forall i :: next <= i < n.tailLogIndex ==> i in n.logSlotMap
    ensures !RecordMissing(n, next) && n.logSlotMap[next].start <= n.ringSlots
    ensures var needs := NeedsFrom(n, next);
            && needs[0] <= n.ringSlots - n.logSlotMap[next].start
            && forall i :: 0 <= i < |needs| ==> needs[i] >= 1
  {
    hide RingOk;
    hide Chained;
    assert RecordFits(n.logSlotMap, full, n.ringSlots, next);
    NeedsAt(n, next, 0);
    forall i | 0 <= i < n.tailLogIndex - next ensures NeedsFrom(n, next)[i] >= 1 {
      NeedsAt(n, next, i);
      assert RecordFits(n.logSlotMap, full, n.ringSlots, next + i);
    }
  }

  /** An extent that holds the chosen batch does not cut it. */
  lemma SameBatch(needs: seq<nat>, cap: nat, maxBytes: nat, limit: nat, actual: nat)
    requires Sum(needs, BatchLen(needs, cap, maxBytes, limit)) <= actual
    ensures BatchLen(needs, cap, maxBytes, Min(limit, actual)) == BatchLen(needs, cap, maxBytes, limit)
  {
    var r := BatchLen(needs, cap, maxBytes, limit);
    assert Fits(needs, cap, maxBytes, Min(limit, actual), r);
    assert !Fits(needs, cap, maxBytes, limit, r + 1);
    BatchLenIs(needs, cap, maxBytes, Min(limit, actual), r);
  }

  /** The request carries what was chosen. */
  lemma RequestCarriesChoice(n: Node, fi: nat, cfg: Config)
    requires SendReady(n, fi) && n.cluster[fi].nextIndex <= n.tailLogIndex && SendAE(n, fi, cfg).Sent?
    ensures ChooseBatch(n, n.cluster[fi].nextIndex, cfg).Ok?
    ensures var b, req := ChooseBatch(n, n.cluster[fi].nextIndex, cfg).value, SendAE(n, fi, cfg).worker.req;
            req.startSlot == b.start && req.blockLength == b.total && req.numEntries == b.len && req.pbaSrc == b.pba
    ensures SendAE(n, fi, cfg).worker.req.numEntries > 0 ==> n.cluster[fi].nextIndex < n.tailLogIndex
  {
    assert n.cluster[fi := n.cluster[fi]] == n.cluster;
    hide BatchLen;
    hide LeaderPbaForRange;
  }

  lemma SendFlight(s: Sys, fi: nat, wid: nat)
    requires Inv1(s) && Enabled(s, Send(fi, wid)) && SendAE(Lead(s), fi, s.cfg).Sent?
    requires SendAE(Lead(s), fi, s.cfg).worker.HasEntries()
    requires SendAE(Lead(s), fi, s.cfg).worker.next == Lead(s).cluster[fi].nextIndex
    ensures FlightOk(Lead(s), SendAE(Lead(s), fi, s.cfg).worker)
  {
    hide LeaderRing;
    hide Tracks;
    hide Network;
    hide CommitsHeld;
    hide SendAE;
    hide ChooseBatch;
    var n := Lead(s);
    assert PeerOk(s, fi) && PeerInStep(n, fi);
    RequestCarriesChoice(n, fi, s.cfg);
    var base :| base > 0 && s.cfg.extents == OneExtent(base, n.ringSlots);
    BatchFound(n, s.full, n.cluster[fi].nextIndex, s.cfg, base);
  }

  lemma SendInStep(s: Sys, fi: nat, wid: nat)
    requires Inv1(s) && Enabled(s, Send(fi, wid))
    ensures Inv1(Do(s, Send(fi, wid)))
  {
    hide *;
    InvParts(s);
    SendMember(s, fi, wid);
    var s' := Do(s, Send(fi, wid));
    if SendAE(Lead(s), fi, s.cfg).Sent? {
      var w := SendAE(Lead(s), fi, s.cfg).worker;
      StepKeepsInv(s, Send(fi, wid));
      SendMoves(s, fi, wid);
      if w.HasEntries() {
        SendFlight(s, fi, wid);
      }
      SentInStep(s, s', fi, wid, w);
    } else {
      SendIdle(s, fi, wid);
    }
  }

  lemma SendMember(s: Sys, fi: nat, wid: nat)
    requires Enabled(s, Send(fi, wid))
    ensures s.ld < |s.nodes| && SendReady(Lead(s), fi) && fi != s.ld
  {}

  lemma SentInStep(s: Sys, s': Sys, fi: nat, wid: nat, w: Worker)
    requires Inv1(s) && Inv(s') && MemberMoves(s, s', fi) && fi != s.ld && s'.workers == s.workers[wid := w]
    requires w.fi == fi && w.next == Lead(s).cluster[fi].nextIndex && (w.HasEntries() ==> FlightOk(Lead(s), w))
    requires Lead(s').cluster[fi] == Lead(s).cluster[fi].(inflight := Lead(s).cluster[fi].inflight || w.HasEntries())
    ensures Inv1(s')
  {
    hide Network;
    hide Tracks;
    hide CommitsHeld;
    hide Peers;
    hide Span;
    MemberRing(s, s', fi);
    hide LeaderRing;
    forall f | 0 <= f < |s'.nodes| && f != s'.ld ensures PeerInStep(Lead(s'), f) {
      assert PeerInStep(Lead(s), f);
    }
    forall v | v in s'.workers ensures s'.workers[v].fi < |Lead(s').cluster| && WorkerInStep(Lead(s'), s'.workers[v]) {
      assert v != wid ==> WorkerInStep(Lead(s), s.workers[v]);
    }
  }

  lemma MemberRing(s: Sys, s': Sys, f: nat)
    requires s.ld < |s.nodes| && Setting(s) && LeaderRing(Lead(s), s.full) && MemberMoves(s, s', f)
    ensures LeaderRing(Lead(s'), s'.full) && Setting(s') && SameRing(Lead(s), Lead(s'))
  {
    hide RingOk;
    hide Chained;
  }

  // ---------------------------------------------------------------- Lock C

  /** Without conflicts to resolve, a reply confirms the whole batch or changes nothing. */
  lemma RespondExact(s: Sys, wid: nat, rsp: Option<AEResponse>)
    requires Inv1(s) && Enabled(s, Respond(wid, rsp))
    ensures var s', w := Do(s, Respond(wid, rsp)), s.workers[wid];
            && w.fi != s.ld && MemberMoves(s, s', w.fi) && s'.workers == s.workers - {wid}
            && var m, m' := Lead(s).cluster[w.fi], Lead(s').cluster[w.fi];
               && m'.nextIndex == m'.matchIndex + 1 && m.matchIndex <= m'.matchIndex
               && (!w.HasEntries() ==> m'.nextIndex == m.nextIndex)
  {
    hide LeaderRing;
    hide Tracks;
    hide CommitsHeld;
    hide Peers;
    hide TakeReply;
    hide ReplyOk;
    var w := s.workers[wid];
    assert RequestOk(s, w) && WorkerInStep(Lead(s), w) && PeerInStep(Lead(s), w.fi);
    RespondMoves(s, wid, rsp);
    ReplyFacts(Lead(s), w, rsp);
  }

  lemma RespondInStep(s: Sys, wid: nat, rsp: Option<AEResponse>)
    requires Inv1(s) && Enabled(s, Respond(wid, rsp))
    ensures Inv1(Do(s, Respond(wid, rsp)))
  {
    hide *;
    InvParts(s);
    StepKeepsInv(s, Respond(wid, rsp));
    RespondExact(s, wid, rsp);
    RespondEnabled(s, wid, rsp);
    RespondedInStep(s, Do(s, Respond(wid, rsp)), wid, s.workers[wid]);
  }

  lemma RespondEnabled(s: Sys, wid: nat, rsp: Option<AEResponse>)
    requires Inv1(s) && Enabled(s, Respond(wid, rsp))
    ensures wid in s.workers && s.workers[wid].fi < |s.nodes|
  {
    assert RequestOk(s, s.workers[wid]);
    hide LeaderRing;
    hide Tracks;
    hide Peers;
  }

  lemma RespondedInStep(s: Sys, s': Sys, wid: nat, w: Worker)
    requires Inv1(s) && Inv(s') && w.fi < |s.nodes| && w.fi != s.ld && MemberMoves(s, s', w.fi)
    requires wid in s.workers && s.workers[wid] == w && s'.workers == s.workers - {wid}
    requires var m, m' := Lead(s).cluster[w.fi], Lead(s').cluster[w.fi];
             && m'.nextIndex == m'.matchIndex + 1 && m.matchIndex <= m'.matchIndex
             && (!w.HasEntries() ==> m'.nextIndex == m.nextIndex)
    ensures Inv1(s')
  {
    hide Network;
    hide Tracks;
    hide CommitsHeld;
    hide Span;
    assert PeerOk(s, w.fi) && PeerInStep(Lead(s), w.fi);
    MemberRing(s, s', w.fi);
    hide LeaderRing;
    forall f | 0 <= f < |s'.nodes| && f != s'.ld ensures PeerInStep(Lead(s'), f) {
      assert PeerInStep(Lead(s), f);
    }
    forall v | v in s'.workers ensures s'.workers[v].fi < |Lead(s').cluster| && WorkerInStep(Lead(s'), s'.workers[v]) {
      assert WorkerInStep(Lead(s), s.workers[v]);
      assert DataFor(s.workers[wid], w.fi) <==> w.HasEntries();
      assert DataFor(s.workers[v], w.fi) <==> s.workers[v].HasEntries() && s.workers[v].fi == w.fi;
    }
  }

  // ---------------------------------------------------------------- whole runs

  lemma StepInStep(s: Sys, step: Step)
    requires Inv1(s) && Enabled(s, step) && (step.Append? ==> SafeAppend(Lead(s), step.commands))
    ensures Inv1(Do(s, step))
  {
    hide *;
    match step
    case Append(commands) => AppendInStep(s, commands);
    case Send(fi, wid) => SendInStep(s, fi, wid);
    case Deliver(msg, copyOk) => DeliverInStep(s, msg, copyOk);
    case Respond(wid, rsp) => RespondInStep(s, wid, rsp);
    case Commit => CommitInStep(s);
    case Apply => ApplyInStep(s);
    case Collect => CollectInStep(s);
  }

  lemma FirstTermInv(s: Sys)
    requires FirstTerm(s)
    ensures Inv1(s)
  {
    hide CommitsHeld;
    hide Tracks;
    hide Peers;
    hide Network;
    StartInv(s);
    var n := Lead(s);
    assert n.logSlotMap[1] == SlotRecord(0, 1);
    assert RecordFits(n.logSlotMap, s.full, n.ringSlots, 1);
    assert LeaderRing(n, s.full);
  }

  lemma {:induction false} FirstRunKeepsInv(run: seq<Sys>, steps: seq<Step>, k: nat)
    requires IsFirstRun(run, steps) && k < |run|
    ensures Inv1(run[k])
  {
    hide Inv1;
    hide Do;
    hide SafeAppend;
    if k == 0 {
      FirstTermInv(run[0]);
    } else {
      FirstRunKeepsInv(run, steps, k - 1);
      InvParts(run[k - 1]);
      StepInStep(run[k - 1], steps[k - 1]);
    }
  }

  /** The condition on client batches is the weakest one: in any state of such a run, a batch that the capacity
      check takes keeps the ring sound if and only if it is safe. */
  lemma AppendKeepsRingIff(run: seq<Sys>, steps: seq<Step>, k: nat, commands: seq<seq<Byte>>)
    requires IsFirstRun(run, steps) && k < |run| && Enabled(run[k], Append(commands))
    ensures run[k].ld < |run[k].nodes|
    ensures var n, n' := Lead(run[k]), AppendCommands(Lead(run[k]), commands);
            LeaderRing(n', run[k].full + NewEntries(n.currentTerm, commands)) <==>
            SafeBatch(n.logSlotMap, n.tailSlot, n.headSlot, n.ringSlots, Needs(commands))
  {
    hide *;
    FirstRunKeepsInv(run, steps, k);
    InvParts(run[k]);
    AppendEnabled(run[k], commands);
    AppendSoundIff(Lead(run[k]), run[k].full, commands);
  }

  lemma AppendSoundIff(n: Node, full: seq<Entry>, commands: seq<seq<Byte>>)
    requires LogOk(n) && ClusterOk(n) && n.role.Leader? && n.tailLogIndex == |full| && LeaderRing(n, full)
    requires commands != []
    requires CanWriteAll(n.logSlotMap, n.tailSlot, n.headSlot, n.ringSlots, Needs(commands))
    ensures LeaderRing(AppendCommands(n, commands), full + NewEntries(n.currentTerm, commands)) <==>
            SafeBatch(n.logSlotMap, n.tailSlot, n.headSlot, n.ringSlots, Needs(commands))
  {
    hide *;
    var n', full' := AppendCommands(n, commands), full + NewEntries(n.currentTerm, commands);
    LeaderRingParts(n, full);
    AppendIs(n, commands);
    NeedsPositive(commands);
    AcceptedSoundIff(n.logSlotMap, n.tailSlot, n.headSlot, n.ringSlots, n.tailLogIndex, Needs(commands));
    if SafeBatch(n.logSlotMap, n.tailSlot, n.headSlot, n.ringSlots, Needs(commands)) {
      IsSafeAppend(n, commands);
      AppendRing(n, full, commands);
    } else if LeaderRing(n', full') {
      LeaderRingParts(n', full');
    }
  }

  lemma NeedsPositive(commands: seq<seq<Byte>>)
    ensures |Needs(commands)| == |commands| && forall i :: 0 <= i < |commands| ==> Needs(commands)[i] >= 1
  {}

  lemma IsSafeAppend(n: Node, commands: seq<seq<Byte>>)
    requires CanWriteAll(n.logSlotMap, n.tailSlot, n.headSlot, n.ringSlots, Needs(commands))
    requires SafeBatch(n.logSlotMap, n.tailSlot, n.headSlot, n.ringSlots, Needs(commands))
    ensures SafeAppend(n, commands)
  {}

  /** In every run of a first leader the slot map holds exactly the entries that are not collected, without
      overlap, and collection stays behind every member. */
  lemma MapIsUncollected(run: seq<Sys>, steps: seq<Step>, k: nat)
    requires IsFirstRun(run, steps) && k < |run|
    ensures run[k].ld < |run[k].nodes|
    ensures var n := Lead(run[k]);
            && |n.cluster| == |run[k].nodes|
            && (forall i :: i in n.logSlotMap <==> n.gcUpTo < i < n.tailLogIndex)
            && (forall i, j :: i in n.logSlotMap && j in n.logSlotMap && i != j ==>
                  Apart(n.logSlotMap[i], n.logSlotMap[j]))
            && (forall f :: 0 <= f < |n.cluster| && f != run[k].ld ==> n.gcUpTo <= n.cluster[f].matchIndex)
  {
    FirstRunKeepsInv(run, steps, k);
    hide Inv;
    InvParts(run[k]);
    forall f | 0 <= f < |Lead(run[k]).cluster| && f != run[k].ld
      ensures Lead(run[k]).gcUpTo <= Lead(run[k]).cluster[f].matchIndex
    {
      assert PeerInStep(Lead(run[k]), f);
    }
  }

  /** No record of a batch whose worker has not reached Lock C is freed or moved, and the batch lies in one
      piece from the start slot that was announced. */
  lemma FlightsKeepTheirRecords(run: seq<Sys>, steps: seq<Step>, k: nat, wid: nat, j: nat)
    requires IsFirstRun(run, steps) && k < |run| && wid in run[k].workers && run[k].workers[wid].HasEntries()
    requires j < run[k].workers[wid].req.numEntries
    ensures run[k].ld < |run[k].nodes|
    ensures var n, w := Lead(run[k]), run[k].workers[wid];
            && w.next + j in n.logSlotMap
            && n.logSlotMap[w.next + j].start == w.req.startSlot + Span(n.logSlotMap, w.next, j)
            && w.req.blockLength == Span(n.logSlotMap, w.next, w.req.numEntries)
            && w.req.startSlot + w.req.blockLength <= n.ringSlots
  {
    hide *;
    FirstRunKeepsInv(run, steps, k);
    InvParts(run[k]);
    FlightParts(run[k], wid);
    FlightInOnePiece(Lead(run[k]), run[k].full, run[k].workers[wid], j);
  }

  lemma FlightParts(s: Sys, wid: nat)
    requires Inv1(s) && wid in s.workers && s.workers[wid].HasEntries()
    ensures var n, w := Lead(s), s.workers[wid];
            FlightOk(n, w) && Oldest(n) <= w.next && n.gcUpTo < w.next
  {
    hide Tracks;
    hide CommitsHeld;
    hide LeaderRing;
    hide Span;
    var w := s.workers[wid];
    assert RequestOk(s, w) && WorkerInStep(Lead(s), w) && PeerInStep(Lead(s), w.fi) && PeerOk(s, w.fi);
  }

  lemma FlightInOnePiece(n: Node, full: seq<Entry>, w: Worker, j: nat)
    requires LogOk(n) && LeaderRing(n, full) && FlightOk(n, w) && Oldest(n) <= w.next && n.gcUpTo < w.next
    requires j < w.req.numEntries
    ensures w.HasEntries() && w.next + j in n.logSlotMap
    ensures n.logSlotMap[w.next + j].start == w.req.startSlot + Span(n.logSlotMap, w.next, j)
    ensures w.req.blockLength == Span(n.logSlotMap, w.next, w.req.numEntries)
    ensures w.req.startSlot + w.req.blockLength <= n.ringSlots
  {
    hide RingOk;
    hide Chained;
    SpanIsSum(n, w.next, w.req.numEntries);
    SpanIsSum(n, w.next, j);
    hide Span;
    BatchContiguous(n, w.next, w.req.numEntries, j);
  }

  /** The branches that fall back to a heartbeat because a record is missing are never taken: whenever a member
      lacks entries and no flight is under way, a request with at least one entry goes out. */
  lemma SendNeverFallsBack(run: seq<Sys>, steps: seq<Step>, k: nat, f: nat)
    requires IsFirstRun(run, steps) && k < |run| && f < |run[k].nodes| && f != run[k].ld
    ensures run[k].ld < |run[k].nodes| && SendReady(Lead(run[k]), f)
    ensures var n := Lead(run[k]);
            n.cluster[f].nextIndex < n.tailLogIndex ==>
              && !RecordMissing(n, n.cluster[f].nextIndex)
              && (!n.cluster[f].inflight ==>
                    SendAE(n, f, run[k].cfg).Sent? && SendAE(n, f, run[k].cfg).worker.HasEntries())
  {
    hide *;
    FirstRunKeepsInv(run, steps, k);
    InvParts(run[k]);
    AlwaysReady(run[k]);
    MemberParts(run[k], f);
    SendsData(Lead(run[k]), run[k].full, f, run[k].cfg);
  }

  lemma MemberParts(s: Sys, f: nat)
    requires Inv1(s) && f < |s.nodes| && f != s.ld
    ensures var n := Lead(s);
            && n.gcUpTo < n.cluster[f].nextIndex <= n.tailLogIndex
            && s.cfg.maxBatch >= 1 && (exists base :: base > 0 && s.cfg.extents == OneExtent(base, n.ringSlots))
  {
    hide LeaderRing;
    hide Tracks;
    hide Network;
    hide CommitsHeld;
    assert PeerOk(s, f) && PeerInStep(Lead(s), f);
  }

  lemma SendsData(n: Node, full: seq<Entry>, f: nat, cfg: Config)
    requires SendReady(n, f) && RecordsOk(n) && LeaderRing(n, full)
    requires n.gcUpTo < n.cluster[f].nextIndex <= n.tailLogIndex
    requires cfg.maxBatch >= 1 && exists base :: base > 0 && cfg.extents == OneExtent(base, n.ringSlots)
    ensures n.cluster[f].nextIndex < n.tailLogIndex ==>
              && !RecordMissing(n, n.cluster[f].nextIndex)
              && (!n.cluster[f].inflight ==> SendAE(n, f, cfg).Sent? && SendAE(n, f, cfg).worker.HasEntries())
  {
    hide LeaderRing;
    hide RecordsOk;
    hide ChooseBatch;
    var next := n.cluster[f].nextIndex;
    if next < n.tailLogIndex {
      var base :| base > 0 && cfg.extents == OneExtent(base, n.ringSlots);
      BatchFound(n, full, next, cfg, base);
      assert n.cluster[f := n.cluster[f]] == n.cluster;
    }
  }

  // ---------------------------------------------------------------- slots announced in a run

  /** The request that goes out at step `k`. */
  ghost function Announced(run: seq<Sys>, steps: seq<Step>, k: nat): Worker
    requires k < |steps| == |run| - 1 && steps[k].Send? && Enabled(run[k], steps[k])
    requires SendAE(Lead(run[k]), steps[k].fi, run[k].cfg).Sent?
  {
    SendAE(Lead(run[k]), steps[k].fi, run[k].cfg).worker
  }

  /** In every run of a first leader, the slots a follower computes for an announced batch are the leader's
      recorded starts exactly when no entry but the last was applied before it was announced, one-slot
      entries aside. */
  lemma AnnouncedSlotsAgreeIff(run: seq<Sys>, steps: seq<Step>, k: nat)
    requires IsFirstRun(run, steps) && k < |steps| && steps[k].Send?
    requires SendAE(Lead(run[k]), steps[k].fi, run[k].cfg).Sent?
    requires Announced(run, steps, k).HasEntries()
    ensures var n, w := Lead(run[k]), Announced(run, steps, k);
            && |w.req.metas| == w.req.numEntries && w.next + w.req.numEntries <= n.tailLogIndex
            && (forall i :: w.next <= i < w.next + w.req.numEntries ==> i in n.logSlotMap)
            && ((forall j: nat :: j < w.req.numEntries ==> SameSlot(n, w.next, w.req.startSlot, w.req.metas, j))
            <==> (forall i :: w.next <= i < w.next + w.req.numEntries - 1 ==> AnnouncedInFull(n, i)))
  {
    FirstRunKeepsInv(run, steps, k);
    SendSlotsAgreeIff(run[k], steps[k].fi, steps[k].wid);
  }

  /** The entries of a batch are the leader's own, recorded with the slots they need. */
  lemma SendsOwnBatch(s: Sys, fi: nat, wid: nat, b: BatchChoice)
    requires Inv1(s) && Enabled(s, Send(fi, wid))
    requires Lead(s).cluster[fi].nextIndex < Lead(s).tailLogIndex
    requires ChooseBatch(Lead(s), Lead(s).cluster[fi].nextIndex, s.cfg) == Ok(b)
    ensures OwnBatch(Lead(s), Lead(s).cluster[fi].nextIndex, b)
  {
    hide ChooseBatch;
    hide Network;
    hide CommitsHeld;
    hide RingOk;
    hide Span;
    var n := Lead(s);
    assert PeerOk(s, fi) && PeerInStep(n, fi);
    var next := n.cluster[fi].nextIndex;
    var base :| base > 0 && s.cfg.extents == OneExtent(base, n.ringSlots);
    BatchFound(n, s.full, next, s.cfg, base);
    SpanIsSum(n, next, b.len);
    forall i | next <= i < next + b.len ensures OwnEntry(n, i) {
      IsOwnEntry(s, i);
    }
  }

  lemma IsOwnEntry(s: Sys, i: nat)
    requires Inv1(s) && s.ld < |s.nodes| && LogOk(Lead(s)) && i in Lead(s).logSlotMap
    requires Oldest(Lead(s)) <= i < Lead(s).tailLogIndex
    ensures OwnEntry(Lead(s), i)
  {
    hide Peers;
    hide Network;
    hide CommitsHeld;
    hide RingOk;
    hide Chained;
    var n := Lead(s);
    LeaderRingParts(n, s.full);
    assert RecordFits(n.logSlotMap, s.full, n.ringSlots, i);
    assert EntryAt(n, i) == Seen(s.full[i], i, s.c0, n.commitIndex, s.a0, n.lastApplied);
  }

  lemma SendSlotsAgreeIff(s: Sys, fi: nat, wid: nat)
    requires Inv1(s) && Enabled(s, Send(fi, wid)) && SendAE(Lead(s), fi, s.cfg).Sent?
    requires SendAE(Lead(s), fi, s.cfg).worker.HasEntries()
    ensures var n, w := Lead(s), SendAE(Lead(s), fi, s.cfg).worker;
            && |w.req.metas| == w.req.numEntries && w.next + w.req.numEntries <= n.tailLogIndex
            && (forall i :: w.next <= i < w.next + w.req.numEntries ==> i in n.logSlotMap)
            && ((forall j: nat :: j < w.req.numEntries ==> SameSlot(n, w.next, w.req.startSlot, w.req.metas, j))
            <==> (forall i :: w.next <= i < w.next + w.req.numEntries - 1 ==> AnnouncedInFull(n, i)))
  {
    hide LeaderRing;
    hide Inv;
    hide Setting;
    hide SendAE;
    hide ChooseBatch;
    hide OwnBatch;
    SendFits(s, fi, wid);
    var n := Lead(s);
    InvParts(s);
    var next := n.cluster[fi].nextIndex;
    SendFacts(n, fi, s.cfg);
    RequestCarriesChoice(n, fi, s.cfg);
    SendsOwnBatch(s, fi, wid, ChooseBatch(n, next, s.cfg).value);
    AgreeIff(n, next, ChooseBatch(n, next, s.cfg).value, SendAE(n, fi, s.cfg).worker.req.metas);
  }

  lemma SendFits(s: Sys, fi: nat, wid: nat)
    requires Inv1(s) && Enabled(s, Send(fi, wid))
    ensures SendReady(Lead(s), fi) && 1 <= Lead(s).cluster[fi].nextIndex <= Lead(s).tailLogIndex
  {
    hide LeaderRing;
    hide Tracks;
    assert PeerOk(s, fi);
  }

  lemma AgreeIff(n: Node, next: nat, b: BatchChoice, metas: seq<EntryMeta>)
    requires OwnBatch(n, next, b) && |metas| == b.len
    requires forall k :: 0 <= k < b.len ==> metas[k] == MetaOf(EntryAt(n, next + k))
    ensures forall i :: next <= i < next + b.len ==> i in n.logSlotMap
    ensures (forall j: nat :: j < b.len ==> SameSlot(n, next, b.start, metas, j))
       <==> (forall i :: next <= i < next + b.len - 1 ==> AnnouncedInFull(n, i))
  {
    hide SameSlot;
    hide Chained;
    hide AnnouncedInFull;
    hide OwnEntry;
    hide MetaOf;
    assert metas == RequestFor(n, next, b).metas;
    SlotAgreementIff(n, next, b);
  }

  // ---------------------------------------------------------------- how a first term begins

  /** Promotion of a fresh server begins such a term. */
  lemma FirstPromotion(nodes: seq<Node>, ld: nat, read: Reader, cfg: Config, base: nat)
    requires BeforePromotion(nodes, ld, [SENTINEL])
    requires var n := nodes[ld];
             && n.log == [SENTINEL] && n.tailLogIndex == 1 && n.commitIndex == 0 && n.lastApplied == 1
             && n.logSlotMap == map[] && n.tailSlot == 0 && n.ringSlots >= 1
    requires cfg.maxBatch >= 1 && base > 0 && cfg.extents == OneExtent(base, nodes[ld].ringSlots)
    ensures FirstTerm(AfterPromotion(nodes, ld, [SENTINEL], read, cfg))
  {
    hide Start;
    hide Elected;
    PromotionStarts(nodes, ld, [SENTINEL], read, cfg);
    assert BeforeNode(nodes, ld, [SENTINEL], ld);
    FreshLeader(nodes[ld], read);
    hide BecomeLeader;
  }

  lemma FreshLeader(n: Node, read: Reader)
    requires LogOk(n) && ClusterOk(n) && Elected(n)
    requires n.log == [SENTINEL] && n.tailLogIndex == 1 && n.commitIndex == 0 && n.lastApplied == 1
    requires n.logSlotMap == map[] && n.tailSlot == 0 && n.ringSlots >= 1
    ensures var n' := BecomeLeader(n, read);
            && n'.log == [SENTINEL, Entry([], n.currentTerm, Waiting, 0, 0)] && n'.tailLogIndex == 2
            && n'.commitIndex == 0 && n'.lastApplied == 1 && n'.ringSlots == n.ringSlots
            && n'.currentTerm == n.currentTerm
            && n'.logSlotMap == map[1 := SlotRecord(0, 1)] && n'.tailSlot == 1 && n'.headSlot == 0 && n'.gcUpTo == 0
            && !n'.gcHasRun
            && (forall f :: 0 <= f < |n'.cluster| ==> n'.cluster[f].nextIndex == 1 && n'.cluster[f].matchIndex == 0)
  {
    var n1 := Promoted(n, read);
    assert n1.log == [SENTINEL];
    var n2 := n1.(log := n1.log + [Entry([], n.currentTerm, Waiting, 0, 0)], tailLogIndex := 2);
    var needs := NewestNeeds(n2, 1);
    assert needs == [1];
    assert Ptr(needs, 0, n.ringSlots, 1) == 1;
    assert Recorded(map[], 1, needs, 0, n.ringSlots, 0) == map[];
    assert Recorded(map[], 1, needs, 0, n.ringSlots, 1) == map[1 := SlotRecord(0, 1)];
  }

  // ---------------------------------------------------------------- slot counts

  /** In every run of a first leader, every entry that is still in memory counts the slots its command needs: recorded
      or collected, before it is applied and after. */
  lemma SlotCountsStay(run: seq<Sys>, steps: seq<Step>, k: nat, i: nat)
    requires IsFirstRun(run, steps) && k < |run|
    requires run[k].ld < |run[k].nodes| && LogOk(Lead(run[k])) && Oldest(Lead(run[k])) <= i < Lead(run[k]).tailLogIndex
    ensures i < |run[k].full| && SlotsForLogIndex(Lead(run[k]), i) == SlotsForEntry(|run[k].full[i].command|)
    ensures EntrySlots(EntryAt(Lead(run[k]), i)) == SlotsForEntry(|run[k].full[i].command|)
  {
    FirstRunKeepsInv(run, steps, k);
    CountsNeeds(run[k], i);
  }

  lemma CountsNeeds(s: Sys, i: nat)
    requires Inv1(s) && s.ld < |s.nodes| && LogOk(Lead(s)) && Oldest(Lead(s)) <= i < Lead(s).tailLogIndex
    ensures i < |s.full| && SlotsForLogIndex(Lead(s), i) == SlotsForEntry(|s.full[i].command|)
    ensures EntrySlots(EntryAt(Lead(s), i)) == SlotsForEntry(|s.full[i].command|)
  {
    hide Network;
    hide CommitsHeld;
    hide Peers;
    hide RingOk;
    hide SlotsForEntry;
    var n := Lead(s);
    InvParts(s);
    assert EntryAt(n, i) == Seen(s.full[i], i, s.c0, n.commitIndex, s.a0, n.lastApplied);
    assert i in n.logSlotMap ==> RecordFits(n.logSlotMap, s.full, n.ringSlots, i);
  }
}
