/** A run of three servers in which the follower's slots go wrong: one follower has confirmed a batch, so that the
    leader commits and applies it, before the other one is told about it. */
module SlotLimits {
  import opened Basics
  import opened Extents
  import opened Ring
  import opened Types
  import opened Batch
  import opened Progress
  import opened Commit
  import opened Election
  import opened Follower
  import opened LeaderLog
  import opened SlotAgreement
  import opened Replication
  import opened ReplicationRuns
  import opened FirstLeader
  import ElectionLimits
  import EntryCodec
  import Succession

  const CFG: Config := Config(10, 1000000, OneExtent(4096, 100))

  /** One command of two slots and one of a single slot. */
  function Commands(): seq<seq<Byte>> {
    [EntryCodec.Zeros(600), [7]]
  }

  function Log(): seq<Entry> {
    [SENTINEL, Entry([], 1, Waiting, 0, 0)] + NewEntries(1, Commands())
  }

  lemma LogIs()
    ensures |Log()| == 4 && |Commands()| == 2
    ensures forall i :: 0 < i < 4 ==> Log()[i].term == 1
    ensures SlotsForEntry(|Log()[1].command|) == 1 && SlotsForEntry(|Log()[2].command|) == 2
    ensures SlotsForEntry(|Log()[3].command|) == 1
  {}

  /** What the leader, node 0, shows: how much of the log there is, how far member 1 has come, and that member 2 has
      been told nothing. */
  ghost predicate Stage(s: Sys, tail: nat, match1: nat, out1: bool, commit: nat, applied: nat) {
    && Inv1(s) && |s.nodes| == 3 && s.ld == 0 && s.cfg == CFG && tail <= |Log()| && s.full == Log()[..tail]
    && var n := Lead(s);
       && n.role.Leader? && n.currentTerm == 1 && n.ringSlots == 100 && n.gcUpTo == 0 && |n.cluster| == 3
       && n.clusterIndex == 0
       && n.commitIndex == commit && n.lastApplied == applied
       && n.cluster[1].matchIndex == match1 && n.cluster[1].nextIndex == match1 + 1 && n.cluster[1].inflight == out1
       && n.cluster[2].matchIndex == 0 && n.cluster[2].nextIndex == 1 && !n.cluster[2].inflight
       && 1 in n.logSlotMap && n.logSlotMap[1].start == 0
  }

  // ---------------------------------------------------------------- the beginning

  lemma Promotion(read: Reader) returns (run: seq<Sys>, steps: seq<Step>)
    ensures IsFirstRun(run, steps) && |run| == 1 && steps == []
    ensures Stage(run[0], 2, 0, false, 0, 1) && Lead(run[0]).tailSlot == 1 && Lead(run[0]).headSlot == 0
    ensures run[0].workers == map[] && run[0].nodes[1].tailLogIndex == 1
    ensures run[0].nodes[1].ringSlots == 100
  {
    hide BecomeLeader;
    hide Elected;
    hide RecordsOk;
    hide FirstTerm;
    hide Start;
    hide Stage;
    var n0 := ElectionLimits.Voted(0, Candidate, 1, [1, 1, 0]);
    var n1, n2 := ElectionLimits.StartNode(1), ElectionLimits.StartNode(2);
    var nodes := [n0, n1, n2];
    BeforeIt(nodes, n0, n1, n2);
    FirstPromotion(nodes, 0, read, CFG, 4096);
    FreshLeader(n0, read);
    var s := AfterPromotion(nodes, 0, [SENTINEL], read, CFG);
    FirstStage(s);
    run, steps := [s], [];
    BeginRun(s);
  }

  lemma BeginRun(s: Sys)
    requires FirstTerm(s)
    ensures IsFirstRun([s], [])
  {
    hide Start;
  }

  lemma FirstStage(s: Sys)
    requires FirstTerm(s) && |s.nodes| == 3 && s.ld == 0 && s.cfg == CFG && Lead(s).currentTerm == 1
    requires Lead(s).ringSlots == 100
    ensures Stage(s, 2, 0, false, 0, 1)
  {
    hide CommitsHeld;
    hide Inv1;
    FirstTermInv(s);
    assert StartPeer(s, 1) && StartPeer(s, 2);
    assert Log()[..2] == [SENTINEL, Entry([], 1, Waiting, 0, 0)];
    assert Lead(s).logSlotMap[1] == SlotRecord(0, 1);
  }

  lemma BeforeIt(nodes: seq<Node>, n0: Node, n1: Node, n2: Node)
    requires n0 == ElectionLimits.Voted(0, Candidate, 1, [1, 1, 0]) && n1 == ElectionLimits.StartNode(1)
    requires n2 == ElectionLimits.StartNode(2)
    requires nodes == [n0, n1, n2]
    ensures BeforePromotion(nodes, 0, [SENTINEL]) && LogOk(n0) && ClusterOk(n0) && Elected(n0)
  {
    hide CountGe;
    hide Supporters;
    assert nodes[0] == n0 && nodes[1] == n1 && nodes[2] == n2;
    TwoVotes(n0);
    forall i | 0 <= i < 3 ensures BeforeNode(nodes, 0, [SENTINEL], i) {}
    assert Lasts(nodes) == [0, 0, 0];
    AllAtStart();
  }

  lemma TwoVotes(n: Node)
    requires n == ElectionLimits.Voted(0, Candidate, 1, [1, 1, 0])
    ensures Supporters(n, 3) == 2
  {
    assert Supporters(n, 0) == 0 && Supporters(n, 1) == 1 && Supporters(n, 2) == 2;
  }

  lemma AllAtStart()
    ensures CountGe([0, 0, 0], 0) == 3
  {
    assert [0][1..] == [] && [0, 0][1..] == [0] && [0, 0, 0][1..] == [0, 0];
    assert CountGe([0], 0) == 1 && CountGe([0, 0], 0) == 2;
  }

  // ---------------------------------------------------------------- going on

  lemma GoOn(run: seq<Sys>, steps: seq<Step>, step: Step) returns (run': seq<Sys>, steps': seq<Step>)
    requires IsFirstRun(run, steps) && Enabled(run[|run| - 1], step)
    requires step.Append? && run[|run| - 1].ld < |run[|run| - 1].nodes| ==>
               SafeAppend(Lead(run[|run| - 1]), step.commands)
    ensures IsFirstRun(run', steps') && run' == run + [Do(run[|run| - 1], step)] && steps' == steps + [step]
  {
    hide Do;
    hide Enabled;
    hide SafeAppend;
    hide FirstTerm;
    hide Start;
    run', steps' := run + [Do(run[|run| - 1], step)], steps + [step];
    assert run'[0] == run[0];
  }

  lemma AppendStage(s: Sys)
    requires Stage(s, 2, 0, false, 0, 1) && Lead(s).tailSlot == 1 && Lead(s).headSlot == 0
    ensures Enabled(s, Append(Commands())) && SafeAppend(Lead(s), Commands())
    ensures var s' := Do(s, Append(Commands()));
            && Stage(s', 4, 0, false, 0, 1) && s'.workers == s.workers && |s'.nodes| == |s.nodes|
            && s'.nodes[1] == s.nodes[1]
  {
    hide Inv1;
    hide AppendCommands;
    hide RecordsOk;
    hide LeaderRing;
    hide SafeAppend;
    hide CanWriteAll;
    LogIs();
    InvParts(s);
    AlwaysReady(s);
    Takes(Lead(s));
    var s' := Do(s, Append(Commands()));
    StepInStep(s, Append(Commands()));
    AppendFields(Lead(s), Commands());
    AppendRing(Lead(s), s.full, Commands());
    assert s'.full == Log()[..4];
  }

  lemma Takes(n: Node)
    requires n.role.Leader? && n.tailSlot == 1 && n.headSlot == 0 && n.ringSlots == 100 && 1 in n.logSlotMap
    ensures TakesBatch(n, Commands()) && SafeAppend(n, Commands())
  {
    hide PassesAll;
    hide NeverRewraps;
    var needs := Needs(Commands());
    assert needs == [2, 1];
    TwoPass(needs);
  }

  lemma TwoPass(needs: seq<nat>)
    requires needs == [2, 1]
    ensures PassesAll(needs, 1, 0, 100) && NeverRewraps(needs, 1, false, 100)
  {
    assert Ptr(needs, 1, 100, 0) == 1 && Ptr(needs, 1, 100, 1) == 3;
    assert !Wrapped(needs, 1, false, 100, 0) && !Wrapped(needs, 1, false, 100, 1) && !Wrapped(needs, 1, false, 100, 2);
  }

  /** A member that has nothing gets everything in one batch. */
  lemma SendsAll(s: Sys, fi: nat, match1: nat, out1: bool, commit: nat, applied: nat)
    requires Stage(s, 4, match1, out1, commit, applied) && 1 <= fi <= 2
    requires Lead(s).cluster[fi].nextIndex == 1 && !Lead(s).cluster[fi].inflight
    ensures SendReady(Lead(s), fi) && SendAE(Lead(s), fi, CFG).Sent?
    ensures var w := SendAE(Lead(s), fi, CFG).worker;
            && w.fi == fi && w.next == 1 && w.req.numEntries == 3 && w.req.prevLogIndex == 0 && w.req.term == 1
  {
    hide Inv1;
    hide LeaderRing;
    hide SendAE;
    hide ChooseBatch;
    hide RecordsOk;
    LogIs();
    InvParts(s);
    AlwaysReady(s);
    var n := Lead(s);
    assert n.gcUpTo < 1;
    BatchFound(n, s.full, 1, CFG, 4096);
    AllFit(n, s.full);
    SendsData(n, s.full, fi, CFG);
    SendFacts(n, fi, CFG);
    RequestCarriesChoice(n, fi, CFG);
  }

  lemma AllFit(n: Node, full: seq<Entry>)
    requires LogOk(n) && RecordsOk(n) && LeaderRing(n, full) && n.gcUpTo == 0 && full == Log()[..4]
    requires n.tailLogIndex == 4
    requires 1 in n.logSlotMap && n.logSlotMap[1].start == 0 && n.ringSlots == 100
    ensures Oldest(n) <= 1 && BatchLen(NeedsFrom(n, 1), 10, 1000000, 100) == 3
  {
    LogIs();
    hide RingOk;
    hide Chained;
    hide Anchored;
    var needs := NeedsFrom(n, 1);
    forall i | 1 <= i < 4 ensures i in n.logSlotMap && needs[i - 1] == SlotsForEntry(|Log()[i].command|) {
      assert RecordFits(n.logSlotMap, full, n.ringSlots, i);
      NeedsAt(n, 1, i - 1);
    }
    assert needs[0] == 1 && needs[1] == 2 && needs[2] == 1;
    assert Sum(needs, 1) == 1 && Sum(needs, 2) == 3 && Sum(needs, 3) == 4;
    assert Fits(needs, 10, 1000000, 100, 3);
  }

  lemma SendStage(s: Sys)
    requires Stage(s, 4, 0, false, 0, 1) && s.workers == map[] && s.nodes[1].tailLogIndex == 1
    ensures Enabled(s, Send(1, 0))
    ensures var s' := Do(s, Send(1, 0));
            && Stage(s', 4, 0, true, 0, 1) && s'.nodes[1] == s.nodes[1] && s'.workers.Keys == {0}
            && Msg(0, s'.workers[0]) in s'.sent
            && s'.workers[0].fi == 1 && s'.workers[0].next == 1 && s'.workers[0].req.numEntries == 3
            && s'.workers[0].req.prevLogIndex == 0 && s'.workers[0].req.term == 1
  {
    hide Inv1;
    hide SendAE;
    LogIs();
    InvParts(s);
    AlwaysReady(s);
    SendsAll(s, 1, 0, false, 0, 1);
    StepInStep(s, Send(1, 0));
    SendMoves(s, 1, 0);
  }

  lemma DeliverStage(s: Sys)
    requires Stage(s, 4, 0, true, 0, 1) && s.nodes[1].tailLogIndex == 1 && s.workers.Keys == {0}
    requires Msg(0, s.workers[0]) in s.sent
    requires s.workers[0].fi == 1 && s.workers[0].next == 1 && s.workers[0].req.numEntries == 3
    requires s.workers[0].req.prevLogIndex == 0 && s.workers[0].req.term == 1
    ensures Enabled(s, Deliver(Msg(0, s.workers[0]), true))
    ensures var s' := Do(s, Deliver(Msg(0, s.workers[0]), true));
            && Stage(s', 4, 0, true, 0, 1) && s'.workers == s.workers && s'.nodes[1].tailLogIndex == 4
            && exists rsp :: Reply(Msg(0, s.workers[0]), rsp) in s'.replies && rsp.success && rsp.term == 1
  {
    hide Inv1;
    hide HandleAE;
    hide NeedsCopy;
    var msg := Msg(0, s.workers[0]);
    InvParts(s);
    AlwaysReady(s);
    StepInStep(s, Deliver(msg, true));
    DeliverIs(s, msg, true);
    DeliverLeavesLeader(s, msg, true);
    Succession.AcceptedNow(s, msg, true);
    var rsp := HandleAE(s.nodes[1], msg.worker.req, true).1;
    assert Reply(msg, rsp) in Do(s, Deliver(msg, true)).replies;
  }

  lemma RespondStage(s: Sys, rsp: AEResponse)
    requires Stage(s, 4, 0, true, 0, 1) && s.workers.Keys == {0} && s.nodes[1].tailLogIndex == 4
    requires s.workers[0].fi == 1 && s.workers[0].next == 1 && s.workers[0].req.numEntries == 3
    requires s.workers[0].req.prevLogIndex == 0 && s.workers[0].req.term == 1
    requires Reply(Msg(0, s.workers[0]), rsp) in s.replies && rsp.success && rsp.term == 1
    ensures Enabled(s, Respond(0, Some(rsp)))
    ensures Stage(Do(s, Respond(0, Some(rsp))), 4, 3, false, 0, 1) && Do(s, Respond(0, Some(rsp))).workers == map[]
  {
    hide Inv1;
    InvParts(s);
    AlwaysReady(s);
    StepInStep(s, Respond(0, Some(rsp)));
  }

  lemma CommitStage(s: Sys)
    requires Stage(s, 4, 3, false, 0, 1)
    ensures Enabled(s, Commit) && Stage(Do(s, Commit), 4, 3, false, 3, 1) && Do(s, Commit).workers == s.workers
  {
    hide Inv1;
    LogIs();
    InvParts(s);
    AlwaysReady(s);
    StepInStep(s, Commit);
    LastIs(s, 3, false, 0, 1);
    Quorum(Lead(s));
    hide QuorumIndex;
  }

  lemma LastIs(s: Sys, match1: nat, out1: bool, commit: nat, applied: nat)
    requires Stage(s, 4, match1, out1, commit, applied)
    ensures LogOk(Lead(s)) && Lead(s).tailLogIndex == 4 && Oldest(Lead(s)) <= 3 && EntryAt(Lead(s), 3).term == 1
    ensures Oldest(Lead(s)) <= applied
  {
    hide LeaderRing;
    hide Network;
    hide Peers;
    LogIs();
    InvParts(s);
    hide RecordsOk;
    assert 1 in Lead(s).logSlotMap ==> Oldest(Lead(s)) <= 1 by {
      FirstInMemory(Lead(s));
    }
    assert EntryAt(Lead(s), 3) == Seen(s.full[3], 3, s.c0, Lead(s).commitIndex, s.a0, Lead(s).lastApplied);
  }

  lemma FirstInMemory(n: Node)
    requires RecordsOk(n)
    ensures 1 in n.logSlotMap ==> Oldest(n) <= 1
  {}

  lemma Quorum(n: Node)
    requires LogOk(n) && ClusterOk(n) && |n.cluster| == 3 && n.clusterIndex == 0 && n.tailLogIndex == 4
    requires n.cluster[1].matchIndex == 3 && n.cluster[2].matchIndex == 0
    ensures QuorumIndex(n) == 3
  {
    var s := Matches(n);
    assert s == [3, 3, 0] && s[1..] == [3, 0] && s[1..][1..] == [0] && s[1..][1..][1..] == [];
    assert CountGe([0], 3) == 0 && CountGe([3, 0], 3) == 1 && CountGe(s, 3) == 2;
    assert CountGe([0], 4) == 0 && CountGe([3, 0], 4) == 0 && CountGe(s, 4) == 0;
    QuorumIndexIsLargest(s, 3);
    QuorumIndexIsLargest(s, 4);
  }

  lemma ApplyStage(s: Sys)
    requires Stage(s, 4, 3, false, 3, 1)
    ensures Enabled(s, Apply) && Stage(Do(s, Apply), 4, 3, false, 3, 4) && Do(s, Apply).workers == s.workers
  {
    hide Inv1;
    LogIs();
    InvParts(s);
    AlwaysReady(s);
    StepInStep(s, Apply);
    LastIs(s, 3, false, 3, 1);
  }

  /** The run: a batch is appended, announced to member 1, copied and confirmed, committed and applied; then member 2
      is told about it. The slots member 2 computes are not the leader's. */
  lemma AppliedEntryShiftsSlots(read: Reader) returns (run: seq<Sys>, steps: seq<Step>, k: nat)
    ensures IsFirstRun(run, steps) && k < |steps| == |run| - 1 && |run[k].nodes| == 3 && steps[k].Send?
    ensures Enabled(run[k], steps[k]) && SendAE(Lead(run[k]), steps[k].fi, run[k].cfg).Sent?
    ensures var n, w := Lead(run[k]), Announced(run, steps, k);
            && |w.req.metas| == w.req.numEntries
            && (forall i :: w.next <= i < w.next + w.req.numEntries ==> i in n.logSlotMap)
            && exists j: nat :: j < w.req.numEntries && !SameSlot(n, w.next, w.req.startSlot, w.req.metas, j)
  {
    hide Stage;
    hide Do;
    hide Enabled;
    hide SendAE;
    hide SafeAppend;
    hide IsFirstRun;
    hide HandleAE;
    run, steps := Promotion(read);
    AppendStage(run[0]);
    run, steps := GoOn(run, steps, Append(Commands()));
    SendStage(run[1]);
    run, steps := GoOn(run, steps, Send(1, 0));
    DeliverStage(run[2]);
    run, steps := GoOn(run, steps, Deliver(Msg(0, run[2].workers[0]), true));
    var rsp :| Reply(Msg(0, run[3].workers[0]), rsp) in run[3].replies && rsp.success && rsp.term == 1;
    RespondStage(run[3], rsp);
    run, steps := GoOn(run, steps, Respond(0, Some(rsp)));
    CommitStage(run[4]);
    run, steps := GoOn(run, steps, Commit);
    ApplyStage(run[5]);
    run, steps := GoOn(run, steps, Apply);
    LateSend(run[6]);
    run, steps := GoOn(run, steps, Send(2, 1));
    k := 6;
    Disagree(run, steps, k);
  }

  lemma LateSend(s: Sys)
    requires Stage(s, 4, 3, false, 3, 4) && 1 !in s.workers
    ensures |s.nodes| == 3 && s.cfg == CFG
    ensures Enabled(s, Send(2, 1)) && SendAE(Lead(s), 2, CFG).Sent? && SendAE(Lead(s), 2, CFG).worker.HasEntries()
  {
    hide Inv1;
    hide SendAE;
    InvParts(s);
    AlwaysReady(s);
    SendsAll(s, 2, 3, false, 3, 4);
  }

  lemma Disagree(run: seq<Sys>, steps: seq<Step>, k: nat)
    requires IsFirstRun(run, steps) && k < |steps| && steps[k] == Send(2, 1) && Stage(run[k], 4, 3, false, 3, 4)
    requires Enabled(run[k], steps[k]) && SendAE(Lead(run[k]), 2, CFG).Sent?
    ensures var n, w := Lead(run[k]), Announced(run, steps, k);
            && |w.req.metas| == w.req.numEntries
            && (forall i :: w.next <= i < w.next + w.req.numEntries ==> i in n.logSlotMap)
            && exists j: nat :: j < w.req.numEntries && !SameSlot(n, w.next, w.req.startSlot, w.req.metas, j)
  {
    hide SendAE;
    hide Start;
    hide FirstTerm;
    hide Inv1;
    hide Do;
    SendsAll(run[k], 2, 3, false, 3, 4);
    AnnouncedSlotsAgreeIff(run, steps, k);
    var n, w := Lead(run[k]), Announced(run, steps, k);
    SecondIsWide(run[k]);
    assert w.next <= 2 < w.next + w.req.numEntries - 1 && !AnnouncedInFull(n, 2);
  }

  lemma SecondIsWide(s: Sys)
    requires Stage(s, 4, 3, false, 3, 4)
    ensures 2 in Lead(s).logSlotMap && Lead(s).logSlotMap[2].numSlots == 2
  {
    hide Inv;
    hide RingOk;
    hide Chained;
    LogIs();
    InvParts(s);
    assert RecordFits(Lead(s).logSlotMap, s.full, 100, 2);
  }
}
