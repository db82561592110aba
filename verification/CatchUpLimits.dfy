/** Members that the leader of a term cannot serve, on concrete servers: with a trimmed log, and without one. */
module CatchUpLimits {
  import opened Basics
  import opened Ring
  import opened Types
  import opened Batch
  import opened Progress
  import opened Commit
  import opened Election
  import opened Follower
  import opened Replication
  import opened ReplicationRuns
  import opened Succession
  import opened FirstLeader
  import opened CatchUp
  import opened CatchUpRuns
  import ElectionLimits

  // ---------------------------------------------------------------- after a promotion

  /** Promotion adds the record of the no-op to the slot map and changes no other. */
  lemma PromotedMap(n: Node, read: Reader)
    requires LogOk(n) && ClusterOk(n) && Elected(n)
    ensures BecomeLeader(n, read).logSlotMap ==
            n.logSlotMap[n.tailLogIndex := PlaceOf([1], n.tailSlot, n.ringSlots, 0)]
    ensures BecomeLeader(n, read).ringSlots == n.ringSlots
    ensures var log := BecomeLeader(n, read).log; |log| > 1 && log[|log| - 1].term == n.currentTerm
  {
    hide LoadLog;
    hide ApplyEnd;
    hide HeadOf;
    hide PersistLog;
    hide Elected;
    var n1 := Promoted(n, read);
    var n2 := n1.(log := n1.log + [Entry([], n.currentTerm, Waiting, 0, 0)], tailLogIndex := n1.tailLogIndex + 1);
    assert NewestNeeds(n2, 1) == [1];
    PersistIs(n2, 1, n.tailLogIndex, [1]);
    PersistKeepsLog(n2, 1);
    assert Recorded(n.logSlotMap, n.tailLogIndex, [1], n.tailSlot, n.ringSlots, 0) == n.logSlotMap;
  }

  lemma PersistKeepsLog(n: Node, k: nat)
    requires LogOk(n) && ClusterOk(n) && k < |n.log|
    ensures PersistLog(n, k).log == n.log
  {}

  /** A promotion begins the term for every other member. The exact conditions are then about the slot map the server
      had before, and the no-op. */
  lemma PromotedFresh(nodes: seq<Node>, ld: nat, past: seq<Entry>, read: Reader, cfg: Config, f: nat)
    requires BeforePromotion(nodes, ld, past) && f < |nodes| && f != ld
    ensures var s := AfterPromotion(nodes, ld, past, read, cfg);
            && Fresh(s, f) && s.ld == ld && |s.nodes| == |nodes| && s.nodes[f] == nodes[f] && s.cfg == cfg
            && LogOk(Lead(s)) && Oldest(Lead(s)) == Oldest(nodes[ld]) && |s.full| == nodes[ld].tailLogIndex + 1
            && Lead(s).ringSlots == nodes[ld].ringSlots
            && Lead(s).logSlotMap ==
               nodes[ld].logSlotMap[nodes[ld].tailLogIndex :=
                                    PlaceOf([1], nodes[ld].tailSlot, nodes[ld].ringSlots, 0)]
            && s.full == past + Lead(s).log[1..] && EntryAt(Lead(s), |s.full| - 1).term == nodes[ld].currentTerm
            && (forall i :: Oldest(Lead(s)) <= i < nodes[ld].tailLogIndex ==>
                  EntryAt(Lead(s), i).term == EntryAt(nodes[ld], i).term)
  {
    hide BecomeLeader;
    hide Elected;
    hide RecordsOk;
    var s := AfterPromotion(nodes, ld, past, read, cfg);
    assert BeforeNode(nodes, ld, past, ld) && BeforeNode(nodes, ld, past, f);
    PromotionStarts(nodes, ld, past, read, cfg);
    PromotionFacts(nodes[ld], read);
    PromotedMap(nodes[ld], read);
    hide Start;
  }

  // ---------------------------------------------------------------- three servers

  const CFG: Config := Config(10, 1000000, OneExtent(4096, 100))
  const E: Entry := Entry([7], 1, Waiting, 0, 0)

  /** Node 0 is about to lead: indexes 1 to 3 are committed, it has trimmed the first two and freed every record.
      Node 1 has the same log. Node 2 had to start over and has index 1 only. */
  ghost function Trimmed(): seq<Node> {
    [ElectionLimits.Voted(0, Candidate, 2, [1, 1, 0]).(log := [SENTINEL, E], tailLogIndex := 4, commitIndex := 3,
                                                       lastApplied := 3),
     ElectionLimits.StartNode(1).(log := [SENTINEL, E, E, E], tailLogIndex := 4),
     ElectionLimits.StartNode(2).(log := [SENTINEL, E], tailLogIndex := 2)]
  }

  /** Nodes 0 and 1 got indexes 1 and 2 as followers, node 2 only the first; node 0 is about to lead. */
  ghost function Untrimmed(): seq<Node> {
    [ElectionLimits.Voted(0, Candidate, 2, [1, 1, 0]).(log := [SENTINEL, E, E], tailLogIndex := 3),
     ElectionLimits.StartNode(1).(log := [SENTINEL, E, E], tailLogIndex := 3),
     ElectionLimits.StartNode(2).(log := [SENTINEL, E], tailLogIndex := 2)]
  }

  lemma VotedElected(n: Node)
    requires n.cluster == ElectionLimits.Voted(0, Candidate, 2, [1, 1, 0]).cluster && n.id == 1
    ensures Elected(n)
  {
    assert Supporters(n, 0) == 0 && Supporters(n, 1) == 1 && Supporters(n, 2) == 2 && Supporters(n, 3) == 2;
  }

  lemma CountThree(a: nat, b: nat, c: nat, x: nat)
    ensures CountGe([a, b, c], x) == (if a >= x then 1 else 0) + (if b >= x then 1 else 0) + (if c >= x then 1 else 0)
  {
    assert [a, b, c][1..] == [b, c] && [b, c][1..] == [c] && [c][1..] == [];
    assert CountGe([c], x) == (if c >= x then 1 else 0);
    assert CountGe([b, c], x) == (if b >= x then 1 else 0) + CountGe([c], x);
  }

  lemma TrimmedBefore()
    ensures BeforePromotion(Trimmed(), 0, [SENTINEL, E, E])
  {
    hide Elected;
    hide CountGe;
    var nodes, past := Trimmed(), [SENTINEL, E, E];
    VotedElected(nodes[0]);
    forall i | 0 <= i < 3 ensures BeforeNode(nodes, 0, past, i) {
      assert EntryAt(nodes[0], 3).term == 1;
    }
    assert Lasts(nodes) == [3, 3, 1];
    CountThree(3, 3, 1, 3);
    CountThree(3, 3, 1, 0);
  }

  lemma UntrimmedBefore()
    ensures BeforePromotion(Untrimmed(), 0, [SENTINEL])
  {
    hide Elected;
    hide CountGe;
    var nodes, past := Untrimmed(), [SENTINEL];
    VotedElected(nodes[0]);
    forall i | 0 <= i < 3 ensures BeforeNode(nodes, 0, past, i) {
      assert EntryAt(nodes[0], 1).term == EntryAt(nodes[0], 2).term == 1;
    }
    assert Lasts(nodes) == [2, 2, 1];
    CountThree(2, 2, 1, 0);
  }

  /** The leader with the trimmed log. The request from the no-op on is rejected with the end of node 2's log; then
      there is no record to send from and no entry to name: a heartbeat goes out that gives term 0 for index 1. No
      run of the term brings node 2 an entry. */
  lemma TrimmedLeaderFallsSilent(read: Reader) returns (run: seq<Sys>, steps: seq<Step>, msg: Msg)
    ensures BeforePromotion(Trimmed(), 0, [SENTINEL, E, E]) && |run| > 2
    ensures RunFrom(run, steps, AfterPromotion(Trimmed(), 0, [SENTINEL, E, E], read, CFG))
    ensures msg in run[|run| - 3].sent && msg.worker.fi == 2 && !msg.worker.HasEntries()
    ensures msg.worker.req.prevLogIndex == 1 && msg.worker.req.prevLogTerm == 0
    ensures !Grows(run[0], 2)
  {
    hide BeforePromotion;
    hide AfterPromotion;
    hide IsRun;
    hide Fresh;
    hide Start;
    hide Inv;
    TrimmedBefore();
    var nodes, past := Trimmed(), [SENTINEL, E, E];
    PromotedFresh(nodes, 0, past, read, CFG, 2);
    var s := AfterPromotion(nodes, 0, past, read, CFG);
    assert CFG.extents == OneExtent(4096, Lead(s).ringSlots);
    assert !ReachesIn(s, 2, 2);
    forall i | 0 < i < |s.full| ensures s.full[i].term > 0 {
      assert i < 3 ==> s.full[i] == past[i];
      assert i >= 3 ==> s.full[i] == EntryAt(Lead(s), i);
      assert EntryAt(nodes[0], 3).term == 1;
    }
    run, steps, msg := UnnamedRun(s, 2);
    MemberGrowsIff(s, 2);
  }

  /** The leader that was a follower before. Its log is not trimmed, but it has no record of the index where node 2's
      log ends: no run of the term brings node 2 an entry either. */
  lemma PromotedFollowerStrandsMember(read: Reader)
    ensures BeforePromotion(Untrimmed(), 0, [SENTINEL])
    ensures !Grows(AfterPromotion(Untrimmed(), 0, [SENTINEL], read, CFG), 2)
  {
    hide BeforePromotion;
    hide AfterPromotion;
    hide IsRun;
    hide Fresh;
    UntrimmedBefore();
    var nodes := Untrimmed();
    PromotedFresh(nodes, 0, [SENTINEL], read, CFG, 2);
    var s := AfterPromotion(nodes, 0, [SENTINEL], read, CFG);
    assert CFG.extents == OneExtent(4096, Lead(s).ringSlots);
    assert !ReachesIn(s, 2, 2);
    MemberGrowsIff(s, 2);
  }

  /** Node 1 has everything, and some run serves it. But one failed copy of the no-op and one heartbeat that is
      accepted take it to an index without a record, and no continuation of that run serves it any more. */
  lemma FailedCopyPinsMember(read: Reader) returns (run: seq<Sys>, steps: seq<Step>)
    ensures BeforePromotion(Untrimmed(), 0, [SENTINEL]) && |run| > 0
    ensures RunFrom(run, steps, AfterPromotion(Untrimmed(), 0, [SENTINEL], read, CFG))
    ensures Grows(run[0], 1) && !CanConfirm(run, 1, 2)
  {
    hide BeforePromotion;
    hide AfterPromotion;
    hide IsRun;
    hide Start;
    hide Inv;
    hide Exchanged;
    UntrimmedBefore();
    var nodes := Untrimmed();
    PromotedFresh(nodes, 0, [SENTINEL], read, CFG, 1);
    var s := AfterPromotion(nodes, 0, [SENTINEL], read, CFG);
    assert CFG.extents == OneExtent(4096, Lead(s).ringSlots);
    NoopReaches(s);
    FreshFacts(s, 1);
    MemberGrowsIff(s, 1);
    run, steps := Descend(s, 1, 2);
    var k := |run| - 1;
    var s1 := run[k];
    CalmExtent(s, s1, 1);
    var w, rsp;
    run, steps, w, rsp := Exchange(run, steps, 1, true);
    assert run[..k + 1][0] == run[0] && run[..k + 1][k] == run[k];
    RunKeepsInv(run, steps, k + 3);
    HeartbeatAccepted(s1, run[k + 3], 1, w, rsp);
    MemberServedIff(run, steps, 1);
  }

  lemma NoopReaches(s: Sys)
    requires s.ld < |s.nodes| && Lead(s).logSlotMap == map[3 := PlaceOf([1], 0, 100, 0)] && Lead(s).ringSlots == 100
    requires s.cfg == CFG
    ensures ReachesIn(s, 3, 3)
  {
    var m := Lead(s).logSlotMap;
    assert PlaceOf([1], 0, 100, 0) == SlotRecord(0, 1);
    assert RecordedNeeds(m, 3, 3) == [1];
    assert Sum([1], 1) == Sum([1], 0) + 1 == 1;
  }

  /** A heartbeat from an unrecorded index whose predecessor can be named confirms that predecessor. */
  lemma HeartbeatAccepted(s: Sys, s': Sys, f: nat, w: Worker, rsp: AEResponse)
    requires Inv(s) && Inv(s') && Exchanged(s, s', f, w, rsp, true) && !Lead(s).cluster[f].inflight
    requires var x := Lead(s).cluster[f].nextIndex;
             && x !in Lead(s).logSlotMap && Oldest(Lead(s)) < x <= s.nodes[f].tailLogIndex && x < |s.full|
             && Lead(s).cluster[f].matchIndex == 0
    ensures var x := Lead(s).cluster[f].nextIndex;
            && f < |Lead(s').cluster| && Lead(s').cluster[f].nextIndex == x && Lead(s').cluster[f].matchIndex == x - 1
            && Lead(s').logSlotMap == Lead(s).logSlotMap && Lead(s').ringSlots == Lead(s).ringSlots
            && s'.ld == s.ld && |s'.nodes| == |s.nodes| && s'.full == s.full && s'.cfg == s.cfg
            && s'.workers == s.workers
  {
    hide SendAE;
    hide HandleAE;
    hide TakeReply;
    hide CommitsHeld;
    hide Network;
    RequestIs(s, f);
    assert NodeShape(s, f);
    AnswerIs(s, w, true);
    ExchangeIs(s, s', f, w, rsp, true);
  }
}
