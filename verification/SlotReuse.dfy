/** Two runs of three servers in which a follower's device loses an entry of its log: the page rounding overwrites it,
    and its slot is used again. */
module SlotReuse {
  import opened Basics
  import opened Extents
  import opened EntryCodec
  import opened Ring
  import opened Types
  import opened Batch
  import opened Progress
  import opened Commit
  import opened Election
  import opened Follower
  import opened Replication
  import opened ReplicationRuns
  import opened Succession
  import opened FirstLeader
  import opened CatchUp
  import opened CatchUpRuns
  import opened Mirror
  import MirrorLog
  import ElectionLimits
  import CatchUpLimits
  import SlotAgreement

  // ---------------------------------------------------------------- steps of a first leader's run

  /** Node 0 leads three servers, nobody waits, and this is its ring. */
  ghost predicate Rests(s: Sys, ringSlots: nat, live: LogSlotMap, tail: nat, head: nat) {
    && |s.nodes| == 3 && s.ld == 0 && s.workers == map[] && s.cfg == Limits(ringSlots) && |Lead(s).cluster| == 3
    && Lead(s).ringSlots == ringSlots && Lead(s).logSlotMap == live && Lead(s).tailSlot == tail
    && Lead(s).headSlot == head
  }

  function Limits(ringSlots: nat): Config {
    Config(10, 1000000, OneExtent(4096, ringSlots))
  }

  /** Member `f` has confirmed everything in front of index `x`, which is where its log ends. */
  ghost predicate At(s: Sys, f: nat, x: nat) {
    && s.ld < |s.nodes| && f < |s.nodes| && f < |Lead(s).cluster| && s.nodes[f].tailLogIndex == x >= 1
    && Lead(s).cluster[f].nextIndex == x == Lead(s).cluster[f].matchIndex + 1 && !Lead(s).cluster[f].inflight
  }

  /** An exchange that brings member `f` everything the leader has. */
  ghost predicate Brings(s: Sys, s': Sys, f: nat, w: Worker) {
    && s.ld < |s.nodes| && f < |s.nodes| && f < |Lead(s).cluster| && s'.ld == s.ld && |s'.nodes| == |s.nodes|
    && f < |Lead(s').cluster| && Lead(s') == WithMember(Lead(s), f, Lead(s').cluster[f]) && s'.full == s.full
    && s'.cfg == s.cfg && s'.workers == s.workers && At(s', f, |s.full|)
    && w.fi == f && w.next == Lead(s).cluster[f].nextIndex && w.next + w.req.numEntries == |s.full|
    && w.next in Lead(s).logSlotMap && w.req.startSlot == Lead(s).logSlotMap[w.next].start
    && w.req.blockLength == Span(Lead(s).logSlotMap, w.next, w.req.numEntries)
    && |w.req.metas| == w.req.numEntries && w.req.prevLogIndex + 1 == w.next
    && Extends(s.nodes[f], s'.nodes[f], w.req) && s'.nodes[f].ringSlots == s.nodes[f].ringSlots
  }

  /** Behind an entry of one slot, the follower computes the slot where the leader has the next one. */
  ghost predicate SecondSlot(live: LogSlotMap, w: Worker, ringSlots: nat) {
    w.next in live && w.next + 1 in live && live[w.next].numSlots == 1 && w.req.numEntries == 2 == |w.req.metas| ==>
      SlotFor(w.req.metas, w.req.startSlot, ringSlots, 1) == live[w.next + 1].start
  }

  predicate SameOthers(s: Sys, s': Sys, f: nat) {
    |s.nodes| == |s'.nodes| && forall g :: 0 < g < |s.nodes| && g != f ==> s'.nodes[g] == s.nodes[g]
  }

  lemma Bring(run: seq<Sys>, steps: seq<Step>, f: nat, ringSlots: nat)
    returns (run': seq<Sys>, steps': seq<Step>, w: Worker)
    requires |run| > 0 && IsFirstRun(run, steps)
    requires var s := run[|run| - 1];
             && |s.nodes| == 3 && s.ld == 0 < f < 3 && s.cfg == Limits(ringSlots) && Lead(s).ringSlots == ringSlots
             && |Lead(s).cluster| == 3 && s.workers == map[] && At(s, f, Lead(s).cluster[f].nextIndex)
             && Lead(s).cluster[f].nextIndex < |s.full|
             && Reaches(Lead(s).logSlotMap, ringSlots, s.cfg, Lead(s).cluster[f].nextIndex, |s.full| - 1)
    ensures |run'| == |run| + 3 && IsFirstRun(run', steps') && run == run'[..|run|]
    ensures Brings(run[|run| - 1], run'[|run| + 2], f, w)
    ensures SameOthers(run[|run| - 1], run'[|run| + 2], f)
    ensures |steps'| == |steps| + 3 && steps == steps'[..|steps|]
    ensures steps'[|steps|].Send? && steps'[|steps| + 2].Respond?
    ensures steps'[|steps| + 1].Deliver? && steps'[|steps| + 1].msg.worker == w
    ensures CopyStep(run'[|run|], steps'[|steps| + 1], f)
    ensures |run'[|run|].nodes| == 3 && run'[|run|].ld == 0 && run'[|run|].nodes[f] == run[|run| - 1].nodes[f]
    ensures Lead(run'[|run|]).logSlotMap == Lead(run[|run| - 1]).logSlotMap
    ensures SecondSlot(Lead(run[|run| - 1]).logSlotMap, w, ringSlots)
  {
    hide *;
    var s := run[|run| - 1];
    FirstRunKeepsInv(run, steps, |run| - 1);
    InvParts(s);
    FirstIsRun(run, steps);
    AtParts(s, f, Lead(s).cluster[f].nextIndex);
    LimitsExtent(s, ringSlots);
    var rsp;
    run', steps', w, rsp := Exchange(run, steps, f, true);
    GoesOnFirst(run, steps, run', steps');
    FirstIsRun(run', steps');
    var s1, s3 := run'[|run|], run'[|run| + 2];
    BroughtAll(s, s3, f, w, rsp, ringSlots);
    OthersStay(run', steps', |steps|, f);
    assert run'[..|run|][|run| - 1] == run'[|steps|];
    ExchangedRequest(s, s3, f, w, rsp);
    SlotsAgreeThen(run', steps', |steps|, f, w, ringSlots);
    FirstRunKeepsInv(run', steps', |run|);
    FollowerOk(s1, f);
    CopiedThen(s, s1, s3, f, w, rsp, steps'[|steps| + 1]);
  }

  lemma LimitsExtent(s: Sys, ringSlots: nat)
    requires s.ld < |s.nodes| && s.cfg == Limits(ringSlots) && Lead(s).ringSlots == ringSlots
    ensures OnOneExtent(s) && s.cfg.extents == OneExtent(4096, ringSlots) && s.cfg.maxBatch >= 1
  {
    hide OneExtent;
  }

  lemma AtParts(s: Sys, f: nat, x: nat)
    requires At(s, f, x)
    ensures s.ld < |s.nodes| && f < |s.nodes| && f < |Lead(s).cluster| && s.nodes[f].tailLogIndex == x >= 1
    ensures Lead(s).cluster[f].nextIndex == x == Lead(s).cluster[f].matchIndex + 1 && !Lead(s).cluster[f].inflight
  {}

  lemma FirstIsRun(run: seq<Sys>, steps: seq<Step>)
    requires IsFirstRun(run, steps)
    ensures IsRun(run, steps) && |run| == |steps| + 1
  {
    hide Start;
    hide FirstTerm;
  }

  /** A run goes on without an append. */
  lemma GoesOnFirst(run: seq<Sys>, steps: seq<Step>, run': seq<Sys>, steps': seq<Step>)
    requires IsFirstRun(run, steps) && IsRun(run', steps') && |run| > 0 && |run| <= |run'| && run == run'[..|run|]
    requires |steps| <= |steps'| && steps == steps'[..|steps|] && |run| == |steps| + 1
    requires forall k :: |steps| <= k < |steps'| ==> !steps'[k].Append?
    ensures IsFirstRun(run', steps')
  {
    hide IsRun;
    hide FirstTerm;
    hide SafeAppend;
    assert run'[..|run|][0] == run'[0];
    forall k | 0 <= k < |steps'| && steps'[k].Append? && run'[k].ld < |run'[k].nodes|
      ensures SafeAppend(Lead(run'[k]), steps'[k].commands)
    {
      assert steps'[..|steps|][k] == steps'[k] && run'[..|run|][k] == run'[k];
    }
  }

  lemma BroughtAll(s: Sys, s': Sys, f: nat, w: Worker, rsp: AEResponse, ringSlots: nat)
    requires Inv1(s) && Exchanged(s, s', f, w, rsp, true) && s.ld < |s.nodes| && f < |Lead(s).cluster|
    requires s.cfg.extents == OneExtent(4096, ringSlots) && s.cfg.maxBatch >= 1 && Lead(s).ringSlots == ringSlots
    requires At(s, f, Lead(s).cluster[f].nextIndex) && Lead(s).cluster[f].nextIndex < |s.full|
    requires Reaches(Lead(s).logSlotMap, ringSlots, s.cfg, Lead(s).cluster[f].nextIndex, |s.full| - 1)
    ensures Brings(s, s', f, w) && rsp.success
  {
    hide SendAE;
    hide ChooseBatch;
    hide HandleAE;
    hide TakeReply;
    hide Inv1;
    hide LeaderRing;
    hide RecordsOk;
    hide Extends;
    hide Reaches;
    hide OneExtent;
    hide Span;
    InvParts(s);
    hide Inv;
    var n, x := Lead(s), Lead(s).cluster[f].nextIndex;
    FollowerBounds(s, f);
    RequestIs(s, f);
    RequestCarriesChoice(n, f, s.cfg);
    GcBelow(s, f);
    GoesBeyond(n, x, |s.full| - 1, s.cfg, 4096);
    BatchFound(n, s.full, x, s.cfg, 4096);
    ReachesFirst(n.logSlotMap, ringSlots, s.cfg, x, |s.full| - 1);
    RecordNamesPrev(s, f, w);
    AnswerIs(s, w, true);
    ExchangeIs(s, s', f, w, rsp, true);
    HandleAEGrows(s.nodes[f], w.req, true);
    MirrorLog.HandleRing(s.nodes[f], w.req, true);
  }

  /** An exchange with member `f` leaves the others alone. */
  lemma OthersStay(run: seq<Sys>, steps: seq<Step>, k: nat, f: nat)
    requires IsFirstRun(run, steps) && |run| == |steps| + 1 && k + 3 == |steps| && |run[k].nodes| == 3 && run[k].ld == 0
    requires steps[k].Send? && steps[k + 1].Deliver? && steps[k + 1].msg.worker.fi == f && steps[k + 2].Respond?
    ensures SameOthers(run[k], run[k + 3], f)
    ensures |run[k + 1].nodes| == 3 && run[k + 1].ld == 0 && Lead(run[k + 1]).logSlotMap == Lead(run[k]).logSlotMap
  {
    hide IsFirstRun;
    hide Do;
    hide Enabled;
    FirstStep(run, steps, k);
    StepFrame(run[k], steps[k]);
    SendKeepsMap(run[k], steps[k]);
    FirstStep(run, steps, k + 1);
    StepFrame(run[k + 1], steps[k + 1]);
    FirstStep(run, steps, k + 2);
    StepFrame(run[k + 2], steps[k + 2]);
    forall g | 0 < g < 3 && g != f ensures run[k + 3].nodes[g] == run[k].nodes[g] {
      SameFollower(run[k], steps[k], g);
      SameFollower(run[k + 1], steps[k + 1], g);
      SameFollower(run[k + 2], steps[k + 2], g);
    }
  }

  lemma ExchangedRequest(s: Sys, s': Sys, f: nat, w: Worker, rsp: AEResponse)
    requires Exchanged(s, s', f, w, rsp, true) && s.ld < |s.nodes|
    ensures SendReady(Lead(s), f) && SendAE(Lead(s), f, s.cfg).Sent? && w == SendAE(Lead(s), f, s.cfg).worker
  {
    hide SendAE;
    hide HandleAE;
    hide TakeReply;
  }

  lemma SlotsAgreeThen(run: seq<Sys>, steps: seq<Step>, k: nat, f: nat, w: Worker, ringSlots: nat)
    requires IsFirstRun(run, steps) && |run| == |steps| + 1 && k < |steps| && steps[k].Send? && steps[k].fi == f
    requires run[k].ld < |run[k].nodes| && Lead(run[k]).ringSlots == ringSlots && SendReady(Lead(run[k]), f)
    requires SendAE(Lead(run[k]), f, run[k].cfg).Sent? && w == SendAE(Lead(run[k]), f, run[k].cfg).worker
    ensures SecondSlot(Lead(run[k]).logSlotMap, w, ringSlots)
  {
    hide SendAE;
    hide IsFirstRun;
    hide Inv1;
    hide Enabled;
    hide SlotFor;
    FirstStep(run, steps, k);
    FirstRunKeepsInv(run, steps, k);
    if w.HasEntries() {
      SendSlotsAgreeIff(run[k], f, steps[k].wid);
      if w.req.numEntries == 2 && Lead(run[k]).logSlotMap[w.next].numSlots == 1 {
        assert SlotAgreement.AnnouncedInFull(Lead(run[k]), w.next);
        assert SlotAgreement.SameSlot(Lead(run[k]), w.next, w.req.startSlot, w.req.metas, 1);
      }
    }
  }

  lemma SendKeepsMap(s: Sys, step: Step)
    requires Enabled(s, step) && step.Send?
    ensures s.ld < |s.nodes| && s.ld < |Do(s, step).nodes| && Lead(Do(s, step)).logSlotMap == Lead(s).logSlotMap
    ensures Do(s, step).ld == s.ld
  {
    hide ChooseBatch;
  }

  /** What the follower handled was a copy. */
  lemma CopiedThen(s: Sys, s1: Sys, s': Sys, f: nat, w: Worker, rsp: AEResponse, step: Step)
    requires Exchanged(s, s', f, w, rsp, true) && Brings(s, s', f, w) && step.Deliver? && step.msg.worker == w
    requires s1.ld < |s1.nodes| && f < |s1.nodes| && LogOk(s1.nodes[f]) && ClusterOk(s1.nodes[f])
    requires s1.nodes[f] == s.nodes[f] && At(s, f, Lead(s).cluster[f].nextIndex)
    requires Lead(s).cluster[f].nextIndex < |s.full|
    ensures CopyStep(s1, step, f)
  {
    hide HandleAE;
    hide SendAE;
    hide TakeReply;
    hide Copies;
    hide Extends;
    TailGrowsByCopy(s.nodes[f], w.req, true);
  }

  /** A client batch. */
  lemma AppendOn(run: seq<Sys>, steps: seq<Step>, commands: seq<seq<Byte>>, ringSlots: nat, live: LogSlotMap, tail: nat,
                 head: nat)
    returns (run': seq<Sys>, steps': seq<Step>)
    requires |run| > 0 && IsFirstRun(run, steps) && commands != []
    requires Rests(run[|run| - 1], ringSlots, live, tail, head)
    requires PassesAll(Needs(commands), tail, head, ringSlots)
    requires SafeBatch(live, tail, head, ringSlots, Needs(commands))
    ensures |run'| == |run| + 1 && IsFirstRun(run', steps') && run == run'[..|run|]
    ensures var s, s' := run[|run| - 1], run'[|run|];
            && Rests(s', ringSlots, Recorded(live, |s.full|, Needs(commands), tail, ringSlots, |commands|),
                     Ptr(Needs(commands), tail, ringSlots, |commands|), head)
            && s'.full == s.full + NewEntries(Lead(s).currentTerm, commands) && Lead(s').cluster == Lead(s).cluster
            && s'.nodes[1..] == s.nodes[1..]
    ensures steps' == steps + [Append(commands)]
  {
    hide Inv1;
    hide IsFirstRun;
    hide AppendCommands;
    hide PassesAll;
    hide SafeBatch;
    hide LeaderRing;
    hide RecordsOk;
    var s := run[|run| - 1];
    FirstRunKeepsInv(run, steps, |run| - 1);
    InvParts(s);
    hide Inv;
    InvShape(s);
    FirstIsRun(run, steps);
    assert Enabled(s, Append(commands));
    run', steps' := GoOn(run, steps, Append(commands));
    AppendsFirst(run, steps, run', steps', commands);
    AppendIs(Lead(s), commands);
    AppendFields(Lead(s), commands);
  }

  lemma AppendsFirst(run: seq<Sys>, steps: seq<Step>, run': seq<Sys>, steps': seq<Step>, commands: seq<seq<Byte>>)
    requires IsFirstRun(run, steps) && IsRun(run', steps') && |run| == |steps| + 1
    requires steps' == steps + [Append(commands)] && |run'| == |run| + 1 && run == run'[..|run|]
    requires run[|run| - 1].ld < |run[|run| - 1].nodes| && SafeAppend(Lead(run[|run| - 1]), commands)
    ensures IsFirstRun(run', steps')
  {
    hide IsRun;
    hide FirstTerm;
    hide SafeAppend;
    assert run'[..|run|][0] == run'[0];
    forall k | 0 <= k < |steps'| && steps'[k].Append? && run'[k].ld < |run'[k].nodes|
      ensures SafeAppend(Lead(run'[k]), steps'[k].commands)
    {
      assert run'[..|run|][k] == run'[k];
    }
  }

  /** Collection of everything, once everybody has it. */
  lemma CollectOn(run: seq<Sys>, steps: seq<Step>, ringSlots: nat, live: LogSlotMap, tail: nat, head: nat)
    returns (run': seq<Sys>, steps': seq<Step>)
    requires |run| > 0 && IsFirstRun(run, steps) && Rests(run[|run| - 1], ringSlots, live, tail, head) && live != map[]
    requires var s := run[|run| - 1]; At(s, 1, |s.full|) && At(s, 2, |s.full|)
    ensures |run'| == |run| + 1 && IsFirstRun(run', steps') && run == run'[..|run|]
    ensures var s, s' := run[|run| - 1], run'[|run|];
            && Rests(s', ringSlots, map[], tail, tail) && s'.full == s.full && Lead(s').cluster == Lead(s).cluster
            && s'.nodes[1..] == s.nodes[1..]
    ensures steps' == steps + [Collect]
  {
    hide Inv1;
    hide IsFirstRun;
    hide DoSlotGc;
    hide LeaderRing;
    hide RecordsOk;
    var s := run[|run| - 1];
    FirstRunKeepsInv(run, steps, |run| - 1);
    InvParts(s);
    hide Inv;
    InvShape(s);
    FirstIsRun(run, steps);
    run', steps' := GoOn(run, steps, Collect);
    GoesOnFirst(run, steps, run', steps');
    CollectIs(Lead(s));
    EverythingFreed(Lead(s), s.full);
  }

  lemma EverythingFreed(n: Node, full: seq<Entry>)
    requires LogOk(n) && n.role.Leader? && n.clusterIndex == 0 && |n.cluster| == 3 && n.tailLogIndex == |full|
    requires n.cluster[1].matchIndex == n.cluster[2].matchIndex == |full| - 1 && LeaderRing(n, full)
    requires n.logSlotMap != map[]
    ensures FreedMap(n.logSlotMap, n.gcUpTo, MinMatch(n, 3)) == map[]
    ensures DoSlotGc(n).headSlot == n.tailSlot
  {
    hide RingOk;
    hide TrimLog;
    assert MinMatch(n, 0) == |full| - 1 && MinMatch(n, 1) == |full| - 1 && MinMatch(n, 2) == |full| - 1;
    assert MinMatch(n, 3) == |full| - 1;
    assert FreedMap(n.logSlotMap, n.gcUpTo, |full| - 1) == map[];
    CollectIs(n);
  }

  // ---------------------------------------------------------------- the beginning

  ghost function Servers(ringSlots: nat): seq<Node> {
    [ElectionLimits.Voted(0, Candidate, 2, [1, 1, 0]).(ringSlots := ringSlots),
     ElectionLimits.StartNode(1).(ringSlots := ringSlots), ElectionLimits.StartNode(2).(ringSlots := ringSlots)]
  }

  lemma ServersBefore(ringSlots: nat)
    ensures BeforePromotion(Servers(ringSlots), 0, [SENTINEL])
  {
    hide Elected;
    hide CountGe;
    var nodes := Servers(ringSlots);
    CatchUpLimits.VotedElected(nodes[0]);
    forall i | 0 <= i < 3 ensures BeforeNode(nodes, 0, [SENTINEL], i) {}
    assert Lasts(nodes) == [0, 0, 0];
    CatchUpLimits.CountThree(0, 0, 0, 0);
  }

  lemma Begin(ringSlots: nat, read: Reader) returns (run: seq<Sys>, steps: seq<Step>)
    requires ringSlots >= 1
    ensures IsFirstRun(run, steps) && |run| == 1 && steps == []
    ensures Rests(run[0], ringSlots, map[1 := SlotRecord(0, 1)], 1, 0) && At(run[0], 1, 1) && At(run[0], 2, 1)
    ensures run[0].full == [SENTINEL, Entry([], 2, Waiting, 0, 0)]
    ensures run[0].nodes[1].ringSlots == ringSlots
  {
    hide BecomeLeader;
    hide Elected;
    hide BeforePromotion;
    hide RecordsOk;
    hide Start;
    var nodes := Servers(ringSlots);
    ServersBefore(ringSlots);
    FirstPromotion(nodes, 0, read, Limits(ringSlots), 4096);
    var s := AfterPromotion(nodes, 0, [SENTINEL], read, Limits(ringSlots));
    CatchUpLimits.PromotedFresh(nodes, 0, [SENTINEL], read, Limits(ringSlots), 1);
    CatchUpLimits.PromotedFresh(nodes, 0, [SENTINEL], read, Limits(ringSlots), 2);
    FreshFacts(s, 1);
    FreshFacts(s, 2);
    hide Inv;
    run, steps := [s], [];
    StartShape(s);
    TermKept(nodes[0], read);
  }

  lemma StartShape(s: Sys)
    requires Start(s)
    ensures s.ld < |s.nodes| && |Lead(s).cluster| == |s.nodes|
  {}

  lemma TermKept(n: Node, read: Reader)
    requires LogOk(n) && ClusterOk(n)
    ensures BecomeLeader(n, read).currentTerm == n.currentTerm
  {
    hide LoadLog;
    hide HeadOf;
    hide ApplyEnd;
  }

  // ---------------------------------------------------------------- what the steps keep

  lemma BringsRests(s: Sys, s': Sys, f: nat, w: Worker, ringSlots: nat, live: LogSlotMap, tail: nat, head: nat)
    requires Brings(s, s', f, w) && Rests(s, ringSlots, live, tail, head)
    ensures Rests(s', ringSlots, live, tail, head) && At(s', f, |s'.full|) && s'.full == s.full
  {
    hide Extends;
  }

  lemma BringsOther(s: Sys, s': Sys, f: nat, w: Worker, g: nat, x: nat)
    requires Brings(s, s', f, w) && SameOthers(s, s', f) && At(s, g, x) && g != f && g > 0
    ensures At(s', g, x)
  {
    hide Extends;
  }

  lemma QuietAt(s: Sys, s': Sys, g: nat, x: nat)
    requires At(s, g, x) && g > 0 && s.ld == s'.ld == 0 && |s'.nodes| == |s.nodes| && s'.nodes[1..] == s.nodes[1..]
    requires Lead(s').cluster == Lead(s).cluster
    ensures At(s', g, x) && s'.nodes[g] == s.nodes[g]
  {
    assert s'.nodes[1..][g - 1] == s.nodes[1..][g - 1];
  }

  lemma OneReaches(m: LogSlotMap, ringSlots: nat, i: nat)
    requires i in m && m[i].End() <= ringSlots
    ensures Reaches(m, ringSlots, Limits(ringSlots), i, i)
  {
    var needs := RecordedNeeds(m, i, i);
    assert needs == [m[i].numSlots] && Sum(needs, 1) == Sum(needs, 0) + needs[0];
  }

  lemma NeedsOne(command: seq<Byte>, k: nat)
    requires SlotsForEntry(|command|) == k
    ensures Needs([command]) == [k]
  {}

  lemma OneRecorded(m: LogSlotMap, first: nat, k: nat, tail: nat, ringSlots: nat)
    ensures Recorded(m, first, [k], tail, ringSlots, 1) == m[first := SlotRecord(PlaceAt(tail, k, ringSlots), k)]
    ensures Ptr([k], tail, ringSlots, 1) == PlaceAt(tail, k, ringSlots) + k
  {
    assert Recorded(m, first, [k], tail, ringSlots, 0) == m && Ptr([k], tail, ringSlots, 0) == tail;
  }

  /** There is room for one entry of `k` slots. */
  predicate Room(live: LogSlotMap, tail: nat, head: nat, ringSlots: nat, k: nat) {
    && (live == map[] || tail != head)
    && (if head <= tail then tail + k <= ringSlots || k <= head else tail + k <= head <= ringSlots)
  }

  lemma OnePasses(k: nat, tail: nat, head: nat, ringSlots: nat, live: LogSlotMap)
    requires Room(live, tail, head, ringSlots, k)
    ensures PassesAll([k], tail, head, ringSlots) && SafeBatch(live, tail, head, ringSlots, [k])
  {
    assert Ptr([k], tail, ringSlots, 0) == tail && Ptr([k], tail, ringSlots, 1) == PlaceAt(tail, k, ringSlots) + k;
    assert Wrapped([k], tail, tail < head, ringSlots, 0) == (tail < head);
  }

  /** Follower `f`, whose log ends at `x`, handles request `w` for everything the leader has from `x` on. */
  ghost predicate Handles(s: Sys, step: Step, f: nat, live: LogSlotMap, x: nat, count: nat) {
    && CopyStep(s, step, f) && s.ld < |s.nodes| && f < |s.nodes| && Lead(s).logSlotMap == live && x in live
    && s.nodes[f].tailLogIndex == x
    && var req := step.msg.worker.req;
       && req.prevLogIndex + 1 == x && req.numEntries == count && req.startSlot == live[x].start
       && req.blockLength == Span(live, x, count)
  }

  lemma BringOne(run: seq<Sys>, steps: seq<Step>, f: nat, x: nat, ringSlots: nat, live: LogSlotMap, tail: nat,
                 head: nat)
    returns (run': seq<Sys>, steps': seq<Step>, w: Worker)
    requires |run| > 0 && IsFirstRun(run, steps) && Rests(run[|run| - 1], ringSlots, live, tail, head)
    requires 0 < f < 3 && At(run[|run| - 1], f, x) && x < |run[|run| - 1].full|
    requires Reaches(live, ringSlots, Limits(ringSlots), x, |run[|run| - 1].full| - 1)
    ensures |run'| == |run| + 3 && IsFirstRun(run', steps') && run == run'[..|run|] && run'[|run| - 1] == run[|run| - 1]
    ensures |steps'| == |steps| + 3 && steps == steps'[..|steps|] && |steps| + 1 == |run|
    ensures steps'[|steps|].Send? && steps'[|steps| + 1].Deliver? && steps'[|steps| + 2].Respond?
    ensures steps'[|steps| + 1].msg.worker == w && w.fi == f
    ensures Rests(run'[|run| + 2], ringSlots, live, tail, head) && Brings(run[|run| - 1], run'[|run| + 2], f, w)
    ensures SameOthers(run[|run| - 1], run'[|run| + 2], f) && SecondSlot(live, w, ringSlots)
    ensures At(run'[|run| + 2], f, |run'[|run| + 2].full|) && run'[|run| + 2].full == run[|run| - 1].full
    ensures Handles(run'[|run|], steps'[|steps| + 1], f, live, x, |run[|run| - 1].full| - x)
  {
    hide *;
    var s := run[|run| - 1];
    ReadyToBring(s, f, x, ringSlots, live, tail, head);
    AtParts(s, f, x);
    FirstIsRun(run, steps);
    run', steps', w := Bring(run, steps, f, ringSlots);
    assert run'[|run| - 1] == run'[..|run|][|run| - 1];
    BringsRests(s, run'[|run| + 2], f, w, ringSlots, live, tail, head);
    BringsWindow(s, run'[|run| + 2], f, w, x);
    IsHandled(run'[|run|], steps'[|steps| + 1], f, live, x, |s.full| - x);
  }

  lemma IsHandled(s: Sys, step: Step, f: nat, live: LogSlotMap, x: nat, count: nat)
    requires CopyStep(s, step, f) && s.ld < |s.nodes| && f < |s.nodes| && Lead(s).logSlotMap == live && x in live
    requires s.nodes[f].tailLogIndex == x && step.Deliver?
    requires var req := step.msg.worker.req;
             && req.prevLogIndex + 1 == x && req.numEntries == count && req.startSlot == live[x].start
             && req.blockLength == Span(live, x, count)
    ensures Handles(s, step, f, live, x, count)
  {
    hide CopyStep;
    hide Span;
  }

  lemma AppendOne(run: seq<Sys>, steps: seq<Step>, command: seq<Byte>, ringSlots: nat, live: LogSlotMap, tail: nat,
                  head: nat)
    returns (run': seq<Sys>, steps': seq<Step>)
    requires |run| > 0 && IsFirstRun(run, steps) && Rests(run[|run| - 1], ringSlots, live, tail, head)
    requires Room(live, tail, head, ringSlots, SlotsForEntry(|command|))
    ensures |run'| == |run| + 1 && IsFirstRun(run', steps') && run == run'[..|run|] && run'[|run| - 1] == run[|run| - 1]
    ensures |steps| + 1 == |run| && steps' == steps + [Append([command])]
    ensures var s, s', k := run[|run| - 1], run'[|run|], SlotsForEntry(|command|);
            && Rests(s', ringSlots, live[|s.full| := SlotRecord(PlaceAt(tail, k, ringSlots), k)],
                     PlaceAt(tail, k, ringSlots) + k, head)
            && |s'.full| == |s.full| + 1 && s.full == s'.full[..|s.full|] && s'.full[|s.full|].command == command
            && (forall g, x :: 0 < g < 3 && At(s, g, x) ==> At(s', g, x)) && SameOthers(s, s', 0)
  {
    hide *;
    var s, k := run[|run| - 1], SlotsForEntry(|command|);
    FirstIsRun(run, steps);
    NeedsOne(command, k);
    OnePasses(k, tail, head, ringSlots, live);
    run', steps' := AppendOn(run, steps, [command], ringSlots, live, tail, head);
    var s' := run'[|run|];
    assert run'[|run| - 1] == run'[..|run|][|run| - 1];
    RestsParts(s, ringSlots, live, tail, head);
    OneRecorded(live, |s.full|, k, tail, ringSlots);
    RestsParts(s', ringSlots, live[|s.full| := SlotRecord(PlaceAt(tail, k, ringSlots), k)],
               PlaceAt(tail, k, ringSlots) + k, head);
    NewEntry(Lead(s).currentTerm, command);
    OthersSame(s, s');
    forall g, x | 0 < g < 3 && At(s, g, x) ensures At(s', g, x) {
      QuietAt(s, s', g, x);
    }
  }

  lemma NewEntry(term: nat, command: seq<Byte>)
    ensures NewEntries(term, [command]) == [Entry(command, term, Waiting, 0, 0)]
  {}

  lemma OthersSame(s: Sys, s': Sys)
    requires |s.nodes| == |s'.nodes| == 3 && s'.nodes[1..] == s.nodes[1..]
    ensures SameOthers(s, s', 0)
  {
    forall g | 0 < g < 3 ensures s'.nodes[g] == s.nodes[g] {
      assert s'.nodes[1..][g - 1] == s.nodes[1..][g - 1];
    }
  }

  lemma ReadyToBring(s: Sys, f: nat, x: nat, ringSlots: nat, live: LogSlotMap, tail: nat, head: nat)
    requires Rests(s, ringSlots, live, tail, head) && At(s, f, x) && 0 < f < 3
    ensures |s.nodes| == 3 && s.ld == 0 && s.cfg == Limits(ringSlots) && Lead(s).ringSlots == ringSlots
    ensures |Lead(s).cluster| == 3 && s.workers == map[] && Lead(s).cluster[f].nextIndex == x
    ensures Lead(s).logSlotMap == live && s.nodes[f].tailLogIndex == x
  {}

  lemma RestsParts(s: Sys, ringSlots: nat, live: LogSlotMap, tail: nat, head: nat)
    requires Rests(s, ringSlots, live, tail, head)
    ensures |s.nodes| == 3 && s.ld == 0 && |Lead(s).cluster| == 3 && Lead(s).logSlotMap == live
  {}

  lemma BringsWindow(s: Sys, s': Sys, f: nat, w: Worker, x: nat)
    requires Brings(s, s', f, w) && At(s, f, x)
    ensures w.fi == f && w.next == x == w.req.prevLogIndex + 1 && x + w.req.numEntries == |s.full|
    ensures s.ld < |s.nodes| && x in Lead(s).logSlotMap && w.req.startSlot == Lead(s).logSlotMap[x].start
    ensures w.req.blockLength == Span(Lead(s).logSlotMap, x, w.req.numEntries)
    ensures s'.ld == s.ld && |s'.nodes| == |s.nodes| && s'.full == s.full
  {
    hide Extends;
  }

  // ---------------------------------------------------------------- the page rounding

  /** A ring of 16 slots on its first lap. Member 2 has confirmed nothing, so the no-op is still uncollected, at slot 0.
      Member 1 has it, and then gets a command of 15 slots: the copy is rounded up to 16 sectors and goes round onto
      slot 0. */
  lemma RoundingHitsNoop(read: Reader) returns (run: seq<Sys>, steps: seq<Step>, k: nat)
    ensures IsFirstRun(run, steps) && k < |steps| == |run| - 1
    ensures SpillsOnto(run[k], steps[k], 1, 16, 1) && 1 < run[k].nodes[1].tailLogIndex
    ensures Lead(run[k]).logSlotMap[1] == SlotRecord(0, 1)
    ensures steps[k].msg.worker.req.startSlot == 1 && steps[k].msg.worker.req.blockLength == 15
  {
    hide *;
    var noop := map[1 := SlotRecord(0, 1)];
    var both := noop[2 := SlotRecord(1, 15)];
    var w;
    run, steps := Begin(16, read);
    Whole(noop, 1, 0, 1, 16);
    OneReaches(noop, 16, 1);
    run, steps, w := BringOne(run, steps, 1, 1, 16, noop, 1, 0);
    Fifteen();
    Rooms();
    run, steps := AppendOne(run, steps, Zeros(7648), 16, noop, 1, 0);
    Whole(both, 2, 1, 15, 16);
    OneReaches(both, 16, 2);
    run, steps, w := BringOne(run, steps, 1, 2, 16, both, 16, 0);
    k := 5;
    IsSpill(run[k], steps[k], both);
    FirstIsRun(run, steps);
  }

  lemma Whole(m: LogSlotMap, i: nat, start: nat, k: nat, ringSlots: nat)
    requires i in m && m[i] == SlotRecord(start, k) && start + k <= ringSlots
    ensures m[i].End() <= ringSlots
  {}

  lemma Rooms()
    ensures Room(map[1 := SlotRecord(0, 1)], 1, 0, 16, 15) && Room(map[1 := SlotRecord(0, 1)], 1, 0, 8, 7)
    ensures Room(map[], 8, 8, 8, 1) && Room(map[3 := SlotRecord(0, 1)], 1, 8, 8, 1)
  {
    assert 1 in map[1 := SlotRecord(0, 1)] && 3 in map[3 := SlotRecord(0, 1)];
  }

  lemma Fifteen()
    ensures SlotsForEntry(|Zeros(7648)|) == 15 && PlaceAt(1, 15, 16) == 1
  {}

  lemma IsSpill(s: Sys, step: Step, live: LogSlotMap)
    requires live == map[1 := SlotRecord(0, 1), 2 := SlotRecord(1, 15)] && Handles(s, step, 1, live, 2, 1)
    ensures SpillsOnto(s, step, 1, 16, 1) && 1 < s.nodes[1].tailLogIndex && Lead(s).logSlotMap[1] == SlotRecord(0, 1)
    ensures step.msg.worker.req.startSlot == 1 && step.msg.worker.req.blockLength == 15
  {
    hide Copies;
    assert Span(live, 2, 1) == Span(live, 2, 0) + 15;
  }

  // ---------------------------------------------------------------- a slot that is used again

  /** Follower 1 keeps index 2 at slot 1. */
  ghost predicate KeepsSecond(n: Node) {
    LogOk(n) && Oldest(n) == 1 && 2 < n.tailLogIndex && EntryAt(n, 2).ringSlot == 1
  }

  lemma GetsSecond(s: Sys, s': Sys, w: Worker, live: LogSlotMap)
    requires Brings(s, s', 1, w) && At(s, 1, 1) && |s.full| == 3 && s.nodes[1].ringSlots == 8
    requires live == map[1 := SlotRecord(0, 1), 2 := SlotRecord(1, 7)] && SecondSlot(live, w, 8)
    ensures KeepsSecond(s'.nodes[1])
  {
    hide SlotFor;
    assert FromBatch(s'.nodes[1], w.req, s.nodes[1].ringSlots, 2);
  }

  lemma StillKeepsSecond(s: Sys, s': Sys, w: Worker)
    requires Brings(s, s', 1, w) && KeepsSecond(s.nodes[1])
    ensures KeepsSecond(s'.nodes[1])
  {
    hide SlotFor;
    assert EntryAt(s'.nodes[1], 2) == EntryAt(s.nodes[1], 2);
  }

  /** No copy for follower 1 goes round. */
  ghost predicate NoneRound(steps: seq<Step>) {
    forall j :: 0 <= j < |steps| ==> NotRound(steps[j])
  }

  predicate NotRound(step: Step) {
    step.Deliver? && step.msg.worker.fi == 1 ==> SpillEnd(step.msg.worker.req, 8) == 0
  }

  lemma NoneRoundOn(steps: seq<Step>, steps': seq<Step>, w: Worker)
    requires NoneRound(steps) && |steps'| == |steps| + 3 && steps == steps'[..|steps|] && steps'[|steps|].Send?
    requires steps'[|steps| + 1].Deliver? && steps'[|steps| + 1].msg.worker == w && steps'[|steps| + 2].Respond?
    requires w.fi == 1 ==> SpillEnd(w.req, 8) == 0
    ensures NoneRound(steps')
  {
    forall j | 0 <= j < |steps'| ensures NotRound(steps'[j]) {
      assert j < |steps| ==> steps'[j] == steps'[..|steps|][j];
    }
  }

  lemma NoneRoundOne(steps: seq<Step>, step: Step)
    requires NoneRound(steps) && !step.Deliver?
    ensures NoneRound(steps + [step])
  {}

  lemma NoneRoundSpills(run: seq<Sys>, steps: seq<Step>, k: nat, i: nat)
    requires NoneRound(steps) && k <= |steps| <= |run|
    ensures NeverSpilled(run, steps, 1, 8, k, i)
  {
    hide Copies;
    forall j | 0 <= j < k ensures !SpillsOnto(run[j], steps[j], 1, 8, i) {
      assert NotRound(steps[j]);
    }
  }

  /** A batch from slot 0 on never goes round on a ring of 8. */
  lemma FromZero(s: Sys, step: Step, f: nat, live: LogSlotMap, x: nat, count: nat)
    requires Handles(s, step, f, live, x, count) && live[x].start == 0 && 1 <= Span(live, x, count) <= 8
    ensures SpillEnd(step.msg.worker.req, 8) == 0 && step.msg.worker.req.startSlot == 0
  {
    hide CopyStep;
  }

  lemma TwoReach(m: LogSlotMap)
    requires m == map[1 := SlotRecord(0, 1), 2 := SlotRecord(1, 7)]
    ensures Reaches(m, 8, Limits(8), 1, 2) && Span(m, 1, 2) == 8
  {
    var needs := RecordedNeeds(m, 1, 2);
    assert needs == [1, 7] && Sum(needs, 1) == Sum(needs, 0) + 1 && Sum(needs, 2) == Sum(needs, 1) + 7;
    assert Span(m, 1, 1) == Span(m, 1, 0) + 1 && Span(m, 1, 2) == Span(m, 1, 1) + 7;
  }

  lemma Seven()
    ensures SlotsForEntry(|Zeros(3552)|) == 7 && PlaceAt(1, 7, 8) == 1
    ensures SlotsForEntry(|[9 as Byte]|) == 1 && SlotsForEntry(|[8 as Byte]|) == 1 && |Zeros(3552)| == 3552
    ensures PlaceAt(8, 1, 8) == 0 && PlaceAt(1, 1, 8) == 1
  {}

  lemma LastTwoReach(m: LogSlotMap)
    requires m == map[3 := SlotRecord(0, 1), 4 := SlotRecord(1, 1)]
    ensures Reaches(m, 8, Limits(8), 3, 4) && Span(m, 3, 2) == 2
  {
    var needs := RecordedNeeds(m, 3, 4);
    assert needs == [1, 1] && Sum(needs, 1) == Sum(needs, 0) + 1 && Sum(needs, 2) == Sum(needs, 1) + 1;
    assert Span(m, 3, 1) == Span(m, 3, 0) + 1 && Span(m, 3, 2) == Span(m, 3, 1) + 1;
  }

  /** A ring of 8 slots. Both members confirm the no-op at slot 0 and a command of seven slots behind it; both entries
      are collected; two commands of one byte go to slots 0 and 1. Follower 1 has all four entries, and its log has the
      second and the fourth one at the same slot. */
  lemma SlotIsReused(read: Reader) returns (run: seq<Sys>, steps: seq<Step>)
    ensures IsFirstRun(run, steps) && |run| == 14 == |steps| + 1 && ReusedCase(run[13])
    ensures NeverSpilled(run, steps, 1, 8, 13, 4)
  {
    hide *;
    var both, third := map[1 := SlotRecord(0, 1), 2 := SlotRecord(1, 7)], map[3 := SlotRecord(0, 1)];
    var last := third[4 := SlotRecord(1, 1)];
    var w;
    Seven();
    Rooms();
    run, steps := FirstHalf(read);
    var s7, steps7 := run[7], steps;
    assert 1 in both;
    run, steps := CollectOn(run, steps, 8, both, 8, 0);
    AfterCollect(s7, run[8], both);
    NoneRoundOne(steps7, Collect);
    var steps8, s8 := steps, run[8];
    run, steps := AppendOne(run, steps, [8], 8, map[], 8, 8);
    NoneRoundOne(steps8, Append([[8]]));
    OnlyThird();
    var steps9, s9 := steps, run[9];
    NodeSame(s8, s9, 0, 1);
    run, steps := AppendOne(run, steps, [9], 8, third, 1, 8);
    NoneRoundOne(steps9, Append([[9]]));
    var steps10, s10 := steps, run[10];
    NodeSame(s9, s10, 0, 1);
    LastTwoReach(last);
    run, steps, w := BringOne(run, steps, 1, 3, 8, last, 2, 8);
    FromZero(run[11], steps[11], 1, last, 3, 2);
    NoneRoundOn(steps10, steps, w);
    StillKeepsSecond(s10, run[13], w);
    NoneRoundSpills(run, steps, 13, 4);
    AtParts(run[13], 1, 5);
    RestsParts(run[13], 8, last, 2, 8);
    FirstRunKeepsInv(run, steps, 13);
    FollowerOk(run[13], 1);
    IsThere(run[13], 1);
    assert run[13].full[2] == s10.full[2] == s9.full[2] == s8.full[2] == s7.full[2];
    IsReused(run[13]);
  }

  /** The second entry of follower 1 lies where the fourth one is by now. */
  ghost predicate ReusedCase(s: Sys) {
    && FollowerThere(s, 1) && 4 in Lead(s).logSlotMap && Lead(s).logSlotMap[4].start == 1
    && s.nodes[1].tailLogIndex == 5 == |s.full| && KeepsSecond(s.nodes[1])
    && |s.full[2].command| == 3552 && s.full[4].command == [9]
  }

  lemma IsReused(s: Sys)
    requires FollowerThere(s, 1) && s.ld < |s.nodes| && 1 < |s.nodes| && KeepsSecond(s.nodes[1])
    requires Lead(s).logSlotMap == map[3 := SlotRecord(0, 1), 4 := SlotRecord(1, 1)]
    requires s.nodes[1].tailLogIndex == 5 == |s.full| && |s.full[2].command| == 3552 && s.full[4].command == [9]
    ensures ReusedCase(s)
  {
    hide KeepsSecond;
  }

  lemma IsThere(s: Sys, f: nat)
    requires s.ld < |s.nodes| && f < |s.nodes| && LogOk(s.nodes[f]) && ClusterOk(s.nodes[f])
    ensures FollowerThere(s, f)
  {}

  lemma OnlyThird()
    ensures map[][3 := SlotRecord(0, 1)] == map[3 := SlotRecord(0, 1)]
  {}

  lemma NodeSame(s: Sys, s': Sys, f: nat, g: nat)
    requires SameOthers(s, s', f) && 0 < g < |s.nodes| && g != f
    ensures g < |s'.nodes| && s'.nodes[g] == s.nodes[g]
  {}

  lemma AfterCollect(s: Sys, s': Sys, live: LogSlotMap)
    requires Rests(s, 8, live, 8, 0) && Rests(s', 8, map[], 8, 8) && s'.nodes[1..] == s.nodes[1..]
    requires Lead(s').cluster == Lead(s).cluster && At(s, 1, 3)
    ensures At(s', 1, 3) && s'.nodes[1] == s.nodes[1]
  {
    QuietAt(s, s', 1, 3);
  }

  /** Up to the point where both members have the first two entries. */
  lemma FirstHalf(read: Reader) returns (run: seq<Sys>, steps: seq<Step>)
    ensures IsFirstRun(run, steps) && |run| == 8 == |steps| + 1
    ensures Rests(run[7], 8, map[1 := SlotRecord(0, 1), 2 := SlotRecord(1, 7)], 8, 0)
    ensures |run[7].full| == 3 && |run[7].full[2].command| == 3552 && At(run[7], 1, 3) && At(run[7], 2, 3)
    ensures 1 < |run[7].nodes| && KeepsSecond(run[7].nodes[1]) && NoneRound(steps)
  {
    hide *;
    var noop, both := map[1 := SlotRecord(0, 1)], map[1 := SlotRecord(0, 1), 2 := SlotRecord(1, 7)];
    var w;
    Seven();
    Rooms();
    run, steps := Begin(8, read);
    NoneYet();
    var s0 := run[0];
    run, steps := AppendOne(run, steps, Zeros(3552), 8, noop, 1, 0);
    NoneRoundOne([], Append([Zeros(3552)]));
    assert noop[2 := SlotRecord(1, 7)] == both;
    TwoReach(both);
    var s1, steps1 := run[1], steps;
    RestsParts(s0, 8, noop, 1, 0);
    NodeSame(s0, s1, 0, 1);
    assert [] + [Append([Zeros(3552)])] == steps1;
    run, steps, w := BringOne(run, steps, 1, 1, 8, both, 8, 0);
    FromZero(run[2], steps[2], 1, both, 1, 2);
    NoneRoundOn(steps1, steps, w);
    GetsSecond(s1, run[4], w, both);
    BringsOther(s1, run[4], 1, w, 2, 1);
    var s4, steps4 := run[4], steps;
    run, steps, w := BringOne(run, steps, 2, 1, 8, both, 8, 0);
    NoneRoundOn(steps4, steps, w);
    BringsOther(s4, run[7], 2, w, 1, 3);
    RestsParts(s4, 8, both, 8, 0);
    NodeSame(s4, run[7], 2, 1);
  }

  lemma NoneYet()
    ensures NoneRound([])
  {}

  /** Whatever the devices and the copies were in that run: the slot where the follower's log has the command of 3552
      bytes reads as the command of one byte. Promotion would load that. */
  lemma ReusedSlotReadsOther(run: seq<Sys>, steps: seq<Step>, devs: seq<Device>, fds: seq<Device>, m: seq<nat>,
                             mf: seq<nat>, base: nat)
    requires |run| == 14 == |steps| + 1 && ReusedCase(run[13]) && NeverSpilled(run, steps, 1, 8, 13, 4)
    requires MirrorRun(run, steps, devs, fds, m, mf, base, 1) && |mf| == 8
    ensures |fds| == 14 && SlotsOn(mf, |fds[13]|)
    ensures ReadSpec(fds[13], mf, EntryAt(run[13].nodes[1], 2).ringSlot).command == [9] != run[13].full[2].command
  {
    hide MirrorRun;
    hide ReadSpec;
    hide SlotsOn;
    hide NeverSpilled;
    UncollectedEntriesDecode(run, steps, devs, fds, m, mf, base, 1, 13, 4);
  }
}
