/** What a member gets in the term of a newly promoted leader: the exact conditions, over all runs of the term. */
module CatchUpRuns {
  import opened Basics
  import opened Ring
  import opened Types
  import opened Batch
  import opened Progress
  import opened Commit
  import opened Election
  import opened Follower
  import opened LeaderLog
  import opened Replication
  import opened ReplicationRuns
  import opened Succession
  import opened FirstLeader
  import opened CatchUp

  // ---------------------------------------------------------------- building runs

  ghost predicate OnOneExtent(s: Sys) {
    s.ld < |s.nodes| && exists base :: base > 0 && s.cfg.extents == OneExtent(base, Lead(s).ringSlots)
  }

  lemma GoOn(run: seq<Sys>, steps: seq<Step>, step: Step) returns (run': seq<Sys>, steps': seq<Step>)
    requires IsRun(run, steps) && Enabled(run[|run| - 1], step)
    ensures IsRun(run', steps') && run' == run + [Do(run[|run| - 1], step)] && steps' == steps + [step]
  {
    hide Do;
    hide Enabled;
    hide Start;
    run', steps' := run + [Do(run[|run| - 1], step)], steps + [step];
  }

  lemma FreshName(m: map<nat, Worker>) returns (wid: nat)
    ensures wid !in m
  {
    wid := LeastAbove(m.Keys);
  }

  lemma {:induction false} LeastAbove(s: set<nat>) returns (x: nat)
    ensures forall y :: y in s ==> y < x
  {
    x := 0;
    if s != {} {
      var y :| y in s;
      var z := LeastAbove(s - {y});
      x := Max(z, y + 1);
      assert forall v :: v in s ==> v == y || v in s - {y};
    }
  }

  /** One exchange with member `f`: a request, its handling, and the reply. `s` is where it begins, `s'` where it
      ends. */
  ghost predicate Exchanged(s: Sys, s': Sys, f: nat, w: Worker, rsp: AEResponse, copyOk: bool) {
    && s.ld < |s.nodes| && f < |s.nodes| && f != s.ld && SendReady(Lead(s), f) && SendAE(Lead(s), f, s.cfg).Sent?
    && w == SendAE(Lead(s), f, s.cfg).worker && w.fi < |SendAE(Lead(s), f, s.cfg).node.cluster|
    && LogOk(SendAE(Lead(s), f, s.cfg).node) && w.req.prevLogIndex < SendAE(Lead(s), f, s.cfg).node.tailLogIndex
    && LogOk(s.nodes[f]) && ClusterOk(s.nodes[f]) && rsp == HandleAE(s.nodes[f], w.req, copyOk).1
    && s'.ld == s.ld && |s'.nodes| == |s.nodes| && s'.full == s.full && s'.cfg == s.cfg && s'.workers == s.workers
    && s'.nodes[f] == HandleAE(s.nodes[f], w.req, copyOk).0
    && Lead(s') == TakeReply(SendAE(Lead(s), f, s.cfg).node, w, Some(rsp))
  }

  lemma Exchange(run: seq<Sys>, steps: seq<Step>, f: nat, copyOk: bool)
    returns (run': seq<Sys>, steps': seq<Step>, w: Worker, rsp: AEResponse)
    requires |run| > 0 && IsRun(run, steps)
    requires var s := run[|run| - 1];
             && f < |s.nodes| && f != s.ld && OnOneExtent(s) && f < |Lead(s).cluster| && !Lead(s).cluster[f].inflight
    ensures IsRun(run', steps') && |run'| == |run| + 3 && run == run'[..|run|]
    ensures Exchanged(run[|run| - 1], run'[|run| + 2], f, w, rsp, copyOk)
    ensures |steps'| == |steps| + 3 && steps == steps'[..|steps|] && steps'[|steps| + 2].Respond?
    ensures steps'[|steps|].Send? && steps'[|steps|].fi == f
    ensures steps'[|steps| + 1].Deliver? && steps'[|steps| + 1].msg.worker == w && w.fi == f
    ensures steps'[|steps| + 1].msg in run'[|run|].sent
    ensures |run'[|run|].nodes| == |run[|run| - 1].nodes| && run'[|run|].nodes[f] == run[|run| - 1].nodes[f]
  {
    hide SendAE;
    hide HandleAE;
    hide TakeReply;
    hide Inv;
    hide IsRun;
    hide OneExtent;
    var s := run[|run| - 1];
    RunKeepsInv(run, steps, |run| - 1);
    AlwaysReady(s);
    var wid := FreshName(s.workers);
    SendsSomething(s, f);
    run', steps' := GoOn(run, steps, Send(f, wid));
    SendMoves(s, f, wid);
    w := SendAE(Lead(s), f, s.cfg).worker;
    var msg := Msg(wid, w);
    var s1 := run'[|run|];
    RunKeepsInv(run', steps', |run|);
    AlwaysReady(s1);
    assert msg in s1.sent;
    run', steps' := GoOn(run', steps', Deliver(msg, copyOk));
    rsp := HandleAE(s.nodes[f], w.req, copyOk).1;
    var s2 := run'[|run| + 1];
    RunKeepsInv(run', steps', |run| + 1);
    AlwaysReady(s2);
    run', steps' := GoOn(run', steps', Respond(wid, Some(rsp)));
    assert s.workers[wid := w] - {wid} == s.workers;
  }

  lemma SendsSomething(s: Sys, f: nat)
    requires Inv(s) && OnOneExtent(s) && f < |s.nodes| && f != s.ld && f < |Lead(s).cluster|
    requires !Lead(s).cluster[f].inflight
    ensures SendReady(Lead(s), f) && SendAE(Lead(s), f, s.cfg).Sent?
  {
    hide ChooseBatch;
    hide Network;
    hide CommitsHeld;
    hide Tracks;
    hide InflightOk;
    hide OneExtent;
    AlwaysReady(s);
    var n := Lead(s);
    var base :| base > 0 && s.cfg.extents == OneExtent(base, n.ringSlots);
    assert PeerOk(s, f);
    OneExtentChoice(n, n.cluster[f].nextIndex, s.cfg, base);
    assert n.cluster[f := n.cluster[f]] == n.cluster;
  }

  /** How a reply in the leader's term moves the member. */
  ghost predicate MovesTo(p: Member, p': Member, w: Worker, rsp: AEResponse)
    requires p.nextIndex >= 1
  {
    && p'.inflight == (p.inflight && !w.HasEntries())
    && (rsp.success ==>
          p'.nextIndex == Max(Max(w.next + w.req.numEntries, 1), p.nextIndex) && p'.matchIndex == p'.nextIndex - 1)
    && (!rsp.success ==>
          && p'.matchIndex == p.matchIndex
          && p.matchIndex + 1 <= p'.nextIndex <= Max(p.matchIndex + 1, p.nextIndex - 1)
          && (rsp.conflictTerm == 0 == rsp.conflictIndex ==>
                p'.nextIndex == Max(p.nextIndex - 1, p.matchIndex + 1))
          && (rsp.conflictTerm == 0 < rsp.conflictIndex < p.nextIndex ==>
                p'.nextIndex == Max(rsp.conflictIndex, p.matchIndex + 1)))
  }

  lemma ReplyMoves(n: Node, w: Worker, rsp: AEResponse)
    requires LogOk(n) && w.fi < |n.cluster| && w.req.prevLogIndex < n.tailLogIndex && n.role.Leader?
    requires n.cluster[w.fi].matchIndex + 1 <= n.cluster[w.fi].nextIndex == w.next
    requires rsp.term == w.req.term == n.currentTerm
    ensures var n' := TakeReply(n, w, Some(rsp));
            && |n'.cluster| == |n.cluster| && n' == WithMember(n, w.fi, n'.cluster[w.fi])
            && MovesTo(n.cluster[w.fi], n'.cluster[w.fi], w, rsp)
  {
    hide ScanBack;
    var n1 := if w.HasEntries() then WithMember(n, w.fi, n.cluster[w.fi].(inflight := false)) else n;
    assert n.cluster[w.fi := n.cluster[w.fi]] == n.cluster;
    BackoffDescends(n1, w.fi, w.req.prevLogIndex, rsp.conflictTerm, rsp.conflictIndex);
  }

  /** How an exchange begins. */
  lemma RequestIs(s: Sys, f: nat)
    requires Inv(s) && f < |s.nodes| && f != s.ld && s.ld < |s.nodes| && SendReady(Lead(s), f)
    requires SendAE(Lead(s), f, s.cfg).Sent?
    ensures var n, w := Lead(s), SendAE(Lead(s), f, s.cfg).worker;
            && RequestOk(s, w) && w.fi == f < |n.cluster| && w.next == n.cluster[f].nextIndex <= n.tailLogIndex
            && n.cluster[f].matchIndex + 1 <= w.next
            && w.req.prevLogTerm == PrevTerm(n, w.next - 1)
            && ChooseBatch(n, w.next, s.cfg).Ok? && w.req.numEntries == ChooseBatch(n, w.next, s.cfg).value.len
            && SendAE(n, f, s.cfg).node == WithMember(n, f, SendAE(n, f, s.cfg).node.cluster[f])
            && SendAE(n, f, s.cfg).node.cluster[f] ==
               n.cluster[f].(inflight := n.cluster[f].inflight || w.HasEntries())
  {
    hide SendAE;
    hide ChooseBatch;
    hide CommitsHeld;
    hide InflightOk;
    var n := Lead(s);
    assert PeerOk(s, f);
    SendFacts(n, f, s.cfg);
    RequestCarriesChoice(n, f, s.cfg);
    var w := SendAE(n, f, s.cfg).worker;
    assert n.cluster[f := n.cluster[f]] == n.cluster;
    forall k | 0 <= k < w.req.numEntries ensures w.req.metas[k].term == s.full[w.next + k].term {
      assert w.req.metas[k] == MetaOf(EntryAt(n, w.next + k));
    }
  }

  /** What an exchange leaves as it was, and where it takes the member. */
  lemma ExchangeIs(s: Sys, s': Sys, f: nat, w: Worker, rsp: AEResponse, copyOk: bool)
    requires Inv(s) && Exchanged(s, s', f, w, rsp, copyOk) && rsp.term == Lead(s).currentTerm
    requires !Lead(s).cluster[f].inflight
    ensures f < |Lead(s).cluster| == |Lead(s').cluster|
    ensures Lead(s') == WithMember(Lead(s), f, Lead(s').cluster[f])
    ensures RequestOk(s, w) && w.fi == f && w.next == Lead(s).cluster[f].nextIndex
    ensures Lead(s).cluster[f].nextIndex >= 1 && MovesTo(Lead(s).cluster[f], Lead(s').cluster[f], w, rsp)
  {
    hide SendAE;
    hide ChooseBatch;
    hide HandleAE;
    hide TakeReply;
    hide Inv;
    InvShape(s);
    RequestIs(s, f);
    ReplyMoves(SendAE(Lead(s), f, s.cfg).node, w, rsp);
  }

  /** A recorded index can be named by its predecessor. */
  lemma RecordNamesPrev(s: Sys, f: nat, w: Worker)
    requires Inv(s) && s.ld < |s.nodes| && RequestOk(s, w) && w.fi == f && w.next in Lead(s).logSlotMap
    requires LogOk(Lead(s)) && w.req.prevLogTerm == PrevTerm(Lead(s), w.next - 1)
    ensures PrevFits(s, w)
  {
    hide CommitsHeld;
    hide Network;
    assert NodeShape(s, f) && PrevKept(Lead(s), w.next);
  }

  /** A request that reaches beyond the member's log is decided by its copy. */
  lemma CopyDecides(s: Sys, s': Sys, f: nat, w: Worker, rsp: AEResponse, copyOk: bool, t: nat)
    requires Inv(s) && Exchanged(s, s', f, w, rsp, copyOk) && OnOneExtent(s)
    requires s.nodes[f].tailLogIndex == t < |s.full| && Lead(s).cluster[f].nextIndex <= t
    requires Reaches(Lead(s).logSlotMap, Lead(s).ringSlots, s.cfg, Lead(s).cluster[f].nextIndex, t)
    ensures rsp == AEResponse(Lead(s).currentTerm, copyOk, 0, 0) && w.next + w.req.numEntries > t
  {
    hide SendAE;
    hide ChooseBatch;
    hide HandleAE;
    hide TakeReply;
    hide Reaches;
    hide OneExtent;
    hide Tracks;
    hide CommitsHeld;
    hide Network;
    hide InflightOk;
    hide PrefixOk;
    assert PeerOk(s, f);
    TracksOk(Lead(s), s.full, s.c0, s.a0);
    RequestIs(s, f);
    var base :| base > 0 && s.cfg.extents == OneExtent(base, Lead(s).ringSlots);
    GoesBeyond(Lead(s), w.next, t, s.cfg, base);
    assert w.next in Lead(s).logSlotMap by {
      ReachesFirst(Lead(s).logSlotMap, Lead(s).ringSlots, s.cfg, w.next, t);
    }
    RecordNamesPrev(s, f, w);
    AnswerIs(s, w, copyOk);
  }

  lemma ReachesFirst(m: LogSlotMap, ringSlots: nat, cfg: Config, i: nat, t: nat)
    requires Reaches(m, ringSlots, cfg, i, t)
    ensures i in m
  {}

  /** A request from beyond the end of the member's log. */
  lemma EndDecides(s: Sys, s': Sys, f: nat, w: Worker, rsp: AEResponse, copyOk: bool)
    requires Inv(s) && Exchanged(s, s', f, w, rsp, copyOk)
    requires s.nodes[f].tailLogIndex < Lead(s).cluster[f].nextIndex
    ensures rsp == AEResponse(Lead(s).currentTerm, false, 0, s.nodes[f].tailLogIndex)
  {
    hide SendAE;
    hide ChooseBatch;
    hide HandleAE;
    hide TakeReply;
    hide Inv;
    InvShape(s);
    RequestIs(s, f);
    ShortAnswer(s, w, copyOk);
  }

  /** A request that cannot name an entry the member has. */
  lemma TermDecides(s: Sys, s': Sys, f: nat, w: Worker, rsp: AEResponse, copyOk: bool)
    requires Inv(s) && Exchanged(s, s', f, w, rsp, copyOk)
    requires var i := Lead(s).cluster[f].nextIndex;
             && 1 < i <= s.nodes[f].tailLogIndex && Oldest(s.nodes[f]) < i <= Oldest(Lead(s)) && i <= |s.full|
             && s.full[i - 1].term > 0
    ensures rsp.term == Lead(s).currentTerm && !rsp.success
  {
    hide SendAE;
    hide ChooseBatch;
    hide TakeReply;
    hide Accept;
    hide ConflictStart;
    hide Tracks;
    hide CommitsHeld;
    hide Network;
    hide InflightOk;
    assert PeerOk(s, f);
    RequestIs(s, f);
    HearingFollows(s.nodes[f], w.req.term);
    assert EntryAt(s.nodes[f], w.next - 1).term == s.full[w.next - 1].term;
    assert EntryAt(Heard(s.nodes[f], w.req.term), w.next - 1) == EntryAt(s.nodes[f], w.next - 1);
  }

  // ---------------------------------------------------------------- a new term, seen from one member

  /** The term has just begun for member `f`: the leader's last entry, the no-op, is recorded and is where it will
      begin; nothing is confirmed; the member has at most what was there before. */
  ghost predicate Fresh(s: Sys, f: nat) {
    && Start(s) && f < |s.nodes| && f != s.ld && s.ld < |s.nodes| && f < |Lead(s).cluster|
    && |s.full| > 0 && |s.full| - 1 in Lead(s).logSlotMap
    && Lead(s).cluster[f].nextIndex == |s.full| - 1 && Lead(s).cluster[f].matchIndex == 0
    && s.nodes[f].tailLogIndex <= |s.full| - 1
  }

  lemma FreshFacts(s: Sys, f: nat)
    requires Fresh(s, f)
    ensures Inv(s) && RecordsOk(Lead(s)) && LogOk(s.nodes[f]) && !Lead(s).cluster[f].inflight
    ensures |s.full| == Lead(s).tailLogIndex && s.sent == {} && s.replies == {} && s.workers == map[]
    ensures Oldest(Lead(s)) < |s.full| - 1 || Oldest(Lead(s)) == 1
  {
    StartInv(s);
    hide Inv;
    hide CommitsHeld;
    assert StartPeer(s, f) && PrevKept(Lead(s), |s.full| - 1);
  }

  lemma FreshFloor(s: Sys, f: nat, b: nat)
    requires Fresh(s, f) && s.ld < |s.nodes| && LogOk(Lead(s)) && LogOk(s.nodes[f])
    requires var t, o, m := s.nodes[f].tailLogIndex, Oldest(Lead(s)), Lead(s).logSlotMap;
             && 1 <= b <= t && (o < b || (o == b && b <= Oldest(s.nodes[f])))
             && AllRecorded(m, b + 1, t) && !Reaches(m, Lead(s).ringSlots, s.cfg, b, t)
    ensures Floor(s, f, b, s.nodes[f].tailLogIndex, Oldest(Lead(s)))
  {
    hide Start;
    hide Inv;
    hide RecordsOk;
    hide Reaches;
    hide AllRecorded;
    FreshFacts(s, f);
  }

  lemma FreshLow(s: Sys, f: nat)
    requires Fresh(s, f) && s.ld < |s.nodes| && LogOk(Lead(s))
    requires 1 < Oldest(Lead(s)) && s.nodes[f].tailLogIndex <= Oldest(Lead(s))
    ensures Low(s, f, s.nodes[f].tailLogIndex, |s.full| - 1)
  {
    hide Start;
    hide Inv;
    hide RecordsOk;
    FreshFacts(s, f);
  }

  lemma {:induction false} RunKeepsFloor(run: seq<Sys>, steps: seq<Step>, k: nat, f: nat, b: nat, t: nat, o: nat)
    requires IsRun(run, steps) && k < |run| && Floor(run[0], f, b, t, o)
    ensures Floor(run[k], f, b, t, o)
  {
    hide Floor;
    hide Do;
    hide Start;
    if k > 0 {
      RunKeepsFloor(run, steps, k - 1, f, b, t, o);
      FloorStep(run[k - 1], steps[k - 1], f, b, t, o);
    }
  }

  lemma {:induction false} RunKeepsLow(run: seq<Sys>, steps: seq<Step>, k: nat, f: nat, t: nat, top: nat)
    requires IsRun(run, steps) && k < |run| && Low(run[0], f, t, top)
    ensures Low(run[k], f, t, top)
  {
    hide Low;
    hide Do;
    hide Start;
    if k > 0 {
      RunKeepsLow(run, steps, k - 1, f, t, top);
      LowStep(run[k - 1], steps[k - 1], f, t, top);
    }
  }

  /** Nothing but the leader's view of member `f` has moved since `s0`. */
  ghost predicate Calm(s0: Sys, s: Sys, f: nat) {
    && Inv(s0) && Inv(s) && f < |s.nodes| == |s0.nodes| && f != s.ld == s0.ld < |s.nodes| && f < |Lead(s0).cluster|
    && s.full == s0.full && s.cfg == s0.cfg && s.workers == s0.workers && f < |Lead(s).cluster|
    && Lead(s) == WithMember(Lead(s0), f, Lead(s).cluster[f])
    && Lead(s).cluster[f].matchIndex == 0 && !Lead(s).cluster[f].inflight
    && LogOk(s0.nodes[f]) && LogOk(s.nodes[f]) && Oldest(s.nodes[f]) == Oldest(s0.nodes[f])
    && s.nodes[f].tailLogIndex == s0.nodes[f].tailLogIndex
  }

  /** A rejection leaves it so. */
  lemma StaysCalm(s0: Sys, s: Sys, s': Sys, f: nat, w: Worker, rsp: AEResponse, copyOk: bool)
    requires Calm(s0, s, f) && Inv(s') && Exchanged(s, s', f, w, rsp, copyOk)
    requires rsp.term == Lead(s).currentTerm && !rsp.success
    ensures Calm(s0, s', f) && Lead(s).cluster[f].nextIndex >= 1
    ensures MovesTo(Lead(s).cluster[f], Lead(s').cluster[f], w, rsp)
    ensures w.fi == f && w.next == Lead(s).cluster[f].nextIndex
  {
    hide SendAE;
    hide HandleAE;
    hide TakeReply;
    hide Inv;
    ExchangeIs(s, s', f, w, rsp, copyOk);
    FollowerBounds(s, f);
    HandleAEGrows(s.nodes[f], w.req, copyOk);
    assert Lead(s') == WithMember(Lead(s0), f, Lead(s').cluster[f]) by {
      assert Lead(s0).cluster[f := Lead(s).cluster[f]][f := Lead(s').cluster[f]] ==
             Lead(s0).cluster[f := Lead(s').cluster[f]];
    }
  }

  lemma FollowerBounds(s: Sys, f: nat)
    requires Inv(s) && f < |s.nodes| && f != s.ld
    ensures s.nodes[f].commitIndex < s.nodes[f].tailLogIndex && LogOk(s.nodes[f]) && ClusterOk(s.nodes[f])
  {
    assert NodeShape(s, f);
  }

  // ---------------------------------------------------------------- how far the next index can fall

  /** One exchange brings the next index to the end of the member's log. */
  lemma ToEnd(s0: Sys, f: nat) returns (run: seq<Sys>, steps: seq<Step>)
    requires Fresh(s0, f) && OnOneExtent(s0)
    ensures |run| > 0 && IsRun(run, steps) && run[0] == s0 && Calm(s0, run[|run| - 1], f)
    ensures Lead(run[|run| - 1]).cluster[f].nextIndex == s0.nodes[f].tailLogIndex
  {
    hide Start;
    hide Inv;
    hide RecordsOk;
    hide OnOneExtent;
    hide Exchanged;
    FreshFacts(s0, f);
    MemberBounds(s0, f);
    run, steps := [s0], [];
    assert Lead(s0).cluster[f := Lead(s0).cluster[f]] == Lead(s0).cluster;
    if Lead(s0).cluster[f].nextIndex > s0.nodes[f].tailLogIndex {
      var w, rsp;
      run, steps, w, rsp := Exchange(run, steps, f, true);
      RunKeepsInv(run, steps, 3);
      EndDecides(s0, run[3], f, w, rsp, true);
      StaysCalm(s0, s0, run[3], f, w, rsp, true);
    }
  }

  /** The longest request that begins at index `i` reaches beyond a log that ends at `t`. */
  ghost predicate ReachesIn(s: Sys, i: nat, t: nat) {
    s.ld < |s.nodes| && Reaches(Lead(s).logSlotMap, Lead(s).ringSlots, s.cfg, i, t)
  }

  /** A failed copy takes it one down. */
  lemma FailedRound(s0: Sys, f: nat, run: seq<Sys>, steps: seq<Step>) returns (run': seq<Sys>, steps': seq<Step>)
    requires |run| > 0 && IsRun(run, steps) && Calm(s0, run[|run| - 1], f) && OnOneExtent(s0)
    requires var i, t := Lead(run[|run| - 1]).cluster[f].nextIndex, s0.nodes[f].tailLogIndex;
             1 < i <= t < |s0.full| && ReachesIn(s0, i, t)
    ensures |run'| > |run| && IsRun(run', steps') && run'[0] == run[0] && Calm(s0, run'[|run'| - 1], f)
    ensures Lead(run'[|run'| - 1]).cluster[f].nextIndex == Lead(run[|run| - 1]).cluster[f].nextIndex - 1
  {
    hide IsRun;
    hide Inv;
    hide Exchanged;
    hide Reaches;
    var k := |run| - 1;
    var s := run[k];
    var w, rsp;
    run', steps', w, rsp := Exchange(run, steps, f, false);
    assert run'[..|run|][0] == run'[0];
    RunKeepsInv(run', steps', k + 3);
    CopyDecides(s, run'[k + 3], f, w, rsp, false, s0.nodes[f].tailLogIndex);
    StaysCalm(s0, s, run'[k + 3], f, w, rsp, false);
  }

  /** Failed copies take it down step by step, as long as requests reach beyond the member's log. */
  lemma {:induction false} Descend(s0: Sys, f: nat, i: nat) returns (run: seq<Sys>, steps: seq<Step>)
    requires Fresh(s0, f) && OnOneExtent(s0) && 1 <= i <= s0.nodes[f].tailLogIndex
    requires forall j :: i < j <= s0.nodes[f].tailLogIndex ==> ReachesIn(s0, j, s0.nodes[f].tailLogIndex)
    ensures |run| > 0 && IsRun(run, steps) && run[0] == s0 && Calm(s0, run[|run| - 1], f)
    ensures Lead(run[|run| - 1]).cluster[f].nextIndex == i
    decreases s0.nodes[f].tailLogIndex - i
  {
    hide IsRun;
    hide OnOneExtent;
    hide Start;
    hide Reaches;
    if i == s0.nodes[f].tailLogIndex {
      run, steps := ToEnd(s0, f);
    } else {
      run, steps := Descend(s0, f, i + 1);
      run, steps := FailedRound(s0, f, run, steps);
    }
  }

  // ---------------------------------------------------------------- exact conditions

  ghost predicate RunFrom(run: seq<Sys>, steps: seq<Step>, s: Sys) {
    IsRun(run, steps) && run[0] == s
  }

  /** Some run of the term brings member `f` an entry. */
  ghost predicate Grows(s: Sys, f: nat) {
    exists run, steps, k: nat :: RunFrom(run, steps, s) && k < |run| && LongerIn(s, run[k], f)
  }

  predicate LongerIn(s: Sys, s': Sys, f: nat) {
    f < |s.nodes| && f < |s'.nodes| && s'.nodes[f].tailLogIndex > s.nodes[f].tailLogIndex
  }

  lemma NeverGrows(run: seq<Sys>, steps: seq<Step>, k: nat, f: nat)
    requires IsRun(run, steps) && k < |run| && Fresh(run[0], f)
    requires !ReachesIn(run[0], run[0].nodes[f].tailLogIndex, run[0].nodes[f].tailLogIndex)
    ensures f < |run[k].nodes| && run[k].nodes[f].tailLogIndex == run[0].nodes[f].tailLogIndex
  {
    hide IsRun;
    hide Start;
    hide Inv;
    hide Reaches;
    hide RecordsOk;
    var s := run[0];
    var t := s.nodes[f].tailLogIndex;
    FreshFacts(s, f);
    if 1 < Oldest(Lead(s)) && t <= Oldest(Lead(s)) {
      FreshLow(s, f);
      RunKeepsLow(run, steps, k, f, t, |s.full| - 1);
    } else {
      FreshFloor(s, f, t);
      RunKeepsFloor(run, steps, k, f, t, t, Oldest(Lead(s)));
    }
  }

  lemma GrowsOnce(s: Sys, f: nat) returns (run: seq<Sys>, steps: seq<Step>)
    requires Fresh(s, f) && OnOneExtent(s) && ReachesIn(s, s.nodes[f].tailLogIndex, s.nodes[f].tailLogIndex)
    ensures |run| > 0 && RunFrom(run, steps, s) && LongerIn(s, run[|run| - 1], f)
  {
    hide Start;
    hide Inv;
    hide IsRun;
    hide Exchanged;
    hide Reaches;
    var t := s.nodes[f].tailLogIndex;
    run, steps := ToEnd(s, f);
    var k := |run| - 1;
    var s1 := run[k];
    var w, rsp;
    run, steps, w, rsp := Exchange(run, steps, f, true);
    assert run[..k + 1][0] == run[0];
    CopyDecides(s1, run[k + 3], f, w, rsp, true, t);
    CopyLengthens(s1, run[k + 3], f, w, rsp, true);
  }

  lemma CopyLengthens(s: Sys, s': Sys, f: nat, w: Worker, rsp: AEResponse, copyOk: bool)
    requires Inv(s) && Exchanged(s, s', f, w, rsp, copyOk) && rsp.success
    ensures |s'.nodes| == |s.nodes| && s'.nodes[f].tailLogIndex >= w.next + w.req.numEntries
  {
    hide SendAE;
    hide HandleAE;
    hide TakeReply;
    hide Inv;
    hide ChooseBatch;
    InvShape(s);
    RequestIs(s, f);
    FollowerBounds(s, f);
    HandleAEGrows(s.nodes[f], w.req, copyOk);
  }

  /** What a member gets in a term. Some run brings it an entry it did not have if and only if the index where its log
      ends is recorded in the leader's slot map, with a record that fits the ring and the batch limits. Otherwise
      no run does: it gets heartbeats for as long as the term lasts, whether the leader's log is trimmed or not. */
  lemma MemberGrowsIff(s: Sys, f: nat)
    requires Fresh(s, f) && OnOneExtent(s)
    ensures Grows(s, f) <==> ReachesIn(s, s.nodes[f].tailLogIndex, s.nodes[f].tailLogIndex)
  {
    hide IsRun;
    hide Start;
    hide OnOneExtent;
    hide Reaches;
    if ReachesIn(s, s.nodes[f].tailLogIndex, s.nodes[f].tailLogIndex) {
      var run, steps := GrowsOnce(s, f);
      assert RunFrom(run, steps, s) && |run| - 1 < |run| && LongerIn(s, run[|run| - 1], f);
    } else if Grows(s, f) {
      var run, steps, k: nat :| RunFrom(run, steps, s) && k < |run| && LongerIn(s, run[k], f);
      NeverGrows(run, steps, k, f);
    }
  }

  /** The highest index that a request cannot reach from. */
  lemma {:induction false} HighestStop(m: LogSlotMap, ringSlots: nat, cfg: Config, t: nat, i: nat, top: nat)
    returns (b: nat)
    requires i <= top <= t && !Reaches(m, ringSlots, cfg, i, t)
    requires forall j :: top < j <= t ==> Reaches(m, ringSlots, cfg, j, t)
    ensures i <= b <= t && !Reaches(m, ringSlots, cfg, b, t) && AllRecorded(m, b + 1, t)
    decreases top
  {
    hide Fits;
    if Reaches(m, ringSlots, cfg, top, t) {
      b := HighestStop(m, ringSlots, cfg, t, i, top - 1);
    } else {
      b := top;
      if top < t {
        assert Reaches(m, ringSlots, cfg, top + 1, t);
      }
    }
  }

  /** Every request to member `f`, in every run of the term, names the entry in front of it. */
  ghost predicate AlwaysNames(s: Sys, f: nat) {
    forall run, steps, k: nat :: RunFrom(run, steps, s) && k < |run| ==> RequestsName(run[k], f)
  }

  ghost predicate RequestsName(s: Sys, f: nat) {
    forall msg :: msg in s.sent && msg.worker.fi == f ==> NamesPrev(s.full, msg.worker.req)
  }

  lemma NamesInRun(run: seq<Sys>, steps: seq<Step>, k: nat, f: nat)
    requires IsRun(run, steps) && k < |run| && Fresh(run[0], f) && LogOk(Lead(run[0]))
    requires var o, t := Oldest(Lead(run[0])), run[0].nodes[f].tailLogIndex;
             o == 1 || t == 1 || exists i :: o < i <= t && !ReachesIn(run[0], i, t)
    ensures RequestsName(run[k], f)
  {
    hide IsRun;
    hide Start;
    hide Inv;
    hide Reaches;
    hide AllRecorded;
    hide RecordsOk;
    var s := run[0];
    var o, t := Oldest(Lead(s)), s.nodes[f].tailLogIndex;
    FreshFacts(s, f);
    if o == 1 {
      InvShape(s);
      RunKeepsRooted(run, steps, k);
    } else if t == 1 {
      FreshLow(s, f);
      RunKeepsLow(run, steps, k, f, t, |s.full| - 1);
      LowNames(run[k], f, t, |s.full| - 1);
    } else {
      var i :| o < i <= t && !ReachesIn(s, i, t);
      var b := HighestStop(Lead(s).logSlotMap, Lead(s).ringSlots, s.cfg, t, i, t);
      FreshFloor(s, f, b);
      RunKeepsFloor(run, steps, k, f, b, t, o);
    }
  }

  lemma LowNames(s: Sys, f: nat, t: nat, top: nat)
    requires Low(s, f, t, top) && t == 1
    ensures RequestsName(s, f)
  {
    hide Tracks;
    hide CommitsHeld;
    hide Peers;
    forall msg | msg in s.sent && msg.worker.fi == f ensures NamesPrev(s.full, msg.worker.req) {
      assert RequestOk(s, msg.worker) && LowRequest(msg.worker, Lead(s).cluster[f].nextIndex, t, top);
    }
  }

  /** A run in which the entry in front cannot be named. */
  lemma UnnamedRun(s: Sys, f: nat) returns (run: seq<Sys>, steps: seq<Step>, msg: Msg)
    requires Fresh(s, f) && OnOneExtent(s) && LogOk(Lead(s))
    requires forall i :: 0 < i < |s.full| ==> s.full[i].term > 0
    requires var o, t := Oldest(Lead(s)), s.nodes[f].tailLogIndex;
             1 < o && 1 < t && forall i :: o < i <= t ==> ReachesIn(s, i, t)
    ensures |run| > 2 && RunFrom(run, steps, s) && msg in run[|run| - 3].sent && msg.worker.fi == f
    ensures !NamesPrev(run[|run| - 3].full, msg.worker.req) && msg.worker.req.prevLogTerm == 0
    ensures msg.worker.req.prevLogIndex + 1 == msg.worker.next == Min(Oldest(Lead(s)), s.nodes[f].tailLogIndex)
    ensures !msg.worker.HasEntries()
  {
    hide Start;
    hide Inv;
    hide IsRun;
    hide Reaches;
    hide RecordsOk;
    hide OnOneExtent;
    hide SendAE;
    hide ChooseBatch;
    hide HandleAE;
    hide TakeReply;
    var i := Min(Oldest(Lead(s)), s.nodes[f].tailLogIndex);
    run, steps := Descend(s, f, i);
    var k := |run| - 1;
    var s1 := run[k];
    assert OnOneExtent(s1) by {
      CalmExtent(s, s1, f);
    }
    var w, rsp;
    var k0 := |steps|;
    run, steps, w, rsp := Exchange(run, steps, f, true);
    assert run[..k + 1][0] == run[0] && run[..k + 1][k] == run[k];
    msg := steps[k0 + 1].msg;
    InvShape(s1);
    RequestIs(s1, f);
    NothingToSend(Lead(s1), i, s1.cfg);
    FreshFacts(s, f);
    RunGoesForward(run, steps, k, k + 1);
    LaterFull(s1, run[k + 1]);
  }

  lemma NothingToSend(n: Node, i: nat, cfg: Config)
    requires RecordsOk(n) && 1 < Oldest(n) && i <= Oldest(n)
    ensures i !in n.logSlotMap && ChooseBatch(n, i, cfg) == Ok(NO_BATCH)
  {
    assert i in n.logSlotMap ==> PrevKept(n, i);
  }

  lemma CalmExtent(s0: Sys, s: Sys, f: nat)
    requires Calm(s0, s, f) && OnOneExtent(s0)
    ensures OnOneExtent(s)
  {
    hide OneExtent;
    hide Inv;
  }

  lemma LaterFull(s: Sys, s': Sys)
    requires Later(s, s')
    ensures s.full <= s'.full
  {}

  /** The previous entry can always be named if and only if the leader's log reaches back to index 1, the member's log
      is empty, or there is an index, in memory and not beyond the end of the member's log, from which a request does
      not reach beyond that end. */
  lemma PrevNamedIff(s: Sys, f: nat)
    requires Fresh(s, f) && OnOneExtent(s) && LogOk(Lead(s))
    requires forall i :: 0 < i < |s.full| ==> s.full[i].term > 0
    ensures var o, t := Oldest(Lead(s)), s.nodes[f].tailLogIndex;
            AlwaysNames(s, f) <==> o == 1 || t == 1 || exists i :: o < i <= t && !ReachesIn(s, i, t)
  {
    hide IsRun;
    hide Start;
    hide OnOneExtent;
    hide ReachesIn;
    hide NamesPrev;
    var o, t := Oldest(Lead(s)), s.nodes[f].tailLogIndex;
    if o == 1 || t == 1 || exists i :: o < i <= t && !ReachesIn(s, i, t) {
      forall run, steps, k: nat | RunFrom(run, steps, s) && k < |run| ensures RequestsName(run[k], f) {
        NamesInRun(run, steps, k, f);
      }
    } else {
      TailPositive(s, f);
      var run, steps, msg := UnnamedRun(s, f);
      assert RunFrom(run, steps, s) && |run| - 3 < |run| && !RequestsName(run[|run| - 3], f);
    }
  }

  lemma TailPositive(s: Sys, f: nat)
    requires Fresh(s, f)
    ensures s.nodes[f].tailLogIndex >= 1
  {
    FreshFacts(s, f);
  }

  /** In every run of the term, the next index of member `f` is that of an entry in memory, or of the next one. */
  ghost predicate AlwaysInMemory(s: Sys, f: nat) {
    forall run, steps, k: nat :: RunFrom(run, steps, s) && k < |run| ==> NextInMemory(run[k], f)
  }

  ghost predicate NextInMemory(s: Sys, f: nat) {
    && s.ld < |s.nodes| && f < |Lead(s).cluster| && LogOk(Lead(s))
    && Oldest(Lead(s)) <= Lead(s).cluster[f].nextIndex
  }

  lemma InMemoryInRun(run: seq<Sys>, steps: seq<Step>, k: nat, f: nat)
    requires IsRun(run, steps) && k < |run| && Fresh(run[0], f) && LogOk(Lead(run[0])) && LogOk(run[0].nodes[f])
    requires var o, t := Oldest(Lead(run[0])), run[0].nodes[f].tailLogIndex;
             || o == 1
             || (o <= t && (o <= Oldest(run[0].nodes[f]) || exists i :: o < i <= t && !ReachesIn(run[0], i, t)))
    ensures NextInMemory(run[k], f)
  {
    hide IsRun;
    hide Start;
    hide Inv;
    hide Reaches;
    hide RecordsOk;
    var s := run[0];
    var o, t := Oldest(Lead(s)), s.nodes[f].tailLogIndex;
    FreshFacts(s, f);
    if o == 1 {
      InvShape(s);
      RunKeepsRooted(run, steps, k);
      RunKeepsInv(run, steps, k);
      SameMembers(run, steps, k);
      MemberBounds(run[k], f);
      assert RootedFor(Lead(run[k]), f);
    } else {
      var b := FloorFor(s, f);
      RunKeepsFloor(run, steps, k, f, b, t, o);
      MemberBounds(run[k], f);
    }
  }

  lemma SameMembers(run: seq<Sys>, steps: seq<Step>, k: nat)
    requires IsRun(run, steps) && k < |run|
    ensures run[k].ld == run[0].ld && |run[k].nodes| == |run[0].nodes|
  {
    RunGoesForward(run, steps, 0, k);
  }

  lemma FloorFor(s: Sys, f: nat) returns (b: nat)
    requires Fresh(s, f) && LogOk(Lead(s)) && LogOk(s.nodes[f])
    requires var o, t := Oldest(Lead(s)), s.nodes[f].tailLogIndex;
             1 < o <= t && (o <= Oldest(s.nodes[f]) || exists i :: o < i <= t && !ReachesIn(s, i, t))
    ensures Floor(s, f, b, s.nodes[f].tailLogIndex, Oldest(Lead(s))) && Oldest(Lead(s)) <= b
  {
    hide Start;
    hide Inv;
    hide Fits;
    var o, t := Oldest(Lead(s)), s.nodes[f].tailLogIndex;
    var m := Lead(s).logSlotMap;
    FreshFacts(s, f);
    if i :| o < i <= t && !ReachesIn(s, i, t) {
      b := HighestStop(m, Lead(s).ringSlots, s.cfg, t, i, t);
    } else {
      b := o;
      assert o !in m;
      if o < t {
        assert ReachesIn(s, o + 1, t);
      }
    }
    FreshFloor(s, f, b);
  }

  /** A run in which the next index falls below what is in memory. */
  lemma FallingRun(s: Sys, f: nat) returns (run: seq<Sys>, steps: seq<Step>)
    requires Fresh(s, f) && OnOneExtent(s) && LogOk(Lead(s)) && LogOk(s.nodes[f])
    requires forall i :: 0 < i < |s.full| ==> s.full[i].term > 0
    requires var o, t := Oldest(Lead(s)), s.nodes[f].tailLogIndex;
             1 < o && (t < o || (Oldest(s.nodes[f]) < o && forall i :: o < i <= t ==> ReachesIn(s, i, t)))
    ensures |run| > 0 && RunFrom(run, steps, s) && !NextInMemory(run[|run| - 1], f)
  {
    hide Start;
    hide Inv;
    hide IsRun;
    hide ReachesIn;
    hide RecordsOk;
    hide OnOneExtent;
    hide Exchanged;
    FreshFacts(s, f);
    var o, t := Oldest(Lead(s)), s.nodes[f].tailLogIndex;
    if t < o {
      run, steps := ToEnd(s, f);
    } else {
      run, steps := Descend(s, f, o);
      var k := |run| - 1;
      var s1 := run[k];
      CalmExtent(s, s1, f);
      var w, rsp;
      run, steps, w, rsp := Exchange(run, steps, f, true);
      assert run[..k + 1][0] == run[0] && run[..k + 1][k] == run[k];
      RunKeepsInv(run, steps, k + 3);
      TermDecides(s1, run[k + 3], f, w, rsp, true);
      StaysCalm(s, s1, run[k + 3], f, w, rsp, true);
    }
  }

  /** The next index always stays in memory if and only if the leader's log reaches back to index 1, or the member's
      log ends in memory and something stops the fall: the member no longer has the entry in front of the leader's
      oldest one, or there is an index as in `PrevNamedIff`. */
  lemma NextStaysInMemoryIff(s: Sys, f: nat)
    requires Fresh(s, f) && OnOneExtent(s) && LogOk(Lead(s)) && LogOk(s.nodes[f])
    requires forall i :: 0 < i < |s.full| ==> s.full[i].term > 0
    ensures var o, t := Oldest(Lead(s)), s.nodes[f].tailLogIndex;
            AlwaysInMemory(s, f) <==>
            || o == 1
            || (o <= t && (o <= Oldest(s.nodes[f]) || exists i :: o < i <= t && !ReachesIn(s, i, t)))
  {
    hide IsRun;
    hide Start;
    hide OnOneExtent;
    hide ReachesIn;
    hide NextInMemory;
    var o, t := Oldest(Lead(s)), s.nodes[f].tailLogIndex;
    if o == 1 || (o <= t && (o <= Oldest(s.nodes[f]) || exists i :: o < i <= t && !ReachesIn(s, i, t))) {
      forall run, steps, k: nat | RunFrom(run, steps, s) && k < |run| ensures NextInMemory(run[k], f) {
        InMemoryInRun(run, steps, k, f);
      }
    } else {
      var run, steps := FallingRun(s, f);
      assert RunFrom(run, steps, s) && |run| - 1 < |run| && !NextInMemory(run[|run| - 1], f);
    }
  }

  // ---------------------------------------------------------------- a confirmed member

  /** The run can go on so that member `f` confirms index `x`. */
  ghost predicate CanConfirm(run: seq<Sys>, f: nat, x: nat) {
    exists run', steps', j: nat :: IsRun(run', steps') && run <= run' && j < |run'| && ConfirmedIn(run'[j], f, x)
  }

  predicate ConfirmedIn(s: Sys, f: nat, x: nat) {
    s.ld < |s.nodes| && f < |Lead(s).cluster| && x <= Lead(s).cluster[f].matchIndex
  }

  /** In any state of any run: a member that has confirmed everything in front of its next index, and has no request
      out, will confirm more in some continuation if and only if that index is recorded, with a record that fits.
      Otherwise it never does, and the leader sends it nothing but heartbeats. */
  lemma MemberServedIff(run: seq<Sys>, steps: seq<Step>, f: nat)
    requires |run| > 0 && IsRun(run, steps)
    requires var s := run[|run| - 1];
             && f < |s.nodes| && f != s.ld && OnOneExtent(s) && f < |Lead(s).cluster|
             && Lead(s).cluster[f].matchIndex + 1 == Lead(s).cluster[f].nextIndex < |s.full|
             && forall w :: w in s.workers ==> s.workers[w].fi != f
    ensures var s := run[|run| - 1];
            var x := Lead(s).cluster[f].nextIndex;
            CanConfirm(run, f, x) <==> ReachesIn(s, x, x)
  {
    hide IsRun;
    hide OneExtent;
    hide Inv;
    hide Reaches;
    var k := |run| - 1;
    var s := run[k];
    var x := Lead(s).cluster[f].nextIndex;
    RunKeepsInv(run, steps, k);
    if ReachesIn(s, x, x) {
      var run', steps' := ServedOnce(run, steps, f);
      assert IsRun(run', steps') && run <= run' && |run'| - 1 < |run'| && ConfirmedIn(run'[|run'| - 1], f, x);
    } else if CanConfirm(run, f, x) {
      var run', steps', j: nat :| IsRun(run', steps') && run <= run' && j < |run'| && ConfirmedIn(run'[j], f, x);
      assert run'[k] == s && Pinned(s, f, x);
      if j < k {
        Unconfirmed(run', steps', j, k, f);
      } else {
        PinnedForever(run', steps', k, j, f, x);
      }
    }
  }

  lemma Unconfirmed(run: seq<Sys>, steps: seq<Step>, j: nat, k: nat, f: nat)
    requires IsRun(run, steps) && j <= k < |run| && f < |run[k].nodes| && f != run[k].ld
    ensures run[j].ld < |run[j].nodes| && run[k].ld < |run[k].nodes|
    ensures f < |Lead(run[j]).cluster| && f < |Lead(run[k]).cluster|
    ensures Lead(run[j]).cluster[f].matchIndex <= Lead(run[k]).cluster[f].matchIndex
  {
    RunGoesForward(run, steps, j, k);
    assert PeerLater(run[j], run[k], f);
  }

  lemma ServedOnce(run: seq<Sys>, steps: seq<Step>, f: nat) returns (run': seq<Sys>, steps': seq<Step>)
    requires |run| > 0 && IsRun(run, steps)
    requires var s := run[|run| - 1];
             && f < |s.nodes| && f != s.ld && OnOneExtent(s) && f < |Lead(s).cluster|
             && Lead(s).cluster[f].nextIndex < |s.full| && (forall w :: w in s.workers ==> s.workers[w].fi != f)
             && Lead(s).cluster[f].matchIndex + 1 == Lead(s).cluster[f].nextIndex
             && ReachesIn(s, Lead(s).cluster[f].nextIndex, Lead(s).cluster[f].nextIndex)
    ensures |run'| > 0 && IsRun(run', steps') && run <= run'
    ensures ConfirmedIn(run'[|run'| - 1], f, Lead(run[|run| - 1]).cluster[f].nextIndex)
  {
    hide IsRun;
    hide Inv;
    hide Reaches;
    hide Exchanged;
    var k := |run| - 1;
    var s := run[k];
    RunKeepsInv(run, steps, k);
    NotInflight(s, f);
    var w, rsp;
    run', steps', w, rsp := Exchange(run, steps, f, true);
    RunKeepsInv(run', steps', k + 3);
    EntriesConfirm(s, run'[k + 3], f, w, rsp);
  }

  lemma NotInflight(s: Sys, f: nat)
    requires Inv(s) && f < |s.nodes| && f != s.ld && s.ld < |s.nodes| && f < |Lead(s).cluster|
    requires forall w :: w in s.workers ==> s.workers[w].fi != f
    ensures !Lead(s).cluster[f].inflight
  {
    assert PeerOk(s, f);
  }

  /** A request with entries from a confirmed index on is accepted once its copy works. */
  lemma EntriesConfirm(s: Sys, s': Sys, f: nat, w: Worker, rsp: AEResponse)
    requires Inv(s) && Exchanged(s, s', f, w, rsp, true) && OnOneExtent(s) && !Lead(s).cluster[f].inflight
    requires Lead(s).cluster[f].matchIndex + 1 == Lead(s).cluster[f].nextIndex < |s.full|
    requires ReachesIn(s, Lead(s).cluster[f].nextIndex, Lead(s).cluster[f].nextIndex)
    ensures ConfirmedIn(s', f, Lead(s).cluster[f].nextIndex)
  {
    hide SendAE;
    hide ChooseBatch;
    hide HandleAE;
    hide TakeReply;
    hide Reaches;
    hide OneExtent;
    hide Inv;
    InvShape(s);
    MemberBounds(s, f);
    RequestIs(s, f);
    var base :| base > 0 && s.cfg.extents == OneExtent(base, Lead(s).ringSlots);
    GcBelow(s, f);
    GoesBeyond(Lead(s), w.next, w.next, s.cfg, base);
    ReachesFirst(Lead(s).logSlotMap, Lead(s).ringSlots, s.cfg, w.next, w.next);
    RecordNamesPrev(s, f, w);
    AnswerIs(s, w, true);
    ExchangeIs(s, s', f, w, rsp, true);
  }

  lemma GcBelow(s: Sys, f: nat)
    requires Inv(s) && f < |s.nodes| && f != s.ld && s.ld < |s.nodes| && f < |Lead(s).cluster|
    ensures Lead(s).gcUpTo <= Lead(s).cluster[f].matchIndex
  {
    assert PeerOk(s, f);
  }
}
