/** From one leader to the next: what a rejection tells the leader, and what the up-to-date check of an election
    guarantees at the end of a term. */
module Succession {
  import opened Basics
  import opened Batch
  import opened Types
  import opened Progress
  import opened Commit
  import opened Election
  import opened Follower
  import opened LeaderLog
  import opened Replication
  import opened ReplicationRuns
  import ElectionRuns

  // ---------------------------------------------------------------- rejections and what follows them

  /** In every run that begins with a rooted log, a request is accepted exactly if the follower's log reaches up to it
      and the copy, where one is needed, works. A term conflict never arises; a log that is too short is reported
      with its end. */
  lemma AcceptedIff(run: seq<Sys>, steps: seq<Step>, k: nat, msg: Msg, copyOk: bool)
    requires IsRun(run, steps) && k < |run| && Rooted(run[0]) && msg in run[k].sent
    ensures msg.worker.fi < |run[k].nodes| && LogOk(run[k].nodes[msg.worker.fi])
    ensures ClusterOk(run[k].nodes[msg.worker.fi])
    ensures var n, req := run[k].nodes[msg.worker.fi], msg.worker.req;
            var rsp := HandleAE(n, req, copyOk).1;
            && rsp.term == req.term
            && (rsp.success <==> req.prevLogIndex < n.tailLogIndex && (NeedsCopy(n, req) ==> copyOk))
            && rsp.conflictTerm == 0
            && rsp.conflictIndex == (if req.prevLogIndex < n.tailLogIndex then 0 else n.tailLogIndex)
  {
    RunKeepsInv(run, steps, k);
    RunKeepsRooted(run, steps, k);
    assert RequestOk(run[k], msg.worker) && NodeShape(run[k], msg.worker.fi);
    AcceptedNow(run[k], msg, copyOk);
  }

  /** The request names the entry in front of it, or the follower no longer has that entry to compare. */
  ghost predicate PrevFits(s: Sys, w: Worker) {
    && w.fi < |s.nodes| && LogOk(s.nodes[w.fi])
    && (NamesPrev(s.full, w.req) || w.req.prevLogIndex < Oldest(s.nodes[w.fi]))
  }

  lemma AcceptedNow(s: Sys, msg: Msg, copyOk: bool)
    requires Inv(s) && msg in s.sent && PrevFits(s, msg.worker)
    ensures msg.worker.fi < |s.nodes| && LogOk(s.nodes[msg.worker.fi]) && ClusterOk(s.nodes[msg.worker.fi])
    ensures var n, req := s.nodes[msg.worker.fi], msg.worker.req;
            var rsp := HandleAE(n, req, copyOk).1;
            && rsp.term == req.term
            && (rsp.success <==> req.prevLogIndex < n.tailLogIndex && (NeedsCopy(n, req) ==> copyOk))
            && rsp.conflictTerm == 0
            && rsp.conflictIndex == (if req.prevLogIndex < n.tailLogIndex then 0 else n.tailLogIndex)
  {
    assert RequestOk(s, msg.worker);
    AnswerIs(s, msg.worker, copyOk);
  }

  lemma AnswerIs(s: Sys, w: Worker, copyOk: bool)
    requires Inv(s) && s.ld < |s.nodes| && RequestOk(s, w) && PrevFits(s, w)
    ensures w.fi < |s.nodes| && LogOk(s.nodes[w.fi]) && ClusterOk(s.nodes[w.fi])
    ensures var n, req := s.nodes[w.fi], w.req;
            var rsp := HandleAE(n, req, copyOk).1;
            && rsp.term == req.term
            && (rsp.success <==> req.prevLogIndex < n.tailLogIndex && (NeedsCopy(n, req) ==> copyOk))
            && rsp.conflictTerm == 0
            && rsp.conflictIndex == (if req.prevLogIndex < n.tailLogIndex then 0 else n.tailLogIndex)
  {
    hide Tracks;
    hide CommitsHeld;
    hide InflightOk;
    hide Stored;
    hide PersistHeader;
    var n, req := s.nodes[w.fi], w.req;
    assert PeerOk(s, w.fi);
    HearingFollows(n, req.term);
    var n1 := Heard(n, req.term);
    assert Oldest(n) <= req.prevLogIndex < n.tailLogIndex ==>
             EntryAt(n1, req.prevLogIndex) == EntryAt(n, req.prevLogIndex);
  }

  lemma HearingFollows(n: Node, term: nat)
    requires LogOk(n) && ClusterOk(n) && (n.currentTerm < term || (n.currentTerm == term && !n.role.Leader?))
    ensures var n1 := Heard(n, term);
            && n1.role.Follower? && n1.currentTerm == term && n1.log == n.log && n1.tailLogIndex == n.tailLogIndex
            && ClusterOk(n1) && n1.ringSlots == n.ringSlots
  {}

  /** After a rejection for shortness the leader's next index is exactly the end of the follower's log, so the next
      request passes the check. */
  lemma ShortLogHintHits(n: Node, fi: nat, prevLogIndex: nat, followerTail: nat)
    requires LogOk(n) && fi < |n.cluster| && prevLogIndex < n.tailLogIndex
    requires n.cluster[fi].nextIndex == prevLogIndex + 1
    requires n.cluster[fi].matchIndex < followerTail <= prevLogIndex
    ensures AeBackoff(n, fi, prevLogIndex, 0, followerTail, prevLogIndex + 1).cluster[fi].nextIndex == followerTail
  {}

  /** Terms do not decrease along the vector. */
  ghost predicate TermsAscend(n: Node)
    requires LogOk(n)
  {
    forall i, j :: Oldest(n) <= i <= j < n.tailLogIndex ==> EntryAt(n, i).term <= EntryAt(n, j).term
  }

  /** The backward scan finds the last entry of the term at or below `from`, or there is none. */
  lemma {:induction false} ScanBackFindsLast(n: Node, from: nat, term: nat)
    requires LogOk(n) && from < n.tailLogIndex && TermsAscend(n)
    ensures var r := ScanBack(n, from, term);
            && (r.Some? ==> Oldest(n) <= r.value - 1 <= from && EntryAt(n, r.value - 1).term == term &&
                            forall i :: r.value <= i <= from ==> EntryAt(n, i).term != term)
            && (r.None? ==> forall i :: Oldest(n) <= i <= from ==> EntryAt(n, i).term != term)
    decreases from
  {
    if from >= 1 && from > Oldest(n) && EntryAt(n, from).term > term {
      ScanBackFindsLast(n, from - 1, term);
    }
  }

  /** After a term conflict the next index is one past the leader's last entry of the conflicting term, if that lies
      between what is confirmed and the rejected entry. */
  lemma TermHintHits(n: Node, fi: nat, prevLogIndex: nat, conflictTerm: nat, conflictIndex: nat, j: nat)
    requires LogOk(n) && fi < |n.cluster| && prevLogIndex < n.tailLogIndex && TermsAscend(n)
    requires n.cluster[fi].nextIndex == prevLogIndex + 1 && conflictTerm != 0
    requires Oldest(n) <= j < prevLogIndex && n.cluster[fi].matchIndex <= j && EntryAt(n, j).term == conflictTerm
    requires forall i :: j < i <= prevLogIndex ==> EntryAt(n, i).term != conflictTerm
    ensures AeBackoff(n, fi, prevLogIndex, conflictTerm, conflictIndex, prevLogIndex + 1).cluster[fi].nextIndex == j + 1
  {
    ScanBackFindsLast(n, prevLogIndex, conflictTerm);
    hide ScanBack;
    var r := ScanBack(n, prevLogIndex, conflictTerm);
    assert r.Some? && EntryAt(n, r.value - 1).term == conflictTerm;
  }

  /** If the leader has no entry of the conflicting term at or below the rejected one, the next index becomes the first
      index of that term in the follower's log. */
  lemma TermHintMisses(n: Node, fi: nat, prevLogIndex: nat, conflictTerm: nat, conflictIndex: nat)
    requires LogOk(n) && fi < |n.cluster| && prevLogIndex < n.tailLogIndex
    requires n.cluster[fi].nextIndex == prevLogIndex + 1 && conflictTerm != 0
    requires forall i :: Oldest(n) <= i <= prevLogIndex ==> EntryAt(n, i).term != conflictTerm
    requires n.cluster[fi].matchIndex < conflictIndex <= prevLogIndex
    ensures AeBackoff(n, fi, prevLogIndex, conflictTerm, conflictIndex, prevLogIndex + 1).cluster[fi].nextIndex ==
            conflictIndex
  {
    NothingFound(n, prevLogIndex, conflictTerm);
  }

  lemma {:induction false} NothingFound(n: Node, from: nat, term: nat)
    requires LogOk(n) && from < n.tailLogIndex
    requires forall i :: Oldest(n) <= i <= from ==> EntryAt(n, i).term != term
    ensures ScanBack(n, from, term).None?
    decreases from
  {
    if from >= 1 && from > Oldest(n) && EntryAt(n, from).term > term {
      NothingFound(n, from - 1, term);
    }
  }

  /** A hint that does not point below the rejected request takes the next index down by one. */
  lemma UselessHint(n: Node, fi: nat, prevLogIndex: nat, conflictIndex: nat)
    requires LogOk(n) && fi < |n.cluster| && prevLogIndex < n.tailLogIndex
    requires n.cluster[fi].nextIndex == prevLogIndex + 1 && n.cluster[fi].matchIndex < prevLogIndex
    requires conflictIndex == 0 || conflictIndex > prevLogIndex
    ensures AeBackoff(n, fi, prevLogIndex, 0, conflictIndex, prevLogIndex + 1).cluster[fi].nextIndex == prevLogIndex
  {}

  /** The two ends together. A leader `n` names its own previous entry to a follower `g` and is rejected for a term
      conflict. It then tries an index in front of which the follower's entry has an earlier term than the conflicting
      one, or its own last entry of that term stands, or everything is confirmed or out of the follower's memory: a
      round of rejections per term at most. And it never goes in front of an index that both have with the same term. */
  lemma ConflictSkipsTerm(n: Node, g: Node, fi: nat, req: AERequest, copyOk: bool, same: nat)
    requires LogOk(n) && LogOk(g) && ClusterOk(g) && fi < |n.cluster| && TermsAscend(n) && TermsAscend(g)
    requires Oldest(n) <= req.prevLogIndex < n.tailLogIndex && n.cluster[fi].nextIndex == req.prevLogIndex + 1
    requires req.prevLogTerm == EntryAt(n, req.prevLogIndex).term && n.cluster[fi].matchIndex < req.prevLogIndex
    requires Listens(g, req) && !PrevMatches(g, req) && req.prevLogIndex < g.tailLogIndex
    requires forall i :: Oldest(g) <= i < g.tailLogIndex ==> EntryAt(g, i).term > 0
    requires Oldest(n) <= same < req.prevLogIndex && Oldest(g) <= same && EntryAt(n, same).term == EntryAt(g, same).term
    ensures var rsp := HandleAE(g, req, copyOk).1;
            var next := AeBackoff(n, fi, req.prevLogIndex, rsp.conflictTerm, rsp.conflictIndex,
                                  req.prevLogIndex + 1).cluster[fi].nextIndex;
            && same < next <= req.prevLogIndex
            && (|| next == n.cluster[fi].matchIndex + 1
                || next - 1 < Oldest(g) || EntryAt(g, next - 1).term < rsp.conflictTerm
                || (Oldest(n) <= next - 1 && EntryAt(n, next - 1).term == rsp.conflictTerm))
  {
    hide HandleAE;
    hide ScanBack;
    ConflictHint(g, req, copyOk);
    var rsp := HandleAE(g, req, copyOk).1;
    ScanBackFindsLast(n, req.prevLogIndex, rsp.conflictTerm);
    assert EntryAt(g, same).term <= EntryAt(g, req.prevLogIndex).term == rsp.conflictTerm;
  }

  /** A member whose next index lies below the oldest entry in memory gets heartbeats only, and the term of the
      previous entry goes out as 0. No log access is out of bounds. */
  lemma TrimmedNextGetsHeartbeats(n: Node, fi: nat, cfg: Config)
    requires SendReady(n, fi) && n.cluster[fi].nextIndex < Oldest(n)
    ensures match SendAE(n, fi, cfg)
            case Blocked(_) => n.cluster[fi].inflight
            case Sent(_, w) => w.next == n.cluster[fi].nextIndex && !w.HasEntries() && w.req.prevLogTerm == 0
            case Crashed(_) => false
  {
    assert n.cluster[fi].nextIndex in n.logSlotMap ==> Readable(n, n.cluster[fi].nextIndex);
    assert n.cluster[fi := n.cluster[fi]] == n.cluster;
  }

  // ---------------------------------------------------------------- the up-to-date check

  /** Terms do not decrease along the unbounded log, and none is later than the leader's. */
  ghost predicate Ascending(full: seq<Entry>, term: nat) {
    && (forall i, j :: 0 <= i <= j < |full| ==> full[i].term <= full[j].term)
    && (forall i :: 0 <= i < |full| ==> full[i].term <= term)
  }

  lemma {:induction false} RunKeepsAscending(run: seq<Sys>, steps: seq<Step>, k: nat)
    requires IsRun(run, steps) && k < |run| && run[0].ld < |run[0].nodes|
    requires Ascending(run[0].full, Lead(run[0]).currentTerm)
    ensures run[k].ld < |run[k].nodes| && Ascending(run[k].full, Lead(run[k]).currentTerm)
  {
    hide Do;
    hide Inv;
    if k > 0 {
      RunKeepsAscending(run, steps, k - 1);
      RunKeepsInv(run, steps, k - 1);
      StepLater(run[k - 1], steps[k - 1]);
      StepAscends(run[k - 1], steps[k - 1]);
    }
  }

  lemma StepAscends(s: Sys, step: Step)
    requires Inv(s) && Enabled(s, step) && Ascending(s.full, Lead(s).currentTerm)
    ensures Ascending(Do(s, step).full, Lead(s).currentTerm)
  {
    hide Inv;
    hide Ascending;
    match step
    case Append(commands) =>
      AppendHistory(s, commands);
      AppendAscends(s.full, Lead(s).currentTerm, commands);
    case Send(fi, wid) => {}
    case Deliver(msg, copyOk) => {}
    case Respond(wid, rsp) => {}
    case Commit => {}
    case Apply => {}
    case Collect => {}
  }

  lemma AppendAscends(full: seq<Entry>, term: nat, commands: seq<seq<Byte>>)
    requires Ascending(full, term)
    ensures Ascending(full + NewEntries(term, commands), term)
  {}

  /** The server's last entry is in memory, or it has none. */
  predicate LastKnown(n: Node) {
    |n.log| > 1 || n.tailLogIndex == 1
  }

  lemma LastTermIs(s: Sys, i: nat)
    requires Inv(s) && i < |s.nodes| && LastKnown(s.nodes[i])
    ensures var n := s.nodes[i];
            && LogOk(n)
            && n.tailLogIndex <= |s.full|
            && (n.tailLogIndex > 1 ==> LastTerm(n) == s.full[n.tailLogIndex - 1].term)
  {
    hide CommitsHeld;
    hide Network;
    var n := s.nodes[i];
    assert i != s.ld ==> PeerOk(s, i);
    if n.tailLogIndex > 1 {
      assert EntryAt(n, n.tailLogIndex - 1) == n.log[|n.log| - 1];
    }
  }

  /** A voter that holds index `x` finds up to date only candidates that hold it too. */
  lemma UpToDateHolds(s: Sys, voter: nat, candidate: nat, x: nat)
    requires Inv(s) && voter < |s.nodes| && candidate < |s.nodes| && Ascending(s.full, Lead(s).currentTerm)
    requires LastKnown(s.nodes[voter]) && LastKnown(s.nodes[candidate])
    requires LogOk(s.nodes[voter]) && LogOk(s.nodes[candidate])
    requires UpToDate(s.nodes[voter], VoteRequest(s.nodes[candidate])) && x < s.nodes[voter].tailLogIndex
    requires forall i :: 0 < i < |s.full| ==> s.full[i].term > 0
    ensures x < s.nodes[candidate].tailLogIndex
  {
    LastTermIs(s, voter);
    LastTermIs(s, candidate);
    hide Inv;
  }

  /** The election restriction. At any point of a term, a server that a majority would find up to date holds
      every index that any server takes for committed: the next leader starts with everything committed. */
  lemma NextLeaderHoldsCommitted(run: seq<Sys>, steps: seq<Step>, k: nat, candidate: nat, voters: set<nat>, i: nat)
    requires IsRun(run, steps) && k < |run| && run[0].ld < |run[0].nodes|
    requires Ascending(run[0].full, Lead(run[0]).currentTerm)
    requires forall j :: 0 < j < |run[k].full| ==> run[k].full[j].term > 0
    requires candidate < |run[k].nodes| && i < |run[k].nodes| && LastKnown(run[k].nodes[candidate])
    requires LogOk(run[k].nodes[candidate])
    requires |voters| >= |run[k].nodes| / 2 + 1
    requires forall v :: v in voters ==> v < |run[k].nodes| && LogOk(run[k].nodes[v]) && LastKnown(run[k].nodes[v]) &&
                                         UpToDate(run[k].nodes[v], VoteRequest(run[k].nodes[candidate]))
    ensures run[k].nodes[i].commitIndex < run[k].nodes[candidate].tailLogIndex
  {
    hide Inv;
    hide Ascending;
    hide UpToDate;
    var s := run[k];
    var x := s.nodes[i].commitIndex;
    RunKeepsInv(run, steps, k);
    RunKeepsAscending(run, steps, k);
    if x > 0 {
      CommittedIsHeldByMajority(run, steps, k, i, x);
      ElectionRuns.MajoritiesMeet(Holders(s.nodes, x), voters, |s.nodes|);
      var v :| v in Holders(s.nodes, x) && v in voters;
      UpToDateHolds(s, v, candidate, x);
    }
  }
}
