/** What holds in every run of one leader's term. */
module ReplicationRuns {
  import opened Basics
  import opened Ring
  import opened Types
  import opened Progress
  import opened Commit
  import opened Election
  import opened Follower
  import opened LeaderLog
  import opened Replication

  /** A term begins: no worker is outstanding, every follower's log is a prefix of the leader's, what the
      leader believes is held is held, and every commit index is held by a majority. */
  ghost predicate Start(s: Sys) {
    && Shape(s)
    && s.workers == map[] && s.sent == {} && s.replies == {} && s.applied == []
    && s.c0 == Lead(s).commitIndex && s.a0 == Lead(s).lastApplied
    && |s.full| == Lead(s).tailLogIndex
    && (forall i :: Oldest(Lead(s)) <= i < |s.full| ==> EntryAt(Lead(s), i) == s.full[i])
    && Oldest(Lead(s)) <= Lead(s).lastApplied <= Lead(s).commitIndex + 1
    && (forall f :: 0 <= f < |s.nodes| && f != s.ld ==> StartPeer(s, f))
    && CommitsHeld(s)
  }

  ghost predicate StartPeer(s: Sys, f: nat)
    requires Shape(s) && f < |s.nodes|
  {
    NodeShape(s, f) && PrefixOk(s.full, s.nodes[f]) && ProgressOk(s, f) && !Lead(s).cluster[f].inflight
  }

  ghost predicate IsRun(run: seq<Sys>, steps: seq<Step>) {
    && |run| == |steps| + 1 && Start(run[0])
    && forall k :: 0 <= k < |steps| ==> Enabled(run[k], steps[k]) && run[k + 1] == Do(run[k], steps[k])
  }

  lemma StartInv(s: Sys)
    requires Start(s)
    ensures Inv(s)
  {
    forall f | 0 <= f < |s.nodes| && f != s.ld ensures PeerOk(s, f) {
      assert StartPeer(s, f);
    }
    assert NodeShape(s, s.ld);
    forall i | Oldest(Lead(s)) <= i < |s.full|
      ensures EntryAt(Lead(s), i) == Seen(s.full[i], i, s.c0, Lead(s).commitIndex, s.a0, Lead(s).lastApplied) {}
  }

  lemma {:induction false} RunKeepsInv(run: seq<Sys>, steps: seq<Step>, k: nat)
    requires IsRun(run, steps) && k < |run|
    ensures Inv(run[k])
  {
    hide Inv;
    hide Do;
    if k == 0 {
      StartInv(run[0]);
    } else {
      RunKeepsInv(run, steps, k - 1);
      StepKeepsInv(run[k - 1], steps[k - 1]);
    }
  }

  // ---------------------------------------------------------------- progress over a run

  /** What never goes back from one state to a later one: the servers' logs and the unbounded log keep every
      entry and only grow, commit and match indexes do not decrease, and what was applied stays applied. */
  ghost predicate Later(s: Sys, s': Sys) {
    && Shape(s) && Shape(s') && s'.ld == s.ld && |s'.nodes| == |s.nodes| && s'.c0 == s.c0 && s'.a0 == s.a0
    && Lead(s').currentTerm == Lead(s).currentTerm
    && s.full <= s'.full && s.applied <= s'.applied
    && Lead(s).commitIndex <= Lead(s').commitIndex && Lead(s).lastApplied <= Lead(s').lastApplied
    && forall f :: 0 <= f < |s.nodes| && f != s.ld ==> PeerLater(s, s', f)
  }

  ghost predicate PeerLater(s: Sys, s': Sys, f: nat)
    requires s.ld < |s.nodes| && s'.ld < |s'.nodes| && f < |s.nodes| && f < |s'.nodes|
    requires f < |Lead(s).cluster| && f < |Lead(s').cluster|
  {
    var n, n' := s.nodes[f], s'.nodes[f];
    && LogOk(n) && LogOk(n') && Oldest(n') == Oldest(n) && n.tailLogIndex <= n'.tailLogIndex
    && (forall i :: Oldest(n) <= i < n.tailLogIndex ==> EntryAt(n', i) == EntryAt(n, i))
    && n.commitIndex <= n'.commitIndex
    && Lead(s).cluster[f].matchIndex <= Lead(s').cluster[f].matchIndex
  }

  lemma LaterTrans(a: Sys, b: Sys, c: Sys)
    requires Later(a, b) && Later(b, c)
    ensures Later(a, c)
  {
    forall f | 0 <= f < |a.nodes| && f != a.ld ensures PeerLater(a, c, f) {
      assert PeerLater(a, b, f) && PeerLater(b, c, f);
      var n, n1, n2 := a.nodes[f], b.nodes[f], c.nodes[f];
      forall i | Oldest(n) <= i < n.tailLogIndex ensures EntryAt(n2, i) == EntryAt(n, i) {
        assert EntryAt(n1, i) == EntryAt(n, i);
      }
    }
  }

  lemma SamePeersLater(s: Sys, s': Sys)
    requires Inv(s) && Inv(s') && s'.ld == s.ld && |s'.nodes| == |s.nodes|
    requires forall f :: 0 <= f < |s.nodes| && f != s.ld ==> s'.nodes[f] == s.nodes[f]
    requires forall f :: 0 <= f < |s.nodes| && f != s.ld ==>
               Lead(s).cluster[f].matchIndex <= Lead(s').cluster[f].matchIndex
    ensures forall f :: 0 <= f < |s.nodes| && f != s.ld ==> PeerLater(s, s', f)
  {
    forall f | 0 <= f < |s.nodes| && f != s.ld ensures PeerLater(s, s', f) {
      assert PeerOk(s, f) && PeerOk(s', f);
    }
  }

  lemma QuietLater(s: Sys, s': Sys)
    requires Inv(s) && Inv(s') && QuietStep(s, s')
    requires s.applied <= s'.applied && Lead(s).lastApplied <= Lead(s').lastApplied
    ensures Later(s, s')
  {
    hide Tracks;
    hide Peers;
    hide Network;
    hide CommitsHeld;
    SamePeersLater(s, s');
  }

  lemma SendLater(s: Sys, fi: nat, wid: nat)
    requires Inv(s) && Enabled(s, Send(fi, wid)) && Inv(Do(s, Send(fi, wid)))
    ensures Later(s, Do(s, Send(fi, wid)))
  {
    hide SendAE;
    hide Peers;
    hide Network;
    hide CommitsHeld;
    var s' := Do(s, Send(fi, wid));
    if SendAE(Lead(s), fi, s.cfg).Sent? {
      SendMoves(s, fi, wid);
      SamePeersLater(s, s');
    } else {
      SendIdle(s, fi, wid);
      SamePeersLater(s, s');
    }
  }

  lemma RespondLater(s: Sys, wid: nat, rsp: Option<AEResponse>)
    requires Inv(s) && Enabled(s, Respond(wid, rsp)) && Inv(Do(s, Respond(wid, rsp)))
    ensures Later(s, Do(s, Respond(wid, rsp)))
  {
    hide TakeReply;
    hide Peers;
    hide Network;
    hide CommitsHeld;
    RespondMoves(s, wid, rsp);
    SamePeersLater(s, Do(s, Respond(wid, rsp)));
  }

  lemma DeliverLater(s: Sys, msg: Msg, copyOk: bool)
    requires Inv(s) && Enabled(s, Deliver(msg, copyOk)) && Inv(Do(s, Deliver(msg, copyOk)))
    ensures Later(s, Do(s, Deliver(msg, copyOk)))
  {
    hide *;
    DeliverEnabled(s, msg, copyOk);
    DeliverIs(s, msg, copyOk);
    DeliveredLater(s, Do(s, Deliver(msg, copyOk)), msg, HandleAE(s.nodes[msg.worker.fi], msg.worker.req, copyOk).1);
  }

  lemma DeliveredLater(s: Sys, s': Sys, msg: Msg, rsp: AEResponse)
    requires Inv(s) && Inv(s') && Delivered(s, s', msg, rsp)
    ensures Later(s, s')
  {
    hide Tracks;
    hide Network;
    hide CommitsHeld;
    hide PrefixOk;
    hide InflightOk;
    forall f | 0 <= f < |s.nodes| && f != s.ld ensures PeerLater(s, s', f) {
      assert PeerOk(s, f) && PeerOk(s', f);
    }
  }

  lemma StepLater(s: Sys, step: Step)
    requires Inv(s) && Enabled(s, step)
    ensures Later(s, Do(s, step))
  {
    StepKeepsInv(s, step);
    match step
    case Append(commands) => AppendQuiet(s, commands); AppendHistory(s, commands); hide Do; QuietLater(s, Do(s, step));
    case Send(fi, wid) => SendLater(s, fi, wid);
    case Deliver(msg, copyOk) => DeliverLater(s, msg, copyOk);
    case Respond(wid, rsp) => RespondLater(s, wid, rsp);
    case Commit => CommitQuiet(s); hide Do; QuietLater(s, Do(s, step));
    case Apply => ApplyQuiet(s); hide Do; QuietLater(s, Do(s, step));
    case Collect => CollectQuiet(s); hide Do; QuietLater(s, Do(s, step));
  }

  lemma {:induction false} RunGoesForward(run: seq<Sys>, steps: seq<Step>, j: nat, k: nat)
    requires IsRun(run, steps) && j <= k < |run|
    ensures Later(run[j], run[k])
    decreases k - j
  {
    hide Do;
    hide Later;
    hide Inv;
    RunKeepsInv(run, steps, j);
    if j == k {
      LaterSelf(run[j]);
    } else {
      RunGoesForward(run, steps, j, k - 1);
      RunKeepsInv(run, steps, k - 1);
      StepLater(run[k - 1], steps[k - 1]);
      LaterTrans(run[j], run[k - 1], run[k]);
    }
  }

  lemma LaterSelf(s: Sys)
    requires Inv(s)
    ensures Later(s, s)
  {
    SamePeersLater(s, s);
  }

  // ---------------------------------------------------------------- theorems

  /** Follower logs stay prefixes of the leader's log in every run, an entry once there never changes, and
      what the leader believes a follower holds never decreases and is held. */
  lemma FollowersStayPrefixes(run: seq<Sys>, steps: seq<Step>, j: nat, k: nat, f: nat, i: nat)
    requires IsRun(run, steps) && j <= k < |run| && f < |run[0].nodes| && f != run[0].ld
    ensures var s, s' := run[j], run[k];
            && s.ld == s'.ld == run[0].ld && |s.nodes| == |s'.nodes| == |run[0].nodes|
            && LogOk(s'.nodes[f]) && LogOk(s.nodes[f]) && |Lead(s').cluster| == |Lead(s).cluster| == |s.nodes|
            && s.full <= s'.full && s'.nodes[f].tailLogIndex <= |s'.full|
            && (Oldest(s'.nodes[f]) <= i < s'.nodes[f].tailLogIndex ==> EntryAt(s'.nodes[f], i).term == s'.full[i].term)
            && (Oldest(s.nodes[f]) <= i < s.nodes[f].tailLogIndex ==>
                  && Oldest(s'.nodes[f]) <= i < s'.nodes[f].tailLogIndex
                  && EntryAt(s'.nodes[f], i) == EntryAt(s.nodes[f], i))
            && Lead(s).cluster[f].matchIndex <= Lead(s').cluster[f].matchIndex < s'.nodes[f].tailLogIndex
  {
    RunGoesForward(run, steps, 0, j);
    RunGoesForward(run, steps, j, k);
    RunKeepsInv(run, steps, k);
    RunKeepsInv(run, steps, j);
    hide Tracks;
    hide Network;
    assert PeerOk(run[k], f) && PeerOk(run[j], f) && PeerLater(run[j], run[k], f);
  }

  /** Servers that hold index `x`. */
  ghost function Holders(nodes: seq<Node>, x: nat): set<nat> {
    set i: nat | i < |nodes| && x < nodes[i].tailLogIndex
  }

  lemma HoldersCount(nodes: seq<Node>, x: nat)
    requires x > 0
    ensures |Holders(nodes, x)| == CountGe(Lasts(nodes), x)
  {
    assert Holders(nodes, x) == Reaching(Lasts(nodes), x);
    ReachingCount(Lasts(nodes), x);
  }

  ghost function Reaching(lasts: seq<nat>, x: nat): set<nat> {
    set i: nat | i < |lasts| && lasts[i] >= x
  }

  lemma {:induction false} ReachingCount(lasts: seq<nat>, x: nat)
    ensures |Reaching(lasts, x)| == CountGe(lasts, x)
  {
    if lasts == [] {
      assert Reaching(lasts, x) == {};
    } else {
      var n := |lasts| - 1;
      assert lasts == lasts[..n] + [lasts[n]];
      ReachingCount(lasts[..n], x);
      CountSnoc(lasts[..n], lasts[n], x);
      assert Reaching(lasts, x) == Reaching(lasts[..n], x) + (if lasts[n] >= x then {n} else {});
    }
  }

  lemma {:induction false} CountSnoc(s: seq<nat>, v: nat, x: nat)
    ensures CountGe(s + [v], x) == CountGe(s, x) + (if v >= x then 1 else 0)
  {
    if s == [] {
      assert s + [v] == [v];
    } else {
      assert (s + [v])[1..] == s[1..] + [v];
      CountSnoc(s[1..], v, x);
    }
  }

  /** In every run, every index at or below any server's commit index is held by a strict majority, and
      everyone who holds it in memory holds the leader's entry. */
  lemma CommittedIsHeldByMajority(run: seq<Sys>, steps: seq<Step>, k: nat, i: nat, x: nat)
    requires IsRun(run, steps) && k < |run| && i < |run[k].nodes| && 0 < x <= run[k].nodes[i].commitIndex
    ensures 2 * |Holders(run[k].nodes, x)| > |run[k].nodes|
    ensures forall h :: h in Holders(run[k].nodes, x) ==>
              && LogOk(run[k].nodes[h])
              && (Oldest(run[k].nodes[h]) <= x ==>
                    x < |run[k].full| && EntryAt(run[k].nodes[h], x).term == run[k].full[x].term)
  {
    RunKeepsInv(run, steps, k);
    var s := run[k];
    LowerHeld(Lasts(s.nodes), s.nodes[i].commitIndex, x);
    HoldersCount(s.nodes, x);
    forall h | h in Holders(s.nodes, x)
      ensures LogOk(s.nodes[h])
      ensures (Oldest(s.nodes[h]) <= x ==> x < |s.full| && EntryAt(s.nodes[h], x).term == s.full[x].term)
    {
      assert h != s.ld ==> PeerOk(s, h);
    }
  }

  /** The trimmed vector reads like the untrimmed log: every index it still has reads as the entry that was
      appended there, signalled and cleared as far as commit and apply went; and the state machine got exactly
      the non-empty commands of the applied indexes, in order, once each. */
  lemma TrimmedLogReadsLikeUntrimmed(run: seq<Sys>, steps: seq<Step>, k: nat)
    requires IsRun(run, steps) && k < |run|
    ensures var s := run[k];
            && s.ld < |s.nodes| && LogOk(Lead(s)) && Lead(s).tailLogIndex == |s.full|
            && (forall i :: Oldest(Lead(s)) <= i < |s.full| ==>
                  EntryAt(Lead(s), i) == Seen(s.full[i], i, s.c0, Lead(s).commitIndex, s.a0, Lead(s).lastApplied))
            && Lead(s).lastApplied <= |s.full| && s.applied == NonEmpty(s.full, s.a0, Lead(s).lastApplied)
  {
    RunKeepsInv(run, steps, k);
  }

  // ---------------------------------------------------------------- the previous entry

  /** The leader's log reaches back to its beginning, or as far as every member has confirmed it. */
  ghost predicate Rooted(s: Sys) {
    && s.ld < |s.nodes| && LogOk(Lead(s)) && |Lead(s).cluster| == |s.nodes|
    && forall f :: 0 <= f < |s.nodes| && f != s.ld ==> RootedFor(Lead(s), f)
  }

  predicate RootedFor(n: Node, f: nat)
    requires LogOk(n) && f < |n.cluster|
  {
    Oldest(n) == 1 || Oldest(n) <= n.cluster[f].matchIndex
  }

  /** A request names the term of the entry in front of it. */
  ghost predicate NamesPrev(full: seq<Entry>, req: AERequest) {
    req.prevLogIndex > 0 ==> req.prevLogIndex < |full| && req.prevLogTerm == full[req.prevLogIndex].term
  }

  ghost predicate AllNamed(s: Sys) {
    forall m :: m in s.sent ==> NamesPrev(s.full, m.worker.req)
  }

  lemma StepKeepsRooted(s: Sys, step: Step)
    requires Inv(s) && Rooted(s) && Enabled(s, step) && Inv(Do(s, step)) && Later(s, Do(s, step))
    ensures Rooted(Do(s, step))
  {
    var s' := Do(s, step);
    StepOldest(s, step);
    hide Do;
    hide Tracks;
    hide Network;
    hide CommitsHeld;
    forall f | 0 <= f < |s'.nodes| && f != s'.ld ensures RootedFor(Lead(s'), f) {
      assert RootedFor(Lead(s), f) && PeerLater(s, s', f);
    }
  }

  /** Only collection trims, and not beyond what every member has confirmed. */
  lemma StepOldest(s: Sys, step: Step)
    requires Inv(s) && Enabled(s, step)
    ensures var s' := Do(s, step);
            && |s'.nodes| == |s.nodes| && s'.ld == s.ld < |s.nodes| && LogOk(Lead(s)) && LogOk(Lead(s'))
            && Oldest(Lead(s)) <= Oldest(Lead(s'))
            && (Oldest(Lead(s')) == Oldest(Lead(s)) || Oldest(Lead(s')) <= MinMatch(Lead(s), |Lead(s).cluster|))
  {
    match step
    case Append(commands) => AppendQuiet(s, commands);
    case Send(fi, wid) => if SendAE(Lead(s), fi, s.cfg).Sent? { SendMoves(s, fi, wid); } else { SendIdle(s, fi, wid); }
    case Deliver(msg, copyOk) => assert RequestOk(s, msg.worker);
    case Respond(wid, rsp) => RespondMoves(s, wid, rsp);
    case Commit => CommitQuiet(s);
    case Apply => ApplyQuiet(s);
    case Collect => CollectQuiet(s);
  }

  lemma SendNames(s: Sys, fi: nat, wid: nat)
    requires Inv(s) && Rooted(s) && Enabled(s, Send(fi, wid)) && SendAE(Lead(s), fi, s.cfg).Sent?
    ensures NamesPrev(s.full, SendAE(Lead(s), fi, s.cfg).worker.req)
  {
    hide SendAE;
    hide Network;
    hide CommitsHeld;
    assert PeerOk(s, fi) && RootedFor(Lead(s), fi);
    SendFacts(Lead(s), fi, s.cfg);
  }

  lemma StepKeepsNamed(s: Sys, step: Step)
    requires Inv(s) && Rooted(s) && AllNamed(s) && Enabled(s, step) && s.full <= Do(s, step).full
    ensures AllNamed(Do(s, step))
  {
    var s' := Do(s, step);
    if step.Send? && SendAE(Lead(s), step.fi, s.cfg).Sent? {
      SendNames(s, step.fi, step.wid);
    }
    forall m | m in s'.sent ensures NamesPrev(s'.full, m.worker.req) {
      assert m in s.sent ==> NamesPrev(s.full, m.worker.req);
    }
  }

  lemma {:induction false} RunKeepsRooted(run: seq<Sys>, steps: seq<Step>, k: nat)
    requires IsRun(run, steps) && k < |run| && Rooted(run[0])
    ensures Rooted(run[k]) && AllNamed(run[k])
  {
    hide Do;
    hide Inv;
    hide Rooted;
    if k > 0 {
      RunKeepsRooted(run, steps, k - 1);
      RunKeepsInv(run, steps, k - 1);
      RunKeepsInv(run, steps, k);
      StepLater(run[k - 1], steps[k - 1]);
      StepKeepsRooted(run[k - 1], steps[k - 1]);
      StepKeepsNamed(run[k - 1], steps[k - 1]);
    }
  }

  /** In every run that begins with a rooted log, the entry in front of every follower's next one can be named,
      and every request names it. */
  lemma PrevAlwaysNamed(run: seq<Sys>, steps: seq<Step>, k: nat, f: nat)
    requires IsRun(run, steps) && k < |run| && Rooted(run[0]) && f < |run[k].nodes| && f != run[k].ld
    ensures AllNamed(run[k])
    ensures run[k].ld < |run[k].nodes| && LogOk(Lead(run[k])) && f < |Lead(run[k]).cluster|
    ensures var prev := Lead(run[k]).cluster[f].nextIndex - 1;
            || prev == 0
            || (Oldest(Lead(run[k])) <= prev < |run[k].full| && PrevTerm(Lead(run[k]), prev) == run[k].full[prev].term)
  {
    RunKeepsInv(run, steps, k);
    RunKeepsRooted(run, steps, k);
    assert PeerOk(run[k], f) && RootedFor(Lead(run[k]), f);
  }

  /** Workers outstanding with entries for member `f`. */
  ghost function DataWorkers(s: Sys, f: nat): set<nat> {
    set w | w in s.workers && DataFor(s.workers[w], f)
  }

  /** Inflight exclusion: over all interleavings, copy and RPC failures included, one worker with entries is
      outstanding for a follower while its flag is set, and none otherwise. */
  lemma InflightExclusion(run: seq<Sys>, steps: seq<Step>, k: nat, f: nat)
    requires IsRun(run, steps) && k < |run| && f < |run[k].nodes| && f != run[k].ld
    ensures run[k].ld < |run[k].nodes| && f < |Lead(run[k]).cluster|
    ensures |DataWorkers(run[k], f)| == if Lead(run[k]).cluster[f].inflight then 1 else 0
  {
    RunKeepsInv(run, steps, k);
    var s := run[k];
    assert PeerOk(s, f);
    if Lead(s).cluster[f].inflight {
      var w :| w in s.workers && DataFor(s.workers[w], f);
      assert DataWorkers(s, f) == {w};
    } else {
      assert DataWorkers(s, f) == {};
    }
  }

  /** The commit rule. The leader's commit index moves in a commit step only, forward only, to an entry of the
      current term, and to the largest index a strict majority is known to have reached; it moves whenever
      that index is ahead and its entry is of the current term. */
  lemma CommitRule(run: seq<Sys>, steps: seq<Step>, k: nat)
    requires IsRun(run, steps) && k < |steps|
    ensures CommitReady(Lead(run[k])) && run[k].ld == run[k + 1].ld < |run[k].nodes| == |run[k + 1].nodes|
    ensures var n, n' := Lead(run[k]), Lead(run[k + 1]);
            var q := QuorumIndex(n);
            && (forall x: nat :: ByMajority(Matches(n), x) <==> x <= q)
            && n'.commitIndex ==
                (if steps[k].Commit? && n.commitIndex < q && q < |run[k].full| && run[k].full[q].term == n.currentTerm
                                  then q else n.commitIndex)
  {
    RunKeepsInv(run, steps, k);
    RunGoesForward(run, steps, k, k + 1);
    var s := run[k];
    CommitTracks(Lead(s), s.full, s.c0, s.a0);
    forall x: nat ensures ByMajority(Matches(Lead(s)), x) <==> x <= QuorumIndex(Lead(s)) {
      QuorumIndexIsLargest(Matches(Lead(s)), x);
    }
    OtherStepsKeepCommit(s, steps[k]);
  }

  /** The apply rule. An apply step, and no other, hands out commands: all those of committed indexes that were not
      handed out before. After it nothing committed is left. */
  lemma ApplyRule(run: seq<Sys>, steps: seq<Step>, k: nat)
    requires IsRun(run, steps) && k < |steps|
    ensures run[k].ld == run[k + 1].ld < |run[k].nodes| == |run[k + 1].nodes|
    ensures var s, s' := run[k], run[k + 1];
            && (steps[k].Apply? ==>
                  && Lead(s').lastApplied == Lead(s).commitIndex + 1 <= |s.full| && s'.full == s.full
                  && s'.applied == NonEmpty(s.full, s.a0, Lead(s).commitIndex + 1))
            && (!steps[k].Apply? ==> s'.applied == s.applied && Lead(s').lastApplied == Lead(s).lastApplied)
  {
    hide Inv;
    hide Do;
    hide Enabled;
    hide NonEmpty;
    RunKeepsInv(run, steps, k);
    RunKeepsInv(run, steps, k + 1);
    OthersApplyNothing(run[k], steps[k]);
    if steps[k].Apply? {
      ApplyHandsOut(run[k]);
    }
  }

  lemma ApplyHandsOut(s: Sys)
    requires Inv(s) && Enabled(s, Apply) && Inv(Do(s, Apply))
    ensures var s' := Do(s, Apply);
            && s'.ld == s.ld < |s.nodes| == |s'.nodes| && s'.full == s.full
            && Lead(s').lastApplied == Lead(s).commitIndex + 1 <= |s.full|
            && s'.applied == NonEmpty(s.full, s.a0, Lead(s).commitIndex + 1)
  {
    hide Peers;
    hide Network;
    hide CommitsHeld;
    hide NonEmpty;
    AppliesAll(Lead(s), s.full, s.c0, s.a0);
    hide ApplyPending;
  }

  lemma AppliesAll(n: Node, full: seq<Entry>, c0: nat, a0: nat)
    requires Tracks(n, full, c0, a0) && n.role.Leader?
    ensures ApplyPending(n).lastApplied == n.commitIndex + 1 <= |full|
  {}

  lemma OthersApplyNothing(s: Sys, step: Step)
    requires Inv(s) && Enabled(s, step)
    ensures s.ld < |s.nodes|
    ensures !step.Apply? ==>
              && |Do(s, step).nodes| == |s.nodes| && Do(s, step).ld == s.ld
              && Do(s, step).applied == s.applied && Lead(Do(s, step)).lastApplied == Lead(s).lastApplied
  {
    match step
    case Append(commands) => AppendQuiet(s, commands);
    case Send(fi, wid) => if SendAE(Lead(s), fi, s.cfg).Sent? { SendMoves(s, fi, wid); } else { SendIdle(s, fi, wid); }
    case Deliver(msg, _) => assert RequestOk(s, msg.worker);
    case Respond(wid, rsp) => RespondMoves(s, wid, rsp);
    case Commit => CommitQuiet(s);
    case Apply => {}
    case Collect => CollectQuiet(s);
  }

  lemma OtherStepsKeepCommit(s: Sys, step: Step)
    requires Inv(s) && Enabled(s, step)
    ensures !step.Commit? ==>
              && |Do(s, step).nodes| == |s.nodes|
              && Do(s, step).ld == s.ld
              && Lead(Do(s, step)).commitIndex == Lead(s).commitIndex
  {
    match step
    case Append(commands) => AppendQuiet(s, commands);
    case Send(fi, wid) => if SendAE(Lead(s), fi, s.cfg).Sent? { SendMoves(s, fi, wid); } else { SendIdle(s, fi, wid); }
    case Deliver(msg, _) => assert RequestOk(s, msg.worker);
    case Respond(wid, rsp) => RespondMoves(s, wid, rsp);
    case Commit => {}
    case Apply => ApplyQuiet(s);
    case Collect => CollectQuiet(s);
  }

  /** Every entry that is applied was committed and signalled before its signal was dropped. */
  lemma SignalledBeforeDropped(run: seq<Sys>, steps: seq<Step>, k: nat, i: nat)
    requires IsRun(run, steps) && k < |steps| && steps[k].Apply? && run[k].ld < |run[k].nodes|
    requires run[k].ld < |run[k + 1].nodes|
    requires Lead(run[k]).lastApplied <= i < Lead(run[k + 1]).lastApplied
    requires run[k].c0 < i < |run[k].full| && !run[k].full[i].committed.Dropped?
    ensures i <= Lead(run[k]).commitIndex && LogOk(Lead(run[k])) && LogOk(Lead(run[k + 1]))
    ensures Oldest(Lead(run[k])) <= i && EntryAt(Lead(run[k]), i).committed.Signalled?
    ensures Oldest(Lead(run[k + 1])) <= i && EntryAt(Lead(run[k + 1]), i).committed.Dropped?
  {
    RunKeepsInv(run, steps, k);
    RunKeepsInv(run, steps, k + 1);
    var s, s' := run[k], run[k + 1];
    ApplyTracks(Lead(s), s.full, s.c0, s.a0);
    ApplyQuiet(s);
    hide Peers;
    hide Network;
    assert EntryAt(Lead(s), i) == Seen(s.full[i], i, s.c0, Lead(s).commitIndex, s.a0, Lead(s).lastApplied);
    assert EntryAt(Lead(s'), i) == Seen(s'.full[i], i, s.c0, Lead(s').commitIndex, s.a0, Lead(s').lastApplied);
  }

  // ---------------------------------------------------------------- how a term begins

  /** Servers at the moment node `ld` has collected its votes. `past` is what its log held in front of the entries
      that are still in memory. Every other log is a prefix of that log, no flight is noted, recorded entries are
      in memory, and what anybody takes for committed is held by a majority. */
  ghost predicate BeforePromotion(nodes: seq<Node>, ld: nat, past: seq<Entry>) {
    && ld < |nodes| && LogOk(nodes[ld]) && |past| == Oldest(nodes[ld])
    && (forall i :: 0 <= i < |nodes| ==> BeforeNode(nodes, ld, past, i))
    && Elected(nodes[ld]) && RecordsOk(nodes[ld])
    && Oldest(nodes[ld]) <= nodes[ld].lastApplied <= nodes[ld].commitIndex + 1
    && (forall i :: 0 <= i < |nodes| ==> ByMajority(Lasts(nodes), nodes[i].commitIndex))
  }

  ghost predicate BeforeNode(nodes: seq<Node>, ld: nat, past: seq<Entry>, i: nat)
    requires ld < |nodes| && i < |nodes| && LogOk(nodes[ld]) && |past| == Oldest(nodes[ld])
  {
    var n, l := nodes[i], nodes[ld];
    && LogOk(n) && n.clusterIndex == i && |n.cluster| == |nodes| && n.commitIndex < n.tailLogIndex
    && |l.cluster| == |nodes| && !l.cluster[i].inflight
    && (i != ld ==>
          && (n.currentTerm < l.currentTerm || (n.currentTerm == l.currentTerm && !n.role.Leader?))
          && n.tailLogIndex <= l.tailLogIndex
          && forall j :: Oldest(n) <= j < n.tailLogIndex ==>
               EntryAt(n, j).term == if j < |past| then past[j].term else EntryAt(l, j).term)
  }

  ghost function AfterPromotion(nodes: seq<Node>, ld: nat, past: seq<Entry>, read: Reader, cfg: Config): Sys
    requires BeforePromotion(nodes, ld, past)
  {
    assert BeforeNode(nodes, ld, past, ld);
    var n := BecomeLeader(nodes[ld], read);
    Sys(nodes[ld := n], ld, cfg, map[], {}, {}, past + n.log[Min(1, |n.log|)..], [], n.commitIndex, n.lastApplied)
  }

  /** What promotion leaves behind: the log with one more entry, the same term, fresh progress for everyone. */
  ghost predicate PromotedFrom(n: Node, n': Node) {
    && LogOk(n) && LogOk(n') && Oldest(n') == Oldest(n) && n'.tailLogIndex == n.tailLogIndex + 1
    && n'.role.Leader? && n'.currentTerm == n.currentTerm && n'.clusterIndex == n.clusterIndex
    && n'.commitIndex == n.commitIndex
    && n.lastApplied <= n'.lastApplied == n'.commitIndex + 1
    && |n'.cluster| == |n.cluster| && RecordsOk(n') && n'.gcUpTo == 0
    && (forall i :: 0 <= i < |n.cluster| ==>
          n'.cluster[i] == n.cluster[i].(nextIndex := n.tailLogIndex, matchIndex := 0))
    && (forall i :: Oldest(n) <= i < n.tailLogIndex ==> EntryAt(n', i).term == EntryAt(n, i).term)
  }

  lemma LoadingKeepsTerms(n: Node, read: Reader)
    requires LogOk(n) && Oldest(n) <= n.lastApplied <= n.commitIndex + 1 && n.commitIndex < n.tailLogIndex
    ensures var n1 := Promoted(n, read);
            && |n1.log| == |n.log| && n.lastApplied <= n1.lastApplied == n.commitIndex + 1
            && forall p :: 1 <= p < |n.log| ==> n1.log[p].term == n.log[p].term
  {
    forall p | 1 <= p < |n.log| ensures Promoted(n, read).log[p].term == n.log[p].term {
      assert Promoted(n, read).log[p] == Loaded(n.log[p], read);
    }
  }

  lemma PromotionFacts(n: Node, read: Reader)
    requires ClusterOk(n) && Elected(n) && RecordsOk(n)
    requires Oldest(n) <= n.lastApplied <= n.commitIndex + 1 && n.commitIndex < n.tailLogIndex
    ensures PromotedFrom(n, BecomeLeader(n, read))
  {
    hide LoadLog;
    hide ApplyEnd;
    hide RecordsOk;
    hide PersistLog;
    hide HeadOf;
    LoadingKeepsTerms(n, read);
    var n1 := Promoted(n, read);
    var n2 := n1.(log := n1.log + [Entry([], n.currentTerm, Waiting, 0, 0)], tailLogIndex := n1.tailLogIndex + 1);
    NoopFields(n, n1, n2);
    RecordsSame(PersistLog(n2, 1), BecomeLeader(n, read));
  }

  lemma RecordsSame(n: Node, n': Node)
    requires RecordsOk(n) && n'.log == n.log && n'.tailLogIndex == n.tailLogIndex && n'.gcUpTo == n.gcUpTo
    requires n'.logSlotMap == n.logSlotMap && n'.ringSlots == n.ringSlots && (n.gcUpTo > 0 ==> n'.gcHasRun)
    ensures RecordsOk(n')
  {}

  lemma NoopFields(n: Node, n1: Node, n2: Node)
    requires RecordsOk(n) && LogOk(n1) && ClusterOk(n1) && |n1.log| == |n.log| && n1.tailLogIndex == n.tailLogIndex
    requires n1.logSlotMap == n.logSlotMap && n1.ringSlots == n.ringSlots && n1.gcUpTo == 0
    requires n2 == n1.(log := n1.log + [Entry([], n.currentTerm, Waiting, 0, 0)], tailLogIndex := n1.tailLogIndex + 1)
    ensures var n' := PersistLog(n2, 1);
            && n'.log == n2.log && n'.tailLogIndex == n2.tailLogIndex && n'.currentTerm == n2.currentTerm
            && n'.role == n2.role
            && n'.clusterIndex == n2.clusterIndex && n'.cluster == n2.cluster && n'.commitIndex == n2.commitIndex
            && n'.lastApplied == n2.lastApplied && n'.gcUpTo == 0 && RecordsOk(n')
  {
    hide AllInRing;
    hide PersistLog;
    PersistFields(n2, 1);
  }

  /** The beginning of a term, given what promotion does to the leader. */
  ghost predicate Begun(nodes: seq<Node>, ld: nat, past: seq<Entry>, s: Sys) {
    && BeforePromotion(nodes, ld, past) && s.ld == ld && |s.nodes| == |nodes| && s.nodes == nodes[ld := s.nodes[ld]]
    && PromotedFrom(nodes[ld], Lead(s)) && s.full == past + Lead(s).log[1..]
    && s.workers == map[] && s.sent == {} && s.replies == {} && s.applied == []
    && s.c0 == Lead(s).commitIndex && s.a0 == Lead(s).lastApplied
  }

  lemma BegunShape(nodes: seq<Node>, ld: nat, past: seq<Entry>, s: Sys)
    requires Begun(nodes, ld, past, s)
    ensures Shape(s)
  {
    hide Elected;
    hide AllInRing;
    assert BeforeNode(nodes, ld, past, ld);
    forall i | 0 <= i < |s.nodes| ensures NodeShape(s, i) {
      assert BeforeNode(nodes, ld, past, i);
    }
  }

  lemma BegunFull(nodes: seq<Node>, ld: nat, past: seq<Entry>, s: Sys)
    requires Begun(nodes, ld, past, s)
    ensures |s.full| == Lead(s).tailLogIndex
    ensures forall i :: 0 <= i < |past| ==> s.full[i] == past[i]
    ensures forall i :: Oldest(Lead(s)) <= i < |s.full| ==> EntryAt(Lead(s), i) == s.full[i]
  {
    hide Elected;
    hide RecordsOk;
    hide BeforeNode;
    forall i | Oldest(Lead(s)) <= i < |s.full| ensures EntryAt(Lead(s), i) == s.full[i] {
      assert s.full[i] == Lead(s).log[1..][i - |past|];
    }
  }

  lemma BegunPeer(nodes: seq<Node>, ld: nat, past: seq<Entry>, s: Sys, f: nat)
    requires Begun(nodes, ld, past, s) && Shape(s) && f < |nodes| && f != ld
    ensures StartPeer(s, f)
  {
    hide Elected;
    hide AllInRing;
    BegunFull(nodes, ld, past, s);
    assert BeforeNode(nodes, ld, past, f) && NodeShape(s, f);
    forall j | Oldest(nodes[f]) <= j < nodes[f].tailLogIndex ensures EntryAt(nodes[f], j).term == s.full[j].term {
      if j >= |past| {
        assert EntryAt(nodes[f], j).term == EntryAt(nodes[ld], j).term;
        assert EntryAt(Lead(s), j).term == EntryAt(nodes[ld], j).term;
      }
    }
  }

  lemma BegunStarts(nodes: seq<Node>, ld: nat, past: seq<Entry>, s: Sys)
    requires Begun(nodes, ld, past, s)
    ensures Start(s)
  {
    hide StartPeer;
    hide RecordsOk;
    hide Elected;
    hide BeforeNode;
    BegunShape(nodes, ld, past, s);
    BegunFull(nodes, ld, past, s);
    forall f | 0 <= f < |s.nodes| && f != s.ld ensures StartPeer(s, f) {
      BegunPeer(nodes, ld, past, s, f);
    }
    forall i | 0 <= i < |s.nodes| ensures ByMajority(Lasts(s.nodes), s.nodes[i].commitIndex) {
      LastsGrow(nodes, s.nodes, s.nodes[i].commitIndex);
    }
  }

  /** Promotion begins a term in the sense of the runs above, whether or not the log has been trimmed before. The
      log is then rooted exactly if it has not. */
  lemma PromotionStarts(nodes: seq<Node>, ld: nat, past: seq<Entry>, read: Reader, cfg: Config)
    requires BeforePromotion(nodes, ld, past)
    ensures Start(AfterPromotion(nodes, ld, past, read, cfg))
    ensures |nodes| > 1 ==> (Rooted(AfterPromotion(nodes, ld, past, read, cfg)) <==> Oldest(nodes[ld]) == 1)
  {
    hide BecomeLeader;
    hide Elected;
    assert BeforeNode(nodes, ld, past, ld);
    PromotionFacts(nodes[ld], read);
    var s := AfterPromotion(nodes, ld, past, read, cfg);
    BegunStarts(nodes, ld, past, s);
    hide Start;
    hide BeforePromotion;
    hide RecordsOk;
    if |nodes| > 1 {
      var f := if ld == 0 then 1 else 0;
      assert f != ld && Lead(s).cluster[f].matchIndex == 0;
      assert Rooted(s) ==> RootedFor(Lead(s), f);
    }
  }
}
