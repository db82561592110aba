/** Replication in one leader's term, over whole runs: requests and replies are lost, duplicated, delayed and
    reordered, workers interleave with client appends, commit, apply and collection, and a follower handles a
    request as one step. */
module Replication {
  import opened Basics
  import opened Ring
  import opened Types
  import opened Batch
  import opened Progress
  import opened Commit
  import opened Election
  import opened Follower
  import opened LeaderLog

  /** A request on its way. Workers are named by thread. Nothing is ever removed from the network. */
  datatype Msg = Msg(wid: nat, worker: Worker)
  datatype Reply = Reply(msg: Msg, rsp: AEResponse)

  /** The servers, the leader among them, its workers between Lock B and Lock C, and the network. History: the
      unbounded log (position = index), what the state machine received, and where commit and apply started. */
  datatype Sys = Sys(nodes: seq<Node>, ld: nat, cfg: Config, workers: map<nat, Worker>, sent: set<Msg>,
                     replies: set<Reply>,
                     full: seq<Entry>, applied: seq<seq<Byte>>, c0: nat, a0: nat)

  datatype Step =
    | Append(commands: seq<seq<Byte>>)              // a client batch is appended and persisted
    | Send(fi: nat, wid: nat)                       // a worker passes Lock B
    | Deliver(msg: Msg, copyOk: bool)               // a follower handles a request
    | Respond(wid: nat, rsp: Option<AEResponse>)    // a worker passes Lock C, with a reply or without
    | Commit
    | Apply
    | Collect

  function Lead(s: Sys): Node
    requires s.ld < |s.nodes|
  {
    s.nodes[s.ld]
  }

  /** What the handlers assume of their own server. */
  ghost predicate Ready(s: Sys) {
    && s.ld < |s.nodes| && CommitReady(Lead(s))
    && (forall i :: 0 <= i < |s.nodes| ==> LogOk(s.nodes[i]) && ClusterOk(s.nodes[i]))
  }

  ghost predicate Enabled(s: Sys, step: Step) {
    && Ready(s)
    && match step
       case Append(commands) => TakesBatch(Lead(s), commands)
       case Send(fi, wid) =>
         fi != s.ld && wid !in s.workers && SendReady(Lead(s), fi) && !SendAE(Lead(s), fi, s.cfg).Crashed?
       case Deliver(msg, _) => msg in s.sent && msg.worker.fi < |s.nodes|
       case Respond(wid, rsp) =>
         && wid in s.workers && s.workers[wid].fi < |Lead(s).cluster|
         && s.workers[wid].req.prevLogIndex < Lead(s).tailLogIndex
         && (rsp.Some? ==> Reply(Msg(wid, s.workers[wid]), rsp.value) in s.replies)
       case Commit => true
       case Apply => true
       case Collect => true
  }

  ghost function Do(s: Sys, step: Step): Sys
    requires Enabled(s, step)
  {
    match step
    case Append(commands) =>
      s.(nodes := s.nodes[s.ld := AppendCommands(Lead(s), commands)],
         full := s.full + NewEntries(Lead(s).currentTerm, commands))
    case Send(fi, wid) =>
      (match SendAE(Lead(s), fi, s.cfg)
       case Sent(n', w) =>
         s.(nodes := s.nodes[s.ld := n'], workers := s.workers[wid := w], sent := s.sent + {Msg(wid, w)})
       case Blocked(n') => s.(nodes := s.nodes[s.ld := n'])
       case Crashed(_) => s)
    case Deliver(msg, copyOk) =>
      var (n', rsp) := HandleAE(s.nodes[msg.worker.fi], msg.worker.req, copyOk);
      s.(nodes := s.nodes[msg.worker.fi := n'], replies := s.replies + {Reply(msg, rsp)})
    case Respond(wid, rsp) =>
      s.(nodes := s.nodes[s.ld := TakeReply(Lead(s), s.workers[wid], rsp)], workers := s.workers - {wid})
    case Commit => s.(nodes := s.nodes[s.ld := AdvanceCommit(Lead(s))])
    case Apply => s.(nodes := s.nodes[s.ld := ApplyPending(Lead(s))], applied := s.applied + ApplyOutput(Lead(s)))
    case Collect => s.(nodes := s.nodes[s.ld := DoSlotGc(Lead(s))])
  }

  // ---------------------------------------------------------------- invariant

  /** Last index each server holds. */
  function Lasts(nodes: seq<Node>): (r: seq<nat>)
    ensures |r| == |nodes| && forall i :: 0 <= i < |r| ==> r[i] == Max(nodes[i].tailLogIndex, 1) - 1
  {
    seq<nat>(|nodes|, i requires 0 <= i < |nodes| => Max(nodes[i].tailLogIndex, 1) - 1)
  }

  /** Recorded entries start inside the ring and occupy at least a slot; they are neither collected nor trimmed, and
      neither is the entry in front of them. */
  ghost predicate RecordsOk(n: Node) {
    && LogOk(n) && n.gcUpTo < n.tailLogIndex && AllInRing(n.logSlotMap, n.ringSlots)
    && PrevKept(n, n.tailLogIndex) && (n.gcUpTo > 0 ==> n.gcHasRun)
    && forall i :: i in n.logSlotMap ==> n.gcUpTo < i && PrevKept(n, i)
  }

  /** The entry in front of index `i` is in memory, unless the log begins with `i`. */
  predicate PrevKept(n: Node, i: nat)
    requires LogOk(n)
  {
    Oldest(n) < i || Oldest(n) == 1 == i
  }

  ghost predicate AllInRing(m: LogSlotMap, ringSlots: nat) {
    forall i :: i in m ==> InRing(m[i], ringSlots)
  }

  predicate InRing(r: SlotRecord, ringSlots: nat) {
    r.start <= ringSlots && r.numSlots >= 1
  }

  /** Servers are well formed; one leads in the current term and no other one does or is ahead of it. */
  ghost predicate Shape(s: Sys) {
    && s.ld < |s.nodes|
    && (forall i :: 0 <= i < |s.nodes| ==> NodeShape(s, i))
    && Lead(s).role.Leader? && LogOk(Lead(s)) && Lead(s).clusterIndex == s.ld && |Lead(s).cluster| == |s.nodes|
    && RecordsOk(Lead(s))
  }

  ghost predicate NodeShape(s: Sys, i: nat)
    requires i < |s.nodes| && s.ld < |s.nodes|
  {
    var n := s.nodes[i];
    && LogOk(n) && n.clusterIndex == i && |n.cluster| == |s.nodes| && n.commitIndex < n.tailLogIndex
    && (i != s.ld ==> n.currentTerm < Lead(s).currentTerm || (n.currentTerm == Lead(s).currentTerm && !n.role.Leader?))
  }

  /** A follower's log is a prefix of the leader's: an entry of a given index and term is unique. */
  ghost predicate PrefixOk(full: seq<Entry>, n: Node)
    requires LogOk(n)
  {
    n.tailLogIndex <= |full| && forall i :: Oldest(n) <= i < n.tailLogIndex ==> EntryAt(n, i).term == full[i].term
  }

  /** What the leader believes about member `f` is not more than what it holds, and nothing `f` has not confirmed
      has been collected. */
  ghost predicate ProgressOk(s: Sys, f: nat)
    requires s.ld < |s.nodes| && f < |s.nodes| && f < |Lead(s).cluster| && LogOk(Lead(s))
  {
    var m := Lead(s).cluster[f];
    && m.matchIndex + 1 <= m.nextIndex <= Lead(s).tailLogIndex
    && m.matchIndex < s.nodes[f].tailLogIndex
    && Lead(s).gcUpTo <= m.matchIndex
  }

  /** A request describes a stretch of the unbounded log of this term's leader. */
  ghost predicate RequestOk(s: Sys, w: Worker)
    requires s.ld < |s.nodes|
  {
    var req := w.req;
    && w.fi < |s.nodes| && w.fi != s.ld && w.next == req.prevLogIndex + 1
    && req.term == Lead(s).currentTerm && w.next + req.numEntries <= |s.full|
    && |req.metas| == req.numEntries && (req.numEntries > 0 ==> req.pbaSrc != 0)
    && (forall k :: 0 <= k < req.numEntries ==> req.metas[k].term == s.full[w.next + k].term)
    && (req.prevLogIndex > 0 && req.prevLogTerm != 0 ==> req.prevLogTerm == s.full[req.prevLogIndex].term)
    && req.leaderCommit <= Lead(s).commitIndex
  }

  /** An outstanding worker was started at or above the member's next index, or that index is known to be held. */
  ghost predicate WorkerOk(s: Sys, w: Worker)
    requires s.ld < |s.nodes| && w.fi < |s.nodes| && w.fi < |Lead(s).cluster|
  {
    var next := Lead(s).cluster[w.fi].nextIndex;
    next <= s.nodes[w.fi].tailLogIndex || next <= w.next
  }

  /** A success was sent by a server that held the whole batch. */
  ghost predicate ReplyOk(s: Sys, r: Reply) {
    && r.msg in s.sent && r.msg.worker.fi < |s.nodes|
    && (r.rsp.success ==>
          r.msg.worker.req.prevLogIndex + r.msg.worker.req.numEntries < s.nodes[r.msg.worker.fi].tailLogIndex)
  }

  /** Every index up to a commit index is held by a strict majority. */
  ghost predicate CommitsHeld(s: Sys) {
    forall i :: 0 <= i < |s.nodes| ==> ByMajority(Lasts(s.nodes), s.nodes[i].commitIndex)
  }

  /** The inflight flag of member `f` is set exactly while a worker with entries for it is outstanding, and
      then there is one. */
  ghost predicate InflightOk(s: Sys, f: nat)
    requires s.ld < |s.nodes| && f < |Lead(s).cluster|
  {
    && (Lead(s).cluster[f].inflight <==> exists w :: w in s.workers && DataFor(s.workers[w], f))
    && (forall v, w :: v in s.workers && w in s.workers && DataFor(s.workers[v], f) && DataFor(s.workers[w], f) ==>
          v == w)
  }

  predicate DataFor(w: Worker, f: nat) {
    w.fi == f && w.HasEntries()
  }

  ghost predicate Peers(s: Sys)
    requires Shape(s)
  {
    forall f :: 0 <= f < |s.nodes| && f != s.ld ==> PeerOk(s, f)
  }

  ghost predicate PeerOk(s: Sys, f: nat)
    requires Shape(s) && f < |s.nodes|
  {
    NodeShape(s, f) && PrefixOk(s.full, s.nodes[f]) && ProgressOk(s, f) && InflightOk(s, f)
  }

  ghost predicate Network(s: Sys)
    requires Shape(s)
  {
    && (forall m :: m in s.sent ==> RequestOk(s, m.worker))
    && (forall w :: w in s.workers ==>
          Msg(w, s.workers[w]) in s.sent && RequestOk(s, s.workers[w]) && WorkerOk(s, s.workers[w]))
    && (forall r :: r in s.replies ==> ReplyOk(s, r))
  }

  ghost predicate Inv(s: Sys) {
    && Shape(s)
    && Tracks(Lead(s), s.full, s.c0, s.a0)
    && s.applied == NonEmpty(s.full, s.a0, Lead(s).lastApplied)
    && Peers(s) && Network(s) && CommitsHeld(s)
  }

  // ---------------------------------------------------------------- steps of the leader

  /** The leader moves on in its term, and the unbounded log only grows. */
  ghost predicate LeaderMoves(s: Sys, s': Sys) {
    && s.ld < |s.nodes| && s'.ld == s.ld && s'.c0 == s.c0 && s'.a0 == s.a0
    && |s'.nodes| == |s.nodes| && s'.nodes == s.nodes[s.ld := s'.nodes[s.ld]]
    && |s.full| <= |s'.full| && (forall i :: 0 <= i < |s.full| ==> s'.full[i] == s.full[i])
    && var n, n' := Lead(s), Lead(s');
       && LogOk(n') && n'.currentTerm == n.currentTerm && n'.role == n.role && n'.clusterIndex == n.clusterIndex
       && |n'.cluster| == |n.cluster| && n.tailLogIndex <= n'.tailLogIndex
       && n.commitIndex <= n'.commitIndex < n'.tailLogIndex
       && RecordsOk(n')
  }

  lemma MoveKeepsShape(s: Sys, s': Sys)
    requires Shape(s) && LeaderMoves(s, s')
    ensures Shape(s')
  {
    forall i | 0 <= i < |s'.nodes| ensures NodeShape(s', i) {
      assert NodeShape(s, i);
    }
  }

  lemma MoveKeepsRequest(s: Sys, s': Sys, w: Worker)
    requires LeaderMoves(s, s') && RequestOk(s, w)
    ensures RequestOk(s', w)
  {}

  lemma MoveKeepsPrefix(full: seq<Entry>, full': seq<Entry>, n: Node)
    requires LogOk(n) && PrefixOk(full, n)
    requires |full| <= |full'| && forall i :: 0 <= i < |full| ==> full'[i] == full[i]
    ensures PrefixOk(full', n)
  {}

  lemma MoveKeepsReply(s: Sys, s': Sys, r: Reply)
    requires LeaderMoves(s, s') && ReplyOk(s, r) && s.sent <= s'.sent
    ensures ReplyOk(s', r)
  {}

  lemma LastsGrow(a: seq<Node>, b: seq<Node>, x: nat)
    requires |a| == |b| && forall i :: 0 <= i < |a| ==> a[i].tailLogIndex <= b[i].tailLogIndex
    requires ByMajority(Lasts(a), x)
    ensures ByMajority(Lasts(b), x)
  {
    CountMonotone(Lasts(a), Lasts(b), x);
  }

  /** Commit indexes stay held when the leader moves, as long as its own new one is. */
  lemma MoveKeepsCommits(s: Sys, s': Sys)
    requires LeaderMoves(s, s') && CommitsHeld(s)
    requires Lead(s').commitIndex == Lead(s).commitIndex || ByMajority(Lasts(s.nodes), Lead(s').commitIndex)
    ensures CommitsHeld(s')
  {
    forall i | 0 <= i < |s'.nodes| ensures ByMajority(Lasts(s'.nodes), s'.nodes[i].commitIndex) {
      LastsGrow(s.nodes, s'.nodes, s'.nodes[i].commitIndex);
    }
  }

  /** Steps that leave members and network alone. */
  ghost predicate QuietStep(s: Sys, s': Sys) {
    && LeaderMoves(s, s')
    && s'.workers == s.workers && s'.sent == s.sent && s'.replies == s.replies
    && Lead(s').cluster == Lead(s).cluster && LogOk(Lead(s))
    && Oldest(Lead(s)) <= Oldest(Lead(s'))
    && (Oldest(Lead(s')) == Oldest(Lead(s)) || Oldest(Lead(s')) <= MinMatch(Lead(s), |Lead(s).cluster|))
    && (Lead(s').gcUpTo == Lead(s).gcUpTo || Lead(s').gcUpTo <= MinMatch(Lead(s), |Lead(s).cluster|))
  }

  lemma QuietPeer(s: Sys, s': Sys, f: nat)
    requires Shape(s) && Shape(s') && QuietStep(s, s') && f < |s.nodes| && f != s.ld && PeerOk(s, f)
    ensures PeerOk(s', f)
  {
    MoveKeepsPrefix(s.full, s'.full, s.nodes[f]);
    assert NodeShape(s', f);
  }

  lemma QuietKeeps(s: Sys, s': Sys)
    requires Shape(s) && Peers(s) && Network(s) && QuietStep(s, s')
    ensures Shape(s') && Peers(s') && Network(s')
  {
    hide PeerOk;
    MoveKeepsShape(s, s');
    forall f | 0 <= f < |s'.nodes| && f != s'.ld ensures PeerOk(s', f) {
      assert PeerOk(s, f);
      QuietPeer(s, s', f);
    }
    forall m | m in s'.sent ensures RequestOk(s', m.worker) {
      MoveKeepsRequest(s, s', m.worker);
    }
    forall w | w in s'.workers ensures RequestOk(s', s'.workers[w]) && WorkerOk(s', s'.workers[w]) {
      MoveKeepsRequest(s, s', s.workers[w]);
    }
    forall r | r in s'.replies ensures ReplyOk(s', r) {
      MoveKeepsReply(s, s', r);
    }
  }

  lemma AppendQuiet(s: Sys, commands: seq<seq<Byte>>)
    requires Inv(s) && Enabled(s, Append(commands))
    ensures QuietStep(s, Do(s, Append(commands)))
    ensures Tracks(Lead(Do(s, Append(commands))), Do(s, Append(commands)).full, s.c0, s.a0)
    ensures Lead(Do(s, Append(commands))).lastApplied == Lead(s).lastApplied
    ensures Lead(Do(s, Append(commands))).commitIndex == Lead(s).commitIndex
  {
    hide AppendCommands;
    hide Tracks;
    AppendTracks(Lead(s), commands, s.full, s.c0, s.a0);
    AppendFields(Lead(s), commands);
    assert Lead(s).commitIndex < Lead(s).tailLogIndex by {
      assert NodeShape(s, s.ld);
    }
  }

  lemma AppendFields(n: Node, commands: seq<seq<Byte>>)
    requires ClusterOk(n) && RecordsOk(n)
    ensures var n' := AppendCommands(n, commands);
            && LogOk(n') && n'.currentTerm == n.currentTerm && n'.role == n.role && n'.clusterIndex == n.clusterIndex
            && n'.cluster == n.cluster && n'.tailLogIndex == n.tailLogIndex + |commands|
            && n'.commitIndex == n.commitIndex && n'.lastApplied == n.lastApplied && n'.gcUpTo == n.gcUpTo
            && RecordsOk(n')
  {
    var n1 := n.(log := n.log + NewEntries(n.currentTerm, commands), tailLogIndex := n.tailLogIndex + |commands|);
    PersistFields(n1, |commands|);
  }

  /** Persisting the newest entries changes slots, map and header only; the new records are the newest. */
  lemma PersistFields(n: Node, k: nat)
    requires LogOk(n) && ClusterOk(n) && k < |n.log| && n.gcUpTo < n.tailLogIndex - k
    requires AllInRing(n.logSlotMap, n.ringSlots)
    requires n.gcUpTo > 0 ==> n.gcHasRun
    requires PrevKept(n, n.tailLogIndex - k) && forall i :: i in n.logSlotMap ==> n.gcUpTo < i && PrevKept(n, i)
    ensures var n' := PersistLog(n, k);
            && n'.log == n.log && n'.tailLogIndex == n.tailLogIndex && n'.currentTerm == n.currentTerm
            && n'.role == n.role
            && n'.clusterIndex == n.clusterIndex && n'.cluster == n.cluster && n'.commitIndex == n.commitIndex
            && n'.lastApplied == n.lastApplied && n'.gcUpTo == n.gcUpTo && RecordsOk(n')
  {
    var needs, first := NewestNeeds(n, k), n.tailLogIndex - k;
    RecordedStarts(n.logSlotMap, first, needs, n.tailSlot, n.ringSlots, k);
    RecordedAt(n.logSlotMap, first, needs, n.tailSlot, n.ringSlots, k);
    PersistSame(n, k);
    var n' := PersistLog(n, k);
    hide *;
    StillRecordsOk(n, n', first);
  }

  lemma PersistSame(n: Node, k: nat)
    requires LogOk(n) && ClusterOk(n) && k < |n.log|
    ensures var n' := PersistLog(n, k);
            && n'.log == n.log && n'.tailLogIndex == n.tailLogIndex && n'.currentTerm == n.currentTerm
            && n'.role == n.role && n'.ringSlots == n.ringSlots && n'.gcHasRun == n.gcHasRun
            && n'.clusterIndex == n.clusterIndex && n'.cluster == n.cluster && n'.commitIndex == n.commitIndex
            && n'.lastApplied == n.lastApplied && n'.gcUpTo == n.gcUpTo
            && (n'.logSlotMap == n.logSlotMap ||
                n'.logSlotMap == Recorded(n.logSlotMap, n.tailLogIndex - k, NewestNeeds(n, k), n.tailSlot, n.ringSlots,
                                          k))
  {
    hide Recorded;
    hide Ptr;
  }

  /** Records added from index `first` on keep the map in order. */
  lemma StillRecordsOk(n: Node, n': Node, first: nat)
    requires LogOk(n) && n.gcUpTo < first <= n.tailLogIndex && n'.log == n.log && n'.tailLogIndex == n.tailLogIndex
    requires n'.gcUpTo == n.gcUpTo && (n.gcUpTo > 0 ==> n'.gcHasRun) && AllInRing(n'.logSlotMap, n'.ringSlots)
    requires PrevKept(n, first) && forall i :: i in n.logSlotMap ==> n.gcUpTo < i && PrevKept(n, i)
    requires forall i :: i in n'.logSlotMap ==> i in n.logSlotMap || first <= i
    ensures RecordsOk(n')
  {
    hide AllInRing;
  }

  lemma {:induction false} RecordedStarts(m: LogSlotMap, first: nat, needs: seq<nat>, slot: nat, ringSlots: nat, k: nat)
    requires k <= |needs| && AllInRing(m, ringSlots)
    requires forall i :: 0 <= i < |needs| ==> needs[i] >= 1
    ensures AllInRing(Recorded(m, first, needs, slot, ringSlots, k), ringSlots)
  {
    if k > 0 {
      RecordedStarts(m, first, needs, slot, ringSlots, k - 1);
      assert InRing(PlaceOf(needs, slot, ringSlots, k - 1), ringSlots);
    }
  }

  lemma AppendKeeps(s: Sys, commands: seq<seq<Byte>>)
    requires Inv(s) && Enabled(s, Append(commands))
    ensures Inv(Do(s, Append(commands)))
  {
    var s' := Do(s, Append(commands));
    AppendQuiet(s, commands);
    hide Do;
    assert s'.applied == s.applied && s'.full == s.full + NewEntries(Lead(s).currentTerm, commands) by {
      AppendHistory(s, commands);
    }
    QuietKeeps(s, s');
    MoveKeepsCommits(s, s');
    NonEmptyPrefix(s.full, NewEntries(Lead(s).currentTerm, commands), s.a0, Lead(s).lastApplied);
  }

  lemma AppendHistory(s: Sys, commands: seq<seq<Byte>>)
    requires Enabled(s, Append(commands))
    ensures Do(s, Append(commands)).applied == s.applied
    ensures Do(s, Append(commands)).full == s.full + NewEntries(Lead(s).currentTerm, commands)
  {}

  /** The leader counts what members are known to hold, so a new commit index is held by a majority. */
  lemma CommitIsHeld(s: Sys)
    requires Inv(s) && Commits(Lead(s))
    ensures ByMajority(Lasts(s.nodes), QuorumIndex(Lead(s)))
  {
    var n := Lead(s);
    QuorumIndexIsLargest(Matches(n), QuorumIndex(n));
    forall i | 0 <= i < |s.nodes| ensures Matches(n)[i] <= Lasts(s.nodes)[i] {
      assert i != s.ld ==> PeerOk(s, i);
    }
    CountMonotone(Matches(n), Lasts(s.nodes), QuorumIndex(n));
  }

  lemma CommitQuiet(s: Sys)
    requires Inv(s) && Enabled(s, Commit)
    ensures var s' := Do(s, Commit);
            && QuietStep(s, s')
            && s'.full == s.full
            && s'.applied == s.applied
            && Lead(s').lastApplied == Lead(s).lastApplied
  {
    CommitTracks(Lead(s), s.full, s.c0, s.a0);
  }

  lemma CommitKeeps(s: Sys)
    requires Inv(s) && Enabled(s, Commit)
    ensures Inv(Do(s, Commit))
  {
    var s' := Do(s, Commit);
    CommitTracks(Lead(s), s.full, s.c0, s.a0);
    CommitQuiet(s);
    assert Lead(s').commitIndex == Lead(s).commitIndex || ByMajority(Lasts(s.nodes), Lead(s').commitIndex) by {
      if Commits(Lead(s)) {
        CommitIsHeld(s);
      }
    }
    hide Do;
    QuietKeeps(s, s');
    MoveKeepsCommits(s, s');
  }

  lemma ApplyQuiet(s: Sys)
    requires Inv(s) && Enabled(s, Apply)
    ensures var s' := Do(s, Apply);
            && QuietStep(s, s') && s'.full == s.full && s.applied <= s'.applied
            && Lead(s).lastApplied <= Lead(s').lastApplied && Lead(s').commitIndex == Lead(s).commitIndex
  {
    ApplyTracks(Lead(s), s.full, s.c0, s.a0);
  }

  lemma ApplyKeeps(s: Sys)
    requires Inv(s) && Enabled(s, Apply)
    ensures Inv(Do(s, Apply))
  {
    var s' := Do(s, Apply);
    ApplyTracks(Lead(s), s.full, s.c0, s.a0);
    ApplyQuiet(s);
    NonEmptySplit(s.full, s.a0, Lead(s).lastApplied, Lead(s').lastApplied);
    assert s'.applied == NonEmpty(s'.full, s'.a0, Lead(s').lastApplied);
    hide Do;
    QuietKeeps(s, s');
    MoveKeepsCommits(s, s');
  }

  /** Collection leaves only records above the least match index, and trims only below it. */
  lemma GcRecords(n: Node)
    requires RecordsOk(n) && n.role.Leader?
    requires forall f :: 0 <= f < |n.cluster| && f != n.clusterIndex ==> n.gcUpTo <= n.cluster[f].matchIndex
    ensures RecordsOk(DoSlotGc(n)) && DoSlotGc(n).gcUpTo == MinMatch(n, |n.cluster|)
  {
    hide HeadOf;
    MinMatchFloor(n, |n.cluster|, n.gcUpTo);
    hide MinMatch;
  }

  lemma {:induction false} MinMatchFloor(n: Node, k: nat, lo: nat)
    requires LogOk(n) && k <= |n.cluster| && lo <= n.tailLogIndex - 1
    requires forall j :: 0 <= j < k && j != n.clusterIndex ==> lo <= n.cluster[j].matchIndex
    ensures lo <= MinMatch(n, k)
  {
    if k > 0 {
      MinMatchFloor(n, k - 1, lo);
    }
  }

  lemma CollectQuiet(s: Sys)
    requires Inv(s) && Enabled(s, Collect)
    ensures var s' := Do(s, Collect);
            && QuietStep(s, s') && s'.full == s.full && s'.applied == s.applied
            && Lead(s').lastApplied == Lead(s).lastApplied && Lead(s').commitIndex == Lead(s).commitIndex
  {
    hide RecordsOk;
    hide CommitsHeld;
    hide Network;
    hide Tracks;
    hide DoSlotGc;
    GcTracks(Lead(s), s.full, s.c0, s.a0);
    GcSame(Lead(s));
    forall f | 0 <= f < |Lead(s).cluster| && f != Lead(s).clusterIndex
      ensures Lead(s).gcUpTo <= Lead(s).cluster[f].matchIndex
    {
      assert PeerOk(s, f);
    }
    GcRecords(Lead(s));
    TracksOk(DoSlotGc(Lead(s)), s.full, s.c0, s.a0);
  }

  lemma TracksOk(n: Node, full: seq<Entry>, c0: nat, a0: nat)
    requires Tracks(n, full, c0, a0)
    ensures LogOk(n) && n.commitIndex < n.tailLogIndex == |full|
  {}

  lemma GcSame(n: Node)
    requires LogOk(n)
    ensures DoSlotGc(n).currentTerm == n.currentTerm && DoSlotGc(n).role == n.role
    ensures DoSlotGc(n).clusterIndex == n.clusterIndex
  {
    hide HeadOf;
    hide MinMatch;
    hide Removable;
  }

  lemma CollectKeeps(s: Sys)
    requires Inv(s) && Enabled(s, Collect)
    ensures Inv(Do(s, Collect))
  {
    var s' := Do(s, Collect);
    GcTracks(Lead(s), s.full, s.c0, s.a0);
    CollectQuiet(s);
    hide Do;
    QuietKeeps(s, s');
    MoveKeepsCommits(s, s');
  }

  // ---------------------------------------------------------------- a follower handles a request

  /** Only follower `f` changes, and its log grows. */
  ghost predicate FollowerMoves(s: Sys, s': Sys, f: nat) {
    && f < |s.nodes| && f != s.ld && |s'.nodes| == |s.nodes|
    && s' == s.(nodes := s.nodes[f := s'.nodes[f]], replies := s'.replies)
    && s.nodes[f].tailLogIndex <= s'.nodes[f].tailLogIndex
  }

  lemma DeliverPrefix(full: seq<Entry>, n: Node, n': Node, req: AERequest)
    requires LogOk(n) && PrefixOk(full, n) && Extends(n, n', req)
    requires req.prevLogIndex + 1 + req.numEntries <= |full|
    requires n'.tailLogIndex <= Max(n.tailLogIndex, req.prevLogIndex + 1 + req.numEntries)
    requires forall k :: 0 <= k < req.numEntries ==> req.metas[k].term == full[req.prevLogIndex + 1 + k].term
    ensures PrefixOk(full, n')
  {
    hide SlotFor;
    forall i | Oldest(n') <= i < n'.tailLogIndex ensures EntryAt(n', i).term == full[i].term {
      if i < n.tailLogIndex {
        assert EntryAt(n', i) == EntryAt(n, i);
      } else {
        assert FromBatch(n', req, n.ringSlots, i);
        assert req.metas[i - req.prevLogIndex - 1].term == full[req.prevLogIndex + 1 + (i - req.prevLogIndex - 1)].term;
      }
    }
  }

  lemma FollowerMoveKeeps(s: Sys, s': Sys, f: nat)
    requires Inv(s) && FollowerMoves(s, s', f)
    requires Shape(s') && LogOk(s'.nodes[f]) && PrefixOk(s.full, s'.nodes[f])
    requires forall r :: r in s'.replies ==> r in s.replies || ReplyOk(s', r)
    requires ByMajority(Lasts(s'.nodes), s'.nodes[f].commitIndex)
    ensures Inv(s')
  {
    forall g | 0 <= g < |s'.nodes| && g != s'.ld ensures PeerOk(s', g) {
      assert PeerOk(s, g) && NodeShape(s', g);
    }
    forall m | m in s'.sent ensures RequestOk(s', m.worker) {
      assert RequestOk(s, m.worker);
    }
    forall r | r in s'.replies ensures ReplyOk(s', r) {
      assert r in s.replies ==> ReplyOk(s, r);
    }
    forall w | w in s'.workers ensures RequestOk(s', s'.workers[w]) && WorkerOk(s', s'.workers[w]) {
      assert RequestOk(s, s.workers[w]) && WorkerOk(s, s.workers[w]);
    }
    forall i | 0 <= i < |s'.nodes| ensures ByMajority(Lasts(s'.nodes), s'.nodes[i].commitIndex) {
      if i != f {
        LastsGrow(s.nodes, s'.nodes, s.nodes[i].commitIndex);
      }
    }
  }

  /** A strict majority that has reached an index has reached every lower one. */
  lemma LowerHeld(lasts: seq<nat>, x: nat, y: nat)
    requires ByMajority(lasts, x) && y <= x
    ensures ByMajority(lasts, y)
  {
    CountLower(lasts, x, y);
  }

  lemma {:induction false} CountLower(s: seq<nat>, x: nat, y: nat)
    requires y <= x
    ensures CountGe(s, x) <= CountGe(s, y)
  {
    if s != [] {
      CountLower(s[1..], x, y);
    }
  }

  /** What a delivery comes to: the follower's log grows by entries of the batch, its commit index follows. */
  ghost predicate Delivered(s: Sys, s': Sys, msg: Msg, rsp: AEResponse) {
    var f, req := msg.worker.fi, msg.worker.req;
    && FollowerMoves(s, s', f) && s'.replies == s.replies + {Reply(msg, rsp)}
    && var n, n' := s.nodes[f], s'.nodes[f];
       && Extends(n, n', req) && n'.clusterIndex == n.clusterIndex && |n'.cluster| == |n.cluster|
       && n'.currentTerm == Max(n.currentTerm, req.term)
       && (n'.role == n.role || n'.role.Follower?) && (n'.currentTerm > n.currentTerm ==> n'.role.Follower?)
       && n'.commitIndex == (if rsp.success then Max(n.commitIndex, Min(req.leaderCommit, n'.tailLogIndex - 1))
                             else n.commitIndex)
       && n'.tailLogIndex == (if rsp.success then Max(n.tailLogIndex, req.prevLogIndex + 1 + req.numEntries)
                              else n.tailLogIndex)
  }

  lemma DeliverIs(s: Sys, msg: Msg, copyOk: bool)
    requires Inv(s) && Enabled(s, Deliver(msg, copyOk))
    ensures var rsp := HandleAE(s.nodes[msg.worker.fi], msg.worker.req, copyOk).1;
            Delivered(s, Do(s, Deliver(msg, copyOk)), msg, rsp) && RequestOk(s, msg.worker)
  {
    hide HandleAE;
    hide Extends;
    hide Tracks;
    hide CommitsHeld;
    var f, req := msg.worker.fi, msg.worker.req;
    assert RequestOk(s, msg.worker);
    assert PeerOk(s, f);
    HandleAEGrows(s.nodes[f], req, copyOk);
    HandleAETerm(s.nodes[f], req, copyOk);
    ExtendsOk(s.nodes[f], HandleAE(s.nodes[f], req, copyOk).0, req);
  }

  lemma DeliveredShape(s: Sys, s': Sys, msg: Msg, rsp: AEResponse)
    requires Shape(s) && RequestOk(s, msg.worker) && Delivered(s, s', msg, rsp)
    ensures Shape(s') && LogOk(s'.nodes[msg.worker.fi])
  {
    hide Extends;
    hide RecordsOk;
    var f := msg.worker.fi;
    ExtendsOk(s.nodes[f], s'.nodes[f], msg.worker.req);
    forall i | 0 <= i < |s'.nodes| ensures NodeShape(s', i) {
      assert NodeShape(s, i);
    }
  }

  lemma DeliveredKeeps(s: Sys, s': Sys, msg: Msg, rsp: AEResponse)
    requires Inv(s) && msg in s.sent && RequestOk(s, msg.worker) && Delivered(s, s', msg, rsp)
    ensures Inv(s')
  {
    hide Extends;
    hide Tracks;
    hide CommitsHeld;
    hide Network;
    var f, req := msg.worker.fi, msg.worker.req;
    assert PeerOk(s, f);
    DeliveredShape(s, s', msg, rsp);
    DeliverPrefix(s.full, s.nodes[f], s'.nodes[f], req);
    DeliverCommit(s, s', f, req.leaderCommit);
    NewReplyOk(s, s', msg, rsp);
    FollowerMoveKeeps(s, s', f);
  }

  lemma NewReplyOk(s: Sys, s': Sys, msg: Msg, rsp: AEResponse)
    requires Delivered(s, s', msg, rsp) && msg in s.sent
    ensures ReplyOk(s', Reply(msg, rsp))
  {
    hide Extends;
  }

  lemma DeliverKeeps(s: Sys, msg: Msg, copyOk: bool)
    requires Inv(s) && Enabled(s, Deliver(msg, copyOk))
    ensures Inv(Do(s, Deliver(msg, copyOk)))
  {
    hide *;
    DeliverEnabled(s, msg, copyOk);
    DeliverIs(s, msg, copyOk);
    DeliveredKeeps(s, Do(s, Deliver(msg, copyOk)), msg, HandleAE(s.nodes[msg.worker.fi], msg.worker.req, copyOk).1);
  }

  lemma DeliverEnabled(s: Sys, msg: Msg, copyOk: bool)
    requires Enabled(s, Deliver(msg, copyOk))
    ensures msg in s.sent && msg.worker.fi < |s.nodes| && LogOk(s.nodes[msg.worker.fi])
    ensures ClusterOk(s.nodes[msg.worker.fi])
  {}

  lemma ExtendsOk(n: Node, n': Node, req: AERequest)
    requires Extends(n, n', req)
    ensures LogOk(n') && n.tailLogIndex <= n'.tailLogIndex
  {}

  lemma DeliverCommit(s: Sys, s': Sys, f: nat, leaderCommit: nat)
    requires Inv(s) && FollowerMoves(s, s', f) && leaderCommit <= Lead(s).commitIndex
    requires s'.nodes[f].commitIndex <= Max(s.nodes[f].commitIndex, leaderCommit)
    ensures ByMajority(Lasts(s'.nodes), s'.nodes[f].commitIndex)
  {
    var c := s'.nodes[f].commitIndex;
    if c <= s.nodes[f].commitIndex {
      LowerHeld(Lasts(s.nodes), s.nodes[f].commitIndex, c);
    } else {
      LowerHeld(Lasts(s.nodes), Lead(s).commitIndex, c);
    }
    LastsGrow(s.nodes, s'.nodes, c);
  }

  // ---------------------------------------------------------------- Lock B

  lemma {:induction false} SumPositive(needs: seq<nat>, k: nat)
    requires 0 < k <= |needs| && forall i :: 0 <= i < |needs| ==> needs[i] >= 1
    ensures Sum(needs, k) >= 1
  {}

  /** A chosen batch lies inside the log and has a device address. */
  lemma ChoiceFacts(n: Node, next: nat, cfg: Config)
    requires next <= n.tailLogIndex && RecordsOk(n)
    ensures next in n.logSlotMap ==> Readable(n, next)
    ensures ChooseBatch(n, next, cfg).Ok? ==>
              var b := ChooseBatch(n, next, cfg).value;
              && next + b.len <= n.tailLogIndex
              && (b.len > 0 ==> b.pba != 0 && Oldest(n) <= next < n.tailLogIndex && next in n.logSlotMap)
  {
    assert next in n.logSlotMap ==> InRing(n.logSlotMap[next], n.ringSlots);
    if next < n.tailLogIndex && cfg.maxBatch != 0 && !RecordMissing(n, next) {
      var needs := NeedsFrom(n, next);
      var len := BatchLen(needs, cfg.maxBatch, cfg.maxBatchBytes, n.ringSlots - n.logSlotMap[next].start);
      if len > 0 {
        forall i | 0 <= i < |needs| ensures needs[i] >= 1 {
          assert needs[i] == SlotsForLogIndex(n, next + i);
          assert next + i in n.logSlotMap ==> InRing(n.logSlotMap[next + i], n.ringSlots);
        }
        SumPositive(needs, len);
      }
    }
  }

  /** What Lock B does: nothing, or it notes the flight and describes entries of the log from `next` on. */
  lemma SendFacts(n: Node, fi: nat, cfg: Config)
    requires SendReady(n, fi) && RecordsOk(n) && 1 <= n.cluster[fi].nextIndex <= n.tailLogIndex
    ensures match SendAE(n, fi, cfg)
            case Crashed(_) => true
            case Blocked(n') => n' == n
            case Sent(n', w) =>
              && w.fi == fi && w.next == n.cluster[fi].nextIndex && w.next + w.req.numEntries <= n.tailLogIndex
              && (w.req.numEntries > 0 ==> w.req.pbaSrc != 0 && !n.cluster[fi].inflight && Oldest(n) <= w.next)
              && n' == (if w.HasEntries() then WithMember(n, fi, n.cluster[fi].(inflight := true)) else n)
              && w.req.term == n.currentTerm && w.req.prevLogIndex == w.next - 1
              && w.req.prevLogTerm == PrevTerm(n, w.next - 1) && w.req.leaderCommit == n.commitIndex
              && |w.req.metas| == w.req.numEntries
              && forall k :: 0 <= k < w.req.numEntries ==> w.req.metas[k] == MetaOf(EntryAt(n, w.next + k))
  {
    hide ChooseBatch;
    assert n.cluster[fi := n.cluster[fi]] == n.cluster;
    ChoiceFacts(n, n.cluster[fi].nextIndex, cfg);
  }

  /** When Lock B sends nothing: exactly while a batch is in flight and there is something to send. A heartbeat always
      goes out. */
  lemma BlockedIff(n: Node, fi: nat, cfg: Config)
    requires SendReady(n, fi) && n.cluster[fi].nextIndex <= n.tailLogIndex
    ensures SendAE(n, fi, cfg).Blocked? <==> n.cluster[fi].inflight && n.cluster[fi].nextIndex < n.tailLogIndex
    ensures n.cluster[fi].nextIndex == n.tailLogIndex ==>
              SendAE(n, fi, cfg).Sent? && !SendAE(n, fi, cfg).worker.HasEntries()
  {
    hide BatchLen;
    hide LeaderPbaForRange;
  }

  /** What a reply can change: one that never came, one of a later term, and one of another term than the request's end
      the flight and nothing else. */
  lemma OnlyItsTermCounts(n: Node, w: Worker, rsp: Option<AEResponse>)
    requires LogOk(n) && w.fi < |n.cluster| && w.req.prevLogIndex < n.tailLogIndex && n.role.Leader?
    requires rsp.Some? ==> rsp.value.term > n.currentTerm || rsp.value.term != w.req.term
    ensures var n', m := TakeReply(n, w, rsp), n.cluster[w.fi];
            n' == WithMember(n, w.fi, m.(inflight := m.inflight && !w.HasEntries()))
  {
    assert n.cluster[w.fi := n.cluster[w.fi]] == n.cluster;
  }

  /** A rejection that has been overtaken, since the member's next index is no longer the one that was sent, moves
      neither index. */
  lemma OvertakenRejection(n: Node, w: Worker, rsp: AEResponse)
    requires LogOk(n) && w.fi < |n.cluster| && w.req.prevLogIndex < n.tailLogIndex
    requires !rsp.success && n.cluster[w.fi].nextIndex != w.next
    ensures var n', m := TakeReply(n, w, Some(rsp)), n.cluster[w.fi];
            n' == WithMember(n, w.fi, m.(inflight := m.inflight && !w.HasEntries()))
  {
    assert n.cluster[w.fi := n.cluster[w.fi]] == n.cluster;
  }

  /** Under the invariant every guard of a step holds that protects an access: indexes are in bounds. */
  lemma AlwaysReady(s: Sys)
    requires Inv(s)
    ensures Ready(s)
    ensures forall f: nat :: f < |s.nodes| && f != s.ld ==> SendReady(Lead(s), f)
    ensures forall w :: w in s.workers ==>
              s.workers[w].fi < |Lead(s).cluster| && s.workers[w].req.prevLogIndex < Lead(s).tailLogIndex
  {
    forall i | 0 <= i < |s.nodes| ensures LogOk(s.nodes[i]) && ClusterOk(s.nodes[i]) {
      assert NodeShape(s, i);
    }
    forall f: nat | f < |s.nodes| && f != s.ld ensures SendReady(Lead(s), f) {
      assert PeerOk(s, f);
      assert forall i :: i in Lead(s).logSlotMap ==> InRing(Lead(s).logSlotMap[i], Lead(s).ringSlots);
    }
    forall w | w in s.workers
      ensures s.workers[w].fi < |Lead(s).cluster| && s.workers[w].req.prevLogIndex < Lead(s).tailLogIndex
    {
      assert RequestOk(s, s.workers[w]);
    }
  }

  /** Only member `f` of the leader's list changes, and the log does not. */
  ghost predicate MemberMoves(s: Sys, s': Sys, f: nat) {
    && s.ld < |s.nodes| && f < |Lead(s).cluster| && |s'.nodes| == |s.nodes| && s'.ld == s.ld
    && f < |s'.nodes[s.ld].cluster|
    && s' == s.(nodes := s'.nodes, workers := s'.workers, sent := s'.sent)
    && s'.nodes == s.nodes[s.ld := WithMember(Lead(s), f, Lead(s').cluster[f])]
    && s.sent <= s'.sent
  }

  lemma MemberMoveIs(s: Sys, s': Sys, f: nat)
    requires Inv(s) && MemberMoves(s, s', f)
    ensures LeaderMoves(s, s') && Shape(s') && CommitsHeld(s') && Tracks(Lead(s'), s'.full, s'.c0, s'.a0)
    ensures forall r :: r in s'.replies ==> ReplyOk(s', r)
    ensures forall m :: m in s.sent ==> RequestOk(s', m.worker)
  {
    assert NodeShape(s, s.ld);
    MoveKeepsShape(s, s');
    MoveKeepsCommits(s, s');
    SameTracks(Lead(s), Lead(s'), s.full, s.c0, s.a0);
    forall m | m in s.sent ensures RequestOk(s', m.worker) {
      MoveKeepsRequest(s, s', m.worker);
    }
    forall r | r in s'.replies ensures ReplyOk(s', r) {
      MoveKeepsReply(s, s', r);
    }
  }

  lemma MemberPeers(s: Sys, s': Sys, f: nat)
    requires Shape(s) && Peers(s) && MemberMoves(s, s', f) && Shape(s') && f < |s.nodes| && f != s.ld
    requires ProgressOk(s', f) && InflightOk(s', f)
    requires forall w :: w in s.workers && s.workers[w].fi != f ==> w in s'.workers && s'.workers[w] == s.workers[w]
    requires forall w :: w in s'.workers && s'.workers[w].fi != f ==> w in s.workers && s.workers[w] == s'.workers[w]
    ensures Peers(s')
  {
    forall g | 0 <= g < |s'.nodes| && g != s'.ld ensures PeerOk(s', g) {
      assert PeerOk(s, g) && NodeShape(s', g);
      if g != f {
        assert Lead(s').cluster[g] == Lead(s).cluster[g];
        OtherInflight(s, s', f, g);
      }
    }
  }

  lemma OtherInflight(s: Sys, s': Sys, f: nat, g: nat)
    requires s.ld < |s.nodes| && s'.ld < |s'.nodes| && g < |Lead(s).cluster| && g < |Lead(s').cluster| && f != g
    requires InflightOk(s, g) && Lead(s').cluster[g].inflight == Lead(s).cluster[g].inflight
    requires forall w :: w in s.workers && s.workers[w].fi != f ==> w in s'.workers && s'.workers[w] == s.workers[w]
    requires forall w :: w in s'.workers && s'.workers[w].fi != f ==> w in s.workers && s.workers[w] == s'.workers[w]
    ensures InflightOk(s', g)
  {
    forall w | w in s'.workers && DataFor(s'.workers[w], g) ensures w in s.workers && DataFor(s.workers[w], g) {}
    if Lead(s).cluster[g].inflight {
      var w :| w in s.workers && DataFor(s.workers[w], g);
      assert w in s'.workers && DataFor(s'.workers[w], g);
    }
  }

  /** The request describes the unbounded log, and the entry in front of it is still there to be named. */
  lemma SendRequestOk(s: Sys, fi: nat, wid: nat)
    requires Inv(s) && Enabled(s, Send(fi, wid)) && SendAE(Lead(s), fi, s.cfg).Sent?
    ensures RequestOk(s, SendAE(Lead(s), fi, s.cfg).worker)
  {
    hide SendAE;
    hide InflightOk;
    var n := Lead(s);
    assert PeerOk(s, fi);
    SendFacts(n, fi, s.cfg);
    var w := SendAE(n, fi, s.cfg).worker;
    forall k | 0 <= k < w.req.numEntries ensures w.req.metas[k].term == s.full[w.next + k].term {
      assert w.req.metas[k] == MetaOf(EntryAt(n, w.next + k));
    }
  }

  lemma SendMoves(s: Sys, fi: nat, wid: nat)
    requires Inv(s) && Enabled(s, Send(fi, wid)) && SendAE(Lead(s), fi, s.cfg).Sent?
    ensures var s' := Do(s, Send(fi, wid));
            var w := SendAE(Lead(s), fi, s.cfg).worker;
            && fi < |s.nodes| && MemberMoves(s, s', fi)
            && s'.workers == s.workers[wid := w] && s'.sent == s.sent + {Msg(wid, w)}
            && w.fi == fi && w.next == Lead(s).cluster[fi].nextIndex
            && (w.HasEntries() ==> !Lead(s).cluster[fi].inflight)
            && Lead(s').cluster[fi] == Lead(s).cluster[fi].(inflight := Lead(s).cluster[fi].inflight || w.HasEntries())
  {
    var n := Lead(s);
    assert PeerOk(s, fi);
    SendFacts(n, fi, s.cfg);
    hide SendAE;
    var n' := SendAE(n, fi, s.cfg).node;
    assert n.cluster[fi := n.cluster[fi]] == n.cluster;
    assert n' == WithMember(n, fi, n'.cluster[fi]);
  }

  lemma SendInflight(s: Sys, s': Sys, fi: nat, wid: nat, w: Worker)
    requires s.ld < |s.nodes| && s'.ld < |s'.nodes| && fi < |Lead(s).cluster| && fi < |Lead(s').cluster|
    requires InflightOk(s, fi)
    requires wid !in s.workers && s'.workers == s.workers[wid := w] && w.fi == fi
    requires w.HasEntries() ==> !Lead(s).cluster[fi].inflight
    requires Lead(s').cluster[fi].inflight == (Lead(s).cluster[fi].inflight || w.HasEntries())
    ensures InflightOk(s', fi)
  {
    if w.HasEntries() {
      assert wid in s'.workers && DataFor(s'.workers[wid], fi);
    } else if Lead(s).cluster[fi].inflight {
      var v :| v in s.workers && DataFor(s.workers[v], fi);
      assert v in s'.workers && DataFor(s'.workers[v], fi);
    }
  }

  lemma SentKeeps(s: Sys, s': Sys, fi: nat, wid: nat, w: Worker)
    requires Inv(s) && fi < |s.nodes| && fi != s.ld && MemberMoves(s, s', fi) && wid !in s.workers
    requires s'.workers == s.workers[wid := w] && s'.sent == s.sent + {Msg(wid, w)}
    requires w.fi == fi && w.next == Lead(s).cluster[fi].nextIndex && RequestOk(s, w)
    requires w.HasEntries() ==> !Lead(s).cluster[fi].inflight
    requires Lead(s').cluster[fi] == Lead(s).cluster[fi].(inflight := Lead(s).cluster[fi].inflight || w.HasEntries())
    ensures Inv(s')
  {
    hide Tracks;
    hide CommitsHeld;
    hide RequestOk;
    hide ReplyOk;
    assert PeerOk(s, fi);
    MemberMoveIs(s, s', fi);
    MoveKeepsRequest(s, s', w);
    SendInflight(s, s', fi, wid, w);
    MemberPeers(s, s', fi);
    SendNetwork(s, s', fi, wid, w);
  }

  lemma SendKeeps(s: Sys, fi: nat, wid: nat)
    requires Inv(s) && Enabled(s, Send(fi, wid))
    ensures Inv(Do(s, Send(fi, wid)))
  {
    hide SendAE;
    hide Inv;
    hide MemberMoves;
    hide RequestOk;
    if SendAE(Lead(s), fi, s.cfg).Sent? {
      SendMoves(s, fi, wid);
      SendRequestOk(s, fi, wid);
      SentKeeps(s, Do(s, Send(fi, wid)), fi, wid, SendAE(Lead(s), fi, s.cfg).worker);
    } else {
      SendIdle(s, fi, wid);
    }
  }

  lemma SendIdle(s: Sys, fi: nat, wid: nat)
    requires Inv(s) && Enabled(s, Send(fi, wid)) && !SendAE(Lead(s), fi, s.cfg).Sent?
    ensures Do(s, Send(fi, wid)) == s
  {
    assert PeerOk(s, fi);
    SendFacts(Lead(s), fi, s.cfg);
    hide SendAE;
    assert s.nodes[s.ld := Lead(s)] == s.nodes;
  }

  lemma SendNetwork(s: Sys, s': Sys, fi: nat, wid: nat, w: Worker)
    requires Inv(s) && MemberMoves(s, s', fi) && Shape(s') && fi < |s.nodes|
    requires s'.workers == s.workers[wid := w] && s'.sent == s.sent + {Msg(wid, w)}
    requires w.fi == fi && w.next == Lead(s).cluster[fi].nextIndex && RequestOk(s', w)
    requires Lead(s').cluster[fi].nextIndex == Lead(s).cluster[fi].nextIndex
    requires forall m :: m in s.sent ==> RequestOk(s', m.worker)
    requires forall r :: r in s'.replies ==> ReplyOk(s', r)
    ensures Network(s')
  {
    forall v | v in s'.workers
      ensures Msg(v, s'.workers[v]) in s'.sent && RequestOk(s', s'.workers[v]) && WorkerOk(s', s'.workers[v])
    {
      if v != wid {
        assert RequestOk(s', Msg(v, s.workers[v]).worker);
        assert WorkerOk(s, s.workers[v]);
      }
    }
  }

  // ---------------------------------------------------------------- Lock C

  /** What Lock C does to the member: the flight is over, and the two indexes stay, move up to what a success
      confirms, or the next index falls back without passing what is confirmed. */
  ghost predicate MemberAfter(m: Member, m': Member, w: Worker, rsp: Option<AEResponse>) {
    && m'.inflight == (m.inflight && !w.HasEntries())
    && ((m'.nextIndex == m.nextIndex && m'.matchIndex == m.matchIndex)
     || (rsp.Some? && rsp.value.success && m'.nextIndex == Max(Max(w.next + w.req.numEntries, 1), m.nextIndex)
         && m'.matchIndex == m'.nextIndex - 1)
     || (m'.matchIndex == m.matchIndex && m.matchIndex + 1 <= m'.nextIndex <= m.nextIndex))
  }

  lemma ReplyFacts(n: Node, w: Worker, rsp: Option<AEResponse>)
    requires LogOk(n) && w.fi < |n.cluster| && w.req.prevLogIndex < n.tailLogIndex
    requires n.cluster[w.fi].matchIndex + 1 <= n.cluster[w.fi].nextIndex
    ensures var n' := TakeReply(n, w, rsp);
            && |n'.cluster| == |n.cluster| && n' == WithMember(n, w.fi, n'.cluster[w.fi])
            && MemberAfter(n.cluster[w.fi], n'.cluster[w.fi], w, rsp)
  {
    hide BackedOff;
    hide MemberAfter;
    var m := n.cluster[w.fi];
    var n1 := if w.HasEntries() then WithMember(n, w.fi, m.(inflight := false)) else n;
    assert n.cluster[w.fi := m] == n.cluster;
    var m1 := n1.cluster[w.fi];
    assert n1 == WithMember(n, w.fi, m1) && m1 == m.(inflight := m.inflight && !w.HasEntries());
    SameIndexes(m, m1, w, rsp);
    if rsp.Some? && rsp.value.success {
      Confirms(m, m1, w, rsp);
    } else if rsp.Some? {
      BackoffDescends(n1, w.fi, w.req.prevLogIndex, rsp.value.conflictTerm, rsp.value.conflictIndex);
      FallsBack(m, m1, w, rsp,
                BackedOff(n1, w.fi, w.req.prevLogIndex, rsp.value.conflictTerm, rsp.value.conflictIndex));
    }
  }

  lemma SameIndexes(m: Member, m1: Member, w: Worker, rsp: Option<AEResponse>)
    requires m1 == m.(inflight := m.inflight && !w.HasEntries())
    ensures MemberAfter(m, m1, w, rsp)
  {}

  lemma Confirms(m: Member, m1: Member, w: Worker, rsp: Option<AEResponse>)
    requires m1 == m.(inflight := m.inflight && !w.HasEntries()) && rsp.Some? && rsp.value.success
    ensures var nx := Max(Max(w.next + w.req.numEntries, 1), m.nextIndex);
            MemberAfter(m, m1.(nextIndex := nx, matchIndex := nx - 1), w, rsp)
  {}

  lemma FallsBack(m: Member, m1: Member, w: Worker, rsp: Option<AEResponse>, nx: nat)
    requires m1 == m.(inflight := m.inflight && !w.HasEntries()) && m.matchIndex + 1 <= nx <= m.nextIndex
    ensures MemberAfter(m, m1.(nextIndex := nx), w, rsp)
  {}

  lemma RespondMoves(s: Sys, wid: nat, rsp: Option<AEResponse>)
    requires Inv(s) && Enabled(s, Respond(wid, rsp))
    ensures var s' := Do(s, Respond(wid, rsp));
            var w := s.workers[wid];
            && w.fi < |s.nodes| && w.fi != s.ld && MemberMoves(s, s', w.fi)
            && s'.workers == s.workers - {wid} && s'.sent == s.sent
            && var m, m' := Lead(s).cluster[w.fi], Lead(s').cluster[w.fi];
               && m'.inflight == (m.inflight && !w.HasEntries())
               && m.matchIndex <= m'.matchIndex < m'.nextIndex <= Lead(s).tailLogIndex
               && m'.matchIndex < s.nodes[w.fi].tailLogIndex
               && (m'.nextIndex <= m.nextIndex || m'.nextIndex <= s.nodes[w.fi].tailLogIndex)
  {
    var w := s.workers[wid];
    assert RequestOk(s, w) && WorkerOk(s, w) && PeerOk(s, w.fi);
    assert rsp.Some? ==> ReplyOk(s, Reply(Msg(wid, w), rsp.value));
    hide PrefixOk;
    hide InflightOk;
    hide Tracks;
    hide TakeReply;
    ReplyFacts(Lead(s), w, rsp);
  }

  lemma RespondInflight(s: Sys, s': Sys, wid: nat, w: Worker)
    requires s.ld < |s.nodes| && s'.ld < |s'.nodes| && w.fi < |Lead(s).cluster| && w.fi < |Lead(s').cluster|
    requires InflightOk(s, w.fi)
    requires wid in s.workers && s.workers[wid] == w && s'.workers == s.workers - {wid}
    requires Lead(s').cluster[w.fi].inflight == (Lead(s).cluster[w.fi].inflight && !w.HasEntries())
    ensures InflightOk(s', w.fi)
  {
    assert w.HasEntries() ==> DataFor(s.workers[wid], w.fi);
    if !w.HasEntries() && Lead(s).cluster[w.fi].inflight {
      var v :| v in s.workers && DataFor(s.workers[v], w.fi);
      assert v in s'.workers && DataFor(s'.workers[v], w.fi);
    }
  }

  lemma RespondNetwork(s: Sys, s': Sys, wid: nat, w: Worker)
    requires Inv(s) && w.fi < |s.nodes| && w.fi != s.ld && MemberMoves(s, s', w.fi) && Shape(s')
    requires wid in s.workers && s.workers[wid] == w && s'.workers == s.workers - {wid} && s'.sent == s.sent
    requires Lead(s').cluster[w.fi].nextIndex <= Lead(s).cluster[w.fi].nextIndex ||
             Lead(s').cluster[w.fi].nextIndex <= s.nodes[w.fi].tailLogIndex
    requires forall m :: m in s.sent ==> RequestOk(s', m.worker)
    requires forall r :: r in s'.replies ==> ReplyOk(s', r)
    ensures Network(s')
  {
    forall v | v in s'.workers
      ensures Msg(v, s'.workers[v]) in s'.sent && RequestOk(s', s'.workers[v]) && WorkerOk(s', s'.workers[v])
    {
      assert RequestOk(s', Msg(v, s.workers[v]).worker);
      assert WorkerOk(s, s.workers[v]);
    }
  }

  lemma RespondedKeeps(s: Sys, s': Sys, wid: nat, w: Worker)
    requires Inv(s) && w.fi < |s.nodes| && w.fi != s.ld && MemberMoves(s, s', w.fi)
    requires wid in s.workers && s.workers[wid] == w && s'.workers == s.workers - {wid} && s'.sent == s.sent
    requires var m, m' := Lead(s).cluster[w.fi], Lead(s').cluster[w.fi];
             && m'.inflight == (m.inflight && !w.HasEntries())
             && m.matchIndex <= m'.matchIndex < m'.nextIndex <= Lead(s).tailLogIndex
             && m'.matchIndex < s.nodes[w.fi].tailLogIndex
             && (m'.nextIndex <= m.nextIndex || m'.nextIndex <= s.nodes[w.fi].tailLogIndex)
    ensures Inv(s')
  {
    hide Tracks;
    hide CommitsHeld;
    hide RequestOk;
    hide ReplyOk;
    assert PeerOk(s, w.fi);
    MemberMoveIs(s, s', w.fi);
    RespondInflight(s, s', wid, w);
    MemberPeers(s, s', w.fi);
    RespondNetwork(s, s', wid, w);
  }

  lemma RespondKeeps(s: Sys, wid: nat, rsp: Option<AEResponse>)
    requires Inv(s) && Enabled(s, Respond(wid, rsp))
    ensures Inv(Do(s, Respond(wid, rsp)))
  {
    hide TakeReply;
    hide Inv;
    hide MemberMoves;
    RespondMoves(s, wid, rsp);
    RespondedKeeps(s, Do(s, Respond(wid, rsp)), wid, s.workers[wid]);
  }

  lemma StepKeepsInv(s: Sys, step: Step)
    requires Inv(s) && Enabled(s, step)
    ensures Inv(Do(s, step))
  {
    hide Do;
    hide Inv;
    match step
    case Append(commands) => AppendKeeps(s, commands);
    case Send(fi, wid) => SendKeeps(s, fi, wid);
    case Deliver(msg, copyOk) => DeliverKeeps(s, msg, copyOk);
    case Respond(wid, rsp) => RespondKeeps(s, wid, rsp);
    case Commit => CommitKeeps(s);
    case Apply => ApplyKeeps(s);
    case Collect => CollectKeeps(s);
  }
}
