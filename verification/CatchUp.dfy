/** Members that lag behind a newly promoted leader. Entries can be sent only from an index that has a slot record, and
    the records do not reach back further than the server's own leaderships. What a member gets in a term, and how far
    its next index can fall, is decided by where its log ends. */
module CatchUp {
  import opened Basics
  import opened Ring
  import opened Types
  import opened Batch
  import opened Progress
  import opened Commit
  import opened Election
  import opened Follower
  import opened LeaderLog
  import opened Replication
  import opened ReplicationRuns
  import opened Succession
  import opened FirstLeader

  // ---------------------------------------------------------------- what a request can carry

  predicate AllRecorded(m: LogSlotMap, i: nat, t: nat) {
    forall j :: i <= j <= t ==> j in m
  }

  /** Recorded slot counts of the indexes `i` to `t`. */
  function RecordedNeeds(m: LogSlotMap, i: nat, t: nat): (r: seq<nat>)
    requires i <= t && AllRecorded(m, i, t)
    ensures |r| == t - i + 1 && forall k :: 0 <= k < |r| ==> i + k in m && r[k] == m[i + k].numSlots
  {
    seq<nat>(t - i + 1, k requires 0 <= k < t - i + 1 => m[i + k].numSlots)
  }

  /** A request that begins at index `i` brings something to a log that ends in front of index `t`: all indexes from
      `i` to `t` are recorded and fit into one batch. */
  predicate Reaches(m: LogSlotMap, ringSlots: nat, cfg: Config, i: nat, t: nat) {
    && i <= t && AllRecorded(m, i, t) && m[i].start <= ringSlots
    && Fits(RecordedNeeds(m, i, t), cfg.maxBatch, cfg.maxBatchBytes, ringSlots - m[i].start, t - i + 1)
  }

  lemma {:induction false} SumSame(a: seq<nat>, b: seq<nat>, k: nat)
    requires k <= |a| && k <= |b| && forall i :: 0 <= i < k ==> a[i] == b[i]
    ensures Sum(a, k) == Sum(b, k)
  {
    if k > 0 {
      SumSame(a, b, k - 1);
    }
  }

  /** Whether the indexes up to `t` fit is a matter of their records. */
  lemma FitsAsRecorded(n: Node, i: nat, t: nat, cfg: Config, limit: nat)
    requires LogOk(n) && Oldest(n) <= i <= t < n.tailLogIndex && AllRecorded(n.logSlotMap, i, t)
    ensures Fits(NeedsFrom(n, i), cfg.maxBatch, cfg.maxBatchBytes, limit, t - i + 1) <==>
            Fits(RecordedNeeds(n.logSlotMap, i, t), cfg.maxBatch, cfg.maxBatchBytes, limit, t - i + 1)
  {
    var a, b := NeedsFrom(n, i), RecordedNeeds(n.logSlotMap, i, t);
    forall k | 0 <= k < t - i + 1 ensures a[k] == b[k] {
      assert a[k] == SlotsForLogIndex(n, i + k);
    }
    SumSame(a, b, t - i + 1);
  }

  lemma FitsWider(needs: seq<nat>, cap: nat, maxBytes: nat, a: nat, b: nat)
    requires a <= b
    ensures BatchLen(needs, cap, maxBytes, a) <= BatchLen(needs, cap, maxBytes, b)
  {
    assert Fits(needs, cap, maxBytes, b, BatchLen(needs, cap, maxBytes, a));
  }

  /** A batch that does not reach beyond `t`, seen from what is recorded. */
  lemma StopsShort(n: Node, i: nat, t: nat, cfg: Config)
    requires RecordsOk(n) && i <= t < n.tailLogIndex && AllRecorded(n.logSlotMap, i + 1, t)
    requires !Reaches(n.logSlotMap, n.ringSlots, cfg, i, t)
    ensures i in n.logSlotMap ==> Readable(n, i)
    ensures ChooseBatch(n, i, cfg).Ok? ==> i + ChooseBatch(n, i, cfg).value.len <= t
  {
    hide LeaderPbaForRange;
    hide BatchLen;
    assert i in n.logSlotMap ==> InRing(n.logSlotMap[i], n.ringSlots);
    if i in n.logSlotMap {
      var needs, limit := NeedsFrom(n, i), n.ringSlots - n.logSlotMap[i].start;
      FitsAsRecorded(n, i, t, cfg, limit);
      var len := BatchLen(needs, cfg.maxBatch, cfg.maxBatchBytes, limit);
      if len > t - i {
        FitsDown(needs, cfg.maxBatch, cfg.maxBatchBytes, limit, t - i + 1, len);
      }
      forall other: nat | other <= limit
        ensures BatchLen(needs, cfg.maxBatch, cfg.maxBatchBytes, other) <= len
      {
        FitsWider(needs, cfg.maxBatch, cfg.maxBatchBytes, other, limit);
      }
    }
  }

  /** On a ring of one extent the address lookup never fails and cuts nothing. */
  lemma OneExtentChoice(n: Node, i: nat, cfg: Config, base: nat)
    requires RecordsOk(n) && i <= n.tailLogIndex && base > 0 && cfg.extents == OneExtent(base, n.ringSlots)
    ensures i in n.logSlotMap ==> Readable(n, i)
    ensures ChooseBatch(n, i, cfg).Ok?
    ensures i < n.tailLogIndex && cfg.maxBatch > 0 && !RecordMissing(n, i) ==>
              ChooseBatch(n, i, cfg).value.len ==
              BatchLen(NeedsFrom(n, i), cfg.maxBatch, cfg.maxBatchBytes, n.ringSlots - n.logSlotMap[i].start)
  {
    hide LeaderPbaForRange;
    hide BatchLen;
    hide OneExtent;
    assert i in n.logSlotMap ==> InRing(n.logSlotMap[i], n.ringSlots);
    if i < n.tailLogIndex && cfg.maxBatch > 0 && !RecordMissing(n, i) {
      var needs, start := NeedsFrom(n, i), n.logSlotMap[i].start;
      var len := BatchLen(needs, cfg.maxBatch, cfg.maxBatchBytes, n.ringSlots - start);
      if len > 0 {
        forall k | 0 <= k < |needs| ensures needs[k] >= 1 {
          assert needs[k] == SlotsForLogIndex(n, i + k);
          assert i + k in n.logSlotMap ==> InRing(n.logSlotMap[i + k], n.ringSlots);
        }
        SumPositive(needs, len);
        OneExtentRange(base, n.ringSlots, start, Sum(needs, len));
        var seg := LeaderPbaForRange(cfg.extents, start, Sum(needs, len)).value;
        assert Fits(needs, cfg.maxBatch, cfg.maxBatchBytes, Min(n.ringSlots - start, seg.len / 512), len);
        FitsWider(needs, cfg.maxBatch, cfg.maxBatchBytes, Min(n.ringSlots - start, seg.len / 512), n.ringSlots - start);
      }
    }
  }

  /** A batch that does. */
  lemma GoesBeyond(n: Node, i: nat, t: nat, cfg: Config, base: nat)
    requires RecordsOk(n) && i <= t < n.tailLogIndex && n.gcUpTo < i
    requires base > 0 && cfg.extents == OneExtent(base, n.ringSlots)
    requires Reaches(n.logSlotMap, n.ringSlots, cfg, i, t)
    ensures Readable(n, i) && ChooseBatch(n, i, cfg).Ok? && i + ChooseBatch(n, i, cfg).value.len > t
  {
    hide ChooseBatch;
    hide OneExtent;
    OneExtentChoice(n, i, cfg, base);
    FitsAsRecorded(n, i, t, cfg, n.ringSlots - n.logSlotMap[i].start);
  }

  // ---------------------------------------------------------------- steps, seen from one member

  /** Records above what member `f` has confirmed stay as they are; only records of new entries come in. */
  ghost predicate RecordsStay(s: Sys, s': Sys, f: nat) {
    && s.ld < |s.nodes| && f < |Lead(s).cluster| && s'.ld == s.ld && |s'.nodes| == |s.nodes| && s'.cfg == s.cfg
    && Lead(s').ringSlots == Lead(s).ringSlots
    && forall i :: Lead(s).cluster[f].matchIndex < i < |s.full| ==>
         && (i in Lead(s').logSlotMap <==> i in Lead(s).logSlotMap)
         && (i in Lead(s).logSlotMap ==> Lead(s').logSlotMap[i] == Lead(s).logSlotMap[i])
  }

  lemma StepRecords(s: Sys, step: Step, f: nat)
    requires Inv(s) && Enabled(s, step) && f < |s.nodes| && f != s.ld
    ensures RecordsStay(s, Do(s, step), f)
  {
    hide AppendCommands;
    hide DoSlotGc;
    hide HandleAE;
    hide SendAE;
    hide TakeReply;
    hide Inv;
    InvShape(s);
    match step
    case Append(commands) => AppendRecords(Lead(s), commands);
    case Send(fi, wid) => if SendAE(Lead(s), fi, s.cfg).Sent? { SendMoves(s, fi, wid); } else { SendIdle(s, fi, wid); }
    case Deliver(msg, copyOk) => DeliverIs(s, msg, copyOk);
    case Respond(wid, rsp) => RespondMoves(s, wid, rsp);
    case Commit =>
    case Apply =>
    case Collect => CollectIs(Lead(s));
  }

  lemma InvShape(s: Sys)
    requires Inv(s)
    ensures Ready(s) && s.ld < |s.nodes| == |Lead(s).cluster| && Lead(s).role.Leader? && Lead(s).clusterIndex == s.ld
    ensures |s.full| == Lead(s).tailLogIndex && RecordsOk(Lead(s)) && ClusterOk(Lead(s))
  {
    AlwaysReady(s);
  }

  lemma MemberBounds(s: Sys, f: nat)
    requires Inv(s) && f < |s.nodes| && f != s.ld
    ensures s.ld < |s.nodes| && f < |Lead(s).cluster| && LogOk(s.nodes[f]) && s.nodes[f].tailLogIndex <= |s.full|
    ensures var p := Lead(s).cluster[f];
            p.matchIndex + 1 <= p.nextIndex <= |s.full| && p.matchIndex < s.nodes[f].tailLogIndex
  {
    assert PeerOk(s, f);
  }

  lemma AppendRecords(n: Node, commands: seq<seq<Byte>>)
    requires LogOk(n) && ClusterOk(n) && n.role.Leader?
    ensures var n' := AppendCommands(n, commands);
            && n'.ringSlots == n.ringSlots
            && forall i :: i < n.tailLogIndex ==>
                 && (i in n'.logSlotMap <==> i in n.logSlotMap)
                 && (i in n.logSlotMap ==> n'.logSlotMap[i] == n.logSlotMap[i])
  {
    hide AppendCommands;
    AppendIs(n, commands);
    RecordedAt(n.logSlotMap, n.tailLogIndex, Needs(commands), n.tailSlot, n.ringSlots, |commands|);
    hide Recorded;
  }

  /** A step that concerns neither the member nor its requests: what the leader notes about it, its requests and
      replies, and its log stay. */
  ghost predicate LeavesMember(s: Sys, s': Sys, f: nat) {
    && s.ld < |s.nodes| && s'.ld == s.ld && |s'.nodes| == |s.nodes| && f < |s.nodes| && s'.nodes[f] == s.nodes[f]
    && f < |Lead(s).cluster| && f < |Lead(s').cluster| && Lead(s').cluster[f] == Lead(s).cluster[f]
    && (forall msg: Msg :: msg.worker.fi == f ==> (msg in s'.sent <==> msg in s.sent))
    && (forall r: Reply :: r.msg.worker.fi == f ==> (r in s'.replies <==> r in s.replies))
    && (forall w :: w in s'.workers && s'.workers[w].fi == f ==> w in s.workers && s'.workers[w] == s.workers[w])
  }

  /** The steps that do concern it. */
  predicate Concerns(s: Sys, step: Step, f: nat) {
    match step
    case Send(fi, _) => fi == f
    case Deliver(msg, _) => msg.worker.fi == f
    case Respond(wid, _) => wid in s.workers && s.workers[wid].fi == f
    case _ => false
  }

  lemma OtherStep(s: Sys, step: Step, f: nat)
    requires Inv(s) && Enabled(s, step) && f < |s.nodes| && f != s.ld && !Concerns(s, step, f)
    ensures LeavesMember(s, Do(s, step), f)
  {
    hide HandleAE;
    hide SendAE;
    hide TakeReply;
    hide AppendCommands;
    hide DoSlotGc;
    hide AdvanceCommit;
    hide ApplyPending;
    hide Inv;
    hide RecordsOk;
    InvShape(s);
    match step
    case Append(commands) => AppendQuiet(s, commands);
    case Send(fi, wid) => if SendAE(Lead(s), fi, s.cfg).Sent? { SendMoves(s, fi, wid); } else { SendIdle(s, fi, wid); }
    case Deliver(msg, copyOk) => DeliverIs(s, msg, copyOk);
    case Respond(wid, rsp) => RespondMoves(s, wid, rsp);
    case Commit => CommitQuiet(s);
    case Apply => ApplyQuiet(s);
    case Collect => CollectQuiet(s);
  }

  // ---------------------------------------------------------------- a floor under the next index

  /** Index `b` is a floor for member `f`, whose log reached up to `t` when the term began: a request that begins at
      `b` brings nothing beyond `t`, so its copy cannot fail, and the entry in front of it is accepted. `o` is the
      oldest entry the leader had in memory at the beginning. */
  ghost predicate FloorNow(s: Sys, f: nat, b: nat, t: nat, o: nat)
    requires s.ld < |s.nodes| && f < |s.nodes| && f < |Lead(s).cluster| && LogOk(Lead(s)) && LogOk(s.nodes[f])
  {
    var n, g, p := Lead(s), s.nodes[f], Lead(s).cluster[f];
    && 1 <= b <= t < |s.full| && t <= g.tailLogIndex && b <= p.nextIndex
    && (b == t ==> g.tailLogIndex == t)
    && (Oldest(n) <= o || Oldest(n) <= p.matchIndex)
    && (o < b || (o == b && b <= Oldest(g)))
    && (p.matchIndex < b ==> AllRecorded(n.logSlotMap, b + 1, t) && !Reaches(n.logSlotMap, n.ringSlots, s.cfg, b, t))
  }

  ghost predicate AboveFloor(s: Sys, w: Worker, b: nat, t: nat, o: nat) {
    && b <= w.next && (w.next == b ==> w.next + w.req.numEntries <= t)
    && PrevFits(s, w) && (o < b ==> NamesPrev(s.full, w.req))
  }

  /** Rejections do not ask for less than the floor. */
  predicate AnswerAbove(r: Reply, b: nat) {
    r.rsp.success ||
    (r.rsp.conflictTerm == 0 &&
     if r.rsp.conflictIndex == 0 then b < r.msg.worker.next else b <= r.rsp.conflictIndex < r.msg.worker.next)
  }

  ghost predicate Floor(s: Sys, f: nat, b: nat, t: nat, o: nat) {
    && Inv(s) && f < |s.nodes| && f != s.ld && FloorAt(s, f, b, t, o)
    && (forall msg :: msg in s.sent && msg.worker.fi == f ==> AboveFloor(s, msg.worker, b, t, o))
    && (forall r :: r in s.replies && r.msg.worker.fi == f ==> AnswerAbove(r, b))
  }

  ghost predicate FloorAt(s: Sys, f: nat, b: nat, t: nat, o: nat) {
    && s.ld < |s.nodes| && f < |s.nodes| && f < |Lead(s).cluster| && LogOk(Lead(s)) && LogOk(s.nodes[f])
    && FloorNow(s, f, b, t, o)
  }

  lemma ReachesSame(m: LogSlotMap, m': LogSlotMap, ringSlots: nat, cfg: Config, i: nat, t: nat)
    requires forall j :: i <= j <= t ==> (j in m' <==> j in m) && (j in m ==> m'[j] == m[j])
    ensures AllRecorded(m', i + 1, t) <==> AllRecorded(m, i + 1, t)
    ensures Reaches(m', ringSlots, cfg, i, t) <==> Reaches(m, ringSlots, cfg, i, t)
  {
    hide Fits;
    if i <= t {
      assert AllRecorded(m', i, t) <==> AllRecorded(m, i, t);
      if AllRecorded(m, i, t) {
        assert RecordedNeeds(m', i, t) == RecordedNeeds(m, i, t);
      }
    }
  }

  lemma FloorStays(s: Sys, s': Sys, f: nat, b: nat, t: nat, o: nat)
    requires FloorAt(s, f, b, t, o) && RecordsStay(s, s', f) && f < |Lead(s').cluster| && LogOk(Lead(s'))
    requires PeerLater(s, s', f) && |s.full| <= |s'.full|
    requires Oldest(Lead(s')) == Oldest(Lead(s)) || Oldest(Lead(s')) <= Lead(s).cluster[f].matchIndex
    requires b <= Lead(s').cluster[f].nextIndex && (b == t ==> s'.nodes[f].tailLogIndex == t)
    ensures FloorAt(s', f, b, t, o)
  {
    hide Reaches;
    hide AllRecorded;
    if Lead(s).cluster[f].matchIndex < b {
      ReachesSame(Lead(s).logSlotMap, Lead(s').logSlotMap, Lead(s).ringSlots, s.cfg, b, t);
    }
  }

  /** What every step does to these things. */
  lemma StepFacts(s: Sys, step: Step, f: nat)
    requires Inv(s) && Enabled(s, step) && f < |s.nodes| && f != s.ld
    ensures var s' := Do(s, step);
            && Inv(s') && RecordsStay(s, s', f) && |s'.nodes| == |s.nodes| == |Lead(s).cluster| && s'.ld == s.ld
            && LogOk(Lead(s)) && LogOk(Lead(s')) && f < |Lead(s').cluster| && PeerLater(s, s', f) && s.full <= s'.full
            && (Oldest(Lead(s')) == Oldest(Lead(s)) || Oldest(Lead(s')) <= Lead(s).cluster[f].matchIndex)
            && Oldest(Lead(s)) <= Oldest(Lead(s'))
  {
    hide Do;
    hide Inv;
    hide RecordsOk;
    StepKeepsInv(s, step);
    StepLater(s, step);
    StepOldest(s, step);
    StepRecords(s, step, f);
    InvShape(s);
    InvShape(Do(s, step));
  }

  lemma FitsOn(s: Sys, s': Sys, w: Worker)
    requires PrevFits(s, w) && s.full <= s'.full && w.fi < |s'.nodes| && LogOk(s'.nodes[w.fi])
    requires Oldest(s'.nodes[w.fi]) == Oldest(s.nodes[w.fi])
    ensures PrevFits(s', w) && (NamesPrev(s.full, w.req) ==> NamesPrev(s'.full, w.req))
  {}

  lemma FloorOther(s: Sys, step: Step, f: nat, b: nat, t: nat, o: nat)
    requires Floor(s, f, b, t, o) && Enabled(s, step) && !Concerns(s, step, f)
    ensures Floor(Do(s, step), f, b, t, o)
  {
    hide Do;
    hide Enabled;
    hide Inv;
    hide FloorNow;
    hide RecordsStay;
    hide PrevFits;
    var s' := Do(s, step);
    StepFacts(s, step, f);
    OtherStep(s, step, f);
    FloorSame(s, s', f, b, t, o);
    forall msg | msg in s'.sent && msg.worker.fi == f ensures AboveFloor(s', msg.worker, b, t, o) {
      assert AboveFloor(s, msg.worker, b, t, o);
      FitsOn(s, s', msg.worker);
    }
  }

  /** The floor where the member itself does not move. */
  lemma FloorSame(s: Sys, s': Sys, f: nat, b: nat, t: nat, o: nat)
    requires FloorAt(s, f, b, t, o) && RecordsStay(s, s', f) && f < |Lead(s').cluster| && LogOk(Lead(s'))
    requires PeerLater(s, s', f) && |s.full| <= |s'.full|
    requires Oldest(Lead(s')) == Oldest(Lead(s)) || Oldest(Lead(s')) <= Lead(s).cluster[f].matchIndex
    requires Lead(s').cluster[f].nextIndex == Lead(s).cluster[f].nextIndex
    requires s'.nodes[f].tailLogIndex == s.nodes[f].tailLogIndex
    ensures FloorAt(s', f, b, t, o)
  {
    hide RecordsStay;
    hide Reaches;
    hide AllRecorded;
    FloorStays(s, s', f, b, t, o);
  }

  lemma SendsAbove(s: Sys, f: nat, wid: nat, b: nat, t: nat, o: nat)
    requires Floor(s, f, b, t, o) && Enabled(s, Send(f, wid)) && SendAE(Lead(s), f, s.cfg).Sent?
    ensures AboveFloor(s, SendAE(Lead(s), f, s.cfg).worker, b, t, o)
  {
    hide SendAE;
    hide ChooseBatch;
    hide Reaches;
    hide AllRecorded;
    hide Network;
    hide CommitsHeld;
    hide InflightOk;
    var n := Lead(s);
    assert PeerOk(s, f);
    SendFacts(n, f, s.cfg);
    RequestCarriesChoice(n, f, s.cfg);
    if n.cluster[f].nextIndex == b {
      StopsShort(n, b, t, s.cfg);
    }
  }

  lemma FloorSend(s: Sys, f: nat, wid: nat, b: nat, t: nat, o: nat)
    requires Floor(s, f, b, t, o) && Enabled(s, Send(f, wid))
    ensures Floor(Do(s, Send(f, wid)), f, b, t, o)
  {
    hide SendAE;
    hide Inv;
    hide FloorNow;
    hide RecordsStay;
    hide PrevFits;
    hide Ready;
    var s' := Do(s, Send(f, wid));
    StepFacts(s, Send(f, wid), f);
    if SendAE(Lead(s), f, s.cfg).Sent? {
      SendMoves(s, f, wid);
      SendsAbove(s, f, wid, b, t, o);
      FloorSame(s, s', f, b, t, o);
      forall msg | msg in s'.sent && msg.worker.fi == f ensures AboveFloor(s', msg.worker, b, t, o) {
        assert AboveFloor(s, msg.worker, b, t, o);
        FitsOn(s, s', msg.worker);
      }
    } else {
      SendIdle(s, f, wid);
    }
  }

  lemma FloorDeliver(s: Sys, msg: Msg, copyOk: bool, f: nat, b: nat, t: nat, o: nat)
    requires Floor(s, f, b, t, o) && Enabled(s, Deliver(msg, copyOk)) && msg.worker.fi == f
    ensures Floor(Do(s, Deliver(msg, copyOk)), f, b, t, o)
  {
    hide HandleAE;
    hide Inv;
    hide RecordsStay;
    hide Extends;
    hide Reaches;
    hide AllRecorded;
    hide PrevFits;
    var s' := Do(s, Deliver(msg, copyOk));
    StepFacts(s, Deliver(msg, copyOk), f);
    DeliverIs(s, msg, copyOk);
    assert AboveFloor(s, msg.worker, b, t, o);
    AcceptedNow(s, msg, copyOk);
    FloorStays(s, s', f, b, t, o);
    forall m | m in s'.sent && m.worker.fi == f ensures AboveFloor(s', m.worker, b, t, o) {
      assert AboveFloor(s, m.worker, b, t, o);
      FitsOn(s, s', m.worker);
    }
  }

  /** A reply that asks for nothing below `b` leaves the next index at or above it. */
  lemma ReplyAbove(n: Node, w: Worker, rsp: Option<AEResponse>, b: nat)
    requires LogOk(n) && w.fi < |n.cluster| && w.req.prevLogIndex < n.tailLogIndex
    requires b <= n.cluster[w.fi].nextIndex
    requires rsp.Some? ==> AnswerAbove(Reply(Msg(0, w), rsp.value), b)
    ensures |TakeReply(n, w, rsp).cluster| == |n.cluster| && b <= TakeReply(n, w, rsp).cluster[w.fi].nextIndex
  {
    hide ScanBack;
  }

  lemma FloorRespond(s: Sys, wid: nat, rsp: Option<AEResponse>, f: nat, b: nat, t: nat, o: nat)
    requires Floor(s, f, b, t, o) && Enabled(s, Respond(wid, rsp)) && s.workers[wid].fi == f
    ensures Floor(Do(s, Respond(wid, rsp)), f, b, t, o)
  {
    hide TakeReply;
    hide Inv;
    hide RecordsStay;
    hide Reaches;
    hide AllRecorded;
    hide PrevFits;
    hide PeerLater;
    var s', w := Do(s, Respond(wid, rsp)), s.workers[wid];
    StepFacts(s, Respond(wid, rsp), f);
    RespondMoves(s, wid, rsp);
    ReplyAbove(Lead(s), w, rsp, b);
    FloorStays(s, s', f, b, t, o);
    forall m | m in s'.sent && m.worker.fi == f ensures AboveFloor(s', m.worker, b, t, o) {
      assert AboveFloor(s, m.worker, b, t, o);
      assert PeerLater(s, s', f);
      FitsOn(s, s', m.worker);
    }
  }

  lemma FloorStep(s: Sys, step: Step, f: nat, b: nat, t: nat, o: nat)
    requires Floor(s, f, b, t, o) && Enabled(s, step)
    ensures Floor(Do(s, step), f, b, t, o)
  {
    hide *;
    if !Concerns(s, step, f) {
      FloorOther(s, step, f, b, t, o);
    } else {
      ConcernsOnly(s, step, f);
      match step
      case Send(fi, wid) => FloorSend(s, f, wid, b, t, o);
      case Deliver(msg, copyOk) => FloorDeliver(s, msg, copyOk, f, b, t, o);
      case Respond(wid, rsp) => FloorRespond(s, wid, rsp, f, b, t, o);
      case _ =>
    }
  }

  lemma ConcernsOnly(s: Sys, step: Step, f: nat)
    requires Concerns(s, step, f)
    ensures match step
            case Send(fi, _) => fi == f
            case Deliver(msg, _) => msg.worker.fi == f
            case Respond(wid, _) => wid in s.workers && s.workers[wid].fi == f
            case _ => false
  {}

  // ---------------------------------------------------------------- a log that ends below what is in memory

  /** The log of member `f` ends at `t`, in front of everything the leader could send; its next index is still `top`,
      where the term began, or at or below `t`. Requests from `top` on are rejected, those below carry nothing. */
  ghost predicate LowAt(s: Sys, f: nat, t: nat, top: nat) {
    && s.ld < |s.nodes| && f < |s.nodes| && f < |Lead(s).cluster| && LogOk(Lead(s)) && LogOk(s.nodes[f])
    && 1 < Oldest(Lead(s)) && t <= Oldest(Lead(s)) < top && s.nodes[f].tailLogIndex == t
    && (Lead(s).cluster[f].nextIndex == top || Lead(s).cluster[f].nextIndex <= t)
  }

  predicate LowRequest(w: Worker, next: nat, t: nat, top: nat) {
    (w.next == top || (w.next <= t && w.req.numEntries == 0)) && (next == top ==> w.next == top)
  }

  predicate LowAnswer(r: Reply, t: nat, top: nat) {
    r.msg.worker.next == top ==> !r.rsp.success && r.rsp.conflictTerm == 0 && r.rsp.conflictIndex == t
  }

  ghost predicate Low(s: Sys, f: nat, t: nat, top: nat) {
    && Inv(s) && f < |s.nodes| && f != s.ld && LowAt(s, f, t, top)
    && (forall msg :: msg in s.sent && msg.worker.fi == f ==>
          && LowRequest(msg.worker, Lead(s).cluster[f].nextIndex, t, top)
          && (msg.worker.next == top ==> NamesPrev(s.full, msg.worker.req)))
    && (forall r :: r in s.replies && r.msg.worker.fi == f ==> LowAnswer(r, t, top))
  }

  lemma LowOther(s: Sys, step: Step, f: nat, t: nat, top: nat)
    requires Low(s, f, t, top) && Enabled(s, step) && !Concerns(s, step, f)
    ensures Low(Do(s, step), f, t, top)
  {
    hide Do;
    hide Enabled;
    hide Inv;
    hide RecordsStay;
    StepFacts(s, step, f);
    OtherStep(s, step, f);
    MemberBounds(s, f);
  }

  lemma SendsLow(s: Sys, f: nat, wid: nat, t: nat, top: nat)
    requires Low(s, f, t, top) && Enabled(s, Send(f, wid)) && SendAE(Lead(s), f, s.cfg).Sent?
    ensures var w := SendAE(Lead(s), f, s.cfg).worker;
            && LowRequest(w, Lead(s).cluster[f].nextIndex, t, top)
            && (w.next == top ==> NamesPrev(s.full, w.req))
  {
    hide SendAE;
    hide Network;
    hide CommitsHeld;
    hide InflightOk;
    assert PeerOk(s, f);
    SendFacts(Lead(s), f, s.cfg);
    RequestCarriesChoice(Lead(s), f, s.cfg);
  }

  lemma LowSend(s: Sys, f: nat, wid: nat, t: nat, top: nat)
    requires Low(s, f, t, top) && Enabled(s, Send(f, wid))
    ensures Low(Do(s, Send(f, wid)), f, t, top)
  {
    hide SendAE;
    hide Inv;
    hide RecordsStay;
    hide Ready;
    StepFacts(s, Send(f, wid), f);
    if SendAE(Lead(s), f, s.cfg).Sent? {
      SendMoves(s, f, wid);
      SendsLow(s, f, wid, t, top);
    } else {
      SendIdle(s, f, wid);
    }
  }

  /** A request beyond the end of the log is rejected with that end. */
  lemma ShortAnswer(s: Sys, w: Worker, copyOk: bool)
    requires Inv(s) && s.ld < |s.nodes| && RequestOk(s, w) && s.nodes[w.fi].tailLogIndex < w.next
    ensures LogOk(s.nodes[w.fi]) && ClusterOk(s.nodes[w.fi])
    ensures HandleAE(s.nodes[w.fi], w.req, copyOk).1 ==
            AEResponse(w.req.term, false, 0, s.nodes[w.fi].tailLogIndex)
  {
    hide Tracks;
    hide CommitsHeld;
    hide InflightOk;
    assert PeerOk(s, w.fi);
    HearingFollows(s.nodes[w.fi], w.req.term);
  }

  lemma LowDeliver(s: Sys, msg: Msg, copyOk: bool, f: nat, t: nat, top: nat)
    requires Low(s, f, t, top) && Enabled(s, Deliver(msg, copyOk)) && msg.worker.fi == f
    ensures Low(Do(s, Deliver(msg, copyOk)), f, t, top)
  {
    hide HandleAE;
    hide Inv;
    hide RecordsStay;
    hide Extends;
    StepFacts(s, Deliver(msg, copyOk), f);
    DeliverIs(s, msg, copyOk);
    if msg.worker.next == top {
      ShortAnswer(s, msg.worker, copyOk);
    }
  }

  lemma ReplyLow(n: Node, w: Worker, rsp: Option<AEResponse>, t: nat, top: nat)
    requires LogOk(n) && w.fi < |n.cluster| && w.req.prevLogIndex < n.tailLogIndex && 1 <= t < top
    requires var p := n.cluster[w.fi];
             p.matchIndex < t && p.matchIndex + 1 <= p.nextIndex && (p.nextIndex == top || p.nextIndex <= t)
    requires LowRequest(w, n.cluster[w.fi].nextIndex, t, top)
    requires rsp.Some? ==> LowAnswer(Reply(Msg(0, w), rsp.value), t, top)
    ensures |TakeReply(n, w, rsp).cluster| == |n.cluster|
    ensures var x := TakeReply(n, w, rsp).cluster[w.fi].nextIndex; x <= t || x == top == n.cluster[w.fi].nextIndex
  {
    hide ScanBack;
    var n1 := if w.HasEntries() then WithMember(n, w.fi, n.cluster[w.fi].(inflight := false)) else n;
    if rsp.Some? && !rsp.value.success {
      BackoffDescends(n1, w.fi, w.req.prevLogIndex, rsp.value.conflictTerm, rsp.value.conflictIndex);
    }
  }

  lemma LowRespond(s: Sys, wid: nat, rsp: Option<AEResponse>, f: nat, t: nat, top: nat)
    requires Low(s, f, t, top) && Enabled(s, Respond(wid, rsp)) && s.workers[wid].fi == f
    ensures Low(Do(s, Respond(wid, rsp)), f, t, top)
  {
    hide TakeReply;
    hide RecordsStay;
    hide RequestOk;
    hide CommitsHeld;
    hide Tracks;
    hide InflightOk;
    hide PrefixOk;
    StepFacts(s, Respond(wid, rsp), f);
    RespondMoves(s, wid, rsp);
    assert PeerOk(s, f);
    assert Msg(wid, s.workers[wid]) in s.sent && LowRequest(s.workers[wid], Lead(s).cluster[f].nextIndex, t, top);
    ReplyLow(Lead(s), s.workers[wid], rsp, t, top);
  }

  lemma LowStep(s: Sys, step: Step, f: nat, t: nat, top: nat)
    requires Low(s, f, t, top) && Enabled(s, step)
    ensures Low(Do(s, step), f, t, top)
  {
    hide *;
    if !Concerns(s, step, f) {
      LowOther(s, step, f, t, top);
    } else {
      ConcernsOnly(s, step, f);
      match step
      case Send(fi, wid) => LowSend(s, f, wid, t, top);
      case Deliver(msg, copyOk) => LowDeliver(s, msg, copyOk, f, t, top);
      case Respond(wid, rsp) => LowRespond(s, wid, rsp, f, t, top);
      case _ =>
    }
  }

  // ---------------------------------------------------------------- a member without a record at its next index

  /** Everything in front of the next index `x` is confirmed, nothing can be sent from `x` on, and no request that
      could change that is on its way back. */
  ghost predicate Pinned(s: Sys, f: nat, x: nat) {
    && Inv(s) && f < |s.nodes| && f != s.ld && s.ld < |s.nodes| && f < |Lead(s).cluster| && x < |s.full|
    && Lead(s).cluster[f].nextIndex == x == Lead(s).cluster[f].matchIndex + 1
    && !Reaches(Lead(s).logSlotMap, Lead(s).ringSlots, s.cfg, x, x)
    && forall w :: w in s.workers && s.workers[w].fi == f ==> s.workers[w].next == x && !s.workers[w].HasEntries()
  }

  lemma PinnedOther(s: Sys, step: Step, f: nat, x: nat)
    requires Pinned(s, f, x) && Enabled(s, step) && !Concerns(s, step, f)
    ensures Pinned(Do(s, step), f, x)
  {
    hide Do;
    hide Enabled;
    hide Inv;
    hide Reaches;
    StepFacts(s, step, f);
    OtherStep(s, step, f);
    ReachesSame(Lead(s).logSlotMap, Lead(Do(s, step)).logSlotMap, Lead(s).ringSlots, s.cfg, x, x);
  }

  lemma PinnedSend(s: Sys, f: nat, wid: nat, x: nat)
    requires Pinned(s, f, x) && Enabled(s, Send(f, wid))
    ensures Pinned(Do(s, Send(f, wid)), f, x)
  {
    hide SendAE;
    hide ChooseBatch;
    hide Inv;
    hide Reaches;
    hide Ready;
    StepFacts(s, Send(f, wid), f);
    InvShape(s);
    if SendAE(Lead(s), f, s.cfg).Sent? {
      SendMoves(s, f, wid);
      RequestCarriesChoice(Lead(s), f, s.cfg);
      StopsShort(Lead(s), x, x, s.cfg);
      ReachesSame(Lead(s).logSlotMap, Lead(Do(s, Send(f, wid))).logSlotMap, Lead(s).ringSlots, s.cfg, x, x);
    } else {
      SendIdle(s, f, wid);
    }
  }

  lemma PinnedDeliver(s: Sys, msg: Msg, copyOk: bool, f: nat, x: nat)
    requires Pinned(s, f, x) && Enabled(s, Deliver(msg, copyOk)) && msg.worker.fi == f
    ensures Pinned(Do(s, Deliver(msg, copyOk)), f, x)
  {
    hide HandleAE;
    hide Inv;
    hide Extends;
    hide Reaches;
    StepFacts(s, Deliver(msg, copyOk), f);
    DeliverIs(s, msg, copyOk);
  }

  lemma PinnedRespond(s: Sys, wid: nat, rsp: Option<AEResponse>, f: nat, x: nat)
    requires Pinned(s, f, x) && Enabled(s, Respond(wid, rsp)) && s.workers[wid].fi == f
    ensures Pinned(Do(s, Respond(wid, rsp)), f, x)
  {
    hide TakeReply;
    hide Inv;
    hide Reaches;
    hide RecordsOk;
    StepFacts(s, Respond(wid, rsp), f);
    InvShape(s);
    ReplyFacts(Lead(s), s.workers[wid], rsp);
  }

  lemma PinnedStep(s: Sys, step: Step, f: nat, x: nat)
    requires Pinned(s, f, x) && Enabled(s, step)
    ensures Pinned(Do(s, step), f, x)
  {
    hide *;
    if !Concerns(s, step, f) {
      PinnedOther(s, step, f, x);
    } else {
      ConcernsOnly(s, step, f);
      match step
      case Send(fi, wid) => PinnedSend(s, f, wid, x);
      case Deliver(msg, copyOk) => PinnedDeliver(s, msg, copyOk, f, x);
      case Respond(wid, rsp) => PinnedRespond(s, wid, rsp, f, x);
      case _ =>
    }
  }

  lemma {:induction false} PinnedForever(run: seq<Sys>, steps: seq<Step>, k: nat, j: nat, f: nat, x: nat)
    requires IsRun(run, steps) && k <= j < |run| && Pinned(run[k], f, x)
    ensures Pinned(run[j], f, x)
    decreases j - k
  {
    hide Pinned;
    hide Do;
    hide Start;
    if k < j {
      PinnedForever(run, steps, k, j - 1, f, x);
      PinnedStep(run[j - 1], steps[j - 1], f, x);
    }
  }
}
