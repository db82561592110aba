/** A run of three servers after which a promotion would overwrite an entry: a batch is sent again, and its copy fails.
    */
module PointerLimits {
  import opened Basics
  import opened Extents
  import opened Ring
  import opened Types
  import opened Batch
  import opened Progress
  import opened Commit
  import opened Election
  import opened Follower
  import opened Replication
  import opened ReplicationRuns
  import opened FirstLeader
  import opened Mirror
  import opened WritePointer
  import MirrorLog
  import SlotLimits
  import Succession

  /** Node 0 leads, and node 1 has the first so many entries. */
  ghost predicate Follows(s: Sys, tail: nat, out: bool, held: nat) {
    SlotLimits.Stage(s, tail, 0, out, 0, 1) && s.nodes[1].tailLogIndex == held
  }

  /** Worker `wid` is out with everything the leader has, for node 1. */
  ghost predicate Out(s: Sys, wid: nat, tail: nat) {
    && s.workers.Keys == {wid} && Msg(wid, s.workers[wid]) in s.sent
    && var w := s.workers[wid];
       w.fi == 1 && w.next == 1 && w.req.numEntries == tail - 1 && w.req.prevLogIndex == 0 && w.req.term == 1
  }

  lemma SendsFirst(s: Sys)
    requires SlotLimits.Stage(s, 2, 0, false, 0, 1)
    ensures SendReady(Lead(s), 1) && SendAE(Lead(s), 1, s.cfg).Sent?
    ensures var w := SendAE(Lead(s), 1, s.cfg).worker;
            && w.fi == 1 && w.next == 1 && w.req.numEntries == 1 && w.req.prevLogIndex == 0 && w.req.term == 1
  {
    hide Inv1;
    hide LeaderRing;
    hide SendAE;
    hide ChooseBatch;
    hide RecordsOk;
    InvParts(s);
    AlwaysReady(s);
    var n := Lead(s);
    MemberParts(s, 1);
    SendsData(n, s.full, 1, s.cfg);
    SendFacts(n, 1, s.cfg);
    RequestCarriesChoice(n, 1, s.cfg);
    var base :| base > 0 && s.cfg.extents == OneExtent(base, n.ringSlots);
    BatchFound(n, s.full, 1, s.cfg, base);
  }

  lemma SendOut(s: Sys, wid: nat, tail: nat, held: nat)
    requires Follows(s, tail, false, held) && s.workers == map[] && (tail == 2 || tail == 4)
    ensures Enabled(s, Send(1, wid))
    ensures var s' := Do(s, Send(1, wid));
            && Follows(s', tail, true, held) && Out(s', wid, tail)
            && Lead(s').tailSlot == Lead(s).tailSlot && Lead(s').headSlot == Lead(s).headSlot
  {
    hide Inv1;
    hide SendAE;
    SlotLimits.LogIs();
    InvParts(s);
    AlwaysReady(s);
    if tail == 2 {
      SendsFirst(s);
    } else {
      SlotLimits.SendsAll(s, 1, 0, false, 0, 1);
    }
    StepInStep(s, Send(1, wid));
    SendMoves(s, 1, wid);
  }

  /** A request that brings something new makes node 1 copy. */
  lemma CopiesIt(s: Sys, wid: nat, tail: nat, held: nat)
    requires Follows(s, tail, true, held) && Out(s, wid, tail) && 1 <= held < tail
    ensures FollowerThere(s, 1) && Copies(s.nodes[1], s.workers[wid].req)
    ensures Enabled(s, Deliver(Msg(wid, s.workers[wid]), true)) && Enabled(s, Deliver(Msg(wid, s.workers[wid]), false))
  {
    hide Inv1;
    hide HandleAE;
    hide NeedsCopy;
    hide Copies;
    var msg := Msg(wid, s.workers[wid]);
    InvParts(s);
    AlwaysReady(s);
    FollowerOk(s, 1);
    DeliverIs(s, msg, true);
    Succession.AcceptedNow(s, msg, true);
    TailGrowsByCopy(s.nodes[1], msg.worker.req, true);
  }

  lemma Delivery(s: Sys, wid: nat, tail: nat, held: nat, copyOk: bool)
    requires Follows(s, tail, true, held) && Out(s, wid, tail) && 1 <= held < tail
    ensures Enabled(s, Deliver(Msg(wid, s.workers[wid]), copyOk))
    ensures var s' := Do(s, Deliver(Msg(wid, s.workers[wid]), copyOk));
            && Follows(s', tail, true, if copyOk then tail else held) && Out(s', wid, tail)
            && (!copyOk ==> s'.nodes[1].tailSlot == s.workers[wid].req.startSlot)
            && s.ld < |s.nodes| && s'.ld < |s'.nodes| && Lead(s') == Lead(s)
  {
    hide Inv1;
    hide HandleAE;
    hide Copies;
    var msg := Msg(wid, s.workers[wid]);
    InvParts(s);
    CopiesIt(s, wid, tail, held);
    DeliverRequest(s, msg, copyOk);
    PointerMoves(s.nodes[1], msg.worker.req, copyOk);
    StepInStep(s, Deliver(msg, copyOk));
    DeliverLeavesLeader(s, msg, copyOk);
    DeliverSent(s, msg, copyOk);
    MirrorLog.DeliveredNode(s, msg, copyOk, 1);
  }

  /** The answer is lost. */
  lemma Lost(s: Sys, wid: nat, tail: nat, held: nat)
    requires Follows(s, tail, true, held) && Out(s, wid, tail) && tail > 1
    ensures Enabled(s, Respond(wid, None))
    ensures var s' := Do(s, Respond(wid, None));
            && Follows(s', tail, false, held) && s'.workers == map[]
            && Lead(s').tailSlot == Lead(s).tailSlot && Lead(s').headSlot == Lead(s).headSlot
  {
    hide Inv1;
    hide TakeReply;
    InvParts(s);
    hide Inv;
    AlwaysReady(s);
    OnlyItsTermCounts(Lead(s), s.workers[wid], None);
    StepInStep(s, Respond(wid, None));
  }

  /** The retried batch starts where the first entry lies. */
  lemma StartsAtZero(s: Sys, wid: nat, tail: nat, held: nat)
    requires Follows(s, tail, true, held) && Out(s, wid, tail) && tail > 1
    ensures s.ld < |s.nodes| && s.workers[wid].req.startSlot == 0
    ensures 1 in Lead(s).logSlotMap && Lead(s).logSlotMap[1].start == 0
    ensures Lead(s).logSlotMap[1].End() > 0
  {
    hide Inv;
    hide LeaderRing;
    InvParts(s);
    assert WorkerInStep(Lead(s), s.workers[wid]);
    LiveInLog(Lead(s), s.full, 1);
  }

  lemma IsFollows(s: Sys, tail: nat, out: bool, held: nat)
    requires SlotLimits.Stage(s, tail, 0, out, 0, 1)
    ensures |s.nodes| == 3 && (s.nodes[1].tailLogIndex == held ==> Follows(s, tail, out, held))
  {
    hide Inv1;
  }

  lemma AppendBatch(s: Sys)
    requires Follows(s, 2, false, 2) && Lead(s).tailSlot == 1 && Lead(s).headSlot == 0 && s.workers == map[]
    ensures Enabled(s, Append(SlotLimits.Commands())) && SafeAppend(Lead(s), SlotLimits.Commands())
    ensures var s' := Do(s, Append(SlotLimits.Commands())); Follows(s', 4, false, 2) && s'.workers == map[]
  {
    hide SlotLimits.Stage;
    hide Do;
    hide Enabled;
    hide SafeAppend;
    SlotLimits.AppendStage(s);
    IsFollows(s, 2, false, 2);
    IsFollows(Do(s, Append(SlotLimits.Commands())), 4, false, 2);
  }

  lemma FirstIsHit(s: Sys, s': Sys)
    requires Follows(s', 4, true, 2) && s.ld < |s.nodes| && Lead(s') == Lead(s)
    requires 1 in Lead(s).logSlotMap && Lead(s).logSlotMap[1].start == 0 && Lead(s).logSlotMap[1].End() > 0
    requires s'.nodes[1].tailSlot == 0
    ensures NoopHits(s', 1)
  {
    hide Inv1;
    assert Noop(s'.nodes[1]).start == 0 && !Apart(Lead(s').logSlotMap[1], Noop(s'.nodes[1]));
  }

  /** Node 1 gets the leader's first entry, but the answer is lost. The leader appends a batch and sends everything
      again; this copy fails. Node 1 has the first entry, at slot 0, and its pointer is back at slot 0: if it is
      promoted now, the no-op is written over that entry. */
  lemma FailedRetryHits(read: Reader) returns (run: seq<Sys>, steps: seq<Step>)
    ensures IsFirstRun(run, steps) && |run| == 7 && |steps| == 6
    ensures steps[5].Deliver? && !steps[5].copyOk && steps[5].msg.worker.fi == 1
    ensures NoopHits(run[6], 1)
  {
    hide IsFirstRun;
    hide Do;
    hide Enabled;
    hide SafeAppend;
    hide SlotLimits.Stage;
    hide NoopHits;
    run, steps := SlotLimits.Promotion(read);
    IsFollows(run[0], 2, false, 1);
    SendOut(run[0], 0, 2, 1);
    run, steps := SlotLimits.GoOn(run, steps, Send(1, 0));
    Delivery(run[1], 0, 2, 1, true);
    run, steps := SlotLimits.GoOn(run, steps, Deliver(Msg(0, run[1].workers[0]), true));
    Lost(run[2], 0, 2, 2);
    run, steps := SlotLimits.GoOn(run, steps, Respond(0, None));
    AppendBatch(run[3]);
    run, steps := SlotLimits.GoOn(run, steps, Append(SlotLimits.Commands()));
    SendOut(run[4], 1, 4, 2);
    run, steps := SlotLimits.GoOn(run, steps, Send(1, 1));
    Delivery(run[5], 1, 4, 2, false);
    StartsAtZero(run[5], 1, 4, 2);
    run, steps := SlotLimits.GoOn(run, steps, Deliver(Msg(1, run[5].workers[1]), false));
    FirstIsHit(run[5], run[6]);
  }
}
