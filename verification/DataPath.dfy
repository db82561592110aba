/** The data path over whole runs: the leader's device along a run of a first leader, and what a follower decodes
    from a copy made while the batch is in flight. */
module DataPath {
  import opened Basics
  import opened Extents
  import opened EntryCodec
  import opened Ring
  import opened Types
  import opened Batch
  import opened Progress
  import opened Commit
  import opened Follower
  import opened LeaderLog
  import opened Replication
  import opened ReplicationRuns
  import opened FirstLeader
  import opened Chunks
  import opened EndToEnd
  import RingRuns
  import BlockCopy
  import SlotAgreement
  import Servers

  /** The unbounded log as it is written to the ring. */
  ghost function Records(full: seq<Entry>): (r: seq<Record>)
    ensures |r| == |full| && forall i :: 0 <= i < |r| ==> r[i] == Record(full[i].term, full[i].command, i)
  {
    seq(|full|, i requires 0 <= i < |full| => Record(full[i].term, full[i].command, i))
  }

  /** The leader's ring with its device, as the ring runs see it. */
  ghost function RingOf(n: Node, full: seq<Entry>, dev: Device): RingRuns.RingState {
    RingRuns.RingState(n.logSlotMap, n.tailSlot, n.headSlot, dev, Records(full))
  }

  /** What a step does to the leader's device: an append writes its records (Servers.Server.AppendBatch), nothing
      else writes. */
  ghost predicate DeviceStep(s: Sys, step: Step, dev: Device, dev': Device, m: seq<nat>)
    requires s.ld < |s.nodes|
  {
    if step.Append? then Written(Lead(s), step.commands, dev, dev', m) else dev' == dev
  }

  /** The batch has been written, each record behind the write pointer; all fields fit their 64 bits. */
  ghost predicate Written(n: Node, commands: seq<seq<Byte>>, dev: Device, dev': Device, m: seq<nat>) {
    var recs := Servers.BatchRecords(n, commands);
    && SlotsOn(m, |dev|) && RingRuns.FitRing(recs, |m|) && (forall i :: 0 <= i < |recs| ==> recs[i].Fits())
    && dev' == RingRuns.DeviceAfter(dev, m, recs, n.tailSlot, |recs|)
  }

  /** A run of a first leader together with the contents of its device. */
  ghost predicate DeviceRun(run: seq<Sys>, steps: seq<Step>, devs: seq<Device>, m: seq<nat>) {
    && IsFirstRun(run, steps) && |devs| == |run| && run[0].ld < |run[0].nodes| && |m| == Lead(run[0]).ringSlots
    && RingRuns.Inv(RingOf(Lead(run[0]), run[0].full, devs[0]), m)
    && forall k {:trigger DeviceAt(run, steps, devs, m, k)} :: 0 <= k < |steps| ==> DeviceAt(run, steps, devs, m, k)
  }

  /** Step `k` of such a run. */
  ghost predicate DeviceAt(run: seq<Sys>, steps: seq<Step>, devs: seq<Device>, m: seq<nat>, k: nat)
    requires k < |steps| == |run| - 1 && |devs| == |run|
  {
    run[k].ld < |run[k].nodes| ==> DeviceStep(run[k], steps[k], devs[k], devs[k + 1], m)
  }

  // ---------------------------------------------------------------- the device keeps the live records

  lemma AppendRefines(s: Sys, commands: seq<seq<Byte>>, dev: Device, dev': Device, m: seq<nat>)
    requires Inv1(s) && Enabled(s, Append(commands)) && SafeAppend(Lead(s), commands) && |m| == Lead(s).ringSlots
    requires RingRuns.Inv(RingOf(Lead(s), s.full, dev), m) && DeviceStep(s, Append(commands), dev, dev', m)
    ensures var s' := Do(s, Append(commands));
            && s'.ld < |s'.nodes|
            && Lead(s').ringSlots == Lead(s).ringSlots
            && RingRuns.Inv(RingOf(Lead(s'), s'.full, dev'), m)
  {
    hide *;
    InvParts(s);
    AppendEnabled(s, commands);
    AppendLeads(s, commands);
    AppendIs(Lead(s), commands);
    StepWrites(s, commands, dev, dev', m);
    AppendedRingInv(Lead(s), AppendCommands(Lead(s), commands), s.full, commands, dev, dev', m);
  }

  lemma StepWrites(s: Sys, commands: seq<seq<Byte>>, dev: Device, dev': Device, m: seq<nat>)
    requires s.ld < |s.nodes| && DeviceStep(s, Append(commands), dev, dev', m)
    ensures Written(Lead(s), commands, dev, dev', m)
  {}

  lemma AppendLeads(s: Sys, commands: seq<seq<Byte>>)
    requires Enabled(s, Append(commands))
    ensures var s' := Do(s, Append(commands));
            && s'.ld < |s'.nodes| && Lead(s') == AppendCommands(Lead(s), commands)
            && s'.full == s.full + NewEntries(Lead(s).currentTerm, commands)
  {
    hide AppendCommands;
  }

  lemma AppendedRingInv(n: Node, n': Node, full: seq<Entry>, commands: seq<seq<Byte>>, dev: Device, dev': Device,
                        m: seq<nat>)
    requires n.tailLogIndex == |full| && |m| == n.ringSlots && commands != [] && SafeAppend(n, commands)
    requires n'.logSlotMap == Recorded(n.logSlotMap, n.tailLogIndex, Needs(commands), n.tailSlot, n.ringSlots,
                                       |commands|)
    requires n'.tailSlot == Ptr(Needs(commands), n.tailSlot, n.ringSlots, |commands|) && n'.headSlot == n.headSlot
    requires RingRuns.Inv(RingOf(n, full, dev), m)
    requires Written(n, commands, dev, dev', m)
    ensures RingRuns.Inv(RingOf(n', full + NewEntries(n.currentTerm, commands), dev'), m)
  {
    hide *;
    var recs, r := Servers.BatchRecords(n, commands), RingOf(n, full, dev);
    WrittenParts(n, commands, dev, dev', m);
    RingFields(n, full, dev);
    RingFields(n', full + NewEntries(n.currentTerm, commands), dev');
    BatchFacts(n, full, commands);
    RingSound(r, m);
    SafeParts(n, commands);
    RingRuns.AppendedIs(r, m, recs, |recs|);
    RingRuns.AppendedHistory(r, m, recs, |recs|);
    WellFormed(r, recs);
    RingRuns.AppendKeepsInv(r, m, recs, |recs|);
    assert recs[..|recs|] == recs;
    SameRingState(RingRuns.Appended(r, m, recs, |recs|), RingOf(n', full + NewEntries(n.currentTerm, commands), dev'));
  }

  lemma RingSound(r: RingRuns.RingState, m: seq<nat>)
    requires RingRuns.Inv(r, m)
    ensures RingOk(r.live, r.tail, r.head, |m|)
  {}

  lemma WrittenParts(n: Node, commands: seq<seq<Byte>>, dev: Device, dev': Device, m: seq<nat>)
    requires Written(n, commands, dev, dev', m)
    ensures var recs := Servers.BatchRecords(n, commands);
            && SlotsOn(m, |dev|) && RingRuns.FitRing(recs, |m|) && (forall i :: 0 <= i < |recs| ==> recs[i].Fits())
            && dev' == RingRuns.DeviceAfter(dev, m, recs, n.tailSlot, |recs|)
  {}

  lemma RingFields(n: Node, full: seq<Entry>, dev: Device)
    ensures var r := RingOf(n, full, dev);
            && r.live == n.logSlotMap
            && r.tail == n.tailSlot
            && r.head == n.headSlot
            && r.dev == dev
            && r.history == Records(full)
    ensures |Records(full)| == |full|
  {}

  lemma SameRingState(a: RingRuns.RingState, b: RingRuns.RingState)
    requires a.live == b.live && a.tail == b.tail && a.head == b.head && a.dev == b.dev && a.history == b.history
    ensures a == b
  {}

  /** Commands as records of the unbounded log. */
  lemma BatchFacts(n: Node, full: seq<Entry>, commands: seq<seq<Byte>>)
    requires n.tailLogIndex == |full|
    ensures var recs := Servers.BatchRecords(n, commands);
            && |recs| == |commands| && RingRuns.RecordNeeds(recs) == Needs(commands)
            && Records(full + NewEntries(n.currentTerm, commands)) == Records(full) + recs
            && forall i :: 0 <= i < |recs| ==> recs[i].index == |full| + i
  {
    hide SlotsForEntry;
  }

  lemma WellFormed(r: RingRuns.RingState, recs: seq<Record>)
    requires recs != [] && forall i :: 0 <= i < |recs| ==> recs[i].Fits()
    requires forall i :: 0 <= i < |recs| ==> recs[i].index == |r.history| + i
    ensures RingRuns.WellFormedBatch(r, recs)
  {}

  lemma CollectRefines(s: Sys, dev: Device, m: seq<nat>)
    requires Inv1(s) && Enabled(s, Collect) && RingRuns.Inv(RingOf(Lead(s), s.full, dev), m)
    ensures var s' := Do(s, Collect);
            && s'.ld < |s'.nodes|
            && Lead(s').ringSlots == Lead(s).ringSlots
            && RingRuns.Inv(RingOf(Lead(s'), s'.full, dev), m)
  {
    hide *;
    InvParts(s);
    CollectLeads(s);
    CollectIs(Lead(s));
    LeaderRingParts(Lead(s), s.full);
    CollectPeers(s);
    MinMatchFloor(Lead(s), |Lead(s).cluster|, Lead(s).gcUpTo);
    Freed(Lead(s), DoSlotGc(Lead(s)), s.full, dev, MinMatch(Lead(s), |Lead(s).cluster|));
    RingRuns.FreeKeepsInv(RingOf(Lead(s), s.full, dev), RingOf(DoSlotGc(Lead(s)), s.full, dev), m,
                          MinMatch(Lead(s), |Lead(s).cluster|));
  }

  lemma CollectLeads(s: Sys)
    requires Enabled(s, Collect)
    ensures var s' := Do(s, Collect); s'.ld < |s'.nodes| && Lead(s') == DoSlotGc(Lead(s)) && s'.full == s.full
  {
    hide DoSlotGc;
  }

  lemma Freed(n: Node, n': Node, full: seq<Entry>, dev: Device, least: nat)
    requires forall i :: i in n.logSlotMap ==> n.gcUpTo < i
    requires n'.logSlotMap == FreedMap(n.logSlotMap, n.gcUpTo, least) && n'.tailSlot == n.tailSlot
    requires n'.headSlot == if n'.logSlotMap == n.logSlotMap then n.headSlot else HeadOf(n'.logSlotMap, n.tailSlot)
    ensures RingRuns.FreeStep(RingOf(n, full, dev), RingOf(n', full, dev), least)
  {
    hide HeadOf;
    assert n'.logSlotMap == map i | i in n.logSlotMap && i > least :: n.logSlotMap[i];
  }

  /** Every other step leaves the ring alone. */
  lemma OtherRefines(s: Sys, step: Step, dev: Device, m: seq<nat>)
    requires Inv1(s) && Enabled(s, step) && !step.Append? && !step.Collect?
    requires RingRuns.Inv(RingOf(Lead(s), s.full, dev), m)
    ensures var s' := Do(s, step);
            && s'.ld < |s'.nodes|
            && Lead(s').ringSlots == Lead(s).ringSlots
            && RingRuns.Inv(RingOf(Lead(s'), s'.full, dev), m)
  {
    hide *;
    InvParts(s);
    OtherSameRing(s, step);
    RingFields(Lead(s), s.full, dev);
    RingFields(Lead(Do(s, step)), s.full, dev);
    SameRingParts(Lead(s), Lead(Do(s, step)));
    SameRingState(RingOf(Lead(s), s.full, dev), RingOf(Lead(Do(s, step)), s.full, dev));
  }

  lemma SameRingParts(n: Node, n': Node)
    requires SameRing(n, n')
    ensures n'.logSlotMap == n.logSlotMap && n'.ringSlots == n.ringSlots && n'.tailSlot == n.tailSlot
    ensures n'.headSlot == n.headSlot
  {}

  lemma OtherSameRing(s: Sys, step: Step)
    requires Inv1(s) && Enabled(s, step) && !step.Append? && !step.Collect?
    ensures var s' := Do(s, step);
            s.ld < |s.nodes| && s'.ld < |s'.nodes| && s'.full == s.full && SameRing(Lead(s), Lead(s'))
  {
    hide *;
    InvParts(s);
    match step
    case Send(fi, wid) => SendRing(s, fi, wid);
    case Deliver(msg, copyOk) => DeliverLeavesLeader(s, msg, copyOk); Reflexive(Lead(s));
    case Respond(wid, rsp) =>
      RespondExact(s, wid, rsp);
      RespondEnabled(s, wid, rsp);
      MemberRing(s, Do(s, step), s.workers[wid].fi);
      MovedFull(s, Do(s, step), s.workers[wid].fi);
    case Commit => CommitSameRing(s);
    case Apply => ApplySameRing(s);
  }

  lemma Reflexive(n: Node)
    ensures SameRing(n, n)
  {}

  lemma MovedFull(s: Sys, s': Sys, f: nat)
    requires MemberMoves(s, s', f)
    ensures s'.full == s.full && s'.ld < |s'.nodes|
  {}

  lemma SendRing(s: Sys, fi: nat, wid: nat)
    requires Inv1(s) && Enabled(s, Send(fi, wid))
    ensures var s' := Do(s, Send(fi, wid));
            s.ld < |s.nodes| && s'.ld < |s'.nodes| && s'.full == s.full && SameRing(Lead(s), Lead(s'))
  {
    hide *;
    InvParts(s);
    SendMember(s, fi, wid);
    if SendAE(Lead(s), fi, s.cfg).Sent? {
      SendMoves(s, fi, wid);
      MemberRing(s, Do(s, Send(fi, wid)), fi);
      MovedFull(s, Do(s, Send(fi, wid)), fi);
    } else {
      SendIdle(s, fi, wid);
      Reflexive(Lead(s));
    }
  }

  /** Every step keeps the live records on the device. */
  lemma DeviceStepKeeps(s: Sys, step: Step, dev: Device, dev': Device, m: seq<nat>)
    requires Inv1(s) && Enabled(s, step) && (step.Append? ==> SafeAppend(Lead(s), step.commands))
    requires |m| == Lead(s).ringSlots && RingRuns.Inv(RingOf(Lead(s), s.full, dev), m)
    requires DeviceStep(s, step, dev, dev', m)
    ensures var s' := Do(s, step);
            && s'.ld < |s'.nodes|
            && Lead(s').ringSlots == Lead(s).ringSlots
            && RingRuns.Inv(RingOf(Lead(s'), s'.full, dev'), m)
  {
    hide Do;
    hide RingRuns.Inv;
    hide RingOf;
    hide SafeAppend;
    hide Inv1;
    if step.Append? {
      AppendRefines(s, step.commands, dev, dev', m);
    } else if step.Collect? {
      CollectRefines(s, dev, m);
    } else {
      OtherRefines(s, step, dev, m);
    }
  }

  /** In every run the device holds every live record, in bounds and apart from the others. */
  lemma {:induction false} DeviceRunKeepsRecords(run: seq<Sys>, steps: seq<Step>, devs: seq<Device>, m: seq<nat>,
                                                 k: nat)
    requires DeviceRun(run, steps, devs, m) && k < |run|
    ensures run[k].ld < |run[k].nodes| && |m| == Lead(run[k]).ringSlots
    ensures RingRuns.Inv(RingOf(Lead(run[k]), run[k].full, devs[k]), m)
  {
    hide Do;
    hide RingRuns.Inv;
    hide RingOf;
    hide SafeAppend;
    hide Inv1;
    if k > 0 {
      DeviceRunKeepsRecords(run, steps, devs, m, k - 1);
      FirstRunKeepsInv(run, steps, k - 1);
      assert DeviceAt(run, steps, devs, m, k - 1);
      DeviceStepKeeps(run[k - 1], steps[k - 1], devs[k - 1], devs[k], m);
    }
  }

  /** The device right after the first promotion, which has written the no-op, is one such a run can start with. */
  lemma FirstDevice(s: Sys, blank: Device, m: seq<nat>)
    requires FirstTerm(s) && |m| == Lead(s).ringSlots && SlotsOn(m, |blank|) && Lead(s).currentTerm < U64_LIMIT
    ensures var noop := [Record(Lead(s).currentTerm, [], 1)];
            && RingRuns.FitRing(noop, |m|)
            && RingRuns.Inv(RingOf(Lead(s), s.full, RingRuns.DeviceAfter(blank, m, noop, 0, 1)), m)
  {
    hide *;
    FirstFields(s);
    var noop := [Record(Lead(s).currentTerm, [], 1)];
    NoopFacts(Lead(s).currentTerm, s.full, noop);
    RingFields(Lead(s), s.full, RingRuns.DeviceAfter(blank, m, noop, 0, 1));
    FirstRecord(RingRuns.RingState(map[], 0, 0, blank, [Record(0, [], 0)]), m, noop,
                RingOf(Lead(s), s.full, RingRuns.DeviceAfter(blank, m, noop, 0, 1)));
  }

  lemma FirstFields(s: Sys)
    requires FirstTerm(s)
    ensures s.ld < |s.nodes| && Lead(s).ringSlots >= 1
    ensures s.full == [SENTINEL, Entry([], Lead(s).currentTerm, Waiting, 0, 0)]
    ensures Lead(s).logSlotMap == map[1 := SlotRecord(0, 1)] && Lead(s).tailSlot == 1 && Lead(s).headSlot == 0
  {
    hide CommitsHeld;
    hide StartPeer;
  }

  lemma NoopFacts(term: nat, full: seq<Entry>, noop: seq<Record>)
    requires full == [SENTINEL, Entry([], term, Waiting, 0, 0)] && noop == [Record(term, [], 1)] && term < U64_LIMIT
    ensures RingRuns.RecordNeeds(noop) == [1] && noop[0].Fits() && Records(full) == [Record(0, [], 0)] + noop[..1]
    ensures forall r: nat :: r >= 1 ==> RingRuns.FitRing(noop, r)
  {
    assert noop[0].Slots() == 1;
  }

  lemma FirstRecord(r0: RingRuns.RingState, m: seq<nat>, noop: seq<Record>, r: RingRuns.RingState)
    requires m != [] && SlotsOn(m, |r0.dev|) && r0.live == map[] && r0.tail == 0 && r0.head == 0 && |r0.history| == 1
    requires |noop| == 1 && noop[0].Fits() && noop[0].index == 1 && RingRuns.RecordNeeds(noop) == [1]
    requires RingRuns.FitRing(noop, |m|)
    requires r.live == map[1 := SlotRecord(0, 1)] && r.tail == 1 && r.head == 0
    requires r.dev == RingRuns.DeviceAfter(r0.dev, m, noop, 0, 1) && r.history == r0.history + noop[..1]
    ensures RingRuns.Inv(r, m)
  {
    hide SlotsOn;
    hide RingRuns.DeviceAfter;
    hide RingRuns.Appended;
    hide RingRuns.RecordNeeds;
    assert Ptr([1], 0, |m|, 0) == 0 && Ptr([1], 0, |m|, 1) == 1;
    assert Recorded(map[], 1, [1], 0, |m|, 0) == map[];
    assert Recorded(map[], 1, [1], 0, |m|, 1) == map[1 := SlotRecord(0, 1)];
    assert Advance([1], 0, |m|, 0) == 0 && Advance([1], 0, |m|, 1) == 1;
    RingRuns.AppendedIs(r0, m, noop, 1);
    RingRuns.AppendedHistory(r0, m, noop, 1);
    RingRuns.AppendKeepsInv(r0, m, noop, 1);
    SameRingState(RingRuns.Appended(r0, m, noop, 1), r);
  }

  // ---------------------------------------------------------------- batches in flight

  /** The records a worker's batch stands for. */
  ghost function FlightRecords(s: Sys, w: Worker): (r: seq<Record>)
    requires w.next + w.req.numEntries <= |s.full|
    ensures |r| == w.req.numEntries
    ensures forall j :: 0 <= j < |r| ==> r[j] == Record(s.full[w.next + j].term, s.full[w.next + j].command, w.next + j)
  {
    Records(s.full)[w.next..w.next + w.req.numEntries]
  }

  /** Record `j` of a batch has a slot record of its size. */
  predicate HasSlots(m: LogSlotMap, first: nat, recs: seq<Record>, j: nat)
    requires j < |recs|
  {
    first + j in m && m[first + j].numSlots == recs[j].Slots()
  }

  lemma {:induction false} SpanIsNeeds(m: LogSlotMap, first: nat, recs: seq<Record>, k: nat)
    requires k <= |recs| && forall j :: 0 <= j < |recs| ==> HasSlots(m, first, recs, j)
    ensures |RingRuns.RecordNeeds(recs)| == |recs| && Span(m, first, k) == Sum(RingRuns.RecordNeeds(recs), k)
  {
    hide SlotsForEntry;
    if k > 0 {
      SpanIsNeeds(m, first, recs, k - 1);
      assert HasSlots(m, first, recs, k - 1);
    }
  }

  /** While a batch is in flight its records are on the leader's device, one behind the other from the announced
      slot on. */
  lemma FlightOnDevice(s: Sys, wid: nat, dev: Device, m: seq<nat>)
    requires Inv1(s) && wid in s.workers && s.workers[wid].HasEntries() && |m| == Lead(s).ringSlots
    requires RingRuns.Inv(RingOf(Lead(s), s.full, dev), m)
    ensures var w := s.workers[wid];
            && w.next + w.req.numEntries <= |s.full| && m != [] && SlotsOn(m, |dev|)
            && OnLeader(dev, m, w.req.startSlot, FlightRecords(s, w))
            && Sum(RingRuns.RecordNeeds(FlightRecords(s, w)), w.req.numEntries) == w.req.blockLength
  {
    hide *;
    InvParts(s);
    FlightParts(s, wid);
    var n, w := Lead(s), s.workers[wid];
    FlightInside(n, s.full, w);
    var recs := FlightRecords(s, w);
    forall j | 0 <= j < |recs| ensures HasSlots(n.logSlotMap, w.next, recs, j) {
      FlightInOnePiece(n, s.full, w, j);
      FlightRecordFits(n, s.full, w, j, recs);
    }
    FlightInOnePiece(n, s.full, w, 0);
    SpanIsNeeds(n.logSlotMap, w.next, recs, w.req.numEntries);
    RingFields(n, s.full, dev);
    RingDevice(RingOf(n, s.full, dev), m);
    forall j | 0 <= j < |recs| ensures RecordedAs(RingOf(n, s.full, dev), w.next, recs, w.req.startSlot, j) {
      FlightInOnePiece(n, s.full, w, j);
      SpanIsNeeds(n.logSlotMap, w.next, recs, j);
      IsRecordedAs(RingOf(n, s.full, dev), w.next, recs, w.req.startSlot, j);
    }
    FlightSlice(s, w);
    LiveBatchOnLeader(RingOf(n, s.full, dev), m, w.next, recs, w.req.startSlot);
  }

  lemma FlightInside(n: Node, full: seq<Entry>, w: Worker)
    requires FlightOk(n, w) && n.tailLogIndex == |full| && w.HasEntries()
    ensures 0 < w.req.numEntries && w.next + w.req.numEntries <= |full|
  {}

  lemma FlightRecordFits(n: Node, full: seq<Entry>, w: Worker, j: nat, recs: seq<Record>)
    requires LeaderRing(n, full) && w.next + j in n.logSlotMap && j < |recs|
    requires w.next + j < |full| && recs[j] == Record(full[w.next + j].term, full[w.next + j].command, w.next + j)
    ensures HasSlots(n.logSlotMap, w.next, recs, j)
  {
    hide RingOk;
    hide SlotAgreement.Chained;
    assert RecordFits(n.logSlotMap, full, n.ringSlots, w.next + j);
  }

  lemma RingDevice(r: RingRuns.RingState, m: seq<nat>)
    requires RingRuns.Inv(r, m)
    ensures m != [] && SlotsOn(m, |r.dev|)
  {
    hide RingOk;
    hide SlotsOn;
  }

  lemma IsRecordedAs(r: RingRuns.RingState, first: nat, recs: seq<Record>, start: nat, k: nat)
    requires k < |recs| && |RingRuns.RecordNeeds(recs)| == |recs|
    requires first + k in r.live && r.live[first + k].start == start + Sum(RingRuns.RecordNeeds(recs), k)
    ensures RecordedAs(r, first, recs, start, k)
  {}

  lemma FlightSlice(s: Sys, w: Worker)
    requires w.next + w.req.numEntries <= |s.full|
    ensures FlightRecords(s, w) == Records(s.full)[w.next..w.next + w.req.numEntries]
  {}

  // ---------------------------------------------------------------- the whole path

  /** The announced lengths are the real ones as long as the leader has not applied the entries. */
  lemma AnnouncedInFullLength(s: Sys, fi: nat, wid: nat)
    requires Inv1(s) && Enabled(s, Send(fi, wid)) && SendAE(Lead(s), fi, s.cfg).Sent?
    requires SendAE(Lead(s), fi, s.cfg).worker.next >= Lead(s).lastApplied
    ensures var w := SendAE(Lead(s), fi, s.cfg).worker;
            && |w.req.metas| == w.req.numEntries && w.next + w.req.numEntries <= |s.full|
            && forall j :: 0 <= j < w.req.numEntries ==>
              w.req.metas[j] == EntryMeta(s.full[w.next + j].term, |s.full[w.next + j].command|)
  {
    hide LeaderRing;
    hide Network;
    hide CommitsHeld;
    hide SendAE;
    SendFits(s, fi, wid);
    var n, w := Lead(s), SendAE(Lead(s), fi, s.cfg).worker;
    SendFacts(n, fi, s.cfg);
    assert PeerOk(s, fi);
    forall j | 0 <= j < w.req.numEntries
      ensures w.req.metas[j] == EntryMeta(s.full[w.next + j].term, |s.full[w.next + j].command|)
    {
      assert EntryAt(n, w.next + j) == Seen(s.full[w.next + j], w.next + j, s.c0, n.commitIndex, s.a0, n.lastApplied);
      assert w.req.metas[j] == MetaOf(EntryAt(n, w.next + j));
    }
  }

  /** The address in the request is that of the start slot. */
  lemma AnnouncedAddress(s: Sys, fi: nat, wid: nat, base: nat)
    requires Inv1(s) && Enabled(s, Send(fi, wid)) && SendAE(Lead(s), fi, s.cfg).Sent?
    requires SendAE(Lead(s), fi, s.cfg).worker.HasEntries()
    requires base > 0 && s.cfg.extents == OneExtent(base, Lead(s).ringSlots)
    ensures var w := SendAE(Lead(s), fi, s.cfg).worker;
            w.fi == fi && w.req.pbaSrc == base + SlotOffset(w.req.startSlot)
  {
    hide LeaderRing;
    hide Network;
    hide CommitsHeld;
    hide Tracks;
    hide SendAE;
    hide ChooseBatch;
    SendFits(s, fi, wid);
    var n := Lead(s);
    assert PeerOk(s, fi) && PeerInStep(n, fi);
    SendFacts(n, fi, s.cfg);
    RequestCarriesChoice(n, fi, s.cfg);
    BatchFound(n, s.full, n.cluster[fi].nextIndex, s.cfg, base);
  }

  /** Worker `wid` is out with `w`. */
  predicate OutWith(s: Sys, wid: nat, w: Worker) {
    wid in s.workers && s.workers[wid] == w
  }

  /** The data path, from append to decode, over every run of a first leader. A batch of entries that the leader
      has not applied yet is announced at step `k`. The follower, on any layout, splits and copies it as requested.
      The copy workers, any number of them in any interleaving, read the leader's device at any moments up to state
      `k2`, while the announcing worker is out and the leader goes on appending, and the copy comes back without
      error. Then the decoder returns, at every slot the follower computed for the batch, the term and the command
      that were appended at that index. */
  lemma {:induction false} FollowerDecodesWhatWasAppended(
      run: seq<Sys>, steps: seq<Step>, devs: seq<Device>, m: seq<nat>, base: nat, k: nat, k2: nat, w: Worker,
      es: seq<Extent>, fdev: Device, fdev': Device, chunks: seq<Chunk>, cuts: seq<nat>,
      copy: seq<BlockCopy.CopyState>, workers: nat, j: nat)
    requires DeviceRun(run, steps, devs, m) && k < |steps| && k < k2 < |run| && LaunchedAt(run, steps, k, w)
    requires w.HasEntries() && w.next >= Lead(run[k]).lastApplied && j < w.req.numEntries
    requires forall t :: k < t <= k2 ==> OutWith(run[t], steps[k].wid, w)
    requires |m| > 0 && Layout(OneExtent(base, |m|), SlotOffset(|m|)) && m == SlotMap(OneExtent(base, |m|), |m|)
    requires forall t :: k < t <= k2 ==> LeaderDevice(devs[t], base, |m|)
    requires run[k].cfg.extents == OneExtent(base, |m|)
    requires Replicated(devs[k + 1..k2 + 1], fdev, fdev', es, |m|, w.req.pbaSrc, w.req.startSlot, w.req.blockLength,
                        chunks, cuts, copy, workers)
    ensures Mounted(fdev', es, |m|) && SlotsOn(SlotMap(es, |m|), |fdev'|)
    ensures |w.req.metas| == w.req.numEntries && w.next + j < |run[k2].full|
    ensures var slot := SlotFor(w.req.metas, w.req.startSlot, |m|, j);
            && slot < |m|
            && ReadSpec(fdev', SlotMap(es, |m|), slot).term == run[k2].full[w.next + j].term
            && ReadSpec(fdev', SlotMap(es, |m|), slot).command == run[k2].full[w.next + j].command
  {
    hide *;
    RunParts(run, steps, devs, m, k, k2);
    LaunchParts(run, steps, k, w);
    BasePositive(devs[k2], base, |m|);
    AnnouncedInFullLength(run[k], steps[k].fi, steps[k].wid);
    AnnouncedAddress(run[k], steps[k].fi, steps[k].wid, base);
    var srcs := devs[k + 1..k2 + 1];
    FlightThroughout(run, steps, devs, m, base, k, k2, k2, w);
    var recs := FlightRecords(run[k2], w);
    forall t | 0 <= t < |srcs| ensures LeaderHolds(srcs[t], base, |m|, w.req.startSlot, recs) {
      FlightThroughout(run, steps, devs, m, base, k, k2, k + 1 + t, w);
    }
    AnnouncesFlight(run[k2], w);
    FollowerDecodesWhatLeaderEncoded(srcs, base, fdev, fdev', es, |m|, w.req.startSlot, recs, w.req.metas,
                                     chunks, cuts, copy, workers, j);
  }

  lemma AnnouncesFlight(s: Sys, w: Worker)
    requires w.next + w.req.numEntries <= |s.full| && |w.req.metas| == w.req.numEntries
    requires forall j :: 0 <= j < w.req.numEntries ==>
               w.req.metas[j] == EntryMeta(s.full[w.next + j].term, |s.full[w.next + j].command|)
    ensures Announces(w.req.metas, FlightRecords(s, w))
  {}

  /** In every state while the worker is out, the leader's device holds the batch as the last one of them sees it. */
  lemma FlightThroughout(run: seq<Sys>, steps: seq<Step>, devs: seq<Device>, m: seq<nat>, base: nat, k: nat, k2: nat,
                         t: nat, w: Worker)
    requires DeviceRun(run, steps, devs, m) && k < |steps| && k < t <= k2 < |run| && |devs| == |run| && w.HasEntries()
    requires steps[k].Send? && OutWith(run[t], steps[k].wid, w) && LeaderDevice(devs[t], base, |m|)
    requires Layout(OneExtent(base, |m|), SlotOffset(|m|)) && m == SlotMap(OneExtent(base, |m|), |m|)
    ensures w.next + w.req.numEntries <= |run[k2].full|
    ensures LeaderHolds(devs[t], base, |m|, w.req.startSlot, FlightRecords(run[k2], w))
    ensures |FlightRecords(run[k2], w)| == w.req.numEntries == |RingRuns.RecordNeeds(FlightRecords(run[k2], w))|
    ensures Sum(RingRuns.RecordNeeds(FlightRecords(run[k2], w)), w.req.numEntries) == w.req.blockLength
  {
    hide *;
    StateParts(run, steps, devs, m, t, k2);
    IsOut(run[t], steps[k].wid, w);
    FlightOnDevice(run[t], steps[k].wid, devs[t], m);
    SameFlight(run[t], run[k2], w);
    IsLeaderHolds(devs[t], base, m, w.req.startSlot, FlightRecords(run[k2], w));
  }

  lemma IsOut(s: Sys, wid: nat, w: Worker)
    requires OutWith(s, wid, w)
    ensures wid in s.workers && s.workers[wid] == w
  {}

  lemma IsLeaderHolds(dev: Device, base: nat, m: seq<nat>, start: nat, recs: seq<Record>)
    requires LeaderDevice(dev, base, |m|) && Layout(OneExtent(base, |m|), SlotOffset(|m|))
    requires m == SlotMap(OneExtent(base, |m|), |m|)
    requires m != [] && SlotsOn(m, |dev|) && OnLeader(dev, m, start, recs)
    ensures LeaderHolds(dev, base, |m|, start, recs)
  {
    hide OnLeader;
    hide Layout;
    hide SlotsOn;
  }

  lemma SameFlight(s: Sys, s2: Sys, w: Worker)
    requires s.full <= s2.full && w.next + w.req.numEntries <= |s.full|
    ensures w.next + w.req.numEntries <= |s2.full| && FlightRecords(s2, w) == FlightRecords(s, w)
    ensures |RingRuns.RecordNeeds(FlightRecords(s2, w))| == |FlightRecords(s2, w)| == w.req.numEntries
  {
    hide SlotsForEntry;
  }

  /** Step `k` is Lock B of a worker that then waits as `w`. */
  ghost predicate LaunchedAt(run: seq<Sys>, steps: seq<Step>, k: nat, w: Worker) {
    && k < |steps| == |run| - 1 && steps[k].Send? && Enabled(run[k], steps[k])
    && SendAE(Lead(run[k]), steps[k].fi, run[k].cfg).Sent? && SendAE(Lead(run[k]), steps[k].fi, run[k].cfg).worker == w
  }

  lemma LaunchParts(run: seq<Sys>, steps: seq<Step>, k: nat, w: Worker)
    requires LaunchedAt(run, steps, k, w) && run[k].ld < |run[k].nodes|
    ensures SendReady(Lead(run[k]), steps[k].fi) && steps[k] == Send(steps[k].fi, steps[k].wid)
    ensures SendAE(Lead(run[k]), steps[k].fi, run[k].cfg).Sent?
    ensures SendAE(Lead(run[k]), steps[k].fi, run[k].cfg).worker == w
  {
    hide SendAE;
  }

  lemma BasePositive(dev: Device, base: nat, ringSlots: nat)
    requires LeaderDevice(dev, base, ringSlots)
    ensures base > 0
  {}

  /** What the run theorems say about a step and a later state. */
  lemma RunParts(run: seq<Sys>, steps: seq<Step>, devs: seq<Device>, m: seq<nat>, k: nat, k2: nat)
    requires DeviceRun(run, steps, devs, m) && k < |steps| && k < k2 < |run|
    ensures |run| == |steps| + 1 == |devs| && Enabled(run[k], steps[k])
    ensures Inv1(run[k]) && run[k].ld < |run[k].nodes| && |m| == Lead(run[k]).ringSlots && run[k].full <= run[k2].full
  {
    StateParts(run, steps, devs, m, k, k2);
    hide Inv1;
    hide RingRuns.Inv;
    hide Enabled;
    hide Start;
    hide FirstTerm;
  }

  /** What they say about a state, and about how it relates to a later one. */
  lemma StateParts(run: seq<Sys>, steps: seq<Step>, devs: seq<Device>, m: seq<nat>, t: nat, k2: nat)
    requires DeviceRun(run, steps, devs, m) && t <= k2 < |run|
    ensures |run| == |devs| && Inv1(run[t]) && run[t].ld < |run[t].nodes| && |m| == Lead(run[t]).ringSlots
    ensures RingRuns.Inv(RingOf(Lead(run[t]), run[t].full, devs[t]), m)
    ensures run[t].full <= run[k2].full
  {
    hide Inv1;
    hide RingRuns.Inv;
    hide Enabled;
    hide Start;
    hide FirstTerm;
    DeviceRunKeepsRecords(run, steps, devs, m, t);
    FirstRunKeepsInv(run, steps, t);
    RunGoesForward(run, steps, t, k2);
  }
}
