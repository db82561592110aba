/** The server object: its handlers as methods that change the fields under `mu`, each proved against the state
    transformation that the lemmas of the other modules reason about. */
module Servers {
  import opened Basics
  import opened Extents
  import opened EntryCodec
  import opened Ring
  import opened RingRuns
  import opened Types
  import opened Batch
  import opened Progress
  import opened Commit
  import opened Election
  import opened Follower

  class Server {
    // raft state
    var currentTerm: nat
    var log: seq<Entry>
    const id: nat
    var commitIndex: nat
    var lastApplied: nat
    var role: Role
    var cluster: seq<Member>
    const clusterIndex: nat
    // ring log
    var tailLogIndex: nat
    var tailSlot: nat
    var headSlot: nat
    var gcUpTo: nat
    var gcHasRun: bool
    var logSlotMap: LogSlotMap
    const ringSlots: nat
    const logTrimThreshold: nat
    var persistedInit: bool
    var persistedTerm: nat
    var persistedVotedFor: nat
    // the header sector, the ring sectors, and the state machine's input
    var diskTerm: nat
    var diskVotedFor: nat
    var device: Device
    const slots: seq<nat>
    var applied: seq<seq<Byte>>

    /** The server as the value the specifications speak about. */
    ghost function View(): Node
      reads this
    {
      Node(currentTerm, log, id, commitIndex, lastApplied, role, cluster, clusterIndex, tailLogIndex, tailSlot,
           headSlot,
           gcUpTo, gcHasRun, logSlotMap, ringSlots, logTrimThreshold, persistedInit, persistedTerm, persistedVotedFor,
           diskTerm, diskVotedFor)
    }

    /** The ring sectors are on the device. */
    ghost predicate DeviceOk()
      reads this
    {
      |slots| == ringSlots && SlotsOn(slots, |device|) && tailSlot <= ringSlots
    }

    /** `init_storage` on a fresh file. */
    constructor (id: nat, clusterSize: nat, clusterIndex: nat, ringSlots: nat, trimThreshold: nat, slots: seq<nat>,
                 device: Device)
      requires clusterIndex < clusterSize
      ensures LogOk(View()) && ClusterOk(View()) && Durable(View())
      ensures View() == Node(0, [SENTINEL], id, 0, 1, Follower, seq(clusterSize, _ => Member(0, 0, 0, false)),
                             clusterIndex,
                             1, 0, 0, 0, false, map[], ringSlots, trimThreshold, false, 0, 0, 0, 0)
      ensures applied == [] && this.slots == slots && this.device == device
    {
      this.id, this.clusterIndex, this.ringSlots, logTrimThreshold := id, clusterIndex, ringSlots, trimThreshold;
      this.slots, this.device := slots, device;
      log := [SENTINEL];
      cluster := seq(clusterSize, _ => Member(0, 0, 0, false));
      logSlotMap, headSlot, gcUpTo, gcHasRun := map[], 0, 0, false;
      currentTerm, persistedInit, persistedTerm, persistedVotedFor := 0, false, 0, 0;
      diskTerm, diskVotedFor := 0, 0;
      tailLogIndex, tailSlot, commitIndex, lastApplied := 1, 0, 0, 1;
      role := Follower;
      applied := [];
    }

    // -------------------------------------------------------------- persistence

    /** The header part of `persist_circular`: written only if term or vote differ from what was last written. */
    method WriteHeader()
      requires ClusterOk(View())
      modifies this`persistedInit, this`persistedTerm, this`persistedVotedFor, this`diskTerm, this`diskVotedFor
      ensures View() == PersistHeader(old(View()))
    {
      var vote := cluster[clusterIndex].votedFor;
      if !persistedInit || currentTerm != persistedTerm || vote != persistedVotedFor {
        diskTerm, diskVotedFor := currentTerm, vote;
        persistedInit, persistedTerm, persistedVotedFor := true, currentTerm, vote;
      }
    }

    /** `persist_circular` with the newest `k` entries: they are encoded and written to the ring, recorded if the
        server leads, and the header follows. */
    method PersistCircular(k: nat)
      requires LogOk(View()) && ClusterOk(View()) && k < |log| && DeviceOk()
      requires FitRing(NewestRecords(View(), k), ringSlots)
      modifies this`tailSlot, this`logSlotMap, this`device,
               this`persistedInit, this`persistedTerm, this`persistedVotedFor, this`diskTerm, this`diskVotedFor
      ensures View() == PersistLog(old(View()), k)
      ensures DeviceOk() && |device| == |old(device)|
      ensures device == DeviceAfter(old(device), slots, NewestRecords(old(View()), k), old(tailSlot), k)
    {
      hide Ptr;
      hide Recorded;
      hide DeviceAfter;
      hide PersistHeader;
      hide PersistLog;
      hide SlotsOn;
      hide FitRing;
      hide RecordNeeds;
      hide NewestNeeds;
      ghost var n := View();
      var l, first := log, tailLogIndex - k;
      var recs := seq(k, i requires 0 <= i < k => Record(l[|l| - k + i].term, l[|l| - k + i].command, first + i));
      ghost var needs := NewestNeeds(n, k);
      assert recs == NewestRecords(n, k);
      SameNeeds(n, k);
      var dev, tail, places := PersistEntries(device, slots, recs, tailSlot);
      RecordPlaces(first, places, needs, tailSlot);
      device, tailSlot := dev, tail;
      ghost var n1 := View();
      WriteHeader();
      PersistedIs(n, n1, View(), k, first);
    }

    /** Enters the places of a batch into the slot map; only a leader does. */
    method RecordPlaces(first: nat, places: seq<SlotRecord>, ghost needs: seq<nat>, ghost slot: nat)
      requires |places| == |needs| && forall i :: 0 <= i < |places| ==> places[i] == PlaceOf(needs, slot, ringSlots, i)
      modifies this`logSlotMap
      ensures logSlotMap == if role.Leader? then Recorded(old(logSlotMap), first, needs, slot, ringSlots, |needs|)
          else old(logSlotMap)
    {
      if role.Leader? {
        var i := 0;
        while i < |places|
          invariant 0 <= i <= |places|
          invariant logSlotMap == Recorded(old(logSlotMap), first, needs, slot, ringSlots, i)
        {
          logSlotMap := logSlotMap[first + i := places[i]];
          i := i + 1;
        }
      }
    }

    // -------------------------------------------------------------- terms and votes

    method SetVotedFor(v: nat)
      requires ClusterOk(View())
      modifies this`cluster
      ensures View() == Election.SetVotedFor(old(View()), v)
    {
      cluster := cluster[clusterIndex := cluster[clusterIndex].(votedFor := v)];
    }

    method UpdateTerm(term: nat) returns (demoted: bool)
      requires ClusterOk(View())
      modifies this`currentTerm, this`role, this`cluster,
               this`persistedInit, this`persistedTerm, this`persistedVotedFor, this`diskTerm, this`diskVotedFor
      ensures View() == Election.UpdateTerm(old(View()), term) && demoted == (term > old(currentTerm))
      ensures |cluster| == |old(cluster)|
    {
      hide PersistHeader;
      if term > currentTerm {
        currentTerm := term;
        role := Follower;
        SetVotedFor(0);
        WriteHeader();
        return true;
      }
      return false;
    }

    /** `timeout`, once the timer has run out. */
    method ElectionTimeout()
      requires ClusterOk(View())
      modifies this`currentTerm, this`role, this`cluster,
               this`persistedInit, this`persistedTerm, this`persistedVotedFor, this`diskTerm, this`diskVotedFor
      ensures View() == Timeout(old(View()))
    {
      hide PersistHeader;
      role := Candidate;
      currentTerm := currentTerm + 1;
      VoteForSelfOnly();
      WriteHeader();
    }

    method VoteForSelfOnly()
      modifies this`cluster
      ensures cluster == OwnVoteOnly(old(View()))
    {
      ghost var was := cluster;
      var i := 0;
      while i < |cluster|
        invariant 0 <= i <= |cluster| == |was|
        invariant forall j :: 0 <= j < i ==> cluster[j] == was[j].(votedFor := if j == clusterIndex then id else 0)
        invariant forall j :: i <= j < |was| ==> cluster[j] == was[j]
      {
        cluster := cluster[i := cluster[i].(votedFor := if i == clusterIndex then id else 0)];
        i := i + 1;
      }
    }

    /** The first half of `request_vote_worker`. */
    method MakeVoteRequest() returns (req: RVRequest)
      requires LogOk(View())
      ensures req == VoteRequest(View())
    {
      var lastLogTerm := 0;
      if |log| > 1 {
        lastLogTerm := log[|log| - 1].term;
      }
      req := RVRequest(currentTerm, id, tailLogIndex - 1, lastLogTerm);
    }

    method HandleRequestVote(req: RVRequest) returns (rsp: RVResponse)
      requires LogOk(View()) && ClusterOk(View())
      modifies this`currentTerm, this`role, this`cluster,
               this`persistedInit, this`persistedTerm, this`persistedVotedFor, this`diskTerm, this`diskVotedFor
      ensures (View(), rsp) == HandleVote(old(View()), req)
    {
      hide PersistHeader;
      var _ := UpdateTerm(req.term);
      ghost var n1 := View();
      if req.term < currentTerm {
        return RVResponse(currentTerm, false);
      }
      var lastLogTerm := 0;
      if |log| > 1 {
        lastLogTerm := log[|log| - 1].term;
      }
      var logLen := tailLogIndex - 1;
      var logOk := req.lastLogTerm > lastLogTerm || (req.lastLogTerm == lastLogTerm && req.lastLogIndex >= logLen);
      var voted := cluster[clusterIndex].votedFor;
      if req.term == currentTerm && logOk && (voted == 0 || voted == req.candidateId) {
        assert Grants(n1, req);
        SetVotedFor(req.candidateId);
        WriteHeader();
        return RVResponse(currentTerm, true);
      }
      return RVResponse(currentTerm, false);
    }

    /** The second half of `request_vote_worker`. */
    method TakeVoteReply(peer: nat, req: RVRequest, rsp: RVResponse)
      requires ClusterOk(View()) && peer < |cluster|
      modifies this`currentTerm, this`role, this`cluster,
               this`persistedInit, this`persistedTerm, this`persistedVotedFor, this`diskTerm, this`diskVotedFor
      ensures View() == CountVote(old(View()), peer, req, rsp)
    {
      hide PersistHeader;
      var demoted := UpdateTerm(rsp.term);
      if demoted || rsp.term != req.term {
        return;
      }
      if rsp.voteGranted {
        cluster := cluster[peer := cluster[peer].(votedFor := id)];
      }
    }

    // -------------------------------------------------------------- promotion

    method CountVotes() returns (elected: bool)
      ensures elected == Elected(View())
    {
      var quorum: nat := |cluster| / 2 + 1;
      var i := 0;
      while i < |cluster|
        invariant 0 <= i <= |cluster|
        invariant quorum == if Supporters(View(), i) >= |cluster| / 2 + 1 then 0
            else |cluster| / 2 + 1 - Supporters(View(), i)
      {
        if cluster[i].votedFor == id && quorum > 0 {
          quorum := quorum - 1;
        }
        i := i + 1;
      }
      elected := quorum == 0;
    }

    /** Loads the commands of entries that are known by their ring slot only. */
    method LoadDeferred(read: Reader)
      requires log != []
      modifies this`log
      ensures log == LoadLog(old(log), read)
    {
      ghost var was := log;
      var i := 1;
      while i < |log|
        invariant 1 <= i <= |log| == |was| && log[0] == was[0]
        invariant forall p :: 1 <= p < i ==> log[p] == Loaded(was[p], read)
        invariant forall p :: i <= p < |was| ==> log[p] == was[p]
      {
        var e := log[i];
        if e.command == [] && e.ringSlot != 0 {
          var r := read(e.ringSlot);
          if r.Some? {
            log := log[i := e.(command := r.value, ringSlot := 0)];
          }
        }
        i := i + 1;
      }
    }

    /** Applies committed entries without clearing them, as a new leader does. */
    method ApplyLoaded()
      requires LogOk(View()) && role.Leader?
      modifies this`lastApplied, this`applied
      ensures View() == old(View()).(lastApplied := ApplyEnd(old(View())))
      ensures applied == old(applied) + ApplyOutput(old(View()))
    {
      ghost var n := View();
      var oldest := tailLogIndex - (|log| - 1);
      while lastApplied >= oldest && lastApplied < tailLogIndex && lastApplied <= commitIndex
        invariant n.lastApplied <= lastApplied <= ApplyEnd(n)
        invariant lastApplied == n.lastApplied ==> applied == old(applied)
        invariant lastApplied > n.lastApplied ==> oldest <= n.lastApplied && lastApplied <= tailLogIndex &&
                                                  applied == old(applied) + CommandsOf(n, n.lastApplied, lastApplied)
        decreases tailLogIndex - lastApplied
      {
        var e := log[1 + (lastApplied - oldest)];
        if e.command != [] {
          applied := applied + [e.command];
        }
        lastApplied := lastApplied + 1;
      }
    }

    method ResetProgress(next: nat)
      modifies this`cluster
      ensures cluster == FreshProgress(old(cluster), next)
    {
      ghost var was := cluster;
      var i := 0;
      while i < |cluster|
        invariant 0 <= i <= |cluster| == |was|
        invariant forall j :: 0 <= j < i ==> cluster[j] == was[j].(nextIndex := next, matchIndex := 0)
        invariant forall j :: i <= j < |was| ==> cluster[j] == was[j]
      {
        cluster := cluster[i := cluster[i].(nextIndex := next, matchIndex := 0)];
        i := i + 1;
      }
    }

    /** The first half of `become_leader`, for a server that has its quorum. */
    method Promote(read: Reader)
      requires LogOk(View())
      modifies this`role, this`headSlot, this`gcUpTo, this`gcHasRun, this`log, this`lastApplied, this`applied
      ensures View() == Promoted(old(View()), read)
      ensures applied == old(applied) + ApplyOutput(Promoted(old(View()), read).(lastApplied := old(lastApplied)))
    {
      hide IsHead;
      hide LoadLog;
      hide ApplyEnd;
      hide ApplyOutput;
      hide Promoted;
      ghost var n := View();
      role := Leader;
      headSlot := RecomputeHead(logSlotMap, tailSlot);
      gcUpTo, gcHasRun := 0, false;
      LoadDeferred(read);
      PromotedIs(n, View(), read);
      ApplyLoaded();
    }

    method BecomeLeader(read: Reader)
      requires LogOk(View()) && ClusterOk(View()) && DeviceOk() && ringSlots >= 1
      modifies this`role, this`headSlot, this`gcUpTo, this`gcHasRun, this`log, this`lastApplied, this`applied,
               this`cluster, this`tailLogIndex, this`tailSlot, this`logSlotMap, this`device,
               this`persistedInit, this`persistedTerm, this`persistedVotedFor, this`diskTerm, this`diskVotedFor
      ensures View() == Election.BecomeLeader(old(View()), read) && DeviceOk()
      ensures applied == old(applied) + if Elected(old(View()))
                                        then ApplyOutput(Promoted(old(View()), read).(lastApplied := old(lastApplied)))
                                            else []
      ensures FitRing(Noop(old(View())), ringSlots)
      ensures device == if Elected(old(View()))
          then DeviceAfter(old(device), slots, Noop(old(View())), old(tailSlot), 1) else old(device)
    {
      NoopFits(View());
      hide FitRing;
      hide Noop;
      hide Election.BecomeLeader;
      hide Elected;
      hide Promoted;
      hide ApplyOutput;
      hide DeviceAfter;
      hide SlotsOn;
      var elected := CountVotes();
      if elected {
        Promote(read);
        FinishPromotion(old(View()), read);
      }
    }

    /** The second half of `become_leader`. */
    method FinishPromotion(ghost n: Node, read: Reader)
      requires LogOk(n) && ClusterOk(n) && Elected(n) && View() == Promoted(n, read)
      requires ClusterOk(View()) && DeviceOk() && ringSlots >= 1
      requires n.currentTerm == currentTerm && n.tailLogIndex == tailLogIndex
      modifies this`log, this`cluster, this`tailLogIndex, this`tailSlot, this`logSlotMap, this`device,
               this`persistedInit, this`persistedTerm, this`persistedVotedFor, this`diskTerm, this`diskVotedFor
      ensures View() == Election.BecomeLeader(n, read) && DeviceOk()
      ensures FitRing(Noop(n), ringSlots)
      ensures device == DeviceAfter(old(device), slots, Noop(n), old(tailSlot), 1)
    {
      hide PersistLog;
      hide Elected;
      hide Promoted;
      hide DeviceAfter;
      hide SlotsOn;
      hide FitRing;
      AddNoop();
      ResetProgress(tailLogIndex - 1);
    }

    method AddNoop()
      requires LogOk(View()) && ClusterOk(View()) && DeviceOk() && ringSlots >= 1
      modifies this`log, this`tailLogIndex, this`tailSlot, this`logSlotMap, this`device,
               this`persistedInit, this`persistedTerm, this`persistedVotedFor, this`diskTerm, this`diskVotedFor
      ensures var n := old(View());
              View() == PersistLog(n.(log := n.log + [Entry([], n.currentTerm, Waiting, 0, 0)],
                                      tailLogIndex := n.tailLogIndex + 1), 1)
      ensures DeviceOk() && tailLogIndex == old(tailLogIndex) + 1
      ensures FitRing(Noop(old(View())), ringSlots)
      ensures device == DeviceAfter(old(device), slots, Noop(old(View())), old(tailSlot), 1)
    {
      hide PersistLog;
      hide DeviceAfter;
      hide SlotsOn;
      hide NewestRecords;
      ghost var n := View();
      log := log + [Entry([], currentTerm, Waiting, 0, 0)];
      tailLogIndex := tailLogIndex + 1;
      NoopRecord(n, View());
      PersistCircular(1);
    }

    // -------------------------------------------------------------- commit and apply

    method CollectMatches() returns (matches: seq<nat>)
      requires LogOk(View())
      ensures matches == Matches(View())
    {
      matches := [];
      var j := 0;
      while j < |cluster|
        invariant 0 <= j <= |cluster| && |matches| == j
        invariant forall i :: 0 <= i < j ==>
                    matches[i] == if i == clusterIndex then tailLogIndex - 1 else cluster[i].matchIndex
      {
        matches := matches + [if j == clusterIndex then tailLogIndex - 1 else cluster[j].matchIndex];
        j := j + 1;
      }
    }

    /** Raises the signals of the entries in (from, to]. */
    method SignalCommitted(from: nat, to: nat)
      requires LogOk(View()) && from <= to
      modifies this`log
      ensures log == SignalLog(old(View()), from, to)
    {
      ghost var n := View();
      var oldest := tailLogIndex - (|log| - 1);
      var idx := from + 1;
      while idx <= to
        invariant from + 1 <= idx <= to + 1 && |log| == |n.log| && log[0] == n.log[0]
        invariant forall p :: 1 <= p < |log| ==>
                    log[p] == if from < IndexOf(n, p) < idx then Signal1(n.log[p]) else n.log[p]
      {
        if idx >= oldest && idx < tailLogIndex {
          var slice := 1 + (idx - oldest);
          if !log[slice].committed.Dropped? {
            log := log[slice := log[slice].(committed := Signalled)];
          }
        }
        idx := idx + 1;
      }
    }

    method AdvanceCommitIndex()
      requires CommitReady(View())
      modifies this`commitIndex, this`log
      ensures View() == AdvanceCommit(old(View()))
    {
      hide SortDesc;
      hide SignalLog;
      if role.Leader? {
        var matches := CollectMatches();
        var sorted := SortDesc(matches);
        var majorityIdx := sorted[|sorted| / 2];
        if majorityIdx > commitIndex && majorityIdx < tailLogIndex {
          var oldest := tailLogIndex - (|log| - 1);
          if log[1 + (majorityIdx - oldest)].term == currentTerm {
            SignalCommitted(commitIndex, majorityIdx);
            commitIndex := majorityIdx;
          }
        }
      }
    }

    /** `apply_pending`. The batch limit only resets a counter: the lock is not released there. */
    method ApplyCommitted()
      requires LogOk(View())
      modifies this`log, this`lastApplied, this`applied
      ensures View() == ApplyPending(old(View()))
      ensures applied == old(applied) + ApplyOutput(old(View()))
    {
      hide ClearLog;
      NothingCleared(View(), lastApplied);
      if role.Leader? {
        ApplyLoop();
      }
    }

    method ApplyLoop()
      requires LogOk(View()) && role.Leader?
      modifies this`log, this`lastApplied, this`applied
      ensures lastApplied == ApplyEnd(old(View())) && log == ClearLog(old(View()), old(lastApplied), lastApplied)
      ensures applied == old(applied) + ApplyOutput(old(View()))
    {
      hide ClearLog;
      ghost var n := View();
      NothingCleared(n, n.lastApplied);
      ghost var out: seq<seq<Byte>> := [];
      var inBatch := 0;
      var oldest := tailLogIndex - (|log| - 1);
      while lastApplied >= oldest && lastApplied < tailLogIndex && lastApplied <= commitIndex
        invariant oldest == Oldest(n) && log == ClearLog(n, n.lastApplied, lastApplied)
        invariant n.lastApplied <= lastApplied <= ApplyEnd(n)
        invariant applied == old(applied) + out
        invariant lastApplied == n.lastApplied ==> out == []
        invariant lastApplied > n.lastApplied ==> oldest <= n.lastApplied && lastApplied <= tailLogIndex &&
                                                  out == CommandsOf(n, n.lastApplied, lastApplied)
        decreases tailLogIndex - lastApplied
      {
        ghost var c := EntryAt(n, lastApplied).command;
        ApplyNext(oldest, n);
        out := out + (if c == [] then [] else [c]);
        inBatch := inBatch + 1;
        if inBatch >= 64 {
          oldest := tailLogIndex - (|log| - 1);
          inBatch := 0;
        }
      }
    }

    /** Hands the next entry to the state machine and clears it. */
    method ApplyNext(oldest: nat, ghost n: Node)
      requires LogOk(n) && oldest == Oldest(n) <= n.lastApplied <= lastApplied < n.tailLogIndex
      requires log == ClearLog(n, n.lastApplied, lastApplied)
      modifies this`log, this`lastApplied, this`applied
      ensures lastApplied == old(lastApplied) + 1 && log == ClearLog(n, n.lastApplied, lastApplied)
      ensures var c := EntryAt(n, old(lastApplied)).command; applied == old(applied) + (if c == [] then [] else [c])
    {
      ClearStep(n, n.lastApplied, lastApplied);
      hide ClearLog;
      var slice := 1 + (lastApplied - oldest);
      var e := log[slice];
      if e.command != [] {
        applied := applied + [e.command];
      }
      log := log[slice := Entry([], e.term, Dropped, 0, |e.command|)];
      lastApplied := lastApplied + 1;
    }

    // -------------------------------------------------------------- collection

    method LeastMatch() returns (least: nat)
      requires LogOk(View())
      ensures least == MinMatch(View(), |cluster|)
    {
      least := tailLogIndex - 1;
      var j := 0;
      while j < |cluster|
        invariant 0 <= j <= |cluster|
        invariant least == MinMatch(View(), j)
      {
        if j != clusterIndex && cluster[j].matchIndex < least {
          least := cluster[j].matchIndex;
        }
        j := j + 1;
      }
    }

    method FreeRecords(upTo: nat) returns (freed: bool)
      modifies this`logSlotMap
      ensures logSlotMap == FreedMap(old(logSlotMap), gcUpTo, upTo)
      ensures freed == (logSlotMap != old(logSlotMap))
    {
      ghost var was := logSlotMap;
      freed := false;
      var idx := gcUpTo + 1;
      while idx <= upTo
        invariant gcUpTo + 1 <= idx <= Max(gcUpTo, upTo) + 1
        invariant forall i :: i in logSlotMap <==> i in was && !(gcUpTo < i < idx)
        invariant forall i :: i in logSlotMap ==> logSlotMap[i] == was[i]
        invariant freed <==> logSlotMap.Keys != was.Keys
        decreases upTo - idx + 1
      {
        if idx in logSlotMap {
          logSlotMap := logSlotMap - {idx};
          freed := true;
        }
        idx := idx + 1;
      }
      assert logSlotMap == FreedMap(was, gcUpTo, upTo);
    }

    method TrimLog(minMatch: nat)
      requires LogOk(View())
      modifies this`log
      ensures View() == Commit.TrimLog(old(View()), minMatch)
    {
      assert [log[0]] + log[1..] == log;
      if logTrimThreshold == 0 || |log| <= 1 {
        return;
      }
      var trimUpTo := if minMatch < lastApplied then minMatch else lastApplied;
      var oldest := tailLogIndex - (|log| - 1);
      if trimUpTo <= oldest {
        return;
      }
      var removable := trimUpTo - oldest;
      if removable < logTrimThreshold {
        return;
      }
      if removable > |log| - 1 {
        removable := |log| - 1;
      }
      log := [log[0]] + log[1 + removable..];
    }

    method CollectSlots()
      requires LogOk(View())
      modifies this`logSlotMap, this`gcUpTo, this`gcHasRun, this`headSlot, this`log
      ensures View() == DoSlotGc(old(View()))
    {
      hide IsHead;
      hide FreedMap;
      hide MinMatch;
      hide Commit.TrimLog;
      if !role.Leader? {
        return;
      }
      ghost var n := View();
      var minMatch := LeastMatch();
      var freed := FreeRecords(minMatch);
      gcUpTo, gcHasRun := minMatch, true;
      if freed {
        headSlot := RecomputeHead(logSlotMap, tailSlot);
        HeadIs(logSlotMap, tailSlot, headSlot);
      }
      TrimLog(minMatch);
    }

    // -------------------------------------------------------------- appending

    /** The append part of `apply_internal`: nothing happens unless the server leads and the ring has room. */
    method AppendBatch(commands: seq<seq<Byte>>) returns (taken: bool)
      requires LogOk(View()) && ClusterOk(View()) && DeviceOk()
      requires forall i :: 0 <= i < |commands| ==> SlotsForEntry(|commands[i]|) <= ringSlots
      modifies this`log, this`tailLogIndex, this`tailSlot, this`logSlotMap, this`device,
               this`persistedInit, this`persistedTerm, this`persistedVotedFor, this`diskTerm, this`diskVotedFor
      ensures taken == TakesBatch(old(View()), commands)
      ensures View() == if taken then AppendCommands(old(View()), commands) else old(View())
      ensures DeviceOk()
      ensures !taken ==> device == old(device)
      ensures taken ==>
                device == DeviceAfter(old(device), slots, BatchRecords(old(View()), commands), old(tailSlot),
                                      |commands|)
    {
      hide PersistLog;
      hide DeviceAfter;
      hide SlotsOn;
      hide CanWriteAll;
      if commands == [] || !role.Leader? {
        return false;
      }
      var room := CheckCanWriteAll(logSlotMap, tailSlot, headSlot, ringSlots, commands);
      if !room {
        return false;
      }
      ghost var n := View();
      PushEntries(commands);
      PushedRecords(n, View(), commands);
      PersistCircular(|commands|);
      taken := true;
    }

    method PushEntries(commands: seq<seq<Byte>>)
      modifies this`log, this`tailLogIndex
      ensures log == old(log) + NewEntries(currentTerm, commands)
      ensures tailLogIndex == old(tailLogIndex) + |commands|
    {
      var i := 0;
      while i < |commands|
        invariant 0 <= i <= |commands| && tailLogIndex == old(tailLogIndex) + i
        invariant log == old(log) + NewEntries(currentTerm, commands)[..i]
      {
        log := log + [Entry(commands[i], currentTerm, Waiting, 0, 0)];
        tailLogIndex := tailLogIndex + 1;
        i := i + 1;
      }
    }

    // -------------------------------------------------------------- AppendEntries, follower side

    method HearFrom(term: nat)
      requires ClusterOk(View())
      modifies this`currentTerm, this`role, this`cluster,
               this`persistedInit, this`persistedTerm, this`persistedVotedFor, this`diskTerm, this`diskVotedFor
      ensures View() == Heard(old(View()), term) && |cluster| == |old(cluster)|
    {
      hide PersistHeader;
      var _ := UpdateTerm(term);
      if term == currentTerm && role.Candidate? {
        role := Follower;
      }
    }

    /** The consistency check with its conflict hint. */
    method CheckPrev(req: AERequest) returns (conflict: Option<(nat, nat)>)
      requires LogOk(View())
      ensures conflict == PrevConflict(View(), req)
    {
      if req.prevLogIndex == 0 {
        return None;
      }
      if req.prevLogIndex >= tailLogIndex {
        return Some((0, tailLogIndex));
      }
      var oldest := tailLogIndex - (|log| - 1);
      if req.prevLogIndex >= oldest {
        var localTerm := log[1 + (req.prevLogIndex - oldest)].term;
        if localTerm != req.prevLogTerm {
          var ci := req.prevLogIndex;
          while ci > oldest && log[1 + (ci - 1 - oldest)].term == localTerm
            invariant oldest <= ci <= req.prevLogIndex
            invariant EntryAt(View(), ci).term == localTerm
            invariant ConflictStart(View(), ci) == ConflictStart(View(), req.prevLogIndex)
          {
            ci := ci - 1;
          }
          return Some((localTerm, ci));
        }
      }
      return None;
    }

    /** Builds the in-memory entries of a batch from their metadata and moves the write pointer over it. */
    method BuildLog(req: AERequest, skip: nat)
      requires |req.metas| == req.numEntries && tailSlot == req.startSlot
      modifies this`log, this`tailSlot
      ensures log == old(log) + NewDeferred(req.metas, req.startSlot, ringSlots, skip, req.numEntries)
      ensures tailSlot == SlotFor(req.metas, req.startSlot, ringSlots, req.numEntries)
    {
      hide NewDeferred;
      hide SlotsForEntry;
      var i := 0;
      while i < req.numEntries
        invariant 0 <= i <= req.numEntries
        invariant tailSlot == SlotFor(req.metas, req.startSlot, ringSlots, i)
        invariant log == old(log) + NewDeferred(req.metas, req.startSlot, ringSlots, skip, i)
      {
        DeferredStep(req.metas, req.startSlot, ringSlots, skip, i);
        var meta := req.metas[i];
        var needed := SlotsForEntry(meta.cmdLen);
        if i >= skip {
          log := log + [Entry([], meta.term, Waiting, tailSlot, meta.cmdLen)];
        }
        tailSlot := tailSlot + needed;
        if tailSlot >= ringSlots {
          tailSlot := 0;
        }
        i := i + 1;
      }
    }

    method FollowCommit(leaderCommit: nat)
      requires LogOk(View())
      modifies this`commitIndex
      ensures View() == TakeCommit(old(View()), leaderCommit)
    {
      if leaderCommit > commitIndex {
        commitIndex := if leaderCommit < tailLogIndex - 1 then leaderCommit else tailLogIndex - 1;
      }
    }

    /** The handler past the consistency check. */
    method AcceptBatch(req: AERequest, copyOk: bool) returns (rsp: AEResponse)
      requires LogOk(View()) && ClusterOk(View()) && req.prevLogIndex < tailLogIndex
      modifies this`log, this`tailSlot, this`tailLogIndex, this`commitIndex,
               this`persistedInit, this`persistedTerm, this`persistedVotedFor, this`diskTerm, this`diskVotedFor
      ensures (View(), rsp) == Accept(old(View()), req, copyOk)
    {
      hide PersistHeader;
      hide TakeCommit;
      hide SlotFor;
      hide NewDeferred;
      var newTail := req.prevLogIndex + 1;
      var skip := 0;
      if newTail < tailLogIndex {
        skip := tailLogIndex - newTail;
        if skip >= req.numEntries {
          FollowCommit(req.leaderCommit);
          WriteHeader();
          return AEResponse(currentTerm, true, 0, 0);
        }
      }
      if req.numEntries > 0 && req.pbaSrc != 0 {
        tailSlot := req.startSlot;
        if !copyOk {
          return AEResponse(currentTerm, false, 0, 0);
        }
        if |req.metas| == req.numEntries {
          BuildLog(req, skip);
          tailLogIndex := newTail + req.numEntries;
        }
      }
      assert View() == Stored(old(View()), req);
      FollowCommit(req.leaderCommit);
      WriteHeader();
      return AEResponse(currentTerm, true, 0, 0);
    }

    method HandleAppendEntries(req: AERequest, copyOk: bool) returns (rsp: AEResponse)
      requires LogOk(View()) && ClusterOk(View())
      modifies this`currentTerm, this`role, this`cluster, this`log, this`tailSlot, this`tailLogIndex, this`commitIndex,
               this`persistedInit, this`persistedTerm, this`persistedVotedFor, this`diskTerm, this`diskVotedFor
      ensures (View(), rsp) == HandleAE(old(View()), req, copyOk)
    {
      hide PersistHeader;
      hide Accept;
      HearFrom(req.term);
      if !role.Follower? || req.term < currentTerm {
        return AEResponse(currentTerm, false, 0, 0);
      }
      var conflict := CheckPrev(req);
      if conflict.Some? {
        return AEResponse(currentTerm, false, conflict.value.0, conflict.value.1);
      }
      rsp := AcceptBatch(req, copyOk);
    }

    // -------------------------------------------------------------- AppendEntries, Lock C

    method ApplyAeSuccess(fi: nat, next: nat, lenEntries: nat)
      requires fi < |cluster|
      modifies this`cluster
      ensures View() == AeSuccess(old(View()), fi, next, lenEntries)
    {
      var newNext := if next + lenEntries > 1 then next + lenEntries else 1;
      if newNext > cluster[fi].nextIndex {
        cluster := cluster[fi := cluster[fi].(nextIndex := newNext)];
      }
      cluster := cluster[fi := cluster[fi].(matchIndex := cluster[fi].nextIndex - 1)];
    }

    /** Backward search of the log for the last entry of a term. */
    method FindTerm(from: nat, term: nat) returns (r: Option<nat>)
      requires LogOk(View()) && from < tailLogIndex
      ensures r == ScanBack(View(), from, term)
    {
      var oldest := tailLogIndex - (|log| - 1);
      var j: nat := from;
      while j >= 1 && j >= oldest
        invariant j <= from && ScanBack(View(), j, term) == ScanBack(View(), from, term)
        decreases j
      {
        var t := log[1 + (j - oldest)].term;
        if t == term {
          return Some(j + 1);
        }
        if t < term {
          return None;
        }
        if j == oldest {
          return None;
        }
        j := j - 1;
      }
      return None;
    }

    method ApplyAeFailureBackoff(fi: nat, prevLogIndex: nat, conflictTerm: nat, conflictIndex: nat,
                                 sentNext: nat) returns (moved: bool)
      requires LogOk(View()) && fi < |cluster| && prevLogIndex < tailLogIndex
      modifies this`cluster
      ensures View() == AeBackoff(old(View()), fi, prevLogIndex, conflictTerm, conflictIndex, sentNext)
      ensures moved == (old(cluster)[fi].nextIndex == sentNext)
    {
      hide ScanBack;
      if cluster[fi].nextIndex != sentNext {
        return false;
      }
      var prev := cluster[fi].nextIndex;
      var newNext := conflictIndex;
      if conflictTerm == 0 && conflictIndex == 0 {
        newNext := if prev > 0 then prev - 1 else 0;
      } else if conflictTerm != 0 {
        var found := FindTerm(prevLogIndex, conflictTerm);
        if found.Some? {
          newNext := found.value;
        }
      }
      if newNext >= prev {
        newNext := if prev > 0 then prev - 1 else 0;
      }
      var floor := cluster[fi].matchIndex + 1;
      cluster := cluster[fi := cluster[fi].(nextIndex := Max(Max(newNext, 1), floor))];
      return true;
    }

    /** The worker after its RPC. */
    method TakeAppendReply(w: Worker, rsp: Option<AEResponse>)
      requires LogOk(View()) && w.fi < |cluster| && w.req.prevLogIndex < tailLogIndex
      modifies this`cluster
      ensures View() == TakeReply(old(View()), w, rsp)
    {
      hide AeBackoff;
      hide AeSuccess;
      if w.req.numEntries > 0 {
        cluster := cluster[w.fi := cluster[w.fi].(inflight := false)];
      }
      if rsp.None? || rsp.value.term > currentTerm {
        return;
      }
      if rsp.value.term != w.req.term && role.Leader? {
        return;
      }
      if rsp.value.success {
        ApplyAeSuccess(w.fi, w.next, w.req.numEntries);
      } else {
        var _ := ApplyAeFailureBackoff(w.fi, w.req.prevLogIndex, rsp.value.conflictTerm, rsp.value.conflictIndex,
                                       w.next);
      }
    }

    // -------------------------------------------------------------- AppendEntries, Lock B

    /** Slot counts of the entries from `next` on. */
    method SlotCounts(next: nat) returns (needs: seq<nat>)
      requires LogOk(View()) && Oldest(View()) <= next <= tailLogIndex
      ensures needs == NeedsFrom(View(), next)
    {
      needs := [];
      var oldest := tailLogIndex - (|log| - 1);
      var idx := next;
      while idx < tailLogIndex
        invariant next <= idx <= tailLogIndex && |needs| == idx - next
        invariant forall k :: 0 <= k < |needs| ==> needs[k] == SlotsForLogIndex(View(), next + k)
      {
        var count := if idx in logSlotMap then logSlotMap[idx].numSlots else EntrySlots(log[1 + (idx - oldest)]);
        needs := needs + [count];
        idx := idx + 1;
      }
    }

    /** `leader_pba_for_range` on a sorted extent list. */
    method PbaForRange(es: seq<Extent>, startSlot: nat, totalSlots: nat) returns (r: Result<Segment>)
      requires Sorted(es)
      ensures r == LeaderPbaForRange(es, startSlot, totalSlots)
    {
      if totalSlots == 0 {
        return Ok(Segment(0, 0));
      }
      var nbytes := AlignUpPage(512 * totalSlots);
      var seg := Lookup(es, SlotOffset(startSlot), nbytes);
      match seg
      case Err(e) => return Err(e);
      case Ok(found) =>
        if found.pba == 0 {
          return Err("hole in ring file");
        }
        if 0 < found.len < nbytes {
          nbytes := AlignUpPage(found.len);
        }
        return Ok(Segment(found.pba, nbytes));
    }

    /** Slot-map lookup, the clamp passes, and the address of the batch. */
    method PickBatch(next: nat, cfg: Config) returns (r: Result<BatchChoice>)
      requires LogOk(View()) && next <= tailLogIndex && Sorted(cfg.extents)
      requires next in logSlotMap ==> Readable(View(), next)
      ensures r == ChooseBatch(View(), next, cfg)
    {
      hide NeedsFrom;
      hide BatchLen;
      hide LeaderPbaForRange;
      hide Sum;
      if next == tailLogIndex || cfg.maxBatch == 0 || (gcHasRun && next <= gcUpTo) || next !in logSlotMap {
        return Ok(NO_BATCH);
      }
      var start := logSlotMap[next].start;
      var needs := SlotCounts(next);
      var len, total := SelectBatch(needs, cfg.maxBatch, cfg.maxBatchBytes, ringSlots - start);
      if len == 0 {
        return Ok(BatchChoice(0, 0, start, 0));
      }
      var seg := PbaForRange(cfg.extents, start, total);
      if seg.Err? {
        return Err(seg.error);
      }
      len, total := ClampToExtent(needs, cfg.maxBatch, cfg.maxBatchBytes, ringSlots - start, len, seg.value.len / 512);
      return Ok(BatchChoice(len, total, start, seg.value.pba));
    }

    /** What the follower is told about the entries [next, next + len). */
    method MakeMetas(next: nat, len: nat) returns (metas: seq<EntryMeta>)
      requires LogOk(View()) && next + len <= tailLogIndex && (len > 0 ==> Oldest(View()) <= next)
      ensures |metas| == len && forall k :: 0 <= k < len ==> metas[k] == MetaOf(EntryAt(View(), next + k))
    {
      metas := [];
      var oldest := tailLogIndex - (|log| - 1);
      var k := 0;
      while k < len
        invariant 0 <= k <= len && |metas| == k
        invariant forall i :: 0 <= i < k ==> metas[i] == MetaOf(EntryAt(View(), next + i))
      {
        var e := log[1 + (next + k - oldest)];
        var cl := |e.command|;
        if e.command == [] && e.ringSlot != 0 {
          cl := e.cmdLen;
        }
        metas := metas + [EntryMeta(e.term, cl)];
        k := k + 1;
      }
    }

    method MakeRequest(next: nat, b: BatchChoice) returns (req: AERequest)
      requires LogOk(View()) && next + b.len <= tailLogIndex && (b.len > 0 ==> Oldest(View()) <= next)
      ensures req == RequestFor(View(), next, b)
    {
      var prevLogIndex, prevLogTerm := 0, 0;
      var oldest := tailLogIndex - (|log| - 1);
      if next > 0 {
        prevLogIndex := next - 1;
        if prevLogIndex >= oldest && prevLogIndex < tailLogIndex {
          prevLogTerm := log[1 + (prevLogIndex - oldest)].term;
        }
      }
      var metas := MakeMetas(next, b.len);
      assert metas == RequestFor(View(), next, b).metas;
      req := AERequest(currentTerm, prevLogIndex, prevLogTerm, commitIndex, b.pba, b.total, b.len, b.start, metas);
    }

    /** The worker up to its RPC. */
    method SendAppendEntries(fi: nat, cfg: Config) returns (out: SendStatus)
      requires SendReady(View(), fi) && Sorted(cfg.extents)
      modifies this`cluster
      ensures match SendAE(old(View()), fi, cfg)
              case Blocked(n') => out == Skipped && View() == n'
              case Sent(n', w) => out == Launched(w) && View() == n'
              case Crashed(e) => out == Failed(e)
    {
      hide ChooseBatch;
      hide RequestFor;
      var next := cluster[fi].nextIndex;
      var last := tailLogIndex - 1;
      if next > last + 1 {
        next := last + 1;
      }
      cluster := cluster[fi := cluster[fi].(nextIndex := next)];
      if last >= next && cluster[fi].inflight {
        return Skipped;
      }
      var choice := PickBatch(next, cfg);
      if choice.Err? {
        return Failed(choice.error);
      }
      var b := choice.value;
      ChoiceFits(View(), next, cfg);
      var req := MakeRequest(next, b);
      if b.len > 0 {
        cluster := cluster[fi := cluster[fi].(inflight := true)];
      }
      return Launched(Worker(fi, next, req));
    }
  }

  /** What a worker comes to at Lock B. */
  datatype SendStatus = Skipped | Launched(worker: Worker) | Failed(error: string)

  lemma ChoiceFits(n: Node, next: nat, cfg: Config)
    requires LogOk(n) && next <= n.tailLogIndex && (next in n.logSlotMap ==> Readable(n, next))
    ensures ChooseBatch(n, next, cfg).Ok? ==>
              var b := ChooseBatch(n, next, cfg).value;
              next + b.len <= n.tailLogIndex && (b.len > 0 ==> Oldest(n) <= next)
  {
    hide LeaderPbaForRange;
  }

  /** One more entry of a batch. */
  lemma DeferredStep(metas: seq<EntryMeta>, start: nat, ringSlots: nat, skip: nat, i: nat)
    requires i < |metas|
    ensures NewDeferred(metas, start, ringSlots, skip, 0) == []
    ensures NewDeferred(metas, start, ringSlots, skip, i + 1) == NewDeferred(metas, start, ringSlots, skip, i) +
            (if i >= skip then [Entry([], metas[i].term, Waiting, SlotFor(metas, start, ringSlots, i), metas[i].cmdLen)]
             else [])
  {
    hide SlotFor;
  }

  lemma NothingCleared(n: Node, lo: nat)
    requires LogOk(n)
    ensures ClearLog(n, lo, lo) == n.log
  {}

  /** Clearing one more entry. */
  lemma ClearStep(n: Node, lo: nat, hi: nat)
    requires LogOk(n) && Oldest(n) <= lo <= hi < n.tailLogIndex
    ensures var p := LogSlice(n, hi);
            && ClearLog(n, lo, hi)[p] == EntryAt(n, hi)
            && ClearLog(n, lo, hi)[p := Cleared(EntryAt(n, hi))] == ClearLog(n, lo, hi + 1)
  {
    assert IndexOf(n, LogSlice(n, hi)) == hi;
  }

  lemma HeadIs(m: LogSlotMap, tail: nat, head: nat)
    requires IsHead(m, tail, head)
    ensures head == HeadOf(m, tail)
  {
    HeadIsUnique(m, tail, head, HeadOf(m, tail));
  }

  /** A client batch as it goes to the device. */
  function BatchRecords(n: Node, commands: seq<seq<Byte>>): (r: seq<Record>)
    ensures |r| == |commands|
    ensures forall i :: 0 <= i < |r| ==> r[i] == Record(n.currentTerm, commands[i], n.tailLogIndex + i)
  {
    seq(|commands|, i requires 0 <= i < |commands| => Record(n.currentTerm, commands[i], n.tailLogIndex + i))
  }

  lemma PushedRecords(n: Node, n1: Node, commands: seq<seq<Byte>>)
    requires LogOk(n)
    requires n1 == n.(log := n.log + NewEntries(n.currentTerm, commands), tailLogIndex := n.tailLogIndex + |commands|)
    requires forall i :: 0 <= i < |commands| ==> SlotsForEntry(|commands[i]|) <= n.ringSlots
    ensures LogOk(n1) && |commands| < |n1.log| && NewestRecords(n1, |commands|) == BatchRecords(n, commands)
    ensures FitRing(NewestRecords(n1, |commands|), n.ringSlots)
  {}

  /** The no-op of a new leader as it goes to the device. */
  function Noop(n: Node): seq<Record> {
    [Record(n.currentTerm, [], n.tailLogIndex)]
  }

  lemma NoopFits(n: Node)
    requires n.ringSlots >= 1
    ensures FitRing(Noop(n), n.ringSlots)
  {}

  lemma NoopRecord(n: Node, n1: Node)
    requires LogOk(n) && n.ringSlots >= 1
    requires n1 == n.(log := n.log + [Entry([], n.currentTerm, Waiting, 0, 0)], tailLogIndex := n.tailLogIndex + 1)
    ensures LogOk(n1) && |n1.log| > 1 && NewestRecords(n1, 1) == Noop(n) && FitRing(Noop(n), n.ringSlots)
  {
    NoopFits(n);
  }

  lemma PromotedIs(n: Node, n1: Node, read: Reader)
    requires LogOk(n) && IsHead(n.logSlotMap, n.tailSlot, n1.headSlot)
    requires n1 == n.(role := Leader, headSlot := n1.headSlot, gcUpTo := 0, gcHasRun := false,
                      log := LoadLog(n.log, read))
    ensures LogOk(n1) && n1.role.Leader? && n1.(lastApplied := ApplyEnd(n1)) == Promoted(n, read)
    ensures n1 == Promoted(n, read).(lastApplied := n.lastApplied)
  {
    HeadIsUnique(n.logSlotMap, n.tailSlot, n1.headSlot, HeadOf(n.logSlotMap, n.tailSlot));
    hide IsHead;
    hide ApplyEnd;
  }

  lemma SameNeeds(n: Node, k: nat)
    requires LogOk(n) && k < |n.log|
    ensures RecordNeeds(NewestRecords(n, k)) == NewestNeeds(n, k)
  {}

  lemma PersistedIs(n: Node, n1: Node, n2: Node, k: nat, first: nat)
    requires LogOk(n) && ClusterOk(n) && k < |n.log| && first == n.tailLogIndex - k
    requires ClusterOk(n1) && n2 == PersistHeader(n1)
    requires var needs := NewestNeeds(n, k);
             n1 == n.(tailSlot := Ptr(needs, n.tailSlot, n.ringSlots, k),
                      logSlotMap := if n.role.Leader?
                          then Recorded(n.logSlotMap, first, needs, n.tailSlot, n.ringSlots, k) else n.logSlotMap)
    ensures n2 == PersistLog(n, k)
  {
    hide Ptr;
    hide Recorded;
    hide NewestNeeds;
    hide PersistHeader;
  }

  /** The newest `k` entries as they go to the device. */
  function NewestRecords(n: Node, k: nat): (r: seq<Record>)
    requires LogOk(n) && k < |n.log|
    ensures |r| == k
    ensures forall i :: 0 <= i < k ==>
              r[i] == Record(n.log[|n.log| - k + i].term, n.log[|n.log| - k + i].command, n.tailLogIndex - k + i)
  {
    seq(k, i requires 0 <= i < k =>
      Record(n.log[|n.log| - k + i].term, n.log[|n.log| - k + i].command, n.tailLogIndex - k + i))
  }
}
