/** The follower's side of AppendEntries: `handle_append_entries_request` of
    core/src/raft_handle_append_entries.cpp, taken as one step. The block copy is an input: it works or fails. */
module Follower {
  import opened Basics
  import opened Ring
  import opened Types
  import opened Commit
  import opened Election

  // ---------------------------------------------------------------- consistency check

  /** First index of the stretch of equal terms that ends at `ci`. */
  function ConflictStart(n: Node, ci: nat): (r: nat)
    requires LogOk(n) && Oldest(n) <= ci < n.tailLogIndex
    ensures Oldest(n) <= r <= ci
    ensures forall j :: r <= j <= ci ==> EntryAt(n, j).term == EntryAt(n, ci).term
    ensures r > Oldest(n) ==> EntryAt(n, r - 1).term != EntryAt(n, ci).term
    decreases ci
  {
    if ci > Oldest(n) && EntryAt(n, ci - 1).term == EntryAt(n, ci).term then ConflictStart(n, ci - 1) else ci
  }

  /** The term and index of the conflict hint, or nothing if the previous entry is consistent. A trimmed
      previous entry is taken to be consistent. */
  function PrevConflict(n: Node, req: AERequest): Option<(nat, nat)>
    requires LogOk(n)
  {
    if req.prevLogIndex == 0 then None
    else if req.prevLogIndex >= n.tailLogIndex then Some((0, n.tailLogIndex))
    else if req.prevLogIndex >= Oldest(n) && EntryAt(n, req.prevLogIndex).term != req.prevLogTerm then
      Some((EntryAt(n, req.prevLogIndex).term, ConflictStart(n, req.prevLogIndex)))
    else None
  }

  /** Leading entries of the batch that the follower already has. */
  function SkipCount(n: Node, req: AERequest): nat {
    if req.prevLogIndex + 1 < n.tailLogIndex then n.tailLogIndex - (req.prevLogIndex + 1) else 0
  }

  // ---------------------------------------------------------------- building the log

  /** Ring slot the follower assigns to entry `i` of a batch that starts at `start`. */
  function SlotFor(metas: seq<EntryMeta>, start: nat, ringSlots: nat, i: nat): nat
    requires i <= |metas|
  {
    if i == 0 then start
    else
      var s := SlotFor(metas, start, ringSlots, i - 1) + SlotsForEntry(metas[i - 1].cmdLen);
      if s >= ringSlots then 0 else s
  }

  function Deferred(metas: seq<EntryMeta>, start: nat, ringSlots: nat, i: nat): Entry
    requires i < |metas|
  {
    Entry([], metas[i].term, Waiting, SlotFor(metas, start, ringSlots, i), metas[i].cmdLen)
  }

  /** The entries [skip, k) of a batch, to be loaded from the device when they are needed. */
  function NewDeferred(metas: seq<EntryMeta>, start: nat, ringSlots: nat, skip: nat, k: nat): (r: seq<Entry>)
    requires k <= |metas|
    ensures |r| == if k <= skip then 0 else k - skip
    ensures forall j :: 0 <= j < |r| ==> r[j] == Deferred(metas, start, ringSlots, skip + j)
  {
    seq<Entry>(if k <= skip then 0 else k - skip, j requires 0 <= j < (if k <= skip then 0 else k - skip) =>
      Deferred(metas, start, ringSlots, skip + j))
  }

  function Build(n: Node, req: AERequest): Node
    requires |req.metas| == req.numEntries
  {
    n.(log := n.log + NewDeferred(req.metas, req.startSlot, n.ringSlots, SkipCount(n, req), req.numEntries),
       tailSlot := SlotFor(req.metas, req.startSlot, n.ringSlots, req.numEntries),
       tailLogIndex := req.prevLogIndex + 1 + req.numEntries)
  }

  /** The commit index follows the leader's, as far as the log goes. */
  function TakeCommit(n: Node, leaderCommit: nat): Node
    requires LogOk(n)
  {
    if leaderCommit > n.commitIndex then n.(commitIndex := Min(leaderCommit, n.tailLogIndex - 1)) else n
  }

  /** The batch brings something new, so its bytes have to be copied. */
  predicate NeedsCopy(n: Node, req: AERequest) {
    SkipCount(n, req) < req.numEntries && req.pbaSrc != 0
  }

  /** Log and write pointer once the bytes are there. */
  function Stored(n: Node, req: AERequest): Node {
    if !NeedsCopy(n, req) then n
    else if |req.metas| != req.numEntries then n.(tailSlot := req.startSlot)
    else Build(n, req)
  }

  /** The handler past the consistency check. */
  function Accept(n: Node, req: AERequest, copyOk: bool): (Node, AEResponse)
    requires LogOk(n) && ClusterOk(n) && req.prevLogIndex < n.tailLogIndex
  {
    if NeedsCopy(n, req) && !copyOk then (n.(tailSlot := req.startSlot), AEResponse(n.currentTerm, false, 0, 0))
    else (PersistHeader(TakeCommit(Stored(n, req), req.leaderCommit)), AEResponse(n.currentTerm, true, 0, 0))
  }

  /** The node that meets the consistency check: term taken over, a rival candidate of the same term gives up. */
  function Heard(n: Node, term: nat): Node
    requires ClusterOk(n)
  {
    var n1 := UpdateTerm(n, term);
    if term == n1.currentTerm && n1.role.Candidate? then n1.(role := Follower) else n1
  }

  /** `handle_append_entries_request`. */
  function HandleAE(n: Node, req: AERequest, copyOk: bool): (Node, AEResponse)
    requires LogOk(n) && ClusterOk(n)
  {
    var n1 := Heard(n, req.term);
    if !n1.role.Follower? || req.term < n1.currentTerm then (n1, AEResponse(n1.currentTerm, false, 0, 0))
    else match PrevConflict(n1, req)
      case Some(hint) => (n1, AEResponse(n1.currentTerm, false, hint.0, hint.1))
      case None => Accept(n1, req, copyOk)
  }

  // ---------------------------------------------------------------- what the handler keeps

  lemma AcceptKeeps(n: Node, req: AERequest, copyOk: bool)
    requires LogOk(n) && ClusterOk(n) && Durable(n) && req.prevLogIndex < n.tailLogIndex
    ensures var n' := Accept(n, req, copyOk).0;
            SameBallot(n, n') && n'.role == n.role && Durable(n') && LogOk(n')
  {
    var n1 := TakeCommit(Stored(n, req), req.leaderCommit);
    assert LogOk(n1) && ClusterOk(n1) && Durable(n1) && SameBallot(n, n1) && n1.role == n.role;
    hide Stored;
    hide TakeCommit;
    PersistHeaderDurable(n1);
  }

  /** Whatever the request, the term does not go back, the vote of an unchanged term stays, nobody becomes
      candidate or leader, and disk and memory agree. */
  lemma HandleAEBallot(n: Node, req: AERequest, copyOk: bool)
    requires LogOk(n) && ClusterOk(n) && Durable(n)
    ensures var n' := HandleAE(n, req, copyOk).0;
            && LogOk(n') && ClusterOk(n') && Durable(n')
            && n'.currentTerm == Max(n.currentTerm, req.term)
            && n'.id == n.id && n'.clusterIndex == n.clusterIndex && |n'.cluster| == |n.cluster|
            && (n'.role == n.role || n'.role.Follower?)
            && (n'.currentTerm == n.currentTerm ==> SameBallot(n, n'))
            && (n'.currentTerm > n.currentTerm ==> n'.role.Follower? && VotedFor(n') == 0)
  {
    var n1 := Heard(n, req.term);
    assert LogOk(n1) && Durable(n1);
    if n1.role.Follower? && req.term >= n1.currentTerm && PrevConflict(n1, req).None? {
      AcceptKeeps(n1, req, copyOk);
    }
  }

  /** The part of this that needs nothing but a well-formed server. */
  lemma HandleAETerm(n: Node, req: AERequest, copyOk: bool)
    requires LogOk(n) && ClusterOk(n)
    ensures var n' := HandleAE(n, req, copyOk).0;
            && n'.currentTerm == Max(n.currentTerm, req.term)
            && n'.clusterIndex == n.clusterIndex && |n'.cluster| == |n.cluster|
            && (n'.role == n.role || n'.role.Follower?) && (n'.currentTerm > n.currentTerm ==> n'.role.Follower?)
  {
    hide Accept;
    hide PrevConflict;
    var n1 := Heard(n, req.term);
    if n1.role.Follower? && req.term >= n1.currentTerm && PrevConflict(n1, req).None? {
      PrevInLog(n1, req);
      AcceptSame(n1, req, copyOk);
    }
  }

  lemma PrevInLog(n: Node, req: AERequest)
    requires LogOk(n) && PrevConflict(n, req).None?
    ensures req.prevLogIndex < n.tailLogIndex
  {}

  lemma AcceptSame(n: Node, req: AERequest, copyOk: bool)
    requires LogOk(n) && ClusterOk(n) && req.prevLogIndex < n.tailLogIndex
    ensures var n' := Accept(n, req, copyOk).0;
            && n'.currentTerm == n.currentTerm && n'.role == n.role && n'.clusterIndex == n.clusterIndex
            && n'.cluster == n.cluster
  {
    hide Stored;
    hide NeedsCopy;
    StoredSame(n, req);
  }

  lemma StoredSame(n: Node, req: AERequest)
    ensures var n' := Stored(n, req);
            && n'.currentTerm == n.currentTerm && n'.role == n.role && n'.clusterIndex == n.clusterIndex
            && n'.cluster == n.cluster
  {}

  /** The log of `n'` is that of `n`, extended at its end with entries of the batch, each at the index the
      batch gives it. */
  predicate Extends(n: Node, n': Node, req: AERequest) {
    && LogOk(n) && LogOk(n') && |req.metas| == req.numEntries
    && Oldest(n') == Oldest(n) && n.tailLogIndex <= n'.tailLogIndex && n'.lastApplied == n.lastApplied
    && (forall i :: Oldest(n) <= i < n.tailLogIndex ==> EntryAt(n', i) == EntryAt(n, i))
    && (forall i :: n.tailLogIndex <= i < n'.tailLogIndex ==> FromBatch(n', req, n.ringSlots, i))
  }

  /** The entry at index `i` is the one the batch describes for that index. */
  predicate FromBatch(n: Node, req: AERequest, ringSlots: nat, i: nat)
    requires LogOk(n) && Oldest(n) <= i < n.tailLogIndex && |req.metas| == req.numEntries
  {
    && req.prevLogIndex < i <= req.prevLogIndex + req.numEntries
    && EntryAt(n, i) == Deferred(req.metas, req.startSlot, ringSlots, i - req.prevLogIndex - 1)
  }

  predicate SameLog(n: Node, n': Node) {
    && n'.log == n.log && n'.tailLogIndex == n.tailLogIndex && n'.lastApplied == n.lastApplied
    && n'.ringSlots == n.ringSlots
  }

  lemma ExtendsSame(n: Node, n1: Node, n2: Node, n3: Node, req: AERequest)
    requires SameLog(n, n1) && Extends(n1, n2, req) && SameLog(n2, n3)
    ensures Extends(n, n3, req)
  {
    forall i | Oldest(n) <= i < n.tailLogIndex ensures EntryAt(n3, i) == EntryAt(n, i) {
      assert EntryAt(n2, i) == EntryAt(n1, i);
    }
    forall i | n.tailLogIndex <= i < n3.tailLogIndex ensures FromBatch(n3, req, n.ringSlots, i) {
      assert FromBatch(n2, req, n1.ringSlots, i);
    }
  }

  lemma NotGrown(n: Node, n': Node, req: AERequest)
    requires LogOk(n) && |req.metas| == req.numEntries && SameLog(n, n')
    ensures Extends(n, n', req)
  {
    assert forall i :: Oldest(n) <= i < n.tailLogIndex ==> EntryAt(n, i) == EntryAt(n', i);
  }

  lemma StoredExtends(n: Node, req: AERequest)
    requires LogOk(n) && |req.metas| == req.numEntries && (req.numEntries > 0 ==> req.pbaSrc != 0)
    requires req.prevLogIndex < n.tailLogIndex
    ensures Extends(n, Stored(n, req), req) && Stored(n, req).commitIndex == n.commitIndex
    ensures Stored(n, req).tailLogIndex == Max(n.tailLogIndex, req.prevLogIndex + 1 + req.numEntries)
  {
    var n' := Stored(n, req);
    if NeedsCopy(n, req) {
      var added := NewDeferred(req.metas, req.startSlot, n.ringSlots, SkipCount(n, req), req.numEntries);
      assert n'.log == n.log + added;
    }
  }

  /** The log only grows at its end; nothing that was there changes; the commit index follows the leader's and
      never passes the end of the log. A success means that the whole batch is there. */
  lemma HandleAEGrows(n: Node, req: AERequest, copyOk: bool)
    requires LogOk(n) && ClusterOk(n) && |req.metas| == req.numEntries && (req.numEntries > 0 ==> req.pbaSrc != 0)
    requires n.commitIndex < n.tailLogIndex
    ensures var (n', rsp) := HandleAE(n, req, copyOk);
            && Extends(n, n', req)
            && n'.commitIndex == (if rsp.success then Max(n.commitIndex, Min(req.leaderCommit, n'.tailLogIndex - 1))
                                  else n.commitIndex)
            && n'.tailLogIndex == (if rsp.success then Max(n.tailLogIndex, req.prevLogIndex + 1 + req.numEntries)
                                   else n.tailLogIndex)
  {
    hide Accept;
    hide Extends;
    hide PrevConflict;
    var n1 := Heard(n, req.term);
    assert SameLog(n, n1) && n1.commitIndex == n.commitIndex;
    if n1.role.Follower? && req.term >= n1.currentTerm && PrevConflict(n1, req).None? {
      PrevInLog(n1, req);
      AcceptGrows(n1, req, copyOk);
      ExtendsSame(n, n1, HandleAE(n, req, copyOk).0, HandleAE(n, req, copyOk).0, req);
    } else {
      NotGrown(n, n1, req);
      ExtendsSame(n, n, n1, HandleAE(n, req, copyOk).0, req);
    }
  }

  lemma AcceptGrows(n: Node, req: AERequest, copyOk: bool)
    requires LogOk(n) && ClusterOk(n) && |req.metas| == req.numEntries && (req.numEntries > 0 ==> req.pbaSrc != 0)
    requires n.commitIndex < n.tailLogIndex && req.prevLogIndex < n.tailLogIndex
    ensures var (n', rsp) := Accept(n, req, copyOk);
            && Extends(n, n', req)
            && n'.commitIndex == (if rsp.success then Max(n.commitIndex, Min(req.leaderCommit, n'.tailLogIndex - 1))
                                  else n.commitIndex)
            && n'.tailLogIndex == (if rsp.success then Max(n.tailLogIndex, req.prevLogIndex + 1 + req.numEntries)
                                   else n.tailLogIndex)
  {
    hide Stored;
    hide NeedsCopy;
    hide Extends;
    StoredExtends(n, req);
    var n' := Accept(n, req, copyOk).0;
    if NeedsCopy(n, req) && !copyOk {
      NotGrown(n, n', req);
    } else {
      ExtendsSame(n, n, Stored(n, req), n', req);
    }
  }

  // ---------------------------------------------------------------- the answer

  /** The server takes the sender for the leader: its own term is not later, and it does not lead that term itself. */
  predicate Listens(n: Node, req: AERequest) {
    n.currentTerm < req.term || (n.currentTerm == req.term && !n.role.Leader?)
  }

  /** The entry in front of the batch is there, with the term the request names if it can still be compared. */
  predicate PrevMatches(n: Node, req: AERequest)
    requires LogOk(n)
  {
    || req.prevLogIndex == 0
    || (req.prevLogIndex < n.tailLogIndex &&
        (Oldest(n) <= req.prevLogIndex ==> EntryAt(n, req.prevLogIndex).term == req.prevLogTerm))
  }

  /** Exactly when any request is accepted, by any server: it listens, the entry in front matches, and a copy that is
      needed works. The answer names the later of the two terms. A server that does not listen does not change. */
  lemma AcceptedExactly(n: Node, req: AERequest, copyOk: bool)
    requires LogOk(n) && ClusterOk(n)
    ensures var (n', rsp) := HandleAE(n, req, copyOk);
            && rsp.term == n'.currentTerm == Max(n.currentTerm, req.term)
            && (rsp.success <==> Listens(n, req) && PrevMatches(n, req) && (NeedsCopy(n, req) ==> copyOk))
            && (!Listens(n, req) ==> n' == n && rsp.conflictTerm == rsp.conflictIndex == 0)
            && (Listens(n, req) && !PrevMatches(n, req) ==>
                  n'.log == n.log && n'.tailLogIndex == n.tailLogIndex && n'.commitIndex == n.commitIndex)
  {
    HeardListens(n, req);
    hide Heard;
    var n1 := Heard(n, req.term);
    NoHint(n1, req);
    if PrevMatches(n, req) {
      AcceptTerm(n1, req, copyOk);
    }
    hide Accept;
    hide PrevConflict;
    hide PrevMatches;
    hide NeedsCopy;
  }

  lemma AcceptTerm(n: Node, req: AERequest, copyOk: bool)
    requires LogOk(n) && ClusterOk(n) && req.prevLogIndex < n.tailLogIndex
    ensures var (n', rsp) := Accept(n, req, copyOk);
            && rsp.term == n'.currentTerm == n.currentTerm && (rsp.success <==> NeedsCopy(n, req) ==> copyOk)
  {
    hide SlotFor;
    hide NeedsCopy;
    StoredSame(n, req);
  }

  /** What a rejection says. A log that is too short is reported with its end. A conflicting entry is reported with its
      term and the first index of the stretch of that term it ends: the entry there has it too, and the one in front
      of that, if it is in memory, does not. */
  lemma ConflictHint(n: Node, req: AERequest, copyOk: bool)
    requires LogOk(n) && ClusterOk(n) && Listens(n, req) && !PrevMatches(n, req)
    ensures var rsp := HandleAE(n, req, copyOk).1;
            && (req.prevLogIndex >= n.tailLogIndex ==>
                  rsp.conflictTerm == 0 && rsp.conflictIndex == n.tailLogIndex)
            && (req.prevLogIndex < n.tailLogIndex ==>
                  var i := rsp.conflictIndex;
                  && Oldest(n) <= i <= req.prevLogIndex
                  && rsp.conflictTerm == EntryAt(n, req.prevLogIndex).term == EntryAt(n, i).term
                  && (forall j :: i <= j <= req.prevLogIndex ==> EntryAt(n, j).term == rsp.conflictTerm)
                  && (Oldest(n) < i ==> EntryAt(n, i - 1).term != rsp.conflictTerm))
  {
    hide Accept;
    hide PrevConflict;
    HeardListens(n, req);
    hide Heard;
    var n1 := Heard(n, req.term);
    HintIs(n1, req);
    assert forall j :: Oldest(n) <= j < n.tailLogIndex ==> EntryAt(n1, j) == EntryAt(n, j);
  }

  lemma HeardListens(n: Node, req: AERequest)
    requires LogOk(n) && ClusterOk(n)
    ensures var n1 := Heard(n, req.term);
            && ClusterOk(n1) && n1.log == n.log && n1.tailLogIndex == n.tailLogIndex && n1.commitIndex == n.commitIndex
            && n1.currentTerm == Max(n.currentTerm, req.term)
            && (Listens(n, req) <==> n1.role.Follower? && req.term >= n1.currentTerm)
            && (!Listens(n, req) ==> n1 == n)
            && PrevMatches(n1, req) == PrevMatches(n, req) && NeedsCopy(n1, req) == NeedsCopy(n, req)
  {}

  lemma HintIs(n: Node, req: AERequest)
    requires LogOk(n) && !PrevMatches(n, req)
    ensures PrevConflict(n, req).Some?
    ensures var hint := PrevConflict(n, req).value;
            && (req.prevLogIndex >= n.tailLogIndex ==> hint == (0, n.tailLogIndex))
            && (req.prevLogIndex < n.tailLogIndex ==>
                  && Oldest(n) <= hint.1 <= req.prevLogIndex
                  && hint.0 == EntryAt(n, req.prevLogIndex).term == EntryAt(n, hint.1).term
                  && (forall j :: hint.1 <= j <= req.prevLogIndex ==> EntryAt(n, j).term == hint.0)
                  && (Oldest(n) < hint.1 ==> EntryAt(n, hint.1 - 1).term != hint.0))
  {}

  lemma NoHint(n: Node, req: AERequest)
    requires LogOk(n)
    ensures PrevConflict(n, req).None? <==> PrevMatches(n, req)
    ensures PrevMatches(n, req) ==> req.prevLogIndex < n.tailLogIndex
  {
    hide ConflictStart;
  }

  /** A batch whose descriptions do not match its count is copied and accepted, but brings no entry. */
  lemma MalformedBatch(n: Node, req: AERequest)
    requires LogOk(n) && ClusterOk(n) && Listens(n, req) && PrevMatches(n, req)
    requires NeedsCopy(n, req) && |req.metas| != req.numEntries
    ensures var (n', rsp) := HandleAE(n, req, true);
            && rsp.success && n'.log == n.log && n'.tailLogIndex == n.tailLogIndex && n'.tailSlot == req.startSlot
  {
    HeardListens(n, req);
    hide Heard;
    NoHint(Heard(n, req.term), req);
    hide PrevConflict;
    hide PrevMatches;
  }

  /** Exactly when a request adds to the log: it is addressed to this server by its leader, the entry in front matches,
      the batch goes beyond the end of the log, names an address, describes every entry, and its copy works. Every other
      request leaves the log as it is. */
  lemma StoresExactly(n: Node, req: AERequest, copyOk: bool)
    requires LogOk(n) && ClusterOk(n)
    ensures var n' := HandleAE(n, req, copyOk).0;
            && (n'.log != n.log <==>
                  && Listens(n, req) && PrevMatches(n, req) && copyOk
                  && req.pbaSrc != 0 && |req.metas| == req.numEntries
                  && n.tailLogIndex < req.prevLogIndex + 1 + req.numEntries)
            && (n'.log == n.log <==> n'.tailLogIndex == n.tailLogIndex)
  {
    HeardListens(n, req);
    var n1 := Heard(n, req.term);
    hide Heard;
    hide PrevConflict;
    if PrevMatches(n, req) {
      NoHint(n1, req);
      if Listens(n, req) {
        PrevInLog(n1, req);
        AcceptStores(n1, req, copyOk);
      }
    } else if Listens(n, req) {
      HintIs(n1, req);
    }
  }

  lemma AcceptStores(n: Node, req: AERequest, copyOk: bool)
    requires LogOk(n) && ClusterOk(n) && req.prevLogIndex < n.tailLogIndex
    ensures var n' := Accept(n, req, copyOk).0;
            && (n'.log != n.log <==>
                  && copyOk && req.pbaSrc != 0 && |req.metas| == req.numEntries
                  && n.tailLogIndex < req.prevLogIndex + 1 + req.numEntries)
            && (n'.log == n.log <==> n'.tailLogIndex == n.tailLogIndex)
  {
    hide SlotFor;
    if NeedsCopy(n, req) && |req.metas| == req.numEntries {
      var added := NewDeferred(req.metas, req.startSlot, n.ringSlots, SkipCount(n, req), req.numEntries);
      assert |added| > 0 && |n.log + added| == |n.log| + |added|;
    }
  }
}
