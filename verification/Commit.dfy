/** Commit, apply, slot collection and log trimming as state transformations (core/src/raft_commit.cpp),
    and the append that feeds them (core/src/raft_apply.cpp, core/src/raft_persist.cpp). */
module Commit {
  import opened Basics
  import opened Ring
  import opened Types

  // ---------------------------------------------------------------- the quorum index

  /** How many elements are at least `x`. */
  function CountGe(s: seq<nat>, x: nat): (c: nat)
    ensures c <= |s|
  {
    if s == [] then 0 else (if s[0] >= x then 1 else 0) + CountGe(s[1..], x)
  }

  function InsertDesc(x: nat, s: seq<nat>): (r: seq<nat>)
    ensures |r| == |s| + 1
  {
    if s == [] || x >= s[0] then [x] + s else [s[0]] + InsertDesc(x, s[1..])
  }

  /** `std::sort` with `std::greater`. */
  function SortDesc(s: seq<nat>): (r: seq<nat>)
    ensures |r| == |s|
  {
    if s == [] then [] else InsertDesc(s[0], SortDesc(s[1..]))
  }

  ghost predicate Descending(s: seq<nat>) {
    forall i, j :: 0 <= i <= j < |s| ==> s[i] >= s[j]
  }

  lemma {:induction false} InsertKeeps(x: nat, s: seq<nat>, y: nat)
    requires Descending(s)
    ensures Descending(InsertDesc(x, s))
    ensures CountGe(InsertDesc(x, s), y) == CountGe([x], y) + CountGe(s, y)
    ensures forall v :: v in InsertDesc(x, s) <==> v == x || v in s
  {
    if s == [] || x >= s[0] {
      assert ([x] + s)[1..] == s;
    } else {
      InsertKeeps(x, s[1..], y);
      var r := InsertDesc(x, s[1..]);
      assert ([s[0]] + r)[1..] == r;
      assert forall v :: v in r ==> v <= s[0];
    }
  }

  /** Sorting reorders: it counts the same above every threshold, so it is a permutation. */
  lemma {:induction false} SortKeeps(s: seq<nat>, y: nat)
    ensures Descending(SortDesc(s))
    ensures CountGe(SortDesc(s), y) == CountGe(s, y)
  {
    if s != [] {
      SortKeeps(s[1..], y);
      InsertKeeps(s[0], SortDesc(s[1..]), y);
    }
  }

  /** In a descending list the elements that reach `x` are a prefix. */
  lemma {:induction false} CountDescending(s: seq<nat>, x: nat, k: nat)
    requires Descending(s) && k <= |s|
    requires forall i :: 0 <= i < k ==> s[i] >= x
    requires forall i :: k <= i < |s| ==> s[i] < x
    ensures CountGe(s, x) == k
  {
    if s != [] {
      CountDescending(s[1..], x, if k == 0 then 0 else k - 1);
    }
  }

  lemma {:induction false} CountBounds(s: seq<nat>, x: nat, k: nat)
    requires Descending(s) && k < |s|
    ensures s[k] >= x ==> CountGe(s, x) >= k + 1
    ensures s[k] < x ==> CountGe(s, x) <= k
  {
    if k > 0 {
      CountBounds(s[1..], x, k - 1);
    } else if s[0] < x {
      CountDescending(s, x, 0);
    }
  }

  lemma {:induction false} CountMonotone(a: seq<nat>, b: seq<nat>, x: nat)
    requires |a| == |b| && forall i :: 0 <= i < |a| ==> a[i] >= x ==> b[i] >= x
    ensures CountGe(a, x) <= CountGe(b, x)
  {
    if a != [] {
      CountMonotone(a[1..], b[1..], x);
    }
  }

  /** More than half of the members have reached `x`. */
  predicate ByMajority(s: seq<nat>, x: nat) {
    2 * CountGe(s, x) > |s|
  }

  /** Position size/2 of the descending list is the largest index a strict majority has reached, for
      every cluster size. */
  lemma QuorumIndexIsLargest(s: seq<nat>, x: nat)
    requires s != []
    ensures ByMajority(s, x) <==> x <= SortDesc(s)[|s| / 2]
  {
    SortKeeps(s, x);
    CountBounds(SortDesc(s), x, |s| / 2);
  }

  /** The match list that is sorted: the leader counts itself with its own last index. */
  function Matches(n: Node): (r: seq<nat>)
    requires LogOk(n)
    ensures |r| == |n.cluster|
    ensures forall j :: 0 <= j < |r| ==>
              r[j] == if j == n.clusterIndex then n.tailLogIndex - 1 else n.cluster[j].matchIndex
  {
    seq<nat>(|n.cluster|, j requires 0 <= j < |n.cluster| =>
      if j == n.clusterIndex then n.tailLogIndex - 1 else n.cluster[j].matchIndex)
  }

  // ---------------------------------------------------------------- commit

  /** Absolute index of a position of the log vector. */
  function IndexOf(n: Node, p: nat): nat
    requires LogOk(n) && 1 <= p
  {
    Oldest(n) + p - 1
  }

  function Signal1(e: Entry): Entry {
    if e.committed.Dropped? then e else e.(committed := Signalled)
  }

  /** The log with the commit signals of the indexes in (lo, hi] raised. */
  function SignalLog(n: Node, lo: nat, hi: nat): (r: seq<Entry>)
    requires LogOk(n)
    ensures |r| == |n.log| && r[0] == n.log[0]
    ensures forall p :: 1 <= p < |r| ==> r[p] == if lo < IndexOf(n, p) <= hi then Signal1(n.log[p]) else n.log[p]
  {
    seq<Entry>(|n.log|, p requires 0 <= p < |n.log| =>
      if p >= 1 && lo < IndexOf(n, p) <= hi then Signal1(n.log[p]) else n.log[p])
  }

  /** What `advance_commit_index` relies on: a leader has trimmed nothing uncommitted. */
  predicate CommitReady(n: Node) {
    LogOk(n) && ClusterOk(n) && (n.role.Leader? ==> Oldest(n) <= n.commitIndex + 1)
  }

  function QuorumIndex(n: Node): nat
    requires LogOk(n) && ClusterOk(n)
  {
    SortDesc(Matches(n))[|n.cluster| / 2]
  }

  predicate Commits(n: Node)
    requires CommitReady(n)
  {
    && n.role.Leader?
    && n.commitIndex < QuorumIndex(n) < n.tailLogIndex
    && EntryAt(n, QuorumIndex(n)).term == n.currentTerm
  }

  function AdvanceCommit(n: Node): Node
    requires CommitReady(n)
  {
    if Commits(n) then n.(commitIndex := QuorumIndex(n), log := SignalLog(n, n.commitIndex, QuorumIndex(n))) else n
  }

  // ---------------------------------------------------------------- apply

  function Cleared(e: Entry): Entry {
    Entry([], e.term, Dropped, 0, |e.command|)
  }

  /** End of the range that can be applied now. */
  function ApplyEnd(n: Node): (hi: nat)
    requires LogOk(n)
    ensures hi >= n.lastApplied
  {
    if n.role.Leader? && Oldest(n) <= n.lastApplied then Max(n.lastApplied, Min(n.tailLogIndex, n.commitIndex + 1))
    else n.lastApplied
  }

  /** The log with the indexes in [lo, hi) applied: command, ring slot and signal cleared. */
  function ClearLog(n: Node, lo: nat, hi: nat): (r: seq<Entry>)
    requires LogOk(n)
    ensures |r| == |n.log| && r[0] == n.log[0]
    ensures forall p :: 1 <= p < |r| ==> r[p] == if lo <= IndexOf(n, p) < hi then Cleared(n.log[p]) else n.log[p]
  {
    seq<Entry>(|n.log|, p requires 0 <= p < |n.log| =>
      if p >= 1 && lo <= IndexOf(n, p) < hi then Cleared(n.log[p]) else n.log[p])
  }

  /** Commands handed to the state machine for the indexes in [lo, hi): the non-empty ones, in order. */
  function CommandsOf(n: Node, lo: nat, hi: nat): seq<seq<Byte>>
    requires LogOk(n) && Oldest(n) <= lo && hi <= n.tailLogIndex
  {
    if hi <= lo then []
    else
      var c := EntryAt(n, hi - 1).command;
      CommandsOf(n, lo, hi - 1) + (if c == [] then [] else [c])
  }

  function ApplyPending(n: Node): Node
    requires LogOk(n)
  {
    n.(log := ClearLog(n, n.lastApplied, ApplyEnd(n)), lastApplied := ApplyEnd(n))
  }

  /** What the state machine receives. */
  function ApplyOutput(n: Node): seq<seq<Byte>>
    requires LogOk(n)
  {
    if ApplyEnd(n) == n.lastApplied then [] else CommandsOf(n, n.lastApplied, ApplyEnd(n))
  }

  // ---------------------------------------------------------------- slot collection and trimming

  /** Least match index among the first `k` members, the leader aside, and at most its own last index. */
  function MinMatch(n: Node, k: nat): (r: nat)
    requires LogOk(n) && k <= |n.cluster|
    ensures r <= n.tailLogIndex - 1
    ensures forall j :: 0 <= j < k && j != n.clusterIndex ==> r <= n.cluster[j].matchIndex
  {
    if k == 0 then n.tailLogIndex - 1
    else if k - 1 == n.clusterIndex then MinMatch(n, k - 1)
    else Min(MinMatch(n, k - 1), n.cluster[k - 1].matchIndex)
  }

  function FreedMap(m: LogSlotMap, gcUpTo: nat, upTo: nat): LogSlotMap {
    map i | i in m && !(gcUpTo < i <= upTo) :: m[i]
  }

  /** Entries that `trim_log_locked` removes from the front of the vector. */
  function Removable(n: Node, minMatch: nat): (r: nat)
    requires LogOk(n)
    ensures r <= |n.log| - 1
    ensures r > 0 ==> Oldest(n) + r <= Min(minMatch, n.lastApplied)
  {
    var upTo := Min(minMatch, n.lastApplied);
    if n.logTrimThreshold == 0 || |n.log| <= 1 || upTo <= Oldest(n) || upTo - Oldest(n) < n.logTrimThreshold then 0
    else Min(upTo - Oldest(n), |n.log| - 1)
  }

  function TrimLog(n: Node, minMatch: nat): Node
    requires LogOk(n)
  {
    n.(log := [n.log[0]] + n.log[1 + Removable(n, minMatch)..])
  }

  /** `do_slot_gc`. */
  ghost function DoSlotGc(n: Node): Node
    requires LogOk(n)
  {
    if !n.role.Leader? then n
    else
      var minMatch := MinMatch(n, |n.cluster|);
      var live := FreedMap(n.logSlotMap, n.gcUpTo, minMatch);
      var n1 := n.(logSlotMap := live, gcUpTo := minMatch, gcHasRun := true,
                   headSlot := if live == n.logSlotMap then n.headSlot else HeadOf(live, n.tailSlot));
      TrimLog(n1, minMatch)
  }

  // ---------------------------------------------------------------- persist and append

  /** The header sector is written only when term or vote differ from what was last written. */
  function PersistHeader(n: Node): Node
    requires ClusterOk(n)
  {
    if !n.persistedInit || n.currentTerm != n.persistedTerm || VotedFor(n) != n.persistedVotedFor then
      n.(diskTerm := n.currentTerm, diskVotedFor := VotedFor(n),
         persistedInit := true, persistedTerm := n.currentTerm, persistedVotedFor := VotedFor(n))
    else n
  }

  /** Slot counts of the newest `k` entries. */
  function NewestNeeds(n: Node, k: nat): (r: seq<nat>)
    requires k < |n.log|
    ensures |r| == k && forall i :: 0 <= i < k ==> r[i] == SlotsForEntry(|n.log[|n.log| - k + i].command|) && r[i] >= 1
  {
    seq<nat>(k, i requires 0 <= i < k => SlotsForEntry(|n.log[|n.log| - k + i].command|))
  }

  /** `persist_circular` with the newest `k` entries, on a single-extent ring: slots are taken, and
      recorded if the node leads. */
  function PersistLog(n: Node, k: nat): Node
    requires LogOk(n) && ClusterOk(n) && k < |n.log|
  {
    var needs := NewestNeeds(n, k);
    PersistHeader(
      n.(tailSlot := Ptr(needs, n.tailSlot, n.ringSlots, k),
         logSlotMap := if n.role.Leader?
             then Recorded(n.logSlotMap, n.tailLogIndex - k, needs, n.tailSlot, n.ringSlots, k)
                       else n.logSlotMap))
  }

  function NewEntries(term: nat, commands: seq<seq<Byte>>): (r: seq<Entry>)
    ensures |r| == |commands|
    ensures forall i :: 0 <= i < |r| ==> r[i] == Entry(commands[i], term, Waiting, 0, 0)
  {
    seq<Entry>(|commands|, i requires 0 <= i < |commands| => Entry(commands[i], term, Waiting, 0, 0))
  }

  /** The append part of `apply_internal`, once the capacity check has passed. */
  function AppendCommands(n: Node, commands: seq<seq<Byte>>): Node
    requires LogOk(n) && ClusterOk(n)
  {
    PersistLog(n.(log := n.log + NewEntries(n.currentTerm, commands), tailLogIndex := n.tailLogIndex + |commands|),
               |commands|)
  }

  /** A client batch is taken by a leader whose capacity check passes. */
  predicate TakesBatch(n: Node, commands: seq<seq<Byte>>) {
    n.role.Leader? && commands != [] && CanWriteAll(n.logSlotMap, n.tailSlot, n.headSlot, n.ringSlots, Needs(commands))
  }

  // ---------------------------------------------------------------- durable vote

  /** What a restarted server would find on disk is what this one has in memory. */
  predicate Durable(n: Node)
    requires ClusterOk(n)
  {
    && n.diskTerm == n.currentTerm && n.diskVotedFor == VotedFor(n)
    && (n.persistedInit ==> n.persistedTerm == n.diskTerm && n.persistedVotedFor == n.diskVotedFor)
  }
}
