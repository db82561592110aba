/** The leader's trimmed log vector against the unbounded log (core/src/raft_commit.cpp,
    core/src/raft_ring_helpers.cpp): append, commit, apply, collect and trim. */
module LeaderLog {
  import opened Basics
  import opened Ring
  import opened Types
  import opened Commit

  /** Entry `i` of the unbounded log as it must look now: as it was appended, signalled once committed in this
      leadership, cleared once applied in it. `c0` and `a0` are commit and apply index at its start. */
  function Seen(e: Entry, i: nat, c0: nat, commit: nat, a0: nat, lastApplied: nat): Entry {
    var signalled := if c0 < i <= commit then Signal1(e) else e;
    if a0 <= i < lastApplied then Cleared(signalled) else signalled
  }

  /** The vector holds the newest part of the unbounded log `full` (position = absolute index), entry by entry,
      and nothing that is still to be applied has been trimmed. */
  ghost predicate Tracks(n: Node, full: seq<Entry>, c0: nat, a0: nat) {
    && LogOk(n) && n.tailLogIndex == |full|
    && Oldest(n) <= n.lastApplied <= n.commitIndex + 1 && n.commitIndex < n.tailLogIndex
    && a0 <= n.lastApplied && c0 <= n.commitIndex
    && forall i :: Oldest(n) <= i < |full| ==> EntryAt(n, i) == Seen(full[i], i, c0, n.commitIndex, a0, n.lastApplied)
  }

  /** The non-empty commands of the indexes [lo, hi), in order. */
  function NonEmpty(full: seq<Entry>, lo: nat, hi: nat): seq<seq<Byte>>
    requires hi <= |full|
  {
    if hi <= lo then []
    else NonEmpty(full, lo, hi - 1) + (if full[hi - 1].command == [] then [] else [full[hi - 1].command])
  }

  lemma {:induction false} NonEmptySplit(full: seq<Entry>, lo: nat, mid: nat, hi: nat)
    requires lo <= mid <= hi <= |full|
    ensures NonEmpty(full, lo, hi) == NonEmpty(full, lo, mid) + NonEmpty(full, mid, hi)
    decreases hi
  {
    if mid < hi {
      NonEmptySplit(full, lo, mid, hi - 1);
    }
  }

  lemma {:induction false} NonEmptyPrefix(full: seq<Entry>, more: seq<Entry>, lo: nat, hi: nat)
    requires hi <= |full|
    ensures NonEmpty(full + more, lo, hi) == NonEmpty(full, lo, hi)
  {
    if lo < hi {
      NonEmptyPrefix(full, more, lo, hi - 1);
    }
  }

  /** Log-relevant fields are the same. */
  predicate SameLogState(n: Node, n': Node) {
    && n'.log == n.log && n'.tailLogIndex == n.tailLogIndex && n'.lastApplied == n.lastApplied
    && n'.commitIndex == n.commitIndex
  }

  lemma SameTracks(n: Node, n': Node, full: seq<Entry>, c0: nat, a0: nat)
    requires Tracks(n, full, c0, a0) && SameLogState(n, n')
    ensures Tracks(n', full, c0, a0)
  {
    forall i | Oldest(n) <= i < |full|
      ensures EntryAt(n', i) == Seen(full[i], i, c0, n.commitIndex, a0, n.lastApplied)
    {
      assert EntryAt(n, i) == Seen(full[i], i, c0, n.commitIndex, a0, n.lastApplied);
    }
  }

  lemma AppendTracks(n: Node, commands: seq<seq<Byte>>, full: seq<Entry>, c0: nat, a0: nat)
    requires ClusterOk(n) && Tracks(n, full, c0, a0)
    ensures Tracks(AppendCommands(n, commands), full + NewEntries(n.currentTerm, commands), c0, a0)
    ensures Oldest(AppendCommands(n, commands)) == Oldest(n)
  {
    var added := NewEntries(n.currentTerm, commands);
    var n1 := n.(log := n.log + added, tailLogIndex := n.tailLogIndex + |commands|);
    var full' := full + added;
    hide PersistLog;
    assert SameLogState(n1, AppendCommands(n, commands)) by {
      PersistSameLog(n1, |commands|);
    }
    forall i | Oldest(n) <= i < |full'|
      ensures EntryAt(n1, i) == Seen(full'[i], i, c0, n.commitIndex, a0, n.lastApplied)
    {
      if i < |full| {
        assert EntryAt(n, i) == Seen(full[i], i, c0, n.commitIndex, a0, n.lastApplied);
        assert EntryAt(n1, i) == EntryAt(n, i);
      } else {
        assert EntryAt(n1, i) == added[i - |full|];
      }
    }
    SameTracks(n1, AppendCommands(n, commands), full', c0, a0);
  }

  lemma PersistSameLog(n: Node, k: nat)
    requires LogOk(n) && ClusterOk(n) && k < |n.log|
    ensures SameLogState(n, PersistLog(n, k)) && PersistLog(n, k).cluster == n.cluster
    ensures PersistLog(n, k).role == n.role && PersistLog(n, k).currentTerm == n.currentTerm
  {}

  lemma CommitTracks(n: Node, full: seq<Entry>, c0: nat, a0: nat)
    requires ClusterOk(n) && Tracks(n, full, c0, a0)
    ensures CommitReady(n) && Tracks(AdvanceCommit(n), full, c0, a0)
    ensures Oldest(AdvanceCommit(n)) == Oldest(n)
  {
    hide QuorumIndex;
    var n' := AdvanceCommit(n);
    forall i | Oldest(n) <= i < |full|
      ensures EntryAt(n', i) == Seen(full[i], i, c0, n'.commitIndex, a0, n.lastApplied)
    {
      assert EntryAt(n, i) == Seen(full[i], i, c0, n.commitIndex, a0, n.lastApplied);
      assert IndexOf(n, LogSlice(n, i)) == i;
    }
  }

  /** Applying clears exactly the applied entries, and hands out their non-empty commands in order. */
  lemma ApplyTracks(n: Node, full: seq<Entry>, c0: nat, a0: nat)
    requires Tracks(n, full, c0, a0)
    ensures Tracks(ApplyPending(n), full, c0, a0)
    ensures ApplyOutput(n) == NonEmpty(full, n.lastApplied, ApplyPending(n).lastApplied)
    ensures Oldest(ApplyPending(n)) == Oldest(n)
  {
    var n', hi := ApplyPending(n), ApplyEnd(n);
    forall i | Oldest(n) <= i < |full| ensures EntryAt(n', i) == Seen(full[i], i, c0, n.commitIndex, a0, hi) {
      assert EntryAt(n, i) == Seen(full[i], i, c0, n.commitIndex, a0, n.lastApplied);
      assert IndexOf(n, LogSlice(n, i)) == i;
    }
    OutputIs(n, full, c0, a0, hi);
  }

  lemma {:induction false} OutputIs(n: Node, full: seq<Entry>, c0: nat, a0: nat, hi: nat)
    requires Tracks(n, full, c0, a0) && n.lastApplied <= hi <= |full|
    ensures CommandsOf(n, n.lastApplied, hi) == NonEmpty(full, n.lastApplied, hi)
  {
    if n.lastApplied < hi {
      OutputIs(n, full, c0, a0, hi - 1);
      assert EntryAt(n, hi - 1) == Seen(full[hi - 1], hi - 1, c0, n.commitIndex, a0, n.lastApplied);
    }
  }

  lemma TrimTracks(n: Node, minMatch: nat, full: seq<Entry>, c0: nat, a0: nat)
    requires Tracks(n, full, c0, a0)
    ensures Tracks(TrimLog(n, minMatch), full, c0, a0)
    ensures Oldest(n) <= Oldest(TrimLog(n, minMatch))
    ensures Oldest(TrimLog(n, minMatch)) == Oldest(n) || Oldest(TrimLog(n, minMatch)) <= minMatch
  {
    var n', r := TrimLog(n, minMatch), Removable(n, minMatch);
    forall i | Oldest(n) + r <= i < |full|
      ensures EntryAt(n', i) == Seen(full[i], i, c0, n.commitIndex, a0, n.lastApplied)
    {
      assert EntryAt(n, i) == Seen(full[i], i, c0, n.commitIndex, a0, n.lastApplied);
      assert EntryAt(n', i) == n'.log[1 + (i - Oldest(n) - r)];
    }
  }

  /** Collecting and trimming never touch what is still in the vector, and keep the entry in front of the
      slowest member's next one. */
  lemma GcTracks(n: Node, full: seq<Entry>, c0: nat, a0: nat)
    requires Tracks(n, full, c0, a0)
    ensures Tracks(DoSlotGc(n), full, c0, a0)
    ensures Oldest(n) <= Oldest(DoSlotGc(n))
    ensures Oldest(DoSlotGc(n)) == Oldest(n) || Oldest(DoSlotGc(n)) <= MinMatch(n, |n.cluster|)
    ensures DoSlotGc(n).cluster == n.cluster && DoSlotGc(n).commitIndex == n.commitIndex
    ensures DoSlotGc(n).lastApplied == n.lastApplied
    ensures DoSlotGc(n).tailLogIndex == n.tailLogIndex
  {
    if n.role.Leader? {
      var minMatch := MinMatch(n, |n.cluster|);
      var live := FreedMap(n.logSlotMap, n.gcUpTo, minMatch);
      var n1 := n.(logSlotMap := live, gcUpTo := minMatch, gcHasRun := true,
                   headSlot := if live == n.logSlotMap then n.headSlot else HeadOf(live, n.tailSlot));
      SameTracks(n, n1, full, c0, a0);
      TrimTracks(n1, minMatch, full, c0, a0);
    }
  }

  /** What a collection leaves in memory. It removes something exactly if a threshold is set and at least so many
      entries are in memory that everybody has and that are applied, and then all of these; so fewer of them remain. */
  lemma TrimBounds(n: Node)
    requires LogOk(n) && n.role.Leader?
    ensures var n', upTo := DoSlotGc(n), Min(MinMatch(n, |n.cluster|), n.lastApplied);
            && (n'.log != n.log <==> 0 < n.logTrimThreshold && Oldest(n) + n.logTrimThreshold <= upTo)
            && LogOk(n') && (n'.log != n.log ==> Oldest(n') == upTo)
            && (n.logTrimThreshold > 0 && Oldest(n') < upTo ==> upTo - Oldest(n') < n.logTrimThreshold)
  {
    hide HeadOf;
    hide MinMatch;
    var k := Removable(n, MinMatch(n, |n.cluster|));
    assert n.log == [n.log[0]] + n.log[1..];
    assert |[n.log[0]] + n.log[1 + k..]| == |n.log| - k;
  }

  /** What a commit does to the signal of an entry: raised if the entry is newly committed and has one, otherwise as it
      was; a signal that was dropped is not raised again. */
  lemma SignalsExactly(n: Node, i: nat)
    requires CommitReady(n) && Oldest(n) <= i < n.tailLogIndex
    ensures var n' := AdvanceCommit(n);
            && LogOk(n') && Oldest(n') == Oldest(n) && n'.tailLogIndex == n.tailLogIndex
            && EntryAt(n', i).(committed := EntryAt(n, i).committed) == EntryAt(n, i)
            && EntryAt(n', i).committed ==
               if n.commitIndex < i <= n'.commitIndex && !EntryAt(n, i).committed.Dropped? then Signalled
               else EntryAt(n, i).committed
  {
    hide QuorumIndex;
    assert IndexOf(n, LogSlice(n, i)) == i;
  }

  /** A server that does not lead commits, applies, collects and takes nothing. */
  lemma OnlyLeadersAct(n: Node, commands: seq<seq<Byte>>)
    requires CommitReady(n) && !n.role.Leader?
    ensures AdvanceCommit(n) == n && ApplyPending(n) == n && ApplyOutput(n) == [] && DoSlotGc(n) == n
    ensures !TakesBatch(n, commands)
  {
    assert ClearLog(n, n.lastApplied, n.lastApplied) == n.log;
  }
}
