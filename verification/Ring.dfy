/** Slot allocation on the circular log: the capacity check and head computation of
    core/src/raft_ring_helpers.cpp and the placement loop of core/src/raft_persist.cpp. */
module Ring {
  import opened Basics

  /** The ring slots one log entry occupies. */
  datatype SlotRecord = SlotRecord(start: nat, numSlots: nat) {
    function End(): nat { start + numSlots }
  }

  type LogSlotMap = map<nat, SlotRecord>

  predicate Apart(a: SlotRecord, b: SlotRecord) {
    a.End() <= b.start || b.End() <= a.start
  }

  // ---------------------------------------------------------------- capacity check and placement

  /** Slot an entry of `k` slots is put at when the write pointer is `slot`. */
  function PlaceAt(slot: nat, k: nat, ringSlots: nat): nat {
    if slot + k > ringSlots then 0 else slot
  }

  /** Write pointer after the first `i` entries of the given slot counts. */
  function Ptr(needs: seq<nat>, slot: nat, ringSlots: nat, i: nat): nat
    requires i <= |needs|
  {
    if i == 0 then slot
    else PlaceAt(Ptr(needs, slot, ringSlots, i - 1), needs[i - 1], ringSlots) + needs[i - 1]
  }

  /** The ring-end test fires for entry `i`. */
  predicate WrapsAt(needs: seq<nat>, slot: nat, ringSlots: nat, i: nat)
    requires i < |needs|
  {
    Ptr(needs, slot, ringSlots, i) + needs[i] > ringSlots
  }

  /** The wrap flag after the first `i` entries. */
  predicate Wrapped(needs: seq<nat>, slot: nat, wrapped: bool, ringSlots: nat, i: nat)
    requires i <= |needs|
  {
    if i == 0 then wrapped
    else Wrapped(needs, slot, wrapped, ringSlots, i - 1) || WrapsAt(needs, slot, ringSlots, i - 1)
  }

  /** Entry `i` passes the capacity check: once wrapped, it must end before the head. */
  predicate PassesAt(needs: seq<nat>, tail: nat, head: nat, ringSlots: nat, i: nat)
    requires i < |needs|
  {
    Wrapped(needs, tail, tail < head, ringSlots, i + 1) ==> Ptr(needs, tail, ringSlots, i + 1) <= head
  }

  predicate PassesAll(needs: seq<nat>, tail: nat, head: nat, ringSlots: nat) {
    forall i :: 0 <= i < |needs| ==> PassesAt(needs, tail, head, ringSlots, i)
  }

  /** `can_write_all`: nothing is checked while no record is live. */
  predicate CanWriteAll(m: LogSlotMap, tail: nat, head: nat, ringSlots: nat, needs: seq<nat>) {
    m == map[] || PassesAll(needs, tail, head, ringSlots)
  }

  function Needs(commands: seq<seq<Byte>>): (r: seq<nat>)
    ensures |r| == |commands|
    ensures forall i :: 0 <= i < |r| ==> r[i] == SlotsForEntry(|commands[i]|) && r[i] >= 1
  {
    seq(|commands|, i requires 0 <= i < |commands| => SlotsForEntry(|commands[i]|))
  }

  method CheckCanWriteAll(m: LogSlotMap, tail: nat, head: nat, ringSlots: nat, commands: seq<seq<Byte>>)
    returns (ok: bool)
    ensures ok == CanWriteAll(m, tail, head, ringSlots, Needs(commands))
  {
    if m == map[] {
      return true;
    }
    var slot: nat := tail;
    var wrapped := tail < head;
    ghost var needs := Needs(commands);
    var i := 0;
    while i < |commands|
      invariant 0 <= i <= |commands|
      invariant slot == Ptr(needs, tail, ringSlots, i)
      invariant wrapped == Wrapped(needs, tail, tail < head, ringSlots, i)
      invariant forall k :: 0 <= k < i ==> PassesAt(needs, tail, head, ringSlots, k)
    {
      var needed := SlotsForEntry(|commands[i]|);
      assert needed == needs[i];
      if slot + needed > ringSlots {
        slot := 0;
        wrapped := true;
      }
      assert wrapped == Wrapped(needs, tail, tail < head, ringSlots, i + 1);
      assert slot + needed == Ptr(needs, tail, ringSlots, i + 1);
      if wrapped && slot + needed > head {
        assert !PassesAt(needs, tail, head, ringSlots, i);
        return false;
      }
      slot := slot + needed;
      i := i + 1;
    }
    ok := true;
  }

  /** Where `persist_circular` puts entry `i` of a batch on a single-extent ring. */
  function PlaceOf(needs: seq<nat>, slot: nat, ringSlots: nat, i: nat): SlotRecord
    requires i < |needs|
  {
    SlotRecord(PlaceAt(Ptr(needs, slot, ringSlots, i), needs[i], ringSlots), needs[i])
  }

  /** The slot map once the first `n` entries of a batch are recorded from index `first` on. */
  function Recorded(m: LogSlotMap, first: nat, needs: seq<nat>, slot: nat, ringSlots: nat, n: nat): LogSlotMap
    requires n <= |needs|
  {
    if n == 0 then m
    else Recorded(m, first, needs, slot, ringSlots, n - 1)[first + n - 1 := PlaceOf(needs, slot, ringSlots, n - 1)]
  }

  lemma {:induction false} RecordedAt(m: LogSlotMap, first: nat, needs: seq<nat>, slot: nat, ringSlots: nat, n: nat)
    requires n <= |needs|
    ensures forall i :: i in Recorded(m, first, needs, slot, ringSlots, n) <==> i in m || first <= i < first + n
    ensures forall i :: first <= i < first + n ==>
              Recorded(m, first, needs, slot, ringSlots, n)[i] == PlaceOf(needs, slot, ringSlots, i - first)
    ensures forall i :: i in m && i < first ==> Recorded(m, first, needs, slot, ringSlots, n)[i] == m[i]
  {
    if n > 0 {
      RecordedAt(m, first, needs, slot, ringSlots, n - 1);
    }
  }

  // ---------------------------------------------------------------- head of the live region

  /** `head` is the first live start slot met when moving forward from `tail`, wrapping once. */
  ghost predicate IsHead(m: LogSlotMap, tail: nat, head: nat) {
    if m == map[] then head == tail
    else if exists i :: i in m && m[i].start >= tail then
      && (exists i :: i in m && m[i].start == head && head >= tail)
      && (forall i :: i in m && m[i].start >= tail ==> head <= m[i].start)
    else
      && (exists i :: i in m && m[i].start == head)
      && (forall i :: i in m ==> head <= m[i].start)
  }

  lemma HeadIsUnique(m: LogSlotMap, tail: nat, a: nat, b: nat)
    requires IsHead(m, tail, a) && IsHead(m, tail, b)
    ensures a == b
  {}

  /** `recompute_head_slot`: one pass over the map, keeping the least start on each side of the tail. */
  method RecomputeHead(m: LogSlotMap, tail: nat) returns (head: nat)
    ensures IsHead(m, tail, head)
  {
    if m == map[] {
      return tail;
    }
    var minAhead: Option<nat> := None;
    var minWrap: Option<nat> := None;
    var keys := m.Keys;
    while keys != {}
      invariant keys <= m.Keys
      invariant minAhead.None? ==> forall i :: i in m.Keys - keys ==> m[i].start < tail
      invariant minWrap.None? ==> forall i :: i in m.Keys - keys ==> m[i].start >= tail
      invariant minAhead.Some? ==> minAhead.value >= tail && (exists i :: i in m && m[i].start == minAhead.value) &&
                                   forall i :: i in m.Keys - keys && m[i].start >= tail ==> minAhead.value <= m[i].start
      invariant minWrap.Some? ==> (exists i :: i in m && m[i].start == minWrap.value) &&
                                  forall i :: i in m.Keys - keys && m[i].start < tail ==> minWrap.value <= m[i].start
      decreases keys
    {
      var k :| k in keys;
      var sr := m[k];
      if sr.start >= tail {
        if minAhead.None? || sr.start < minAhead.value {
          minAhead := Some(sr.start);
        }
      } else {
        if minWrap.None? || sr.start < minWrap.value {
          minWrap := Some(sr.start);
        }
      }
      keys := keys - {k};
    }
    assert m.Keys - keys == m.Keys;
    if minAhead.Some? {
      head := minAhead.value;
    } else {
      assert exists k :: k in m.Keys;
      head := minWrap.value;
    }
  }

  lemma {:induction false} FindHead(m: LogSlotMap, tail: nat) returns (h: nat)
    ensures IsHead(m, tail, h)
  {
    if m == map[] {
      h := tail;
    } else {
      var k :| k in m.Keys;
      var m' := m - {k};
      var h' := FindHead(m', tail);
      assert forall i :: i in m <==> i == k || i in m';
      if m' == map[] {
        h := m[k].start;
      } else if m[k].start >= tail {
        if exists i :: i in m' && m'[i].start >= tail {
          h := Min(h', m[k].start);
        } else {
          h := m[k].start;
        }
      } else {
        if exists i :: i in m' && m'[i].start >= tail {
          h := h';
        } else {
          h := Min(h', m[k].start);
        }
      }
    }
  }

  ghost function HeadOf(m: LogSlotMap, tail: nat): (h: nat)
    ensures IsHead(m, tail, h)
  {
    assert exists h :: IsHead(m, tail, h) by {
      var h0 := FindHead(m, tail);
    }
    var h :| IsHead(m, tail, h);
    h
  }

  // ---------------------------------------------------------------- the free arc

  /** A live record is in bounds, not cut by the write pointer, and outside the arc that runs forward
      from `tail` to `head`. */
  predicate RecordOk(r: SlotRecord, tail: nat, head: nat, ringSlots: nat) {
    && r.numSlots > 0 && r.End() <= ringSlots
    && (r.End() <= tail || r.start >= tail)
    && (tail < head ==> r.End() <= tail || r.start >= head)
    && (head < tail ==> r.start >= head && r.End() <= tail)
  }

  /** Live records are in bounds, pairwise apart, and leave the arc from tail to head free. */
  ghost predicate RingOk(m: LogSlotMap, tail: nat, head: nat, ringSlots: nat) {
    && tail <= ringSlots && head <= ringSlots
    && (forall i :: i in m ==> RecordOk(m[i], tail, head, ringSlots))
    && (forall i, j {:trigger Apart(m[i], m[j])} :: i in m && j in m && i != j ==> Apart(m[i], m[j]))
    && (m == map[] ==> head == tail)
  }

  /** Free slots in front of the write pointer. With live records and `tail == head` the ring is full. */
  function FreeArc(m: LogSlotMap, tail: nat, head: nat, ringSlots: nat): int {
    if tail == head then (if m == map[] then ringSlots else 0)
    else if tail < head then head - tail
    else ringSlots - tail + head
  }

  /** Slots the write pointer moves over for an entry of `k` slots, the gap at the ring end included. */
  function Cost(slot: nat, k: nat, ringSlots: nat): int {
    if slot + k > ringSlots then ringSlots - slot + k else k
  }

  /** Slots the write pointer moves over for the first `i` entries. */
  function Advance(needs: seq<nat>, slot: nat, ringSlots: nat, i: nat): int
    requires i <= |needs|
  {
    if i == 0 then 0
    else Advance(needs, slot, ringSlots, i - 1) + Cost(Ptr(needs, slot, ringSlots, i - 1), needs[i - 1], ringSlots)
  }

  /** The ring-end test never fires once the wrap flag is set. */
  ghost predicate NeverRewraps(needs: seq<nat>, slot: nat, wrapped: bool, ringSlots: nat) {
    forall i :: 0 <= i < |needs| ==>
      !(Wrapped(needs, slot, wrapped, ringSlots, i) && WrapsAt(needs, slot, ringSlots, i))
  }

  /** Every entry needs a slot, and none more than the ring has. */
  ghost predicate Sized(needs: seq<nat>, ringSlots: nat) {
    forall i :: 0 <= i < |needs| ==> 1 <= needs[i] <= ringSlots
  }

  lemma {:induction false} PtrBound(needs: seq<nat>, slot: nat, ringSlots: nat, i: nat)
    requires Sized(needs, ringSlots) && slot <= ringSlots && i <= |needs|
    ensures Ptr(needs, slot, ringSlots, i) <= ringSlots
  {
    if i > 0 {
      PtrBound(needs, slot, ringSlots, i - 1);
    }
  }

  lemma {:induction false} AdvanceGrows(needs: seq<nat>, slot: nat, ringSlots: nat, i: nat, j: nat)
    requires Sized(needs, ringSlots) && slot <= ringSlots && i <= j <= |needs|
    ensures Advance(needs, slot, ringSlots, i) + (j - i) <= Advance(needs, slot, ringSlots, j)
    decreases j
  {
    if i < j {
      AdvanceGrows(needs, slot, ringSlots, i, j - 1);
      PtrBound(needs, slot, ringSlots, j - 1);
    }
  }

  /** The pointer's travel is its displacement plus one lap per wrap: at least one lap if the flag was
      set on the way, and exactly that if no entry wraps twice. */
  lemma {:induction false} AdvanceByLaps(needs: seq<nat>, slot: nat, wrapped: bool, ringSlots: nat, i: nat)
    requires i <= |needs|
    ensures var laps := if Wrapped(needs, slot, wrapped, ringSlots, i) && !wrapped then ringSlots else 0;
            && Advance(needs, slot, ringSlots, i) >= Ptr(needs, slot, ringSlots, i) - slot + laps
            && (NeverRewraps(needs, slot, wrapped, ringSlots) ==>
                  Advance(needs, slot, ringSlots, i) == Ptr(needs, slot, ringSlots, i) - slot + laps)
            && (wrapped ==> Wrapped(needs, slot, wrapped, ringSlots, i))
  {
    if i > 0 {
      AdvanceByLaps(needs, slot, wrapped, ringSlots, i - 1);
      assert NeverRewraps(needs, slot, wrapped, ringSlots) ==>
          !(Wrapped(needs, slot, wrapped, ringSlots, i - 1) && WrapsAt(needs, slot, ringSlots, i - 1));
    }
  }

  /** Every entry of a batch that passes fits the ring. */
  lemma PassingSized(tail: nat, head: nat, ringSlots: nat, needs: seq<nat>)
    requires head <= ringSlots && PassesAll(needs, tail, head, ringSlots)
    requires forall i :: 0 <= i < |needs| ==> needs[i] >= 1
    ensures Sized(needs, ringSlots)
  {
    forall i | 0 <= i < |needs| ensures needs[i] <= ringSlots {
      assert PassesAt(needs, tail, head, ringSlots, i);
    }
  }

  /** What a batch must meet besides the capacity check, and what its caller can evaluate before the call: no
      entry runs into the ring end a second time; the ring is not full; and if no record is live, the batch
      passes the test that the check then skips. */
  ghost predicate SafeBatch(m: LogSlotMap, tail: nat, head: nat, ringSlots: nat, needs: seq<nat>) {
    && NeverRewraps(needs, tail, tail < head, ringSlots)
    && (if m == map[] then PassesAll(needs, tail, head, ringSlots) else tail != head)
  }

  /** A pointer that has gone round and moved over more than a lap stays beyond it. */
  lemma {:induction false} PastLapStays(needs: seq<nat>, slot: nat, ringSlots: nat, i: nat, j: nat)
    requires slot <= ringSlots && i <= j <= |needs| && forall k :: 0 <= k < |needs| ==> needs[k] >= 1
    requires Wrapped(needs, slot, false, ringSlots, i) && Advance(needs, slot, ringSlots, i) > ringSlots
    ensures Wrapped(needs, slot, false, ringSlots, j) && Advance(needs, slot, ringSlots, j) > ringSlots
    decreases j
  {
    if i < j {
      PastLapStays(needs, slot, ringSlots, i, j - 1);
      AdvanceByLaps(needs, slot, false, ringSlots, j - 1);
    }
  }

  /** Exactly when an accepted batch stays inside the free arc. The capacity check tests neither condition. */
  lemma AcceptedStaysInArcIff(m: LogSlotMap, tail: nat, head: nat, ringSlots: nat, needs: seq<nat>)
    requires tail <= ringSlots && head <= ringSlots && (m == map[] ==> head == tail)
    requires needs != [] && forall i :: 0 <= i < |needs| ==> needs[i] >= 1
    requires CanWriteAll(m, tail, head, ringSlots, needs)
    ensures Advance(needs, tail, ringSlots, |needs|) <= FreeArc(m, tail, head, ringSlots)
       <==> SafeBatch(m, tail, head, ringSlots, needs)
  {
    if m == map[] {
      EmptyStaysInArcIff(tail, ringSlots, needs);
    } else {
      LiveStaysInArcIff(m, tail, head, ringSlots, needs);
    }
  }

  lemma LiveStaysInArcIff(m: LogSlotMap, tail: nat, head: nat, ringSlots: nat, needs: seq<nat>)
    requires m != map[] && tail <= ringSlots && head <= ringSlots
    requires needs != [] && forall i :: 0 <= i < |needs| ==> needs[i] >= 1
    requires PassesAll(needs, tail, head, ringSlots)
    ensures Advance(needs, tail, ringSlots, |needs|) <= FreeArc(m, tail, head, ringSlots)
       <==> tail != head && NeverRewraps(needs, tail, tail < head, ringSlots)
  {
    var n := |needs|;
    PassingSized(tail, head, ringSlots, needs);
    AdvanceGrows(needs, tail, ringSlots, 0, n);
    if tail != head && NeverRewraps(needs, tail, tail < head, ringSlots) {
      AdvanceByLaps(needs, tail, tail < head, ringSlots, n);
      PtrBound(needs, tail, ringSlots, n);
      assert PassesAt(needs, tail, head, ringSlots, n - 1);
    } else if tail != head {
      var i :| 0 <= i < n && Wrapped(needs, tail, tail < head, ringSlots, i) && WrapsAt(needs, tail, ringSlots, i);
      AdvanceByLaps(needs, tail, tail < head, ringSlots, i);
      AdvanceGrows(needs, tail, ringSlots, i + 1, n);
    }
  }

  /** With no live record the whole ring is free, and a batch stays within one lap exactly if it would pass the
      test and does not wrap twice. */
  lemma EmptyStaysInArcIff(tail: nat, ringSlots: nat, needs: seq<nat>)
    requires tail <= ringSlots && needs != [] && forall i :: 0 <= i < |needs| ==> needs[i] >= 1
    ensures Advance(needs, tail, ringSlots, |needs|) <= ringSlots
       <==> PassesAll(needs, tail, tail, ringSlots) && NeverRewraps(needs, tail, false, ringSlots)
  {
    var n := |needs|;
    if !PassesAll(needs, tail, tail, ringSlots) {
      var i :| 0 <= i < n && !PassesAt(needs, tail, tail, ringSlots, i);
      AdvanceByLaps(needs, tail, false, ringSlots, i + 1);
      PastLapStays(needs, tail, ringSlots, i + 1, n);
    } else if !NeverRewraps(needs, tail, false, ringSlots) {
      var i :| 0 <= i < n && Wrapped(needs, tail, false, ringSlots, i) && WrapsAt(needs, tail, ringSlots, i);
      AdvanceByLaps(needs, tail, false, ringSlots, i);
      PastLapStays(needs, tail, ringSlots, i + 1, n);
    } else {
      PassingSized(tail, tail, ringSlots, needs);
      PtrBound(needs, tail, ringSlots, n);
      AdvanceByLaps(needs, tail, false, ringSlots, n);
      assert PassesAt(needs, tail, tail, ringSlots, n - 1);
    }
  }

  /** A bound on the command size that rules out a second wrap: no command longer than the stretch
      behind the head. */
  lemma ShortCommandsNeverRewrap(m: LogSlotMap, tail: nat, head: nat, ringSlots: nat, needs: seq<nat>)
    requires m != map[] && head <= ringSlots && CanWriteAll(m, tail, head, ringSlots, needs)
    requires forall i :: 0 <= i < |needs| ==> needs[i] <= ringSlots - head
    ensures NeverRewraps(needs, tail, tail < head, ringSlots)
  {
    assert PassesAll(needs, tail, head, ringSlots);
    forall i | 0 <= i < |needs| && Wrapped(needs, tail, tail < head, ringSlots, i)
      ensures !WrapsAt(needs, tail, ringSlots, i)
    {
      assert i > 0 ==> PassesAt(needs, tail, head, ringSlots, i - 1);
    }
  }

  // ---------------------------------------------------------------- allocator soundness

  /** One entry placed inside the free arc is in bounds and apart from every live record; the ring stays
      sound and its arc shrinks by exactly what the entry used. */
  lemma PlaceOneSound(m: LogSlotMap, tail: nat, head: nat, ringSlots: nat, index: nat, k: nat)
    requires RingOk(m, tail, head, ringSlots) && index !in m && 1 <= k <= ringSlots
    requires Cost(tail, k, ringSlots) <= FreeArc(m, tail, head, ringSlots)
    ensures var at := PlaceAt(tail, k, ringSlots);
            var m' := m[index := SlotRecord(at, k)];
            && (forall i :: i in m ==> Apart(m[i], SlotRecord(at, k)))
            && RingOk(m', at + k, head, ringSlots)
            && FreeArc(m', at + k, head, ringSlots) == FreeArc(m, tail, head, ringSlots) - Cost(tail, k, ringSlots)
  {}

  lemma TailInRing(m: LogSlotMap, tail: nat, head: nat, ringSlots: nat)
    requires RingOk(m, tail, head, ringSlots)
    ensures tail <= ringSlots
  {}

  /** Any batch that stays inside the free arc is placed in bounds, pairwise apart and apart from every
      live record, and leaves the ring sound with exactly the remaining arc free. */
  lemma {:induction false} PlaceSound(m: LogSlotMap, tail: nat, head: nat, ringSlots: nat, first: nat, needs: seq<nat>,
                                      n: nat)
    requires RingOk(m, tail, head, ringSlots) && Sized(needs, ringSlots) && n <= |needs|
    requires forall i :: i in m ==> i < first
    requires Advance(needs, tail, ringSlots, |needs|) <= FreeArc(m, tail, head, ringSlots)
    ensures RingOk(Recorded(m, first, needs, tail, ringSlots, n), Ptr(needs, tail, ringSlots, n), head, ringSlots)
    ensures FreeArc(Recorded(m, first, needs, tail, ringSlots, n), Ptr(needs, tail, ringSlots, n), head, ringSlots)
         == FreeArc(m, tail, head, ringSlots) - Advance(needs, tail, ringSlots, n)
  {
    hide RingOk;
    hide FreeArc;
    if n > 0 {
      PlaceSound(m, tail, head, ringSlots, first, needs, n - 1);
      var m1 := Recorded(m, first, needs, tail, ringSlots, n - 1);
      var p1, k := Ptr(needs, tail, ringSlots, n - 1), needs[n - 1];
      assert first + n - 1 !in m1 by {
        RecordedAt(m, first, needs, tail, ringSlots, n - 1);
      }
      assert Cost(p1, k, ringSlots) <= FreeArc(m1, p1, head, ringSlots) by {
        TailInRing(m, tail, head, ringSlots);
        AdvanceGrows(needs, tail, ringSlots, n, |needs|);
      }
      PlaceOneSound(m1, p1, head, ringSlots, first + n - 1, k);
    }
  }

  /** The entries of a batch that stays inside the arc find room one after the other. */
  lemma RoomForNext(m: LogSlotMap, tail: nat, head: nat, ringSlots: nat, first: nat, needs: seq<nat>, n: nat)
    requires RingOk(m, tail, head, ringSlots) && Sized(needs, ringSlots) && n < |needs|
    requires forall i :: i in m ==> i < first
    requires Advance(needs, tail, ringSlots, |needs|) <= FreeArc(m, tail, head, ringSlots)
    ensures Cost(Ptr(needs, tail, ringSlots, n), needs[n], ringSlots) <=
            FreeArc(Recorded(m, first, needs, tail, ringSlots, n), Ptr(needs, tail, ringSlots, n), head, ringSlots)
  {
    PlaceSound(m, tail, head, ringSlots, first, needs, n);
    AdvanceGrows(needs, tail, ringSlots, n + 1, |needs|);
  }

  /** Accepted batches that meet the condition are placed in bounds, pairwise apart and apart from every live
      record, each at its place. */
  lemma AcceptedBatchSound(m: LogSlotMap, tail: nat, head: nat, ringSlots: nat, first: nat, needs: seq<nat>)
    requires RingOk(m, tail, head, ringSlots) && SafeBatch(m, tail, head, ringSlots, needs)
    requires needs != [] && (forall i :: 0 <= i < |needs| ==> needs[i] >= 1) && (forall i :: i in m ==> i < first)
    requires CanWriteAll(m, tail, head, ringSlots, needs)
    ensures var m' := Recorded(m, first, needs, tail, ringSlots, |needs|);
            && RingOk(m', Ptr(needs, tail, ringSlots, |needs|), head, ringSlots)
            && (forall i :: i in m ==> i in m' && m'[i] == m[i])
            && (forall i :: 0 <= i < |needs| ==> first + i in m' && m'[first + i] == PlaceOf(needs, tail, ringSlots, i))
  {
    AcceptedStaysInArcIff(m, tail, head, ringSlots, needs);
    PassingSized(tail, head, ringSlots, needs);
    PlaceSound(m, tail, head, ringSlots, first, needs, |needs|);
    RecordedAt(m, first, needs, tail, ringSlots, |needs|);
    var m' := Recorded(m, first, needs, tail, ringSlots, |needs|);
    forall i | 0 <= i < |needs| ensures first + i in m' && m'[first + i] == PlaceOf(needs, tail, ringSlots, i) {
      var j := first + i;
      assert j in m';
    }
  }

  // ---------------------------------------------------------------- the condition is exact

  predicate AtZero(r: SlotRecord) {
    r.start == 0 && r.numSlots >= 1
  }

  /** A ring that has gone round has a record at slot 0. */
  ghost predicate Anchored(m: LogSlotMap, tail: nat, head: nat) {
    m != map[] && tail <= head ==> exists i :: i in m && AtZero(m[i])
  }

  /** Damage that no further placement repairs: two records overlap, a record runs across the head or beyond the
      ring, or the pointer has passed the head while a record starts at slot 0 in front of it. */
  ghost predicate Damaged(m: LogSlotMap, tail: nat, head: nat, ringSlots: nat) {
    || (exists i, j {:trigger Apart(m[i], m[j])} :: i in m && j in m && i != j && !Apart(m[i], m[j]))
    || (exists i :: i in m && m[i].start < head < m[i].End())
    || (exists i :: i in m && m[i].End() > ringSlots)
    || (0 < head < tail && exists i :: i in m && AtZero(m[i]))
  }

  lemma DamagedIsUnsound(m: LogSlotMap, tail: nat, head: nat, ringSlots: nat)
    requires Damaged(m, tail, head, ringSlots)
    ensures !RingOk(m, tail, head, ringSlots)
  {
    if i :| i in m && m[i].start < head < m[i].End() {
      assert !RecordOk(m[i], tail, head, ringSlots);
    } else if i :| i in m && m[i].End() > ringSlots {
      assert !RecordOk(m[i], tail, head, ringSlots);
    } else if 0 < head < tail && exists i :: i in m && AtZero(m[i]) {
      var i :| i in m && AtZero(m[i]);
      assert !RecordOk(m[i], tail, head, ringSlots);
    }
  }

  lemma DamageStays(m: LogSlotMap, tail: nat, head: nat, ringSlots: nat, index: nat, k: nat)
    requires Damaged(m, tail, head, ringSlots) && index !in m && k >= 1
    ensures var at := PlaceAt(tail, k, ringSlots);
            Damaged(m[index := SlotRecord(at, k)], at + k, head, ringSlots)
  {
    var at := PlaceAt(tail, k, ringSlots);
    var m' := m[index := SlotRecord(at, k)];
    assert forall i :: i in m ==> i in m' && m'[i] == m[i];
    assert m'[index] == SlotRecord(at, k);
    if i, j :| i in m && j in m && i != j && !Apart(m[i], m[j]) {
      assert !Apart(m'[i], m'[j]);
    } else if i :| i in m && m[i].start < head < m[i].End() {
      assert m'[i].start < head < m'[i].End();
    } else if i :| i in m && m[i].End() > ringSlots {
      assert m'[i].End() > ringSlots;
    } else {
      var i :| i in m && AtZero(m[i]);
      assert AtZero(m'[i]);
      if at == 0 {
        assert !Apart(m'[i], m'[index]);
      }
    }
  }

  lemma {:induction false} DamageLasts(m: LogSlotMap, tail: nat, head: nat, ringSlots: nat, first: nat, needs: seq<nat>,
                                       i: nat, n: nat)
    requires i <= n <= |needs| && (forall k :: 0 <= k < |needs| ==> needs[k] >= 1) && (forall k :: k in m ==> k < first)
    requires Damaged(Recorded(m, first, needs, tail, ringSlots, i), Ptr(needs, tail, ringSlots, i), head, ringSlots)
    ensures Damaged(Recorded(m, first, needs, tail, ringSlots, n), Ptr(needs, tail, ringSlots, n), head, ringSlots)
    decreases n
  {
    hide Damaged;
    if i < n {
      DamageLasts(m, tail, head, ringSlots, first, needs, i, n - 1);
      RecordedAt(m, first, needs, tail, ringSlots, n - 1);
      DamageStays(Recorded(m, first, needs, tail, ringSlots, n - 1), Ptr(needs, tail, ringSlots, n - 1), head,
                  ringSlots,
                  first + n - 1, needs[n - 1]);
    }
  }

  /** Once the flag is set, a record starts at slot 0: an older one if it was set from the beginning. */
  lemma {:induction false} WrappedAtZero(m: LogSlotMap, tail: nat, wrapped: bool, ringSlots: nat, first: nat,
                                         needs: seq<nat>, i: nat)
    returns (z: nat)
    requires i <= |needs| && (forall k :: 0 <= k < |needs| ==> needs[k] >= 1) && (forall k :: k in m ==> k < first)
    requires wrapped ==> exists k :: k in m && AtZero(m[k])
    requires Wrapped(needs, tail, wrapped, ringSlots, i)
    ensures z in Recorded(m, first, needs, tail, ringSlots, i)
    ensures AtZero(Recorded(m, first, needs, tail, ringSlots, i)[z])
    ensures z < first + i
  {
    if wrapped {
      z :| z in m && AtZero(m[z]);
      RecordedAt(m, first, needs, tail, ringSlots, i);
    } else if WrapsAt(needs, tail, ringSlots, i - 1) {
      z := first + i - 1;
    } else {
      z := WrappedAtZero(m, tail, wrapped, ringSlots, first, needs, i - 1);
    }
  }

  /** A second wrap puts a record on top of the one that started at slot 0. */
  lemma RewrapDamages(m: LogSlotMap, tail: nat, head: nat, ringSlots: nat, first: nat, needs: seq<nat>, i: nat)
    requires i < |needs| && (forall k :: 0 <= k < |needs| ==> needs[k] >= 1) && (forall k :: k in m ==> k < first)
    requires tail < head ==> exists k :: k in m && AtZero(m[k])
    requires Wrapped(needs, tail, tail < head, ringSlots, i) && WrapsAt(needs, tail, ringSlots, i)
    ensures Damaged(Recorded(m, first, needs, tail, ringSlots, i + 1), Ptr(needs, tail, ringSlots, i + 1), head,
                    ringSlots)
  {
    var z := WrappedAtZero(m, tail, tail < head, ringSlots, first, needs, i);
    var m' := Recorded(m, first, needs, tail, ringSlots, i + 1);
    assert AtZero(m'[z]) && AtZero(m'[first + i]) && !Apart(m'[z], m'[first + i]);
  }

  /** A full ring is damaged by the first entry it takes. */
  lemma FullDamages(m: LogSlotMap, tail: nat, ringSlots: nat, first: nat, needs: seq<nat>)
    requires needs != [] && needs[0] >= 1 && (forall k :: k in m ==> k < first) && exists k :: k in m && AtZero(m[k])
    ensures Damaged(Recorded(m, first, needs, tail, ringSlots, 1), Ptr(needs, tail, ringSlots, 1), tail, ringSlots)
  {
    var z :| z in m && AtZero(m[z]);
    assert Recorded(m, first, needs, tail, ringSlots, 0) == m && Ptr(needs, tail, ringSlots, 0) == tail;
    var m' := Recorded(m, first, needs, tail, ringSlots, 1);
    assert AtZero(m'[z]) && m'[first] == PlaceOf(needs, tail, ringSlots, 0);
    if m'[first].start == 0 {
      assert !Apart(m'[z], m'[first]);
    }
  }

  /** On an empty ring, an entry that would fail the skipped test damages it. */
  lemma UntestedDamages(tail: nat, ringSlots: nat, first: nat, needs: seq<nat>, i: nat)
    requires tail <= ringSlots && i < |needs| && (forall k :: 0 <= k < |needs| ==> needs[k] >= 1)
    requires !PassesAt(needs, tail, tail, ringSlots, i)
    ensures Damaged(Recorded(map[], first, needs, tail, ringSlots, i + 1), Ptr(needs, tail, ringSlots, i + 1), tail,
                    ringSlots)
  {
    var z := WrappedAtZero(map[], tail, false, ringSlots, first, needs, i + 1);
    var m' := Recorded(map[], first, needs, tail, ringSlots, i + 1);
    assert AtZero(m'[z]);
    if tail == 0 {
      RecordedAt(map[], first, needs, tail, ringSlots, i + 1);
      assert m'[first] == PlaceOf(needs, tail, ringSlots, 0) && AtZero(m'[first]);
      if z == first {
        FirstWrapOversized(ringSlots, needs, i + 1);
        var j :| 0 <= j < i + 1 && WrapsAt(needs, 0, ringSlots, j);
        assert m'[first + j] == PlaceOf(needs, 0, ringSlots, j);
        assert j == 0 ==> m'[first].End() > ringSlots;
        assert j > 0 ==> !Apart(m'[first], m'[first + j]);
      } else {
        assert !Apart(m'[z], m'[first]);
      }
    }
  }

  lemma {:induction false} FirstWrapOversized(ringSlots: nat, needs: seq<nat>, i: nat)
    requires i <= |needs| && Wrapped(needs, 0, false, ringSlots, i)
    ensures exists j :: 0 <= j < i && WrapsAt(needs, 0, ringSlots, j)
  {
    if i > 0 && !WrapsAt(needs, 0, ringSlots, i - 1) {
      FirstWrapOversized(ringSlots, needs, i - 1);
    }
  }

  /** The exact condition, for every anchored ring, empty or not: an accepted batch leaves the ring sound if and only if
      it is safe. Appends and collections keep a ring anchored; `UnanchoredRing` is one that is not. */
  lemma AcceptedSoundIff(m: LogSlotMap, tail: nat, head: nat, ringSlots: nat, first: nat, needs: seq<nat>)
    requires RingOk(m, tail, head, ringSlots) && Anchored(m, tail, head)
    requires needs != [] && (forall i :: 0 <= i < |needs| ==> needs[i] >= 1) && (forall i :: i in m ==> i < first)
    requires CanWriteAll(m, tail, head, ringSlots, needs)
    ensures RingOk(Recorded(m, first, needs, tail, ringSlots, |needs|), Ptr(needs, tail, ringSlots, |needs|), head,
                   ringSlots)
       <==> SafeBatch(m, tail, head, ringSlots, needs)
  {
    var n := |needs|;
    if SafeBatch(m, tail, head, ringSlots, needs) {
      AcceptedBatchSound(m, tail, head, ringSlots, first, needs);
    } else {
      var i := UnsafeDamages(m, tail, head, ringSlots, first, needs);
      DamageLasts(m, tail, head, ringSlots, first, needs, i, n);
      DamagedIsUnsound(Recorded(m, first, needs, tail, ringSlots, n), Ptr(needs, tail, ringSlots, n), head, ringSlots);
    }
  }

  lemma UnsafeDamages(m: LogSlotMap, tail: nat, head: nat, ringSlots: nat, first: nat, needs: seq<nat>) returns (i: nat)
    requires RingOk(m, tail, head, ringSlots) && Anchored(m, tail, head)
    requires needs != [] && (forall i :: 0 <= i < |needs| ==> needs[i] >= 1) && (forall i :: i in m ==> i < first)
    requires !SafeBatch(m, tail, head, ringSlots, needs)
    ensures i <= |needs|
    ensures Damaged(Recorded(m, first, needs, tail, ringSlots, i), Ptr(needs, tail, ringSlots, i), head, ringSlots)
  {
    hide Damaged;
    if !NeverRewraps(needs, tail, tail < head, ringSlots) {
      var j :| 0 <= j < |needs| && Wrapped(needs, tail, tail < head, ringSlots, j)
               && WrapsAt(needs, tail, ringSlots, j);
      RewrapDamages(m, tail, head, ringSlots, first, needs, j);
      i := j + 1;
    } else if m == map[] {
      var j :| 0 <= j < |needs| && !PassesAt(needs, tail, head, ringSlots, j);
      UntestedDamages(tail, ringSlots, first, needs, j);
      i := j + 1;
    } else {
      FullDamages(m, tail, ringSlots, first, needs);
      i := 1;
    }
  }

  /** On an empty ring that is: the pointer moves over at most one lap. */
  lemma EmptyMapSoundIff(tail: nat, ringSlots: nat, first: nat, needs: seq<nat>)
    requires tail <= ringSlots && needs != [] && forall i :: 0 <= i < |needs| ==> needs[i] >= 1
    ensures RingOk(Recorded(map[], first, needs, tail, ringSlots, |needs|), Ptr(needs, tail, ringSlots, |needs|), tail,
                   ringSlots)
       <==> Advance(needs, tail, ringSlots, |needs|) <= ringSlots
  {
    AcceptedSoundIff(map[], tail, tail, ringSlots, first, needs);
    EmptyStaysInArcIff(tail, ringSlots, needs);
  }

  /** Freeing records and recomputing the head keeps the ring sound. */
  lemma FreeSound(m: LogSlotMap, tail: nat, head: nat, ringSlots: nat, m': LogSlotMap)
    requires RingOk(m, tail, head, ringSlots)
    requires m'.Keys <= m.Keys && forall i :: i in m' ==> m'[i] == m[i]
    ensures RingOk(m', tail, HeadOf(m', tail), ringSlots)
  {
    var h := HeadOf(m', tail);
    if m' != map[] && exists i :: i in m' && m'[i].start >= tail {
      var i :| i in m' && m'[i].start == h;
      assert m'[i].End() <= ringSlots;
    } else if m' != map[] {
      var i :| i in m' && m'[i].start == h;
      assert m'[i].End() <= ringSlots;
    }
  }

  // ---------------------------------------------------------------- what the capacity check lets through

  /** A full ring (tail caught up with head) accepts one more entry and puts it on top of a live one. */
  lemma FullRingOverwrites()
    ensures var m := map[2 := SlotRecord(5, 5), 3 := SlotRecord(10, 5), 4 := SlotRecord(0, 5)];
            && RingOk(m, 5, 5, 15) && IsHead(m, 5, 5)
            && CanWriteAll(m, 5, 5, 15, [1])
            && PlaceOf([1], 5, 15, 0) == SlotRecord(5, 1)
            && !Apart(SlotRecord(5, 1), m[2])
  {
    var m := map[2 := SlotRecord(5, 5), 3 := SlotRecord(10, 5), 4 := SlotRecord(0, 5)];
    assert m[2].start == 5;
  }

  /** That full ring is reachable: four accepted appends and one collection, each sound on its own. */
  lemma FullRingReachable()
    ensures CanWriteAll(map[], 0, 0, 15, [5]) && PlaceOf([5], 0, 15, 0) == SlotRecord(0, 5)
    ensures CanWriteAll(map[1 := SlotRecord(0, 5)], 5, 0, 15, [5]) && PlaceOf([5], 5, 15, 0) == SlotRecord(5, 5)
    ensures IsHead(map[2 := SlotRecord(5, 5)], 10, 5)
    ensures CanWriteAll(map[2 := SlotRecord(5, 5)], 10, 5, 15, [5]) && PlaceOf([5], 10, 15, 0) == SlotRecord(10, 5)
    ensures CanWriteAll(map[2 := SlotRecord(5, 5), 3 := SlotRecord(10, 5)], 15, 5, 15, [5]) &&
            PlaceOf([5], 15, 15, 0) == SlotRecord(0, 5)
  {
    assert map[2 := SlotRecord(5, 5)][2].start == 5;
  }

  /** A command longer than what is left behind the pointer wraps a second time onto live records. */
  lemma SecondWrapOverwrites()
    ensures var m := map[1 := SlotRecord(12, 3), 2 := SlotRecord(0, 6)];
            && RingOk(m, 6, 12, 15) && IsHead(m, 6, 12)
            && CanWriteAll(m, 6, 12, 15, [10])
            && PlaceOf([10], 6, 15, 0) == SlotRecord(0, 10)
            && !Apart(SlotRecord(0, 10), m[2])
  {
    var m := map[1 := SlotRecord(12, 3), 2 := SlotRecord(0, 6)];
    assert m[1].start == 12;
  }

  /** With no live record nothing is checked: a command larger than the ring is accepted and placed
      beyond its end. */
  lemma EmptyMapAcceptsOversized(ringSlots: nat, tail: nat)
    ensures CanWriteAll(map[], tail, tail, ringSlots, [ringSlots + 1])
    ensures PlaceOf([ringSlots + 1], tail, ringSlots, 0).End() > ringSlots
  {}

  /** A command that fits the ring, but not the stretch behind the pointer nor the one in front of it, is put across
      the head, which nobody recomputes; the next one is then accepted on top of it. */
  lemma EmptyMapCrossesHead()
    ensures CanWriteAll(map[], 10, 10, 15, [12]) && PlaceOf([12], 10, 15, 0) == SlotRecord(0, 12)
    ensures CanWriteAll(map[1 := SlotRecord(0, 12)], 12, 10, 15, [4]) && NeverRewraps([4], 12, false, 15)
    ensures PlaceOf([4], 12, 15, 0) == SlotRecord(0, 4) && !Apart(SlotRecord(0, 12), SlotRecord(0, 4))
  {
    var needs := [4];
    assert Ptr(needs, 12, 15, 0) == 12 && !Wrapped(needs, 12, false, 15, 0);
  }

  /** Two commands of one batch on an empty ring end up on top of each other. */
  lemma EmptyMapOverwritesItself()
    ensures CanWriteAll(map[], 0, 0, 15, [8, 8])
    ensures PlaceOf([8, 8], 0, 15, 0) == SlotRecord(0, 8) && PlaceOf([8, 8], 0, 15, 1) == SlotRecord(0, 8)
  {
    var needs := [8, 8];
    assert Ptr(needs, 0, 15, 0) == 0 && Ptr(needs, 0, 15, 1) == 8;
  }

  /** Without a record at slot 0, a ring that has gone round can survive a second wrap. */
  lemma UnanchoredRing()
    ensures var m := map[1 := SlotRecord(10, 5)];
            && RingOk(m, 6, 10, 15) && !Anchored(m, 6, 10) && CanWriteAll(m, 6, 10, 15, [10])
            && !SafeBatch(m, 6, 10, 15, [10]) && RingOk(Recorded(m, 2, [10], 6, 15, 1), Ptr([10], 6, 15, 1), 10, 15)
  {
    var m, needs := map[1 := SlotRecord(10, 5)], [10];
    assert 1 in m;
    assert Ptr(needs, 6, 15, 0) == 6 && Ptr(needs, 6, 15, 1) == 10;
    assert WrapsAt(needs, 6, 15, 0) && Wrapped(needs, 6, true, 15, 0);
    assert Recorded(m, 2, needs, 6, 15, 0) == m;
    assert Recorded(m, 2, needs, 6, 15, 1) == m[2 := SlotRecord(0, 10)];
  }
}
