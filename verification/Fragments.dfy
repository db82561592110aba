/** A leader's ring file in more than one extent: which address a slot range gets, and when the batch that is announced
    there lies in one piece (core/src/raft_pba.cpp, core/src/raft_append_entries.cpp). */
module Fragments {
  import opened Basics
  import opened Extents
  import opened Ring
  import opened Types
  import opened Batch
  import opened Progress
  import opened CatchUp

  /** Bytes from slot `start` up to the end of its extent. */
  function BytesLeft(es: seq<Extent>, start: nat): nat {
    RemainingSpec(es, SlotOffset(start)).0
  }

  /** What `leader_pba_for_range` answers on any sorted layout: an address exactly if the slot is mapped and its address
      is not 0. It is the slot's own. The length is the wanted one, in pages, or, where the extent ends before that,
      what is left of it rounded up to a page, so it can be too long by less than a page. */
  lemma RangeAnswer(es: seq<Extent>, start: nat, total: nat)
    requires Sorted(es) && total > 0
    ensures var off, r := SlotOffset(start), LeaderPbaForRange(es, start, total);
            && (r.Ok? <==> Scan(es, off).Some? && Phys(es, off) != 0)
            && (r.Ok? ==>
                  var left, wanted := BytesLeft(es, start), 512 * RoundedSectors(total);
                  && r.value.pba == Phys(es, off) && 0 < left
                  && (wanted <= left ==> r.value.len == wanted)
                  && (left < wanted ==> left <= r.value.len < left + 4096 && r.value.len % 4096 == 0))
  {
    RoundedIsAligned(total);
  }

  /** Every sector below the end of the extent lies where the answer says. */
  lemma RangeSectors(es: seq<Extent>, start: nat, total: nat, j: nat)
    requires Sorted(es) && total > 0 && LeaderPbaForRange(es, start, total).Ok?
    requires 512 * (j + 1) <= BytesLeft(es, start)
    ensures Scan(es, SlotOffset(start + j)).Some?
    ensures Phys(es, SlotOffset(start + j)) == LeaderPbaForRange(es, start, total).value.pba + 512 * j
  {
    RangeAnswer(es, start, total);
    var off := SlotOffset(start);
    ScanIsUnique(es, off + 512 * j, Scan(es, off).value);
  }

  /** The first one behind it does not, unless the next extent happens to follow on the device. */
  lemma SectorBehind(es: seq<Extent>, start: nat, total: nat, ringSlots: nat)
    requires Layout(es, SlotOffset(ringSlots)) && NoneAdjacent(es) && total > 0
    requires LeaderPbaForRange(es, start, total).Ok? && BytesLeft(es, start) % 512 == 0
    requires start + BytesLeft(es, start) / 512 < ringSlots
    ensures var j := BytesLeft(es, start) / 512;
            && Scan(es, SlotOffset(start + j)).Some?
            && Phys(es, SlotOffset(start + j)) != LeaderPbaForRange(es, start, total).value.pba + 512 * j
  {
    GapFreeIsSorted(es);
    RangeAnswer(es, start, total);
    var off, left := SlotOffset(start), BytesLeft(es, start);
    var k := Scan(es, off).value;
    LayoutMaps(es, SlotOffset(ringSlots), off + left);
    assert es[k].logical + es[k].length == off + left;
    assert off + left < SlotOffset(ringSlots) <= End(es);
    assert k + 1 < |es|;
    assert es[k + 1].logical == off + left && es[k + 1].Covers(off + left);
    ScanIsUnique(es, off + left, k + 1);
  }

  /** No extent begins on the device where the one before it in the file ends. */
  ghost predicate NoneAdjacent(es: seq<Extent>) {
    forall i, j :: 0 <= i < j < |es| && j == i + 1 ==> es[j].physical != es[i].physical + es[i].length
  }

  // ---------------------------------------------------------------- the batch

  /** All sectors of the announced range lie one behind the other from the announced address on. */
  ghost predicate InOnePiece(es: seq<Extent>, start: nat, total: nat, pba: nat) {
    forall j :: 0 <= j < total ==> SectorAt(es, start, pba, j)
  }

  predicate SectorAt(es: seq<Extent>, start: nat, pba: nat, j: nat) {
    Scan(es, SlotOffset(start + j)).Some? && Phys(es, SlotOffset(start + j)) == pba + 512 * j
  }

  /** The batch that would be chosen if what is left of the extent were rounded down to whole sectors. */
  function CutBatch(n: Node, next: nat, cfg: Config): nat
    requires LogOk(n) && Oldest(n) <= next < n.tailLogIndex && next in n.logSlotMap
    requires n.logSlotMap[next].start <= n.ringSlots
  {
    var start := n.logSlotMap[next].start;
    BatchLen(NeedsFrom(n, next), cfg.maxBatch, cfg.maxBatchBytes,
             Min(n.ringSlots - start, BytesLeft(cfg.extents, start) / 512))
  }

  /** What the three clamp passes choose on any sorted layout: an address and a length that ends inside the ring. */
  lemma ChoiceIs(n: Node, next: nat, cfg: Config)
    requires LogOk(n) && Oldest(n) <= next < n.tailLogIndex && next in n.logSlotMap && Readable(n, next)
    requires cfg.maxBatch > 0 && !RecordMissing(n, next) && Sorted(cfg.extents)
    requires forall i :: 0 <= i < |NeedsFrom(n, next)| ==> NeedsFrom(n, next)[i] >= 1
    requires ChooseBatch(n, next, cfg).Ok? && ChooseBatch(n, next, cfg).value.len > 0
    ensures var b, start := ChooseBatch(n, next, cfg).value, n.logSlotMap[next].start;
            && b.start == start && 0 < b.total == Sum(NeedsFrom(n, next), b.len) && start + b.total <= n.ringSlots
            && Scan(cfg.extents, SlotOffset(start)).Some? && b.pba == Phys(cfg.extents, SlotOffset(start))
            && (512 * b.total <= BytesLeft(cfg.extents, start) <==> b.len == CutBatch(n, next, cfg))
  {
    hide LeaderPbaForRange;
    hide BatchLen;
    hide RemainingSpec;
    var needs, start := NeedsFrom(n, next), n.logSlotMap[next].start;
    var limit := n.ringSlots - start;
    var first := BatchLen(needs, cfg.maxBatch, cfg.maxBatchBytes, limit);
    var total := Sum(needs, first);
    SumAtLeast(needs, first);
    RangeAnswer(cfg.extents, start, total);
    var b, left := ChooseBatch(n, next, cfg).value, BytesLeft(cfg.extents, start);
    var len := LeaderPbaForRange(cfg.extents, start, total).value.len;
    SumAtLeast(needs, b.len);
    var cut := CutBatch(n, next, cfg);
    if left < 512 * RoundedSectors(total) {
      FitsWider(needs, cfg.maxBatch, cfg.maxBatchBytes, Min(limit, left / 512), Min(limit, len / 512));
      if 512 * b.total <= left {
        assert Fits(needs, cfg.maxBatch, cfg.maxBatchBytes, Min(limit, left / 512), b.len);
      }
    } else {
      RangeFits(cfg.extents, start, total);
      assert Fits(needs, cfg.maxBatch, cfg.maxBatchBytes, Min(limit, len / 512), first);
      assert Fits(needs, cfg.maxBatch, cfg.maxBatchBytes, Min(limit, left / 512), first);
      FitsWider(needs, cfg.maxBatch, cfg.maxBatchBytes, Min(limit, len / 512), limit);
      FitsWider(needs, cfg.maxBatch, cfg.maxBatchBytes, Min(limit, left / 512), limit);
    }
  }

  /** The first batch fits what it asks for. */
  lemma RangeFits(es: seq<Extent>, start: nat, total: nat)
    requires Sorted(es) && total > 0 && LeaderPbaForRange(es, start, total).Ok?
    requires 512 * RoundedSectors(total) <= BytesLeft(es, start)
    ensures total <= LeaderPbaForRange(es, start, total).value.len / 512
    ensures total <= BytesLeft(es, start) / 512
  {
    RangeAnswer(es, start, total);
  }

  lemma {:induction false} SumAtLeast(needs: seq<nat>, k: nat)
    requires k <= |needs| && forall i :: 0 <= i < |needs| ==> needs[i] >= 1
    ensures Sum(needs, k) >= k
  {
    if k > 0 {
      SumAtLeast(needs, k - 1);
    }
  }

  /** The limits of a batch, and that it is as long as they allow: one more entry would be one too many, too many bytes,
      or reach beyond the end of the ring or of the extent. */
  lemma BatchLimits(n: Node, next: nat, cfg: Config)
    requires LogOk(n) && Oldest(n) <= next < n.tailLogIndex && next in n.logSlotMap && Readable(n, next)
    requires cfg.maxBatch > 0 && !RecordMissing(n, next) && Sorted(cfg.extents)
    requires forall i :: 0 <= i < |NeedsFrom(n, next)| ==> NeedsFrom(n, next)[i] >= 1
    requires ChooseBatch(n, next, cfg).Ok? && ChooseBatch(n, next, cfg).value.len > 0
    ensures var b, start, needs := ChooseBatch(n, next, cfg).value, n.logSlotMap[next].start, NeedsFrom(n, next);
            && b.len <= cfg.maxBatch && next + b.len <= n.tailLogIndex && start + b.total <= n.ringSlots
            && (b.len > 1 ==> 512 * b.total <= cfg.maxBatchBytes)
            && (next + b.len < n.tailLogIndex ==>
                  var longer := b.total + needs[b.len];
                  || b.len == cfg.maxBatch || 512 * longer > cfg.maxBatchBytes
                  || start + longer > n.ringSlots || 512 * longer > BytesLeft(cfg.extents, start))
  {
    hide LeaderPbaForRange;
    hide BatchLen;
    hide RemainingSpec;
    var needs, start := NeedsFrom(n, next), n.logSlotMap[next].start;
    var limit := n.ringSlots - start;
    var first := BatchLen(needs, cfg.maxBatch, cfg.maxBatchBytes, limit);
    var total := Sum(needs, first);
    SumAtLeast(needs, first);
    RangeAnswer(cfg.extents, start, total);
    var b := ChooseBatch(n, next, cfg).value;
    var len := LeaderPbaForRange(cfg.extents, start, total).value.len;
    if b.len < |needs| {
      assert !Fits(needs, cfg.maxBatch, cfg.maxBatchBytes, Min(limit, len / 512), b.len + 1);
      if b.len < first {
        SumGrows(needs, b.len + 1, first);
      } else {
        assert !Fits(needs, cfg.maxBatch, cfg.maxBatchBytes, limit, b.len + 1);
      }
    }
  }

  /** Exactly when an announced batch is in one piece at the announced address: it ends with its extent or before, that
      is, it is the batch that rounding down would have chosen. */
  lemma BatchInOnePieceIff(n: Node, next: nat, cfg: Config)
    requires LogOk(n) && Oldest(n) <= next < n.tailLogIndex && next in n.logSlotMap && Readable(n, next)
    requires cfg.maxBatch > 0 && !RecordMissing(n, next)
    requires Layout(cfg.extents, SlotOffset(n.ringSlots)) && NoneAdjacent(cfg.extents)
    requires forall i :: 0 <= i < |NeedsFrom(n, next)| ==> NeedsFrom(n, next)[i] >= 1
    requires ChooseBatch(n, next, cfg).Ok? && ChooseBatch(n, next, cfg).value.len > 0
    ensures var b := ChooseBatch(n, next, cfg).value;
            && (InOnePiece(cfg.extents, b.start, b.total, b.pba) <==>
                512 * b.total <= BytesLeft(cfg.extents, n.logSlotMap[next].start))
            && (InOnePiece(cfg.extents, b.start, b.total, b.pba) <==> b.len == CutBatch(n, next, cfg))
  {
    GapFreeIsSorted(cfg.extents);
    ChoiceIs(n, next, cfg);
    hide ChooseBatch;
    hide CutBatch;
    PieceIff(cfg.extents, ChooseBatch(n, next, cfg).value.start, ChooseBatch(n, next, cfg).value.total, n.ringSlots);
  }

  lemma PieceIff(es: seq<Extent>, start: nat, total: nat, ringSlots: nat)
    requires Layout(es, SlotOffset(ringSlots)) && NoneAdjacent(es) && 0 < total && start + total <= ringSlots
    ensures Scan(es, SlotOffset(start)).Some? && Phys(es, SlotOffset(start)) > 0
    ensures InOnePiece(es, start, total, Phys(es, SlotOffset(start))) <==> 512 * total <= BytesLeft(es, start)
  {
    GapFreeIsSorted(es);
    LayoutMaps(es, SlotOffset(ringSlots), SlotOffset(start));
    RangeAnswer(es, start, total);
    WholeSectors(es, start, ringSlots);
    hide LeaderPbaForRange;
    hide RemainingSpec;
    hide Layout;
    var left := BytesLeft(es, start);
    if 512 * total <= left {
      forall j | 0 <= j < total ensures SectorAt(es, start, Phys(es, SlotOffset(start)), j) {
        RangeSectors(es, start, total, j);
      }
    } else {
      SectorBehind(es, start, total, ringSlots);
      assert !SectorAt(es, start, Phys(es, SlotOffset(start)), left / 512);
    }
  }

  lemma WholeSectors(es: seq<Extent>, start: nat, ringSlots: nat)
    requires Layout(es, SlotOffset(ringSlots)) && Scan(es, SlotOffset(start)).Some?
    ensures BytesLeft(es, start) % 512 == 0 && Phys(es, SlotOffset(start)) > 0
  {
    LogicalWhole(es, Scan(es, SlotOffset(start)).value);
  }

  lemma {:induction false} LogicalWhole(es: seq<Extent>, k: nat)
    requires GapFree(es) && k < |es| && forall i :: 0 <= i < |es| ==> es[i].length % 512 == 0
    ensures es[k].logical % 512 == 0
  {
    if k > 0 {
      LogicalWhole(es, k - 1);
      assert es[k].logical == es[k - 1].logical + es[k - 1].length;
    }
  }

  /** A layout where it is not: four slots are left in the extent, eight are announced, and the fifth one lies
      elsewhere. */
  lemma RoundedPastExtent()
    ensures var es := [Extent(0, 4096, 4608), Extent(4608, 1048576, 102400)];
            && LeaderPbaForRange(es, 4, 24) == Ok(Segment(6656, 4096)) && BytesLeft(es, 4) == 2048
            && Scan(es, SlotOffset(8)).Some? && Phys(es, SlotOffset(8)) == 1048576
    ensures BatchLen(seq(24, _ => 1), 100, 1000000, 4096 / 512) == 8
  {
    TwoExtents();
    var needs: seq<nat> := seq(24, _ => 1);
    hide BatchLen;
    OnesSum(needs, 8);
    OnesSum(needs, 9);
    BatchLenIs(needs, 100, 1000000, 8, 8);
  }

  lemma TwoExtents()
    ensures var es := [Extent(0, 4096, 4608), Extent(4608, 1048576, 102400)];
            && LeaderPbaForRange(es, 4, 24) == Ok(Segment(6656, 4096)) && BytesLeft(es, 4) == 2048
            && Scan(es, SlotOffset(8)).Some? && Phys(es, SlotOffset(8)) == 1048576
  {
    var es := [Extent(0, 4096, 4608), Extent(4608, 1048576, 102400)];
    assert es[0].Covers(SlotOffset(4)) && es[1].Covers(SlotOffset(8));
    ScanIsUnique(es, SlotOffset(4), 0);
    ScanIsUnique(es, SlotOffset(8), 1);
    hide Scan;
  }

  lemma {:induction false} OnesSum(needs: seq<nat>, k: nat)
    requires k <= |needs| && forall i :: 0 <= i < |needs| ==> needs[i] == 1
    ensures Sum(needs, k) == k
  {
    if k > 0 {
      OnesSum(needs, k - 1);
    }
  }
}
