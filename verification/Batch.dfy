/** How many entries one AppendEntries carries: the clamp passes of `append_entries_worker`
    (core/src/raft_append_entries.cpp). */
module Batch {
  import opened Basics

  /** Slots of the first `k` entries. */
  function Sum(needs: seq<nat>, k: nat): nat
    requires k <= |needs|
  {
    if k == 0 then 0 else Sum(needs, k - 1) + needs[k - 1]
  }

  lemma {:induction false} SumGrows(needs: seq<nat>, i: nat, j: nat)
    requires i <= j <= |needs|
    ensures Sum(needs, i) <= Sum(needs, j)
    decreases j
  {
    if i < j {
      SumGrows(needs, i, j - 1);
    }
  }

  /** `k` entries respect the entry cap, the slot limit, and the byte cap, which one entry may exceed. */
  predicate Fits(needs: seq<nat>, cap: nat, maxBytes: nat, limit: nat, k: nat) {
    && k <= |needs| && k <= cap
    && Sum(needs, k) <= limit
    && (k <= 1 || Sum(needs, k) * 512 <= maxBytes)
  }

  /** The largest batch of at most `k` entries that fits. */
  function LargestFit(needs: seq<nat>, cap: nat, maxBytes: nat, limit: nat, k: nat): (r: nat)
    ensures r <= k && Fits(needs, cap, maxBytes, limit, r)
    ensures forall j :: r < j <= k ==> !Fits(needs, cap, maxBytes, limit, j)
  {
    if k == 0 || Fits(needs, cap, maxBytes, limit, k) then k else LargestFit(needs, cap, maxBytes, limit, k - 1)
  }

  /** The batch size the passes are meant to choose. */
  function BatchLen(needs: seq<nat>, cap: nat, maxBytes: nat, limit: nat): (r: nat)
    ensures Fits(needs, cap, maxBytes, limit, r)
    ensures forall j: nat :: Fits(needs, cap, maxBytes, limit, j) ==> j <= r
  {
    LargestFit(needs, cap, maxBytes, limit, |needs|)
  }

  /** Fitting is inherited by shorter batches. */
  lemma FitsDown(needs: seq<nat>, cap: nat, maxBytes: nat, limit: nat, i: nat, j: nat)
    requires i <= j && Fits(needs, cap, maxBytes, limit, j)
    ensures Fits(needs, cap, maxBytes, limit, i)
  {
    SumGrows(needs, i, j);
  }

  /** A size that fits while the next one does not is the largest. */
  lemma BatchLenIs(needs: seq<nat>, cap: nat, maxBytes: nat, limit: nat, k: nat)
    requires Fits(needs, cap, maxBytes, limit, k) && !Fits(needs, cap, maxBytes, limit, k + 1)
    ensures BatchLen(needs, cap, maxBytes, limit) == k
  {
    var r := BatchLen(needs, cap, maxBytes, limit);
    if r > k {
      FitsDown(needs, cap, maxBytes, limit, k + 1, r);
    }
  }

  /** The three passes. The first stops at the entry and byte caps; if its slots run past the ring end, the
      second starts over against the ring end and tests the byte cap but not the entry cap; if the extent
      holds fewer slots than that, the third starts over against the extent and tests neither cap. The
      result is nevertheless the largest batch within all limits. */
  method SelectBatch(needs: seq<nat>, maxBatch: nat, maxBytes: nat, slotsUntilEnd: nat)
    returns (len: nat, total: nat)
    ensures len == BatchLen(needs, maxBatch, maxBytes, slotsUntilEnd)
    ensures total == Sum(needs, len)
  {
    var lenEntries := |needs|;
    if lenEntries > maxBatch {
      lenEntries := maxBatch;
    }
    len, total := 0, 0;
    while len < lenEntries
      invariant 0 <= len <= lenEntries && total == Sum(needs, len)
      invariant len <= 1 || total * 512 <= maxBytes
    {
      var needed := needs[len];
      if len > 0 && (total + needed) * 512 > maxBytes {
        break;
      }
      total := total + needed;
      len := len + 1;
    }
    assert len < lenEntries ==> len > 0 && Sum(needs, len + 1) * 512 > maxBytes;
    if total <= slotsUntilEnd {
      assert !Fits(needs, maxBatch, maxBytes, slotsUntilEnd, len + 1);
      BatchLenIs(needs, maxBatch, maxBytes, slotsUntilEnd, len);
    } else {
      ghost var first := len;
      len, total := 0, 0;
      while len < |needs|
        invariant 0 <= len <= |needs| && total == Sum(needs, len)
        invariant total <= slotsUntilEnd
        invariant len < first
        invariant len <= 1 || total * 512 <= maxBytes
      {
        var needed := needs[len];
        if total + needed > slotsUntilEnd {
          break;
        }
        if len > 0 && (total + needed) * 512 > maxBytes {
          break;
        }
        assert Sum(needs, len + 1) == total + needed;
        assert len + 1 != first;
        total := total + needed;
        len := len + 1;
      }
      assert !Fits(needs, maxBatch, maxBytes, slotsUntilEnd, len + 1);
      BatchLenIs(needs, maxBatch, maxBytes, slotsUntilEnd, len);
    }
  }

  /** The third pass: a batch that is longer than the extent is cut back to what the extent holds. */
  method ClampToExtent(needs: seq<nat>, maxBatch: nat, maxBytes: nat, slotsUntilEnd: nat, len0: nat, actualSlots: nat)
    returns (len: nat, total: nat)
    requires len0 == BatchLen(needs, maxBatch, maxBytes, slotsUntilEnd)
    ensures len == BatchLen(needs, maxBatch, maxBytes, Min(slotsUntilEnd, actualSlots))
    ensures total == Sum(needs, len)
  {
    len, total := len0, Sum(needs, len0);
    if actualSlots < total {
      len, total := 0, 0;
      while len < |needs|
        invariant 0 <= len <= |needs| && total == Sum(needs, len) <= actualSlots
        invariant len < len0
      {
        var needed := needs[len];
        if total + needed > actualSlots {
          break;
        }
        assert Sum(needs, len + 1) == total + needed;
        assert len + 1 != len0;
        total := total + needed;
        len := len + 1;
      }
      SumGrows(needs, len, len0);
      assert len < |needs| && Sum(needs, len + 1) > actualSlots;
      BatchLenIs(needs, maxBatch, maxBytes, actualSlots, len);
    } else {
      assert !Fits(needs, maxBatch, maxBytes, slotsUntilEnd, len + 1);
      BatchLenIs(needs, maxBatch, maxBytes, Min(slotsUntilEnd, actualSlots), len);
    }
  }

  /** A batch is never empty when its first entry fits the slot limit. */
  lemma BatchNotEmpty(needs: seq<nat>, cap: nat, maxBytes: nat, limit: nat)
    requires needs != [] && cap >= 1 && needs[0] <= limit
    ensures BatchLen(needs, cap, maxBytes, limit) >= 1
  {
    assert Sum(needs, 1) == Sum(needs, 0) + needs[0];
    assert Fits(needs, cap, maxBytes, limit, 1);
  }
}
