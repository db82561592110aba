/** Splitting a replication copy into chunks: `do_pba_copy` in core/src/raft_handle_append_entries.cpp. */
module Chunks {
  import opened Basics
  import opened Extents

  /** Copy `len` bytes from source device address `src` to destination address `dst`. */
  datatype Chunk = Chunk(src: nat, dst: nat, len: nat)

  /** Ring slot that sector `q` of the copied range belongs to. */
  function SlotAt(start: nat, q: nat, ringSlots: nat): (s: nat)
    requires ringSlots > 0
    ensures s < ringSlots
  {
    (start + q) % ringSlots
  }

  lemma SlotAtStep(start: nat, q: nat, d: nat, ringSlots: nat)
    requires ringSlots > 0 && SlotAt(start, q, ringSlots) + d <= ringSlots
    ensures SlotAt(start, q + d, ringSlots) ==
            if SlotAt(start, q, ringSlots) + d == ringSlots then 0 else SlotAt(start, q, ringSlots) + d
  {
    var laps, s := (start + q) / ringSlots, SlotAt(start, q, ringSlots);
    assert start + q == laps * ringSlots + s;
    if s + d == ringSlots {
      RemainderUnique(start + q + d, ringSlots, laps + 1, 0);
    } else {
      RemainderUnique(start + q + d, ringSlots, laps, s + d);
    }
  }

  lemma RemainderUnique(x: nat, m: nat, q: nat, r: nat)
    requires m > 0 && r < m && x == q * m + r
    ensures x % m == r
  {
    QuotientUnique(x, m, q);
  }

  /** Within one lap, different sectors belong to different slots. */
  lemma SlotAtInjective(start: nat, a: nat, b: nat, ringSlots: nat)
    requires ringSlots > 0 && a < b < a + ringSlots
    ensures SlotAt(start, a, ringSlots) != SlotAt(start, b, ringSlots)
  {
    var x, y := start + a, start + b;
    assert x == x / ringSlots * ringSlots + x % ringSlots && y == y / ringSlots * ringSlots + y % ringSlots;
    var d := y / ringSlots - x / ringSlots;
    assert b - a == d * ringSlots + (y % ringSlots - x % ringSlots);
    assert d >= 1 ==> d * ringSlots >= ringSlots;
    assert d <= 0 ==> d * ringSlots <= 0;
  }

  /** Chunk `c` carries the sectors [q0, q1) of the range: it reads them where they lie on the source, stays
      inside one extent, the ring end and the chunk limit, and puts every sector at its ring slot. */
  ghost predicate ChunkOk(c: Chunk, m: seq<nat>, src: nat, start: nat, q0: nat, q1: nat)
    requires m != []
  {
    && q0 < q1 && c.len == 512 * (q1 - q0) && c.len <= MAX_PBA_COPY_CHUNK_BYTES
    && c.src == src + 512 * q0
    && SlotAt(start, q0, |m|) + (q1 - q0) <= |m|
    && forall q :: q0 <= q < q1 ==> m[SlotAt(start, q, |m|)] == c.dst + 512 * (q - q0)
  }

  /** The chunks carry `total` sectors in order, without gap or overlap; chunk k starts at sector cuts[k]. */
  ghost predicate Tiles(chunks: seq<Chunk>, cuts: seq<nat>, m: seq<nat>, src: nat, start: nat, total: nat)
    requires m != []
  {
    && |cuts| == |chunks| + 1 && cuts[0] == 0 && cuts[|chunks|] == total
    && forall k :: 0 <= k < |chunks| ==> ChunkOk(chunks[k], m, src, start, cuts[k], cuts[k + 1])
  }

  /** One chunk as the loop cuts it: an extent tail, clipped to the rest, the ring end and the chunk limit. */
  lemma CutOk(es: seq<Extent>, ringSlots: nat, src: nat, start: nat, q: nat, pba: nat, len: nat)
    requires ringSlots > 0 && Layout(es, SlotOffset(ringSlots))
    requires var slot := SlotAt(start, q, ringSlots);
             && Scan(es, SlotOffset(slot)).Some? && pba == Phys(es, SlotOffset(slot))
             && len <= RemainingSpec(es, SlotOffset(slot)).0
             && len <= 512 * (ringSlots - slot)
    requires 0 < len <= MAX_PBA_COPY_CHUNK_BYTES && len % 512 == 0
    ensures ChunkOk(Chunk(src + 512 * q, pba, len), SlotMap(es, ringSlots), src, start, q, q + len / 512)
  {
    GapFreeIsSorted(es);
    var slot := SlotAt(start, q, ringSlots);
    forall p | q <= p < q + len / 512
      ensures SlotMap(es, ringSlots)[SlotAt(start, p, ringSlots)] == pba + 512 * (p - q)
    {
      SlotAtStep(start, q, p - q, ringSlots);
      assert SlotAt(start, p, ringSlots) == slot + (p - q);
      PhysContiguous(es, SlotOffset(slot), 512 * (p - q));
      assert SlotOffset(slot) + 512 * (p - q) == SlotOffset(slot + (p - q));
    }
  }

  /** The splitter. On a complete layout it always succeeds: it terminates, and its chunks tile the
      page-rounded source range over the ring slots from `dstSlot` on. */
  method SplitCopy(es: seq<Extent>, ringSlots: nat, leaderPbaSrc: nat, logBlockLength: nat, dstSlot: nat)
    returns (r: Result<seq<Chunk>>, ghost cuts: seq<nat>)
    requires ringSlots > 0 && Layout(es, SlotOffset(ringSlots))
    ensures r.Ok?
    ensures leaderPbaSrc == 0 || logBlockLength == 0 ==> r.value == []
    ensures leaderPbaSrc != 0 && logBlockLength != 0 ==>
              Tiles(r.value, cuts, SlotMap(es, ringSlots), leaderPbaSrc, if dstSlot < ringSlots then dstSlot else 0,
                    RoundedSectors(logBlockLength))
  {
    cuts := [0];
    if leaderPbaSrc == 0 || logBlockLength == 0 {
      return Ok([]), cuts;
    }
    hide Tiles;
    hide Layout;
    var nbytes := AlignUpPage(512 * logBlockLength);
    RoundedIsAligned(logBlockLength);
    var chunks;
    chunks, cuts := SplitRange(es, ringSlots, leaderPbaSrc, nbytes, dstSlot, RoundedSectors(logBlockLength));
    r := Ok(chunks);
  }

  /** The splitting loop, over a range of `total` sectors. */
  method SplitRange(es: seq<Extent>, ringSlots: nat, leaderPbaSrc: nat, nbytes: nat, dstSlot: nat, ghost total: nat)
    returns (chunks: seq<Chunk>, ghost cuts: seq<nat>)
    requires ringSlots > 0 && Layout(es, SlotOffset(ringSlots)) && nbytes == 512 * total
    ensures Tiles(chunks, cuts, SlotMap(es, ringSlots), leaderPbaSrc, if dstSlot < ringSlots then dstSlot else 0, total)
  {
    hide Tiles;
    hide ChunkOk;
    hide Layout;
    hide SlotAt;
    ghost var m := SlotMap(es, ringSlots);
    ghost var start := if dstSlot < ringSlots then dstSlot else 0;
    ghost var q: nat := 0;
    chunks, cuts := [], [0];
    NoTiles(m, leaderPbaSrc, start);
    var remaining: nat := nbytes;
    var curSlot: nat := dstSlot;
    var curSrc: nat := leaderPbaSrc;
    while remaining > 0
      invariant remaining == 512 * (total - q) && q <= total
      invariant curSrc == leaderPbaSrc + 512 * q
      invariant SlotAt(start, q, ringSlots) == if curSlot >= ringSlots then 0 else curSlot
      invariant Tiles(chunks, cuts, m, leaderPbaSrc, start, q)
      decreases remaining
    {
      if curSlot >= ringSlots {
        curSlot := 0;
      }
      var pba, chunk;
      ghost var n;
      pba, chunk, n := CutChunk(es, ringSlots, curSlot, remaining, leaderPbaSrc, start, q);
      OneMoreTile(chunks, cuts, m, leaderPbaSrc, start, q, Chunk(curSrc, pba, chunk), n);
      chunks := chunks + [Chunk(curSrc, pba, chunk)];
      q := q + n;
      cuts := cuts + [q];
      remaining := remaining - chunk;
      curSrc := curSrc + chunk;
      curSlot := curSlot + chunk / 512;
    }
  }

  lemma NoTiles(m: seq<nat>, src: nat, start: nat)
    requires start < |m|
    ensures Tiles([], [0], m, src, start, 0) && SlotAt(start, 0, |m|) == start
  {
    RemainderUnique(start, |m|, 0, start);
  }

  lemma OneMoreTile(chunks: seq<Chunk>, cuts: seq<nat>, m: seq<nat>, src: nat, start: nat, q: nat, c: Chunk, n: nat)
    requires m != [] && Tiles(chunks, cuts, m, src, start, q) && ChunkOk(c, m, src, start, q, q + n)
    ensures Tiles(chunks + [c], cuts + [q + n], m, src, start, q + n)
  {
    hide ChunkOk;
    var chunks', cuts' := chunks + [c], cuts + [q + n];
    forall k | 0 <= k < |chunks'| ensures ChunkOk(chunks'[k], m, src, start, cuts'[k], cuts'[k + 1]) {
      assert k < |chunks| ==> ChunkOk(chunks[k], m, src, start, cuts[k], cuts[k + 1]);
    }
  }

  /** The next chunk in the terms of the tiling: it carries the next `n` sectors. */
  method CutChunk(es: seq<Extent>, ringSlots: nat, curSlot: nat, remaining: nat, ghost src: nat, ghost start: nat,
                  ghost q: nat) returns (pba: nat, chunk: nat, ghost n: nat)
    requires ringSlots > 0 && Layout(es, SlotOffset(ringSlots)) && curSlot == SlotAt(start, q, ringSlots)
    requires remaining > 0 && remaining % 512 == 0
    ensures n > 0 && chunk == 512 * n <= remaining && curSlot + n <= ringSlots
    ensures ChunkOk(Chunk(src + 512 * q, pba, chunk), SlotMap(es, ringSlots), src, start, q, q + n)
    ensures SlotAt(start, q + n, ringSlots) == if curSlot + n == ringSlots then 0 else curSlot + n
  {
    pba, chunk := NextChunk(es, ringSlots, curSlot, remaining);
    n := chunk / 512;
    CutOk(es, ringSlots, src, start, q, pba, chunk);
    SlotAtStep(start, q, n, ringSlots);
  }

  /** Address and size of the next chunk at `curSlot`. The two error exits of the loop body, an unmapped
      slot and an empty chunk, cannot be taken on a complete layout. */
  method NextChunk(es: seq<Extent>, ringSlots: nat, curSlot: nat, remaining: nat) returns (pba: nat, chunk: nat)
    requires ringSlots > 0 && Layout(es, SlotOffset(ringSlots)) && curSlot < ringSlots
    requires remaining > 0 && remaining % 512 == 0
    ensures Scan(es, SlotOffset(curSlot)).Some? && pba == Phys(es, SlotOffset(curSlot)) && pba != 0
    ensures 0 < chunk <= remaining && chunk % 512 == 0
    ensures chunk <= RemainingSpec(es, SlotOffset(curSlot)).0
    ensures chunk <= 512 * (ringSlots - curSlot) && chunk <= MAX_PBA_COPY_CHUNK_BYTES
    ensures chunk == remaining || chunk == RemainingSpec(es, SlotOffset(curSlot)).0
         || chunk == 512 * (ringSlots - curSlot) || chunk == MAX_PBA_COPY_CHUNK_BYTES
  {
    GapFreeIsSorted(es);
    SectorContiguous(es, SlotOffset(ringSlots), SlotOffset(curSlot));
    var seg := Lookup(es, SlotOffset(curSlot), remaining);
    pba := seg.value.pba;
    var maxBeforeWrap := (ringSlots - curSlot) * 512;
    chunk := seg.value.len;
    if chunk > remaining {
      chunk := remaining;
    }
    if chunk > maxBeforeWrap {
      chunk := maxBeforeWrap;
    }
    if chunk > MAX_PBA_COPY_CHUNK_BYTES {
      chunk := MAX_PBA_COPY_CHUNK_BYTES;
    }
  }

  // ---------------------------------------------------------------- consequences of a tiling

  /** Every byte of the source range is carried by exactly one chunk, to the ring slot of its sector. */
  lemma {:induction false} CarrierOf(chunks: seq<Chunk>, cuts: seq<nat>, m: seq<nat>, src: nat, start: nat, total: nat,
                                     q: nat)
    returns (k: nat)
    requires m != [] && Tiles(chunks, cuts, m, src, start, total) && q < total
    ensures k < |chunks| && cuts[k] <= q < cuts[k + 1]
    ensures chunks[k].src + 512 * (q - cuts[k]) == src + 512 * q
    ensures chunks[k].dst + 512 * (q - cuts[k]) == m[SlotAt(start, q, |m|)]
  {
    k := 0;
    while cuts[k + 1] <= q
      invariant k < |chunks| && cuts[k] <= q
      decreases |chunks| - k
    {
      k := k + 1;
    }
    assert ChunkOk(chunks[k], m, src, start, cuts[k], cuts[k + 1]);
  }

  lemma {:induction false} CutsGrow(chunks: seq<Chunk>, cuts: seq<nat>, m: seq<nat>, src: nat, start: nat, total: nat,
                                    i: nat, j: nat)
    requires m != [] && Tiles(chunks, cuts, m, src, start, total) && i <= j <= |chunks|
    ensures cuts[i] <= cuts[j] && (i < j ==> cuts[i + 1] <= cuts[j])
    decreases j
  {
    if i < j {
      CutsGrow(chunks, cuts, m, src, start, total, i, j - 1);
      assert ChunkOk(chunks[j - 1], m, src, start, cuts[j - 1], cuts[j]);
    }
  }

  /** No two chunks write the same byte, as long as the rounded range is at most one lap of the ring. */
  lemma ChunksDisjoint(chunks: seq<Chunk>, cuts: seq<nat>, m: seq<nat>, size: nat, src: nat, start: nat, total: nat,
                       i: nat, j: nat)
    requires m != [] && SlotsOn(m, size) && total <= |m|
    requires Tiles(chunks, cuts, m, src, start, total) && i < j < |chunks|
    ensures DisjointRanges(chunks[i].dst, chunks[i].len, chunks[j].dst, chunks[j].len)
  {
    var a, b := chunks[i], chunks[j];
    assert ChunkOk(a, m, src, start, cuts[i], cuts[i + 1]) && ChunkOk(b, m, src, start, cuts[j], cuts[j + 1]);
    CutsGrow(chunks, cuts, m, src, start, total, i, j);
    CutsGrow(chunks, cuts, m, src, start, total, j + 1, |chunks|);
    // The larger start address, if both chunks reach it, lies in a sector of each; those sectors belong
    // to different slots.
    var p := Max(a.dst, b.dst);
    var q1 := cuts[i] + Min((p - a.dst) / 512, cuts[i + 1] - cuts[i] - 1);
    var q2 := cuts[j] + Min((p - b.dst) / 512, cuts[j + 1] - cuts[j] - 1);
    SlotAtInjective(start, q1, q2, |m|);
    assert SlotsApart(m, SlotAt(start, q1, |m|), SlotAt(start, q2, |m|));
  }
}
