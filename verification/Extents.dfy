/** The extent cache that maps ring-file offsets to device addresses (blockio/cached_fd.cpp). */
module Extents {
  import opened Basics

  /** `length` bytes of the file from `logical` on live at device address `physical`. */
  datatype Extent = Extent(logical: nat, physical: nat, length: nat) {
    predicate Covers(off: nat) { logical <= off < logical + length }
  }

  datatype Segment = Segment(pba: nat, len: nat)

  /** Sorted by logical offset and pairwise disjoint. */
  ghost predicate Sorted(es: seq<Extent>) {
    forall i, j :: 0 <= i < j < |es| ==> es[i].logical + es[i].length <= es[j].logical
  }

  // ---------------------------------------------------------------- reference: linear scan

  /** Index of the first extent, from `i` on, that covers `off`. */
  function ScanFrom(es: seq<Extent>, off: nat, i: nat): (r: Option<nat>)
    requires i <= |es|
    ensures r.Some? ==> i <= r.value < |es| && es[r.value].Covers(off)
    ensures r.None? ==> forall k :: i <= k < |es| ==> !es[k].Covers(off)
    decreases |es| - i
  {
    if i == |es| then None
    else if es[i].Covers(off) then Some(i)
    else ScanFrom(es, off, i + 1)
  }

  function Scan(es: seq<Extent>, off: nat): (r: Option<nat>)
    ensures r.Some? ==> r.value < |es| && es[r.value].Covers(off)
    ensures r.None? ==> forall k :: 0 <= k < |es| ==> !es[k].Covers(off)
  {
    ScanFrom(es, off, 0)
  }

  lemma ScanIsUnique(es: seq<Extent>, off: nat, k: nat)
    requires Sorted(es) && k < |es| && es[k].Covers(off)
    ensures Scan(es, off) == Some(k)
  {
    assert !Scan(es, off).None?;
  }

  /** What a lookup must answer: the unique covering extent, cut to the requested length. */
  function LookupSpec(es: seq<Extent>, off: nat, length: nat): Result<Segment> {
    match Scan(es, off)
    case Some(k) => Ok(Segment(es[k].physical + (off - es[k].logical),
                               Min(length, es[k].length - (off - es[k].logical))))
    case None => Err("offset not mapped")
  }

  /** Extents that start at or before `off`. */
  function Started(es: seq<Extent>, off: nat): (n: nat)
    ensures n <= |es|
  {
    if es == [] then 0 else Started(es[..|es| - 1], off) + (if es[|es| - 1].logical <= off then 1 else 0)
  }

  /** What `remaining_at` must answer, whatever the hint. */
  function RemainingSpec(es: seq<Extent>, off: nat): (nat, nat) {
    match Scan(es, off)
    case Some(k) => (es[k].length - (off - es[k].logical), k)
    case None => (0, if Started(es, off) == 0 then 0 else Started(es, off) - 1)
  }

  lemma {:induction false} StartedIs(es: seq<Extent>, off: nat, n: nat)
    requires n <= |es|
    requires forall i :: 0 <= i < n ==> es[i].logical <= off
    requires forall i :: n <= i < |es| ==> off < es[i].logical
    ensures Started(es, off) == n
  {
    if es != [] {
      StartedIs(es[..|es| - 1], off, if n == |es| then n - 1 else n);
    }
  }

  // ---------------------------------------------------------------- the cached index

  /** `std::upper_bound`: the first extent that starts after `off`. */
  method UpperBound(es: seq<Extent>, off: nat) returns (n: nat)
    requires Sorted(es)
    ensures n <= |es|
    ensures forall i :: 0 <= i < n ==> es[i].logical <= off
    ensures forall i :: n <= i < |es| ==> off < es[i].logical
  {
    var lo, hi := 0, |es|;
    while lo < hi
      invariant lo <= hi <= |es|
      invariant forall i :: 0 <= i < lo ==> es[i].logical <= off
      invariant forall i :: hi <= i < |es| ==> off < es[i].logical
    {
      var mid := lo + (hi - lo) / 2;
      if off < es[mid].logical {
        hi := mid;
      } else {
        lo := mid + 1;
      }
    }
    n := lo;
  }

  /** The extent just before the upper bound is the only one that can cover `off`. */
  lemma BoundCovers(es: seq<Extent>, off: nat, n: nat)
    requires Sorted(es) && n <= |es|
    requires forall i :: 0 <= i < n ==> es[i].logical <= off
    requires forall i :: n <= i < |es| ==> off < es[i].logical
    ensures n == 0 || !es[n - 1].Covers(off) ==> Scan(es, off).None?
    ensures n > 0 && es[n - 1].Covers(off) ==> Scan(es, off) == Some(n - 1)
  {
    if n > 0 && es[n - 1].Covers(off) {
      ScanIsUnique(es, off, n - 1);
    }
  }

  method Lookup(es: seq<Extent>, off: nat, length: nat) returns (r: Result<Segment>)
    requires Sorted(es)
    ensures r == LookupSpec(es, off, length)
  {
    var n := UpperBound(es, off);
    BoundCovers(es, off, n);
    if n == 0 {
      return Err("offset not mapped");
    }
    var e := es[n - 1];
    if off >= e.logical + e.length {
      return Err("offset not mapped");
    }
    var intra := off - e.logical;
    var available := e.length - intra;
    if available > length {
      available := length;
    }
    return Ok(Segment(e.physical + intra, available));
  }

  method RemainingAt(es: seq<Extent>, off: nat, hint: int) returns (rem: nat, idx: nat)
    requires Sorted(es)
    ensures (rem, idx) == RemainingSpec(es, off)
  {
    if 0 <= hint < |es| {
      var e := es[hint];
      if e.Covers(off) {
        ScanIsUnique(es, off, hint);
        return e.length - (off - e.logical), hint;
      }
      if hint + 1 < |es| {
        var e2 := es[hint + 1];
        if e2.Covers(off) {
          ScanIsUnique(es, off, hint + 1);
          return e2.length - (off - e2.logical), hint + 1;
        }
      }
    }
    var n := UpperBound(es, off);
    BoundCovers(es, off, n);
    StartedIs(es, off, n);
    if n == 0 {
      return 0, 0;
    }
    var e := es[n - 1];
    if off >= e.logical + e.length {
      return 0, n - 1;
    }
    return e.length - (off - e.logical), n - 1;
  }

  // ---------------------------------------------------------------- building the cache

  /** Each extent starts where the previous one ends, the first at offset 0. */
  ghost predicate GapFree(es: seq<Extent>) {
    && (es != [] ==> es[0].logical == 0)
    && (forall i, j :: 0 <= i < j < |es| && j == i + 1 ==> es[j].logical == es[i].logical + es[i].length)
  }

  function End(es: seq<Extent>): nat {
    if es == [] then 0 else es[|es| - 1].logical + es[|es| - 1].length
  }

  lemma {:induction false} GapFreeIsSorted(es: seq<Extent>)
    requires GapFree(es)
    ensures Sorted(es)
    ensures forall i :: 0 <= i < |es| ==> es[i].logical + es[i].length <= End(es)
  {
    if |es| > 1 {
      GapFreeIsSorted(es[..|es| - 1]);
      assert Sorted(es[..|es| - 1]);
    }
  }

  /** A gap-free cache answers for every offset below its end. */
  lemma {:induction false} GapFreeCovers(es: seq<Extent>, off: nat)
    requires GapFree(es) && off < End(es)
    ensures Scan(es, off).Some?
  {
    var front := es[..|es| - 1];
    if es[|es| - 1].Covers(off) {
      assert !Scan(es, off).None?;
    } else {
      GapFreeIsSorted(es);
      assert off < End(front);
      GapFreeCovers(front, off);
      assert es[Scan(front, off).value].Covers(off);
    }
  }

  /** The file-system query `native_get_pba`: at most one extent per call, or nothing. */
  type Fiemap = (nat, nat) -> Option<Segment>

  /** The query finds no usable extent at `off`. */
  predicate Hole(fiemap: Fiemap, fileSize: nat, off: nat) {
    off < fileSize && (fiemap(off, fileSize - off).None? ||
                       fiemap(off, fileSize - off).value.pba == 0 ||
                       fiemap(off, fileSize - off).value.len == 0)
  }

  /** Every extent is what the query answers at its own start. */
  predicate Answers(fiemap: Fiemap, fileSize: nat, es: seq<Extent>) {
    forall i :: 0 <= i < |es| ==>
      && es[i].logical < fileSize
      && !Hole(fiemap, fileSize, es[i].logical)
      && fiemap(es[i].logical, fileSize - es[i].logical) == Some(Segment(es[i].physical, es[i].length))
  }

  /** Walks the file extent by extent. It succeeds with a gap-free cover of the whole file, or
      stops at the first hole and returns the cover of everything before it in `es`. */
  method Build(fiemap: Fiemap, fileSize: nat) returns (r: Result<seq<Extent>>, es: seq<Extent>)
    ensures GapFree(es) && Answers(fiemap, fileSize, es)
    ensures r.Ok? ==> r.value == es && fileSize <= End(es)
    ensures r.Ok? ==> forall off :: 0 <= off < fileSize ==> Scan(es, off).Some?
    ensures r.Err? ==> Hole(fiemap, fileSize, End(es))
  {
    hide Scan;
    es := [];
    var off := 0;
    while off < fileSize
      invariant GapFree(es) && off == End(es)
      invariant Answers(fiemap, fileSize, es)
      decreases fileSize - off
    {
      var seg := fiemap(off, fileSize - off);
      if seg.None? {
        return Err("FIEMAP failed"), es;
      }
      if seg.value.pba == 0 {
        return Err("hole in file"), es;
      }
      if seg.value.len == 0 {
        return Err("zero-length extent"), es;
      }
      es := es + [Extent(off, seg.value.pba, seg.value.len)];
      off := off + seg.value.len;
    }
    CoversFile(es, fileSize);
    r := Ok(es);
  }

  lemma CoversFile(es: seq<Extent>, fileSize: nat)
    requires GapFree(es) && fileSize <= End(es)
    ensures forall off :: 0 <= off < fileSize ==> Scan(es, off).Some?
  {
    forall o | 0 <= o < fileSize ensures Scan(es, o).Some? {
      GapFreeCovers(es, o);
    }
  }

  // ---------------------------------------------------------------- layouts of a whole ring file

  predicate DisjointRanges(a: nat, lenA: nat, b: nat, lenB: nat) {
    a + lenA <= b || b + lenB <= a
  }

  /** A gap-free, sector-aligned, injective map of the first `fileSize` bytes onto a device. */
  ghost predicate Layout(es: seq<Extent>, fileSize: nat) {
    && GapFree(es)
    && fileSize <= End(es)
    && (forall i :: 0 <= i < |es| ==> es[i].length > 0 && es[i].physical > 0
                                      && es[i].length % 512 == 0 && es[i].physical % 512 == 0)
    && (forall i, j :: 0 <= i < j < |es| ==>
          DisjointRanges(es[i].physical, es[i].length, es[j].physical, es[j].length))
  }

  /** Device address of a mapped file offset. */
  function Phys(es: seq<Extent>, off: nat): nat
    requires Scan(es, off).Some?
  {
    var e := es[Scan(es, off).value];
    e.physical + (off - e.logical)
  }

  lemma LayoutMaps(es: seq<Extent>, fileSize: nat, off: nat)
    requires Layout(es, fileSize) && off < fileSize
    ensures Sorted(es) && Scan(es, off).Some?
  {
    GapFreeIsSorted(es);
    GapFreeCovers(es, off);
  }

  /** Different file offsets live at different device addresses. */
  lemma PhysInjective(es: seq<Extent>, fileSize: nat, a: nat, b: nat)
    requires Layout(es, fileSize) && a < fileSize && b < fileSize && a != b
    requires Scan(es, a).Some? && Scan(es, b).Some?
    ensures Phys(es, a) != Phys(es, b)
  {
    var i, j := Scan(es, a).value, Scan(es, b).value;
    assert i < j ==> DisjointRanges(es[i].physical, es[i].length, es[j].physical, es[j].length);
    assert j < i ==> DisjointRanges(es[j].physical, es[j].length, es[i].physical, es[i].length);
  }

  /** Inside one extent the device addresses follow the file offsets. */
  lemma PhysContiguous(es: seq<Extent>, off: nat, d: nat)
    requires Sorted(es) && Scan(es, off).Some?
    requires d < RemainingSpec(es, off).0
    ensures Scan(es, off + d) == Scan(es, off)
    ensures Phys(es, off + d) == Phys(es, off) + d
  {
    ScanIsUnique(es, off + d, Scan(es, off).value);
  }

  lemma {:induction false} LogicalAligned(es: seq<Extent>, fileSize: nat, i: nat)
    requires Layout(es, fileSize) && i < |es|
    ensures es[i].logical % 512 == 0
  {
    if i > 0 {
      LogicalAligned(es, fileSize, i - 1);
    }
  }

  /** A sector of the file is a sector of the device. */
  lemma SectorContiguous(es: seq<Extent>, fileSize: nat, off: nat)
    requires Layout(es, fileSize) && off < fileSize && off % 512 == 0
    ensures Sorted(es) && Scan(es, off).Some?
    ensures 512 <= RemainingSpec(es, off).0 && RemainingSpec(es, off).0 % 512 == 0
    ensures Phys(es, off) % 512 == 0
    ensures forall o :: off <= o < off + 512 ==> Scan(es, o).Some? && Phys(es, o) == Phys(es, off) + (o - off)
  {
    LayoutMaps(es, fileSize, off);
    hide Scan;
    hide Sorted;
    SectorRemains(es, fileSize, off);
    forall o | off <= o < off + 512
      ensures Scan(es, o).Some? && Phys(es, o) == Phys(es, off) + (o - off)
    {
      PhysContiguous(es, off, o - off);
    }
  }

  lemma SectorRemains(es: seq<Extent>, fileSize: nat, off: nat)
    requires Layout(es, fileSize) && off < fileSize && off % 512 == 0 && Scan(es, off).Some?
    ensures 512 <= RemainingSpec(es, off).0 && RemainingSpec(es, off).0 % 512 == 0
    ensures Phys(es, off) % 512 == 0
  {
    hide Scan;
    var e := es[Scan(es, off).value];
    LogicalAligned(es, fileSize, Scan(es, off).value);
    SectorOf(e.logical, e.physical, e.length, off);
  }

  lemma SectorOf(logical: nat, physical: nat, length: nat, off: nat)
    requires logical % 512 == 0 && physical % 512 == 0 && length % 512 == 0 && off % 512 == 0
    requires logical <= off < logical + length
    ensures 512 <= length - (off - logical) && (length - (off - logical)) % 512 == 0
    ensures (physical + (off - logical)) % 512 == 0
  {}

  // ---------------------------------------------------------------- ring slots on a device

  /** Device address of every slot of a ring of `ringSlots` slots behind its header sector. */
  ghost function SlotMap(es: seq<Extent>, ringSlots: nat): (m: seq<nat>)
    requires Layout(es, SlotOffset(ringSlots))
    ensures |m| == ringSlots
    ensures forall s :: 0 <= s < ringSlots ==>
              Scan(es, SlotOffset(s)).Some? && m[s] == Phys(es, SlotOffset(s))
  {
    assert forall s :: 0 <= s < ringSlots ==> Scan(es, SlotOffset(s)).Some? by {
      forall s | 0 <= s < ringSlots ensures Scan(es, SlotOffset(s)).Some? {
        SectorContiguous(es, SlotOffset(ringSlots), SlotOffset(s));
      }
    }
    seq(ringSlots, s requires 0 <= s < ringSlots => Phys(es, SlotOffset(s)))
  }

  /** Slot `s` is a whole sector of a device of `size` bytes. */
  predicate SlotOk(m: seq<nat>, s: nat, size: nat)
    requires s < |m|
  {
    m[s] > 0 && m[s] % 512 == 0 && m[s] + 512 <= size
  }

  predicate SlotsApart(m: seq<nat>, s: nat, t: nat)
    requires s < |m| && t < |m|
  {
    m[s] + 512 <= m[t] || m[t] + 512 <= m[s]
  }

  /** Slots are whole, disjoint sectors of a device of `size` bytes. */
  ghost predicate SlotsOn(m: seq<nat>, size: nat) {
    && (forall s {:trigger SlotOk(m, s, size)} :: 0 <= s < |m| ==> SlotOk(m, s, size))
    && (forall s, t {:trigger SlotsApart(m, s, t)} :: 0 <= s < |m| && 0 <= t < |m| && s != t ==> SlotsApart(m, s, t))
  }

  ghost predicate OnDevice(es: seq<Extent>, size: nat) {
    forall i :: 0 <= i < |es| ==> es[i].physical + es[i].length <= size
  }

  lemma SlotIsSector(es: seq<Extent>, ringSlots: nat, size: nat, s: nat)
    requires Layout(es, SlotOffset(ringSlots)) && OnDevice(es, size) && s < ringSlots
    requires Scan(es, SlotOffset(s)).Some?
    ensures Phys(es, SlotOffset(s)) > 0
    ensures Phys(es, SlotOffset(s)) % 512 == 0
    ensures Phys(es, SlotOffset(s)) + RemainingSpec(es, SlotOffset(s)).0 <= size
    ensures RemainingSpec(es, SlotOffset(s)).0 >= 512 && RemainingSpec(es, SlotOffset(s)).0 % 512 == 0
  {
    SectorContiguous(es, SlotOffset(ringSlots), SlotOffset(s));
  }

  lemma AlignedApart(a: nat, b: nat)
    requires a % 512 == 0 && b % 512 == 0 && a != b
    ensures a + 512 <= b || b + 512 <= a
  {}

  /** Any sector-aligned, injective layout gives disjoint slot sectors. */
  lemma SlotMapOn(es: seq<Extent>, ringSlots: nat, size: nat)
    requires Layout(es, SlotOffset(ringSlots)) && OnDevice(es, size)
    ensures SlotsOn(SlotMap(es, ringSlots), size)
  {
    var m := SlotMap(es, ringSlots);
    forall s | 0 <= s < |m| ensures SlotOk(m, s, size) {
      SlotIsSector(es, ringSlots, size, s);
    }
    forall s, t | 0 <= s < |m| && 0 <= t < |m| && s != t ensures SlotsApart(m, s, t) {
      assert SlotOk(m, s, size) && SlotOk(m, t, size);
      PhysInjective(es, SlotOffset(ringSlots), SlotOffset(s), SlotOffset(t));
      AlignedApart(m[s], m[t]);
    }
  }
}
