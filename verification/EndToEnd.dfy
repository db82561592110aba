/** From the leader's encoder to the follower's decoder: a batch that lies in one piece on a single-extent leader
    ring is split, copied by striped workers onto any follower layout, and read back entry by entry. */
module EndToEnd {
  import opened Basics
  import opened Extents
  import opened EntryCodec
  import opened Ring
  import opened Types
  import opened Batch
  import opened Progress
  import opened Election
  import opened Follower
  import opened SlotAgreement
  import opened RingRuns
  import opened Chunks
  import opened BlockCopy

  // ---------------------------------------------------------------- the leader's side

  /** A single-extent ring at a sector of the leader's device, with the slots of its map linear from `base`. */
  ghost predicate LeaderDevice(dev: Device, base: nat, ringSlots: nat) {
    ringSlots > 0 && base > 0 && base % 512 == 0 && base + SlotOffset(ringSlots) <= |dev|
  }

  lemma OneExtentLayout(dev: Device, base: nat, ringSlots: nat)
    requires LeaderDevice(dev, base, ringSlots)
    ensures Layout(OneExtent(base, ringSlots), SlotOffset(ringSlots)) && OnDevice(OneExtent(base, ringSlots), |dev|)
    ensures SlotsOn(SlotMap(OneExtent(base, ringSlots), ringSlots), |dev|)
    ensures forall s :: 0 <= s < ringSlots ==> SlotMap(OneExtent(base, ringSlots), ringSlots)[s] == base + SlotOffset(s)
  {
    var es := OneExtent(base, ringSlots);
    assert Layout(es, SlotOffset(ringSlots));
    SlotMapOn(es, ringSlots, |dev|);
    forall s | 0 <= s < ringSlots ensures SlotMap(es, ringSlots)[s] == base + SlotOffset(s) {
      assert Scan(es, SlotOffset(s)).Some?;
    }
  }

  /** The batch is on the leader's ring: each record behind the one before it, all inside the ring. */
  ghost predicate OnLeader(dev: Device, m: seq<nat>, start: nat, recs: seq<Record>)
    requires SlotsOn(m, |dev|) && m != []
  {
    && start + Sum(RecordNeeds(recs), |recs|) <= |m|
    && forall k {:trigger InPlace(dev, m, start, recs, k)} :: 0 <= k < |recs| ==> InPlace(dev, m, start, recs, k)
  }

  ghost predicate InPlace(dev: Device, m: seq<nat>, start: nat, recs: seq<Record>, k: nat)
    requires SlotsOn(m, |dev|) && m != [] && k < |recs|
  {
    recs[k].Fits() && Holds(dev, m, start + Sum(RecordNeeds(recs), k), Encode(recs[k]))
  }

  /** In every run of the ring (RingRuns), a batch of live records that lie one behind the other is on the
      leader's device in this sense. */
  lemma LiveBatchOnLeader(s: RingState, m: seq<nat>, first: nat, recs: seq<Record>, start: nat)
    requires RingRuns.Inv(s, m) && first + |recs| <= |s.history| && recs == s.history[first..first + |recs|]
    requires start + Sum(RecordNeeds(recs), |recs|) <= |m|
    requires forall k {:trigger RecordedAs(s, first, recs, start, k)} :: 0 <= k < |recs| ==>
               RecordedAs(s, first, recs, start, k)
    ensures OnLeader(s.dev, m, start, recs)
  {
    hide InPlace;
    hide RecordedAs;
    hide RingOk;
    hide LiveOk;
    hide RecordNeeds;
    hide SlotsOn;
    forall k | 0 <= k < |recs| ensures InPlace(s.dev, m, start, recs, k) {
      assert RecordedAs(s, first, recs, start, k);
      LiveInPlace(s, m, first, recs, start, k);
    }
  }

  lemma LiveInPlace(s: RingState, m: seq<nat>, first: nat, recs: seq<Record>, start: nat, k: nat)
    requires RingRuns.Inv(s, m) && k < |recs| && first + |recs| <= |s.history| && s.history[first + k] == recs[k]
    requires RecordedAs(s, first, recs, start, k)
    ensures InPlace(s.dev, m, start, recs, k)
  {
    hide Holds;
    hide RingOk;
    hide Sum;
    hide SlotsOn;
    hide RecordNeeds;
    assert LiveOk(s, m, first + k);
  }

  predicate RecordedAs(s: RingState, first: nat, recs: seq<Record>, start: nat, k: nat)
    requires k < |recs|
  {
    first + k in s.live && s.live[first + k].start == start + Sum(RecordNeeds(recs), k)
  }

  // ---------------------------------------------------------------- the copy

  /** A copy that came back without error: for some number of workers and some interleaving of their steps, while
      the source device went through the states `srcs`. */
  ghost predicate Copied(run: seq<CopyState>, srcs: seq<Device>, dst: Device, dst': Device, chunks: seq<Chunk>,
                         w: nat) {
    && run != [] && 0 < w <= |chunks| && BlockCopy.IsRun(run, srcs, dst, chunks, w)
    && ErrorFree(run[|run| - 1]) && run[|run| - 1].dst == dst'
  }

  /** Every byte of sector `q` of the source range from `pba` on has been read and is at its ring slot on the
      destination. */
  ghost predicate Arrived(srcs: seq<Device>, pba: nat, dst: Device, m: seq<nat>, start: nat, q: nat)
    requires m != [] && SlotsOn(m, |dst|)
  {
    forall i :: 0 <= i < 512 ==> SeenAt(srcs, pba + 512 * q + i, SlotBytes(dst, m, SlotAt(start, q, |m|))[i])
  }

  /** What the striped copy leaves behind. */
  lemma CopiedChunks(run: seq<CopyState>, srcs: seq<Device>, dst: Device, dst': Device, chunks: seq<Chunk>, w: nat)
    requires Copied(run, srcs, dst, dst', chunks, w) && Disjoint(chunks)
    ensures |dst'| == |dst| && forall c :: 0 <= c < |chunks| ==> ChunkCopied(srcs, dst', chunks[c])
    ensures forall p :: 0 <= p < |dst| && (forall c :: 0 <= c < |chunks| ==> !Touches(chunks[c], p)) ==>
              dst'[p] == dst[p]
  {
    hide Disjoint;
    hide BlockCopy.IsRun;
    hide ErrorFree;
    hide ChunkCopied;
    ParallelCopy(run, srcs, dst, chunks, w, |run| - 1);
  }

  lemma AllDisjoint(chunks: seq<Chunk>, cuts: seq<nat>, m: seq<nat>, size: nat, pba: nat, start: nat, total: nat)
    requires m != [] && SlotsOn(m, size) && total <= |m| && Tiles(chunks, cuts, m, pba, start, total)
    ensures Disjoint(chunks)
  {
    hide Tiles;
    hide SlotsOn;
    forall i, j | 0 <= i < j < |chunks|
      ensures DisjointRanges(chunks[i].dst, chunks[i].len, chunks[j].dst, chunks[j].len)
    {
      ChunksDisjoint(chunks, cuts, m, size, pba, start, total, i, j);
    }
  }

  /** A sector inside a chunk's destination holds bytes of the corresponding source sector. */
  lemma ChunkBytes(srcs: seq<Device>, dst: Device, c: Chunk, off: nat, i: nat)
    requires ChunkCopied(srcs, dst, c) && off + 512 <= c.len && i < 512
    ensures c.dst + off + 512 <= |dst| && SeenAt(srcs, c.src + off + i, dst[c.dst + off..c.dst + off + 512][i])
  {
    hide SeenAt;
    assert Touches(c, c.dst + off + i);
  }

  lemma SectorInChunk(chunks: seq<Chunk>, cuts: seq<nat>, m: seq<nat>, size: nat, pba: nat, start: nat, total: nat,
                      q: nat)
    returns (k: nat, off: nat)
    requires m != [] && SlotsOn(m, size) && Tiles(chunks, cuts, m, pba, start, total) && q < total
    ensures k < |chunks| && off + 512 <= chunks[k].len
    ensures chunks[k].src + off == pba + 512 * q && chunks[k].dst + off == m[SlotAt(start, q, |m|)]
    ensures SlotOk(m, SlotAt(start, q, |m|), size)
  {
    hide SlotsApart;
    hide SlotAt;
    k := CarrierOf(chunks, cuts, m, pba, start, total, q);
    assert ChunkOk(chunks[k], m, pba, start, cuts[k], cuts[k + 1]);
    off := 512 * (q - cuts[k]);
    assert SlotOk(m, SlotAt(start, q, |m|), size);
  }

  /** Every sector of the tiled range arrives at its ring slot. */
  lemma CopiedSector(run: seq<CopyState>, srcs: seq<Device>, dst: Device, dst': Device, chunks: seq<Chunk>, w: nat,
                     cuts: seq<nat>, m: seq<nat>, pba: nat, start: nat, total: nat, q: nat)
    requires Copied(run, srcs, dst, dst', chunks, w) && m != [] && SlotsOn(m, |dst|) && total <= |m|
    requires Tiles(chunks, cuts, m, pba, start, total) && q < total
    ensures |dst'| == |dst| && Arrived(srcs, pba, dst', m, start, q)
  {
    hide Copied;
    hide Disjoint;
    hide Tiles;
    hide SlotsOn;
    hide ChunkCopied;
    hide SeenAt;
    hide SlotAt;
    AllDisjoint(chunks, cuts, m, |dst|, pba, start, total);
    CopiedChunks(run, srcs, dst, dst', chunks, w);
    var k, off := SectorInChunk(chunks, cuts, m, |dst|, pba, start, total, q);
    forall i | 0 <= i < 512 ensures SeenAt(srcs, pba + 512 * q + i, SlotBytes(dst', m, SlotAt(start, q, |m|))[i]) {
      ChunkBytes(srcs, dst', chunks[k], off, i);
    }
  }

  /** Slots outside the copied window are as they were. */
  lemma OtherSlotsUntouched(run: seq<CopyState>, srcs: seq<Device>, dst: Device, dst': Device, chunks: seq<Chunk>,
                            w: nat, cuts: seq<nat>, m: seq<nat>, pba: nat, start: nat, total: nat, t: nat)
    requires Copied(run, srcs, dst, dst', chunks, w) && m != [] && SlotsOn(m, |dst|) && total <= |m|
    requires Tiles(chunks, cuts, m, pba, start, total)
    requires t < |m| && forall q: nat :: q < total ==> SlotAt(start, q, |m|) != t
    ensures |dst'| == |dst| && SlotBytes(dst', m, t) == SlotBytes(dst, m, t)
  {
    assert SlotOk(m, t, |dst|);
    hide Copied;
    hide Disjoint;
    hide Tiles;
    hide SlotsOn;
    hide ChunkCopied;
    hide SlotAt;
    AllDisjoint(chunks, cuts, m, |dst|, pba, start, total);
    CopiedChunks(run, srcs, dst, dst', chunks, w);
    forall p | m[t] <= p < m[t] + 512 ensures dst'[p] == dst[p] {
      forall k | 0 <= k < |chunks| ensures !Touches(chunks[k], p) {
        NotTouched(chunks, cuts, m, |dst|, pba, start, total, t, k, p);
      }
    }
  }

  lemma NotTouched(chunks: seq<Chunk>, cuts: seq<nat>, m: seq<nat>, size: nat, pba: nat, start: nat, total: nat, t: nat,
                   k: nat, p: nat)
    requires m != [] && SlotsOn(m, size) && Tiles(chunks, cuts, m, pba, start, total) && k < |chunks|
    requires t < |m| && m[t] <= p < m[t] + 512 && forall q: nat :: q < total ==> SlotAt(start, q, |m|) != t
    ensures !Touches(chunks[k], p)
  {
    var c := chunks[k];
    assert ChunkOk(c, m, pba, start, cuts[k], cuts[k + 1]);
    CutsGrow(chunks, cuts, m, pba, start, total, k + 1, |chunks|);
    hide SlotAt;
    var d := if p < c.dst then 0 else Min((p - c.dst) / 512, cuts[k + 1] - cuts[k] - 1);
    var s := SlotAt(start, cuts[k] + d, |m|);
    assert m[s] == c.dst + 512 * d && s != t;
    assert SlotsApart(m, s, t);
  }

  // ---------------------------------------------------------------- read back

  /** A record that was in place in every state of the source, and whose sectors all arrived, is stored on the
      follower. */
  lemma RecordArrives(srcs: seq<Device>, ml: seq<nat>, pba: nat, fdev: Device, mf: seq<nat>, start: nat, first: nat,
                      data: seq<Byte>)
    requires ml != [] && |ml| == |mf| && SlotsOn(mf, |fdev|) && start + first + |data| / 512 <= |ml|
    requires forall t :: 0 <= t < |srcs| ==> SlotsOn(ml, |srcs[t]|) && Holds(srcs[t], ml, start + first, data)
    requires forall s :: start <= s < |ml| ==> ml[s] == pba + 512 * (s - start)
    requires forall q: nat :: q < first + |data| / 512 ==> Arrived(srcs, pba, fdev, mf, start, q)
    ensures Holds(fdev, mf, start + first, data)
  {
    hide SlotBytes;
    hide Block;
    hide Arrived;
    forall j | 0 <= j < |data| / 512 ensures SlotBytes(fdev, mf, (start + first + j) % |mf|) == Block(data, j) {
      ModSmall(start + first + j, |ml|);
      forall i | 0 <= i < 512 ensures SlotBytes(fdev, mf, start + first + j)[i] == Block(data, j)[i] {
        SameByte(srcs, ml, pba, fdev, mf, start, first, data, j, i);
      }
    }
  }

  lemma SameByte(srcs: seq<Device>, ml: seq<nat>, pba: nat, fdev: Device, mf: seq<nat>, start: nat, first: nat,
                 data: seq<Byte>, j: nat, i: nat)
    requires ml != [] && |ml| == |mf| && SlotsOn(mf, |fdev|) && start + first + |data| / 512 <= |ml|
    requires forall t :: 0 <= t < |srcs| ==> SlotsOn(ml, |srcs[t]|) && Holds(srcs[t], ml, start + first, data)
    requires j < |data| / 512 && i < 512 && ml[start + first + j] == pba + 512 * (first + j)
    requires Arrived(srcs, pba, fdev, mf, start, first + j)
    ensures SlotOk(mf, start + first + j, |fdev|) && SlotBytes(fdev, mf, start + first + j)[i] == Block(data, j)[i]
  {
    var slot := start + first + j;
    ModSmall(slot, |ml|);
    assert SlotOk(mf, slot, |fdev|) && SlotAt(start, first + j, |mf|) == slot;
    var v := SlotBytes(fdev, mf, slot)[i];
    assert SeenAt(srcs, pba + 512 * (first + j) + i, v);
    var t :| 0 <= t < |srcs| && pba + 512 * (first + j) + i < |srcs[t]| && srcs[t][pba + 512 * (first + j) + i] == v;
    assert SlotsOn(ml, |srcs[t]|) && Holds(srcs[t], ml, start + first, data);
    assert SlotOk(ml, slot, |srcs[t]|) && SlotBytes(srcs[t], ml, (start + first + j) % |ml|) == Block(data, j);
    assert SlotBytes(srcs[t], ml, slot)[i] == srcs[t][ml[slot] + i];
  }

  /** The batch is on the leader's single-extent ring. */
  ghost predicate LeaderHolds(dev: Device, base: nat, ringSlots: nat, start: nat, recs: seq<Record>) {
    && LeaderDevice(dev, base, ringSlots) && Layout(OneExtent(base, ringSlots), SlotOffset(ringSlots))
    && SlotsOn(SlotMap(OneExtent(base, ringSlots), ringSlots), |dev|)
    && OnLeader(dev, SlotMap(OneExtent(base, ringSlots), ringSlots), start, recs)
  }

  /** What a request for a batch asks a follower to do, done: the range is tiled as the splitter guarantees, its
      rounded length fits the ring, and the copy comes back without error. */
  ghost predicate Replicated(srcs: seq<Device>, fdev: Device, fdev': Device, es: seq<Extent>, ringSlots: nat, pba: nat,
                             start: nat, blocks: nat, chunks: seq<Chunk>, cuts: seq<nat>, run: seq<CopyState>, w: nat) {
    && Mounted(fdev, es, ringSlots) && RoundedSectors(blocks) <= ringSlots
    && Tiles(chunks, cuts, SlotMap(es, ringSlots), pba, start, RoundedSectors(blocks))
    && Copied(run, srcs, fdev, fdev', chunks, w)
  }

  /** Metadata announce every record with its term and full length. */
  ghost predicate Announces(metas: seq<EntryMeta>, recs: seq<Record>) {
    |metas| == |recs| && forall i :: 0 <= i < |recs| ==> metas[i] == EntryMeta(recs[i].term, |recs[i].command|)
  }

  /** Data fidelity from end to end. The leader's ring is one extent and holds the batch in every state it goes
      through meanwhile; the follower's is any layout; the batch is announced with its full lengths and copied
      without error. Then the decoder, at every slot the follower computed, returns exactly the leader's term and
      command. */
  lemma {:induction false} FollowerDecodesWhatLeaderEncoded(srcs: seq<Device>, base: nat, fdev: Device, fdev': Device,
                                                            es: seq<Extent>, ringSlots: nat, start: nat,
                                                            recs: seq<Record>, metas: seq<EntryMeta>,
                                                            chunks: seq<Chunk>, cuts: seq<nat>, run: seq<CopyState>,
                                                            w: nat, k: nat)
    requires srcs != [] && forall t :: 0 <= t < |srcs| ==> LeaderHolds(srcs[t], base, ringSlots, start, recs)
    requires k < |recs| && Announces(metas, recs)
    requires Replicated(srcs, fdev, fdev', es, ringSlots, base + SlotOffset(start), start,
                        Sum(RecordNeeds(recs), |recs|),
                        chunks, cuts, run, w)
    ensures Mounted(fdev', es, ringSlots) && SlotsOn(SlotMap(es, ringSlots), |fdev'|)
    ensures var slot := SlotFor(metas, start, ringSlots, k);
            && slot < ringSlots
            && ReadSpec(fdev', SlotMap(es, ringSlots), slot).term == recs[k].term
            && ReadSpec(fdev', SlotMap(es, ringSlots), slot).command == recs[k].command
  {
    hide *;
    var blocks := Sum(RecordNeeds(recs), |recs|);
    ReplicatedParts(srcs, fdev, fdev', es, ringSlots, base + SlotOffset(start), start, blocks, chunks, cuts, run, w);
    MountedSlots(fdev, es, ringSlots);
    var ml := LeaderSlots(srcs[0], base, ringSlots, start, recs);
    var mf := SlotMap(es, ringSlots);
    var needs, pba := RecordNeeds(recs), base + SlotOffset(start);
    forall t | 0 <= t < |srcs|
      ensures SlotsOn(ml, |srcs[t]|) && Holds(srcs[t], ml, start + Sum(needs, k), Encode(recs[k]))
      ensures |needs| == |recs| && start + blocks <= ringSlots && recs[k].Fits()
      ensures |Encode(recs[k])| / 512 == recs[k].Slots()
      ensures Sum(needs, k) < Sum(needs, k) + recs[k].Slots() <= blocks <= RoundedSectors(blocks)
    {
      var ml' := LeaderSlots(srcs[t], base, ringSlots, start, recs);
      BatchBounds(srcs[t], ml, start, recs, k);
      RecordParts(srcs[t], ml, start, recs, k);
    }
    assert |needs| == |recs| && start + blocks <= ringSlots && recs[k].Fits()
        && |Encode(recs[k])| / 512 == recs[k].Slots()
        && Sum(needs, k) < Sum(needs, k) + recs[k].Slots() <= blocks <= RoundedSectors(blocks) by {
      assert 0 < |srcs|;
    }
    CopiedSector(run, srcs, fdev, fdev', chunks, w, cuts, mf, pba, start, RoundedSectors(blocks), 0);
    forall q: nat | q < RoundedSectors(blocks) ensures Arrived(srcs, pba, fdev', mf, start, q) {
      CopiedSector(run, srcs, fdev, fdev', chunks, w, cuts, mf, pba, start, RoundedSectors(blocks), q);
    }
    SameSizeMounted(fdev, fdev', es, ringSlots);
    LinearSlots(base, start);
    RecordArrives(srcs, ml, pba, fdev', mf, start, Sum(needs, k), Encode(recs[k]));
    AnnouncedNeeds(recs, metas);
    CountsRight(metas, needs, start, ringSlots, k);
    ReadStored(fdev', mf, start + Sum(needs, k), recs[k]);
  }

  lemma LeaderSlots(dev: Device, base: nat, ringSlots: nat, start: nat, recs: seq<Record>) returns (ml: seq<nat>)
    requires LeaderHolds(dev, base, ringSlots, start, recs)
    ensures Layout(OneExtent(base, ringSlots), SlotOffset(ringSlots))
    ensures ml == SlotMap(OneExtent(base, ringSlots), ringSlots)
    ensures |ml| == ringSlots > 0 && SlotsOn(ml, |dev|) && OnLeader(dev, ml, start, recs)
    ensures forall s :: 0 <= s < ringSlots ==> ml[s] == base + SlotOffset(s)
  {
    hide Layout;
    hide OnLeader;
    hide SlotsOn;
    OneExtentLayout(dev, base, ringSlots);
    ml := SlotMap(OneExtent(base, ringSlots), ringSlots);
  }

  lemma ReplicatedParts(srcs: seq<Device>, fdev: Device, fdev': Device, es: seq<Extent>, ringSlots: nat, pba: nat,
                        start: nat, blocks: nat, chunks: seq<Chunk>, cuts: seq<nat>, run: seq<CopyState>, w: nat)
    requires Replicated(srcs, fdev, fdev', es, ringSlots, pba, start, blocks, chunks, cuts, run, w)
    ensures Mounted(fdev, es, ringSlots) && ringSlots > 0 && Layout(es, SlotOffset(ringSlots))
    ensures RoundedSectors(blocks) <= ringSlots
    ensures Tiles(chunks, cuts, SlotMap(es, ringSlots), pba, start, RoundedSectors(blocks))
    ensures Copied(run, srcs, fdev, fdev', chunks, w)
  {
    hide Tiles;
    hide Copied;
    hide Layout;
  }

  /** When a follower that copied the batch is promoted, its loading pass gives entry `k` the leader's command
      exactly if the entry does not lie at slot 0, where a deferred entry looks like one that needs no loading,
      or has no command. */
  lemma {:induction false} PromotedFollowerHasCommandIff(srcs: seq<Device>, base: nat, fdev: Device, fdev': Device,
                                                         es: seq<Extent>, ringSlots: nat, start: nat, recs: seq<Record>,
                                                         metas: seq<EntryMeta>, chunks: seq<Chunk>, cuts: seq<nat>,
                                                         run: seq<CopyState>, w: nat, k: nat, read: Reader)
    requires srcs != [] && forall t :: 0 <= t < |srcs| ==> LeaderHolds(srcs[t], base, ringSlots, start, recs)
    requires k < |recs| && Announces(metas, recs)
    requires Replicated(srcs, fdev, fdev', es, ringSlots, base + SlotOffset(start), start,
                        Sum(RecordNeeds(recs), |recs|),
                        chunks, cuts, run, w)
    requires Mounted(fdev', es, ringSlots) && SlotsOn(SlotMap(es, ringSlots), |fdev'|)
    requires forall s: nat :: s < ringSlots ==> read(s) == Some(ReadSpec(fdev', SlotMap(es, ringSlots), s).command)
    ensures |metas| == |recs|
    ensures var e := Loaded(Deferred(metas, start, ringSlots, k), read);
            && e.term == recs[k].term
            && (e.command == recs[k].command <==> SlotFor(metas, start, ringSlots, k) != 0 || recs[k].command == [])
  {
    hide Replicated;
    hide LeaderHolds;
    hide SlotsOn;
    hide SlotFor;
    hide ReadSpec;
    hide Layout;
    FollowerDecodesWhatLeaderEncoded(srcs, base, fdev, fdev', es, ringSlots, start, recs, metas, chunks, cuts, run, w,
                                     k);
  }

  /** Such an entry: one byte of command at slot 0, readable on the device, and still empty after loading. */
  lemma SlotZeroStaysEmpty()
    ensures var e := Deferred([EntryMeta(1, 1)], 0, 100, 0);
            var read: Reader := slot => Some([7]);
            read(e.ringSlot) == Some([7]) && Loaded(e, read).command == [] && Loaded(e, read).cmdLen == 1
  {}

  lemma LinearSlots(base: nat, start: nat)
    ensures forall s: nat :: start <= s ==> base + SlotOffset(s) == base + SlotOffset(start) + 512 * (s - start)
  {}

  lemma MountedSlots(dev: Device, es: seq<Extent>, ringSlots: nat)
    requires Mounted(dev, es, ringSlots)
    ensures ringSlots > 0 && Layout(es, SlotOffset(ringSlots)) && SlotsOn(SlotMap(es, ringSlots), |dev|)
    ensures |SlotMap(es, ringSlots)| == ringSlots
  {
    SlotMapOn(es, ringSlots, |dev|);
  }

  lemma SameSizeMounted(dev: Device, dev': Device, es: seq<Extent>, ringSlots: nat)
    requires Mounted(dev, es, ringSlots) && |dev'| == |dev|
    ensures Mounted(dev', es, ringSlots)
  {}

  lemma BatchBounds(dev: Device, m: seq<nat>, start: nat, recs: seq<Record>, k: nat)
    requires m != [] && SlotsOn(m, |dev|) && OnLeader(dev, m, start, recs) && k < |recs|
    ensures |RecordNeeds(recs)| == |recs|
    ensures var needs := RecordNeeds(recs);
            && Sum(needs, k) < Sum(needs, k) + recs[k].Slots() <= Sum(needs, |recs|)
            && Sum(needs, |recs|) <= RoundedSectors(Sum(needs, |recs|))
            && start + Sum(needs, |recs|) <= |m|
    ensures InPlace(dev, m, start, recs, k)
  {
    hide InPlace;
    hide SlotsOn;
    hide RecordNeeds;
    hide Sum;
    hide RoundedSectors;
    hide SlotsForEntry;
    SumBounds(recs, k);
    assert InPlace(dev, m, start, recs, k);
  }

  lemma SumBounds(recs: seq<Record>, k: nat)
    requires k < |recs|
    ensures |RecordNeeds(recs)| == |recs|
    ensures var needs := RecordNeeds(recs);
            Sum(needs, k) < Sum(needs, k) + recs[k].Slots() <= Sum(needs, |recs|) <= RoundedSectors(Sum(needs, |recs|))
  {
    hide *;
    NeedOf(recs, k);
    SumStep(RecordNeeds(recs), k);
    SumGrows(RecordNeeds(recs), k + 1, |recs|);
  }

  lemma NeedOf(recs: seq<Record>, k: nat)
    requires k < |recs|
    ensures |RecordNeeds(recs)| == |recs| && RecordNeeds(recs)[k] == recs[k].Slots() >= 1
  {
    hide SlotsForEntry;
  }

  lemma SumStep(needs: seq<nat>, k: nat)
    requires k < |needs|
    ensures Sum(needs, k + 1) == Sum(needs, k) + needs[k]
  {}

  lemma RecordParts(dev: Device, m: seq<nat>, start: nat, recs: seq<Record>, k: nat)
    requires m != [] && SlotsOn(m, |dev|) && k < |recs| && InPlace(dev, m, start, recs, k)
    ensures recs[k].Fits() && Holds(dev, m, start + Sum(RecordNeeds(recs), k), Encode(recs[k]))
    ensures |Encode(recs[k])| / 512 == recs[k].Slots()
  {
    hide Holds;
    hide Sum;
    hide SlotsOn;
    hide SlotsForEntry;
  }

  lemma AnnouncedNeeds(recs: seq<Record>, metas: seq<EntryMeta>)
    requires Announces(metas, recs)
    ensures |metas| == |recs| && |RecordNeeds(recs)| == |recs|
    ensures forall i :: 0 <= i < |recs| ==> SlotsForEntry(metas[i].cmdLen) == RecordNeeds(recs)[i]
  {}

  // ---------------------------------------------------------------- what the rounding costs

  /** How far slot `t` lies behind slot `start`, going round. */
  function Behind(t: nat, start: nat, ringSlots: nat): nat
    requires ringSlots > 0 && t < ringSlots && start < ringSlots
  {
    if t >= start then t - start else t + ringSlots - start
  }

  lemma BehindIs(t: nat, start: nat, ringSlots: nat)
    requires ringSlots > 0 && t < ringSlots && start < ringSlots
    ensures Behind(t, start, ringSlots) < ringSlots && SlotAt(start, Behind(t, start, ringSlots), ringSlots) == t
    ensures forall q: nat :: q < ringSlots && SlotAt(start, q, ringSlots) == t ==> q == Behind(t, start, ringSlots)
  {
    var b := Behind(t, start, ringSlots);
    RemainderUnique(start + b, ringSlots, if t >= start then 0 else 1, t);
    forall q: nat | q < ringSlots && SlotAt(start, q, ringSlots) == t ensures q == b {
      if q < b {
        SlotAtInjective(start, q, b, ringSlots);
      } else if b < q {
        SlotAtInjective(start, b, q, ringSlots);
      }
    }
  }

  /** What a copy does to every slot of the follower: a slot less than the rounded length behind the start slot gets
      the leader's sector at that distance behind the address, every other slot is unchanged. */
  lemma CopyEffect(srcs: seq<Device>, fdev: Device, fdev': Device, es: seq<Extent>, ringSlots: nat, pba: nat,
                   start: nat, blocks: nat, chunks: seq<Chunk>, cuts: seq<nat>, run: seq<CopyState>, w: nat, t: nat)
    requires Replicated(srcs, fdev, fdev', es, ringSlots, pba, start, blocks, chunks, cuts, run, w)
    requires t < ringSlots && start < ringSlots
    ensures Mounted(fdev', es, ringSlots) && |fdev'| == |fdev| && SlotsOn(SlotMap(es, ringSlots), |fdev|)
    ensures var q := Behind(t, start, ringSlots);
            if q < RoundedSectors(blocks) then Arrived(srcs, pba, fdev', SlotMap(es, ringSlots), start, q)
            else SlotBytes(fdev', SlotMap(es, ringSlots), t) == SlotBytes(fdev, SlotMap(es, ringSlots), t)
  {
    hide *;
    ReplicatedParts(srcs, fdev, fdev', es, ringSlots, pba, start, blocks, chunks, cuts, run, w);
    MountedSlots(fdev, es, ringSlots);
    var m, q := SlotMap(es, ringSlots), Behind(t, start, ringSlots);
    BehindIs(t, start, ringSlots);
    CopiedSize(run, srcs, fdev, fdev', chunks, w, cuts, m, pba, start, RoundedSectors(blocks));
    if q < RoundedSectors(blocks) {
      CopiedSector(run, srcs, fdev, fdev', chunks, w, cuts, m, pba, start, RoundedSectors(blocks), q);
    } else {
      OtherSlotsUntouched(run, srcs, fdev, fdev', chunks, w, cuts, m, pba, start, RoundedSectors(blocks), t);
    }
    SameSizeMounted(fdev, fdev', es, ringSlots);
  }

  lemma CopiedSize(run: seq<CopyState>, srcs: seq<Device>, dst: Device, dst': Device, chunks: seq<Chunk>, w: nat,
                   cuts: seq<nat>, m: seq<nat>, pba: nat, start: nat, total: nat)
    requires Copied(run, srcs, dst, dst', chunks, w) && m != [] && SlotsOn(m, |dst|) && total <= |m|
    requires Tiles(chunks, cuts, m, pba, start, total)
    ensures |dst'| == |dst|
  {
    hide *;
    AllDisjoint(chunks, cuts, m, |dst|, pba, start, total);
    CopiedChunks(run, srcs, dst, dst', chunks, w);
  }

  /** The slots that are overwritten although they do not belong to the batch: those behind it up to the rounded
      length, going round at the ring end. There are some exactly if the batch does not fill whole pages. */
  lemma RoundingSpillsIff(blocks: nat, start: nat, ringSlots: nat)
    requires start < ringSlots && RoundedSectors(blocks) <= ringSlots
    ensures (exists t :: 0 <= t < ringSlots && blocks <= Behind(t, start, ringSlots) < RoundedSectors(blocks))
       <==> blocks % 8 != 0
  {
    if blocks % 8 != 0 {
      var t := if start + blocks < ringSlots then start + blocks else start + blocks - ringSlots;
      assert Behind(t, start, ringSlots) == blocks;
    }
  }

  /** They get the leader's sectors from behind the batch; at the ring end those lie behind the leader's ring. */
  lemma SpillOverwrites(srcs: seq<Device>, fdev: Device, fdev': Device, es: seq<Extent>, ringSlots: nat, base: nat,
                        start: nat, blocks: nat, chunks: seq<Chunk>, cuts: seq<nat>, run: seq<CopyState>, w: nat,
                        t: nat, i: nat)
    requires Replicated(srcs, fdev, fdev', es, ringSlots, base + SlotOffset(start), start, blocks, chunks, cuts, run, w)
    requires t < ringSlots && start < ringSlots && blocks <= Behind(t, start, ringSlots) < RoundedSectors(blocks)
    requires i < 512
    ensures |fdev'| == |fdev| && SlotsOn(SlotMap(es, ringSlots), |fdev'|) && SlotOk(SlotMap(es, ringSlots), t, |fdev'|)
    ensures var a := if t >= start then base + SlotOffset(t) else base + SlotOffset(ringSlots) + 512 * t;
            SeenAt(srcs, a + i, SlotBytes(fdev', SlotMap(es, ringSlots), t)[i])
  {
    CopyEffect(srcs, fdev, fdev', es, ringSlots, base + SlotOffset(start), start, blocks, chunks, cuts, run, w, t);
    BehindIs(t, start, ringSlots);
    hide Replicated;
    hide SlotAt;
    hide SeenAt;
    hide RoundedSectors;
    hide Layout;
    hide SlotsApart;
    var m, q := SlotMap(es, ringSlots), Behind(t, start, ringSlots);
    assert SlotOk(m, t, |fdev'|);
    assert Arrived(srcs, base + SlotOffset(start), fdev', m, start, q);
    assert SeenAt(srcs, base + SlotOffset(start) + 512 * q + i, SlotBytes(fdev', m, SlotAt(start, q, |m|))[i]);
  }
}
