/** What a copy that goes round at the ring end does to an entry it reaches: the exact conditions. */
module Spill {
  import opened Basics
  import opened Extents
  import opened EntryCodec
  import opened Ring
  import opened Types
  import opened Batch
  import opened Progress
  import opened Follower
  import opened Replication
  import opened EndToEnd
  import opened DataPath
  import opened Mirror
  import RingRuns
  import BlockCopy

  predicate IsSector(dev: Device, a: nat, bytes: seq<Byte>) {
    a + 512 <= |dev| && bytes == dev[a..a + 512]
  }

  lemma SeenOnce(dev: Device, a: nat, bytes: seq<Byte>)
    requires |bytes| == 512
    ensures SectorSeen([dev], a, bytes) <==> IsSector(dev, a, bytes)
  {
    if SectorSeen([dev], a, bytes) {
      forall i | 0 <= i < 512 ensures a + i < |dev| && bytes[i] == dev[a + i] {
        assert BlockCopy.SeenAt([dev], a + i, bytes[i]);
      }
      assert BlockCopy.SeenAt([dev], a + 511, bytes[511]);
    }
    if IsSector(dev, a, bytes) {
      forall i | 0 <= i < 512 ensures BlockCopy.SeenAt([dev], a + i, bytes[i]) {
        assert [dev][0][a + i] == bytes[i];
      }
    }
  }

  /** A slot that a copy spills to gets a sector from behind the leader's ring. */
  lemma SpilledSlot(dev: Device, base: nat, fd: Device, fd': Device, mf: seq<nat>, req: AERequest, t: nat)
    requires CopyLands([dev], fd, fd', mf, req, true) && req.pbaSrc == base + SlotOffset(req.startSlot)
    requires t < SpillEnd(req, |mf|)
    ensures t < |mf| && SlotsOn(mf, |fd'|) && IsSector(dev, base + SlotOffset(|mf|) + 512 * t, SlotBytes(fd', mf, t))
  {
    hide RoundedSectors;
    hide SectorSeen;
    assert SlotLands([dev], fd, fd', mf, req, true, t);
    assert req.pbaSrc + 512 * Behind(t, req.startSlot, |mf|) == base + SlotOffset(|mf|) + 512 * t;
    SeenOnce(dev, base + SlotOffset(|mf|) + 512 * t, SlotBytes(fd', mf, t));
  }

  /** The sectors behind the leader's ring that a copy puts on top of a record are the record's own. */
  ghost predicate SpillsSame(dev: Device, base: nat, ringSlots: nat, req: AERequest, start: nat, data: seq<Byte>) {
    forall j :: 0 <= j < |data| / 512 && start + j < SpillEnd(req, ringSlots) ==>
      IsSector(dev, base + SlotOffset(ringSlots) + 512 * (start + j), Block(data, j))
  }

  lemma RecordKeptIff(dev: Device, m: seq<nat>, base: nat, fd: Device, fd': Device, mf: seq<nat>, req: AERequest,
                      start: nat, data: seq<Byte>)
    requires m != [] && |m| == |mf| && Linear(m, base) && req.pbaSrc == base + SlotOffset(req.startSlot)
    requires CopyLands([dev], fd, fd', mf, req, true) && start + |data| / 512 <= |m| && AllHold([dev], m, start, data)
    requires Holds(fd, mf, start, data) ||
             (req.startSlot <= start && start + |data| / 512 <= req.startSlot + RoundedSectors(req.blockLength))
    ensures SlotsOn(mf, |fd'|) && (Holds(fd', mf, start, data) <==> SpillsSame(dev, base, |mf|, req, start, data))
  {
    hide CopyLands;
    hide Linear;
    hide RoundedSectors;
    hide AllHold;
    LandsSize([dev], fd, fd', mf, req, true);
    forall j | 0 <= j < |data| / 512
      ensures SlotBytes(fd', mf, (start + j) % |mf|) == Block(data, j) <==>
              (start + j < SpillEnd(req, |mf|) ==>
                 IsSector(dev, base + SlotOffset(|mf|) + 512 * (start + j), Block(data, j)))
    {
      ModSmall(start + j, |m|);
      if start + j < SpillEnd(req, |mf|) {
        SpilledSlot(dev, base, fd, fd', mf, req, start + j);
      } else {
        SlotKept([dev], m, base, fd, fd', mf, req, true, start, data, j);
      }
    }
  }

  /** A ring, a request, and an uncollected entry that the follower has or that comes with the batch. */
  ghost predicate Case(n: Node, full: seq<Entry>, dev: Device, m: seq<nat>, base: nat, fd: Device, mf: seq<nat>,
                       w: Worker, tail: nat, i: nat) {
    && RingRuns.Inv(RingOf(n, full, dev), m) && |m| == |mf| && Linear(m, base)
    && RequestSlots(n, full, w, base) && w.req.startSlot < |mf| && RoundedSectors(w.req.blockLength) <= |mf|
    && Held(n.logSlotMap, full, tail, fd, mf, i) && w.next <= tail
    && i in n.logSlotMap && i < Max(tail, w.next + w.req.numEntries)
  }

  lemma CaseParts(n: Node, full: seq<Entry>, dev: Device, m: seq<nat>, base: nat, fd: Device, mf: seq<nat>, w: Worker,
                  tail: nat, i: nat)
    requires Case(n, full, dev, m, base, fd, mf, w, tail, i)
    ensures m != [] && |m| == |mf| && i < |full| && w.req.pbaSrc == base + SlotOffset(w.req.startSlot)
    ensures n.logSlotMap[i].numSlots == SlotsForEntry(|full[i].command|) && n.logSlotMap[i].End() <= |mf|
    ensures AllHold([dev], m, n.logSlotMap[i].start, DataOf(full, i))
    ensures var start, data := n.logSlotMap[i].start, DataOf(full, i);
            && start + |data| / 512 <= |mf| && 512 <= |data| && SlotsOn(mf, |fd|)
            && (Holds(fd, mf, start, data) ||
                (w.req.startSlot <= start &&
                 start + |data| / 512 <= w.req.startSlot + RoundedSectors(w.req.blockLength)))
  {
    hide RingRuns.Inv;
    hide Linear;
    hide Holds;
    hide SlotsOn;
    hide RoundedSectors;
    hide SlotsForEntry;
    LeaderHeld(n, full, dev, m, i);
    RequestAddress(n, full, w, base);
    hide RequestSlots;
    EntryPlace(n, full, m, base, fd, mf, w, tail, i);
    assert |DataOf(full, i)| == Record(full[i].term, full[i].command, i).Slots() * 512;
    hide Encode;
  }

  /** What one copy does: it leaves the entry on the device if and only if what it brings from behind the leader's ring
      is what was there. */
  lemma SpillKeepsEntryIff(n: Node, full: seq<Entry>, dev: Device, m: seq<nat>, base: nat, fd: Device, fd': Device,
                           mf: seq<nat>, w: Worker, tail: nat, i: nat)
    requires Case(n, full, dev, m, base, fd, mf, w, tail, i) && CopyLands([dev], fd, fd', mf, w.req, true)
    ensures i < |full|
    ensures Held(n.logSlotMap, full, Max(tail, w.next + w.req.numEntries), fd', mf, i) <==>
            SpillsSame(dev, base, |mf|, w.req, n.logSlotMap[i].start, DataOf(full, i))
  {
    CaseParts(n, full, dev, m, base, fd, mf, w, tail, i);
    hide RingRuns.Inv;
    hide Holds;
    hide SlotsOn;
    hide AllHold;
    hide CopyLands;
    hide Linear;
    hide RequestSlots;
    hide SpillsSame;
    hide Encode;
    LandsSize([dev], fd, fd', mf, w.req, true);
    RecordKeptIff(dev, m, base, fd, fd', mf, w.req, n.logSlotMap[i].start, DataOf(full, i));
  }

  // ---------------------------------------------------------------- the test is exact

  /** The leader's device with other bytes behind the ring. */
  function WithBehind(dev: Device, base: nat, ringSlots: nat, b: Byte): (dev': Device)
    requires base + SlotOffset(ringSlots) <= |dev|
    ensures |dev'| == base + SlotOffset(ringSlots) + 512 * ringSlots
    ensures forall a :: 0 <= a < base + SlotOffset(ringSlots) ==> dev'[a] == dev[a]
    ensures forall a :: base + SlotOffset(ringSlots) <= a < |dev'| ==> dev'[a] == b
  {
    dev[..base + SlotOffset(ringSlots)] + seq(512 * ringSlots, _ => b)
  }

  lemma SameSlots(dev: Device, m: seq<nat>, base: nat, b: Byte)
    requires m != [] && SlotsOn(m, |dev|) && Linear(m, base)
    ensures base + SlotOffset(|m|) <= |dev|
    ensures var dev' := WithBehind(dev, base, |m|, b);
            SlotsOn(m, |dev'|) && forall t :: 0 <= t < |m| ==> SlotBytes(dev', m, t) == SlotBytes(dev, m, t)
  {
    assert SlotOk(m, |m| - 1, |dev|);
    var dev' := WithBehind(dev, base, |m|, b);
    forall t | 0 <= t < |m| ensures SlotOk(m, t, |dev'|) && SlotBytes(dev', m, t) == SlotBytes(dev, m, t) {
      assert SlotOk(m, t, |dev|);
    }
    forall s, t | 0 <= s < |m| && 0 <= t < |m| && s != t ensures SlotsApart(m, s, t) {}
  }

  lemma SameRingInv(n: Node, full: seq<Entry>, dev: Device, m: seq<nat>, base: nat, b: Byte)
    requires RingRuns.Inv(RingOf(n, full, dev), m) && Linear(m, base) && m != []
    ensures base + SlotOffset(|m|) <= |dev| && RingRuns.Inv(RingOf(n, full, WithBehind(dev, base, |m|, b)), m)
  {
    hide SlotsOn;
    hide RingOk;
    hide Encode;
    SameSlots(dev, m, base, b);
    var dev' := WithBehind(dev, base, |m|, b);
    var r, r' := RingOf(n, full, dev), RingOf(n, full, dev');
    forall i | i in r'.live ensures RingRuns.LiveOk(r', m, i) {
      assert RingRuns.LiveOk(r, m, i);
      SameHolds(dev, dev', m, r.live[i].start, Encode(r.history[i]));
    }
  }

  lemma SameHolds(dev: Device, dev': Device, m: seq<nat>, start: nat, data: seq<Byte>)
    requires m != [] && SlotsOn(m, |dev|) && SlotsOn(m, |dev'|) && Holds(dev, m, start, data)
    requires forall t :: 0 <= t < |m| ==> SlotBytes(dev', m, t) == SlotBytes(dev, m, t)
    ensures Holds(dev', m, start, data)
  {
    forall j | 0 <= j < |data| / 512 ensures SlotBytes(dev', m, (start + j) % |m|) == Block(data, j) {
      assert SlotBytes(dev, m, (start + j) % |m|) == Block(data, j);
    }
  }

  /** The copy that goes round: the stretch up to the ring end, and the rest from slot 0 on. */
  lemma GoesRound(dev: Device, fd: Device, mf: seq<nat>, req: AERequest) returns (fd': Device)
    requires mf != [] && SlotsOn(mf, |fd|) && req.startSlot < |mf| && RoundedSectors(req.blockLength) <= |mf|
    requires SpillEnd(req, |mf|) > 0 && req.pbaSrc + 512 * RoundedSectors(req.blockLength) <= |dev|
    ensures CopyLands([dev], fd, fd', mf, req, true)
  {
    hide RoundedSectors;
    hide SectorSeen;
    hide SlotsOn;
    hide Holds;
    hide WriteSlots;
    hide SlotLands;
    var total, k1 := RoundedSectors(req.blockLength), |mf| - req.startSlot;
    var one := dev[req.pbaSrc..req.pbaSrc + 512 * k1];
    var two := dev[req.pbaSrc + 512 * k1..req.pbaSrc + 512 * total];
    assert |one| / 512 == k1 && |two| / 512 == total - k1;
    var fd1 := WriteSlots(fd, mf, req.startSlot, one);
    WriteBlock(fd, mf, req.startSlot, one);
    fd' := WriteSlots(fd1, mf, 0, two);
    WriteBlock(fd1, mf, 0, two);
    forall t | 0 <= t < |mf| ensures SlotLands([dev], fd, fd', mf, req, true, t) {
      if t >= req.startSlot {
        LandsBefore(dev, fd, fd1, fd', mf, req, t);
      } else if t < total - k1 {
        LandsAfter(dev, fd, fd', mf, req, t);
      } else {
        LandsNot(dev, fd, fd', mf, req, t);
      }
    }
  }

  lemma LandsBefore(dev: Device, fd: Device, fd1: Device, fd': Device, mf: seq<nat>, req: AERequest, t: nat)
    requires mf != [] && SlotsOn(mf, |fd|) && |fd'| == |fd| == |fd1| && req.startSlot <= t < |mf|
    requires |mf| - req.startSlot <= RoundedSectors(req.blockLength)
    requires req.pbaSrc + 512 * (|mf| - req.startSlot) <= |dev| && SlotBytes(fd', mf, t) == SlotBytes(fd1, mf, t)
    requires Holds(fd1, mf, req.startSlot, dev[req.pbaSrc..req.pbaSrc + 512 * (|mf| - req.startSlot)])
    ensures SlotLands([dev], fd, fd', mf, req, true, t)
  {
    hide RoundedSectors;
    hide SectorSeen;
    var one, q := dev[req.pbaSrc..req.pbaSrc + 512 * (|mf| - req.startSlot)], t - req.startSlot;
    ModSmall(t, |mf|);
    assert SlotBytes(fd1, mf, (req.startSlot + q) % |mf|) == Block(one, q);
    SeenOnce(dev, req.pbaSrc + 512 * q, SlotBytes(fd', mf, t));
  }

  lemma LandsAfter(dev: Device, fd: Device, fd': Device, mf: seq<nat>, req: AERequest, t: nat)
    requires mf != [] && SlotsOn(mf, |fd|) && |fd'| == |fd| && req.startSlot < |mf| && t < req.startSlot
    requires var total, k1 := RoundedSectors(req.blockLength), |mf| - req.startSlot;
             && t + k1 < total <= |mf| && req.pbaSrc + 512 * total <= |dev|
             && Holds(fd', mf, 0, dev[req.pbaSrc + 512 * k1..req.pbaSrc + 512 * total])
    ensures SlotLands([dev], fd, fd', mf, req, true, t)
  {
    hide RoundedSectors;
    hide SectorSeen;
    var total, k1 := RoundedSectors(req.blockLength), |mf| - req.startSlot;
    var two, q := dev[req.pbaSrc + 512 * k1..req.pbaSrc + 512 * total], t + k1;
    ModSmall(t, |mf|);
    assert SlotBytes(fd', mf, (0 + t) % |mf|) == Block(two, t);
    SliceOfSlice(dev, req.pbaSrc + 512 * k1, req.pbaSrc + 512 * total, t * 512, t * 512 + 512);
    assert Behind(t, req.startSlot, |mf|) == q;
    SeenOnce(dev, req.pbaSrc + 512 * q, SlotBytes(fd', mf, t));
  }

  lemma SliceOfSlice(dev: Device, a: nat, b: nat, c: nat, d: nat)
    requires a <= b <= |dev| && c <= d <= b - a
    ensures dev[a..b][c..d] == dev[a + c..a + d]
  {
    var x, y := dev[a..b][c..d], dev[a + c..a + d];
    forall i | 0 <= i < d - c ensures x[i] == y[i] {
      assert x[i] == dev[a..b][c + i] == dev[a + c + i];
    }
  }

  lemma LandsNot(dev: Device, fd: Device, fd': Device, mf: seq<nat>, req: AERequest, t: nat)
    requires mf != [] && SlotsOn(mf, |fd|) && |fd'| == |fd| && req.startSlot < |mf| && t < req.startSlot
    requires RoundedSectors(req.blockLength) <= t + |mf| - req.startSlot
    requires SlotBytes(fd', mf, t) == SlotBytes(fd, mf, t)
    ensures SlotLands([dev], fd, fd', mf, req, true, t)
  {
    hide RoundedSectors;
    hide SectorSeen;
  }

  /** The entry is on the follower's device after every copy of the request, whatever lies behind the leader's ring. */
  ghost predicate AlwaysKept(n: Node, full: seq<Entry>, m: seq<nat>, fd: Device, mf: seq<nat>, w: Worker, tail: nat,
                             i: nat) {
    forall dev, fd' :: RingRuns.Inv(RingOf(n, full, dev), m) && CopyLands([dev], fd, fd', mf, w.req, true) ==>
      Held(n.logSlotMap, full, Max(tail, w.next + w.req.numEntries), fd', mf, i)
  }

  /** A copy that destroys an entry it reaches. */
  lemma SpillDestroys(n: Node, full: seq<Entry>, dev: Device, m: seq<nat>, base: nat, fd: Device, mf: seq<nat>,
                      w: Worker, tail: nat, i: nat)
    returns (dev': Device, fd': Device)
    requires Case(n, full, dev, m, base, fd, mf, w, tail, i) && n.logSlotMap[i].start < SpillEnd(w.req, |mf|)
    ensures RingRuns.Inv(RingOf(n, full, dev'), m) && CopyLands([dev'], fd, fd', mf, w.req, true)
    ensures !Held(n.logSlotMap, full, Max(tail, w.next + w.req.numEntries), fd', mf, i)
  {
    CaseParts(n, full, dev, m, base, fd, mf, w, tail, i);
    hide RingRuns.Inv;
    hide SlotsOn;
    hide AllHold;
    hide CopyLands;
    hide Linear;
    hide RequestSlots;
    hide Encode;
    hide Holds;
    hide RoundedSectors;
    var start, data := n.logSlotMap[i].start, DataOf(full, i);
    var b: Byte := if data[0] == 0 then 1 else 0;
    SameRingInv(n, full, dev, m, base, b);
    dev' := WithBehind(dev, base, |m|, b);
    fd' := GoesRound(dev', fd, mf, w.req);
    SpilledSlot(dev', base, fd, fd', mf, w.req, start);
    NotHeld(fd', mf, start, data, b);
  }

  lemma NotHeld(fd: Device, mf: seq<nat>, start: nat, data: seq<Byte>, b: Byte)
    requires mf != [] && SlotsOn(mf, |fd|) && start < |mf| && |data| >= 512 && data[0] != b
    requires SlotBytes(fd, mf, start)[0] == b
    ensures !Holds(fd, mf, start, data)
  {
    ModSmall(start, |mf|);
    assert Block(data, 0)[0] == data[0];
    assert SlotBytes(fd, mf, (start + 0) % |mf|) != Block(data, 0);
  }

  /** The test of slots is exact: an entry survives a copy of the request, whatever lies behind the leader's ring, if
      and only if the copy does not reach its first slot by going round. */
  lemma SpillTestIsExact(n: Node, full: seq<Entry>, dev: Device, m: seq<nat>, base: nat, fd: Device, mf: seq<nat>,
                         w: Worker, tail: nat, i: nat)
    requires Case(n, full, dev, m, base, fd, mf, w, tail, i)
    ensures AlwaysKept(n, full, m, fd, mf, w, tail, i) <==> SpillEnd(w.req, |mf|) <= n.logSlotMap[i].start
  {
    hide RingRuns.Inv;
    hide CopyLands;
    hide Linear;
    hide RequestSlots;
    hide Held;
    if SpillEnd(w.req, |mf|) <= n.logSlotMap[i].start {
      forall dev', fd' | RingRuns.Inv(RingOf(n, full, dev'), m) && CopyLands([dev'], fd, fd', mf, w.req, true)
        ensures Held(n.logSlotMap, full, Max(tail, w.next + w.req.numEntries), fd', mf, i)
      {
        assert Case(n, full, dev', m, base, fd, mf, w, tail, i);
        CaseParts(n, full, dev', m, base, fd, mf, w, tail, i);
        CopyHolds(n, full, [dev'], m, base, fd, fd', mf, w, true, tail, Max(tail, w.next + w.req.numEntries), i);
      }
    } else {
      var dev', fd' := SpillDestroys(n, full, dev, m, base, fd, mf, w, tail, i);
      assert RingRuns.Inv(RingOf(n, full, dev'), m) && CopyLands([dev'], fd, fd', mf, w.req, true);
    }
  }
}
