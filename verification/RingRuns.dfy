/** The ring as it is used: batches of entries encoded, placed and written (core/src/raft_persist.cpp,
    core/src/raft_apply.cpp), records freed by the collector (core/src/raft_commit.cpp). */
module RingRuns {
  import opened Basics
  import opened Extents
  import opened EntryCodec
  import opened Ring

  function RecordNeeds(recs: seq<Record>): (r: seq<nat>)
    ensures |r| == |recs|
    ensures forall i :: 0 <= i < |r| ==> r[i] == recs[i].Slots() && r[i] >= 1
  {
    seq(|recs|, i requires 0 <= i < |recs| => recs[i].Slots())
  }

  /** No entry is larger than the ring. */
  ghost predicate FitRing(recs: seq<Record>, ringSlots: nat) {
    forall i :: 0 <= i < |recs| ==> recs[i].Slots() <= ringSlots
  }

  /** Device contents after the first `i` entries are written one by one where the allocator puts them. */
  ghost function DeviceAfter(dev: Device, m: seq<nat>, recs: seq<Record>, slot: nat, i: nat): (dev': Device)
    requires SlotsOn(m, |dev|) && FitRing(recs, |m|) && i <= |recs|
    ensures |dev'| == |dev|
  {
    if i == 0 then dev
    else WriteSlots(DeviceAfter(dev, m, recs, slot, i - 1), m,
                    PlaceOf(RecordNeeds(recs), slot, |m|, i - 1).start, Encode(recs[i - 1]))
  }

  /** One region of the run buffer. */
  method EncodeRegion(r: Record) returns (region: seq<Byte>)
    ensures region == Encode(r)
  {
    var buf := new Byte[r.Slots() * 512];
    EncodeInto(buf, 0, r);
    region := buf[..];
    assert buf[..0] == [] && buf[r.Slots() * 512..] == [];
  }

  /** Adding a region to the run buffer adds it to what the next flush writes. */
  lemma RunGrows(dev: Device, m: seq<nat>, runSlot: nat, run: seq<Byte>, k: nat, region: seq<Byte>, q: nat)
    requires SlotsOn(m, |dev|) && |run| == k * 512 && |region| == q * 512 && runSlot + k + q <= |m|
    ensures |run + region| == (k + q) * 512
    ensures WriteSlots(dev, m, runSlot, run + region) ==
            WriteSlots(WriteSlots(dev, m, runSlot, run), m, runSlot + k, region)
  {
    WriteConcat(dev, m, runSlot, run, region, k, q);
  }

  /** One round of the write loop: flush and wrap if the entry does not fit, then buffer its region. */
  method PersistOne(dev: Device, m: seq<nat>, run: seq<Byte>, runSlot: nat, ghost k: nat, tail: nat, r: Record)
    returns (dev': Device, run': seq<Byte>, runSlot': nat, ghost k': nat, place: SlotRecord)
    requires SlotsOn(m, |dev|) && tail <= |m| && r.Slots() <= |m|
    requires |run| == k * 512 && runSlot + k <= |m| && (run != [] ==> runSlot + k == tail)
    ensures place == SlotRecord(PlaceAt(tail, r.Slots(), |m|), r.Slots()) && place.End() <= |m|
    ensures |dev'| == |dev| && |run'| == k' * 512 && runSlot' + k' == place.End()
    ensures WriteSlots(dev', m, runSlot', run') == WriteSlots(WriteSlots(dev, m, runSlot, run), m, place.start,
                                                              Encode(r))
  {
    var needed := r.Slots();
    dev', run', runSlot', k' := dev, run, runSlot, k;
    var at := tail;
    if tail + needed > |m| {
      dev' := WriteSlots(dev', m, runSlot', run');
      run', k' := [], 0;
      at := 0;
    }
    if run' == [] {
      runSlot', k' := at, 0;
    }
    var region := EncodeRegion(r);
    RunGrows(dev', m, runSlot', run', k', region, needed);
    run', k' := run' + region, k' + needed;
    place := SlotRecord(at, needed);
  }

  lemma NothingWritten(dev: Device, m: seq<nat>, slot: nat)
    requires SlotsOn(m, |dev|) && slot <= |m|
    ensures WriteSlots(dev, m, slot, []) == dev
  {}

  /** The write loop of `persist_circular` on a single-extent ring. Entries are collected in a run
      buffer that is written out only when the pointer wraps and at the end. */
  method PersistEntries(dev: Device, m: seq<nat>, recs: seq<Record>, tailSlot: nat)
    returns (dev': Device, tail: nat, places: seq<SlotRecord>)
    requires SlotsOn(m, |dev|) && FitRing(recs, |m|) && tailSlot <= |m|
    ensures dev' == DeviceAfter(dev, m, recs, tailSlot, |recs|)
    ensures |places| == |recs|
    ensures forall i :: 0 <= i < |recs| ==> places[i] == PlaceOf(RecordNeeds(recs), tailSlot, |m|, i)
    ensures tail == Ptr(RecordNeeds(recs), tailSlot, |m|, |recs|) && tail <= |m|
  {
    hide WriteSlots;
    hide Encode;
    hide SlotsOn;
    NothingWritten(dev, m, tailSlot);
    dev', tail, places := dev, tailSlot, [];
    var run: seq<Byte> := [];
    var runSlot: nat := tailSlot;
    ghost var k: nat := 0;
    ghost var needs := RecordNeeds(recs);
    var i := 0;
    while i < |recs|
      invariant 0 <= i <= |recs|
      invariant |dev'| == |dev| && tail <= |m|
      invariant |run| == k * 512 && runSlot + k <= |m|
      invariant run != [] ==> runSlot + k == tail
      invariant WriteSlots(dev', m, runSlot, run) == DeviceAfter(dev, m, recs, tailSlot, i)
      invariant tail == Ptr(needs, tailSlot, |m|, i)
      invariant |places| == i && forall j :: 0 <= j < i ==> places[j] == PlaceOf(needs, tailSlot, |m|, j)
    {
      assert PlaceOf(needs, tailSlot, |m|, i).End() == Ptr(needs, tailSlot, |m|, i + 1);
      var place;
      dev', run, runSlot, k, place := PersistOne(dev', m, run, runSlot, k, tail, recs[i]);
      places := places + [place];
      tail := place.End();
      i := i + 1;
    }
    dev' := WriteSlots(dev', m, runSlot, run);
  }

  // ---------------------------------------------------------------- runs

  /** Leader ring: live records, pointers, device, and every entry ever appended. */
  datatype RingState = RingState(live: LogSlotMap, tail: nat, head: nat, dev: Device, history: seq<Record>)

  /** Fresh ring. History position i is log index i; position 0 is the sentinel. */
  ghost predicate Fresh(s: RingState, m: seq<nat>) {
    && s.live == map[] && s.tail == 0 && s.head == 0
    && |s.history| == 1
    && m != [] && SlotsOn(m, |s.dev|)
  }

  ghost predicate WellFormedBatch(s: RingState, recs: seq<Record>) {
    recs != [] && forall i :: 0 <= i < |recs| ==> recs[i].index == |s.history| + i && recs[i].Fits()
  }

  /** The batch is accepted and safe (Ring.AcceptedSoundIff). That its entries fit the ring follows. */
  ghost predicate SafelyAccepted(s: RingState, m: seq<nat>, recs: seq<Record>) {
    && CanWriteAll(s.live, s.tail, s.head, |m|, RecordNeeds(recs))
    && SafeBatch(s.live, s.tail, s.head, |m|, RecordNeeds(recs))
    && FitRing(recs, |m|)
  }

  /** One more entry appended. */
  ghost function NextState(a: RingState, m: seq<nat>, r: Record): RingState
    requires SlotsOn(m, |a.dev|) && r.Slots() <= |m|
  {
    var at := PlaceAt(a.tail, r.Slots(), |m|);
    RingState(a.live[|a.history| := SlotRecord(at, r.Slots())], at + r.Slots(), a.head,
              WriteSlots(a.dev, m, at, Encode(r)), a.history + [r])
  }

  /** The first `n` entries of a batch appended. */
  ghost function Appended(s: RingState, m: seq<nat>, recs: seq<Record>, n: nat): (s': RingState)
    requires SlotsOn(m, |s.dev|) && FitRing(recs, |m|) && n <= |recs|
    ensures |s'.dev| == |s.dev|
  {
    if n == 0 then s else NextState(Appended(s, m, recs, n - 1), m, recs[n - 1])
  }

  /** What a batch append comes to: slots recorded and pointer moved as the allocator says, and the
      device as the write loop leaves it (PersistEntries). */
  lemma {:induction false} AppendedIs(s: RingState, m: seq<nat>, recs: seq<Record>, n: nat)
    requires SlotsOn(m, |s.dev|) && FitRing(recs, |m|) && n <= |recs|
    ensures var s' := Appended(s, m, recs, n);
            var needs := RecordNeeds(recs);
            && s'.live == Recorded(s.live, |s.history|, needs, s.tail, |m|, n)
            && s'.tail == Ptr(needs, s.tail, |m|, n) && s'.head == s.head
            && s'.dev == DeviceAfter(s.dev, m, recs, s.tail, n)
            && |s'.history| == |s.history| + n
  {
    hide WriteSlots;
    hide Encode;
    if n > 0 {
      AppendedIs(s, m, recs, n - 1);
    }
  }

  lemma {:induction false} AppendedHistory(s: RingState, m: seq<nat>, recs: seq<Record>, n: nat)
    requires SlotsOn(m, |s.dev|) && FitRing(recs, |m|) && n <= |recs|
    ensures Appended(s, m, recs, n).history == s.history + recs[..n]
  {
    hide WriteSlots;
    hide Encode;
    hide SlotsOn;
    if n > 0 {
      AppendedHistory(s, m, recs, n - 1);
      assert recs[..n] == recs[..n - 1] + [recs[n - 1]];
    }
  }

  ghost predicate AppendStep(s: RingState, s': RingState, m: seq<nat>, recs: seq<Record>) {
    && SlotsOn(m, |s.dev|)
    && WellFormedBatch(s, recs)
    && SafelyAccepted(s, m, recs)
    && s' == Appended(s, m, recs, |recs|)
  }

  /** The collector drops every record up to an index and recomputes the head if it dropped any. */
  ghost predicate FreeStep(s: RingState, s': RingState, upTo: nat) {
    var live' := map i | i in s.live && i > upTo :: s.live[i];
    s' == s.(live := live', head := if live' == s.live then s.head else HeadOf(live', s.tail))
  }

  ghost predicate Next(s: RingState, s': RingState, m: seq<nat>) {
    || (exists recs :: AppendStep(s, s', m, recs))
    || (exists upTo :: FreeStep(s, s', upTo))
  }

  ghost predicate IsRun(run: seq<RingState>, m: seq<nat>) {
    && run != [] && Fresh(run[0], m)
    && forall i :: 0 < i < |run| ==> Next(run[i - 1], run[i], m)
  }

  /** Live records are sound, and each holds the encoding of its entry. */
  ghost predicate Inv(s: RingState, m: seq<nat>) {
    && m != [] && SlotsOn(m, |s.dev|)
    && RingOk(s.live, s.tail, s.head, |m|)
    && forall i {:trigger LiveOk(s, m, i)} :: i in s.live ==> LiveOk(s, m, i)
  }

  ghost predicate LiveOk(s: RingState, m: seq<nat>, i: nat)
    requires m != [] && SlotsOn(m, |s.dev|) && i in s.live
  {
    && i < |s.history|
    && s.live[i].numSlots == s.history[i].Slots()
    && s.history[i].Fits() && s.history[i].index == i
    && Holds(s.dev, m, s.live[i].start, Encode(s.history[i]))
  }

  /** Writing elsewhere keeps a stored block. */
  lemma HoldsKept(dev: Device, dev': Device, m: seq<nat>, rec: SlotRecord, data: seq<Byte>)
    requires SlotsOn(m, |dev|) && |dev'| == |dev| && m != []
    requires rec.numSlots == |data| / 512 && rec.End() <= |m|
    requires forall t :: rec.start <= t < rec.End() ==> SlotBytes(dev', m, t) == SlotBytes(dev, m, t)
    requires Holds(dev, m, rec.start, data)
    ensures Holds(dev', m, rec.start, data)
  {
    forall j | 0 <= j < |data| / 512 ensures SlotBytes(dev', m, (rec.start + j) % |m|) == Block(data, j) {
      ModSmall(rec.start + j, |m|);
      assert SlotBytes(dev, m, (rec.start + j) % |m|) == Block(data, j);
    }
  }

  /** Writing one more entry apart from a live record keeps that record readable. */
  lemma LiveKept(a: RingState, b: RingState, m: seq<nat>, place: SlotRecord, data: seq<Byte>, i: nat)
    requires m != [] && SlotsOn(m, |a.dev|) && i in a.live && LiveOk(a, m, i) && a.live[i].End() <= |m|
    requires |data| / 512 == place.numSlots && place.End() <= |m| && Apart(a.live[i], place)
    requires b.dev == WriteSlots(a.dev, m, place.start, data)
    requires i in b.live && b.live[i] == a.live[i] && |b.history| > i && b.history[i] == a.history[i]
    ensures LiveOk(b, m, i)
  {
    WriteBlock(a.dev, m, place.start, data);
    HoldsKept(a.dev, b.dev, m, a.live[i], Encode(a.history[i]));
  }

  /** One entry of a batch. */
  ghost predicate OneAppended(a: RingState, b: RingState, m: seq<nat>, r: Record, place: SlotRecord)
    requires SlotsOn(m, |a.dev|)
  {
    && place.numSlots == r.Slots() && place.End() <= |m|
    && b.live == a.live[|a.history| := place]
    && b.dev == WriteSlots(a.dev, m, place.start, Encode(r))
    && b.history == a.history + [r]
  }

  lemma OneKeepsInv(a: RingState, b: RingState, m: seq<nat>, r: Record, place: SlotRecord)
    requires Inv(a, m) && OneAppended(a, b, m, r, place)
    requires r.Fits() && r.index == |a.history|
    requires forall i :: i in a.live ==> Apart(a.live[i], place)
    requires RingOk(b.live, b.tail, b.head, |m|)
    ensures Inv(b, m)
  {
    forall i | i in b.live ensures LiveOk(b, m, i) {
      if i == |a.history| {
        WriteBlock(a.dev, m, place.start, Encode(r));
      } else {
        assert LiveOk(a, m, i) && RecordOk(a.live[i], a.tail, a.head, |m|) && Apart(a.live[i], place);
        LiveKept(a, b, m, place, Encode(r), i);
      }
    }
  }

  lemma IndexesBelow(s: RingState, m: seq<nat>)
    requires Inv(s, m)
    ensures forall i :: i in s.live ==> i < |s.history|
  {
    forall i | i in s.live ensures i < |s.history| {
      assert LiveOk(s, m, i);
    }
  }

  lemma {:induction false} AppendKeepsInv(s: RingState, m: seq<nat>, recs: seq<Record>, n: nat)
    requires Inv(s, m) && WellFormedBatch(s, recs) && FitRing(recs, |m|) && n <= |recs|
    requires Advance(RecordNeeds(recs), s.tail, |m|, |recs|) <= FreeArc(s.live, s.tail, s.head, |m|)
    ensures Inv(Appended(s, m, recs, n), m)
  {
    hide NextState;
    hide LiveOk;
    hide DeviceAfter;
    hide RingOk;
    hide Cost;
    hide FreeArc;
    hide Advance;
    hide SlotOk;
    hide SlotsApart;
    if n == 0 {
      assert Appended(s, m, recs, 0) == s;
    } else {
      AppendKeepsInv(s, m, recs, n - 1);
      RoomForRecord(s, m, recs, n - 1);
      AppendedIs(s, m, recs, n - 1);
      NextKeepsInv(Appended(s, m, recs, n - 1), m, recs[n - 1]);
    }
  }

  lemma RoomForRecord(s: RingState, m: seq<nat>, recs: seq<Record>, n: nat)
    requires Inv(s, m) && WellFormedBatch(s, recs) && FitRing(recs, |m|) && n < |recs|
    requires Advance(RecordNeeds(recs), s.tail, |m|, |recs|) <= FreeArc(s.live, s.tail, s.head, |m|)
    ensures var a := Appended(s, m, recs, n);
            Cost(a.tail, recs[n].Slots(), |m|) <= FreeArc(a.live, a.tail, a.head, |m|)
  {
    hide NextState;
    hide LiveOk;
    hide DeviceAfter;
    AppendedIs(s, m, recs, n);
    IndexesBelow(s, m);
    RoomForNext(s.live, s.tail, s.head, |m|, |s.history|, RecordNeeds(recs), n);
  }

  lemma NextKeepsInv(a: RingState, m: seq<nat>, r: Record)
    requires Inv(a, m) && r.Fits() && r.index == |a.history| && r.Slots() <= |m|
    requires Cost(a.tail, r.Slots(), |m|) <= FreeArc(a.live, a.tail, a.head, |m|)
    ensures Inv(NextState(a, m, r), m)
  {
    IndexesBelow(a, m);
    PlaceOneSound(a.live, a.tail, a.head, |m|, |a.history|, r.Slots());
    OneKeepsInv(a, NextState(a, m, r), m, r, SlotRecord(PlaceAt(a.tail, r.Slots(), |m|), r.Slots()));
  }

  lemma FreeKeepsInv(s: RingState, s': RingState, m: seq<nat>, upTo: nat)
    requires Inv(s, m) && FreeStep(s, s', upTo)
    ensures Inv(s', m)
  {
    if s'.live != s.live {
      FreeSound(s.live, s.tail, s.head, |m|, s'.live);
    }
    forall i | i in s'.live ensures LiveOk(s', m, i) {
      assert LiveOk(s, m, i);
    }
  }

  lemma {:induction false} RunKeepsInv(run: seq<RingState>, m: seq<nat>, k: nat)
    requires IsRun(run, m) && k < |run|
    ensures Inv(run[k], m)
  {
    if k > 0 {
      RunKeepsInv(run, m, k - 1);
      var s, s' := run[k - 1], run[k];
      assert Next(s, s', m);
      if recs :| AppendStep(s, s', m, recs) {
        AcceptedStaysInArcIff(s.live, s.tail, s.head, |m|, RecordNeeds(recs));
        AppendKeepsInv(s, m, recs, |recs|);
      } else {
        var upTo :| FreeStep(s, s', upTo);
        FreeKeepsInv(s, s', m, upTo);
      }
    }
  }

  /** In every run of safely accepted appends and collections, every live record is in bounds, apart
      from every other one, and reads back as exactly the entry that was appended at its index. */
  lemma LiveRecordsReadBack(run: seq<RingState>, m: seq<nat>, k: nat, i: nat)
    requires IsRun(run, m) && k < |run| && i in run[k].live
    ensures var s := run[k];
            && s.live[i].start < s.live[i].End() <= |m|
            && (forall j :: j in s.live && j != i ==> Apart(s.live[i], s.live[j]))
            && SlotsOn(m, |s.dev|) && i < |s.history|
            && ReadSpec(s.dev, m, s.live[i].start).term == s.history[i].term
            && ReadSpec(s.dev, m, s.live[i].start).command == s.history[i].command
  {
    RunKeepsInv(run, m, k);
    var s := run[k];
    assert Inv(s, m) && LiveOk(s, m, i);
    ReadStored(s.dev, m, s.live[i].start, s.history[i]);
  }
}
