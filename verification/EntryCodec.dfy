/** Entries on the ring device: the encoder of `persist_circular` (core/src/raft_persist.cpp) and the
    decoder `read_entry_direct` (core/src/raft_pba.cpp). A ring is given by its slot map `m`: slot s is
    the sector at device address m[s]. Extents.SlotMap supplies it for any sector-aligned layout. */
module EntryCodec {
  import opened Basics
  import opened Extents

  type Device = seq<Byte>

  /** One log entry as it is written to the ring. */
  datatype Record = Record(term: nat, command: seq<Byte>, index: nat) {
    function Slots(): nat { SlotsForEntry(|command|) }

    /** All header fields fit the 64-bit fields of the on-disk format. */
    predicate Fits() { term < U64_LIMIT && |command| + 1024 < U64_LIMIT && index < U64_LIMIT }
  }

  datatype ReadResult = ReadResult(term: nat, command: seq<Byte>, nextSlot: nat)

  // ---------------------------------------------------------------- slots

  /** The 512 bytes of a slot. */
  function SlotBytes(dev: Device, m: seq<nat>, slot: nat): (s: seq<Byte>)
    requires slot < |m| && SlotOk(m, slot, |dev|)
    ensures |s| == 512
  {
    dev[m[slot]..m[slot] + 512]
  }

  /** Slot `k` of an encoded block of slots. */
  function Block(data: seq<Byte>, k: nat): (s: seq<Byte>)
    requires (k + 1) * 512 <= |data|
    ensures |s| == 512
  {
    data[k * 512..k * 512 + 512]
  }

  /** Consecutive ring slots from `slot` on (modulo the ring) hold `data`. */
  ghost predicate Holds(dev: Device, m: seq<nat>, slot: nat, data: seq<Byte>)
    requires SlotsOn(m, |dev|) && m != []
  {
    forall j :: 0 <= j < |data| / 512 ==> SlotBytes(dev, m, (slot + j) % |m|) == Block(data, j)
  }

  lemma ModSmall(x: nat, m: nat)
    requires x < m
    ensures x % m == x
  {}

  // ---------------------------------------------------------------- encoder

  function Zeros(n: nat): (s: seq<Byte>)
    ensures |s| == n && forall i :: 0 <= i < n ==> s[i] == 0
  {
    seq(n, i => 0)
  }

  function Header(r: Record): (s: seq<Byte>)
    ensures |s| == 32
  {
    LeBytes(r.term, U64_BYTES) + LeBytes(|r.command|, U64_BYTES)
    + LeBytes(r.Slots(), U64_BYTES) + LeBytes(r.index, U64_BYTES)
  }

  /** Header, command, zero padding up to the slot boundary. */
  function Encode(r: Record): (s: seq<Byte>)
    ensures |s| == r.Slots() * 512 && |s| / 512 == r.Slots()
  {
    Header(r) + r.command + Zeros(r.Slots() * 512 - 32 - |r.command|)
  }

  /** Fills the region of the run buffer that belongs to one entry. Every byte of the region is
      written, so nothing left over from an earlier use of the buffer reaches the device. */
  method EncodeInto(buf: array<Byte>, off: nat, r: Record)
    requires off + r.Slots() * 512 <= buf.Length
    modifies buf
    ensures buf[..] == old(buf[..off]) + Encode(r) + old(buf[off + r.Slots() * 512..])
  {
    var size := r.Slots() * 512;
    EncodeHeader(buf, off, r);
    assert buf[off + size..] == buf[off + 32..][size - 32..];
    CopyCommand(buf, off, r);
    assert buf[off + size..] == buf[off + 32 + |r.command|..][size - 32 - |r.command|..];
    ZeroPad(buf, off, r);
    assert buf[..] == buf[..off] + buf[off..off + size] + buf[off + size..];
  }

  /** Copies the command behind the header. */
  method CopyCommand(buf: array<Byte>, off: nat, r: Record)
    requires off + 32 + |r.command| <= buf.Length
    requires buf[off..off + 32] == Header(r)
    modifies buf
    ensures buf[..off] == old(buf[..off]) && buf[off + 32 + |r.command|..] == old(buf[off + 32 + |r.command|..])
    ensures buf[off..off + 32 + |r.command|] == Header(r) + r.command
  {
    ghost var h := Header(r);
    hide Header;
    var i := 0;
    while i < |r.command|
      invariant 0 <= i <= |r.command|
      invariant buf[..off] == old(buf[..off]) && buf[off + 32 + |r.command|..] == old(buf[off + 32 + |r.command|..])
      invariant buf[off..off + 32 + i] == h + r.command[..i]
    {
      buf[off + 32 + i] := r.command[i];
      assert buf[off..off + 32 + i + 1] == buf[off..off + 32 + i] + [r.command[i]];
      i := i + 1;
    }
    assert r.command[..|r.command|] == r.command;
  }

  /** Zeroes the region behind the command, up to the slot boundary. */
  method ZeroPad(buf: array<Byte>, off: nat, r: Record)
    requires off + r.Slots() * 512 <= buf.Length
    requires buf[off..off + 32 + |r.command|] == Header(r) + r.command
    modifies buf
    ensures buf[..off] == old(buf[..off]) && buf[off + r.Slots() * 512..] == old(buf[off + r.Slots() * 512..])
    ensures buf[off..off + r.Slots() * 512] == Encode(r)
  {
    var size := r.Slots() * 512;
    ghost var n := 32 + |r.command|;
    var j := 32 + |r.command|;
    while j < size
      invariant n <= j <= size
      invariant buf[..off] == old(buf[..off]) && buf[off + size..] == old(buf[off + size..])
      invariant buf[off..off + j] == old(buf[off..off + n]) + Zeros(j - n)
    {
      buf[off + j] := 0;
      assert buf[off..off + j + 1] == buf[off..off + j] + [0];
      j := j + 1;
    }
  }

  method EncodeHeader(buf: array<Byte>, off: nat, r: Record)
    requires off + 32 <= buf.Length
    modifies buf
    ensures buf[..off] == old(buf[..off]) && buf[off + 32..] == old(buf[off + 32..])
    ensures buf[off..off + 32] == Header(r)
  {
    hide LeBytes;
    PutField(buf, off, OFF_TERM, r.term, []);
    PutField(buf, off, OFF_CMD_LEN, |r.command|, LeBytes(r.term, U64_BYTES));
    PutField(buf, off, OFF_NUM_SLOTS, r.Slots(), LeBytes(r.term, U64_BYTES) + LeBytes(|r.command|, U64_BYTES));
    PutField(buf, off, OFF_LOG_INDEX, r.index,
             LeBytes(r.term, U64_BYTES) + LeBytes(|r.command|, U64_BYTES) + LeBytes(r.Slots(), U64_BYTES));
  }

  /** One more header field behind those already there. */
  method PutField(buf: array<Byte>, off: nat, at: nat, v: nat, ghost before: seq<Byte>)
    requires off + at + 8 <= buf.Length && buf[off..off + at] == before
    modifies buf
    ensures buf[off..off + at + 8] == before + LeBytes(v, U64_BYTES)
    ensures forall k :: 0 <= k < buf.Length && !(off + at <= k < off + at + 8) ==> buf[k] == old(buf[k])
  {
    hide LeBytes;
    ghost var p, q := buf[..off + at], buf[off + at + 8..];
    PutU64Le(buf, off + at, v);
    forall k | 0 <= k < buf.Length && !(off + at <= k < off + at + 8) ensures buf[k] == old(buf[k]) {
      if k < off + at {
        assert buf[k] == buf[..off + at][k] == p[k];
      } else {
        assert buf[k] == buf[off + at + 8..][k - (off + at + 8)] == q[k - (off + at + 8)];
      }
    }
    assert buf[off..off + at] == before;
    assert buf[off..off + at + 8] == buf[off..off + at] + buf[off + at..off + at + 8];
  }

  // ---------------------------------------------------------------- file writes

  /** Overwrites the device from address `a` on. */
  function Patch(dev: Device, a: nat, data: seq<Byte>): (dev': Device)
    requires a + |data| <= |dev|
    ensures |dev'| == |dev|
  {
    dev[..a] + data + dev[a + |data|..]
  }

  /** The first `k` sectors of a `pwrite` at the file offset of `slot`: each lands where the map puts it. */
  function WriteSectors(dev: Device, m: seq<nat>, slot: nat, data: seq<Byte>, k: nat): (dev': Device)
    requires SlotsOn(m, |dev|) && slot + k <= |m| && k * 512 <= |data|
    ensures |dev'| == |dev|
  {
    if k == 0 then dev
    else
      assert SlotOk(m, slot + k - 1, |dev|);
      Patch(WriteSectors(dev, m, slot, data, k - 1), m[slot + k - 1], Block(data, k - 1))
  }

  /** `pwrite` of whole slots. */
  function WriteSlots(dev: Device, m: seq<nat>, slot: nat, data: seq<Byte>): (dev': Device)
    requires SlotsOn(m, |dev|) && slot + |data| / 512 <= |m|
    ensures |dev'| == |dev|
  {
    WriteSectors(dev, m, slot, data, |data| / 512)
  }

  /** One write of two adjacent runs is two writes: buffering entries does not change the file. */
  lemma {:induction false} WriteConcat(dev: Device, m: seq<nat>, slot: nat, a: seq<Byte>, b: seq<Byte>, ka: nat, k: nat)
    requires SlotsOn(m, |dev|) && |a| == ka * 512 && k * 512 <= |b| && slot + ka + k <= |m|
    ensures WriteSectors(dev, m, slot, a + b, ka + k) ==
            WriteSectors(WriteSectors(dev, m, slot, a, ka), m, slot + ka, b, k)
  {
    if k == 0 {
      WritePrefix(dev, m, slot, a, b, ka);
    } else {
      WriteConcat(dev, m, slot, a, b, ka, k - 1);
      BlockOfConcat(a, b, ka, k - 1);
    }
  }

  lemma BlockOfConcat(a: seq<Byte>, b: seq<Byte>, ka: nat, k: nat)
    requires |a| == ka * 512 && (k + 1) * 512 <= |b|
    ensures Block(a + b, ka + k) == Block(b, k)
  {}

  lemma {:induction false} WritePrefix(dev: Device, m: seq<nat>, slot: nat, a: seq<Byte>, b: seq<Byte>, k: nat)
    requires SlotsOn(m, |dev|) && k * 512 <= |a| && slot + k <= |m|
    ensures WriteSectors(dev, m, slot, a + b, k) == WriteSectors(dev, m, slot, a, k)
  {
    if k > 0 {
      WritePrefix(dev, m, slot, a, b, k - 1);
      assert Block(a + b, k - 1) == Block(a, k - 1);
    }
  }

  /** Writing whole slots sets exactly those slots. */
  lemma {:induction false} WriteSectorsAt(dev: Device, m: seq<nat>, slot: nat, data: seq<Byte>, k: nat, t: nat)
    requires SlotsOn(m, |dev|) && slot + k <= |m| && k * 512 <= |data| && t < |m|
    ensures SlotBytes(WriteSectors(dev, m, slot, data, k), m, t) ==
            if slot <= t < slot + k then Block(data, t - slot) else SlotBytes(dev, m, t)
  {
    hide SlotBytes;
    hide Patch;
    hide Block;
    hide SlotsApart;
    if k > 0 {
      WriteSectorsAt(dev, m, slot, data, k - 1, t);
      PatchSlot(WriteSectors(dev, m, slot, data, k - 1), m, slot + k - 1, Block(data, k - 1), t);
    }
  }

  lemma PatchSlot(dev: Device, m: seq<nat>, slot: nat, sector: seq<Byte>, t: nat)
    requires SlotsOn(m, |dev|) && slot < |m| && t < |m| && |sector| == 512
    ensures SlotOk(m, slot, |dev|)
    ensures SlotBytes(Patch(dev, m[slot], sector), m, t) == if t == slot then sector else SlotBytes(dev, m, t)
  {
    assert SlotOk(m, slot, |dev|) && SlotOk(m, t, |dev|);
    assert t != slot ==> SlotsApart(m, slot, t);
  }

  /** A block written in bounds is stored there, and every slot outside it is untouched. */
  lemma WriteBlock(dev: Device, m: seq<nat>, slot: nat, data: seq<Byte>)
    requires SlotsOn(m, |dev|) && slot + |data| / 512 <= |m| && m != []
    ensures var dev' := WriteSlots(dev, m, slot, data);
            && Holds(dev', m, slot, data)
            && forall t :: 0 <= t < |m| && !(slot <= t < slot + |data| / 512) ==>
                 SlotBytes(dev', m, t) == SlotBytes(dev, m, t)
  {
    var dev' := WriteSlots(dev, m, slot, data);
    forall j | 0 <= j < |data| / 512 ensures SlotBytes(dev', m, (slot + j) % |m|) == Block(data, j) {
      ModSmall(slot + j, |m|);
      WriteSectorsAt(dev, m, slot, data, |data| / 512, slot + j);
    }
    forall t | 0 <= t < |m| && !(slot <= t < slot + |data| / 512)
      ensures SlotBytes(dev', m, t) == SlotBytes(dev, m, t)
    {
      WriteSectorsAt(dev, m, slot, data, |data| / 512, t);
    }
  }

  // ---------------------------------------------------------------- decoder

  /** Byte `i` of the command that starts behind the header in `slot`: 480 bytes in the first slot,
      512 in each further one, zero beyond the slots the header announces. */
  ghost function CommandByte(dev: Device, m: seq<nat>, slot: nat, numSlots: nat, i: nat): Byte
    requires SlotsOn(m, |dev|) && slot < |m|
  {
    if i < 480 then SlotBytes(dev, m, slot)[32 + i]
    else
      var j := 1 + (i - 480) / 512;
      if j < numSlots then SlotBytes(dev, m, (slot + j) % |m|)[(i - 480) % 512] else 0
  }

  /** What reading the entry at `slot` yields, for any device contents. */
  ghost function ReadSpec(dev: Device, m: seq<nat>, slot: nat): ReadResult
    requires SlotsOn(m, |dev|) && slot < |m|
  {
    var h := SlotBytes(dev, m, slot);
    var numSlots := LeValue(h[16..24]);
    ReadResult(LeValue(h[0..8]),
               seq(LeValue(h[8..16]), i requires 0 <= i => CommandByte(dev, m, slot, numSlots, i)),
               (slot + numSlots) % |m|)
  }

  /** A ring file of `ringSlots` slots laid out on a device of whole pages. */
  ghost predicate Mounted(dev: Device, es: seq<Extent>, ringSlots: nat) {
    ringSlots > 0 && Layout(es, SlotOffset(ringSlots)) && OnDevice(es, |dev|) && |dev| % 4096 == 0
  }

  /** The page that contains a sector of a page-sized device lies inside the device. */
  lemma PageAround(pba: nat, size: nat)
    requires pba % 512 == 0 && pba + 512 <= size && size % 4096 == 0
    ensures pba % 4096 + 512 <= 4096
    ensures pba - pba % 4096 + 4096 <= size
  {
    var q := pba / 512;
    assert pba == 512 * q && pba % 4096 == 512 * (q % 8);
  }

  /** `O_DIRECT` read of the page around a sector, then the sector cut out of it. */
  method ReadSector(dev: Device, es: seq<Extent>, ringSlots: nat, slot: nat) returns (s: seq<Byte>)
    requires Mounted(dev, es, ringSlots) && slot < ringSlots
    ensures SlotsOn(SlotMap(es, ringSlots), |dev|)
    ensures s == SlotBytes(dev, SlotMap(es, ringSlots), slot)
  {
    GapFreeIsSorted(es);
    SlotMapOn(es, ringSlots, |dev|);
    ghost var m := SlotMap(es, ringSlots);
    assert SlotOk(m, slot, |dev|);
    assert Scan(es, SlotOffset(slot)).Some? && m[slot] == Phys(es, SlotOffset(slot));
    var seg := Lookup(es, SlotOffset(slot), 512);
    var pba := seg.value.pba;
    PageAround(pba, |dev|);
    var aligned := pba - pba % 4096;
    var offInPage := pba - aligned;
    var buf := dev[aligned..aligned + 4096];
    s := buf[offInPage..offInPage + 512];
    assert s == dev[pba..pba + 512];
  }

  method ReadEntryDirect(dev: Device, es: seq<Extent>, ringSlots: nat, slot: nat) returns (r: ReadResult)
    requires Mounted(dev, es, ringSlots) && slot < ringSlots
    ensures SlotsOn(SlotMap(es, ringSlots), |dev|)
    ensures r == ReadSpec(dev, SlotMap(es, ringSlots), slot)
  {
    ghost var m := SlotMap(es, ringSlots);
    var h := ReadSector(dev, es, ringSlots, slot);
    var term := GetU64Le(h[OFF_TERM..]);
    var cmdLen := GetU64Le(h[OFF_CMD_LEN..]);
    var numSlots := GetU64Le(h[OFF_NUM_SLOTS..]);
    assert h[0..][..8] == h[0..8] && h[8..][..8] == h[8..16] && h[16..][..8] == h[16..24];
    var cmd := Zeros(cmdLen);
    if cmdLen > 0 {
      cmd := ReadCommand(dev, es, ringSlots, slot, h, cmdLen, numSlots);
    }
    r := ReadResult(term, cmd, (slot + numSlots) % ringSlots);
  }

  /** The command bytes, collected slot by slot behind the header sector `h`. */
  method ReadCommand(dev: Device, es: seq<Extent>, ringSlots: nat, slot: nat, h: seq<Byte>, cmdLen: nat, numSlots: nat)
    returns (cmd: seq<Byte>)
    requires Mounted(dev, es, ringSlots) && slot < ringSlots
    requires SlotsOn(SlotMap(es, ringSlots), |dev|) && h == SlotBytes(dev, SlotMap(es, ringSlots), slot)
    ensures |cmd| == cmdLen
    ensures forall k :: 0 <= k < cmdLen ==> cmd[k] == CommandByte(dev, SlotMap(es, ringSlots), slot, numSlots, k)
  {
    hide Layout;
    hide SlotsOn;
    hide Filled;
    ghost var m := SlotMap(es, ringSlots);
    var copied := if cmdLen < 480 then cmdLen else 480;
    cmd := h[32..32 + copied] + Zeros(cmdLen - copied);
    FirstSlot(dev, m, slot, numSlots, cmd, copied);
    var i := 1;
    while i < numSlots && copied < cmdLen
      invariant 1 <= i && |cmd| == cmdLen
      invariant copied == Min(cmdLen, 480 + (i - 1) * 512)
      invariant Filled(dev, m, slot, numSlots, cmd, copied)
      invariant forall k :: copied <= k < cmdLen ==> cmd[k] == 0
    {
      var s := ReadSector(dev, es, ringSlots, (slot + i) % ringSlots);
      var n := 512;
      if copied + n > cmdLen {
        n := cmdLen - copied;
      }
      ghost var was := cmd;
      cmd := cmd[..copied] + s[..n] + cmd[copied + n..];
      NextSlot(dev, m, slot, numSlots, was, cmd, i, n);
      copied := copied + n;
      i := i + 1;
    }
    LastSlot(dev, m, slot, numSlots, cmd, copied, i);
  }

  /** The first `copied` bytes of the command have been collected. */
  ghost predicate Filled(dev: Device, m: seq<nat>, slot: nat, numSlots: nat, cmd: seq<Byte>, copied: nat)
    requires SlotsOn(m, |dev|) && slot < |m| && copied <= |cmd|
  {
    forall k :: 0 <= k < copied ==> cmd[k] == CommandByte(dev, m, slot, numSlots, k)
  }

  lemma FirstSlot(dev: Device, m: seq<nat>, slot: nat, numSlots: nat, cmd: seq<Byte>, copied: nat)
    requires SlotsOn(m, |dev|) && slot < |m| && copied <= |cmd| && copied <= 480
    requires cmd[..copied] == SlotBytes(dev, m, slot)[32..32 + copied]
    ensures Filled(dev, m, slot, numSlots, cmd, copied)
  {
    hide SlotsOn;
    hide SlotBytes;
    forall k | 0 <= k < copied ensures cmd[k] == CommandByte(dev, m, slot, numSlots, k) {
      assert cmd[k] == cmd[..copied][k];
    }
  }

  lemma NextSlot(dev: Device, m: seq<nat>, slot: nat, numSlots: nat, cmd: seq<Byte>, cmd': seq<Byte>, i: nat, n: nat)
    requires SlotsOn(m, |dev|) && slot < |m| && 1 <= i < numSlots && n <= 512
    requires 480 + (i - 1) * 512 + n <= |cmd| && Filled(dev, m, slot, numSlots, cmd, 480 + (i - 1) * 512)
    requires cmd' == cmd[..480 + (i - 1) * 512] + SlotBytes(dev, m, (slot + i) % |m|)[..n]
                     + cmd[480 + (i - 1) * 512 + n..]
    ensures Filled(dev, m, slot, numSlots, cmd', 480 + (i - 1) * 512 + n)
  {
    hide SlotsOn;
    hide SlotBytes;
    var c := 480 + (i - 1) * 512;
    forall k | 0 <= k < c + n ensures cmd'[k] == CommandByte(dev, m, slot, numSlots, k) {
      if k < c {
        assert cmd[k] == CommandByte(dev, m, slot, numSlots, k);
      } else {
        InSlot(k, i);
      }
    }
  }

  lemma LastSlot(dev: Device, m: seq<nat>, slot: nat, numSlots: nat, cmd: seq<Byte>, copied: nat, i: nat)
    requires SlotsOn(m, |dev|) && slot < |m| && 1 <= i && copied == Min(|cmd|, 480 + (i - 1) * 512)
    requires i >= numSlots || copied >= |cmd|
    requires Filled(dev, m, slot, numSlots, cmd, copied) && forall k :: copied <= k < |cmd| ==> cmd[k] == 0
    ensures forall k :: 0 <= k < |cmd| ==> cmd[k] == CommandByte(dev, m, slot, numSlots, k)
  {
    hide SlotsOn;
    hide SlotBytes;
    forall k | copied <= k < |cmd| ensures cmd[k] == CommandByte(dev, m, slot, numSlots, k) {
      assert 1 + (k - 480) / 512 >= i;
    }
  }

  /** Command byte `k` lies in slot `i` behind the header slot. */
  lemma InSlot(k: nat, i: nat)
    requires 1 <= i && 480 + (i - 1) * 512 <= k < 480 + i * 512
    ensures 1 + (k - 480) / 512 == i && (k - 480) % 512 == k - (480 + (i - 1) * 512)
  {}

  // ---------------------------------------------------------------- round trip

  lemma HeaderFields(r: Record)
    requires r.Fits()
    ensures LeValue(Encode(r)[0..8]) == r.term
    ensures LeValue(Encode(r)[8..16]) == |r.command|
    ensures LeValue(Encode(r)[16..24]) == r.Slots()
  {
    hide LeBytes;
    hide LeValue;
    var e := Encode(r);
    assert e[0..8] == LeBytes(r.term, U64_BYTES);
    assert e[8..16] == LeBytes(|r.command|, U64_BYTES);
    assert e[16..24] == LeBytes(r.Slots(), U64_BYTES);
    U64RoundTrip(r.term);
    U64RoundTrip(|r.command|);
    U64RoundTrip(r.Slots());
  }

  lemma U64RoundTrip(v: nat)
    requires v < U64_LIMIT
    ensures LeValue(LeBytes(v, U64_BYTES)) == v
  {
    hide LeBytes;
    hide LeValue;
    hide Pow256;
    Pow256Of8();
    LeRoundTrip(v, 8);
  }

  lemma StoredCommandByte(dev: Device, m: seq<nat>, slot: nat, r: Record, i: nat)
    requires SlotsOn(m, |dev|) && slot < |m| && i < |r.command|
    requires Holds(dev, m, slot, Encode(r))
    ensures CommandByte(dev, m, slot, r.Slots(), i) == r.command[i]
  {
    var e := Encode(r);
    assert e[32 + i] == r.command[i];
    var j := if i < 480 then 0 else 1 + (i - 480) / 512;
    assert j < r.Slots();
    assert SlotBytes(dev, m, (slot + j) % |m|) == Block(e, j);
    if i < 480 {
      ModSmall(slot, |m|);
    } else {
      assert j * 512 + (i - 480) % 512 == 32 + i;
    }
  }

  /** Reading a stored entry returns its term and command, and the slot right behind it. */
  lemma ReadStored(dev: Device, m: seq<nat>, slot: nat, r: Record)
    requires SlotsOn(m, |dev|) && slot < |m| && r.Fits()
    requires Holds(dev, m, slot, Encode(r))
    ensures ReadSpec(dev, m, slot) == ReadResult(r.term, r.command, (slot + r.Slots()) % |m|)
  {
    var e := Encode(r);
    var h := SlotBytes(dev, m, slot);
    assert h == Block(e, 0) by {
      ModSmall(slot, |m|);
      assert SlotBytes(dev, m, (slot + 0) % |m|) == Block(e, 0);
    }
    HeaderFields(r);
    assert h[0..8] == e[0..8] && h[8..16] == e[8..16] && h[16..24] == e[16..24];
    forall i | 0 <= i < |r.command| ensures CommandByte(dev, m, slot, r.Slots(), i) == r.command[i] {
      StoredCommandByte(dev, m, slot, r, i);
    }
  }

  /** Encode, write through any layout, read back page by page: the same term and command, with the
      next slot right behind the entry modulo the ring. */
  lemma WriteReadRoundTrip(dev: Device, es: seq<Extent>, ringSlots: nat, slot: nat, r: Record)
    requires Mounted(dev, es, ringSlots) && slot + r.Slots() <= ringSlots && r.Fits()
    ensures SlotsOn(SlotMap(es, ringSlots), |dev|)
    ensures ReadSpec(WriteSlots(dev, SlotMap(es, ringSlots), slot, Encode(r)), SlotMap(es, ringSlots), slot) ==
            ReadResult(r.term, r.command, (slot + r.Slots()) % ringSlots)
  {
    SlotMapOn(es, ringSlots, |dev|);
    var m := SlotMap(es, ringSlots);
    WriteBlock(dev, m, slot, Encode(r));
    ReadStored(WriteSlots(dev, m, slot, Encode(r)), m, slot, r);
  }
}
