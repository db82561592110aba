/** Device geometry, on-disk offsets, alignment and little-endian integers
    (core/include/raft_basics.h, core/include/raft_constants.h). */
module Basics {

  type Byte = b: int | 0 <= b < 256

  // Geometry, written as literals in the arithmetic below: sectors (and ring slots) are 512 bytes,
  // pages 4096, the file header is one sector, and an entry starts with 32 bytes of metadata.
  const MAX_PBA_COPY_CHUNK_BYTES: nat := 0x1000_0000

  const OFF_TERM: nat := 0
  const OFF_CMD_LEN: nat := 8
  const OFF_NUM_SLOTS: nat := 16
  const OFF_LOG_INDEX: nat := 24

  /** Bytes of a 64-bit field. */
  const U64_BYTES: nat := 8

  const U64_LIMIT: nat := 0x1_0000_0000_0000_0000

  datatype Option<+T> = None | Some(value: T)

  datatype Result<+T> = Ok(value: T) | Err(error: string)

  function Min(a: nat, b: nat): nat { if a <= b then a else b }

  function Max(a: nat, b: nat): nat { if a <= b then b else a }

  /** `align_up` for the one alignment it is ever called with in the replication path. */
  function AlignUpPage(n: nat): (r: nat)
    ensures n <= r < n + 4096
    ensures r % 4096 == 0
  {
    (n + 4096 - 1) / 4096 * 4096
  }

  /** Sectors that are copied for `blocks` sectors of log, after rounding up to whole pages. */
  function RoundedSectors(blocks: nat): (r: nat)
    ensures blocks <= r < blocks + 8
  {
    (blocks + 7) / 8 * 8
  }

  /** The same in bytes. */
  lemma RoundedIsAligned(blocks: nat)
    ensures 512 * RoundedSectors(blocks) == AlignUpPage(512 * blocks)
  {
    var q := (blocks + 7) / 8;
    assert 8 * q <= blocks + 7 < 8 * q + 8;
    QuotientUnique(512 * blocks + 4095, 4096, q);
  }

  /** Bytes a ring slot starts at, counted from the beginning of the ring file. */
  function SlotOffset(slot: nat): nat { 512 + slot * 512 }

  /** Ring slots an entry with a command of `cmdLen` bytes occupies. */
  function SlotsForEntry(cmdLen: nat): (r: nat)
    ensures r >= 1
    ensures (r - 1) * 512 < 32 + cmdLen <= r * 512
  {
    (32 + cmdLen + 512 - 1) / 512
  }

  // ---------------------------------------------------------------- little-endian integers

  /** Value of a little-endian byte string. */
  function LeValue(s: seq<Byte>): nat
  {
    if s == [] then 0 else s[0] + 256 * LeValue(s[1..])
  }

  /** The `width` low bytes of `v`, least significant first. */
  function LeBytes(v: nat, width: nat): (s: seq<Byte>)
    ensures |s| == width
  {
    if width == 0 then [] else [v % 256] + LeBytes(v / 256, width - 1)
  }

  function Pow256(n: nat): (r: nat)
    ensures r > 0
  {
    if n == 0 then 1 else 256 * Pow256(n - 1)
  }

  /** Decoding what was encoded keeps every value that fits the width. */
  lemma {:induction false} LeRoundTrip(v: nat, width: nat)
    requires v < Pow256(width)
    ensures LeValue(LeBytes(v, width)) == v
  {
    if width > 0 {
      LeRoundTrip(v / 256, width - 1);
      assert LeBytes(v, width)[1..] == LeBytes(v / 256, width - 1);
    }
  }

  /** Encoding what was decoded keeps every byte string. */
  lemma {:induction false} LeRoundTripBytes(s: seq<Byte>)
    ensures LeValue(s) < Pow256(|s|)
    ensures LeBytes(LeValue(s), |s|) == s
  {
    if s != [] {
      LeRoundTripBytes(s[1..]);
    }
  }

  lemma Pow256Of8()
    ensures Pow256(8) == U64_LIMIT
  {
    assert Pow256(4) == 256 * 256 * 256 * 256;
    assert Pow256(6) == 256 * 256 * Pow256(4);
  }

  lemma {:induction false} LeValueSnoc(s: seq<Byte>, b: Byte)
    ensures LeValue(s + [b]) == LeValue(s) + b * Pow256(|s|)
  {
    if s == [] {
      assert s + [b] == [b];
    } else {
      assert (s + [b])[1..] == s[1..] + [b];
      LeValueSnoc(s[1..], b);
    }
  }

  lemma {:induction false} LeBytesSnoc(v: nat, width: nat)
    ensures LeBytes(v, width + 1) == LeBytes(v, width) + [v / Pow256(width) % 256]
  {
    if width > 0 {
      LeBytesSnoc(v / 256, width - 1);
      DivDiv(v, Pow256(width - 1));
    }
  }

  lemma DivDiv(v: nat, p: nat)
    requires p > 0
    ensures v / 256 / p == v / (256 * p)
  {
    var q := v / 256 / p;
    assert 256 * p * q <= v < 256 * p * (q + 1) by {
      assert p * q <= v / 256 < p * (q + 1);
    }
    QuotientUnique(v, 256 * p, q);
  }

  lemma QuotientUnique(v: nat, d: nat, q: nat)
    requires d > 0 && d * q <= v < d * (q + 1)
    ensures v / d == q
  {
    var k := v / d;
    assert d * k <= v < d * (k + 1);
    assert k < q ==> d * (k + 1) <= d * q;
    assert q < k ==> d * (q + 1) <= d * k;
  }

  /** Writes `v` into eight bytes of a buffer, least significant byte first. */
  method PutU64Le(p: array<Byte>, off: nat, v: nat)
    requires off + 8 <= p.Length
    modifies p
    ensures p[off..off + 8] == LeBytes(v, U64_BYTES)
    ensures p[..off] == old(p[..off]) && p[off + 8..] == old(p[off + 8..])
  {
    var i := 0;
    while i < 8
      invariant 0 <= i <= 8
      invariant p[..off] == old(p[..off])
      invariant p[off..off + i] == LeBytes(v, i)
      invariant p[off + 8..] == old(p[off + 8..])
    {
      LeBytesSnoc(v, i);
      p[off + i] := v / Pow256(i) % 256;
      assert p[off..off + i + 1] == p[off..off + i] + [p[off + i]];
      i := i + 1;
    }
  }

  /** Reads eight little-endian bytes. */
  method GetU64Le(p: seq<Byte>) returns (v: nat)
    requires |p| >= 8
    ensures v == LeValue(p[..8])
  {
    v := 0;
    var i := 0;
    while i < 8
      invariant 0 <= i <= 8
      invariant v == LeValue(p[..i])
    {
      LeValueSnoc(p[..i], p[i]);
      assert p[..i + 1] == p[..i] + [p[i]];
      v := v + p[i] * Pow256(i);
      i := i + 1;
    }
  }
}
