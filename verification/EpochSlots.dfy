/** The bytes behind the epoch memory: where a notification lands and what it changes. */
module EpochSlots {
  import opened Wrappers
  import opened BarrierMemory

  /** Size of one slot and offsets of its three little-endian 64-bit fields. */
  const SLOT_SIZE: nat := 24
  const EXPECTED_OFFSET: nat := 0
  const OUT_OFFSET: nat := 8
  const IN_OFFSET: nat := 16

  function Pow256(k: nat): (r: nat)
    ensures r >= 1
  {
    if k == 0 then 1 else 256 * Pow256(k - 1)
  }

  /** The `k` low bytes of `v`, least significant first. */
  function Encode(v: nat, k: nat): (r: seq<byte>)
    ensures |r| == k
  {
    if k == 0 then [] else [v % 256] + Encode(v / 256, k - 1)
  }

  function Decode(bytes: seq<byte>): nat {
    if |bytes| == 0 then 0 else bytes[0] + 256 * Decode(bytes[1..])
  }

  /** Reading back an encoded value. */
  lemma {:induction false} DecodeEncode(v: nat, k: nat)
    requires v < Pow256(k)
    ensures Decode(Encode(v, k)) == v
  {
    if k > 0 {
      DecodeEncode(v / 256, k - 1);
      assert Encode(v, k)[1..] == Encode(v / 256, k - 1);
    }
  }

  /** The eight bytes of an epoch are its digits in base 256, least significant first. */
  lemma EncodeDigits(v: nat)
    ensures Encode(v, 8) ==
            [v % 0x100, v / 0x100 % 0x100, v / 0x1_0000 % 0x100, v / 0x100_0000 % 0x100,
             v / 0x1_0000_0000 % 0x100, v / 0x100_0000_0000 % 0x100,
             v / 0x1_0000_0000_0000 % 0x100, v / 0x100_0000_0000_0000 % 0x100]
  {
    var v1, v2, v3, v4 := v / 0x100, v / 0x1_0000, v / 0x100_0000, v / 0x1_0000_0000;
    var v5, v6, v7 := v / 0x100_0000_0000, v / 0x1_0000_0000_0000, v / 0x100_0000_0000_0000;
    assert v1 / 256 == v2 && v2 / 256 == v3 && v3 / 256 == v4 && v4 / 256 == v5 && v5 / 256 == v6 && v6 / 256 == v7;
    assert Encode(v6, 2) == [v6 % 256, v7 % 256];
    assert Encode(v5, 3) == [v5 % 256] + Encode(v6, 2) && Encode(v4, 4) == [v4 % 256] + Encode(v5, 3);
    assert Encode(v3, 5) == [v3 % 256] + Encode(v4, 4) && Encode(v2, 6) == [v2 % 256] + Encode(v3, 5);
    assert Encode(v1, 7) == [v1 % 256] + Encode(v2, 6) && Encode(v, 8) == [v % 256] + Encode(v1, 7);
  }

  /** Different bytes are different values. */
  lemma {:induction false} EncodeDecode(bytes: seq<byte>)
    ensures Decode(bytes) < Pow256(|bytes|) && Encode(Decode(bytes), |bytes|) == bytes
  {
    if |bytes| > 0 {
      EncodeDecode(bytes[1..]);
      assert Decode(bytes) % 256 == bytes[0] && Decode(bytes) / 256 == Decode(bytes[1..]);
      assert bytes == [bytes[0]] + bytes[1..];
    }
  }

  /** A handle to memory on a remote peer. */
  datatype RemoteMemoryRegion = RemoteMemoryRegion(addr: nat, length: nat, rkey: nat) {
    function SubRegionUnchecked(offset: nat): RemoteMemoryRegion
      requires offset <= length
    {
      RemoteMemoryRegion(addr + offset, length - offset, rkey)
    }
  }

  /** The `in_epoch` field of slot `rank` in a peer's barrier memory of `n` slots. */
  function InEpochField(mr: RemoteMemoryRegion, n: nat, rank: nat): (r: RemoteMemoryRegion)
    requires mr.length == n * SLOT_SIZE && rank < n
    ensures r.rkey == mr.rkey && mr.addr <= r.addr && r.addr + 8 <= mr.addr + mr.length
    ensures r.addr == mr.addr + 24 * rank + 16 && r.addr + r.length == mr.addr + mr.length
  {
    SlotInside(n, rank);
    mr.SubRegionUnchecked(rank * SLOT_SIZE + IN_OFFSET)
  }

  lemma SlotInside(n: nat, rank: nat)
    requires rank < n
    ensures rank * SLOT_SIZE + SLOT_SIZE <= n * SLOT_SIZE
  {
  }

  /** The value of the field at `offset` of slot `r`. */
  function Field(mem: seq<byte>, n: nat, r: nat, offset: nat): nat
    requires |mem| == n * SLOT_SIZE && r < n && offset + 8 <= SLOT_SIZE
  {
    SlotInside(n, r);
    Decode(mem[r * SLOT_SIZE + offset..r * SLOT_SIZE + offset + 8])
  }

  /** The slots the bytes stand for. */
  function Slots(mem: seq<byte>, n: nat): (slots: seq<BarrierPeerFlags>)
    requires |mem| == n * SLOT_SIZE
    ensures |slots| == n
  {
    seq(n, r requires 0 <= r < n => BarrierPeerFlags(
      Field(mem, n, r, EXPECTED_OFFSET), Field(mem, n, r, OUT_OFFSET), Field(mem, n, r, IN_OFFSET)))
  }

  /** The hardware writes `bytes` at a position of the region. */
  function WriteAt(mem: seq<byte>, at: nat, bytes: seq<byte>): (r: seq<byte>)
    requires at + |bytes| <= |mem|
    ensures |r| == |mem|
  {
    mem[..at] + bytes + mem[at + |bytes|..]
  }

  lemma WriteElsewhere(mem: seq<byte>, at: nat, bytes: seq<byte>, lo: nat, hi: nat)
    requires at + |bytes| <= |mem| && lo <= hi <= |mem|
    requires hi <= at || at + |bytes| <= lo
    ensures WriteAt(mem, at, bytes)[lo..hi] == mem[lo..hi]
  {
  }

  lemma WriteHere(mem: seq<byte>, at: nat, bytes: seq<byte>)
    requires at + |bytes| <= |mem|
    ensures WriteAt(mem, at, bytes)[at..at + |bytes|] == bytes
  {
  }

  /** Every other field of every slot keeps its value. */
  lemma OtherFieldKept(mem: seq<byte>, n: nat, rank: nat, bytes: seq<byte>, r: nat, offset: nat)
    requires |mem| == n * SLOT_SIZE && rank < n && r < n && |bytes| == 8
    requires offset in {EXPECTED_OFFSET, OUT_OFFSET, IN_OFFSET} && (r != rank || offset != IN_OFFSET)
    ensures rank * SLOT_SIZE + IN_OFFSET + 8 <= |mem|
    ensures Field(WriteAt(mem, rank * SLOT_SIZE + IN_OFFSET, bytes), n, r, offset) == Field(mem, n, r, offset)
  {
    SlotInside(n, rank);
    SlotInside(n, r);
    var lo := r * SLOT_SIZE + offset;
    WriteElsewhere(mem, rank * SLOT_SIZE + IN_OFFSET, bytes, lo, lo + 8);
  }

  lemma SlotAfter(mem: seq<byte>, n: nat, rank: nat, epoch: nat, r: nat)
    requires |mem| == n * SLOT_SIZE && rank < n && r < n && epoch < Pow256(8)
    ensures rank * SLOT_SIZE + IN_OFFSET + 8 <= |mem|
    ensures Slots(WriteAt(mem, rank * SLOT_SIZE + IN_OFFSET, Encode(epoch, 8)), n)[r] ==
            if r == rank then Slots(mem, n)[r].(incoming := epoch) else Slots(mem, n)[r]
  {
    var bytes := Encode(epoch, 8);
    OtherFieldKept(mem, n, rank, bytes, r, EXPECTED_OFFSET);
    OtherFieldKept(mem, n, rank, bytes, r, OUT_OFFSET);
    if r == rank {
      WriteHere(mem, rank * SLOT_SIZE + IN_OFFSET, bytes);
      DecodeEncode(epoch, 8);
    } else {
      OtherFieldKept(mem, n, rank, bytes, r, IN_OFFSET);
    }
  }

  /** A notification refines the update of one epoch: the bytes rank `rank` writes land inside
      the peer's region, set exactly its own incoming slot to its epoch, and change nothing
      else in the memory. */
  lemma NotifySetsOneSlot(mr: RemoteMemoryRegion, mem: seq<byte>, n: nat, rank: nat, epoch: nat)
    requires mr.length == n * SLOT_SIZE == |mem| && rank < n && epoch < Pow256(8)
    ensures var at := InEpochField(mr, n, rank).addr - mr.addr;
            && at + 8 <= |mem|
            && Slots(WriteAt(mem, at, Encode(epoch, 8)), n) == Slots(mem, n)[rank := Slots(mem, n)[rank].(incoming := epoch)]
  {
    SlotAfter(mem, n, rank, epoch, rank);
    var after := Slots(WriteAt(mem, rank * SLOT_SIZE + IN_OFFSET, Encode(epoch, 8)), n);
    forall r | 0 <= r < n
      ensures after[r] == if r == rank then Slots(mem, n)[r].(incoming := epoch) else Slots(mem, n)[r]
    {
      SlotAfter(mem, n, rank, epoch, r);
    }
  }

  /** In numbers: of the peer's memory exactly the bytes from 24 `rank` + 16 to 24 `rank` + 24
      are written, with the digits of the epoch. */
  lemma NotifyWritesBytes(mr: RemoteMemoryRegion, mem: seq<byte>, n: nat, rank: nat, epoch: nat)
    requires mr.length == n * SLOT_SIZE == |mem| && rank < n
    ensures InEpochField(mr, n, rank).addr == mr.addr + 24 * rank + 16 && 24 * rank + 24 <= |mem|
    ensures
      WriteAt(mem, InEpochField(mr, n, rank).addr - mr.addr, Encode(epoch, 8)) ==
      mem[..24 * rank + 16] +
      [epoch % 0x100, epoch / 0x100 % 0x100, epoch / 0x1_0000 % 0x100, epoch / 0x100_0000 % 0x100,
       epoch / 0x1_0000_0000 % 0x100, epoch / 0x100_0000_0000 % 0x100,
       epoch / 0x1_0000_0000_0000 % 0x100, epoch / 0x100_0000_0000_0000 % 0x100] +
      mem[24 * rank + 24..]
  {
    SlotInside(n, rank);
    EncodeDigits(epoch);
  }

  /** The slots are triples of 64-bit fields: the expected, the out and the incoming epoch. */
  lemma SlotLayout(mem: seq<byte>, n: nat, r: nat)
    requires |mem| == n * SLOT_SIZE && r < n
    ensures |mem| == 24 * n && 24 * r + 24 <= |mem|
    ensures Slots(mem, n)[r] == BarrierPeerFlags(
              Decode(mem[24 * r..24 * r + 8]), Decode(mem[24 * r + 8..24 * r + 16]), Decode(mem[24 * r + 16..24 * r + 24]))
  {
    SlotInside(n, r);
  }

  /** Writes of different ranks never overlap, so they commute. */
  lemma NotificationsCommute(mem: seq<byte>, n: nat, a: nat, b: nat, x: nat, y: nat)
    requires |mem| == n * SLOT_SIZE && a < n && b < n && a != b
    ensures a * SLOT_SIZE + IN_OFFSET + 8 <= |mem| && b * SLOT_SIZE + IN_OFFSET + 8 <= |mem|
    ensures WriteAt(WriteAt(mem, a * SLOT_SIZE + IN_OFFSET, Encode(x, 8)), b * SLOT_SIZE + IN_OFFSET, Encode(y, 8))
         == WriteAt(WriteAt(mem, b * SLOT_SIZE + IN_OFFSET, Encode(y, 8)), a * SLOT_SIZE + IN_OFFSET, Encode(x, 8))
  {
    SlotInside(n, a);
    SlotInside(n, b);
  }
}
