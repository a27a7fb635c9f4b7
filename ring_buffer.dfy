/**
 * The `buffer_t` ring: PacketCount slots of PacketSize bytes, two cursors that only
 * ever grow and are reduced modulo PacketCount to pick a slot, and the two flags the
 * USB callbacks and the worker use to hand transfers over to each other.
 */
module RingBuffers {
  import opened DapConfig

  /**
   * `buffer_full`: the read cursor is compared UNREDUCED with the reduced next write cursor.
   * When it reports full, the read cursor is on its first lap and the next write slot is
   * the read slot.
   */
  predicate IsFull(wptr: nat, rptr: nat)
    ensures IsFull(wptr, rptr) ==> rptr < PacketCount && SameSlot(wptr + 1, rptr)
  {
    (wptr + 1) % PacketCount == rptr
  }

  /** `buffer_empty`: the two cursors are equal, so they name the same slot. */
  predicate IsEmpty(wptr: nat, rptr: nat)
    ensures IsEmpty(wptr, rptr) ==> SameSlot(wptr, rptr)
  {
    wptr == rptr
  }

  /** Reference definition: the two cursors name the same slot. */
  predicate SameSlot(a: nat, b: nat)
  {
    a % PacketCount == b % PacketCount
  }

  /**
   * `buffer_full` agrees with the slot-level test "the next write slot is the read slot"
   * only while the read cursor is still on its first lap; from then on it never holds.
   */
  lemma FullOnlyOnFirstLap(wptr: nat, rptr: nat)
    ensures rptr < PacketCount ==> (IsFull(wptr, rptr) <==> SameSlot(wptr + 1, rptr))
    ensures rptr >= PacketCount ==> !IsFull(wptr, rptr)
  {
  }

  /**
   * On the first lap, with the cursors at most one lap apart, `buffer_full` holds exactly
   * when PacketCount - 1 slots are occupied: one slot is kept free.
   */
  lemma FullLeavesOneSlotFree(wptr: nat, rptr: nat)
    requires rptr < PacketCount && rptr <= wptr < rptr + PacketCount
    ensures IsFull(wptr, rptr) <==> wptr - rptr == PacketCount - 1
  {
    if IsFull(wptr, rptr) {
      var q := (wptr + 1) / PacketCount;
      assert wptr + 1 == q * PacketCount + rptr;
      assert q == 1;
    }
  }

  /**
   * After the first lap the same occupancy is not detected as full: the next OUT transfer
   * is armed on the slot the worker has not read yet.
   */
  lemma OverrunAfterFirstLap(wptr: nat, rptr: nat)
    requires rptr >= PacketCount && wptr - rptr == PacketCount - 1
    ensures !IsFull(wptr, rptr)
    ensures SameSlot(wptr + 1, rptr)
  {
  }

  /** While the cursors are less than one lap apart, `buffer_empty` is the slot-level test. */
  lemma EmptyIsSameSlot(wptr: nat, rptr: nat)
    requires rptr <= wptr < rptr + PacketCount
    ensures IsEmpty(wptr, rptr) <==> SameSlot(wptr, rptr)
  {
    if SameSlot(wptr, rptr) {
      var d := wptr - rptr;
      assert (rptr + d) % PacketCount == rptr % PacketCount;
      assert d % PacketCount == 0;
    }
  }

  /** One ring: its slot storage (fixed at construction), cursors and hand-over flags. */
  class RingBuffer {
    const data: array2<byte>
    var wptr: nat
    var rptr: nat
    var wasFull: bool
    var wasEmpty: bool

    /** The zero-initialised static buffer, before any interface is opened. */
    constructor ()
      ensures fresh(data)
      ensures data.Length0 == PacketCount && data.Length1 == PacketSize
      ensures forall i, j :: 0 <= i < PacketCount && 0 <= j < PacketSize ==> data[i, j] == 0
      ensures wptr == 0 && rptr == 0 && !wasFull && !wasEmpty
    {
      data := new byte[PacketCount, PacketSize]((i, j) => 0);
      wptr, rptr := 0, 0;
      wasFull, wasEmpty := false, false;
    }

    /** `WR_IDX`: the slot the write cursor designates. */
    function WriteIndex(): (k: nat)
      reads this
      ensures k < PacketCount && SameSlot(k, wptr)
    {
      wptr % PacketCount
    }

    /** `RD_IDX`: the slot the read cursor designates. */
    function ReadIndex(): (k: nat)
      reads this
      ensures k < PacketCount && SameSlot(k, rptr)
    {
      rptr % PacketCount
    }

    /** The storage as a sequence of slots, each a sequence of bytes. */
    ghost function Slots(): (s: seq<seq<byte>>)
      reads data
      ensures |s| == data.Length0
      ensures forall i :: 0 <= i < |s| ==> |s[i]| == data.Length1
      ensures forall i, j :: 0 <= i < data.Length0 && 0 <= j < data.Length1 ==> s[i][j] == data[i, j]
    {
      seq(data.Length0, i requires 0 <= i < data.Length0 reads data =>
        seq(data.Length1, j requires 0 <= j < data.Length1 reads data => data[i, j]))
    }

    /** The cursor and flag initialisation that `dap_edpt_open` performs on each ring. */
    method Reset()
      modifies this
      ensures wptr == 0 && rptr == 0 && !wasFull && wasEmpty
    {
      wptr, rptr := 0, 0;
      wasFull, wasEmpty := false, true;
    }

    /** Overwrites the command byte (byte 0) of slot `k`; every other byte keeps its value. */
    method SetCommand(k: nat, b: byte)
      requires k < data.Length0 && 0 < data.Length1
      modifies data
      ensures Slots() == old(Slots())[k := old(Slots())[k][0 := b]]
    {
      ghost var before := Slots();
      data[k, 0] := b;
      ghost var expected := before[k := before[k][0 := b]];
      forall i | 0 <= i < data.Length0
        ensures Slots()[i] == expected[i]
      {
        assert forall j :: 0 <= j < data.Length1 ==> Slots()[i][j] == expected[i][j];
      }
    }

    /** `memcpy(dst, &data[k][0], PacketSize)`: copies one whole slot out. */
    method CopyOut(k: nat, dst: array<byte>)
      requires k < data.Length0 && dst.Length == data.Length1
      modifies dst
      ensures dst[..] == Slots()[k]
    {
      var j := 0;
      while j < dst.Length
        invariant 0 <= j <= dst.Length
        invariant forall t :: 0 <= t < j ==> dst[t] == data[k, t]
      {
        dst[j] := data[k, j];
        j := j + 1;
      }
      assert forall t :: 0 <= t < dst.Length ==> dst[..][t] == Slots()[k][t];
    }

    /**
     * `memcpy(&data[k][0], src, len)`: the first `len` bytes of slot `k` become those of
     * `src`; the rest of that slot and every other slot are untouched.
     */
    method CopyIn(k: nat, src: array<byte>, len: nat)
      requires k < data.Length0 && len <= data.Length1 && len <= src.Length
      modifies data
      ensures Slots() == old(Slots())[k := src[..len] + old(Slots())[k][len..]]
    {
      ghost var before := Slots();
      var j := 0;
      while j < len
        invariant 0 <= j <= len
        invariant forall i, t :: 0 <= i < data.Length0 && 0 <= t < data.Length1 ==>
          data[i, t] == (if i == k && t < j then src[t] else before[i][t])
      {
        data[k, j] := src[j];
        j := j + 1;
      }
      ghost var expected := before[k := src[..len] + before[k][len..]];
      forall i | 0 <= i < data.Length0
        ensures Slots()[i] == expected[i]
      {
        assert forall t :: 0 <= t < data.Length1 ==> Slots()[i][t] == expected[i][t];
      }
    }
  }
}
