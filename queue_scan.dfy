/**
 * The atomic-command admission scan of `dap_thread`, as functions on the request ring's
 * slots. Starting at a cursor, every consecutive slot whose command byte is QueueCommands
 * has that byte rewritten to ExecuteCommands; the scan stops at the first other command
 * or waits when it catches up with the write cursor.
 */
module QueueScan {
  import opened DapConfig

  /** Storage of one ring: PacketCount slots of PacketSize bytes. */
  predicate Shaped(slots: seq<seq<byte>>)
  {
    |slots| == PacketCount && forall i :: 0 <= i < |slots| ==> |slots[i]| == PacketSize
  }

  /** A slot whose command byte has been reclassified to ExecuteCommands. */
  function MarkExecute(slot: seq<byte>): (r: seq<byte>)
    requires |slot| > 0
    ensures |r| == |slot| && r[0] == ExecuteCommands && r[1..] == slot[1..]
  {
    slot[0 := ExecuteCommands]
  }

  /** The slots whose command byte is QueueCommands. */
  function QueueMarked(slots: seq<seq<byte>>): set<nat>
  {
    set i: nat | i < |slots| && |slots[i]| > 0 && slots[i][0] == QueueCommands
  }

  /** Reclassifying one queued slot removes it, and only it, from the queued slots. */
  lemma MarkingShrinks(slots: seq<seq<byte>>, k: nat)
    requires k < |slots| && |slots[k]| > 0 && slots[k][0] == QueueCommands
    ensures QueueMarked(slots[k := MarkExecute(slots[k])]) == QueueMarked(slots) - {k}
  {
    var after := slots[k := MarkExecute(slots[k])];
    forall i: nat
      ensures i in QueueMarked(after) <==> i in QueueMarked(slots) - {k}
    {
      if i < |slots| && i != k {
        assert after[i] == slots[i];
      }
    }
  }

  /** Where one run of the scan ends, with the storage as the scan left it. */
  datatype ScanEnd =
    | Stopped(slots: seq<seq<byte>>, at: nat)   // the slot at `at` holds another command
    | Waiting(slots: seq<seq<byte>>, at: nat)   // the scan reached the write cursor `at`

  /**
   * The scan loop, from cursor `n`, against write cursor `wptr`: one step per queued
   * slot, exactly as the loop body rewrites, advances and then compares with `wptr`.
   */
  function ScanRun(slots: seq<seq<byte>>, n: nat, wptr: nat): (e: ScanEnd)
    requires Shaped(slots)
    ensures Shaped(e.slots) && n <= e.at
    ensures e.Stopped? ==> e.slots[e.at % PacketCount][0] != QueueCommands
    ensures e.Waiting? ==> n < e.at == wptr
    decreases QueueMarked(slots)
  {
    var k := n % PacketCount;
    if slots[k][0] != QueueCommands then Stopped(slots, n)
    else
      var next := slots[k := MarkExecute(slots[k])];
      MarkingShrinks(slots, k);
      if n + 1 == wptr then Waiting(next, n + 1)
      else ScanRun(next, n + 1, wptr)
  }

  /** Slot `i` is one of the positions n, n+1, ..., m-1 reduced modulo PacketCount. */
  predicate InRun(i: int, n: int, m: int)
  {
    (i - n) % PacketCount < m - n
  }

  /** Every position of [n, m) designates a slot of the run. */
  lemma RunCovers(n: nat, m: nat, k: nat)
    requires n <= k < m
    ensures InRun(k % PacketCount, n, m)
  {
  }

  /** The storage with the command byte of every slot of the run [n, m) reclassified. */
  function Relabeled(slots: seq<seq<byte>>, n: nat, m: nat): (r: seq<seq<byte>>)
    requires Shaped(slots)
    ensures Shaped(r)
  {
    seq(|slots|, i requires 0 <= i < |slots| =>
      if InRun(i, n, m) then MarkExecute(slots[i]) else slots[i])
  }

  /** The first position of a run is its own slot; no other slot is at distance 0. */
  lemma RunHead(i: nat, n: nat)
    requires i < PacketCount
    ensures (i - n) % PacketCount == 0 <==> i == n % PacketCount
  {
  }

  /** Dropping the first position of a run leaves every other slot's membership alone. */
  lemma RunShift(i: nat, n: nat, m: nat)
    requires i < PacketCount && i != n % PacketCount && n < m
    ensures InRun(i, n + 1, m) <==> InRun(i, n, m)
  {
    RunHead(i, n);
    assert (i - n) % PacketCount == (i - (n + 1)) % PacketCount + 1;
  }

  /**
   * What a scan from `n` does: it reclassifies exactly the slots of the run it covers,
   * each of which held QueueCommands, and changes no other byte. Started below the write
   * cursor, it either waits at the write cursor or stops strictly below it, so no packet
   * is released until the terminating non-queue packet of the batch has arrived.
   */
  lemma {:induction false} ScanMarksRun(slots: seq<seq<byte>>, n: nat, wptr: nat)
    requires Shaped(slots)
    ensures var e := ScanRun(slots, n, wptr);
      && e.slots == Relabeled(slots, n, e.at)
      && (forall i :: 0 <= i < PacketCount && InRun(i, n, e.at) ==> slots[i][0] == QueueCommands)
      && (e.Stopped? && n < wptr ==> e.at < wptr)
    decreases QueueMarked(slots)
  {
    var k := n % PacketCount;
    if slots[k][0] != QueueCommands {
      EmptyRun(slots, n);
    } else {
      var next := slots[k := MarkExecute(slots[k])];
      MarkingShrinks(slots, k);
      if n + 1 == wptr {
        SingleRun(slots, n);
      } else {
        ScanMarksRun(next, n + 1, wptr);
        var m := ScanRun(next, n + 1, wptr).at;
        assert ScanRun(slots, n, wptr) == ScanRun(next, n + 1, wptr);
        ExtendRun(slots, n, m);
        ExtendQueued(slots, n, m);
      }
    }
  }

  /** A run that covers nothing leaves the storage as it is. */
  lemma EmptyRun(slots: seq<seq<byte>>, n: nat)
    requires Shaped(slots)
    ensures Relabeled(slots, n, n) == slots
  {
    forall i | 0 <= i < PacketCount
      ensures Relabeled(slots, n, n)[i] == slots[i]
    {
      assert !InRun(i, n, n);
    }
  }

  /** A run of one position reclassifies just the slot at that position. */
  lemma SingleRun(slots: seq<seq<byte>>, n: nat)
    requires Shaped(slots)
    ensures var k := n % PacketCount;
      Relabeled(slots, n, n + 1) == slots[k := MarkExecute(slots[k])]
  {
    var k := n % PacketCount;
    var next := slots[k := MarkExecute(slots[k])];
    forall i | 0 <= i < PacketCount
      ensures Relabeled(slots, n, n + 1)[i] == next[i]
    {
      RunHead(i, n);
    }
  }

  /** Reclassifying the first slot of a run and then the rest is the whole run. */
  lemma ExtendRun(slots: seq<seq<byte>>, n: nat, m: nat)
    requires Shaped(slots) && n < m
    ensures var k := n % PacketCount;
      var next := slots[k := MarkExecute(slots[k])];
      Relabeled(next, n + 1, m) == Relabeled(slots, n, m)
  {
    var k := n % PacketCount;
    var next := slots[k := MarkExecute(slots[k])];
    forall i | 0 <= i < PacketCount
      ensures Relabeled(next, n + 1, m)[i] == Relabeled(slots, n, m)[i]
    {
      if i == k {
        RunHead(i, n);
      } else {
        RunShift(i, n, m);
      }
    }
  }

  /** If the rest of a run was queued after its first slot was reclassified, the run was queued. */
  lemma ExtendQueued(slots: seq<seq<byte>>, n: nat, m: nat)
    requires Shaped(slots) && n < m && slots[n % PacketCount][0] == QueueCommands
    requires var k := n % PacketCount;
      var next := slots[k := MarkExecute(slots[k])];
      forall i :: 0 <= i < PacketCount && InRun(i, n + 1, m) ==> next[i][0] == QueueCommands
    ensures forall i :: 0 <= i < PacketCount && InRun(i, n, m) ==> slots[i][0] == QueueCommands
  {
    var k := n % PacketCount;
    var next := slots[k := MarkExecute(slots[k])];
    forall i | 0 <= i < PacketCount && InRun(i, n, m)
      ensures slots[i][0] == QueueCommands
    {
      if i != k {
        RunShift(i, n, m);
        assert next[i] == slots[i];
        assert next[i][0] == QueueCommands;
      }
    }
  }

  /** Every slot of the run [from, to) carries ExecuteCommands: the batch released so far. */
  predicate Reclassified(slots: seq<seq<byte>>, from: nat, to: nat)
    requires Shaped(slots)
  {
    forall i :: 0 <= i < PacketCount && InRun(i, from, to) ==> slots[i][0] == ExecuteCommands
  }

  /** A slot of the run [r, m) lies in its first part [r, n) or in its second part [n, m). */
  lemma {:induction false} RunSplits(i: nat, r: nat, n: nat, m: nat)
    requires i < PacketCount && r <= n <= m && InRun(i, r, m)
    ensures InRun(i, r, n) || InRun(i, n, m)
  {
    var d := (i - r) % PacketCount;
    if d >= n - r {
      assert (i - n) % PacketCount == d - (n - r);
    }
  }

  /**
   * A scan resumed at `n` after the run [r, n) was reclassified leaves the whole run
   * [r, m) reclassified, whatever it crossed.
   */
  lemma ScanExtendsReclassified(slots: seq<seq<byte>>, r: nat, n: nat, m: nat)
    requires Shaped(slots) && r <= n <= m && Reclassified(slots, r, n)
    ensures Reclassified(Relabeled(slots, n, m), r, m)
  {
    forall i | 0 <= i < PacketCount && InRun(i, r, m)
      ensures Relabeled(slots, n, m)[i][0] == ExecuteCommands
    {
      RunSplits(i, r, n, m);
    }
  }

  /**
   * The slot at the read cursor `r` never holds QueueCommands once a scan from `n` has
   * stopped at `m`: either the scan started there and stopped on it, or it lies in the
   * run reclassified before or by this scan.
   */
  lemma ReadSlotReleased(slots: seq<seq<byte>>, r: nat, n: nat, m: nat)
    requires Shaped(slots) && r <= n <= m && Reclassified(slots, r, n)
    requires r == n ==> Relabeled(slots, n, m)[m % PacketCount][0] != QueueCommands
    ensures Relabeled(slots, n, m)[r % PacketCount][0] != QueueCommands
  {
    if r < m {
      RunCovers(r, m, r);
      ScanExtendsReclassified(slots, r, n, m);
    }
  }

  /**
   * Why the scan cursor must survive a suspension: a scan that waited after crossing a
   * run, if restarted from the run's first position, would stop at once on the marker it
   * rewrote itself instead of reaching the rest of the batch.
   */
  lemma RestartStopsEarly(slots: seq<seq<byte>>, n: nat, wptr: nat)
    requires Shaped(slots) && ScanRun(slots, n, wptr).Waiting?
    ensures var e := ScanRun(slots, n, wptr);
      ScanRun(e.slots, n, wptr) == Stopped(e.slots, n) && n < e.at
  {
    var e := ScanRun(slots, n, wptr);
    ScanMarksRun(slots, n, wptr);
    RunCovers(n, e.at, n);
    assert e.slots[n % PacketCount][0] == ExecuteCommands;
  }
}
