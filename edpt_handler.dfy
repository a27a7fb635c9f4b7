/**
 * The tinyUSB class driver that carries CMSIS-DAP packets between a bulk endpoint pair
 * and the command interpreter: the open and transfer-complete callbacks, and the worker
 * thread `dap_thread`, each step of which runs as one atomic method between the points
 * where the thread suspends itself.
 */
module EdptHandler {
  import opened DapConfig
  import opened RingBuffers
  import opened QueueScan

  /** Which ring a transfer's buffer lies in. */
  datatype RingId = RequestRing | ResponseRing

  /** One `usbd_edpt_xfer` call: endpoint, buffer (ring and slot) and length. */
  datatype Transfer = Transfer(ep: byte, ring: RingId, slot: nat, length: nat)

  /** Where `dap_thread` is. */
  datatype Phase =
    | Ready          // at the test of the inner loop, or suspended because the ring was empty
    | AwaitingBatch  // suspended inside the queue scan, waiting for the batch to arrive
    | Executing      // a request is in DAPRequestBuffer and the interpreter is running

  /** How one pass of the worker ended. */
  datatype Poll =
    | Idle      // the request ring is empty: the worker suspends until a callback resumes it
    | Blocked   // a queued batch is incomplete: the worker suspends inside the scan
    | Taken     // one request was drained and handed to the interpreter

  class Transport {
    const req: RingBuffer      // USBRequestBuffer (OUT: host to probe)
    const resp: RingBuffer     // USBResponseBuffer (IN: probe to host)
    const request: array<byte>   // DAPRequestBuffer
    const response: array<byte>  // DAPResponseBuffer
    var itfNum: byte
    var outEp: byte
    var inEp: byte
    var respLen: nat           // _resp_len, as the interpreter returned it (32 bits)
    var phase: Phase
    var scanCursor: nat        // the local `n` of dap_thread, kept across suspensions
    var armed: seq<Transfer>   // every `usbd_edpt_xfer` call so far, in order

    ghost predicate Valid()
    {
      && req != resp && req.data != resp.data && request != response
      && req.data.Length0 == PacketCount && req.data.Length1 == PacketSize
      && resp.data.Length0 == PacketCount && resp.data.Length1 == PacketSize
      && request.Length == PacketSize && response.Length == PacketSize
    }

    /**
     * The worker's view of the request ring is consistent: the read cursor never passes
     * the write cursor, and a suspended scan sits strictly after the read cursor and at
     * most at the write cursor, with every slot it has crossed since the read cursor
     * already reclassified to ExecuteCommands.
     */
    ghost predicate Coherent()
      reads this, req, req.data
    {
      && req.rptr <= req.wptr
      && (phase == AwaitingBatch ==>
            && req.rptr < scanCursor <= req.wptr
            && Shaped(req.Slots()) && Reclassified(req.Slots(), req.rptr, scanCursor))
    }

    /** Where the next scan starts: the read cursor, or the cursor of a suspended scan. */
    ghost function ScanStart(): nat
      reads this, req
    {
      if phase == AwaitingBatch then scanCursor else req.rptr
    }

    /** The next pass will run the scan: there is a request, or the awaited packet arrived. */
    ghost predicate ScanDue()
      reads this, req
    {
      || (phase == Ready && req.rptr != req.wptr)
      || (phase == AwaitingBatch && scanCursor != req.wptr)
    }

    /** The module's zero-initialised statics, before the interface is opened. */
    constructor ()
      ensures Valid()
      ensures fresh(req) && fresh(resp) && fresh(req.data) && fresh(resp.data)
      ensures fresh(request) && fresh(response)
      ensures req.wptr == 0 && req.rptr == 0 && !req.wasFull && !req.wasEmpty
      ensures resp.wptr == 0 && resp.rptr == 0 && !resp.wasFull && !resp.wasEmpty
      ensures itfNum == 0 && outEp == 0 && inEp == 0 && respLen == 0
      ensures phase == Ready && armed == []
      ensures forall i, j :: 0 <= i < PacketCount && 0 <= j < PacketSize ==>
        req.data[i, j] == 0 && resp.data[i, j] == 0
      ensures Coherent()
    {
      req := new RingBuffer();
      resp := new RingBuffer();
      request := new byte[PacketSize](_ => 0);
      response := new byte[PacketSize](_ => 0);
      itfNum, outEp, inEp := 0, 0, 0;
      respLen := 0;
      phase := Ready;
      scanCursor := 0;
      armed := [];
    }

    /** `dap_edpt_reset`: forgets the interface number. */
    method DriverReset()
      modifies this`itfNum
      ensures itfNum == 0
    {
      itfNum := 0;
    }

    /** `drv_len`: the interface descriptor and its endpoint descriptors. */
    static function DescriptorLength(numEndpoints: byte): (len: nat)
      ensures InterfaceDescriptorSize <= len < 0x1_0000
      ensures (len - InterfaceDescriptorSize) / EndpointDescriptorSize == numEndpoints as nat
      ensures (len - InterfaceDescriptorSize) % EndpointDescriptorSize == 0
    {
      InterfaceDescriptorSize + numEndpoints as nat * EndpointDescriptorSize
    }

    /**
     * `dap_edpt_open`. A foreign interface is declined with 0 and nothing changes.
     * Otherwise both rings are reset; if the descriptors do not fit in `maxLen` the
     * result is 0 and nothing is armed; else the endpoints are recorded, one OUT transfer
     * of a whole packet is armed on the request ring's write slot, and the descriptor
     * length is returned. The IN endpoint stays unarmed.
     */
    method Open(itfClass: byte, itfSubclass: byte, itfProtocol: byte, itfNumber: byte,
                numEndpoints: byte, outEpAddr: byte, inEpAddr: byte, maxLen: nat)
      returns (consumed: nat)
      requires Valid()
      modifies this`itfNum, this`outEp, this`inEp, this`armed, req, resp
      ensures var matches := itfClass == VendorSpecificClass && itfSubclass == DapSubclass
                             && itfProtocol == DapProtocol;
        && (!matches ==> consumed == 0 && unchanged(this, req, resp))
        && (matches ==>
              && req.wptr == 0 && req.rptr == 0 && !req.wasFull && req.wasEmpty
              && resp.wptr == 0 && resp.rptr == 0 && !resp.wasFull && resp.wasEmpty
              && (Coherent() <==> phase != AwaitingBatch))
        && (matches && maxLen < DescriptorLength(numEndpoints) ==>
              consumed == 0 && armed == old(armed)
              && itfNum == old(itfNum) && outEp == old(outEp) && inEp == old(inEp))
        && (matches && maxLen >= DescriptorLength(numEndpoints) ==>
              && consumed == DescriptorLength(numEndpoints)
              && itfNum == itfNumber && outEp == outEpAddr && inEp == inEpAddr
              && armed == old(armed) + [Transfer(outEpAddr, RequestRing, req.WriteIndex(), PacketSize)])
    {
      if !(itfClass == VendorSpecificClass && itfSubclass == DapSubclass
           && itfProtocol == DapProtocol) {
        return 0;
      }
      req.Reset();
      resp.Reset();
      var drvLen := DescriptorLength(numEndpoints);
      if maxLen < drvLen {
        return 0;
      }
      itfNum := itfNumber;
      outEp := outEpAddr;
      armed := armed + [Transfer(outEp, RequestRing, req.WriteIndex(), PacketSize)];
      inEp := inEpAddr;
      consumed := drvLen;
    }

    /** `dap_edpt_control_xfer_cb`: no class-specific control request is accepted. */
    method ControlTransfer(stage: byte) returns (accepted: bool)
      ensures !accepted
    {
      accepted := false;
    }

    /**
     * `dap_edpt_xfer_cb`, for a transfer of `xferred` bytes on endpoint `epAddr` whose
     * direction (as `tu_edpt_dir` reports it) is `dir`.
     * A transfer longer than a packet, or an unknown direction, is refused and changes
     * nothing. An OUT completion admits the packet into the request ring and re-arms OUT
     * unless `buffer_full` holds, in which case it only records `wasFull`. An IN completion
     * retires one response and, unless the worker found the ring empty, re-arms IN on the
     * next slot with the current `_resp_len`.
     */
    method TransferComplete(epAddr: byte, dir: nat, xferred: nat) returns (ok: bool)
      requires Valid()
      modifies this`armed, req, resp
      ensures ok <==> (dir == DirIn || dir == DirOut) && xferred <= PacketSize
      ensures !ok ==> unchanged(this, req, resp)
      ensures old(Coherent()) ==> Coherent()
      // OUT: data arrived in the request ring
      ensures ok && dir == DirOut ==>
        && unchanged(resp)
        && req.rptr == old(req.rptr) && req.wasEmpty == old(req.wasEmpty)
        && (if old(IsFull(req.wptr, req.rptr)) then
              && req.wasFull && req.wptr == old(req.wptr) && armed == old(armed)
            else
              && !req.wasFull && req.wptr == old(req.wptr) + 1
              && armed == old(armed) + [Transfer(epAddr, RequestRing, req.WriteIndex(), PacketSize)])
      // IN: a response finished transmitting
      ensures ok && dir == DirIn ==>
        && unchanged(req)
        && resp.rptr == old(resp.rptr) + 1
        && resp.wptr == old(resp.wptr) && resp.wasFull == old(resp.wasFull)
        && (if old(resp.wasEmpty) then
              resp.wasEmpty && armed == old(armed)
            else
              && resp.wasEmpty == (resp.rptr + 1 == resp.wptr)
              && armed == old(armed) + [Transfer(epAddr, ResponseRing, resp.ReadIndex(), Low16(respLen))])
    {
      if dir == DirIn {
        if xferred > PacketSize {
          return false;
        }
        resp.rptr := resp.rptr + 1;
        if !resp.wasEmpty {
          armed := armed + [Transfer(epAddr, ResponseRing, resp.ReadIndex(), Low16(respLen))];
          resp.wasEmpty := resp.rptr + 1 == resp.wptr;
        }
        return true;
      } else if dir == DirOut {
        if xferred > PacketSize {
          return false;
        }
        if !IsFull(req.wptr, req.rptr) {
          req.wptr := req.wptr + 1;
          armed := armed + [Transfer(epAddr, RequestRing, req.WriteIndex(), PacketSize)];
          req.wasFull := false;
        } else {
          req.wasFull := true;
        }
        return true;
      } else {
        return false;
      }
    }

    /**
     * The queue scan loop from cursor `n`: it does what ScanRun describes, rewriting the
     * storage in place and returning the cursor it ended on and whether it must wait.
     */
    method Scan(n: nat) returns (m: nat, waiting: bool)
      requires Valid()
      modifies req.data
      ensures ScanRun(old(req.Slots()), n, req.wptr) ==
        if waiting then Waiting(req.Slots(), m) else Stopped(req.Slots(), m)
    {
      ghost var s0 := req.Slots();
      m, waiting := n, false;
      while !waiting && req.data[m % PacketCount, 0] == QueueCommands
        invariant Shaped(req.Slots())
        invariant !waiting ==> ScanRun(req.Slots(), m, req.wptr) == ScanRun(s0, n, req.wptr)
        invariant waiting ==> ScanRun(s0, n, req.wptr) == Waiting(req.Slots(), m)
        decreases QueueMarked(req.Slots())
      {
        ghost var before := req.Slots();
        req.SetCommand(m % PacketCount, ExecuteCommands);
        MarkingShrinks(before, m % PacketCount);
        m := m + 1;
        if m == req.wptr {
          waiting := true;
        }
      }
    }

    /**
     * One pass of `dap_thread` up to the interpreter call. With nothing to scan it
     * suspends (Idle, or Blocked again if the awaited packet has not arrived) and changes
     * nothing. Otherwise it runs the queue scan from ScanStart(): the run of queued slots
     * it crosses is reclassified to ExecuteCommands and no other byte or cursor changes.
     * If the scan reaches the write cursor the worker suspends inside it (Blocked).
     * If it stops on another command, the slot at the read cursor is copied into
     * DAPRequestBuffer, the read cursor advances, and a deferred OUT transfer is armed on
     * the next write slot if the OUT callback had found the ring full (Taken).
     */
    method ServiceRequest() returns (p: Poll)
      requires Valid() && phase != Executing
      modifies this`phase, this`scanCursor, this`armed, req, req.data, request
      ensures old(Coherent()) ==> Coherent()
      ensures !old(ScanDue()) ==>
        && p == (if old(phase) == Ready then Idle else Blocked)
        && phase == old(phase) && scanCursor == old(scanCursor) && armed == old(armed)
        && unchanged(req, req.data, request)
      ensures old(ScanDue()) ==>
        && p != Idle
        && old(ScanStart()) <= scanCursor
        && req.Slots() == Relabeled(old(req.Slots()), old(ScanStart()), scanCursor)
        && (forall i :: 0 <= i < PacketCount && InRun(i, old(ScanStart()), scanCursor) ==>
              old(req.Slots())[i][0] == QueueCommands)
        && req.wasEmpty == old(req.wasEmpty)
      ensures old(ScanDue()) && old(req.Slots())[old(ScanStart()) % PacketCount][0] != QueueCommands ==>
        p == Taken && scanCursor == old(ScanStart()) && req.Slots() == old(req.Slots())
      ensures old(ScanDue()) && p == Blocked ==>
        && phase == AwaitingBatch && scanCursor == req.wptr
        && req.wptr == old(req.wptr) && req.rptr == old(req.rptr) && req.wasFull == old(req.wasFull)
        && armed == old(armed) && unchanged(request)
      ensures p == Taken && old(Coherent()) ==> request[0] != QueueCommands
      ensures p == Taken ==>
        && phase == Executing
        && req.Slots()[scanCursor % PacketCount][0] != QueueCommands
        && (old(Coherent()) ==> scanCursor < old(req.wptr))
        && request[..] == req.Slots()[old(req.ReadIndex())]
        && req.rptr == old(req.rptr) + 1 && !req.wasFull
        && (if old(req.wasFull) then
              && req.wptr == old(req.wptr) + 1
              && armed == old(armed) + [Transfer(outEp, RequestRing, req.WriteIndex(), PacketSize)]
            else
              req.wptr == old(req.wptr) && armed == old(armed))
    {
      var n: nat;
      if phase == Ready {
        if req.rptr == req.wptr {
          return Idle;
        }
        n := req.rptr;
      } else {
        if scanCursor == req.wptr {
          return Blocked;
        }
        n := scanCursor;
      }
      ghost var s0 := req.Slots();
      ghost var coherent := Coherent();
      var m, waiting := Scan(n);
      ScanMarksRun(s0, n, req.wptr);
      if coherent {
        if phase == AwaitingBatch {
          ScanExtendsReclassified(s0, req.rptr, n, m);
        } else {
          ScanExtendsReclassified(s0, n, n, m);
        }
        if !waiting {
          ReadSlotReleased(s0, req.rptr, n, m);
        }
      }
      n := m;
      scanCursor := n;
      if waiting {
        phase := AwaitingBatch;
        return Blocked;
      }
      Drain();
      phase := Executing;
      return Taken;
    }

    /**
     * The request drain: the slot at the read cursor is copied byte for byte into
     * DAPRequestBuffer and the read cursor advances. If the OUT callback had deferred
     * (wasFull), the write cursor advances, one OUT transfer of a whole packet is armed on
     * the new write slot and the flag is cleared; otherwise nothing is armed.
     */
    method Drain()
      requires Valid()
      modifies this`armed, req, request
      ensures request[..] == req.Slots()[old(req.ReadIndex())]
      ensures req.rptr == old(req.rptr) + 1 && !req.wasFull && req.wasEmpty == old(req.wasEmpty)
      ensures if old(req.wasFull) then
          && req.wptr == old(req.wptr) + 1
          && armed == old(armed) + [Transfer(outEp, RequestRing, req.WriteIndex(), PacketSize)]
        else
          req.wptr == old(req.wptr) && armed == old(armed)
    {
      req.CopyOut(req.ReadIndex(), request);
      req.rptr := req.rptr + 1;
      if req.wasFull {
        req.wptr := req.wptr + 1;
        armed := armed + [Transfer(outEp, RequestRing, req.WriteIndex(), PacketSize)];
        req.wasFull := false;
      }
    }

    /**
     * The rest of the pass: the interpreter has returned `word` (its 32-bit result, whose
     * low 16 bits are the response length) and left `reply` in DAPResponseBuffer. The
     * first Low16(word) bytes are published into the response ring's write slot and the
     * write cursor advances. If the ring was empty an IN transfer of that length is armed
     * on the read slot; otherwise nothing is armed and `wasEmpty` is cleared so that the
     * IN callback re-arms.
     */
    method PublishResponse(word: nat, reply: seq<byte>)
      requires Valid() && phase == Executing
      requires word < 0x1_0000_0000 && Low16(word) <= PacketSize && |reply| == PacketSize
      modifies this`phase, this`respLen, this`armed, resp, resp.data, response
      ensures phase == Ready && respLen == word && response[..] == reply
      ensures old(Coherent()) ==> Coherent()
      ensures var len := Low16(word);
        var k := old(resp.WriteIndex());
        resp.Slots() == old(resp.Slots())[k := reply[..len] + old(resp.Slots())[k][len..]]
      ensures resp.wptr == old(resp.wptr) + 1 && resp.rptr == old(resp.rptr)
      ensures resp.wasFull == old(resp.wasFull)
      ensures if old(IsEmpty(resp.wptr, resp.rptr)) then
          && resp.wasEmpty == old(resp.wasEmpty)
          && armed == old(armed) + [Transfer(inEp, ResponseRing, resp.ReadIndex(), Low16(word))]
        else
          !resp.wasEmpty && armed == old(armed)
    {
      respLen := word;
      var j := 0;
      while j < PacketSize
        modifies response
        invariant 0 <= j <= PacketSize
        invariant forall t :: 0 <= t < j ==> response[t] == reply[t]
      {
        response[j] := reply[j];
        j := j + 1;
      }
      var len := Low16(respLen);
      var wasEmptyRing := IsEmpty(resp.wptr, resp.rptr);
      resp.CopyIn(resp.WriteIndex(), response, len);
      resp.wptr := resp.wptr + 1;
      if wasEmptyRing {
        armed := armed + [Transfer(inEp, ResponseRing, resp.ReadIndex(), len)];
      } else {
        resp.wasEmpty := false;
      }
      phase := Ready;
    }
  }
}
