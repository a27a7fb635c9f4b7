/**
 * Client runs of the transport, driven only through its callbacks and worker steps
 * (plus, where a packet's content matters, the command byte the USB stack deposits into
 * the armed OUT slot). What each run returns is proved from the contracts alone; the
 * step methods below each summarise one call for the situation the runs put it in.
 */
module Scenarios {
  import opened DapConfig
  import opened RingBuffers
  import opened QueueScan
  import opened EdptHandler

  const OutAddr: byte := 0x01
  const InAddr: byte := 0x81
  const Reply: seq<byte> := seq(PacketSize, _ => 0)

  /** A transport just opened on the DAP interface. */
  method Opened() returns (t: Transport)
    ensures t.Valid() && fresh(t) && fresh(t.req) && fresh(t.resp) && fresh(t.req.data)
    ensures fresh(t.resp.data) && fresh(t.request) && fresh(t.response)
    ensures t.phase == Ready && t.inEp == InAddr
    ensures t.req.wptr == 0 && t.req.rptr == 0 && !t.req.wasFull
    ensures t.resp.wptr == 0 && t.resp.rptr == 0 && t.resp.wasEmpty
    ensures forall i :: 0 <= i < PacketCount ==> t.req.data[i, 0] == 0
  {
    t := new Transport();
    var consumed := t.Open(VendorSpecificClass, DapSubclass, DapProtocol, 0, 2, OutAddr, InAddr, 64);
  }

  /** An OUT completion while `buffer_full` does not hold: the packet is admitted. */
  method Receive(t: Transport)
    requires t.Valid() && t.req.rptr <= t.req.wptr < t.req.rptr + PacketCount - 1
    requires t.req.rptr < PacketCount
    modifies t`armed, t.req, t.resp
    ensures t.req.wptr == old(t.req.wptr) + 1 && t.req.rptr == old(t.req.rptr) && !t.req.wasFull
    ensures unchanged(t.resp)
    ensures old(t.Coherent()) ==> t.Coherent()
  {
    FullLeavesOneSlotFree(t.req.wptr, t.req.rptr);
    var ok := t.TransferComplete(OutAddr, DirOut, PacketSize);
  }

  /**
   * The USB stack deposits a packet with command byte `b` into the armed OUT slot, which
   * lies outside the run a suspended scan has already crossed.
   */
  method Deposit(t: Transport, b: byte)
    requires t.Valid() && t.Coherent()
    requires t.phase == AwaitingBatch ==> !InRun(t.req.WriteIndex(), t.req.rptr, t.scanCursor)
    modifies t.req.data
    ensures t.Coherent()
    ensures forall i :: 0 <= i < PacketCount ==>
      t.req.data[i, 0] == (if i == t.req.WriteIndex() then b else old(t.req.data[i, 0]))
  {
    ghost var s := t.req.Slots();
    t.req.SetCommand(t.req.WriteIndex(), b);
    assert forall i :: 0 <= i < PacketCount ==> t.req.data[i, 0] == t.req.Slots()[i][0];
  }

  /** A pass that finds a command other than QueueCommands at the read cursor. */
  method ServePlain(t: Transport) returns (command: byte)
    requires t.Valid() && t.phase == Ready && t.req.rptr < t.req.wptr && !t.req.wasFull
    requires t.req.data[t.req.ReadIndex(), 0] != QueueCommands
    modifies t`phase, t`scanCursor, t`armed, t.req, t.req.data, t.request
    ensures t.phase == Executing && command == old(t.req.data[t.req.ReadIndex(), 0])
    ensures t.req.rptr == old(t.req.rptr) + 1 && t.req.wptr == old(t.req.wptr) && !t.req.wasFull
    ensures forall i :: 0 <= i < PacketCount ==> t.req.data[i, 0] == old(t.req.data[i, 0])
  {
    ghost var s := t.req.Slots();
    var p := t.ServiceRequest();
    assert t.req.Slots() == s;
    command := t.request[0];
  }

  /**
   * A pass whose scan crosses one QueueCommands slot and then meets the write cursor:
   * the slot is reclassified and the worker suspends inside the scan.
   */
  method ServeLastArrived(t: Transport) returns (p: Poll)
    requires t.Valid() && t.Coherent() && t.ScanDue() && t.req.wptr == t.ScanStart() + 1
    requires t.req.data[t.ScanStart() % PacketCount, 0] == QueueCommands
    modifies t`phase, t`scanCursor, t`armed, t.req, t.req.data, t.request
    ensures p == Blocked && t.phase == AwaitingBatch && t.scanCursor == t.req.wptr && t.Coherent()
    ensures t.req.wptr == old(t.req.wptr) && t.req.rptr == old(t.req.rptr) && !t.req.wasFull == !old(t.req.wasFull)
    ensures forall i :: 0 <= i < PacketCount ==>
      t.req.data[i, 0] == (if i == old(t.ScanStart()) % PacketCount then ExecuteCommands else old(t.req.data[i, 0]))
  {
    ghost var s := t.req.Slots();
    ghost var n := t.ScanStart();
    ghost var w := t.req.wptr;
    assert ScanRun(s, n, w) == Waiting(s[n % PacketCount := MarkExecute(s[n % PacketCount])], n + 1);
    p := t.ServiceRequest();
    RunCovers(n, n + 1, n);
    assert t.scanCursor == n + 1;
    SingleRun(s, n);
  }

  /** The worker publishes a response of `len` bytes. */
  method Respond(t: Transport, len: nat)
    requires t.Valid() && t.phase == Executing && len <= PacketSize
    modifies t`phase, t`respLen, t`armed, t.resp, t.resp.data, t.response
    ensures t.phase == Ready && t.respLen == len && t.inEp == old(t.inEp)
    ensures t.resp.wptr == old(t.resp.wptr) + 1 && t.resp.rptr == old(t.resp.rptr)
    ensures old(t.resp.wptr == t.resp.rptr) ==> t.resp.wasEmpty == old(t.resp.wasEmpty)
    ensures old(t.resp.wptr != t.resp.rptr) ==> !t.resp.wasEmpty
  {
    t.PublishResponse(len, Reply);
  }

  /** The pass that finds the terminating packet of a batch that has fully arrived. */
  method ServeTerminated(t: Transport) returns (command: byte)
    requires t.Valid() && t.Coherent() && t.phase == AwaitingBatch && t.scanCursor < t.req.wptr
    requires t.req.data[t.scanCursor % PacketCount, 0] != QueueCommands && !t.req.wasFull
    modifies t`phase, t`scanCursor, t`armed, t.req, t.req.data, t.request
    ensures t.phase == Executing && command == old(t.req.data[t.req.ReadIndex(), 0])
    ensures t.req.rptr == old(t.req.rptr) + 1 && t.req.wptr == old(t.req.wptr) && !t.req.wasFull
    ensures forall i :: 0 <= i < PacketCount ==> t.req.data[i, 0] == old(t.req.data[i, 0])
  {
    ghost var s := t.req.Slots();
    var p := t.ServiceRequest();
    assert t.req.Slots() == s;
    command := t.request[0];
  }

  /**
   * Three requests are served while the first response is still on the wire. When the
   * first IN transfer completes, the callback re-arms slot 1 (the second response, 20
   * bytes long) with the global `_resp_len`, which by then is the third response's 30.
   */
  method StaleResponseLength() returns (rearmed: Transfer)
    ensures rearmed == Transfer(InAddr, ResponseRing, 1, 30)
  {
    var t := Opened();
    Receive(t);
    Receive(t);
    Receive(t);
    var c := ServePlain(t);
    Respond(t, 10);
    c := ServePlain(t);
    Respond(t, 20);
    c := ServePlain(t);
    Respond(t, 30);
    assert t.respLen == 30 && !t.resp.wasEmpty && t.resp.rptr == 0 && t.resp.wptr == 3;
    var ok := t.TransferComplete(InAddr, DirIn, 10);
    assert t.resp.ReadIndex() == 1 && Low16(30) == 30;
    rearmed := t.armed[|t.armed| - 1];
  }

  /**
   * The first two packets of a batch, both QueueCommands, arrive one at a time; the worker
   * blocks after each, having reclassified both.
   */
  method QueuedPrefix() returns (t: Transport, first: Poll, second: Poll)
    ensures fresh(t) && fresh(t.req) && fresh(t.req.data) && fresh(t.resp) && fresh(t.resp.data)
    ensures fresh(t.request) && fresh(t.response)
    ensures t.Valid() && t.Coherent() && first == Blocked && second == Blocked
    ensures t.phase == AwaitingBatch && t.scanCursor == 2 && !t.req.wasFull
    ensures t.req.rptr == 0 && t.req.wptr == 2
    ensures t.req.data[0, 0] == ExecuteCommands && t.req.data[1, 0] == ExecuteCommands
  {
    t := Opened();

    Deposit(t, QueueCommands);
    Receive(t);
    first := ServeLastArrived(t);

    Deposit(t, QueueCommands);
    Receive(t);
    second := ServeLastArrived(t);
  }

  /**
   * Two QueueCommands packets and a terminating DAP_Info packet arrive one at a time.
   * The worker blocks after each of the first two, and only once the third has arrived
   * hands the three packets over, in order, the first two reclassified to
   * ExecuteCommands.
   */
  method QueuedBatch() returns (first: Poll, second: Poll, commands: seq<byte>)
    ensures first == Blocked && second == Blocked
    ensures commands == [ExecuteCommands, ExecuteCommands, 0x00]
  {
    var t;
    t, first, second := QueuedPrefix();

    Deposit(t, 0x00);
    Receive(t);
    var c0 := ServeTerminated(t);
    Respond(t, 2);

    var c1 := ServePlain(t);
    Respond(t, 2);

    var c2 := ServePlain(t);
    Respond(t, 2);
    commands := [c0, c1, c2];
  }
}
