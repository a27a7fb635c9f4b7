# CMSIS-DAP USB endpoint transport, modelled in Dafny

This project models the transport of the Raspberry Pi debug probe firmware in
`src/tusb_edpt_handler.c`. The transport is a custom tinyUSB class driver that moves
CMSIS-DAP packets between a bulk OUT/IN endpoint pair and the DAP command interpreter.
It has four parts:

- two rings of `DAP_PACKET_COUNT` slots of `DAP_PACKET_SIZE` bytes:
  - `USBRequestBuffer` carries packets from the host;
  - `USBResponseBuffer` carries packets to the host;
  - each ring has ever-growing `wptr`/`rptr` cursors, reduced modulo the slot count, and
    `wasFull`/`wasEmpty` hand-over flags;
- the tinyUSB callbacks: interface open, control request, transfer complete;
- the worker `dap_thread`. It drains the request ring into a scratch buffer, calls the
  interpreter and publishes the response;
- the atomic-command rule. A run of `DAP_QueueCommands` packets is reclassified as
  `DAP_ExecuteCommands`. None of the run is handed over until its terminating packet
  has arrived.

Files:

- `dap_config.dfy`: the constants and the `uint16_t` cast.
- `ring_buffer.dfy`: `buffer_full`, `buffer_empty` and the `RingBuffer` class. The class
  has an `array2<byte>` store and the in-place `memcpy` and byte-0 rewrite.
- `queue_scan.dfy`: the queue scan as a function (`ScanRun`). It is proved equal to a
  declarative description (`Relabeled`).
- `edpt_handler.dfy`: the `Transport` class, with the callbacks and the worker.
  - Each callback is one atomic method.
  - The worker is a state machine over a `Phase` field. It keeps the scan cursor `n` in
    a field, because the source keeps it across suspensions.
  - One worker pass is split at the interpreter call into `ServiceRequest` and
    `PublishResponse`.
  - Every `usbd_edpt_xfer` call is appended to the `armed` log as a `Transfer`: endpoint,
    ring, slot and length.
- `scenarios.dfy`: two client runs whose results are proved from the contracts alone.

The model follows the code as written, including three behaviours a reader might not expect:

- `buffer_full` compares the reduced next write cursor with the **unreduced** read
  cursor (line 32). `FullOnlyOnFirstLap` shows that it never holds once `rptr` has gone
  round the ring once. `OverrunAfterFirstLap` shows that the OUT callback then re-arms
  onto the slot the worker has not read yet. The occupancy bound `wptr - rptr <= N` is
  therefore not an invariant of the model.
- `buffer_empty` compares the unreduced cursors. `EmptyIsSameSlot` relates it to the
  slot-level test.
- The IN callback re-arms with the global `_resp_len`, not with a per-slot length
  (lines 164-165). `StaleResponseLength` exhibits a re-arm of slot 1 with the length of
  a later response.

Cursors are `nat`, so the model assumes that 32-bit wrap-around of `wptr`/`rptr` never
occurs. `DAP_PACKET_COUNT` and `DAP_PACKET_SIZE` are defined in `DAP_config.h`. The
interface subclass and protocol are defined in `tusb_edpt_handler.h`. Neither header is
part of this model:
- the model takes 8 slots, 64 bytes, and subclass and protocol 0;
- the proofs do not rely on the slot count being 8.
The command identifiers 0x7E and 0x7F are the CMSIS-DAP values of `DAP_QueueCommands`
and `DAP_ExecuteCommands`.

## Model

| member | source | states |
|---|---|---|
| DapConfig.Low16 | src/tusb_edpt_handler.c:164-165 | the `(uint16_t)` cast of `_resp_len`: the result is below 2^16, equals the value when it fits, and differs from it by a multiple of 2^16 |
| RingBuffers.IsFull | src/tusb_edpt_handler.c:30-33 | `buffer_full`, literally: whenever it reports full, the read cursor is on its first lap and the next write slot is the read slot |
| RingBuffers.IsEmpty | src/tusb_edpt_handler.c:35-38 | `buffer_empty`, literally: whenever it reports empty, both cursors name the same slot |
| RingBuffers.FullOnlyOnFirstLap | src/tusb_edpt_handler.c:30-33 | while `rptr < N`, `buffer_full` holds iff the next write slot is the read slot; once `rptr >= N` it never holds |
| RingBuffers.FullLeavesOneSlotFree | src/tusb_edpt_handler.c:30-33 | on the first lap, with the cursors less than a lap apart, `buffer_full` holds iff exactly N-1 slots are occupied |
| RingBuffers.OverrunAfterFirstLap | src/tusb_edpt_handler.c:30-33 | after the first lap, N-1 occupied slots are not reported full, and the next write slot is the unread read slot |
| RingBuffers.EmptyIsSameSlot | src/tusb_edpt_handler.c:35-38 | with the cursors less than a lap apart, `buffer_empty` (equal cursors) holds iff both cursors name the same slot |
| RingBuffers.RingBuffer.constructor | src/tusb_edpt_handler.c:22-23 | a static ring: fresh N x S zeroed storage, cursors 0, both flags false |
| RingBuffers.RingBuffer.WriteIndex | src/tusb_edpt_handler.c:10 | `WR_IDX`: a slot index below N that is congruent to `wptr` |
| RingBuffers.RingBuffer.ReadIndex | src/tusb_edpt_handler.c:11 | `RD_IDX`: a slot index below N that is congruent to `rptr` |
| RingBuffers.RingBuffer.Reset | src/tusb_edpt_handler.c:91-101 | cursors become 0, `wasFull` false, `wasEmpty` true |
| RingBuffers.RingBuffer.SetCommand | src/tusb_edpt_handler.c:222-223 | only byte 0 of the chosen slot changes, to the given value |
| RingBuffers.RingBuffer.CopyOut | src/tusb_edpt_handler.c:235 | the destination holds exactly the bytes of the slot |
| RingBuffers.RingBuffer.CopyIn | src/tusb_edpt_handler.c:268-269 | the first `len` bytes of the slot become the source's, the rest of that slot and all other slots are unchanged |
| QueueScan.MarkExecute | src/tusb_edpt_handler.c:222-223 | a reclassified slot has the same length, command byte ExecuteCommands and the same payload |
| QueueScan.MarkingShrinks | src/tusb_edpt_handler.c:214-224 | each iteration of the scan removes exactly one slot from the set of queue-marked slots, so the scan terminates even when its cursor is past `wptr` |
| QueueScan.ScanRun | src/tusb_edpt_handler.c:213-232 | the scan ends at or after its start; when it stops, the slot it stops on does not hold QueueCommands; when it waits, it has advanced and sits exactly at `wptr` |
| QueueScan.ScanMarksRun | src/tusb_edpt_handler.c:213-232 | a scan from `n` to `m` reclassifies exactly the slots of positions n..m-1 and changes no other byte; every one of those slots held QueueCommands; a scan started below `wptr` that stops does so strictly below `wptr` |
| QueueScan.RestartStopsEarly | src/tusb_edpt_handler.c:213-231 | a scan that waited, if restarted from its first position, would stop there at once: this is why the cursor `n` must survive the suspension |
| QueueScan.ScanExtendsReclassified | src/tusb_edpt_handler.c:213-231 | a scan resumed after a suspension keeps every slot reclassified since the read cursor and adds the run it crosses, so the whole batch from the read cursor to the new scan cursor carries ExecuteCommands |
| QueueScan.ReadSlotReleased | src/tusb_edpt_handler.c:213-235 | once a scan has stopped, the slot at the read cursor does not hold QueueCommands: the packet copied out at line 235 has had its queue marker rewritten or never had one |
| EdptHandler.Transport.constructor | src/tusb_edpt_handler.c:16-28 | the zero-initialised statics: both rings at 0 with flags false, zeroed storage, no transfer armed, worker ready |
| EdptHandler.Transport.DriverReset | src/tusb_edpt_handler.c:44-47 | `dap_edpt_reset` clears the interface number |
| EdptHandler.Transport.DescriptorLength | src/tusb_edpt_handler.c:103-104 | `drv_len` is exactly 9 plus 7 per endpoint (quotient and zero remainder after the interface descriptor) and always fits its `uint16_t` |
| EdptHandler.Transport.Open | src/tusb_edpt_handler.c:80-131 | on a foreign class, subclass or protocol: returns 0 and changes nothing. Otherwise: both rings reset. If `max_len < drv_len`: returns 0 and arms nothing. Else: records the endpoints, arms one OUT transfer of a full packet on the request write slot, arms no IN transfer, returns `drv_len`. After the reset the worker state is coherent iff the worker was not suspended mid-scan |
| EdptHandler.Transport.ControlTransfer | src/tusb_edpt_handler.c:133-137 | every control request is declined |
| EdptHandler.Transport.TransferComplete | src/tusb_edpt_handler.c:140-198 | refuses and changes nothing when `xferred_bytes > S` or the direction is neither IN nor OUT. OUT: if not `buffer_full`, `wptr` +1, one OUT arm on the new write slot, `wasFull` false; else `wasFull` true, nothing armed; `rptr` and the response ring untouched. IN: response `rptr` +1, `wptr` untouched; if `wasEmpty` was false, one IN arm on the new read slot with `(uint16_t)_resp_len` and `wasEmpty := rptr+1 == wptr`; else nothing armed and `wasEmpty` stays true. Preserves worker coherence |
| EdptHandler.Transport.Scan | src/tusb_edpt_handler.c:213-232 | the in-place scan loop ends in the state `ScanRun` describes, with the cursor it reached and whether it must wait |
| EdptHandler.Transport.ServiceRequest | src/tusb_edpt_handler.c:206-257 | with nothing to scan: Idle (or Blocked again) and nothing changes. Else the scan reclassifies exactly the queued run it crosses, and no cursor or other byte changes. Reaching `wptr`: Blocked, suspended with the cursor at `wptr`. Otherwise: Taken, only when the scan stopped on a non-queue slot strictly below `wptr`. Then the read slot is copied into the request buffer, `rptr` +1, and a deferred OUT transfer is armed when `wasFull` was set. Preserves worker coherence: `rptr <= wptr` and, while suspended mid-scan, every slot from the read cursor up to the scan cursor already reclassified. From a coherent state the packet handed to the interpreter never carries QueueCommands |
| EdptHandler.Transport.Drain | src/tusb_edpt_handler.c:235-256 | byte-for-byte copy of the read slot, `rptr` +1. If `wasFull`: `wptr` +1, exactly one OUT arm on the new write slot, flag cleared. Otherwise nothing armed |
| EdptHandler.Transport.PublishResponse | src/tusb_edpt_handler.c:258-281 | `_resp_len` becomes the interpreter's word. The first `(uint16_t)_resp_len` response bytes are copied into the write slot, the rest of it unchanged. Response `wptr` +1, `rptr` untouched. One IN arm on the read slot with that length iff the ring was empty before; otherwise no arm and `wasEmpty` false |
| Scenarios.StaleResponseLength | src/tusb_edpt_handler.c:153-168 | after three responses of 10, 20 and 30 bytes, the first IN completion re-arms slot 1 with length 30 |
| Scenarios.QueuedBatch | src/tusb_edpt_handler.c:206-256 | two queued packets and a terminator arriving one at a time: the worker blocks twice, then hands over the three packets in order with command bytes ExecuteCommands, ExecuteCommands, 0 |

## Left out

- 32-bit wrap-around of `wptr`, `rptr`, `n` and `_resp_len`: cursors are unbounded `nat`.
- Scheduling (`vTaskSuspend`, `vTaskResume`, `vTaskSuspendAll`, `xTaskResumeAll`):
  - each callback and each worker step is one atomic method;
  - suspension is the Idle/Blocked result and the `Phase` field;
  - resuming the worker is the next call of `ServiceRequest`;
  - interleaving inside a step is not modelled.
- EdptHandler.Transport.PublishResponse: sets `_resp_len` and publishes in one step. In the
  source, an IN callback can run between line 258 and the critical section at line 265 and
  re-arm with the new length; that window is not modelled.
- The USB stack's own data movement is not modelled. It writes OUT packets into the armed
  slot and sends IN slots. Slot contents change only through the scan's rewrite and the
  response copy. The scenarios write the command byte of an arriving packet directly.
- `DAP_ExecuteCommand`, an external interpreter: its return word and the contents it leaves
  in `DAPResponseBuffer` are inputs of `PublishResponse`. The model requires, as that
  interpreter promises, that the low 16 bits of the word do not exceed the packet size.
- `tu_edpt_dir`, a tinyUSB helper: its result is the `dir` input of `TransferComplete`, so
  the default branch of the switch stays reachable. The `result` argument is ignored, as
  in the source.
- Descriptor parsing in `dap_edpt_open` (lines 109-122): class, subclass, protocol,
  interface number, `bNumEndpoints` and the two endpoint addresses are inputs. The sizes
  9 and 7 are constants. `max_len` is an unbounded `nat`.
- `usbd_edpt_open`, the `_dap_edpt_driver` table, `usbd_app_driver_get_cb` and the empty
  `dap_edpt_init`: registration with tinyUSB. `usbd_edpt_xfer` is only the `armed` log.
- The `rhport` arguments and `_rhport` (never assigned in the file): no transfer records a
  port.
- `dap_cmd_string` and the `probe_info` logging: diagnostics only.
- EdptHandler.Transport.ServiceRequest: promises `rptr <= wptr`, the strict bound on the
  scan stop and the absence of QueueCommands in the packet it hands over only from a
  coherent state. A re-open while the worker is suspended mid-scan
  leaves the scan cursor above the reset `wptr` (`Open` states exactly when). The model
  covers the worker's behaviour from there but claims no property of it.
- Because the USB stack's writes into slots are not modelled, no step can overwrite a slot
  of a batch that a suspended scan has already crossed. In the firmware that can only
  happen once the write cursor is a whole lap ahead of the read cursor, which is the overrun
  `OverrunAfterFirstLap` exhibits.
