/** Compile-time constants and byte-level helpers shared by the transport model. */
module DapConfig {

  /** An unsigned 8-bit value (`uint8_t`). */
  newtype byte = x: int | 0 <= x < 0x100

  /** DAP_PACKET_COUNT: slots per ring. */
  const PacketCount: nat := 8

  /** DAP_PACKET_SIZE: bytes per slot (one full-speed bulk packet). */
  const PacketSize: nat := 64

  /** CMSIS-DAP command identifiers that the transport inspects and rewrites. */
  const QueueCommands: byte := 0x7E
  const ExecuteCommands: byte := 0x7F

  /** The interface signature `dap_edpt_open` accepts. */
  const VendorSpecificClass: byte := 0xFF
  const DapSubclass: byte := 0x00
  const DapProtocol: byte := 0x00

  /** Sizes of the interface and endpoint descriptors (USB 2.0, sections 9.6.5 and 9.6.6). */
  const InterfaceDescriptorSize: nat := 9
  const EndpointDescriptorSize: nat := 7

  /** Values of `tu_edpt_dir`. */
  const DirOut: nat := 0
  const DirIn: nat := 1

  /** The `(uint16_t)` cast applied to `_resp_len`. */
  function Low16(x: nat): (r: nat)
    ensures r < 0x1_0000
    ensures x < 0x1_0000 ==> r == x
    ensures (x - r) % 0x1_0000 == 0
  {
    x % 0x1_0000
  }
}
