/**
  Byte-level view of the HCI event packets that the interrupt handler reads
  (Bluetooth Core Specification, Volume 4, Part E, section 7.7): event codes,
  command opcodes, little-endian fields, device addresses, connection handles,
  the remote-name scan and the device-type table.
 */
module Hci {

  datatype Option<T> = None | Some(value: T)

  function Max(a: int, b: int): int { if a < b then b else a }

  /** A Bluetooth device address (BD_ADDR): six bytes as they stand in the packet. */
  type BdAddr = a: seq<bv8> | |a| == 6 witness [0, 0, 0, 0, 0, 0]

  /** The six address bytes that start at offset `off`. */
  function AddrAt(buf: seq<bv8>, off: nat): (a: BdAddr)
    requires off + 6 <= |buf|
    ensures forall i :: 0 <= i < 6 ==> a[i] == buf[off + i]
  {
    buf[off..off + 6]
  }

  // Event codes, Bluetooth Core Specification Vol 4 Part E section 7.7.
  const ConnectionCompleteEvent: bv8 := 0x03           // 7.7.3
  const ConnectionRequestEvent: bv8 := 0x04            // 7.7.4
  const DisconnectionCompleteEvent: bv8 := 0x05        // 7.7.5
  const RemoteNameRequestCompleteEvent: bv8 := 0x07    // 7.7.7
  const CommandCompleteEvent: bv8 := 0x0E              // 7.7.14
  const CommandStatusEvent: bv8 := 0x0F                // 7.7.15

  /** A 16-bit field stored least significant byte first. */
  function Le16(lo: bv8, hi: bv8): (w: bv16)
    ensures (w & 0xFF) as bv8 == lo
    ensures (w >> 8) as bv8 == hi
  {
    ((hi as bv16) << 8) | (lo as bv16)
  }

  /** The parameterless commands of the controller bring-up sequence. */
  datatype Op =
    | Reset
    | ReadBdAddr
    | ReadBufferSize
    | ReadLocalVersionInfo
    | WriteSimplePairingMode
    | WriteSimplePairingDebugMode
    | WriteAuthenticationEnable
    | SetEventMask
    | WritePageTimeout
    | WritePageScanActivity
    | WritePageScanType
    | WriteInquiryScanActivity
    | WriteInquiryScanType
    | WriteInquiryMode
    | WriteClassOfDevice
    | WriteExtendedInquiryResponse
    | WriteLocalName
    | WriteScanEnable

  /** Opcode (OGF << 10 | OCF) of each command, Bluetooth Core Specification Vol 4 Part E section 7. */
  function Opcode(op: Op): bv16 {
    match op
    case Reset => 0x0C03
    case ReadBdAddr => 0x1009
    case ReadBufferSize => 0x1005
    case ReadLocalVersionInfo => 0x1001
    case WriteSimplePairingMode => 0x0C56
    case WriteSimplePairingDebugMode => 0x1804
    case WriteAuthenticationEnable => 0x0C20
    case SetEventMask => 0x0C01
    case WritePageTimeout => 0x0C18
    case WritePageScanActivity => 0x0C1C
    case WritePageScanType => 0x0C47
    case WriteInquiryScanActivity => 0x0C1E
    case WriteInquiryScanType => 0x0C43
    case WriteInquiryMode => 0x0C45
    case WriteClassOfDevice => 0x0C24
    case WriteExtendedInquiryResponse => 0x0C52
    case WriteLocalName => 0x0C13
    case WriteScanEnable => 0x0C1A
  }

  /** Which bring-up command, if any, an opcode names. */
  function OpOf(code: bv16): (r: Option<Op>)
    ensures forall op: Op :: r == Some(op) <==> Opcode(op) == code
  {
    if code == 0x0C03 then Some(Reset)
    else if code == 0x1009 then Some(ReadBdAddr)
    else if code == 0x1005 then Some(ReadBufferSize)
    else if code == 0x1001 then Some(ReadLocalVersionInfo)
    else if code == 0x0C56 then Some(WriteSimplePairingMode)
    else if code == 0x1804 then Some(WriteSimplePairingDebugMode)
    else if code == 0x0C20 then Some(WriteAuthenticationEnable)
    else if code == 0x0C01 then Some(SetEventMask)
    else if code == 0x0C18 then Some(WritePageTimeout)
    else if code == 0x0C1C then Some(WritePageScanActivity)
    else if code == 0x0C47 then Some(WritePageScanType)
    else if code == 0x0C1E then Some(WriteInquiryScanActivity)
    else if code == 0x0C43 then Some(WriteInquiryScanType)
    else if code == 0x0C45 then Some(WriteInquiryMode)
    else if code == 0x0C24 then Some(WriteClassOfDevice)
    else if code == 0x0C52 then Some(WriteExtendedInquiryResponse)
    else if code == 0x0C13 then Some(WriteLocalName)
    else if code == 0x0C1A then Some(WriteScanEnable)
    else None
  }

  /** The opcode of a Command Complete event: bytes 3 and 4 (section 7.7.14). */
  function CompleteOpcode(buf: seq<bv8>): (code: bv16)
    requires 5 <= |buf|
    ensures (code & 0xFF) as bv8 == buf[3] && (code >> 8) as bv8 == buf[4]
  {
    Le16(buf[3], buf[4])
  }

  /** The opcode of a Command Status event: bytes 4 and 5 (section 7.7.15). */
  function StatusOpcode(buf: seq<bv8>): (code: bv16)
    requires 6 <= |buf|
    ensures (code & 0xFF) as bv8 == buf[4] && (code >> 8) as bv8 == buf[5]
  {
    Le16(buf[4], buf[5])
  }

  /** An ACL connection handle as the driver stores it: two bytes. */
  datatype Handle = Handle(lsb: bv8, msb: bv8)

  /** The tag bit this controller family sets in the high byte of every ACL handle. */
  const HandleTag: bv8 := 0x20

  /**
    The handle of a Connection Complete or Disconnection Complete event:
    bytes 3 and 4, with the tag bit forced on in the high byte.
   */
  function HandleAt(buf: seq<bv8>): (h: Handle)
    requires 5 <= |buf|
    ensures h.lsb == buf[3]
    ensures h.msb & HandleTag == HandleTag
    ensures h.msb & !HandleTag == buf[4] & !HandleTag
  {
    Handle(buf[3], buf[4] | HandleTag)
  }

  /** The kinds of controller the driver recognises from a remote name. */
  datatype DeviceType = Ps3DualShock | Ps3Navigation | Ps3Motion | Ps4DualShock

  /** The first letter of the remote name each kind announces. */
  function TypeLetter(t: DeviceType): bv8 {
    match t
    case Ps3DualShock => 0x50   // 'P', "PLAYSTATION(R)3 Controller"
    case Ps3Navigation => 0x4E  // 'N', "Navigation Controller"
    case Ps3Motion => 0x4D      // 'M', "Motion Controller"
    case Ps4DualShock => 0x57   // 'W', "Wireless Controller"
  }

  /** Classification of a remote name by its first byte; any other byte gives no type. */
  function DeviceTypeOf(first: bv8): (r: Option<DeviceType>)
    ensures forall t: DeviceType :: r == Some(t) <==> TypeLetter(t) == first
  {
    if first == 0x50 then Some(Ps3DualShock)
    else if first == 0x4E then Some(Ps3Navigation)
    else if first == 0x4D then Some(Ps3Motion)
    else if first == 0x57 then Some(Ps4DualShock)
    else None
  }

  /**
    The remote name of a Remote Name Request Complete event starts at byte 9.
    Scanning from candidate length `k`, the length grows while byte `8 + length`
    is nonzero and `8 + length` is below the transferred count `n`; the byte is
    read before the count is compared, so the scan may read byte `n`.
   */
  function NameLengthFrom(buf: seq<bv8>, n: nat, k: nat): (r: nat)
    requires 1 <= k && 8 + k < |buf| && n < |buf|
    ensures k <= r && 8 + r < |buf|
    ensures buf[8 + r] == 0 || n <= 8 + r
    ensures forall p :: 8 + k <= p < 8 + r ==> buf[p] != 0 && p < n
    decreases |buf| - k
  {
    if buf[8 + k] != 0 && 8 + k < n then
      NameLengthFrom(buf, n, k + 1)
    else k
  }

  /**
    The name length the handler computes: at least one, at most `max(1, n - 8)`,
    every name byte before the last is nonzero, and the last is either the
    first null byte (which is counted) or byte `n`.
   */
  function NameLength(buf: seq<bv8>, n: nat): (length: nat)
    requires 12 <= |buf| && n < |buf|
    ensures 1 <= length <= Max(1, n - 8)
    ensures 9 + length <= |buf|
    ensures buf[8 + length] == 0 || n <= 8 + length
    ensures forall p :: 9 <= p < 8 + length ==> buf[p] != 0
  {
    var r := NameLengthFrom(buf, n, 1);
    assert r > 1 ==> buf[7 + r] != 0 && 7 + r < n;
    r
  }

  /** The name-length loop of the Remote Name Request Complete branch. */
  method ScanNameLength(buf: seq<bv8>, n: nat) returns (length: nat)
    requires 12 <= |buf| && n < |buf|
    ensures length == NameLength(buf, n)
  {
    length := 1;
    while buf[length + 8] != 0 && length + 8 < n
      invariant 1 <= length && length + 8 < |buf|
      invariant NameLengthFrom(buf, n, length) == NameLengthFrom(buf, n, 1)
      decreases |buf| - length
    {
      length := length + 1;
    }
  }
}
