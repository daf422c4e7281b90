/** Stand-ins for the library types the managers and services consume:
    received network messages, device descriptors, wire messages and status
    updates. Only the fields the modelled code reads are kept; how the library
    frames or parses messages is not modelled. */
module MoppyCore {
  import opened Common

  /** Command bytes, as Java's signed `byte` constants: SYS_PING = 0x80,
      SYS_PONG = 0x81, DEV_PLAYNOTE = 0xF1. The code only compares them. */
  const SYS_PING: JByte := -128
  const SYS_PONG: JByte := -127
  const DEV_PLAYNOTE: JByte := -15

  /** A message as a bridge delivered it: the bridge's network identifier, the
      remote peer, and what the library reports of the message itself. */
  datatype ReceivedMessage = ReceivedMessage(
    networkId: string,
    remoteId: string,
    isSystem: bool,
    command: JByte,
    payload: seq<JByte>)

  /** A device: where it answered from, its address and its sub-address range.
      Two descriptors are the same device exactly when all four fields agree. */
  datatype DeviceDescriptor = DeviceDescriptor(
    networkAddress: string,
    deviceAddress: JByte,
    minSubAddress: JByte,
    maxSubAddress: JByte)

  /** An outgoing message: its command byte and its whole byte frame. */
  datatype WireMessage = WireMessage(command: JByte, bytes: seq<JByte>)

  datatype UpdateType =
    | SequenceStart
    | SequencePause
    | SequenceStopped
    | SequenceEnd
    | SequenceTempoChange
    | NetStatusChanged
    | NetDevicesChanged

  /** A status-bus update: its type and its optional payload (a tempo). */
  datatype StatusUpdate = StatusUpdate(kind: UpdateType, data: Option<real>)

  const DEVICES_CHANGED: StatusUpdate := StatusUpdate(NetDevicesChanged, None)
  const STATUS_CHANGED: StatusUpdate := StatusUpdate(NetStatusChanged, None)

  /** `n` copies of the same update, as a run of publications. */
  function Repeated(u: StatusUpdate, n: nat): (r: seq<StatusUpdate>)
    ensures |r| == n && forall i :: 0 <= i < n ==> r[i] == u
  {
    seq(n, _ => u)
  }
}
