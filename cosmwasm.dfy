/** Stand-ins for the host library types the contract is written against
    (cosmwasm_std). Only the fields the contract reads or writes are kept. */
module CosmWasm {

  /** An unsigned byte, the unit of `Binary`. */
  newtype byte = x: int | 0 <= x < 256

  /** Opaque serialized data (`cosmwasm_std::Binary`). */
  type Binary = seq<byte>

  /** Rust's `u64`, the width of the caller-supplied packet lifetime. */
  newtype u64 = x: int | 0 <= x < 0x1_0000_0000_0000_0000

  datatype Option<T> = None | Some(value: T)

  /** The contract's error values. `Panic` stands for an aborted call
      (`unimplemented!()`), which the host reports as a failed call. */
  datatype StdError =
    | GenericErr(msg: string)
    | NotFound(kind: string)
    | ParseErr(targetType: string)
    | Panic(msg: string)

  /** `StdResult<T>`. */
  datatype Result<T> = Ok(value: T) | Err(error: StdError)

  const NANOS_PER_SECOND: nat := 1_000_000_000

  /** A point in time, in nanoseconds since the Unix epoch. */
  datatype Timestamp = Timestamp(nanos: nat)
  {
    function PlusSeconds(seconds: nat): Timestamp {
      Timestamp(nanos + seconds * NANOS_PER_SECOND)
    }
  }

  datatype BlockInfo = BlockInfo(height: nat, time: Timestamp, chainId: string)

  /** The environment of one call; only the block time is ever read. */
  datatype Env = Env(block: BlockInfo)

  datatype Attribute = Attribute(key: string, value: string)

  datatype IbcOrder = Unordered | Ordered

  datatype IbcEndpoint = IbcEndpoint(portId: string, channelId: string)

  datatype IbcChannel = IbcChannel(
    endpoint: IbcEndpoint,
    counterpartyEndpoint: IbcEndpoint,
    order: IbcOrder,
    version: string,
    connectionId: string)

  /** The two handshake steps that reach `ibc_channel_open`; only the
      second one carries the counterparty's version. */
  datatype IbcChannelOpenMsg =
    | OpenInit(channel: IbcChannel)
    | OpenTry(channel: IbcChannel, counterpartyVersion: string)
  {
    function CounterpartyVersion(): Option<string> {
      match this
      case OpenInit(_) => None
      case OpenTry(_, version) => Some(version)
    }
  }

  datatype IbcChannelConnectMsg =
    | OpenAck(channel: IbcChannel, counterpartyVersion: string)
    | OpenConfirm(channel: IbcChannel)

  datatype IbcChannelCloseMsg =
    | CloseInit(channel: IbcChannel)
    | CloseConfirm(channel: IbcChannel)

  datatype IbcPacket = IbcPacket(data: Binary, src: IbcEndpoint, dest: IbcEndpoint, sequence: nat)

  datatype IbcAcknowledgement = IbcAcknowledgement(data: Binary)

  datatype IbcPacketAckMsg = IbcPacketAckMsg(acknowledgement: IbcAcknowledgement, originalPacket: IbcPacket)

  datatype IbcPacketTimeoutMsg = IbcPacketTimeoutMsg(packet: IbcPacket)

  datatype IbcPacketReceiveMsg = IbcPacketReceiveMsg(packet: IbcPacket)

  /** An outbound message; the timeout is an absolute timestamp. */
  datatype IbcMsg = SendPacket(channelId: string, data: Binary, timeout: Timestamp)

  /** `Response`, `IbcBasicResponse` and `IbcReceiveResponse` alike: the
      messages to dispatch and the attributes to log. */
  datatype Response = Response(messages: seq<IbcMsg>, attributes: seq<Attribute>)
}
