/** What travels over the channel: the outbound packet envelope, the
    acknowledgement union and the success payloads it can carry. */
module IbcMsg {
  import opened CosmWasm

  /** The packet sent to the counterparty: an optional correlation id, the
      query's service path and the encoded query. */
  datatype PacketMsg = PacketMsg(clientId: Option<string>, path: string, data: Binary)

  /** The counterparty's reply: a success payload or an error message. A
      closed sum, so every handler matches both cases. */
  datatype PacketAck = Result(data: Binary) | Error(msg: string)

  /** The tag under which a `PacketAck` variant is written on the wire. */
  function WireTag(ack: PacketAck): (tag: string)
    ensures tag == "result" <==> ack.Result?
    ensures tag == "error" <==> ack.Error?
  {
    match ack
    case Result(_) => "result"
    case Error(_) => "error"
  }

  /** Which query an echoed packet carried, as the acknowledgement handler
      recovers it. */
  datatype GammPacket = SpotPrice | EstimateSwap

  /** Success payload of a spot-price query; the price in its decimal
      string form. */
  datatype SpotPriceAck = SpotPriceAck(price: string)

  /** Success payload of a swap estimate; the output amount as a string. */
  datatype EstimateSwapAck = EstimateSwapAck(amount: string)
}
