/** The encoders and decoders the contract calls but does not define: the
    Osmosis request messages with their protobuf encoding and service
    paths, and the JSON encoding of packets and acknowledgements. They are
    parameters of the model, so every property holds whatever they do; a
    decoder returns `None` where the library reports a parse error. */
module Wire {
  import opened CosmWasm
  import opened IbcMsg

  datatype SwapAmountInRoute = SwapAmountInRoute(poolId: nat, tokenOutDenom: string)

  /** The two Osmosis query requests, by their field values. */
  datatype OsmoRequest =
    | QuerySpotPriceRequest(poolId: nat, tokenInDenom: string, tokenOutDenom: string, withSwapFee: bool)
    | QuerySwapExactAmountInRequest(sender: string, poolId: nat, tokenIn: string, routes: seq<SwapAmountInRoute>)

  datatype Codec = Codec(
    /** `ProtoUrl::path` of a request. */
    requestPath: OsmoRequest -> string,
    /** `MessageExt::to_bytes` of a request. */
    requestBytes: OsmoRequest -> Binary,
    /** `to_binary` of a packet. */
    encodePacket: PacketMsg -> Binary,
    /** `from_slice` of an echoed packet, down to the query it carried. */
    decodePacket: Binary -> Option<GammPacket>,
    /** `from_binary` of an acknowledgement. */
    decodeAck: Binary -> Option<PacketAck>,
    decodeSpotPriceAck: Binary -> Option<SpotPriceAck>,
    decodeEstimateSwapAck: Binary -> Option<EstimateSwapAck>)
}
