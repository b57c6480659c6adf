/** The channel entry points: the handshake gate, connect and close, and the
    processing of acknowledgements and timeouts of packets sent earlier. */
module Ibc {
  import opened CosmWasm
  import opened State
  import opened IbcMsg
  import opened Wire

  const GAMM_VERSION: string := "cw-query-1"
  const GAMM_ORDERING: IbcOrder := Unordered

  /** Default packet lifetime in seconds: one hour. */
  const DEFAULT_PACKET_LIFETIME: nat := 60 * 60

  /** `ibc_channel_open`: accept only unordered channels at version
      `cw-query-1`, and a counterparty version, when one is given, that is
      also `cw-query-1`. The checks run in that order. */
  function IbcChannelOpen(msg: IbcChannelOpenMsg): (r: Result<()>)
    ensures r.Ok? <==>
      msg.channel.order == Unordered && msg.channel.version == "cw-query-1" &&
      (msg.CounterpartyVersion().None? || msg.CounterpartyVersion() == Some("cw-query-1"))
    ensures msg.channel.order != Unordered ==>
      r == Err(GenericErr("Only supports unordered channels"))
    ensures msg.channel.order == Unordered && msg.channel.version != "cw-query-1" ==>
      r == Err(GenericErr("Must set version to `" + GAMM_VERSION + "`"))
    ensures msg.channel.order == Unordered && msg.channel.version == "cw-query-1" && r.Err? ==>
      r == Err(GenericErr("Counterparty version must be `" + GAMM_VERSION + "`"))
  {
    var channel := msg.channel;
    if channel.order != GAMM_ORDERING then
      Err(GenericErr("Only supports unordered channels"))
    else if channel.version != GAMM_VERSION then
      Err(GenericErr("Must set version to `" + GAMM_VERSION + "`"))
    else
      match msg.CounterpartyVersion()
      case Some(version) =>
        if version != GAMM_VERSION then
          Err(GenericErr("Counterparty version must be `" + GAMM_VERSION + "`"))
        else
          Ok(())
      case None => Ok(())
  }

  function ConnectMsgChannel(msg: IbcChannelConnectMsg): IbcChannel {
    match msg
    case OpenAck(channel, _) => channel
    case OpenConfirm(channel) => channel
  }

  function CloseMsgChannel(msg: IbcChannelCloseMsg): IbcChannel {
    match msg
    case CloseInit(channel) => channel
    case CloseConfirm(channel) => channel
  }

  /** The store after `ibc_channel_connect`: the channel holds a fresh
      default record, whatever it held before; no other key changes. */
  function ConnectOutcome(m: map<string, AccountData>, msg: IbcChannelConnectMsg): (m': map<string, AccountData>)
    ensures var id := ConnectMsgChannel(msg).endpoint.channelId;
      m'.Keys == m.Keys + {id} && m'[id] == DefaultAccountData() &&
      forall k :: k != id ==> Lookup(m', k) == Lookup(m, k)
  {
    m[ConnectMsgChannel(msg).endpoint.channelId := DefaultAccountData()]
  }

  /** The store after `ibc_channel_close`: the channel has no record,
      whether or not it had one; no other key changes. */
  function CloseOutcome(m: map<string, AccountData>, msg: IbcChannelCloseMsg): (m': map<string, AccountData>)
    ensures var id := CloseMsgChannel(msg).endpoint.channelId;
      m'.Keys == m.Keys - {id} &&
      forall k :: k != id ==> Lookup(m', k) == Lookup(m, k)
  {
    m - {CloseMsgChannel(msg).endpoint.channelId}
  }

  /** `ibc_channel_connect`: (re)create an empty account for the channel. */
  method IbcChannelConnect(store: AccountStore, msg: IbcChannelConnectMsg) returns (r: Result<Response>)
    modifies store
    ensures store.accounts == ConnectOutcome(old(store.accounts), msg)
    ensures var id := ConnectMsgChannel(msg).endpoint.channelId;
      r == Ok(Response([], [Attribute("action", "ibc_connect"), Attribute("channel_id", id)]))
  {
    var channelId := ConnectMsgChannel(msg).endpoint.channelId;
    var data := DefaultAccountData();
    store.Save(channelId, data);
    r := Ok(Response([], [Attribute("action", "ibc_connect"), Attribute("channel_id", channelId)]));
  }

  /** `ibc_channel_close`: forget the channel's account, if it has one. */
  method IbcChannelClose(store: AccountStore, msg: IbcChannelCloseMsg) returns (r: Result<Response>)
    modifies store
    ensures store.accounts == CloseOutcome(old(store.accounts), msg)
    ensures var id := CloseMsgChannel(msg).endpoint.channelId;
      r == Ok(Response([], [Attribute("action", "ibc_close"), Attribute("channel_id", id)]))
  {
    var channelId := CloseMsgChannel(msg).endpoint.channelId;
    store.Remove(channelId);
    r := Ok(Response([], [Attribute("action", "ibc_close"), Attribute("channel_id", channelId)]));
  }

  /** `ibc_packet_receive`: the counterparty never sends packets, and the
      entry point aborts every call. */
  function IbcPacketReceive(msg: IbcPacketReceiveMsg): (r: Result<Response>)
    ensures r.Err?
  {
    Err(Panic("not implemented"))
  }

  /** `ibc_packet_timeout`: log and do nothing else. */
  function IbcPacketTimeout(msg: IbcPacketTimeoutMsg): (r: Result<Response>)
    ensures r.Ok? && r.value.messages == []
  {
    Ok(Response([], [Attribute("action", "ibc_packet_timeout")]))
  }

  /** The result of processing one acknowledgement: the handler's return
      value and the store's contents afterwards. */
  datatype Outcome = Outcome(result: Result<Response>, accounts: map<string, AccountData>)

  function ReceiveAction(kind: GammPacket): string {
    match kind
    case SpotPrice => "receive_spot_price"
    case EstimateSwap => "receive_estimate_swap"
  }

  /** Decode a success payload by the schema of the query that was sent,
      down to the string stored as the remote value. */
  function DecodeResultValue(codec: Codec, kind: GammPacket, data: Binary): Result<string> {
    match kind
    case SpotPrice =>
      (match codec.decodeSpotPriceAck(data)
       case Some(result) => Ok(result.price)
       case None => Err(ParseErr("SpotPriceAck")))
    case EstimateSwap =>
      (match codec.decodeEstimateSwapAck(data)
       case Some(result) => Ok(result.amount)
       case None => Err(ParseErr("EstimateSwapAck")))
  }

  /** The closure passed to `update` on a success payload: there must be an
      account, and both its fields are replaced. */
  function Stamp(time: Timestamp, value: string, orig: Option<AccountData>): (r: Result<AccountData>)
    ensures orig.None? ==> r == Err(GenericErr("no account to update"))
    ensures orig.Some? ==> r == Ok(AccountData(time, value))
  {
    match orig
    case None => Err(GenericErr("no account to update"))
    case Some(account) => Ok(account.(lastUpdateTime := time, remoteSpotPrice := value))
  }

  /** What `acknowledge_spot_price_result` and
      `acknowledge_estimate_swap_result` do to the store `m`, for the query
      `kind` that was sent from channel `caller`. */
  function AcknowledgeOutcome(codec: Codec, kind: GammPacket, m: map<string, AccountData>, env: Env,
                              caller: string, ack: PacketAck): (o: Outcome)
    // an Error ack is absorbed: success, nothing written
    ensures ack.Error? ==>
      o == Outcome(Ok(Response([], [Attribute("action", ReceiveAction(kind)), Attribute("error", ack.msg)])), m)
    // a payload that does not decode fails the call, nothing written
    ensures ack.Result? && DecodeResultValue(codec, kind, ack.data).Err? ==>
      o == Outcome(Err(DecodeResultValue(codec, kind, ack.data).error), m)
    // a decoded payload for a channel without an account fails, nothing written
    ensures ack.Result? && DecodeResultValue(codec, kind, ack.data).Ok? && caller !in m ==>
      o == Outcome(Err(GenericErr("no account to update")), m)
    // otherwise the caller's record is stamped with the block time and the value
    ensures ack.Result? && DecodeResultValue(codec, kind, ack.data).Ok? && caller in m ==>
      var value := DecodeResultValue(codec, kind, ack.data).value;
      o.result == Ok(Response([], [Attribute("action", ReceiveAction(kind)), Attribute("amount", value)])) &&
      o.accounts == m[caller := AccountData(env.block.time, value)]
    ensures o.result.Err? ==> o.accounts == m
    ensures o.accounts.Keys == m.Keys
  {
    match ack
    case Error(e) =>
      Outcome(Ok(Response([], [Attribute("action", ReceiveAction(kind)), Attribute("error", e)])), m)
    case Result(data) =>
      match DecodeResultValue(codec, kind, data)
      case Err(e) => Outcome(Err(e), m)
      case Ok(value) =>
        match Stamp(env.block.time, value, Lookup(m, caller))
        case Err(e) => Outcome(Err(e), m)
        case Ok(account) =>
          Outcome(Ok(Response([], [Attribute("action", ReceiveAction(kind)), Attribute("amount", value)])),
                  m[caller := account])
  }

  /** What `ibc_packet_ack` does to the store `m`: recover the query from
      the echoed packet, decode the acknowledgement, then process it. */
  function PacketAckOutcome(codec: Codec, m: map<string, AccountData>, env: Env, msg: IbcPacketAckMsg): (o: Outcome)
    ensures codec.decodePacket(msg.originalPacket.data).None? ==>
      o == Outcome(Err(ParseErr("PacketMsg")), m)
    ensures codec.decodePacket(msg.originalPacket.data).Some? && codec.decodeAck(msg.acknowledgement.data).None? ==>
      o == Outcome(Err(ParseErr("PacketAck")), m)
    ensures codec.decodePacket(msg.originalPacket.data).Some? && codec.decodeAck(msg.acknowledgement.data).Some? ==>
      o == AcknowledgeOutcome(codec, codec.decodePacket(msg.originalPacket.data).value, m, env,
                              msg.originalPacket.src.channelId, codec.decodeAck(msg.acknowledgement.data).value)
    // only the source channel's record can change, and only on success
    ensures o.result.Err? ==> o.accounts == m
    ensures o.accounts.Keys == m.Keys
    ensures forall k :: k in m && k != msg.originalPacket.src.channelId ==> o.accounts[k] == m[k]
  {
    var caller := msg.originalPacket.src.channelId;
    match codec.decodePacket(msg.originalPacket.data)
    case None => Outcome(Err(ParseErr("PacketMsg")), m)
    case Some(kind) =>
      match codec.decodeAck(msg.acknowledgement.data)
      case None => Outcome(Err(ParseErr("PacketAck")), m)
      case Some(ack) => AcknowledgeOutcome(codec, kind, m, env, caller, ack)
  }

  /** `ibc_packet_ack`. */
  method IbcPacketAck(codec: Codec, store: AccountStore, env: Env, msg: IbcPacketAckMsg) returns (r: Result<Response>)
    modifies store
    ensures var o := PacketAckOutcome(codec, old(store.accounts), env, msg);
      r == o.result && store.accounts == o.accounts
  {
    var caller := msg.originalPacket.src.channelId;
    var packet := codec.decodePacket(msg.originalPacket.data);
    if packet.None? {
      return Err(ParseErr("PacketMsg"));
    }
    var ack := codec.decodeAck(msg.acknowledgement.data);
    if ack.None? {
      return Err(ParseErr("PacketAck"));
    }
    match packet.value
    case SpotPrice =>
      r := AcknowledgeSpotPriceResult(codec, store, env, caller, ack.value);
    case EstimateSwap =>
      r := AcknowledgeEstimateSwapResult(codec, store, env, caller, ack.value);
  }

  /** `acknowledge_spot_price_result`. */
  method AcknowledgeSpotPriceResult(codec: Codec, store: AccountStore, env: Env, caller: string, ack: PacketAck)
    returns (r: Result<Response>)
    modifies store
    ensures var o := AcknowledgeOutcome(codec, SpotPrice, old(store.accounts), env, caller, ack);
      r == o.result && store.accounts == o.accounts
  {
    if ack.Error? {
      return Ok(Response([], [Attribute("action", "receive_spot_price"), Attribute("error", ack.msg)]));
    }
    var decoded := codec.decodeSpotPriceAck(ack.data);
    if decoded.None? {
      return Err(ParseErr("SpotPriceAck"));
    }
    var result := decoded.value;
    var time := env.block.time;
    var price := result.price;
    var updated := store.Update(caller, orig => Stamp(time, price, orig));
    if updated.Err? {
      return Err(updated.error);
    }
    r := Ok(Response([], [Attribute("action", "receive_spot_price"), Attribute("amount", price)]));
  }

  /** `acknowledge_estimate_swap_result`. */
  method AcknowledgeEstimateSwapResult(codec: Codec, store: AccountStore, env: Env, caller: string, ack: PacketAck)
    returns (r: Result<Response>)
    modifies store
    ensures var o := AcknowledgeOutcome(codec, EstimateSwap, old(store.accounts), env, caller, ack);
      r == o.result && store.accounts == o.accounts
  {
    if ack.Error? {
      return Ok(Response([], [Attribute("action", "receive_estimate_swap"), Attribute("error", ack.msg)]));
    }
    var decoded := codec.decodeEstimateSwapAck(ack.data);
    if decoded.None? {
      return Err(ParseErr("EstimateSwapAck"));
    }
    var result := decoded.value;
    var time := env.block.time;
    var amount := result.amount;
    var updated := store.Update(caller, orig => Stamp(time, amount, orig));
    if updated.Err? {
      return Err(updated.error);
    }
    r := Ok(Response([], [Attribute("action", "receive_estimate_swap"), Attribute("amount", amount)]));
  }
}
