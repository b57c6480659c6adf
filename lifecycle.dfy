/** The contract as the host drives it: one event at a time, each against
    the store left by the previous one, a failed event leaving the store as
    it was. The per-channel invariant is that a channel has an account
    exactly when its last lifecycle event was a connect. */
module Lifecycle {
  import opened CosmWasm
  import opened State
  import opened IbcMsg
  import opened Wire
  import opened Msg
  import Ibc
  import Contract

  datatype Event =
    | ChannelOpen(openMsg: IbcChannelOpenMsg)
    | ChannelConnect(connectMsg: IbcChannelConnectMsg)
    | ChannelClose(closeMsg: IbcChannelCloseMsg)
    | PacketAck(env: Env, ackMsg: IbcPacketAckMsg)
    | PacketTimeout(timeoutMsg: IbcPacketTimeoutMsg)
    | PacketReceive(receiveMsg: IbcPacketReceiveMsg)
    | Execute(env: Env, executeMsg: ExecuteMsg)
    | Query(queryMsg: QueryMsg)

  /** The store after one event. Only connect, close and acknowledgements
      write; the handshake gate, timeouts, inbound packets, the dispatch
      handlers and the queries are read-only. */
  function Step(codec: Codec, m: map<string, AccountData>, e: Event): map<string, AccountData> {
    match e
    case ChannelConnect(msg) => Ibc.ConnectOutcome(m, msg)
    case ChannelClose(msg) => Ibc.CloseOutcome(m, msg)
    case PacketAck(env, msg) => Ibc.PacketAckOutcome(codec, m, env, msg).accounts
    case _ => m
  }

  /** The store after a sequence of events, starting from an empty one. */
  function Run(codec: Codec, events: seq<Event>): map<string, AccountData>
    decreases |events|
  {
    if events == [] then map[]
    else Step(codec, Run(codec, events[..|events| - 1]), events[|events| - 1])
  }

  predicate IsConnectOf(e: Event, id: string) {
    e.ChannelConnect? && Ibc.ConnectMsgChannel(e.connectMsg).endpoint.channelId == id
  }

  /** Among `events`, the last connect or close of channel `id` is a connect. */
  predicate ConnectedAfter(events: seq<Event>, id: string)
    decreases |events|
  {
    if events == [] then false
    else
      var e := events[|events| - 1];
      if IsConnectOf(e, id) then true
      else if e.ChannelClose? && Ibc.CloseMsgChannel(e.closeMsg).endpoint.channelId == id then false
      else ConnectedAfter(events[..|events| - 1], id)
  }

  /** An account for a channel exists if and only if the channel has been
      connected and not closed since. */
  lemma {:induction false} AccountIffConnected(codec: Codec, events: seq<Event>, id: string)
    ensures id in Run(codec, events) <==> ConnectedAfter(events, id)
    decreases |events|
  {
    if events != [] {
      AccountIffConnected(codec, events[..|events| - 1], id);
    }
  }

  /** Event `e` is an acknowledgement on channel `id` whose echoed packet,
      envelope and `Result` payload all decode, carrying the block time and
      the value of `record`. */
  predicate StampedBy(codec: Codec, e: Event, id: string, record: AccountData) {
    && e.PacketAck?
    && e.ackMsg.originalPacket.src.channelId == id
    && e.env.block.time == record.lastUpdateTime
    && codec.decodePacket(e.ackMsg.originalPacket.data).Some?
    && codec.decodeAck(e.ackMsg.acknowledgement.data).Some?
    && codec.decodeAck(e.ackMsg.acknowledgement.data).value.Result?
    && Ibc.DecodeResultValue(codec, codec.decodePacket(e.ackMsg.originalPacket.data).value,
                             codec.decodeAck(e.ackMsg.acknowledgement.data).value.data) == Ok(record.remoteSpotPrice)
  }

  /** Every stored record is either the default or was written, both fields
      at once, by a decoded `Result` acknowledgement on that channel that
      came after the channel's last connect. */
  lemma {:induction false} StampComesFromAck(codec: Codec, events: seq<Event>, id: string)
    requires id in Run(codec, events)
    ensures Run(codec, events)[id] == DefaultAccountData() ||
      exists i :: 0 <= i < |events| && StampedBy(codec, events[i], id, Run(codec, events)[id]) &&
        forall j :: i < j < |events| ==> !IsConnectOf(events[j], id)
    decreases |events|
  {
    var prefix := events[..|events| - 1];
    var e := events[|events| - 1];
    var before := Run(codec, prefix);
    var after := Run(codec, events);
    if after[id] != DefaultAccountData() {
      assert !IsConnectOf(e, id);
      if id in before && after[id] == before[id] {
        StampComesFromAck(codec, prefix, id);
        if before[id] != DefaultAccountData() {
          var i :| 0 <= i < |prefix| && StampedBy(codec, prefix[i], id, before[id]) &&
            forall j :: i < j < |prefix| ==> !IsConnectOf(prefix[j], id);
          assert events[i] == prefix[i];
          forall j | i < j < |events|
            ensures !IsConnectOf(events[j], id)
          {
            if j < |prefix| {
              assert events[j] == prefix[j];
            }
          }
        }
      } else {
        assert e.PacketAck?;
        var o := Ibc.PacketAckOutcome(codec, before, e.env, e.ackMsg);
        assert o.accounts == after;
        assert id == e.ackMsg.originalPacket.src.channelId;
        var kind := codec.decodePacket(e.ackMsg.originalPacket.data).value;
        var ack := codec.decodeAck(e.ackMsg.acknowledgement.data).value;
        var value := Ibc.DecodeResultValue(codec, kind, ack.data).value;
        assert after[id] == AccountData(e.env.block.time, value);
        assert StampedBy(codec, events[|events| - 1], id, after[id]);
      }
    }
  }

  /** Echo correlation: when the decoder recognises the packet that
      `handle_spot_price` sent as a spot-price query, a result
      acknowledgement for it stamps that channel's record with the block
      time and the decoded price, and changes nothing else. */
  lemma SpotPriceRoundTrip(codec: Codec, store: AccountStore, env: Env, msg: SpotPriceMsg, port: string,
                           ackEnv: Env, ackData: Binary, payload: Binary, price: string, dest: IbcEndpoint, sequence: nat)
    requires msg.channel in store.accounts
    requires codec.decodePacket(codec.encodePacket(Contract.RequestPacket(codec, Contract.SpotPriceRequest(msg)))) == Some(GammPacket.SpotPrice)
    requires codec.decodeAck(ackData) == Some(Result(payload))
    requires codec.decodeSpotPriceAck(payload) == Some(SpotPriceAck(price))
    ensures Contract.HandleSpotPrice(codec, store, env, msg).Ok?
    ensures var sent := Contract.HandleSpotPrice(codec, store, env, msg).value.messages[0];
      var ackMsg := IbcPacketAckMsg(IbcAcknowledgement(ackData),
                                    IbcPacket(sent.data, IbcEndpoint(port, sent.channelId), dest, sequence));
      Ibc.PacketAckOutcome(codec, store.accounts, ackEnv, ackMsg) ==
        Ibc.Outcome(Ok(Response([], [Attribute("action", "receive_spot_price"), Attribute("amount", price)])),
                    store.accounts[msg.channel := AccountData(ackEnv.block.time, price)])
  {
  }

  /** The same correlation for `handle_estimate_swap` and the swap amount. */
  lemma EstimateSwapRoundTrip(codec: Codec, store: AccountStore, env: Env, msg: EstimateSwapMsg, port: string,
                              ackEnv: Env, ackData: Binary, payload: Binary, amount: string, dest: IbcEndpoint, sequence: nat)
    requires msg.channel in store.accounts
    requires codec.decodePacket(codec.encodePacket(Contract.RequestPacket(codec, Contract.EstimateSwapRequest(msg)))) == Some(GammPacket.EstimateSwap)
    requires codec.decodeAck(ackData) == Some(Result(payload))
    requires codec.decodeEstimateSwapAck(payload) == Some(EstimateSwapAck(amount))
    ensures Contract.HandleEstimateSwap(codec, store, env, msg).Ok?
    ensures var sent := Contract.HandleEstimateSwap(codec, store, env, msg).value.messages[0];
      var ackMsg := IbcPacketAckMsg(IbcAcknowledgement(ackData),
                                    IbcPacket(sent.data, IbcEndpoint(port, sent.channelId), dest, sequence));
      Ibc.PacketAckOutcome(codec, store.accounts, ackEnv, ackMsg) ==
        Ibc.Outcome(Ok(Response([], [Attribute("action", "receive_estimate_swap"), Attribute("amount", amount)])),
                    store.accounts[msg.channel := AccountData(ackEnv.block.time, amount)])
  {
  }

  /** A node-info probe carries no query the acknowledgement handler knows:
      for a decoder that rejects the probe's packet, every acknowledgement
      of it fails the event and leaves the store as it was. */
  lemma NodeInfoAckRejected(codec: Codec, store: AccountStore, env: Env, channel: string, port: string,
                            ackEnv: Env, ackData: Binary, dest: IbcEndpoint, sequence: nat)
    requires channel in store.accounts
    requires codec.decodePacket(codec.encodePacket(PacketMsg(None, Contract.GET_NODE_INFO_PATH, []))) == None
    ensures Contract.HandleJunoHalt(codec, store, env, channel).Ok?
    ensures var sent := Contract.HandleJunoHalt(codec, store, env, channel).value.messages[0];
      var ackMsg := IbcPacketAckMsg(IbcAcknowledgement(ackData),
                                    IbcPacket(sent.data, IbcEndpoint(port, sent.channelId), dest, sequence));
      Ibc.PacketAckOutcome(codec, store.accounts, ackEnv, ackMsg) == Ibc.Outcome(Err(ParseErr("PacketMsg")), store.accounts)
  {
  }

  /** The handshake and query flow of the contract's own tests, continued
      with a result acknowledgement, an error acknowledgement and a close. */
  method ProperHandshakeFlow(codec: Codec, time: Timestamp, packetData: Binary,
                             resultAck: Binary, payload: Binary, errorAck: Binary)
    requires codec.decodePacket(packetData) == Some(GammPacket.SpotPrice)
    requires codec.decodeAck(resultAck) == Some(Result(payload))
    requires codec.decodeSpotPriceAck(payload) == Some(SpotPriceAck("1.50"))
    requires codec.decodeAck(errorAck) == Some(Error("timeout"))
  {
    var store := new AccountStore();
    var channel := IbcChannel(IbcEndpoint("wasm.contract", "channel-1234"), IbcEndpoint("icqhost", "channel-7"),
                              Unordered, "cw-query-1", "connection-2");
    assert Ibc.IbcChannelOpen(OpenInit(channel)).Ok?;
    assert Ibc.IbcChannelOpen(OpenTry(channel.(order := Ordered), "cw-query-1")).Err?;
    assert Ibc.IbcChannelOpen(OpenTry(channel.(version := "reflect"), "cw-query-1")).Err?;

    var connected := Ibc.IbcChannelConnect(store, OpenAck(channel.(order := Ordered), "cw-query-1"));
    assert connected.Ok? && connected.value.messages == [];
    assert Contract.QueryAccount(store, "channel-1234") == Ok(AccountResponse(Timestamp(0), ""));

    var env := Env(BlockInfo(12345, time, "osmo-test"));
    var unknown := ExecuteMsg.SpotPrice(SpotPriceMsg("channel-xyz", 1, "uosmo", "uatom", None));
    assert Contract.Execute(codec, store, env, unknown) == Err(GenericErr("Channel not found"));

    var packet := IbcPacket(packetData, channel.endpoint, channel.counterpartyEndpoint, 1);
    var acked := Ibc.IbcPacketAck(codec, store, env, IbcPacketAckMsg(IbcAcknowledgement(resultAck), packet));
    assert acked.Ok?;
    assert Contract.QueryAccount(store, "channel-1234") == Ok(AccountResponse(time, "1.50"));

    acked := Ibc.IbcPacketAck(codec, store, env, IbcPacketAckMsg(IbcAcknowledgement(errorAck), packet));
    assert acked.Ok?;
    assert Contract.QueryAccount(store, "channel-1234") == Ok(AccountResponse(time, "1.50"));

    var closed := Ibc.IbcChannelClose(store, CloseConfirm(channel));
    assert Contract.QueryAccount(store, "channel-1234").Err?;
  }
}
