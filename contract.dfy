/** The contract's own entry points: the three query-dispatching handlers,
    the `execute` dispatch over them, and the two read-only queries. None
    of them writes to the store: they read it and build a response. */
module Contract {
  import opened CosmWasm
  import opened State
  import opened IbcMsg
  import opened Wire
  import opened Msg
  import Ibc
  import KeyOrder

  const GET_NODE_INFO_PATH: string := "/cosmos.base.tendermint.v1beta1.Service/GetNodeInfo"

  /** The packet lifetime in seconds: the caller's, or the default. */
  function TimeoutDelta(timeout: Option<u64>): nat {
    match timeout
    case Some(t) => t as nat
    case None => Ibc.DEFAULT_PACKET_LIFETIME
  }

  /** The envelope wrapping an Osmosis request. */
  function RequestPacket(codec: Codec, request: OsmoRequest): PacketMsg {
    PacketMsg(None, codec.requestPath(request), codec.requestBytes(request))
  }

  function SpotPriceRequest(msg: SpotPriceMsg): OsmoRequest {
    QuerySpotPriceRequest(msg.pool, msg.tokenIn, msg.tokenOut, false)
  }

  function EstimateSwapRequest(msg: EstimateSwapMsg): OsmoRequest {
    QuerySwapExactAmountInRequest(msg.sender, msg.pool, msg.amount, [SwapAmountInRoute(msg.pool, msg.tokenOut)])
  }

  /** `res` emits exactly one message, a `SendPacket` of `packet` over
      `channel` that expires `seconds` after `now`, tagged with `action`. */
  predicate SendsOnly(codec: Codec, res: Response, channel: string, packet: PacketMsg, now: Timestamp,
                      seconds: nat, action: string)
  {
    && |res.messages| == 1
    && res.messages[0].channelId == channel
    && res.messages[0].data == codec.encodePacket(packet)
    && packet.clientId == None
    && res.messages[0].timeout.nanos == now.nanos + seconds * 1_000_000_000
    && res.attributes == [Attribute("action", action)]
  }

  /** `handle_spot_price`. */
  function HandleSpotPrice(codec: Codec, store: AccountStore, env: Env, msg: SpotPriceMsg): (r: Result<Response>)
    reads store
    ensures r.Err? <==> msg.channel !in store.accounts
    ensures r.Err? ==> r.error == GenericErr("Channel not found")
    ensures r.Ok? ==>
      var seconds := if msg.timeout.Some? then msg.timeout.value as nat else 3600;
      var request := QuerySpotPriceRequest(msg.pool, msg.tokenIn, msg.tokenOut, false);
      SendsOnly(codec, r.value, msg.channel, PacketMsg(None, codec.requestPath(request), codec.requestBytes(request)),
                env.block.time, seconds, "spot_price")
  {
    if !store.Has(msg.channel) then
      Err(GenericErr("Channel not found"))
    else
      var timeout := env.block.time.PlusSeconds(TimeoutDelta(msg.timeout));
      var packet := RequestPacket(codec, SpotPriceRequest(msg));
      Ok(Response([SendPacket(msg.channel, codec.encodePacket(packet), timeout)],
                  [Attribute("action", "spot_price")]))
  }

  /** `handle_estimate_swap`. */
  function HandleEstimateSwap(codec: Codec, store: AccountStore, env: Env, msg: EstimateSwapMsg): (r: Result<Response>)
    reads store
    ensures r.Err? <==> msg.channel !in store.accounts
    ensures r.Err? ==> r.error == GenericErr("Channel not found")
    ensures r.Ok? ==>
      var seconds := if msg.timeout.Some? then msg.timeout.value as nat else 3600;
      var request := QuerySwapExactAmountInRequest(msg.sender, msg.pool, msg.amount,
                                                   [SwapAmountInRoute(msg.pool, msg.tokenOut)]);
      SendsOnly(codec, r.value, msg.channel, PacketMsg(None, codec.requestPath(request), codec.requestBytes(request)),
                env.block.time, seconds, "estimate_swap")
  {
    if !store.Has(msg.channel) then
      Err(GenericErr("Channel not found"))
    else
      var timeout := env.block.time.PlusSeconds(TimeoutDelta(msg.timeout));
      var packet := RequestPacket(codec, EstimateSwapRequest(msg));
      Ok(Response([SendPacket(msg.channel, codec.encodePacket(packet), timeout)],
                  [Attribute("action", "estimate_swap")]))
  }

  /** `handle_juno_halt`: a node-info probe with an empty body and the
      default lifetime. Its action attribute is "estimate_swap". */
  function HandleJunoHalt(codec: Codec, store: AccountStore, env: Env, channel: string): (r: Result<Response>)
    reads store
    ensures r.Err? <==> channel !in store.accounts
    ensures r.Err? ==> r.error == GenericErr("Channel not found")
    ensures r.Ok? ==>
      SendsOnly(codec, r.value, channel,
                PacketMsg(None, "/cosmos.base.tendermint.v1beta1.Service/GetNodeInfo", []),
                env.block.time, 3600, "estimate_swap")
  {
    if !store.Has(channel) then
      Err(GenericErr("Channel not found"))
    else
      var timeout := env.block.time.PlusSeconds(Ibc.DEFAULT_PACKET_LIFETIME);
      var packet := PacketMsg(None, GET_NODE_INFO_PATH, []);
      Ok(Response([SendPacket(channel, codec.encodePacket(packet), timeout)],
                  [Attribute("action", "estimate_swap")]))
  }

  /** `execute`: every request is refused unless its channel has an
      account, and an accepted one sends exactly one packet over that
      channel, expiring no earlier than the current block. */
  function Execute(codec: Codec, store: AccountStore, env: Env, msg: ExecuteMsg): (r: Result<Response>)
    reads store
    ensures r.Err? <==> msg.TargetChannel() !in store.accounts
    ensures r.Err? ==> r.error == GenericErr("Channel not found")
    ensures r.Ok? ==>
      && |r.value.messages| == 1
      && r.value.messages[0].channelId == msg.TargetChannel()
      && r.value.messages[0].timeout.nanos >= env.block.time.nanos
    ensures r.Ok? && msg.JunoHalt? ==>
      r.value.messages[0].timeout.nanos == env.block.time.nanos + 3600 * 1_000_000_000
    ensures msg.SpotPrice? ==> r == HandleSpotPrice(codec, store, env, msg.spotPrice)
    ensures msg.EstimateSwap? ==> r == HandleEstimateSwap(codec, store, env, msg.estimateSwap)
    ensures msg.JunoHalt? ==> r == HandleJunoHalt(codec, store, env, msg.channel)
  {
    match msg
    case SpotPrice(m) => HandleSpotPrice(codec, store, env, m)
    case EstimateSwap(m) => HandleEstimateSwap(codec, store, env, m)
    case JunoHalt(channel) => HandleJunoHalt(codec, store, env, channel)
  }

  /** `query_account`: the channel's record, or not-found. */
  function QueryAccount(store: AccountStore, channelId: string): (r: Result<AccountResponse>)
    reads store
    ensures r.Ok? <==> channelId in store.accounts
    ensures r.Ok? ==> AccountData(r.value.lastUpdateTime, r.value.remoteSpotPrice) == store.accounts[channelId]
    ensures r.Err? ==> r.error.NotFound?
  {
    match store.Load(channelId)
    case Ok(account) => Ok(FromAccountData(account))
    case Err(e) => Err(e)
  }

  /** The `map` step of `query_list_accounts`: label each record. */
  function ConvertAll(entries: seq<(string, AccountData)>): (infos: seq<AccountInfo>)
    ensures |infos| == |entries|
    ensures forall i :: 0 <= i < |entries| ==>
      infos[i].channelId == entries[i].0 &&
      AccountData(infos[i].lastUpdateTime, infos[i].remoteSpotPrice) == entries[i].1
  {
    seq(|entries|, i requires 0 <= i < |entries| => Convert(entries[i].0, entries[i].1))
  }

  /** The channel ids of a list of accounts, in list order. */
  function ChannelIds(infos: seq<AccountInfo>): (ids: seq<string>)
    ensures |ids| == |infos|
    ensures forall i :: 0 <= i < |infos| ==> ids[i] == infos[i].channelId
  {
    seq(|infos|, i requires 0 <= i < |infos| => infos[i].channelId)
  }

  /** `query_list_accounts`: one entry per stored channel, carrying its
      record, in ascending channel-id order. */
  function QueryListAccounts(store: AccountStore): (r: Result<ListAccountsResponse>)
    reads store
    ensures r.Ok?
    ensures |r.value.accounts| == |store.accounts|
    ensures forall i :: 0 <= i < |r.value.accounts| ==>
      var info := r.value.accounts[i];
      info.channelId in store.accounts &&
      store.accounts[info.channelId] == AccountData(info.lastUpdateTime, info.remoteSpotPrice)
    ensures forall id :: id in store.accounts <==> id in ChannelIds(r.value.accounts)
    ensures KeyOrder.Ascending(ChannelIds(r.value.accounts))
  {
    var entries := store.Range();
    var accounts := ConvertAll(entries);
    assert ChannelIds(accounts) == EntryKeys(entries);
    Ok(ListAccountsResponse(accounts))
  }

  datatype QueryResponse = AccountAnswer(account: AccountResponse) | ListAnswer(list: ListAccountsResponse)

  /** `query`: answer one of the two queries. */
  function Query(store: AccountStore, msg: QueryMsg): (r: Result<QueryResponse>)
    reads store
    ensures msg.ListAccounts? ==> r == Ok(ListAnswer(QueryListAccounts(store).value))
    ensures msg.Account? ==> (r.Ok? <==> msg.channelId in store.accounts)
    ensures msg.Account? && r.Ok? ==>
      r.value.AccountAnswer? &&
      AccountData(r.value.account.lastUpdateTime, r.value.account.remoteSpotPrice) == store.accounts[msg.channelId]
  {
    if msg.Account? then
      var answer := QueryAccount(store, msg.channelId);
      if answer.Ok? then Ok(AccountAnswer(answer.value)) else Err(answer.error)
    else
      Ok(ListAnswer(QueryListAccounts(store).value))
  }
}
