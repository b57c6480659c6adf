/** The messages callers send to the contract and the answers to queries. */
module Msg {
  import opened CosmWasm
  import opened State

  /** Ask the pool for the spot price of `tokenIn` in `tokenOut`. `timeout`
      is the packet's lifetime in seconds; when absent the default applies. */
  datatype SpotPriceMsg = SpotPriceMsg(
    channel: string,
    pool: nat,
    tokenIn: string,
    tokenOut: string,
    timeout: Option<u64>)

  /** Ask the pool how much `tokenOut` swapping `amount` would yield. */
  datatype EstimateSwapMsg = EstimateSwapMsg(
    channel: string,
    sender: string,
    pool: nat,
    amount: string,
    tokenOut: string,
    timeout: Option<u64>)

  datatype ExecuteMsg =
    | SpotPrice(spotPrice: SpotPriceMsg)
    | EstimateSwap(estimateSwap: EstimateSwapMsg)
    | JunoHalt(channel: string)
  {
    /** The channel the request is to be sent over. */
    function TargetChannel(): string {
      match this
      case SpotPrice(m) => m.channel
      case EstimateSwap(m) => m.channel
      case JunoHalt(c) => c
    }
  }

  datatype QueryMsg = ListAccounts | Account(channelId: string)

  datatype AccountInfo = AccountInfo(channelId: string, lastUpdateTime: Timestamp, remoteSpotPrice: string)

  /** `AccountInfo::convert`: the record, labelled with its channel id. */
  function Convert(channelId: string, input: AccountData): (info: AccountInfo)
    ensures info.channelId == channelId
    ensures AccountData(info.lastUpdateTime, info.remoteSpotPrice) == input
  {
    AccountInfo(channelId, input.lastUpdateTime, input.remoteSpotPrice)
  }

  datatype AccountResponse = AccountResponse(lastUpdateTime: Timestamp, remoteSpotPrice: string)

  /** `From<AccountData> for AccountResponse`: the record, field for field. */
  function FromAccountData(input: AccountData): (response: AccountResponse)
    ensures AccountData(response.lastUpdateTime, response.remoteSpotPrice) == input
  {
    AccountResponse(input.lastUpdateTime, input.remoteSpotPrice)
  }

  datatype ListAccountsResponse = ListAccountsResponse(accounts: seq<AccountInfo>)
}
