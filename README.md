# cw-osmo-price: per-channel query contract, modelled in Dafny

This project models the core of a CosmWasm contract that sends queries to an
Osmosis chain over IBC and caches the answers per channel. The queries are a
pool spot price, a swap estimate and a node-info probe. The state is one keyed
store, `ACCOUNTS_INFO`, mapping a channel id to `AccountData { last_update_time,
remote_spot_price }`. Four parts act on it:

- the handshake gate `ibc_channel_open`. It accepts only unordered channels at
  version `cw-query-1`, and a counterparty version, if one is given, must also
  be `cw-query-1`;
- channel connect, which writes an empty account, and channel close, which
  removes it;
- the dispatch handlers (`handle_spot_price`, `handle_estimate_swap`,
  `handle_juno_halt`, behind `execute`) and the two queries. They only read the
  store. A handler refuses a channel without an account; otherwise it sends
  exactly one packet with an absolute timeout;
- acknowledgement processing (`ibc_packet_ack` and its two helpers), plus
  timeouts and inbound packets. The handler recovers the query kind from the
  echoed original packet. An `Error` ack is absorbed and changes nothing. A
  `Result` ack stamps the sending channel's record with the block time and
  the decoded value; it fails if the channel has no account.

Modules follow the source files. `State` (src/state.rs) holds `AccountData`
and the class `AccountStore`, whose methods `Save`, `Remove` and `Update`
change its `accounts` map in place, and whose functions `Has`, `Load` and
`Range` read it. `IbcMsg` (src/ibc_msg.rs) and `Msg` (src/msg.rs) hold the
message types and conversions. `Ibc` (src/ibc.rs) holds the channel entry
points. Connect, close and ack are module-level methods that take the store
as a parameter and change its map. The ack methods are
proved against the pure functions `AcknowledgeOutcome` and `PacketAckOutcome`,
which give the response and the new map. `Contract` (src/contract.rs) holds
the handlers and queries as functions that read the store. Three modules
support them:

- `CosmWasm` stands in for the host library's types.
- `KeyOrder` is the key order of ascending `range`. It compares code point by
  code point, which for UTF-8 keys is the same as comparing bytes.
- `Wire` holds `Codec`, the encoders and decoders the contract calls. Each one
  is a function-valued parameter, and a decoder may fail. Every property
  therefore holds for every encoding.

`Lifecycle` also holds `ProperHandshakeFlow`, a scenario method that retraces
the contract's own `proper_handshake_flow` test (src/ibc.rs:230-254). It
opens and connects a channel, checks the empty account, refuses a request on
an unknown channel, and then goes past the test: a result acknowledgement
stamps the account, an error acknowledgement leaves it alone, and a close
removes it. Each step is an `assert` the verifier discharges.

`Lifecycle` runs the contract over a sequence of host events. It proves
that a channel has an account exactly when its last lifecycle event was a
connect.

Where the files disagree, the model follows src/ibc.rs and src/contract.rs:

- `ExecuteMsg` has three variants (src/contract.rs:30-34). src/msg.rs:14-16
  declares one.
- `EstimateSwapMsg` is rebuilt from its uses at src/contract.rs:77-117.
- The echoed packet yields a query kind `GammPacket = SpotPrice | EstimateSwap`
  (src/ibc.rs:101-106). The `PacketMsg` declared at src/ibc_msg.rs:8-13 has
  no such field, so `Codec.decodePacket` recovers that kind or fails.
- `SpotPriceAck { price }` and `EstimateSwapAck { amount }` are rebuilt from
  src/ibc.rs:127 and src/ibc.rs:153.

A `Result` payload that fails to decode makes the ack call fail, as the `?` at
src/ibc.rs:117 and src/ibc.rs:143 does. It is not absorbed like an `Error` ack.

## Model

| member | source | states |
|---|---|---|
| `State.DefaultAccountData` | src/state.rs:6-10 | the default record has timestamp 0 and an empty remote price |
| `State.AccountStore.constructor` | src/state.rs:12 | a new store holds no records |
| `State.AccountStore.Has` | src/state.rs:12 | `has` holds exactly when `load` succeeds, which is the presence gate used before sending a packet |
| `State.AccountStore.Load` | src/state.rs:12 | load succeeds exactly when the key is stored, returns that record, and otherwise fails with not-found |
| `State.AccountStore.Save` | src/state.rs:12 | save inserts or overwrites one key, and a load straight after returns the saved record |
| `State.AccountStore.Remove` | src/state.rs:12 | remove drops the key (no-op when absent); every other key's lookup is unchanged |
| `State.AccountStore.Update` | src/state.rs:12 | update hands the optional current record to the closure; it stores the closure's result only on success, and otherwise leaves the map unchanged and returns the error |
| `State.AccountStore.Range` | src/contract.rs:163-164 | range lists every stored key exactly once with its record, in strictly ascending key order |
| `KeyOrder.SortedKeys` | src/contract.rs:164 | the ascending listing of a key set has its size, its members and strictly increasing keys |
| `KeyOrder.AscendingUnique` | src/contract.rs:162-172 | two ascending listings of the same keys are equal, so the account list depends only on which channels are stored |
| `IbcMsg.WireTag` | src/ibc_msg.rs:15-20 | the snake_case tag is "result" exactly for `Result` and "error" exactly for `Error` (it documents the tag naming; the ack decoder is not tied to it) |
| `Msg.Convert` | src/msg.rs:50-57 | `AccountInfo::convert` carries the given channel id and gives back the record's two fields unchanged |
| `Msg.FromAccountData` | src/msg.rs:66-73 | `AccountResponse::from` gives back the record's two fields unchanged |
| `Ibc.IbcChannelOpen` | src/ibc.rs:18-42 | open succeeds iff the order is Unordered, the version is "cw-query-1" and any counterparty version is "cw-query-1"; a wrong order is rejected first whatever the version, then a wrong version, then a wrong counterparty version, each with its message |
| `Ibc.ConnectOutcome` | src/ibc.rs:53-57 | after connect the channel holds the default record whatever it held before, the key set gains the channel, and no other key changes |
| `Ibc.CloseOutcome` | src/ibc.rs:74-75 | after close the channel has no record, the key set loses only it, and no other key changes |
| `Ibc.IbcChannelConnect` | src/ibc.rs:46-62 | the method's new map is `ConnectOutcome` of the old one, and it emits no message |
| `Ibc.IbcChannelClose` | src/ibc.rs:66-80 | the method's new map is `CloseOutcome` of the old one, and it succeeds |
| `Ibc.IbcPacketReceive` | src/ibc.rs:84-90 | every inbound packet is refused |
| `Ibc.IbcPacketTimeout` | src/ibc.rs:163-169 | a timeout succeeds and emits no message |
| `Ibc.Stamp` | src/ibc.rs:124-129 | the update closure fails with "no account to update" when there is no record, and otherwise replaces both fields with the block time and the decoded value |
| `Ibc.AcknowledgeOutcome` | src/ibc.rs:110-160 | an Error ack succeeds and leaves the map identical; an undecodable payload fails and writes nothing; a decoded payload fails with "no account to update" when the channel has no account, and otherwise stamps only that channel with block time and value; the key set never changes |
| `Ibc.PacketAckOutcome` | src/ibc.rs:93-107 | an undecodable echoed packet or ack envelope fails the event and writes nothing; otherwise the ack is processed for the recovered query kind; any failure leaves the map unchanged, and no key other than the source channel changes |
| `Ibc.IbcPacketAck` | src/ibc.rs:93-107 | the entry point returns and writes exactly what `PacketAckOutcome` gives |
| `Ibc.AcknowledgeSpotPriceResult` | src/ibc.rs:110-134 | the spot-price helper returns and writes exactly what `AcknowledgeOutcome` gives for a spot-price query |
| `Ibc.AcknowledgeEstimateSwapResult` | src/ibc.rs:136-160 | the swap-estimate helper returns and writes exactly what `AcknowledgeOutcome` gives for a swap estimate |
| `Contract.HandleSpotPrice` | src/contract.rs:37-75 | fails with "Channel not found" iff the channel has no account; otherwise sends exactly one packet over that channel, with no client id and the spot-price request, expiring the caller's timeout (default 3600 s) after block time, in nanoseconds |
| `Contract.HandleEstimateSwap` | src/contract.rs:77-117 | the same gate and timeout rule; the packet carries the swap request with its single route through the pool |
| `Contract.HandleJunoHalt` | src/contract.rs:119-147 | the same gate; the packet has the GetNodeInfo path, empty data and always the default lifetime, and the action attribute is "estimate_swap" |
| `Contract.Execute` | src/contract.rs:23-35 | every request fails iff its channel has no account; an accepted one sends exactly one packet over that channel, expiring no earlier than the block time; each variant's result is exactly what its handler gives |
| `Contract.QueryAccount` | src/contract.rs:157-160 | succeeds iff the channel is stored and then returns its record's fields; otherwise not-found |
| `Contract.ConvertAll` | src/contract.rs:165-168 | each listed entry becomes an `AccountInfo` with its key and its record's fields, in order |
| `Contract.QueryListAccounts` | src/contract.rs:162-173 | one entry per stored channel, each with that channel's record, and the ids strictly ascending |
| `Contract.Query` | src/contract.rs:149-155 | the list query always answers with exactly the listing of `query_list_accounts`; the account query answers iff the channel is stored, with its record |
| `Lifecycle.AccountIffConnected` | src/ibc.rs:53-79 | over any sequence of events from an empty store, a channel has an account iff its last connect or close event was a connect |
| `Lifecycle.StampComesFromAck` | src/ibc.rs:124-129 | every stored record is either the default or equals the block time and decoded value of a `Result` acknowledgement on that channel received after the channel's last connect |
| `Lifecycle.SpotPriceRoundTrip` | src/ibc.rs:99-106 | when the decoder recognises the packet `handle_spot_price` sent, a result ack for it, from any source port, stamps only the sending channel with the block time and the price |
| `Lifecycle.EstimateSwapRoundTrip` | src/ibc.rs:99-106 | the same for `handle_estimate_swap` and the decoded swap amount |
| `Lifecycle.NodeInfoAckRejected` | src/ibc.rs:101 | for a decoder that rejects the node-info probe's packet, any ack of it fails with a parse error and leaves the store unchanged |

## Left out

- JSON and protobuf encoding (`to_binary`, `from_slice`, `from_binary`, `to_bytes`, `path`) are parameters of `Wire.Codec`, so no encoding format is fixed. One consequence: the model does not state that `client_id` is left out of the JSON when it is `None` (src/ibc_msg.rs:9-10). That is the serializer's behaviour.
- The model does not take the error exits of encoding (`to_binary(..)?`, `request.to_bytes()?` in src/contract.rs) or of `save(..)?` (src/ibc.rs:57). The library cannot fail on these values, so each encoder is total.
- `Timestamp::plus_seconds` overflow: timestamps are unbounded naturals, so the overflow at the top of `u64` nanoseconds is not modelled.
- `msg.pool.u64()`: the pool id sent equals the `Uint128` pool value. The narrowing to 64 bits is not modelled.
- Decimal and `Uint128` formatting: prices and amounts are opaque strings.
- `Contract.QueryListAccounts`: always succeeds. It does not model the error path of the `r?` at src/contract.rs:166, which only fires on a record that fails to deserialize.
- `Ibc.IbcPacketReceive`: the `unimplemented!()` panic is modelled as an error result.
- Response attributes are kept as key/value pairs. Error values are simplified. The not-found error for a missing record carries a shortened type name. Each parse error carries only the short name of the type that failed to decode, without the full type path or the decoder's message.
- `State.AccountStore.Update`: does not model the error exits of the `may_load` and `save` calls inside the library's `update`. They fire only on a record that fails to (de)serialize.
- `IbcMsg.WireTag` records how the two acknowledgement variants are tagged on the wire. It does not constrain `Wire.Codec.decodeAck`.
- `instantiate` is left out because it is a no-op. Also left out: the entry-point plumbing, the `Deps` wrapper (the store is passed directly; of `Env` only the block time is used), the encoding of query answers, and the JSON-schema export program.
- Acks for the GetNodeInfo packet: src/ibc.rs:103-106 has no branch for this packet. In the model the packet decoder is free on it. Only a decoder that rejects it gives the decode-failure path, and `Lifecycle.NodeInfoAckRejected` states that case under that assumption. A decoder that read the probe as a spot-price query would let its ack stamp the account.
