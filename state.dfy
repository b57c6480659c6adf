/** The contract's persistent state: one `AccountData` per channel id,
    kept in the keyed store `ACCOUNTS_INFO`. */
module State {
  import opened CosmWasm
  import KeyOrder

  /** The cached view of the counterparty for one channel. */
  datatype AccountData = AccountData(lastUpdateTime: Timestamp, remoteSpotPrice: string)

  /** `AccountData::default()`: never updated, nothing observed. */
  function DefaultAccountData(): (d: AccountData)
    ensures d.lastUpdateTime.nanos == 0
    ensures d.remoteSpotPrice == ""
  {
    AccountData(Timestamp(0), "")
  }

  /** `may_load`: the record at `id`, if any. */
  function Lookup(accounts: map<string, AccountData>, id: string): Option<AccountData> {
    if id in accounts then Some(accounts[id]) else None
  }

  /** The keys of a listing of entries, in listing order. */
  function EntryKeys(entries: seq<(string, AccountData)>): (keys: seq<string>)
    ensures |keys| == |entries|
    ensures forall i :: 0 <= i < |entries| ==> keys[i] == entries[i].0
  {
    seq(|entries|, i requires 0 <= i < |entries| => entries[i].0)
  }

  /** `ACCOUNTS_INFO`, a map from channel id to `AccountData`. Keys are unique
      by construction, so the store holds at most one record per channel. */
  class AccountStore {
    var accounts: map<string, AccountData>

    constructor ()
      ensures accounts == map[]
    {
      accounts := map[];
    }

    /** `has`: a record is stored at `id` exactly when `load` finds it. */
    predicate Has(id: string)
      reads this
      ensures Has(id) <==> Load(id).Ok?
    {
      id in accounts
    }

    /** `load`: the record at `id`, or not-found. */
    function Load(id: string): (r: Result<AccountData>)
      reads this
      ensures r.Ok? <==> id in accounts
      ensures r.Ok? ==> r.value == accounts[id]
      ensures r.Err? ==> r.error == NotFound("AccountData")
    {
      if id in accounts then Ok(accounts[id]) else Err(NotFound("AccountData"))
    }

    /** `save`: insert or overwrite. */
    method Save(id: string, data: AccountData)
      modifies this
      ensures accounts == old(accounts)[id := data]
      ensures Load(id) == Ok(data)
    {
      accounts := accounts[id := data];
    }

    /** `remove`: drop the record at `id`; nothing happens if there is none. */
    method Remove(id: string)
      modifies this
      ensures accounts == old(accounts) - {id}
      ensures !Has(id)
      ensures forall k :: k != id ==> Lookup(accounts, k) == Lookup(old(accounts), k)
    {
      accounts := accounts - {id};
    }

    /** `update`: hand the current record (if any) to `action` and store what
        it returns; when `action` fails, nothing is written and its error is
        returned. */
    method Update(id: string, action: Option<AccountData> -> Result<AccountData>) returns (r: Result<AccountData>)
      modifies this
      ensures r == action(Lookup(old(accounts), id))
      ensures accounts == if r.Ok? then old(accounts)[id := r.value] else old(accounts)
    {
      var input := Lookup(accounts, id);
      r := action(input);
      if r.Ok? {
        accounts := accounts[id := r.value];
      }
    }

    /** `range(.., Order::Ascending)`: every record, each with its key, in
        ascending key order. */
    function Range(): (entries: seq<(string, AccountData)>)
      reads this
      ensures |entries| == |accounts|
      ensures forall i :: 0 <= i < |entries| ==> entries[i].0 in accounts && entries[i].1 == accounts[entries[i].0]
      ensures forall id :: id in accounts <==> id in EntryKeys(entries)
      ensures KeyOrder.Ascending(EntryKeys(entries))
    {
      var m := accounts;
      var keys := KeyOrder.SortedKeys(m.Keys);
      var entries := seq(|keys|, i requires 0 <= i < |keys| => (keys[i], m[keys[i]]));
      assert EntryKeys(entries) == keys;
      entries
    }
  }
}
