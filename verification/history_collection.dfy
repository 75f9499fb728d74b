/** `ProjectLogic.collect_network_data_history`: one wireless client-count
    history per network, collected into an insertion-ordered dictionary
    keyed by network id, with a failed vendor call degrading to an empty
    history for that network only. */
module HistoryCollection {
  import opened Common
  import MerakiApi

  /** The `clientCount` field of a history entry: absent, `None`, or a number. */
  datatype ClientCount = Missing | Null | Count(n: int)

  /** One entry of a client-count history. */
  datatype Sample = Sample(startTs: string, clientCount: ClientCount)

  /** `{"name": ..., "history": [...]}`; `name` is `None` when the key is absent. */
  datatype NetworkInfo = NetworkInfo(name: Option<string>, history: seq<Sample>)

  /** One key-value pair of the collected dictionary. */
  datatype Entry = Entry(id: string, info: NetworkInfo)

  /** A Python dictionary from network id to its information; the sequence
      order is the dictionary's insertion order. */
  type GraphData = seq<Entry>

  /** A network handed to the collector; `name` is `None` when the key is absent. */
  datatype NetworkRef = NetworkRef(id: string, name: Option<string>)

  function Keys(d: GraphData): set<string> {
    if d == [] then {} else {d[0].id} + Keys(d[1..])
  }

  predicate UniqueKeys(d: GraphData) {
    forall i, j :: 0 <= i < j < |d| ==> d[i].id != d[j].id
  }

  /** `d.get(key)` */
  function Lookup(d: GraphData, key: string): Option<NetworkInfo> {
    if d == [] then None
    else if d[0].id == key then Some(d[0].info)
    else Lookup(d[1..], key)
  }

  lemma {:induction false} KeysMembership(d: GraphData, key: string)
    ensures key in Keys(d) <==> exists i :: 0 <= i < |d| && d[i].id == key
  {
    if d != [] {
      KeysMembership(d[1..], key);
      if key != d[0].id && key in Keys(d[1..]) {
        var i :| 0 <= i < |d[1..]| && d[1..][i].id == key;
        assert d[i + 1].id == key;
      }
    }
  }

  /** `d[key] = value`: an existing key keeps its position and gets the new
      value, a new key is appended. */
  function Put(d: GraphData, key: string, value: NetworkInfo): (r: GraphData)
    ensures Keys(r) == Keys(d) + {key}
    ensures Lookup(r, key) == Some(value)
    ensures forall other :: other != key ==> Lookup(r, other) == Lookup(d, other)
    ensures key !in Keys(d) ==> r == d + [Entry(key, value)]
    ensures key in Keys(d) ==> |r| == |d| && forall i :: 0 <= i < |d| ==> r[i].id == d[i].id
    ensures UniqueKeys(d) ==> UniqueKeys(r)
  {
    if d == [] then [Entry(key, value)]
    else if d[0].id == key then [Entry(key, value)] + d[1..]
    else
      var rest := Put(d[1..], key, value);
      KeysMembership(rest, d[0].id);
      KeysMembership(d[1..], d[0].id);
      [d[0]] + rest
  }

  /** `network.get('name', f"Unnamed Network ({network_id})")` */
  function NetworkName(net: NetworkRef): string {
    net.name.GetOr("Unnamed Network (" + net.id + ")")
  }

  /** The dictionary value stored for one network: the fetched history, or
      an empty history when the vendor call raised. */
  function InfoFor(net: NetworkRef, fetch: Outcome<Sample>): (info: NetworkInfo)
    ensures info.name == Some(NetworkName(net))
    ensures info.history == (if fetch.Ok? then fetch.data else [])
  {
    match fetch
    case Ok(history) => NetworkInfo(Some(NetworkName(net)), history)
    case ApiErr(_, _) => NetworkInfo(Some(NetworkName(net)), [])
    case Other(_) => NetworkInfo(Some(NetworkName(net)), [])
  }

  /** The dictionary the collection loop builds (its specification), one
      `Put` per input network in order; `fetches[k]` is what the vendor call
      for `networks[k]` does. */
  function Collected(networks: seq<NetworkRef>, fetches: seq<Outcome<Sample>>): GraphData
    requires |fetches| == |networks|
  {
    if networks == [] then []
    else
      var n := |networks| - 1;
      Put(Collected(networks[..n], fetches[..n]), networks[n].id, InfoFor(networks[n], fetches[n]))
  }

  /** The set of ids of the input networks. */
  function NetworkIds(networks: seq<NetworkRef>): set<string> {
    set k | 0 <= k < |networks| :: networks[k].id
  }

  /** No later network in the list has the same id (later ones overwrite). */
  predicate LastWithId(networks: seq<NetworkRef>, k: int)
    requires 0 <= k < |networks|
  {
    forall j :: k < j < |networks| ==> networks[j].id != networks[k].id
  }

  /** Every input network's id is a key of the result, no other key appears,
      and each key appears once. */
  lemma {:induction false} CollectedKeys(networks: seq<NetworkRef>, fetches: seq<Outcome<Sample>>)
    requires |fetches| == |networks|
    ensures Keys(Collected(networks, fetches)) == NetworkIds(networks)
    ensures UniqueKeys(Collected(networks, fetches))
  {
    if networks != [] {
      var n := |networks| - 1;
      CollectedKeys(networks[..n], fetches[..n]);
      assert NetworkIds(networks) == NetworkIds(networks[..n]) + {networks[n].id} by {
        forall id | id in NetworkIds(networks)
          ensures id in NetworkIds(networks[..n]) + {networks[n].id}
        {
          var k :| 0 <= k < |networks| && networks[k].id == id;
          if k < n { assert networks[..n][k] == networks[k]; }
        }
        forall id | id in NetworkIds(networks[..n])
          ensures id in NetworkIds(networks)
        {
          var k :| 0 <= k < n && networks[..n][k].id == id;
          assert networks[k].id == id;
        }
      }
    }
  }

  /** Each network's entry holds its name and the history its own call
      returned, or `[]` when that call failed; where ids repeat, the last
      network with the id wins. */
  lemma {:induction false} CollectedEntry(networks: seq<NetworkRef>, fetches: seq<Outcome<Sample>>, k: int)
    requires |fetches| == |networks|
    requires 0 <= k < |networks| && LastWithId(networks, k)
    ensures Lookup(Collected(networks, fetches), networks[k].id) == Some(InfoFor(networks[k], fetches[k]))
    ensures Lookup(Collected(networks, fetches), networks[k].id).value.history ==
      (if fetches[k].Ok? then fetches[k].data else [])
  {
    var n := |networks| - 1;
    if k < n {
      assert networks[..n][k] == networks[k];
      CollectedEntry(networks[..n], fetches[..n], k);
    }
  }

  /** `ProjectLogic`: the history collector of the application. */
  class ProjectLogic {
    const api: MerakiApi.MerakiApiWrapper

    constructor (api: MerakiApi.MerakiApiWrapper)
      ensures this.api == api
    {
      this.api := api;
    }

    /** `collect_network_data_history`; `fetches[k]` is the outcome of the
        vendor's client-count-history call for `networks[k]` over the
        requested window. */
    method CollectNetworkDataHistory(networks: seq<NetworkRef>, fetches: seq<Outcome<Sample>>)
      returns (collected: GraphData)
      requires |fetches| == |networks|
      requires api.Valid()
      ensures !api.hasDashboard ==> collected == []
      ensures api.hasDashboard ==> collected == Collected(networks, fetches)
      ensures api.hasDashboard ==> Keys(collected) == NetworkIds(networks) && UniqueKeys(collected)
      ensures api.hasDashboard ==> forall k :: 0 <= k < |networks| && LastWithId(networks, k) ==>
        Lookup(collected, networks[k].id) == Some(InfoFor(networks[k], fetches[k]))
    {
      collected := [];
      // `get_dashboard` returns the existing client; under `Valid()` it never
      // has one to create.
      var dashboard := api.hasDashboard;
      if !dashboard {
        return;
      }
      for i := 0 to |networks|
        invariant collected == Collected(networks[..i], fetches[..i])
      {
        var network := networks[i];
        var networkName := NetworkName(network);
        match fetches[i] {
          case Ok(history) =>
            collected := Put(collected, network.id, NetworkInfo(Some(networkName), history));
          case ApiErr(_, _) =>
            collected := Put(collected, network.id, NetworkInfo(Some(networkName), []));
          case Other(_) =>
            collected := Put(collected, network.id, NetworkInfo(Some(networkName), []));
        }
        assert networks[..i + 1][..i] == networks[..i];
        assert fetches[..i + 1][..i] == fetches[..i];
      }
      assert networks[..|networks|] == networks;
      assert fetches[..|fetches|] == fetches;
      CollectedKeys(networks, fetches);
      forall k | 0 <= k < |networks| && LastWithId(networks, k)
        ensures Lookup(collected, networks[k].id) == Some(InfoFor(networks[k], fetches[k]))
      {
        CollectedEntry(networks, fetches, k);
      }
    }
  }
}
