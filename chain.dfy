/** The chain node the indexer reads through go-ethereum's client: the current
    block number, `eth_getLogs` over an inclusive block range, and a log
    subscription. The node is an external collaborator; it is modelled by the
    contract's log history, the logs it pushes to a subscriber, whether it
    answers at all, and which log queries it refuses although it answers. */
module ChainNode {
  import opened Base
  import opened Eth

  /** One event of the contract ABI: its name and its ID (the topic hash). */
  datatype AbiEvent = AbiEvent(name: string, id: Hash)

  /** `abi.EventByID`: the first ABI event whose ID is the topic. */
  function EventByID(abi: seq<AbiEvent>, topic: Hash): (r: Option<string>)
    ensures r.None? <==> forall i :: 0 <= i < |abi| ==> abi[i].id != topic
    ensures r.Some? ==> exists i :: 0 <= i < |abi| && abi[i] == AbiEvent(r.value, topic)
  {
    if abi == [] then None
    else if abi[0].id == topic then Some(abi[0].name)
    else
      var r := EventByID(abi[1..], topic);
      assert forall i :: 1 <= i < |abi| ==> abi[i] == abi[1..][i - 1];
      r
  }

  /** `abi.Events[name].ID`: the ID of the first ABI event with that name, or
      the zero hash of Go's zero value when there is none. */
  function EventID(abi: seq<AbiEvent>, name: string): Hash {
    if abi == [] then 0
    else if abi[0].name == name then abi[0].id
    else EventID(abi[1..], name)
  }

  /** `ethereum.FilterQuery`: an inclusive block range (an absent end means
      the latest block), the contract addresses and the accepted first
      topics. */
  datatype FilterQuery = FilterQuery(fromBlock: nat, toBlock: Option<nat>, addresses: seq<Address>, topics: seq<Hash>)

  predicate Selects(q: FilterQuery, l: Log) {
    && q.fromBlock <= l.blockNumber
    && (q.toBlock.Some? ==> l.blockNumber <= q.toBlock.value)
    && l.topic in q.topics
  }

  /** The logs of `history` a query selects, in chain order. */
  function Matching(history: seq<Log>, q: FilterQuery): (r: seq<Log>)
    ensures forall l :: l in r <==> l in history && Selects(q, l)
    ensures |r| <= |history|
  {
    if history == [] then []
    else (if Selects(q, history[0]) then [history[0]] else []) + Matching(history[1..], q)
  }

  datatype ChainCall = BlockNumberCall | FilterLogsCall(query: FilterQuery) | SubscribeCall(query: FilterQuery)

  class Node {
    /** The number of the latest block. */
    const head: Uint64
    /** Every log of the contract so far, in block order. */
    const history: seq<Log>
    /** The logs the node pushes to a subscriber before the subscription ends. */
    const live: seq<Log>
    /** False when every call fails with a transport error. */
    const reachable: bool
    /** False when a subscription cannot be made, as over a transport
        without notifications. */
    const subscribable: bool
    /** The log queries the node answers with an error although it is
        reachable, as one whose block range or result exceeds the node's
        limits. */
    const refuses: FilterQuery -> bool
    /** The calls received so far. */
    var calls: seq<ChainCall>

    constructor (head: Uint64, history: seq<Log>, live: seq<Log>, reachable: bool, subscribable: bool, refuses: FilterQuery -> bool)
      ensures this.head == head && this.history == history && this.live == live
      ensures this.reachable == reachable && this.subscribable == subscribable && this.refuses == refuses
      ensures calls == []
    {
      this.head, this.history, this.live := head, history, live;
      this.reachable, this.subscribable, this.refuses := reachable, subscribable, refuses;
      calls := [];
    }

    /** The node answers the log query `q` with the logs it selects. */
    predicate Serves(q: FilterQuery) {
      reachable && !refuses(q)
    }

    /** `BlockNumber`. */
    method BlockNumber() returns (r: Result<Uint64, Error>)
      modifies this
      ensures calls == old(calls) + [BlockNumberCall]
      ensures r == if reachable then Ok(head) else Err(Rpc)
    {
      calls := calls + [BlockNumberCall];
      r := if reachable then Ok(head) else Err(Rpc);
    }

    /** `FilterLogs` (`eth_getLogs`). */
    method FilterLogs(q: FilterQuery) returns (r: Result<seq<Log>, Error>)
      modifies this
      ensures calls == old(calls) + [FilterLogsCall(q)]
      ensures r == if Serves(q) then Ok(Matching(history, q)) else Err(Rpc)
    {
      calls := calls + [FilterLogsCall(q)];
      r := if Serves(q) then Ok(Matching(history, q)) else Err(Rpc);
    }

    /** `SubscribeFilterLogs`: on success, the logs the subscription will
        deliver. */
    method SubscribeFilterLogs(q: FilterQuery) returns (r: Result<seq<Log>, Error>)
      modifies this
      ensures calls == old(calls) + [SubscribeCall(q)]
      ensures r == if subscribable then Ok(live) else Err(Rpc)
    {
      calls := calls + [SubscribeCall(q)];
      r := if subscribable then Ok(live) else Err(Rpc);
    }
  }
}
