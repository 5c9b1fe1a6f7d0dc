/** The event-driven revision of the indexer (`indexer.go`): logs of the
    Swapica contract are dispatched by their first topic to the handler of
    that event, and after each event handled the chain's checkpoint is saved
    in the collector as the log's block number. A run reads the head block,
    subscribes to new logs, handles the logs from the saved checkpoint up to
    the head, and then handles the subscription's logs until it ends. */
module EventIndexer {
  import opened Base
  import opened Eth
  import opened Decimal
  import opened CollectorService
  import opened ChainNode
  import opened EventPasses
  import opened EventHandlers
  import Helpers

  /** The names of the handler table (`newIndexer`). */
  const HandlerNames: set<string> := {"OrderCreated", "OrderUpdated", "MatchCreated", "MatchUpdated"}

  /** The topics the log filter accepts: the ABI event ID of every handled
      name. */
  function HandlerTopics(abi: seq<AbiEvent>): set<Hash> {
    set n | n in HandlerNames :: EventID(abi, n)
  }

  /** The existence checks a revision's handlers use, for orders and for
      matches. */
  datatype Checks = Checks(orders: Check, matches: Check)

  /** The not-found-tolerant checks of `helpers.go`. */
  function Tolerant(fault: Request -> Option<ConnError>, chainID: Int64): Checks {
    Checks(OrderCheck(fault, chainID), MatchCheck(fault, chainID))
  }

  /** A check that reads the collector and stores nothing. */
  ghost predicate ReadOnly(check: Check) {
    forall e, id :: check(e, id).0.store == e.store
  }

  /** The handler of `name` in the table, applied to the log's data. */
  function Dispatch(e: Env, fault: Request -> Option<ConnError>, chainID: Int64, checks: Checks, name: string, data: Payload): (Env, Option<Error>)
    requires name in HandlerNames
  {
    if name == "OrderCreated" then OrderCreatedSpec(e, fault, chainID, checks.orders, name, data)
    else if name == "OrderUpdated" then OrderUpdatedSpec(e, fault, chainID, checks.orders, name, data)
    else if name == "MatchCreated" then MatchCreatedSpec(e, fault, chainID, checks.matches, name, data)
    else MatchUpdatedSpec(e, fault, chainID, checks.matches, name, data)
  }

  /** The part of `handleEvent` both revisions share: the log's topic names
      an ABI event, the name has a handler, and the handler runs. */
  function Handled(e: Env, fault: Request -> Option<ConnError>, chainID: Int64, checks: Checks, abi: seq<AbiEvent>, log: Log): (Env, Option<Error>) {
    var name := EventByID(abi, log.topic);
    if name.None? then (e, Some(UnknownTopic))
    else if name.value !in HandlerNames then (e, Some(NoHandler))
    else Dispatch(e, fault, chainID, checks, name.value, log.data)
  }

  /** `handleEvent`: a handled event is followed by `updateLastBlock` with
      the log's block number; a failure at any stage returns at once. */
  function HandleEventSpec(e: Env, fault: Request -> Option<ConnError>, chainID: Int64, abi: seq<AbiEvent>, log: Log): (Env, Option<Error>) {
    var (e1, err) := Handled(e, fault, chainID, Tolerant(fault, chainID), abi, log);
    if err.Some? then (e1, err) else Helpers.UpdateLastBlockSpec(e1, fault, chainID, log.blockNumber)
  }

  /** One log of a pass: `handleEvent`. */
  function LogStep(fault: Request -> Option<ConnError>, chainID: Int64, abi: seq<AbiEvent>): Step<Env, Log> {
    (e, l: Log) => HandleEventSpec(e, fault, chainID, abi, l)
  }

  /** The checks of `helpers.go` store nothing. */
  lemma TolerantReadOnly(fault: Request -> Option<ConnError>, chainID: Int64)
    ensures ReadOnly(Tolerant(fault, chainID).orders) && ReadOnly(Tolerant(fault, chainID).matches)
  {
    forall e, id ensures OrderCheck(fault, chainID)(e, id).0.store == e.store {
      Helpers.OrderExistsEffect(e, fault, chainID, id);
    }
    forall e, id ensures MatchCheck(fault, chainID)(e, id).0.store == e.store {
      Helpers.MatchExistsEffect(e, fault, chainID, id);
    }
  }

  /** With checks that store nothing, no handler touches a checkpoint: the
      handlers write orders and matches only. */
  lemma HandledKeepsBlocks(e: Env, fault: Request -> Option<ConnError>, chainID: Int64, checks: Checks, abi: seq<AbiEvent>, log: Log)
    requires ReadOnly(checks.orders) && ReadOnly(checks.matches)
    ensures Handled(e, fault, chainID, checks, abi, log).0.store.blocks == e.store.blocks
  {
    var name := EventByID(abi, log.topic);
    if name.Some? && name.value in HandlerNames {
      var n := name.value;
      if n == "OrderCreated" {
        var o := DecodeOrderCreated(n, log.data);
        if o.Some? {
          var (e1, _) := checks.orders(e, o.value.orderId);
          Helpers.AddOrderEffect(e1, fault, chainID, o.value);
        }
      } else if n == "OrderUpdated" {
        var u := DecodeOrderUpdated(n, log.data);
        if u.Some? {
          var (e1, _) := checks.orders(e, u.value.0);
          Helpers.UpdateOrderEffect(e1, fault, chainID, u.value.0, u.value.1);
        }
      } else if n == "MatchCreated" {
        var m := DecodeMatchCreated(n, log.data);
        if m.Some? {
          var (e1, _) := checks.matches(e, m.value.matchId);
          Helpers.AddMatchEffect(e1, fault, chainID, m.value);
        }
      } else {
        var u := DecodeMatchUpdated(n, log.data);
        if u.Some? {
          var (e1, _) := checks.matches(e, u.value.0);
          Helpers.UpdateMatchEffect(e1, fault, chainID, u.value.0, u.value.1);
        }
      }
    }
  }

  /** handleEvent moves the chain's checkpoint to the log's block exactly
      when it succeeds, and then the checkpoint request was the last one
      sent; when it fails, whether in the handler or in saving, the
      checkpoint is where it was. */
  lemma HandleEventEffect(e: Env, fault: Request -> Option<ConnError>, chainID: Int64, abi: seq<AbiEvent>, log: Log)
    ensures var (e', err) := HandleEventSpec(e, fault, chainID, abi, log);
      && e'.store.blocks == (if err.None? then e.store.blocks[chainID := FormatUint(log.blockNumber)] else e.store.blocks)
      && (err.None? ==> |e'.sent| > 0 && e'.sent[|e'.sent| - 1] == PostBlock(chainID, log.blockNumber))
  {
    TolerantReadOnly(fault, chainID);
    HandledKeepsBlocks(e, fault, chainID, Tolerant(fault, chainID), abi, log);
    var (e1, err) := Handled(e, fault, chainID, Tolerant(fault, chainID), abi, log);
    if err.None? {
      Helpers.UpdateLastBlockEffect(e1, fault, chainID, log.blockNumber);
    }
  }

  /** After a pass over `logs`, the saved checkpoint is the block of the
      last log handled, or unchanged when none was: a log whose handling
      failed never moves it. */
  lemma {:induction false} PassCheckpoint(e: Env, fault: Request -> Option<ConnError>, chainID: Int64, abi: seq<AbiEvent>, logs: seq<Log>)
    ensures var (e', n, _) := Run(e, LogStep(fault, chainID, abi), logs);
      e'.store.blocks == if n == 0 then e.store.blocks else e.store.blocks[chainID := FormatUint(logs[n - 1].blockNumber)]
    decreases |logs|
  {
    if logs != [] {
      var front := logs[..|logs| - 1];
      PassCheckpoint(e, fault, chainID, abi, front);
      var (e1, n1, err1) := Run(e, LogStep(fault, chainID, abi), front);
      if n1 > 0 {
        assert front[n1 - 1] == logs[n1 - 1];
      }
      if err1.None? {
        HandleEventEffect(e1, fault, chainID, abi, logs[|logs| - 1]);
      }
    }
  }

  /** A pass that fails nowhere leaves the checkpoint at the block of the
      last log; the logs come in block order, so that is the highest. */
  lemma PassSavesLastBlock(e: Env, fault: Request -> Option<ConnError>, chainID: Int64, abi: seq<AbiEvent>, logs: seq<Log>)
    requires logs != []
    requires Run(e, LogStep(fault, chainID, abi), logs).2.None?
    ensures Run(e, LogStep(fault, chainID, abi), logs).0.store.blocks[chainID] == FormatUint(logs[|logs| - 1].blockNumber)
  {
    PassCheckpoint(e, fault, chainID, abi, logs);
  }

  /** The catch-up query selects every log of a handled event from the
      saved checkpoint up to the head block read before subscribing, unless
      `head + 1` wraps around to 0. */
  lemma CatchUpCovers(q: FilterQuery, abi: seq<AbiEvent>, from: Uint64, head: Uint64, history: seq<Log>, l: Log)
    requires q.fromBlock == from && q.toBlock == Some((head + 1) % TWO_64)
    requires forall t :: t in q.topics <==> t in HandlerTopics(abi)
    requires head + 1 < TWO_64
    requires l in history && from <= l.blockNumber <= head && l.topic in HandlerTopics(abi)
    ensures l in Matching(history, q)
  {
  }

  /** The indexer of one chain. The saved checkpoint it starts from is
      never updated in memory by this revision. */
  class Indexer {
    const chainID: Int64
    const collector: Collector
    const node: Node
    const abi: seq<AbiEvent>
    const contract: Address
    const lastBlock: Uint64

    constructor (chainID: Int64, collector: Collector, node: Node, abi: seq<AbiEvent>, contract: Address, lastBlock: Uint64)
      ensures this.chainID == chainID && this.collector == collector && this.node == node
      ensures this.abi == abi && this.contract == contract && this.lastBlock == lastBlock
    {
      this.chainID, this.collector, this.node := chainID, collector, node;
      this.abi, this.contract, this.lastBlock := abi, contract, lastBlock;
    }

    /** `filters` over the handler table: the contract's address and the
        topic of every handled event, whatever the table's iteration order. */
    method Filters() returns (q: FilterQuery)
      ensures q.addresses == [contract] && q.fromBlock == 0 && q.toBlock == None
      ensures forall t :: t in q.topics <==> t in HandlerTopics(abi)
    {
      ghost var names;
      q, names := Helpers.Filters(HandlerNames, abi, contract);
      forall t | t in q.topics ensures t in HandlerTopics(abi) {
        var i :| 0 <= i < |q.topics| && q.topics[i] == t;
        assert names[i] in names;
      }
      forall t | t in HandlerTopics(abi) ensures t in q.topics {
        var n :| n in HandlerNames && t == EventID(abi, n);
        assert n in names;
        var i :| 0 <= i < |names| && names[i] == n;
        assert q.topics[i] == t;
      }
    }

    /** `handleEvent`. */
    method HandleEvent(l: Log) returns (err: Option<Error>)
      modifies collector
      ensures collector.fault == old(collector.fault)
      ensures (collector.State(), err) == HandleEventSpec(old(collector.State()), collector.fault, chainID, abi, l)
    {
      var name := EventByID(abi, l.topic);
      if name.None? {
        return Some(UnknownTopic);
      }
      var n := name.value;
      if n !in HandlerNames {
        return Some(NoHandler);
      }
      if n == "OrderCreated" {
        err := HandleOrderCreated(collector, chainID, n, l.data);
      } else if n == "OrderUpdated" {
        err := HandleOrderUpdated(collector, chainID, n, l.data);
      } else if n == "MatchCreated" {
        err := HandleMatchCreated(collector, chainID, n, l.data);
      } else {
        err := HandleMatchUpdated(collector, chainID, n, l.data);
      }
      if err.Some? {
        return;
      }
      err := Helpers.UpdateLastBlock(collector, chainID, l.blockNumber);
    }

    /** The loop shared by `handleUnprocessedEvents` and `waitForEvents`:
        each log is handled in order until the first failure. */
    method HandleLogs(logs: seq<Log>) returns (err: Option<Error>)
      modifies collector
      ensures collector.fault == old(collector.fault)
      ensures var (e, _, failure) := Run(old(collector.State()), LogStep(collector.fault, chainID, abi), logs);
        collector.State() == e && err == failure
    {
      var c := collector;
      ghost var e0 := c.State();
      var i := 0;
      while i < |logs|
        invariant i <= |logs| && c.fault == old(c.fault)
        invariant Run(e0, LogStep(c.fault, chainID, abi), logs[..i]) == (c.State(), i, None)
      {
        assert logs[..i + 1][..i] == logs[..i];
        err := HandleEvent(logs[i]);
        if err.Some? {
          RunStops(e0, LogStep(c.fault, chainID, abi), logs, i + 1);
          return;
        }
        i := i + 1;
      }
      assert logs[..i] == logs;
      err := None;
    }

    /** `handleUnprocessedEvents`: one `eth_getLogs` from the saved
        checkpoint to one past the head block (a uint64 sum, which wraps),
        then every log returned is handled in order. */
    method HandleUnprocessedEvents(currentBlock: Uint64) returns (err: Option<Error>, ghost q: FilterQuery)
      modifies node, collector
      ensures collector.fault == old(collector.fault)
      ensures node.calls == old(node.calls) + [FilterLogsCall(q)]
      ensures q.addresses == [contract] && (forall t :: t in q.topics <==> t in HandlerTopics(abi))
      ensures q.fromBlock == lastBlock && q.toBlock == Some((currentBlock + 1) % TWO_64)
      ensures !node.Serves(q) ==> err == Some(Rpc) && collector.State() == old(collector.State())
      ensures node.Serves(q) ==>
        var (e, _, failure) := Run(old(collector.State()), LogStep(collector.fault, chainID, abi), Matching(node.history, q));
        collector.State() == e && err == failure
    {
      var filters := Filters();
      filters := filters.(fromBlock := lastBlock, toBlock := Some((currentBlock + 1) % TWO_64));
      q := filters;
      var logs := node.FilterLogs(filters);
      if logs.Err? {
        return Some(logs.error), q;
      }
      err := HandleLogs(logs.value);
    }

    /** `waitForEvents`: the logs the subscription delivers are handled in
        order until one fails; when none does, the loop ends only with the
        error that ended the subscription or cancelled the context. It
        never returns without an error. */
    method WaitForEvents(delivered: seq<Log>, ending: Error) returns (err: Option<Error>)
      modifies collector
      ensures collector.fault == old(collector.fault)
      ensures err.Some?
      ensures var (e, _, failure) := Run(old(collector.State()), LogStep(collector.fault, chainID, abi), delivered);
        collector.State() == e && err == (if failure.Some? then failure else Some(ending))
    {
      err := HandleLogs(delivered);
      if err.None? {
        err := Some(ending);
      }
    }

    /** `run`: read the head block, subscribe, catch up from the checkpoint
        to the head, then follow the subscription. The subscription is made
        before the catch-up query, so a log emitted in between is delivered
        by one or the other (or both). A run always ends with an error. */
    method Start(ending: Error) returns (err: Option<Error>)
      modifies node, collector
      ensures collector.fault == old(collector.fault)
      ensures err.Some?
      ensures !node.reachable ==>
        err == Some(Rpc) && node.calls == old(node.calls) + [BlockNumberCall] && collector.State() == old(collector.State())
      ensures node.reachable ==>
        && |node.calls| >= |old(node.calls)| + 2
        && node.calls[..|old(node.calls)|] == old(node.calls)
        && node.calls[|old(node.calls)|] == BlockNumberCall
        && node.calls[|old(node.calls)| + 1].SubscribeCall?
      ensures node.reachable && !node.subscribable ==>
        |node.calls| == |old(node.calls)| + 2 && err == Some(Rpc) && collector.State() == old(collector.State())
      ensures node.reachable && node.subscribable ==>
        && |node.calls| == |old(node.calls)| + 3
        && node.calls[|old(node.calls)| + 2].FilterLogsCall?
        && var catchUp := node.calls[|old(node.calls)| + 2].query;
          && catchUp.fromBlock == lastBlock && catchUp.toBlock == Some((node.head + 1) % TWO_64)
          && (!node.Serves(catchUp) ==> err == Some(Rpc) && collector.State() == old(collector.State()))
          && (node.Serves(catchUp) ==>
                var (e1, _, f1) := Run(old(collector.State()), LogStep(collector.fault, chainID, abi), Matching(node.history, catchUp));
                if f1.Some? then collector.State() == e1 && err == f1
                else
                  var (e2, _, f2) := Run(e1, LogStep(collector.fault, chainID, abi), node.live);
                  collector.State() == e2 && err == (if f2.Some? then f2 else Some(ending)))
    {
      var head := node.BlockNumber();
      if head.Err? {
        return Some(head.error);
      }
      var q := Filters();
      var sub := node.SubscribeFilterLogs(q);
      if sub.Err? {
        return Some(sub.error);
      }
      ghost var catchUp;
      err, catchUp := HandleUnprocessedEvents(head.value);
      if err.Some? {
        return;
      }
      err := WaitForEvents(sub.value, ending);
    }
  }
}
