/** The later revision of the event-driven indexer (`fixed_indexer.go`). It
    keeps the handler table and the handlers' decode, check and write steps,
    but checks existence with the collector's chain-less lookups
    `/get_order/{id}` and `/get_match/{id}`, treats every error of that
    lookup as a failure, saves no checkpoint after an event, and catches up
    BEFORE it subscribes, through the same client. */
module FixedIndexer {
  import opened Base
  import opened Eth
  import opened CollectorService
  import opened ChainNode
  import opened EventPasses
  import opened EventHandlers
  import EventIndexer
  import Helpers

  /** How the strict check reads the collector's answer into a zero `Order`
      or `Match` (`field` names its id field): any error is returned, and a
      found record is decoded from the service's answer, which sets no id
      field. A check that gets an answer therefore reports exactly whether
      `id` is 0. */
  function StrictExistsFrom(id: Int64, field: string, reply: Reply): (r: Result<bool, Error>)
    requires field == "OrderID" || field == "MatchID"
    ensures r.Err? <==> reply.Failed?
    ensures r.Err? ==> r == Err(Conn(reply.error))
    ensures r.Ok? ==> r.value == (id == 0)
  {
    if reply.Failed? then Err(Conn(reply.error))
    else
      var decoded := if reply.FoundId? then AnswerLeavesIdZero(field, reply.id); DecodedId(AnswerMembers, field, reply.id) else 0;
      Ok(id == decoded)
  }

  /** `orderExists` of this revision: one GET of `/get_order/{id}`. */
  function StrictOrderExistsSpec(e: Env, fault: Request -> Option<ConnError>, id: Int64): (Env, Result<bool, Error>) {
    var (e1, reply) := Respond(e, fault, FindOrder(id), ServeFindOrder(e.store, id));
    (e1, StrictExistsFrom(id, "OrderID", reply))
  }

  /** `matchExists` of this revision: one GET of `/get_match/{id}`. */
  function StrictMatchExistsSpec(e: Env, fault: Request -> Option<ConnError>, id: Int64): (Env, Result<bool, Error>) {
    var (e1, reply) := Respond(e, fault, FindMatch(id), ServeFindMatch(e.store, id));
    (e1, StrictExistsFrom(id, "MatchID", reply))
  }

  function Strict(fault: Request -> Option<ConnError>): EventIndexer.Checks {
    EventIndexer.Checks((e: Env, id: Int64) => StrictOrderExistsSpec(e, fault, id),
      (e: Env, id: Int64) => StrictMatchExistsSpec(e, fault, id))
  }

  /** The strict order check sends exactly its lookup and stores nothing.
      It fails whenever the lookup fails, an unknown id included: the 404
      comes back as an error, never as "does not exist". When the collector
      holds an order of that id on some chain, the check reports exactly
      whether the id is 0. */
  lemma StrictOrderExistsEffect(e: Env, fault: Request -> Option<ConnError>, id: Int64)
    ensures var (e', r) := StrictOrderExistsSpec(e, fault, id);
      && e' == Env(e.store, e.sent + [FindOrder(id)])
      && (r.Ok? <==> fault(FindOrder(id)).None? && id in Ids(e.store.orders))
      && (r.Ok? ==> r.value == (id == 0))
      && (fault(FindOrder(id)).Some? ==> r == Err(Conn(fault(FindOrder(id)).value)))
      && (fault(FindOrder(id)).None? && id !in Ids(e.store.orders) ==> r == Err(Conn(NotFound)))
  {
  }

  /** The mirror for matches. */
  lemma StrictMatchExistsEffect(e: Env, fault: Request -> Option<ConnError>, id: Int64)
    ensures var (e', r) := StrictMatchExistsSpec(e, fault, id);
      && e' == Env(e.store, e.sent + [FindMatch(id)])
      && (r.Ok? <==> fault(FindMatch(id)).None? && id in Ids(e.store.matches))
      && (r.Ok? ==> r.value == (id == 0))
      && (fault(FindMatch(id)).Some? ==> r == Err(Conn(fault(FindMatch(id)).value)))
      && (fault(FindMatch(id)).None? && id !in Ids(e.store.matches) ==> r == Err(Conn(NotFound)))
  {
  }

  /** The entity ids the collector holds records of, on any chain. */
  function Ids<V>(records: map<RecordKey, V>): set<Int64> {
    set k | k in records :: k.1
  }

  /** Writing a record under a key whose entity id is already held on some
      chain adds no new id. */
  lemma IdsInsert<V>(records: map<RecordKey, V>, k: RecordKey, v: V)
    requires k.1 in Ids(records)
    ensures Ids(records[k := v]) == Ids(records)
  {
    forall id | id in Ids(records[k := v]) ensures id in Ids(records) {
      var k1 :| k1 in records[k := v] && k1.1 == id;
      if k1 != k {
        assert k1 in records;
      }
    }
    forall id | id in Ids(records) ensures id in Ids(records[k := v]) {
      var k1 :| k1 in records && k1.1 == id;
      assert k1 in records[k := v];
    }
  }

  /** A strict OrderCreated or OrderUpdated handler writes an order only
      after its lookup found that id on some chain, so it never makes the
      collector hold an order id it did not hold before, and it leaves
      matches and checkpoints alone. */
  lemma StrictOrderHandlersKeepIds(e: Env, fault: Request -> Option<ConnError>, chainID: Int64, name: string, data: Payload)
    ensures var e1 := OrderCreatedSpec(e, fault, chainID, Strict(fault).orders, name, data).0;
      Ids(e1.store.orders) == Ids(e.store.orders) && e1.store.matches == e.store.matches && e1.store.blocks == e.store.blocks
    ensures var e2 := OrderUpdatedSpec(e, fault, chainID, Strict(fault).orders, name, data).0;
      Ids(e2.store.orders) == Ids(e.store.orders) && e2.store.matches == e.store.matches && e2.store.blocks == e.store.blocks
  {
    var o := DecodeOrderCreated(name, data);
    if o.Some? {
      var id := o.value.orderId;
      StrictOrderExistsEffect(e, fault, id);
      Helpers.AddOrderEffect(Env(e.store, e.sent + [FindOrder(id)]), fault, chainID, o.value);
      if id in Ids(e.store.orders) {
        IdsInsert(e.store.orders, OrderKey(chainID, id), StoredOrder(id, chainID, o.value.status.state, None, None));
      }
    }
    var u := DecodeOrderUpdated(name, data);
    if u.Some? {
      var (id, status) := u.value;
      StrictOrderExistsEffect(e, fault, id);
      Helpers.UpdateOrderEffect(Env(e.store, e.sent + [FindOrder(id)]), fault, chainID, id, status);
      var k := OrderKey(chainID, id);
      if k in e.store.orders {
        assert id in Ids(e.store.orders);
        IdsInsert(e.store.orders, k, ServePatchOrder(e.store, chainID, id, status).0.orders[k]);
      }
    }
  }

  /** The mirror for matches. */
  lemma StrictMatchHandlersKeepIds(e: Env, fault: Request -> Option<ConnError>, chainID: Int64, name: string, data: Payload)
    ensures var e1 := MatchCreatedSpec(e, fault, chainID, Strict(fault).matches, name, data).0;
      Ids(e1.store.matches) == Ids(e.store.matches) && e1.store.orders == e.store.orders && e1.store.blocks == e.store.blocks
    ensures var e2 := MatchUpdatedSpec(e, fault, chainID, Strict(fault).matches, name, data).0;
      Ids(e2.store.matches) == Ids(e.store.matches) && e2.store.orders == e.store.orders && e2.store.blocks == e.store.blocks
  {
    var m := DecodeMatchCreated(name, data);
    if m.Some? {
      var id := m.value.matchId;
      StrictMatchExistsEffect(e, fault, id);
      Helpers.AddMatchEffect(Env(e.store, e.sent + [FindMatch(id)]), fault, chainID, m.value);
      if id in Ids(e.store.matches) {
        IdsInsert(e.store.matches, OrderKey(chainID, id), StoredMatch(id, chainID, m.value.state));
      }
    }
    var u := DecodeMatchUpdated(name, data);
    if u.Some? {
      var (id, state) := u.value;
      StrictMatchExistsEffect(e, fault, id);
      Helpers.UpdateMatchEffect(Env(e.store, e.sent + [FindMatch(id)]), fault, chainID, id, state);
      var k := OrderKey(chainID, id);
      if k in e.store.matches {
        assert id in Ids(e.store.matches);
        IdsInsert(e.store.matches, k, e.store.matches[k].(state := state));
      }
    }
  }

  /** No handler of this revision makes the collector hold an order id or a
      match id it did not hold before, and none touches a checkpoint. */
  lemma StrictHandlersKeepIds(e: Env, fault: Request -> Option<ConnError>, chainID: Int64, abi: seq<AbiEvent>, log: Log)
    ensures var e' := EventIndexer.Handled(e, fault, chainID, Strict(fault), abi, log).0;
      && Ids(e'.store.orders) == Ids(e.store.orders)
      && Ids(e'.store.matches) == Ids(e.store.matches)
      && e'.store.blocks == e.store.blocks
  {
    var name := EventByID(abi, log.topic);
    if name.Some? {
      StrictOrderHandlersKeepIds(e, fault, chainID, name.value, log.data);
      StrictMatchHandlersKeepIds(e, fault, chainID, name.value, log.data);
    }
  }

  /** An OrderCreated event for an order the collector holds on no chain,
      against a collector that answers, fails with the lookup's 404 after
      that one request. */
  lemma StrictCreatedFailsOnNewOrder(e: Env, fault: Request -> Option<ConnError>, chainID: Int64, name: string, data: Payload)
    requires DecodeOrderCreated(name, data).Some?
    requires fault(FindOrder(DecodeOrderCreated(name, data).value.orderId)).None?
    requires forall k :: k in e.store.orders ==> k.1 != DecodeOrderCreated(name, data).value.orderId
    ensures OrderCreatedSpec(e, fault, chainID, Strict(fault).orders, name, data)
      == (Env(e.store, e.sent + [FindOrder(DecodeOrderCreated(name, data).value.orderId)]), Some(Conn(NotFound)))
  {
    StrictOrderExistsEffect(e, fault, DecodeOrderCreated(name, data).value.orderId);
  }

  /** `handleEvent` of this revision: the handler's result, with no
      checkpoint saved. */
  function HandleEventSpec(e: Env, fault: Request -> Option<ConnError>, chainID: Int64, abi: seq<AbiEvent>, log: Log): (Env, Option<Error>) {
    EventIndexer.Handled(e, fault, chainID, Strict(fault), abi, log)
  }

  function LogStep(fault: Request -> Option<ConnError>, chainID: Int64, abi: seq<AbiEvent>): Step<Env, Log> {
    (e, l: Log) => HandleEventSpec(e, fault, chainID, abi, l)
  }

  /** A pass of this revision adds no order id and no match id to what the
      collector holds, and leaves its checkpoints as they were. */
  lemma {:induction false} PassKeepsIds(e: Env, fault: Request -> Option<ConnError>, chainID: Int64, abi: seq<AbiEvent>, logs: seq<Log>)
    ensures var e' := Run(e, LogStep(fault, chainID, abi), logs).0;
      && Ids(e'.store.orders) == Ids(e.store.orders)
      && Ids(e'.store.matches) == Ids(e.store.matches)
      && e'.store.blocks == e.store.blocks
    decreases |logs|
  {
    if logs != [] {
      var front := logs[..|logs| - 1];
      PassKeepsIds(e, fault, chainID, abi, front);
      var (e1, _, err1) := Run(e, LogStep(fault, chainID, abi), front);
      if err1.None? {
        StrictHandlersKeepIds(e1, fault, chainID, abi, logs[|logs| - 1]);
      }
    }
  }

  /** `orderExists` of this revision. */
  method OrderExists(c: Collector, id: Int64) returns (r: Result<bool, Error>)
    modifies c
    ensures c.fault == old(c.fault)
    ensures (c.State(), r) == StrictOrderExistsSpec(old(c.State()), c.fault, id)
  {
    var reply := c.Send(FindOrder(id));
    r := StrictExistsFrom(id, "OrderID", reply);
  }

  /** `matchExists` of this revision. */
  method MatchExists(c: Collector, id: Int64) returns (r: Result<bool, Error>)
    modifies c
    ensures c.fault == old(c.fault)
    ensures (c.State(), r) == StrictMatchExistsSpec(old(c.State()), c.fault, id)
  {
    var reply := c.Send(FindMatch(id));
    r := StrictExistsFrom(id, "MatchID", reply);
  }

  /** The indexer of one chain, in this revision. */
  class FixedIndexer {
    const chainID: Int64
    const collector: Collector
    const node: Node
    const abi: seq<AbiEvent>
    const contract: Address
    const lastBlock: Uint64

    constructor (chainID: Int64, collector: Collector, node: Node, abi: seq<AbiEvent>, contract: Address, lastBlock: Uint64)
      ensures this.chainID == chainID && this.collector == collector && this.node == node
      ensures this.abi == abi && this.contract == contract && this.lastBlock == lastBlock
    {
      this.chainID, this.collector, this.node := chainID, collector, node;
      this.abi, this.contract, this.lastBlock := abi, contract, lastBlock;
    }

    /** `handleOrderCreated`. */
    method HandleOrderCreated(name: string, data: Payload) returns (err: Option<Error>)
      modifies collector
      ensures collector.fault == old(collector.fault)
      ensures (collector.State(), err) == OrderCreatedSpec(old(collector.State()), collector.fault, chainID, Strict(collector.fault).orders, name, data)
    {
      var o := DecodeOrderCreated(name, data);
      if o.None? {
        return Some(Decode);
      }
      var found := OrderExists(collector, o.value.orderId);
      if found.Err? {
        return Some(found.error);
      }
      if found.value {
        return None;
      }
      err := Helpers.AddOrder(collector, chainID, o.value);
    }

    /** `handleOrderUpdated`. */
    method HandleOrderUpdated(name: string, data: Payload) returns (err: Option<Error>)
      modifies collector
      ensures collector.fault == old(collector.fault)
      ensures (collector.State(), err) == OrderUpdatedSpec(old(collector.State()), collector.fault, chainID, Strict(collector.fault).orders, name, data)
    {
      var u := DecodeOrderUpdated(name, data);
      if u.None? {
        return Some(Decode);
      }
      var found := OrderExists(collector, u.value.0);
      if found.Err? {
        return Some(found.error);
      }
      if found.value {
        return None;
      }
      err := Helpers.UpdateOrder(collector, chainID, u.value.0, u.value.1);
    }

    /** `handleMatchCreated`. */
    method HandleMatchCreated(name: string, data: Payload) returns (err: Option<Error>)
      modifies collector
      ensures collector.fault == old(collector.fault)
      ensures (collector.State(), err) == MatchCreatedSpec(old(collector.State()), collector.fault, chainID, Strict(collector.fault).matches, name, data)
    {
      var m := DecodeMatchCreated(name, data);
      if m.None? {
        return Some(Decode);
      }
      var found := MatchExists(collector, m.value.matchId);
      if found.Err? {
        return Some(found.error);
      }
      if found.value {
        return None;
      }
      err := Helpers.AddMatch(collector, chainID, m.value);
    }

    /** `handleMatchUpdated`. */
    method HandleMatchUpdated(name: string, data: Payload) returns (err: Option<Error>)
      modifies collector
      ensures collector.fault == old(collector.fault)
      ensures (collector.State(), err) == MatchUpdatedSpec(old(collector.State()), collector.fault, chainID, Strict(collector.fault).matches, name, data)
    {
      var u := DecodeMatchUpdated(name, data);
      if u.None? {
        return Some(Decode);
      }
      var found := MatchExists(collector, u.value.0);
      if found.Err? {
        return Some(found.error);
      }
      if found.value {
        return None;
      }
      err := Helpers.UpdateMatch(collector, chainID, u.value.0, u.value.1);
    }

    /** `filters`: the contract's address and the topic of every handled
        event. */
    method Filters() returns (q: FilterQuery)
      ensures q.addresses == [contract] && q.fromBlock == 0 && q.toBlock == None
      ensures forall t :: t in q.topics <==> t in EventIndexer.HandlerTopics(abi)
    {
      ghost var names;
      q, names := Helpers.Filters(EventIndexer.HandlerNames, abi, contract);
      forall t | t in q.topics ensures t in EventIndexer.HandlerTopics(abi) {
        var i :| 0 <= i < |q.topics| && q.topics[i] == t;
        assert names[i] in names;
      }
      forall t | t in EventIndexer.HandlerTopics(abi) ensures t in q.topics {
        var n :| n in EventIndexer.HandlerNames && t == EventID(abi, n);
        assert n in names;
        var i :| 0 <= i < |names| && names[i] == n;
        assert q.topics[i] == t;
      }
    }

    /** `handleEvent`: wrapping a nil handler error yields nil, so the
        handler's result is returned as it is. */
    method HandleEvent(l: Log) returns (err: Option<Error>)
      modifies collector
      ensures collector.fault == old(collector.fault)
      ensures (collector.State(), err) == HandleEventSpec(old(collector.State()), collector.fault, chainID, abi, l)
    {
      var name := EventByID(abi, l.topic);
      if name.None? {
        return Some(UnknownTopic);
      }
      var n := name.value;
      if n !in EventIndexer.HandlerNames {
        return Some(NoHandler);
      }
      if n == "OrderCreated" {
        err := HandleOrderCreated(n, l.data);
      } else if n == "OrderUpdated" {
        err := HandleOrderUpdated(n, l.data);
      } else if n == "MatchCreated" {
        err := HandleMatchCreated(n, l.data);
      } else {
        err := HandleMatchUpdated(n, l.data);
      }
    }

    /** The loop shared by `handleUnprocessedEvents` and `waitForEvents`. */
    method HandleLogs(logs: seq<Log>) returns (err: Option<Error>)
      modifies collector
      ensures collector.fault == old(collector.fault)
      ensures var (e, _, failure) := Run(old(collector.State()), LogStep(collector.fault, chainID, abi), logs);
        collector.State() == e && err == failure
    {
      var c := collector;
      ghost var e0 := c.State();
      var i := 0;
      while i < |logs|
        invariant i <= |logs| && c.fault == old(c.fault)
        invariant Run(e0, LogStep(c.fault, chainID, abi), logs[..i]) == (c.State(), i, None)
      {
        assert logs[..i + 1][..i] == logs[..i];
        err := HandleEvent(logs[i]);
        if err.Some? {
          RunStops(e0, LogStep(c.fault, chainID, abi), logs, i + 1);
          return;
        }
        i := i + 1;
      }
      assert logs[..i] == logs;
      err := None;
    }

    /** `handleUnprocessedEvents`: the same query as the first revision. */
    method HandleUnprocessedEvents(currentBlock: Uint64) returns (err: Option<Error>, ghost q: FilterQuery)
      modifies node, collector
      ensures collector.fault == old(collector.fault)
      ensures node.calls == old(node.calls) + [FilterLogsCall(q)]
      ensures q.addresses == [contract] && (forall t :: t in q.topics <==> t in EventIndexer.HandlerTopics(abi))
      ensures q.fromBlock == lastBlock && q.toBlock == Some((currentBlock + 1) % TWO_64)
      ensures !node.Serves(q) ==> err == Some(Rpc) && collector.State() == old(collector.State())
      ensures node.Serves(q) ==>
        var (e, _, failure) := Run(old(collector.State()), LogStep(collector.fault, chainID, abi), Matching(node.history, q));
        collector.State() == e && err == failure
    {
      var filters := Filters();
      filters := filters.(fromBlock := lastBlock, toBlock := Some((currentBlock + 1) % TWO_64));
      q := filters;
      var logs := node.FilterLogs(filters);
      if logs.Err? {
        return Some(logs.error), q;
      }
      err := HandleLogs(logs.value);
    }

    /** `waitForEvents`: as in the first revision, it never returns without
        an error. */
    method WaitForEvents(delivered: seq<Log>, ending: Error) returns (err: Option<Error>)
      modifies collector
      ensures collector.fault == old(collector.fault)
      ensures err.Some?
      ensures var (e, _, failure) := Run(old(collector.State()), LogStep(collector.fault, chainID, abi), delivered);
        collector.State() == e && err == (if failure.Some? then failure else Some(ending))
    {
      err := HandleLogs(delivered);
      if err.None? {
        err := Some(ending);
      }
    }

    /** `runFixed`: read the head block, catch up to it, and only then
        subscribe; unlike the first revision, the subscription is made after
        the catch-up query. A run always ends with an error. */
    method Start(ending: Error) returns (err: Option<Error>)
      modifies node, collector
      ensures collector.fault == old(collector.fault)
      ensures err.Some?
      ensures !node.reachable ==>
        err == Some(Rpc) && node.calls == old(node.calls) + [BlockNumberCall] && collector.State() == old(collector.State())
      ensures node.reachable ==>
        && |node.calls| >= |old(node.calls)| + 2
        && node.calls[..|old(node.calls)|] == old(node.calls)
        && node.calls[|old(node.calls)|] == BlockNumberCall
        && node.calls[|old(node.calls)| + 1].FilterLogsCall?
        && var catchUp := node.calls[|old(node.calls)| + 1].query;
          && catchUp.fromBlock == lastBlock && catchUp.toBlock == Some((node.head + 1) % TWO_64)
          && (!node.Serves(catchUp) ==>
                |node.calls| == |old(node.calls)| + 2 && collector.State() == old(collector.State()) && err == Some(Rpc))
          && (node.Serves(catchUp) ==>
                var (e1, _, f1) := Run(old(collector.State()), LogStep(collector.fault, chainID, abi), Matching(node.history, catchUp));
                if f1.Some? then |node.calls| == |old(node.calls)| + 2 && collector.State() == e1 && err == f1
                else
                  && |node.calls| == |old(node.calls)| + 3
                  && node.calls[|old(node.calls)| + 2].SubscribeCall?
                  && (!node.subscribable ==> collector.State() == e1 && err == Some(Rpc))
                  && (node.subscribable ==>
                        var (e2, _, f2) := Run(e1, LogStep(collector.fault, chainID, abi), node.live);
                        collector.State() == e2 && err == (if f2.Some? then f2 else Some(ending))))
    {
      var head := node.BlockNumber();
      if head.Err? {
        return Some(head.error);
      }
      ghost var catchUp;
      err, catchUp := HandleUnprocessedEvents(head.value);
      if err.Some? {
        return;
      }
      var q := Filters();
      var sub := node.SubscribeFilterLogs(q);
      if sub.Err? {
        return Some(sub.error);
      }
      err := WaitForEvents(sub.value, ending);
    }
  }
}
