/** The order-event passes of the window-based revision of the indexer
    (`orders.go`): the OrderCreated and OrderUpdated events of one query are
    sent to the collector in order, stopping at the first failure, and the
    checkpoint `lastBlock` is raised to one past the block of every event
    handled. */
module Orders {
  import opened Base
  import opened Eth
  import opened CollectorService
  import opened EventPasses
  import Helpers

  /** The OrderUpdated event: the order id and its new status. */
  datatype OrderUpdate = OrderUpdate(orderId: Id64, status: OrderStatus)

  /** One OrderCreated event: `addOrder`. */
  function CreatedStep(fault: Request -> Option<ConnError>, chainID: Int64): Step<Env, Emitted<SwapicaOrder>> {
    (e, ev: Emitted<SwapicaOrder>) => Helpers.AddOrderSpec(e, fault, chainID, ev.event)
  }

  /** One OrderUpdated event: `updateOrder`. */
  function UpdatedStep(fault: Request -> Option<ConnError>, chainID: Int64): Step<Env, Emitted<OrderUpdate>> {
    (e, ev: Emitted<OrderUpdate>) => Helpers.UpdateOrderSpec(e, fault, chainID, ev.event.orderId, ev.event.status)
  }

  /** A pass over OrderCreated events POSTs each event's order, in order,
      up to and including the first that fails. */
  lemma CreatedPassSends(e: Env, fault: Request -> Option<ConnError>, chainID: Int64, evs: seq<Emitted<SwapicaOrder>>)
    ensures var (e', n, failure) := Run(e, CreatedStep(fault, chainID), evs);
      var tried := if failure.Some? then n + 1 else n;
      && tried <= |evs|
      && |e'.sent| == |e.sent| + tried
      && e'.sent[..|e.sent|] == e.sent
      && forall i :: 0 <= i < tried ==> e'.sent[|e.sent| + i] == PostOrder(chainID, evs[i].event)
  {
    forall e', ev: Emitted<SwapicaOrder> ensures CreatedStep(fault, chainID)(e', ev).0.sent == e'.sent + [PostOrder(chainID, ev.event)] {
      Helpers.AddOrderEffect(e', fault, chainID, ev.event);
    }
    RunSends(e, CreatedStep(fault, chainID), (ev: Emitted<SwapicaOrder>) => PostOrder(chainID, ev.event), evs);
  }

  /** A pass over OrderUpdated events PATCHes each event's status, in order,
      up to and including the first that fails; no existence check is made. */
  lemma UpdatedPassSends(e: Env, fault: Request -> Option<ConnError>, chainID: Int64, evs: seq<Emitted<OrderUpdate>>)
    ensures var (e', n, failure) := Run(e, UpdatedStep(fault, chainID), evs);
      var tried := if failure.Some? then n + 1 else n;
      && tried <= |evs|
      && |e'.sent| == |e.sent| + tried
      && e'.sent[..|e.sent|] == e.sent
      && forall i :: 0 <= i < tried ==> e'.sent[|e.sent| + i] == PatchOrder(chainID, evs[i].event.orderId, evs[i].event.status)
  {
    forall e', ev: Emitted<OrderUpdate> ensures UpdatedStep(fault, chainID)(e', ev).0.sent == e'.sent + [PatchOrder(chainID, ev.event.orderId, ev.event.status)] {
      Helpers.UpdateOrderEffect(e', fault, chainID, ev.event.orderId, ev.event.status);
    }
    RunSends(e, UpdatedStep(fault, chainID), (ev: Emitted<OrderUpdate>) => PatchOrder(chainID, ev.event.orderId, ev.event.status), evs);
  }

  /** The part of the indexer these passes use: the chain it indexes, its
      collector client and the checkpoint. */
  class OrderIndexer {
    const chainID: Int64
    const collector: Collector
    /** The first block not yet read. */
    var lastBlock: nat

    constructor (chainID: Int64, collector: Collector, lastBlock: nat)
      ensures this.chainID == chainID && this.collector == collector && this.lastBlock == lastBlock
    {
      this.chainID := chainID;
      this.collector := collector;
      this.lastBlock := lastBlock;
    }

    /** `addOrder`: a 409 Conflict counts as success. */
    method AddOrder(o: SwapicaOrder) returns (err: Option<Error>)
      modifies collector
      ensures collector.fault == old(collector.fault)
      ensures (collector.State(), err) == Helpers.AddOrderSpec(old(collector.State()), collector.fault, chainID, o)
    {
      err := Helpers.AddOrder(collector, chainID, o);
    }

    /** `updateOrder`: the PATCH is always sent. */
    method UpdateOrder(id: Id64, status: OrderStatus) returns (err: Option<Error>)
      modifies collector
      ensures collector.fault == old(collector.fault)
      ensures (collector.State(), err) == Helpers.UpdateOrderSpec(old(collector.State()), collector.fault, chainID, id, status)
    {
      err := Helpers.UpdateOrder(collector, chainID, id, status);
    }

    /** What each handled event does to the checkpoint: it is raised to one
        past the event's block when that is higher. */
    method Raise(blockNumber: nat) returns (raised: bool)
      modifies this
      ensures lastBlock == (if blockNumber + 1 > old(lastBlock) then blockNumber + 1 else old(lastBlock))
      ensures raised == (lastBlock > old(lastBlock))
    {
      var b := blockNumber + 1;
      raised := b > lastBlock;
      if raised {
        lastBlock := b;
      }
    }

    /** The loop of `handleCreatedOrders`: the events are sent in order with
        `addOrder` until the first failure, and after each success the
        checkpoint is raised to one past the event's block. */
    method IndexCreatedEvents(evs: seq<Emitted<SwapicaOrder>>) returns (lastBlockUpdated: bool, err: Option<Error>)
      modifies this, collector
      ensures collector.fault == old(collector.fault)
      ensures var (e, n, failure) := Run(old(collector.State()), CreatedStep(collector.fault, chainID), evs);
        && collector.State() == e && err == failure
        && lastBlock == HighWater(old(lastBlock), evs[..n])
        && lastBlockUpdated == (lastBlock > old(lastBlock))
    {
      var c := collector;
      ghost var e0 := c.State();
      lastBlockUpdated := false;
      var i := 0;
      while i < |evs|
        invariant i <= |evs| && c.fault == old(c.fault)
        invariant Run(e0, CreatedStep(c.fault, chainID), evs[..i]) == (c.State(), i, None)
        invariant lastBlock == HighWater(old(lastBlock), evs[..i])
        invariant lastBlock >= old(lastBlock) && lastBlockUpdated == (lastBlock > old(lastBlock))
      {
        assert evs[..i + 1][..i] == evs[..i];
        err := AddOrder(evs[i].event);
        if err.Some? {
          RunStops(e0, CreatedStep(c.fault, chainID), evs, i + 1);
          return;
        }
        var raised := Raise(evs[i].blockNumber);
        lastBlockUpdated := lastBlockUpdated || raised;
        i := i + 1;
      }
      assert evs[..i] == evs;
      err := None;
    }

    /** `handleCreatedOrders`: on a filter error nothing changes; otherwise
        the events up to the first failure are written, the checkpoint is
        the high-water mark of the ones that succeeded, the flag says
        whether it rose, and the iterator's own error is returned when no
        event failed. */
    method HandleCreatedOrders(it: Iteration<SwapicaOrder>) returns (lastBlockUpdated: bool, err: Option<Error>)
      modifies this, collector
      ensures collector.fault == old(collector.fault)
      ensures it.FilterFailed? ==>
        && !lastBlockUpdated && err == Some(it.error)
        && lastBlock == old(lastBlock) && collector.State() == old(collector.State())
      ensures it.Iterated? ==>
        var (e, n, failure) := Run(old(collector.State()), CreatedStep(collector.fault, chainID), it.events);
        && collector.State() == e
        && lastBlock == HighWater(old(lastBlock), it.events[..n])
        && lastBlockUpdated == (lastBlock > old(lastBlock))
        && err == (if failure.Some? then failure else it.trailing)
    {
      if it.FilterFailed? {
        return false, Some(it.error);
      }
      lastBlockUpdated, err := IndexCreatedEvents(it.events);
      if err.None? {
        err := it.trailing;
      }
    }

    /** The loop of `handleUpdatedOrders`: the events are sent in order with
        `updateOrder` until the first failure, and after each success the
        checkpoint is raised to one past the event's block. */
    method IndexUpdatedEvents(evs: seq<Emitted<OrderUpdate>>) returns (lastBlockUpdated: bool, err: Option<Error>)
      modifies this, collector
      ensures collector.fault == old(collector.fault)
      ensures var (e, n, failure) := Run(old(collector.State()), UpdatedStep(collector.fault, chainID), evs);
        && collector.State() == e && err == failure
        && lastBlock == HighWater(old(lastBlock), evs[..n])
        && lastBlockUpdated == (lastBlock > old(lastBlock))
    {
      var c := collector;
      ghost var e0 := c.State();
      lastBlockUpdated := false;
      var i := 0;
      while i < |evs|
        invariant i <= |evs| && c.fault == old(c.fault)
        invariant Run(e0, UpdatedStep(c.fault, chainID), evs[..i]) == (c.State(), i, None)
        invariant lastBlock == HighWater(old(lastBlock), evs[..i])
        invariant lastBlock >= old(lastBlock) && lastBlockUpdated == (lastBlock > old(lastBlock))
      {
        assert evs[..i + 1][..i] == evs[..i];
        err := UpdateOrder(evs[i].event.orderId, evs[i].event.status);
        if err.Some? {
          RunStops(e0, UpdatedStep(c.fault, chainID), evs, i + 1);
          return;
        }
        var raised := Raise(evs[i].blockNumber);
        lastBlockUpdated := lastBlockUpdated || raised;
        i := i + 1;
      }
      assert evs[..i] == evs;
      err := None;
    }

    /** `handleUpdatedOrders`: the same with `updateOrder`. */
    method HandleUpdatedOrders(it: Iteration<OrderUpdate>) returns (lastBlockUpdated: bool, err: Option<Error>)
      modifies this, collector
      ensures collector.fault == old(collector.fault)
      ensures it.FilterFailed? ==>
        && !lastBlockUpdated && err == Some(it.error)
        && lastBlock == old(lastBlock) && collector.State() == old(collector.State())
      ensures it.Iterated? ==>
        var (e, n, failure) := Run(old(collector.State()), UpdatedStep(collector.fault, chainID), it.events);
        && collector.State() == e
        && lastBlock == HighWater(old(lastBlock), it.events[..n])
        && lastBlockUpdated == (lastBlock > old(lastBlock))
        && err == (if failure.Some? then failure else it.trailing)
    {
      if it.FilterFailed? {
        return false, Some(it.error);
      }
      lastBlockUpdated, err := IndexUpdatedEvents(it.events);
      if err.None? {
        err := it.trailing;
      }
    }
  }
}
