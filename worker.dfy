/** The order indexer's worker (`worker.go`): it watches the OrderUpdated
    events of the Swapica contract from the block saved in `last_blocks`,
    and for each event either inserts the order (a new order, state 1, read
    from the contract) or updates the status columns of its rows, and then
    saves the event's block as the checkpoint. The worker stops at the first
    event it cannot index. */
module OrderWorker {
  import opened Base
  import opened Eth
  import opened PostgresBlock
  import opened PostgresOrder
  import opened EventPasses

  /** `orderStatusAwaitingMatch`: the state of an order just created. */
  const OrderStatusAwaitingMatch: Uint8 := 1

  /** `gobind.SwapicaOrderUpdated`: the order id, its new status and the
      number of the block that holds the event. */
  datatype OrderUpdated = OrderUpdated(id: nat, status: Status, blockNumber: Uint64)

  /** The fields of the contract's `orders` record the worker reads. */
  datatype ContractOrder = ContractOrder(
    id: nat,
    account: Address,
    tokenToSell: Address,
    tokenToBuy: Address,
    amountToSell: nat,
    amountToBuy: nat,
    destChain: nat)

  /** The chain as the worker sees it: the contract's `orders` call (none
      when the call fails), and what a `WatchOrderUpdated` subscription from
      a start block delivers before it ends, or the error it fails with. */
  datatype Contract = Contract(
    orders: nat -> Option<ContractOrder>,
    watch: Uint64 -> Result<seq<OrderUpdated>, Error>)

  /** `getOrder`: the order as the contract stores it, with the status the
      event carries; a failed contract call is an error. */
  function GetOrder(network: Contract, evt: OrderUpdated): Result<Order, Error> {
    match network.orders(evt.id)
    case None => Err(Rpc)
    case Some(o) =>
      Ok(Order(o.id, o.account, o.tokenToSell, o.tokenToBuy, o.amountToSell, o.amountToBuy, o.destChain,
               evt.status.state, evt.status.executedBy, evt.status.matchSwapica))
  }

  /** The order takes its id, account, tokens, amounts and destination
      chain from the contract and its state, executor and matching contract
      from the event; it fails exactly when the contract call does. */
  lemma GetOrderMerge(network: Contract, evt: OrderUpdated)
    ensures GetOrder(network, evt).Err? <==> network.orders(evt.id).None?
    ensures GetOrder(network, evt).Err? ==> GetOrder(network, evt).error == Rpc
    ensures GetOrder(network, evt).Ok? ==>
      var o, c := GetOrder(network, evt).value, network.orders(evt.id).value;
      && o.id == c.id && o.account == c.account
      && o.tokensToSell == c.tokenToSell && o.tokensToBuy == c.tokenToBuy
      && o.amountToSell == c.amountToSell && o.amountToBuy == c.amountToBuy
      && o.destChain == c.destChain
      && Status(o.state, o.executedBy, o.matchSwapica) == evt.status
  {
  }

  /** The two tables the worker writes. */
  datatype Tables = Tables(orders: seq<Row>, blocks: map<string, Uint64>)

  /** What the worker is wired to: its chain's name in both tables, whether
      each table accepts statements, and the contract. */
  datatype Setup = Setup(srcChain: string, ordersHealthy: bool, chain: string, blocksHealthy: bool, network: Contract)

  /** The order write of `indexOrder`: a new order is read and inserted,
      any other status updates the order's rows. */
  function WriteOrder(t: Tables, s: Setup, evt: OrderUpdated): (Tables, Option<Error>) {
    if evt.status.state == OrderStatusAwaitingMatch then
      match GetOrder(s.network, evt)
      case Err(e) => (t, Some(e))
      case Ok(o) =>
        if s.ordersHealthy then (t.(orders := t.orders + [OrderRow(o, s.srcChain)]), None) else (t, Some(Db))
    else if s.ordersHealthy then (t.(orders := ExecUpdate(t.orders, evt.id, evt.status)), None)
    else (t, Some(Db))
  }

  /** `indexOrder`: the order write, then, if it succeeded, the checkpoint
      set to the event's block. */
  function IndexOrderSpec(t: Tables, s: Setup, evt: OrderUpdated): (Tables, Option<Error>) {
    var (t1, err) := WriteOrder(t, s, evt);
    if err.Some? then (t1, err)
    else if s.blocksHealthy then (t1.(blocks := Updated(t1.blocks, s.chain, evt.blockNumber)), None)
    else (t1, Some(Db))
  }

  /** One event of the worker's loop. */
  function EventStep(s: Setup): Step<Tables, OrderUpdated> {
    (t, evt: OrderUpdated) => IndexOrderSpec(t, s, evt)
  }

  /** A new order is read from the contract and inserted as one row, and
      no row is updated; any other status updates the rows of that id
      without reading the contract. The checkpoint is set to the event's
      block exactly when both writes succeed, and a failed write leaves the
      checkpoint as it was; a failed contract read writes nothing. */
  lemma IndexOrderEffect(t: Tables, s: Setup, evt: OrderUpdated)
    ensures var (t', err) := IndexOrderSpec(t, s, evt);
      && (evt.status.state == OrderStatusAwaitingMatch ==>
            match GetOrder(s.network, evt)
            case Err(e) => t' == t && err == Some(e)
            case Ok(o) => t'.orders == (if s.ordersHealthy then t.orders + [OrderRow(o, s.srcChain)] else t.orders))
      && (evt.status.state != OrderStatusAwaitingMatch ==>
            t'.orders == (if s.ordersHealthy then ExecUpdate(t.orders, evt.id, evt.status) else t.orders))
      && (err.None? <==> WriteOrder(t, s, evt).1.None? && s.blocksHealthy)
      && t'.blocks == (if err.None? then Updated(t.blocks, s.chain, evt.blockNumber) else t.blocks)
  {
  }

  /** A status other than a new order's does not depend on what the
      contract holds: the contract is not read. */
  lemma UpdateReadsNoContract(t: Tables, s: Setup, evt: OrderUpdated, other: nat -> Option<ContractOrder>)
    requires evt.status.state != OrderStatusAwaitingMatch
    ensures IndexOrderSpec(t, s, evt) == IndexOrderSpec(t, s.(network := s.network.(orders := other)), evt)
  {
  }

  /** After the events `evs` are handled in order, stopping at the first
      failure, the chain's checkpoint is the block of the last event that
      succeeded, or as it was when none did (the chain has a row). */
  lemma {:induction false} PassCheckpoint(t: Tables, s: Setup, evs: seq<OrderUpdated>)
    requires s.chain in t.blocks
    ensures var (t', n, _) := Run(t, EventStep(s), evs);
      && s.chain in t'.blocks
      && t'.blocks == if n == 0 then t.blocks else t.blocks[s.chain := evs[n - 1].blockNumber]
    decreases |evs|
  {
    if evs != [] {
      var front := evs[..|evs| - 1];
      PassCheckpoint(t, s, front);
      var (t1, n1, err1) := Run(t, EventStep(s), front);
      if n1 > 0 {
        assert front[n1 - 1] == evs[n1 - 1];
      }
      if err1.None? {
        IndexOrderEffect(t1, s, evs[|evs| - 1]);
      }
    }
  }

  /** The order indexer. */
  class Worker {
    const orders: Orders
    const block: Block
    const network: Contract

    constructor (orders: Orders, block: Block, network: Contract)
      ensures this.orders == orders && this.block == block && this.network == network
    {
      this.orders := orders;
      this.block := block;
      this.network := network;
    }

    /** The tables. */
    ghost function State(): Tables
      reads orders.db, block.db
    {
      Tables(orders.db.rows, block.db.rows)
    }

    /** The worker's wiring. */
    ghost function Wiring(): Setup
      reads orders.db, block.db
    {
      Setup(orders.srcChain, orders.db.healthy, block.chain, block.db.healthy, network)
    }

    /** `indexOrder`. */
    method IndexOrder(evt: OrderUpdated) returns (err: Option<Error>)
      modifies orders.db, block.db
      ensures (State(), err) == IndexOrderSpec(old(State()), Wiring(), evt)
    {
      if evt.status.state == OrderStatusAwaitingMatch {
        var o := GetOrder(network, evt);
        if o.Err? {
          return Some(o.error);
        }
        err := InsertFixed(orders, o.value);
        if err.Some? {
          return err;
        }
      } else {
        err := Update(orders, evt.id, evt.status);
        if err.Some? {
          return err;
        }
      }
      err := Set(block, evt.blockNumber);
    }

    /** The `for`/`select` loop of `worker` over the events the
        subscription delivers: each is indexed in order, the first failure
        ends the loop, and otherwise the loop ends with `ending` (the
        subscription's error or the cancellation). */
    method IndexEvents(evs: seq<OrderUpdated>, ending: Error) returns (err: Option<Error>)
      modifies orders.db, block.db
      ensures var (t, _, failure) := Run(old(State()), EventStep(Wiring()), evs);
        State() == t && err == (if failure.Some? then failure else Some(ending))
    {
      var i := 0;
      while i < |evs|
        invariant 0 <= i <= |evs|
        invariant Run(old(State()), EventStep(Wiring()), evs[..i]) == (State(), i, None)
      {
        assert evs[..i + 1][..i] == evs[..i];
        err := IndexOrder(evs[i]);
        if err.Some? {
          RunStops(old(State()), EventStep(Wiring()), evs, i + 1);
          return;
        }
        i := i + 1;
      }
      assert evs[..i] == evs;
      err := Some(ending);
    }

    /** `worker`: the saved checkpoint is read (a missing row is a nil
        pointer the log line dereferences), the subscription starts from
        it, and its events are indexed until one fails or it ends. The
        worker always returns an error. */
    method Work(ending: Error) returns (err: Option<Error>)
      modifies orders.db, block.db
      ensures err.Some?
      ensures !block.db.healthy ==> err == Some(Db) && State() == old(State())
      ensures block.db.healthy && block.chain !in old(block.db.rows) ==>
        err == Some(NilCheckpoint) && State() == old(State())
      ensures block.db.healthy && block.chain in old(block.db.rows) ==>
        match network.watch(old(block.db.rows)[block.chain])
        case Err(e) => err == Some(e) && State() == old(State())
        case Ok(evs) =>
          var (t, _, failure) := Run(old(State()), EventStep(Wiring()), evs);
          State() == t && err == (if failure.Some? then failure else Some(ending))
    {
      var last := Get(block);
      if last.Err? {
        return Some(last.error);
      }
      if last.value.None? {
        return Some(NilCheckpoint);
      }
      var sub := network.watch(last.value.value);
      if sub.Err? {
        return Some(sub.error);
      }
      err := IndexEvents(sub.value, ending);
    }
  }

  /** A worker restarted after a pass watches from the block of the last
      event it indexed, so that event is delivered again: the checkpoint
      is the block already handled, not the next one. */
  lemma RestartRereadsLastBlock(t: Tables, s: Setup, evs: seq<OrderUpdated>)
    requires s.chain in t.blocks
    requires Run(t, EventStep(s), evs).1 > 0
    ensures var (t', n, _) := Run(t, EventStep(s), evs);
      Lookup(t'.blocks, s.chain) == Some(evs[n - 1].blockNumber)
  {
    PassCheckpoint(t, s, evs);
  }
}
