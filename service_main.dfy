/** The service of the event-driven revision (`main.go`): it reads the
    chain's saved checkpoint from the collector and seeds the indexer with
    it. A checkpoint the collector does not know is 0. */
module Service {
  import opened Base
  import opened Eth
  import opened Decimal
  import opened CollectorService
  import opened Requests
  import opened ChainNode
  import EventIndexer

  /** The 404 Not Found status. */
  const StatusNotFound: nat := 404

  /** `getLastBlock`: a GET of the chain's block resource. A 404 answer is
      block 0; any other failure is returned; a found resource's ID is
      parsed as a decimal uint64. */
  function GetLastBlockSpec(e: Env, fault: Request -> Option<ConnError>, chainID: Int64): (Env, Result<Uint64, Error>) {
    var (e1, reply) := Call(e, fault, GetBlock(chainID));
    match reply
    case Failed(err) =>
      if err.status == Some(StatusNotFound) then (e1, Ok(0)) else (e1, Err(Conn(err)))
    case _ =>
      // any other answer leaves the response document empty, and its ID ""
      var id := if reply.FoundBlock? then reply.block.key.id else "";
      match ParseUint(id)
      case None => (e1, Err(Parse))
      case Some(n) => (e1, Ok(n))
  }

  /** The request goes to the chain's block path and stores nothing. An
      unfaulted read of a chain without a checkpoint is 0; of a chain with
      one, the parse of its decimal ID, failing exactly when it is not a
      decimal uint64. A failure with the 404 status is 0 whatever the
      store holds; any other failure is returned. */
  lemma GetLastBlockEffect(e: Env, fault: Request -> Option<ConnError>, chainID: Int64)
    ensures var (e', r) := GetLastBlockSpec(e, fault, chainID);
      && e' == Env(e.store, e.sent + [GetBlock(chainID)])
      && Path(GetBlock(chainID)) == FormatInt(chainID) + "/block"
      && (fault(GetBlock(chainID)).None? && chainID !in e.store.blocks ==> r == Ok(0))
      && (fault(GetBlock(chainID)).None? && chainID in e.store.blocks ==>
            (r.Ok? <==> ParseUint(e.store.blocks[chainID]).Some?)
            && (r.Ok? ==> r.value == ParseUint(e.store.blocks[chainID]).value)
            && (r.Err? ==> r.error == Parse))
      && (fault(GetBlock(chainID)).Some? ==>
            r == if fault(GetBlock(chainID)).value.status == Some(StatusNotFound) then Ok(0)
                 else Err(Conn(fault(GetBlock(chainID)).value)))
  {
  }

  /** The checkpoint round trip: after `updateLastBlock` saved block `n`
      for a chain, `getLastBlock` reads `n` back. */
  lemma CheckpointRoundTrip(e: Env, fault: Request -> Option<ConnError>, chainID: Int64, n: Uint64)
    requires fault(PostBlock(chainID, n)).None? && fault(GetBlock(chainID)).None?
    ensures var (e1, _) := Call(e, fault, PostBlock(chainID, n));
      GetLastBlockSpec(e1, fault, chainID).1 == Ok(n)
  {
    ParseFormatUint(n);
  }

  /** `getLastBlock` over the collector. */
  method GetLastBlock(c: Collector, chainID: Int64) returns (r: Result<Uint64, Error>)
    modifies c
    ensures c.fault == old(c.fault)
    ensures (c.State(), r) == GetLastBlockSpec(old(c.State()), c.fault, chainID)
  {
    var reply := c.Send(GetBlock(chainID));
    if reply.Failed? {
      if reply.error.status == Some(StatusNotFound) {
        return Ok(0);
      }
      return Err(Conn(reply.error));
    }
    var id := if reply.FoundBlock? then reply.block.key.id else "";
    var n := ParseUint(id);
    if n.None? {
      return Err(Parse);
    }
    r := Ok(n.value);
  }

  /** `run`: the indexer is made only when the checkpoint was read, and it
      starts from that checkpoint; a failed read is returned instead. */
  method Run(chainID: Int64, c: Collector, node: Node, abi: seq<AbiEvent>, contract: Address)
    returns (r: Result<EventIndexer.Indexer, Error>)
    modifies c
    ensures c.fault == old(c.fault)
    ensures var (e, last) := GetLastBlockSpec(old(c.State()), c.fault, chainID);
      && c.State() == e
      && (last.Err? ==> r == Err(last.error))
      && (last.Ok? ==> r.Ok? && fresh(r.value) && r.value.lastBlock == last.value
                       && r.value.chainID == chainID && r.value.collector == c && r.value.node == node
                       && r.value.abi == abi && r.value.contract == contract)
  {
    var last := GetLastBlock(c, chainID);
    if last.Err? {
      return Err(last.error);
    }
    var runner := new EventIndexer.Indexer(chainID, c, node, abi, contract, last.value);
    r := Ok(runner);
  }
}
