/** The match-event passes of the window-based revision of the indexer
    (`match_orders.go`): the MatchCreated and MatchUpdated events of one
    query are sent to the collector in order, stopping at the first failure.
    Each success raises the checkpoint `lastBlock` to one past the event's
    block and, when it rose, marks it outdated (not yet saved); nothing here
    clears that mark. */
module MatchOrders {
  import opened Base
  import opened Eth
  import opened CollectorService
  import opened EventPasses
  import Helpers

  /** The MatchUpdated event: the match id and its new state. */
  datatype MatchUpdate = MatchUpdate(matchId: Id64, state: Uint8)

  /** One MatchCreated event: `addMatch`. */
  function CreatedStep(fault: Request -> Option<ConnError>, chainID: Int64): Step<Env, Emitted<SwapicaMatch>> {
    (e, ev: Emitted<SwapicaMatch>) => Helpers.AddMatchSpec(e, fault, chainID, ev.event)
  }

  /** One MatchUpdated event: `updateMatch`. */
  function UpdatedStep(fault: Request -> Option<ConnError>, chainID: Int64): Step<Env, Emitted<MatchUpdate>> {
    (e, ev: Emitted<MatchUpdate>) => Helpers.UpdateMatchSpec(e, fault, chainID, ev.event.matchId, ev.event.state)
  }

  /** A pass over MatchCreated events POSTs each event's match, in order, up
      to and including the first that fails. */
  lemma CreatedPassSends(e: Env, fault: Request -> Option<ConnError>, chainID: Int64, evs: seq<Emitted<SwapicaMatch>>)
    ensures var (e', n, failure) := Run(e, CreatedStep(fault, chainID), evs);
      var tried := if failure.Some? then n + 1 else n;
      && tried <= |evs|
      && |e'.sent| == |e.sent| + tried
      && e'.sent[..|e.sent|] == e.sent
      && forall i :: 0 <= i < tried ==> e'.sent[|e.sent| + i] == PostMatch(chainID, evs[i].event)
  {
    forall e', ev: Emitted<SwapicaMatch> ensures CreatedStep(fault, chainID)(e', ev).0.sent == e'.sent + [PostMatch(chainID, ev.event)] {
      Helpers.AddMatchEffect(e', fault, chainID, ev.event);
    }
    RunSends(e, CreatedStep(fault, chainID), (ev: Emitted<SwapicaMatch>) => PostMatch(chainID, ev.event), evs);
  }

  /** A pass over MatchUpdated events PATCHes each event's state, in order,
      up to and including the first that fails; the state is sent as the
      event carries it. */
  lemma UpdatedPassSends(e: Env, fault: Request -> Option<ConnError>, chainID: Int64, evs: seq<Emitted<MatchUpdate>>)
    ensures var (e', n, failure) := Run(e, UpdatedStep(fault, chainID), evs);
      var tried := if failure.Some? then n + 1 else n;
      && tried <= |evs|
      && |e'.sent| == |e.sent| + tried
      && e'.sent[..|e.sent|] == e.sent
      && forall i :: 0 <= i < tried ==> e'.sent[|e.sent| + i] == PatchMatch(chainID, evs[i].event.matchId, evs[i].event.state)
  {
    forall e', ev: Emitted<MatchUpdate> ensures UpdatedStep(fault, chainID)(e', ev).0.sent == e'.sent + [PatchMatch(chainID, ev.event.matchId, ev.event.state)] {
      Helpers.UpdateMatchEffect(e', fault, chainID, ev.event.matchId, ev.event.state);
    }
    RunSends(e, UpdatedStep(fault, chainID), (ev: Emitted<MatchUpdate>) => PatchMatch(chainID, ev.event.matchId, ev.event.state), evs);
  }

  /** The part of the indexer these passes use. */
  class MatchIndexer {
    const chainID: Int64
    const collector: Collector
    /** The first block not yet read. */
    var lastBlock: nat
    /** Whether `lastBlock` changed since it was last saved. */
    var lastBlockOutdated: bool

    constructor (chainID: Int64, collector: Collector, lastBlock: nat)
      ensures this.chainID == chainID && this.collector == collector
      ensures this.lastBlock == lastBlock && !lastBlockOutdated
    {
      this.chainID := chainID;
      this.collector := collector;
      this.lastBlock := lastBlock;
      lastBlockOutdated := false;
    }

    /** `addMatch`: a 409 Conflict counts as success. */
    method AddMatch(m: SwapicaMatch) returns (err: Option<Error>)
      modifies collector
      ensures collector.fault == old(collector.fault)
      ensures (collector.State(), err) == Helpers.AddMatchSpec(old(collector.State()), collector.fault, chainID, m)
    {
      err := Helpers.AddMatch(collector, chainID, m);
    }

    /** `updateMatch`: the PATCH is always sent, with the given state. */
    method UpdateMatch(id: Id64, state: Uint8) returns (err: Option<Error>)
      modifies collector
      ensures collector.fault == old(collector.fault)
      ensures (collector.State(), err) == Helpers.UpdateMatchSpec(old(collector.State()), collector.fault, chainID, id, state)
    {
      err := Helpers.UpdateMatch(collector, chainID, id, state);
    }

    /** What each handled event does to the checkpoint: it is raised to one
        past the event's block when that is higher, and then marked
        outdated. */
    method Raise(blockNumber: nat)
      modifies this
      ensures lastBlock == (if blockNumber + 1 > old(lastBlock) then blockNumber + 1 else old(lastBlock))
      ensures lastBlockOutdated == (old(lastBlockOutdated) || lastBlock > old(lastBlock))
    {
      var b := blockNumber + 1;
      if b > lastBlock {
        lastBlock := b;
        lastBlockOutdated := true;
      }
    }

    /** The loop of `handleCreatedMatches`: the events are sent in order
        with `addMatch` until the first failure; after each success the
        checkpoint is raised to one past the event's block and, when it
        rose, marked outdated. */
    method IndexCreatedEvents(evs: seq<Emitted<SwapicaMatch>>) returns (err: Option<Error>)
      modifies this, collector
      ensures collector.fault == old(collector.fault)
      ensures var (e, n, failure) := Run(old(collector.State()), CreatedStep(collector.fault, chainID), evs);
        && collector.State() == e && err == failure
        && lastBlock == HighWater(old(lastBlock), evs[..n])
        && lastBlockOutdated == (old(lastBlockOutdated) || lastBlock > old(lastBlock))
    {
      var c := collector;
      ghost var e0 := c.State();
      var i := 0;
      while i < |evs|
        invariant i <= |evs| && c.fault == old(c.fault)
        invariant Run(e0, CreatedStep(c.fault, chainID), evs[..i]) == (c.State(), i, None)
        invariant lastBlock == HighWater(old(lastBlock), evs[..i])
        invariant lastBlock >= old(lastBlock)
        invariant lastBlockOutdated == (old(lastBlockOutdated) || lastBlock > old(lastBlock))
      {
        assert evs[..i + 1][..i] == evs[..i];
        err := AddMatch(evs[i].event);
        if err.Some? {
          RunStops(e0, CreatedStep(c.fault, chainID), evs, i + 1);
          return;
        }
        Raise(evs[i].blockNumber);
        i := i + 1;
      }
      assert evs[..i] == evs;
      err := None;
    }

    /** `handleCreatedMatches`: on a filter error nothing changes; otherwise
        the events up to the first failure are written, the checkpoint is
        the high-water mark of the ones that succeeded, and the iterator's
        own error is returned when no event failed. */
    method HandleCreatedMatches(it: Iteration<SwapicaMatch>) returns (err: Option<Error>)
      modifies this, collector
      ensures collector.fault == old(collector.fault)
      ensures it.FilterFailed? ==>
        && err == Some(it.error) && collector.State() == old(collector.State())
        && lastBlock == old(lastBlock) && lastBlockOutdated == old(lastBlockOutdated)
      ensures it.Iterated? ==>
        var (e, n, failure) := Run(old(collector.State()), CreatedStep(collector.fault, chainID), it.events);
        && collector.State() == e
        && lastBlock == HighWater(old(lastBlock), it.events[..n])
        && lastBlockOutdated == (old(lastBlockOutdated) || lastBlock > old(lastBlock))
        && err == (if failure.Some? then failure else it.trailing)
    {
      if it.FilterFailed? {
        return Some(it.error);
      }
      err := IndexCreatedEvents(it.events);
      if err.None? {
        err := it.trailing;
      }
    }

    /** The loop of `handleUpdatedMatches`: the same with `updateMatch`. */
    method IndexUpdatedEvents(evs: seq<Emitted<MatchUpdate>>) returns (err: Option<Error>)
      modifies this, collector
      ensures collector.fault == old(collector.fault)
      ensures var (e, n, failure) := Run(old(collector.State()), UpdatedStep(collector.fault, chainID), evs);
        && collector.State() == e && err == failure
        && lastBlock == HighWater(old(lastBlock), evs[..n])
        && lastBlockOutdated == (old(lastBlockOutdated) || lastBlock > old(lastBlock))
    {
      var c := collector;
      ghost var e0 := c.State();
      var i := 0;
      while i < |evs|
        invariant i <= |evs| && c.fault == old(c.fault)
        invariant Run(e0, UpdatedStep(c.fault, chainID), evs[..i]) == (c.State(), i, None)
        invariant lastBlock == HighWater(old(lastBlock), evs[..i])
        invariant lastBlock >= old(lastBlock)
        invariant lastBlockOutdated == (old(lastBlockOutdated) || lastBlock > old(lastBlock))
      {
        assert evs[..i + 1][..i] == evs[..i];
        err := UpdateMatch(evs[i].event.matchId, evs[i].event.state);
        if err.Some? {
          RunStops(e0, UpdatedStep(c.fault, chainID), evs, i + 1);
          return;
        }
        Raise(evs[i].blockNumber);
        i := i + 1;
      }
      assert evs[..i] == evs;
      err := None;
    }

    /** `handleUpdatedMatches`: the same with `updateMatch`. */
    method HandleUpdatedMatches(it: Iteration<MatchUpdate>) returns (err: Option<Error>)
      modifies this, collector
      ensures collector.fault == old(collector.fault)
      ensures it.FilterFailed? ==>
        && err == Some(it.error) && collector.State() == old(collector.State())
        && lastBlock == old(lastBlock) && lastBlockOutdated == old(lastBlockOutdated)
      ensures it.Iterated? ==>
        var (e, n, failure) := Run(old(collector.State()), UpdatedStep(collector.fault, chainID), it.events);
        && collector.State() == e
        && lastBlock == HighWater(old(lastBlock), it.events[..n])
        && lastBlockOutdated == (old(lastBlockOutdated) || lastBlock > old(lastBlock))
        && err == (if failure.Some? then failure else it.trailing)
    {
      if it.FilterFailed? {
        return Some(it.error);
      }
      err := IndexUpdatedEvents(it.events);
      if err.None? {
        err := it.trailing;
      }
    }
  }
}
