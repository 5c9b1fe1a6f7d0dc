/** The catch-up pass of the window-based revision of the indexer
    (`catchUp`): the blocks after the checkpoint up to the network's latest
    block are read in contiguous, inclusive windows of at most
    `blockRange + 1` blocks, in order, stopping at the first window whose
    handling fails. The checkpoint convention of this revision: `lastBlock`
    is the last block fully read, and the next read starts at
    `lastBlock + 1`.

    `handleEvents` and the deferred `updateLastBlock(ctx)` are not part of
    this model: the first is an outcome per window, the second a recorded
    call. */
module CatchUp {
  import opened Base

  /** An inclusive block range `[from, to]`, as `eth_getLogs` reads it. */
  datatype Span = Span(from: nat, to: nat)

  /** `bind.FilterOpts`: a start block and an optional inclusive end; no end
      means up to the latest block. */
  datatype FilterOpts = FilterOpts(start: nat, end: Option<nat>)

  function SpanOpts(w: Span): FilterOpts {
    FilterOpts(w.from, Some(w.to))
  }

  /** The windows the loop queries, starting at `start`, up to `curr`, each
      at most `range + 1` blocks long; WindowsShape states their layout. */
  function Windows(start: nat, curr: nat, range: nat): (ws: seq<Span>)
    ensures ws == [] <==> start > curr
    decreases curr + 1 - start
  {
    if start > curr then []
    else
      var end := if start + range > curr then curr else start + range;
      [Span(start, end)] + Windows(start + range + 1, curr, range)
  }

  /** The first window starts at `start` and the last ends at `curr`; every
      window lies within `[start, curr]` and spans at most `range + 1`
      blocks; each window starts right after the previous one ends. */
  lemma {:induction false} WindowsShape(start: nat, curr: nat, range: nat)
    ensures var ws := Windows(start, curr, range);
      && (ws != [] ==> ws[0].from == start && ws[|ws| - 1].to == curr)
      && (forall i :: 0 <= i < |ws| ==> start <= ws[i].from <= ws[i].to <= curr)
      && (forall i :: 0 <= i < |ws| ==> ws[i].to - ws[i].from <= range)
      && (forall i, j :: 0 <= i < j < |ws| && j == i + 1 ==> ws[j].from == ws[i].to + 1)
    decreases curr + 1 - start
  {
    if start <= curr {
      var ws := Windows(start, curr, range);
      var rest := Windows(start + range + 1, curr, range);
      WindowsShape(start + range + 1, curr, range);
      assert ws == [ws[0]] + rest;
      assert forall i :: 0 < i < |ws| ==> ws[i] == rest[i - 1];
    }
  }

  /** A block lies in some window exactly when it lies in `[start, curr]`. */
  lemma {:induction false} WindowsCover(start: nat, curr: nat, range: nat, b: nat)
    ensures (exists i :: 0 <= i < |Windows(start, curr, range)| && Windows(start, curr, range)[i].from <= b <= Windows(start, curr, range)[i].to)
            <==> start <= b <= curr
    decreases curr + 1 - start
  {
    var ws := Windows(start, curr, range);
    WindowsShape(start, curr, range);
    if start <= b <= curr {
      var end := if start + range > curr then curr else start + range;
      assert ws[0] == Span(start, end);
      if b <= end {
        assert 0 <= 0 < |ws| && ws[0].from <= b <= ws[0].to;
        assert exists i :: 0 <= i < |ws| && ws[i].from <= b <= ws[i].to;
      } else {
        var rest := Windows(start + range + 1, curr, range);
        assert ws == [ws[0]] + rest;
        WindowsCover(start + range + 1, curr, range, b);
        var j :| 0 <= j < |rest| && rest[j].from <= b <= rest[j].to;
        assert ws[j + 1] == rest[j];
      }
    }
  }

  /** Windows are strictly ordered: an earlier window ends before a later one
      starts, so no block is read twice. */
  lemma {:induction false} WindowsDisjoint(start: nat, curr: nat, range: nat, i: nat, j: nat)
    requires i < j < |Windows(start, curr, range)|
    ensures Windows(start, curr, range)[i].to < Windows(start, curr, range)[j].from
    decreases j - i
  {
    var ws := Windows(start, curr, range);
    WindowsShape(start, curr, range);
    if i + 1 < j {
      WindowsDisjoint(start, curr, range, i + 1, j);
    }
  }

  /** Reading 1001..1050 with a block range of 20. */
  lemma WindowsExample()
    ensures Windows(1001, 1050, 20) == [Span(1001, 1021), Span(1022, 1042), Span(1043, 1050)]
  {
    assert Windows(1064, 1050, 20) == [];
    assert Windows(1043, 1050, 20) == [Span(1043, 1050)];
    assert Windows(1022, 1050, 20) == [Span(1022, 1042), Span(1043, 1050)];
  }

  /** What the catch-up pass asks of its collaborators. */
  datatype Call = LatestBlock | HandleEvents(opts: FilterOpts) | UpdateLastBlock

  function Queries(ws: seq<Span>): (cs: seq<Call>)
    ensures |cs| == |ws|
    ensures forall i :: 0 <= i < |ws| ==> cs[i] == HandleEvents(SpanOpts(ws[i]))
  {
    if ws == [] then [] else [HandleEvents(SpanOpts(ws[0]))] + Queries(ws[1..])
  }

  /** Reading windows in order until the first whose handling fails: the
      queries made and the failure, if any. */
  function Read(ws: seq<Span>, handle: FilterOpts -> Option<Error>): (seq<Call>, Option<Error>) {
    if ws == [] then ([], None)
    else
      var err := handle(SpanOpts(ws[0]));
      if err.Some? then ([HandleEvents(SpanOpts(ws[0]))], err)
      else
        var (cs, err') := Read(ws[1..], handle);
        ([HandleEvents(SpanOpts(ws[0]))] + cs, err')
  }

  /** Read succeeds exactly when every window is handled, and then it has
      queried them all. */
  lemma {:induction false} ReadSucceeds(ws: seq<Span>, handle: FilterOpts -> Option<Error>)
    ensures Read(ws, handle).1.None? <==> forall i :: 0 <= i < |ws| ==> handle(SpanOpts(ws[i])).None?
    ensures Read(ws, handle).1.None? ==> Read(ws, handle).0 == Queries(ws)
  {
    if ws != [] {
      ReadSucceeds(ws[1..], handle);
      assert forall i :: 0 < i < |ws| ==> ws[i] == ws[1..][i - 1];
    }
  }

  /** When Read fails, it has queried the windows up to and including the
      first failing one, returns that window's error, and queries no later
      window. */
  lemma {:induction false} ReadStopsAtFirstFailure(ws: seq<Span>, handle: FilterOpts -> Option<Error>)
    requires Read(ws, handle).1.Some?
    ensures
      exists k ::
        && 0 <= k < |ws|
        && (forall i :: 0 <= i < k ==> handle(SpanOpts(ws[i])).None?)
        && Read(ws, handle).1 == handle(SpanOpts(ws[k]))
        && Read(ws, handle).0 == Queries(ws[..k + 1])
  {
    if handle(SpanOpts(ws[0])).Some? {
      assert Queries(ws[..1]) == [HandleEvents(SpanOpts(ws[0]))];
      assert 0 <= 0 < |ws| && Read(ws, handle).0 == Queries(ws[..1]);
    } else {
      var tail := ws[1..];
      ReadStopsAtFirstFailure(tail, handle);
      var k :| 0 <= k < |tail|
        && (forall i :: 0 <= i < k ==> handle(SpanOpts(tail[i])).None?)
        && Read(tail, handle).1 == handle(SpanOpts(tail[k]))
        && Read(tail, handle).0 == Queries(tail[..k + 1]);
      var prefix := ws[..k + 2];
      assert prefix[1..] == tail[..k + 1];
      assert Queries(prefix) == [HandleEvents(SpanOpts(ws[0]))] + Queries(tail[..k + 1]);
      assert forall i :: 0 < i < k + 1 ==> ws[i] == tail[i - 1];
      assert 0 <= k + 1 < |ws| && Read(ws, handle).1 == handle(SpanOpts(ws[k + 1]));
    }
  }

  class CatchUpIndexer {
    /** The last block fully read. */
    var lastBlock: nat
    /** Whether `lastBlock` has not been saved since it last changed. */
    var lastBlockOutdated: bool
    /** The calls made so far. */
    var calls: seq<Call>

    constructor (lastBlock: nat)
      ensures this.lastBlock == lastBlock && !lastBlockOutdated && calls == []
    {
      this.lastBlock := lastBlock;
      lastBlockOutdated := false;
      calls := [];
    }

    /** The window loop of `catchUp`: queries the windows from `from` to
        `currBlock` in order and stops at the first failure. */
    method ReadWindows(from: nat, currBlock: nat, blockRange: nat, handle: FilterOpts -> Option<Error>) returns (err: Option<Error>)
      modifies this
      ensures lastBlock == old(lastBlock) && lastBlockOutdated == old(lastBlockOutdated)
      ensures calls == old(calls) + Read(Windows(from, currBlock, blockRange), handle).0
      ensures err == Read(Windows(from, currBlock, blockRange), handle).1
    {
      ghost var total := Read(Windows(from, currBlock, blockRange), handle);
      var start := from;
      while start <= currBlock
        invariant old(calls) + total.0 == calls + Read(Windows(start, currBlock, blockRange), handle).0
        invariant total.1 == Read(Windows(start, currBlock, blockRange), handle).1
        invariant lastBlock == old(lastBlock) && lastBlockOutdated == old(lastBlockOutdated)
        decreases currBlock + 1 - start
      {
        var end := start + blockRange;
        if end > currBlock {
          end := currBlock;
        }
        var opts := FilterOpts(start, Some(end));
        ghost var rest := Windows(start + blockRange + 1, currBlock, blockRange);
        assert Windows(start, currBlock, blockRange) == [Span(start, end)] + rest;
        assert ([Span(start, end)] + rest)[1..] == rest;
        calls := calls + [HandleEvents(opts)];
        err := handle(opts);
        if err.Some? {
          assert Read(Windows(start, currBlock, blockRange), handle) == ([HandleEvents(opts)], err);
          assert old(calls) + total.0 == calls;
          return;
        }
        start := start + blockRange + 1;
      }
      assert Read(Windows(start, currBlock, blockRange), handle) == ([], None);
      assert old(calls) + total.0 == calls + [] == calls;
      err := None;
    }

    /** `catchUp`. `latest` is the network's answer for the latest block and
        `handle` the outcome of handling the events of each query. Every path
        ends with the deferred checkpoint save. */
    method CatchUp(blockRange: nat, latest: Result<nat, Error>, handle: FilterOpts -> Option<Error>) returns (err: Option<Error>)
      modifies this
      ensures blockRange == 0 ==>
        && calls == old(calls) + [HandleEvents(FilterOpts(old(lastBlock) + 1, None)), UpdateLastBlock]
        && err == handle(FilterOpts(old(lastBlock) + 1, None))
        && lastBlock == old(lastBlock) && lastBlockOutdated == old(lastBlockOutdated)
      ensures blockRange > 0 && (latest.Err? || latest == Ok(old(lastBlock))) ==>
        && calls == old(calls) + [LatestBlock, UpdateLastBlock]
        && err == (if latest.Err? then Some(latest.error) else None)
        && lastBlock == old(lastBlock) && lastBlockOutdated == old(lastBlockOutdated)
      ensures blockRange > 0 && latest.Ok? && latest.value != old(lastBlock) ==>
        var (queries, failure) := Read(Windows(old(lastBlock) + 1, latest.value, blockRange), handle);
        && calls == old(calls) + [LatestBlock] + queries + [UpdateLastBlock]
        && err == failure
        && (err.None? ==> lastBlock == latest.value && lastBlockOutdated)
        && (err.Some? ==> lastBlock == old(lastBlock) && lastBlockOutdated == old(lastBlockOutdated))
    {
      if blockRange == 0 {
        var opts := FilterOpts(lastBlock + 1, None);
        calls := calls + [HandleEvents(opts)];
        err := handle(opts);
        calls := calls + [UpdateLastBlock];
        return;
      }

      calls := calls + [LatestBlock];
      if latest.Err? {
        err := Some(latest.error);
        calls := calls + [UpdateLastBlock];
        return;
      }
      var currBlock := latest.value;
      if currBlock == lastBlock {
        err := None;
        calls := calls + [UpdateLastBlock];
        return;
      }

      err := ReadWindows(lastBlock + 1, currBlock, blockRange, handle);
      if err.None? {
        lastBlock := currBlock;
        lastBlockOutdated := true;
      }
      calls := calls + [UpdateLastBlock];
    }
  }
}
