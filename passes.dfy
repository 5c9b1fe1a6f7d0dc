/** What the window-based revision's event passes (`orders.go`,
    `match_orders.go`) have in common: the events of one filter query are
    handled in order by one collector write each, the pass stops at the first
    write that fails, and the checkpoint is raised to one past the block of
    every event handled. The checkpoint convention of that revision:
    `lastBlock` is the first block not yet read, `max(lastBlock, blockNumber + 1)`. */
module EventPasses {
  import opened Base
  import opened CollectorService

  /** An event as the generated filter iterator yields it: the decoded event
      and the number of the block that holds it. */
  datatype Emitted<T> = Emitted(event: T, blockNumber: nat)

  /** What a generated `Filter*` call produces: the filter could not be
      created, or the events it iterates followed by the iterator's own
      error, if any. */
  datatype Iteration<T> = FilterFailed(error: Error) | Iterated(events: seq<Emitted<T>>, trailing: Option<Error>)

  /** What handling one event does to a state (the collector, a
      database): the state afterwards and the error, if any. */
  type Step<!S, !T> = (S, T) -> (S, Option<Error>)

  /** The checkpoint after the events `evs`, starting from `last`: each
      event raises it to one past its block when that is higher. */
  function HighWater<T>(last: nat, evs: seq<Emitted<T>>): nat
    decreases |evs|
  {
    if evs == [] then last
    else
      var prev := HighWater(last, evs[..|evs| - 1]);
      var b := evs[|evs| - 1].blockNumber + 1;
      if b > prev then b else prev
  }

  /** The checkpoint is the largest of `last` and every event's block
      number plus one. */
  lemma {:induction false} HighWaterIsMax<T>(last: nat, evs: seq<Emitted<T>>)
    ensures HighWater(last, evs) >= last
    ensures forall i :: 0 <= i < |evs| ==> HighWater(last, evs) >= evs[i].blockNumber + 1
    ensures HighWater(last, evs) == last || exists i :: 0 <= i < |evs| && HighWater(last, evs) == evs[i].blockNumber + 1
    decreases |evs|
  {
    if evs != [] {
      var front := evs[..|evs| - 1];
      HighWaterIsMax(last, front);
      assert forall i :: 0 <= i < |front| ==> front[i] == evs[i];
    }
  }

  /** The checkpoint never decreases as more events are handled. */
  lemma {:induction false} HighWaterMonotone<T>(last: nat, evs: seq<Emitted<T>>, i: nat, j: nat)
    requires i <= j <= |evs|
    ensures HighWater(last, evs[..i]) <= HighWater(last, evs[..j])
  {
    var hi := HighWater(last, evs[..i]);
    HighWaterIsMax(last, evs[..i]);
    HighWaterIsMax(last, evs[..j]);
    if hi != last {
      var k :| 0 <= k < i && hi == evs[..i][k].blockNumber + 1;
      assert evs[..i][k] == evs[..j][k];
    }
  }

  /** The events `evs` handled in order with `step`, stopping at the first
      failure: the state afterwards, how many events succeeded and the
      failure, if any. */
  function Run<S, T>(e: S, step: Step<S, T>, evs: seq<T>): (r: (S, nat, Option<Error>))
    ensures r.1 <= |evs|
    ensures r.2.None? <==> r.1 == |evs|
    decreases |evs|
  {
    if evs == [] then (e, 0, None)
    else
      var (e1, n, err) := Run(e, step, evs[..|evs| - 1]);
      if err.Some? then (e1, n, err)
      else
        var (e2, err2) := step(e1, evs[|evs| - 1]);
        (e2, if err2.Some? then n else n + 1, err2)
  }

  /** Once a prefix of the events has failed, the events after it change
      nothing: the pass has stopped. */
  lemma {:induction false} RunStops<S, T>(e: S, step: Step<S, T>, evs: seq<T>, i: nat)
    requires i <= |evs|
    requires Run(e, step, evs[..i]).2.Some?
    ensures Run(e, step, evs) == Run(e, step, evs[..i])
    decreases |evs| - i
  {
    if i < |evs| {
      assert evs[..i + 1][..i] == evs[..i];
      RunStops(e, step, evs, i + 1);
    } else {
      assert evs[..i] == evs;
    }
  }

  /** When every step sends exactly the request `req` gives for its event, a
      pass sends one request per event it tried, in order: the ones that
      succeeded and the one that failed, and nothing after it. */
  lemma {:induction false} RunSends<T>(e: Env, step: Step<Env, T>, req: T -> Request, evs: seq<T>)
    requires forall e', x :: step(e', x).0.sent == e'.sent + [req(x)]
    ensures var (e', n, failure) := Run(e, step, evs);
      var tried := if failure.Some? then n + 1 else n;
      && tried <= |evs|
      && |e'.sent| == |e.sent| + tried
      && e'.sent[..|e.sent|] == e.sent
      && forall i :: 0 <= i < tried ==> e'.sent[|e.sent| + i] == req(evs[i])
    decreases |evs|
  {
    if evs != [] {
      var front := evs[..|evs| - 1];
      RunSends(e, step, req, front);
      var (e1, n, err) := Run(e, step, front);
      if err.None? {
        var (e2, err2) := step(e1, evs[|evs| - 1]);
        assert e2.sent == e1.sent + [req(evs[|evs| - 1])];
        assert forall i :: 0 <= i < |front| ==> front[i] == evs[i];
      } else {
        assert forall i :: 0 <= i < n + 1 ==> front[i] == evs[i];
      }
    }
  }
}
