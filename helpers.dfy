/** The collector and filter helpers of the event-driven revision of the
    indexer (`helpers.go`). Each collector helper is specified by a function
    on the collector's state (`Env`), whose effect a lemma states, and is
    implemented by a method that sends the request to a `Collector`. */
module Helpers {
  import opened Base
  import opened Decimal
  import opened Eth
  import opened Requests
  import opened CollectorService
  import opened ChainNode

  /** `filters`: one topic per handler name (the ABI event ID of that name),
      in the map's iteration order, and the contract as the only address.
      `names` is that iteration order. */
  method Filters(handlerNames: set<string>, abi: seq<AbiEvent>, contract: Address) returns (q: FilterQuery, ghost names: seq<string>)
    ensures q.addresses == [contract] && q.fromBlock == 0 && q.toBlock == None
    ensures |q.topics| == |names| == |handlerNames|
    ensures forall n :: n in names <==> n in handlerNames
    ensures forall i :: 0 <= i < |names| ==> q.topics[i] == EventID(abi, names[i])
  {
    var topics: seq<Hash> := [];
    var rest := handlerNames;
    names := [];
    while rest != {}
      invariant |topics| == |names| && |names| + |rest| == |handlerNames|
      invariant rest <= handlerNames
      invariant forall n :: n in names <==> n in handlerNames && n !in rest
      invariant forall i :: 0 <= i < |names| ==> topics[i] == EventID(abi, names[i])
      decreases |rest|
    {
      var name :| name in rest;
      topics := topics + [EventID(abi, name)];
      names := names + [name];
      rest := rest - {name};
    }
    q := FilterQuery(0, None, [contract], topics);
  }

  /** `isConflict`: the error is a connector error carrying HTTP 409; a nil
      error is not a conflict. */
  predicate IsConflict(err: Option<ConnError>) {
    err.Some? && err.value.status == Some(409)
  }

  function ErrorOf(reply: Reply): Option<ConnError> {
    if reply.Failed? then Some(reply.error) else None
  }

  /** A write's outcome: its error, with a 409 Conflict counted as success. */
  function SwallowConflict(reply: Reply): (r: Option<Error>)
    ensures r.None? <==> ErrorOf(reply).None? || IsConflict(ErrorOf(reply))
    ensures r.Some? ==> r == Some(Conn(reply.error))
  {
    if reply.Failed? && !IsConflict(Some(reply.error)) then Some(Conn(reply.error)) else None
  }

  /** A write's outcome when every error counts. */
  function Failure(reply: Reply): Option<Error> {
    if reply.Failed? then Some(Conn(reply.error)) else None
  }

  // addOrder

  /** `addOrder`: one POST to `/orders`; a 409 answer is success. */
  function AddOrderSpec(e: Env, fault: Request -> Option<ConnError>, chainID: Int64, o: SwapicaOrder): (Env, Option<Error>) {
    var (e1, reply) := Respond(e, fault, PostOrder(chainID, o), ServePostOrder(e.store, chainID, o));
    (e1, SwallowConflict(reply))
  }

  /** addOrder sends exactly its POST and changes only orders. It fails
      exactly when the request fails with a status other than 409; when the
      request gets through, the order is stored afterwards, and a stored
      order is left as it was. */
  lemma AddOrderEffect(e: Env, fault: Request -> Option<ConnError>, chainID: Int64, o: SwapicaOrder)
    ensures var (e', err) := AddOrderSpec(e, fault, chainID, o);
      var req := PostOrder(chainID, o);
      && e'.sent == e.sent + [req]
      && e'.store.matches == e.store.matches && e'.store.blocks == e.store.blocks
      && (err.None? <==> ErrorOf(Call(e, fault, req).1).None? || IsConflict(ErrorOf(Call(e, fault, req).1)))
      && (fault(req).Some? ==> e'.store == e.store)
      && (fault(req).None? ==>
            && err == None
            && OrderKey(chainID, o.orderId) in e'.store.orders
            && (OrderKey(chainID, o.orderId) in e.store.orders ==> e'.store == e.store))
  {
  }

  method AddOrder(c: Collector, chainID: Int64, o: SwapicaOrder) returns (err: Option<Error>)
    modifies c
    ensures c.fault == old(c.fault)
    ensures (c.State(), err) == AddOrderSpec(old(c.State()), c.fault, chainID, o)
  {
    var reply := c.Send(PostOrder(chainID, o));
    err := SwallowConflict(reply);
  }

  // updateOrder

  /** `updateOrder`: one PATCH to `{chain}/orders`. */
  function UpdateOrderSpec(e: Env, fault: Request -> Option<ConnError>, chainID: Int64, id: Id64, status: OrderStatus): (Env, Option<Error>) {
    var (e1, reply) := Respond(e, fault, PatchOrder(chainID, id, status), ServePatchOrder(e.store, chainID, id, status));
    (e1, Failure(reply))
  }

  /** updateOrder always sends exactly its PATCH, with no existence check,
      and changes only orders. It fails exactly when the request fails; a
      collector that answers fails it exactly when it does not hold the
      order, and a failure changes nothing. */
  lemma UpdateOrderEffect(e: Env, fault: Request -> Option<ConnError>, chainID: Int64, id: Id64, status: OrderStatus)
    ensures var (e', err) := UpdateOrderSpec(e, fault, chainID, id, status);
      var req := PatchOrder(chainID, id, status);
      && e'.sent == e.sent + [req]
      && e'.store.matches == e.store.matches && e'.store.blocks == e.store.blocks
      && (err.None? <==> ErrorOf(Call(e, fault, req).1).None?)
      && (err.Some? ==> e'.store == e.store)
      && (fault(req).None? ==> (err.None? <==> OrderKey(chainID, id) in e.store.orders))
  {
  }

  method UpdateOrder(c: Collector, chainID: Int64, id: Id64, status: OrderStatus) returns (err: Option<Error>)
    modifies c
    ensures c.fault == old(c.fault)
    ensures (c.State(), err) == UpdateOrderSpec(old(c.State()), c.fault, chainID, id, status)
  {
    var reply := c.Send(PatchOrder(chainID, id, status));
    err := Failure(reply);
  }

  // orderExists

  /** How `orderExists` reads the collector's answer into a zero `Order`:
      an error whose text is "not found" is dropped and leaves the record
      zero, any other error is returned, and a found record is decoded from
      the service's answer, which sets no `OrderID`. Whatever the collector
      answers, then, the check never fails on not-found and reports exactly
      whether `id` is 0. */
  function OrderExistsFrom(id: Int64, reply: Reply): (r: Result<bool, Error>)
    ensures r.Err? <==> reply.Failed? && reply.error.text != NotFoundText
    ensures r.Err? ==> r == Err(Conn(reply.error))
    ensures r.Ok? ==> r.value == (id == 0)
  {
    if reply.Failed? && reply.error.text != NotFoundText then Err(Conn(reply.error))
    else
      var decoded := if reply.FoundOrder? then AnswerLeavesIdZero("OrderID", reply.order.orderId); DecodedId(AnswerMembers, "OrderID", reply.order.orderId) else 0;
      Ok(id == decoded)
  }

  /** `orderExists`: one GET of `{chain}/orders/{id}`. */
  function OrderExistsSpec(e: Env, fault: Request -> Option<ConnError>, chainID: Int64, id: Int64): (Env, Result<bool, Error>) {
    var (e1, reply) := Respond(e, fault, GetOrder(chainID, id), ServeGetOrder(e.store, chainID, id));
    (e1, OrderExistsFrom(id, reply))
  }

  /** orderExists sends exactly its GET and changes nothing stored. An
      error other than not-found is returned; otherwise the result is
      whether id is 0, whatever the collector holds: a stored order with a
      non-zero id is reported absent, and id 0 is reported present. */
  lemma OrderExistsEffect(e: Env, fault: Request -> Option<ConnError>, chainID: Int64, id: Int64)
    ensures var (e', r) := OrderExistsSpec(e, fault, chainID, id);
      var req := GetOrder(chainID, id);
      && e' == Env(e.store, e.sent + [req])
      && (fault(req).Some? && fault(req).value.text != NotFoundText ==> r == Err(Conn(fault(req).value)))
      && (fault(req).None? || fault(req).value.text == NotFoundText ==> r == Ok(id == 0))
  {
  }

  method OrderExists(c: Collector, chainID: Int64, id: Int64) returns (r: Result<bool, Error>)
    modifies c
    ensures c.fault == old(c.fault)
    ensures (c.State(), r) == OrderExistsSpec(old(c.State()), c.fault, chainID, id)
  {
    var reply := c.Send(GetOrder(chainID, id));
    r := OrderExistsFrom(id, reply);
  }

  // addMatch

  /** `addMatch`: one POST to `/match_orders`; a 409 answer is success. */
  function AddMatchSpec(e: Env, fault: Request -> Option<ConnError>, chainID: Int64, m: SwapicaMatch): (Env, Option<Error>) {
    var (e1, reply) := Respond(e, fault, PostMatch(chainID, m), ServePostMatch(e.store, chainID, m));
    (e1, SwallowConflict(reply))
  }

  /** addMatch sends exactly its POST and changes only matches. It fails
      exactly when the request fails with a status other than 409; when the
      request gets through, the match is stored afterwards, and a stored
      match is left as it was. */
  lemma AddMatchEffect(e: Env, fault: Request -> Option<ConnError>, chainID: Int64, m: SwapicaMatch)
    ensures var (e', err) := AddMatchSpec(e, fault, chainID, m);
      var req := PostMatch(chainID, m);
      && e'.sent == e.sent + [req]
      && e'.store.orders == e.store.orders && e'.store.blocks == e.store.blocks
      && (err.None? <==> ErrorOf(Call(e, fault, req).1).None? || IsConflict(ErrorOf(Call(e, fault, req).1)))
      && (fault(req).Some? ==> e'.store == e.store)
      && (fault(req).None? ==>
            && err == None
            && OrderKey(chainID, m.matchId) in e'.store.matches
            && (OrderKey(chainID, m.matchId) in e.store.matches ==> e'.store == e.store))
  {
  }

  method AddMatch(c: Collector, chainID: Int64, m: SwapicaMatch) returns (err: Option<Error>)
    modifies c
    ensures c.fault == old(c.fault)
    ensures (c.State(), err) == AddMatchSpec(old(c.State()), c.fault, chainID, m)
  {
    var reply := c.Send(PostMatch(chainID, m));
    err := SwallowConflict(reply);
  }

  // updateMatch

  /** `updateMatch`: one PATCH to `{chain}/match_orders`. */
  function UpdateMatchSpec(e: Env, fault: Request -> Option<ConnError>, chainID: Int64, id: Id64, state: Uint8): (Env, Option<Error>) {
    var (e1, reply) := Respond(e, fault, PatchMatch(chainID, id, state), ServePatchMatch(e.store, chainID, id, state));
    (e1, Failure(reply))
  }

  /** updateMatch sends exactly its PATCH carrying the state, with no
      existence check, and changes only matches. It fails exactly when the
      request fails; a collector that answers fails it exactly when it does
      not hold the match, and otherwise stores the new state. */
  lemma UpdateMatchEffect(e: Env, fault: Request -> Option<ConnError>, chainID: Int64, id: Id64, state: Uint8)
    ensures var (e', err) := UpdateMatchSpec(e, fault, chainID, id, state);
      var req := PatchMatch(chainID, id, state);
      && e'.sent == e.sent + [req]
      && e'.store.orders == e.store.orders && e'.store.blocks == e.store.blocks
      && (err.None? <==> ErrorOf(Call(e, fault, req).1).None?)
      && (err.Some? ==> e'.store == e.store)
      && (fault(req).None? ==> (err.None? <==> OrderKey(chainID, id) in e.store.matches))
      && (err.None? ==> OrderKey(chainID, id) in e'.store.matches && e'.store.matches[OrderKey(chainID, id)].state == state)
  {
  }

  method UpdateMatch(c: Collector, chainID: Int64, id: Id64, state: Uint8) returns (err: Option<Error>)
    modifies c
    ensures c.fault == old(c.fault)
    ensures (c.State(), err) == UpdateMatchSpec(old(c.State()), c.fault, chainID, id, state)
  {
    var reply := c.Send(PatchMatch(chainID, id, state));
    err := Failure(reply);
  }

  // matchExists

  /** How `matchExists` reads the collector's answer, by the same rule as
      OrderExistsFrom: the decoded `Match` has no `MatchID`. */
  function MatchExistsFrom(id: Int64, reply: Reply): (r: Result<bool, Error>)
    ensures r.Err? <==> reply.Failed? && reply.error.text != NotFoundText
    ensures r.Err? ==> r == Err(Conn(reply.error))
    ensures r.Ok? ==> r.value == (id == 0)
  {
    if reply.Failed? && reply.error.text != NotFoundText then Err(Conn(reply.error))
    else
      var decoded := if reply.FoundMatch? then AnswerLeavesIdZero("MatchID", reply.found.matchId); DecodedId(AnswerMembers, "MatchID", reply.found.matchId) else 0;
      Ok(id == decoded)
  }

  /** `matchExists`: one GET of `{chain}/match_orders/{id}`. */
  function MatchExistsSpec(e: Env, fault: Request -> Option<ConnError>, chainID: Int64, id: Int64): (Env, Result<bool, Error>) {
    var (e1, reply) := Respond(e, fault, GetMatch(chainID, id), ServeGetMatch(e.store, chainID, id));
    (e1, MatchExistsFrom(id, reply))
  }

  /** matchExists sends exactly its GET and changes nothing stored. An
      error other than not-found is returned; otherwise the result is
      whether id is 0, whatever the collector holds. */
  lemma MatchExistsEffect(e: Env, fault: Request -> Option<ConnError>, chainID: Int64, id: Int64)
    ensures var (e', r) := MatchExistsSpec(e, fault, chainID, id);
      var req := GetMatch(chainID, id);
      && e' == Env(e.store, e.sent + [req])
      && (fault(req).Some? && fault(req).value.text != NotFoundText ==> r == Err(Conn(fault(req).value)))
      && (fault(req).None? || fault(req).value.text == NotFoundText ==> r == Ok(id == 0))
  {
  }

  method MatchExists(c: Collector, chainID: Int64, id: Int64) returns (r: Result<bool, Error>)
    modifies c
    ensures c.fault == old(c.fault)
    ensures (c.State(), r) == MatchExistsSpec(old(c.State()), c.fault, chainID, id)
  {
    var reply := c.Send(GetMatch(chainID, id));
    r := MatchExistsFrom(id, reply);
  }

  // updateLastBlock

  /** `updateLastBlock`: one POST to `{chain}/block`. */
  function UpdateLastBlockSpec(e: Env, fault: Request -> Option<ConnError>, chainID: Int64, n: Uint64): (Env, Option<Error>) {
    var (e1, reply) := Respond(e, fault, PostBlock(chainID, n), ServePostBlock(e.store, chainID, n));
    (e1, Failure(reply))
  }

  /** updateLastBlock sends exactly its POST and fails exactly when the
      request fails; when it gets through, the chain's checkpoint is the
      decimal of `n` and nothing else stored changes. */
  lemma UpdateLastBlockEffect(e: Env, fault: Request -> Option<ConnError>, chainID: Int64, n: Uint64)
    ensures var (e', err) := UpdateLastBlockSpec(e, fault, chainID, n);
      var req := PostBlock(chainID, n);
      && e'.sent == e.sent + [req]
      && (err.None? <==> fault(req).None?)
      && (err.Some? ==> e'.store == e.store)
      && (err.None? ==> e'.store == e.store.(blocks := e.store.blocks[chainID := FormatUint(n)]))
  {
  }

  method UpdateLastBlock(c: Collector, chainID: Int64, n: Uint64) returns (err: Option<Error>)
    modifies c
    ensures c.fault == old(c.fault)
    ensures (c.State(), err) == UpdateLastBlockSpec(old(c.State()), c.fault, chainID, n)
  {
    var reply := c.Send(PostBlock(chainID, n));
    err := Failure(reply);
  }
}
