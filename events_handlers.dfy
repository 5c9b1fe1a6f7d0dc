/** The four event handlers of the event-driven revision of the indexer
    (`events_handlers.go`). Each decodes the log's data as the event it
    handles, asks the collector whether the entity exists and writes only
    when it does not: OrderCreated and MatchCreated add the entity,
    OrderUpdated and MatchUpdated update it.

    The handlers are specified once for any existence check (`Check`); the
    methods here use the not-found-tolerant checks of `helpers.go`, and the
    later revision (`fixed_indexer.go`) reuses the specifications with its
    strict checks. */
module EventHandlers {
  import opened Base
  import opened Eth
  import opened CollectorService
  import Helpers

  /** An existence check: the collector afterwards and whether an entity of
      the given id exists, or the error that stopped the check. */
  type Check = (Env, Int64) -> (Env, Result<bool, Error>)

  /** `orderExists` and `matchExists` of `helpers.go`. */
  function OrderCheck(fault: Request -> Option<ConnError>, chainID: Int64): Check {
    (e: Env, id: Int64) => Helpers.OrderExistsSpec(e, fault, chainID, id)
  }

  function MatchCheck(fault: Request -> Option<ConnError>, chainID: Int64): Check {
    (e: Env, id: Int64) => Helpers.MatchExistsSpec(e, fault, chainID, id)
  }

  /** The payload decoded as the event of the handler's kind. */
  function DecodeOrderCreated(name: string, data: Payload): Option<SwapicaOrder> {
    var ev := Unpack(name, data);
    if ev.Some? && ev.value.OrderCreated? then Some(ev.value.order) else None
  }

  function DecodeOrderUpdated(name: string, data: Payload): Option<(Id64, OrderStatus)> {
    var ev := Unpack(name, data);
    if ev.Some? && ev.value.OrderUpdated? then Some((ev.value.orderId, ev.value.status)) else None
  }

  function DecodeMatchCreated(name: string, data: Payload): Option<SwapicaMatch> {
    var ev := Unpack(name, data);
    if ev.Some? && ev.value.MatchCreated? then Some(ev.value.matchOrder) else None
  }

  function DecodeMatchUpdated(name: string, data: Payload): Option<(Id64, Uint8)> {
    var ev := Unpack(name, data);
    if ev.Some? && ev.value.MatchUpdated? then Some((ev.value.matchId, ev.value.state)) else None
  }

  /** `handleOrderCreated`: decode, check, and add the order only when the
      check says it does not exist. */
  function OrderCreatedSpec(e: Env, fault: Request -> Option<ConnError>, chainID: Int64, check: Check, name: string, data: Payload): (Env, Option<Error>) {
    var o := DecodeOrderCreated(name, data);
    if o.None? then (e, Some(Decode))
    else
      var (e1, found) := check(e, o.value.orderId);
      if found.Err? then (e1, Some(found.error))
      else if found.value then (e1, None)
      else Helpers.AddOrderSpec(e1, fault, chainID, o.value)
  }

  /** `handleOrderUpdated`: decode, check, and update the order only when
      the check says it does NOT exist, as the source is written. */
  function OrderUpdatedSpec(e: Env, fault: Request -> Option<ConnError>, chainID: Int64, check: Check, name: string, data: Payload): (Env, Option<Error>) {
    var u := DecodeOrderUpdated(name, data);
    if u.None? then (e, Some(Decode))
    else
      var (e1, found) := check(e, u.value.0);
      if found.Err? then (e1, Some(found.error))
      else if found.value then (e1, None)
      else Helpers.UpdateOrderSpec(e1, fault, chainID, u.value.0, u.value.1)
  }

  /** `handleMatchCreated`. */
  function MatchCreatedSpec(e: Env, fault: Request -> Option<ConnError>, chainID: Int64, check: Check, name: string, data: Payload): (Env, Option<Error>) {
    var m := DecodeMatchCreated(name, data);
    if m.None? then (e, Some(Decode))
    else
      var (e1, found) := check(e, m.value.matchId);
      if found.Err? then (e1, Some(found.error))
      else if found.value then (e1, None)
      else Helpers.AddMatchSpec(e1, fault, chainID, m.value)
  }

  /** `handleMatchUpdated`, with the same inverted condition as
      `handleOrderUpdated`. */
  function MatchUpdatedSpec(e: Env, fault: Request -> Option<ConnError>, chainID: Int64, check: Check, name: string, data: Payload): (Env, Option<Error>) {
    var u := DecodeMatchUpdated(name, data);
    if u.None? then (e, Some(Decode))
    else
      var (e1, found) := check(e, u.value.0);
      if found.Err? then (e1, Some(found.error))
      else if found.value then (e1, None)
      else Helpers.UpdateMatchSpec(e1, fault, chainID, u.value.0, u.value.1)
  }

  /** A payload that does not decode as the handler's event is an error
      before any request: nothing is sent and nothing changes, whatever the
      existence check. */
  lemma DecodeFailureSendsNothing(e: Env, fault: Request -> Option<ConnError>, chainID: Int64, check: Check, name: string, data: Payload)
    ensures !(data.Encoded? && EventName(data.event) == name && data.event.OrderCreated?) ==>
      OrderCreatedSpec(e, fault, chainID, check, name, data) == (e, Some(Decode))
    ensures !(data.Encoded? && EventName(data.event) == name && data.event.OrderUpdated?) ==>
      OrderUpdatedSpec(e, fault, chainID, check, name, data) == (e, Some(Decode))
    ensures !(data.Encoded? && EventName(data.event) == name && data.event.MatchCreated?) ==>
      MatchCreatedSpec(e, fault, chainID, check, name, data) == (e, Some(Decode))
    ensures !(data.Encoded? && EventName(data.event) == name && data.event.MatchUpdated?) ==>
      MatchUpdatedSpec(e, fault, chainID, check, name, data) == (e, Some(Decode))
  {
  }

  /** With the checks of `helpers.go`, an OrderCreated event for order `o`
      sends one GET for it first. An error other than not-found ends the
      handler with that error and nothing written; id 0 is skipped; any
      other order is POSTed, whether or not the collector already holds it
      (the check reads no id from the answer). */
  lemma OrderCreatedEffect(e: Env, fault: Request -> Option<ConnError>, chainID: Int64, name: string, data: Payload)
    requires DecodeOrderCreated(name, data).Some?
    ensures var o := DecodeOrderCreated(name, data).value;
      var get := GetOrder(chainID, o.orderId);
      var checked := Env(e.store, e.sent + [get]);
      var passed := fault(get).None? || fault(get).value.text == NotFoundText;
      var (e', err) := OrderCreatedSpec(e, fault, chainID, OrderCheck(fault, chainID), name, data);
      && (!passed ==> e' == checked && err == Some(Conn(fault(get).value)))
      && (passed && o.orderId == 0 ==> e' == checked && err == None)
      && (passed && o.orderId != 0 ==>
            (e', err) == Helpers.AddOrderSpec(checked, fault, chainID, o) && e'.sent == e.sent + [get, PostOrder(chainID, o)])
  {
    var o := DecodeOrderCreated(name, data).value;
    Helpers.OrderExistsEffect(e, fault, chainID, o.orderId);
    var get := GetOrder(chainID, o.orderId);
    Helpers.AddOrderEffect(Env(e.store, e.sent + [get]), fault, chainID, o);
  }

  /** The mirror for MatchCreated. */
  lemma MatchCreatedEffect(e: Env, fault: Request -> Option<ConnError>, chainID: Int64, name: string, data: Payload)
    requires DecodeMatchCreated(name, data).Some?
    ensures var m := DecodeMatchCreated(name, data).value;
      var get := GetMatch(chainID, m.matchId);
      var checked := Env(e.store, e.sent + [get]);
      var passed := fault(get).None? || fault(get).value.text == NotFoundText;
      var (e', err) := MatchCreatedSpec(e, fault, chainID, MatchCheck(fault, chainID), name, data);
      && (!passed ==> e' == checked && err == Some(Conn(fault(get).value)))
      && (passed && m.matchId == 0 ==> e' == checked && err == None)
      && (passed && m.matchId != 0 ==>
            (e', err) == Helpers.AddMatchSpec(checked, fault, chainID, m) && e'.sent == e.sent + [get, PostMatch(chainID, m)])
  {
    var m := DecodeMatchCreated(name, data).value;
    Helpers.MatchExistsEffect(e, fault, chainID, m.matchId);
    var get := GetMatch(chainID, m.matchId);
    Helpers.AddMatchEffect(Env(e.store, e.sent + [get]), fault, chainID, m);
  }

  /** Against a collector that answers every request, handling the same
      OrderCreated event twice stores nothing more the second time and ends
      the same way, but only because the collector answers the repeated POST
      with 409: the second pass sends the GET and the POST again. */
  lemma OrderCreatedIdempotent(e: Env, fault: Request -> Option<ConnError>, chainID: Int64, name: string, data: Payload)
    requires forall r :: fault(r).None?
    ensures var (e1, err1) := OrderCreatedSpec(e, fault, chainID, OrderCheck(fault, chainID), name, data);
      var (e2, err2) := OrderCreatedSpec(e1, fault, chainID, OrderCheck(fault, chainID), name, data);
      var o := DecodeOrderCreated(name, data);
      && err1 == err2
      && e2.store == e1.store
      && (o.Some? && o.value.orderId != 0 ==> e2.sent == e1.sent + [GetOrder(chainID, o.value.orderId), PostOrder(chainID, o.value)])
  {
    var o := DecodeOrderCreated(name, data);
    if o.Some? {
      var get := GetOrder(chainID, o.value.orderId);
      OrderCreatedEffect(e, fault, chainID, name, data);
      var (e1, err1) := OrderCreatedSpec(e, fault, chainID, OrderCheck(fault, chainID), name, data);
      Helpers.AddOrderEffect(Env(e.store, e.sent + [get]), fault, chainID, o.value);
      OrderCreatedEffect(e1, fault, chainID, name, data);
      Helpers.AddOrderEffect(Env(e1.store, e1.sent + [get]), fault, chainID, o.value);
    }
  }

  /** The mirror for MatchCreated. */
  lemma MatchCreatedIdempotent(e: Env, fault: Request -> Option<ConnError>, chainID: Int64, name: string, data: Payload)
    requires forall r :: fault(r).None?
    ensures var (e1, err1) := MatchCreatedSpec(e, fault, chainID, MatchCheck(fault, chainID), name, data);
      var (e2, err2) := MatchCreatedSpec(e1, fault, chainID, MatchCheck(fault, chainID), name, data);
      var m := DecodeMatchCreated(name, data);
      && err1 == err2
      && e2.store == e1.store
      && (m.Some? && m.value.matchId != 0 ==> e2.sent == e1.sent + [GetMatch(chainID, m.value.matchId), PostMatch(chainID, m.value)])
  {
    var m := DecodeMatchCreated(name, data);
    if m.Some? {
      var get := GetMatch(chainID, m.value.matchId);
      MatchCreatedEffect(e, fault, chainID, name, data);
      var (e1, err1) := MatchCreatedSpec(e, fault, chainID, MatchCheck(fault, chainID), name, data);
      Helpers.AddMatchEffect(Env(e.store, e.sent + [get]), fault, chainID, m.value);
      MatchCreatedEffect(e1, fault, chainID, name, data);
      Helpers.AddMatchEffect(Env(e1.store, e1.sent + [get]), fault, chainID, m.value);
    }
  }

  /** With the checks of `helpers.go`, the OrderUpdated handler sends one GET
      and then, unless the GET failed with an error other than not-found or
      the id is 0, exactly one PATCH: its inverted condition and a check that
      reports every non-zero id absent cancel out, so every update of a
      non-zero id is forwarded, and a collector that answers and holds the
      order stores the new state. */
  lemma OrderUpdatedEffect(e: Env, fault: Request -> Option<ConnError>, chainID: Int64, name: string, data: Payload)
    requires DecodeOrderUpdated(name, data).Some?
    ensures var id := DecodeOrderUpdated(name, data).value.0;
      var status := DecodeOrderUpdated(name, data).value.1;
      var get := GetOrder(chainID, id);
      var patch := PatchOrder(chainID, id, status);
      var checked := Env(e.store, e.sent + [get]);
      var passed := fault(get).None? || fault(get).value.text == NotFoundText;
      var (e', err) := OrderUpdatedSpec(e, fault, chainID, OrderCheck(fault, chainID), name, data);
      && (!passed ==> e' == checked && err == Some(Conn(fault(get).value)))
      && (passed && id == 0 ==> e' == checked && err == None)
      && (passed && id != 0 ==>
            (e', err) == Helpers.UpdateOrderSpec(checked, fault, chainID, id, status) && e'.sent == e.sent + [get, patch])
      && (fault(get).None? && fault(patch).None? && id != 0 && OrderKey(chainID, id) in e.store.orders ==>
            err == None && e'.store.orders[OrderKey(chainID, id)].state == status.state)
  {
    var (id, status) := DecodeOrderUpdated(name, data).value;
    Helpers.OrderExistsEffect(e, fault, chainID, id);
    var get := GetOrder(chainID, id);
    Helpers.UpdateOrderEffect(Env(e.store, e.sent + [get]), fault, chainID, id, status);
  }

  /** The mirror for MatchUpdated. */
  lemma MatchUpdatedEffect(e: Env, fault: Request -> Option<ConnError>, chainID: Int64, name: string, data: Payload)
    requires DecodeMatchUpdated(name, data).Some?
    ensures var id := DecodeMatchUpdated(name, data).value.0;
      var state := DecodeMatchUpdated(name, data).value.1;
      var get := GetMatch(chainID, id);
      var patch := PatchMatch(chainID, id, state);
      var checked := Env(e.store, e.sent + [get]);
      var passed := fault(get).None? || fault(get).value.text == NotFoundText;
      var (e', err) := MatchUpdatedSpec(e, fault, chainID, MatchCheck(fault, chainID), name, data);
      && (!passed ==> e' == checked && err == Some(Conn(fault(get).value)))
      && (passed && id == 0 ==> e' == checked && err == None)
      && (passed && id != 0 ==>
            (e', err) == Helpers.UpdateMatchSpec(checked, fault, chainID, id, state) && e'.sent == e.sent + [get, patch])
      && (fault(get).None? && fault(patch).None? && id != 0 && OrderKey(chainID, id) in e.store.matches ==>
            err == None && e'.store.matches[OrderKey(chainID, id)].state == state)
  {
    var (id, state) := DecodeMatchUpdated(name, data).value;
    Helpers.MatchExistsEffect(e, fault, chainID, id);
    var get := GetMatch(chainID, id);
    Helpers.UpdateMatchEffect(Env(e.store, e.sent + [get]), fault, chainID, id, state);
  }

  /** `handleOrderCreated`. */
  method HandleOrderCreated(c: Collector, chainID: Int64, name: string, data: Payload) returns (err: Option<Error>)
    modifies c
    ensures c.fault == old(c.fault)
    ensures (c.State(), err) == OrderCreatedSpec(old(c.State()), c.fault, chainID, OrderCheck(c.fault, chainID), name, data)
  {
    var o := DecodeOrderCreated(name, data);
    if o.None? {
      return Some(Decode);
    }
    var found := Helpers.OrderExists(c, chainID, o.value.orderId);
    if found.Err? {
      return Some(found.error);
    }
    if found.value {
      return None;
    }
    err := Helpers.AddOrder(c, chainID, o.value);
  }

  /** `handleOrderUpdated`. */
  method HandleOrderUpdated(c: Collector, chainID: Int64, name: string, data: Payload) returns (err: Option<Error>)
    modifies c
    ensures c.fault == old(c.fault)
    ensures (c.State(), err) == OrderUpdatedSpec(old(c.State()), c.fault, chainID, OrderCheck(c.fault, chainID), name, data)
  {
    var u := DecodeOrderUpdated(name, data);
    if u.None? {
      return Some(Decode);
    }
    var found := Helpers.OrderExists(c, chainID, u.value.0);
    if found.Err? {
      return Some(found.error);
    }
    if found.value {
      return None;
    }
    err := Helpers.UpdateOrder(c, chainID, u.value.0, u.value.1);
  }

  /** `handleMatchCreated`. */
  method HandleMatchCreated(c: Collector, chainID: Int64, name: string, data: Payload) returns (err: Option<Error>)
    modifies c
    ensures c.fault == old(c.fault)
    ensures (c.State(), err) == MatchCreatedSpec(old(c.State()), c.fault, chainID, MatchCheck(c.fault, chainID), name, data)
  {
    var m := DecodeMatchCreated(name, data);
    if m.None? {
      return Some(Decode);
    }
    var found := Helpers.MatchExists(c, chainID, m.value.matchId);
    if found.Err? {
      return Some(found.error);
    }
    if found.value {
      return None;
    }
    err := Helpers.AddMatch(c, chainID, m.value);
  }

  /** `handleMatchUpdated`. */
  method HandleMatchUpdated(c: Collector, chainID: Int64, name: string, data: Payload) returns (err: Option<Error>)
    modifies c
    ensures c.fault == old(c.fault)
    ensures (c.State(), err) == MatchUpdatedSpec(old(c.State()), c.fault, chainID, MatchCheck(c.fault, chainID), name, data)
  {
    var u := DecodeMatchUpdated(name, data);
    if u.None? {
      return Some(Decode);
    }
    var found := Helpers.MatchExists(c, chainID, u.value.0);
    if found.Err? {
      return Some(found.error);
    }
    if found.value {
      return None;
    }
    err := Helpers.UpdateMatch(c, chainID, u.value.0, u.value.1);
  }
}
