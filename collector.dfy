/** The collector (order aggregator) service the indexer writes to, seen from
    the indexer through the json-api connector. The service is not part of
    the indexer; it is modelled as a keyed store: orders and matches keyed by
    (chain id, entity id), both in decimal, and one checkpoint string per
    chain. A create for a present key answers 409 Conflict, a read or patch of
    an absent key answers 404 with the text "not found". Transport and server
    faults come from a fault oracle that may fail any request.

    A request is recorded by the values the indexer builds it from; the URL
    it goes to is `Path` and the JSON:API document it carries is `Body`. */
module CollectorService {
  import opened Base
  import opened Decimal
  import opened Eth
  import opened Requests

  datatype StoredOrder = StoredOrder(orderId: Int64, srcChain: Int64, state: Uint8, matchId: Option<Int64>, matchSwapica: Option<Address>)

  datatype StoredMatch = StoredMatch(matchId: Int64, srcChain: Int64, state: Uint8)

  /** (chain id, entity id). The service keys its records by the decimal
      renderings of the two ids, which FormatIntInjective shows to identify
      the same records as the ids themselves. */
  type RecordKey = (Int64, Int64)

  datatype Store = Store(
    orders: map<RecordKey, StoredOrder>,
    matches: map<RecordKey, StoredMatch>,
    blocks: map<Int64, string>)

  const EmptyStore := Store(map[], map[], map[])

  /** The requests the indexer sends, with the chain id of the indexer that
      sends them. */
  datatype Request =
    | PostOrder(chain: Int64, order: SwapicaOrder)
    | PatchOrder(chain: Int64, orderId: Id64, status: OrderStatus)
    | GetOrder(chain: Int64, id: Int64)
    | PostMatch(chain: Int64, matchOrder: SwapicaMatch)
    | PatchMatch(chain: Int64, matchId: Id64, state: Uint8)
    | GetMatch(chain: Int64, id: Int64)
    | PostBlock(chain: Int64, number: Uint64)
    | GetBlock(chain: Int64)
    | FindOrder(id: Int64)
    | FindMatch(id: Int64)

  /** The relative URL each request is sent to. */
  function Path(r: Request): string {
    match r
    case PostOrder(_, _) => "/orders"
    case PatchOrder(c, _, _) => FormatInt(c) + "/orders"
    case GetOrder(c, id) => FormatInt(c) + "/orders/" + FormatInt(id)
    case PostMatch(_, _) => "/match_orders"
    case PatchMatch(c, _, _) => FormatInt(c) + "/match_orders"
    case GetMatch(c, id) => FormatInt(c) + "/match_orders/" + FormatInt(id)
    case PostBlock(c, _) => FormatInt(c) + "/block"
    case GetBlock(c) => FormatInt(c) + "/block"
    case FindOrder(id) => "/get_order/" + FormatInt(id)
    case FindMatch(id) => "/get_match/" + FormatInt(id)
  }

  datatype Document =
    | NoBody
    | AddOrderDoc(addOrder: AddOrderRequest)
    | UpdateOrderDoc(updateOrder: UpdateOrderRequest)
    | AddMatchDoc(addMatch: AddMatchRequest)
    | UpdateMatchDoc(updateMatch: UpdateMatchRequest)
    | BlockDoc(block: BlockResponse)

  /** The document each request carries. */
  function Body(r: Request): Document {
    match r
    case PostOrder(c, o) => AddOrderDoc(NewAddOrder(o, c))
    case PatchOrder(_, id, status) => UpdateOrderDoc(NewUpdateOrder(id, status))
    case PostMatch(c, m) => AddMatchDoc(NewAddMatch(m, c))
    case PatchMatch(_, id, state) => UpdateMatchDoc(NewUpdateMatch(id, state))
    case PostBlock(_, n) => BlockDoc(NewUpdateBlock(n))
    case _ => NoBody
  }

  datatype Reply =
    | Done
    | FoundOrder(order: StoredOrder)
    | FoundMatch(found: StoredMatch)
    | FoundBlock(block: BlockResponse)
    | FoundId(id: Int64)
    | Failed(error: ConnError)

  /** The top-level members of every answer the service gives to a read. The
      service speaks JSON:API, whose documents carry the resource under
      `data` (`main.go` reads the checkpoint as `resp.Data.ID`). */
  const AnswerMembers: set<string> := {"data"}

  function LowerChar(c: char): char {
    if 'A' <= c <= 'Z' then (c as int + 32) as char else c
  }

  /** ASCII lower case: `encoding/json` matches an object member to a struct
      field whose name differs from it only in case. */
  function Lower(s: string): (t: string)
    ensures |t| == |s|
  {
    if s == [] then [] else [LowerChar(s[0])] + Lower(s[1..])
  }

  /** `json.Unmarshal` into a struct field without a `json` tag sets the
      field exactly when the object has a member whose name equals the
      field's name up to case. */
  predicate SetsField(members: set<string>, field: string) {
    exists m :: m in members && Lower(m) == Lower(field)
  }

  /** The value the struct field named `field` holds after decoding an answer
      with the given top-level members about a record whose id is `id`: the
      id when the answer sets the field, Go's zero value otherwise. */
  function DecodedId(members: set<string>, field: string, id: Int64): Int64 {
    if SetsField(members, field) then id else 0
  }

  /** Decoding the service's answer into the flat `Order` or `Match` struct
      the indexer declares leaves its id zero, whatever record was found. */
  lemma AnswerLeavesIdZero(field: string, id: Int64)
    requires field == "OrderID" || field == "MatchID"
    ensures DecodedId(AnswerMembers, field, id) == 0
  {
    assert |Lower("data")| != |Lower(field)|;
  }

  const NotFoundText: string := "not found"
  const NotFound: ConnError := ConnError(Some(404), NotFoundText)
  const Conflict: ConnError := ConnError(Some(409), "conflict")

  function OrderKey(chain: Int64, id: Int64): RecordKey {
    (chain, id)
  }

  /** How the service answers each request that reaches it: a create of a
      present key is a conflict, a read or patch of an absent key is not
      found. A patch sets the state and overwrites the match fields only
      when the document carries them. */
  function ServePostOrder(s: Store, c: Int64, o: SwapicaOrder): (Store, Reply) {
    var k := OrderKey(c, o.orderId);
    if k in s.orders then (s, Failed(Conflict))
    else (s.(orders := s.orders[k := StoredOrder(o.orderId, c, o.status.state, None, None)]), Done)
  }

  function ServePatchOrder(s: Store, c: Int64, id: Id64, status: OrderStatus): (Store, Reply) {
    var k := OrderKey(c, id);
    if k !in s.orders then (s, Failed(NotFound))
    else
      var o := s.orders[k];
      var o' := o.(state := status.state,
                   matchId := if status.matchId.Some? && status.matchId.value != 0 then Some(status.matchId.value as Int64) else o.matchId,
                   matchSwapica := if !IsZeroAddress(status.matchSwapica) then Some(status.matchSwapica) else o.matchSwapica);
      (s.(orders := s.orders[k := o']), Done)
  }

  function ServeGetOrder(s: Store, c: Int64, id: Int64): (Store, Reply) {
    var k := OrderKey(c, id);
    if k in s.orders then (s, FoundOrder(s.orders[k])) else (s, Failed(NotFound))
  }

  function ServePostMatch(s: Store, c: Int64, m: SwapicaMatch): (Store, Reply) {
    var k := OrderKey(c, m.matchId);
    if k in s.matches then (s, Failed(Conflict))
    else (s.(matches := s.matches[k := StoredMatch(m.matchId, c, m.state)]), Done)
  }

  function ServePatchMatch(s: Store, c: Int64, id: Id64, state: Uint8): (Store, Reply) {
    var k := OrderKey(c, id);
    if k !in s.matches then (s, Failed(NotFound))
    else (s.(matches := s.matches[k := s.matches[k].(state := state)]), Done)
  }

  function ServeGetMatch(s: Store, c: Int64, id: Int64): (Store, Reply) {
    var k := OrderKey(c, id);
    if k in s.matches then (s, FoundMatch(s.matches[k])) else (s, Failed(NotFound))
  }

  function ServePostBlock(s: Store, c: Int64, n: Uint64): (Store, Reply) {
    (s.(blocks := s.blocks[c := FormatUint(n)]), Done)
  }

  function ServeGetBlock(s: Store, c: Int64): (Store, Reply) {
    if c in s.blocks then (s, FoundBlock(BlockResponse(Key(s.blocks[c], BLOCK)))) else (s, Failed(NotFound))
  }

  /** The chain-less lookups of the later revision: the service answers
      with a record of that id from any chain, and the reply carries that
      record's id. */
  function ServeFindOrder(s: Store, id: Int64): (Store, Reply) {
    if exists k :: k in s.orders && k.1 == id then (s, FoundId(id)) else (s, Failed(NotFound))
  }

  function ServeFindMatch(s: Store, id: Int64): (Store, Reply) {
    if exists k :: k in s.matches && k.1 == id then (s, FoundId(id)) else (s, Failed(NotFound))
  }

  function Serve(s: Store, r: Request): (Store, Reply) {
    match r
    case PostOrder(c, o) => ServePostOrder(s, c, o)
    case PatchOrder(c, id, status) => ServePatchOrder(s, c, id, status)
    case GetOrder(c, id) => ServeGetOrder(s, c, id)
    case PostMatch(c, m) => ServePostMatch(s, c, m)
    case PatchMatch(c, id, state) => ServePatchMatch(s, c, id, state)
    case GetMatch(c, id) => ServeGetMatch(s, c, id)
    case PostBlock(c, n) => ServePostBlock(s, c, n)
    case GetBlock(c) => ServeGetBlock(s, c)
    case FindOrder(id) => ServeFindOrder(s, id)
    case FindMatch(id) => ServeFindMatch(s, id)
  }

  /** What the service stores is what the request's document says: the ids,
      chain and state of a created order or match, the fields of an order
      patch (a match contract exactly when its rendering is sent, a match id
      exactly when one is sent), a match patch's state and a checkpoint's
      decimal ID. */
  lemma ServeStoresBody(s: Store, r: Request)
    ensures r.PostOrder? && Serve(s, r).1 == Done ==>
      var a := Body(r).addOrder.attributes;
      && a.orderId.Some? && a.srcChain.Some?
      && Serve(s, r).0.orders[OrderKey(a.srcChain.value, a.orderId.value)] == StoredOrder(a.orderId.value, a.srcChain.value, a.state, None, None)
    ensures r.PatchOrder? && Serve(s, r).1 == Done ==>
      var a := Body(r).updateOrder.attributes;
      var stored := Serve(s, r).0.orders[OrderKey(r.chain, r.orderId)];
      && stored.state == a.state
      && (a.matchId.Some? ==> stored.matchId == a.matchId)
      && (a.matchSwapica.Some? <==> !IsZeroAddress(r.status.matchSwapica))
      && (a.matchSwapica.Some? ==> stored.matchSwapica == Some(r.status.matchSwapica) && a.matchSwapica.value == AddressString(r.status.matchSwapica))
    ensures r.PostMatch? && Serve(s, r).1 == Done ==>
      var a := Body(r).addMatch.attributes;
      Serve(s, r).0.matches[OrderKey(a.srcChainId, a.matchId)] == StoredMatch(a.matchId, a.srcChainId, a.state)
    ensures r.PatchMatch? && Serve(s, r).1 == Done ==>
      Serve(s, r).0.matches[OrderKey(r.chain, r.matchId)].state == Body(r).updateMatch.attributes.state
    ensures r.PostBlock? ==>
      Serve(s, r).0.blocks[r.chain] == Body(r).block.key.id
  {
  }

  /** Every stored record sits under the key its own ids render to. */
  ghost predicate WellKeyed(s: Store) {
    && (forall k :: k in s.orders ==> k == OrderKey(s.orders[k].srcChain, s.orders[k].orderId))
    && (forall k :: k in s.matches ==> k == OrderKey(s.matches[k].srcChain, s.matches[k].matchId))
  }

  lemma ServeKeepsWellKeyed(s: Store, r: Request)
    requires WellKeyed(s)
    ensures WellKeyed(Serve(s, r).0)
  {
  }

  /** The collector as the indexer's environment sees it: its store and every
      request it has received. */
  datatype Env = Env(store: Store, sent: seq<Request>)

  /** One request: it is logged; the fault oracle's error is what the
      indexer observes when it fails the request, and otherwise the service
      answers it. */
  function Call(e: Env, fault: Request -> Option<ConnError>, r: Request): (Env, Reply) {
    Respond(e, fault, r, Serve(e.store, r))
  }

  /** Call, given the answer the service would give to `r`. */
  function Respond(e: Env, fault: Request -> Option<ConnError>, r: Request, answer: (Store, Reply)): (Env, Reply) {
    if fault(r).Some? then (Env(e.store, e.sent + [r]), Failed(fault(r).value))
    else (Env(answer.0, e.sent + [r]), answer.1)
  }

  /** The collector service: a store, a fault oracle and the log of requests
      received so far. */
  class Collector {
    var store: Store
    var fault: Request -> Option<ConnError>
    var sent: seq<Request>

    function State(): Env
      reads this
    {
      Env(store, sent)
    }

    constructor (initial: Store, faults: Request -> Option<ConnError>)
      ensures store == initial && fault == faults && sent == []
    {
      store := initial;
      fault := faults;
      sent := [];
    }

    /** Sends one request and returns the reply. */
    method Send(r: Request) returns (reply: Reply)
      modifies this
      ensures fault == old(fault)
      ensures (State(), reply) == Call(old(State()), fault, r)
    {
      var (e, rep) := Call(State(), fault, r);
      store, sent, reply := e.store, e.sent, rep;
    }
  }
}
