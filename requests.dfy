/** The JSON:API request bodies the indexer sends to the collector service
    (package `requests`). Each builder is a pure mapping from contract values
    to the body; a string key ID of "" is the unset ID. */
module Requests {
  import opened Base
  import opened Decimal
  import opened Eth

  datatype ResourceType = ORDER | MATCH_ORDER | BLOCK | CHAIN

  datatype Key = Key(id: string, kind: ResourceType)

  // add_order.go

  datatype OrderAttributes = OrderAttributes(
    account: string,
    amountToBuy: string,
    amountToSell: string,
    orderId: Option<Int64>,
    srcChain: Option<Int64>,
    state: Uint8,
    tokenToBuy: string,
    tokenToSell: string)

  /** `DestChain` always points at a chain; `ExecutedBy` is a nil relation. */
  datatype OrderRelationships = OrderRelationships(destChain: Key, executedBy: Option<Key>)

  datatype AddOrderRequest = AddOrderRequest(key: Key, attributes: OrderAttributes, relationships: OrderRelationships)

  /** `NewAddOrder`: an ORDER resource without an ID whose attributes carry the
      order's id, the indexer's chain and the order's state, with an empty
      ExecutedBy relation and a DestChain relation naming the destination
      chain in decimal; the amounts are the decimals of the order's amounts,
      whatever their size. */
  function NewAddOrder(o: SwapicaOrder, chainID: Int64): (r: AddOrderRequest)
    ensures r.key == Key("", ORDER)
    ensures r.attributes.orderId == Some(o.orderId as Int64)
    ensures r.attributes.srcChain == Some(chainID)
    ensures r.attributes.state == o.status.state
    ensures r.attributes.account == AddressString(o.creator)
    ensures r.relationships.executedBy == None
    ensures r.relationships.destChain.kind == CHAIN
    ensures AllDigits(r.relationships.destChain.id) && DigitsValue(r.relationships.destChain.id) == o.destinationChain
    ensures o.destinationChain < TWO_64 ==> ParseUint(r.relationships.destChain.id) == Some(o.destinationChain)
    ensures AllDigits(r.attributes.amountToBuy) && DigitsValue(r.attributes.amountToBuy) == o.amountToBuy
    ensures AllDigits(r.attributes.amountToSell) && DigitsValue(r.attributes.amountToSell) == o.amountToSell
    ensures r.attributes.tokenToBuy == AddressString(o.tokenToBuy) && r.attributes.tokenToSell == AddressString(o.tokenToSell)
  {
    ParseFormatUintIfSmall(o.destinationChain);
    AddOrderRequest(
      Key("", ORDER),
      OrderAttributes(
        account := AddressString(o.creator),
        amountToBuy := FormatInt(o.amountToBuy),
        amountToSell := FormatInt(o.amountToSell),
        orderId := Some(o.orderId as Int64),
        srcChain := Some(chainID),
        state := o.status.state,
        tokenToBuy := AddressString(o.tokenToBuy),
        tokenToSell := AddressString(o.tokenToSell)),
      OrderRelationships(Key(FormatInt(o.destinationChain), CHAIN), None))
  }

  lemma ParseFormatUintIfSmall(n: nat)
    ensures n < TWO_64 ==> ParseUint(FormatInt(n)) == Some(n)
  {
    if n < TWO_64 { ParseFormatUint(n); }
  }

  // update_order.go

  datatype UpdateOrderAttributes = UpdateOrderAttributes(matchId: Option<Int64>, matchSwapica: Option<string>, state: Uint8)

  datatype UpdateOrderRequest = UpdateOrderRequest(key: Key, attributes: UpdateOrderAttributes)

  /** `NewUpdateOrder`: an ORDER resource keyed by the decimal id whose only
      attributes are the new state, the match contract (absent exactly when
      it is the zero address) and the match id (absent exactly when nil or
      zero). */
  function NewUpdateOrder(id: Id64, status: OrderStatus): (r: UpdateOrderRequest)
    ensures r.key == Key(FormatUint(id), ORDER) && ParseUint(r.key.id) == Some(id)
    ensures r.attributes.state == status.state
    ensures r.attributes.matchSwapica.None? <==> IsZeroAddress(status.matchSwapica)
    ensures r.attributes.matchSwapica.Some? ==> r.attributes.matchSwapica.value == AddressString(status.matchSwapica)
    ensures r.attributes.matchId.None? <==> status.matchId.None? || status.matchId.value == 0
    ensures r.attributes.matchId.Some? ==> r.attributes.matchId == status.matchId
  {
    ZeroAddressRendering(status.matchSwapica);
    ParseFormatUint(id);
    var str := AddressString(status.matchSwapica);
    var matchSwapica := if str != ZeroAddressString then Some(str) else None;
    var matchId := if status.matchId.Some? && status.matchId.value != 0 then Some(status.matchId.value as Int64) else None;
    UpdateOrderRequest(Key(FormatInt(id), ORDER), UpdateOrderAttributes(matchId, matchSwapica, status.state))
  }

  // add_match.go

  datatype AddMatchAttributes = AddMatchAttributes(
    amountToSell: string,
    creator: string,
    matchId: Int64,
    state: Uint8,
    tokenToSell: string,
    originChainId: Int64,
    originOrderId: Int64,
    srcChainId: Int64)

  datatype AddMatchRequest = AddMatchRequest(key: Key, attributes: AddMatchAttributes)

  /** `NewAddMatch`: a MATCH_ORDER resource without an ID whose attributes carry
      the match's ids, the indexer's chain, the match's state and its amount in
      decimal, whatever its size. */
  function NewAddMatch(m: SwapicaMatch, chainID: Int64): (r: AddMatchRequest)
    ensures r.key == Key("", MATCH_ORDER)
    ensures r.attributes.matchId == m.matchId && r.attributes.originChainId == m.originChainId
    ensures r.attributes.originOrderId == m.originOrderId
    ensures r.attributes.srcChainId == chainID && r.attributes.state == m.state
    ensures AllDigits(r.attributes.amountToSell) && DigitsValue(r.attributes.amountToSell) == m.amountToSell
    ensures m.amountToSell < TWO_64 ==> ParseUint(r.attributes.amountToSell) == Some(m.amountToSell)
    ensures r.attributes.creator == AddressString(m.creator) && r.attributes.tokenToSell == AddressString(m.tokenToSell)
  {
    ParseFormatUintIfSmall(m.amountToSell);
    AddMatchRequest(
      Key("", MATCH_ORDER),
      AddMatchAttributes(
        amountToSell := FormatInt(m.amountToSell),
        creator := AddressString(m.creator),
        matchId := m.matchId as Int64,
        state := m.state,
        tokenToSell := AddressString(m.tokenToSell),
        originChainId := m.originChainId as Int64,
        originOrderId := m.originOrderId as Int64,
        srcChainId := chainID))
  }

  // update_match.go

  datatype UpdateMatchAttributes = UpdateMatchAttributes(state: Uint8)

  datatype UpdateMatchRequest = UpdateMatchRequest(key: Key, attributes: UpdateMatchAttributes)

  /** `NewUpdateMatch`: a MATCH_ORDER resource keyed by the decimal id whose
      only attribute is the new state. */
  function NewUpdateMatch(id: Id64, state: Uint8): (r: UpdateMatchRequest)
    ensures r.key.kind == MATCH_ORDER && ParseUint(r.key.id) == Some(id)
    ensures r.attributes == UpdateMatchAttributes(state)
  {
    ParseFormatUint(id);
    UpdateMatchRequest(Key(FormatInt(id), MATCH_ORDER), UpdateMatchAttributes(state))
  }

  // update_last_block.go

  /** `resources.BlockResponse`, both the body of a checkpoint write and the
      answer to a checkpoint read. */
  datatype BlockResponse = BlockResponse(key: Key)

  /** `NewUpdateBlock`: a BLOCK resource whose ID is the block number in
      decimal: digits only, without sign or leading zero, and read back by
      ParseUint as the same number. */
  function NewUpdateBlock(number: Uint64): (r: BlockResponse)
    ensures r.key.kind == BLOCK
    ensures ParseUint(r.key.id) == Some(number)
    ensures AllDigits(r.key.id) && (|r.key.id| > 1 ==> r.key.id[0] != '0')
  {
    ParseFormatUint(number);
    BlockResponse(Key(FormatUint(number), BLOCK))
  }

  /** Distinct block numbers give distinct checkpoint IDs. */
  lemma NewUpdateBlockInjective(m: Uint64, n: Uint64)
    requires NewUpdateBlock(m).key.id == NewUpdateBlock(n).key.id
    ensures m == n
  {
    assert ParseUint(NewUpdateBlock(m).key.id) == Some(m);
  }
}
