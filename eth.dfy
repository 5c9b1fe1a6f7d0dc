/** The chain-side values the indexer receives: addresses and their text
    rendering, the generated contract-binding structs, decoded events and raw
    logs. The ABI decoder itself is not modelled; a log carries either the
    event its bytes encode or bytes that decode as no event. */
module Eth {
  import opened Base

  type Byte = x: int | 0 <= x < 256

  /** A 20-byte account or contract address. */
  type Address = a: seq<Byte> | |a| == 20 witness seq(20, i => 0)

  /** A 32-byte hash, such as an event's topic ID, as the number it encodes. */
  type Hash = nat

  function HexDigit(d: nat): (c: char)
    requires d < 16
    ensures c == '0' <==> d == 0
  {
    if d < 10 then (d + '0' as int) as char else (d - 10 + 'a' as int) as char
  }

  /** Two hexadecimal digits per byte, most significant first. */
  function Hex(bytes: seq<Byte>): (s: string)
    ensures |s| == 2 * |bytes|
  {
    if bytes == [] then ""
    else [HexDigit(bytes[0] / 16), HexDigit(bytes[0] % 16)] + Hex(bytes[1..])
  }

  /** `common.Address.String()`; the mixed-case checksum of EIP-55 is left
      out, which does not change whether the rendering is all zeros. */
  function AddressString(a: Address): string {
    "0x" + Hex(a)
  }

  function Zeros(n: nat): (s: string)
    ensures |s| == n && forall i :: 0 <= i < n ==> s[i] == '0'
  {
    if n == 0 then "" else "0" + Zeros(n - 1)
  }

  /** The literal "0x0000000000000000000000000000000000000000". */
  const ZeroAddressString: string := "0x" + Zeros(40)

  predicate IsZeroAddress(a: Address) {
    forall i :: 0 <= i < |a| ==> a[i] == 0
  }

  lemma {:induction false} HexAllZero(bytes: seq<Byte>)
    ensures Hex(bytes) == Zeros(2 * |bytes|) <==> forall i :: 0 <= i < |bytes| ==> bytes[i] == 0
    decreases |bytes|
  {
    if bytes != [] {
      var head := [HexDigit(bytes[0] / 16), HexDigit(bytes[0] % 16)];
      HexAllZero(bytes[1..]);
      assert Hex(bytes) == head + Hex(bytes[1..]);
      assert Zeros(2 * |bytes|) == "00" + Zeros(2 * |bytes[1..]|);
      if Hex(bytes) == Zeros(2 * |bytes|) {
        assert head[0] == Hex(bytes)[0] == '0' && head[1] == Hex(bytes)[1] == '0';
        assert Hex(bytes[1..]) == Hex(bytes)[2..];
        assert bytes[0] / 16 == 0 && bytes[0] % 16 == 0;
        forall i | 0 <= i < |bytes| ensures bytes[i] == 0 {
          if i > 0 { assert bytes[i] == bytes[1..][i - 1]; }
        }
      }
      if forall i :: 0 <= i < |bytes| ==> bytes[i] == 0 {
        assert bytes[0] == 0;
        assert forall i :: 0 <= i < |bytes[1..]| ==> bytes[1..][i] == 0 by {
          forall i | 0 <= i < |bytes[1..]| ensures bytes[1..][i] == 0 {
            assert bytes[1..][i] == bytes[i + 1];
          }
        }
      }
    }
  }

  /** An address renders as the zero-address literal exactly when all of its
      bytes are zero. */
  lemma ZeroAddressRendering(a: Address)
    ensures AddressString(a) == ZeroAddressString <==> IsZeroAddress(a)
  {
    HexAllZero(a);
    if AddressString(a) == ZeroAddressString {
      assert Hex(a) == AddressString(a)[2..] && Zeros(40) == ZeroAddressString[2..];
    }
  }

  // The structs of the generated Swapica contract binding.

  /** `ISwapicaOrderStatus`; `matchId` is a `*big.Int` that may be nil. */
  datatype OrderStatus = OrderStatus(state: Uint8, matchId: Option<Id64>, matchSwapica: Address)

  /** `ISwapicaOrder`. */
  datatype SwapicaOrder = SwapicaOrder(
    status: OrderStatus,
    orderId: Id64,
    creator: Address,
    tokenToSell: Address,
    tokenToBuy: Address,
    amountToSell: nat,
    amountToBuy: nat,
    destinationChain: nat)

  /** `ISwapicaMatch`. */
  datatype SwapicaMatch = SwapicaMatch(
    state: Uint8,
    matchId: Id64,
    originOrderId: Id64,
    originChainId: Id64,
    creator: Address,
    tokenToSell: Address,
    amountToSell: nat)

  /** The four contract events the indexer handles, as decoded payloads. */
  datatype Event =
    | OrderCreated(order: SwapicaOrder, useRelayer: bool)
    | OrderUpdated(orderId: Id64, status: OrderStatus)
    | MatchCreated(matchOrder: SwapicaMatch, useRelayer: bool)
    | MatchUpdated(matchId: Id64, state: Uint8)

  function EventName(e: Event): string {
    match e
    case OrderCreated(_, _) => "OrderCreated"
    case OrderUpdated(_, _) => "OrderUpdated"
    case MatchCreated(_, _) => "MatchCreated"
    case MatchUpdated(_, _) => "MatchUpdated"
  }

  /** The data bytes of a log: either the encoding of an event or bytes that
      unpack as no event. */
  datatype Payload = Encoded(event: Event) | Malformed

  /** A raw log: its first topic (the event signature hash), its data and the
      number of the block that holds it. */
  datatype Log = Log(topic: Hash, data: Payload, blockNumber: Uint64)

  /** `abi.UnpackIntoInterface(&event, name, data)`: succeeds exactly when the
      data encodes an event of the requested name. */
  function Unpack(name: string, data: Payload): (r: Option<Event>)
    ensures r.Some? <==> data.Encoded? && EventName(data.event) == name
    ensures r.Some? ==> r.value == data.event
  {
    if data.Encoded? && EventName(data.event) == name then Some(data.event) else None
  }
}
