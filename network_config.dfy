/** The network section of the configuration (`config/network.go`): the
    chain id must lie in the range EIP-2294 allows, the request timeout
    defaults to ten seconds, and the chain id is kept as its decimal
    rendering. Durations are whole nanoseconds, as Go's `time.Duration`. */
module NetworkConfig {
  import opened Base
  import opened Decimal

  /** `time.Second`, in nanoseconds. */
  const Second: int := 1_000_000_000

  /** `defaultRequestTimeout`. */
  const DefaultRequestTimeout: int := 10 * Second

  /** `maxChainID`: half of the largest uint64, rounded down, less 36. */
  const MaxChainID: Int64 := (TWO_64 - 1) / 2 - 36

  /** The EIP-2294 bound: the largest chain id is 2^63 - 37. */
  lemma MaxChainIDValue()
    ensures MaxChainID == TWO_63 - 37
    ensures MaxChainID < TWO_63
  {
  }

  /** The fields of the network section this model reads. */
  datatype Raw = Raw(chainID: Int64, indexPeriod: int, requestTimeout: int)

  /** The `Network` value made from them. */
  datatype Network = Network(chainID: string, indexPeriod: int, requestTimeout: int)

  /** Whether a chain id is accepted. */
  predicate ValidChainID(id: Int64) {
    !(id > MaxChainID || id <= 0)
  }

  /** `Network`: an out-of-range chain id aborts the configuration (the
      source panics); a zero timeout is replaced by the default. */
  function MakeNetwork(cfg: Raw): Result<Network, string> {
    if !ValidChainID(cfg.chainID) then Err("chain_id value out of range due to EIP 2294")
    else
      var timeout := if cfg.requestTimeout == 0 then DefaultRequestTimeout else cfg.requestTimeout;
      Ok(Network(FormatInt(cfg.chainID), cfg.indexPeriod, timeout))
  }

  /** A chain id is accepted exactly when it lies in [1, 2^63 - 37]. An
      accepted id is kept as its decimal rendering, which no other id
      shares; the index period is passed through; a zero timeout becomes
      ten seconds and any other is kept. */
  lemma MakeNetworkProperties(cfg: Raw)
    ensures MakeNetwork(cfg).Ok? <==> 1 <= cfg.chainID <= TWO_63 - 37
    ensures MakeNetwork(cfg).Ok? ==>
      var n := MakeNetwork(cfg).value;
      && n.chainID == FormatUint(cfg.chainID)
      && (forall other: Int64 :: FormatInt(other) == n.chainID ==> other == cfg.chainID)
      && n.indexPeriod == cfg.indexPeriod
      && n.requestTimeout == (if cfg.requestTimeout == 0 then 10 * Second else cfg.requestTimeout)
  {
    MaxChainIDValue();
    if MakeNetwork(cfg).Ok? {
      forall other: Int64 | FormatInt(other) == MakeNetwork(cfg).value.chainID ensures other == cfg.chainID {
        FormatIntInjective(other, cfg.chainID);
      }
    }
  }
}
