# Swapica indexer-svc, modelled in Dafny

The indexer follows the Swapica contract on one chain. For each order or
match event it writes the collector service (a JSON:API store keyed by
chain and id), and it keeps a checkpoint, the last block it has handled,
so that a restart resumes where the previous run stopped.

The repository holds several revisions of the indexer. Each is modelled
in its own module:

- **Event-driven revision.** `indexer.go`, `events_handlers.go`,
  `helpers.go` and `main.go`. The indexer reads the head block, subscribes
  to the contract's logs, catches up from the checkpoint with one
  `eth_getLogs`, and then follows the subscription. Every handled log
  saves its block as the checkpoint.
- **Window revision.** `catch_up.go`, `orders.go` and `match_orders.go`.
  The indexer reads the missed blocks in windows of at most `blockRange + 1`
  blocks. Each handled event raises an in-memory checkpoint to one past its
  block.
- **Strict revision.** `fixed_indexer.go`. The existence checks look an
  entity up by id on any chain. They fail on an unknown id.
- **Order worker.** `worker.go`, `data/postgres/block.go` and
  `data/postgres/order.go`. OrderUpdated events go straight into Postgres:
  a new order is read from the contract and inserted, any other status
  updates the order's row, and the `last_blocks` row is set to the event's
  block.
- **Shared parts.** The request bodies (`requests/`) and the network
  configuration (`config/network.go`).

The environment is modelled as values or as classes:

- The collector is a keyed store, plus a log of the requests sent and a
  fault oracle. The oracle says which requests fail with which connection
  error.
- The RPC node is a class holding the head block, the log history, the
  logs a subscription delivers, whether it answers at all, whether it
  accepts a subscription, and which log queries it refuses although it
  answers.
- The Postgres tables are classes with a `healthy` flag. A table that is
  not healthy fails every statement.

The existence checks decode the collector's answer with `encoding/json`
into the flat `Order` and `Match` structs of `types.go`, which carry no
`json` tags. The collector answers in JSON:API, whose top level holds only
`data` (`main.go` reads the checkpoint as `resp.Data.ID`), so no member
matches `OrderID` or `MatchID` and the decoded id stays 0. The model
decodes the answer that way: every check that gets an answer reports
exactly whether the id is 0. As a consequence the Created handlers POST
every event again (the collector's 409 keeps the store as it was), and the
Updated handlers, whose condition is inverted, PATCH every update.

Each loop of the source is a Dafny `while` loop. Its specification is a
shared fold, `EventPasses.Run`: the events are handled in order, and the
pass stops at the first failure.

## Model

| member | source | states |
|---|---|---|
| Decimal.FormatUint | internal/service/requests/update_last_block.go:13 | the rendering is non-empty and all digits, with no leading zero except for 0 itself |
| Decimal.FormatInt | internal/service/helpers.go:56 | the rendering of a non-negative number is non-empty, all digits, and denotes the number; a negative number renders as a minus sign followed by digits denoting its magnitude |
| Decimal.FormatUintValue | internal/service/requests/update_last_block.go:13 | the digits written denote the number |
| Decimal.ParseFormatUint | internal/service/main.go:67-68 | parsing the decimal rendering of any 64-bit value gives that value back |
| Decimal.FormatUintInjective | internal/service/requests/update_last_block.go:13 | distinct numbers render differently |
| Decimal.FormatIntInjective | internal/config/network.go:62 | distinct integers, negative ones included, render differently |
| Eth.Hex | internal/service/requests/update_order.go:13 | two hexadecimal digits per byte |
| Eth.Zeros | internal/service/requests/update_order.go:10 | a string of n zero characters |
| Eth.HexAllZero | internal/service/requests/update_order.go:10-16 | the hex rendering is all zeros exactly when every byte is zero |
| Eth.ZeroAddressRendering | internal/service/requests/update_order.go:10-16 | an address renders as the zero-address literal exactly when all its bytes are zero |
| Requests.NewAddOrder | internal/service/requests/add_order.go:8-36 | the ORDER resource has no ID; it carries the order id, the indexer's chain and the state; the two amounts are all-digit strings denoting the order's amounts, whatever their size; the tokens and account are the addresses' renderings; ExecutedBy is empty; DestChain is a CHAIN key whose ID denotes the destination chain and parses back to it below 2^64 |
| Requests.ParseFormatUintIfSmall | internal/service/requests/add_order.go:26-30 | a decimal rendering below 2^64 parses back to the number |
| Requests.NewUpdateOrder | internal/service/requests/update_order.go:12-37 | keyed by the decimal id, which parses back to the id; match contract absent exactly when it is the zero address; match id absent exactly when nil or 0; state carried |
| Requests.NewAddMatch | internal/service/requests/add_match.go:8-26 | a MATCH_ORDER resource with no ID, carrying the match's ids, the chain and the state; the amount is an all-digit string denoting the match's amount, whatever its size, and parses back below 2^64 |
| Requests.NewUpdateMatch | internal/service/requests/update_match.go:9-21 | a MATCH_ORDER key whose ID parses back to the id; the only attribute is the state |
| Requests.NewUpdateBlock | internal/service/requests/update_last_block.go:9-18 | a BLOCK key whose ID is canonical decimal digits and parses back to the block number |
| Requests.NewUpdateBlockInjective | internal/service/requests/update_last_block.go:13-14 | distinct block numbers give distinct checkpoint IDs |
| CollectorService.ServeStoresBody | internal/service/helpers.go:38-124 | what the collector stores is what the request body says: ids, chain and state of a created order or match; the patched fields of an order; a match's new state; the checkpoint's decimal ID |
| CollectorService.ServeKeepsWellKeyed | internal/service/helpers.go:38-124 | serving any request keeps every record under the key its own ids render to |
| CollectorService.AnswerLeavesIdZero | internal/service/types.go:5-39 | decoding the collector's JSON:API answer into the untagged `Order` or `Match` struct leaves `OrderID`/`MatchID` at 0, whatever record was found |
| CollectorService.Collector.Send | internal/service/helpers.go:44-45 | the request is logged; the reply is the injected fault if there is one, otherwise the collector's answer, which updates the store |
| ChainNode.EventByID | internal/service/indexer.go:136-141 | none exactly when no ABI event has the topic; otherwise the name of an ABI event with that topic |
| ChainNode.Matching | internal/service/indexer.go:102-105 | a log is returned exactly when it is in the history and the query selects it |
| ChainNode.Node.BlockNumber | internal/service/indexer.go:71-74 | the call is recorded; returns the head block, or an RPC error when the node is unreachable |
| ChainNode.Node.FilterLogs | internal/service/indexer.go:102-105 | the call is recorded; returns the matching logs when the node is reachable and does not refuse the query, and an RPC error otherwise |
| ChainNode.Node.SubscribeFilterLogs | internal/service/indexer.go:76-80 | the call is recorded; on success returns the logs the subscription will deliver |
| EventPasses.HighWaterIsMax | internal/service/orders.go:25-28 | the checkpoint after a sequence of events is the largest of the start value and every event's block plus one |
| EventPasses.HighWaterMonotone | internal/service/orders.go:25-28 | the checkpoint never decreases as more events are handled |
| EventPasses.Run | internal/service/indexer.go:107-111 | the number of events that succeeded is at most the number of events; a failure is reported exactly when fewer than all succeeded |
| EventPasses.RunStops | internal/service/indexer.go:107-111 | once a prefix has failed, the later events change nothing |
| EventPasses.RunSends | internal/service/orders.go:20-29 | a pass sends one request per event it tried, in order, up to and including the first failure |
| Helpers.Filters | internal/service/helpers.go:19-36 | the query names the contract as its only address, and one topic per handler name (that name's ABI event ID), in the map's order |
| Helpers.SwallowConflict | internal/service/helpers.go:45-50 | a 409 Conflict becomes success; any other error is kept |
| Helpers.AddOrderEffect | internal/service/helpers.go:38-51 | exactly one POST is sent and only orders change; it fails exactly when the request fails with a status other than 409; a delivered request leaves the order stored, and an order already stored is left as it was |
| Helpers.AddOrder | internal/service/helpers.go:38-51 | the collector's new state and the error are those AddOrderEffect describes |
| Helpers.UpdateOrderEffect | internal/service/helpers.go:53-59 | exactly one PATCH, with no existence check; it fails exactly when the request fails (against a collector that answers, exactly when the order is absent); a failure changes nothing |
| Helpers.UpdateOrder | internal/service/helpers.go:53-59 | the collector's new state and the error are those UpdateOrderEffect describes |
| Helpers.OrderExistsFrom | internal/service/helpers.go:61-75 | fails exactly on an error whose text is not "not found", returning it; whenever it succeeds the answer is whether the id is 0, whatever the collector answered |
| Helpers.OrderExistsEffect | internal/service/helpers.go:61-75 | exactly one GET is sent and nothing is stored; an error other than not-found is returned; otherwise the result is `id == 0` whatever the collector holds, so a stored non-zero order is reported absent |
| Helpers.OrderExists | internal/service/helpers.go:61-75 | the result and the new state are those OrderExistsEffect describes |
| Helpers.AddMatchEffect | internal/service/helpers.go:77-90 | the mirror of AddOrderEffect for matches |
| Helpers.AddMatch | internal/service/helpers.go:77-90 | the result and the new state are those AddMatchEffect describes |
| Helpers.UpdateMatchEffect | internal/service/helpers.go:92-98 | exactly one PATCH carrying the state; it fails exactly when the request fails; an answered patch stores the new state |
| Helpers.UpdateMatch | internal/service/helpers.go:92-98 | the result and the new state are those UpdateMatchEffect describes |
| Helpers.MatchExistsFrom | internal/service/helpers.go:100-114 | fails exactly on an error whose text is not "not found"; whenever it succeeds the answer is whether the id is 0 |
| Helpers.MatchExistsEffect | internal/service/helpers.go:100-114 | exactly one GET and nothing stored; an error other than not-found is returned; otherwise the result is `id == 0` whatever the collector holds |
| Helpers.MatchExists | internal/service/helpers.go:100-114 | the result and the new state are those MatchExistsEffect describes |
| Helpers.UpdateLastBlockEffect | internal/service/helpers.go:116-124 | exactly one POST; it fails exactly when the request fails; on success the chain's checkpoint is the decimal of the block and nothing else stored changes |
| Helpers.UpdateLastBlock | internal/service/helpers.go:116-124 | the result and the new state are those UpdateLastBlockEffect describes |
| EventHandlers.DecodeFailureSendsNothing | internal/service/events_handlers.go:14-19 | an undecodable payload is an error before any request: nothing is sent and nothing changes |
| EventHandlers.OrderCreatedEffect | internal/service/events_handlers.go:11-34 | one GET first; an error other than not-found ends the handler with nothing written; id 0 is skipped; any other order is POSTed once, whether or not the collector already holds it |
| EventHandlers.MatchCreatedEffect | internal/service/events_handlers.go:61-84 | the mirror of OrderCreatedEffect for matches |
| EventHandlers.OrderCreatedIdempotent | internal/service/events_handlers.go:11-34 | handling the same OrderCreated event twice against an answering collector ends the same way and stores nothing more the second time, though the second pass sends the GET and the POST again |
| EventHandlers.MatchCreatedIdempotent | internal/service/events_handlers.go:61-84 | the mirror for MatchCreated |
| EventHandlers.OrderUpdatedEffect | internal/service/events_handlers.go:36-59 | one GET first; an error other than not-found ends the handler; id 0 is skipped; any other id is PATCHed once, and a collector that answers and holds the order stores the new state |
| EventHandlers.MatchUpdatedEffect | internal/service/events_handlers.go:86-109 | the mirror for MatchUpdated: every non-zero id is PATCHed, and an answering collector that holds the match stores the new state |
| EventHandlers.HandleOrderCreated | internal/service/events_handlers.go:11-34 | decode, check, then add only when the check says the order does not exist; the state and error match the handler's specification |
| EventHandlers.HandleOrderUpdated | internal/service/events_handlers.go:36-59 | decode, check, then update only when the check says the order does NOT exist |
| EventHandlers.HandleMatchCreated | internal/service/events_handlers.go:61-84 | decode, check, then add only when the check says the match does not exist |
| EventHandlers.HandleMatchUpdated | internal/service/events_handlers.go:86-109 | decode, check, then update only when the check says the match does NOT exist |
| EventIndexer.TolerantReadOnly | internal/service/helpers.go:61-114 | the existence checks store nothing |
| EventIndexer.HandledKeepsBlocks | internal/service/indexer.go:143-156 | with read-only checks, no handler touches a checkpoint |
| EventIndexer.HandleEventEffect | internal/service/indexer.go:133-163 | the checkpoint moves to the log's block exactly when handleEvent succeeds, and the checkpoint POST is then the last request; on any failure the checkpoint stays where it was |
| EventIndexer.PassCheckpoint | internal/service/indexer.go:107-111 | after a pass, the checkpoint is the block of the last log handled, or unchanged if none was; a failed log never moves it |
| EventIndexer.PassSavesLastBlock | internal/service/indexer.go:107-111 | a pass with no failure leaves the checkpoint at the last log's block |
| EventIndexer.CatchUpCovers | internal/service/indexer.go:94-105 | the catch-up query selects every handled log from the checkpoint to the head block, unless `head + 1` wraps to 0 |
| EventIndexer.Indexer.Filters | internal/service/helpers.go:19-36 | the contract is the only address; the topics are exactly the handled events' IDs, in any order |
| EventIndexer.Indexer.HandleEvent | internal/service/indexer.go:133-163 | the collector's new state and the error are those of the handleEvent specification |
| EventIndexer.Indexer.HandleLogs | internal/service/indexer.go:107-111 | the logs are handled in order until the first failure, as the pass fold states |
| EventIndexer.Indexer.HandleUnprocessedEvents | internal/service/indexer.go:94-114 | one getLogs from the checkpoint to `(head + 1) mod 2^64`; when the node does not serve the query an RPC error is returned with nothing handled; otherwise every returned log is handled in order |
| EventIndexer.Indexer.WaitForEvents | internal/service/indexer.go:116-131 | the delivered logs are handled in order until one fails; otherwise the subscription's ending error is returned; it never returns without an error |
| EventIndexer.Indexer.Start | internal/service/indexer.go:70-92 | head read, then subscribe, then catch up, then follow; a failed head read, subscription or catch-up query stops the later steps with nothing handled; every run ends with an error |
| CatchUp.Windows | internal/service/catch_up.go:29-39 | the windows from `start` to `curr`, each at most `range + 1` blocks long |
| CatchUp.WindowsShape | internal/service/catch_up.go:29-39 | the first window starts at `start` and the last ends at `curr`; each lies within `[start, curr]`, spans at most `range + 1` blocks, and starts right after the previous one ends |
| CatchUp.WindowsCover | internal/service/catch_up.go:29-39 | a block is in some window exactly when it lies in `[start, curr]` |
| CatchUp.WindowsDisjoint | internal/service/catch_up.go:29-39 | an earlier window ends before a later one starts, so no block is read twice |
| CatchUp.WindowsExample | internal/service/catch_up.go:29-39 | reading 1001..1050 with a range of 20 gives the windows 1001-1021, 1022-1042 and 1043-1050 |
| CatchUp.Queries | internal/service/catch_up.go:35-36 | one query per window |
| CatchUp.ReadSucceeds | internal/service/catch_up.go:29-39 | reading succeeds exactly when every window is handled, and then every window was queried |
| CatchUp.ReadStopsAtFirstFailure | internal/service/catch_up.go:36-38 | a failed read queried the windows up to and including the first failing one, returns that window's error, and queries no later window |
| CatchUp.CatchUpIndexer.ReadWindows | internal/service/catch_up.go:29-39 | the calls made and the error are those of reading the windows; the checkpoint does not change |
| CatchUp.CatchUpIndexer.CatchUp | internal/service/catch_up.go:10-44 | blockRange 0 makes one open-ended query; a latest-block error or an up-to-date checkpoint queries nothing; otherwise the windows are read; the checkpoint becomes `latest` exactly when all succeed; the deferred checkpoint save always runs last |
| Orders.CreatedPassSends | internal/service/orders.go:20-29 | a pass over OrderCreated events POSTs each order in order, up to and including the first failure |
| Orders.UpdatedPassSends | internal/service/orders.go:39-49 | a pass over OrderUpdated events PATCHes each status in order, up to and including the first failure, with no existence check |
| Orders.OrderIndexer.AddOrder | internal/service/orders.go:54-65 | the result and the new state are those of addOrder: a 409 counts as success |
| Orders.OrderIndexer.UpdateOrder | internal/service/orders.go:67-72 | the result and the new state are those of updateOrder |
| Orders.OrderIndexer.Raise | internal/service/orders.go:25-28 | the checkpoint becomes one past the event's block when that is higher, and the flag records whether it rose |
| Orders.OrderIndexer.IndexCreatedEvents | internal/service/orders.go:20-29 | the collector ends as the pass leaves it; the checkpoint is the high-water mark of the events that succeeded; the flag says whether it rose |
| Orders.OrderIndexer.HandleCreatedOrders | internal/service/orders.go:15-32 | a filter error changes nothing; otherwise as IndexCreatedEvents, and the iterator's own error is returned when no event failed |
| Orders.OrderIndexer.IndexUpdatedEvents | internal/service/orders.go:39-49 | the same as IndexCreatedEvents, for updateOrder |
| Orders.OrderIndexer.HandleUpdatedOrders | internal/service/orders.go:34-52 | the same as HandleCreatedOrders, for updateOrder |
| MatchOrders.CreatedPassSends | internal/service/match_orders.go:20-29 | a pass over MatchCreated events POSTs each match in order, up to and including the first failure |
| MatchOrders.UpdatedPassSends | internal/service/match_orders.go:39-49 | a pass over MatchUpdated events PATCHes each state in order, up to and including the first failure |
| MatchOrders.MatchIndexer.AddMatch | internal/service/match_orders.go:54-67 | the result and the new state are those of addMatch: a 409 counts as success |
| MatchOrders.MatchIndexer.UpdateMatch | internal/service/match_orders.go:69-75 | the result and the new state are those of updateMatch |
| MatchOrders.MatchIndexer.Raise | internal/service/match_orders.go:25-28 | the checkpoint becomes one past the event's block when that is higher, and the flag records whether it rose |
| MatchOrders.MatchIndexer.IndexCreatedEvents | internal/service/match_orders.go:20-29 | the collector ends as the pass leaves it; the checkpoint is the high-water mark of the matches that succeeded |
| MatchOrders.MatchIndexer.HandleCreatedMatches | internal/service/match_orders.go:15-32 | a filter error changes nothing; otherwise as IndexCreatedEvents, and the iterator's own error is returned when no event failed |
| MatchOrders.MatchIndexer.IndexUpdatedEvents | internal/service/match_orders.go:39-49 | the same as IndexCreatedEvents, for updateMatch |
| MatchOrders.MatchIndexer.HandleUpdatedMatches | internal/service/match_orders.go:34-52 | the same as HandleCreatedMatches, for updateMatch |
| FixedIndexer.StrictExistsFrom | internal/service/fixed_indexer.go:303-316 | fails exactly when the lookup fails, returning that error; whenever it succeeds the answer is whether the id is 0 |
| FixedIndexer.StrictOrderExistsEffect | internal/service/fixed_indexer.go:303-316 | exactly one lookup and nothing stored; it succeeds exactly when the lookup gets through and some chain holds an order of that id, and then answers whether the id is 0; an unknown id is a 404 error |
| FixedIndexer.StrictMatchExistsEffect | internal/service/fixed_indexer.go:361-374 | the mirror for matches |
| FixedIndexer.StrictOrderHandlersKeepIds | internal/service/fixed_indexer.go:97-145 | the strict OrderCreated and OrderUpdated handlers write only after the lookup found the id on some chain, so the set of order ids held is unchanged, and matches and checkpoints are untouched |
| FixedIndexer.StrictMatchHandlersKeepIds | internal/service/fixed_indexer.go:147-195 | the mirror for matches |
| FixedIndexer.StrictHandlersKeepIds | internal/service/fixed_indexer.go:255-278 | no handler of this revision adds an order id or a match id to what the collector holds, and none touches a checkpoint |
| FixedIndexer.StrictCreatedFailsOnNewOrder | internal/service/fixed_indexer.go:97-120 | an OrderCreated event for an order held on no chain fails with the lookup's 404 after that one request |
| FixedIndexer.PassKeepsIds | internal/service/fixed_indexer.go:197-217 | a pass of this revision adds no order id and no match id to the collector and leaves its checkpoints as they were |
| FixedIndexer.OrderExists | internal/service/fixed_indexer.go:303-316 | the result and the new state are those of the strict order check |
| FixedIndexer.MatchExists | internal/service/fixed_indexer.go:361-374 | the result and the new state are those of the strict match check |
| FixedIndexer.FixedIndexer.HandleOrderCreated | internal/service/fixed_indexer.go:97-120 | the handler's specification with the strict check |
| FixedIndexer.FixedIndexer.HandleOrderUpdated | internal/service/fixed_indexer.go:122-145 | the handler's specification with the strict check |
| FixedIndexer.FixedIndexer.HandleMatchCreated | internal/service/fixed_indexer.go:147-170 | the handler's specification with the strict check |
| FixedIndexer.FixedIndexer.HandleMatchUpdated | internal/service/fixed_indexer.go:172-195 | the handler's specification with the strict check |
| FixedIndexer.FixedIndexer.Filters | internal/service/fixed_indexer.go:219-236 | the contract is the only address; the topics are exactly the handled events' IDs |
| FixedIndexer.FixedIndexer.HandleEvent | internal/service/fixed_indexer.go:255-278 | the handler's result, with no checkpoint saved |
| FixedIndexer.FixedIndexer.HandleLogs | internal/service/fixed_indexer.go:207-214 | the logs are handled in order until the first failure |
| FixedIndexer.FixedIndexer.HandleUnprocessedEvents | internal/service/fixed_indexer.go:197-217 | one getLogs from the checkpoint to `(head + 1) mod 2^64`; when the node does not serve the query an RPC error is returned with nothing handled; otherwise the logs are handled in order |
| FixedIndexer.FixedIndexer.WaitForEvents | internal/service/fixed_indexer.go:238-253 | the delivered logs are handled until one fails; it never returns without an error |
| FixedIndexer.FixedIndexer.Start | internal/service/fixed_indexer.go:73-95 | head read, catch-up, and only then subscribe; a refused catch-up query ends the run with an RPC error and nothing handled; every run ends with an error |
| PostgresBlock.SeededProperties | internal/data/postgres/block.go:28-40 | after seeding, the chain has a row; an existing row keeps its value; a new row holds 0; seeding twice equals seeding once; other chains are unchanged |
| PostgresBlock.UpdatedProperties | internal/data/postgres/block.go:42-62 | Set then Get reads back the number set; no row is created; other chains are unchanged |
| PostgresBlock.Get | internal/data/postgres/block.go:48-62 | the chain's block, none when it has no row, or a database error |
| PostgresBlock.Init | internal/data/postgres/block.go:28-40 | the table becomes the seeded table, or a database error leaves it unchanged |
| PostgresBlock.Set | internal/data/postgres/block.go:42-46 | the table becomes the updated table, or a database error leaves it unchanged |
| PostgresBlock.NewLastBlock | internal/data/postgres/block.go:20-26 | on success the chain has a row, and an existing row is kept |
| PostgresOrder.OrderValues | internal/data/postgres/order.go:27 | one value per column of the order's map |
| PostgresOrder.ExecInsert | internal/data/postgres/order.go:25-31 | on success the table grows by one row per VALUES tuple and the existing rows are kept; on failure the table is unchanged |
| PostgresOrder.InsertAsWrittenRejected | internal/data/postgres/order.go:27-28 | the statement as built is rejected for every order and every table |
| PostgresOrder.CorrectedRow | internal/data/postgres/order.go:27-28 | the corrected VALUES tuple makes exactly the order's row, source chain included |
| PostgresOrder.InsertCorrectedAppends | internal/data/postgres/order.go:27-28 | the corrected statement appends exactly the order's row and keeps every other row |
| PostgresOrder.UpdateProperties | internal/data/postgres/order.go:33-39 | only the three status columns of rows with that id change, and they are set to the status; rows of other ids are untouched; no match means no change |
| PostgresOrder.Insert | internal/data/postgres/order.go:25-31 | as written: always a database error, and the table is unchanged |
| PostgresOrder.InsertFixed | internal/data/postgres/order.go:25-31 | corrected: a healthy table gains exactly the order's row; otherwise a database error and no change |
| PostgresOrder.Update | internal/data/postgres/order.go:33-39 | a healthy table becomes ExecUpdate of the old rows; otherwise a database error and no change |
| OrderWorker.GetOrderMerge | internal/service/worker.go:72-93 | fails exactly when the contract read fails; the ids, account, tokens, amounts and destination chain come from the contract and the status from the event |
| OrderWorker.IndexOrderEffect | internal/service/worker.go:47-70 | state 1 reads the contract and inserts one row; any other state updates the rows of that id; the checkpoint is set to the event's block exactly when both writes succeed |
| OrderWorker.UpdateReadsNoContract | internal/service/worker.go:61-66 | a status other than 1 does not depend on the contract |
| OrderWorker.PassCheckpoint | internal/service/worker.go:32-44 | after a pass, the chain's checkpoint is the block of the last event that succeeded, or unchanged if none did |
| OrderWorker.RestartRereadsLastBlock | internal/service/worker.go:15-30 | a restart watches from the block of the last event indexed, so that event is delivered again |
| OrderWorker.Worker.IndexOrder | internal/service/worker.go:47-70 | the tables and the error are those of the indexOrder specification |
| OrderWorker.Worker.IndexEvents | internal/service/worker.go:32-44 | the events are indexed in order until the first failure; with no failure the subscription's ending error is returned |
| OrderWorker.Worker.Work | internal/service/worker.go:14-45 | always an error; a database error or a missing checkpoint row changes nothing; otherwise the subscription from the saved block is indexed |
| Service.GetLastBlockEffect | internal/service/main.go:52-69 | one GET of `{chain}/block`, nothing stored; no checkpoint gives 0; a stored one gives its parse (a Parse error exactly when it is not a decimal uint64); a 404 failure gives 0; any other failure is returned |
| Service.CheckpointRoundTrip | internal/service/main.go:52-69 | after a checkpoint of block n is saved, getLastBlock reads n |
| Service.GetLastBlock | internal/service/main.go:52-69 | the result and the request log are those of the getLastBlock specification |
| Service.Run | internal/service/main.go:23-37 | an indexer is made only when the checkpoint was read, and it starts from that block; a failed read is returned |
| NetworkConfig.MaxChainIDValue | internal/config/network.go:24 | the largest chain id is 2^63 - 37 |
| NetworkConfig.MakeNetworkProperties | internal/config/network.go:44-63 | accepted exactly when 1 <= id <= 2^63 - 37; the id is kept as its decimal rendering, which no other id shares; the index period passes through; a zero timeout becomes ten seconds |

## Left out

- Concurrency is not modelled: goroutines, the channel `select` of `waitForEvents` and of the worker, and context cancellation. A subscription is the finite sequence of logs it delivers, followed by its ending error.
- The retry and backoff loop around `run` (main.go:33-34) is left out. Service.Run returns the seeded indexer and does not run it.
- Logging and request timeouts are left out. They do not change any outcome.
- Eth.Unpack: ABI decoding is an oracle, so its contract only names the event a payload carries. A log carries either the event it encodes or bytes that decode as no event, and `EventByID` is a lookup in a list of (name, ID) pairs.
- EIP-55 checksum casing in `Address.String()` is left out. It does not change whether an address renders as the zero-address literal.
- The `useRelayer` flag of the created events and of the request builders is not modelled.
- `big.Int.Int64()` truncation is not modelled. Ids are assumed to be non-negative and below 2^63.
- The panic of `log.Topics[0]` on a log without topics is not modelled. Every log has a topic.
- The address filter of the log query is not modelled. The model's node holds only the contract's own logs.
- The `lastBlockOutdated` field of `indexer.go` is never read there, and it is not modelled in EventIndexer.
- `url.Parse` on the fixed relative paths never fails, and its error path is left out.
- The panics in configuration loading (figure/kv parsing, `ethclient.Dial`, the contract binding) are left out. An out-of-range chain id is modelled as an error result that carries the panic's message.
- The collector is modelled as a keyed store with a fault oracle. An absent key answers 404 "not found", and both the status check of main.go and the text check of helpers.go see that answer. The chain-less `get_order`/`get_match` lookups of fixed_indexer.go are assumed to answer 404 for an id no chain holds.
- The format of the collector's answers is not in the indexer's source. The model takes every answer to a read to be a JSON:API document whose only top-level member is `data`, as `main.go` reads the checkpoint; a collector answering with a flat record would make the checks compare the stored id.
- `handleEvents` and `updateLastBlock(ctx)` of the window revision are not part of this model, because their definitions are not in the source files. The outcome of handling each window is a parameter, and the deferred checkpoint save is a recorded call.
- In the window revision the block arithmetic (`start + blockRange`, `blockNumber + 1`) uses unbounded integers, so uint64 wrap-around is not modelled there. It is modelled for `currentBlock + 1` in the event-driven and strict revisions.
- OrderWorker.Worker.IndexOrder writes with the corrected INSERT (see Findings). PostgresOrder.Insert models the statement as written.
- The Postgres tables are maps and sequences of rows. Driver behaviour, type conversion and transactions are left out, and a database error is a `healthy` flag on the table.
- The Updated handlers of `events_handlers.go` and `fixed_indexer.go` PATCH only when the existence check says the entity does not exist. This is modelled as written, and its consequence is stated as a property (OrderUpdatedEffect, StrictHandlersKeepIds) rather than corrected.
- CatchUp.CatchUpIndexer.CatchUp: how each window is handled is a parameter (an outcome per window), because `handleEvents` is not part of this model. The handlers that raise `r.lastBlock` while a window is handled (`orders.go`, `match_orders.go`) are therefore not composed into it, and "the checkpoint is unchanged on failure" holds only under that separation.
- OrderWorker.Worker.Work: a missing checkpoint row makes `*last` at worker.go:19 dereference a nil pointer, which panics in Go. The model returns the NilCheckpoint error instead and changes nothing.

## Findings

| source | as written | input that shows it | evidently intended | confidence | as-written member | corrected member |
|---|---|---|---|---|---|---|
| internal/data/postgres/order.go:27-28 | `SetMap(structs.Map(order))` sets ten columns and one VALUES row; `.Columns("src_chain")` appends an eleventh column; `.Values(chain)` appends a second VALUES row holding only the chain, so the statement has rows of 10 and 1 values for 11 columns | any order, on any table | the chain is the eleventh value of the same row, and one row is inserted | not executed | PostgresOrder.InsertAsWrittenRejected | PostgresOrder.InsertCorrectedAppends |
