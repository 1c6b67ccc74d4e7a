# base-flashblocks: the live-feed logic, modelled and proved in Dafny

The dashboard shows two live feeds from Base Sepolia. One is **regular blocks**: `newHeads` notifications arriving over a JSON-RPC WebSocket. The other is **flashblocks**: pre-confirmation payloads from the flashblocks WebSocket. This project models the client logic behind both feeds and proves properties of it:

- **Transaction-count store** (`TransactionCounts`). The shared map from block number to transaction count, with set, add, get and clear.
- **Flashblock feed** (`FlashblocksQuery`). Payloads without a block hash are dropped. Duplicates are detected by the composite key `block_number-index-block_hash` in a seen-set that only grows. Each first-seen payload's transaction count is forwarded to the store exactly once. The payload is put first in a list cut to `maxBlocks`. `clearBlocks` empties the list and the seen-set but keeps the counts.
- **Block feed** (`BlocksQuery`). Headers are validated, timed against the previous arrival, deduplicated by hash and put first in a bounded list. The last five inter-arrival gaps are kept and their rounded mean is reported. Each inbound JSON-RPC message is classified as a subscription notification, a confirmation, an error reply or something else. A five-entry error log is kept. Manual reconnects are rate-limited.
- **Connection supervisor** (`WebSocketBase`). The reconnect-attempt counter and its budget, and the stability flag armed by a 10 s timer after each open. Also the ready-state → status text mapping, and the request ids of `eth_subscribe`.
- **Pure helpers**:
  - the `2^n · 1000` ms backoff capped at 30 s (`WebSocketConstants`);
  - the formatters (`Formatters`): truncated hashes, thousands separators, the h/m/s/ms split of a time difference, the block-time label, the early answers of the ETH formatter, and the flashblock view record;
  - the gas gauge (`GasUsage`);
  - the header → block conversion and the "time between head changes" tracker of both sections (`BlockSection`, `FlashblocksSection`, `HeadTimeTracker`).

### How the model is built

**Stateful parts are classes.** Each of these is a Dafny class: the store, the two feed hooks, the socket supervisor, the request-id counter, the head-time tracker and the two sections. Their fields are updated in place. Every mutating method's contract states the new state as a pure function of the old one: `State() == Received(old(State()), …)`. The properties are proved about those functions, as invariants they preserve and as lemmas over whole runs of events.

**Timers are explicit events.** Each timer's firing is an explicit event or method: the stability timer (carrying the handle it was armed with), the 500 ms subscribe delay and the 1000 ms fallback. `Date.now()` is a parameter `now`.

**JavaScript semantics are written out.** Each built-in the code relies on is given its meaning where it is used:
- truthiness (`""`, `0` and `undefined` are falsy): `Common.Present` and `Common.NonZero`;
- `parseInt(s, 16)`, with `None` for `NaN`: `Numerals.ParseIntHex`;
- `BigInt(string)`, with `None` for the `SyntaxError` it throws: `Numerals.BigIntOfString`; `BigInt(NaN)` throws too, in `BlockSection`;
- template literals of integers: `Numerals.IntToString`;
- `%`, which truncates toward zero: `Formatters.JsRem`;
- `Math.floor` of a non-negative quotient: Dafny's `/`;
- `Math.round` (halves round up): `BlocksQuery.RoundedMean` and `GasUsage.RoundedPercent`.

**Conversion failures are values.** An exception that escapes a function is a `None` or `Err` result. Examples: `BigInt` throwing in `createBlockObject`, or on a malformed `0x` string in `formatBlockNumber` and `formatGasUsed`.

**Where the code differs from a plain reading of it:**
- The store's comment (`lib/utils/state/block.ts:38-40`) says flashblocks use `setTransactionCount`. The flashblock hook actually calls `addTransactions` (`lib/hooks/useFlashblocksQuery.ts:104`), and the model follows the call.
- `_needToFetchTransactions` is `!transactions || (typeof transactions === 'boolean' && transactions === true)`. A literal `false` is falsy too, so the flag is false only for a list of hashes. `BlockSection.NeedToFetch` states exactly that.
- `onError` clears `isStable` but leaves the stability timer armed, so a later firing still sets the flag. Only `onClose` and a re-open disarm or replace the timer.
- In the block feed, a reply with a truthy `id` and `result` overwrites the subscription id, whatever request it answers. Timing also happens before the duplicate check, so a re-delivered header still advances the clock.
- Both sections' trackers compare only the head's hash. A new flashblock index under the same block hash does not count as a new head.

## Model

| member | source | states |
|---|---|---|
| TransactionCounts.Added | lib/utils/state/block.ts:41-56 | the new count of `n` is the old count (0 when absent) plus the delta; every other entry is kept and only `n` is added as a key |
| TransactionCounts.Assigned | lib/utils/state/block.ts:23-35 | the count of `n` becomes `c`; every other entry is kept and only `n` is added as a key |
| TransactionCounts.Lookup | lib/utils/state/block.ts:60-62 | `undefined` exactly for a key never written, otherwise the stored count |
| TransactionCounts.Store.constructor | lib/utils/state/block.ts:20 | a store starts with an empty map |
| TransactionCounts.Store.SetTransactionCount | lib/utils/state/block.ts:23-35 | the map becomes `Assigned(old map, n, c)` |
| TransactionCounts.Store.AddTransactions | lib/utils/state/block.ts:41-56 | the map becomes `Added(old map, n, delta)` |
| TransactionCounts.Store.GetTransactionCount | lib/utils/state/block.ts:60-62 | `None` exactly for a missing key, otherwise the stored count |
| TransactionCounts.Store.Clear | lib/utils/state/block.ts:65-67 | the map is empty and every lookup gives `undefined` |
| TransactionCounts.AddToFresh | lib/utils/state/block.ts:43-44 | an add to a key never written leaves exactly the delta |
| TransactionCounts.AddsAccumulate | lib/utils/state/block.ts:41-56 | two adds leave the old count (0 when absent) plus both deltas |
| TransactionCounts.SetOverridesAdds | lib/utils/state/block.ts:23-35 | a set after an add leaves the value set, whatever was added |
| FlashblocksQuery.BlockIdentifierInjective | lib/hooks/useFlashblocksQuery.ts:84-92 | two hashed payloads share a seen-set key exactly when they agree on block number, index and hash |
| FlashblocksQuery.ForwardedBlock | lib/hooks/useFlashblocksQuery.ts:98-99 | a count is forwarded exactly when `metadata.block_number` is truthy, under that number |
| FlashblocksQuery.FindIndex | lib/hooks/useFlashblocksQuery.ts:122-127 | -1 exactly when no listed payload has the same identity; otherwise the first position that has it |
| FlashblocksQuery.InsertPayload | lib/hooks/useFlashblocksQuery.ts:129-155 | a listed identity leaves the list unchanged; otherwise the payload goes first, the old list follows in order, and the length is `min(old + 1, maxBlocks)` |
| FlashblocksQuery.SkippedFramesIgnored | lib/hooks/useFlashblocksQuery.ts:76-92 | a parse failure, a payload without a block hash and an already-seen key change neither list, seen-set nor counts |
| FlashblocksQuery.FreshFrameRecorded | lib/hooks/useFlashblocksQuery.ts:94-105 | a first-seen payload's key joins the seen-set, and its transaction count is added to its block number when that is truthy, otherwise the counts stay |
| FlashblocksQuery.Cleared | lib/hooks/useFlashblocksQuery.ts:47-53 | `clearBlocks` empties the list and the seen-set and keeps the counts |
| FlashblocksQuery.FreshNotListed | lib/hooks/useFlashblocksQuery.ts:122-136 | under the invariant, a payload whose key is unseen is not in the list, so it is always inserted |
| FlashblocksQuery.ReceivedKeepsInv | lib/hooks/useFlashblocksQuery.ts:120-156 | one message keeps the list within `maxBlocks`, hashed, covered by the seen-set and free of repeated identities |
| FlashblocksQuery.RunKeepsInv | lib/hooks/useFlashblocksQuery.ts:56-165 | the same invariant holds after any sequence of messages |
| FlashblocksQuery.SeenPersists | lib/hooks/useFlashblocksQuery.ts:95 | the seen-set never loses a key, and every hashed payload fed in ends up in it, even after it leaves the list |
| FlashblocksQuery.AcceptedExactlyOnce | lib/hooks/useFlashblocksQuery.ts:86-95 | the payloads acted on have pairwise distinct keys, none of them seen before, and their keys are exactly the new keys among the frames |
| FlashblocksQuery.ForwardedCounts | lib/hooks/useFlashblocksQuery.ts:98-105 | forwarding a sequence of payloads adds to block `n` the transactions of exactly the payloads numbered `n` |
| FlashblocksQuery.RunSeen | lib/hooks/useFlashblocksQuery.ts:87-95 | a run adds to the seen-set exactly the keys of the payloads it acted on |
| FlashblocksQuery.RunCounts | lib/hooks/useFlashblocksQuery.ts:97-105 | a run forwards every payload it acted on to the store once, in order, and nothing else |
| FlashblocksQuery.RunBlocks | lib/hooks/useFlashblocksQuery.ts:138-155 | after a run the list is the accepted payloads, newest first, in front of the old list, cut to `maxBlocks` |
| FlashblocksQuery.CountsAfterRun | lib/hooks/useFlashblocksQuery.ts:97-105 | the count of block `n` after a run is the old count plus the transactions of each distinct new payload numbered `n`; a replay never adds again |
| FlashblocksQuery.ReplayIgnored | lib/hooks/useFlashblocksQuery.ts:84-92 | a second payload under the same key is dropped whole, even with different gas used |
| FlashblocksQuery.FlashblocksFeed.constructor | lib/hooks/useFlashblocksQuery.ts:35-44 | a feed bounded by `MAX_BLOCKS` starts with an empty list and seen-set over the shared store |
| FlashblocksQuery.FlashblocksFeed.HandleMessage | lib/hooks/useFlashblocksQuery.ts:56-165 | the list, seen-set and store become `Received` of the old state, and the invariant is kept |
| FlashblocksQuery.FlashblocksFeed.ClearBlocks | lib/hooks/useFlashblocksQuery.ts:47-53 | the state becomes `Cleared` of the old one, leaving the store untouched |
| BlocksQuery.InsertHeader | lib/hooks/useBlocksQuery.ts:76-95 | a listed hash leaves the list unchanged; otherwise the header goes first, the old list follows, and the length is `min(old + 1, maxBlocks)` |
| BlocksQuery.RoundedMean | lib/hooks/useBlocksQuery.ts:51-53 | the reported average lies within half a unit of the exact mean, halves rounding up |
| BlocksQuery.RoundedMeanUnique | lib/hooks/useBlocksQuery.ts:51-53 | the rounded mean is the only integer with that property |
| BlocksQuery.PushGap | lib/hooks/useBlocksQuery.ts:50 | the window becomes the last five of the old gaps plus the new one, ending with the new gap |
| BlocksQuery.PushGapsWindow | lib/hooks/useBlocksQuery.ts:49-56 | pushing gaps one at a time keeps exactly the last five of all of them, in order |
| BlocksQuery.PushError | lib/hooks/useBlocksQuery.ts:136-139 | the log becomes the last five of the old entries plus the new one, ending with the new entry |
| BlocksQuery.Classify | lib/hooks/useBlocksQuery.ts:113-143 | a notification exactly when the method is `eth_subscription` with a result; a confirmation exactly when it is no notification and has a truthy id and result; an error reply exactly when it is neither and has an error; the rest has no error |
| BlocksQuery.InvalidHeaderIgnored | lib/hooks/useBlocksQuery.ts:41-44 | a header without a truthy hash or number changes neither list nor timing |
| BlocksQuery.Opened | lib/hooks/useBlocksQuery.ts:212-221 | an open empties the error log and forgets the subscription id; every other field (blocks, arrival times, gap, last block time, last reconnect) is kept |
| BlocksQuery.Closed | lib/hooks/useBlocksQuery.ts:204-211 | a close forgets the subscription id and nothing else |
| BlocksQuery.Reconnected | lib/hooks/useBlocksQuery.ts:242-252 | a reconnect is accepted exactly when none was recorded or more than 10000 ms passed; acceptance records `now` and forgets the subscription id; refusal changes nothing |
| BlocksQuery.SubscribeRequest | lib/hooks/useBlocksQuery.ts:160-167 | the subscription request sent 500 ms after open has id `now` and asks for `includeTransactions` |
| BlocksQuery.FallbackDistinctFromSubscribe | lib/hooks/useBlocksQuery.ts:160-180 | a fallback sent at any time not before the subscription has id one past its own time, so a different id from the subscription's, and never asks for transactions |
| BlocksQuery.FallbackRequest | lib/hooks/useBlocksQuery.ts:170-180 | the standard request goes out exactly when no subscription id has been stored, with id `now + 1` and without `includeTransactions` |
| BlocksQuery.InsertHeaderKeepsUnique | lib/hooks/useBlocksQuery.ts:78-94 | inserting keeps the hashes of the list pairwise distinct |
| BlocksQuery.ProcessNewBlockKeepsInv | lib/hooks/useBlocksQuery.ts:36-98 | a header keeps the list bounded, valid and unique, the window at most five with the block time its rounded mean, and the log at most five |
| BlocksQuery.ReceivedKeepsInv | lib/hooks/useBlocksQuery.ts:101-153 | every inbound frame keeps that invariant |
| BlocksQuery.RunKeepsInv | lib/hooks/useBlocksQuery.ts:101-252 | every sequence of frames, opens, closes, errors and reconnect clicks keeps that invariant |
| BlocksQuery.DuplicateStillTimed | lib/hooks/useBlocksQuery.ts:47-84 | a valid header whose hash is listed still records its gap and arrival time, and leaves the list unchanged |
| BlocksQuery.FirstArrivalNoGap | lib/hooks/useBlocksQuery.ts:47-57 | without a truthy previous arrival time no gap is recorded and the block time stays |
| BlocksQuery.ArriveWindow | lib/hooks/useBlocksQuery.ts:47-59 | after a stream of headers the window is the old one with every recorded gap pushed in order |
| BlocksQuery.ArriveBlockTime | lib/hooks/useBlocksQuery.ts:47-59 | after a stream the window is the last five of all gaps recorded, and the block time is their rounded mean |
| BlocksQuery.ArriveKeepsInv | lib/hooks/useBlocksQuery.ts:36-98 | a stream of headers keeps the invariant |
| BlocksQuery.NextKeepsReconnectTime | lib/hooks/useBlocksQuery.ts:242-252 | only an accepted reconnect changes the recorded reconnect time |
| BlocksQuery.ReconnectsSpaced | lib/hooks/useBlocksQuery.ts:245 | over any run, each accepted reconnect follows the previous accepted one (or the recorded one) by more than 10000 ms, except after a falsy time 0 |
| BlocksQuery.SubscriptionIdRules | lib/hooks/useBlocksQuery.ts:113-132 | a notification stores its subscription id only when none is stored; a confirmation always overwrites it and changes nothing else |
| BlocksQuery.ErrorLogRules | lib/hooks/useBlocksQuery.ts:136-149 | a socket error appends `WebSocket error: ` and its message (or `Unknown error`), an error reply appends `Error: ` and its message (or `Unknown error`), a parse failure appends `Parse error: ` and its reason; each keeps the last five entries and the socket error changes nothing else; an open empties the log |
| BlocksQuery.BlocksFeed.constructor | lib/hooks/useBlocksQuery.ts:22-33 | the hook starts with empty list, window and log and no times or subscription |
| BlocksQuery.BlocksFeed.LogError | lib/hooks/useBlocksQuery.ts:136-139 | the log becomes `PushError` of the old log, nothing else changes |
| BlocksQuery.BlocksFeed.ProcessNewBlockAt | lib/hooks/useBlocksQuery.ts:36-98 | the state becomes `ProcessNewBlock` of the old one, and the invariant is kept |
| BlocksQuery.BlocksFeed.HandleMessage | lib/hooks/useBlocksQuery.ts:101-153 | the state becomes `Received` of the old one, and the invariant is kept |
| BlocksQuery.BlocksFeed.OnOpen | lib/hooks/useBlocksQuery.ts:212-221 | the state becomes `Opened` of the old one |
| BlocksQuery.BlocksFeed.OnClose | lib/hooks/useBlocksQuery.ts:204-211 | the state becomes `Closed` of the old one |
| BlocksQuery.BlocksFeed.OnError | lib/hooks/useBlocksQuery.ts:197-203 | the state becomes `Errored` of the old one: the socket error text is logged |
| BlocksQuery.BlocksFeed.HandleReconnect | lib/hooks/useBlocksQuery.ts:242-252 | whether the reconnect goes through, and the new state, are `Reconnected` of the old state |
| BlocksQuery.BlocksFeed.SubscribeDelayElapsed | lib/hooks/useBlocksQuery.ts:160-167 | the request is `SubscribeRequest(now)`: id `now`, asking for `includeTransactions` |
| BlocksQuery.BlocksFeed.FallbackDelayElapsed | lib/hooks/useBlocksQuery.ts:170-180 | the fallback request, present only without a stored subscription id |
| WebSocketBase.ConnectionStatus | lib/hooks/useWebSocketBase.ts:189-195 | each of the five ready states has one of the five status texts, and "Connected" exactly for OPEN |
| WebSocketBase.StatusIsInjective | lib/hooks/useWebSocketBase.ts:189-195 | no two ready states share a status text |
| WebSocketBase.IsConnected | lib/hooks/useWebSocketBase.ts:198 | connected exactly when the status text is "Connected", that is, when the socket is OPEN |
| WebSocketBase.DefaultConfig | lib/hooks/useWebSocketBase.ts:68-70 | ten attempts, auto-reconnect on and 30000 ms by default |
| WebSocketBase.AskReconnect | lib/hooks/useWebSocketBase.ts:80-104 | yes exactly when auto-reconnect is on and the counter is below the budget; a yes adds one to the counter, a no leaves it, and nothing else changes |
| WebSocketBase.Opened | lib/hooks/useWebSocketBase.ts:133-150 | an open resets the counter, records the time and arms a fresh stability timer in place of any pending one |
| WebSocketBase.ClosedState | lib/hooks/useWebSocketBase.ts:159-172 | a close disarms the timer and clears the stability flag; the attempt counter, the last successful connection time and the timer-handle supply are kept |
| WebSocketBase.Errored | lib/hooks/useWebSocketBase.ts:154-158 | an error clears the stability flag and changes nothing else |
| WebSocketBase.TimerFired | lib/hooks/useWebSocketBase.ts:147-150 | the flag becomes true exactly when it was, or when the firing timer is the pending one; any other timer changes nothing |
| WebSocketBase.RunKeepsInv | lib/hooks/useWebSocketBase.ts:80-175 | over any run the counter stays within the budget and the pending timer is one already handed out |
| WebSocketBase.GrantsWithinBudget | lib/hooks/useWebSocketBase.ts:83-101 | without an open, at most `budget - counter` reconnects are granted, and none with auto-reconnect off |
| WebSocketBase.GrantsAfterOpen | lib/hooks/useWebSocketBase.ts:137 | between two opens at most `reconnectAttempts` reconnects are granted |
| WebSocketBase.NoTimerNoStability | lib/hooks/useWebSocketBase.ts:143-150 | with no timer pending and no open, the connection never becomes stable |
| WebSocketBase.ClosedSessionNeverStable | lib/hooks/useWebSocketBase.ts:166-172 | after a close the connection stays unstable until the next open |
| WebSocketBase.StableOnlyByPendingTimer | lib/hooks/useWebSocketBase.ts:147-150 | the flag only becomes true through a stability-timer event |
| WebSocketBase.ReopenReplacesTimer | lib/hooks/useWebSocketBase.ts:143-147 | after a re-open the previously pending timer's firing has no effect |
| WebSocketBase.RequestIds.constructor | lib/hooks/useWebSocketBase.ts:8 | request ids start at 1 |
| WebSocketBase.Connection.constructor | lib/hooks/useWebSocketBase.ts:74-77 | a connection starts uninstantiated, with counter 0, no time, not stable and no timer |
| WebSocketBase.Connection.ShouldReconnect | lib/hooks/useWebSocketBase.ts:80-104 | the answer and the new state are `AskReconnect` of the old state |
| WebSocketBase.Connection.OnOpen | lib/hooks/useWebSocketBase.ts:133-153 | the state becomes `Opened` of the old one |
| WebSocketBase.Connection.OnClose | lib/hooks/useWebSocketBase.ts:159-175 | the state becomes `ClosedState` of the old one |
| WebSocketBase.Connection.OnError | lib/hooks/useWebSocketBase.ts:154-158 | the state becomes `Errored` of the old one |
| WebSocketBase.Connection.OnStableTimer | lib/hooks/useWebSocketBase.ts:147-150 | the state becomes `TimerFired` of the old one |
| WebSocketBase.Connection.OnConnecting | lib/hooks/useWebSocketBase.ts:122-128 | the library's new socket puts the connection in CONNECTING, nothing else changes |
| WebSocketBase.Connection.Reconnect | lib/hooks/useWebSocketBase.ts:216-223 | a socket is closed only when one exists; the new state is `CloseRequested` of the old one |
| WebSocketBase.Connection.SubscribeToNewHeads | lib/hooks/useWebSocketBase.ts:201-213 | a request goes out exactly while connected, with the current id, which then grows by one; otherwise the id stays |
| WebSocketConstants.GetReconnectInterval | lib/utils/constants/websocket.ts:24-25 | every delay lies between 1000 and 30000 ms |
| WebSocketConstants.IntervalMonotone | lib/utils/constants/websocket.ts:25 | the first delay is 1000 ms and delays never decrease |
| WebSocketConstants.IntervalDoublesBelowCap | lib/utils/constants/websocket.ts:25 | below the cap each delay is twice the one before |
| WebSocketConstants.IntervalSaturates | lib/utils/constants/websocket.ts:25 | attempt 4 waits 16000 ms, and every attempt from 5 on waits 30000 ms |
| Formatters.FormatHashTruncated | lib/utils/formatters.ts:125-128 | `N/A` for an empty hash; otherwise the first six characters, `...` and the last four, each clamped to the hash |
| Formatters.TruncatedLength | lib/utils/formatters.ts:127 | a hash of at least ten characters shows as exactly thirteen |
| Formatters.CommaAtDigits | lib/utils/formatters.ts:146 | in a digit string the pattern matches before position `p` exactly when `p > 0` and a multiple of three digits follow |
| Formatters.ShortUngrouped | lib/utils/formatters.ts:146 | a digit string of at most three digits gets no comma |
| Formatters.GroupedIsGroup3 | lib/utils/formatters.ts:146 | the regular-expression replace on a digit string equals the reference grouping by threes from the right |
| Formatters.Group3Uncomma | lib/utils/formatters.ts:146 | removing the commas from the grouping gives back the digits |
| Formatters.Group3Head | lib/utils/formatters.ts:146 | the grouping starts with the first digit: there is no leading comma |
| Formatters.Group3Commas | lib/utils/formatters.ts:146 | every comma is followed by whole groups of three digits |
| Formatters.FormatBlockNumber | lib/utils/formatters.ts:134-147 | an integer is grouped from its decimal text; a string without `0x` is grouped as it is; a `0x` string fails exactly when `BigInt` throws |
| Formatters.NumeralNotHexPrefixed | lib/utils/formatters.ts:138-144 | the text of an integer never takes the `0x` branch |
| Formatters.FormatHexBlockNumber | lib/utils/formatters.ts:142-146 | a `0x` number shows as the grouped decimal value of its hex digits, which reads back without commas as that decimal |
| Formatters.FormatIntegerBlockNumber | lib/utils/formatters.ts:138-146 | a natural number shows as its decimal digits grouped by threes |
| Formatters.JsRem | lib/utils/formatters.ts:64-66 | the remainder takes the sign of the dividend and is smaller than the divisor in magnitude |
| Formatters.PartsOf | lib/utils/formatters.ts:63-66 | for a non-negative difference the minute and second parts are below 60 and the millisecond part below 1000; for a negative one no part is positive |
| Formatters.TimePartsFacts | lib/utils/formatters.ts:63-66 | the floor and remainder steps agree with plain division for non-negative differences and stay non-positive for negative ones |
| Formatters.TimeDiffDecomposes | lib/utils/formatters.ts:63-66 | `h·3600000 + m·60000 + s·1000 + ms` adds back up to a non-negative difference |
| Formatters.TimeDiffShape | lib/utils/formatters.ts:68-74 | zero hour, minute and second parts are left out, the millisecond part always closes the text, and a negative difference shows only its millisecond remainder |
| Formatters.TimeTextTight | lib/utils/formatters.ts:72-74 | the text before the final trim starts with no white space and ends in `s`, so the trim removes nothing |
| Formatters.FormatBlockTime | lib/utils/formatters.ts:80-83 | `Waiting for blocks...` for `null`; otherwise the label, the number's digits and `ms` |
| Formatters.EthValueShortcut | lib/utils/formatters.ts:88-96 | `0 ETH` for an empty string, for `0x0` and for a string `BigInt` rejects; only a convertible other string reaches the float formatting |
| Formatters.GasUsedText | lib/utils/formatters.ts:102-120 | `N/A` for an empty string; an escaping exception exactly for a malformed `0x` string; otherwise the `BigInt` value when it converts, and `N/A` exactly for an empty string or a rejected string without `0x` |
| Formatters.ProcessFlashblocksData | lib/utils/formatters.ts:153-171 | fails exactly when a formatter throws; otherwise id and index pass through, number, hash and gas are the formatters' results, a truthy timestamp is kept as given and a falsy one dropped, and the count defaults to 0 |
| GasUsage.NumbersConvert | app/flashblocks/components/shared/GasUsageDisplay.tsx:31-34 | `BigInt(x.toString())` gives back every integral number, and a bigint is kept |
| GasUsage.LevelOf | app/flashblocks/components/shared/GasUsageDisplay.tsx:53-58 | high exactly from 80, medium exactly from 50 below 80, low exactly below 50 |
| GasUsage.RoundedPercent | app/flashblocks/components/shared/GasUsageDisplay.tsx:47-50 | the integer nearest to `100 · used / limit`, halves rounding up |
| GasUsage.CalculateGasUsage | app/flashblocks/components/shared/GasUsageDisplay.tsx:25-65 | at most 100 with the matching level; 0 and low on a conversion failure or a limit of 0 or less; otherwise the rounded percentage capped at 100 |
| GasUsage.PercentInRange | app/flashblocks/components/shared/GasUsageDisplay.tsx:47-50 | gas within the limit gives 0 to 100 percent, and a full block gives exactly 100 |
| GasUsage.PercentMonotone | app/flashblocks/components/shared/GasUsageDisplay.tsx:47-50 | more gas against the same limit never shows a smaller percentage |
| GasUsage.ShouldAnimate | app/flashblocks/components/shared/GasUsageDisplay.tsx:107 | the bar animates exactly for a regular block at index 0 |
| GasUsage.DefaultsDoNotAnimate | app/flashblocks/components/shared/GasUsageDisplay.tsx:89-90 | with the default props the bar never animates |
| HeadTimeTracker.InitialTracker | app/flashblocks/components/blocks/BlockSection.tsx:133-135 | the tracker starts with the default time and no head or arrival recorded |
| HeadTimeTracker.EmptyOrSameHeadIgnored | app/flashblocks/components/blocks/BlockSection.tsx:139-145 | an empty list or an unchanged head hash changes nothing |
| HeadTimeTracker.NewHeadRecorded | app/flashblocks/components/blocks/BlockSection.tsx:147-165 | a new head and its arrival time are always recorded; the time shown becomes the gap exactly when a truthy previous arrival lies `0 < gap < max` back |
| HeadTimeTracker.FirstHeadKeepsTime | app/flashblocks/components/blocks/BlockSection.tsx:150-165 | the first head only starts the clock: the default time stays |
| HeadTimeTracker.RunStaysPlausible | app/flashblocks/components/blocks/BlockSection.tsx:153-162 | from a plausible default, the time shown stays strictly between 0 and the gap bound, whatever heads arrive |
| HeadTimeTracker.RunTimeIsAGap | app/flashblocks/components/blocks/BlockSection.tsx:150-165 | after any run the time shown is the default or a gap between two recorded arrivals |
| HeadTimeTracker.Tracker.constructor | app/flashblocks/components/blocks/BlockSection.tsx:133-135 | the refs start at `null` and the state at the default time |
| HeadTimeTracker.Tracker.OnBlocksChanged | app/flashblocks/components/blocks/BlockSection.tsx:138-169 | the refs and the time shown become `Observe` of the old ones |
| BlockSection.DecodeOr | app/flashblocks/components/blocks/BlockSection.tsx:23-25 | a falsy field gives the fallback; a truthy one its `parseInt(…, 16)` value, failing on `NaN` |
| BlockSection.NeedToFetch | app/flashblocks/components/blocks/BlockSection.tsx:42-45 | a fetch is needed exactly when the field is not a list of hashes |
| BlockSection.CreateBlockObject | app/flashblocks/components/blocks/BlockSection.tsx:19-47 | it succeeds exactly when all four amounts decode; the hash passes through, no transactions are listed; each of gas used, gas limit, number and timestamp is the `parseInt(…, 16)` value of the field when it is truthy, and 0 (1 for gas limit) when it is not; the fetch flag is as above |
| BlockSection.HexFieldDecodes | app/flashblocks/components/blocks/BlockSection.tsx:23-38 | a field of `0x` and hex digits decodes to the value of those digits |
| BlockSection.HexHeaderConverts | app/flashblocks/components/blocks/BlockSection.tsx:19-47 | a header of well-formed hex amounts always converts, to the values its digits spell |
| BlockSection.Latest | app/flashblocks/components/blocks/BlockSection.tsx:142 | no head exactly when the list is empty, otherwise the first block's hash |
| BlockSection.ValidHeaderEndsLoading | app/flashblocks/components/blocks/BlockSection.tsx:195 | once a valid header has been processed the loading message is gone |
| BlockSection.NewHeaderRestartsClock | app/flashblocks/components/blocks/BlockSection.tsx:138-165 | a header not yet listed becomes the head, and the next tracker run records its hash and time |
| BlockSection.Section.constructor | app/flashblocks/components/blocks/BlockSection.tsx:125-135 | a section over a fresh block feed, showing 2000 ms under a 30000 ms gap bound |
| BlockSection.Section.OnBlocksChanged | app/flashblocks/components/blocks/BlockSection.tsx:138-169 | the tracker becomes `Observe` of the old one for the feed's first hash |
| FlashblocksSection.Latest | app/flashblocks/components/flashblocks/FlashblocksSection.tsx:103-106 | no head exactly when the list is empty, otherwise the first payload's block hash |
| FlashblocksSection.FreshPayloadHeads | app/flashblocks/components/flashblocks/FlashblocksSection.tsx:165 | a first-seen payload ends loading and heads the list the tracker looks at |
| FlashblocksSection.SameHashFlashblockIgnored | app/flashblocks/components/flashblocks/FlashblocksSection.tsx:106-109 | a new flashblock under the hash already held leaves the tracker unchanged |
| FlashblocksSection.NewHashFlashblockRestartsClock | app/flashblocks/components/flashblocks/FlashblocksSection.tsx:111-128 | a first-seen payload with a new hash records its hash and time, and the time shown becomes the gap when `0 < gap < 10000` |
| FlashblocksSection.UnmountShowsLoading | app/flashblocks/components/flashblocks/FlashblocksSection.tsx:135-139 | after the unmount cleanup the list is empty, so loading shows, and the counts survive |
| FlashblocksSection.Section.constructor | app/flashblocks/components/flashblocks/FlashblocksSection.tsx:90-99 | a section over a fresh flashblock feed, showing 200 ms under a 10000 ms gap bound |
| FlashblocksSection.Section.OnBlocksChanged | app/flashblocks/components/flashblocks/FlashblocksSection.tsx:102-132 | the tracker becomes `Observe` of the old one for the feed's first block hash |
| FlashblocksSection.Section.Unmount | app/flashblocks/components/flashblocks/FlashblocksSection.tsx:134-139 | the feed becomes `Cleared` of its old state |
| Numerals.ToDecimal | lib/utils/formatters.ts:143 | `toString()` of a natural number is a digit string with no leading zero |
| Numerals.DecimalRoundTrip | lib/utils/formatters.ts:143 | reading that decimal text back gives the number |
| Numerals.IntToString | lib/utils/formatters.ts:69-72 | a template literal of an integer is its digits, after `-` when negative, and it reads back as the integer |
| Numerals.ParseIntHexOfLiteral | app/flashblocks/components/blocks/BlockSection.tsx:24 | `parseInt("0x" + digits + rest, 16)` is the value of the digits when `rest` starts with no hex digit |
| Numerals.BigIntOfIntToString | app/flashblocks/components/shared/GasUsageDisplay.tsx:31-34 | `BigInt(String(n))` is `n` for every integer |
| Numerals.BigIntOfHexLiteral | lib/utils/formatters.ts:142-143 | `BigInt("0x" + h)` is the value of a non-empty hex string and throws for a bare `0x` |
| Numerals.IntToStringInjective | lib/hooks/useFlashblocksQuery.ts:84 | two integers with the same text are equal |
| Numerals.NumeralDashSplit | lib/hooks/useFlashblocksQuery.ts:84 | `${a}-${x}` determines `a` and `x` |

## Left out

- The WebSocket transport, the heartbeat probe and the reconnect scheduling of the socket library are foreign I/O. Only the callbacks are modelled, as events.
- The `getReconnectInterval` inside `useWebSocketBase` uses floating point powers of 1.5 and random jitter, so it is not modelled. The integer backoff of the constants module is.
- JSON parsing, reading Blobs as text and the deep copy of each payload are not modelled. Frames arrive already parsed, as `Unparsable` or a parsed value, and Dafny values make the copy automatic. A frame that parses to `null` is among the failures.
- React Query caching (`useQuery`, `setQueryData`), React's batching of state updates and stale closures are not modelled. Updates apply one after another to the latest state.
- Zustand's persistence of the store to browser storage is not modelled; the store is in memory.
- Rendering, styling, the list items' memo comparators and the wallet provider are not logic of the feeds.
- Locale and float formatting is not modelled: `toLocaleString`, `toFixed`, `formatTimestamp`, `formatRelativeTime`, and the division by 1e18 in `formatEthValue`.
- Console logging is left out.
- `createQueryKeys` is a constant key factory and is left out.
- Formatters.EthValueShortcut: gives only the answers that involve no floating point. `None` stands for the value printed after the division by 1e18.
- Formatters.GasUsedText: gives the `BigInt` value in place of its locale rendering.
- Formatters.ProcessFlashblocksData: keeps a truthy timestamp raw in place of its locale date text.
- Numbers are integral throughout. A JavaScript `number` is modelled as an unbounded integer, so rounding above 2^53 is not modelled, in `Number(bigint)` and in `parseInt`.
- GasUsage.RoundedPercent, GasUsage.CalculateGasUsage: the percentage is the exactly rounded `100 · used / limit`. The code divides in floating point first, so at ratios whose exact percentage ends in one half the result can be 1 lower (57/200 gives 28.499999999999996 in doubles and rounds to 28; the model gives 29).
- FlashblocksQuery.NumberText: a `null` and a missing `block_number` are both `None` and give `undefined` in the key, where the code writes `null` for the former; only payloads that break the declared type (`lib/types/flashblocks.ts:70` declares a number) can carry `null`.
- Formatters.FormatHashTruncated: counts Unicode scalar values, where `substring` counts UTF-16 code units; the two agree on the ASCII hex strings a hash is made of.
- `Date.now()` is a parameter `now`, and every `setTimeout` is an explicit event or method.
