# Dynamic order-book tracking in hummingbot, modelled in Dafny

This project models the part of hummingbot that keeps live order books for a
set of trading pairs that can change while the bot runs.

- **`OrderBookTracker`** (hummingbot/core/data_type/order_book_tracker.py):
  - the per-pair registries: books, serial message queues, tracking tasks,
    saved-message buffers and past-diff windows;
  - the dynamic `add_trading_pair` and `remove_trading_pair`;
  - the diff, snapshot and trade routers and the per-pair tracking loop;
  - the latency and message-count metrics the routers keep.
- **Three exchange order-book data sources** (Bybit perpetual, Kucoin and
  Lambdaplex):
  - which queue a websocket event goes to;
  - how payloads become `OrderBookMessage`s;
  - the subscribe and unsubscribe decisions for a single pair, and the
    requests they send.
- **Three users of the machinery:**
  - the `dynamic_orderbook_demo` script: it parses comma-separated pair
    lists and schedules additions and removals on a timer;
  - the `pmm_simple_coingecko` controller: it caches a CoinGecko reference
    price and withholds orders until it has a positive one;
  - the `hb_configure_mqtt` utility: it merges environment variables into
    `conf_client.yml`.

## How the model is built

The tracker is a Dafny class whose fields are the source's registries. Its
state is also read as one `Registry` value. Each of its methods is proved
against a function on that value, for example:

- `AddTradingPair` ensures `(Registries(), ok) == AddSpec(old(Registries()), ...)`;
- `RouteDiff` ensures its result equals `RouteDiffSpec`.

The properties the tracker promises are then proved as lemmas about those
functions:

- what each outcome of add or remove leaves behind;
- the three-way classification of a diff;
- oldest-first draining of saved messages;
- the 32-diff window.

Each coroutine step is modelled as one atomic method:

- what an awaited call returns becomes a parameter;
- `None`, or a key missing from a lookup map, stands for "the call raised";
- `sendFailsAt` names the send that raises, if any.

The metrics objects are classes updated in place, with their accumulators
kept as separate objects. Each latency accumulator's fields are proved to
equal a replay of the latencies it has recorded (`LatencyStats.Valid`); new
accumulators start so, and every update keeps it. A router's bookkeeping for one
message is `CountDiff`, `CountSnapshot` or `CountTrade`, given the route the
registry side took; each states which pair entry is counted (cached, else
registered, else new), what grows on it and globally, and that everything else
stays as it was. The data sources' subscription state is a class
per connector. The parsers are pure functions.

Shared Python behaviour lives in small modules:

- `Strings`: `split`, `join`, `strip`, ASCII `lower` and `int()`;
- `BoundedDeque`: `deque(maxlen=n)`;
- `PairLists`: append-if-absent and `list.remove`;
- `DataSourcePairs`: the base data source's pair list.

## Model

| member | source | states |
|---|---|---|
| Strings.Split | scripts/dynamic_orderbook_demo.py:89 | `str.split` yields at least one piece and no piece contains the separator |
| Strings.JoinSplit | hummingbot/connector/derivative/bybit_perpetual/bybit_perpetual_api_order_book_data_source.py:196 | joining the pieces of a split gives the original string back |
| Strings.SplitJoin | hummingbot/connector/exchange/kucoin/kucoin_api_order_book_data_source.py:125-126 | splitting a join of separator-free pieces gives the pieces back, in order |
| Strings.SegmentsOfJoined | hummingbot/connector/derivative/bybit_perpetual/bybit_perpetual_api_order_book_data_source.py:194-209 | a topic `prefix.symbol` with a dot-free symbol comes apart into exactly that prefix (everything before the last dot) and that symbol (after it) |
| Strings.SegmentsWithoutSeparator | hummingbot/connector/derivative/bybit_perpetual/bybit_perpetual_api_order_book_data_source.py:196 | a topic with no dot has an empty prefix and is its own last segment |
| Strings.SplitOfBlank | scripts/dynamic_orderbook_demo.py:87-89 | every piece of a split of an all-whitespace string is all whitespace, so a blank string has no kept piece |
| Strings.Strip | scripts/dynamic_orderbook_demo.py:87-89 | `strip()` returns a contiguous middle part of the string that neither starts nor ends with whitespace, whitespace being Python's `isspace` set including the non-ASCII spaces (U+00A0, U+2000 to U+200A, U+3000, ...) |
| Strings.StripDropsOnlyBlanks | scripts/dynamic_orderbook_demo.py:87-89 | what `strip()` removes on either side is whitespace only |
| Strings.StripEmptyIffBlank | scripts/dynamic_orderbook_demo.py:87-88 | `s.strip()` is empty exactly when `s` is all whitespace (both directions) |
| Strings.StripOfTrimmed | scripts/dynamic_orderbook_demo.py:89 | a string with no surrounding whitespace is its own strip |
| Strings.StripIdempotent | scripts/dynamic_orderbook_demo.py:89 | stripping twice equals stripping once |
| Strings.LowerCharKeepsSpace | controllers/market_making/pmm_simple_coingecko.py:110-111 | lower-casing a character neither creates nor removes whitespace |
| Strings.LowerIdempotent | controllers/market_making/pmm_simple_coingecko.py:110-111 | `lower()` twice equals `lower()` once |
| Strings.NatToDigits | hummingbot/connector/exchange/kucoin/kucoin_api_order_book_data_source.py:45 | the decimal spelling of `n` is a non-empty run of digits whose value is `n` |
| Strings.ParseInt | hummingbot/connector/exchange/kucoin/kucoin_api_order_book_data_source.py:45 | `int(s)` succeeds exactly when the stripped text is an optional sign followed by at least one digit; the value is the digits' decimal value, negated after a `-` sign |
| Strings.ParseIntOfIntToString | hummingbot/connector/exchange/kucoin/kucoin_api_order_book_data_source.py:45 | `int(str(n)) == n` for every integer |
| BoundedDeque.LastN | hummingbot/core/data_type/order_book_tracker.py:249-254 | a bounded deque keeps the last `min(n, len)` elements, as a suffix |
| BoundedDeque.Append | hummingbot/core/data_type/order_book_tracker.py:254 | appending to a full `deque(maxlen=cap)` discards the oldest element; the result is the last `cap` of `d + [x]` |
| BoundedDeque.LastNOfLastN | hummingbot/core/data_type/order_book_tracker.py:249 | truncating early and appending more equals truncating once at the end |
| BoundedDeque.AppendAllKeepsMostRecent | hummingbot/core/data_type/order_book_tracker.py:249-254 | a bounded deque fed a stream of appends holds exactly the most recent `cap` items, in arrival order |
| PairLists.FirstIndex | hummingbot/core/data_type/order_book_tracker.py:510-511 | the position `list.remove` acts on: an occurrence of `x` with none before it |
| PairLists.AppendIfAbsentFacts | hummingbot/core/data_type/order_book_tracker.py:435-436 | append-if-absent adds exactly `x`, at the end only when it is new, and keeps a list duplicate-free |
| PairLists.RemoveFirstMultiset | hummingbot/core/data_type/order_book_tracker.py:510-511 | `list.remove` takes out exactly one occurrence of the element when it has one, and nothing else |
| PairLists.RemoveFirstIsSplice | hummingbot/core/data_type/order_book_tracker.py:510-511 | `list.remove` splices out the first occurrence; an absent element leaves the list unchanged |
| PairLists.RemoveFirstNoDuplicates | hummingbot/core/data_type/order_book_tracker.py:510-511 | on a duplicate-free list, removal takes the element out entirely, keeps every other element and stays duplicate-free |
| DataSourcePairs.Added | test/hummingbot/core/data_type/test_order_book_tracker_data_source.py:54-75 | `add_trading_pair` adds one occurrence of the pair when it was missing and changes no count otherwise |
| DataSourcePairs.Removed | test/hummingbot/core/data_type/test_order_book_tracker_data_source.py:77-99 | `remove_trading_pair` takes out one occurrence of the pair when present and changes no count otherwise |
| DataSourcePairs.AddedFacts | test/hummingbot/core/data_type/test_order_book_tracker_data_source.py:54-75 | `add_trading_pair` grows the list by one exactly when the pair is new, keeps existing pairs in order, and keeps it duplicate-free |
| DataSourcePairs.RemovedFacts | test/hummingbot/core/data_type/test_order_book_tracker_data_source.py:77-99 | removing an absent pair changes nothing; removing a present one splices it out and shrinks the list by one |
| DataSourcePairs.RemoveFirstOfAppended | test/hummingbot/core/data_type/test_order_book_tracker_data_source.py:101-117 | removing a pair just appended to a list that lacked it gives back the list |
| DataSourcePairs.AddThenRemove | test/hummingbot/core/data_type/test_order_book_tracker_data_source.py:101-117 | adding a new pair and then removing it restores the list exactly |
| DataSourcePairs.SymbolsOf | hummingbot/connector/exchange/kucoin/kucoin_api_order_book_data_source.py:125-126 | looking up every pair's symbol succeeds exactly when every pair is known; the symbols then follow the pairs' order |
| OrderBookRegistry.TradeEventOf | hummingbot/core/data_type/order_book_tracker.py:697-705 | the trade event carries the message's pair, timestamp and trade id and the content's price and amount; it is a sell exactly when the content says sell |
| OrderBookRegistry.TakeNext | hummingbot/core/data_type/order_book_tracker.py:644-650 | the next message is the oldest saved one while any remain, otherwise the queue head; nothing is lost or reordered |
| OrderBookRegistry.DrainIsOldestFirst | hummingbot/core/data_type/order_book_tracker.py:642-650 | the first `k` messages handled are the first `k` of saved-then-queued: every saved message comes before any live one, each in arrival order |
| OrderBookRegistry.FetchedPrefix | hummingbot/core/data_type/order_book_tracker.py:394-396 | the books fetched before the first fetch that raised: each is the corresponding fetch's book, and the fetch just after them raised unless every fetch succeeded |
| OrderBookRegistry.InitializedFacts | hummingbot/core/data_type/order_book_tracker.py:391-402 | initialisation gives every listed pair a book, an empty serial queue and a task; it changes no other pair and touches no window or saved buffer |
| OrderBookRegistry.InitializedBooks | hummingbot/core/data_type/order_book_tracker.py:394-399 | on a duplicate-free pair list, the `j`-th pair gets the `j`-th fetched book |
| OrderBookRegistry.AddTradingPairOutcomes | hummingbot/core/data_type/order_book_tracker.py:404-463 | the outcomes of adding a pair. True iff untracked, subscribed and fetched. Already tracked or refused: nothing changes. A failure after subscribing leaves the pair listed with no book, queue or task. Success: book, empty queue and task, pair listed once. Saved messages survive. |
| OrderBookRegistry.RemoveTradingPairOutcomes | hummingbot/core/data_type/order_book_tracker.py:465-519 | the outcomes of removing a pair. Untracked: nothing changes. Any unsubscribe that returns: no trace left in tasks, books, queues, windows, saved buffers or a duplicate-free pair list. A raising unsubscribe: task cancelled, book and queue kept. Other pairs keep their books. |
| OrderBookRegistry.RouteDiffOutcomes | hummingbot/core/data_type/order_book_tracker.py:537-562 | diff routing has exactly three outcomes (each an iff). No serial queue: buffered, last 1000 kept. Update id below the snapshot uid: rejected, nothing changes. Otherwise, an equal id included: appended to the pair's queue. |
| OrderBookRegistry.RouteSnapshotAndTradeOutcomes | hummingbot/core/data_type/order_book_tracker.py:604-705 | a snapshot without a queue, or a trade without a book, changes nothing; otherwise the snapshot is queued last, or the trade is appended to that pair's book alone |
| OrderBookRegistry.TrackStepTakesOldest | hummingbot/core/data_type/order_book_tracker.py:644-650 | one tracking step takes the message `TakeNext` names; it leaves the queue alone while saved messages remain and keeps every bound of the invariant |
| OrderBookRegistry.ApplyStepFacts | hummingbot/core/data_type/order_book_tracker.py:652-665 | a diff is applied and joins the 32-message window; a snapshot restores the book from the window's contents, in order; a trade message changes neither; other books are untouched |
| OrderBookRegistry.TrackStepApplies | hummingbot/core/data_type/order_book_tracker.py:642-665 | taking the message leaves books and windows alone, so the whole step is the apply step on the taken message |
| OrderBookTracking.OrderBookTracker.RegistryInv | hummingbot/core/data_type/order_book_tracker.py:241-267 | the class invariant implies the registry invariant: queues and books share keys, tasks only for tracked pairs, deques within bounds |
| OrderBookTracking.OrderBookTracker.constructor | hummingbot/core/data_type/order_book_tracker.py:241-267 | a new tracker lists the given pairs with empty registries, not ready, and a fresh metrics object with no per-pair entry whose global accumulators agree with their (empty) histories |
| OrderBookTracking.OrderBookTracker.InitOrderBooks | hummingbot/core/data_type/order_book_tracker.py:391-402 | the pairs up to the first fetch that raises are installed as `Initialized(...)` says; the ready flag is set, and the result is True, exactly when every fetch succeeded |
| OrderBookTracking.OrderBookTracker.InstallAll | hummingbot/core/data_type/order_book_tracker.py:394-400 | the installation loop installs the pairs in order and stops at the first fetch that raises, leaving exactly `Initialized(old, FetchedPrefix(fetches), k)`; it reports success iff no fetch raised |
| OrderBookTracking.OrderBookTracker.AddTradingPair | hummingbot/core/data_type/order_book_tracker.py:404-463 | the new registries and the answer are `AddSpec` of the old ones, and the invariant is kept |
| OrderBookTracking.OrderBookTracker.ListPair | hummingbot/core/data_type/order_book_tracker.py:435-436 | the pair is appended to `_trading_pairs` if absent; nothing else changes |
| OrderBookTracking.OrderBookTracker.RollBackAdd | hummingbot/core/data_type/order_book_tracker.py:452-463 | the `except` branch removes the pair's book, queue and task, and nothing else |
| OrderBookTracking.OrderBookTracker.InstallPair | hummingbot/core/data_type/order_book_tracker.py:440-447 | the pair gets its fetched book, an empty queue and a task |
| OrderBookTracking.OrderBookTracker.RemoveTradingPair | hummingbot/core/data_type/order_book_tracker.py:465-519 | the registries and the answer are `RemoveSpec` of the old ones; the pair's metrics entry is removed exactly when True is returned |
| OrderBookTracking.OrderBookTracker.Unregister | hummingbot/core/data_type/order_book_tracker.py:478-511 | the registry part of removal equals `RemoveSpec` |
| OrderBookTracking.OrderBookTracker.CancelTask | hummingbot/core/data_type/order_book_tracker.py:486-492 | only the pair's task is dropped |
| OrderBookTracking.OrderBookTracker.ForgetPair | hummingbot/core/data_type/order_book_tracker.py:501-511 | book, queue, window and saved buffer are dropped, and the pair leaves `_trading_pairs` |
| OrderBookTracking.OrderBookTracker.DropPairState | hummingbot/core/data_type/order_book_tracker.py:501-504 | exactly the pair's book, queue, window and saved buffer are dropped |
| OrderBookTracking.OrderBookTracker.Enqueue | hummingbot/core/data_type/order_book_tracker.py:562 | the message goes to the end of its pair's queue |
| OrderBookTracking.OrderBookTracker.SaveDiff | hummingbot/core/data_type/order_book_tracker.py:544 | the diff is appended to the pair's saved deque, which keeps 1000 |
| OrderBookTracking.OrderBookTracker.RouteDiff | hummingbot/core/data_type/order_book_tracker.py:537-562 | the registries and route are `RouteDiffSpec` of the old registries |
| OrderBookTracking.OrderBookTracker.RouteSnapshot | hummingbot/core/data_type/order_book_tracker.py:604-613 | the registries and route are `RouteSnapshotSpec` of the old registries |
| OrderBookTracking.OrderBookTracker.RouteTrade | hummingbot/core/data_type/order_book_tracker.py:687-705 | the registries and route are `RouteTradeSpec` of the old registries |
| OrderBookTracking.OrderBookTracker.TrackSingleBookStep | hummingbot/core/data_type/order_book_tracker.py:642-665 | the step equals `TrackStepSpec`, and the window stays the last 32 of every diff applied to the pair |
| OrderBookTracking.OrderBookTracker.TakeMessage | hummingbot/core/data_type/order_book_tracker.py:644-650 | the message is taken as `TakeSpec` says |
| OrderBookTracking.OrderBookTracker.ApplyMessage | hummingbot/core/data_type/order_book_tracker.py:652-665 | the message is applied as `ApplySpec` says, and a diff is added to the pair's applied history |
| OrderBookTracking.OrderBookTracker.UpdateBook | hummingbot/core/data_type/order_book_tracker.py:652-665 | only the pair's book changes, to `BookAfter` |
| OrderBookTracking.OrderBookTracker.RecordWindow | hummingbot/core/data_type/order_book_tracker.py:654 | only a diff joins the pair's window, which stays the last 32 applied diffs |
| LatencyMetrics.EffectiveRate | hummingbot/core/data_type/order_book_tracker.py:60 | a sample rate of 0 or 1 samples every call; a larger rate is used as is |
| LatencyMetrics.SampledCount | hummingbot/core/data_type/order_book_tracker.py:50-63 | every call either is sampled or advances the counter: sampled times rate plus counter equals calls |
| LatencyMetrics.SampledLength | hummingbot/core/data_type/order_book_tracker.py:50-63 | after `N` calls, `N div rate` samples were taken and the counter is `N mod rate` |
| LatencyMetrics.RecentWindowSize | hummingbot/core/data_type/order_book_tracker.py:40-63 | the recent window holds `min(N div rate, 100)` samples |
| LatencyMetrics.MinOfIsLeast | hummingbot/core/data_type/order_book_tracker.py:38-55 | the running minimum is the least sample, and it is absent (infinity) only before the first |
| LatencyMetrics.MaxOrZeroIsGreatest | hummingbot/core/data_type/order_book_tracker.py:39-57 | the running maximum is the greatest of 0 and every sample |
| LatencyMetrics.WindowStep | hummingbot/core/data_type/order_book_tracker.py:51-63 | one more call moves the counter and the window exactly as `record` does |
| LatencyMetrics.ReplayAppend | hummingbot/core/data_type/order_book_tracker.py:43-63 | replaying one more latency is one more `record` step |
| LatencyMetrics.ReplayClosedForm | hummingbot/core/data_type/order_book_tracker.py:36-63 | replaying a history from the initial state gives its length as count, its phase as counter, the last sampled latencies as window, and its minimum and maximum |
| LatencyMetrics.LatencyStats.constructor | hummingbot/core/data_type/order_book_tracker.py:26-41 | fresh statistics: no samples, count 0, no minimum, maximum 0, empty window |
| LatencyMetrics.LatencyStats.Summary | hummingbot/core/data_type/order_book_tracker.py:36-63 | count is the number of samples, the counter is that count mod rate, the window size is `min(N div rate, cap)`, and min and max bound every sample |
| LatencyMetrics.LatencyStats.Record | hummingbot/core/data_type/order_book_tracker.py:43-63 | count and min/max always follow the sample; only a call that reaches the rate resets the counter and pushes into the window; the invariant is kept |
| LatencyMetrics.PairMetrics.constructor | hummingbot/core/data_type/order_book_tracker.py:94-114 | a new pair entry has zero counters and timestamps, the given start time, and three fresh, separate accumulators, each empty (`EmptyIsValid` makes that agree with the empty history) |
| LatencyMetrics.PairMetrics.RecordDiff | hummingbot/core/data_type/order_book_tracker.py:569-571 | processed diffs +1, last diff time set, latency recorded; the entry's accumulators stay in agreement with their histories |
| LatencyMetrics.PairMetrics.RecordSnapshot | hummingbot/core/data_type/order_book_tracker.py:624-626 | processed snapshots +1, last snapshot time set, latency recorded; the accumulators stay in agreement with their histories |
| LatencyMetrics.PairMetrics.RecordTrade | hummingbot/core/data_type/order_book_tracker.py:718-720 | processed trades +1, last trade time set, latency recorded; the accumulators stay in agreement with their histories |
| LatencyMetrics.TrackerMetrics.constructor | hummingbot/core/data_type/order_book_tracker.py:154-175 | all global counters 0, no per-pair entries, fresh and empty accumulators, kept apart from any entry |
| LatencyMetrics.TrackerMetrics.GetOrCreatePairMetrics | hummingbot/core/data_type/order_book_tracker.py:177-184 | an existing entry is returned unchanged; otherwise a fresh zeroed entry, whose accumulators agree with their empty histories, is registered under the pair, the only key added |
| LatencyMetrics.TrackerMetrics.CountDiffQueued | hummingbot/core/data_type/order_book_tracker.py:542 | the queued-diff counter grows by one |
| LatencyMetrics.TrackerMetrics.CountDiffRejected | hummingbot/core/data_type/order_book_tracker.py:558-559 | the global and the pair's rejected-diff counters grow by one; the pair's other tallies and every accumulator stay; a given other entry (one the cache shadows) is left alone |
| LatencyMetrics.TrackerMetrics.RecordDiffProcessed | hummingbot/core/data_type/order_book_tracker.py:567-571 | processed counters and latency histories grow, globally and for the pair, whose last diff time is set and whose other tallies stay; accumulators that agreed with their histories still do; a given other entry is left alone but for an accumulator it shares with the pair |
| LatencyMetrics.TrackerMetrics.CountSnapshotRejected | hummingbot/core/data_type/order_book_tracker.py:609 | the rejected-snapshot counter grows by one |
| LatencyMetrics.TrackerMetrics.RecordSnapshotProcessed | hummingbot/core/data_type/order_book_tracker.py:617-626 | processed counters and latency histories grow, globally and for the pair, whose last snapshot time is set and whose other tallies stay; accumulators that agreed with their histories still do; a given other entry is left alone but for an accumulator it shares with the pair |
| LatencyMetrics.TrackerMetrics.CountTradeRejected | hummingbot/core/data_type/order_book_tracker.py:693 | the rejected-trade counter grows by one |
| LatencyMetrics.TrackerMetrics.RecordTradeProcessed | hummingbot/core/data_type/order_book_tracker.py:711-720 | processed counters and latency histories grow, globally and for the pair, whose last trade time is set and whose other tallies stay; accumulators that agreed with their histories still do; a given other entry is left alone but for an accumulator it shares with the pair |
| LatencyMetrics.TrackerMetrics.RemovePairMetrics | hummingbot/core/data_type/order_book_tracker.py:186-188 | deletes only that key; an absent key is a no-op |
| LatencyMetrics.TrackerMetrics.CachedPairMetrics | hummingbot/core/data_type/order_book_tracker.py:550-553 | the entry is the cached one if any, else the registered one, else a fresh zeroed entry registered under the pair (the only key added), and the cache remembers it; no global counter, tally or accumulator changes, and a registered entry the cache shadows is left alone; a fresh entry agrees with its histories and the globals keep agreeing with theirs |
| LatencyMetrics.TrackerMetrics.RejectDiff | hummingbot/core/data_type/order_book_tracker.py:550-559 | a stale diff still lands on the cached, else registered, else freshly registered entry and caches it; the rejected-diff counter grows globally and on that entry, every other global counter, tally and accumulator stays, and a registered entry the cache shadows is left alone; every accumulator keeps agreeing with its history |
| LatencyMetrics.TrackerMetrics.ProcessDiff | hummingbot/core/data_type/order_book_tracker.py:550-571 | an accepted diff lands on the cached, else registered, else freshly registered entry and caches it; the processed-diff counter and diff latency history grow globally and on that entry, whose last diff time is set; every other counter, tally and accumulator stays, and a registered entry the cache shadows is left alone but for a shared diff accumulator; every accumulator keeps agreeing with its history |
| LatencyMetrics.TrackerMetrics.ProcessSnapshot | hummingbot/core/data_type/order_book_tracker.py:617-626 | a routed snapshot lands on the cached, else registered, else freshly registered entry and caches it; the processed-snapshot counter and snapshot latency history grow globally and on that entry, whose last snapshot time is set; every other counter, tally and accumulator stays, and a registered entry the cache shadows is left alone but for a shared snapshot accumulator; every accumulator keeps agreeing with its history |
| LatencyMetrics.TrackerMetrics.ProcessTrade | hummingbot/core/data_type/order_book_tracker.py:711-720 | an applied trade lands on the cached, else registered, else freshly registered entry and caches it; the processed-trade counter and trade latency history grow globally and on that entry, whose last trade time is set; every other counter, tally and accumulator stays, and a registered entry the cache shadows is left alone but for a shared trade accumulator; every accumulator keeps agreeing with its history |
| LatencyMetrics.TrackerMetrics.CountDiff | hummingbot/core/data_type/order_book_tracker.py:538-571 | one diff's bookkeeping by its route: a buffered diff bumps only the queued counter and leaves the cache, the registry and the pair's entries untouched; a stale one is counted as `RejectDiff` states and an accepted one as `ProcessDiff` states; exactly one global counter grows, and the global diff history grows only for an accepted diff |
| LatencyMetrics.TrackerMetrics.CountSnapshot | hummingbot/core/data_type/order_book_tracker.py:606-626 | one snapshot's bookkeeping by its route: a rejected one bumps only the rejected counter and touches no entry; an accepted one is counted as `ProcessSnapshot` states; the global snapshot history grows only for an accepted one |
| LatencyMetrics.TrackerMetrics.CountTrade | hummingbot/core/data_type/order_book_tracker.py:689-735 | one trade's bookkeeping by its route: a rejected one bumps only the rejected counter and touches no entry; one dropped by the loop's exception handler counts nowhere; an applied one is counted as `ProcessTrade` states; the global trade history grows only for an applied one |
| BybitPerpetualSource.ChannelOf | hummingbot/connector/derivative/bybit_perpetual/bybit_perpetual_api_order_book_data_source.py:192-203 | an acknowledgement goes nowhere; an event with neither `success` nor `topic` raises (iff); otherwise the topic without its last segment picks the trade, diff or funding queue exactly when it is that prefix (in the source's order of checks), and goes nowhere exactly when it is none of the three |
| BybitPerpetualSource.SubscribedTopicsRouteBack | hummingbot/connector/derivative/bybit_perpetual/bybit_perpetual_api_order_book_data_source.py:192-209 | every subscribed topic comes back on its own queue, and the symbol read off it is the one subscribed (for a dot-free symbol) |
| BybitPerpetualSource.NonZeroKeepsExactly | hummingbot/connector/derivative/bybit_perpetual/bybit_perpetual_api_order_book_data_source.py:322-355 | the filter keeps exactly the levels of non-zero size |
| BybitPerpetualSource.NonZeroOfConcat | hummingbot/connector/derivative/bybit_perpetual/bybit_perpetual_api_order_book_data_source.py:322-355 | the filter distributes over concatenation, so kept levels keep their order |
| BybitPerpetualSource.NonZeroOfLive | hummingbot/connector/derivative/bybit_perpetual/bybit_perpetual_api_order_book_data_source.py:322-355 | a side with no zero-size level passes unchanged |
| BybitPerpetualSource.BidsAndAsksFromWsData | hummingbot/connector/derivative/bybit_perpetual/bybit_perpetual_api_order_book_data_source.py:322-355 | both sides are their non-zero levels in order, an absent side reading as empty |
| BybitPerpetualSource.DropDeletedLevels | hummingbot/connector/derivative/bybit_perpetual/bybit_perpetual_api_order_book_data_source.py:338-353 | the filtering loop returns exactly `NonZero(levels)` |
| BybitPerpetualSource.BidsAndAsksFromRestData | hummingbot/connector/derivative/bybit_perpetual/bybit_perpetual_api_order_book_data_source.py:308-319 | succeeds iff both sides are present, returning them unchanged |
| BybitPerpetualSource.WsAndRestAgreeWithoutDeletions | hummingbot/connector/derivative/bybit_perpetual/bybit_perpetual_api_order_book_data_source.py:308-355 | with no zero-size level, the REST and websocket readings agree |
| BybitPerpetualSource.ParseOrderBookDiff | hummingbot/connector/derivative/bybit_perpetual/bybit_perpetual_api_order_book_data_source.py:205-226 | only a `delta` event yields a diff. It carries the topic symbol's pair, the nonce as update id, the non-zero levels, and `ts` in seconds. An unknown symbol raises. |
| BybitPerpetualSource.FundingUpdateOf | hummingbot/connector/derivative/bybit_perpetual/bybit_perpetual_api_order_book_data_source.py:250-265 | any other event type yields nothing; a `delta` for a known symbol always yields an update that sets exactly the fields present; the next funding time is in whole seconds, rounded down; an unknown symbol raises |
| BybitPerpetualSource.Tagged | hummingbot/connector/derivative/bybit_perpetual/bybit_perpetual_api_order_book_data_source.py:411-413 | each request is recorded with the connection it went out on, in order |
| BybitPerpetualSource.UnsubscribeMirrorsSubscribe | hummingbot/connector/derivative/bybit_perpetual/bybit_perpetual_api_order_book_data_source.py:363-466 | the unsubscribe request names exactly the subscribed topics, in order, and each routes back to a queue of its own for the same symbol |
| BybitPerpetualSource.BybitPerpetualDataSource.constructor | hummingbot/connector/derivative/bybit_perpetual/bybit_perpetual_api_order_book_data_source.py:25-39 | no connection is up and nothing has been sent |
| BybitPerpetualSource.BybitPerpetualDataSource.SubscribeToTradingPair | hummingbot/connector/derivative/bybit_perpetual/bybit_perpetual_api_order_book_data_source.py:363-423 | connection down or lookup raising: nothing sent, False. A raising send keeps the earlier requests sent. True iff all three went out, and only then is the pair added. |
| BybitPerpetualSource.BybitPerpetualDataSource.UnsubscribeFromTradingPair | hummingbot/connector/derivative/bybit_perpetual/bybit_perpetual_api_order_book_data_source.py:425-466 | True iff the connection is up, the lookup works and the one request went out; the pair is then removed |
| KucoinSource.ChannelOf | hummingbot/connector/exchange/kucoin/kucoin_api_order_book_data_source.py:157-166 | a `message` event with data goes to the diff or trade queue by subject (iff both ways); anything else goes nowhere |
| KucoinSource.SnapshotOf | hummingbot/connector/exchange/kucoin/kucoin_api_order_book_data_source.py:42-58 | succeeds iff the sequence text parses; the update id is that integer, the sides are kept, the time is in seconds |
| KucoinSource.SnapshotSequenceRoundTrip | hummingbot/connector/exchange/kucoin/kucoin_api_order_book_data_source.py:42-58 | a snapshot whose sequence spells `n` has update id `n` |
| KucoinSource.DiffOf | hummingbot/connector/exchange/kucoin/kucoin_api_order_book_data_source.py:102-121 | succeeds iff the symbol is known; the diff covers `sequenceStart` to `sequenceEnd`, with the changes as sides |
| KucoinSource.TradeOf | hummingbot/connector/exchange/kucoin/kucoin_api_order_book_data_source.py:82-100 | succeeds iff the symbol is known; a buy iff the side is `buy`; the sequence is the update id; the time is converted from nanoseconds |
| KucoinSource.SubscribeIdCounter.constructor | hummingbot/connector/exchange/kucoin/kucoin_api_order_book_data_source.py:20-21 | the counter starts at `_DYNAMIC_SUBSCRIBE_ID_START` (100) |
| KucoinSource.SubscribeIdCounter.NextId | hummingbot/connector/exchange/kucoin/kucoin_api_order_book_data_source.py:297-302 | returns the current value and increments it, so ids are strictly increasing and at least 100 |
| KucoinSource.BatchTopicListsEveryPair | hummingbot/connector/exchange/kucoin/kucoin_api_order_book_data_source.py:123-155 | the comma-joined symbol list splits back into one symbol per tracked pair, in order, when no symbol contains a comma |
| KucoinSource.KucoinDataSource.constructor | hummingbot/connector/exchange/kucoin/kucoin_api_order_book_data_source.py:23-35 | not connected, nothing sent, no ping deadline yet |
| KucoinSource.KucoinDataSource.Connect | hummingbot/connector/exchange/kucoin/kucoin_api_order_book_data_source.py:183-197 | connected, with ping interval 0.8 times the server's, in seconds |
| KucoinSource.KucoinDataSource.PingOnTimeout | hummingbot/connector/exchange/kucoin/kucoin_api_order_book_data_source.py:168-181 | the deadline resets to a full interval before the ping, so a failing ping still counts as sent |
| KucoinSource.KucoinDataSource.SubscribeChannels | hummingbot/connector/exchange/kucoin/kucoin_api_order_book_data_source.py:123-155 | a raising lookup sends nothing; otherwise the trade and level-2 requests over all symbols go out until a send raises |
| KucoinSource.KucoinDataSource.SendPair | hummingbot/connector/exchange/kucoin/kucoin_api_order_book_data_source.py:234-235 | the two requests go out in order until one raises; True iff both went out |
| KucoinSource.KucoinDataSource.SubscribeToTradingPair | hummingbot/connector/exchange/kucoin/kucoin_api_order_book_data_source.py:199-246 | True iff connected, lookup ok and both sends succeed. Only then is the last-sent time moved and the pair added; otherwise the list is unchanged. |
| KucoinSource.KucoinDataSource.UnsubscribeFromTradingPair | hummingbot/connector/exchange/kucoin/kucoin_api_order_book_data_source.py:248-295 | the mirror image, removing the pair on success |
| KucoinSource.SubscribeThenUnsubscribe | hummingbot/connector/exchange/kucoin/kucoin_api_order_book_data_source.py:199-295 | subscribing to a new pair and then unsubscribing restores the list |
| LambdaplexSource.ChannelOf | hummingbot/connector/exchange/lambdaplex/lambdaplex_api_order_book_data_source.py:227-236 | a reply goes to the empty channel, depth and trade events to their queues, anything else has no channel (each an iff) |
| LambdaplexSource.TradeOf | hummingbot/connector/exchange/lambdaplex/lambdaplex_api_order_book_data_source.py:112-128 | succeeds iff the symbol is known; a sell iff the buyer is maker; the event time is the update id and, in seconds, the timestamp |
| LambdaplexSource.DiffOf | hummingbot/connector/exchange/lambdaplex/lambdaplex_api_order_book_data_source.py:130-143 | a reply yields nothing; otherwise succeeds iff the symbol is known, with a diff from `U` to `u` |
| LambdaplexSource.SnapshotOf | hummingbot/connector/exchange/lambdaplex/lambdaplex_api_order_book_data_source.py:145-158 | the snapshot has `lastUpdateId` as update id and the sides unchanged |
| LambdaplexSource.WsMessageIds.constructor | hummingbot/connector/exchange/lambdaplex/lambdaplex_api_order_book_data_source.py:21 | the class counter starts at 1 |
| LambdaplexSource.WsMessageIds.NextId | hummingbot/connector/exchange/lambdaplex/lambdaplex_api_order_book_data_source.py:238-242 | returns the current value and increments it; ids are strictly increasing from 1 |
| LambdaplexSource.Streams | hummingbot/connector/exchange/lambdaplex/lambdaplex_api_order_book_data_source.py:206-209 | one trade stream and one depth stream per symbol, in order |
| LambdaplexSource.StreamParams | hummingbot/connector/exchange/lambdaplex/lambdaplex_api_order_book_data_source.py:204-209 | the loop succeeds iff every pair has a symbol, and then builds exactly the streams of the looked-up symbols |
| LambdaplexSource.LambdaplexDataSource.constructor | hummingbot/connector/exchange/lambdaplex/lambdaplex_api_order_book_data_source.py:23-34 | not connected, nothing sent, the given pairs and shared counter |
| LambdaplexSource.LambdaplexDataSource.SendSubUnsub | hummingbot/connector/exchange/lambdaplex/lambdaplex_api_order_book_data_source.py:203-225 | a raising lookup sends nothing; otherwise two consecutive ids are drawn and the requests go out until a send raises |
| LambdaplexSource.LambdaplexDataSource.SubscribeToTradingPair | hummingbot/connector/exchange/lambdaplex/lambdaplex_api_order_book_data_source.py:74-91 | no connection: False. Already listed: True, nothing sent. In both cases no id is drawn. Otherwise two ids are drawn once the symbol is known, and the requests go out up to the send that raises. The result is True iff both went out, and then the pair is appended. |
| LambdaplexSource.LambdaplexDataSource.UnsubscribeFromTradingPair | hummingbot/connector/exchange/lambdaplex/lambdaplex_api_order_book_data_source.py:93-110 | no connection: False. Not listed: True, nothing sent. In both cases no id is drawn. Otherwise two ids are drawn once the symbol is known, and the requests go out up to the send that raises. The result is True iff both went out, and then the pair is removed. |
| DynamicOrderbookDemo.ParseTradingPairs | scripts/dynamic_orderbook_demo.py:82-92 | a blank string gives the empty set; a string gives exactly the stripped forms of its non-blank comma-separated pieces, each non-empty, stripped and comma-free; a set or list gives its elements; anything else is returned as is |
| DynamicOrderbookDemo.BlankHasNoPieces | scripts/dynamic_orderbook_demo.py:87-89 | an all-whitespace string has no non-blank comma-separated piece, so the general parse and the blank shortcut agree |
| DynamicOrderbookDemo.CommaSeparatedClean | scripts/dynamic_orderbook_demo.py:86-89 | every parsed pair is non-empty, already stripped and free of commas |
| DynamicOrderbookDemo.StripKeepsOut | scripts/dynamic_orderbook_demo.py:89 | stripping cannot introduce a character, so a stripped piece of a split stays comma-free |
| DynamicOrderbookDemo.ParseJoinedPairs | scripts/dynamic_orderbook_demo.py:86-89 | parsing the comma-join of any comma-free pieces, padded or blank, gives exactly their stripped non-blank forms |
| DynamicOrderbookDemo.ParseJoinedCleanPairs | scripts/dynamic_orderbook_demo.py:86-89 | parsing the comma-join of clean pairs gives back exactly the set of those pairs |
| DynamicOrderbookDemo.CleanPiecesAreKept | scripts/dynamic_orderbook_demo.py:89 | the comprehension over already clean pieces is the set of those pieces |
| DynamicOrderbookDemo.DynamicOrderbookDemo.constructor | scripts/dynamic_orderbook_demo.py:123-131 | no start time, nothing added or removed yet |
| DynamicOrderbookDemo.DynamicOrderbookDemo.Start | scripts/dynamic_orderbook_demo.py:133-136 | records the start timestamp |
| DynamicOrderbookDemo.DynamicOrderbookDemo.AllAdded | scripts/dynamic_orderbook_demo.py:193 | the `all_added` flag holds exactly when every configured pair to add is among the added pairs |
| DynamicOrderbookDemo.DynamicOrderbookDemo.AllRemoved | scripts/dynamic_orderbook_demo.py:194 | the `all_removed` flag holds exactly when every configured pair to remove is among the removed pairs |
| DynamicOrderbookDemo.DynamicOrderbookDemo.OnTick | scripts/dynamic_orderbook_demo.py:152-175 | the start time is set once; past each delay all configured pairs are added, and all added ones in the removal set removed; schedules only grow; only added pairs are ever removed; once the `all_added` or `all_removed` flag holds, it keeps holding |
| DynamicOrderbookDemo.DynamicOrderbookDemo.ScheduleAdds | scripts/dynamic_orderbook_demo.py:162-167 | every configured pair becomes added; the schedule only grows |
| DynamicOrderbookDemo.DynamicOrderbookDemo.ScheduleRemoves | scripts/dynamic_orderbook_demo.py:170-175 | exactly the configured pairs that were added become removed |
| PmmSimpleCoinGecko.RequestParams | controllers/market_making/pmm_simple_coingecko.py:109-115 | succeeds iff both normalised (stripped, lower-cased) values are non-empty, and returns them |
| PmmSimpleCoinGecko.BlankIdsAreRejected | controllers/market_making/pmm_simple_coingecko.py:109-115 | a missing or blank token id or currency is rejected before any request |
| PmmSimpleCoinGecko.NormalizedIsStable | controllers/market_making/pmm_simple_coingecko.py:110-111 | normalising twice equals normalising once |
| PmmSimpleCoinGecko.FetchReferencePrice | controllers/market_making/pmm_simple_coingecko.py:109-139 | a price comes back iff the ids are valid, the call gives status 200, the body has the price and it is positive; it is that price |
| PmmSimpleCoinGecko.ActionsProposal | controllers/market_making/pmm_simple_coingecko.py:100-107 | the proposal is either nothing or the parent's; it is the parent's iff the reference price is positive (or the parent proposes nothing) |
| PmmSimpleCoinGecko.PmmSimpleCoinGeckoController.constructor | controllers/market_making/pmm_simple_coingecko.py:65-72 | no cached price and both timestamps 0 |
| PmmSimpleCoinGecko.PmmSimpleCoinGeckoController.UpdateProcessedData | controllers/market_making/pmm_simple_coingecko.py:74-98 | an attempt is recorded when due, even if it fails; only a success replaces the cached price and success time; the cached price (or 0) and the success age are published |
| PmmSimpleCoinGecko.PmmSimpleCoinGeckoController.Attempt | controllers/market_making/pmm_simple_coingecko.py:79-91 | the attempt time is always updated; the cache changes only on success |
| PmmSimpleCoinGecko.PmmSimpleCoinGeckoController.Publish | controllers/market_making/pmm_simple_coingecko.py:93-98 | publishes the cached price or 0, multiplier 1, and the age since the last success when there was one |
| PmmSimpleCoinGecko.GateFollowsCache | controllers/market_making/pmm_simple_coingecko.py:93-107 | the controller proposes the parent's actions exactly when it holds a cached price |
| ConfigureMqtt.Existing | scripts/utility/hb_configure_mqtt.py:29-34 | a missing key and a YAML null both read as absent |
| ConfigureMqtt.EnvOrExisting | scripts/utility/hb_configure_mqtt.py:10-16 | a set, non-empty environment value wins, then an existing value, then the default |
| ConfigureMqtt.EnvOrExistingNotNull | scripts/utility/hb_configure_mqtt.py:10-16 | with non-null candidates the chosen value is never null |
| ConfigureMqtt.IntOf | scripts/utility/hb_configure_mqtt.py:35-38 | `int()` of an integer is itself, of a string is its parse; null, list and mapping raise |
| ConfigureMqtt.IntOfRealTruncates | scripts/utility/hb_configure_mqtt.py:36 | `int()` of a float truncates toward zero |
| ConfigureMqtt.Configure | scripts/utility/hb_configure_mqtt.py:19-48 | the in-place updates of `main` write exactly `Configured(loaded, env)` |
| ConfigureMqtt.MergedBridgeFacts | scripts/utility/hb_configure_mqtt.py:40-42 | the bridge gets host, port and autostart and keeps every other key |
| ConfigureMqtt.WrittenFacts | scripts/utility/hb_configure_mqtt.py:40-45 | the written document has the merged bridge and the chosen instance id, and keeps every other top-level key |
| ConfigureMqtt.ConfiguredFacts | scripts/utility/hb_configure_mqtt.py:19-48 | nothing is written iff the port does not parse; otherwise the document is as `WrittenFacts` states |
| ConfigureMqtt.InstanceIdIgnoresBridge | scripts/utility/hb_configure_mqtt.py:43-45 | writing the bridge section does not change which instance id is chosen |
| ConfigureMqtt.MergedBridgeIsStable | scripts/utility/hb_configure_mqtt.py:40-42 | merging the same host and port twice equals merging once |
| ConfigureMqtt.MergedBridgeReadsBack | scripts/utility/hb_configure_mqtt.py:33-42 | a merged bridge reads back the same host and port on the next run |
| ConfigureMqtt.InstanceIdIsStable | scripts/utility/hb_configure_mqtt.py:45 | a written instance id is chosen again on the next run |
| ConfigureMqtt.ConfigureIsIdempotent | scripts/utility/hb_configure_mqtt.py:19-48 | running the script on its own output, with the same environment, writes the same document |

## Left out

- Asynchrony: the `asyncio` tasks, queues, events, sleeps, cancellation and logging are left out. Each router iteration and tracking step is one atomic method, and a task is a pair name in `tasks`.
- `OrderBook` internals are left out. A book is its snapshot uid and a log of the operations asked of it. The uid a book adopts on restoring from a snapshot is a parameter (`restoredUid`).
- The latency floats are left out: `total_ms`, the averages, `messages_per_minute`, `to_dict` and the `perf_counter` readings. Latencies are whole milliseconds and timestamps are parameters.
- LatencyMetrics.LatencyStats.Record: `min_ms` starting at infinity is modelled as `None`.
- `_update_last_trade_prices_loop`, `start`/`stop` and the tracker's readiness polling are not part of this model.
- OrderBookTracking.OrderBookTracker.InitOrderBooks: a pair listed twice at start gets a second task that replaces the first in `_tracking_tasks`, and the first task keeps running. `tasks` is a set of pair names, so the model does not show the orphaned task.
- OrderBookTracking.OrderBookTracker.AddTradingPair: the model runs the call atomically, either for a tracked pair or once the tracker is ready. In the source, a call made during initialisation for a pair still being initialised passes the "already tracked" check, waits for readiness, then subscribes again and replaces that pair's book and task. The model does not show this interleaving.
- Each router's `pair_metrics_cache` is a local of its loop, so the metrics methods take it and return it updated. A pair removed and added again therefore keeps counting on its old, unregistered metrics object, as in the source. This model does not state that as a property.
- BybitPerpetualSource: the trade parser, the ping loop and the multi-pair batch subscription are left out. `is_linear_perpetual`, the tracking nonce and the topic constants are parameters (`Topics`), because the constants module is not part of this model.
- BybitPerpetualSource.FundingUpdateOf: `int(x) // 1e3` yields a float in the source; the model uses whole seconds.
- KucoinSource: the subject constants are parameters (`Subjects`), as are the request ids from `web_utils.next_message_id` and the clock. Of the message loop, only the ping-timeout branch is modelled. `SubscribeIdCounter` models the class counter, which the source defines but these methods do not use.
- LambdaplexSource: the instance attribute `_next_message_id`, which is set but never read, is left out.
- The REST snapshot requests and `get_last_traded_prices` of all three data sources are left out; they are network calls whose payload is a parameter here.
- Prices and sizes are reals. The adapters' `float(...)` parsing and the controller's `Decimal` arithmetic are not modelled bit for bit.
- Strings.ParseInt: Python's `int()` also accepts underscores between digits and non-ASCII digits; the model accepts only an optional sign and ASCII digits, with surrounding whitespace.
- Strings.Lower: only ASCII letters are lower-cased; Unicode case mapping is left out.
- RequestParams: the ids are lower-cased with `Strings.Lower`, so a non-ASCII capital letter in a token id or currency is sent as given, where Python would lower-case it.
- FetchReferencePrice: its validity check and request use the same ASCII-only lower-casing as RequestParams.
- ConfigureMqtt: reading and writing the YAML file, creating the directory and the final message are left out. The loaded document is a parameter and the written document the result. An infinite or NaN YAML float has no counterpart among Dafny's reals. The document is a map, so the key order that `safe_dump(..., sort_keys=False)` preserves in the written file is not modelled.
- DynamicOrderbookDemo: `format_status`, the depth chart and the funding-info checks are display code and are left out. The `_add_trading_pair`/`_remove_trading_pair` tasks are recorded as schedules only.
- PmmSimpleCoinGecko: the HTTP call is a parameter (`HttpResponse` or an error), and the parent controller's proposal is a parameter. `coingecko_last_success_age` is absent whenever the success time is `0.0`, as written.
