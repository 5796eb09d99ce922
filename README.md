# GasOps in Dafny

GasOps sells options on gas prices: a writer locks collateral behind a
call or put on the average base fee of a chain over one day, one week or
thirty days. An oracle settles the option with that average.

This project models the logic behind those averages and options, and
proves properties about it:

- **The rolling gas-fee aggregator** of the Arbitrum subgraph
  (`gas_price_indexer.dfy`).
  - Every 150th block that carries a base fee is stored, and three period
    snapshots are written for it.
  - A singleton `FeeAggregator` keeps the daily, weekly and monthly window
    lists of block ids, prunes them against their windows and recomputes
    three truncating means.
  - The handler is a class over the entity tables (`GasPriceIndexer`,
    `FeeAggregator`). Its methods are proved to compute a pure transition
    `Ingest`, which keeps a well-formedness invariant.
- **The settlement query** the oracle runs (`settlement_query.dfy`).
  - It picks the daily, weekly or monthly average from the aggregator
    through GraphQL, or the mean blob gas price from the blobscan
    statistics endpoint.
  - It answers one positive integer, or one of four errors.
  - The HTTP replies are inputs.
- **The options ledger subgraph** (`gashedger_indexer.dfy`).
  - Event handlers create options, record purchases, responses, claims and
    deletions, and move option tokens between users.
  - Each handler is a pure transition on three entity maps, and a `Ledger`
    class runs the handlers on mutable tables.
- **The frontend rules**:
  - the expiry and activity predicates and the label tables
    (`queries.dfy`);
  - hourly candle bucketing and the sort-then-dedup pass of the price
    chart (`chart.dfy`);
  - the dashboard's expiry badge and remaining-time counter
    (`dashboard.dfy`);
  - the markets page's countdowns, order-book filter and sort, sort toggle
    and units input (`markets.dfy`, with the page state as a class).

Shared modules:

- `base.dfy`: JavaScript's `parseInt` (white space, sign, `0x` prefix,
  digit run, NaN) and the decimal rendering of BigInt values, with their
  round trip.
- `clock.dfy`: the days/hours/minutes/seconds split.
- `js_array.dfy`: `Array.prototype.filter`, and `Array.prototype.sort`
  modelled as a stable insertion sort.

The subgraphs' `BigInt` values, and the wei amounts and timestamps the
frontend reads from them, are unbounded integers. The chart's prices and
volumes are JavaScript doubles and are modelled as exact reals. The current
time (`Date.now()`) is a parameter `now`, in seconds.

## Model

| member | source | states |
|---|---|---|
| GasPriceIndexer.GasPriceIndexer.HandleBlock | subgraphs/arb-gas-avg/src/gas-price-indexer.ts:11-45 | handling a block keeps the store well formed, leaves it exactly as `Ingest` says, and reuses an existing aggregator entity |
| GasPriceIndexer.Ingest | subgraphs/arb-gas-avg/src/gas-price-indexer.ts:13-24 | a block off the 150-block cadence, or without a base fee, leaves the store unchanged |
| GasPriceIndexer.IngestSkips | subgraphs/arb-gas-avg/src/gas-price-indexer.ts:13-31 | a block off the cadence, one without a base fee, or one whose id is already stored is skipped; otherwise exactly its decimal id joins the block table |
| GasPriceIndexer.IngestSample | subgraphs/arb-gas-avg/src/gas-price-indexer.ts:27-43 | a new sample adds its block record, its three snapshots, and the aggregator updated from the stored or a freshly created one |
| GasPriceIndexer.IngestIdempotent | subgraphs/arb-gas-avg/src/gas-price-indexer.ts:29-44 | delivering the same block twice has the effect of delivering it once |
| GasPriceIndexer.IngestPreservesWellFormed | subgraphs/arb-gas-avg/src/gas-price-indexer.ts:11-45 | preserved invariant: every block is stored under its own number and has its three snapshots; every window list holds stored blocks inside its window, has no duplicates and is nested daily within weekly within monthly; every average is the mean of its list |
| GasPriceIndexer.AddBlockKeyed | subgraphs/arb-gas-avg/src/gas-price-indexer.ts:27-37 | storing a sampled block under the rendering of its number keeps the table keyed by block number |
| GasPriceIndexer.FreshNotListed | subgraphs/arb-gas-avg/src/gas-price-indexer.ts:30-43 | a consistent aggregator lists only stored blocks, so a block that passes the idempotency guard is in no window list yet |
| GasPriceIndexer.GasPriceIndexer.CreateGasPriceSnapshot | subgraphs/arb-gas-avg/src/gas-price-indexer.ts:47-69 | writes the three period snapshots of the block and changes nothing else |
| GasPriceIndexer.SnapshotFanOut | subgraphs/arb-gas-avg/src/gas-price-indexer.ts:47-69 | a sample yields exactly three snapshots keyed `<id>-daily`, `<id>-weekly` and `<id>-monthly`, all carrying the block id, fee and time |
| GasPriceIndexer.SnapshotIdInjective | subgraphs/arb-gas-avg/src/gas-price-indexer.ts:49-63 | snapshot ids of different blocks or different periods never collide |
| GasPriceIndexer.SnapshotIdsDisjoint | subgraphs/arb-gas-avg/src/gas-price-indexer.ts:49-63 | a new block's snapshots never overwrite those of another block |
| GasPriceIndexer.AddSnapshotsComplete | subgraphs/arb-gas-avg/src/gas-price-indexer.ts:33-40 | after a new block and its snapshots are stored, every stored block still has its three snapshots |
| GasPriceIndexer.GasPriceIndexer.UpdateFeeAggregator | subgraphs/arb-gas-avg/src/gas-price-indexer.ts:71-102 | loads the aggregator or creates it with empty lists and zero averages, then leaves it as `UpdateAggregator` of that starting value |
| GasPriceIndexer.FeeAggregator.constructor | subgraphs/arb-gas-avg/src/gas-price-indexer.ts:74-83 | a new aggregator has empty lists, zero averages and a zero update time |
| GasPriceIndexer.FeeAggregator.Refresh | subgraphs/arb-gas-avg/src/gas-price-indexer.ts:85-100 | the entity's lists, averages and update time become those of `UpdateAggregator` |
| GasPriceIndexer.UpdateAggregator | subgraphs/arb-gas-avg/src/gas-price-indexer.ts:95-100 | `last_updated` is the triggering timestamp and all three averages are the means of the new lists |
| GasPriceIndexer.UpdatedMembers | subgraphs/arb-gas-avg/src/gas-price-indexer.ts:86-93 | an id is in a window after the update exactly when it was in the old list or is the new id, and its stored time is at or after `timestamp - window` |
| GasPriceIndexer.UpdatedOrder | subgraphs/arb-gas-avg/src/gas-price-indexer.ts:86-93 | each new list is the pruned old list, in its order, followed by the new id when the new id is in the window |
| GasPriceIndexer.UpdateNested | subgraphs/arb-gas-avg/src/gas-price-indexer.ts:86-93 | daily within weekly within monthly survives an update, whatever order the timestamps arrive in |
| GasPriceIndexer.UpdateNoDuplicates | subgraphs/arb-gas-avg/src/gas-price-indexer.ts:86-93 | appending an id not yet listed and pruning keeps a list free of duplicates |
| GasPriceIndexer.UpdatePreservesConsistency | subgraphs/arb-gas-avg/src/gas-price-indexer.ts:85-100 | the update re-establishes the aggregator invariant: stored, in-window, duplicate-free and nested lists, with averages equal to the list means |
| GasPriceIndexer.UpdateWindowsNonEmpty | subgraphs/arb-gas-avg/src/gas-price-indexer.ts:86-98 | after a sample every window holds the new block, so no average is the empty-window zero, and each average lies between the smallest and largest fee in its window |
| GasPriceIndexer.FilterBlocksByTimeRange | subgraphs/arb-gas-avg/src/gas-price-indexer.ts:104-117 | the loop returns exactly `Prune` of the list at `currentTimestamp - timeRange` |
| GasPriceIndexer.PruneMembers | subgraphs/arb-gas-avg/src/gas-price-indexer.ts:108-113 | the filter keeps exactly the listed ids whose block is stored with a timestamp at or after the threshold |
| GasPriceIndexer.PruneConcat | subgraphs/arb-gas-avg/src/gas-price-indexer.ts:108-114 | the filter distributes over concatenation, so it keeps the relative order of what it retains |
| GasPriceIndexer.PruneNoDuplicates | subgraphs/arb-gas-avg/src/gas-price-indexer.ts:104-117 | filtering a duplicate-free list gives a duplicate-free list |
| GasPriceIndexer.CalculateAverage | subgraphs/arb-gas-avg/src/gas-price-indexer.ts:119-141 | the loop returns exactly `MeanFee`: the truncated mean of the stored fees, zero when the list is empty or nothing in it is stored |
| GasPriceIndexer.MeanFee | subgraphs/arb-gas-avg/src/gas-price-indexer.ts:120-122 | an empty list averages to zero |
| GasPriceIndexer.MeanOfStored | subgraphs/arb-gas-avg/src/gas-price-indexer.ts:127-137 | when every member is stored, the average is the floor of the fee sum over the member count |
| GasPriceIndexer.MeanOfTotals | subgraphs/arb-gas-avg/src/gas-price-indexer.ts:136-140 | the mean of a non-empty list is the sum over the count of stored blocks, or zero when there are none |
| GasPriceIndexer.MeanWithinBounds | subgraphs/arb-gas-avg/src/gas-price-indexer.ts:119-141 | the average of a non-empty stored window lies between its smallest and largest fee |
| Base.NatToStringInjective | subgraphs/arb-gas-avg/src/gas-price-indexer.ts:27 | distinct block numbers get distinct decimal ids |
| Base.ParseIntRoundTrip | functions.query.js:18-22 | `parseInt` reads a rendered integer back, even when text that does not continue the number follows it |
| SettlementQuery.TimeframeOfRendered | functions.query.js:2 | a selector argument given as the text of `k` selects `k` |
| SettlementQuery.DefaultIsWeekly | functions.query.js:2 | leaving the selector out answers exactly what selector 2 (weekly) answers |
| SettlementQuery.GetGasAverages | functions.query.js:60-64 | an aggregator is returned only from a reply that has data and no `errors` member |
| SettlementQuery.MainNeedsGasData | functions.query.js:10-14 | on the subgraph path the query fails with the gas-data error exactly when the reply gives no aggregator, in particular on an error reply |
| SettlementQuery.MainSelects | functions.query.js:16-22 | selectors 1, 2 and 3 answer the checked daily, weekly and monthly field |
| SettlementQuery.MainRejectsSelector | functions.query.js:23-25 | any other selector is the timeframe error |
| SettlementQuery.CheckAverageAccepts | functions.query.js:27-29 | an average passes exactly when it is a positive number, and passes unchanged; otherwise it is the average error |
| SettlementQuery.MainAnswersPositive | functions.query.js:4-36 | an answer on the subgraph path is positive and is the value of the selected field |
| SettlementQuery.MainReadsAggregator | functions.query.js:10-29 | over a reply that renders an aggregator, selector `k` answers the stored average of period `k` when it is positive, and the average error otherwise (an empty window's zero is refused) |
| SettlementQuery.FieldOfRendered | functions.query.js:18-22 | a BigInt field rendered as decimal text is read back by `parseInt` as its value |
| SettlementQuery.SelectFromRendered | functions.query.js:17-22 | the field selector `k` reads from a rendered aggregator is the average of the matching period |
| SettlementQuery.BlobPathIgnoresGraph | functions.query.js:6-8 | the blobscan URL answers the blob-fee path, whatever the subgraph would reply |
| SettlementQuery.BlobTag | functions.query.js:68-77 | the request tag is `7d` exactly for selector 2, `30d` exactly for 3, and `1d` for every other selector, without an error |
| SettlementQuery.BlobPathErrors | functions.query.js:79-89 | the blob path fails, with the blob-data error, exactly when the reply has no data, no price list or an empty one |
| SettlementQuery.SumBounds | functions.query.js:92 | the sum of `n` prices lies between `n` times the smallest and `n` times the largest price |
| SettlementQuery.BlobFeeWithinBounds | functions.query.js:91-93 | the blob answer lies within the range of the prices scaled to wei, less one for truncation |
| SettlementQuery.BlobFeeExample | functions.query.js:91-93 | prices of 10, 20 and 30 gwei answer 20 gwei in wei |
| GasHedgerIndexer.GetTimeframeString | subgraphs/gashedger/src/GasHedgerIndexer.ts:159-169 | code 0 is "1D" and code 2 is "30D", each exactly; every other code is "7D" |
| GasHedgerIndexer.CreateWriteOnce | subgraphs/gashedger/src/GasHedgerIndexer.ts:133-135 | creating an option that already exists changes nothing |
| GasHedgerIndexer.CreatedOption | subgraphs/gashedger/src/GasHedgerIndexer.ts:136-155 | a new option has all its units left, nothing collected, cap times units as countervalue, is active with every other flag down and no response, and nothing else in the store changes |
| GasHedgerIndexer.BuyMovesCounters | subgraphs/gashedger/src/GasHedgerIndexer.ts:76-85 | a purchase adds the price to the premium collected and subtracts the units from the units left, and changes no other field or option |
| GasHedgerIndexer.BuyUnknownIgnored | subgraphs/gashedger/src/GasHedgerIndexer.ts:77-79 | a purchase of an unknown option, or of one whose counters are unset, changes nothing |
| GasHedgerIndexer.BuysAccumulate | subgraphs/gashedger/src/GasHedgerIndexer.ts:79-82 | two purchases of one option add both prices and subtract both unit counts |
| GasHedgerIndexer.ClaimSetsFlag | subgraphs/gashedger/src/GasHedgerIndexer.ts:87-97 | a claim sets only the claimed flag of an existing `<user>-<option>` mapping, does nothing without one, and repeating it changes nothing |
| GasHedgerIndexer.ErroredClaimSetsFlag | subgraphs/gashedger/src/GasHedgerIndexer.ts:99-109 | a failed claim sets only the error flag of an existing mapping, and is idempotent |
| GasHedgerIndexer.DeleteSetsFlag | subgraphs/gashedger/src/GasHedgerIndexer.ts:125-131 | deleting sets only the deleted flag of an existing option, and is idempotent |
| GasHedgerIndexer.RespondOutcome | subgraphs/gashedger/src/GasHedgerIndexer.ts:111-123 | a truthy response stores the answer and the payout flag; the option ends up errored exactly when it already was or still has no answer; no other field changes |
| GasHedgerIndexer.IndexOf | subgraphs/gashedger/src/GasHedgerIndexer.ts:24 | the position found holds the id and no earlier position does |
| GasHedgerIndexer.RemoveFirstCounts | subgraphs/gashedger/src/GasHedgerIndexer.ts:23-27 | `splice(indexOf(x), 1)` drops the first occurrence of the id and keeps the rest of the list in order: exactly one copy fewer, one element shorter |
| GasHedgerIndexer.TransferOutEffect | subgraphs/gashedger/src/GasHedgerIndexer.ts:20-35 | a known sender's list loses the first copy of the option id and keeps the rest in order, or stays as it was when it held none; its mapping's units drop by the amount and its other fields stay; no other user's list and no other mapping changes |
| GasHedgerIndexer.TransferInNewUser | subgraphs/gashedger/src/GasHedgerIndexer.ts:38-53 | a receiver seen for the first time holds just this option, with a mapping of the transferred amount |
| GasHedgerIndexer.TransferInKnownUser | subgraphs/gashedger/src/GasHedgerIndexer.ts:55-73 | a known receiver gets the option id appended; its units are set to the amount, not added to it, and only when the option exists |
| GasHedgerIndexer.TransferMovesOne | subgraphs/gashedger/src/GasHedgerIndexer.ts:19-74 | a transfer between two known users moves one copy of the option id from the sender's list to the receiver's |
| GasHedgerIndexer.TransferAsWrittenKeepsSenderList | subgraphs/gashedger/src/GasHedgerIndexer.ts:23-27 | as written, a transfer leaves the sender's stored list unchanged |
| GasHedgerIndexer.TransferAsWrittenCounterexample | subgraphs/gashedger/src/GasHedgerIndexer.ts:19-74 | on a concrete transfer between two known users, the lists as written and as intended differ |
| GasHedgerIndexer.Ledger.HandleOptionCreated | subgraphs/gashedger/src/GasHedgerIndexer.ts:133-157 | the tables become `CreateOption` of the old ones |
| GasHedgerIndexer.Ledger.HandleOptionBought | subgraphs/gashedger/src/GasHedgerIndexer.ts:76-85 | the tables become `BuyOption` of the old ones |
| GasHedgerIndexer.Ledger.HandleOptionClaimed | subgraphs/gashedger/src/GasHedgerIndexer.ts:87-97 | the tables become `ClaimOption` of the old ones |
| GasHedgerIndexer.Ledger.HandleErroredClaimed | subgraphs/gashedger/src/GasHedgerIndexer.ts:99-109 | the tables become `ErroredClaim` of the old ones |
| GasHedgerIndexer.Ledger.HandleResponse | subgraphs/gashedger/src/GasHedgerIndexer.ts:111-123 | the tables become `Respond` of the old ones |
| GasHedgerIndexer.Ledger.HandleOptionDeleted | subgraphs/gashedger/src/GasHedgerIndexer.ts:125-131 | the tables become `DeleteOption` of the old ones |
| GasHedgerIndexer.Ledger.HandleTransferSingle | subgraphs/gashedger/src/GasHedgerIndexer.ts:19-74 | the tables become the intended `Transfer` of the old ones, with the list edits stored back |
| GasHedgerIndexer.Ledger.StoreUnits | subgraphs/gashedger/src/GasHedgerIndexer.ts:43-51 | the mapping `<user>-<option>` is loaded or created and given the user, option and amount; the other tables are untouched |
| Queries.GetChainName | frontend/lib/queries.ts:92-99 | the answer is "Unknown" exactly for ids other than 1, 8453 and 42161 |
| Queries.GetTimeframeDisplay | frontend/lib/queries.ts:102-112 | the six known tags get one of the three readable names; any other text is shown unchanged |
| Queries.StoredTimeframeDisplay | frontend/lib/queries.ts:102-112 | every timeframe the options indexer stores is shown as 1, 7 or 30 days, as its contract code says |
| Queries.ExpiredIffBefore | frontend/lib/queries.ts:115-119 | a date is expired exactly when it lies strictly before now; the expiry instant itself is not expired |
| Queries.NoDateNeverExpires | frontend/lib/queries.ts:116-118 | missing, empty and unreadable dates never expire |
| Queries.ActiveFlagWins | frontend/lib/queries.ts:124 | an option flagged active is active whatever its other flags say |
| Queries.DeletedOrErroredInactive | frontend/lib/queries.ts:127 | without the active flag, a deleted or errored option is inactive |
| Queries.UnitsLeftDecide | frontend/lib/queries.ts:130-133 | otherwise an option is active exactly when its units left are positive, a missing count reading as zero |
| Chart.GroupToHourlyCandles | frontend/components/TradingViewChart.tsx:24-66 | the method returns exactly `HourlyCandles` of its input |
| Chart.BucketByHour | frontend/components/TradingViewChart.tsx:32-42 | the map's keys are exactly the hours of the points, in first-appearance order, and each bucket holds exactly that hour's points in order |
| Chart.BuildCandles | frontend/components/TradingViewChart.tsx:45-62 | one candle per key, in key order, built from that key's bucket |
| Chart.HourOf | frontend/components/TradingViewChart.tsx:36 | the hour key is a multiple of 3600 at most the point's time and less than an hour before it |
| Chart.MaxHigh | frontend/components/TradingViewChart.tsx:50 | the candle's high is at least every point's high and is one of them |
| Chart.MinLow | frontend/components/TradingViewChart.tsx:51 | the candle's low is at most every point's low and is one of them |
| Chart.SortByTimeSpec | frontend/components/TradingViewChart.tsx:28 | the time sort orders the points by time and keeps every one of them |
| Chart.SortByTimeOrdered | frontend/components/TradingViewChart.tsx:65 | points already in time order are left in place |
| Chart.HoursMembers | frontend/components/TradingViewChart.tsx:34-41 | an hour is a key exactly when some point falls in it, and there are no more keys than points |
| Chart.HoursIncreasing | frontend/components/TradingViewChart.tsx:28-42 | over time-sorted points the keys come out strictly increasing |
| Chart.BucketMembers | frontend/components/TradingViewChart.tsx:36-41 | a bucket holds exactly the points of its hour |
| Chart.BucketOrdered | frontend/components/TradingViewChart.tsx:28-41 | a bucket of time-sorted points is itself in time order |
| Chart.CandlesUnsorted | frontend/components/TradingViewChart.tsx:65 | the final sort leaves the candles in the order the bucket pass built them, which is strictly increasing |
| Chart.CandleTimes | frontend/components/TradingViewChart.tsx:25-65 | no points give no candles; candle times are strictly increasing multiples of 3600; there are no more candles than points |
| Chart.CandleForEveryHour | frontend/components/TradingViewChart.tsx:32-62 | there is a candle for exactly the hours that hold a point |
| Chart.CandleContents | frontend/components/TradingViewChart.tsx:28-52 | a candle's points are exactly the input points of its hour, in time order; it opens with the first, closes with the last, spans the highest high and lowest low, and carries the summed volume |
| Chart.SumVolumeConcat | frontend/components/TradingViewChart.tsx:52 | volumes add up across a split of the points |
| Chart.DedupPassSpec | frontend/components/TradingViewChart.tsx:261-267 | after the sort-and-filter pass times are strictly increasing, every input time is still present, and nothing is invented |
| Chart.DedupIncreasing | frontend/components/TradingViewChart.tsx:264-267 | filtering time-ordered items against their predecessors leaves strictly increasing times |
| Chart.DedupKeepsFirst | frontend/components/TradingViewChart.tsx:264-267 | the first item of each run of equal times is kept |
| Chart.DedupKeepsTimes | frontend/components/TradingViewChart.tsx:264-267 | no time of the input is lost |
| Chart.DedupIncreasingIdentity | frontend/components/TradingViewChart.tsx:264-267 | strictly increasing items pass the filter unchanged |
| Chart.DedupOfCandles | frontend/components/TradingViewChart.tsx:261-267 | the hourly candles pass the sort-and-dedup pass unchanged |
| Clock.Decompose | frontend/app/dashboard/page.tsx:180-183 | the split's hours, minutes and seconds are under their carry limits and its units add back up to the difference |
| Clock.DecomposeUnique | frontend/app/dashboard/page.tsx:180-183 | the split is the only such duration with that total |
| Dashboard.GetOptionName | frontend/app/dashboard/page.tsx:74-82 | the label is "Unknown" exactly for ids other than '0' to '3' |
| Dashboard.GetMarketId | frontend/app/dashboard/page.tsx:85-93 | the market is 'eth-gas' exactly for id '1' and unknown ids |
| Dashboard.GetTimeframeDisplay | frontend/app/dashboard/page.tsx:96-103 | codes '0', '1' and '2' become one of the three tags; any other text is shown unchanged |
| Dashboard.TimeframeDisplayOfStored | frontend/app/dashboard/page.tsx:96-103 | timeframes the indexer stores pass through unchanged, and a code rendered as text shows the tag the indexer stores for it |
| Dashboard.CounterSums | frontend/app/dashboard/page.tsx:175-185 | days·86400 + hours·3600 + minutes·60 + seconds equals the time left clamped at zero, and no unit overflows |
| Dashboard.CounterPastIsZero | frontend/app/dashboard/page.tsx:178-185 | an expiry in the past, or right now, shows all zeros |
| Dashboard.UnreadableDate | frontend/app/dashboard/page.tsx:159-185 | an unreadable date gives the NaN counter and the green "NaN days left" badge |
| Dashboard.StatusColors | frontend/app/dashboard/page.tsx:159-173 | red exactly before the date, orange exactly under a day, yellow exactly from a day to under a week, green exactly from a week on |
| Dashboard.StatusTexts | frontend/app/dashboard/page.tsx:164-172 | "Expired" before the date, "Expires today" under a day, and otherwise the days left rounded up |
| Dashboard.CeilDaysBounds | frontend/app/dashboard/page.tsx:169 | the rounded-up day count is the least whole number of days covering the difference |
| Dashboard.DaysShownRange | frontend/app/dashboard/page.tsx:168-171 | a yellow badge shows one to seven days, a green badge seven or more |
| Dashboard.DaysTextReadsBack | frontend/app/dashboard/page.tsx:169 | the count in a badge reads back as that number |
| Dashboard.BadgeMatchesCounter | frontend/app/dashboard/page.tsx:159-185 | the badge's days are the counter's days, plus one when part of a day is left |
| Markets.GetChainId | frontend/app/markets/page.tsx:136-144 | the chain id is '1' exactly for 'eth-gas' and unknown markets |
| Markets.ChainOfMarketNamed | frontend/app/markets/page.tsx:136-144 | of the markets only the blob market's chain id has no name in the chain-name table |
| Markets.CountdownExpired | frontend/app/markets/page.tsx:171-176 | a countdown reads "Expired" exactly when the date is not in the future |
| Markets.CountdownIsRendered | frontend/app/markets/page.tsx:171-186 | a running countdown is the rendering of the split of the time left |
| Markets.CountdownLeads | frontend/app/markets/page.tsx:178-186 | a running countdown starts with its largest non-zero unit, which reads back as a positive number, and its units add up to the time left |
| Markets.RenderedLeads | frontend/app/markets/page.tsx:183-186 | a rendering of a positive duration reads back as its leading unit |
| Markets.CountdownMatchesCounter | frontend/app/markets/page.tsx:178-181 | the countdown and the dashboard counter split the time left the same way |
| Markets.FilterMembers | frontend/app/markets/page.tsx:264-280 | the order book keeps exactly the rows that are not expired, are active and are of the selected kind |
| Markets.FilterConcat | frontend/app/markets/page.tsx:264-280 | the filter keeps rows in their order |
| Markets.Compare | frontend/app/markets/page.tsx:284-318 | the comparator answers -1, 0 or 1, and 0 exactly when no sortable column is chosen |
| Markets.CompareByRank | frontend/app/markets/page.tsx:314-318 | on readable keys the comparator puts a row after another exactly when it ranks higher in the chosen direction |
| Markets.UnsortedKeepsOrder | frontend/app/markets/page.tsx:284 | with no sort column the rows are shown in the order the API returned them |
| Markets.SortPermutes | frontend/app/markets/page.tsx:283 | sorting neither drops nor duplicates a row |
| Markets.SortOrders | frontend/app/markets/page.tsx:283-319 | when every row has a readable key, the rows are shown in ascending key order for 'asc' and descending for 'desc' |
| Markets.MarketsPage.constructor | frontend/app/markets/page.tsx:196-198 | the page opens unsorted, ascending, with no inputs |
| Markets.MarketsPage.HandleSort | frontend/app/markets/page.tsx:220-227 | the page state becomes `NextSort` of the old state |
| Markets.SortToggles | frontend/app/markets/page.tsx:220-227 | clicking a column twice restores its direction; clicking another column sorts it ascending; the inputs are untouched |
| Markets.MarketsPage.HandleInputChange | frontend/app/markets/page.tsx:210-216 | the page state becomes `NextInput` of the old state |
| Markets.InputClamped | frontend/app/markets/page.tsx:210-216 | the stored input reads back as the clamped count, never exceeds the units left, equals the typed count when that is within bounds, and unreadable input counts as zero |
| Markets.InputOfRendered | frontend/app/markets/page.tsx:211-212 | a typed count is kept as typed when it is under the units left, and capped otherwise |

## Left out

- I/O is outside the model:
  - the GraphQL and HTTP requests (`Functions.makeHttpRequest`) are inputs, functions from the request URL to the decoded reply;
  - `rpcCall` is never called;
  - `Functions.encodeUint256` is left out, and the query's answer is the integer it would encode;
  - the graph-ts store and `save()` are in-memory maps and class fields.
- `Date.now()` is the parameter `now`, already in whole seconds.
- Date formatting (`toLocaleString`, `toLocaleDateString`), JSX, the chart library, resize handling and the chart's random fallback data are left out.
- `block.number.toI32()` is modelled as the block number itself. Numbers beyond 32 bits would wrap in the source's cadence test.
- `GasPriceIndexer.Ingest`: the window lists are not deduplicated, as in the code, and `calculateAverage` would count a repeated id twice. The model proves that the `Block.load` guard keeps every window list duplicate-free (`IngestPreservesWellFormed`).
- The comment at gas-price-indexer.ts:8 says every 25th block; the model follows the constant, 150.
- `parseInt` is modelled for the white space listed in `Base.IsJsSpace`, one sign, the `0x` prefix and decimal digits. The result is an exact integer: doubles lose precision above 2^53, and that loss is not modelled.
- `parseFloat` in `isOptionActive` is modelled as `parseInt`. The two agree on the integer texts the subgraph returns.
- `SettlementQuery.BlobFeeInWei`: the blob mean is computed on exact reals, then scaled and floored. The source uses IEEE doubles, whose rounding is not modelled.
- `Markets.SortKey`: the price columns sort by `parseInt` of the wei amount, not by `parseFloat(formatGwei(BigInt(...)))`. For whole wei amounts the two orders agree, except where doubles round.
- `Markets.SortKey`: in the source, `BigInt(...)` throws a `SyntaxError` on price text that is not an integer literal (such as "1.5"), so the page's sort throws, and it reads "" as `0n`, so an empty price sorts as zero. The model treats both as an unreadable (NaN) key.
- `Chart.GasPriceData`: prices and volumes are exact reals; the double rounding of the volume sum and of the chart's price arithmetic is not modelled.
- `GasHedgerIndexer.ResponseEvent`: a real `Response` event always carries a response, since a non-null `Bytes` is truthy even when empty. The `None` case, and with it the `isErrored` branch of `Respond`, is modelled but no real event reaches it.
- `Markets.SortOptions`: the order is modelled as a stable insertion sort. With an inconsistent comparator (ties answer -1 both ways, and NaN keys), the engine's order is implementation-defined; the model proves ordering only for rows with readable keys (`SortOrders`).
- `GasHedgerIndexer.Transfer`: a `User` whose `options` list is null is treated as holding an empty list. The source skips both the push and the mapping update for such a user.
- `GasHedgerIndexer.TransferIn`: the receiver's units are overwritten with the amount, not added to it. This is the source's behaviour, stated in `TransferInKnownUser`.
- `handleTransferBatch` is empty in the source, so it is not modelled.
- Mapping flags never assigned (`claimed`, `errorClaim` on a fresh mapping) read as false.
- `GasHedgerIndexer.NewOption`: `chainGasId.toI32()` is not truncated to 32 bits.
- Label tables are looked up by exact key; keys inherited from `Object.prototype` (such as "toString") are not modelled.
- `Chart.BuildCandles`: the skip of an empty bucket is modelled, but it cannot happen, since every key is created together with its first point.
- `Markets.ClampedUnits`: as in the source, only the upper bound is applied, so a negative count is stored as typed. `handleInputChange` is defined in the page but no element of the page calls it.
- `Base.DigitsValue` is defined only for radix 10 and 16, the two radices `parseInt` uses without a radix argument.

## Findings

| source | as written | input that shows it | evidently intended | confidence | as-written member | corrected member |
|---|---|---|---|---|---|---|
| subgraphs/gashedger/src/GasHedgerIndexer.ts:23-27 | `oldUser.options!.splice(index, 1)` and `newUser.options!.push(...)` edit the array the generated `options` getter returns. That getter builds a fresh copy of the stored list, and the copy is never assigned back, so `save()` stores the unchanged list. | User "0xa" holds option "1" and sends it to the known user "0xb", who holds nothing: afterwards "0xa" still lists "1" and "0xb" still lists nothing. | The sender loses one copy of the id and the receiver gains one (`oldUser.options = list` after the splice, and likewise for the push). | medium, not executed (rests on the graph-ts getter returning a copy) | GasHedgerIndexer.TransferAsWritten, exhibited by GasHedgerIndexer.TransferAsWrittenCounterexample and GasHedgerIndexer.TransferAsWrittenKeepsSenderList | GasHedgerIndexer.Transfer, run by GasHedgerIndexer.Ledger.HandleTransferSingle, with the move proved by GasHedgerIndexer.TransferMovesOne |
