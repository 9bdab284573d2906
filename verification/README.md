# Wormhole event aggregation, ingestion and message encoding: a verified model

This project models the parts of a cross-chain bridge repository that keep books about
transfers and encode its messages, and proves what they keep.

- **Aggregation with shared caches.** The cloud functions of the event database fold transfer
  rows into nested maps, one worker per calendar day, keep past days in a process-wide cache,
  pad results so that days share keys, and then sum or prefix-sum the days. `Transfers`,
  `Tables`, `Cubes` and `LockedValue` say what each aggregate holds; `DayCache` is the
  worker/cache protocol with an explicit heap, because cached tables are shared by reference and
  later padded in place, `Transparency` and `Arrivals` what its callers get in every run, and
  `Endpoints` its four instances; `Cumulative`, `UpToYesterday` and `TvlReport` are the functions built on top of
  it. `CumulativeRuns` puts running totals and daily requests together over whole runs,
  `CumulativeLimits` says exactly when the totals are right, and `CumulativeServices` are the three
  cumulative endpoints.
- **Ingestion.** `Numerals`, `RowKeys` and `Recent` cover the zero-padded row key and the range
  queries over it, `TransferAmount` the way of an amount from payload bytes to a stored decimal
  string, `Pipeline` the write-once processing of redelivered messages, and `Ingestion` what rows
  show after any deliveries.
- **Message encoding.** `Vaa` and `RegisterChain` hold two independent encoders of a signed
  message (cutting ABI words, and writing into uninitialised buffers) and prove that both produce
  the same layout; `Signatures` is the parser of its signature list. ABI words follow the section
  "Formal Specification of the Encoding" of the Solidity Contract ABI Specification; hexadecimal
  text is Base 16 of RFC 4648, section 8, in lower case.
- **Two state machines of the web client.** `TransferStore` and `TransferStoreEffects` (the
  transfer form's reducers) and `Retry` (the round-robin fetch).

Loops over Go maps pick the next key arbitrarily, so results hold for every iteration order.
Amounts are reals. Days are day numbers instead of formatted dates (formatted dates sort the
same way). The clock, database contents, prices, owner lookups, hash and signature functions are
inputs.

Assumptions about the surroundings:

- A row is dated with the day on which it arrives, so the rows of past days do not change.
- A cache loaded from storage is right when it is loaded, for some prefix that shares its key
  (`DayCache.Init`).
- Each locked section, each day's aggregation and each padding write is one atomic step.
- Go pads strings with zeros under `%0*v`, as the scaling code relies on.

Results about the code as written that its authors would not want, each with its exact condition:

- A token whose symbol is `*` is counted twice in the wildcard totals (`StarSymbolCountsTwice`);
  totals are right exactly when no row of positive value uses `*` (`TotalsExactIffPlain`).
- Queries for the prefixes `*` and the empty one share a cache: the first is given the second's
  answers (`StarQueryLeaks`), and the second loses whole days after the first
  (`UnrestrictedQueryLosesDay`). Answers are right in all runs exactly when nobody asks for one of
  the two where answers for the other may be cached (`TransparentIff` for the daily endpoints,
  `TotalsRightIff` for running totals, with `StarTotalLeaks` as a run that goes wrong).
- If midnight falls within a cumulative call, the total of the day that has just begun is cached
  for good (`MidnightPoisonsCache`, and `MidnightRun` as a whole run). What a call caches stays right
  exactly when it does not (`CacheStaysRightIff`, `LockedValue.StaysRightIff`, `StoredIsPastIff`),
  and where it may, totals are right in all runs only if nobody asks (`RightDespiteMidnightsIff`).
- The up-to-yesterday cache and its callers share one table, so the first answer of a day lacks
  today and later answers count today once per call; `CallsOfOneDay` says for which cells answers
  are right nevertheless. With copies all answers of any calls for one query over any days are
  right, as long as no midnight falls within a call (`CallsCopied`).
- The padding of destinations in the daily cube function changes nothing; a day comes out square
  exactly when every chain seen sent to every chain seen, itself included (`DaySquareIff`).
- The stored amount of a transfer is exact only below 2^64, although the overflow test looks at
  one word (`StoredExactIff`); 2^128 is stored as 0 (`LargeAmountStoredAsZero`).
- Row keys sort numerically only while sequences stay below 10^16 (`OrderIsNumericIff`), on which
  the scan for the latest rows and the range queries depend (`LastIsHighestIff`, `RangeExactIff`,
  `RecentRowsExactIff`); the leaving chain read off a key is right only for one-digit chains
  (`FirstCharacterIsChain`).
- Callers that share the host counter and take turns cover all hosts exactly when the numbers of
  callers and hosts have no common divisor (`TakingTurnsCoversIff`).

## Model

| member | source | states |
|---|---|---|
| Transfers.PlainTotals | event_database/cloud_functions/notional-transferred.go:100-130 | what the loops add up is the sum of notional over matching rows, with `*` as wildcard, when no row of value uses `*` as a value |
| Transfers.TotalsExactIffPlain | event_database/cloud_functions/notional-transferred.go:110-130 | for rows of any value that is not negative, all wildcard totals (two-way and three-way) are sums over matching rows if and only if no row of positive value carries `*` as symbol or chain |
| Transfers.StarSymbolCountsTwice | event_database/cloud_functions/notional-transferred-to.go:189-202 | a row whose symbol is `*` counts twice in the totals of its chain and of all chains |
| Transfers.AddressTotals | event_database/cloud_functions/addresses-transferred-to.go:178-185 | an address's total is the notional of the rows sent to it on the chain |
| Transfers.LockedTotals | event_database/cloud_functions/notional-tvl.go:100-148 | what is locked of a token is what has left its home chain for another less what has come back, over priced rows of tokens that are not excluded |
| DaySums.SplitIntoDays | event_database/cloud_functions/notional-transferred.go:189-214 | however rows are split into days, the day totals add up to the total of one pass |
| Tables.ToTableMeaning | event_database/cloud_functions/notional-transferred-to.go:189-202 | every cell of a day's table, read with default zero, is the total of the day's rows |
| Tables.ToTableNames | event_database/cloud_functions/notional-transferred-to.go:189-202 | a day names exactly the chains that something was sent to, and `*` |
| Tables.AmountsOfDay | event_database/cloud_functions/notional-transferred-to.go:189-202 | the worker's row loop computes that table, without writing through a missing inner map |
| Tables.TransfersToForInterval | event_database/cloud_functions/notional-transferred-to.go:276-297 | the single-pass query, which files rows in another order, gives the same readings |
| Tables.AddressTableMeaning | event_database/cloud_functions/addresses-transferred-to.go:178-185 | an address's cell is the sum of notional sent to it on that chain |
| Tables.AddressTableNames | event_database/cloud_functions/addresses-transferred-to.go:178-185 | a day names exactly the addresses that received something, whatever its value; their number is the answer by default |
| Tables.AddressesForInterval | event_database/cloud_functions/addresses-transferred-to.go:256-270 | the row loop computes that table |
| Tables.TransferredToSinceDate | event_database/cloud_functions/notional-transferred-to.go:249-273 | adding day tables in any order of days, chains and symbols gives the sum of the days in every cell and names the chains of the days (also the address variant, by its initial tables) |
| Tables.PeriodEqualsOnePass | event_database/cloud_functions/notional-transferred-to.go:249-297 | the period total equals one pass over its rows, for every split of the rows into days |
| Cubes.CubeMeaning | event_database/cloud_functions/notional-transferred.go:100-130 | every cell of the cube, with `*` in any position, is the total of the rows |
| Cubes.CubeOfRows | event_database/cloud_functions/notional-transferred.go:252-282 | the row loop with its eight updates computes that cube; no update touches a missing inner map, for any rows |
| Cubes.SquarePad | event_database/cloud_functions/notional-transferred.go:216-239 | after padding, the root and every destination level have exactly the chains seen anywhere, and no cell reads differently |
| Cubes.PadDay | event_database/cloud_functions/notional-transferred.go:165-183 | the two padding loops of a day: missing roots get only `*`, every leaving chain keeps exactly its destinations, and no cell reads differently |
| Cubes.PaddedDaySquareIff | event_database/cloud_functions/notional-transferred.go:165-183 | a day comes out square if and only if it was square before |
| Cubes.DaySquareIff | event_database/cloud_functions/notional-transferred.go:165-183 | in terms of the day's rows: if and only if every chain seen sent to every chain seen, itself included |
| Cubes.OneTransferNotSquare | event_database/cloud_functions/notional-transferred.go:173-182 | a day with one transfer between two chains never comes out square |
| Cubes.TransfersForInterval | event_database/cloud_functions/notional-transferred.go:245-310 | the single-pass query: square, and every cell the total of the rows |
| Cubes.TransferredSinceDate | event_database/cloud_functions/notional-transferred.go:189-242 | the period total, whatever the iteration order: square over exactly the chains some day mentions, and every cell the sum of the days |
| Cubes.CubePeriodEqualsOnePass | event_database/cloud_functions/notional-transferred.go:189-282 | the sum of day cubes reads like the cube of all rows, for every split into days |
| DayCache.CachePrefixInjective | event_database/cloud_functions/shared.go:441-447 | two query prefixes share a cache exactly when equal or when they are the empty one and `*` |
| DayCacheProofs.PadKeeps | event_database/cloud_functions/notional-transferred-to.go:232-244 | padding a table that the cache or other requests share keeps everything they rely on |
| DayCacheProofs.StepKeeps | event_database/cloud_functions/notional-transferred-to.go:142-244 | every step of every worker and request, every new row and every midnight keep the invariant of cache, heap, workers and wait groups, whatever prefixes are asked for |
| Transparency.WithPrefixExact | event_database/cloud_functions/notional-transferred-to.go:46-118 | a range query returns every row of the day whose key starts with the prefix as often as the day has it, and no other |
| Transparency.WithPrefixAppend | event_database/cloud_functions/notional-transferred-to.go:46-118 | and in the order of the day |
| Arrivals.DatabaseHolds | event_database/cloud_functions/notional-transferred-to.go:46-118 | in every run, each day holds what it held at first and then exactly the rows that have arrived on it, in order |
| Arrivals.BeginAsks | event_database/cloud_functions/notional-transferred-to.go:128-142 | a request is for all days from its first one to the day of the clock |
| Arrivals.NotFromCache | event_database/cloud_functions/notional-transferred-to.go:151-163 | the request's own day and overridden days are always read from the database |
| Arrivals.TodayAsRead | event_database/cloud_functions/notional-transferred-to.go:187-202 | what an answer for the request's own day accounts for is what the database held in the step in which its worker read the day |
| Arrivals.CollectsExactly | event_database/cloud_functions/notional-transferred-to.go:222-230 | the chains a request collects are exactly those its days name |
| Transparency.CacheTransparency | event_database/cloud_functions/notional-transferred-to.go:123-247 | for every run and interleaving, a finished worker's table reads like a fresh aggregation of the rows due under a prefix that shares the request's cache, and under its own prefix unless the empty one and `*` are mixed; past days are then cached |
| Transparency.TransparentIff | event_database/cloud_functions/shared.go:441-447 | over all runs from all rightly loaded caches, every answer is right for its prefix if and only if nobody asks for one of the empty prefix and `*` where answers for the other may be cached |
| Transparency.TransparentIffNoStar | event_database/cloud_functions/shared.go:441-447 | where loaded caches hold answers for any prefix but `*`, that is if and only if nobody asks for `*` |
| Transparency.WaitGroupCounts | event_database/cloud_functions/notional-transferred-to.go:133-216 | in every run, whatever is asked for, the wait group equals the number of unfinished workers, and is zero exactly when all have finished |
| Transparency.ReturnedDaysShareChains | event_database/cloud_functions/notional-transferred-to.go:222-246 | in every run, when a request returns, all its days are answered and every day names every chain that any day says something about |
| Transparency.SameChainsIff | event_database/cloud_functions/notional-transferred-to.go:222-246 | all days a request returns have exactly the chains it collected if and only if nobody adds another chain to one of its tables from that moment on |
| Endpoints.ToAnswers | event_database/cloud_functions/notional-transferred-to.go:142-246 | in every run, each cell of a finished day is the total of the day's rows whose key starts with a prefix that shares the request's cache, and with its own unless the empty prefix and `*` are mixed |
| Endpoints.CubeAnswers | event_database/cloud_functions/notional-transferred.go:51-185 | the same for the cube endpoint |
| Endpoints.AddressAnswers | event_database/cloud_functions/addresses-transferred-to.go:131-223 | the same for the address endpoint, with exactly the addresses of these rows |
| Endpoints.LockedAnswers | event_database/cloud_functions/notional-tvl.go:53-192 | the same for locked balances, with symbol, name, id and price of each token's first such row |
| Endpoints.ReturnedAmountsPadded | event_database/cloud_functions/notional-transferred-to.go:222-246 | a returned request hands the running-total loop days padded as it needs |
| Endpoints.ReturnedAddressesPadded | event_database/cloud_functions/addresses-transferred-to.go:205-223 | a returned request for addresses hands over days that miss no chain on which any of them names an address |
| Endpoints.ReturnedLockedPadded | event_database/cloud_functions/notional-tvl.go:168-192 | the same for locked balances |
| Endpoints.EndpointsTransparentIff | event_database/cloud_functions/shared.go:441-447 | at each of the three daily endpoints that take a prefix, answers are right in all runs if and only if the empty prefix and `*` are not mixed |
| Endpoints.StarQueryLeaks | event_database/cloud_functions/notional-transferred-to.go:151-163 | after a query for the empty prefix, a query for `*` reads the total one where no key starts with `*` |
| Endpoints.UnrestrictedQueryLosesDay | event_database/cloud_functions/addresses-transferred-to.go:131-223 | after a query for `*`, the unrestricted query reads zero where one was received |
| Cumulative.RunningRightIff | event_database/cloud_functions/notional-transferred-to-cumulative.go:156-219 | whatever days are cached, the date loop is right on every day if and only if no chain is missing from an uncached day after having had amounts |
| Cumulative.UnpaddedLosesHistory | event_database/cloud_functions/notional-transferred-to-cumulative.go:174-204 | a concrete unpadded day on which the loop loses a chain's history |
| Cumulative.PaddedIdleMeansNew | event_database/cloud_functions/notional-transferred-to.go:232-244 | padded days meet that condition |
| Cumulative.AccumulateDay | event_database/cloud_functions/notional-transferred-to-cumulative.go:169-204 | one day's loop over chains and symbol unions, in any order |
| Cumulative.DateLoop | event_database/cloud_functions/notional-transferred-to-cumulative.go:156-219 | the loop over the dates, for any mix of cached and uncached days: results, what the cache becomes, and which tables are reused as objects |
| Cumulative.PaddedRunsRight | event_database/cloud_functions/notional-transferred-to-cumulative.go:156-219 | on padded days and with a right cache, every result of the loop is the sum of all days up to it |
| Cumulative.AddressRunningNames | event_database/cloud_functions/addresses-transferred-to-cumulative.go:130-180 | on such days, the running total of addresses names exactly those that received something on a day up to it |
| Cumulative.StoredAgain | event_database/cloud_functions/addresses-transferred-to-cumulative.go:182-192 | a cached day is stored again by the address endpoint only, and only where its cache is overridden |
| Cumulative.CumulativeCache.CreateCumulativeAmounts | event_database/cloud_functions/notional-transferred-to-cumulative.go:126-219 | on the shared cache: every result and every cache entry is the sum of all days up to it, and the entries stay right for later calls if and only if no midnight fell between the two readings of the clock (also the address variant, which stores overridden days again) |
| Cumulative.CacheStaysRightIff | event_database/cloud_functions/notional-transferred-to-cumulative.go:206-213 | what a call caches stays right whatever the running day will hold if and only if the last day is the call's today |
| Cumulative.MidnightPoisonsCache | event_database/cloud_functions/notional-transferred-to-cumulative.go:206-213 | an instance in which a day's total stays zero for good |
| Cumulative.CumulativeCache.PadLater | event_database/cloud_functions/notional-transferred-to.go:232-244 | padding a daily table later leaves the running-total cache right although the first day's table is shared with it |
| Cumulative.RunsToStable | event_database/cloud_functions/notional-transferred-to-cumulative.go:157-161 | a cached running total stays right for later calls whose days up to it read the same |
| CumulativeRuns.NextKeeps | event_database/cloud_functions/notional-transferred-to-cumulative.go:126-219 | unless prefixes are mixed or midnight falls inside a call, every step of interleaved cumulative calls, daily requests, arriving rows and midnights keeps both caches and all results right |
| CumulativeRuns.EveryTotalRight | event_database/cloud_functions/notional-transferred-to-cumulative.go:126-219 | in every such run, each cell of each running total is the total of the rows of all days up to it whose key starts with the prefix asked for |
| CumulativeRuns.FinishedCallHasAllDays | event_database/cloud_functions/notional-transferred-to-cumulative.go:156-219 | a call that is through has a result for exactly the days from the release to its own |
| CumulativeRuns.ClockCounts | event_database/cloud_functions/notional-transferred-to-cumulative.go:131-145 | two readings of the clock agree exactly when no midnight lies between them |
| CumulativeLimits.TotalsRightIff | event_database/cloud_functions/notional-transferred-to-cumulative.go:134-160 | all results and all cached totals are right in all runs without a midnight inside a call if and only if nobody asks for one of the empty prefix and `*` where totals for the other may be cached |
| CumulativeLimits.MixedRun | event_database/cloud_functions/addresses-transferred-to-cumulative.go:114-139 | a run in which a call for one of the two prefixes takes over the other's cached total |
| CumulativeLimits.RightDespiteMidnightsIff | event_database/cloud_functions/notional-transferred-to-cumulative.go:131-145 | where midnight may fall inside calls, totals are right in all runs if and only if nobody asks |
| CumulativeLimits.MidnightRun | event_database/cloud_functions/notional-transferred-to-cumulative.go:206-213 | a run from empty caches in which a call reads the clock, midnight falls, its daily request reads the clock, and the total of the new day is cached before its rows arrive |
| CumulativeLimits.MidnightReadsWrong | event_database/cloud_functions/notional-transferred-to-cumulative.go:206-213 | after it the cached total of a past day reads zero where a row counts |
| CumulativeServices.ToTotalsRightIff | event_database/cloud_functions/notional-transferred-to-cumulative.go:126-219 | both conditions for amounts by chain |
| CumulativeServices.AddressTotalsRightIff | event_database/cloud_functions/addresses-transferred-to-cumulative.go:104-190 | both conditions for amounts by address |
| CumulativeServices.LockedTotalsRightIff | event_database/cloud_functions/notional-tvl-cumulative.go:52-197 | both conditions for locked value |
| CumulativeServices.LockedTotalsRight | event_database/cloud_functions/notional-tvl-cumulative.go:52-197 | the locked-value endpoint, which always asks for the empty prefix, is right in every run without a midnight inside a call |
| CumulativeServices.StarTotalLeaks | event_database/cloud_functions/addresses-transferred-to-cumulative.go:114-139 | a concrete run in which a call for `*` reads one where no key starts with `*` |
| UpToYesterday.Totals.Since | event_database/cloud_functions/notional-transferred-to-cumulative.go:37-102 | as written: a miss stores and returns the sum of all days but today; a hit adds the days from today on to the stored object and returns it; entries of other queries and dates stay |
| UpToYesterday.Totals.SinceCopied | event_database/cloud_functions/notional-transferred-to-cumulative.go:37-102 | with the two tables copied: where the stored table is the past, the answer is the full total, a miss stores the sum of all days but today, and entries of other queries and dates stay |
| UpToYesterday.CallsCopied | event_database/cloud_functions/notional-transferred-to-cumulative.go:37-102 | with copies, any number of calls for any queries in any order, over any number of days, each answer with the full total of their own query |
| UpToYesterday.StoredIsPastIff | event_database/cloud_functions/notional-transferred-to-cumulative.go:84-93 | what a miss stores is the sum of the days before today, whatever the days hold, if and only if no midnight falls within the call |
| UpToYesterday.CallsOfOneDay | event_database/cloud_functions/notional-transferred-to-cumulative.go:56-101 | the k-th answer after the miss is the past plus the first k of the day's today-tables, and exactly where answers are the true total |
| LockedValue.LockedMeaning | event_database/cloud_functions/notional-tvl.go:100-148 | a balance is the sum over kept rows of minus amount when the destination is the origin, else plus amount when leaving the origin, else zero |
| LockedValue.LockedRecords | event_database/cloud_functions/notional-tvl.go:100-148 | a day lists exactly the tokens of its kept rows, each with symbol, name, id and price of its first row |
| LockedValue.LockedOfDay | event_database/cloud_functions/notional-tvl.go:100-148 | the row loop with its skips computes these balances and records |
| LockedValue.TvlSinceDate | event_database/cloud_functions/notional-tvl.go:196-229 | adding the days in any order gives the sum of the days, and each token a record that some day gives it |
| LockedValue.MergeAssets | event_database/cloud_functions/notional-tvl-cumulative.go:128-168 | one chain's running total over the union of its tokens: amounts add up, and everything else, the price included, is today's where today has the token |
| LockedValue.MovedMeaning | event_database/cloud_functions/notional-tvl-cumulative.go:128-168 | a day's step adds up amounts and takes over records, prices included, on the day's chains, and loses the chains the day does not name |
| LockedValue.CreateTvlCumulative | event_database/cloud_functions/notional-tvl-cumulative.go:52-197 | for any mix of cached and uncached days, every result is the sum of all days up to it, each record on a named chain, its price included, is that of the last day that moved the token, and the copied cache stays right for later calls if and only if no midnight fell between the readings of the clock |
| LockedValue.StaysRightIff | event_database/cloud_functions/notional-tvl-cumulative.go:171-193 | a right cache stays right whatever the running day will hold if and only if it holds no total of that day |
| LockedValue.RunsToStable | event_database/cloud_functions/notional-tvl-cumulative.go:83-101 | a cached running total, balances and records, stays right for later calls |
| LockedValue.TwoRoutesAgree | event_database/cloud_functions/notional-tvl-cumulative.go:81-170 | the latest running total equals the sum of days, and both equal the signed sum over all kept rows |
| TvlReport.RoundToCents | event_database/cloud_functions/shared.go:438-440 | rounding gives the nearest whole cent, halves away from zero, and keeps the sign |
| TvlReport.ReportMeans | event_database/cloud_functions/notional-tvl-cumulative.go:276-327 | a chain lists exactly the tokens that are not excluded and worth more than nothing, as amount times price, each with the nearest cent, and as total the nearest cent to their exact sum |
| TvlReport.ReportChain | event_database/cloud_functions/notional-tvl-cumulative.go:276-309 | lists exactly the assets of positive value that are not excluded, each rounded, with the exact sum as total |
| TvlReport.ReportDay | event_database/cloud_functions/notional-tvl-cumulative.go:257-329 | every chain's total is its rounded exact sum and the daily total the rounded sum of the exact chain totals |
| TvlReport.ChainDrift | event_database/cloud_functions/notional-tvl-cumulative.go:301-321 | a chain's total and the sum of its n rounded assets differ by at most 0.005(n+1) |
| TvlReport.DayDrift | event_database/cloud_functions/notional-tvl-cumulative.go:311-328 | the daily total and the sum of its C rounded chain totals differ by at most 0.005(C+1) |
| RowKeys.SplitMadeKey | event_database/cloud_functions/process-vaa.go:193-196 | splitting a made key on colons gives its three parts |
| RowKeys.MakeRowKeyInjective | event_database/cloud_functions/process-vaa.go:193-196 | different messages have different row keys |
| RowKeys.KeyRoundTrip | event_database/cloud_functions/shared.go:276-284 | reading a key back recovers the address and the decimal sequence, including zero |
| Text.DigitChars | event_database/cloud_functions/process-vaa.go:193-196 | digits are written `0` to `9` and lower-case `a` to `f` |
| RowKeys.FirstCharacterIsChain | event_database/cloud_functions/notional-transferred-to.go:93 | the first character of a key is the emitter chain exactly when the chain number is below 10 |
| RowKeys.OrderIsNumericIff | event_database/cloud_functions/process-vaa.go:193-196 | padded sequences up to a bound sort numerically if and only if the bound is below 10^16 |
| RowKeys.RangeExactIff | event_database/cloud_functions/recent.go:143-148 | the range from low to high+1 holds exactly that emitter's rows low to high and no other emitter's, for all rows up to a bound, if and only if the bound is below 10^16 - 1 |
| Recent.LatestOfEachEmitter | event_database/cloud_functions/recent.go:87-95 | the overwriting scan ends at each emitter's last key in dictionary order, for any sequences |
| Recent.LastIsHighestIff | event_database/cloud_functions/recent.go:87-95 | that is the highest sequence, for all rows up to a bound, if and only if the bound is below 10^16 |
| Recent.RangeOf | event_database/cloud_functions/recent.go:127-153 | for every 64-bit sequence the range arithmetic never goes below zero and never takes the branch for strange sequences, and below 10^16 - 1 the range holds exactly the rows within n of the highest |
| Recent.RecentRowsExactIff | event_database/cloud_functions/recent.go:127-173 | asking for n rows returns exactly the emitter's rows within n of its highest sequence, for all n and all other rows, if and only if the highest is below 10^16 - 1 |
| TransferAmount.DecodeTokenTransfer | event_database/cloud_functions/process-vaa.go:82-109 | the decoder's result for every input, including which field is missing and the panic on empty data |
| TransferAmount.ErrorsMean | event_database/cloud_functions/process-vaa.go:82-109 | the error names the field in or before which the data ends |
| TransferAmount.TrailingBytesIgnored | event_database/cloud_functions/process-vaa.go:82-109 | bytes after the last field do not matter and every strict prefix is rejected |
| TransferAmount.DecodePayload | event_database/cloud_functions/process-vaa.go:82-109 | decoding recovers every field of an encoded payload; the four words denote the amount |
| TransferAmount.StoredExactIff | event_database/cloud_functions/process-vaa.go:275-282 | when the third word is zero, the stored string denotes the amount if and only if the amount is below 2^64 |
| TransferAmount.LargeAmountStoredAsZero | event_database/cloud_functions/process-vaa.go:275-282 | the payload of a transfer of 2^128 units passes the overflow test and is stored as 0 |
| TransferAmount.ScaleAmount | event_database/cloud_functions/process-transfer.go:171-182 | the split has min(decimals, 8) decimals, ends with the digits of the amount and denotes the amount divided by 10^min(decimals, 8) |
| TransferAmount.ScaledValue | event_database/cloud_functions/process-transfer.go:171-182 | the split denotes the amount divided by 10^min(decimals, 8) |
| TransferAmount.EndToEnd | event_database/cloud_functions/process-transfer.go:171-182 | from any payload with amount below 2^64, whatever follows it, to the scaled amount |
| Pipeline.StepKeeps | event_database/cloud_functions/process-vaa.go:237-385 | every delivery keeps the row invariants and changes no existing cell |
| Pipeline.CellsNeverChange | event_database/cloud_functions/process-vaa.go:197-212 | over any duplicated and reordered deliveries, a cell once written never changes |
| Pipeline.EveryCellWrittenOnce | event_database/cloud_functions/process-vaa.go:258-375 | in every run no cell of a row is written twice, in particular the receiver address |
| Pipeline.EveryCellLogged | event_database/cloud_functions/process-vaa.go:197-212 | in every run every cell there is was put there by such a write |
| Ingestion.RowShowsFirst | event_database/cloud_functions/process-vaa.go:237-385 | in every run, a row has a payload of a family if and only if some delivery could be saved, and then shows exactly the columns of the first such delivery, every transfer column read off its place in the payload |
| Ingestion.DetailsShowFirst | event_database/cloud_functions/process-transfer.go:171-233 | in every run, a row has details if and only if some delivery of a saved message found metadata and price, and then shows exactly those of the first: the saved amount with the point moved by its decimals, at most eight |
| Ingestion.HandedOn | event_database/cloud_functions/process-vaa.go:292-296 | a message is handed on to the second stage if and only if it could be saved |
| Ingestion.SharedAddressByChain | event_database/cloud_functions/process-vaa.go:252-258 | the shared address has token transfers on every chain but 4, and NFTs there only |
| Ingestion.DetailsFollowPayload | event_database/cloud_functions/process-transfer.go:203-233 | a row with details has its payload, saved by an earlier delivery |
| Ingestion.DetailsDenoteSignedAmount | event_database/cloud_functions/process-vaa.go:261-297 | in every run in which each key has one signed payload with an amount below 2^64, the first details show the token's decimals, at most eight, and denote the signed amount over 10^decimals |
| Vaa.AbiTail | clients/token_bridge/main.ts:29-37 | cutting an ABI word gives the number's low bytes in hexadecimal |
| Vaa.ZeroPadBytes | clients/token_bridge/main.ts:70-75 | the padding loop agrees with padding by concatenation |
| Vaa.ZeroPadIsBytes | alephium/lib/utils.ts:14-21 | padding a number's hexadecimal digits gives exactly its big-endian bytes |
| Vaa.BodyFields | clients/token_bridge/main.ts:29-38 | what stands where in a message body |
| Vaa.MessageFields | clients/token_bridge/main.ts:58-67 | what stands where in a message |
| Vaa.EntryFields | clients/token_bridge/main.ts:46-55 | what stands where in a signature: index, r, s and recovery bit |
| Vaa.SignedByEach | clients/token_bridge/main.ts:39-56 | each key signs the double hash of the body |
| Vaa.SignAndEncodeVM | clients/token_bridge/main.ts:18-68 | the ABI-word encoder produces the message layout, for any header, payload and up to 255 signers |
| RegisterChain.ModuleName | clients/token_bridge/main.ts:96-97 | the module is the text TokenBridge in the last bytes of a word |
| RegisterChain.RegistrationFields | alephium/devnet/gen_register_vaa.ts:21-42 | what the registration says, field by field |
| RegisterChain.GenerateRegisterChainVaa | clients/token_bridge/main.ts:95-117 | the registration command, given the contract address with its leading 0x, produces the registration message, signed with any guardian secret |
| RegisterChain.WritePayload | alephium/devnet/gen_register_vaa.ts:25-30 | the writes fill the uninitialised 69-byte buffer completely with the payload |
| RegisterChain.WriteBodyHeader | alephium/devnet/gen_register_vaa.ts:32-42 | the writes fill the uninitialised 51-byte buffer completely with the body header |
| RegisterChain.WriteVaaHeader | alephium/devnet/gen_register_vaa.ts:48-56 | the writes fill the uninitialised 72-byte buffer completely with version, set, count and signature |
| RegisterChain.PackedBytes | alephium/devnet/gen_register_vaa.ts:9-19 | the packed signature text denotes r, s and the recovery bit |
| RegisterChain.RegisterTo | alephium/devnet/gen_register_vaa.ts:21-59 | the buffer program produces the same text as the ABI-word program on equal inputs |
| Signatures.ParseSignatures | event_database/database_query.go:41-66 | the parser's result for every input, including which entry is cut short |
| Signatures.ErrorsMean | event_database/database_query.go:41-66 | the error names the first entry that is not there, without its index or with too few bytes |
| Signatures.SectionRoundTrip | event_database/database_query.go:41-66 | for up to 255 signatures, parsing recovers indices and 65-byte values, ignores what follows and rejects every strict prefix |
| Signatures.SignaturesOfMessage | clients/token_bridge/main.ts:58-65 | the signature list of an encoded message starts at byte five and parses |
| TransferStore.Slice.SetSourceChain | bridge_ui/src/store/transferSlice.ts:98-113 | the draft assignments give the reduced state |
| TransferStore.Slice.SetTargetChain | bridge_ui/src/store/transferSlice.ts:169-185 | the draft assignments give the reduced state |
| TransferStore.Slice.SetRecoveryVaa | bridge_ui/src/store/transferSlice.ts:228-259 | the draft assignments give the reduced state |
| TransferStore.Slice.Dispatch | bridge_ui/src/store/transferSlice.ts:88-260 | the store's state is what all actions dispatched so far make it, so everything proved of runs holds of it: chains differ, the step is in range, a recovery has its signed message |
| TransferStoreEffects.SourceChainSet | bridge_ui/src/store/transferSlice.ts:98-113 | after any actions, choosing a source chain sets it, gives the target the former source if it was that chain, and clears what depends on it |
| TransferStoreEffects.TargetChainSet | bridge_ui/src/store/transferSlice.ts:169-185 | the same for the target chain, with the form starting over if the chains swap |
| TransferStoreEffects.SwapTwice | bridge_ui/src/store/transferSlice.ts:98-113 | choosing the target's chain as source swaps the two, and again swaps them back |
| TransferStoreEffects.ActionShows | bridge_ui/src/store/transferSlice.ts:88-260 | after any actions, each action shows what it was given and ends what it ends |
| TransferStoreEffects.SourceKept | bridge_ui/src/store/transferSlice.ts:88-260 | which actions alone change the chains and what is known about the source |
| TransferStoreEffects.TargetKept | bridge_ui/src/store/transferSlice.ts:88-260 | which actions alone change what is known about the target |
| TransferStoreEffects.TransferKept | bridge_ui/src/store/transferSlice.ts:88-260 | which actions alone change the amount, the transactions, the progress and the step |
| TransferStoreEffects.ResetKeepsChains | bridge_ui/src/store/transferSlice.ts:223-227 | a reset is a fresh form but for the chains |
| TransferStoreEffects.FreshForm | bridge_ui/src/store/transferSlice.ts:62-83 | the form before any action |
| TransferStoreEffects.TargetReadyIff | bridge_ui/src/store/selectors.ts:264-287 | the target is complete exactly if nothing is missing |
| TransferStoreEffects.TargetErrorNames | bridge_ui/src/store/selectors.ts:264-287 | otherwise the first thing missing is named |
| TransferStore.AlwaysSafe | bridge_ui/src/store/transferSlice.ts:88-260 | after any actions source and target chain differ, the step is in range, and a recovery has its signed message |
| TransferStore.SameChainsUnreachable | bridge_ui/src/store/selectors.ts:264-287 | the "different target and source" message can never be shown |
| TransferStore.StaysFresh | bridge_ui/src/store/transferSlice.ts:88-260 | a derived field that no action leaves stale has been set by some action since which what it depends on has not changed |
| TransferStore.SourceAccountFresh | bridge_ui/src/store/transferSlice.ts:98-140 | a selected source token was set for the source chain still selected |
| TransferStore.SourceAccountsFresh | bridge_ui/src/store/transferSlice.ts:98-165 | a list of source tokens was set for the source chain still selected |
| TransferStore.TargetAssetFresh | bridge_ui/src/store/transferSlice.ts:98-195 | target asset data was set for the source chain, source token and target chain still selected |
| TransferStore.TargetAddressFresh | bridge_ui/src/store/transferSlice.ts:169-188 | a defined target address was set for the source chain, source token and target chain still selected |
| TransferStore.TargetAccountFresh | bridge_ui/src/store/transferSlice.ts:189-201 | a defined target token account was set for the chains, source token and target asset still in place |
| TransferStore.OriginFresh | bridge_ui/src/store/transferSlice.ts:98-140 | defined origin fields were set for the source chain and token still selected |
| Retry.HostRing.NextHost | bridge_ui/src/utils/getSignedVAAWithRetry.ts:4-7 | the counter advances by one and picks the host round robin |
| Retry.HostRing.FetchWithRetry | bridge_ui/src/utils/getSignedVAAWithRetry.ts:9-34 | which hosts are asked, at most r+1 attempts, and a failing call has asked every host if and only if r+1 is at least their number |
| Retry.CoverageIff | bridge_ui/src/utils/getSignedVAAWithRetry.ts:6-7 | m consecutive attempts ask every host exactly when there are at most m hosts |
| Retry.TakingTurnsCoversIff | bridge_ui/src/utils/getSignedVAAWithRetry.ts:4-7 | when callers take turns, each covers all hosts by at least as many attempts as there are hosts if and only if the numbers of callers and hosts have no common divisor |
| Retry.TwoCallersCoverIff | bridge_ui/src/utils/getSignedVAAWithRetry.ts:4-7 | two callers taking turns each cover all hosts if and only if the number of hosts is odd |

## Left out

- Bigtable, Pub/Sub, cache files, price and owner services: foreign systems; rows, loaded caches and answers are inputs.
- HTTP handlers, query parameters and the rounding of responses there: plumbing.
- Floating-point error and Go's data races on maps: amounts are reals and steps are atomic.
- Transparency.ReturnedDaysShareChains: does not claim equal key sets per day, because other requests may pad shared tables further at the same time; `SameChainsIff` says exactly when days have equal key sets.
- Cumulative.CumulativeCache.CreateCumulativeAmounts: one call at a time and one query prefix, on objects; interleaved calls and prefixes are in `CumulativeRuns`, on values. The final selection of the last n days is not modelled.
- CumulativeRuns.EveryTotalRight: excludes mixed prefixes and midnights inside a call, for which it is false as `TotalsRightIff` and `RightDespiteMidnightsIff` show.
- CumulativeLimits.TotalsRightIff: the converse is for services that do not override their cache on the release day.
- UpToYesterday.Totals.Since: one call at a time; a miss that overlaps another miss is not modelled.
- LockedValue.CreateTvlCumulative: one call at a time; over runs, `LockedTotalsRight` speaks of amounts and not of prices.
- TransferAmount.StoredExactIff: amounts whose third 64-bit word is not zero are stored as the number library's bytes, which are not part of this model.
- Pipeline.ProcessVaa: the columns of asset metadata and NFT payloads are inputs, as are the emitter address lists; only token transfers are decoded.
- Pipeline.ProcessTransfer: the metadata and price lookups are one input that is either absent or gives decimals and further columns.
- Vaa.SignAndEncodeVM: keccak and secp256k1 are parameters; values outside their ABI width, which the library rejects, are excluded.
- RegisterChain.RegisterTo: base58 contract addresses; the address is given as 64 hexadecimal characters.
- Recent.LatestOfEachEmitter: the one-hour cache of latest sequences and the time filter.
- TransferStore.TargetErrorOf: the source error, which parses numbers, is an input.
- totals.go, nfts.go, tvlForInterval, getNotionalAmounts, getDaysInRange: simpler counting and selection of the same kind.
- The NFT and attestation slices: weaker copies of the transfer reducers.
- User interface, deployment scripts, chain clients and on-chain programs.
