# marketdata — a Dafny model of its core

`marketdata` fetches OHLCV bars, quotes, snapshots, earnings, dividends and
corporate actions for stock symbols. It asks an ordered list of providers
(Polygon, Alpaca, Finnhub, Interactive Brokers, a mock) and falls back from
one to the next on retryable errors. Results go through a cache and a
data-quality gate. It also carries an NYSE trading calendar, an earnings
calendar, and a settings service that keeps provider keys and order in a
`.env` file.

This project models that core in Dafny and proves properties of the model:

- `Common.dfy`: Python's exceptions as an `Outcome` value, ASCII string
  helpers, `s[:n]` slicing, and a stable sort standing in for `list.sort(key=…)`.
- `Dates.dfy`: dates as proleptic-Gregorian ordinals, the weekday, and ISO
  formatting and parsing.
- `Models.dfy`: the bar, quote, snapshot, earnings, dividend and ticker-info
  records.
- `Quality.dfy`: `validate_bars` and `validate_quote`.
- `Cache.dfy`: the memory cache, the no-op cache and the disk cache.
- `Manager.dfy`: the provider fallback chain and each manager operation.
- `Calendar.dfy`: NYSE holidays, half days, trading dates and market hours.
- `Earnings.dfy`: the earnings calendar and its reaction-day queries.
- `EnvFile.dfy` and `Settings.dfy`: the `.env` reader and writer, the
  provider order, secret masking and update validation.
- `Ib.dfy`: the Interactive Brokers dividend parsing.
- `Mock.dfy`: the mock provider, including its synthetic bar series.
- `Polygon.dfy`: Polygon's response classification, exception wrapping,
  paging and record conversion.

The effects the core depends on are explicit inputs:
- Clock readings (`time.monotonic()`, `date.today()`, `datetime.now()`).
- Provider answers.
- HTTP pages.
- Parsed XML trees.
- Float and date parsers.

The `.env` file is its sequence of lines, and the environment is a map.

## Model

| member | source | states |
|---|---|---|
| Cache.KeyInjective | src/marketdata/cache.py:166-167 | Two requests share a memory-cache key exactly when their upper-cased symbols, timeframes, starts and ends agree, provided neither symbol nor timeframe contains the separator (a vertical bar). |
| Cache.KeySeparatorCollision | src/marketdata/cache.py:166-167 | The requests with symbol `A`, bar, `x` and timeframe `y`, and with symbol `A` and timeframe `X`, bar, `y`, have different symbols but the same key. |
| Cache.Lookup | src/marketdata/cache.py:184 | `store.get(k)` is absent exactly when no entry has key `k`; otherwise it is the unique entry with that key. |
| Cache.Keep | src/marketdata/cache.py:171-173 | A bulk deletion keeps exactly the entries it does not doom. |
| Cache.KeepIsSublist | src/marketdata/cache.py:171-173 | A bulk deletion keeps the surviving entries in their order. |
| Cache.KeepDistinct | src/marketdata/cache.py:171-173 | Deleting entries keeps keys distinct. |
| Cache.WithoutDoomedKeys | src/marketdata/cache.py:171-173 | Collecting the doomed keys first and deleting them one by one removes exactly the doomed entries. |
| Cache.SweepMeaning | src/marketdata/cache.py:169-173 | After `_evict_expired`, exactly the entries at most `ttl` old survive, in their order. |
| Cache.MoveToEndLast | src/marketdata/cache.py:191 | `move_to_end(k)` puts the entry for `k` last, the others in order. |
| Cache.MemGetHitOrMiss | src/marketdata/cache.py:179-192 | A get misses when the key is absent after the sweep, or expired at the re-check (the entry is then deleted). Otherwise it returns the stored bars and moves the key to the most-recent end. |
| Cache.AssignLookup | src/marketdata/cache.py:198 | After `store[k] = (t, bars)`, a lookup of `k` gives that entry. |
| Cache.StoreOrder | src/marketdata/cache.py:197-199 | Assigning then moving to the end gives the other entries in order, then the new entry. |
| Cache.MemStoreMeaning | src/marketdata/cache.py:175-200 | With capacity `n >= 0`, a store never raises and keeps at most `n` entries. Eviction takes only the oldest, and with `n >= 1` the new entry is last. |
| Cache.MemStoreNegativeCapacity | src/marketdata/cache.py:175-177 | With a negative capacity, a store empties the dictionary and raises `KeyError`. |
| Cache.StoreThenGet | src/marketdata/cache.py:179-200 | A series stored at `t` is returned whole by a read whose clock readings are at most `ttl` after `t`. |
| Cache.ZeroTtlMiss | src/marketdata/cache.py:169-192 | With `ttl = 0`, a read at any later time misses. |
| Cache.StoredDistinct | src/marketdata/cache.py:194-200 | A store keeps keys distinct. |
| Cache.GetDistinct | src/marketdata/cache.py:179-192 | A get keeps keys distinct. |
| Cache.ClearMeaning | src/marketdata/cache.py:206-210 | `clear(symbol)` removes exactly the keys that consist of the upper-cased symbol followed by the separator bar and more and keeps the rest in order. |
| Cache.CapacityTwoEvictsOldest | src/marketdata/cache.py:175-200 | Storing a third key into a two-entry cache of capacity two evicts the older entry. |
| Cache.CollectDoomed | src/marketdata/cache.py:171 | The comprehension loop collects the doomed keys in dictionary order. Also covers lines 208 of that file. |
| Cache.MemoryCache.constructor | src/marketdata/cache.py:161-164 | A new cache is empty and holds the given TTL and capacity. |
| Cache.MemoryCache.DeleteDoomed | src/marketdata/cache.py:171-173 | The deletion loop leaves exactly the entries that are not doomed. Also covers lines 208-210 of that file. |
| Cache.MemoryCache.EvictExpired | src/marketdata/cache.py:169-173 | The dictionary becomes its sweep at `now`. |
| Cache.MemoryCache.EvictLru | src/marketdata/cache.py:175-177 | The loop pops from the front while over capacity, raising on an empty dictionary. |
| Cache.MemoryCache.GetBars | src/marketdata/cache.py:179-192 | The dictionary and result follow the get transition. |
| Cache.MemoryCache.StoreBars | src/marketdata/cache.py:194-200 | The dictionary follows the store transition. |
| Cache.MemoryCache.HasData | src/marketdata/cache.py:202-204 | After the sweep, the answer is true iff the key is present. |
| Cache.MemoryCache.Clear | src/marketdata/cache.py:206-210 | Removes exactly the entries whose key is the upper-cased symbol followed by the separator bar and more. |
| Cache.MemoryCache.ClearAll | src/marketdata/cache.py:212-213 | Empties the dictionary. |
| Cache.NoCache.GetBars | src/marketdata/cache.py:51-52 | Always a miss. |
| Cache.NoCache.HasData | src/marketdata/cache.py:57-58 | Always false. |
| Cache.DiskStoreThenGet | src/marketdata/cache.py:84-104 | A non-empty series stored in the disk cache reads back unchanged. Storing an empty series leaves the cache as it was. |
| Cache.ParquetCache.constructor | src/marketdata/cache.py:73-75 | The cache starts from the given files. |
| Cache.ParquetCache.GetBars | src/marketdata/cache.py:84-95 | A missing or unreadable file is a miss. Otherwise the result is the stored series. |
| Cache.ParquetCache.StoreBars | src/marketdata/cache.py:97-104 | An empty series writes nothing. Otherwise the request's file is (re)written with the series. |
| Cache.ParquetCache.HasData | src/marketdata/cache.py:106-107 | True iff the request's file exists. |
| Cache.ParquetCache.Clear | src/marketdata/cache.py:109-112 | Removes every file of the upper-cased symbol. |
| Cache.ParquetCache.ClearAll | src/marketdata/cache.py:114-117 | Removes every file. |
| Cache.DiskSkipsEmptyStore | src/marketdata/cache.py:100-101 | Storing an empty series does not create an entry in the disk cache. |
| Cache.MemoryStoresEmptySeries | src/marketdata/cache.py:194-200 | Storing an empty series in the memory cache gives a hit (an empty list) right after. |
| Cache.CacheTransitionsValid | src/marketdata/cache.py:155-213 | Every cache operation keeps the memory cache's keys distinct. |
| Quality.ValidationResult.FailedChecks | src/marketdata/quality.py:30-32 | The failed checks are exactly the checks that did not pass, each as often as the battery holds it; the list is empty iff the result passed. |
| Quality.FailedChecksSnoc | src/marketdata/quality.py:30-32 | A check appended to the battery is appended to the failed checks exactly when it failed, so they keep the battery's order. |
| Quality.CountNonFinite | src/marketdata/quality.py:61-63 | The count of NaN or infinite values is at most the number of values, and zero iff none is NaN or infinite. |
| Quality.Count | src/marketdata/quality.py:70-130 | A count over a range of bar indices is at most the range's length. |
| Quality.CountPositive | src/marketdata/quality.py:70-130 | A count is positive iff its condition holds at some index in the range. |
| Quality.NonFiniteTotalPositive | src/marketdata/quality.py:59-64 | The NaN/Inf total is positive iff some bar has a NaN or infinite open, high, low, close or volume. |
| Quality.ValidateBars | src/marketdata/quality.py:35-138 | `validate_bars` returns exactly the reference validation: `not_empty` alone for an empty series, else the seven checks with their counts. |
| Quality.CountNonFiniteValues | src/marketdata/quality.py:59-63 | The nested loop counts every NaN or infinite OHLCV value of every bar. |
| Quality.CountExtremeMoves | src/marketdata/quality.py:70-76 | The loop counts the indices whose close moves more than 10% from a positive previous close. |
| Quality.CountNegativeVolumes | src/marketdata/quality.py:85 | The sum counts the bars with negative volume. |
| Quality.CountOutOfOrder | src/marketdata/quality.py:94-97 | The loop counts the indices whose timestamp does not exceed the previous one. |
| Quality.CountIntradayGaps | src/marketdata/quality.py:108-114 | The loop counts the same-date pairs more than five minutes apart. |
| Quality.CountInconsistentBars | src/marketdata/quality.py:123-130 | The `elif` chain counts each inconsistent bar exactly once. |
| Quality.EmptySeriesFailsOnly | src/marketdata/quality.py:50-52 | An empty series yields exactly one failing `not_empty` check and does not pass. |
| Quality.NonEmptySeriesChecks | src/marketdata/quality.py:53-136 | A non-empty series yields the seven checks in their fixed order, and `not_empty` passes. |
| Quality.NoNullsMeaning | src/marketdata/quality.py:59-67 | `no_nulls` fails iff some bar has a NaN or infinite OHLCV value. |
| Quality.PriceSanityMeaning | src/marketdata/quality.py:70-82 | `price_sanity` fails iff some close moves more than 10% from a positive previous close. |
| Quality.RatioAbove | src/marketdata/quality.py:74-75 | With a positive previous close, `x / p > 0.10` iff `x > 0.10 * p`. |
| Quality.VolumeSanityMeaning | src/marketdata/quality.py:85-91 | `volume_sanity` fails iff some bar has negative volume. |
| Quality.TimestampOrderMeaning | src/marketdata/quality.py:94-103 | `timestamp_order` passes iff timestamps strictly increase. |
| Quality.GapDetectionMeaning | src/marketdata/quality.py:108-120 | `gap_detection` fails iff more than ten same-day pairs are over five minutes apart. |
| Quality.OvernightGapsIgnored | src/marketdata/quality.py:112-114 | A series whose adjacent bars are on different dates always passes `gap_detection`. |
| Quality.OhlcConsistencyMeaning | src/marketdata/quality.py:123-136 | `ohlc_consistency` fails iff some bar has high below low, open or close, or low above open or close; its count is at most the number of bars. |
| Quality.PassedAllChecks | src/marketdata/quality.py:26-28 | A non-empty series passes iff each of the six counting checks passes. |
| Quality.PassedMeaning | src/marketdata/quality.py:26-138 | A series passes iff it is non-empty, has no NaN/Inf value, no extreme move, no negative volume, strictly increasing timestamps, at most ten intraday gaps and no inconsistent bar. |
| Quality.ValidateQuote | src/marketdata/quality.py:141-154 | A quote is valid iff bid and ask are positive, ask is at least bid, and the spread is at most 10% of the midpoint. |
| Models.TickerFieldsComplete | src/marketdata/models/ticker_info.py:32-48 | The field list names every field of the reference-data record. |
| Models.GetWellTyped | src/marketdata/models/ticker_info.py:32-48 | Every present field of a record holds a value of its declared kind. |
| Models.BuildTickerInfo | src/marketdata/manager.py:153 | `TickerInfo(**info)` takes symbol and name from the dictionary and defaults a missing type to `CS`. |
| Models.BuildTickerInfoGet | src/marketdata/manager.py:153 | Each field present in the dictionary is the record's field; every other field except the type is `None`. |
| Dates.ToYMDFromYMD | src/marketdata/calendar.py:171-178 | A date built from a valid year, month and day has that year, month and day (what `d.year` reads back). |
| Dates.ParseIsoFormat | src/marketdata/earnings_calendar.py:153-171 | `date.fromisoformat(d.isoformat())` is `d`. |
| Dates.IsoFormatInjective | src/marketdata/cache.py:166-167 | Distinct dates have distinct ISO strings. |
| Dates.FromUnixMillis | src/marketdata/providers/polygon.py:147 | `datetime.fromtimestamp(ms / 1000, tz=timezone.utc)`, to the second: the result lies in the second `ms` falls in, counted from the Unix epoch, and its date is day 719163 (1970-01-01) plus `ms // 86400000`. |
| Dates.UnixEpochDayIs1970 | src/marketdata/providers/polygon.py:147 | Day 719163, the day the Unix epoch starts from, is 1970-01-01. |
| Dates.WeekdayShift | src/marketdata/calendar.py:69-80 | Moving a date by `k` days moves its weekday by `k` modulo 7. |
| Manager.CapableInMeaning | src/marketdata/manager.py:192-194 | The providers tried for a capability are exactly the capable ones, in list order. |
| Manager.FirstStop | src/marketdata/manager.py:192-203 | The provider where the chain stops is capable and gave an answer that ends the loop. |
| Manager.FirstStopFirst | src/marketdata/manager.py:192-203 | Every capable provider before the stopping one gave an answer the loop passes over. |
| Manager.LastRetryable | src/marketdata/manager.py:197-201 | The remembered error is always retryable. |
| Manager.LastRetryableSound | src/marketdata/manager.py:197-201 | The remembered error was raised by some capable provider. |
| Manager.ChainMeaning | src/marketdata/manager.py:189-208 | The provider loop computes the reference chain: skip incapable providers, continue past retryable errors (and `NotImplementedError` where caught), stop at the first answer or non-retryable error. Also covers lines 86-117 of that file. |
| Manager.ChainInvocations | src/marketdata/manager.py:192-196 | Only capable providers are invoked, each at most once, in list order. |
| Manager.NonRetryableStops | src/marketdata/manager.py:197-199 | A non-retryable error after only passable answers is raised unchanged, and its provider is the last invoked. |
| Manager.ExhaustedRaises | src/marketdata/manager.py:205-208 | When every capable provider fails passably, the chain raises the last retryable error, or the fallback error when there is none (then every capable provider raised `NotImplementedError`). Also covers lines 114-117 of that file. |
| Manager.LastRetryableNone | src/marketdata/manager.py:197-201 | With no remembered error, no capable provider raised a retryable error. |
| Manager.FallbackErrorsNotRetryable | src/marketdata/manager.py:114-117 | "All providers failed" and "No provider supports …" are `NO_DATA` and not retryable. Also covers lines 205-208 of that file. |
| Manager.BaseProvidersAnswerNothingElse | src/marketdata/manager.py:205-208 | With only bar-capable providers, a quote request invokes none and raises "No provider supports". |
| Manager.NotImplementedSkipped | src/marketdata/manager.py:202-203 | A `NotImplementedError` passes to the next provider without being remembered. |
| Manager.Collect | src/marketdata/manager.py:125-135 | A list comprehension of calls returns all results in order when none raises, else the first exception. |
| Manager.CollectFront | src/marketdata/manager.py:125-135 | The comprehension raises at its first element's exception or continues with the rest. |
| Manager.ValidationFailureIsRetryable | src/marketdata/manager.py:94-102 | A series that fails validation becomes a retryable `VALIDATION_FAILED` error. |
| Manager.GatePassesSeries | src/marketdata/manager.py:93-106 | With validation off, or a series that passes, the provider's series is the answer. |
| Manager.CacheHitShortCircuits | src/marketdata/manager.py:81-83 | A cache hit returns the cached series and invokes no provider. |
| Manager.MissStoresOnlySuccess | src/marketdata/manager.py:85-117 | On a miss the chain runs; only a returned series is stored, and a store that raises `KeyError` propagates. |
| Manager.FetchedBarsCameFromProvider | src/marketdata/manager.py:85-106 | Bars returned on a miss come from the last invoked provider and, with validation on, passed it. |
| Manager.MergeFieldsMeaning | src/marketdata/manager.py:147-150 | One record fills exactly the absent fields for which it has a value and leaves present fields alone. |
| Manager.MergeAllMeaning | src/marketdata/manager.py:142-152 | After all records, a field absent from the start holds the first provider's non-`None` value, if any. |
| Manager.MergeAllWellTyped | src/marketdata/manager.py:142-153 | Merging keeps every field's value of its declared kind. |
| Manager.FirstValueWellTyped | src/marketdata/manager.py:147-150 | A field's first value from the records is of its declared kind. |
| Manager.MergedTickerInfoMeaning | src/marketdata/manager.py:139-153 | The merged record has the upper-cased symbol as symbol and name; every other field is the first provider value, with type `CS` when no record exists. |
| Manager.MergeRecord | src/marketdata/manager.py:147-150 | The field loop computes the one-record merge. |
| Manager.TradingDatesDispatch | src/marketdata/manager.py:172-177 | The first calendar-capable provider answers; with none, the built-in NYSE calendar does. |
| Manager.MarketDataManager.constructor | src/marketdata/manager.py:35-64 | The cache is a disk cache for `parquet`, a memory cache of capacity 1000 for `memory`, otherwise none. |
| Manager.MarketDataManager.CacheGetBars | src/marketdata/manager.py:81 | The selected backend answers the read. |
| Manager.MarketDataManager.CacheStoreBars | src/marketdata/manager.py:105 | The selected backend performs the store. |
| Manager.MarketDataManager.GetBars | src/marketdata/manager.py:68-117 | Cache state, result and invoked providers follow the reference `get_bars` transition. |
| Manager.MarketDataManager.GetQuote | src/marketdata/manager.py:121-123 | The reference chain over the quote-capable providers. Also covers lines 189-208 of that file. |
| Manager.MarketDataManager.GetQuotes | src/marketdata/manager.py:125-127 | Quotes for each symbol in order, or the first exception. |
| Manager.MarketDataManager.GetSnapshot | src/marketdata/manager.py:131-132 | The reference chain over the snapshot-capable providers. |
| Manager.MarketDataManager.GetSnapshots | src/marketdata/manager.py:134-135 | Snapshots for each symbol in order, or the first exception. |
| Manager.MarketDataManager.GetEarnings | src/marketdata/manager.py:157-158 | The reference chain over the earnings-capable providers, default limit 4. |
| Manager.MarketDataManager.GetDividends | src/marketdata/manager.py:162-163 | The reference chain over the dividend-capable providers, default limit 12. |
| Manager.MarketDataManager.GetCorporateActions | src/marketdata/manager.py:167-168 | The reference chain over the corporate-action-capable providers. |
| Manager.MarketDataManager.GetTickerInfo | src/marketdata/manager.py:139-153 | The merged record of the capable providers' answers. |
| Manager.MarketDataManager.GetTradingDates | src/marketdata/manager.py:172-177 | The first calendar provider's answer, else the built-in calendar. |
| Manager.MarketDataManager.ClearCache | src/marketdata/manager.py:181-182 | The backend's `clear(symbol)`. |
| Manager.MarketDataManager.ClearAllCache | src/marketdata/manager.py:184-185 | The backend's `clear_all()`. |
| Calendar.WeekendObservedMeaning | src/marketdata/calendar.py:45-60 | A fixed-date holiday on Saturday is observed on Friday and on Sunday on Monday; the observed day is always a weekday within one day of the date. |
| Calendar.ObservedShift | src/marketdata/calendar.py:45-60 | Independence Day and Christmas move to the neighbouring weekday exactly when they fall on a weekend. |
| Calendar.JuneteenthShift | src/marketdata/calendar.py:33-42 | Before 2022 Juneteenth is the sentinel date; from 2022 it is June 19 moved off the weekend. |
| Calendar.NewYearsShift | src/marketdata/calendar.py:26-30 | New Year's Day moves to Monday January 2 only when January 1 is a Sunday; a Saturday New Year is not observed on the prior Friday. |
| Calendar.NthWeekdayMeaning | src/marketdata/calendar.py:65-71 | The n-th given weekday of a month (n at most 4) falls on day `1 + delta + 7(n-1)` of that month and has that weekday. |
| Calendar.LastDayOfMeaning | src/marketdata/calendar.py:76-79 | The day before the first of the next month is the last day of the month. |
| Calendar.LastWeekdayMeaning | src/marketdata/calendar.py:74-81 | The last given weekday of a month has that weekday and lies in the month's final seven days. |
| Calendar.EasterSum | src/marketdata/calendar.py:96-105 | The anonymous Gregorian algorithm's `h + l - 7m + 114` lies in 114..148: the week's correction never takes it below March 22 nor leaves it past April 25. |
| Calendar.EasterMonthDay | src/marketdata/calendar.py:105-107 | Easter falls on a valid date from March 22 to April 25 (so `date(year, month, day)` never raises). |
| Calendar.ThanksgivingThursday | src/marketdata/calendar.py:121-123 | Thanksgiving is a Thursday. |
| Calendar.HalfDaySetWeekdays | src/marketdata/calendar.py:147-166 | Every half day of the set is a weekday. |
| Calendar.HalfDaysAreWeekdays | src/marketdata/calendar.py:147-166 | Every NYSE half day is a weekday. |
| Calendar.JuneteenthFrom2022 | src/marketdata/calendar.py:33-42 | June 19 is never a holiday before 2022; from 2022 the observed Juneteenth is one. Also covers lines 126-142 of that file. |
| Calendar.SentinelHidesFirstNewYear | src/marketdata/calendar.py:140-141 | Discarding the sentinel also removes 0001-01-01 when it is New Year's Day of year 1. Also covers lines 36 of that file. |
| Calendar.Holidays2024 | src/marketdata/calendar.py:126-142 | The 2024 holidays are the ten expected dates, Good Friday being March 29. |
| Calendar.HalfDays2024 | src/marketdata/calendar.py:147-166 | The 2024 half days are July 3, November 29 and December 24. |
| Calendar.TradingDay2024 | src/marketdata/calendar.py:181-183 | A 2024 date is a trading day iff it is a weekday and not a 2024 holiday. |
| Calendar.MlkDay2024Closed | src/marketdata/calendar.py:181-183 | January 15 2024 is not a trading day. Also covers lines 84-86 of that file. |
| Calendar.DaysInMeaning | src/marketdata/calendar.py:186-194 | The collected days are exactly those in the range that pass the test, strictly ascending. |
| Calendar.CollectDays | src/marketdata/calendar.py:188-194 | The date loop computes the reference day list, raising `OverflowError` when it steps past the last date. |
| Calendar.FindNext | src/marketdata/calendar.py:247-249 | The search loop computes the first later day that passes the test. |
| Calendar.NextAfterMeaning | src/marketdata/calendar.py:247-249 | The day found is later, passes the test, and no day in between does. |
| Calendar.NextAfterRaises | src/marketdata/calendar.py:247-249 | The search raises `OverflowError` only when no later day passes the test. |
| Calendar.GetTradingDates | src/marketdata/calendar.py:186-194 | `get_trading_dates` computes the reference trading-day list. |
| Calendar.TradingDatesMeaning | src/marketdata/calendar.py:186-194 | The list holds exactly the trading days of `[start, end]` in ascending order; an empty range gives `[]`; it raises only when `end` is the last representable date. |
| Calendar.MarketCloseTime | src/marketdata/calendar.py:202-206 | Close is 13:00 exactly on half days and 16:00 otherwise. |
| Calendar.SessionLength | src/marketdata/calendar.py:197-206 | Every day's session opens before it closes, lasting six and a half hours, or three and a half on an early-close day. |
| Calendar.MarketOpenMeaning | src/marketdata/calendar.py:209-227 | The market is open iff the date is a trading day and the time lies within the session's length after 9:30; on a trading day it is open at the open and closed at the close. |
| Calendar.NextMarketOpen | src/marketdata/calendar.py:230-250 | The method computes the reference next open. |
| Calendar.NextOpenMeaning | src/marketdata/calendar.py:242-250 | The next open is today when today is a trading day before 9:30, else the first later trading day; it raises only when there is none. |
| Calendar.NextOpenOpens | src/marketdata/calendar.py:209-250 | The market is open at the next open; while it is open, the next open falls on a later day. |
| Earnings.ParseCallTime | src/marketdata/earnings_calendar.py:26-33 | `EarningsCallTime(value)` succeeds only on a member's value and returns that member. Also covers lines 172 of that file. |
| Earnings.ParseCallTimeValue | src/marketdata/earnings_calendar.py:154-172 | Every call time's value parses back to it. |
| Earnings.ReactionDay | src/marketdata/earnings_calendar.py:45-52 | The reaction day is the earnings date plus one exactly for AMC, and the earnings date otherwise. |
| Earnings.NoEarnings | src/marketdata/earnings_calendar.py:64-71 | `no_earnings()` has a false flag and every optional field `None`. |
| Earnings.FirstWhere | src/marketdata/earnings_calendar.py:100-102 | The first index whose element passes the test, or none when no element does. Also covers lines 140-142 of that file. |
| Earnings.LastWhere | src/marketdata/earnings_calendar.py:110-112 | The last index whose element passes the test, or none when no element does. |
| Earnings.FilterLast | src/marketdata/earnings_calendar.py:110-112 | `past_events[-1]` is the last event of the list that passes the filter; the filter is empty iff none does. |
| Earnings.InsertSorted | src/marketdata/earnings_calendar.py:89-93 | After `add_event` the symbol's list is non-decreasing by date. |
| Earnings.InsertPermutes | src/marketdata/earnings_calendar.py:89-93 | After `add_event` the list is the old list plus the new event, as a multiset. |
| Earnings.InsertKeepsSameDayOrder | src/marketdata/earnings_calendar.py:93 | The sort is stable: events on one date keep insertion order, the new one last. |
| Earnings.InsertLatest | src/marketdata/earnings_calendar.py:92-93 | An event no earlier than every listed one is appended at the end. |
| Earnings.AddAllSorted | src/marketdata/earnings_calendar.py:166-176 | Adding an already-sorted list one by one to a list that precedes it reproduces the concatenation. |
| Earnings.AddKeepsWellFormed | src/marketdata/earnings_calendar.py:89-93 | `add_event` keeps every symbol's list non-empty, sorted and filed under its own symbol. |
| Earnings.UnknownSymbolContext | src/marketdata/earnings_calendar.py:96-97 | An unknown symbol has the no-earnings context. |
| Earnings.ContextReactionDay | src/marketdata/earnings_calendar.py:100-108 | The context is a reaction day iff some event's reaction day is the trading date. |
| Earnings.ContextFirstHit | src/marketdata/earnings_calendar.py:100-108 | On a reaction day the context carries the first matching event, with zero days since. |
| Earnings.ContextMostRecent | src/marketdata/earnings_calendar.py:110-119 | Otherwise it carries the last event in list order whose reaction day is earlier, with a positive day count. |
| Earnings.ContextNoneYet | src/marketdata/earnings_calendar.py:110-121 | With every reaction day later than the trading date, the context is no-earnings. |
| Earnings.ReactionDaysIn | src/marketdata/earnings_calendar.py:127-132 | There are at most as many reaction days as events. |
| Earnings.ReactionDaysInMeaning | src/marketdata/earnings_calendar.py:127-132 | A day is listed iff it lies in `[start, end]` and is some event's reaction day. |
| Earnings.DaysUntilFirstAfter | src/marketdata/earnings_calendar.py:140-146 | Only the first event with a later reaction day counts: its distance if within the window, else `None`. |
| Earnings.DaysUntilNoneAfter | src/marketdata/earnings_calendar.py:147 | With no later reaction day the answer is `None`. |
| Earnings.DaysUntilBounds | src/marketdata/earnings_calendar.py:140-146 | A returned distance is positive and at most the window. |
| Earnings.ParseAll | src/marketdata/earnings_calendar.py:166-176 | Parsing a list of records succeeds with one event per record or not at all. |
| Earnings.ParseAllSnoc | src/marketdata/earnings_calendar.py:167-176 | Parsing one more record extends the parsed list, or fails. |
| Earnings.ParseAllPrefix | src/marketdata/earnings_calendar.py:167-176 | When a list parses, so does each prefix. |
| Earnings.ParseAllInverse | src/marketdata/earnings_calendar.py:149-177 | Records that each parse to the matching event parse to the whole list. |
| Earnings.AddAllSnoc | src/marketdata/earnings_calendar.py:167-176 | Adding one more event is one more `add_event`. |
| Earnings.LoadedStep | src/marketdata/earnings_calendar.py:166-176 | Loading one more symbol's records adds them to that symbol only; an empty list creates no entry. |
| Earnings.RecordRoundTrip | src/marketdata/earnings_calendar.py:152-175 | A written event record reads back as the same event. |
| Earnings.ReadBackSymbol | src/marketdata/earnings_calendar.py:149-177 | A symbol's sorted events, written and read back, are the same list in the same order. |
| Earnings.FromDictOf | src/marketdata/earnings_calendar.py:164-177 | `from_dict` builds exactly the event lists its records parse to, when each is non-empty and already sorted. |
| Earnings.FromDictToDict | src/marketdata/earnings_calendar.py:149-177 | `from_dict(to_dict(c))` has the same events per symbol in the same order. |
| Earnings.EarningsCalendar.constructor | src/marketdata/earnings_calendar.py:86 | A new calendar has no events. |
| Earnings.EarningsCalendar.AddEvent | src/marketdata/earnings_calendar.py:89-93 | The symbol's list becomes the stable sorted insertion of the event; other symbols are unchanged. |
| Earnings.EarningsCalendar.GetContext | src/marketdata/earnings_calendar.py:95-121 | The loops compute the reference context. |
| Earnings.EarningsCalendar.GetReactionDays | src/marketdata/earnings_calendar.py:123-132 | The loop computes the reference list of reaction days in range. |
| Earnings.EarningsCalendar.GetDaysUntilEarnings | src/marketdata/earnings_calendar.py:134-147 | The loop computes the reference distance, `None` for an unknown symbol. |
| Earnings.LoadStep | src/marketdata/earnings_calendar.py:167-176 | Adding one more record's event equals adding the longer list. |
| Earnings.AddRecords | src/marketdata/earnings_calendar.py:167-176 | The inner loop succeeds iff every record parses, and then adds the parsed events to the symbol. |
| Earnings.LoadDict | src/marketdata/earnings_calendar.py:163-177 | `from_dict` succeeds iff every record parses, and builds the reference calendar. |
| EnvFile.Unquote | src/marketdata/provider_settings.py:352-353 | A value that starts and ends with a quote character loses both ends; any other value is kept. |
| EnvFile.ReadEnvFile | src/marketdata/provider_settings.py:337-355 | The line loop computes the reference environment of the file. |
| EnvFile.LastDefinitionSnoc | src/marketdata/provider_settings.py:341-354 | A later definition of a key overrides earlier ones. |
| EnvFile.LastValueConcat | src/marketdata/provider_settings.py:341-354 | In a concatenation the second part's definition wins. |
| EnvFile.ReadLinesLastWins | src/marketdata/provider_settings.py:341-354 | A key is read iff some line defines it, and its value is that of the last such line. |
| EnvFile.ReadEnvLastWins | src/marketdata/provider_settings.py:337-355 | The same for the `.env` reader's own line parser. |
| EnvFile.EntryParses | src/marketdata/provider_settings.py:342-354 | A written `KEY=value` line reads back as the key and the unquoted value. Also covers lines 385 of that file. |
| EnvFile.QuotedEntryParses | src/marketdata/provider_settings.py:352-353 | A double-quoted value reads back without its quotes. |
| EnvFile.ExportIgnored | src/marketdata/provider_settings.py:345-346 | The reader treats `export KEY=value` like `KEY=value`. |
| EnvFile.UpdateKeys | src/marketdata/provider_settings.py:371 | The update dictionary has one key per entry. |
| EnvFile.Pop | src/marketdata/provider_settings.py:382 | `remaining.pop(key)` keeps only entries that were there. |
| EnvFile.PopOthers | src/marketdata/provider_settings.py:382 | `pop` removes exactly the key and leaves the other entries' values. |
| EnvFile.ApplyUpdatesAt | src/marketdata/provider_settings.py:357-362 | After the updates an updated key holds its new value or is absent when cleared; any other key is unchanged. |
| EnvFile.AppendRemaining | src/marketdata/provider_settings.py:387-390 | The tail loop appends `KEY=value` for each remaining non-`None` update, in order. |
| EnvFile.WriteEnvFile | src/marketdata/provider_settings.py:366-393 | The writer loop computes the reference output lines. |
| EnvFile.WriteKeyOfEntry | src/marketdata/provider_settings.py:378 | The writer keys a `KEY=value` line by `KEY`. |
| EnvFile.WriteKeepsOtherLines | src/marketdata/provider_settings.py:373-381 | Lines of keys not being updated, comments and blank lines survive in order. |
| EnvFile.WriteReplacesFirst | src/marketdata/provider_settings.py:378-385 | The first line of an updated key is replaced by `KEY=value`, or dropped for `None`. |
| EnvFile.WriteAppendsAbsent | src/marketdata/provider_settings.py:387-390 | Updated keys that no line defines are appended at the end. |
| EnvFile.ApplyOne | src/marketdata/provider_settings.py:362 | Setting one key assigns it in the environment. |
| EnvFile.ApplyClear | src/marketdata/provider_settings.py:360 | Clearing a key removes it from the environment. |
| EnvFile.WriteFirstOfTwo | src/marketdata/provider_settings.py:373-385 | With two lines for one key, only the first is rewritten. |
| EnvFile.WriteEnvLosesUpdate | src/marketdata/provider_settings.py:373-385 | Updating a key defined on two lines leaves the second line, so the file reads back the old value, not the update. |
| EnvFile.WriteKeyOfExport | src/marketdata/provider_settings.py:378 | The writer keys an `export KEY=value` line by `export KEY`, unlike the reader. |
| EnvFile.WriteKeepsExportLine | src/marketdata/provider_settings.py:373-381 | Clearing a key defined by an `export` line leaves that line. |
| EnvFile.WriteEnvMissesExport | src/marketdata/provider_settings.py:378-384 | A cleared key defined by an `export` line still reads back from the file. Also covers lines 345-346 of that file. |
| EnvFile.EmitLast | src/marketdata/provider_settings.py:383-385 | The corrected writer's replacement line reads back as the update. |
| EnvFile.AppendedLast | src/marketdata/provider_settings.py:387-390 | The appended lines read back as the remaining updates. |
| EnvFile.FixedMergeLast | src/marketdata/provider_settings.py:373-390 | Each key reads back from the corrected writer's output as the update if updated, else as before. |
| EnvFile.WriteEnvFixedReadsBack | src/marketdata/provider_settings.py:357-393 | The corrected writer's file reads back as the old file's environment with the updates applied, for updates of names to plain values (no whitespace at the ends, no enclosing quotes, no line-break character). |
| Settings.PersistUpdates | src/marketdata/provider_settings.py:357-364 | Persisting updates of names to plain values (no whitespace at the ends, no enclosing quotes, no line-break character) with the corrected writer makes the file read back as the updated environment. |
| Settings.Stars | src/marketdata/provider_settings.py:289-290 | `'*' * n` is `n` stars. |
| Settings.MaskValue | src/marketdata/provider_settings.py:284-290 | The mask has the value's length; values of at most four characters are all stars; longer ones keep the first two and last two characters and star the rest. |
| Settings.MaskRevealsOnlyEnds | src/marketdata/provider_settings.py:284-290 | Two values of equal length that agree on their first two and last two characters have the same mask. |
| Settings.NormalizeProvider | src/marketdata/provider_settings.py:275-282 | A provider name is accepted iff, stripped and lower-cased, it is a key of the provider table, and then that key is the result; otherwise the error names the original input. |
| Settings.OrderKeysParts | src/marketdata/provider_settings.py:303-304 | The order's raw keys are the comma-separated parts, stripped and lower-cased. |
| Settings.FirstPos | src/marketdata/provider_settings.py:303-306 | The first position of an element. |
| Settings.FirstKnownUpTo | src/marketdata/provider_settings.py:302-306 | After each part, the order holds each known provider seen so far once, in first-occurrence order. |
| Settings.FirstKnownMeaning | src/marketdata/provider_settings.py:302-306 | The parsed order is duplicate-free, in first-occurrence order, and empty iff no known provider is named. |
| Settings.PickKnown | src/marketdata/provider_settings.py:302-306 | The loop computes the parsed order. |
| Settings.DefaultOrderKnown | src/marketdata/provider_settings.py:64 | The default order is duplicate-free and made of known providers. |
| Settings.OrderFromEnvMeaning | src/marketdata/provider_settings.py:299-309 | The provider order is non-empty, duplicate-free and known; it is the named providers in first-occurrence order, or the default when the variable is blank or names none. |
| Settings.ProviderOrderFromEnv | src/marketdata/provider_settings.py:299-309 | The method computes the reference order. |
| Settings.RemoveFirst | src/marketdata/provider_settings.py:326-329 | `list.remove` drops one element when present and leaves the list alone otherwise. |
| Settings.InsertAt | src/marketdata/provider_settings.py:331 | `list.insert(i, x)` puts `x` at `i` with the rest shifted. |
| Settings.Clamp | src/marketdata/provider_settings.py:330 | `min(max(p, 0), n)` clamps `p` into `[0, n]`. |
| Settings.ApplyOrderUpdate | src/marketdata/provider_settings.py:315-335 | The updated order is never empty. |
| Settings.RemoveFirstDistinct | src/marketdata/provider_settings.py:326-329 | Removing from a duplicate-free list removes the element entirely and keeps the others. |
| Settings.RemoveFirstOthers | src/marketdata/provider_settings.py:326-329 | Removing an element keeps the others in order. |
| Settings.InsertAtDistinct | src/marketdata/provider_settings.py:331 | Inserting a new element keeps the list duplicate-free. |
| Settings.InsertAtOthers | src/marketdata/provider_settings.py:331 | Inserting an element keeps the others in order. |
| Settings.OrderUpdateDistinct | src/marketdata/provider_settings.py:315-335 | The order update keeps the order duplicate-free. |
| Settings.OrderUpdateEnables | src/marketdata/provider_settings.py:323-324 | Enabling puts the provider in the order. |
| Settings.OrderUpdateDisables | src/marketdata/provider_settings.py:325-334 | Disabling removes the provider, falling back to the default order when nothing remains. |
| Settings.OrderUpdatePlaces | src/marketdata/provider_settings.py:328-331 | A priority puts the provider at the clamped 1-based position and keeps the others in order. |
| Settings.Get | src/marketdata/provider_settings.py:157-158 | `payload.get(key)` is something other than `None` iff the key is present with a non-null value, and is then the payload's value for the key. |
| Settings.OrEmpty | src/marketdata/provider_settings.py:159-160 | `payload.get(key, empty) or empty` is the empty default or a truthy stored value. |
| Settings.AsInt | src/marketdata/provider_settings.py:165 | `isinstance(x, int)` holds exactly for integers and booleans. |
| Settings.EnvVarOf | src/marketdata/provider_settings.py:173-187 | A field name has an environment variable iff the provider declares such a field, and it is that field's variable. |
| Settings.PutMeaning | src/marketdata/provider_settings.py:180-188 | A dictionary assignment keeps keys distinct, keeps an existing key's position, appends a new key, and sets only that key. |
| Settings.ValueRequests | src/marketdata/provider_settings.py:174-180 | The `values` loop requests `str(value)` for each entry in order. |
| Settings.ClearRequests | src/marketdata/provider_settings.py:182-188 | The `clear` loop requests `None` for each name in order. |
| Settings.FirstUnknown | src/marketdata/provider_settings.py:174-188 | The first request naming an undeclared field, or none when all are declared. |
| Settings.StagedMeaning | src/marketdata/provider_settings.py:172-188 | Staging fails iff some request names an undeclared field, with the first such field in the error; otherwise each variable holds its last requested value. |
| Settings.FirstUnknownSnoc | src/marketdata/provider_settings.py:174-188 | One more request keeps an earlier unknown field or may become the first. |
| Settings.ValidateUpdateRejects | src/marketdata/provider_settings.py:153-166 | An unknown provider, a non-boolean `enabled`, or a `priority` that is `False`, below 1 or not an integer is refused with its own error. |
| Settings.ValidateUpdateAccepts | src/marketdata/provider_settings.py:153-170 | An accepted update has the normalised known provider, a priority of at least 1 when given, `values` an object and `clear` a list of strings. |
| Settings.ValidateUpdateFields | src/marketdata/provider_settings.py:172-188 | A well-shaped payload is refused iff some field is undeclared; otherwise the updates give each variable its last requested value. |
| Settings.LastForOwnVars | src/marketdata/provider_settings.py:173-179 | Only the provider's own variables are updated. |
| Settings.NewOrder | src/marketdata/provider_settings.py:193-200 | The new order is non-empty and made of known providers. |
| Settings.OrderUpdates | src/marketdata/provider_settings.py:311-313 | Setting the order updates only `MARKET_DATA_PROVIDERS`. |
| Settings.ApplyOrderUpdateKnown | src/marketdata/provider_settings.py:315-335 | An update of a known order by a known provider gives a known order. |
| Settings.NamesCanonical | src/marketdata/provider_settings.py:37-62 | Provider names are their own stripped lower-case form and contain no comma. Also covers lines 304 of that file. |
| Settings.FirstKnownOfKnown | src/marketdata/provider_settings.py:302-306 | Parsing a duplicate-free list of known names gives it back. |
| Settings.OrderRoundTrip | src/marketdata/provider_settings.py:299-313 | Writing a non-empty, duplicate-free, known order and reading it back gives the same order. |
| Settings.UpdateWritesOrder | src/marketdata/provider_settings.py:193-201 | The written order is duplicate-free, reads back unchanged, and contains the provider when enabling. |
| Settings.StageUpdates | src/marketdata/provider_settings.py:172-188 | The loops compute the reference staging. |
| Settings.StagedStops | src/marketdata/provider_settings.py:176-186 | The first unknown field stops staging; later requests do not matter. |
| IbDividends.Preorder | src/marketdata/providers/ib.py:253 | `root.iter()` visits the root first, then every descendant in document order. |
| IbDividends.LocalName | src/marketdata/providers/ib.py:359 | `tag.rsplit("}", 1)[-1]` is the longest suffix of the tag without `}`. |
| IbDividends.CleanTagMeaning | src/marketdata/providers/ib.py:356-359 | `_clean_tag` is the lower-cased local name of the tag. |
| IbDividends.CleanTagNoBrace | src/marketdata/providers/ib.py:356-359 | A cleaned tag holds no `}`. |
| IbDividends.CleanTagIdempotent | src/marketdata/providers/ib.py:356-359 | Cleaning twice is cleaning once; a tag without a namespace is only lower-cased. |
| IbDividends.FieldForMeaning | src/marketdata/providers/ib.py:380-395 | A cleaned tag feeds a dividend field iff it is in that field's tag set. Also covers lines 344-354 of that file. |
| IbDividends.ReadOfMeaning | src/marketdata/providers/ib.py:374-376 | A child is read as its stripped text (empty when it has none) and names field `f` exactly when its cleaned tag is in `f`'s tag set. |
| IbDividends.FlatConcat | src/marketdata/providers/ib.py:373-374 | Reading the children of two runs of containers is reading those of the first run, then of the second. |
| IbDividends.ContainerKidsMeaning | src/marketdata/providers/ib.py:368-371 | The nested containers are exactly the children tagged `detail`, `eventbody` or `dividenddetail`. |
| IbDividends.Containers | src/marketdata/providers/ib.py:367-371 | The element itself is searched first. |
| IbDividends.ExtractDividendFields | src/marketdata/providers/ib.py:361-397 | The container and child loops compute the reference field dictionary. |
| IbDividends.ReadChild | src/marketdata/providers/ib.py:375-395 | One child fills its field with its stripped text when the text is non-empty and the field is still empty. |
| IbDividends.ReadContainers | src/marketdata/providers/ib.py:373-395 | The outer loop reads every container's children in order. |
| IbDividends.ReadChildren | src/marketdata/providers/ib.py:374-395 | The inner loop reads one container's children in order. |
| IbDividends.FirstMatchSnoc | src/marketdata/providers/ib.py:380-395 | A later child matters for a field only when no earlier child filled it. |
| IbDividends.AbsorbField | src/marketdata/providers/ib.py:380-395 | A filled field keeps its value; an empty field is filled exactly by a matching child with non-empty text. |
| IbDividends.FieldsFirstMatch | src/marketdata/providers/ib.py:373-397 | A field is present iff some child with non-empty text has a matching tag, and its value is the first such child's text. |
| IbDividends.PruneKids | src/marketdata/providers/ib.py:365-371 | Pruning keeps containers and their direct children and drops grandchildren. |
| IbDividends.Leaves | src/marketdata/providers/ib.py:374 | Children are read without their own children. |
| IbDividends.SameContainerItems | src/marketdata/providers/ib.py:368-375 | Children that agree on tags and whose own children agree on tag and text select the same containers, whose children agree in turn. |
| IbDividends.FieldsAlike | src/marketdata/providers/ib.py:374-395 | Children that agree position by position on tag and text give the same fields. |
| IbDividends.VisitedAlike | src/marketdata/providers/ib.py:365-375 | Dropping the grandchildren's own children leaves the visited children's tags and texts as they were. |
| IbDividends.DeeperIgnored | src/marketdata/providers/ib.py:365-371 | Elements more than one container level below the record leave the visited tags and texts, and so the fields, unchanged. |
| IbDividends.FirstParseMeaning | src/marketdata/providers/ib.py:399-409 | A date parses iff some format accepts it, and the result is the first accepting format's. |
| IbDividends.FreqMap | src/marketdata/providers/ib.py:196-200 | Exactly the seven frequency words map, to 12, 4, 2 or 1. Also covers lines 278-279 of that file. |
| IbDividends.DividendKind | src/marketdata/providers/ib.py:281-282 | The type is `special` iff the lower-cased type text contains `special`, else `regular`. |
| IbDividends.EventOf | src/marketdata/providers/ib.py:265-294 | A record yields an event iff its ex-date parses and its amount is present and parses; the event has the upper-cased symbol, the parsed amount, the currency defaulting to USD, the mapped frequency and the type, the parsed ex-date, and the record, pay and declaration dates each parsed from its own field (none when absent or unparsable). |
| IbDividends.DividendsFromReport | src/marketdata/providers/ib.py:229-296 | The loop over all elements computes the reference report events; a missing or unparsable report gives none. |
| IbDividends.ReportEventsMeaning | src/marketdata/providers/ib.py:253-294 | Every event comes from a dividend record, and every record whose event builds contributes it. |
| IbDividends.TickEvents | src/marketdata/providers/ib.py:313-338 | The tick yields at most one event: regular, in USD, for the upper-cased symbol. |
| IbDividends.TickRoundTrip | src/marketdata/providers/ib.py:316-336 | A tick string `past,next,date,amount` yields the event with that date and amount. |
| IbDividends.GetDividends | src/marketdata/providers/ib.py:202-227 | The method computes the reference outcome: report events sorted and truncated, else the tick's; a connection failure is a retryable provider error unless it is already a market-data error. |
| IbDividends.DividendsMeaning | src/marketdata/providers/ib.py:209-219 | With report events the result is their permutation sorted latest ex-date first, stable, truncated to `limit`, whatever the tick says; without them it is the tick's event truncated. |
| Mock.TimeframeMinutes | src/marketdata/providers/mock.py:177-180 | The bar length is 1, 5, 15, 60 or 390 minutes, and 1 for any unknown timeframe. |
| Mock.DayBars | src/marketdata/providers/mock.py:153-171 | A weekday has `390 // minutes` bars, the `i`-th being the synthetic bar of slot `i`. |
| Mock.GenerateBars | src/marketdata/providers/mock.py:132-175 | The date loop computes the reference synthetic series. |
| Mock.SlotInSession | src/marketdata/providers/mock.py:154-157 | Every slot begins and ends within the 390-minute session. |
| Mock.DayBarsShape | src/marketdata/providers/mock.py:149-171 | A day's bars are consistent, positive, on that date and `minutes` apart. |
| Mock.GeneratedShape | src/marketdata/providers/mock.py:144-173 | Every generated bar lies in the range and is well formed; the series advances in steps. |
| Mock.GeneratedCount | src/marketdata/providers/mock.py:144-173 | The series has `390 // minutes` bars per weekday of the range. |
| Mock.CalmCloses | src/marketdata/providers/mock.py:158-167 | No close moves more than 10% from the previous close. |
| Mock.SoundBars | src/marketdata/providers/mock.py:158-168 | No bar has negative volume or inconsistent prices. |
| Mock.Unbroken | src/marketdata/providers/mock.py:154-157 | With bars at most five minutes long, timestamps strictly increase and no intraday gap exceeds five minutes. |
| Mock.GeneratedPassesValidation | src/marketdata/providers/mock.py:132-175 | A non-empty synthetic series of bars at most five minutes long passes every quality check. |
| Mock.OneMinuteSeriesPasses | src/marketdata/providers/mock.py:132-175 | The default one-minute synthetic series, when non-empty, passes validation. Also covers lines 59-72 of that file. |
| Mock.GetTradingDates | src/marketdata/providers/mock.py:114-122 | The loop computes the reference weekday list. |
| Mock.TradingDatesMeaning | src/marketdata/providers/mock.py:144-173 | The mock calendar lists exactly the weekdays of the range in order, and the synthetic series has `390 // minutes` bars for each. Also covers lines 114-122 of that file. |
| Mock.FilterIsSublist | src/marketdata/providers/mock.py:68-71 | A filtered list keeps its elements in order. |
| Mock.DefaultQuotePasses | src/marketdata/providers/mock.py:78-87 | The default quote passes `validate_quote`, its spread well under 10% of the midpoint. |
| Mock.MockProvider.constructor | src/marketdata/providers/mock.py:25-32 | A new mock holds no preset data. |
| Mock.MockProvider.SetBars | src/marketdata/providers/mock.py:36-37 | Presets bars under the upper-cased symbol and nothing else; any spelling of the symbol then finds them. |
| Mock.MockProvider.SetQuote | src/marketdata/providers/mock.py:39-40 | Presets the quote; `get_quote` then returns it for any spelling of the symbol. |
| Mock.MockProvider.SetSnapshot | src/marketdata/providers/mock.py:42-43 | Presets the snapshot, which `get_snapshot` then returns. |
| Mock.MockProvider.SetTickerInfo | src/marketdata/providers/mock.py:45-46 | Presets the ticker info, which `get_ticker_info` then returns. |
| Mock.MockProvider.SetEarnings | src/marketdata/providers/mock.py:48-49 | Presets earnings; `get_earnings` then returns their first `limit`. |
| Mock.MockProvider.SetDividends | src/marketdata/providers/mock.py:51-52 | Presets dividends; `get_dividends` then returns their first `limit`. |
| Mock.MockProvider.SetCorporateActions | src/marketdata/providers/mock.py:54-55 | Presets corporate actions, which `get_corporate_actions` then returns. |
| Mock.MockProvider.GetBars | src/marketdata/providers/mock.py:59-72 | Preset bars filtered to the range, else the synthetic series. |
| Mock.MockProvider.PresetBarsFiltered | src/marketdata/providers/mock.py:66-71 | With preset bars, the result is exactly those dated within the range, in their order. |
| Mock.MockProvider.GetQuote | src/marketdata/providers/mock.py:74-87 | Without a preset, the quote is for the upper-cased symbol, stamped now, and valid. |
| Mock.MockProvider.GetSnapshot | src/marketdata/providers/mock.py:89-94 | Without a preset, the snapshot wraps the default quote and has no bars or change. |
| Mock.MockProvider.GetTickerInfo | src/marketdata/providers/mock.py:96-100 | Without a preset, the info is `SYMBOL`, `SYMBOL Inc.`, type `CS`, every other field `None`. |
| Mock.MockProvider.GetEarnings | src/marketdata/providers/mock.py:102-104 | A prefix of the preset list of length `limit` (or all of it), empty without a preset. |
| Mock.MockProvider.GetDividends | src/marketdata/providers/mock.py:106-108 | A prefix of the preset list of length `limit` (or all of it), empty without a preset. |
| Mock.MockProvider.GetCorporateActions | src/marketdata/providers/mock.py:110-112 | Non-empty only with a preset. |
| Mock.MockProvider.AsProviderAnswers | src/marketdata/providers/mock.py:59-128 | As a provider, the mock has every capability and answers each request with its own method. |
| Polygon.ApiKey | src/marketdata/providers/polygon.py:46-52 | The key is the given one when non-empty, else the environment's; with neither, construction raises a non-retryable `AUTH_FAILED` error. |
| Polygon.CapabilitiesMeaning | src/marketdata/providers/polygon.py:68-72 | Polygon offers every capability except corporate actions. |
| Polygon.CheckResponse | src/marketdata/providers/polygon.py:472-489 | Status 429 is a retryable `RATE_LIMITED` error, 403 a non-retryable `AUTH_FAILED`, 404 a non-retryable `NOT_FOUND`; other 4xx and 5xx raise an HTTP error; anything else passes. |
| Polygon.Wrap | src/marketdata/providers/polygon.py:98-109 | A market-data error passes through unchanged; any other exception becomes a retryable `PROVIDER_ERROR`. Also covers lines 184-195, 327-338 and 390-401 of that file. |
| Polygon.WrapFeedsChain | src/marketdata/providers/polygon.py:98-109 | A wrapped call lets the manager move on iff it raised a non-market-data exception or a retryable market-data error. |
| Polygon.StatusDrivesRetry | src/marketdata/providers/polygon.py:472-489 | A failing status lets the manager move on iff it is a 4xx or 5xx other than 403 and 404. |
| Polygon.TfMap | src/marketdata/providers/polygon.py:76-82 | Exactly the five timeframes map, to a positive multiplier and a minute, hour or day span. |
| Polygon.BarOf | src/marketdata/providers/polygon.py:147-156 | The bar's timestamp is the whole UTC second the aggregate's Unix milliseconds `t` fall in, counted from 1970-01-01, so its date is 1970-01-01 plus the whole days of `t`; open, high, low, close, volume, vwap and trade count are the aggregate's. |
| Polygon.BarsRest | src/marketdata/providers/polygon.py:126-166 | The page loop computes the reference paging outcome. |
| Polygon.ConvertPage | src/marketdata/providers/polygon.py:146-156 | The record loop converts a page or raises at the first malformed record. |
| Polygon.ConvertAllMeaning | src/marketdata/providers/polygon.py:146-156 | A page converts iff every record is well formed, giving its bars in order. |
| Polygon.StopAt | src/marketdata/providers/polygon.py:158-164 | Paging stops at the first page without `next_url`. |
| Polygon.PagesFromMeaning | src/marketdata/providers/polygon.py:141-166 | Paging succeeds iff every page up to the stop is accepted, and returns their bars concatenated. |
| Polygon.BarsRestMeaning | src/marketdata/providers/polygon.py:126-166 | The same from the first page. |
| Polygon.GetBars | src/marketdata/providers/polygon.py:84-109 | The method computes the reference `get_bars` outcome. |
| Polygon.InvalidTimeframeStops | src/marketdata/providers/polygon.py:91-95 | An unknown timeframe raises a non-retryable `PROVIDER_ERROR` before any request, so the manager does not move on; every raise is a market-data error. |
| Polygon.CollectRecords | src/marketdata/providers/polygon.py:370-384 | The record loop keeps the events converted before the first failure, which the `except Exception: pass` swallows. Also covers lines 433-447 of that file. |
| Polygon.FirstFailure | src/marketdata/providers/polygon.py:370-384 | The index of the first record whose conversion raises, or the end. Also covers lines 433-447 of that file. |
| Polygon.CollectedMeaning | src/marketdata/providers/polygon.py:370-384 | The kept events are those of the records before the first failure. Also covers lines 433-447 of that file. |
| Polygon.FiscalQuarter | src/marketdata/providers/polygon.py:377 | A parsed fiscal quarter is a single digit. |
| Polygon.FiscalQuarterMeaning | src/marketdata/providers/polygon.py:373-377 | A period `Q` followed by a digit gives that digit; one starting with `Q` without a digit after it raises; any other gives `None`. |
| Polygon.OptionalDate | src/marketdata/providers/polygon.py:438-440 | An empty or missing date is `None`; a present one is its ISO parse. |
| Polygon.GetEarnings | src/marketdata/providers/polygon.py:359-385 | The method computes the reference earnings outcome. Also covers lines 326-338 of that file. |
| Polygon.EarningsMeaning | src/marketdata/providers/polygon.py:359-385 | Earnings raise only for status 429, 403 or 404; otherwise at most `limit` reports, those converted from the records before the first failing one, each built from one record as `EarningsFrom` states. Also covers lines 326-338 of that file. |
| Polygon.EarningsOfMeaning | src/marketdata/providers/polygon.py:371-379 | A record is skipped iff its filing date is falsy. Otherwise it raises iff the filing date does not parse, the fiscal period is not text (`null` or a number) or starts with `Q` without a digit after it, or a truthy fiscal year does not convert. Else the report has the upper-cased symbol, call time AMC, the parsed filing date, the digit after `Q` as quarter (none for an absent period or one not starting with `Q`), the fiscal year as `int()` of a truthy field (none when absent, null or zero), and nothing else. |
| Polygon.CollectedEarnings | src/marketdata/providers/polygon.py:370-384 | Every report the loop keeps satisfies `EarningsFrom` for some record. |
| Polygon.CollectedItems | src/marketdata/providers/polygon.py:370-384 | Every kept event comes from some record. Also covers lines 433-447 of that file. |
| Polygon.GetDividends | src/marketdata/providers/polygon.py:422-448 | The method computes the reference dividends outcome. Also covers lines 389-401 of that file. |
| Polygon.DividendOfMeaning | src/marketdata/providers/polygon.py:434-443 | A record's conversion raises iff a truthy date field does not parse, a present cash amount does not convert to a float, or a truthy frequency does not convert to an int. Otherwise the event has the upper-cased symbol and USD, the ex-date or today, the cash amount or 0, the record's type or `regular`, each optional date parsed or none when falsy, and the frequency as `int()` of a truthy field or none (an absent, null or zero frequency gives none). |
| Polygon.OptionalInt | src/marketdata/providers/polygon.py:442 | A falsy field (absent, null, zero or empty text) gives none; a truthy one gives its `int()`. Also covers line 378 of that file. |
| Polygon.IntOf | src/marketdata/providers/polygon.py:442 | `int()` of a JSON number truncates it toward zero, to within less than one; `int(None)` fails. |
| Polygon.FloatOf | src/marketdata/providers/polygon.py:437 | `float()` of a JSON number is the number itself; `float(None)` fails, so a null cash amount raises. |
| Polygon.DividendsMeaning | src/marketdata/providers/polygon.py:422-448 | Dividends raise only for status 429, 403 or 404; otherwise at most `limit` events, each converted from some record. Also covers lines 389-401 of that file. |
| Polygon.TradingDates | src/marketdata/providers/polygon.py:452-468 | Polygon's calendar is the built-in NYSE calendar, and a failure of the first attempt falls back to the same. |
| Common.Split | src/marketdata/provider_settings.py:303 | `str.split(sep)` gives at least one part, none containing the separator. |
| Common.JoinSplit | src/marketdata/provider_settings.py:303-312 | Joining the parts of a split gives the string back. |
| Common.SplitJoin | src/marketdata/provider_settings.py:303-312 | Splitting a join of separator-free parts gives the parts back. |
| Common.SliceTo | src/marketdata/providers/mock.py:104-108 | `s[:n]` is the first `n` elements, or all but the last `-n` for negative `n`. |
| Common.SortByPermutes | src/marketdata/earnings_calendar.py:93 | `list.sort(key=…)` permutes the list. |
| Common.SortBySorted | src/marketdata/earnings_calendar.py:93 | The sorted list is non-decreasing by key. |
| Common.SortByStable | src/marketdata/earnings_calendar.py:93 | Elements with equal keys keep their relative order. |
| Common.AppendThenSort | src/marketdata/earnings_calendar.py:92-93 | Appending to a sorted list and sorting inserts after the elements whose keys are not larger. |

## Left out

- Network and SDK access are not modelled: HTTP sessions, the Polygon SDK client paths (`_bars_sdk`, `_quote_sdk`, `_earnings_sdk`, `_dividends_sdk`, `_calendar_sdk`), `ib_insync` connection, `reqFundamentalData`, `reqMktData` and `ib.sleep`. Their answers are inputs: a `Reply`, a sequence of `Page`s, an `Element` tree or a tick string.
- `providers/alpaca.py`, `providers/finnhub.py`, the rest of `providers/ib.py` and the provider factory are not part of this model. A provider is a value holding its capability set and its answers.
- Polygon quote, snapshot and ticker-info record conversion (`_snap_to_quote`, `_quote_rest`, `_ticker_info_rest`) is not modelled, only the exception wrapping every Polygon method shares.
- `Polygon.BarsRest` requires the `next_url` chain to end within the given pages. A server that never stops paging is outside the model.
- JSON is modelled as a value, not text. Python truthiness is modelled only for the shapes the code tests (`None`, empty string, empty containers, zero).
- Floating point is modelled as exact reals. `round(…, 2)` in the mock's synthetic bars is not applied, because the quality checks on those bars hold either way. NaN and infinity are a `nonFinite` parameter.
- `date.fromisoformat` is modelled for the `YYYY-MM-DD` form only. `datetime.strptime` formats and `float()`/`int()` on text are parameters of the operations that use them.
- Python `str()` of a payload value is a parameter of the settings validation.
- `Polygon.FiscalQuarter`: treats only ASCII digits as digits, whereas `int()` also accepts other Unicode digits.
- XML parsing (`ET.fromstring`) is replaced by the `Element` tree. A parse error is an absent report.
- Time zones are not modelled. Timestamps are whole UTC seconds counted from 0001-01-01 00:00 (the Unix epoch 1970-01-01 is `Dates.UnixEpoch`), and the calendar's times of day are taken as already converted to US/Eastern.
- `os.environ` is not modelled. `_combined_env` and the `persist` flag are left out, and `Settings.NewOrder` takes the environment after the field updates as a parameter.
- `list_providers`, `test_provider`, the JSON state file (`_load_state`, `_save_state`, `updated_at`) and `_provider_snapshot` are not modelled; they only report.
- Error messages are modelled as fixed text. The text of the underlying exception that the source appends is left out, and the unsupported-field rejection names the field but not the provider.
- ValidationError (`Manager.ValidationError`): the failure message joins the names of the failed checks, whereas the source joins their `message` texts; which checks failed, and their order, are as in the source.
- FromUnixMillis (`Dates.FromUnixMillis`, used by `Polygon.BarOf`): keeps the whole second only, whereas `datetime.fromtimestamp` keeps microseconds; its range errors for times outside years 1 to 9999 are not modelled.
- Date fields of Polygon records (`filing_date`, `ex_dividend_date` and the other dividend dates) are text, absent or `null`; a truthy non-text value, for which `date.fromisoformat` raises `TypeError`, is not modelled.
- `EarningsContext.to_dict`, `save`/`load` file I/O, `EarningsFetcher` and `load_earnings_calendar` are not modelled. `from_dict`/`to_dict` are modelled on record values.
- `compat.py`, `config.py` defaults and `create_manager_from_env` are not part of this model. The manager is built from a provider list and a backend name.
- `Cache.KeyInjective` holds only when neither symbol nor timeframe contains the separator; `Cache.KeySeparatorCollision` shows that it fails otherwise. The memory cache keeps the source's string key.
- `ParquetCache` is a map from request to series. The file format, directories and the glob used by `clear` are not modelled.
- Upper, Lower (`Common.Upper`, `Common.Lower`): case mapping covers the ASCII letters only, whereas Python's `str.upper` and `str.lower` map every cased Unicode letter, some of them to several characters. Every use inherits this: the cache key (`Cache.Key`) and the prefix `clear` deletes by, the disk cache's key, the symbol and name the manager's ticker-info merge starts from, `Settings.NormalizeProvider`, `Settings.OrderKeys`, `IbDividends.CleanTag`, and the symbol upper-casing in `Mock`, `Polygon` and `IbDividends`.
- NormalizeProvider (`Settings.NormalizeProvider`): lowers ASCII letters only, so a name such as `"MOC\u212A"` (ending in the Kelvin sign), which Python lowers to `"mock"` and accepts, is rejected here as unknown.
- ReactionDay (`Earnings.ReactionDay`): for an AMC event on 9999-12-31 (`date.max`) the source raises `OverflowError`; the model returns the day number after `date.max` instead. `Earnings.Context`, `Earnings.ReactionDaysIn`, `Earnings.DaysUntilIn` and the calendar methods built on them inherit this.
- WriteEnvFixedReadsBack, PersistUpdates (`EnvFile.WriteEnvFixedReadsBack`, `Settings.PersistUpdates`): the `.env` file is modelled as its sequence of lines, and reading the text with `splitlines` and writing it back with `"\n".join` are not modelled. Both lemmas therefore promise the read-back only for values without a line-break character, which would split the written line in two.

## Findings

| source | as written | input that shows it | evidently intended | confidence | as-written member | corrected member |
|---|---|---|---|---|---|---|
| src/marketdata/provider_settings.py:366-393 | `_write_env_file` rewrites only the first line of an updated key and keys lines on the raw text before `=`, so a second definition of the key, or an `export KEY=` line, survives, while `_read_env_file` lets the last definition win and strips `export ` | `.env` lines `KEY=a` and `KEY=b`, updated with `KEY=c`: the file reads back `b`. Line `export KEY=a`, cleared: the file still reads back `a` | after the write, reading the file gives the old environment with the updates applied | not executed | EnvFile.WriteEnvLosesUpdate | EnvFile.WriteEnvFixedReadsBack |
