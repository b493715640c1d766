# BOB/USDT price tracker — a Dafny model

This project models the core of a small price tracker for the Binance P2P BOB/USDT
market. It has two halves:

- **The proxy server** (`proxy-server/server.js`). Once a minute it queries the BUY
  and SELL listings and reduces each side to a quote: the first parseable listing's
  price plus the highest and lowest parsed price. When both sides succeed it appends the pair to
  an in-memory history capped at 1000 records. It then pushes the newest pair to every
  open Server-Sent-Events connection. It also serves the newest pair and the whole
  history on request.
- **The dashboard.** Its parts:
  - a stream hook (`src/hooks/usePriceData.ts`) that appends every pushed pair to a
    1000-record history and mirrors it into localStorage;
  - the storage helpers (`src/lib/storage.ts`), which load the entry sorted by
    timestamp and save the newest 1000 records;
  - the current-price cards (`PriceTable.tsx`), showing the newest record of each
    trade type;
  - the history chart (`PriceChart.tsx`): a time-window filter, grouping of records
    into one row per locale time tag, y-axis extremes of a zoomed range, and a
    drag-to-zoom state machine;
  - the storage summary (`StorageInfo.tsx`);
  - the countdown to the next server update (`RefreshTimer.tsx`).

The modules follow the source files:

| module | file | models |
|---|---|---|
| `Common` | common.dfy | price record, `Array.prototype.slice`, the parse-then-filter idiom, `Math.min`/`Math.max` |
| `Server` | server.dfy | `server.js`; the mutable server state is the class `PriceServer` |
| `Storage` | storage.dfy | `storage.ts`, as pure functions from the old localStorage entry to the new one |
| `PriceStream` | price_stream.dfy | `usePriceData.ts`; the hook's state is the class `PriceFeed` |
| `PriceTable` | price_table.dfy | `PriceTable.tsx` |
| `PriceChart` | price_chart.dfy | `PriceChart.tsx`; the Map fill, the y-axis scan and its inner `forEach` are loop methods proved against specification functions |
| `StorageInfo` | storage_info.dfy | `StorageInfo.tsx` |
| `RefreshTimer` | refresh_timer.dfy | `RefreshTimer.tsx`; the timer state is the class `Countdown` |

Whatever the model cannot see becomes a parameter:

- the HTTP responses and `parseFloat` (as `parse`);
- the wall clock (`now`, `secondsPassed`);
- whether a localStorage write throws (`writable`);
- locale time and date formatting (`timeKey`, `format`);
- the length of the history's JSON text (`jsonLength`).

## Model

| member | source | states |
|---|---|---|
| Common.TakeLast | proxy-server/server.js:173 | `slice(-n)` returns the last n elements, or all of them when there are fewer; the result is a suffix of the input |
| Common.SliceWithin | src/components/PriceChart.tsx:115 | `slice(start, end)` with in-range indices is the plain subsequence |
| Common.SomesMembers | proxy-server/server.js:148 | parsing and then filtering out NaN keeps exactly the values of the entries that parse |
| Common.SomesEmpty | proxy-server/server.js:148-149 | the filtered list is empty exactly when no entry parses |
| Common.SomesFirst | proxy-server/server.js:148-152 | the first kept value comes from the first entry that parses |
| Common.SomesAppend | proxy-server/server.js:148 | the kept values of a concatenation are those of each part in turn, so filtering keeps input order |
| Common.SomesSnoc | src/components/PriceChart.tsx:121-122 | one more entry adds its value, if it has one, at the end |
| Common.Min | proxy-server/server.js:155 | `Math.min(...s)` is a member of s and no larger than any member |
| Common.Max | proxy-server/server.js:154 | `Math.max(...s)` is a member of s and no smaller than any member |
| Server.ParsePrices | proxy-server/server.js:148 | the parsed prices are empty iff no listing parses; the first one is the first parseable listing's; the prices are exactly the values of the parseable listings |
| Server.ParsePricesAppend | proxy-server/server.js:148 | parsing works listing by listing: one listing contributes its price if it parses and nothing otherwise, and batches concatenate, so unparseable listings are dropped and listing order is kept |
| Server.Aggregate | proxy-server/server.js:149-156 | no prices gives no quote; otherwise the price is the first sample, both range ends are samples, every sample lies within the range, and so does the price |
| Server.FetchPrice | proxy-server/server.js:116-162 | a failed request or one with no parseable listing gives null; otherwise the price is the first parseable listing's, and the range ends are the highest and lowest parseable listing prices (both attained, all others within) |
| Server.CyclePair | proxy-server/server.js:164-171 | a cycle produces records only when both sides succeed: BUY then SELL, one shared timestamp, and each side's price and range |
| Server.RetainKeepsNewest | proxy-server/server.js:173 | append-and-trim keeps min(total, 1000) records, drops the oldest first, drops nothing while under the cap, and keeps the records just appended |
| Server.Latest | proxy-server/server.js:193 | the latest payload is the last two records of the history, or the whole history when it is shorter |
| Server.LatestAfterCycle | proxy-server/server.js:173-177 | after a successful cycle the latest payload is exactly the pair just appended |
| Server.CycleKeepsOrder | proxy-server/server.js:167-173 | a cycle whose clock reading is not before any stored timestamp keeps the history in time order |
| Server.Broadcast | proxy-server/server.js:177 | an emission writes the payload once more to every listening connection and nothing to a closed one; the set of known connections is unchanged |
| Server.BroadcastKeepsConnections | proxy-server/server.js:177 | after an emission every known connection keeps its first frame and its id stays below the id counter |
| Server.PriceServer.constructor | proxy-server/server.js:110 | the server starts with an empty history and no connections |
| Server.PriceServer.Record | proxy-server/server.js:173-177 | the successful branch: the history becomes the trimmed append, every listener receives the new latest payload, and the connection set is unchanged |
| Server.PriceServer.FetchPrices | proxy-server/server.js:115-179 | a cycle changes nothing unless both sides yield a quote; if they do, it records the pair and broadcasts; the history stays within the cap |
| Server.PriceServer.Subscribe | proxy-server/server.js:187-204 | a new connection gets a fresh id, is written the current latest payload at once, and starts listening |
| Server.PriceServer.Unsubscribe | proxy-server/server.js:207-209 | closing a connection removes only its listener; history and frames already written are unchanged |
| Server.PriceServer.GetLatest | proxy-server/server.js:213-216 | the latest endpoint returns the last two records of the history |
| Server.PriceServer.GetHistory | proxy-server/server.js:219-221 | the history endpoint returns the whole history, at most 1000 records |
| Storage.InsertByTimeSorted | src/lib/storage.ts:12 | one insertion step of the stable sort keeps a time-ordered list time-ordered |
| Storage.InsertByTimePermutes | src/lib/storage.ts:12 | one insertion step adds exactly the inserted record |
| Storage.SortByTimeSorts | src/lib/storage.ts:12 | sorting by timestamp gives a time-ordered permutation of its input |
| Storage.SortOfSortedIsIdentity | src/lib/storage.ts:12 | sorting a list already in time order leaves it unchanged, because the sort is stable |
| Storage.Load | src/lib/storage.ts:6-17 | a missing, empty or unreadable entry loads as the empty history; a stored array loads as a time-ordered permutation of itself |
| Storage.Save | src/lib/storage.ts:19-27 | a successful save stores the newest 1000 records in their order, or all of them when there are fewer; a failed save leaves the entry as it was |
| Storage.Clear | src/lib/storage.ts:29-35 | a successful clear removes the entry, so loading then gives the empty history; a failed one leaves it unchanged |
| Storage.LoadAfterSave | src/lib/storage.ts:6-27 | loading what was just saved gives the newest min(n, 1000) records, time-ordered and as a permutation |
| Storage.LoadAfterSaveSorted | src/lib/storage.ts:6-27 | a time-ordered history of at most 1000 records loads back exactly as saved |
| PriceStream.MergeKeepsNewest | src/hooks/usePriceData.ts:16 | the merged history holds at most 1000 records, is the newest part of the old history followed by the new prices, and keeps the new prices at its end |
| PriceStream.SavedIsMerged | src/hooks/usePriceData.ts:16-17 | what a message saves is stored unchanged, because the merged history is already within the storage cap |
| PriceStream.PriceFeed.constructor | src/hooks/usePriceData.ts:6-8 | the hook starts from the loaded history, loading, with no error |
| PriceStream.PriceFeed.OnMessage | src/hooks/usePriceData.ts:13-21 | a message merges the new prices into the history, saves the merged history, and ends loading; the error is kept |
| PriceStream.PriceFeed.OnError | src/hooks/usePriceData.ts:23-27 | a stream error sets the fixed error message and ends loading; the history and the stored entry are unchanged |
| PriceTable.OfTypeAppend | src/components/PriceTable.tsx:14 | filtering by trade type distributes over concatenation |
| PriceTable.LatestOfTypeSnoc | src/components/PriceTable.tsx:14 | an appended record becomes the newest of its type; the other type's newest is unchanged |
| PriceTable.NoneOfType | src/components/PriceTable.tsx:14 | there is no newest record of a type exactly when no record has that type |
| PriceTable.LatestIsLastOfType | src/components/PriceTable.tsx:14 | the newest record of a type is the record at the last position that holds that type |
| PriceTable.SelectorsReadLastOfType | src/components/PriceTable.tsx:13-19 | both selectors read the last record of the type, and give the zero defaults when there is none |
| PriceTable.OtherTypeIgnored | src/components/PriceTable.tsx:13-19 | a record of the other type, wherever it stands, changes neither selector |
| PriceTable.AppendBecomesLatest | src/components/PriceTable.tsx:13-19 | an appended record is what both selectors show for its type; the other type's display is unchanged |
| PriceTable.View | src/components/PriceTable.tsx:58-72 | while loading only skeletons are shown; otherwise the BUY and SELL cards show the selectors' values |
| StorageInfo.RoundHours | src/components/StorageInfo.tsx:17 | `Math.round` of a duration in hours is within half an hour of the exact figure, with halves rounded up |
| StorageInfo.TimeSpanHours | src/components/StorageInfo.tsx:17 | fewer than two records give a zero span; otherwise the span is the first-to-last duration rounded to hours, and not negative for a time-ordered history |
| StorageInfo.KilobyteHundredths | src/components/StorageInfo.tsx:14 | `toFixed(2)` of the size in KB is the nearest hundredth, with halves rounded up |
| StorageInfo.StorageHighThreshold | src/components/StorageInfo.tsx:14-15 | the high-usage warning shows exactly when the JSON text is at least 1048582 characters long |
| StorageInfo.Summarize | src/components/StorageInfo.tsx:9-17 | the card shows the record count, the first and newest dates (or "N/A" when empty), the rounded span, and the warning at 1048582 characters or more |
| RefreshTimer.InitialTimeLeft | src/components/RefreshTimer.tsx:8-11 | the synchronised countdown is a whole number of seconds from 1 to 60, and ends at the next full minute to the second (`getSeconds` drops the milliseconds, so the wrap can come up to 999 ms after the minute) |
| RefreshTimer.TickKeepsValid | src/components/RefreshTimer.tsx:14-19 | a tick wraps from one second to a full minute, and otherwise drops exactly one second |
| RefreshTimer.TicksKeepValid | src/components/RefreshTimer.tsx:13-20 | the countdown stays a whole number of seconds from 1 to 60 across any number of ticks |
| RefreshTimer.CountdownWraps | src/components/RefreshTimer.tsx:10-19 | from t ms, k ticks with k < t/1000 leave t − 1000k ms; after t/1000 ticks the countdown is back at a full minute |
| RefreshTimer.DisplaySeconds | src/components/RefreshTimer.tsx:25 | `Math.ceil(t / 1000)` is the least whole number of seconds covering t ms |
| RefreshTimer.Countdown.constructor | src/components/RefreshTimer.tsx:4 | the countdown starts at a full minute |
| RefreshTimer.Countdown.Sync | src/components/RefreshTimer.tsx:8-11 | the effect sets the countdown to the time left until the next full minute |
| RefreshTimer.Countdown.Tick | src/components/RefreshTimer.tsx:13-20 | one interval callback steps the countdown and keeps it valid |
| RefreshTimer.Countdown.Caption | src/components/RefreshTimer.tsx:25-30 | the caption shows 1 to 60 seconds, equal to the time left, and shows the plural "s" exactly when the seconds are not 1 |
| PriceChart.FilterWindowSnoc | src/components/PriceChart.tsx:81-82 | one more record is kept, once and at the end, exactly when it is strictly newer than `now` minus the window; together with the empty case this fixes the filter's result, order and multiplicity included |
| PriceChart.FilterWindowAppend | src/components/PriceChart.tsx:82 | the window filter distributes over concatenation, so the kept records stay in order |
| PriceChart.FilterWindowSelects | src/components/PriceChart.tsx:70-83 | the filter keeps exactly the records strictly newer than `now` minus the window |
| PriceChart.AllTimeKeepsEverything | src/components/PriceChart.tsx:78-82 | the "all" window keeps the whole history |
| PriceChart.WiderWindowKeepsMore | src/components/PriceChart.tsx:72-82 | a narrower window's result is that window applied to a wider window's result, so it is a sub-collection of the wider one |
| PriceChart.AddRecordWellFormed | src/components/PriceChart.tsx:90-107 | one Map `set` keeps the keys distinct and in step with the entries, and adds exactly the record's tag |
| PriceChart.Group | src/components/PriceChart.tsx:85-111 | after the `forEach` the Map has one entry per distinct time tag of the filtered records, and no other |
| PriceChart.ChartData | src/components/PriceChart.tsx:85-111 | the rows built by filling the Map record by record are the Map's values in key order |
| PriceChart.GroupFirstAppearance | src/components/PriceChart.tsx:86-110 | the chart rows come in the order in which their time tags first appear in the records |
| PriceChart.PlaceCells | src/components/PriceChart.tsx:90-106 | one `set` stamps the row with the record's tag and timestamp, writes the record's own series, and leaves every other series as it was (empty for a new row) |
| PriceChart.GroupLastWins | src/components/PriceChart.tsx:88-108 | each row carries the timestamp of the newest record with its tag; each plotted series holds the newest value of its trade type at that tag, and the other data type's series are empty |
| PriceChart.Widen | src/components/PriceChart.tsx:122-125 | comparing one defined value keeps bottom and top the least and greatest of the values seen so far |
| PriceChart.ScanValues | src/components/PriceChart.tsx:119-126 | scanning one row keeps bottom and top the extremes of all defined values seen, skipping undefined ones |
| PriceChart.AxisYDomain | src/components/PriceChart.tsx:113-128 | before padding, the domain is the least and greatest defined value in `data.slice(from, to)`; both are absent when there is none |
| PriceChart.MouseDown | src/components/PriceChart.tsx:135-138 | a press on a label starts a selection there and clears its far end; without a label nothing changes; the zoom range is never touched |
| PriceChart.MouseMove | src/components/PriceChart.tsx:140-143 | only the far end of the selection moves, and only while zooming over a label |
| PriceChart.FindIndex | src/components/PriceChart.tsx:151-152 | `findIndex` returns the first row carrying the tag, or -1 when none does |
| PriceChart.LabelFound | src/components/PriceChart.tsx:151-152 | a tag that some row carries is found at a valid index |
| PriceChart.MouseUp | src/components/PriceChart.tsx:145-164 | an incomplete selection resets the zoom; a complete one sets left to the lesser found position and right to one past the greater, capped at the last index (an ordered range within the rows when both tags exist), and clears the selection |
| PriceChart.MouseUpFitsSelection | src/components/PriceChart.tsx:151-155 | as written, the y-axis is fitted to both selected rows and those between, except that a selection reaching the last row leaves that row out |
| PriceChart.MouseUpInclusive | src/components/PriceChart.tsx:145-164 | the corrected release: the same reset and clearing, with the right end clamped to the row count |
| PriceChart.MouseUpOmitsLastRow | src/components/PriceChart.tsx:154-155 | as written, a selection that ends on the last row fits the y-axis to rows that leave that row out |
| PriceChart.MouseUpInclusiveCoversSelection | src/components/PriceChart.tsx:151-155 | with the corrected clamp, the y-axis is fitted to every row between the two selected tags, both included, in either drag direction |
| PriceChart.ZoomOut | src/components/PriceChart.tsx:166-168 | zooming out, or leaving the chart, clears the zoom range and the selection |

## Left out

- HTTP and Express: routing, CORS, the `/api/binance` proxy endpoint, response headers, JSON encoding of payloads and SSE framing. A stream frame is modelled as the list of records it carries.
- The Binance request itself (axios, its body and headers). Each side's response is a parameter: the listing price strings, or None when the request throws.
- Server.ParsePrices: prices are integers in the model, and `parseFloat` with the NaN test is the parameter `parse`. Floating-point parsing and arithmetic are not modelled.
- Concurrency and timers: `Promise.all`, `setInterval`, `useEffect` scheduling and React batching. A cycle, a message or a tick is one method call. The clock is a parameter.
- Logging (`console.log`/`console.error`) and the process-level error handlers.
- Where the system's design description and its code differ, the model follows the code:
  - The design skips a tick while a cycle is still running. `server.js` has no such guard (line 184), so the model has no overlap suppression.
  - The design removes a subscriber whose channel fails during a broadcast. The code writes to every listener and removes one only on `close`.
  - The design says a reload trims an over-cap blob. `loadPriceHistory` only sorts, so `Storage.Load` keeps every stored record. Only a save trims.
  - The design says the history is always in time order. The code relies on `Date.now()`, so `Server.CycleKeepsOrder` proves the order holds when the clock does not go backwards.
- Storage.Load: the localStorage entry is modelled as what `JSON.parse` makes of it: absent, empty, unreadable, or a record array. A `getItem` that throws is treated like unreadable text, which also loads as the empty history. Loading does not trim an over-cap array, matching storage.ts.
- StorageInfo.Summarize: the date strings come from the parameter `format`, and the JSON length from the parameter `jsonLength`. `toLocaleString` and `JSON.stringify` are not modelled.
- PriceChart.Group: the locale time tag of a timestamp is the parameter `timeKey`.
- PriceChart.AxisYDomain: returns the extremes before the 10 % padding (`|| 1`) is applied. The `±Infinity` seeds are None. Padding is floating-point arithmetic.
- Rendering: JSX, recharts props other than the domain inputs, the tooltip, fullscreen toggling, the toggle groups and the toFixed formatting of displayed prices.
- The countdown is aligned to wall-clock minutes, as its caption ("XX:00", RefreshTimer.tsx:32) says. The server runs its cycle at start-up and every 60 s after that (server.js:183-184), not on the minute. The model does not relate the two schedules.
- The context files (`Index.tsx`, `binanceApi.ts`, `Footer.tsx`) are not part of this model.

## Findings

| source | as written | input that shows it | evidently intended | confidence | as-written member | corrected member |
|---|---|---|---|---|---|---|
| src/components/PriceChart.tsx:154-155 | `right = Math.min(right + 1, chartData.length - 1)`, then `getAxisYDomain` reads `data.slice(left, right)`, which excludes `right` | rows tagged a, b, c with a drag from b to c: the range becomes (1, 2) and the y-axis is fitted to row b alone; a drag from c to c gives (2, 2) and an empty slice | clamp to `chartData.length`, so the slice covers both selected rows | medium, not executed | PriceChart.MouseUpOmitsLastRow | PriceChart.MouseUpInclusiveCoversSelection |
