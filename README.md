# mini-dashboard: the data pipeline under the dashboard

This is a Dafny model of the data-shaping pipeline of the mini-dashboard React app. The rest of the app only renders what this pipeline produces. The pipeline:

- fetches users from an upstream API;
- turns each user into one synthetic activity event, with a random type, status, timestamp and amount;
- normalises the API's status strings, including its misspelling "sucess";
- keeps the events inside an optional date interval;
- resolves the operator's row selection;
- counts the selected (or all) events per calendar day for the chart;
- computes the summary cards: total events, total amount, selected events.

The model has four modules, one per source file:

- `Types` (`types.dfy`): the records of `types.ts`, plus whole-day date shifts.
- `UseEvents` (`use_events.dfy`): the `useEvents` hook. It holds the status normaliser and the per-user event builder. The hook's three state cells are the class `EventStore`.
- `App` (`app.dfy`): the date filter of `App.tsx`. The two date cells and `setLastDays` are the class `DateRange`.
- `EventsTable` (`events_table.dfy`): the selection, the per-day counting loop (`ChartData`, a method with loop invariants proved against the functional series `ChartOf`), the total amount and the counters.

Conventions:

- Timestamps are integers: milliseconds since the epoch.
- `now` and the two clock readings of `setLastDays` are parameters.
- `Math.random()` is an injected stream `rand: nat -> real`, each value in [0, 1). User `k` consumes calls `5k` to `5k+4`, in the source's evaluation order: status, type, days back, days forward, amount.
- The calendar-day key `format(new Date(t), "yyyy-MM-dd")` is a parameter `day: int -> string`.
- The table keys its row selection by row index, so the selection is a `map<nat, bool>`.
- `new Date("2025-01-01")` is `1735689600000`: a date-only ISO string is read as midnight UTC.
- The source's field `type` is called `eventType` here, because `type` is a Dafny keyword.

Two facts about the code that the model keeps:

- After a failed fetch, `error` is `err.message`, and that message may be the empty string. The model therefore does not claim that the stored error is non-empty.
- The chart count field is `events` (EventsTable.tsx:77), and so is the field of `ChartPoint`.

`UseEvents.FailedFetchScenario` is an example client of `EventStore` (a mount whose request fails, then a retry). It is not a part of the hook and has no row below.

## Model

| member | source | states |
|---|---|---|
| `UseEvents.NormalizeStatus` | mini-dashboard/src/hooks/useEvents.tsx:12-25 | "sucess" gives Success; each canonical spelling gives its own status; any other string, "" included, gives Pending. |
| `UseEvents.NormalizeCanonical` | mini-dashboard/src/hooks/useEvents.tsx:18-21 | A canonical spelling is returned unchanged. |
| `UseEvents.NormalizeIdempotent` | mini-dashboard/src/hooks/useEvents.tsx:12-25 | Normalising the spelling of a normalised status gives that status again. |
| `UseEvents.Pick` | mini-dashboard/src/hooks/useEvents.tsx:35 | `Math.floor(r * n)` for r in [0,1) is an index below n, and it is the floor of r·n. |
| `UseEvents.MakeEvent` | mini-dashboard/src/hooks/useEvents.tsx:34-50 | The event keeps the user's id and has user = firstName + " " + lastName. The status is normalised, so a draw below 1/3 (raw "sucess") gives Success. Status and type are decided by which third or quarter of [0,1) the real draw falls in (double rounding is under "## Left out"). The amount is `Pick(r, 1000)`, that is ⌊1000·r⌋, so it is in [0, 999]. The timestamp is `addDays(subDays(now, ⌊30u⌋), ⌊30v⌋)` for the days-back draw u and the days-forward draw v. It is therefore `now` plus a whole number of days between −29 and +29, so it can lie in the future. |
| `UseEvents.BuildEvents` | mini-dashboard/src/hooks/useEvents.tsx:33-51 | Exactly one event per upstream user, in the same order, with the same id and full name. Each event is built from that user's five draws. All amounts and timestamps are within the bounds above. |
| `UseEvents.EventStore.constructor` | mini-dashboard/src/hooks/useEvents.tsx:8-10 | The state starts as data = [], loading = true, error = null. |
| `UseEvents.EventStore.BeginFetch` | mini-dashboard/src/hooks/useEvents.tsx:29 | Sets loading to true and changes nothing else. |
| `UseEvents.EventStore.Settle` | mini-dashboard/src/hooks/useEvents.tsx:30-62 | On success, data becomes the built events and error is unchanged. On failure, error becomes the Error's message (or "An error occurred" for any other thrown value) and data is unchanged. Either way loading becomes false. |
| `UseEvents.EventStore.Retry` | mini-dashboard/src/hooks/useEvents.tsx:68 | Sets data to [] and leaves loading and error as they were. |
| `App.FilterByDate` | mini-dashboard/src/App.tsx:20-26 | With both bounds unset, the result is the input. Otherwise an event is in the result iff it is in the input and start ?? 2025-01-01 ≤ createdAt ≤ end ?? now, both ends included. The result is never longer than the input. |
| `App.FilterIsSubsequence` | mini-dashboard/src/App.tsx:20 | The filtered list is a subsequence of the input: original order kept. |
| `App.FilterAppend` | mini-dashboard/src/App.tsx:20-26 | Filtering a concatenation is concatenating the filtered parts: each event is judged on its own. |
| `App.FilterIdempotent` | mini-dashboard/src/App.tsx:20-26 | Filtering twice with the same bounds is filtering once. |
| `App.FilterSingleInstant` | mini-dashboard/src/App.tsx:22-25 | With start = end = t, exactly the events stamped t are kept, because both ends are included. |
| `App.DateRange.constructor` | mini-dashboard/src/App.tsx:13-14 | Both date cells start unset. |
| `App.DateRange.SetLastDays` | mini-dashboard/src/App.tsx:16-19 | start = first clock reading − days, end = second clock reading. For days ≥ 0 and a clock that does not go back, start ≤ end. |
| `App.LastThirtyDaysKeepsPastEvents` | mini-dashboard/src/App.tsx:16-25 | Set within a day of loading, "last 30 days" keeps every generated event up to the range's end. It drops only events dated in the future. |
| `EventsTable.SortedKeys` | mini-dashboard/src/components/EventsTable.tsx:60 | The keys of a set of row indices, ascending, each exactly once. |
| `EventsTable.SelectedIds` | mini-dashboard/src/components/EventsTable.tsx:60 | `Object.keys(selectedRows)`: every selected key once, in ascending numeric order, whatever its boolean value. |
| `EventsTable.ActiveData` | mini-dashboard/src/components/EventsTable.tsx:59-65 | As written. With no key selected, the result is all of `data`. Otherwise it has one entry per key in ascending order: `data[k]`, or undefined when k ≥ \|data\|. |
| `EventsTable.SelectionValuesIgnored` | mini-dashboard/src/components/EventsTable.tsx:60 | Two selections with the same keys give the same active rows, so a key set to false still counts. |
| `EventsTable.StaleSelectionIsUndefined` | mini-dashboard/src/components/EventsTable.tsx:64 | A selected key at or past the end of `data` puts an undefined entry into `activeData`. |
| `EventsTable.StaleSelectionExample` | mini-dashboard/src/components/EventsTable.tsx:64-71 | One displayed event with row 1 still selected gives `activeData` = [undefined]. Line 71 then reads `.createdAt` of undefined. |
| `EventsTable.ActiveEvents` | mini-dashboard/src/components/EventsTable.tsx:59-65 | Corrected selection. With nothing selected, the result is `data`. Otherwise it lists the selected rows that exist, at most one per key. Every entry is an event of `data`. |
| `EventsTable.ActiveEventsDropsUndefined` | mini-dashboard/src/components/EventsTable.tsx:59-65 | With a selection, the corrected rows are exactly the source's `activeData` with its undefined entries left out, in the same order. |
| `EventsTable.ActiveEventsAgree` | mini-dashboard/src/components/EventsTable.tsx:59-65 | When every key is below \|data\|, the corrected selection is exactly what the source computes: `activeData[i] = data[key_i]`, one entry per key. |
| `EventsTable.ChartData` | mini-dashboard/src/components/EventsTable.tsx:67-79 | The loop that updates the insertion-ordered Map and then lists its entries returns exactly the series `ChartOf`. |
| `EventsTable.DaysMeaning` | mini-dashboard/src/components/EventsTable.tsx:70-73 | A day is a chart key iff its count is positive iff some event falls on it. |
| `EventsTable.ChartDatesDistinct` | mini-dashboard/src/components/EventsTable.tsx:68-78 | No date appears twice in the series. |
| `EventsTable.ChartCoversDays` | mini-dashboard/src/components/EventsTable.tsx:68-78 | The series has a point for a date iff some active event falls on that date. |
| `EventsTable.ChartCountsPositive` | mini-dashboard/src/components/EventsTable.tsx:70-73 | Each point's `events` is the number of active events on its date, and it is at least 1. |
| `EventsTable.ChartFirstOccurrenceOrder` | mini-dashboard/src/components/EventsTable.tsx:68-75 | Points come in the order their day is first met in the input (Map insertion order). This is not necessarily chronological. |
| `EventsTable.ChartOfEmpty` | mini-dashboard/src/components/EventsTable.tsx:67-79 | No active events gives an empty series. |
| `EventsTable.ChartCountsSum` | mini-dashboard/src/components/EventsTable.tsx:70-78 | The counts of the series add up to the number of active events. |
| `EventsTable.ChartExample` | mini-dashboard/src/components/EventsTable.tsx:67-79 | Events on 2025-01-01, 2025-01-01 and 2025-01-02 give [("2025-01-01", 2), ("2025-01-02", 1)], in that order. |
| `EventsTable.TotalAmount` | mini-dashboard/src/components/EventsTable.tsx:138 | The sum of `amount ?? 0` over the displayed data, as `TotalAmountSingleton` and `TotalAmountAppend` pin down. It is ≥ 0 when no amount is negative, and ≤ 999·\|data\| when no amount exceeds 999. |
| `EventsTable.TotalAmountSingleton` | mini-dashboard/src/components/EventsTable.tsx:138 | One event contributes exactly its `amount ?? 0`. With `TotalAmountAppend` this fixes the total of every list as the sum of `amount ?? 0`. |
| `EventsTable.TotalAmountCons` | mini-dashboard/src/components/EventsTable.tsx:138 | The total of a list is its first event's `amount ?? 0` plus the total of the rest. |
| `EventsTable.TotalAmountAppend` | mini-dashboard/src/components/EventsTable.tsx:138 | The total over a concatenation is the sum of the two totals. |
| `EventsTable.Summarize` | mini-dashboard/src/components/EventsTable.tsx:138-177 | "Total events" = \|data\|. "Total amount" = the total over all of `data`, whatever the selection. "Selected events" = the number of keys `Object.keys` returns. |
| `EventsTable.ChartMatchesSummary` | mini-dashboard/src/components/EventsTable.tsx:59-79 | With nothing selected, the chart's counts add up to "Total events". With a selection inside `data`, they add up to "Selected events". |
| `EventsTable.RenderChart` | mini-dashboard/src/components/EventsTable.tsx:59-79 | Corrected selection. The chart for the current data and selection is `ChartOf` of `ActiveEvents`, and its counts add up to their number. Where a selected key is stale the source throws at line 71 instead. |

## Left out

- The HTTP GET (useEvents.tsx:31) and the shape of the JSON it returns. Network I/O is an abstract outcome: resolved with users, or a thrown value.
- React itself: `useState`, `useEffect`, `useMemo`, re-render timing and async scheduling. State cells are class fields, and the two halves of `fetchEvents` around the `await` are separate methods.
- `Math.random` is foreign and non-deterministic, so its values are an injected stream.
- MakeEvent: `new Date()` is called once per user in the source. The model uses a single `now` for the whole batch.
- MakeEvent: the draws are reals and `r * n` is exact. In the source `Math.random() * 3` (useEvents.tsx:35) is a double product rounded to nearest, so a draw just below 1/3 can round up to 1.0 and pick "pending" where the model gives Success (likewise just below 2/3 it can pick "failed" where the model gives Pending). The model's thirds are exact only up to that rounding. The type draw's quarters are exact, because `Math.random() * 4` (useEvents.tsx:41) multiplies by a power of two, which never rounds a double in [0, 1).
- Pick: computes the floor of the exact real product, not of the rounded double product.
- FilterByDate: `end: endDate || new Date()` (App.tsx:24) reads the clock once per event inside the filter callback. The model uses a single `now` for the whole pass.
- SetLastDays: `subDays` (App.tsx:17) is a local calendar shift. The model shifts by exactly 24 hours per day, so a daylight-saving change inside the range is not modelled.
- MakeEvent: `subDays`/`addDays` shift by whole 24-hour days. Local-time calendar arithmetic across a daylight-saving change (a 23- or 25-hour day) is not modelled.
- MakeEvent: the round trip through `toISOString` and `parseISO` is taken as exact, since millisecond timestamps survive it.
- ChartData: the day key is an uninterpreted function. The model treats `format` and local-timezone bucketing as outside its scope.
- FilterByDate: requires the effective start to be at most the effective end whenever a bound is set. For start > end, `isWithinInterval` throws in some date-fns versions and swaps the bounds in others, so that case is not modelled.
- Invalid `Date` values from a half-typed date picker are not modelled; every bound is a real timestamp.
- The date pickers' own `setStartDate`/`setEndDate` writes (DateFilter.tsx) are plain cell assignments and are not modelled. The "Last 7 days" and "Last 30 days" buttons are `SetLastDays` with 7 and 30.
- TotalAmount: uses unbounded integers. JavaScript numbers are doubles, and a sum of integer amounts stays exact below 2^53, far above any reachable total.
- Presentation is not modelled: Navbar.tsx, EventsChart.tsx (recharts), the MUI table and dialog chrome, icon and colour maps, `toLocaleString`, and MaterialReactTable's own sorting, filtering and pagination.
- The detail dialog (`selectedEvent`, `open`) only shows one row; it is not modelled.
- The upstream `id` is copied and not checked for uniqueness.

## Findings

| source | as written | input that shows it | evidently intended | confidence | as-written member | corrected member |
|---|---|---|---|---|---|---|
| mini-dashboard/src/components/EventsTable.tsx:64 | `data[Number(id)]` is `undefined` for a selected row index that the current `data` no longer has. The selection survives a change of the date filter, and line 71 then reads `event.createdAt` of `undefined`, which throws a TypeError while rendering. | `data` holds one event and `selectedRows` is `{"1": true}`: row 1 was selected, then the date filter narrowed `data` to one row. | The chart counts only selected rows that exist in the displayed data. | medium; not executed | `EventsTable.StaleSelectionExample` | `EventsTable.ActiveEvents` |
