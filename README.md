# Closure-accounting engine (OCC Tier-1 harness), modelled in Dafny

The harness takes a timestamp-sorted ledger of `(item_id, event_type, timestamp)` rows and
produces one row of counters per calendar day, from the day of the first ledger row to the day
of the last one. A row holds:
- `lambda_exo`: arrivals (`start` rows);
- `mu_a`: attempted completions (`done` rows);
- `mu_d` and `rho_gen`: the completions split into sticks and bounces. A completion bounces when
  the same item is reopened within the horizon after it;
- `q`: the stick rate `mu_d / mu_a`;
- `backlog`: the number of obligations open at the end of the day;
- `dcr`: the durable-clearance ratio, a running sum of sticks over a running sum of arrivals,
  both taken over a trailing window of days.

A diagnostics step then summarises the series:
- column totals and the largest backlog;
- the days on which `mu_a = mu_d + rho_gen` fails;
- a backlog-trend regime label.

The model follows the harness's own structure, one module per part:

| module | file | what it holds |
|---|---|---|
| `Ledger` | `ledger.dfy` | ledger rows, the event vocabulary, day arithmetic (`Day(ts) = ts / 86400`) and sortedness |
| `Bounce` | `bounce.dfy` | the bounce-flag precomputation: per-item index lists, the look-ahead loop with its two `break`s, and the flag array filled in place; proved against a reference walk `ScanFrom` over the whole ledger |
| `Daily` | `daily.dfy` | `DailyMetrics` and what one row means over the whole ledger: per-day tallies (`Tally`), the open set after a prefix (`OpenSet`), and brute-force window sums (`WindowSum`); the predicate `MetricsOf` says what the daily series of a ledger is |
| `Metrics` | `metrics.dfy` | the day loop as methods: one record cursor, the open-items map, the window queue with its running sums; `ComputeMetrics` is proved to return exactly `MetricsOf` |
| `Diagnostics` | `diagnostics.dfy` | the diagnostics report (totals, largest backlog, violations, regime) as a method proved against specification functions |
| `Series` | `series.dfy` | what the whole series guarantees: shape, conservation, ledger totals, horizon monotonicity, and what the regime label says about the backlog |

The model uses these representations:
- Timestamps are integer seconds. The day of a timestamp is its floor division by 86400. The
  horizon is `horizonDays * 86400` seconds.
- The ratios `q` and `dcr` are numerator/denominator pairs (`Ratio`), not floats.
- Absent values (`None` in the harness) are `Option`.

## Model

| member | source | states |
|---|---|---|
| `Daily.CountThroughPrefix` | tests/bpi_2013/occ_harness.py:275 | when the record cursor has passed exactly the rows of days up to `d`, it has passed `CountThrough(rs, n, d)` rows, so the open-items map after day `d` is the open set after those rows |
| `Ledger.BeforeDayEnd` | tests/bpi_2013/occ_harness.py:266-275 | a timestamp lies before `day_end` of day `d` exactly when its calendar day is `d` or earlier |
| `Bounce.IndexByItem` | tests/bpi_2013/occ_harness.py:191-193 | the per-item index maps every item of the ledger to exactly its row positions, in increasing order |
| `Bounce.LookAhead` | tests/bpi_2013/occ_harness.py:205-214 | the look-ahead over the later entries of the item's index list (stop at the first one past `target_end`, bounce at the first reopen) equals the reference walk over the whole ledger from the row after the completion |
| `Bounce.FlagItem` | tests/bpi_2013/occ_harness.py:202-215 | after one item's pass, each completion of that item holds its reference flag; every other entry of the flag array is unchanged |
| `Bounce.PrecomputeBounceFlags` | tests/bpi_2013/occ_harness.py:161-216 | the flag list has the ledger's length; an entry is absent exactly when its row is not `done`; the list equals the reference flags whatever order the items are visited in |
| `Bounce.ScanFromSorted` | tests/bpi_2013/occ_harness.py:208-214 | on a sorted ledger, the reference walk finds a bounce exactly when a reopen of the item lies ahead with a timestamp no later than the end |
| `Bounce.BounceIffLaterReopen` | tests/bpi_2013/occ_harness.py:197-215 | on a sorted ledger, a completion at row `g` bounces exactly when some later row of the same item is a reopen stamped no later than the completion plus the horizon; earlier rows and other items play no part |
| `Bounce.ScanFromMonotone` | tests/bpi_2013/occ_harness.py:206-214 | a walk that finds a reopen within an end still finds one within any later end (no sortedness needed) |
| `Bounce.HorizonMonotone` | tests/bpi_2013/occ_harness.py:206-215 | a flag that is a bounce at one horizon remains a bounce at every larger horizon |
| `Daily.DoneOnSound` | tests/bpi_2013/occ_harness.py:271-289 | every position in a day's completion list is a `done` row stamped on that day |
| `Daily.DoneOnComplete` | tests/bpi_2013/occ_harness.py:271-289 | every `done` row stamped on the day is in that day's completion list |
| `Daily.DoneOnIncreasing` | tests/bpi_2013/occ_harness.py:271-289 | a day's completion list is strictly increasing, so it lists each position once, in ledger order |
| `Daily.DoneOnCount` | tests/bpi_2013/occ_harness.py:287-289 | a day's completion list is as long as its completion count `mu_a` |
| `Daily.DoneOnFrame` | tests/bpi_2013/occ_harness.py:271-289 | rows of other days leave a day's completion list unchanged |
| `Daily.TallyConservation` | tests/bpi_2013/occ_harness.py:300-311 | when every completion carries a flag, the day's completions equal its sticks plus its bounces |
| `Daily.TallyHorizonMonotone` | tests/bpi_2013/occ_harness.py:300-311 | with a larger horizon a day has no more sticks and no fewer bounces |
| `Daily.OpenSetStep` | tests/bpi_2013/occ_harness.py:278-295 | the backlog as a per-item state machine: a start or reopen adds its item, a done removes it, an attempt or unknown code leaves the open set as it was |
| `Daily.QueueSumAppend` | tests/bpi_2013/occ_harness.py:334-336 | appending an entry to the window queue adds its arrivals and its durable closures to the running sums |
| `Daily.QueueMatchesWindow` | tests/bpi_2013/occ_harness.py:329-340 | a queue holding the entries of the last `Span(windowDays)` rows of a consecutive series (the last `window_days` rows, at least one) sums to the brute-force sum over the days less than `Span(windowDays)` before the last day, which is that day alone when `window_days <= 0` |
| `Metrics.ConsumeStep` | tests/bpi_2013/occ_harness.py:275-297 | consuming a row of day `d` adds one arrival for a start, one completion for a done, and one stick or one bounce for a done by its flag; nothing else changes a counter |
| `Metrics.ConsumeRow` | tests/bpi_2013/occ_harness.py:271-297 | consuming one row of day `d` keeps the counters at the day's tallies so far, the completion list equal to `DoneOn`, the positions of the day's `done` rows so far in ledger order, with their flags splitting into the day's sticks and bounces so far, and the open-items keys at the open set after the rows consumed |
| `Metrics.DayClosed` | tests/bpi_2013/occ_harness.py:275 | on a sorted ledger, once the cursor reaches a row at or past `day_end`, every remaining row lies on a later day |
| `Metrics.ConsumeDay` | tests/bpi_2013/occ_harness.py:266-297 | the inner while loop stops exactly at the first row of a later day; the counters are the day's tallies over the whole ledger; the completion list is exactly `DoneOn` for the day over the whole ledger, the positions of that day's `done` rows in ledger order, and their flags split into the day's sticks and bounces; the open-items keys are the open set after the rows consumed |
| `Metrics.ClassifyCompletions` | tests/bpi_2013/occ_harness.py:299-314 | if every listed completion has a flag, `mu_d` and `rho_gen` are the counts of stick and bounce flags (0 and 0 for no completions); if any flag is absent, both are absent |
| `Metrics.DayCounts` | tests/bpi_2013/occ_harness.py:266-325 | the counters, stick rate and backlog computed for a day are exactly that day's row over the whole ledger, and the cursor and open-items map move to the next day |
| `Metrics.DropExpired` | tests/bpi_2013/occ_harness.py:328-332 | popping expired days keeps the whole queue when it is shorter than `Span(windowDays)` (`window_days`, or 1 when `window_days <= 0`), and otherwise keeps only its newest `Span(windowDays) - 1` entries; the running sums stay equal to the queue's sums |
| `Metrics.SlideWindow` | tests/bpi_2013/occ_harness.py:328-336 | after dropping and appending, the queue is the last `Span(windowDays)` entries (the last `window_days`, at least one) ending with the new day, and the running sums equal the queue's sums |
| `Metrics.WindowShift` | tests/bpi_2013/occ_harness.py:329-334 | after one slide, the queue holds the entries of the last `Span(windowDays)` rows of the extended series (the last `window_days` rows, at least one), oldest first |
| `Metrics.RollingLast` | tests/bpi_2013/occ_harness.py:337-340 | the ratio computed from the running sums is the ratio of the brute-force window sums of the last row, absent exactly when the arrival sum is 0 |
| `Metrics.RollingExtend` | tests/bpi_2013/occ_harness.py:342-353 | appending a row leaves the window ratios of all earlier rows valid |
| `Metrics.WindowAdvance` | tests/bpi_2013/occ_harness.py:327-340 | one slide keeps the queue equal to the window, every row carrying its brute-force ratio, and the rows dated on consecutive days |
| `Metrics.RowsMatchExtend` | tests/bpi_2013/occ_harness.py:342-353 | appending the next day's row keeps every row equal to its day's counters |
| `Metrics.CloseDay` | tests/bpi_2013/occ_harness.py:327-353 | the emitted row is the day's counters with the window ratio filled in; the series stays dated consecutively and every row carries its brute-force ratio; the queue and running sums track the new window |
| `Metrics.ProgressStart` | tests/bpi_2013/occ_harness.py:254-263 | before the first day the cursor is at 0, the open-items map and queue are empty, the sums are 0, and the loop invariant holds |
| `Metrics.AdvanceDay` | tests/bpi_2013/occ_harness.py:265-353 | one day of the calendar loop appends exactly one row and keeps the loop invariant: cursor at the day boundary, backlog keys, matching rows, window ratios, queue and running sums |
| `Metrics.ComputeMetrics` | tests/bpi_2013/occ_harness.py:219-355 | with the harness's defaults of a 30-day horizon and a 90-day window, the result is the daily series of the ledger: one row per day from the first row's day to the last's (none for an empty ledger), each row that day's tallies, stick rate and backlog, and each `dcr` the brute-force ratio over its window |
| `Diagnostics.MaxBacklog` | tests/bpi_2013/occ_harness.py:415 | the largest backlog bounds every row's backlog and is attained by some row; it is 0 for an empty series |
| `Diagnostics.ViolationsEmptyIff` | tests/bpi_2013/occ_harness.py:419-431 | the violation list is empty exactly when every row is balanced (a split count absent, or `mu_a = mu_d + rho_gen`), and it is never longer than the series |
| `Diagnostics.ViolationsReportRows` | tests/bpi_2013/occ_harness.py:419-431 | every reported violation carries the date and counts of an unbalanced row of the series |
| `Diagnostics.Diagnose` | tests/bpi_2013/occ_harness.py:407-437 | the report holds the parameters, the number of days, the arrival/completion/durable totals, the largest backlog, the violations found by the scanning loop, and the regime label |
| `Series.SeriesShape` | tests/bpi_2013/occ_harness.py:247-252 | the series is empty exactly when the ledger is; otherwise it starts on the first row's day, ends on the last row's day and steps one day at a time |
| `Series.DailyConservation` | tests/bpi_2013/occ_harness.py:300-322 | on every day `mu_d` and `rho_gen` are present and add up to `mu_a`; `q` is absent exactly when `mu_a = 0` and otherwise is `mu_d / mu_a`; the diagnostics find no violation |
| `Series.LedgerTotals` | tests/bpi_2013/occ_harness.py:274-297 | every ledger row is consumed exactly once: the series' arrivals, completions, sticks and bounces add up to the ledger's starts, dones, and dones flagged stick and bounce |
| `Series.HorizonMonotoneDaily` | tests/bpi_2013/occ_harness.py:300-311 | with a larger horizon the series has the same length and the same date on every row, and on each day no more `mu_d` and no fewer `rho_gen` |
| `Bounce.ScanFromNoReopen` | tests/bpi_2013/occ_harness.py:206-215 | in a ledger without reopen rows the look-ahead never finds a bounce, so every completion's flag is `False` |
| `Daily.TallyAllSticks` | tests/bpi_2013/occ_harness.py:299-311 | when every completion is flagged as a stick, a day's sticks equal its completions and it has no bounces |
| `Series.NoReopenAllStick` | tests/bpi_2013/occ_harness.py:299-322 | on a ledger without reopen rows every day has `mu_d = mu_a` and `rho_gen = 0`, both present, and a day with completions has `q = mu_a / mu_a` |
| `Series.RegimeReflectsBacklog` | tests/bpi_2013/occ_harness.py:432-437 | the regime label is empty exactly for an empty ledger, and it is backlog growth exactly when more obligations are open after the whole ledger than after its first day |

## Left out

- Loading the ledger (CSV reading, ISO-8601 and timezone parsing, the sort by timestamp) is not
  part of this model. Its result is the precondition `Sorted` on the records that
  `ComputeMetrics` receives.
- The file side of `write_submission` is not modelled: the CSV writer, `.4f` float formatting,
  the JSON dump, `os.path.abspath` of the ledger path, the manifest and the zip archive.
  `Diagnose` models only the values of the diagnostics document; the ledger path is not among
  them.
- Argument parsing and the program entry point are not modelled.
- Floats are not modelled. `q` and `dcr` are `Ratio(num, den)` pairs that are never reduced, so
  two equal ratios with different terms compare unequal.
- Dates are integer day indices, and ISO date strings are not produced. Rows carry the date of
  the record's timestamp in one fixed offset; `tzinfo` handling is not modelled.
- The per-item `(timestamp, event_type)` lists and `events` lists built in
  `precompute_bounce_flags` are never read by the harness, so they are not modelled. The
  look-ahead reads the same rows through the item's index list.
- Items are visited in an unspecified order in `PrecomputeBounceFlags`. The result is proved
  independent of that order, which covers the dictionary's insertion order.
- The timestamps stored as values in the open-items map are kept but not specified. Only the
  key set, whose size is the backlog, is stated.
- The harness also reaches `q = None` when `mu_d` is absent, but `mu_d` is never absent for
  flags computed by `precompute_bounce_flags`. The model keeps that branch in `DayCounts`, and
  `RowMatches` states the stick rate through the day's tallies.
- A window of zero or fewer days still keeps the current day, because the harness appends
  before computing the ratio. `Span(windowDays)` is the number of days the window effectively
  covers.
- The harness has none of the following, so the model has none of them either:
  - a `pending` state for completions near the end of the data;
  - exclusion of inconsistent items;
  - counts of skipped rows;
  - a backlog residual check;
  - per-day reopen counts.
- The harness emits `dcr` from the first day, whenever the window's arrival sum is positive,
  not only once a full window of history exists. The model does the same.
- The harness's module documentation says that a ledger lacking reopen events has its stick
  rates and bounce-backs marked unobservable (`null`). The harness code does not do this, and
  neither does the model: every completion gets a flag, so `mu_d` and `rho_gen` are always
  present. On a reopen-free ledger every completion sticks (`Series.NoReopenAllStick`).
- Python's `datetime` and `timedelta` range limits are not modelled. The harness raises
  `OverflowError` in these cases, where the model, over unbounded integers, returns a value:
  - a horizon or window beyond 999999999 days;
  - a completion timestamp plus the horizon past `datetime.max` or, for a negative horizon, before `datetime.min`;
  - a ledger whose last day is 9999-12-31, where `day_end` overflows.
- Timestamps are whole seconds. The harness keeps microseconds, so its comparisons against
  `target_end` and `day_end` agree with the model only on whole-second data.
- The diagnostics entry `total_completions` is the sum of `mu_d`, the durable closures, with
  absent values counted as 0. It is not the sum of `mu_a`. The model keeps this as the harness
  computes it (`ColumnSum(metrics, Sticks)`).
