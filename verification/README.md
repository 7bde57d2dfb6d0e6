# LT2315b load-test dashboard: data pipeline model

A Dafny model of the data-shaping pipeline behind the LT2315b pile load-test
dashboard (`lt2315.py`). A data logger writes two CSV dumps. The primary dump
holds every reading and the summary dump holds one reading per load stage.
Each reading carries a timestamp, a record number, battery and temperature,
the load in kN, the load as a percent of design load, four settlement gauges
with their average, the reference-beam movement and the corrected settlement.

The model covers:

- `Dump`: dump normalisation (`update_dat`). The first four metadata lines are
  dropped and the fixed 13-name header is put in front. The result overwrites
  a cache CSV in a file store modelled as a map from path to rows.
- `Bucketing`: the `Load_Pct` bucketing lambda. It rounds `x / 25` half to
  even (Python's `round`), multiplies by 25, and sends anything that fails
  `<= 200` to 200. A missing (`NAN`) value therefore becomes 200.
- `Timestamps`: the two `strftime` layouts, with a parser for the display
  form. The display form is `%Y-%m-%d %H:%M` and the export form is
  `%d-%m-%y %H:%M`.
- `Schema`: the 13-column reading and its row layout.
- `Frames`: row-wise mapping, column drop by position, selection, and rename through a dict
  keyed by the old names.
- `Cycles`: the cycle split. The first cycle is `df[:9]` and the second is
  `df[8:]`, and row 8 is shared.
- `Views`: the chart data, the grid before and after a refresh, the two
  downloads and the latest-reading line.
- `Callbacks`: the callbacks on the file store. These are `update`,
  `update_latest` and the two download callbacks.

Behaviour worth knowing:

- A dump with fewer than four lines gives the header alone. No format error
  is raised and no field count is checked.
- There is no snapshot store. Every callback rewrites a cache CSV and reads it
  back.
- Bucketing has no lower clip, so percents below -12.5 stay negative. On the
  summary chart and the refreshed grid, whose reads declare `NAN` missing, a
  missing percent is shown as 200. The summary download reads without that
  declaration, so a `NAN` percent stays text and the bucketing lambda raises
  `TypeError`: nothing is downloaded.
- `update_latest(csv_file1)` reads the primary dump whatever path it is
  given. It also leaves the primary data in the summary cache.

`pd.read_csv` is modelled line by line: the first line is the header and
every further line becomes one reading, through the function parameter
`parse`. A reading's timestamp is the instant its logged text denotes. Where
the source applies `pd.to_datetime` and `strftime` (lt2315.py:35, 95, 169, 256),
the model renders that instant in the given layout. Elsewhere the stamp stays
a `Stamp` cell: the reads at lt2315.py:212, 237 and 269 never parse it. The
`:.0f` and `:.2f` number formats are the parameters `fmt0` and `fmt2`.

## Model

| member | source | states |
|---|---|---|
| Dump.Normalise | lt2315.py:18-27 | the output is the 13-name header followed by every line after the fourth, unchanged and in order; its length is 1 + max(0, n - 4) |
| Dump.WriteNormalised | lt2315.py:24-27 | the writer loop (header row, then `writerows(lines[4:])`) produces exactly the normalised rows |
| Dump.NormaliseDropsMetadata | lt2315.py:21-27 | whatever the four metadata lines hold, the data lines come out verbatim behind the header |
| Dump.NormaliseShortDump | lt2315.py:27 | a dump of at most four lines yields the header alone, with no error |
| Dump.UpdateDat | lt2315.py:18-29 | a missing dump raises FileNotFound; otherwise only the cache path changes and it holds the normalised dump |
| Dump.UpdateDatIdempotent | lt2315.py:18-29 | rewriting a cache from an unchanged dump a second time changes nothing |
| Bucketing.RoundHalfEven | lt2315.py:213 | `round` lands within one half of its argument and on an even integer at a tie |
| Bucketing.RoundHalfEvenUnique | lt2315.py:213 | any integer within one half and even at a tie is the one `round` returns |
| Bucketing.RoundHalfEvenMonotone | lt2315.py:213 | rounding preserves order |
| Bucketing.Bucket | lt2315.py:213 | a bucketed percent is an integer multiple of 25 and at most 200; a missing percent becomes 200; below the cap it lies within 12.5 of the reading, and at a tie it is the even multiple (37.5 gives 50) |
| Bucketing.SnapTie | lt2315.py:213 | the snapped value is 25 times the rounded quotient, and halfway between two multiples it is the even one |
| Bucketing.BucketIdempotent | lt2315.py:238 | bucketing an already bucketed value returns it unchanged |
| Bucketing.BucketMonotone | lt2315.py:213 | larger readings never get smaller buckets |
| Bucketing.BucketNearest | lt2315.py:213 | below the cap no multiple of 25 is strictly nearer the reading than its bucket |
| Bucketing.BucketKeepsNegatives | lt2315.py:213 | there is no lower clip: a reading below -12.5 buckets to a negative value |
| Bucketing.BucketExamples | lt2315.py:257 | 37 gives 25, 213 gives 200, 62.5 gives 50 (tie to even), 87.5 gives 100, missing gives 200 |
| Schema.Cells | lt2315.py:22-23 | a reading laid out in header order puts each of its thirteen fields under the header name that denotes it: TimeStamp, Record, Batt, Temp, Load_kN, Load_Pct, S1..S4, S_avg, RB_Mov and S_Cor at positions 0..12 |
| Schema.Bucketed | lt2315.py:238 | only `Load_Pct` changes and it becomes the bucket of the old percent, a present, on-grid value of at most 200 |
| Schema.BucketedIdempotent | lt2315.py:238 | bucketing a reading twice equals bucketing it once |
| Timestamps.DisplayStamp | lt2315.py:35 | the display stamp is 16 characters with `-`, `-`, space and `:` at fixed places |
| Timestamps.ExportStamp | lt2315.py:256 | the export stamp is 14 characters with `-`, `-`, space and `:` at fixed places |
| Timestamps.DisplayRoundTrip | lt2315.py:35 | parsing a display stamp recovers year, month, day, hour and minute |
| Timestamps.DisplayInjectiveToMinute | lt2315.py:169 | two instants display alike exactly when they agree to the minute; seconds are dropped |
| Timestamps.ExportIsRearrangedDisplay | lt2315.py:256 | the export stamp is the display stamp reordered with the century removed, so the two never disagree |
| Timestamps.ExportLosesCentury | lt2315.py:256 | any two instants whose years differ but agree modulo 100, and which agree to the minute otherwise, share an export stamp but not a display stamp |
| Frames.KeptColumnsSpec | lt2315.py:93-94 | the positions kept by a drop are exactly the undropped positions, each once, in increasing order |
| Frames.DropColumns | lt2315.py:270 | a drop keeps every row, keeps rows and header aligned, and never adds a column |
| Frames.RenameMapLookup | lt2315.py:258 | with distinct names the rename dict sends the i-th leading column to the i-th new name |
| Frames.RenameLeading | lt2315.py:271 | renaming through the dict of leading names renames those columns positionally and leaves the rest alone |
| Cycles.FirstCycle | lt2315.py:214 | the first cycle is the first min(9, n) rows, unchanged |
| Cycles.SecondCycle | lt2315.py:215 | the second cycle is the rows from index 8 on, empty when n < 8 |
| Cycles.SplitLongTable | lt2315.py:214-215 | with at least 9 rows the first cycle has 9 rows, its last is the second cycle's first, and the two joined at the pivot rebuild the table |
| Cycles.SplitShortTable | lt2315.py:214-215 | with at most 8 rows the first cycle is the table and the second is empty |
| Cycles.SplitNineRows | lt2315.py:214-215 | with exactly 9 rows the second cycle is the pivot row alone |
| Cycles.SplitCovers | lt2315.py:214-215 | every row lies in a cycle and only row 8 lies in both |
| Cycles.SplitCommutesWithMap | lt2315.py:214-215 | projecting columns then splitting equals splitting then projecting |
| Views.SummaryKept | lt2315.py:93-94 | dropping the nine columns keeps exactly TimeStamp, Load_kN, Load_Pct and S_Cor, in that order |
| Views.FullKept | lt2315.py:270 | dropping Record, Batt and Temp keeps the other ten columns in order |
| Views.TimeSeries | lt2315.py:168-182 | one point per reading, in table order: display stamp, load and corrected settlement |
| Views.LoadSettlement | lt2315.py:195-199 | one point per reading in table order, not sorted by load: load and corrected settlement |
| Views.CycleChart | lt2315.py:211-215 | the two traces hold the bucketed four-column rows of readings 0..8 and 8.. respectively |
| Views.CycleChartBucketed | lt2315.py:213-215 | every percent plotted on either trace, for a table of any length, is on the 25 grid and at most 200; with at least 9 rows the pivot row is in both traces |
| Views.InitialGrid | lt2315.py:90-109 | the first grid has the four summary columns, display stamps and the percent as logged |
| Views.GridFieldsMatch | lt2315.py:99-104 | the grid's column fields name exactly the columns the initial grid holds |
| Views.RefreshedGrid | lt2315.py:237-243 | after a refresh the grid rows hold all 13 columns with only Load_Pct changed, to its bucket |
| Views.RefreshChangesGrid | lt2315.py:237-239 | a refresh changes two of the four shown cells (stamp no longer formatted, percent bucketed) and keeps load and settlement |
| Views.SummaryExport | lt2315.py:253-258 | the summary download has columns Time Stamp, Load (kN), (%), Sett (mm), one row per reading, export stamps and bucketed percents |
| Views.FullExport | lt2315.py:269-271 | the full download has ten columns, the first three renamed, one row per reading holding its cells 0 and 4..12 |
| Views.LatestSummary | lt2315.py:36-40 | an empty table raises; otherwise the line opens with the last reading's display stamp, then " - ", its load rendering and " kN,", then " ", its unbucketed percent rendering and " %,", and closes with "Sett = ", its settlement rendering and " mm"; nothing else is in the line |
| Views.LatestOnlyLastRow | lt2315.py:36-40 | rows before the last do not affect the line |
| Views.LatestStampReadsBack | lt2315.py:35-40 | the line's first 16 characters parse back to the last reading's minute |
| Callbacks.ReadCsv | lt2315.py:168 | reading a CSV yields one reading per line after the header, each the parse of its line, in order |
| Callbacks.ReadNormalised | lt2315.py:18-27 | a normalised dump reads to one reading per data line, and has a reading exactly when the dump has more than four lines |
| Callbacks.LastReading | lt2315.py:36 | the last reading of a dump with data is its last line, parsed |
| Callbacks.ReadThrough | lt2315.py:167-168 | update then read: the cache holds the normalised dump and the readings are those of the dump |
| Callbacks.ReadThroughIgnoresStaleCache | lt2315.py:211-212 | what a cache held before a callback does not affect what the callback reads |
| Callbacks.UpdateLatest | lt2315.py:32-40 | the call succeeds exactly when the primary dump exists and reads to at least one row; the line is then the latest summary of the primary dump and the given cache path receives the primary dump |
| Callbacks.LatestLine | lt2315.py:32-40 | with a row in the primary dump the call succeeds and shows the latest summary of the dump's readings |
| Callbacks.SameLastReading | lt2315.py:36-40 | two dumps whose last data lines agree read to tables that show the same line |
| Callbacks.LatestDecidedByLastLine | lt2315.py:32-40 | two stores whose primary dumps end in the same data line give the same latest line, whatever came before |
| Views.LatestByLastReading | lt2315.py:36-40 | two tables that end in the same reading show the same line |
| Callbacks.LatestIgnoresCacheArgument | lt2315.py:32-34 | the line is the same whichever cache path is passed |
| Callbacks.Refresh | lt2315.py:166-243 | a refresh fails exactly when a dump is missing or the primary table is empty; otherwise each view is computed from the dump the source reads for it |
| Callbacks.RefreshStore | lt2315.py:166-243 | when both dumps exist and the primary table has a row, the refresh succeeds, changes the store only in the two caches, and leaves the primary dump in both |
| Callbacks.RefreshLeavesPrimaryInBothCaches | lt2315.py:236-241 | when both dumps exist and the primary table has a row, the refresh succeeds, both caches then hold the primary dump, and neither dump was written |
| Callbacks.DownloadSummary | lt2315.py:250-259 | no download before a click; after one, it succeeds exactly when the summary dump exists and none of its percents is `NAN`, raising `TypeError` on a `NAN` percent, and yields the summary export of that dump |
| Callbacks.DownloadAll | lt2315.py:266-272 | no download before a click; after one, it succeeds exactly when the primary dump exists, and yields the full export of that dump |
| Callbacks.DownloadAllRowCount | lt2315.py:266-272 | a dump of 4 metadata lines and n data lines downloads as n rows under the ten renamed columns |

## Left out

- Dash layout, Bootstrap themes, the clientside colour-mode callback and `update_template`: presentation only.
- Plotly figure construction: only the data each trace plots is modelled.
- The `dcc.Interval` timers and `update_date_time` (lt2315.py:279-282): they read the wall clock.
- Real file I/O and CSV quoting: files are sequences of rows.
- `to_csv` rendering and `dcc.send_data_frame`, including the index column pandas writes by default: the downloads are modelled as frames.
- `pd.read_csv` type inference, blank-line skipping and field-count errors, and `pd.to_datetime` parsing: each data line becomes one reading through the parameter `parse`, so a skipped blank line or a rejected line is not modelled.
- Concurrency: callbacks are modelled as running one at a time, each atomic on the file store. Dash serves callbacks from several threads, so the refresh's `update_latest(csv_file1)` (lt2315.py:241, writing at :33) can overwrite `csv_file1` between a summary download's own rewrite at :252 and its read at :253. The download then exports the primary dump. That interleaving is not modelled.
- Callbacks.Refresh: a failed refresh returns the error without the store, so cache writes made before the failure are not modelled. `csv_file` is rewritten at lt2315.py:167 before a missing summary dump fails at :211, and `update_latest` rewrites `csv_file1` at :33 before an empty table fails at :36. This cannot change what a later callback reads, because every callback rewrites its cache from the dump first (Callbacks.ReadThroughIgnoresStaleCache).
- Callbacks.UpdateLatest: a failure on an empty table likewise drops the cache write made at lt2315.py:33, for the same reason.
- Views.FullExport: the read at lt2315.py:269 does not declare `NAN` missing, so pandas keeps the token as text and the download writes it back verbatim. The model shows it as a missing number, `Num(None)`. The stamp column is also written back as the logged text, which the model shows as the `Stamp` instant that the text denotes.
- Views.RefreshedGrid: the read at lt2315.py:237 never parses the stamp, so the grid shows the logged text. The model holds the instant that the text denotes, as a `Stamp` cell, and does not fix how the logger renders it. The hover data of the cycle chart (lt2315.py:212, Views.CycleChart) is treated the same way.
- Callbacks.Refresh: the grid that `update_grid` builds inside `update` is discarded by the source, so only its cache write is modelled.
- Views.SummaryExport: a `NAN` in `Load_kN` or `S_Cor` is kept as text by the read at lt2315.py:253 and written back verbatim. The model shows it as a missing number, `Num(None)`. A `NAN` percent makes the download fail first (Callbacks.DownloadSummary).
- Callbacks.DownloadSummary: a failure on a `NAN` percent drops the cache write made at lt2315.py:252, for the same reason as for Callbacks.Refresh.
- Bucketing.Bucket: computes over exact reals, so IEEE rounding of `x / 25` is not modelled.
- Views.LatestSummary: the `:.0f` and `:.2f` renderings are the parameters `fmt0` and `fmt2`, so the contract says nothing about the digits.
- Timestamps.DisplayStamp: sub-second parts and years outside 1000-9999 are not modelled; pandas timestamps lie within 1677-2262.
- The source picks columns by name. The model picks them by position in the fixed header, and `Schema.Cells` ties each position to its name.
