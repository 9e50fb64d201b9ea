# promqlpandas core, modelled in Dafny

This project models the core of `scaleops/promqlpandas.py`, a client that
turns Prometheus HTTP API query results into label-indexed pandas tables and
keeps an on-disk cache of range query results, one file per query text.
It proves properties of that model.

The model covers five parts:

- **Durations** (`durations.dfy`). `duration_to_s` is modelled as a scanner over
  `<digits><unit>` tokens. Durations are counted in whole milliseconds, so
  every multiplier is an integer and the sum is exact.
- **Ordering** (`order.dfy`). This covers Python's `<` on strings (used for the
  sorted label names), the stable `sorted(..., key=...)` of the optional series
  sort, and the permutation facts about both.
- **Label index** (`labels.dfy`). This covers `_merge_metric_labels` and
  `_metric_index`. A label dict is a `LabelDict` object, because `_metric_index`
  renames `__name__` in place. When no extra labels are given, it does so in the
  caller's own dicts.
- **Buffers** (`grid.dfy`, `materialize.dfy`). This covers `_vector_to_numpy`,
  `_matrix_to_numpy` and NumPy behaviour:
  - the time grid of `np.arange(start, end + 1e-6, step)`;
  - `np.rint`, which rounds half to even;
  - negative indices counting from the end of a row;
  - an IndexError for any other slot outside the row;
  - the last write winning when two samples land in one cell.

  A NaN cell is `None`.
- **Conversion and client** (`convert.dfy`, `tables.dfy`, `client.dfy`). This
  covers the `_to_pandas` dispatch and the tables it builds. `tables.dfy` holds
  the properties of those tables. `client.dfy` models the `Prometheus` class:
  instant queries, and the cache state machine of `query_range`, `flush_cache`
  and `flush_query_cache`.

Each operation that works step by step is a method with loops over arrays or
objects, proved against a specification function. The lemmas state the
promised properties of those functions.

The model keeps these behaviours of the code:

- Ties round half to even (`np.rint`), not away from zero.
- A slot outside the row is not dropped. A slot in `[-len, -1]` wraps to the
  end of the row, and any other slot raises IndexError.
- The cache directory is created before the request is sent (line 146), not
  when the table is stored.
- The model also captures what `to_parquet` implies: only a DataFrame has that
  method. A range query whose converted table is not a DataFrame (a vector's
  Series, or a scalar or string result) therefore raises AttributeError when a
  cache is configured. A response that fails to convert raises its own error
  first.

## Model

| member | source | states |
|---|---|---|
| Durations.DurationToMs | scaleops/promqlpandas.py:333-379 | The outcome of `duration_to_s` on every input: numbers pass through, a `timedelta` or any other type raises TypeError, a string goes through the grammar |
| Durations.ParseDurationText | scaleops/promqlpandas.py:356-379 | The left-to-right scan accepts or rejects a string exactly as the grammar does, and adds up the milliseconds of the tokens |
| Durations.ScanDigits | scaleops/promqlpandas.py:366 | The `\d+` part of a token: the longest digit run from a position, and its decimal value |
| Durations.AcceptsExactly | scaleops/promqlpandas.py:366-370 | A string is accepted exactly when it is one or more `<digits><unit>` tokens with unit in ms, s, m, h, d, w, y |
| Durations.TokenizeSound | scaleops/promqlpandas.py:366-373 | What the scanner reads back is valid tokens that spell the string |
| Durations.TokenizeRender | scaleops/promqlpandas.py:366-373 | Any valid token list, written out, is read back as that token list (the tokenisation is unambiguous) |
| Durations.ValueOfTokens | scaleops/promqlpandas.py:372-379 | The value of an accepted string is the sum of count times multiplier over its tokens |
| Durations.Additive | scaleops/promqlpandas.py:372-379 | Two accepted strings written back to back are accepted, with the sum of their values |
| Durations.NonStrings | scaleops/promqlpandas.py:347-354 | A number is returned unchanged; a `timedelta` is refused with TypeError, so the branch at line 353 is dead |
| Durations.ExampleHourMinutes | scaleops/promqlpandas.py:356-379 | `"1h30m"` is 5400 s |
| Durations.ExampleDays | scaleops/promqlpandas.py:356-379 | `"2d"` is 172800 s |
| Durations.ExampleMillis | scaleops/promqlpandas.py:356-379 | `"5ms"` is 5 ms |
| Durations.ExampleRejected | scaleops/promqlpandas.py:369-370 | `""`, `"abc"` and `"1h 30m"` raise ValueError |
| Order.LtTotal | scaleops/promqlpandas.py:288 | Python's string order is total |
| Order.SortedUnique | scaleops/promqlpandas.py:288 | A strictly sorted list is determined by its elements, so `sorted(list(levels))` is one list whatever the set's iteration order |
| Order.SortBy | scaleops/promqlpandas.py:188-189 | `sorted(..., key=...)` returns a permutation of its input in non-decreasing key order |
| Order.InsertByWithKey | scaleops/promqlpandas.py:189 | The insertion step of the model's sort (`InsertBy`, from which `Order.SortByStable` is proved): the inserted item goes ahead of every item with its key, and the others of each key keep their order |
| Order.SortByStable | scaleops/promqlpandas.py:189 | The sort is stable: for every key, the series with that key come out in the order they went in |
| Order.MapPermutation | scaleops/promqlpandas.py:188-189 | Mapping two reorderings of one list item by item gives two reorderings of one list |
| Order.AllPermutation | scaleops/promqlpandas.py:188-189 | A property holds of every series exactly when it holds of every series after sorting |
| Labels.Merge | scaleops/promqlpandas.py:300-304 | `{**m, **labels}` has the keys of both, and the extra labels win |
| Labels.Rename | scaleops/promqlpandas.py:285-286 | `__name__` moves to `metric_name`, overwriting any `metric_name`, and nothing else changes |
| Labels.MergeMetricLabels | scaleops/promqlpandas.py:300-304 | With extra labels, a fresh merged dict per series; without them, the caller's very list of dicts |
| Labels.SortLevels | scaleops/promqlpandas.py:288 | The label names come out strictly sorted, and are exactly the set's elements |
| Labels.RenameAll | scaleops/promqlpandas.py:283-287 | The loop renames every dict and collects the union of their key names |
| Labels.MetricIndex | scaleops/promqlpandas.py:278-297 | `_metric_index` returns the index of the merged and renamed labels, or RuntimeError. Without extra labels, each caller's dict is renamed in place; with extra labels, the caller's dicts are untouched |
| Labels.IndexFails | scaleops/promqlpandas.py:289-291 | The index raises exactly when no series has a label: no series, or no extra labels and every dict empty |
| Labels.IndexShape | scaleops/promqlpandas.py:283-296 | The levels are the strictly sorted union of the label names, without `__name__`. There is one tuple per series, in order, and position k holds the series' value for `levels[k]` or None |
| Labels.PreparedLabels | scaleops/promqlpandas.py:281-287 | A series' index labels hold every extra label other than `__name__` and `metric_name`, its own other labels, and `metric_name` from the winning `__name__` |
| Labels.RenameIdempotent | scaleops/promqlpandas.py:285-286 | Renaming twice is renaming once, so a dict listed twice ends up renamed once |
| Labels.KeyUnionPermutation | scaleops/promqlpandas.py:283-287 | The union of label names does not depend on the order of the series |
| Grid.RintDivSpec | scaleops/promqlpandas.py:253-254 | `rint(n / d)` is the integer nearest to `n / d`, and on a tie the even one |
| Grid.RintExamples | scaleops/promqlpandas.py:253-254 | 5.4/5 rounds to 1, 0.5 to 0, 1.5 to 2, -0.5 to 0, and 5/-5 is -1 |
| Grid.GridBound | scaleops/promqlpandas.py:237 | The grid holds exactly the points `start + i*step` that have not passed `end`: at most `end` for a positive step, so an `end` on the grid is included, and more than `end` for a negative step, so it is excluded |
| Grid.GridExample | scaleops/promqlpandas.py:237 | The grid of 0 to 10 s by 5 s is [0, 5, 10] |
| Grid.Slot | scaleops/promqlpandas.py:253-259 | A sample's cell is always inside the row: `rint((t - start) / step)`, or that plus the row length when negative; otherwise there is no cell |
| Grid.SlotOnGrid | scaleops/promqlpandas.py:249-254 | A sample exactly on grid point i goes to cell i |
| Grid.SlotExamples | scaleops/promqlpandas.py:253-259 | t = 5.4 s goes to cell 1, t = -5 s wraps to the last cell, and t = 15 s and t = -20 s have no cell |
| Grid.PlaceSpec | scaleops/promqlpandas.py:259 | Writing a series succeeds exactly when every sample has a cell. Each cell then holds the last sample written there, or keeps its old value |
| Grid.LastWriteWins | scaleops/promqlpandas.py:259 | Two samples rounding to one cell leave the later value |
| Materialize.VectorToNumpy | scaleops/promqlpandas.py:206-227 | Slot i of the buffer holds series i's parsed value, and the labels come back in input order |
| Materialize.MatrixToNumpy | scaleops/promqlpandas.py:229-263 | The buffers are the matrix specification: a zero step fails; otherwise the grid times, one label record per series in order, and a cell-for-cell copy of the rows |
| Materialize.FillRows | scaleops/promqlpandas.py:245-261 | The loop fills row i with series i, and fails with the error of the first series that has no samples or a sample off the row |
| Materialize.FillRow | scaleops/promqlpandas.py:253-259 | One series is written into its NaN row as the specification places it, and no other row changes |
| Materialize.RowsSpecIs | scaleops/promqlpandas.py:245-261 | All rows are built exactly when every series succeeds; row i is series i's row; a failure is that of the first failing series |
| Materialize.MatrixFails | scaleops/promqlpandas.py:237-259 | The matrix fails exactly on a zero step, or when some series has no samples (ValueError) or a sample off the grid (IndexError) |
| Materialize.MatrixCells | scaleops/promqlpandas.py:239-259 | Each cell holds the last sample of its series that lands there, and NaN when none does |
| Materialize.MatrixExample | scaleops/promqlpandas.py:237-259 | A sample 0.4 s after the second point of a 5 s grid fills that column only |
| Materialize.RowsSpecSamples | scaleops/promqlpandas.py:245-259 | The matrix depends on the series' samples only, not on their labels |
| Convert.ReorderInstant | scaleops/promqlpandas.py:188-189 | Sorting a vector's series reorders them as their snapshot is sorted, and keeps the caller's dicts |
| Convert.ReorderRange | scaleops/promqlpandas.py:188-189 | The same for a matrix's series |
| Convert.NumpyToSeries | scaleops/promqlpandas.py:265-269 | The series is the buffer with the index of the labels, or the index's error |
| Convert.NumpyToDataframe | scaleops/promqlpandas.py:271-276 | The frame is `data.T` with the index of the labels as columns and the grid times as rows, or the index's error |
| Convert.ToSeries | scaleops/promqlpandas.py:187-194 | A vector result converts to the series specification of its snapshot, sorted first when a key is given |
| Convert.ToFrame | scaleops/promqlpandas.py:187-198 | A matrix result converts to the frame specification. The buffers are built before the index, so their errors come first |
| Convert.ToPandas | scaleops/promqlpandas.py:179-204 | `_to_pandas` on a decoded response is the dispatch specification of its snapshot |
| Convert.Decode | scaleops/promqlpandas.py:173-177 | `resp.json()` gives fresh dicts whose snapshot is the response |
| Tables.Dispatch | scaleops/promqlpandas.py:192-204 | A vector becomes a series and a matrix a frame. A matrix without a window raises TypeError. Scalar and string fail exactly when a sort key is given. An unknown result type raises with its name |
| Tables.VectorOutcome | scaleops/promqlpandas.py:187-196 | A vector fails exactly when its index has no label. Otherwise there is one tuple and one value per series, and the values are the series' values in some order |
| Tables.FrameOutcome | scaleops/promqlpandas.py:187-201 | A matrix fails exactly on a zero step, on a series with no samples or a sample off the grid, or on an index without labels. A series that does not fit fails the matrix before the index is built, with the error of the first such series in sorted order (ValueError without samples, IndexError off the grid). The index error only arises when every series fits, and ValueError only when some series has no samples |
| Tables.FrameErrorCause | scaleops/promqlpandas.py:187-201 | A series that does not fit decides the error (that of the first such series in sorted order) before the index is built, and ValueError needs a series without samples |
| Tables.BuffersFail | scaleops/promqlpandas.py:245-259 | Whether the buffers fail does not depend on the order of the series, and a failure carries the error of the first series that does not fit |
| Tables.RowFits | scaleops/promqlpandas.py:245-259 | A series' row is built exactly when it has samples and every sample lands in the row |
| Tables.FrameLayout | scaleops/promqlpandas.py:237-276 | A frame's timestamps are the window's grid. It has one column per series with that series' label tuple, and cell (c, i) holds series i's last sample at grid point c, or NaN |
| Tables.SeriesPermutation | scaleops/promqlpandas.py:192-194 | A vector's series in another order give the same levels and the same (tuple, value) pairs |
| Tables.FramePermutation | scaleops/promqlpandas.py:195-198 | A matrix's series in another order give the same levels, the same timestamps and the same (tuple, column) pairs |
| Tables.FrameColumns | scaleops/promqlpandas.py:271-276 | Column i of `data.T` is series i's label tuple and row |
| Tables.SortOnlyReorders | scaleops/promqlpandas.py:187-201 | For a vector or a matrix, the sort key only reorders the series of the table |
| Client.TimeoutMs | scaleops/promqlpandas.py:90-91 | The timeout parameter is absent, or `duration_to_s` of the timeout given |
| Client.ConvertResponse | scaleops/promqlpandas.py:150-156 | A response converts by the dispatch specification, and an upstream error is passed on |
| Client.Prometheus.constructor | scaleops/promqlpandas.py:36-49 | A client over the cache directory as found on disk |
| Client.Prometheus.FlushCache | scaleops/promqlpandas.py:57-58 | The directory and every file are gone, and a missing directory is not an error |
| Client.Prometheus.FlushQueryCache | scaleops/promqlpandas.py:60-64 | The query's file is removed. With no cache path this raises TypeError, and a missing file raises FileNotFoundError with nothing changed |
| Client.Prometheus.Query | scaleops/promqlpandas.py:66-99 | The cache is untouched and a request is sent once the timeout parses. A sort key raises TypeError. Otherwise the response converts with no window, no sort and no labels, so the labels given are ignored |
| Client.Prometheus.QueryRange | scaleops/promqlpandas.py:101-165 | Step and timeout are checked first. A forced flush of a missing file fails. A stored file is returned with no request. A miss creates the directory, sends one request, and stores the converted frame under the query's digest. A non-frame raises AttributeError when caching |
| Client.Prometheus.Fetch | scaleops/promqlpandas.py:149-165 | One request is logged; the converted table is returned and, with a cache, a DataFrame is stored under the query's digest, a non-frame raising AttributeError; without a cache nothing is stored |
| Client.RepeatHits | scaleops/promqlpandas.py:134-165 | After a range query succeeds with a cache, the same query text returns the same table with no new request, whatever the window, labels, sort or response of the second call. The second call sends no request: the request log is exactly as the first call left it |

## Left out

- The HTTP transport (`_do_query`, the `requests` session, `__enter__`/`__exit__`,
  the status codes). Each query method is given the server's response, or the
  error `_do_query` raises, as a parameter.
- `to_ts` and `ts_to_ms`. Timestamps are given as integer milliseconds, so the
  `dateutil` parsing and float conversions are not modelled.
- Floating point. Durations, times and steps are integer milliseconds, and
  `np.float64` of a sample value is an abstract `parse`. An `end` on the grid is
  therefore included exactly, without the `1e-6` slack and its float edge cases.
- NaN as an IEEE value. A missing cell is `None`.
- Durations.DurationToMs: only ASCII digits are accepted, while Python's `\d`
  also matches other Unicode decimal digits. A duration string is a `seq<char>`
  with no encoding.
- Order.SortBy: sort keys are integers. A key function returning other
  comparable values, or one that raises, is not modelled.
- pandas and parquet: `pd.Series`, `pd.DataFrame`, `pd.MultiIndex`,
  `pd.to_datetime`, `to_parquet` and `read_parquet`. A table is the data pandas
  is given, and a stored table is assumed to read back unchanged.
- SHA-256. It is an abstract function `hash` of the query text.
- Filesystem calls, and races between processes on the cache directory. The
  directory is the pair `dirExists`/`files`.
- Logging.
- The payload of an unknown `resultType`. Only its tag is kept, so a sort over
  such a payload (which runs before the tag is checked, and raises only if the
  key function fails on its items) is not modelled.
- Convert.ToSeries, Convert.ToFrame and Convert.ToPandas state only their
  result. The in-place rename of the caller's dicts is stated at
  Labels.MetricIndex, Convert.NumpyToSeries and Convert.NumpyToDataframe.
- Materialize.FillRow: a series whose sample has no cell fails as a whole, so
  which cells NumPy validated before raising is not modelled. The buffer is
  discarded on that path anyway.
- Client.Prometheus.Query: the `time` parameter is forwarded as given. Its
  conversion by `to_ts` is not modelled.
