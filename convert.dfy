/** `_to_pandas` (scaleops/promqlpandas.py:179-204): the optional sort of the
    series by their labels, the dispatch on `resultType`, and the tables it
    builds from the buffers of `Materialize` and the index of `Labels`.

    The decoded response body is `QueryData`. Its label dicts are
    `LabelDict` objects, because building the index may rename them in place;
    `Snapshot` reads their contents, and the specification functions work on
    that snapshot. The table a vector or matrix becomes is kept as the data
    pandas is given: the series' values with their index, and for a matrix
    `data.T` (one row per grid time, one column per series) with the
    timestamps. */
module Convert {
  import opened Common
  import opened Order
  import opened Labels
  import opened Grid
  import opened Materialize

  /** The `data` object of a query response, by `resultType`. The payload of
      an unknown result type is not kept. */
  datatype QueryData<L> =
    | VectorData(vector: seq<InstantSeries<L>>)
    | MatrixData(matrix: seq<RangeSeries<L>>)
    | ScalarData(time: int, value: string)
    | StringData(time: int, text: string)
    | OtherData(tag: string)

  /** What `_to_pandas` returns: a `pd.Series`, a `pd.DataFrame`, an
      `np.float64` of the scalar's `[time, value]` pair, or the string's
      `[time, text]` pair. */
  datatype Table<V> =
    | Series(index: Index, values: seq<Option<V>>)
    | Frame(columns: Index, timestamps: seq<int>, cells: seq<seq<Option<V>>>)
    | ScalarValue(time: int, value: V)
    | StringValue(time: int, text: string)

  /** The `start`, `end` and `step` a range query passes on. */
  datatype Window = Window(start: int, end: int, step: int)

  /** The label dicts of the series of a response. */
  function Dicts(raw: QueryData<LabelDict>): set<LabelDict>
  {
    match raw
    case VectorData(rs) => set i | 0 <= i < |rs| :: rs[i].metric
    case MatrixData(rs) => set i | 0 <= i < |rs| :: rs[i].metric
    case _ => {}
  }

  function SnapInstant(rs: seq<InstantSeries<LabelDict>>): (r: seq<InstantSeries<LabelMap>>)
    reads set i | 0 <= i < |rs| :: rs[i].metric
    ensures |r| == |rs|
    ensures forall i :: 0 <= i < |rs| ==>
              r[i] == InstantSeries(rs[i].metric.entries, rs[i].time, rs[i].value)
  {
    seq(|rs|, i requires 0 <= i < |rs| reads set j | 0 <= j < |rs| :: rs[j].metric =>
      InstantSeries(rs[i].metric.entries, rs[i].time, rs[i].value))
  }

  function SnapRange(rs: seq<RangeSeries<LabelDict>>): (r: seq<RangeSeries<LabelMap>>)
    reads set i | 0 <= i < |rs| :: rs[i].metric
    ensures |r| == |rs|
    ensures forall i :: 0 <= i < |rs| ==> r[i] == RangeSeries(rs[i].metric.entries, rs[i].values)
  {
    seq(|rs|, i requires 0 <= i < |rs| reads set j | 0 <= j < |rs| :: rs[j].metric =>
      RangeSeries(rs[i].metric.entries, rs[i].values))
  }

  /** The response with every label dict replaced by its current contents. */
  function Snapshot(raw: QueryData<LabelDict>): QueryData<LabelMap>
    reads Dicts(raw)
  {
    match raw
    case VectorData(rs) => VectorData(SnapInstant(rs))
    case MatrixData(rs) => MatrixData(SnapRange(rs))
    case ScalarData(t, v) => ScalarData(t, v)
    case StringData(t, s) => StringData(t, s)
    case OtherData(tag) => OtherData(tag)
  }

  function InstantMetrics<L>(rs: seq<InstantSeries<L>>): (ms: seq<L>)
    ensures |ms| == |rs| && forall i :: 0 <= i < |rs| ==> ms[i] == rs[i].metric
  {
    seq(|rs|, i requires 0 <= i < |rs| => rs[i].metric)
  }

  function RangeMetrics<L>(rs: seq<RangeSeries<L>>): (ms: seq<L>)
    ensures |ms| == |rs| && forall i :: 0 <= i < |rs| ==> ms[i] == rs[i].metric
  {
    seq(|rs|, i requires 0 <= i < |rs| => rs[i].metric)
  }

  /** `key=lambda r: sort(r['metric'])`. */
  function ByInstant(sort: LabelMap -> int): InstantSeries<LabelMap> -> int
  {
    (s: InstantSeries<LabelMap>) => sort(s.metric)
  }

  function ByRange(sort: LabelMap -> int): RangeSeries<LabelMap> -> int
  {
    (s: RangeSeries<LabelMap>) => sort(s.metric)
  }

  /** The series in the order `_to_pandas` materialises them (lines 188-191). */
  function SortedInstant(rs: seq<InstantSeries<LabelMap>>, sort: Option<LabelMap -> int>)
    : seq<InstantSeries<LabelMap>>
  {
    if sort.Some? then SortBy(rs, ByInstant(sort.value)) else rs
  }

  function SortedRange(rs: seq<RangeSeries<LabelMap>>, sort: Option<LabelMap -> int>)
    : seq<RangeSeries<LabelMap>>
  {
    if sort.Some? then SortBy(rs, ByRange(sort.value)) else rs
  }

  /** `pd.Series(data, index=_metric_index(metrics, labels))` of a vector. */
  ghost function SeriesSpec<V>(rs: seq<InstantSeries<LabelMap>>, sort: Option<LabelMap -> int>,
                               labels: LabelMap, parse: string -> V): Result<Table<V>, Error>
  {
    var sorted := SortedInstant(rs, sort);
    match IndexSpec(InstantMetrics(sorted), labels)
    case Err(e) => Err(e)
    case Ok(index) =>
      Ok(Series(index, seq(|sorted|, i requires 0 <= i < |sorted| => Some(parse(sorted[i].value)))))
  }

  /** `data.T`: the column `c` of `rows` becomes row `c`. */
  function Transpose<X>(rows: seq<seq<X>>, width: nat): (t: seq<seq<X>>)
    requires forall i :: 0 <= i < |rows| ==> |rows[i]| == width
    ensures |t| == width
    ensures forall c :: 0 <= c < width ==> |t[c]| == |rows| && forall i :: 0 <= i < |rows| ==> t[c][i] == rows[i][c]
  {
    seq(width, c requires 0 <= c < width => seq(|rows|, i requires 0 <= i < |rows| => rows[i][c]))
  }

  /** `pd.DataFrame(data.T, columns=_metric_index(metrics, labels),
      index=times)` of a matrix: the buffers are built first, so their
      errors come before the index's. */
  ghost function FrameSpec<V>(rs: seq<RangeSeries<LabelMap>>, w: Window, sort: Option<LabelMap -> int>,
                              labels: LabelMap, parse: string -> V): Result<Table<V>, Error>
  {
    var sorted := SortedRange(rs, sort);
    match MatrixSpec(sorted, w.start, w.end, w.step, parse)
    case Err(e) => Err(e)
    case Ok(m) =>
      match IndexSpec(RangeMetrics(sorted), labels)
      case Err(e) => Err(e)
      case Ok(columns) => Ok(Frame(columns, m.times, Transpose(m.rows, |m.times|)))
  }

  /** Sorting first and converting without a key is converting with it. */
  lemma SeriesSpecSorted<V>(rs: seq<InstantSeries<LabelMap>>, sort: Option<LabelMap -> int>, labels: LabelMap,
                            parse: string -> V)
    ensures SeriesSpec(rs, sort, labels, parse) == SeriesSpec(SortedInstant(rs, sort), None, labels, parse)
  {
  }

  lemma FrameSpecSorted<V>(rs: seq<RangeSeries<LabelMap>>, w: Window, sort: Option<LabelMap -> int>,
                           labels: LabelMap, parse: string -> V)
    ensures FrameSpec(rs, w, sort, labels, parse) == FrameSpec(SortedRange(rs, sort), w, None, labels, parse)
  {
  }

  /** `_to_pandas(results, start, end, step, sort, labels)` on the snapshot of
      a response. An instant query passes no window, and a matrix then fails
      on `None + 1e-6`; a sort over a scalar or string result calls the key
      on the items of its `[time, value]` pair, which are not dicts. */
  ghost function ToPandasSpec<V>(raw: QueryData<LabelMap>, window: Option<Window>, sort: Option<LabelMap -> int>,
                                 labels: LabelMap, parse: string -> V): Result<Table<V>, Error>
  {
    match raw
    case VectorData(rs) => SeriesSpec(rs, sort, labels, parse)
    case MatrixData(rs) => if window.None? then Err(TypeError) else FrameSpec(rs, window.value, sort, labels, parse)
    case ScalarData(t, v) => if sort.Some? then Err(TypeError) else Ok(ScalarValue(t, parse(v)))
    case StringData(t, s) => if sort.Some? then Err(TypeError) else Ok(StringValue(t, s))
    case OtherData(tag) => Err(UnknownResultType(tag))
  }

  /** `sorted(results['result'], key=lambda r: sort(r['metric']))` on series
      whose label dicts are objects: the keys are taken from the dicts'
      contents, and the series are reordered as their snapshot is. */
  function SortInstant(rs: seq<InstantSeries<LabelDict>>, sort: LabelMap -> int): seq<InstantSeries<LabelDict>>
    reads set i | 0 <= i < |rs| :: rs[i].metric
  {
    SortWith(rs, SnapInstant(rs), ByInstant(sort))
  }

  function SortRange(rs: seq<RangeSeries<LabelDict>>, sort: LabelMap -> int): seq<RangeSeries<LabelDict>>
    reads set i | 0 <= i < |rs| :: rs[i].metric
  {
    SortWith(rs, SnapRange(rs), ByRange(sort))
  }

  /** The sorted series are the same series, and their snapshot is the
      snapshot sorted. */
  lemma SortInstantSnap(rs: seq<InstantSeries<LabelDict>>, sort: LabelMap -> int)
    ensures |SortInstant(rs, sort)| == |rs|
    ensures forall j :: 0 <= j < |rs| ==> SortInstant(rs, sort)[j] in rs
    ensures forall i :: 0 <= i < |rs| ==> rs[i] in SortInstant(rs, sort)
    ensures SnapInstant(SortInstant(rs, sort)) == SortBy(SnapInstant(rs), ByInstant(sort))
  {
    var snap := SnapInstant(rs);
    var sorted := SortInstant(rs, sort);
    var t := SortBy(snap, ByInstant(sort));
    SortWithSpec(rs, snap, ByInstant(sort));
    forall j | 0 <= j < |rs|
      ensures sorted[j] in rs && SnapInstant(sorted)[j] == t[j]
    {
      var i := ZipIndex(rs, snap, (sorted[j], t[j]));
    }
  }

  lemma SortRangeSnap(rs: seq<RangeSeries<LabelDict>>, sort: LabelMap -> int)
    ensures |SortRange(rs, sort)| == |rs|
    ensures forall j :: 0 <= j < |rs| ==> SortRange(rs, sort)[j] in rs
    ensures forall i :: 0 <= i < |rs| ==> rs[i] in SortRange(rs, sort)
    ensures SnapRange(SortRange(rs, sort)) == SortBy(SnapRange(rs), ByRange(sort))
  {
    var snap := SnapRange(rs);
    var sorted := SortRange(rs, sort);
    var t := SortBy(snap, ByRange(sort));
    SortWithSpec(rs, snap, ByRange(sort));
    forall j | 0 <= j < |rs|
      ensures sorted[j] in rs && SnapRange(sorted)[j] == t[j]
    {
      var i := ZipIndex(rs, snap, (sorted[j], t[j]));
    }
  }

  /** Lines 188-191 on a vector: the series, sorted when a key is given;
      its dicts are the caller's. */
  lemma ReorderInstant(rs: seq<InstantSeries<LabelDict>>, sort: Option<LabelMap -> int>, sorted: seq<InstantSeries<LabelDict>>)
    requires sorted == if sort.Some? then SortInstant(rs, sort.value) else rs
    ensures SnapInstant(sorted) == SortedInstant(SnapInstant(rs), sort)
    ensures forall j :: 0 <= j < |sorted| ==> sorted[j].metric in set i | 0 <= i < |rs| :: rs[i].metric
  {
    if sort.Some? {
      SortInstantSnap(rs, sort.value);
    }
    forall j | 0 <= j < |sorted|
      ensures sorted[j].metric in set i | 0 <= i < |rs| :: rs[i].metric
    {
      var i := IndexOf(sorted[j], rs);
      assert sorted[j].metric == rs[i].metric;
    }
  }

  /** Lines 188-191 on a matrix. */
  lemma ReorderRange(rs: seq<RangeSeries<LabelDict>>, sort: Option<LabelMap -> int>, sorted: seq<RangeSeries<LabelDict>>)
    requires sorted == if sort.Some? then SortRange(rs, sort.value) else rs
    ensures SnapRange(sorted) == SortedRange(SnapRange(rs), sort)
    ensures forall j :: 0 <= j < |sorted| ==> sorted[j].metric in set i | 0 <= i < |rs| :: rs[i].metric
  {
    if sort.Some? {
      SortRangeSnap(rs, sort.value);
    }
    forall j | 0 <= j < |sorted|
      ensures sorted[j].metric in set i | 0 <= i < |rs| :: rs[i].metric
    {
      var i := IndexOf(sorted[j], rs);
      assert sorted[j].metric == rs[i].metric;
    }
  }

  /** `_to_pandas` on a vector result: sort, fill the buffer, then build the
      index, which renames the caller's dicts when there are no extra labels. */
  method ToSeries<V>(rs: seq<InstantSeries<LabelDict>>, sort: Option<LabelMap -> int>, labels: LabelMap,
                     parse: string -> V)
    returns (r: Result<Table<V>, Error>)
    modifies set i | 0 <= i < |rs| :: rs[i].metric
    ensures r == SeriesSpec(old(SnapInstant(rs)), sort, labels, parse)
  {
    ghost var before := SnapInstant(rs);
    var sorted := if sort.Some? then SortInstant(rs, sort.value) else rs;
    ReorderInstant(rs, sort, sorted);
    SeriesSpecSorted(before, sort, labels, parse);
    r := SeriesOfSorted(sorted, SortedInstant(before, sort), labels, parse);
  }

  /** `_to_pandas` on a vector result once sorted (lines 192-196). */
  method SeriesOfSorted<V>(sorted: seq<InstantSeries<LabelDict>>, ghost spec: seq<InstantSeries<LabelMap>>,
                           labels: LabelMap, parse: string -> V)
    returns (r: Result<Table<V>, Error>)
    requires spec == SnapInstant(sorted)
    modifies set i | 0 <= i < |sorted| :: sorted[i].metric
    ensures r == SeriesSpec(spec, None, labels, parse)
  {
    var data, metrics := VectorToNumpy(sorted, parse);
    assert Entries(metrics) == InstantMetrics(spec);
    assert data[..] == seq(|spec|, i requires 0 <= i < |spec| => Some(parse(spec[i].value)));
    r := NumpyToSeries(data, metrics, labels);
  }

  /** `_numpy_to_series` (lines 265-269): the buffer with the index of the
      series' labels. */
  method NumpyToSeries<V>(data: array<Option<V>>, metrics: seq<LabelDict>, labels: LabelMap)
    returns (r: Result<Table<V>, Error>)
    modifies set i | 0 <= i < |metrics| :: metrics[i]
    ensures match IndexSpec(old(Entries(metrics)), labels)
            case Err(e) => r == Err(e)
            case Ok(index) => r == Ok(Series(index, data[..]))
    ensures forall i :: 0 <= i < |metrics| ==>
              metrics[i].entries ==
                if labels == map[] then Rename(old(metrics[i].entries)) else old(metrics[i].entries)
  {
    var index := MetricIndex(metrics, labels);
    if index.Err? {
      return Err(index.error);
    }
    r := Ok(Series(index.value, data[..]));
  }

  /** `_numpy_to_dataframe` (lines 271-276): the column index of the
      series' labels, the grid times as the row index, and the buffer
      transposed. */
  method NumpyToDataframe<V>(data: array2<Option<V>>, metrics: seq<LabelDict>, times: seq<int>, labels: LabelMap)
    returns (r: Result<Table<V>, Error>)
    requires data.Length1 == |times|
    modifies set i | 0 <= i < |metrics| :: metrics[i]
    ensures match IndexSpec(old(Entries(metrics)), labels)
            case Err(e) => r == Err(e)
            case Ok(columns) => r == Ok(Frame(columns, times, Transpose(old(Contents(data)), |times|)))
    ensures forall i :: 0 <= i < |metrics| ==>
              metrics[i].entries ==
                if labels == map[] then Rename(old(metrics[i].entries)) else old(metrics[i].entries)
  {
    var cells := Transpose(Contents(data), data.Length1);
    var columns := MetricIndex(metrics, labels);
    if columns.Err? {
      return Err(columns.error);
    }
    r := Ok(Frame(columns.value, times, cells));
  }

  /** `_matrix_to_numpy` on the sorted series, with the buffer read back as
      its rows. */
  method Buffer<V>(sorted: seq<RangeSeries<LabelDict>>, w: Window, parse: string -> V)
    returns (r: Result<Buffers<V, LabelDict>, Error>)
    ensures r.Err? <==> MatrixSpec(sorted, w.start, w.end, w.step, parse).Err?
    ensures r.Err? ==> r.error == MatrixSpec(sorted, w.start, w.end, w.step, parse).error
    ensures r.Ok? ==>
              var spec := MatrixSpec(sorted, w.start, w.end, w.step, parse).value;
              fresh(r.value.data) && r.value.metrics == RangeMetrics(sorted) &&
              r.value.times == spec.times && r.value.data.Length1 == |spec.times| &&
              Contents(r.value.data) == spec.rows
  {
    r := MatrixToNumpy(sorted, w.start, w.end, w.step, parse);
    if r.Ok? {
      ContentsIs(r.value.data, MatrixSpec(sorted, w.start, w.end, w.step, parse).value.rows);
    }
  }

  /** `_to_pandas` on a matrix result with a window: sort, fill the buffer,
      then build the frame. */
  method ToFrame<V>(rs: seq<RangeSeries<LabelDict>>, w: Window, sort: Option<LabelMap -> int>, labels: LabelMap,
                    parse: string -> V)
    returns (r: Result<Table<V>, Error>)
    modifies set i | 0 <= i < |rs| :: rs[i].metric
    ensures r == FrameSpec(old(SnapRange(rs)), w, sort, labels, parse)
  {
    ghost var before := SnapRange(rs);
    var sorted := if sort.Some? then SortRange(rs, sort.value) else rs;
    ReorderRange(rs, sort, sorted);
    FrameSpecSorted(before, w, sort, labels, parse);
    r := FrameOfSorted(sorted, SortedRange(before, sort), w, labels, parse);
  }

  /** `_to_pandas` on a matrix result once sorted (lines 197-201). */
  method FrameOfSorted<V>(sorted: seq<RangeSeries<LabelDict>>, ghost spec: seq<RangeSeries<LabelMap>>, w: Window,
                          labels: LabelMap, parse: string -> V)
    returns (r: Result<Table<V>, Error>)
    requires spec == SnapRange(sorted)
    modifies set i | 0 <= i < |sorted| :: sorted[i].metric
    ensures r == FrameSpec(spec, w, None, labels, parse)
  {
    MatrixSpecSamples(sorted, spec, w.start, w.end, w.step, parse);
    var m := Buffer(sorted, w, parse);
    if m.Err? {
      return Err(m.error);
    }
    var b := m.value;
    assert Entries(b.metrics) == RangeMetrics(spec);
    r := NumpyToDataframe(b.data, b.metrics, b.times, labels);
  }

  /** `_to_pandas`: the series are sorted first when a key is given, then
      the result type decides the conversion. */
  method ToPandas<V>(raw: QueryData<LabelDict>, window: Option<Window>, sort: Option<LabelMap -> int>,
                     labels: LabelMap, parse: string -> V)
    returns (r: Result<Table<V>, Error>)
    modifies Dicts(raw)
    ensures r == ToPandasSpec(old(Snapshot(raw)), window, sort, labels, parse)
  {
    match raw
    case VectorData(rs) =>
      r := ToSeries(rs, sort, labels, parse);
    case MatrixData(rs) =>
      if window.None? {
        r := Err(TypeError);
      } else {
        r := ToFrame(rs, window.value, sort, labels, parse);
      }
    case ScalarData(t, v) =>
      r := if sort.Some? then Err(TypeError) else Ok(ScalarValue(t, parse(v)));
    case StringData(t, text) =>
      r := if sort.Some? then Err(TypeError) else Ok(StringValue(t, text));
    case OtherData(tag) =>
      r := Err(UnknownResultType(tag));
  }

  /** `resp.json()`: a response body whose label objects become new dicts. */
  method Decode(v: QueryData<LabelMap>) returns (raw: QueryData<LabelDict>)
    ensures Snapshot(raw) == v
    ensures forall d :: d in Dicts(raw) ==> fresh(d)
  {
    match v
    case VectorData(vs) =>
      var rs := DecodeInstant(vs);
      raw := VectorData(rs);
    case MatrixData(vs) =>
      var rs := DecodeRange(vs);
      raw := MatrixData(rs);
    case ScalarData(t, x) =>
      raw := ScalarData(t, x);
    case StringData(t, text) =>
      raw := StringData(t, text);
    case OtherData(tag) =>
      raw := OtherData(tag);
  }

  method DecodeInstant(vs: seq<InstantSeries<LabelMap>>) returns (rs: seq<InstantSeries<LabelDict>>)
    ensures SnapInstant(rs) == vs
    ensures forall i :: 0 <= i < |rs| ==> fresh(rs[i].metric)
  {
    rs := [];
    var i := 0;
    while i < |vs|
      invariant 0 <= i <= |vs| && |rs| == i
      invariant forall j :: 0 <= j < i ==>
                  fresh(rs[j].metric) && rs[j].metric.entries == vs[j].metric &&
                  rs[j].time == vs[j].time && rs[j].value == vs[j].value
    {
      var d := new LabelDict(vs[i].metric);
      rs := rs + [InstantSeries(d, vs[i].time, vs[i].value)];
      i := i + 1;
    }
  }

  method DecodeRange(vs: seq<RangeSeries<LabelMap>>) returns (rs: seq<RangeSeries<LabelDict>>)
    ensures SnapRange(rs) == vs
    ensures forall i :: 0 <= i < |rs| ==> fresh(rs[i].metric)
  {
    rs := [];
    var i := 0;
    while i < |vs|
      invariant 0 <= i <= |vs| && |rs| == i
      invariant forall j :: 0 <= j < i ==>
                  fresh(rs[j].metric) && rs[j].metric.entries == vs[j].metric && rs[j].values == vs[j].values
    {
      var d := new LabelDict(vs[i].metric);
      rs := rs + [RangeSeries(d, vs[i].values)];
      i := i + 1;
    }
  }
}
