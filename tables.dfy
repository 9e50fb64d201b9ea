/** What the tables of `_to_pandas` (scaleops/promqlpandas.py:179-204) hold:
    the result type decides the kind of table, when a conversion fails,
    where each sample ends up, and that the optional sort of the series only
    reorders the rows of a series or the columns of a frame. */
module Tables {
  import opened Common
  import opened Order
  import opened Labels
  import opened Grid
  import opened Materialize
  import opened Convert

  /** The labels a series contributes to the index: merged, then renamed. */
  function InstantLabels(labels: LabelMap): InstantSeries<LabelMap> -> LabelMap
  {
    (s: InstantSeries<LabelMap>) => Rename(Merge(s.metric, labels))
  }

  function RangeLabels(labels: LabelMap): RangeSeries<LabelMap> -> LabelMap
  {
    (s: RangeSeries<LabelMap>) => Rename(Merge(s.metric, labels))
  }

  /** The value slot of a vector series. */
  function ValueOf<V>(parse: string -> V): InstantSeries<LabelMap> -> Option<V>
  {
    (s: InstantSeries<LabelMap>) => Some(parse(s.value))
  }

  /** The row of a matrix series on a grid of `len` points, when it has one. */
  function RowCells<V>(s: RangeSeries<LabelMap>, len: nat, start: int, step: int, parse: string -> V)
    : seq<Option<V>>
  {
    if step == 0 then []
    else match SeriesRow(s, len, start, step, parse)
      case Ok(row) => row
      case Err(_) => []
  }

  /** A matrix series whose samples all land on the grid of the window. */
  predicate Fits<V>(s: RangeSeries<LabelMap>, w: Window, parse: string -> V)
    requires w.step != 0
  {
    s.values != [] && AllSlotted(Parsed(s.values, parse), w.start, w.step, |Arange(w.start, w.end, w.step)|)
  }

  /** The error of a series that does not fit: ValueError when it has no
      samples, IndexError when a sample is off the grid. */
  function UnfitError(s: RangeSeries<LabelMap>): Error
  {
    if s.values == [] then EmptyValues else SlotOutOfRange
  }

  /** Series `i` is the first of `ss` that does not fit the grid. */
  predicate FirstUnfit<V>(ss: seq<RangeSeries<LabelMap>>, w: Window, parse: string -> V, i: int)
    requires w.step != 0
  {
    0 <= i < |ss| && !Fits(ss[i], w, parse) && forall j :: 0 <= j < i ==> Fits(ss[j], w, parse)
  }

  /** Column `i` of a frame: its label tuple, and its cells from the first
      timestamp to the last. */
  function Columns<V>(t: Table<V>): seq<(seq<Option<string>>, seq<Option<V>>)>
    requires t.Frame?
  {
    seq(|t.columns.tuples|, i requires 0 <= i < |t.columns.tuples| =>
      (t.columns.tuples[i],
       seq(|t.cells|, c requires 0 <= c < |t.cells| => if i < |t.cells[c]| then t.cells[c][i] else None)))
  }

  /** Two outcomes that are the same table up to the order of its series:
      both fail or neither does, and a series keeps the same label names,
      and the same (tuple, value) pairs, a frame the same label names,
      timestamps and (tuple, column) pairs. */
  ghost predicate Reordered<V>(a: Result<Table<V>, Error>, b: Result<Table<V>, Error>)
  {
    (a.Err? <==> b.Err?) &&
    (a.Ok? && b.Ok? ==>
      match (a.value, b.value)
      case (Series(ia, va), Series(ib, vb)) =>
        ia.levels == ib.levels && |ia.tuples| == |va| && |ib.tuples| == |vb| &&
        multiset(Zip(ia.tuples, va)) == multiset(Zip(ib.tuples, vb))
      case (Frame(ca, ta, _), Frame(cb, tb, _)) =>
        ca.levels == cb.levels && ta == tb && multiset(Columns(a.value)) == multiset(Columns(b.value))
      case _ => false)
  }

  /** The result type decides the kind of table: a vector becomes a series,
      a matrix a frame (and fails without a window, as for an instant query);
      a scalar or a string fails exactly when a sort key is given; an unknown
      type raises with its name. */
  lemma Dispatch<V>(raw: QueryData<LabelMap>, window: Option<Window>, sort: Option<LabelMap -> int>,
                    labels: LabelMap, parse: string -> V)
    ensures var r := ToPandasSpec(raw, window, sort, labels, parse);
            && (r.Ok? ==> (r.value.Series? <==> raw.VectorData?) && (r.value.Frame? <==> raw.MatrixData?))
            && (raw.MatrixData? && window.None? ==> r == Err(TypeError))
            && (raw.ScalarData? ==> (r.Err? <==> sort.Some?) && (r.Err? ==> r.error == TypeError))
            && (raw.ScalarData? && r.Ok? ==> r.value == ScalarValue(raw.time, parse(raw.value)))
            && (raw.StringData? ==> (r.Err? <==> sort.Some?) && (r.Err? ==> r.error == TypeError))
            && (raw.StringData? && r.Ok? ==> r.value == StringValue(raw.time, raw.text))
            && (raw.OtherData? ==> r == Err(UnknownResultType(raw.tag)))
  {
  }

  /** A vector fails exactly when its index has no label: no series at all,
      or no extra labels and every series without labels. Otherwise there is
      one value and one tuple per series, and the values are the series'
      values, in some order. */
  lemma VectorOutcome<V>(rs: seq<InstantSeries<LabelMap>>, sort: Option<LabelMap -> int>, labels: LabelMap,
                         parse: string -> V)
    ensures var r := SeriesSpec(rs, sort, labels, parse);
            && (r.Err? <==> |rs| == 0 || (labels == map[] && forall i :: 0 <= i < |rs| ==> rs[i].metric == map[]))
            && (r.Err? ==> r.error == EmptyLabelSpace)
            && (r.Ok? ==> r.value.Series? && |r.value.values| == |rs| && |r.value.index.tuples| == |rs| &&
                          multiset(r.value.values) == multiset(MapSeq(rs, ValueOf(parse))))
  {
    var sorted := SortedInstant(rs, sort);
    IndexFails(InstantMetrics(sorted), labels);
    AllPermutation(sorted, rs, (s: InstantSeries<LabelMap>) => s.metric == map[]);
    var r := SeriesSpec(rs, sort, labels, parse);
    if r.Ok? {
      IndexShape(InstantMetrics(sorted), labels);
      assert r.value.values == MapSeq(sorted, ValueOf(parse));
      MapPermutation(sorted, rs, ValueOf(parse));
    }
  }

  /** A matrix fails on a zero step; otherwise exactly when some series has
      no samples or a sample off the grid, or the index has no label. A
      series that does not fit fails the matrix before the index is built,
      with the error of the first such series in sorted order; only when
      every series fits is the error `EmptyLabelSpace`, and ValueError needs
      a series without samples. */
  lemma FrameOutcome<V>(rs: seq<RangeSeries<LabelMap>>, w: Window, sort: Option<LabelMap -> int>, labels: LabelMap,
                        parse: string -> V)
    ensures var r := FrameSpec(rs, w, sort, labels, parse);
            && (w.step == 0 ==> r == Err(ZeroStep))
            && (w.step != 0 ==>
                  (r.Err? <==> (exists i :: 0 <= i < |rs| && !Fits(rs[i], w, parse)) || |rs| == 0 ||
                               (labels == map[] && forall i :: 0 <= i < |rs| ==> rs[i].metric == map[])))
            && (w.step != 0 && r.Err? && (forall i :: 0 <= i < |rs| ==> Fits(rs[i], w, parse)) ==>
                  r.error == EmptyLabelSpace)
            && (w.step != 0 && r.Err? ==> r.error in {EmptyValues, SlotOutOfRange, EmptyLabelSpace})
            && (w.step != 0 && (exists i :: 0 <= i < |rs| && !Fits(rs[i], w, parse)) ==>
                  r.Err? && r.error in {EmptyValues, SlotOutOfRange} &&
                  exists i :: FirstUnfit(SortedRange(rs, sort), w, parse, i) &&
                              r.error == UnfitError(SortedRange(rs, sort)[i]))
            && (w.step != 0 && r.Err? && (forall i :: 0 <= i < |rs| ==> rs[i].values != []) ==>
                  r.error != EmptyValues)
  {
    if w.step != 0 {
      FrameErrorCause(rs, w, sort, labels, parse);
      var sorted := SortedRange(rs, sort);
      var m := MatrixSpec(sorted, w.start, w.end, w.step, parse);
      var ix := IndexSpec(RangeMetrics(sorted), labels);
      assert FrameSpec(rs, w, sort, labels, parse).Err? <==> m.Err? || ix.Err?;
      assert m.Err? ==> FrameSpec(rs, w, sort, labels, parse) == Err(m.error);
      assert m.Ok? && ix.Err? ==> FrameSpec(rs, w, sort, labels, parse) == Err(ix.error);
      BuffersFail(sorted, rs, w, parse);
      IndexFails(RangeMetrics(sorted), labels);
      AllPermutation(sorted, rs, (s: RangeSeries<LabelMap>) => s.metric == map[]);
    }
  }

  /** Which error a failing matrix raises: that of the first series (in
      sorted order) that does not fit, if there is one. */
  lemma FrameErrorCause<V>(rs: seq<RangeSeries<LabelMap>>, w: Window, sort: Option<LabelMap -> int>,
                           labels: LabelMap, parse: string -> V)
    requires w.step != 0
    ensures var r := FrameSpec(rs, w, sort, labels, parse);
            && ((exists i :: 0 <= i < |rs| && !Fits(rs[i], w, parse)) ==>
                  r.Err? && r.error in {EmptyValues, SlotOutOfRange} &&
                  exists i :: FirstUnfit(SortedRange(rs, sort), w, parse, i) &&
                              r.error == UnfitError(SortedRange(rs, sort)[i]))
            && (r.Err? && (forall i :: 0 <= i < |rs| ==> rs[i].values != []) ==> r.error != EmptyValues)
  {
    var sorted := SortedRange(rs, sort);
    var m := MatrixSpec(sorted, w.start, w.end, w.step, parse);
    var ix := IndexSpec(RangeMetrics(sorted), labels);
    assert m.Err? ==> FrameSpec(rs, w, sort, labels, parse) == Err(m.error);
    assert m.Ok? && ix.Err? ==> FrameSpec(rs, w, sort, labels, parse) == Err(ix.error);
    BuffersFail(sorted, rs, w, parse);
    IndexFails(RangeMetrics(sorted), labels);
    AllPermutation(sorted, rs, (s: RangeSeries<LabelMap>) => s.values != []);
  }

  /** The buffers of a matrix fail exactly when a series, in any order,
      does not fit the grid, and then with the error of the first series
      that does not fit. */
  lemma BuffersFail<V>(sorted: seq<RangeSeries<LabelMap>>, rs: seq<RangeSeries<LabelMap>>, w: Window,
                       parse: string -> V)
    requires w.step != 0 && multiset(sorted) == multiset(rs)
    ensures var m := MatrixSpec(sorted, w.start, w.end, w.step, parse);
            && (m.Err? <==> exists i :: 0 <= i < |rs| && !Fits(rs[i], w, parse))
            && (m.Err? ==> m.error in {EmptyValues, SlotOutOfRange})
            && (m.Err? ==> exists i :: FirstUnfit(sorted, w, parse, i) && m.error == UnfitError(sorted[i]))
  {
    MatrixFails(sorted, w.start, w.end, w.step, parse);
    AllPermutation(sorted, rs, (s: RangeSeries<LabelMap>) => Fits(s, w, parse));
    var m := MatrixSpec(sorted, w.start, w.end, w.step, parse);
    if m.Err? {
      var len := |Arange(w.start, w.end, w.step)|;
      var i :| 0 <= i < |sorted| && FirstFailure(sorted, len, w.start, w.step, parse, i) &&
               m.error == if sorted[i].values == [] then EmptyValues else SlotOutOfRange;
      RowFits(sorted[i], w, parse);
      forall j | 0 <= j < i
        ensures Fits(sorted[j], w, parse)
      {
        RowFits(sorted[j], w, parse);
      }
    }
  }

  /** A series' row is built exactly when the series fits the grid. */
  lemma RowFits<V>(s: RangeSeries<LabelMap>, w: Window, parse: string -> V)
    requires w.step != 0
    ensures SeriesRow(s, |Arange(w.start, w.end, w.step)|, w.start, w.step, parse).Ok? <==> Fits(s, w, parse)
  {
    if s.values != [] {
      PlaceSpec(NaNRow<V>(|Arange(w.start, w.end, w.step)|), Parsed(s.values, parse), w.start, w.step);
    }
  }

  /** A frame's timestamps are the grid of its window, with one column per
      series (in sorted order) holding that series' label tuple, and cell
      `(c, i)` holds the last sample of series `i` that lands on grid point
      `c`, or NaN. */
  lemma FrameLayout<V>(rs: seq<RangeSeries<LabelMap>>, w: Window, sort: Option<LabelMap -> int>, labels: LabelMap,
                       parse: string -> V)
    requires FrameSpec(rs, w, sort, labels, parse).Ok?
    ensures w.step != 0
    ensures var t := FrameSpec(rs, w, sort, labels, parse).value;
            var sorted := SortedRange(rs, sort);
            && t.Frame? && |sorted| == |rs|
            && t.timestamps == Arange(w.start, w.end, w.step)
            && |t.columns.tuples| == |rs| && |t.cells| == |t.timestamps|
            && (forall i :: 0 <= i < |rs| ==> t.columns.tuples[i] == Row(RangeLabels(labels)(sorted[i]), t.columns.levels))
            && (forall c :: 0 <= c < |t.cells| ==> |t.cells[c]| == |rs|)
            && (forall c, i :: 0 <= c < |t.cells| && 0 <= i < |rs| ==>
                  t.cells[c][i] == LastAt(Parsed(sorted[i].values, parse), w.start, w.step, |t.timestamps|, c))
  {
    var sorted := SortedRange(rs, sort);
    assert |sorted| == |multiset(sorted)| == |rs|;
    var t := FrameSpec(rs, w, sort, labels, parse).value;
    IndexShape(RangeMetrics(sorted), labels);
    forall c, i | 0 <= c < |t.cells| && 0 <= i < |rs|
      ensures t.cells[c][i] == LastAt(Parsed(sorted[i].values, parse), w.start, w.step, |t.timestamps|, c)
    {
      MatrixCells(sorted, w.start, w.end, w.step, parse, i, c);
    }
  }

  /** A vector's series taken in another order give the same series up to
      the order of its entries. */
  lemma SeriesPermutation<V>(xs: seq<InstantSeries<LabelMap>>, ys: seq<InstantSeries<LabelMap>>, labels: LabelMap,
                             parse: string -> V)
    requires multiset(xs) == multiset(ys)
    ensures Reordered(SeriesSpec(xs, None, labels, parse), SeriesSpec(ys, None, labels, parse))
  {
    var f := InstantLabels(labels);
    assert Prepared(InstantMetrics(xs), labels) == MapSeq(xs, f);
    assert Prepared(InstantMetrics(ys), labels) == MapSeq(ys, f);
    MapPermutation(xs, ys, f);
    KeyUnionPermutation(MapSeq(xs, f), MapSeq(ys, f));
    var levels := SortSet(KeyUnion(MapSeq(xs, f)));
    if levels != [] {
      var g := (s: InstantSeries<LabelMap>) => (Row(f(s), levels), Some(parse(s.value)));
      var a := SeriesSpec(xs, None, labels, parse).value;
      var b := SeriesSpec(ys, None, labels, parse).value;
      assert Zip(a.index.tuples, a.values) == MapSeq(xs, g);
      assert Zip(b.index.tuples, b.values) == MapSeq(ys, g);
      MapPermutation(xs, ys, g);
    }
  }

  /** A matrix's series taken in another order give the same frame up to
      the order of its columns (though a different series may be the first
      to fail, and so decide the error). */
  lemma FramePermutation<V>(xs: seq<RangeSeries<LabelMap>>, ys: seq<RangeSeries<LabelMap>>, w: Window,
                            labels: LabelMap, parse: string -> V)
    requires multiset(xs) == multiset(ys)
    ensures Reordered(FrameSpec(xs, w, None, labels, parse), FrameSpec(ys, w, None, labels, parse))
  {
    if w.step != 0 {
      var len := |Arange(w.start, w.end, w.step)|;
      RowsSpecIs(xs, len, w.start, w.step, parse);
      RowsSpecIs(ys, len, w.start, w.step, parse);
      AllPermutation(xs, ys, (s: RangeSeries<LabelMap>) => SeriesRow(s, len, w.start, w.step, parse).Ok?);
      if MatrixSpec(xs, w.start, w.end, w.step, parse).Ok? {
        var f := RangeLabels(labels);
        assert Prepared(RangeMetrics(xs), labels) == MapSeq(xs, f);
        assert Prepared(RangeMetrics(ys), labels) == MapSeq(ys, f);
        MapPermutation(xs, ys, f);
        KeyUnionPermutation(MapSeq(xs, f), MapSeq(ys, f));
        var levels := SortSet(KeyUnion(MapSeq(xs, f)));
        if levels != [] {
          var g := (s: RangeSeries<LabelMap>) => (Row(f(s), levels), RowCells(s, len, w.start, w.step, parse));
          FrameColumns(xs, w, labels, parse, g, levels);
          FrameColumns(ys, w, labels, parse, g, levels);
          MapPermutation(xs, ys, g);
        }
      }
    }
  }

  /** The columns of a frame are its series' tuples and rows. */
  lemma FrameColumns<V>(xs: seq<RangeSeries<LabelMap>>, w: Window, labels: LabelMap, parse: string -> V,
                        g: RangeSeries<LabelMap> -> (seq<Option<string>>, seq<Option<V>>), levels: seq<string>)
    requires w.step != 0 && FrameSpec(xs, w, None, labels, parse).Ok?
    requires levels == SortSet(KeyUnion(Prepared(RangeMetrics(xs), labels)))
    requires forall s :: g(s) == (Row(RangeLabels(labels)(s), levels),
                                  RowCells(s, |Arange(w.start, w.end, w.step)|, w.start, w.step, parse))
    ensures Columns(FrameSpec(xs, w, None, labels, parse).value) == MapSeq(xs, g)
  {
    var len := |Arange(w.start, w.end, w.step)|;
    RowsSpecIs(xs, len, w.start, w.step, parse);
    var t := FrameSpec(xs, w, None, labels, parse).value;
    var rows := MatrixSpec(xs, w.start, w.end, w.step, parse).value.rows;
    assert t.cells == Transpose(rows, len);
    forall i | 0 <= i < |xs|
      ensures Columns(t)[i] == g(xs[i])
    {
      assert seq(|t.cells|, c requires 0 <= c < |t.cells| => if i < |t.cells[c]| then t.cells[c][i] else None)
             == rows[i];
    }
  }

  /** With a sort key, a vector or matrix converts to the table it converts
      to without one, up to the order of its series. */
  lemma SortOnlyReorders<V>(raw: QueryData<LabelMap>, window: Option<Window>, key: LabelMap -> int,
                            labels: LabelMap, parse: string -> V)
    requires raw.VectorData? || raw.MatrixData?
    ensures Reordered(ToPandasSpec(raw, window, Some(key), labels, parse),
                      ToPandasSpec(raw, window, None, labels, parse))
  {
    if raw.VectorData? {
      SeriesSpecSorted(raw.vector, Some(key), labels, parse);
      SeriesPermutation(SortedInstant(raw.vector, Some(key)), raw.vector, labels, parse);
    } else if window.Some? {
      FrameSpecSorted(raw.matrix, window.value, Some(key), labels, parse);
      FramePermutation(SortedRange(raw.matrix, Some(key)), raw.matrix, window.value, labels, parse);
    }
  }
}
