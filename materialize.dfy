/** The dense buffers behind the converter's tables: `_vector_to_numpy`
    (scaleops/promqlpandas.py:206-227) and `_matrix_to_numpy` (229-263).

    A series' labels are kept abstract here (type parameter `L`): the
    buffers only carry them along, in series order. Sample values arrive as
    the strings of the wire format and are turned into values by `parse`,
    which stands for `np.float64`; a NaN cell is `None`. */
module Materialize {
  import opened Common
  import opened Grid

  /** One series of a vector result: `{"metric": ..., "value": [t, "v"]}`. */
  datatype InstantSeries<L> = InstantSeries(metric: L, time: int, value: string)

  /** One series of a matrix result: `{"metric": ..., "values": [[t, "v"], ...]}`. */
  datatype RangeSeries<L> = RangeSeries(metric: L, values: seq<(int, string)>)

  /** `_vector_to_numpy`: slot `i` of the buffer holds the value of series
      `i`, and the labels come back in the same order. */
  method VectorToNumpy<V, L>(results: seq<InstantSeries<L>>, parse: string -> V)
    returns (data: array<Option<V>>, metrics: seq<L>)
    ensures fresh(data)
    ensures data.Length == |results| && |metrics| == |results|
    ensures forall i :: 0 <= i < |results| ==>
              data[i] == Some(parse(results[i].value)) && metrics[i] == results[i].metric
  {
    data := new Option<V>[|results|](_ => None);
    metrics := [];
    var ii := 0;
    while ii < |results|
      invariant 0 <= ii <= |results| && |metrics| == ii
      invariant forall i :: 0 <= i < ii ==>
                  data[i] == Some(parse(results[i].value)) && metrics[i] == results[i].metric
    {
      var t := results[ii];
      data[ii] := Some(parse(t.value));
      metrics := metrics + [t.metric];
      ii := ii + 1;
    }
  }

  /** A row of `len` NaN cells. */
  function NaNRow<V>(len: nat): (row: seq<Option<V>>)
    ensures |row| == len && forall c :: 0 <= c < len ==> row[c] == None
  {
    seq(len, _ => None)
  }

  /** The samples of a series with their values parsed. */
  function Parsed<V>(values: seq<(int, string)>, parse: string -> V): (r: seq<(int, V)>)
    ensures |r| == |values|
    ensures forall j :: 0 <= j < |values| ==> r[j] == (values[j].0, parse(values[j].1))
  {
    seq(|values|, j requires 0 <= j < |values| => (values[j].0, parse(values[j].1)))
  }

  /** The row of one series in a grid of `len` points: a series without
      samples fails the unpacking at line 247, otherwise its samples are
      placed on a NaN row. */
  function SeriesRow<V, L>(s: RangeSeries<L>, len: nat, start: int, step: int, parse: string -> V)
    : Result<seq<Option<V>>, Error>
    requires step != 0
  {
    if s.values == [] then Err(EmptyValues)
    else Place(NaNRow(len), Parsed(s.values, parse), start, step)
  }

  /** The rows of all series, built in order; the first series that fails
      decides the error. */
  function RowsSpec<V, L>(results: seq<RangeSeries<L>>, len: nat, start: int, step: int, parse: string -> V)
    : (r: Result<seq<seq<Option<V>>>, Error>)
    requires step != 0
    ensures r.Ok? ==> |r.value| == |results| && forall i :: 0 <= i < |results| ==> |r.value[i]| == len
    decreases |results|
  {
    if results == [] then Ok([])
    else match SeriesRow(results[0], len, start, step, parse)
      case Err(e) => Err(e)
      case Ok(row) => Prepend([row], RowsSpec(results[1..], len, start, step, parse))
  }

  /** All rows succeed exactly when every series does, row `i` is series
      `i`'s row, and a failure is that of the first failing series. */
  lemma {:induction false} RowsSpecIs<V, L>(results: seq<RangeSeries<L>>, len: nat, start: int, step: int,
                                             parse: string -> V)
    requires step != 0
    ensures RowsSpec(results, len, start, step, parse).Ok? <==>
              forall i :: 0 <= i < |results| ==> SeriesRow(results[i], len, start, step, parse).Ok?
    ensures RowsSpec(results, len, start, step, parse).Ok? ==>
              |RowsSpec(results, len, start, step, parse).value| == |results| &&
              forall i :: 0 <= i < |results| ==>
                RowsSpec(results, len, start, step, parse).value[i] ==
                  SeriesRow(results[i], len, start, step, parse).value
    ensures RowsSpec(results, len, start, step, parse).Err? ==>
              exists i :: 0 <= i < |results| && FirstFailure(results, len, start, step, parse, i) &&
                RowsSpec(results, len, start, step, parse).error ==
                  SeriesRow(results[i], len, start, step, parse).error
    decreases |results|
  {
    if results != [] {
      var rest := results[1..];
      RowsSpecIs(rest, len, start, step, parse);
      assert forall i :: 0 < i < |results| ==> results[i] == rest[i - 1];
      var r := RowsSpec(results, len, start, step, parse);
      if SeriesRow(results[0], len, start, step, parse).Err? {
        assert FirstFailure(results, len, start, step, parse, 0);
      } else if r.Err? {
        var i :| 0 <= i < |rest| && FirstFailure(rest, len, start, step, parse, i) &&
                 r.error == SeriesRow(rest[i], len, start, step, parse).error;
        assert FirstFailure(results, len, start, step, parse, i + 1);
      } else {
        forall i | 0 <= i < |results|
          ensures r.value[i] == SeriesRow(results[i], len, start, step, parse).value
        {
          if i > 0 {
            assert r.value[i] == RowsSpec(rest, len, start, step, parse).value[i - 1];
          }
        }
      }
    }
  }

  /** Series `i` fails and none before it does. */
  predicate FirstFailure<V, L>(results: seq<RangeSeries<L>>, len: nat, start: int, step: int,
                               parse: string -> V, i: nat)
    requires step != 0
  {
    i < |results| && SeriesRow(results[i], len, start, step, parse).Err? &&
    forall j :: 0 <= j < i ==> SeriesRow(results[j], len, start, step, parse).Ok?
  }

  /** The dense matrix of a range result: one row per series, one column
      per grid point. */
  datatype Dense<V> = Dense(rows: seq<seq<Option<V>>>, times: seq<int>)

  /** What `_matrix_to_numpy(results, start, end, step)` computes. */
  function MatrixSpec<V, L>(results: seq<RangeSeries<L>>, start: int, end: int, step: int, parse: string -> V)
    : Result<Dense<V>, Error>
  {
    if step == 0 then Err(ZeroStep)
    else
      var times := Arange(start, end, step);
      match RowsSpec(results, |times|, start, step, parse)
      case Err(e) => Err(e)
      case Ok(rows) => Ok(Dense(rows, times))
  }

  /** The buffers `_matrix_to_numpy` returns. */
  datatype Buffers<V, L> = Buffers(data: array2<Option<V>>, metrics: seq<L>, times: seq<int>)

  /** `_matrix_to_numpy`: a NaN-filled series-by-grid buffer, each series'
      samples written into its row. */
  method MatrixToNumpy<V, L>(results: seq<RangeSeries<L>>, start: int, end: int, step: int, parse: string -> V)
    returns (r: Result<Buffers<V, L>, Error>)
    ensures r.Err? <==> MatrixSpec(results, start, end, step, parse).Err?
    ensures r.Err? ==> r.error == MatrixSpec(results, start, end, step, parse).error
    ensures r.Ok? ==>
              var spec := MatrixSpec(results, start, end, step, parse).value;
              var b := r.value;
              fresh(b.data) && b.times == spec.times &&
              |b.metrics| == |results| &&
              (forall i :: 0 <= i < |results| ==> b.metrics[i] == results[i].metric) &&
              b.data.Length0 == |spec.rows| && b.data.Length1 == |spec.times| &&
              forall i, c :: 0 <= i < b.data.Length0 && 0 <= c < b.data.Length1 ==>
                b.data[i, c] == spec.rows[i][c]
  {
    if step == 0 {
      return Err(ZeroStep);
    }
    var times := Arange(start, end, step);
    var data := new Option<V>[|results|, |times|]((_, _) => None);
    var metrics := FillRows(data, results, start, step, parse);
    if metrics.Err? {
      return Err(metrics.error);
    }
    r := Ok(Buffers(data, metrics.value, times));
  }

  /** The loop of `_matrix_to_numpy` over the series: row `ii` of the NaN
      buffer receives the samples of series `ii`, and the first series that
      fails stops it. */
  method FillRows<V, L>(data: array2<Option<V>>, results: seq<RangeSeries<L>>, start: int, step: int,
                        parse: string -> V)
    returns (r: Result<seq<L>, Error>)
    requires step != 0 && data.Length0 == |results|
    requires forall i, c :: 0 <= i < data.Length0 && 0 <= c < data.Length1 ==> data[i, c] == None
    modifies data
    ensures var spec := RowsSpec(results, data.Length1, start, step, parse);
            && (r.Err? <==> spec.Err?)
            && (r.Err? ==> r.error == spec.error)
            && (r.Ok? ==>
                  |r.value| == |results| &&
                  (forall i :: 0 <= i < |results| ==> r.value[i] == results[i].metric) &&
                  forall i, c :: 0 <= i < data.Length0 && 0 <= c < data.Length1 ==> data[i, c] == spec.value[i][c])
  {
    var len := data.Length1;
    var metrics := [];
    var ii := 0;
    while ii < |results|
      invariant 0 <= ii <= |results| && |metrics| == ii
      invariant forall i :: 0 <= i < ii ==> metrics[i] == results[i].metric
      invariant forall i :: 0 <= i < ii ==> SeriesRow(results[i], len, start, step, parse).Ok?
      invariant forall i, c :: 0 <= i < ii && 0 <= c < len ==>
                  data[i, c] == SeriesRow(results[i], len, start, step, parse).value[c]
      invariant forall i, c :: ii <= i < |results| && 0 <= c < len ==> data[i, c] == None
    {
      var t := results[ii];
      if t.values == [] {
        FailureAt(results, len, start, step, parse, ii);
        return Err(EmptyValues);
      }
      var ok := FillRow(data, ii, t.values, start, step, parse);
      if !ok {
        FailureAt(results, len, start, step, parse, ii);
        return Err(SlotOutOfRange);
      }
      metrics := metrics + [t.metric];
      ii := ii + 1;
    }
    RowsSpecIs(results, len, start, step, parse);
    r := Ok(metrics);
  }

  /** The first series to fail decides the error of all rows. */
  lemma FailureAt<V, L>(results: seq<RangeSeries<L>>, len: nat, start: int, step: int, parse: string -> V, ii: nat)
    requires step != 0 && FirstFailure(results, len, start, step, parse, ii)
    ensures RowsSpec(results, len, start, step, parse).Err?
    ensures RowsSpec(results, len, start, step, parse).error == SeriesRow(results[ii], len, start, step, parse).error
  {
    RowsSpecIs(results, len, start, step, parse);
    var i :| 0 <= i < |results| && FirstFailure(results, len, start, step, parse, i) &&
             RowsSpec(results, len, start, step, parse).error == SeriesRow(results[i], len, start, step, parse).error;
    assert i == ii;
  }

  /** Row `ii` of `data` as a sequence. */
  function RowOf<V>(data: array2<Option<V>>, ii: nat): (row: seq<Option<V>>)
    requires ii < data.Length0
    reads data
    ensures |row| == data.Length1 && forall c :: 0 <= c < data.Length1 ==> row[c] == data[ii, c]
  {
    seq(data.Length1, c requires 0 <= c < data.Length1 reads data => data[ii, c])
  }

  /** `data[ii, inds] = [np.float64(v) for v in values]` on a NaN row: the
      samples are written in order, and the write fails when a slot lies
      outside the row. */
  method FillRow<V>(data: array2<Option<V>>, ii: nat, values: seq<(int, string)>, start: int, step: int,
                    parse: string -> V)
    returns (ok: bool)
    requires step != 0 && ii < data.Length0
    requires forall c :: 0 <= c < data.Length1 ==> data[ii, c] == None
    modifies data
    ensures ok <==> Place(NaNRow(data.Length1), Parsed(values, parse), start, step).Ok?
    ensures ok ==> forall c :: 0 <= c < data.Length1 ==>
              data[ii, c] == Place(NaNRow(data.Length1), Parsed(values, parse), start, step).value[c]
    ensures forall i, c :: 0 <= i < data.Length0 && 0 <= c < data.Length1 && i != ii ==>
              data[i, c] == old(data[i, c])
  {
    var samples := Parsed(values, parse);
    assert RowOf(data, ii) == NaNRow(data.Length1);
    var j := 0;
    while j < |values|
      invariant 0 <= j <= |values|
      invariant Place(NaNRow(data.Length1), samples, start, step) == Place(RowOf(data, ii), samples[j..], start, step)
      invariant forall i, c :: 0 <= i < data.Length0 && 0 <= c < data.Length1 && i != ii ==>
                  data[i, c] == old(data[i, c])
    {
      var cur := RowOf(data, ii);
      assert samples[j..][0] == samples[j] && samples[j..][1..] == samples[j + 1..];
      match Slot(values[j].0, start, step, data.Length1)
      case None =>
        return false;
      case Some(k) =>
        data[ii, k] := Some(parse(values[j].1));
        assert RowOf(data, ii) == cur[k := Some(parse(values[j].1))];
      j := j + 1;
    }
    return true;
  }

  /** The rows of the buffer, as sequences. */
  function Contents<V>(data: array2<Option<V>>): (rows: seq<seq<Option<V>>>)
    reads data
    ensures |rows| == data.Length0
    ensures forall i :: 0 <= i < data.Length0 ==> rows[i] == RowOf(data, i)
  {
    seq(data.Length0, i requires 0 <= i < data.Length0 reads data => RowOf(data, i))
  }

  lemma ContentsIs<V>(data: array2<Option<V>>, rows: seq<seq<Option<V>>>)
    requires data.Length0 == |rows|
    requires forall i :: 0 <= i < |rows| ==> |rows[i]| == data.Length1
    requires forall i, c :: 0 <= i < data.Length0 && 0 <= c < data.Length1 ==> data[i, c] == rows[i][c]
    ensures Contents(data) == rows
  {
    forall i | 0 <= i < |rows|
      ensures Contents(data)[i] == rows[i]
    {
      assert RowOf(data, i) == rows[i];
    }
  }

  /** The matrix depends on the series' samples only, not on their labels. */
  lemma {:induction false} RowsSpecSamples<V, L, M>(a: seq<RangeSeries<L>>, b: seq<RangeSeries<M>>, len: nat,
                                                   start: int, step: int, parse: string -> V)
    requires step != 0 && |a| == |b|
    requires forall i :: 0 <= i < |a| ==> a[i].values == b[i].values
    ensures RowsSpec(a, len, start, step, parse) == RowsSpec(b, len, start, step, parse)
    decreases |a|
  {
    if a != [] {
      assert SeriesRow(a[0], len, start, step, parse) == SeriesRow(b[0], len, start, step, parse);
      RowsSpecSamples(a[1..], b[1..], len, start, step, parse);
    }
  }

  lemma MatrixSpecSamples<V, L, M>(a: seq<RangeSeries<L>>, b: seq<RangeSeries<M>>, start: int, end: int,
                                   step: int, parse: string -> V)
    requires |a| == |b| && forall i :: 0 <= i < |a| ==> a[i].values == b[i].values
    ensures MatrixSpec(a, start, end, step, parse) == MatrixSpec(b, start, end, step, parse)
  {
    if step != 0 {
      RowsSpecSamples(a, b, |Arange(start, end, step)|, start, step, parse);
    }
  }

  /** The conversion fails exactly for a zero step, a series without
      samples, or a sample whose slot is outside its row; and the error is
      the first such series' one. */
  lemma MatrixFails<V, L>(results: seq<RangeSeries<L>>, start: int, end: int, step: int, parse: string -> V)
    ensures MatrixSpec(results, start, end, step, parse).Err? <==>
              step == 0 ||
              exists i :: 0 <= i < |results| &&
                (results[i].values == [] ||
                 !AllSlotted(Parsed(results[i].values, parse), start, step, |Arange(start, end, step)|))
    ensures step == 0 ==> MatrixSpec(results, start, end, step, parse).error == ZeroStep
    ensures step != 0 && MatrixSpec(results, start, end, step, parse).Err? ==>
              exists i :: 0 <= i < |results| &&
                FirstFailure(results, |Arange(start, end, step)|, start, step, parse, i) &&
                MatrixSpec(results, start, end, step, parse).error ==
                  if results[i].values == [] then EmptyValues else SlotOutOfRange
  {
    if step != 0 {
      var len := |Arange(start, end, step)|;
      RowsSpecIs(results, len, start, step, parse);
      forall i | 0 <= i < |results| && results[i].values != []
        ensures SeriesRow(results[i], len, start, step, parse).Ok? <==>
                  AllSlotted(Parsed(results[i].values, parse), start, step, len)
      {
        PlaceSpec(NaNRow<V>(len), Parsed(results[i].values, parse), start, step);
      }
    }
  }

  /** In a successful matrix, a cell holds the value of the last sample of
      its series whose slot is that cell, and NaN when no sample goes there. */
  lemma MatrixCells<V, L>(results: seq<RangeSeries<L>>, start: int, end: int, step: int, parse: string -> V,
                          i: nat, c: nat)
    requires MatrixSpec(results, start, end, step, parse).Ok?
    requires i < |results| && c < |Arange(start, end, step)|
    ensures step != 0
    ensures MatrixSpec(results, start, end, step, parse).value.rows[i][c] ==
              LastAt(Parsed(results[i].values, parse), start, step, |Arange(start, end, step)|, c)
  {
    var len := |Arange(start, end, step)|;
    RowsSpecIs(results, len, start, step, parse);
    PlaceSpec(NaNRow<V>(len), Parsed(results[i].values, parse), start, step);
  }

  /** A sample taken 0.4 s after the second grid point of a 5 s grid lands
      in that point's column; the other columns stay NaN. */
  lemma MatrixExample<V, L>(m: L, parse: string -> V)
    ensures MatrixSpec([RangeSeries(m, [(5400, "a")])], 0, 10000, 5000, parse) ==
              Ok(Dense([[None, Some(parse("a")), None]], [0, 5000, 10000]))
  {
    GridExample();
    var series := [RangeSeries(m, [(5400, "a")])];
    var row := NaNRow<V>(3);
    var samples := Parsed([(5400, "a")], parse);
    assert samples == [(5400, parse("a"))];
    assert Slot(5400, 0, 5000, 3) == Some(1);
    assert samples[1..] == [];
    assert row[1 := Some(parse("a"))] == [None, Some(parse("a")), None];
    assert Place(row, samples, 0, 5000) == Ok([None, Some(parse("a")), None]);
    assert SeriesRow(series[0], 3, 0, 5000, parse) == Ok([None, Some(parse("a")), None]);
    assert series[1..] == [];
    assert RowsSpec(series[1..], 3, 0, 5000, parse) == Ok([]);
    var full: seq<Option<V>> := [None, Some(parse("a")), None];
    assert [full] + [] == [full];
    assert RowsSpec(series, 3, 0, 5000, parse) == Ok([[None, Some(parse("a")), None]]);
    assert |Arange(0, 10000, 5000)| == 3;
  }
}
