/** The label index builder: `_merge_metric_labels`
    (scaleops/promqlpandas.py:300-304) and `_metric_index` (278-297).

    A series' labels are a Python dict that the builder changes in place, so
    it is a `LabelDict` object here: when no extra labels are given, the
    builder renames `__name__` inside the caller's own dicts. */
module Labels {
  import opened Common
  import opened Order

  type LabelMap = map<string, string>

  /** One series' label dict (`t['metric']`). */
  class LabelDict {
    var entries: LabelMap

    constructor (m: LabelMap)
      ensures entries == m
    {
      entries := m;
    }
  }

  const NameKey := "__name__"
  const MetricNameKey := "metric_name"

  /** The contents of a list of label dicts. */
  function Entries(ds: seq<LabelDict>): (r: seq<LabelMap>)
    reads set i | 0 <= i < |ds| :: ds[i]
    ensures |r| == |ds| && forall i :: 0 <= i < |ds| ==> r[i] == ds[i].entries
  {
    seq(|ds|, i requires 0 <= i < |ds| reads set j | 0 <= j < |ds| :: ds[j] => ds[i].entries)
  }

  /** `{**m, **labels}`: the keys of both, and the extra labels win. */
  function Merge(m: LabelMap, labels: LabelMap): (r: LabelMap)
    ensures r.Keys == m.Keys + labels.Keys
    ensures forall k :: k in labels ==> r[k] == labels[k]
    ensures forall k :: k in m && k !in labels ==> r[k] == m[k]
  {
    m + labels
  }

  /** `m['metric_name'] = m.pop('__name__')` when `__name__` is present
      (line 286): the name moves to `metric_name`, replacing any value there. */
  function Rename(m: LabelMap): (r: LabelMap)
    ensures NameKey !in r
    ensures NameKey in m ==> r.Keys == m.Keys - {NameKey} + {MetricNameKey}
    ensures NameKey in m ==> r[MetricNameKey] == m[NameKey]
    ensures NameKey !in m ==> r == m
    ensures forall k :: k in r && k != MetricNameKey ==> k in m && r[k] == m[k]
  {
    if NameKey in m then (m - {NameKey})[MetricNameKey := m[NameKey]] else m
  }

  /** Each series' labels as the index sees them: merged, then renamed. */
  function Prepared(ms: seq<LabelMap>, labels: LabelMap): (r: seq<LabelMap>)
    ensures |r| == |ms|
    ensures forall i :: 0 <= i < |ms| ==> r[i] == Rename(Merge(ms[i], labels))
  {
    seq(|ms|, i requires 0 <= i < |ms| => Rename(Merge(ms[i], labels)))
  }

  /** The union of the label names (the `levels |= set(m.keys())` loop). */
  function KeyUnion(ms: seq<LabelMap>): set<string>
  {
    if ms == [] then {} else KeyUnion(ms[..|ms| - 1]) + ms[|ms| - 1].Keys
  }

  lemma KeyUnionIs(ms: seq<LabelMap>, keys: set<string>)
    requires forall k :: k in keys <==> exists j :: 0 <= j < |ms| && k in ms[j]
    ensures keys == KeyUnion(ms)
  {
    forall k
      ensures k in keys <==> k in KeyUnion(ms)
    {
      KeyUnionMembers(ms, k);
    }
  }

  /** A name is in the union exactly when some series has it. */
  lemma {:induction false} KeyUnionMembers(ms: seq<LabelMap>, k: string)
    ensures k in KeyUnion(ms) <==> exists i :: 0 <= i < |ms| && k in ms[i]
  {
    if ms != [] {
      var init := ms[..|ms| - 1];
      KeyUnionMembers(init, k);
      if k in KeyUnion(init) {
        var i :| 0 <= i < |init| && k in init[i];
        assert ms[i] == init[i];
      }
      if exists i :: 0 <= i < |ms| && k in ms[i] {
        var i :| 0 <= i < |ms| && k in ms[i];
        if i < |init| {
          assert init[i] == ms[i];
        }
      }
    }
  }

  /** The union of label names does not depend on the order of the series. */
  lemma KeyUnionPermutation(a: seq<LabelMap>, b: seq<LabelMap>)
    requires multiset(a) == multiset(b)
    ensures KeyUnion(a) == KeyUnion(b)
  {
    forall k | k in KeyUnion(a)
      ensures k in KeyUnion(b)
    {
      KeyUnionMoves(a, b, k);
    }
    forall k | k in KeyUnion(b)
      ensures k in KeyUnion(a)
    {
      KeyUnionMoves(b, a, k);
    }
  }

  lemma KeyUnionMoves(a: seq<LabelMap>, b: seq<LabelMap>, k: string)
    requires multiset(a) == multiset(b) && k in KeyUnion(a)
    ensures k in KeyUnion(b)
  {
    KeyUnionMembers(a, k);
    var i :| 0 <= i < |a| && k in a[i];
    assert a[i] in multiset(b);
    var j := IndexOf(a[i], b);
    KeyUnionMembers(b, k);
  }

  /** `tuple(m.get(level, None) for level in levels)` (line 294). */
  function Row(m: LabelMap, levels: seq<string>): (r: seq<Option<string>>)
  {
    seq(|levels|, k requires 0 <= k < |levels| =>
      if levels[k] in m then Some(m[levels[k]]) else None)
  }

  /** The multi-index: the label names and one tuple per series. */
  datatype Index = Index(levels: seq<string>, tuples: seq<seq<Option<string>>>)

  /** What `_metric_index(metrics, labels)` returns, from the label contents
      it is called with. */
  ghost function IndexSpec(ms: seq<LabelMap>, labels: LabelMap): Result<Index, Error>
  {
    var p := Prepared(ms, labels);
    var levels := SortSet(KeyUnion(p));
    if levels == [] then Err(EmptyLabelSpace)
    else Ok(Index(levels, Rows(p, levels)))
  }

  lemma MergeNothing(m: LabelMap)
    ensures Merge(m, map[]) == m
  {
  }

  /** Renaming twice is renaming once: a dict that occurs twice in the list is
      renamed once, and the second visit changes nothing. */
  lemma RenameIdempotent(m: LabelMap)
    ensures Rename(Rename(m)) == Rename(m)
  {
  }

  /** Renaming keeps a dict empty or non-empty. */
  lemma RenameEmpty(m: LabelMap)
    ensures Rename(m) == map[] <==> m == map[]
  {
    if NameKey in m {
      assert MetricNameKey in Rename(m);
    }
  }

  /** The builder raises exactly when no series has a label: there is no
      series at all, or no extra labels and every series' dict is empty. */
  lemma IndexFails(ms: seq<LabelMap>, labels: LabelMap)
    ensures IndexSpec(ms, labels).Err? <==>
            (|ms| == 0 || (labels == map[] && forall i :: 0 <= i < |ms| ==> ms[i] == map[]))
    ensures IndexSpec(ms, labels).Err? ==> IndexSpec(ms, labels).error == EmptyLabelSpace
  {
    var p := Prepared(ms, labels);
    NoElements(SortSet(KeyUnion(p)));
    if |ms| > 0 && labels == map[] && forall i :: 0 <= i < |ms| ==> ms[i] == map[] {
      forall i | 0 <= i < |ms|
        ensures p[i] == map[]
      {
        assert Merge(ms[i], labels) == map[];
        RenameEmpty(map[]);
      }
      forall k | k in KeyUnion(p)
        ensures false
      {
        KeyUnionMembers(p, k);
      }
    }
    if |ms| > 0 && !(labels == map[] && forall i :: 0 <= i < |ms| ==> ms[i] == map[]) {
      var i: int;
      if labels != map[] {
        i := 0;
      } else {
        i :| 0 <= i < |ms| && ms[i] != map[];
      }
      assert Merge(ms[i], labels) != map[] by {
        var k :| k in ms[i].Keys + labels.Keys;
        assert k in Merge(ms[i], labels);
      }
      RenameEmpty(Merge(ms[i], labels));
      var k :| k in p[i];
      KeyUnionMembers(p, k);
    }
  }

  /** The index has one tuple per series, in series order; the levels are the
      sorted label names of all series, `__name__` never among them; and
      position `k` of a tuple holds the series' value for `levels[k]`, or None. */
  lemma IndexShape(ms: seq<LabelMap>, labels: LabelMap)
    requires IndexSpec(ms, labels).Ok?
    ensures var ix := IndexSpec(ms, labels).value;
            var p := Prepared(ms, labels);
            && StrictlySorted(ix.levels)
            && (forall k :: k in ix.levels <==> exists i :: 0 <= i < |ms| && k in p[i])
            && NameKey !in ix.levels
            && |ix.tuples| == |ms|
            && (forall i :: 0 <= i < |ms| ==> |ix.tuples[i]| == |ix.levels|)
            && (forall i, k :: 0 <= i < |ms| && 0 <= k < |ix.levels| ==>
                  ix.tuples[i][k] == (if ix.levels[k] in p[i] then Some(p[i][ix.levels[k]]) else None))
  {
    var p := Prepared(ms, labels);
    var levels := SortSet(KeyUnion(p));
    forall k
      ensures k in levels <==> exists i :: 0 <= i < |ms| && k in p[i]
    {
      assert k in levels <==> k in Elements(levels);
      KeyUnionMembers(p, k);
    }
  }

  /** What a series' prepared labels hold: every extra label other than the
      two name keys, with the extra value; and `metric_name` carries the
      `__name__` of the merged dict when there is one. */
  lemma PreparedLabels(m: LabelMap, labels: LabelMap)
    ensures forall k :: k in labels && k != NameKey && k != MetricNameKey ==>
              k in Rename(Merge(m, labels)) && Rename(Merge(m, labels))[k] == labels[k]
    ensures forall k :: k in m && k !in labels && k != NameKey && k != MetricNameKey ==>
              k in Rename(Merge(m, labels)) && Rename(Merge(m, labels))[k] == m[k]
    ensures NameKey in labels ==> Rename(Merge(m, labels))[MetricNameKey] == labels[NameKey]
    ensures NameKey in m && NameKey !in labels ==>
              Rename(Merge(m, labels))[MetricNameKey] == m[NameKey]
  {
  }

  /** `_merge_metric_labels`: with extra labels, a fresh dict per series;
      without, the very same list of dicts. */
  method MergeMetricLabels(metrics: seq<LabelDict>, labels: LabelMap) returns (out: seq<LabelDict>)
    ensures labels == map[] ==> out == metrics
    ensures labels != map[] ==>
              |out| == |metrics| &&
              forall i :: 0 <= i < |out| ==>
                fresh(out[i]) && out[i].entries == Merge(metrics[i].entries, labels)
  {
    if labels == map[] {
      return metrics;
    }
    out := [];
    var i := 0;
    while i < |metrics|
      invariant 0 <= i <= |metrics| && |out| == i
      invariant forall j :: 0 <= j < i ==>
                  fresh(out[j]) && out[j].entries == Merge(metrics[j].entries, labels)
    {
      var d := new LabelDict(metrics[i].entries + labels);
      out := out + [d];
      i := i + 1;
    }
  }

  /** `sorted(list(levels))`: the set's elements, taken in whatever order
      the set yields them, put in order. */
  method SortLevels(keys: set<string>) returns (levels: seq<string>)
    ensures levels == SortSet(keys)
  {
    levels := [];
    var rest := keys;
    while rest != {}
      invariant StrictlySorted(levels)
      invariant Elements(levels) + rest == keys
      decreases rest
    {
      var x :| x in rest;
      InsertSorted(x, levels);
      levels := Insert(x, levels);
      rest := rest - {x};
    }
    SortedUnique(levels, SortSet(keys));
  }

  /** `_metric_index`. The result is the index of the label contents at the
      call; without extra labels the caller's dicts are left renamed, with
      extra labels they are left alone. */
  method MetricIndex(metrics: seq<LabelDict>, labels: LabelMap) returns (r: Result<Index, Error>)
    modifies set i | 0 <= i < |metrics| :: metrics[i]
    ensures r == IndexSpec(old(Entries(metrics)), labels)
    ensures labels == map[] ==>
              forall i :: 0 <= i < |metrics| ==> metrics[i].entries == Rename(old(metrics[i].entries))
    ensures labels != map[] ==>
              forall i :: 0 <= i < |metrics| ==> metrics[i].entries == old(metrics[i].entries)
  {
    ghost var before := Entries(metrics);
    ghost var target := Prepared(before, labels);
    var work := MergeMetricLabels(metrics, labels);
    StartRenamed(before, labels, Entries(work));
    assert labels != map[] ==>
             forall i, j :: 0 <= i < |metrics| && 0 <= j < |work| ==> metrics[i] != work[j];
    r := IndexPrepared(work, target);
    if labels == map[] {
      forall i | 0 <= i < |metrics|
        ensures metrics[i].entries == Rename(old(metrics[i].entries))
      {
        MergeNothing(before[i]);
      }
    }
  }

  /** Lines 284-297 once the dicts to work on are chosen: rename them in
      place, then sort the label names and build one row per series. */
  method IndexPrepared(work: seq<LabelDict>, ghost target: seq<LabelMap>) returns (r: Result<Index, Error>)
    requires Renamed(Entries(work), target, 0)
    modifies set j | 0 <= j < |work| :: work[j]
    ensures Entries(work) == target
    ensures r == (var levels := SortSet(KeyUnion(target));
                  if levels == [] then Err(EmptyLabelSpace) else Ok(Index(levels, Rows(target, levels))))
  {
    var keys := RenameAll(work, target);
    var levels := SortLevels(keys);
    if |levels| == 0 {
      return Err(EmptyLabelSpace);
    }
    var tuples := Rows(Entries(work), levels);
    r := Ok(Index(levels, tuples));
  }

  /** The loop at lines 284-287: rename each series' dict in place and
      collect the union of the label names. */
  method RenameAll(work: seq<LabelDict>, ghost target: seq<LabelMap>) returns (keys: set<string>)
    requires Renamed(Entries(work), target, 0)
    modifies set j | 0 <= j < |work| :: work[j]
    ensures Entries(work) == target
    ensures keys == KeyUnion(target)
  {
    keys := {};
    var i := 0;
    while i < |work|
      invariant 0 <= i <= |work|
      invariant Renamed(Entries(work), target, i)
      invariant forall k :: k in keys <==> exists j :: 0 <= j < i && k in target[j]
    {
      var v := RenameAt(work, i, target);
      keys := keys + v.Keys;
      i := i + 1;
    }
    KeyUnionIs(target, keys);
  }

  /** One turn of the renaming loop: `__name__` of series `i` moves to
      `metric_name` in place (line 286), in every occurrence of that dict. */
  method RenameAt(work: seq<LabelDict>, i: nat, ghost target: seq<LabelMap>) returns (v: LabelMap)
    requires i < |work| && Renamed(Entries(work), target, i)
    modifies work[i]
    ensures Renamed(Entries(work), target, i + 1) && v == target[i]
    ensures work[i].entries == v
  {
    ghost var cur := Entries(work);
    var d := work[i];
    v := d.entries;
    if NameKey in v {
      var name := v[NameKey];
      v := v - {NameKey};
      v := v[MetricNameKey := name];
    }
    d.entries := v;
    ghost var same := seq(|work|, j requires 0 <= j < |work| => work[j] == d);
    assert forall j :: 0 <= j < |work| && same[j] ==> cur[j] == cur[i];
    assert forall j :: 0 <= j < |work| ==> Entries(work)[j] == if same[j] then v else cur[j];
    RenameStep(cur, Entries(work), same, v, target, i);
  }

  lemma StartRenamed(before: seq<LabelMap>, labels: LabelMap, cur: seq<LabelMap>)
    requires |cur| == |before|
    requires labels == map[] ==> cur == before
    requires labels != map[] ==> forall j :: 0 <= j < |cur| ==> cur[j] == Merge(before[j], labels)
    ensures Renamed(cur, Prepared(before, labels), 0)
  {
    forall j | 0 <= j < |cur|
      ensures Rename(cur[j]) == Prepared(before, labels)[j]
    {
      MergeNothing(before[j]);
    }
  }

  /** The state of the renaming loop after `i` series: every dict renames to
      its prepared labels, and the first `i` are renamed already. */
  ghost predicate Renamed(cur: seq<LabelMap>, target: seq<LabelMap>, i: nat)
  {
    && |cur| == |target| && i <= |cur|
    && (forall j :: 0 <= j < |cur| ==> Rename(cur[j]) == target[j])
    && (forall j :: 0 <= j < i ==> cur[j] == target[j])
  }

  /** Renaming series `i` in place also renames every other occurrence of the
      same dict, which keeps the loop's state. */
  lemma RenameStep(cur: seq<LabelMap>, next: seq<LabelMap>, same: seq<bool>, v: LabelMap,
                   target: seq<LabelMap>, i: nat)
    requires Renamed(cur, target, i) && i < |cur|
    requires |same| == |cur| == |next| && same[i] && v == Rename(cur[i])
    requires forall j :: 0 <= j < |cur| && same[j] ==> cur[j] == cur[i]
    requires forall j :: 0 <= j < |cur| ==> next[j] == if same[j] then v else cur[j]
    ensures Renamed(next, target, i + 1) && v == target[i]
  {
    RenameIdempotent(cur[i]);
  }

  function Rows(ms: seq<LabelMap>, levels: seq<string>): (r: seq<seq<Option<string>>>)
    ensures |r| == |ms| && forall i :: 0 <= i < |ms| ==> r[i] == Row(ms[i], levels)
  {
    seq(|ms|, i requires 0 <= i < |ms| => Row(ms[i], levels))
  }
}
