/** The time grid of a range query and the placement of samples on it
    (`_matrix_to_numpy`, scaleops/promqlpandas.py:237-258).

    Timestamps, `start`, `end` and `step` are whole milliseconds. The grid is
    `np.arange(start, end + 1e-6, step)`: with integer milliseconds the
    microsecond added to `end` makes the bound "at most `end`" for a positive
    step and "more than `end`" for a negative one. */
module Grid {
  import opened Common

  function Abs(x: int): nat { if x < 0 then -x else x }

  /** `np.rint(n / d)`: `n / d` rounded to the nearest integer, ties to the
      even neighbour. */
  function RintDiv(n: int, d: int): int
    requires d != 0
    decreases if d < 0 then 1 else 0
  {
    if d < 0 then RintDiv(-n, -d)
    else
      var f := n / d;
      var r := n % d;
      if 2 * r < d then f
      else if 2 * r > d then f + 1
      else if f % 2 == 0 then f
      else f + 1
  }

  /** Which integers `np.rint(n / d)` may return: the one nearest `n / d`,
      and at a tie the even one. */
  predicate IsRint(n: int, d: int, q: int)
    requires d != 0
  {
    2 * Abs(n - q * d) < Abs(d) || (2 * Abs(n - q * d) == Abs(d) && q % 2 == 0)
  }

  /** `RintDiv` rounds half to even, and it is the only such integer. */
  lemma RintDivSpec(n: int, d: int, q: int)
    requires d != 0
    ensures RintDiv(n, d) == q <==> IsRint(n, d, q)
    decreases if d < 0 then 1 else 0
  {
    if d < 0 {
      assert -n - q * -d == -(n - q * d);
      RintDivSpec(-n, -d, q);
    } else {
      RintPositive(n, d);
      if IsRint(n, d, q) {
        RintOnly(n, d, RintDiv(n, d), q);
      }
    }
  }

  lemma RintPositive(n: int, d: int)
    requires d > 0
    ensures IsRint(n, d, RintDiv(n, d))
  {
    var f := n / d;
    var r := n % d;
    assert n == f * d + r;
    assert n - (f + 1) * d == r - d;
  }

  /** Two integers that both qualify are equal. */
  lemma RintOnly(n: int, d: int, p: int, q: int)
    requires d > 0 && IsRint(n, d, p) && IsRint(n, d, q)
    ensures p == q
  {
    var lo, hi := if p < q then p else q, if p < q then q else p;
    Distance(n, d, lo, hi);
    EvenGap(lo, hi);
    NoGap(n - lo * d, n - hi * d, hi - lo, d);
  }

  lemma Distance(n: int, d: int, lo: int, hi: int)
    ensures (n - lo * d) - (n - hi * d) == (hi - lo) * d
  {
    assert hi * d - lo * d == (hi - lo) * d;
  }

  /** The gap between two even integers is even. */
  lemma EvenGap(lo: int, hi: int)
    ensures lo % 2 == 0 && hi % 2 == 0 ==> (hi - lo) % 2 == 0
  {
  }

  /** Two offsets within half a step of zero, of which at most one is a
      tie when they are an odd number of steps apart, cannot differ by a
      whole number of steps. */
  lemma NoGap(a: int, b: int, k: int, d: int)
    requires d > 0 && k >= 0 && a - b == k * d
    requires 2 * Abs(a) <= d && 2 * Abs(b) <= d
    requires k % 2 == 1 ==> 2 * Abs(a) < d || 2 * Abs(b) < d
    ensures k == 0
  {
    if k >= 2 {
      MulAtLeast(k, 2, d);
    }
  }

  /** `c * d >= m * d` when `c >= m` and `d > 0`. */
  lemma MulAtLeast(c: int, m: int, d: int)
    requires c >= m && d > 0
    ensures c * d >= m * d
  {
    assert c * d - m * d == (c - m) * d;
  }

  lemma RintExamples()
    ensures RintDiv(5400, 5000) == 1
    ensures RintDiv(2500, 5000) == 0
    ensures RintDiv(7500, 5000) == 2
    ensures RintDiv(-2500, 5000) == 0
    ensures RintDiv(5000, -5000) == -1
  {
  }

  /** `len(np.arange(start, end + 1e-6, step))`. */
  function GridLength(start: int, end: int, step: int): nat
    requires step != 0
  {
    if step > 0 then (if end < start then 0 else (end - start) / step + 1)
    else (if start <= end then 0 else (start - end - 1) / -step + 1)
  }

  /** `np.arange(start, end + 1e-6, step)`. */
  function Arange(start: int, end: int, step: int): (times: seq<int>)
    requires step != 0
    ensures |times| == GridLength(start, end, step)
    ensures forall i :: 0 <= i < |times| ==> times[i] == start + i * step
  {
    seq(GridLength(start, end, step), i => start + i * step)
  }

  /** The grid holds every `start + i*step` that has not passed `end`, and no
      other: an `end` on the grid is included for a positive step, and
      excluded for a negative one. */
  lemma GridBound(start: int, end: int, step: int, i: nat)
    requires step != 0
    ensures step > 0 ==> (i < GridLength(start, end, step) <==> start + i * step <= end)
    ensures step < 0 ==> (i < GridLength(start, end, step) <==> start + i * step > end)
  {
    if step > 0 {
      if end >= start {
        CountBelow(end - start, step, i);
      } else {
        MulAtLeast(i, 0, step);
      }
    } else {
      assert start + i * step == start - i * -step;
      if start > end {
        CountBelow(start - end - 1, -step, i);
      } else {
        MulAtLeast(i, 0, -step);
      }
    }
  }

  /** `i` is at most `x / s` exactly when `i * s` is at most `x`. */
  lemma CountBelow(x: nat, s: int, i: nat)
    requires s > 0
    ensures i <= x / s <==> i * s <= x
  {
    var q := x / s;
    assert x == q * s + x % s;
    if i <= q {
      MulAtLeast(q, i, s);
    } else {
      MulAtLeast(i, q + 1, s);
      assert (q + 1) * s == q * s + s;
    }
  }

  lemma GridExample()
    ensures Arange(0, 10000, 5000) == [0, 5000, 10000]
    ensures Arange(0, 9999, 5000) == [0, 5000]
    ensures Arange(10000, 0, 5000) == []
  {
    assert GridLength(0, 10000, 5000) == 3;
  }

  /** The cell a sample at time `t` is written to in a row of `len` cells:
      slot `rint((t - start) / step)`, where a slot in `[-len, -1]` counts
      from the end of the row (NumPy's negative indexing) and any other slot
      outside the row is an IndexError. */
  function Slot(t: int, start: int, step: int, len: nat): (r: Option<nat>)
    requires step != 0
    ensures r.Some? ==> r.value < len
  {
    var k := RintDiv(t - start, step);
    if 0 <= k < len then Some(k)
    else if -(len as int) <= k < 0 then Some((k + len) as nat)
    else None
  }

  /** A sample exactly on grid point `i` is written to cell `i`. */
  lemma SlotOnGrid(start: int, step: int, len: nat, i: nat)
    requires step != 0 && i < len
    ensures Slot(start + i * step, start, step, len) == Some(i)
  {
    RintDivSpec(i * step, step, i);
  }

  lemma SlotExamples()
    ensures Slot(5400, 0, 5000, 3) == Some(1)
    ensures Slot(-5000, 0, 5000, 3) == Some(2)
    ensures Slot(15000, 0, 5000, 3) == None
    ensures Slot(-20000, 0, 5000, 3) == None
  {
    RintDivSpec(-5000, 5000, -1);
    RintDivSpec(-20000, 5000, -4);
  }

  /** `data[ii, inds] = values` for one series: each sample is written in
      turn, so a cell written twice keeps the later value; a sample whose slot
      is outside the row fails the whole series. */
  function Place<V>(row: seq<Option<V>>, samples: seq<(int, V)>, start: int, step: int)
    : (r: Result<seq<Option<V>>, Error>)
    requires step != 0
    ensures r.Ok? ==> |r.value| == |row|
    ensures r.Err? ==> r.error == SlotOutOfRange
    decreases |samples|
  {
    if samples == [] then Ok(row)
    else match Slot(samples[0].0, start, step, |row|)
      case None => Err(SlotOutOfRange)
      case Some(k) => Place(row[k := Some(samples[0].1)], samples[1..], start, step)
  }

  /** Every sample lands inside a row of `len` cells. */
  predicate AllSlotted<V>(samples: seq<(int, V)>, start: int, step: int, len: nat)
    requires step != 0
  {
    forall j :: 0 <= j < |samples| ==> Slot(samples[j].0, start, step, len).Some?
  }

  /** The last sample (if any) whose slot is `k`. */
  function LastAt<V>(samples: seq<(int, V)>, start: int, step: int, len: nat, k: nat): Option<V>
    requires step != 0
  {
    if samples == [] then None
    else
      var last := samples[|samples| - 1];
      if Slot(last.0, start, step, len) == Some(k) then Some(last.1)
      else LastAt(samples[..|samples| - 1], start, step, len, k)
  }

  /** Placement succeeds exactly when every sample has a slot, and then each
      cell holds the last sample written to it, or keeps its value when no
      sample goes there. */
  lemma {:induction false} PlaceSpec<V>(row: seq<Option<V>>, samples: seq<(int, V)>, start: int, step: int)
    requires step != 0
    ensures Place(row, samples, start, step).Ok? <==> AllSlotted(samples, start, step, |row|)
    ensures Place(row, samples, start, step).Ok? ==>
              forall k :: 0 <= k < |row| ==>
                Place(row, samples, start, step).value[k] ==
                  (match LastAt(samples, start, step, |row|, k)
                   case Some(v) => Some(v)
                   case None => row[k])
    decreases |samples|
  {
    if samples != [] {
      var s := samples[0];
      var rest := samples[1..];
      match Slot(s.0, start, step, |row|)
      case None =>
      case Some(k0) =>
        var row' := row[k0 := Some(s.1)];
        PlaceSpec(row', rest, start, step);
        assert AllSlotted(samples, start, step, |row|) <==> AllSlotted(rest, start, step, |row|) by {
          assert forall j :: 0 < j < |samples| ==> samples[j] == rest[j - 1];
        }
        if Place(row', rest, start, step).Ok? {
          forall k | 0 <= k < |row|
            ensures Place(row, samples, start, step).value[k] ==
                      (match LastAt(samples, start, step, |row|, k)
                       case Some(v) => Some(v)
                       case None => row[k])
          {
            LastAtCons(samples, start, step, |row|, k);
          }
        }
    }
  }

  /** `LastAt` looks at the rest first and falls back on the first sample. */
  lemma {:induction false} LastAtCons<V>(samples: seq<(int, V)>, start: int, step: int, len: nat, k: nat)
    requires step != 0 && samples != []
    ensures LastAt(samples, start, step, len, k) ==
              match LastAt(samples[1..], start, step, len, k)
              case Some(v) => Some(v)
              case None =>
                if Slot(samples[0].0, start, step, len) == Some(k) then Some(samples[0].1) else None
    decreases |samples|
  {
    if |samples| > 1 {
      var init := samples[..|samples| - 1];
      LastAtCons(init, start, step, len, k);
      assert init[1..] == samples[1..][..|samples[1..]| - 1];
      assert init[0] == samples[0];
    }
  }

  /** Two samples in one slot: the later one is kept. */
  lemma LastWriteWins()
    ensures Place([None, None], [(0, 7), (400, 8)], 0, 1000) == Ok([Some(8), None])
  {
    var row: seq<Option<int>> := [None, None];
    var samples: seq<(int, int)> := [(0, 7), (400, 8)];
    assert Slot(0, 0, 1000, 2) == Some(0);
    assert Slot(400, 0, 1000, 2) == Some(0);
    assert samples[1..] == [(400, 8)];
    assert [(400, 8)][1..] == [];
    assert row[0 := Some(7)][0 := Some(8)] == [Some(8), None];
  }
}
