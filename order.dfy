/** Orderings the converter relies on: Python's string comparison (for the
    sorted label names at scaleops/promqlpandas.py:288) and the stable
    `sorted(..., key=...)` of the optional series sort (lines 97 and 189). */
module Order {

  /** Python's `<` on `str`: code point by code point, and a proper prefix
      comes first. */
  predicate Lt(a: string, b: string)
    decreases |a|
  {
    if a == [] then b != []
    else if b == [] then false
    else if a[0] != b[0] then a[0] < b[0]
    else Lt(a[1..], b[1..])
  }

  lemma {:induction false} LtIrreflexive(a: string)
    ensures !Lt(a, a)
    decreases |a|
  {
    if a != [] {
      LtIrreflexive(a[1..]);
    }
  }

  lemma {:induction false} LtTransitive(a: string, b: string, c: string)
    requires Lt(a, b) && Lt(b, c)
    ensures Lt(a, c)
    decreases |a|
  {
    if a != [] && b != [] && c != [] && a[0] == b[0] && b[0] == c[0] {
      LtTransitive(a[1..], b[1..], c[1..]);
    }
  }

  /** Any two different strings are ordered one way or the other. */
  lemma {:induction false} LtTotal(a: string, b: string)
    ensures a == b || Lt(a, b) || Lt(b, a)
    decreases |a|
  {
    if a != [] && b != [] && a[0] == b[0] {
      LtTotal(a[1..], b[1..]);
      if a[1..] == b[1..] {
        assert a == [a[0]] + a[1..] && b == [b[0]] + b[1..];
      }
    }
  }

  lemma {:induction false} LtAsymmetric(a: string, b: string)
    requires Lt(a, b)
    ensures !Lt(b, a)
  {
    if Lt(b, a) {
      LtTransitive(a, b, a);
      LtIrreflexive(a);
    }
  }

  predicate StrictlySorted(s: seq<string>)
  {
    forall i, j :: 0 <= i < j < |s| ==> Lt(s[i], s[j])
  }

  function Elements(s: seq<string>): set<string>
  {
    set x | x in s
  }

  /** `x` put in its place in a strictly sorted list (nothing changes when it
      is there already). */
  function Insert(x: string, s: seq<string>): seq<string>
  {
    if s == [] then [x]
    else if x == s[0] then s
    else if Lt(x, s[0]) then [x] + s
    else [s[0]] + Insert(x, s[1..])
  }

  lemma {:induction false} InsertSorted(x: string, s: seq<string>)
    requires StrictlySorted(s)
    ensures StrictlySorted(Insert(x, s))
    ensures Elements(Insert(x, s)) == Elements(s) + {x}
    decreases |s|
  {
    if s == [] {
    } else if x == s[0] {
    } else if Lt(x, s[0]) {
      BelowHead(x, s);
      SortedCons(x, s);
    } else {
      LtTotal(x, s[0]);
      InsertSorted(x, s[1..]);
      var tail := Insert(x, s[1..]);
      forall y | y in tail
        ensures Lt(s[0], y)
      {
        assert y in Elements(tail);
        if y != x {
          var k :| 0 <= k < |s[1..]| && s[1..][k] == y;
          assert s[k + 1] == y;
        }
      }
      SortedCons(s[0], tail);
      assert Elements(s) == {s[0]} + Elements(s[1..]) by {
        assert s == [s[0]] + s[1..];
      }
    }
  }

  lemma BelowHead(x: string, s: seq<string>)
    requires StrictlySorted(s) && s != [] && Lt(x, s[0])
    ensures forall y :: y in s ==> Lt(x, y)
  {
    forall y | y in s
      ensures Lt(x, y)
    {
      var k :| 0 <= k < |s| && s[k] == y;
      if k > 0 {
        LtTransitive(x, s[0], y);
      }
    }
  }

  /** Putting in front an element below all others keeps the list sorted. */
  lemma SortedCons(x: string, s: seq<string>)
    requires StrictlySorted(s)
    requires forall y :: y in s ==> Lt(x, y)
    ensures StrictlySorted([x] + s)
    ensures Elements([x] + s) == {x} + Elements(s)
  {
    var r := [x] + s;
    forall i, j | 0 <= i < j < |r|
      ensures Lt(r[i], r[j])
    {
      if i == 0 {
        assert r[j] == s[j - 1];
      } else {
        assert r[i] == s[i - 1] && r[j] == s[j - 1];
      }
    }
  }

  /** The sorted list of a set's elements (`sorted(list(levels))`). */
  ghost function SortSet(s: set<string>): (r: seq<string>)
    ensures StrictlySorted(r) && Elements(r) == s
    decreases s
  {
    if s == {} then []
    else
      var x :| x in s;
      var rest := SortSet(s - {x});
      InsertSorted(x, rest);
      Insert(x, rest)
  }

  /** A strictly sorted list is determined by its elements. */
  lemma {:induction false} SortedUnique(a: seq<string>, b: seq<string>)
    requires StrictlySorted(a) && StrictlySorted(b) && Elements(a) == Elements(b)
    ensures a == b
    decreases |a|
  {
    NoElements(a);
    NoElements(b);
    if a != [] {
      assert a[0] == b[0] by {
        assert a[0] in Elements(b) && b[0] in Elements(a);
        if a[0] != b[0] {
          var i :| 0 <= i < |b| && b[i] == a[0];
          var j :| 0 <= j < |a| && a[j] == b[0];
          assert Lt(b[0], a[0]) && Lt(a[0], b[0]);
          LtAsymmetric(a[0], b[0]);
        }
      }
      assert Elements(a[1..]) == Elements(b[1..]) by {
        forall y | y in a[1..]
          ensures y in b[1..]
        {
          TailElement(a, b, y);
        }
        forall y | y in b[1..]
          ensures y in a[1..]
        {
          TailElement(b, a, y);
        }
      }
      SortedUnique(a[1..], b[1..]);
      assert a == [a[0]] + a[1..] && b == [b[0]] + b[1..];
    }
  }

  lemma NoElements(s: seq<string>)
    ensures Elements(s) == {} <==> s == []
  {
    if s != [] {
      assert s[0] in Elements(s);
    }
  }

  lemma TailElement(a: seq<string>, b: seq<string>, y: string)
    requires StrictlySorted(a) && a != [] && b != [] && a[0] == b[0]
    requires Elements(a) == Elements(b) && y in a[1..]
    ensures y in b[1..]
  {
    var i :| 0 <= i < |a[1..]| && a[1..][i] == y;
    assert y in Elements(b);
    var k :| 0 <= k < |b| && b[k] == y;
    if k == 0 {
      assert Lt(a[0], a[i + 1]);
      LtIrreflexive(a[0]);
    } else {
      assert b[1..][k - 1] == y;
    }
  }

  /** `sorted(xs, key=key)`: stable, so items with equal keys keep their
      order. Keys are modelled as integers. */
  function SortBy<T>(xs: seq<T>, key: T -> int): (r: seq<T>)
    ensures multiset(r) == multiset(xs)
    ensures forall i, j :: 0 <= i < j < |r| ==> key(r[i]) <= key(r[j])
  {
    if xs == [] then []
    else
      var rest := SortBy(xs[1..], key);
      assert xs == [xs[0]] + xs[1..];
      InsertBySpec(xs[0], rest, key);
      InsertBy(xs[0], rest, key)
  }

  /** `x` placed before the first item whose key is not smaller. */
  function InsertBy<T>(x: T, s: seq<T>, key: T -> int): seq<T>
  {
    if s == [] then [x]
    else if key(x) <= key(s[0]) then [x] + s
    else [s[0]] + InsertBy(x, s[1..], key)
  }

  lemma {:induction false} InsertBySpec<T>(x: T, s: seq<T>, key: T -> int)
    requires forall i, j :: 0 <= i < j < |s| ==> key(s[i]) <= key(s[j])
    ensures multiset(InsertBy(x, s, key)) == multiset(s) + multiset{x}
    ensures forall i, j :: 0 <= i < j < |InsertBy(x, s, key)| ==>
              key(InsertBy(x, s, key)[i]) <= key(InsertBy(x, s, key)[j])
  {
    if s != [] && key(x) > key(s[0]) {
      InsertBySpec(x, s[1..], key);
      var tail := InsertBy(x, s[1..], key);
      assert s == [s[0]] + s[1..];
      HeadBelow(x, s, tail, key);
      ConsSortedBy(s[0], tail, key);
    }
  }

  /** The items of `xs` whose key is `k`, in their order in `xs`. */
  function WithKey<T>(xs: seq<T>, key: T -> int, k: int): seq<T>
  {
    if xs == [] then []
    else (if key(xs[0]) == k then [xs[0]] else []) + WithKey(xs[1..], key, k)
  }

  /** Inserting `x` puts it before every item of its own key. */
  lemma {:induction false} InsertByWithKey<T>(x: T, s: seq<T>, key: T -> int, k: int)
    ensures WithKey(InsertBy(x, s, key), key, k) == (if key(x) == k then [x] else []) + WithKey(s, key, k)
  {
    if s == [] {
      assert [x][1..] == [];
    } else if key(x) <= key(s[0]) {
      assert ([x] + s)[0] == x && ([x] + s)[1..] == s;
    } else {
      var tail := InsertBy(x, s[1..], key);
      assert ([s[0]] + tail)[0] == s[0] && ([s[0]] + tail)[1..] == tail;
      InsertByWithKey(x, s[1..], key, k);
    }
  }

  /** `sorted` is stable: for every key, the items with that key come out in
      the order they went in. */
  lemma {:induction false} SortByStable<T>(xs: seq<T>, key: T -> int, k: int)
    ensures WithKey(SortBy(xs, key), key, k) == WithKey(xs, key, k)
  {
    if xs != [] {
      SortByStable(xs[1..], key, k);
      InsertByWithKey(xs[0], SortBy(xs[1..], key), key, k);
    }
  }

  /** The head of a sorted list is below everything of its tail with `x`
      (whose key is larger) added. */
  lemma HeadBelow<T>(x: T, s: seq<T>, tail: seq<T>, key: T -> int)
    requires s != [] && key(x) > key(s[0])
    requires forall i, j :: 0 <= i < j < |s| ==> key(s[i]) <= key(s[j])
    requires multiset(tail) == multiset(s[1..]) + multiset{x}
    ensures forall j :: 0 <= j < |tail| ==> key(s[0]) <= key(tail[j])
  {
    forall j | 0 <= j < |tail|
      ensures key(s[0]) <= key(tail[j])
    {
      assert tail[j] in multiset(tail);
      if tail[j] != x {
        assert tail[j] in multiset(s[1..]);
        var k :| 0 <= k < |s[1..]| && s[1..][k] == tail[j];
        assert s[k + 1] == tail[j];
      }
    }
  }

  lemma ConsSortedBy<T>(h: T, tail: seq<T>, key: T -> int)
    requires forall j :: 0 <= j < |tail| ==> key(h) <= key(tail[j])
    requires forall i, j :: 0 <= i < j < |tail| ==> key(tail[i]) <= key(tail[j])
    ensures forall i, j :: 0 <= i < j < |[h] + tail| ==> key(([h] + tail)[i]) <= key(([h] + tail)[j])
  {
    var r := [h] + tail;
    forall i, j | 0 <= i < j < |r|
      ensures key(r[i]) <= key(r[j])
    {
      assert r[j] == tail[j - 1];
      if i > 0 {
        assert r[i] == tail[i - 1];
      }
    }
  }

  /** Pairs of corresponding items of two lists of equal length. */
  function Zip<A, B>(xs: seq<A>, ys: seq<B>): (ps: seq<(A, B)>)
    requires |xs| == |ys|
    ensures |ps| == |xs| && forall i :: 0 <= i < |xs| ==> ps[i] == (xs[i], ys[i])
  {
    seq(|xs|, i requires 0 <= i < |xs| => (xs[i], ys[i]))
  }

  /** Where a pair of `Zip(xs, ys)` sits. */
  lemma ZipIndex<A, B>(xs: seq<A>, ys: seq<B>, p: (A, B)) returns (i: nat)
    requires |xs| == |ys| && p in Zip(xs, ys)
    ensures i < |xs| && xs[i] == p.0 && ys[i] == p.1
  {
    var ps := Zip(xs, ys);
    var k :| 0 <= k < |ps| && ps[k] == p;
    i := k;
  }

  function Firsts<A, B>(ps: seq<(A, B)>): (xs: seq<A>)
    ensures |xs| == |ps| && forall i :: 0 <= i < |ps| ==> xs[i] == ps[i].0
  {
    seq(|ps|, i requires 0 <= i < |ps| => ps[i].0)
  }

  function Seconds<A, B>(ps: seq<(A, B)>): (ys: seq<B>)
    ensures |ys| == |ps| && forall i :: 0 <= i < |ps| ==> ys[i] == ps[i].1
  {
    seq(|ps|, i requires 0 <= i < |ps| => ps[i].1)
  }

  /** The key of a pair is the key of its second part. */
  function PairKey<A, B>(key: B -> int): ((A, B)) -> int
  {
    (p: (A, B)) => key(p.1)
  }

  /** `xs` put in the order that sorting `ys` by `key` gives, each item of
      `xs` travelling with its counterpart in `ys`. */
  function SortWith<A, B>(xs: seq<A>, ys: seq<B>, key: B -> int): seq<A>
    requires |xs| == |ys|
  {
    Firsts(SortBy(Zip(xs, ys), PairKey<A, B>(key)))
  }

  /** `SortWith` reorders `xs` alone: item `j` of the result, beside item
      `j` of `ys` sorted, is a pair of corresponding items of `xs` and `ys`,
      and every item of `xs` is kept. */
  lemma SortWithSpec<A, B>(xs: seq<A>, ys: seq<B>, key: B -> int)
    requires |xs| == |ys|
    ensures |SortWith(xs, ys, key)| == |xs| == |SortBy(ys, key)|
    ensures forall j :: 0 <= j < |xs| ==> (SortWith(xs, ys, key)[j], SortBy(ys, key)[j]) in Zip(xs, ys)
    ensures forall i :: 0 <= i < |xs| ==> xs[i] in SortWith(xs, ys, key)
  {
    var zs := Zip(xs, ys);
    var ps := SortBy(zs, PairKey<A, B>(key));
    SortByPairs(zs, key);
    assert Seconds(zs) == ys;
    PairedItems(xs, ys, ps);
  }

  /** The first parts of a reordering of `Zip(xs, ys)`, beside its second
      parts. */
  lemma PairedItems<A, B>(xs: seq<A>, ys: seq<B>, ps: seq<(A, B)>)
    requires |xs| == |ys| && multiset(ps) == multiset(Zip(xs, ys))
    ensures |ps| == |xs|
    ensures forall j :: 0 <= j < |xs| ==> (Firsts(ps)[j], Seconds(ps)[j]) in Zip(xs, ys)
    ensures forall i :: 0 <= i < |xs| ==> xs[i] in Firsts(ps)
  {
    var zs := Zip(xs, ys);
    assert |ps| == |xs| by {
      assert |multiset(ps)| == |multiset(zs)|;
    }
    forall j | 0 <= j < |xs|
      ensures (Firsts(ps)[j], Seconds(ps)[j]) in zs
    {
      assert ps[j] in multiset(zs);
    }
    forall i | 0 <= i < |xs|
      ensures xs[i] in Firsts(ps)
    {
      assert zs[i] in multiset(ps);
      var j :| 0 <= j < |ps| && ps[j] == zs[i];
      assert Firsts(ps)[j] == xs[i];
    }
  }

  lemma {:induction false} SortByPairs<A, B>(ps: seq<(A, B)>, key: B -> int)
    ensures Seconds(SortBy(ps, PairKey<A, B>(key))) == SortBy(Seconds(ps), key)
    decreases |ps|
  {
    if ps != [] {
      SortByPairs(ps[1..], key);
      assert Seconds(ps)[1..] == Seconds(ps[1..]);
      InsertByPairs(ps[0], SortBy(ps[1..], PairKey<A, B>(key)), key);
    }
  }

  lemma {:induction false} InsertByPairs<A, B>(p: (A, B), s: seq<(A, B)>, key: B -> int)
    ensures Seconds(InsertBy(p, s, PairKey<A, B>(key))) == InsertBy(p.1, Seconds(s), key)
    decreases |s|
  {
    if s != [] && key(p.1) > key(s[0].1) {
      InsertByPairs(p, s[1..], key);
      assert Seconds(s)[1..] == Seconds(s[1..]);
    }
  }

  function MapSeq<T, U>(xs: seq<T>, f: T -> U): (r: seq<U>)
    ensures |r| == |xs| && forall i :: 0 <= i < |xs| ==> r[i] == f(xs[i])
  {
    seq(|xs|, i requires 0 <= i < |xs| => f(xs[i]))
  }

  /** Applying a function item by item to two reorderings of one list gives
      two reorderings of one list. */
  lemma {:induction false} MapPermutation<T, U>(xs: seq<T>, ys: seq<T>, f: T -> U)
    requires multiset(xs) == multiset(ys)
    ensures multiset(MapSeq(xs, f)) == multiset(MapSeq(ys, f))
    decreases |xs|
  {
    if xs == [] {
      assert |ys| == |multiset(ys)| == 0;
    } else {
      var k, rest := RemoveAt(xs, ys);
      MapRemove(xs, 0, xs[1..], f);
      MapRemove(ys, k, rest, f);
      MapPermutation(xs[1..], rest, f);
    }
  }

  /** Taking item `k` out of a list takes its image out of the mapped list. */
  lemma MapRemove<T, U>(ys: seq<T>, k: nat, rest: seq<T>, f: T -> U)
    requires k < |ys| && rest == ys[..k] + ys[k + 1..]
    ensures multiset(MapSeq(ys, f)) == multiset(MapSeq(rest, f)) + multiset{f(ys[k])}
  {
    assert ys == ys[..k] + [ys[k]] + ys[k + 1..];
    MapSplit(ys[..k], ys[k + 1..], ys[k], f);
  }

  /** Taking one item out of a list takes its image out of the mapped list. */
  lemma MapSplit<T, U>(left: seq<T>, right: seq<T>, x: T, f: T -> U)
    ensures multiset(MapSeq(left + [x] + right, f)) ==
            multiset(MapSeq(left + right, f)) + multiset{f(x)}
  {
    MapAppend(left + [x], right, f);
    MapAppend(left, [x], f);
    MapAppend(left, right, f);
  }

  /** `ys` without its item `k`, which is the first item of `xs`: what is
      left of both are reorderings of one list. */
  lemma RemoveAt<T>(xs: seq<T>, ys: seq<T>) returns (k: nat, rest: seq<T>)
    requires multiset(xs) == multiset(ys) && xs != []
    ensures k < |ys| && ys[k] == xs[0]
    ensures rest == ys[..k] + ys[k + 1..] && multiset(xs[1..]) == multiset(rest)
  {
    assert xs[0] in multiset(ys);
    k :| 0 <= k < |ys| && ys[k] == xs[0];
    rest := ys[..k] + ys[k + 1..];
    assert ys == ys[..k] + [ys[k]] + ys[k + 1..];
    assert xs == [xs[0]] + xs[1..];
    assert multiset(xs[1..]) == multiset(xs) - multiset{xs[0]};
    assert multiset(rest) == multiset(ys) - multiset{xs[0]};
  }

  /** A property holds of every item of a list exactly when it holds of every
      item of a reordering of it. */
  lemma AllPermutation<T>(a: seq<T>, b: seq<T>, p: T -> bool)
    requires multiset(a) == multiset(b)
    ensures (forall i :: 0 <= i < |a| ==> p(a[i])) <==> (forall j :: 0 <= j < |b| ==> p(b[j]))
  {
    if forall i :: 0 <= i < |a| ==> p(a[i]) {
      forall j | 0 <= j < |b|
        ensures p(b[j])
      {
        assert b[j] in multiset(a);
        var i :| 0 <= i < |a| && a[i] == b[j];
      }
    }
    if forall j :: 0 <= j < |b| ==> p(b[j]) {
      forall i | 0 <= i < |a|
        ensures p(a[i])
      {
        assert a[i] in multiset(b);
        var j :| 0 <= j < |b| && b[j] == a[i];
      }
    }
  }

  lemma MapAppend<T, U>(a: seq<T>, b: seq<T>, f: T -> U)
    ensures MapSeq(a + b, f) == MapSeq(a, f) + MapSeq(b, f)
  {
  }
}
