/** Sequence operations shared by the routes and the browser scripts:
    `Array.prototype.filter`, row updates, sums, and grouping into the
    insertion-ordered buckets that a JavaScript object keyed by string gives. */
module Seqs {
  import opened Js

  /** `xs.filter(p)`. */
  function Filter<T>(xs: seq<T>, p: T -> bool): (r: seq<T>)
    ensures |r| <= |xs|
    ensures forall i :: 0 <= i < |r| ==> p(r[i])
  {
    if |xs| == 0 then [] else (if p(xs[0]) then [xs[0]] else []) + Filter(xs[1..], p)
  }

  /** Filtering keeps exactly the elements that pass. */
  lemma {:induction false} FilterMembers<T>(xs: seq<T>, p: T -> bool)
    ensures forall x :: x in Filter(xs, p) <==> x in xs && p(x)
    decreases |xs|
  {
    if |xs| > 0 {
      FilterMembers(xs[1..], p);
      assert xs == [xs[0]] + xs[1..];
    }
  }

  /** Filtering distributes over concatenation: it keeps the original order. */
  lemma {:induction false} FilterAppend<T>(a: seq<T>, b: seq<T>, p: T -> bool)
    ensures Filter(a + b, p) == Filter(a, p) + Filter(b, p)
    decreases |a|
  {
    if |a| > 0 {
      assert (a + b)[0] == a[0];
      assert (a + b)[1..] == a[1..] + b;
      FilterAppend(a[1..], b, p);
    } else {
      assert a + b == b;
    }
  }

  /** A filter that rejects nothing returns its input. */
  lemma {:induction false} FilterKeepsAll<T>(xs: seq<T>, p: T -> bool)
    requires forall i :: 0 <= i < |xs| ==> p(xs[i])
    ensures Filter(xs, p) == xs
    decreases |xs|
  {
    if |xs| > 0 {
      assert xs == [xs[0]] + xs[1..];
      FilterKeepsAll(xs[1..], p);
    }
  }

  /** Two filters that agree on every element keep the same elements. */
  lemma {:induction false} FilterSame<T>(xs: seq<T>, p: T -> bool, q: T -> bool)
    requires forall i :: 0 <= i < |xs| ==> p(xs[i]) == q(xs[i])
    ensures Filter(xs, p) == Filter(xs, q)
    decreases |xs|
  {
    if |xs| > 0 {
      FilterSame(xs[1..], p, q);
    }
  }

  /** Filtering twice is filtering once by both tests, in the same order. */
  lemma {:induction false} FilterFilter<T>(xs: seq<T>, p: T -> bool, q: T -> bool, pq: T -> bool)
    requires forall x :: pq(x) == (p(x) && q(x))
    ensures Filter(Filter(xs, p), q) == Filter(xs, pq)
    decreases |xs|
  {
    if |xs| > 0 {
      FilterFilter(xs[1..], p, q, pq);
      var head := if p(xs[0]) then [xs[0]] else [];
      FilterAppend(head, Filter(xs[1..], p), q);
      if p(xs[0]) {
        FilterOne(xs[0], q);
      }
    }
  }

  /** The first element, `xs[0]`, with `None` for `undefined`. */
  function First<T>(xs: seq<T>): (r: Option<T>)
    ensures r.None? <==> |xs| == 0
    ensures r.Some? ==> r.value == xs[0]
  {
    if |xs| == 0 then None else Some(xs[0])
  }

  /** `update ... where hit(row)`: every hit row is rewritten by `f`, the rest stay. */
  function Replace<T>(xs: seq<T>, hit: T -> bool, f: T -> T): (r: seq<T>)
    ensures |r| == |xs|
    ensures forall i :: 0 <= i < |xs| ==> r[i] == if hit(xs[i]) then f(xs[i]) else xs[i]
  {
    seq(|xs|, i requires 0 <= i < |xs| => if hit(xs[i]) then f(xs[i]) else xs[i])
  }

  // ---------------------------------------------------------------------
  // sums

  function SumInt<T>(xs: seq<T>, w: T -> int): int {
    if |xs| == 0 then 0 else w(xs[0]) + SumInt(xs[1..], w)
  }

  function SumReal<T>(xs: seq<T>, w: T -> real): real {
    if |xs| == 0 then 0.0 else w(xs[0]) + SumReal(xs[1..], w)
  }

  lemma {:induction false} SumIntAppend<T>(a: seq<T>, b: seq<T>, w: T -> int)
    ensures SumInt(a + b, w) == SumInt(a, w) + SumInt(b, w)
    decreases |a|
  {
    if |a| > 0 {
      assert (a + b)[0] == a[0];
      assert (a + b)[1..] == a[1..] + b;
      SumIntAppend(a[1..], b, w);
    } else {
      assert a + b == b;
    }
  }

  lemma {:induction false} SumRealAppend<T>(a: seq<T>, b: seq<T>, w: T -> real)
    ensures SumReal(a + b, w) == SumReal(a, w) + SumReal(b, w)
    decreases |a|
  {
    if |a| > 0 {
      assert (a + b)[0] == a[0];
      assert (a + b)[1..] == a[1..] + b;
      SumRealAppend(a[1..], b, w);
    } else {
      assert a + b == b;
    }
  }

  // ---------------------------------------------------------------------
  // grouping

  /** One bucket of `obj[key] = ...` accumulation: the key and, in order, the
      rows that landed in it. */
  datatype Group<T> = Group(key: string, members: seq<T>)

  function KeyIs<T>(key: T -> string, k: string): T -> bool {
    x => key(x) == k
  }

  /** Index of the bucket with key `k`. */
  function FindKey<T>(gs: seq<Group<T>>, k: string): (r: Option<nat>)
    ensures r.Some? ==> r.value < |gs| && gs[r.value].key == k
    ensures r.None? ==> forall i :: 0 <= i < |gs| ==> gs[i].key != k
  {
    if |gs| == 0 then None
    else if gs[|gs| - 1].key == k then Some(|gs| - 1)
    else FindKey(gs[..|gs| - 1], k)
  }

  /** `obj[k] = obj[k] || []; obj[k].push(x)`: a new key goes last. */
  function AddTo<T>(gs: seq<Group<T>>, k: string, x: T): seq<Group<T>> {
    match FindKey(gs, k)
    case Some(i) => gs[i := Group(k, gs[i].members + [x])]
    case None => gs + [Group(k, [x])]
  }

  ghost predicate KeysDistinct<T>(gs: seq<Group<T>>) {
    forall i, j :: 0 <= i < j < |gs| ==> gs[i].key != gs[j].key
  }

  /** Each bucket holds exactly the rows with its key, in their original order. */
  ghost predicate BucketsExact<T>(gs: seq<Group<T>>, rows: seq<T>, key: T -> string) {
    forall i :: 0 <= i < |gs| ==> gs[i].members == Filter(rows, KeyIs(key, gs[i].key)) && |gs[i].members| > 0
  }

  /** Every row's key has a bucket. */
  ghost predicate KeysCovered<T>(gs: seq<Group<T>>, rows: seq<T>, key: T -> string) {
    forall j :: 0 <= j < |rows| ==> FindKey(gs, key(rows[j])).Some?
  }

  /** What grouping `rows` promises: distinct keys, exact buckets, no row lost. */
  ghost predicate GroupsOf<T>(gs: seq<Group<T>>, rows: seq<T>, key: T -> string) {
    KeysDistinct(gs) && BucketsExact(gs, rows, key) && KeysCovered(gs, rows, key)
  }

  lemma FilterOne<T>(x: T, p: T -> bool)
    ensures Filter([x], p) == if p(x) then [x] else []
  {
    assert [x][1..] == [];
  }

  /** A filter that accepts nothing returns nothing. */
  lemma {:induction false} FilterKeepsNone<T>(xs: seq<T>, p: T -> bool)
    requires forall i :: 0 <= i < |xs| ==> !p(xs[i])
    ensures Filter(xs, p) == []
    decreases |xs|
  {
    if |xs| > 0 {
      FilterKeepsNone(xs[1..], p);
    }
  }

  /** A key with no bucket is the key of no row. */
  lemma NoBucketNoRows<T>(gs: seq<Group<T>>, rows: seq<T>, key: T -> string, k: string)
    requires KeysCovered(gs, rows, key)
    requires FindKey(gs, k).None?
    ensures Filter(rows, KeyIs(key, k)) == []
  {
    FilterKeepsNone(rows, KeyIs(key, k));
  }

  /** One bucket after adding `x`: still exactly the rows with its key. */
  lemma BucketAfterAdd<T>(gs: seq<Group<T>>, init: seq<T>, x: T, key: T -> string, i: nat)
    requires GroupsOf(gs, init, key)
    requires i < |AddTo(gs, key(x), x)|
    ensures var g := AddTo(gs, key(x), x)[i];
      g.members == Filter(init + [x], KeyIs(key, g.key)) && |g.members| > 0
  {
    var k := key(x);
    var g := AddTo(gs, k, x)[i];
    var p := KeyIs(key, g.key);
    FilterAppend(init, [x], p);
    FilterOne(x, p);
    match FindKey(gs, k)
    case Some(h) =>
      if i != h {
        assert g == gs[i];
        assert gs[i].key != gs[h].key;
      }
    case None =>
      if i == |gs| {
        NoBucketNoRows(gs, init, key, k);
      } else {
        assert g == gs[i];
      }
  }

  lemma {:induction false} AddToExact<T>(gs: seq<Group<T>>, init: seq<T>, x: T, key: T -> string)
    requires GroupsOf(gs, init, key)
    ensures BucketsExact(AddTo(gs, key(x), x), init + [x], key)
  {
    var gs' := AddTo(gs, key(x), x);
    forall i | 0 <= i < |gs'|
      ensures gs'[i].members == Filter(init + [x], KeyIs(key, gs'[i].key)) && |gs'[i].members| > 0
    {
      BucketAfterAdd(gs, init, x, key, i);
    }
  }

  lemma {:induction false} AddToCovers<T>(gs: seq<Group<T>>, init: seq<T>, x: T, key: T -> string)
    requires GroupsOf(gs, init, key)
    ensures KeysDistinct(AddTo(gs, key(x), x))
    ensures KeysCovered(AddTo(gs, key(x), x), init + [x], key)
  {
    var gs' := AddTo(gs, key(x), x);
    var rows := init + [x];
    assert forall i :: 0 <= i < |gs| ==> gs'[i].key == gs[i].key;
    forall j | 0 <= j < |rows| ensures FindKey(gs', key(rows[j])).Some? {
      if j < |init| {
        assert rows[j] == init[j];
        var i := FindKey(gs, key(init[j])).value;
        assert gs'[i].key == key(rows[j]);
      } else {
        assert gs'[FindKey(gs', key(x)).GetOr(|gs|)].key == key(x);
      }
    }
  }

  /** Rows grouped by `key`, buckets in order of first appearance (the order
      `Object.keys` gives for non-numeric keys). */
  function GroupBy<T>(rows: seq<T>, key: T -> string): seq<Group<T>>
    decreases |rows|
  {
    if |rows| == 0 then []
    else AddTo(GroupBy(rows[..|rows| - 1], key), key(rows[|rows| - 1]), rows[|rows| - 1])
  }

  /** The buckets `GroupBy` builds are exactly the rows per key. */
  lemma {:induction false} GroupByGroups<T>(rows: seq<T>, key: T -> string)
    ensures GroupsOf(GroupBy(rows, key), rows, key)
    decreases |rows|
  {
    if |rows| > 0 {
      var init := rows[..|rows| - 1];
      var x := rows[|rows| - 1];
      GroupByGroups(init, key);
      assert rows == init + [x];
      AddToExact(GroupBy(init, key), init, x, key);
      AddToCovers(GroupBy(init, key), init, x, key);
    }
  }

  /** Sum of a weight over every member of every bucket. */
  function GroupSum<T>(gs: seq<Group<T>>, w: T -> int): int {
    if |gs| == 0 then 0 else GroupSum(gs[..|gs| - 1], w) + SumInt(gs[|gs| - 1].members, w)
  }

  lemma {:induction false} GroupSumUpdate<T>(gs: seq<Group<T>>, i: nat, g: Group<T>, w: T -> int)
    requires i < |gs|
    ensures GroupSum(gs[i := g], w) == GroupSum(gs, w) - SumInt(gs[i].members, w) + SumInt(g.members, w)
    decreases |gs|
  {
    var n := |gs| - 1;
    if i < n {
      assert gs[i := g][..n] == gs[..n][i := g];
      GroupSumUpdate(gs[..n], i, g, w);
    } else {
      assert gs[i := g][..n] == gs[..n];
    }
  }

  /** Adding one row to the buckets adds its weight to the total. */
  lemma GroupSumAddTo<T>(gs: seq<Group<T>>, k: string, x: T, w: T -> int)
    ensures GroupSum(AddTo(gs, k, x), w) == GroupSum(gs, w) + w(x)
  {
    match FindKey(gs, k)
    case Some(i) =>
      GroupSumUpdate(gs, i, Group(k, gs[i].members + [x]), w);
      SumIntAppend(gs[i].members, [x], w);
    case None =>
      var gs' := gs + [Group(k, [x])];
      assert gs'[..|gs'| - 1] == gs;
      assert SumInt([x], w) == w(x) + SumInt([x][1..], w);
      assert [x][1..] == [];
  }

  lemma SumSnoc<T>(xs: seq<T>, x: T, w: T -> int)
    ensures SumInt(xs + [x], w) == SumInt(xs, w) + w(x)
  {
    SumIntAppend(xs, [x], w);
    assert SumInt([x], w) == w(x) + SumInt([x][1..], w);
    assert [x][1..] == [];
  }

  /** Grouping loses and duplicates nothing: summing per bucket and then over
      the buckets gives the sum over all rows. */
  lemma {:induction false} GroupByPreservesSum<T>(rows: seq<T>, key: T -> string, w: T -> int)
    ensures GroupSum(GroupBy(rows, key), w) == SumInt(rows, w)
    decreases |rows|
  {
    if |rows| > 0 {
      var init := rows[..|rows| - 1];
      var x := rows[|rows| - 1];
      var gs := GroupBy(init, key);
      assert GroupBy(rows, key) == AddTo(gs, key(x), x);
      GroupByPreservesSum(init, key, w);
      GroupSumAddTo(gs, key(x), x, w);
      assert init + [x] == rows;
      SumSnoc(init, x, w);
    }
  }

  function Unit<T>(x: T): int {
    1
  }

  lemma {:induction false} SumUnit<T>(xs: seq<T>)
    ensures SumInt(xs, Unit) == |xs|
    decreases |xs|
  {
    if |xs| > 0 {
      SumUnit(xs[1..]);
    }
  }

  /** Bucket sizes add up to the number of rows. */
  lemma GroupSizesSum<T>(rows: seq<T>, key: T -> string)
    ensures GroupSum(GroupBy(rows, key), Unit) == |rows|
  {
    GroupByPreservesSum(rows, key, Unit);
    SumUnit(rows);
  }

  /** `xs.map(f)`. */
  function MapSeq<T, U>(xs: seq<T>, f: T -> U): (r: seq<U>)
    ensures |r| == |xs| && forall i :: 0 <= i < |xs| ==> r[i] == f(xs[i])
  {
    seq(|xs|, i requires 0 <= i < |xs| => f(xs[i]))
  }

  /** Mapping then filtering on the image is filtering on the matching test
      then mapping. */
  lemma {:induction false} FilterMapSeq<T, U>(xs: seq<T>, f: T -> U, p: T -> bool, q: U -> bool)
    requires forall x :: q(f(x)) == p(x)
    ensures Filter(MapSeq(xs, f), q) == MapSeq(Filter(xs, p), f)
    decreases |xs|
  {
    if |xs| > 0 {
      FilterMapSeq(xs[1..], f, p, q);
      assert MapSeq(xs, f) == [f(xs[0])] + MapSeq(xs[1..], f);
      FilterAppend([f(xs[0])], MapSeq(xs[1..], f), q);
      var rest := Filter(xs[1..], p);
      if p(xs[0]) {
        assert MapSeq([xs[0]] + rest, f) == [f(xs[0])] + MapSeq(rest, f);
      }
    }
  }

  /** Summing one value per bucket, when each value is its bucket's sum,
      gives the sum over all buckets. */
  lemma {:induction false} SumOfGroups<T, U>(gs: seq<Group<T>>, f: Group<T> -> U, v: U -> int, w: T -> int)
    requires forall g :: v(f(g)) == SumInt(g.members, w)
    ensures SumInt(MapSeq(gs, f), v) == GroupSum(gs, w)
    decreases |gs|
  {
    if |gs| > 0 {
      var n := |gs| - 1;
      SumOfGroups(gs[..n], f, v, w);
      assert MapSeq(gs, f) == MapSeq(gs[..n], f) + [f(gs[n])];
      SumSnoc(MapSeq(gs[..n], f), f(gs[n]), v);
    }
  }

  /** 1 for the elements that pass `p`, 0 for the rest. */
  function Indicator<T>(p: T -> bool): T -> int {
    x => if p(x) then 1 else 0
  }

  /** Counting what passes a filter is summing its indicator. */
  lemma {:induction false} CountIsSum<T>(xs: seq<T>, p: T -> bool)
    ensures |Filter(xs, p)| == SumInt(xs, Indicator(p))
    decreases |xs|
  {
    if |xs| > 0 {
      CountIsSum(xs[1..], p);
    }
  }

  /** Rows that all share one key form one bucket holding all of them. */
  lemma {:induction false} GroupByOneKey<T>(rows: seq<T>, key: T -> string, k: string)
    requires |rows| > 0 && forall i :: 0 <= i < |rows| ==> key(rows[i]) == k
    ensures GroupBy(rows, key) == [Group(k, rows)]
    decreases |rows|
  {
    var n := |rows| - 1;
    var x := rows[n];
    assert GroupBy(rows, key) == AddTo(GroupBy(rows[..n], key), k, x);
    assert rows[..n] + [x] == rows;
    if n > 0 {
      GroupByOneKey(rows[..n], key, k);
      assert FindKey([Group(k, rows[..n])], k) == Some(0);
    } else {
      assert rows[..n] == [];
    }
  }

  /** Every row's key names a bucket. */
  lemma GroupByFinds<T>(rows: seq<T>, key: T -> string, x: T)
    requires x in rows
    ensures FindKey(GroupBy(rows, key), key(x)).Some?
  {
    GroupByGroups(rows, key);
    var j :| 0 <= j < |rows| && rows[j] == x;
    assert FindKey(GroupBy(rows, key), key(rows[j])).Some?;
  }
}
