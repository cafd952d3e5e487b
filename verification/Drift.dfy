/**
 Drift of one feature between a baseline and a production window: the quantile-binned population
 stability index for numbers, and the same index with the total variation for categories.
 */
module Drift {
  import opened Wrappers
  import opened Sorting

  // ----- tallies -----

  function Count<T(==)>(xs: seq<T>, c: T): nat {
    if xs == [] then 0 else (if xs[0] == c then 1 else 0) + Count(xs[1..], c)
  }

  function Tally<T(==)>(xs: seq<T>, cells: seq<T>): seq<nat> {
    Map(cells, c => Count(xs, c))
  }

  function Total(counts: seq<nat>): nat {
    if counts == [] then 0 else counts[0] + Total(counts[1..])
  }

  function Sum(xs: seq<real>): real {
    if xs == [] then 0.0 else xs[0] + Sum(xs[1..])
  }

  lemma {:induction false} TallyOfNothing<T>(cells: seq<T>)
    ensures Total(Tally([], cells)) == 0
  {
    if cells != [] {
      TallyOfNothing(cells[1..]);
      assert Tally([], cells)[1..] == Tally([], cells[1..]);
    }
  }

  lemma {:induction false} TallyOneMore<T>(x: T, xs: seq<T>, cells: seq<T>)
    requires Distinct(cells)
    ensures Total(Tally([x] + xs, cells)) == Total(Tally(xs, cells)) + (if x in cells then 1 else 0)
  {
    assert ([x] + xs)[1..] == xs;
    if cells != [] {
      assert forall i :: 0 <= i < |cells[1..]| ==> cells[1..][i] == cells[i + 1];
      TallyOneMore(x, xs, cells[1..]);
      assert Tally(xs, cells)[1..] == Tally(xs, cells[1..]);
      assert Tally([x] + xs, cells)[1..] == Tally([x] + xs, cells[1..]);
      assert x == cells[0] ==> x !in cells[1..];
    }
  }

  /** Over distinct cells that cover all values, every value is counted exactly once. */
  lemma {:induction false} TallyConserves<T>(xs: seq<T>, cells: seq<T>)
    requires Distinct(cells) && forall x :: x in xs ==> x in cells
    ensures Total(Tally(xs, cells)) == |xs|
  {
    if xs == [] {
      TallyOfNothing(cells);
    } else {
      assert forall x :: x in xs[1..] ==> x in xs;
      TallyConserves(xs[1..], cells);
      TallyOneMore(xs[0], xs[1..], cells);
      assert [xs[0]] + xs[1..] == xs;
    }
  }

  lemma {:induction false} CountZero<T>(xs: seq<T>, c: T)
    ensures Count(xs, c) == 0 <==> c !in xs
    ensures Count(xs, c) <= |xs|
  {
    if xs != [] { CountZero(xs[1..], c); }
  }

  lemma TallyAt<T>(xs: seq<T>, cells: seq<T>, i: nat)
    requires i < |cells|
    ensures Tally(xs, cells)[i] == Count(xs, cells[i])
  {
  }

  // ----- bins -----

  const REAL_ORDER: Order<real> := (a: real, b: real) => a <= b

  lemma RealOrderIsTotal()
    ensures TotalPreorder(REAL_ORDER)
  {
  }

  function Interpolate(a: real, b: real, f: real): real { a + (b - a) * f }

  function Position(last: nat, j: nat, n: nat): real
    requires 0 < n
  {
    last as real * (j as real / n as real)
  }

  /** The linear-interpolation quantile j/n of an ascending, non-empty sample. */
  function Quantile(s: seq<real>, j: nat, n: nat): real
    requires s != [] && 0 < n && j <= n
  {
    var h := Position(|s| - 1, j, n);
    var i := h.Floor;
    if 0 <= i && i + 1 < |s| then Interpolate(s[i], s[i + 1], h - i as real) else s[|s| - 1]
  }

  function Quantiles(s: seq<real>, j: nat, n: nat): seq<real>
    requires s != [] && 0 < n && j <= n + 1
    decreases n + 1 - j
  {
    if j > n then [] else [Quantile(s, j, n)] + Quantiles(s, j + 1, n)
  }

  /** Adjacent duplicates of an ascending sequence removed. */
  function Dedupe(s: seq<real>): seq<real> {
    if |s| <= 1 then s
    else if s[0] == s[1] then Dedupe(s[1..])
    else [s[0]] + Dedupe(s[1..])
  }

  function CoreEdges(base: seq<real>, bins: nat): seq<real>
    requires base != [] && 0 < bins
  {
    Dedupe(Sort(Quantiles(Sort(base, REAL_ORDER), 0, bins), REAL_ORDER))
  }

  /** The finite bin edges: the baseline range, widened to the neighbouring representable points. */
  function Edges(core: seq<real>, below: real, above: real): seq<real>
    requires |core| >= 2
  {
    [below] + core[1..|core| - 1] + [above]
  }

  /** Half-open bins, with an unbounded one on either side: the bin of a value counts the edges at or below it. */
  function Bin(v: real, edges: seq<real>): nat {
    if edges == [] then 0 else (if edges[0] <= v then 1 else 0) + Bin(v, edges[1..])
  }

  function Cells(n: nat): seq<nat> {
    if n == 0 then [] else Cells(n - 1) + [n - 1]
  }

  function Labels(values: seq<real>, edges: seq<real>): seq<nat> {
    Map(values, v => Bin(v, edges))
  }

  function Histogram(values: seq<real>, edges: seq<real>): seq<nat> {
    Tally(Labels(values, edges), Cells(|edges| + 1))
  }

  ghost predicate Increasing(s: seq<real>) {
    forall i, j :: 0 <= i < j < |s| ==> s[i] < s[j]
  }

  lemma {:induction false} DedupeIncreases(s: seq<real>)
    requires Sorted(s, REAL_ORDER)
    ensures Increasing(Dedupe(s)) && (s == [] <==> Dedupe(s) == [])
    ensures forall x :: x in Dedupe(s) <==> x in s
    ensures s != [] ==> Dedupe(s)[0] == s[0] && Dedupe(s)[|Dedupe(s)| - 1] == s[|s| - 1]
  {
    if |s| > 1 {
      assert forall i, j :: 0 <= i < j < |s[1..]| ==> REAL_ORDER(s[1..][i], s[1..][j]);
      DedupeIncreases(s[1..]);
      assert s == [s[0]] + s[1..];
    }
  }

  /** A quantile lies within the sample's range; the first is its minimum and the last its maximum. */
  lemma QuantileInRange(s: seq<real>, j: nat, n: nat)
    requires s != [] && 0 < n && j <= n && Sorted(s, REAL_ORDER)
    ensures s[0] <= Quantile(s, j, n) <= s[|s| - 1]
    ensures j == 0 ==> Quantile(s, j, n) == s[0]
    ensures j == n ==> Quantile(s, j, n) == s[|s| - 1]
  {
    hide Sorted, Position, Interpolate;
    var h := Position(|s| - 1, j, n);
    var i := h.Floor;
    PositionInRange(|s| - 1, j, n);
    RangeOf(s, |s| - 1);
    if i + 1 < |s| {
      RangeOf(s, i);
      RangeOf(s, i + 1);
      AdjacentInOrder(s, i);
      InterpolateBetween(s[i], s[i + 1], h - i as real);
    }
  }

  /**
   The quantile j/n is read at rank j(|s| - 1)/n: the order statistic there when the rank is whole, and otherwise the
   point that divides the gap to the next one in the proportion the rank does.
   */
  lemma QuantileInterpolates(s: seq<real>, j: nat, n: nat)
    requires s != [] && 0 < n && j <= n
    ensures var i, rest := j * (|s| - 1) / n, j * (|s| - 1) % n;
      && 0 <= i < |s|
      && (rest == 0 ==> Quantile(s, j, n) == s[i])
      && (rest > 0 ==>
            && i + 1 < |s|
            && Quantile(s, j, n) * n as real == s[i] * (n - rest) as real + s[i + 1] * rest as real)
  {
    hide Position, Interpolate;
    var i, rest := j * (|s| - 1) / n, j * (|s| - 1) % n;
    var h := Position(|s| - 1, j, n);
    RankParts(|s| - 1, j, n, i, rest);
    if i + 1 < |s| { Divides(s[i], s[i + 1], h - i as real, n as real, rest as real); }
  }

  lemma RankParts(last: nat, j: nat, n: nat, i: int, rest: int)
    requires 0 < n && j <= n && i == j * last / n && rest == j * last % n
    ensures Position(last, j, n).Floor == i && 0 <= i <= last && (rest > 0 ==> i < last)
    ensures (Position(last, j, n) - i as real) * n as real == rest as real
    ensures rest == 0 ==> Position(last, j, n) == i as real
  {
    var h := Position(last, j, n);
    TimesQuotient(last as real, j as real, n as real);
    WholePart(h, n, i, rest, j * last);
    RankBound(last, j, n, i, rest);
  }

  lemma TimesQuotient(a: real, b: real, c: real)
    requires c > 0.0
    ensures a * (b / c) * c == b * a
  {
    assert (b / c) * c == b;
  }

  lemma WholePart(h: real, n: nat, i: int, rest: int, total: int)
    requires 0 < n && total == i * n + rest && 0 <= rest < n && h * n as real == total as real
    ensures h.Floor == i && (h - i as real) * n as real == rest as real && (rest == 0 ==> h == i as real)
  {
    var f := h - i as real;
    assert f * n as real == rest as real;
    assert 0.0 <= f < 1.0;
  }

  lemma RankBound(last: nat, j: nat, n: nat, i: int, rest: int)
    requires 0 < n && j <= n && j * last == i * n + rest && 0 <= rest < n
    ensures 0 <= i <= last && (rest > 0 ==> i < last)
  {
    MulMono(j, n, last);
    MulMono(0, j, last);
    assert (last + 1) * n == n * last + n;
    if i < 0 {
      MulMono(i, -1, n);
      assert false;
    }
    if i > last {
      MulMono(last + 1, i, n);
      assert false;
    }
    assert i == last ==> i * n == n * last;
  }

  lemma MulMono(a: int, b: int, c: nat)
    requires a <= b
    ensures a * c <= b * c
  {
  }

  lemma Divides(a: real, b: real, f: real, n: real, rest: real)
    requires f * n == rest
    ensures Interpolate(a, b, f) * n == a * (n - rest) + b * rest
    ensures f == 0.0 ==> Interpolate(a, b, f) == a
  {
    assert (b - a) * f * n == (b - a) * rest;
  }

  lemma {:induction false} QuantilesAre(s: seq<real>, j: nat, n: nat)
    requires s != [] && 0 < n && j <= n + 1
    ensures forall x :: x in Quantiles(s, j, n) <==> exists k: nat :: j <= k <= n && x == Quantile(s, k, n)
    decreases n + 1 - j
  {
    hide Quantile;
    if j <= n {
      QuantilesAre(s, j + 1, n);
      forall x | exists k: nat :: j <= k <= n && x == Quantile(s, k, n) ensures x in Quantiles(s, j, n) {
        var k: nat :| j <= k <= n && x == Quantile(s, k, n);
        if k > j { assert j + 1 <= k <= n && x == Quantile(s, k, n); }
      }
    }
  }

  /** The core edges are the quantiles of the sorted baseline and nothing else. */
  lemma CoreEdgesAreQuantiles(base: seq<real>, bins: nat, x: real)
    requires base != [] && 0 < bins
    ensures Sort(base, REAL_ORDER) != []
    ensures x in CoreEdges(base, bins) <==>
            exists k: nat :: 0 <= k <= bins && x == Quantile(Sort(base, REAL_ORDER), k, bins)
  {
    hide Quantile, Sorted;
    RealOrderIsTotal();
    SortSorts(base, REAL_ORDER);
    var s := Sort(base, REAL_ORDER);
    assert s != [] by { assert base[0] in multiset(s); }
    var q := Quantiles(s, 0, bins);
    QuantilesAre(s, 0, bins);
    SortSorts(q, REAL_ORDER);
    DedupeIncreases(Sort(q, REAL_ORDER));
    assert x in q <==> x in multiset(q);
  }

  /**
   The finite edges are the quantiles strictly inside the baseline's range, and in place of its two ends the points just
   outside it.
   */
  lemma EdgesAreInnerQuantiles(base: seq<real>, bins: nat, below: real, above: real, x: real)
    requires base != [] && 0 < bins && |CoreEdges(base, bins)| >= 2
    ensures var s := Sort(base, REAL_ORDER);
      && s != []
      && (x in Edges(CoreEdges(base, bins), below, above) <==>
          || x == below || x == above
          || (s[0] < x < s[|s| - 1] && exists k: nat :: 0 <= k <= bins && x == Quantile(s, k, bins)))
  {
    hide Quantile, CoreEdges, Sort, Increasing;
    var core := CoreEdges(base, bins);
    CoreEdgesAreQuantiles(base, bins, x);
    CoreEdgesSpanBaseline(base, bins);
    SpanIsSortedRange(base, core[0], core[|core| - 1]);
    InnerEdges(core, below, above, x);
  }

  lemma SpanIsSortedRange(base: seq<real>, low: real, high: real)
    requires base != [] && low in base && high in base && forall v :: v in base ==> low <= v <= high
    ensures var s := Sort(base, REAL_ORDER); s != [] && s[0] == low && s[|s| - 1] == high
  {
    hide Sort;
    RealOrderIsTotal();
    SortSorts(base, REAL_ORDER);
    var s := Sort(base, REAL_ORDER);
    assert s != [] by { assert base[0] in multiset(s); }
    assert forall v :: v in s <==> v in multiset(base);
    EndsOfRange(s, low, high);
  }

  lemma InnerEdges(core: seq<real>, below: real, above: real, x: real)
    requires |core| >= 2 && Increasing(core)
    ensures x in Edges(core, below, above) <==>
            x == below || x == above || (x in core && core[0] < x < core[|core| - 1])
  {
    var inner := core[1..|core| - 1];
    if x in core && core[0] < x < core[|core| - 1] {
      var i :| 0 <= i < |core| && core[i] == x;
      assert inner[i - 1] == x;
    }
    if x in inner {
      var i :| 0 <= i < |inner| && inner[i] == x;
      assert core[i + 1] == x;
    }
    assert Edges(core, below, above) == [below] + inner + [above];
  }

  lemma PositionInRange(last: nat, j: nat, n: nat)
    requires 0 < n && j <= n
    ensures 0.0 <= Position(last, j, n) <= last as real
    ensures j == 0 ==> Position(last, j, n) == 0.0
    ensures j == n ==> Position(last, j, n) == last as real
  {
    var q := j as real / n as real;
    ShareInUnit(j, n);
    Between(last as real, q);
    assert q == 1.0 ==> last as real * q == last as real;
    assert q == 0.0 ==> last as real * q == 0.0;
  }

  /** A part of a whole, as a share of it. */
  lemma ShareInUnit(j: nat, n: nat)
    requires 0 < n && j <= n
    ensures 0.0 <= j as real / n as real <= 1.0
    ensures j == 0 ==> j as real / n as real == 0.0
    ensures j == n ==> j as real / n as real == 1.0
  {
    QuotientSign(j as real, n as real);
  }

  lemma InterpolateBetween(a: real, b: real, f: real)
    requires a <= b && 0.0 <= f <= 1.0
    ensures a <= Interpolate(a, b, f) <= b
    ensures f == 0.0 ==> Interpolate(a, b, f) == a
  {
    Between(b - a, f);
  }

  lemma AdjacentInOrder(s: seq<real>, i: nat)
    requires Sorted(s, REAL_ORDER) && i + 1 < |s|
    ensures s[i] <= s[i + 1]
  {
  }

  lemma RangeOf(s: seq<real>, i: nat)
    requires Sorted(s, REAL_ORDER) && i < |s|
    ensures s[0] <= s[i] <= s[|s| - 1]
  {
  }

  lemma Between(a: real, f: real)
    requires a >= 0.0 && 0.0 <= f <= 1.0
    ensures 0.0 <= a * f <= a
  {
  }

  lemma {:induction false} QuantilesInRange(s: seq<real>, j: nat, n: nat)
    requires s != [] && 0 < n && j <= n && Sorted(s, REAL_ORDER)
    ensures var qs := Quantiles(s, j, n);
      && qs != [] && (forall x :: x in qs ==> s[0] <= x <= s[|s| - 1])
      && s[|s| - 1] in qs && (j == 0 ==> s[0] in qs)
    decreases n - j
  {
    hide Sorted, Quantile, Quantiles;
    QuantileInRange(s, j, n);
    QuantilesFirst(s, j, n);
    if j < n { QuantilesInRange(s, j + 1, n); }
  }

  lemma QuantilesFirst(s: seq<real>, j: nat, n: nat)
    requires s != [] && 0 < n && j <= n
    ensures Quantiles(s, j, n) == [Quantile(s, j, n)] + if j == n then [] else Quantiles(s, j + 1, n)
  {
  }

  /** The core edges increase strictly and span exactly the baseline's range. */
  lemma CoreEdgesSpanBaseline(base: seq<real>, bins: nat)
    requires base != [] && 0 < bins
    ensures var core := CoreEdges(base, bins);
      && core != [] && Increasing(core)
      && (forall v :: v in base ==> core[0] <= v <= core[|core| - 1])
      && core[0] in base && core[|core| - 1] in base
  {
    hide Sort, Quantiles, Dedupe, TotalPreorder, Sorted, Increasing;
    RealOrderIsTotal();
    var s := Sort(base, REAL_ORDER);
    SortSorts(base, REAL_ORDER);
    assert base[0] in s;
    var qs := Quantiles(s, 0, bins);
    QuantilesInRange(s, 0, bins);
    var sorted := Sort(qs, REAL_ORDER);
    SortSorts(qs, REAL_ORDER);
    DedupeIncreases(sorted);
    EndsOfRange(sorted, s[0], s[|s| - 1]);
    forall v | v in base ensures s[0] <= v <= s[|s| - 1] {
      MemberInRange(s, v);
    }
  }

  lemma MemberInRange(s: seq<real>, v: real)
    requires Sorted(s, REAL_ORDER) && v in s
    ensures s[0] <= v <= s[|s| - 1]
  {
    var i :| 0 <= i < |s| && s[i] == v;
    RangeOf(s, i);
  }

  lemma EndsOfRange(s: seq<real>, low: real, high: real)
    requires Sorted(s, REAL_ORDER) && low in s && high in s
    requires forall x :: x in s ==> low <= x <= high
    ensures s[0] == low && s[|s| - 1] == high
  {
    var i :| 0 <= i < |s| && s[i] == low;
    var j :| 0 <= j < |s| && s[j] == high;
    RangeOf(s, i);
    RangeOf(s, j);
    assert s[0] in s && s[|s| - 1] in s;
  }

  lemma EdgesIncrease(core: seq<real>, below: real, above: real)
    requires |core| >= 2 && Increasing(core) && below < core[0] && core[|core| - 1] < above
    ensures Increasing(Edges(core, below, above))
  {
  }

  /** A value's bin is the one half-open interval that contains it. */
  lemma {:induction false} BinIsInterval(v: real, edges: seq<real>, i: nat)
    requires Increasing(edges) && i <= |edges|
    ensures Bin(v, edges) <= |edges|
    ensures Bin(v, edges) == i <==> (i == 0 || edges[i - 1] <= v) && (i == |edges| || v < edges[i])
  {
    if edges != [] {
      var rest := edges[1..];
      assert forall a, b :: 0 <= a < b < |rest| ==> rest[a] == edges[a + 1] && rest[b] == edges[b + 1];
      BinIsInterval(v, rest, if i == 0 then 0 else i - 1);
      if v < edges[0] {
        BinIsInterval(v, rest, 0);
        assert rest != [] ==> v < rest[0];
      }
    }
  }

  lemma {:induction false} CellsAre(n: nat)
    ensures |Cells(n)| == n && forall i :: 0 <= i < n ==> Cells(n)[i] == i
    ensures forall c :: c in Cells(n) <==> 0 <= c < n
  {
    if n > 0 { CellsAre(n - 1); }
  }

  /** No value is lost or counted twice. */
  lemma HistogramConserves(values: seq<real>, edges: seq<real>)
    requires Increasing(edges)
    ensures |Histogram(values, edges)| == |edges| + 1
    ensures Total(Histogram(values, edges)) == |values|
  {
    var bins := Labels(values, edges);
    CellsAre(|edges| + 1);
    forall b | b in bins ensures b in Cells(|edges| + 1) {
      var i :| 0 <= i < |bins| && bins[i] == b;
      BinIsInterval(values[i], edges, 0);
    }
    TallyConserves(bins, Cells(|edges| + 1));
  }

  /** Baseline values never land in either overflow bin, and all of them are in the bins between. */
  lemma BaselineStaysInside(base: seq<real>, bins: nat, below: real, above: real)
    requires base != [] && 0 < bins && |CoreEdges(base, bins)| >= 2
    requires var core := CoreEdges(base, bins); below < core[0] && core[|core| - 1] < above
    ensures var edges := Edges(CoreEdges(base, bins), below, above);
      var counts := Histogram(base, edges);
      Increasing(edges) && counts[0] == 0 && counts[|counts| - 1] == 0 && Total(counts) == |base|
  {
    var core := CoreEdges(base, bins);
    CoreEdgesSpanBaseline(base, bins);
    EdgesIncrease(core, below, above);
    var edges := Edges(core, below, above);
    HistogramConserves(base, edges);
    CellsAre(|edges| + 1);
    var labels := Labels(base, edges);
    forall i | 0 <= i < |labels| ensures labels[i] != 0 && labels[i] != |edges| {
      assert base[i] in base;
      BinIsInterval(base[i], edges, 0);
      BinIsInterval(base[i], edges, |edges|);
    }
    assert 0 !in labels && |edges| !in labels;
    EmptyBin(base, edges, 0);
    EmptyBin(base, edges, |edges|);
  }

  lemma EmptyBin(values: seq<real>, edges: seq<real>, b: nat)
    requires b <= |edges| && b !in Labels(values, edges)
    ensures |Histogram(values, edges)| == |edges| + 1 && Histogram(values, edges)[b] == 0
  {
    var cells := Cells(|edges| + 1);
    CellsAre(|edges| + 1);
    TallyAt(Labels(values, edges), cells, b);
    var c := cells[b];
    assert c == b;
    CountZero(Labels(values, edges), c);
  }

  // ----- the stability index -----

  /** All the index needs to know about the logarithm: its sign on either side of one. */
  ghost predicate LogSign(ln: real -> real) {
    forall x :: x > 0.0 ==> (x > 1.0 ==> ln(x) > 0.0) && (x == 1.0 ==> ln(x) == 0.0) && (x < 1.0 ==> ln(x) < 0.0)
  }

  function Smoothed(count: nat, total: nat, cells: nat, epsilon: real): (p: real)
    requires epsilon > 0.0 && cells > 0
    ensures p > 0.0
  {
    (count as real + epsilon) / (total as real + epsilon * cells as real)
  }

  function Proportions(counts: seq<nat>, total: nat, cells: nat, epsilon: real): (p: seq<real>)
    requires epsilon > 0.0 && cells > 0
    ensures |p| == |counts|
    ensures forall i :: 0 <= i < |p| ==> p[i] > 0.0 && p[i] == Smoothed(counts[i], total, cells, epsilon)
  {
    Map(counts, c => Smoothed(c, total, cells, epsilon))
  }

  function Divergence(p: real, q: real, ln: real -> real): real
    requires p > 0.0
  {
    (q - p) * ln(q / p)
  }

  function Psi(p: seq<real>, q: seq<real>, ln: real -> real): real
    requires |p| == |q| && forall i :: 0 <= i < |p| ==> p[i] > 0.0
  {
    if p == [] then 0.0 else Divergence(p[0], q[0], ln) + Psi(p[1..], q[1..], ln)
  }

  lemma PsiTerm(p: real, q: real, ln: real -> real)
    requires p > 0.0 && q > 0.0 && LogSign(ln)
    ensures Divergence(p, q, ln) >= 0.0
    ensures Divergence(p, q, ln) == 0.0 <==> p == q
  {
    var ratio := q / p;
    QuotientSign(q, p);
    if q > p {
      Product(q - p, ln(ratio));
    } else if q < p {
      Product(p - q, -ln(ratio));
      assert (q - p) * ln(ratio) == (p - q) * -ln(ratio);
    }
  }

  /** Dividing by a positive number compares with one as the numbers compare. */
  lemma QuotientSign(a: real, b: real)
    requires b > 0.0
    ensures a > b ==> a / b > 1.0
    ensures a == b ==> a / b == 1.0
    ensures a < b ==> a / b < 1.0
    ensures a > 0.0 ==> a / b > 0.0
    ensures a >= 0.0 ==> a / b >= 0.0
  {
    var x := a / b;
    assert x * b == a;
    assert (x - 1.0) * b == a - b;
    SignOf(x, b);
    SignOf(x - 1.0, b);
  }

  lemma SignOf(x: real, b: real)
    requires b > 0.0
    ensures x > 0.0 <==> x * b > 0.0
    ensures x == 0.0 <==> x * b == 0.0
  {
  }

  lemma Product(a: real, b: real)
    requires a > 0.0 && b > 0.0
    ensures a * b > 0.0
  {
  }

  /** The index is never negative, and zero exactly when the two distributions agree cell by cell. */
  lemma {:induction false} PsiIsZeroIffEqual(p: seq<real>, q: seq<real>, ln: real -> real)
    requires |p| == |q| && LogSign(ln)
    requires forall i :: 0 <= i < |p| ==> p[i] > 0.0 && q[i] > 0.0
    ensures Psi(p, q, ln) >= 0.0
    ensures Psi(p, q, ln) == 0.0 <==> p == q
  {
    if p != [] {
      assert forall i :: 0 <= i < |p[1..]| ==> p[1..][i] == p[i + 1] && q[1..][i] == q[i + 1];
      hide LogSign, Divergence;
      PsiTerm(p[0], q[0], ln);
      PsiIsZeroIffEqual(p[1..], q[1..], ln);
      assert p == [p[0]] + p[1..] && q == [q[0]] + q[1..];
    }
  }

  /** Undefined for an empty window and for a constant baseline. */
  function NumericPsi(base: seq<real>, prod: seq<real>, bins: nat, epsilon: real, below: real, above: real,
                      ln: real -> real)
    : Option<real>
    requires 0 < bins && epsilon > 0.0
  {
    if base == [] || prod == [] || |CoreEdges(base, bins)| < 2 then None
    else
      var edges := Edges(CoreEdges(base, bins), below, above);
      var b, p := Histogram(base, edges), Histogram(prod, edges);
      Some(Psi(Proportions(b, Total(b), |b|, epsilon), Proportions(p, Total(p), |p|, epsilon), ln))
  }

  /**
   The numeric index is undefined exactly for an empty window or a constant baseline; otherwise it is
   non-negative, and zero exactly when the smoothed bin proportions of both windows agree.
   */
  lemma NumericPsiMeaning(base: seq<real>, prod: seq<real>, bins: nat, epsilon: real, below: real, above: real,
                          ln: real -> real)
    requires 0 < bins && epsilon > 0.0 && LogSign(ln)
    requires base != [] ==>
      var core := CoreEdges(base, bins); core != [] ==> below < core[0] && core[|core| - 1] < above
    ensures var r := NumericPsi(base, prod, bins, epsilon, below, above, ln);
      && (r.None? <==> base == [] || prod == [] || forall v :: v in base ==> v == base[0])
      && (r.Some? ==>
            var edges := Edges(CoreEdges(base, bins), below, above);
            && r.value >= 0.0
            && (r.value == 0.0 <==>
                Proportions(Histogram(base, edges), |base|, |edges| + 1, epsilon) ==
                Proportions(Histogram(prod, edges), |prod|, |edges| + 1, epsilon)))
  {
    hide CoreEdges, Edges, Histogram, Increasing, Psi, LogSign, Total, Smoothed;
    if base != [] && prod != [] {
      CoreEdgesVary(base, bins);
      var core := CoreEdges(base, bins);
      if |core| >= 2 {
        CoreEdgesSpanBaseline(base, bins);
        EdgesIncrease(core, below, above);
        var edges := Edges(core, below, above);
        HistogramConserves(base, edges);
        HistogramConserves(prod, edges);
        var b, p := Histogram(base, edges), Histogram(prod, edges);
        PsiIsZeroIffEqual(Proportions(b, |base|, |b|, epsilon), Proportions(p, |prod|, |p|, epsilon), ln);
      }
    }
  }

  function InBin(edges: seq<real>, i: nat): real -> bool {
    (v: real) => (i == 0 || i > |edges| || edges[i - 1] <= v) && (i >= |edges| || v < edges[i])
  }

  /** A bin's count is the number of values in its interval. */
  lemma {:induction false} HistogramCounts(values: seq<real>, edges: seq<real>, i: nat)
    requires Increasing(edges) && i <= |edges|
    ensures |Histogram(values, edges)| == |edges| + 1
    ensures Histogram(values, edges)[i] == |Filter(values, InBin(edges, i))|
  {
    CellsAre(|edges| + 1);
    TallyAt(Labels(values, edges), Cells(|edges| + 1), i);
    LabelsCount(values, edges, i);
  }

  lemma {:induction false} LabelsCount(values: seq<real>, edges: seq<real>, i: nat)
    requires Increasing(edges) && i <= |edges|
    ensures Count(Labels(values, edges), i) == |Filter(values, InBin(edges, i))|
  {
    if values != [] {
      LabelsCount(values[1..], edges, i);
      BinIsInterval(values[0], edges, i);
      assert Labels(values, edges)[1..] == Labels(values[1..], edges);
      hide Bin, Increasing;
    }
  }

  lemma {:induction false} PsiSums(p: seq<real>, q: seq<real>, ln: real -> real, terms: seq<real>)
    requires |p| == |q| == |terms| && forall i :: 0 <= i < |p| ==> p[i] > 0.0
    requires forall i :: 0 <= i < |p| ==> terms[i] == (q[i] - p[i]) * ln(q[i] / p[i])
    ensures Psi(p, q, ln) == Sum(terms)
  {
    if p != [] { PsiSums(p[1..], q[1..], ln, terms[1..]); }
  }

  /** One term of the index, from the two counts of a cell. */
  function Term(b: nat, baseSize: nat, p: nat, prodSize: nat, cells: nat, epsilon: real, ln: real -> real): real
    requires epsilon > 0.0 && cells > 0
  {
    var expected := (b as real + epsilon) / (baseSize as real + epsilon * cells as real);
    var actual := (p as real + epsilon) / (prodSize as real + epsilon * cells as real);
    PositiveShare(b, baseSize, cells, epsilon);
    (actual - expected) * ln(actual / expected)
  }

  lemma PositiveShare(count: nat, total: nat, cells: nat, epsilon: real)
    requires epsilon > 0.0 && cells > 0
    ensures total as real + epsilon * cells as real > 0.0
    ensures (count as real + epsilon) / (total as real + epsilon * cells as real) > 0.0
  {
    assert Smoothed(count, total, cells, epsilon) > 0.0;
  }

  /**
   The numeric index, cell by cell: the sum over the bins of (actual - expected) ln(actual / expected), where the shares
   are those of the values that fall into the bin's interval, smoothed over all bins.
   */
  lemma NumericPsiIsSum(base: seq<real>, prod: seq<real>, bins: nat, epsilon: real, below: real, above: real,
                        ln: real -> real, terms: seq<real>)
    requires 0 < bins && epsilon > 0.0 && base != [] && |CoreEdges(base, bins)| >= 2
    requires var core := CoreEdges(base, bins); below < core[0] && core[|core| - 1] < above
    requires var edges := Edges(CoreEdges(base, bins), below, above);
      && |terms| == |edges| + 1
      && forall i :: 0 <= i < |terms| ==>
           terms[i] == Term(|Filter(base, InBin(edges, i))|, |base|, |Filter(prod, InBin(edges, i))|, |prod|,
                            |edges| + 1, epsilon, ln)
    ensures prod != [] ==> NumericPsi(base, prod, bins, epsilon, below, above, ln) == Some(Sum(terms))
  {
    hide CoreEdges, Edges, Increasing, Psi, Total, Filter, InBin, Sum, Histogram;
    CoreEdgesSpanBaseline(base, bins);
    var core := CoreEdges(base, bins);
    EdgesIncrease(core, below, above);
    var edges := Edges(core, below, above);
    HistogramConserves(base, edges);
    HistogramConserves(prod, edges);
    var b, p := Histogram(base, edges), Histogram(prod, edges);
    forall i | 0 <= i < |terms|
      ensures b[i] == |Filter(base, InBin(edges, i))| && p[i] == |Filter(prod, InBin(edges, i))|
    {
      HistogramCounts(base, edges, i);
      HistogramCounts(prod, edges, i);
    }
    hide Term, Proportions;
    SumOverCells(b, |base|, p, |prod|, epsilon, ln, terms);
  }

  lemma SumOverCells(b: seq<nat>, baseSize: nat, p: seq<nat>, prodSize: nat, epsilon: real, ln: real -> real,
                     terms: seq<real>)
    requires epsilon > 0.0 && |b| == |p| == |terms| && b != []
    requires forall i :: 0 <= i < |b| ==> terms[i] == Term(b[i], baseSize, p[i], prodSize, |b|, epsilon, ln)
    ensures Psi(Proportions(b, baseSize, |b|, epsilon), Proportions(p, prodSize, |b|, epsilon), ln) == Sum(terms)
  {
    hide Psi, Sum, Term, Smoothed, Proportions;
    var expected, actual := Proportions(b, baseSize, |b|, epsilon), Proportions(p, prodSize, |b|, epsilon);
    forall i | 0 <= i < |b| ensures terms[i] == (actual[i] - expected[i]) * ln(actual[i] / expected[i]) {
      TermOfShares(b[i], baseSize, p[i], prodSize, |b|, epsilon, ln);
    }
    PsiSums(expected, actual, ln, terms);
  }

  lemma TermOfShares(b: nat, baseSize: nat, p: nat, prodSize: nat, cells: nat, epsilon: real, ln: real -> real)
    requires epsilon > 0.0 && cells > 0
    ensures var expected, actual := Smoothed(b, baseSize, cells, epsilon), Smoothed(p, prodSize, cells, epsilon);
      Term(b, baseSize, p, prodSize, cells, epsilon, ln) == (actual - expected) * ln(actual / expected)
  {
  }

  /** A single core edge means a constant baseline. */
  lemma CoreEdgesVary(base: seq<real>, bins: nat)
    requires base != [] && 0 < bins
    ensures |CoreEdges(base, bins)| < 2 <==> forall v :: v in base ==> v == base[0]
  {
    hide CoreEdges;
    CoreEdgesSpanBaseline(base, bins);
    var core := CoreEdges(base, bins);
    assert base[0] in base;
    assert |core| >= 2 ==> core[0] < core[|core| - 1];
  }

  // ----- categories -----

  function Fresh(xs: seq<string>): seq<string> {
    if xs == [] then []
    else if xs[|xs| - 1] in Fresh(xs[..|xs| - 1]) then Fresh(xs[..|xs| - 1])
    else Fresh(xs[..|xs| - 1]) + [xs[|xs| - 1]]
  }

  const TEXT_ORDER: Order<string> := (a: string, b: string) => TextLe(a, b)

  function Categories(base: seq<string>, prod: seq<string>): seq<string> {
    Sort(Fresh(base + prod), TEXT_ORDER)
  }

  function Shares(counts: seq<nat>, total: nat): seq<real>
    requires total > 0
  {
    Map(counts, c => c as real / total as real)
  }

  function Abs(x: real): real { if x < 0.0 then -x else x }

  function Gap(p: seq<real>, q: seq<real>): real
    requires |p| == |q|
  {
    if p == [] then 0.0 else Abs(p[0] - q[0]) + Gap(p[1..], q[1..])
  }

  /** The stability index over categories, the total variation, and the categories only production has. */
  datatype Categorical = Categorical(psi: Option<real>, totalVariation: Option<real>, newcomers: seq<string>)

  function CategoricalDrift(base: seq<string>, prod: seq<string>, epsilon: real, ln: real -> real): Categorical
    requires epsilon > 0.0
  {
    var newcomers := Sort(Filter(Fresh(prod), c => c !in base), TEXT_ORDER);
    if base == [] || prod == [] then Categorical(None, None, newcomers)
    else
      var cells := Categories(base, prod);
      var b, p := Tally(base, cells), Tally(prod, cells);
      CategoriesCover(base, prod);
      assert base[0] in cells;
      Categorical(
        Some(Psi(Proportions(b, |base|, |cells|, epsilon), Proportions(p, |prod|, |cells|, epsilon), ln)),
        Some(0.5 * Gap(Shares(b, |base|), Shares(p, |prod|))),
        newcomers)
  }

  lemma {:induction false} FreshIsDistinct(xs: seq<string>)
    ensures Distinct(Fresh(xs)) && forall x :: x in Fresh(xs) <==> x in xs
  {
    if xs != [] {
      FreshIsDistinct(xs[..|xs| - 1]);
      assert xs == xs[..|xs| - 1] + [xs[|xs| - 1]];
    }
  }

  lemma {:induction false} SortDistinct(s: seq<string>)
    requires Distinct(s)
    ensures Distinct(Sort(s, TEXT_ORDER)) && forall x :: x in Sort(s, TEXT_ORDER) <==> x in s
  {
    if s != [] {
      assert forall i :: 0 <= i < |s[1..]| ==> s[1..][i] == s[i + 1];
      SortDistinct(s[1..]);
      InsertDistinct(s[0], Sort(s[1..], TEXT_ORDER));
      assert s == [s[0]] + s[1..];
    }
  }

  lemma TextAscends(s: seq<string>)
    ensures var t := Sort(s, TEXT_ORDER); forall i, j :: 0 <= i < j < |t| ==> TextLe(t[i], t[j])
  {
    hide Sort;
    TextOrderIsTotal();
    SortSorts(s, TEXT_ORDER);
    var t := Sort(s, TEXT_ORDER);
    forall i, j | 0 <= i < j < |t| ensures TextLe(t[i], t[j]) {
      assert TEXT_ORDER(t[i], t[j]);
    }
  }

  lemma TextOrderIsTotal()
    ensures TotalPreorder(TEXT_ORDER)
  {
    forall x, y ensures TEXT_ORDER(x, y) || TEXT_ORDER(y, x) {
      TextLeTotal(x, y);
    }
    forall x, y, z | TEXT_ORDER(x, y) && TEXT_ORDER(y, z) ensures TEXT_ORDER(x, z) {
      TextLeTransitive(x, y, z);
    }
  }

  lemma DistinctCons(x: string, s: seq<string>)
    requires Distinct(s) && x !in s
    ensures Distinct([x] + s)
  {
  }

  lemma {:induction false} InsertDistinct(x: string, s: seq<string>)
    requires Distinct(s) && x !in s
    ensures Distinct(Insert(x, s, TEXT_ORDER)) && forall y :: y in Insert(x, s, TEXT_ORDER) <==> y == x || y in s
  {
    if s != [] && !TEXT_ORDER(x, s[0]) {
      assert forall i :: 0 <= i < |s[1..]| ==> s[1..][i] == s[i + 1];
      InsertDistinct(x, s[1..]);
      assert s == [s[0]] + s[1..];
      assert s[0] !in s[1..];
      DistinctCons(s[0], Insert(x, s[1..], TEXT_ORDER));
    }
  }

  lemma CategoriesCover(base: seq<string>, prod: seq<string>)
    ensures var cells := Categories(base, prod);
      && Distinct(cells) && (forall x :: x in base ==> x in cells) && (forall x :: x in prod ==> x in cells)
  {
    var all := base + prod;
    FreshIsDistinct(all);
    SortDistinct(Fresh(all));
  }

  lemma {:induction false} SharesSum(counts: seq<nat>, total: nat)
    requires total > 0
    ensures Sum(Shares(counts, total)) == Total(counts) as real / total as real
    ensures forall x :: x in Shares(counts, total) ==> x >= 0.0
  {
    if counts != [] {
      SharesSum(counts[1..], total);
      SharesStep(counts, total);
      QuotientSign(counts[0] as real, total as real);
      AddQuotients(counts[0] as real, Total(counts[1..]) as real, total as real);
    }
  }

  lemma SharesStep(counts: seq<nat>, total: nat)
    requires counts != [] && total > 0
    ensures Shares(counts, total) == [counts[0] as real / total as real] + Shares(counts[1..], total)
  {
  }

  lemma AddQuotients(a: real, b: real, t: real)
    requires t > 0.0
    ensures a / t + b / t == (a + b) / t
  {
  }

  lemma {:induction false} GapBounds(p: seq<real>, q: seq<real>)
    requires |p| == |q|
    requires forall i :: 0 <= i < |p| ==> p[i] >= 0.0 && q[i] >= 0.0
    ensures 0.0 <= Gap(p, q) <= Sum(p) + Sum(q)
    ensures Gap(p, q) == 0.0 <==> p == q
  {
    if p != [] {
      assert forall i :: 0 <= i < |p[1..]| ==> p[1..][i] == p[i + 1] && q[1..][i] == q[i + 1];
      GapBounds(p[1..], q[1..]);
      assert p == [p[0]] + p[1..] && q == [q[0]] + q[1..];
    }
  }

  lemma TallyLength<T>(xs: seq<T>, cells: seq<T>)
    ensures |Tally(xs, cells)| == |cells|
  {
  }

  lemma WholeShare(n: nat)
    requires n > 0
    ensures n as real / n as real == 1.0
  {
  }

  lemma SharesOfWindow(window: seq<string>, cells: seq<string>)
    requires window != [] && Distinct(cells) && forall x :: x in window ==> x in cells
    ensures var p := Shares(Tally(window, cells), |window|);
      |p| == |cells| && Sum(p) == 1.0 && forall i :: 0 <= i < |p| ==> p[i] >= 0.0
  {
    hide Tally, Sum, Total, Distinct;
    TallyConserves(window, cells);
    TallyLength(window, cells);
    var counts := Tally(window, cells);
    SharesSum(counts, |window|);
    var p := Shares(counts, |window|);
    WholeShare(|window|);
    forall i | 0 <= i < |p| ensures p[i] >= 0.0 {
      assert p[i] in p;
    }
  }

  /**
   Both indices are defined exactly when both windows hold a category. The stability index is non-negative and
   zero exactly when the smoothed proportions agree; the total variation lies in [0, 1] and is zero exactly when
   every category has the same share in both windows.
   */
  lemma CategoricalDriftMeaning(base: seq<string>, prod: seq<string>, epsilon: real, ln: real -> real)
    requires epsilon > 0.0 && LogSign(ln)
    ensures var d := CategoricalDrift(base, prod, epsilon, ln);
      var cells := Categories(base, prod);
      if base == [] || prod == [] then d.psi == None && d.totalVariation == None
      else
        && d.psi.Some? && d.totalVariation.Some? && cells != []
        && d.psi.value >= 0.0
        && (d.psi.value == 0.0 <==>
            Proportions(Tally(base, cells), |base|, |cells|, epsilon) ==
            Proportions(Tally(prod, cells), |prod|, |cells|, epsilon))
        && 0.0 <= d.totalVariation.value <= 1.0
        && (d.totalVariation.value == 0.0 <==>
            Shares(Tally(base, cells), |base|) == Shares(Tally(prod, cells), |prod|))
  {
    hide Categories, Distinct, Tally, Shares, Gap, Sum, Psi, Proportions, LogSign;
    if base != [] && prod != [] {
      var cells := Categories(base, prod);
      CategoriesCover(base, prod);
      assert base[0] in cells;
      SharesOfWindow(base, cells);
      SharesOfWindow(prod, cells);
      GapBounds(Shares(Tally(base, cells), |base|), Shares(Tally(prod, cells), |prod|));
      TallyLength(base, cells);
      TallyLength(prod, cells);
      PsiIsZeroIffEqual(Proportions(Tally(base, cells), |base|, |cells|, epsilon),
                        Proportions(Tally(prod, cells), |prod|, |cells|, epsilon), ln);
    }
  }

  lemma {:induction false} GapSums(p: seq<real>, q: seq<real>, gaps: seq<real>)
    requires |p| == |q| == |gaps|
    requires forall i :: 0 <= i < |p| ==> gaps[i] == if p[i] < q[i] then q[i] - p[i] else p[i] - q[i]
    ensures Gap(p, q) == Sum(gaps)
  {
    if p != [] { GapSums(p[1..], q[1..], gaps[1..]); }
  }

  /** Both categorical indices, category by category, from the number of times each occurs in either window. */
  lemma CategoricalDriftIsSum(base: seq<string>, prod: seq<string>, epsilon: real, ln: real -> real,
                              terms: seq<real>, gaps: seq<real>)
    requires epsilon > 0.0 && base != [] && prod != []
    requires var cells := Categories(base, prod);
      && |terms| == |cells| == |gaps|
      && forall i :: 0 <= i < |cells| ==>
           && var b, p := multiset(base)[cells[i]], multiset(prod)[cells[i]];
           && terms[i] == Term(b, |base|, p, |prod|, |cells|, epsilon, ln)
           && var x, y := b as real / |base| as real, p as real / |prod| as real;
           && gaps[i] == if x < y then y - x else x - y
    ensures var cells := Categories(base, prod);
      Distinct(cells) && (forall c :: c in cells <==> c in base || c in prod)
    ensures var d := CategoricalDrift(base, prod, epsilon, ln);
      d.psi == Some(Sum(terms)) && d.totalVariation == Some(Sum(gaps) / 2.0)
  {
    hide Categories, Distinct, Tally, Psi, Gap, Sum, Filter, Term, Proportions, Shares;
    var cells := Categories(base, prod);
    CategoriesAre(base, prod);
    var b, p := Tally(base, cells), Tally(prod, cells);
    TallyCounts(base, cells);
    TallyCounts(prod, cells);
    assert base[0] in cells;
    SumOverCells(b, |base|, p, |prod|, epsilon, ln, terms);
    GapOverCells(b, |base|, p, |prod|, gaps);
  }

  lemma GapOverCells(b: seq<nat>, baseSize: nat, p: seq<nat>, prodSize: nat, gaps: seq<real>)
    requires baseSize > 0 && prodSize > 0 && |b| == |p| == |gaps|
    requires forall i :: 0 <= i < |b| ==>
               && var x, y := b[i] as real / baseSize as real, p[i] as real / prodSize as real;
               && gaps[i] == if x < y then y - x else x - y
    ensures Gap(Shares(b, baseSize), Shares(p, prodSize)) == Sum(gaps)
  {
    hide Gap, Sum;
    GapSums(Shares(b, baseSize), Shares(p, prodSize), gaps);
  }

  lemma CategoriesAre(base: seq<string>, prod: seq<string>)
    ensures var cells := Categories(base, prod);
      Distinct(cells) && forall c :: c in cells <==> c in base || c in prod
  {
    FreshIsDistinct(base + prod);
    SortDistinct(Fresh(base + prod));
  }

  lemma TallyCounts<T>(xs: seq<T>, cells: seq<T>)
    ensures |Tally(xs, cells)| == |cells|
    ensures forall i :: 0 <= i < |cells| ==> Tally(xs, cells)[i] == multiset(xs)[cells[i]]
  {
    forall i | 0 <= i < |cells| ensures Tally(xs, cells)[i] == multiset(xs)[cells[i]] {
      CountIsMultiplicity(xs, cells[i]);
    }
  }

  lemma {:induction false} CountIsMultiplicity<T>(xs: seq<T>, c: T)
    ensures Count(xs, c) == multiset(xs)[c]
  {
    if xs != [] {
      CountIsMultiplicity(xs[1..], c);
      assert xs == [xs[0]] + xs[1..];
    }
  }

  /** The newcomers are, once each, exactly the production categories that the baseline lacks. */
  lemma NewcomersAreProductionOnly(base: seq<string>, prod: seq<string>, epsilon: real, ln: real -> real)
    requires epsilon > 0.0
    ensures var d := CategoricalDrift(base, prod, epsilon, ln);
      && Distinct(d.newcomers) && (forall c :: c in d.newcomers <==> c in prod && c !in base)
      && forall i, j :: 0 <= i < j < |d.newcomers| ==> TextLe(d.newcomers[i], d.newcomers[j])
  {
    hide Categories, Tally, Shares, Gap, Psi, Proportions, Sort;
    var keep: string -> bool := c => c !in base;
    FreshIsDistinct(prod);
    FilterDistinct(Fresh(prod), keep);
    SortDistinct(Filter(Fresh(prod), keep));
    TextAscends(Filter(Fresh(prod), keep));
    hide Filter, Fresh;
    assert CategoricalDrift(base, prod, epsilon, ln).newcomers == Sort(Filter(Fresh(prod), keep), TEXT_ORDER);
  }

  lemma {:induction false} FilterDistinct(s: seq<string>, keep: string -> bool)
    requires Distinct(s)
    ensures Distinct(Filter(s, keep)) && forall x :: x in Filter(s, keep) <==> x in s && keep(x)
  {
    if s != [] {
      assert forall i :: 0 <= i < |s[1..]| ==> s[1..][i] == s[i + 1];
      FilterDistinct(s[1..], keep);
      assert s == [s[0]] + s[1..];
      if keep(s[0]) { DistinctCons(s[0], Filter(s[1..], keep)); }
    }
  }
}
