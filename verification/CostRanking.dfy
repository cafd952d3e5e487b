/** Properties of the cost comparison: what changes the ranking of `Compare`, and what cannot. */
module CostRanking {
  import opened Wrappers
  import opened Sorting
  import opened Selection

  lemma CostLeTotal(a: CostRow, b: CostRow)
    ensures CostLe(a, b) || CostLe(b, a)
    ensures CostLe(a, b) && CostLe(b, a) ==> a.name == b.name
  {
    TextLeTotal(a.name, b.name);
  }

  lemma CostOrderIsTotal()
    ensures TotalPreorder(COST_ORDER)
  {
    forall x, y ensures COST_ORDER(x, y) || COST_ORDER(y, x) {
      CostLeTotal(x, y);
    }
    forall x, y, z | COST_ORDER(x, y) && COST_ORDER(y, z) ensures COST_ORDER(x, z) {
      if TextLe(x.name, y.name) && TextLe(y.name, z.name) {
        TextLeTransitive(x.name, y.name, z.name);
      }
    }
  }

  lemma NameOrderIsTotal()
    ensures TotalPreorder(NAME_ORDER)
  {
    forall x, y ensures NAME_ORDER(x, y) || NAME_ORDER(y, x) {
      TextLeTotal(x, y);
    }
    forall x, y, z | NAME_ORDER(x, y) && NAME_ORDER(y, z) ensures NAME_ORDER(x, z) {
      TextLeTransitive(x, y, z);
    }
  }

  // ----- the rows as a filtered map of the evaluations -----

  const SUCCEEDED: Evaluation -> bool := (e: Evaluation) => e.success
  const FAILED: Evaluation -> bool := (e: Evaluation) => !e.success
  const NAME: Evaluation -> string := (e: Evaluation) => e.name

  ghost predicate Countable(s: seq<Evaluation>) {
    forall e :: e in s && e.success ==> e.task.Binary? && ErrorCounts(e).Ok?
  }

  function RowMap(primary: string, fnCost: real, fpCost: real): Evaluation -> CostRow {
    (e: Evaluation) =>
      match RowOf(e, primary, fnCost, fpCost)
      case Ok(row) => row
      case Err(_) => CostRow(e.name, 0, 0, 0.0, None)
  }

  lemma {:induction false} FilterLast<T>(s: seq<T>, keep: T -> bool)
    requires s != []
    ensures Filter(s, keep) == Filter(s[..|s| - 1], keep) + (if keep(s[|s| - 1]) then [s[|s| - 1]] else [])
  {
    hide Filter;
    var front := s[..|s| - 1];
    FilterFirst(s, keep);
    if |s| == 1 {
      FilterNothing(s[1..], keep);
      FilterNothing(front, keep);
    } else {
      FilterLast(s[1..], keep);
      FilterFirst(front, keep);
      assert s[1..][..|s| - 2] == front[1..];
    }
  }

  lemma FilterFirst<T>(s: seq<T>, keep: T -> bool)
    requires s != []
    ensures Filter(s, keep) == (if keep(s[0]) then [s[0]] else []) + Filter(s[1..], keep)
  {
  }

  lemma FilterNothing<T>(s: seq<T>, keep: T -> bool)
    requires s == []
    ensures Filter(s, keep) == []
  {
  }

  lemma {:induction false} RowsAreMapped(s: seq<Evaluation>, primary: string, fnCost: real, fpCost: real)
    ensures Rows(s, primary, fnCost, fpCost).Ok? <==> Countable(s)
    ensures Countable(s) ==>
      Rows(s, primary, fnCost, fpCost).value == Map(Filter(s, SUCCEEDED), RowMap(primary, fnCost, fpCost))
  {
    if s != [] {
      var front, e := s[..|s| - 1], s[|s| - 1];
      RowsAreMapped(front, primary, fnCost, fpCost);
      FilterLast(s, SUCCEEDED);
      assert forall x :: x in s <==> x in front || x == e;
    }
  }

  lemma {:induction false} FailedAreMapped(s: seq<Evaluation>)
    ensures FailedNames(s) == Map(Filter(s, FAILED), NAME)
  {
    if s != [] {
      FailedAreMapped(s[..|s| - 1]);
      FilterLast(s, FAILED);
    }
  }

  function RowOrder(primary: string, fnCost: real, fpCost: real): Order<Evaluation> {
    var f := RowMap(primary, fnCost, fpCost);
    (a: Evaluation, b: Evaluation) => CostLe(f(a), f(b))
  }

  const EVALUATION_NAME_ORDER: Order<Evaluation> := (a: Evaluation, b: Evaluation) => TextLe(a.name, b.name)

  lemma RowOrderIsTotal(primary: string, fnCost: real, fpCost: real)
    ensures TotalPreorder(RowOrder(primary, fnCost, fpCost))
  {
    CostOrderIsTotal();
    var le, f := RowOrder(primary, fnCost, fpCost), RowMap(primary, fnCost, fpCost);
    forall x, y ensures le(x, y) || le(y, x) {
      assert COST_ORDER(f(x), f(y)) || COST_ORDER(f(y), f(x));
    }
    forall x, y, z | le(x, y) && le(y, z) ensures le(x, z) {
      assert COST_ORDER(f(x), f(y)) && COST_ORDER(f(y), f(z));
    }
  }

  lemma EvaluationNameOrderIsTotal()
    ensures TotalPreorder(EVALUATION_NAME_ORDER)
  {
    NameOrderIsTotal();
    var le := EVALUATION_NAME_ORDER;
    forall x, y ensures le(x, y) || le(y, x) {
      assert NAME_ORDER(x.name, y.name) || NAME_ORDER(y.name, x.name);
    }
    forall x, y, z | le(x, y) && le(y, z) ensures le(x, z) {
      assert NAME_ORDER(x.name, y.name) && NAME_ORDER(y.name, z.name);
    }
  }

  /** The ranked rows and the failed names, seen as sorted images of the evaluation list. */
  lemma CompareIsSortedImage(r: TrainingResult, fnCost: real, fpCost: real, minimum: real)
    requires Compare(r, fnCost, fpCost, minimum).Ok?
    ensures var c := Compare(r, fnCost, fpCost, minimum).value;
      var primary := PrimaryMetric(r);
      && c.rows == Map(Filter(Sort(r.evaluations, RowOrder(primary, fnCost, fpCost)), SUCCEEDED),
         RowMap(primary, fnCost, fpCost))
      && c.unavailable == Map(Filter(Sort(r.evaluations, EVALUATION_NAME_ORDER), FAILED), NAME)
  {
    var primary := PrimaryMetric(r);
    var le, f := RowOrder(primary, fnCost, fpCost), RowMap(primary, fnCost, fpCost);
    RowsAreMapped(r.evaluations, primary, fnCost, fpCost);
    FailedAreMapped(r.evaluations);
    RowOrderIsTotal(primary, fnCost, fpCost);
    EvaluationNameOrderIsTotal();
    SortMap(Filter(r.evaluations, SUCCEEDED), le, f, COST_ORDER);
    SortFilter(r.evaluations, le, SUCCEEDED);
    SortMap(Filter(r.evaluations, FAILED), EVALUATION_NAME_ORDER, NAME, NAME_ORDER);
    SortFilter(r.evaluations, EVALUATION_NAME_ORDER, FAILED);
  }

  /** Listing the same distinct-named evaluations in another order changes nothing in the comparison. */
  lemma ComparisonIgnoresInputOrder(r: TrainingResult, q: TrainingResult, fnCost: real, fpCost: real, minimum: real)
    requires r.task == q.task && r.primary == q.primary
    requires multiset(r.evaluations) == multiset(q.evaluations) && DistinctNames(r.evaluations)
    ensures Compare(r, fnCost, fpCost, minimum).Ok? <==> Compare(q, fnCost, fpCost, minimum).Ok?
    ensures Compare(r, fnCost, fpCost, minimum).Ok? ==>
      Compare(r, fnCost, fpCost, minimum) == Compare(q, fnCost, fpCost, minimum)
  {
    var primary := PrimaryMetric(r);
    RowsAreMapped(r.evaluations, primary, fnCost, fpCost);
    RowsAreMapped(q.evaluations, primary, fnCost, fpCost);
    SameMembers(r.evaluations, q.evaluations);
    if Compare(r, fnCost, fpCost, minimum).Ok? {
      CompareIsSortedImage(r, fnCost, fpCost, minimum);
      CompareIsSortedImage(q, fnCost, fpCost, minimum);
      RankingIgnoresInputOrder(r, q, minimum);
      RowOrderIsTotal(primary, fnCost, fpCost);
      EvaluationNameOrderIsTotal();
      NeverTie(r.evaluations, primary, fnCost, fpCost);
      SortIgnoresInputOrder(r.evaluations, q.evaluations, RowOrder(primary, fnCost, fpCost));
      SortIgnoresInputOrder(r.evaluations, q.evaluations, EVALUATION_NAME_ORDER);
    }
  }

  lemma SameMembers(s: seq<Evaluation>, t: seq<Evaluation>)
    requires multiset(s) == multiset(t)
    ensures forall e :: e in s <==> e in t
  {
    assert forall e :: e in s <==> e in multiset(s);
    assert forall e :: e in t <==> e in multiset(t);
  }

  lemma NeverTie(s: seq<Evaluation>, primary: string, fnCost: real, fpCost: real)
    requires DistinctNames(s)
    ensures NoTies(s, RowOrder(primary, fnCost, fpCost)) && NoTies(s, EVALUATION_NAME_ORDER)
  {
    var f := RowMap(primary, fnCost, fpCost);
    forall x, y | x in s && y in s && CostLe(f(x), f(y)) && CostLe(f(y), f(x)) ensures x == y {
      CostLeTotal(f(x), f(y));
    }
    forall x, y | x in s && y in s && TextLe(x.name, y.name) && TextLe(y.name, x.name) ensures x == y {
      TextLeTotal(x.name, y.name);
    }
  }

  // ----- changing the costs -----

  function Repriced(fnCost: real, fpCost: real): CostRow -> CostRow {
    (row: CostRow) => row.(cost := row.fn as real * fnCost + row.fp as real * fpCost)
  }

  lemma {:induction false} MapAppend<T, U>(s: seq<T>, x: T, f: T -> U)
    ensures Map(s + [x], f) == Map(s, f) + [f(x)]
  {
  }

  lemma RowReprices(e: Evaluation, primary: string, a: real, b: real, c: real, d: real)
    requires e.task.Binary? && ErrorCounts(e).Ok?
    ensures RowOf(e, primary, a, b).Ok? && RowOf(e, primary, c, d).Ok?
    ensures RowOf(e, primary, c, d).value == Repriced(c, d)(RowOf(e, primary, a, b).value)
  {
  }

  lemma {:induction false} RowsReprice(s: seq<Evaluation>, primary: string, a: real, b: real, c: real, d: real)
    requires Countable(s)
    ensures Rows(s, primary, a, b).Ok? && Rows(s, primary, c, d).Ok?
    ensures Rows(s, primary, c, d).value == Map(Rows(s, primary, a, b).value, Repriced(c, d))
    ensures forall row :: row in Rows(s, primary, a, b).value ==> row == Repriced(a, b)(row)
  {
    if s != [] {
      var front, e := s[..|s| - 1], s[|s| - 1];
      assert forall x :: x in front ==> x in s;
      assert e in s;
      RowsReprice(front, primary, a, b, c, d);
      if e.success {
        hide ErrorCounts, Repriced, Map;
        var row := RowOf(e, primary, a, b).value;
        RowReprices(e, primary, a, b, c, d);
        RowReprices(e, primary, a, b, a, b);
        RowsStep(s, primary, a, b);
        RowsStep(s, primary, c, d);
        hide Rows, RowOf, Countable;
        MapAppend(Rows(front, primary, a, b).value, row, Repriced(c, d));
      }
    }
  }

  lemma RowsStep(s: seq<Evaluation>, primary: string, a: real, b: real)
    requires s != [] && s[|s| - 1].success && Rows(s[..|s| - 1], primary, a, b).Ok?
    requires RowOf(s[|s| - 1], primary, a, b).Ok?
    ensures Rows(s, primary, a, b) ==
            Ok(Rows(s[..|s| - 1], primary, a, b).value + [RowOf(s[|s| - 1], primary, a, b).value])
  {
  }

  /** What a row says about its evaluation, the cost formula included. */
  ghost predicate IsRowOf(row: CostRow, e: Evaluation, metric: string, fnCost: real, fpCost: real) {
    && row.name == e.name && ErrorCounts(e) == Ok((row.fn, row.fp)) && row.value == e.Metric(metric)
    && row.cost == row.fn as real * fnCost + row.fp as real * fpCost
  }

  /** The cost order with its literals: cost, misses, false alarms, the kind of model, the name. */
  ghost predicate NoDearer(a: CostRow, b: CostRow) {
    && a.cost <= b.cost
    && (a.cost == b.cost ==> a.fn <= b.fn)
    && (a.cost == b.cost && a.fn == b.fn ==> a.fp <= b.fp)
    && (a.cost == b.cost && a.fn == b.fn && a.fp == b.fp ==>
          && (a.name == "xgboost" ==> b.name == "xgboost")
          && (a.name == "random_forest" ==> b.name == "random_forest" || b.name == "xgboost")
          && (SameKind(a.name, b.name) ==> TextLe(a.name, b.name)))
  }

  /** A comparison needs a binary task and, of every successful evaluation, a binary one with two readable counts. */
  lemma ComparableIff(r: TrainingResult, fnCost: real, fpCost: real, minimum: real)
    ensures Compare(r, fnCost, fpCost, minimum).Ok? <==>
            && r.task == Binary
            && forall e :: e in r.evaluations && e.success ==>
                 && e.task == Binary
                 && |e.labels| == 2 && e.labels[0] != e.labels[1] && (e.positive.Some? ==> e.positive.value in e.labels)
                 && e.confusion.Some? && |e.confusion.value| == 2
                 && |e.confusion.value[0]| == 2 && |e.confusion.value[1]| == 2
  {
    RowsAreMapped(r.evaluations, PrimaryMetric(r), fnCost, fpCost);
    hide Rows, FailedNames, Sort;
  }

  /**
   The table is complete and in order: one row for each successful evaluation, one name for each failed one, the rows
   by cost and then by the remaining rules, the names ascending; the first row names the cheapest model.
   */
  lemma TableIsComplete(r: TrainingResult, fnCost: real, fpCost: real, minimum: real, metric: string)
    requires IsPrimary(r, metric) && Compare(r, fnCost, fpCost, minimum).Ok?
    ensures var c := Compare(r, fnCost, fpCost, minimum).value;
      && c.metricBest == MetricBest(r, minimum)
      && c.costBest == (if c.rows == [] then None else Some(c.rows[0].name))
      && |c.rows| + |c.unavailable| == |r.evaluations|
      && (forall row :: row in c.rows ==>
            exists e :: e in r.evaluations && e.success && IsRowOf(row, e, metric, fnCost, fpCost))
      && (forall e :: e in r.evaluations && e.success ==>
            exists row :: row in c.rows && IsRowOf(row, e, metric, fnCost, fpCost))
      && (forall name :: name in c.unavailable <==> exists e :: e in r.evaluations && !e.success && e.name == name)
      && (forall i, j :: 0 <= i < j < |c.rows| ==> NoDearer(c.rows[i], c.rows[j]))
      && (forall i, j :: 0 <= i < j < |c.unavailable| ==> TextLe(c.unavailable[i], c.unavailable[j]))
  {
    hide Compare, Countable, Sort, IsRowOf, NoDearer, MetricBest, RowMap, Filter, Map, SUCCEEDED, FAILED, NAME;
    var kept, failed := Filter(r.evaluations, SUCCEEDED), Filter(r.evaluations, FAILED);
    var f := RowMap(metric, fnCost, fpCost);
    TableShape(r, fnCost, fpCost, minimum, metric);
    SortsAre(Map(kept, f), Map(failed, NAME));
    FilterHalves(r.evaluations);
    KeptRows(r.evaluations, metric, fnCost, fpCost);
    FailedRows(r.evaluations);
  }

  lemma TableShape(r: TrainingResult, fnCost: real, fpCost: real, minimum: real, metric: string)
    requires IsPrimary(r, metric) && Compare(r, fnCost, fpCost, minimum).Ok?
    ensures Countable(r.evaluations)
    ensures var c := Compare(r, fnCost, fpCost, minimum).value;
      && c.rows == Sort(Map(Filter(r.evaluations, SUCCEEDED), RowMap(metric, fnCost, fpCost)), COST_ORDER)
      && c.unavailable == Sort(Map(Filter(r.evaluations, FAILED), NAME), NAME_ORDER)
      && c.metricBest == MetricBest(r, minimum)
      && c.costBest == if c.rows == [] then None else Some(c.rows[0].name)
  {
    hide Rows, FailedNames, Sort, MetricBest, RowMap, Filter, Map, Countable;
    assert metric == PrimaryMetric(r);
    RowsAreMapped(r.evaluations, metric, fnCost, fpCost);
    FailedAreMapped(r.evaluations);
  }

  lemma KeptRows(s: seq<Evaluation>, metric: string, fnCost: real, fpCost: real)
    requires Countable(s)
    ensures var rows := Map(Filter(s, SUCCEEDED), RowMap(metric, fnCost, fpCost));
      && (forall row :: row in rows ==> exists e :: e in s && e.success && IsRowOf(row, e, metric, fnCost, fpCost))
      && (forall e :: e in s && e.success ==>
            exists row :: row in rows && IsRowOf(row, e, metric, fnCost, fpCost))
  {
    hide Countable, RowMap, IsRowOf, Filter, Map;
    var kept, f := Filter(s, SUCCEEDED), RowMap(metric, fnCost, fpCost);
    FilterMembers(s, SUCCEEDED);
    MapMembers(kept, f);
    forall e | e in kept ensures IsRowOf(f(e), e, metric, fnCost, fpCost) {
      MappedRow(s, e, metric, fnCost, fpCost);
    }
    forall row | row in Map(kept, f)
      ensures exists e :: e in s && e.success && IsRowOf(row, e, metric, fnCost, fpCost)
    {
      var e :| e in kept && row == f(e);
    }
    forall e | e in s && e.success
      ensures exists row :: row in Map(kept, f) && IsRowOf(row, e, metric, fnCost, fpCost)
    {
      assert e in kept && f(e) in Map(kept, f);
    }
  }

  lemma FailedRows(s: seq<Evaluation>)
    ensures forall name :: name in Map(Filter(s, FAILED), NAME) <==> exists e :: e in s && !e.success && e.name == name
  {
    hide Filter, Map;
    var failed := Filter(s, FAILED);
    FilterMembers(s, FAILED);
    MapMembers(failed, NAME);
    forall e | e in s && !e.success ensures e.name in Map(failed, NAME) {
      assert e in failed && NAME(e) == e.name;
    }
    forall name | name in Map(failed, NAME) ensures exists e :: e in s && !e.success && e.name == name {
      var e :| e in failed && name == NAME(e);
    }
  }

  lemma MappedRow(s: seq<Evaluation>, e: Evaluation, metric: string, fnCost: real, fpCost: real)
    requires Countable(s) && e in s && e.success
    ensures IsRowOf(RowMap(metric, fnCost, fpCost)(e), e, metric, fnCost, fpCost)
  {
    hide ErrorCounts;
  }

  lemma SortsAre(rows: seq<CostRow>, names: seq<string>)
    ensures |Sort(rows, COST_ORDER)| == |rows| && |Sort(names, NAME_ORDER)| == |names|
    ensures forall row :: row in Sort(rows, COST_ORDER) <==> row in rows
    ensures forall name :: name in Sort(names, NAME_ORDER) <==> name in names
    ensures var s := Sort(rows, COST_ORDER); forall i, j :: 0 <= i < j < |s| ==> NoDearer(s[i], s[j])
    ensures var s := Sort(names, NAME_ORDER); forall i, j :: 0 <= i < j < |s| ==> TextLe(s[i], s[j])
  {
    hide Sort, NoDearer;
    CostOrderIsTotal();
    NameOrderIsTotal();
    SortSorts(rows, COST_ORDER);
    SortSorts(names, NAME_ORDER);
    assert |multiset(Sort(rows, COST_ORDER))| == |multiset(rows)|;
    assert |multiset(Sort(names, NAME_ORDER))| == |multiset(names)|;
    var s, t := Sort(rows, COST_ORDER), Sort(names, NAME_ORDER);
    forall i, j | 0 <= i < j < |s| ensures NoDearer(s[i], s[j]) {
      assert COST_ORDER(s[i], s[j]);
      CheaperIsNoDearer(s[i], s[j]);
    }
    forall i, j | 0 <= i < j < |t| ensures TextLe(t[i], t[j]) {
      assert NAME_ORDER(t[i], t[j]);
    }
  }

  lemma CheaperIsNoDearer(a: CostRow, b: CostRow)
    requires CostLe(a, b)
    ensures NoDearer(a, b)
  {
  }

  lemma {:induction false} FilterHalves(s: seq<Evaluation>)
    ensures |Filter(s, SUCCEEDED)| + |Filter(s, FAILED)| == |s|
  {
    if s != [] { FilterHalves(s[1..]); }
  }

  /** The first row of a comparison is at least as good as every other one. */
  lemma BestRowIsLeast(r: TrainingResult, fnCost: real, fpCost: real, minimum: real)
    requires Compare(r, fnCost, fpCost, minimum).Ok?
    ensures var c := Compare(r, fnCost, fpCost, minimum).value;
      var rows := Rows(r.evaluations, PrimaryMetric(r), fnCost, fpCost).value;
      && (forall row :: row in c.rows <==> row in rows)
      && (c.rows != [] ==> forall row :: row in rows ==> CostLe(c.rows[0], row) && c.rows[0].cost <= row.cost)
  {
    var rows := Rows(r.evaluations, PrimaryMetric(r), fnCost, fpCost).value;
    CostOrderIsTotal();
    SortSorts(rows, COST_ORDER);
    var c := Compare(r, fnCost, fpCost, minimum).value;
    forall row | row in c.rows ensures CostLe(c.rows[0], row) {
      var i :| 0 <= i < |c.rows| && c.rows[i] == row;
      CostLeTotal(row, row);
    }
  }

  lemma {:induction false} MapMembers<T, U>(s: seq<T>, f: T -> U)
    ensures forall x :: x in s ==> f(x) in Map(s, f)
    ensures forall y :: y in Map(s, f) ==> exists x :: x in s && y == f(x)
  {
  }

  lemma {:induction false} SortLength<T>(s: seq<T>, le: Order<T>)
    ensures |Sort(s, le)| == |s|
  {
    if s != [] {
      SortLength(s[1..], le);
      InsertMembers(s[0], Sort(s[1..], le), le);
      assert |multiset(Insert(s[0], Sort(s[1..], le), le))| == |Sort(s[1..], le)| + 1;
    }
  }

  lemma BestAfterRepricing(rows: seq<CostRow>, rows': seq<CostRow>, x: CostRow, y: CostRow, cheap: real, dear: real,
                           fpCost: real)
    requires cheap < dear && x in rows && y in rows'
    requires forall row :: row in rows ==> CostLe(x, row) && row == Repriced(cheap, fpCost)(row)
    requires forall row :: row in rows' ==> CostLe(y, row) && row == Repriced(dear, fpCost)(row)
    requires rows' == Map(rows, Repriced(dear, fpCost)) && rows == Map(rows', Repriced(cheap, fpCost))
    ensures y.fn <= x.fn
  {
    MapMembers(rows, Repriced(dear, fpCost));
    MapMembers(rows', Repriced(cheap, fpCost));
    Exchange(x, y, cheap, dear, fpCost);
  }

  /** Making false negatives dearer never picks a model with more of them. */
  lemma DearerMissesNeverAddMisses(r: TrainingResult, cheap: real, dear: real, fpCost: real, minimum: real)
    requires cheap < dear && Compare(r, cheap, fpCost, minimum).Ok?
    ensures Compare(r, dear, fpCost, minimum).Ok?
    ensures var c, d := Compare(r, cheap, fpCost, minimum).value, Compare(r, dear, fpCost, minimum).value;
      |c.rows| == |d.rows| && (c.rows != [] ==> d.rows[0].fn <= c.rows[0].fn)
  {
    hide CostLe, Sort, Rows, Ranking, FailedNames, Repriced, Countable;
    var primary := PrimaryMetric(r);
    RowsAreMapped(r.evaluations, primary, cheap, fpCost);
    RowsReprice(r.evaluations, primary, cheap, fpCost, dear, fpCost);
    RowsReprice(r.evaluations, primary, dear, fpCost, cheap, fpCost);
    var rows, rows' := Rows(r.evaluations, primary, cheap, fpCost).value,
        Rows(r.evaluations, primary, dear, fpCost).value;
    SortLength(rows, COST_ORDER);
    SortLength(rows', COST_ORDER);
    var c, d := Compare(r, cheap, fpCost, minimum).value, Compare(r, dear, fpCost, minimum).value;
    if c.rows != [] {
      BestRowIsLeast(r, cheap, fpCost, minimum);
      BestRowIsLeast(r, dear, fpCost, minimum);
      BestAfterRepricing(rows, rows', c.rows[0], d.rows[0], cheap, dear, fpCost);
    }
  }

  lemma Exchange(x: CostRow, y: CostRow, cheap: real, dear: real, fpCost: real)
    requires cheap < dear && x == Repriced(cheap, fpCost)(x) && y == Repriced(dear, fpCost)(y)
    requires CostLe(x, Repriced(cheap, fpCost)(y)) && CostLe(y, Repriced(dear, fpCost)(x))
    ensures y.fn <= x.fn
  {
  }

  function Scaled(k: real): CostRow -> CostRow {
    (row: CostRow) => row.(cost := k * row.cost)
  }

  lemma ScalingKeepsOrder(k: real)
    requires k > 0.0
    ensures forall a, b :: COST_ORDER(Scaled(k)(a), Scaled(k)(b)) == COST_ORDER(a, b)
  {
  }

  lemma RowScales(e: Evaluation, primary: string, a: real, b: real, k: real)
    requires e.task.Binary? && ErrorCounts(e).Ok?
    ensures RowOf(e, primary, a, b).Ok? && RowOf(e, primary, k * a, k * b).Ok?
    ensures RowOf(e, primary, k * a, k * b).value == Scaled(k)(RowOf(e, primary, a, b).value)
  {
  }

  lemma {:induction false} RowsScale(s: seq<Evaluation>, primary: string, a: real, b: real, k: real)
    requires Countable(s)
    ensures Rows(s, primary, a, b).Ok? && Rows(s, primary, k * a, k * b).Ok?
    ensures Rows(s, primary, k * a, k * b).value == Map(Rows(s, primary, a, b).value, Scaled(k))
  {
    if s != [] {
      var front, e := s[..|s| - 1], s[|s| - 1];
      assert forall x :: x in front ==> x in s;
      assert e in s;
      RowsScale(front, primary, a, b, k);
      if e.success {
        var row := RowOf(e, primary, a, b).value;
        RowScales(e, primary, a, b, k);
        assert Rows(s, primary, k * a, k * b).value == Rows(front, primary, k * a, k * b).value + [Scaled(k)(row)];
        MapAppend(Rows(front, primary, a, b).value, row, Scaled(k));
      }
    }
  }

  /** Quoting both costs in another unit rescales the cost column and changes nothing else. */
  lemma ScalingCostsKeepsRanking(r: TrainingResult, fnCost: real, fpCost: real, k: real, minimum: real)
    requires k > 0.0 && Compare(r, fnCost, fpCost, minimum).Ok?
    ensures Compare(r, k * fnCost, k * fpCost, minimum) ==
      var c := Compare(r, fnCost, fpCost, minimum).value; Ok(c.(rows := Map(c.rows, Scaled(k))))
  {
    hide CostLe, Rows, Ranking, FailedNames, Scaled, Countable, Sort, Map;
    var primary := PrimaryMetric(r);
    var rows := Rows(r.evaluations, primary, fnCost, fpCost).value;
    RowsAreMapped(r.evaluations, primary, fnCost, fpCost);
    RowsScale(r.evaluations, primary, fnCost, fpCost, k);
    ScalingKeepsOrder(k);
    SortMap(rows, COST_ORDER, Scaled(k), COST_ORDER);
    ScaledHead(Sort(rows, COST_ORDER), k);
  }

  lemma ScaledHead(rows: seq<CostRow>, k: real)
    ensures |Map(rows, Scaled(k))| == |rows|
    ensures rows != [] ==> Map(rows, Scaled(k))[0].name == rows[0].name
  {
  }

  // ----- the lookup of the metric-best model -----

  /**
   The metric-best model always has a row with a recorded metric, so looking its row up by name finds
   one; with distinct names the row found is that row.
   */
  lemma MetricBestHasScoredRow(r: TrainingResult, fnCost: real, fpCost: real, minimum: real)
    requires Compare(r, fnCost, fpCost, minimum).Ok?
    requires Compare(r, fnCost, fpCost, minimum).value.metricBest.Some?
    ensures var c := Compare(r, fnCost, fpCost, minimum).value;
      exists row :: row in c.rows && row.name == c.metricBest.value && row.value.Some?
    ensures DistinctNames(r.evaluations) ==>
      var c := Compare(r, fnCost, fpCost, minimum).value;
      forall row :: row in c.rows && row.name == c.metricBest.value ==> row.value.Some?
  {
    var primary := PrimaryMetric(r);
    var f := RowMap(primary, fnCost, fpCost);
    RankingSortsCandidates(r, minimum);
    var best := Ranking(r, minimum)[0];
    assert best in Ranking(r, minimum) && best.success && best.Metric(primary).Some?;
    RowsAreMapped(r.evaluations, primary, fnCost, fpCost);
    BestRowIsLeast(r, fnCost, fpCost, minimum);
    FilterMembers(r.evaluations, SUCCEEDED);
    MapMembers(Filter(r.evaluations, SUCCEEDED), f);
    assert SUCCEEDED(best) && f(best) in Map(Filter(r.evaluations, SUCCEEDED), f);
    assert f(best).name == best.name && f(best).value == best.Metric(primary);
    var c := Compare(r, fnCost, fpCost, minimum).value;
    forall row | row in c.rows && row.name == best.name && DistinctNames(r.evaluations) ensures row.value.Some? {
      var e :| e in Filter(r.evaluations, SUCCEEDED) && row == f(e);
      assert e.name == best.name;
    }
  }

  // ----- the order of the two labels -----

  /** Any choice of successful evaluations with their labels listed the other way round. */
  function Flip(chosen: Evaluation -> bool): Evaluation -> Evaluation {
    (e: Evaluation) => if chosen(e) && e.success && ErrorCounts(e).Ok? then Relabelled(e) else e
  }

  function Flipped(r: TrainingResult, chosen: Evaluation -> bool): TrainingResult {
    r.(evaluations := Map(r.evaluations, Flip(chosen)))
  }

  ghost predicate Harmless(e: Evaluation, chosen: Evaluation -> bool) {
    chosen(e) && e.success && ErrorCounts(e).Ok? ==> OrderIsIrrelevant(e)
  }

  /** Every evaluation chosen for relabelling meets the guard. */
  ghost predicate Irrelevant(s: seq<Evaluation>, chosen: Evaluation -> bool) {
    forall e :: e in s ==> Harmless(e, chosen)
  }

  lemma FlipKeeps(e: Evaluation, chosen: Evaluation -> bool)
    ensures var f := Flip(chosen)(e);
      && f.name == e.name && f.task == e.task && f.success == e.success && f.metrics == e.metrics
         && f.latency == e.latency
      && (ErrorCounts(f).Ok? <==> ErrorCounts(e).Ok?)
    ensures ErrorCounts(Flip(chosen)(e)) == ErrorCounts(e) <==> Harmless(e, chosen)
  {
    if ErrorCounts(e).Ok? { RelabellingKeepsCounts(e); }
  }

  lemma {:induction false} FilterMap<T, U>(s: seq<T>, f: T -> U, p: T -> bool, q: U -> bool)
    requires forall x :: x in s ==> q(f(x)) == p(x)
    ensures Filter(Map(s, f), q) == Map(Filter(s, p), f)
  {
    if s != [] {
      FilterMap(s[1..], f, p, q);
      assert Map(s, f)[1..] == Map(s[1..], f);
    }
  }

  lemma {:induction false} FlippedRows(s: seq<Evaluation>, chosen: Evaluation -> bool, primary: string, fnCost: real,
                                       fpCost: real)
    requires Irrelevant(s, chosen)
    ensures Rows(Map(s, Flip(chosen)), primary, fnCost, fpCost) == Rows(s, primary, fnCost, fpCost)
    ensures FailedNames(Map(s, Flip(chosen))) == FailedNames(s)
  {
    hide Flip, ErrorCounts, Map, RowOf, Harmless, Rows, FailedNames;
    var f := Flip(chosen);
    if s == [] {
      assert Map(s, f) == [];
    } else {
      var front, e := s[..|s| - 1], s[|s| - 1];
      assert s == front + [e] && e in s;
      forall x | x in front ensures Harmless(x, chosen) {
        assert x in s;
      }
      FlippedRows(front, chosen, primary, fnCost, fpCost);
      FlipKeeps(e, chosen);
      SameRow(e, f(e), primary, fnCost, fpCost);
      MapAppend(front, e, f);
      LastRow(front, e, f(e), Map(front, f), primary, fnCost, fpCost);
    }
  }

  /** Two lists with equal rows keep them when extended by evaluations with equal rows. */
  lemma LastRow(s: seq<Evaluation>, e: Evaluation, e': Evaluation, s': seq<Evaluation>, primary: string, fnCost: real,
                fpCost: real)
    requires Rows(s', primary, fnCost, fpCost) == Rows(s, primary, fnCost, fpCost) && FailedNames(s') == FailedNames(s)
    requires e'.success == e.success && e'.name == e.name
    requires RowOf(e', primary, fnCost, fpCost) == RowOf(e, primary, fnCost, fpCost)
    ensures Rows(s' + [e'], primary, fnCost, fpCost) == Rows(s + [e], primary, fnCost, fpCost)
    ensures FailedNames(s' + [e']) == FailedNames(s + [e])
  {
    hide RowOf;
    assert (s + [e])[..|s|] == s && (s' + [e'])[..|s'|] == s';
  }

  lemma SameRow(e: Evaluation, f: Evaluation, primary: string, fnCost: real, fpCost: real)
    requires f.name == e.name && f.task == e.task && f.metrics == e.metrics && ErrorCounts(f) == ErrorCounts(e)
    ensures RowOf(f, primary, fnCost, fpCost) == RowOf(e, primary, fnCost, fpCost)
  {
    assert f.Metric(primary) == e.Metric(primary);
    match ErrorCounts(e)
    case Err(x) => assert RowOf(f, primary, fnCost, fpCost) == RowOf(e, primary, fnCost, fpCost);
    case Ok(counts) =>
      assert ErrorCounts(f).value == counts;
      assert f.task.Binary? ==> RowOf(f, primary, fnCost, fpCost).Ok? && RowOf(e, primary, fnCost, fpCost).Ok?;
      assert f.task.Binary? ==> RowOf(f, primary, fnCost, fpCost).value == RowOf(e, primary, fnCost, fpCost).value;
  }

  /** The metric ranking does not look at labels at all. */
  lemma FlippedRanking(r: TrainingResult, chosen: Evaluation -> bool, minimum: real)
    ensures MetricBest(Flipped(r, chosen), minimum) == MetricBest(r, minimum)
  {
    hide Flip, Sort, Filter, Map, KeyLe, KeyOf;
    var primary, f := PrimaryMetric(r), Flip(chosen);
    forall e ensures Scored(primary)(f(e)) == Scored(primary)(e) && f(e).name == e.name
      && MeetsRecall(r.task, minimum)(f(e)) == MeetsRecall(r.task, minimum)(e)
         && KeyOf(f(e), primary) == KeyOf(e, primary)
    {
      FlipKeeps(e, chosen);
      SameKey(e, f(e), primary);
    }
    hide Scored, MeetsRecall;
    FilterMap(r.evaluations, f, Scored(primary), Scored(primary));
    FilterMap(Filter(r.evaluations, Scored(primary)), f, MeetsRecall(r.task, minimum), MeetsRecall(r.task, minimum));
    SortMap(Candidates(r, minimum), MetricOrder(primary), f, MetricOrder(primary));
    assert Ranking(Flipped(r, chosen), minimum) == Map(Ranking(r, minimum), f);
  }

  lemma SameKey(e: Evaluation, f: Evaluation, primary: string)
    requires f.name == e.name && f.metrics == e.metrics && f.latency == e.latency
    ensures KeyOf(f, primary) == KeyOf(e, primary)
  {
  }

  /**
   Listing the labels of any chosen evaluations the other way round leaves the whole comparison unchanged when each of
   them records its positive label or has a symmetric matrix; with distinct names it does so only then.
   */
  lemma RelabellingKeepsComparison(r: TrainingResult, chosen: Evaluation -> bool, fnCost: real, fpCost: real,
        minimum: real)
    ensures Irrelevant(r.evaluations, chosen) ==>
      Compare(Flipped(r, chosen), fnCost, fpCost, minimum) == Compare(r, fnCost, fpCost, minimum)
    ensures (DistinctNames(r.evaluations) && Compare(r, fnCost, fpCost, minimum).Ok?
             && Compare(Flipped(r, chosen), fnCost, fpCost, minimum) == Compare(r, fnCost, fpCost, minimum)) ==>
            Irrelevant(r.evaluations, chosen)
  {
    hide Rows, MetricBest, FailedNames, Sort, Flip, Irrelevant;
    FlippedRanking(r, chosen, minimum);
    if Irrelevant(r.evaluations, chosen) {
      FlippedRows(r.evaluations, chosen, PrimaryMetric(r), fnCost, fpCost);
    }
    if DistinctNames(r.evaluations) && Compare(r, fnCost, fpCost, minimum).Ok?
       && Compare(Flipped(r, chosen), fnCost, fpCost, minimum) == Compare(r, fnCost, fpCost, minimum) {
      EqualComparisons(r, chosen, fnCost, fpCost, minimum);
    }
  }

  lemma EqualComparisons(r: TrainingResult, chosen: Evaluation -> bool, fnCost: real, fpCost: real, minimum: real)
    requires DistinctNames(r.evaluations) && Compare(r, fnCost, fpCost, minimum).Ok?
    requires Compare(Flipped(r, chosen), fnCost, fpCost, minimum) == Compare(r, fnCost, fpCost, minimum)
    ensures Irrelevant(r.evaluations, chosen)
  {
    hide Rows, MetricBest, FailedNames, Sort, Flip, ErrorCounts, RowMap, Compare;
    var primary := PrimaryMetric(r);
    var f := RowMap(primary, fnCost, fpCost);
    forall e | e in r.evaluations ensures Harmless(e, chosen) {
      FlipKeeps(e, chosen);
      if e.success {
        var flipped := Flip(chosen)(e);
        FlippedMember(r, chosen, e);
        RowIsListed(Flipped(r, chosen), flipped, fnCost, fpCost, minimum);
        var other := ListedRow(r, f(flipped), fnCost, fpCost, minimum);
        assert other.name == e.name;
      }
    }
  }

  lemma FlippedMember(r: TrainingResult, chosen: Evaluation -> bool, e: Evaluation)
    requires e in r.evaluations
    ensures Flip(chosen)(e) in Flipped(r, chosen).evaluations
  {
    MapMembers(r.evaluations, Flip(chosen));
  }

  /** Every successful evaluation has its row in the comparison, and every row its evaluation. */
  lemma RowIsListed(r: TrainingResult, e: Evaluation, fnCost: real, fpCost: real, minimum: real)
    requires Compare(r, fnCost, fpCost, minimum).Ok? && e in r.evaluations && e.success
    ensures var row := RowMap(PrimaryMetric(r), fnCost, fpCost)(e);
      && row in Compare(r, fnCost, fpCost, minimum).value.rows
      && e.task.Binary? && ErrorCounts(e).Ok? && ErrorCounts(e).value == (row.fn, row.fp) && row.name == e.name
  {
    hide ErrorCounts;
    var f := RowMap(PrimaryMetric(r), fnCost, fpCost);
    RowsAreMapped(r.evaluations, PrimaryMetric(r), fnCost, fpCost);
    BestRowIsLeast(r, fnCost, fpCost, minimum);
    FilterMembers(r.evaluations, SUCCEEDED);
    MapMembers(Filter(r.evaluations, SUCCEEDED), f);
    assert SUCCEEDED(e);
  }

  lemma ListedRow(r: TrainingResult, row: CostRow, fnCost: real, fpCost: real, minimum: real) returns (e: Evaluation)
    requires Compare(r, fnCost, fpCost, minimum).Ok? && row in Compare(r, fnCost, fpCost, minimum).value.rows
    ensures e in r.evaluations && e.success && ErrorCounts(e).Ok? && e.task.Binary?
    ensures row == RowMap(PrimaryMetric(r), fnCost, fpCost)(e) && ErrorCounts(e).value == (row.fn, row.fp)
            && row.name == e.name
  {
    var f := RowMap(PrimaryMetric(r), fnCost, fpCost);
    RowsAreMapped(r.evaluations, PrimaryMetric(r), fnCost, fpCost);
    BestRowIsLeast(r, fnCost, fpCost, minimum);
    FilterMembers(r.evaluations, SUCCEEDED);
    MapMembers(Filter(r.evaluations, SUCCEEDED), f);
    e :| e in Filter(r.evaluations, SUCCEEDED) && row == f(e);
    assert SUCCEEDED(e);
  }
}
