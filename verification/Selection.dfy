/** Model selection: the metric ranking and the maintenance-cost ranking of evaluated models. */
module Selection {
  import opened Wrappers
  import opened Sorting

  datatype Task = Binary | Multiclass | Regression

  datatype Evaluation = Evaluation(
    name: string,
    task: Task,
    success: bool,
    metrics: map<string, Option<real>>,
    confusion: Option<seq<seq<int>>>,
    labels: seq<string>,
    positive: Option<string>,
    latency: Option<real>)
  {
    /** `metrics.get(key)`: a missing key and a null value look the same. */
    function Metric(key: string): Option<real> {
      if key in metrics then metrics[key] else None
    }
  }

  datatype TrainingResult = TrainingResult(task: Task, primary: Option<string>, evaluations: seq<Evaluation>)

  function PrimaryMetric(r: TrainingResult): string {
    if r.primary.Some? && r.primary.value != "" then r.primary.value
    else if r.task.Regression? then "rmse" else "f1"
  }

  predicate LowerIsBetter(metric: string) {
    metric in {"rmse", "mae", "mse"}
  }

  function Complexity(name: string): int {
    if name == "random_forest" then 1 else if name == "xgboost" then 2 else 0
  }

  // ----- the metric ranking -----

  datatype RankKey = RankKey(score: real, complexity: int, latency: Option<real>, name: string)

  /** An unmeasured latency ranks as infinite. */
  predicate LatencyLe(a: Option<real>, b: Option<real>) {
    b.None? || (a.Some? && a.value <= b.value)
  }

  predicate KeyLe(a: RankKey, b: RankKey) {
    if a.score != b.score then a.score < b.score
    else if a.complexity != b.complexity then a.complexity < b.complexity
    else if a.latency != b.latency then LatencyLe(a.latency, b.latency)
    else TextLe(a.name, b.name)
  }

  function KeyOf(e: Evaluation, primary: string): RankKey {
    var value := e.Metric(primary);
    var v := if value.Some? then value.value else 0.0;
    RankKey(if LowerIsBetter(primary) then v else -v, Complexity(e.name), e.latency, e.name)
  }

  function MetricOrder(primary: string): Order<Evaluation> {
    (a: Evaluation, b: Evaluation) => KeyLe(KeyOf(a, primary), KeyOf(b, primary))
  }

  function Scored(primary: string): Evaluation -> bool {
    (e: Evaluation) => e.success && e.Metric(primary).Some?
  }

  /** The recall constraint: it binds classification tasks with a positive minimum, on a recorded recall. */
  function MeetsRecall(task: Task, minimum: real): Evaluation -> bool {
    (e: Evaluation) => task.Regression? || minimum <= 0.0 || e.Metric("recall").None?
        || e.Metric("recall").value >= minimum
  }

  function Candidates(r: TrainingResult, minimum: real): seq<Evaluation> {
    Filter(Filter(r.evaluations, Scored(PrimaryMetric(r))), MeetsRecall(r.task, minimum))
  }

  function Ranking(r: TrainingResult, minimum: real): seq<Evaluation> {
    Sort(Candidates(r, minimum), MetricOrder(PrimaryMetric(r)))
  }

  function MetricBest(r: TrainingResult, minimum: real): Option<string> {
    if Ranking(r, minimum) == [] then None else Some(Ranking(r, minimum)[0].name)
  }

  lemma KeyLeTotal(a: RankKey, b: RankKey)
    ensures KeyLe(a, b) || KeyLe(b, a)
    ensures KeyLe(a, b) && KeyLe(b, a) ==> a == b
  {
    TextLeTotal(a.name, b.name);
  }

  lemma KeyLeTransitive(a: RankKey, b: RankKey, c: RankKey)
    requires KeyLe(a, b) && KeyLe(b, c)
    ensures KeyLe(a, c)
  {
    if TextLe(a.name, b.name) && TextLe(b.name, c.name) {
      TextLeTransitive(a.name, b.name, c.name);
    }
  }

  lemma MetricOrderIsTotal(primary: string)
    ensures TotalPreorder(MetricOrder(primary))
  {
    var le := MetricOrder(primary);
    forall x, y ensures le(x, y) || le(y, x) {
      KeyLeTotal(KeyOf(x, primary), KeyOf(y, primary));
    }
    forall x, y, z | le(x, y) && le(y, z) ensures le(x, z) {
      KeyLeTransitive(KeyOf(x, primary), KeyOf(y, primary), KeyOf(z, primary));
    }
  }

  ghost predicate DistinctNames(s: seq<Evaluation>) {
    forall x, y :: x in s && y in s && x.name == y.name ==> x == y
  }

  lemma DistinctNamesNeverTie(s: seq<Evaluation>, primary: string)
    requires DistinctNames(s)
    ensures NoTies(s, MetricOrder(primary))
  {
    forall x, y | x in s && y in s && MetricOrder(primary)(x, y) && MetricOrder(primary)(y, x) ensures x == y {
      KeyLeTotal(KeyOf(x, primary), KeyOf(y, primary));
    }
  }

  /** The metric in force, in words. */
  ghost predicate IsPrimary(r: TrainingResult, metric: string) {
    && (r.primary.Some? && r.primary.value != "" ==> metric == r.primary.value)
    && ((r.primary.None? || r.primary.value == "") && r.task == Regression ==> metric == "rmse")
    && ((r.primary.None? || r.primary.value == "") && r.task != Regression ==> metric == "f1")
  }

  ghost predicate SameKind(a: string, b: string) {
    (a == "random_forest" <==> b == "random_forest") && (a == "xgboost" <==> b == "xgboost")
  }

  /**
   The selection rules with their literals: a lower error, or a higher value of any other metric; on equal values other
   models before random_forest before xgboost; then the lower latency, a measured one before an unmeasured one; then
   the name.
   */
  ghost predicate NoWorse(a: Evaluation, b: Evaluation, metric: string)
    requires a.Metric(metric).Some? && b.Metric(metric).Some?
  {
    var x, y := a.Metric(metric).value, b.Metric(metric).value;
    && (if metric == "rmse" || metric == "mae" || metric == "mse" then x <= y else x >= y)
    && (x == y ==>
          && (a.name == "xgboost" ==> b.name == "xgboost")
          && (a.name == "random_forest" ==> b.name == "random_forest" || b.name == "xgboost"))
    && (x == y && SameKind(a.name, b.name) ==>
          b.latency.None? || (a.latency.Some? && a.latency.value <= b.latency.value))
    && (x == y && SameKind(a.name, b.name) && a.latency == b.latency ==> TextLe(a.name, b.name))
  }

  /**
   The ranking arranges exactly the eligible evaluations, each as often as it was given, and none stands before one
   that the selection rules prefer.
   */
  lemma RankingFollowsTheRules(r: TrainingResult, minimum: real, metric: string)
    requires IsPrimary(r, metric)
    ensures var ranking := Ranking(r, minimum);
      && (forall e :: e in ranking <==>
            && e in r.evaluations && e.success && metric in e.metrics && e.metrics[metric].Some?
            && (r.task == Regression || minimum <= 0.0 || "recall" !in e.metrics || e.metrics["recall"].None?
                || e.metrics["recall"].value >= minimum))
      && (forall e :: e in ranking ==> multiset(ranking)[e] == multiset(r.evaluations)[e])
      && forall i, j :: 0 <= i < j < |ranking| ==>
           && ranking[i].Metric(metric).Some? && ranking[j].Metric(metric).Some?
           && NoWorse(ranking[i], ranking[j], metric)
  {
    hide Ranking, Candidates, Scored, MeetsRecall;
    assert metric == PrimaryMetric(r);
    var ranking := Ranking(r, minimum);
    RankingSortsCandidates(r, minimum);
    EligibleMeans(r, minimum, metric);
    forall e | e in ranking ensures multiset(ranking)[e] == multiset(r.evaluations)[e] {
      FilterBoth(r.evaluations, metric, r.task, minimum);
      CandidatesAre(r, minimum);
      FilterKeepsCount(r.evaluations, Eligible(metric, r.task, minimum), e);
    }
    assert forall e :: e in ranking ==> e.Metric(metric).Some?;
    InOrderIsNoWorse(ranking, metric);
  }

  lemma InOrderIsNoWorse(ranking: seq<Evaluation>, metric: string)
    requires Sorted(ranking, MetricOrder(metric)) && forall e :: e in ranking ==> e.Metric(metric).Some?
    ensures forall i, j :: 0 <= i < j < |ranking| ==>
              && ranking[i].Metric(metric).Some? && ranking[j].Metric(metric).Some?
              && NoWorse(ranking[i], ranking[j], metric)
  {
    hide NoWorse, MetricOrder;
    forall i, j | 0 <= i < j < |ranking|
      ensures ranking[i].Metric(metric).Some? && ranking[j].Metric(metric).Some?
      ensures NoWorse(ranking[i], ranking[j], metric)
    {
      assert ranking[i] in ranking && ranking[j] in ranking;
      OrderIsNoWorse(ranking[i], ranking[j], metric);
    }
  }

  lemma EligibleMeans(r: TrainingResult, minimum: real, metric: string)
    requires metric == PrimaryMetric(r)
    ensures forall e :: Scored(metric)(e) && MeetsRecall(r.task, minimum)(e) <==>
              && e.success && metric in e.metrics && e.metrics[metric].Some?
              && (r.task == Regression || minimum <= 0.0 || "recall" !in e.metrics || e.metrics["recall"].None?
                  || e.metrics["recall"].value >= minimum)
  {
  }

  lemma CandidatesAre(r: TrainingResult, minimum: real)
    ensures Candidates(r, minimum) == Filter(Filter(r.evaluations, Scored(PrimaryMetric(r))),
                                             MeetsRecall(r.task, minimum))
  {
  }

  lemma {:induction false} FilterKeepsCount(s: seq<Evaluation>, keep: Evaluation -> bool, e: Evaluation)
    requires keep(e)
    ensures multiset(Filter(s, keep))[e] == multiset(s)[e]
  {
    if s != [] {
      FilterKeepsCount(s[1..], keep, e);
      assert s == [s[0]] + s[1..];
    }
  }

  lemma OrderIsNoWorse(a: Evaluation, b: Evaluation, metric: string)
    requires a.Metric(metric).Some? && b.Metric(metric).Some? && MetricOrder(metric)(a, b)
    ensures NoWorse(a, b, metric)
  {
  }

  /** The ranking arranges exactly the candidates, in the order of the selection rules. */
  lemma RankingSortsCandidates(r: TrainingResult, minimum: real)
    ensures multiset(Ranking(r, minimum)) == multiset(Candidates(r, minimum))
    ensures Sorted(Ranking(r, minimum), MetricOrder(PrimaryMetric(r)))
    ensures forall e :: e in Ranking(r, minimum) <==>
              e in r.evaluations && Scored(PrimaryMetric(r))(e) && MeetsRecall(r.task, minimum)(e)
  {
    var primary := PrimaryMetric(r);
    MetricOrderIsTotal(primary);
    SortSorts(Candidates(r, minimum), MetricOrder(primary));
    FilterMembers(r.evaluations, Scored(primary));
    FilterMembers(Filter(r.evaluations, Scored(primary)), MeetsRecall(r.task, minimum));
  }

  /**
   No eligible evaluation beats the recommended one. For "rmse", "mae" and "mse" none has a lower value, for every other
   metric none a higher one; of those as good none is of a simpler kind, and of those as good and as simple none is
   faster.
   */
  lemma BestIsUnbeaten(r: TrainingResult, minimum: real, metric: string, e: Evaluation)
    requires IsPrimary(r, metric) && e in Ranking(r, minimum)
    ensures var best := Ranking(r, minimum)[0];
      && MetricBest(r, minimum) == Some(best.name)
      && best in r.evaluations && best.success && best.Metric(metric).Some? && e.Metric(metric).Some?
      && var x, y := best.Metric(metric).value, e.Metric(metric).value;
      && (if metric == "rmse" || metric == "mae" || metric == "mse" then x <= y else x >= y)
      && (x == y && best.name == "xgboost" ==> e.name == "xgboost")
      && (x == y && best.name == "random_forest" ==> e.name == "random_forest" || e.name == "xgboost")
      && (x == y && SameKind(best.name, e.name) && e.latency.Some? ==>
            best.latency.Some? && best.latency.value <= e.latency.value)
  {
    hide Candidates, Ranking, MetricOrder, SameKind;
    RankingFollowsTheRules(r, minimum, metric);
    var ranking := Ranking(r, minimum);
    var best := ranking[0];
    assert best in ranking;
    var i :| 0 <= i < |ranking| && ranking[i] == e;
    if i > 0 { assert NoWorse(best, ranking[i], metric); }
  }

  function Eligible(primary: string, task: Task, minimum: real): Evaluation -> bool {
    (e: Evaluation) => Scored(primary)(e) && MeetsRecall(task, minimum)(e)
  }

  lemma {:induction false} FilterBoth(s: seq<Evaluation>, primary: string, task: Task, minimum: real)
    ensures Filter(Filter(s, Scored(primary)), MeetsRecall(task, minimum)) == Filter(s,
            Eligible(primary, task, minimum))
  {
    if s != [] {
      FilterBoth(s[1..], primary, task, minimum);
      var kept := Filter(s, Scored(primary));
      if Scored(primary)(s[0]) {
        assert kept[1..] == Filter(s[1..], Scored(primary));
      } else {
        assert kept == Filter(s[1..], Scored(primary));
      }
    }
  }

  /** Listing the same distinct-named evaluations in another order changes nothing in the ranking. */
  lemma RankingIgnoresInputOrder(r: TrainingResult, q: TrainingResult, minimum: real)
    requires r.task == q.task && r.primary == q.primary
    requires multiset(r.evaluations) == multiset(q.evaluations) && DistinctNames(r.evaluations)
    ensures Ranking(r, minimum) == Ranking(q, minimum)
  {
    var primary := PrimaryMetric(r);
    var le, keep := MetricOrder(primary), Eligible(primary, r.task, minimum);
    MetricOrderIsTotal(primary);
    DistinctNamesNeverTie(r.evaluations, primary);
    FilterBoth(r.evaluations, primary, r.task, minimum);
    FilterBoth(q.evaluations, primary, r.task, minimum);
    SortFilter(r.evaluations, le, keep);
    SortFilter(q.evaluations, le, keep);
    SortIgnoresInputOrder(r.evaluations, q.evaluations, le);
  }

  /** A stricter recall minimum keeps a subsequence of the former ranking: those that still meet it. */
  lemma StricterRecallFiltersRanking(r: TrainingResult, low: real, high: real)
    requires low <= high
    ensures Ranking(r, high) == Filter(Ranking(r, low), MeetsRecall(r.task, high))
  {
    var primary := PrimaryMetric(r);
    var scored := Filter(r.evaluations, Scored(primary));
    MetricOrderIsTotal(primary);
    FilterTwice(scored, MeetsRecall(r.task, low), MeetsRecall(r.task, high));
    SortFilter(Candidates(r, low), MetricOrder(primary), MeetsRecall(r.task, high));
  }

  // ----- error counts -----

  datatype CostError =
    | NotBinary | MissingMatrix | MissingLabels | NotTwoLabels | EqualLabels | BadShape | PositiveAbsent

  function PositiveLabel(e: Evaluation): string
    requires |e.labels| == 2
  {
    if e.positive.Some? then e.positive.value else e.labels[1]
  }

  /** False negatives and false positives, wherever the positive class sits in the label list. */
  function ErrorCounts(e: Evaluation): Result<(int, int), CostError> {
    if e.confusion.None? then Err(MissingMatrix)
    else if e.labels == [] then Err(MissingLabels)
    else if |e.labels| != 2 then Err(NotTwoLabels)
    else if e.labels[0] == e.labels[1] then Err(EqualLabels)
    else
      var m := e.confusion.value;
      if |m| != 2 || |m[0]| != 2 || |m[1]| != 2 then Err(BadShape)
      else if e.positive.Some? && e.positive.value !in e.labels then Err(PositiveAbsent)
      else
        var p := if e.labels[0] == PositiveLabel(e) then 0 else 1;
        Ok((m[p][1 - p], m[1 - p][p]))
  }

  function IndexOf(labels: seq<string>, text: string): (i: nat)
    requires text in labels
    ensures i < |labels| && labels[i] == text
  {
    if labels[0] == text then 0 else 1 + IndexOf(labels[1..], text)
  }

  /**
   In a matrix indexed by actual, then predicted class, the counts are the positives predicted negative and the
   negatives predicted positive, for whichever two labels are the positive and the other one.
   */
  lemma ErrorCountsReadTheMatrix(e: Evaluation, negative: string)
    requires ErrorCounts(e).Ok? && negative in e.labels && negative != PositiveLabel(e)
    ensures PositiveLabel(e) in e.labels
    ensures var (fn, fp) := ErrorCounts(e).value;
      var m, p, n := e.confusion.value, IndexOf(e.labels, PositiveLabel(e)), IndexOf(e.labels, negative);
      fn == m[p][n] && fp == m[n][p]
  {
    assert e.labels[1] in e.labels;
    var p, n := IndexOf(e.labels, PositiveLabel(e)), IndexOf(e.labels, negative);
    assert p != n;
  }

  /** The same evaluation with its two labels listed the other way round. */
  function Relabelled(e: Evaluation): Evaluation
    requires e.confusion.Some? && |e.labels| == 2
    requires |e.confusion.value| == 2 && |e.confusion.value[0]| == 2 && |e.confusion.value[1]| == 2
  {
    var m := e.confusion.value;
    e.(labels := [e.labels[1], e.labels[0]],
       confusion := Some([[m[1][1], m[1][0]], [m[0][1], m[0][0]]]))
  }

  /**
   Label order does not matter when the positive class is recorded. Without it the code takes the
   second label as positive, so the counts survive relabelling exactly when the matrix is symmetric.
   */
  lemma RelabellingKeepsCounts(e: Evaluation)
    requires ErrorCounts(e).Ok?
    ensures ErrorCounts(Relabelled(e)).Ok?
    ensures ErrorCounts(Relabelled(e)) == ErrorCounts(e) <==> OrderIsIrrelevant(e)
  {
  }

  /** The guard a caller can check: a recorded positive label, or as many errors of one kind as of the other. */
  predicate OrderIsIrrelevant(e: Evaluation)
    requires e.confusion.Some? && |e.confusion.value| == 2
    requires |e.confusion.value[0]| == 2 && |e.confusion.value[1]| == 2
  {
    e.positive.Some? || e.confusion.value[0][1] == e.confusion.value[1][0]
  }

  const UNRECORDED := Evaluation("m", Binary, true, map[], Some([[9, 1], [4, 6]]), ["ok", "fail"], None, None)

  /** An evaluation without a positive label: listing its labels the other way round swaps the two kinds of error. */
  lemma UnrecordedPositiveSwapsErrors()
    ensures ErrorCounts(UNRECORDED) == Ok((4, 1)) && ErrorCounts(Relabelled(UNRECORDED)) == Ok((1, 4))
  {
    assert "ok"[0] != "fail"[0];
  }

  // ----- the cost ranking -----

  datatype CostRow = CostRow(name: string, fn: int, fp: int, cost: real, value: Option<real>)

  predicate CostLe(a: CostRow, b: CostRow) {
    if a.cost != b.cost then a.cost < b.cost
    else if a.fn != b.fn then a.fn < b.fn
    else if a.fp != b.fp then a.fp < b.fp
    else if Complexity(a.name) != Complexity(b.name) then Complexity(a.name) < Complexity(b.name)
    else TextLe(a.name, b.name)
  }

  const COST_ORDER: Order<CostRow> := (a: CostRow, b: CostRow) => CostLe(a, b)

  const NAME_ORDER: Order<string> := (a: string, b: string) => TextLe(a, b)

  datatype Comparison = Comparison(metricBest: Option<string>, costBest: Option<string>, rows: seq<CostRow>,
      unavailable: seq<string>)

  function RowOf(e: Evaluation, primary: string, fnCost: real, fpCost: real): Result<CostRow, CostError> {
    if !e.task.Binary? then Err(NotBinary)
    else
      match ErrorCounts(e)
      case Err(x) => Err(x)
      case Ok((fn, fp)) =>
        Ok(CostRow(e.name, fn, fp, fn as real * fnCost + fp as real * fpCost, e.Metric(primary)))
  }

  /** The first successful evaluation without usable counts fails the whole comparison. */
  function Rows(s: seq<Evaluation>, primary: string, fnCost: real, fpCost: real): Result<seq<CostRow>, CostError> {
    if s == [] then Ok([])
    else
      match Rows(s[..|s| - 1], primary, fnCost, fpCost)
      case Err(x) => Err(x)
      case Ok(rows) =>
        var e := s[|s| - 1];
        if !e.success then Ok(rows)
        else
          match RowOf(e, primary, fnCost, fpCost)
          case Err(x) => Err(x)
          case Ok(row) => Ok(rows + [row])
  }

  function FailedNames(s: seq<Evaluation>): seq<string> {
    if s == [] then []
    else FailedNames(s[..|s| - 1]) + (if s[|s| - 1].success then [] else [s[|s| - 1].name])
  }

  function Compare(r: TrainingResult, fnCost: real, fpCost: real, minimum: real): Result<Comparison, CostError> {
    if !r.task.Binary? then Err(NotBinary)
    else
      match Rows(r.evaluations, PrimaryMetric(r), fnCost, fpCost)
      case Err(x) => Err(x)
      case Ok(rows) =>
        var ranked := Sort(rows, COST_ORDER);
        Ok(Comparison(MetricBest(r, minimum), if ranked == [] then None else Some(ranked[0].name),
                      ranked, Sort(FailedNames(r.evaluations), NAME_ORDER)))
  }

  lemma RowsStop(s: seq<Evaluation>, i: nat, primary: string, fnCost: real, fpCost: real)
    requires i <= |s| && Rows(s[..i], primary, fnCost, fpCost).Err?
    ensures Rows(s, primary, fnCost, fpCost) == Rows(s[..i], primary, fnCost, fpCost)
    decreases |s|
  {
    if i == |s| {
      assert s[..i] == s;
    } else {
      assert s[..|s| - 1][..i] == s[..i];
      RowsStop(s[..|s| - 1], i, primary, fnCost, fpCost);
    }
  }

  method CompareCosts(r: TrainingResult, fnCost: real, fpCost: real, minimum: real)
    returns (result: Result<Comparison, CostError>)
    ensures result == Compare(r, fnCost, fpCost, minimum)
  {
    if !r.task.Binary? { return Err(NotBinary); }
    var primary := PrimaryMetric(r);
    var metricBest := MetricBest(r, minimum);
    var okRows: seq<CostRow>, failed: seq<string> := [], [];
    for i := 0 to |r.evaluations|
      invariant Rows(r.evaluations[..i], primary, fnCost, fpCost) == Ok(okRows)
      invariant failed == FailedNames(r.evaluations[..i])
    {
      var e := r.evaluations[i];
      assert r.evaluations[..i + 1][..i] == r.evaluations[..i];
      if !e.success {
        failed := failed + [e.name];
      } else {
        var row := RowOf(e, primary, fnCost, fpCost);
        if row.Err? {
          RowsStop(r.evaluations, i + 1, primary, fnCost, fpCost);
          return Err(row.error);
        }
        okRows := okRows + [row.value];
      }
    }
    assert r.evaluations[..|r.evaluations|] == r.evaluations;
    okRows := Sort(okRows, COST_ORDER);
    failed := Sort(failed, NAME_ORDER);
    var costBest := if okRows == [] then None else Some(okRows[0].name);
    result := Ok(Comparison(metricBest, costBest, okRows, failed));
  }
}
