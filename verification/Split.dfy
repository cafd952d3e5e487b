/**
 Deterministic, leakage-aware splits: a first pass over all rows holds out the test fold, a second pass
 restricted to the train fold holds out the validation fold.
 */
module Split {
  import opened Wrappers
  import opened Sorting

  /** What a split looks at in a row; `None` is a missing or unparseable cell. */
  datatype Row = Row(asset: Option<int>, time: Option<int>)

  datatype Column = NotRequested | Absent | Present

  datatype Request = Request(asset: Column, time: Column, target: Column, classification: bool,
                             testSize: real, validationSize: real)

  datatype Strategy = GroupTime | Group | Chronological | Stratified | Random

  datatype Failure = TooFewRows | BadSizes | MissingColumn | BadTimestamps | MissingAsset | TooFewAssets
                   | EmptyFold | CannotStratify | LibraryError

  datatype Folds = Folds(train: seq<nat>, test: seq<nat>)

  datatype Splits = Splits(train: seq<nat>, validation: seq<nat>, test: seq<nat>)

  /** The seeded generator and the library's splitters, as functions of what they are given. */
  datatype Env = Env(permute: seq<int> -> seq<int>, library: (Strategy, seq<nat>, real) -> Option<Folds>)

  ghost predicate Partitions(f: Folds, scope: seq<nat>) {
    multiset(f.train) + multiset(f.test) == multiset(scope)
  }

  /** The generator permutes its input and a library split partitions its input. */
  ghost predicate Honest(env: Env) {
    && (forall u :: multiset(env.permute(u)) == multiset(u))
    && (forall st, scope, size :: env.library(st, scope, size).Some? ==>
          Partitions(env.library(st, scope, size).value, scope))
  }

  // ----- sizes -----

  function Ceil(x: real): int {
    if x == x.Floor as real then x.Floor else x.Floor + 1
  }

  function HoldOut(n: nat, size: real): (k: nat)
    ensures k >= 1
  {
    if Ceil(n as real * size) < 1 then 1 else Ceil(n as real * size)
  }

  /** Too few for the share that stays behind to amount to a whole element. */
  predicate Tight(n: nat, size: real) { n as real * (1.0 - size) < 1.0 }

  lemma HoldOutLeavesOne(n: nat, size: real)
    requires n >= 1 && 0.0 < size < 1.0
    ensures n as real * size <= HoldOut(n, size) as real < n as real * size + 1.0
    ensures HoldOut(n, size) <= n
    ensures HoldOut(n, size) == n <==> n as real * (1.0 - size) < 1.0
    ensures Tight(n, size) <==> HoldOut(n, size) == n
  {
  }

  // ----- one pass -----

  function Key(frame: seq<Row>, i: nat): int {
    if i < |frame| && frame[i].asset.Some? then frame[i].asset.value else 0
  }

  function Time(frame: seq<Row>, i: nat): int {
    if i < |frame| && frame[i].time.Some? then frame[i].time.value else 0
  }

  function Earliest(frame: seq<Row>): Order<nat> {
    (i: nat, j: nat) => Time(frame, i) <= Time(frame, j)
  }

  function InTimeOrder(frame: seq<Row>, scope: seq<nat>): seq<nat> {
    Sort(scope, Earliest(frame))
  }

  /** The last k positions are held out. */
  function HoldOutLast(s: seq<nat>, size: real): Folds {
    var k := if HoldOut(|s|, size) <= |s| then HoldOut(|s|, size) else |s|;
    Folds(s[..|s| - k], s[|s| - k..])
  }

  function OfAsset(frame: seq<Row>, a: int): nat -> bool { (i: nat) => Key(frame, i) == a }

  function NotIn(frame: seq<Row>, assets: seq<int>): nat -> bool { (i: nat) => Key(frame, i) !in assets }

  function OfAssets(frame: seq<Row>, assets: seq<int>): nat -> bool { (i: nat) => Key(frame, i) in assets }

  function Records(frame: seq<Row>, positions: seq<nat>, a: int): seq<nat> {
    Filter(positions, OfAsset(frame, a))
  }

  /** An asset with a single record stays in the train fold. */
  function HoldOutOf(frame: seq<Row>, ordered: seq<nat>, size: real, a: int): Folds {
    var records := Records(frame, ordered, a);
    if |records| >= 2 then HoldOutLast(records, size) else Folds(records, [])
  }

  function Gather(frame: seq<Row>, ordered: seq<nat>, size: real, assets: seq<int>): Folds {
    if assets == [] then Folds([], [])
    else
      var g := Gather(frame, ordered, size, assets[..|assets| - 1]);
      var h := HoldOutOf(frame, ordered, size, assets[|assets| - 1]);
      Folds(g.train + h.train, g.test + h.test)
  }

  function AddKey(a: int, keys: seq<int>): seq<int> {
    if keys == [] || a < keys[0] then [a] + keys
    else if a == keys[0] then keys
    else [keys[0]] + AddKey(a, keys[1..])
  }

  /** The distinct keys, ascending. */
  function Unique(keys: seq<int>): seq<int> {
    if keys == [] then [] else AddKey(keys[0], Unique(keys[1..]))
  }

  function Keys(frame: seq<Row>, positions: seq<nat>): seq<int> {
    Map(positions, i => Key(frame, i))
  }

  function Assets(frame: seq<Row>, positions: seq<nat>): seq<int> {
    Unique(Keys(frame, positions))
  }

  predicate MultiRecord(frame: seq<Row>, positions: seq<nat>) {
    exists a :: a in Assets(frame, positions) && |Records(frame, positions, a)| >= 2
  }

  function GroupTimeFolds(frame: seq<Row>, size: real, scope: seq<nat>): Result<Folds, Failure> {
    if exists r :: r in frame && r.time == None then Err(BadTimestamps)
    else if exists r :: r in frame && r.asset == None then Err(MissingAsset)
    else
      var ordered := InTimeOrder(frame, scope);
      if MultiRecord(frame, ordered) then Ok(Gather(frame, ordered, size, Assets(frame, ordered)))
      else Ok(HoldOutLast(ordered, size))
  }

  function Take(s: seq<int>, n: nat): seq<int> { if n <= |s| then s[..n] else s }

  function GroupFolds(env: Env, frame: seq<Row>, size: real, scope: seq<nat>): Result<Folds, Failure> {
    if exists i :: i in scope && i < |frame| && frame[i].asset == None then Err(MissingAsset)
    else
      var assets := Assets(frame, scope);
      if |assets| < 2 then Err(TooFewAssets)
      else
        var chosen := Take(env.permute(assets), HoldOut(|assets|, size));
        Ok(Folds(Filter(scope, NotIn(frame, chosen)), Filter(scope, OfAssets(frame, chosen))))
  }

  function ChronologicalFolds(frame: seq<Row>, size: real, scope: seq<nat>): Result<Folds, Failure> {
    if exists r :: r in frame && r.time == None then Err(BadTimestamps)
    else Ok(HoldOutLast(InTimeOrder(frame, scope), size))
  }

  function LibraryFolds(env: Env, st: Strategy, size: real, scope: seq<nat>): Result<Folds, Failure> {
    match env.library(st, scope, size)
    case Some(f) => Ok(f)
    case None => Err(if st == Stratified then CannotStratify else LibraryError)
  }

  function OnePass(env: Env, frame: seq<Row>, st: Strategy, size: real, scope: seq<nat>): Result<Folds, Failure> {
    match st
    case GroupTime => GroupTimeFolds(frame, size, scope)
    case Group => GroupFolds(env, frame, size, scope)
    case Chronological => ChronologicalFolds(frame, size, scope)
    case _ => LibraryFolds(env, st, size, scope)
  }

  // ----- both passes -----

  function StrategyOf(req: Request): Strategy {
    if !req.asset.NotRequested? && !req.time.NotRequested? then GroupTime
    else if !req.asset.NotRequested? then Group
    else if !req.time.NotRequested? then Chronological
    else if req.classification && !req.target.NotRequested? then Stratified
    else Random
  }

  function Rows(from: nat, n: nat): seq<nat>
    decreases n - from
  {
    if from >= n then [] else [from] + Rows(from + 1, n)
  }

  function AllRows(n: nat): seq<nat> { Rows(0, n) }

  /** The true positions of a mask of length n, ascending. */
  function Where(n: nat, positions: seq<nat>): seq<nat> {
    Filter(AllRows(n), (x: nat) => x in positions)
  }

  function Fraction(req: Request): real
    requires req.testSize < 1.0
  {
    req.validationSize / (1.0 - req.testSize)
  }

  function Ascending(s: seq<nat>): seq<nat> { Sort(s, (i: nat, j: nat) => i <= j) }

  function Sizes(req: Request): bool {
    && 0.0 < req.testSize < 1.0
    && (req.validationSize == 0.0 || 0.0 < req.validationSize < 1.0)
    && req.testSize + req.validationSize < 1.0
  }

  function FirstPass(env: Env, frame: seq<Row>, req: Request): Result<Folds, Failure> {
    if |frame| < 4 then Err(TooFewRows)
    else if !Sizes(req) then Err(BadSizes)
    else if req.asset.Absent? || req.time.Absent? || req.target.Absent? then Err(MissingColumn)
    else
      match OnePass(env, frame, StrategyOf(req), req.testSize, AllRows(|frame|))
      case Err(e) => Err(e)
      case Ok(f) => if f.train == [] || f.test == [] then Err(EmptyFold) else Ok(f)
  }

  /** A split error here only omits the validation fold; a library error of the random split escapes. */
  function SecondPass(env: Env, frame: seq<Row>, req: Request, train: seq<nat>): Result<Folds, Failure>
    requires Sizes(req)
  {
    if req.validationSize > 0.0 && |train| >= 4 && 0.0 < Fraction(req) < 1.0 then
      match OnePass(env, frame, StrategyOf(req), Fraction(req), Where(|frame|, train))
      case Ok(f) => Ok(f)
      case Err(LibraryError) => Err(LibraryError)
      case Err(_) => Ok(Folds(train, []))
    else Ok(Folds(train, []))
  }

  function SplitRows(env: Env, frame: seq<Row>, req: Request): Result<Splits, Failure> {
    match FirstPass(env, frame, req)
    case Err(e) => Err(e)
    case Ok(first) =>
      match SecondPass(env, frame, req, first.train)
      case Err(e) => Err(e)
      case Ok(second) => Ok(Splits(Ascending(second.train), Ascending(second.test), Ascending(first.test)))
  }

  // ----- every row lands in exactly one fold -----

  lemma {:induction false} RowsAre(from: nat, n: nat)
    ensures Distinct(Rows(from, n)) && forall x :: x in Rows(from, n) <==> from <= x < n
    ensures |Rows(from, n)| == if from >= n then 0 else n - from
    decreases n - from
  {
    if from < n {
      RowsAre(from + 1, n);
      var rest := Rows(from + 1, n);
      forall i, j | 0 <= i < j < |[from] + rest| ensures ([from] + rest)[i] != ([from] + rest)[j] {
        assert ([from] + rest)[j] == rest[j - 1] && rest[j - 1] in rest;
      }
    }
  }

  lemma {:induction false} CountsOnce(s: seq<nat>, x: nat)
    requires Distinct(s)
    ensures multiset(s)[x] <= 1
  {
    if s != [] {
      assert s == [s[0]] + s[1..];
      assert forall i :: 0 <= i < |s[1..]| ==> s[1..][i] == s[i + 1];
      CountsOnce(s[1..], x);
    }
  }

  /** A part of a duplicate-free list has no duplicates and shares no element with the rest. */
  lemma {:induction false} PartIsDistinct(a: seq<nat>, b: seq<nat>, s: seq<nat>)
    requires Distinct(s) && multiset(a) + multiset(b) == multiset(s)
    ensures Distinct(a) && forall x :: x in a ==> x !in b
  {
    if a != [] {
      var x, rest := a[0], a[1..];
      assert a == [x] + rest;
      assert multiset([x] + b) == multiset{x} + multiset(b);
      PartIsDistinct(rest, [x] + b, s);
      CountsOnce(s, x);
      assert x in [x] + b;
      assert x !in b by { assert multiset(a)[x] >= 1; }
      assert forall y :: y in rest ==> y !in [x] + b;
      forall i, j | 0 <= i < j < |a| ensures a[i] != a[j] {
        assert a[j] == rest[j - 1];
        assert i > 0 ==> a[i] == rest[i - 1];
        assert a[j] in rest;
      }
    }
  }

  lemma TakeOut(x: nat, rest: seq<nat>, part: multiset<nat>, other: multiset<nat>)
    requires part + other == multiset{x} + multiset(rest) && x in part
    ensures (part - multiset{x}) + other == multiset(rest)
  {
    var less := part - multiset{x};
    assert part == less + multiset{x};
    assert (less + other) + multiset{x} == (less + multiset{x}) + other == part + other;
    assert (less + other) + multiset{x} == multiset(rest) + multiset{x};
    assert ((less + other) + multiset{x}) - multiset{x} == less + other;
    assert (multiset(rest) + multiset{x}) - multiset{x} == multiset(rest);
  }

  lemma {:induction false} FilterPart(s: seq<nat>, part: multiset<nat>, other: multiset<nat>, keep: nat -> bool)
    requires Distinct(s) && part + other == multiset(s)
    requires forall x :: x in s ==> (keep(x) <==> x in part)
    ensures multiset(Filter(s, keep)) == part
  {
    if s != [] {
      var x, rest := s[0], s[1..];
      FreshHead(s);
      hide Distinct;
      assert s == [x] + rest;
      assert x in part + other;
      hide Filter;
      FilterHead(s, keep);
      if keep(x) {
        TakeOut(x, rest, part, other);
        var less := part - multiset{x};
        SameOutside(rest, x, part, less);
        FilterPart(rest, less, other, keep);
        assert part == multiset{x} + less;
      } else {
        TakeOut(x, rest, other, part);
        FilterPart(rest, part, other - multiset{x}, keep);
      }
    } else {
      FilterNone(s, keep);
    }
  }

  lemma FilterHead(s: seq<nat>, keep: nat -> bool)
    requires s != []
    ensures multiset(Filter(s, keep)) == (if keep(s[0]) then multiset{s[0]} else multiset{})
            + multiset(Filter(s[1..], keep))
  {
  }

  lemma SameOutside(rest: seq<nat>, x: nat, part: multiset<nat>, less: multiset<nat>)
    requires less == part - multiset{x} && x !in rest
    ensures forall y :: y in rest ==> (y in less <==> y in part)
  {
  }

  lemma FreshHead(s: seq<nat>)
    requires s != [] && Distinct(s)
    ensures s[0] !in s[1..] && Distinct(s[1..])
  {
  }

  lemma {:induction false} FilterSplits(s: seq<nat>, p: nat -> bool, q: nat -> bool, both: nat -> bool)
    requires forall x :: x in s ==> (both(x) <==> p(x) || q(x)) && !(p(x) && q(x))
    ensures multiset(Filter(s, both)) == multiset(Filter(s, p)) + multiset(Filter(s, q))
  {
    if s != [] { FilterSplits(s[1..], p, q, both); }
  }

  lemma {:induction false} FilterAll(s: seq<nat>, p: nat -> bool)
    requires forall x :: x in s ==> p(x)
    ensures Filter(s, p) == s
  {
    if s != [] { FilterAll(s[1..], p); }
  }

  lemma {:induction false} FilterNone(s: seq<nat>, p: nat -> bool)
    requires forall x :: x in s ==> !p(x)
    ensures Filter(s, p) == []
  {
    if s != [] { FilterNone(s[1..], p); }
  }

  lemma HoldOutLastPartitions(s: seq<nat>, size: real)
    ensures Partitions(HoldOutLast(s, size), s)
  {
    var f := HoldOutLast(s, size);
    assert s == f.train + f.test;
  }

  lemma PartitionsAdd(g: Folds, h: Folds, s: seq<nat>, t: seq<nat>)
    requires Partitions(g, s) && Partitions(h, t)
    ensures multiset(g.train + h.train) + multiset(g.test + h.test) == multiset(s) + multiset(t)
  {
  }

  lemma HoldOutOfPartitions(frame: seq<Row>, ordered: seq<nat>, size: real, a: int)
    ensures Partitions(HoldOutOf(frame, ordered, size, a), Records(frame, ordered, a))
  {
    hide Records, HoldOutLast;
    HoldOutLastPartitions(Records(frame, ordered, a), size);
  }

  lemma OneMoreAsset(frame: seq<Row>, ordered: seq<nat>, most: seq<int>, a: int)
    requires a !in most
    ensures multiset(Filter(ordered, OfAssets(frame, most + [a]))) ==
            multiset(Filter(ordered, OfAssets(frame, most))) + multiset(Records(frame, ordered, a))
  {
    hide Filter, Key;
    FilterSplits(ordered, OfAssets(frame, most), OfAsset(frame, a), OfAssets(frame, most + [a]));
  }

  lemma {:induction false} GatherPartitions(frame: seq<Row>, ordered: seq<nat>, size: real, assets: seq<int>)
    requires forall i, j :: 0 <= i < j < |assets| ==> assets[i] != assets[j]
    ensures Partitions(Gather(frame, ordered, size, assets), Filter(ordered, OfAssets(frame, assets)))
  {
    hide Filter, HoldOutOf, Records;
    if assets == [] {
      FilterNone(ordered, OfAssets(frame, assets));
    } else {
      hide OfAssets;
      var most, a := assets[..|assets| - 1], assets[|assets| - 1];
      assert assets == most + [a];
      GatherPartitions(frame, ordered, size, most);
      HoldOutOfPartitions(frame, ordered, size, a);
      OneMoreAsset(frame, ordered, most, a);
      PartitionsAdd(Gather(frame, ordered, size, most), HoldOutOf(frame, ordered, size, a),
                    Filter(ordered, OfAssets(frame, most)), Records(frame, ordered, a));
    }
  }

  ghost predicate Rising(s: seq<int>) {
    forall i, j :: 0 <= i < j < |s| ==> s[i] < s[j]
  }

  lemma {:induction false} AddKeyIs(a: int, keys: seq<int>)
    requires Rising(keys)
    ensures Rising(AddKey(a, keys)) && forall x :: x in AddKey(a, keys) <==> x == a || x in keys
  {
    if keys != [] {
      assert keys == [keys[0]] + keys[1..];
      if a > keys[0] {
        AddKeyIs(a, keys[1..]);
        var u := AddKey(a, keys[1..]);
        forall i, j | 0 <= i < j < |[keys[0]] + u| ensures ([keys[0]] + u)[i] < ([keys[0]] + u)[j] {
          assert u[j - 1] in u;
        }
      }
    }
  }

  lemma {:induction false} UniqueIs(keys: seq<int>)
    ensures Rising(Unique(keys)) && forall x :: x in Unique(keys) <==> x in keys
  {
    if keys != [] {
      UniqueIs(keys[1..]);
      AddKeyIs(keys[0], Unique(keys[1..]));
      assert keys == [keys[0]] + keys[1..];
    }
  }

  /** The assets of some rows, each once. */
  lemma AssetsAre(frame: seq<Row>, positions: seq<nat>)
    ensures var assets := Assets(frame, positions);
      && (forall i, j :: 0 <= i < j < |assets| ==> assets[i] != assets[j])
      && (forall x :: x in positions ==> Key(frame, x) in assets)
      && (forall a :: a in assets ==> exists x :: x in positions && Key(frame, x) == a)
  {
    var keys := Keys(frame, positions);
    UniqueIs(keys);
    forall x | x in positions ensures Key(frame, x) in keys {
      var i :| 0 <= i < |positions| && positions[i] == x;
      assert keys[i] == Key(frame, x);
    }
    forall a | a in Assets(frame, positions) ensures exists x :: x in positions && Key(frame, x) == a {
      var i :| 0 <= i < |keys| && keys[i] == a;
      assert positions[i] in positions;
    }
  }

  lemma TimeOrderIsTotal(frame: seq<Row>)
    ensures TotalPreorder(Earliest(frame))
  {
  }

  lemma InTimeOrderSorts(frame: seq<Row>, scope: seq<nat>)
    ensures var ordered := InTimeOrder(frame, scope);
      && Sorted(ordered, Earliest(frame)) && multiset(ordered) == multiset(scope)
      && |ordered| == |scope| && forall x :: x in ordered <==> x in scope
  {
    TimeOrderIsTotal(frame);
    SortSorts(scope, Earliest(frame));
    assert |multiset(InTimeOrder(frame, scope))| == |multiset(scope)|;
  }

  lemma GatherAllPartitions(frame: seq<Row>, ordered: seq<nat>, size: real)
    ensures Partitions(Gather(frame, ordered, size, Assets(frame, ordered)), ordered)
  {
    hide Gather, Assets, Partitions;
    var assets := Assets(frame, ordered);
    AssetsAre(frame, ordered);
    GatherPartitions(frame, ordered, size, assets);
    FilterAll(ordered, OfAssets(frame, assets));
  }

  lemma GroupTimePartitions(frame: seq<Row>, size: real, scope: seq<nat>)
    ensures var r := GroupTimeFolds(frame, size, scope); r.Ok? ==> Partitions(r.value, scope)
  {
    hide Gather, Assets, HoldOutLast, MultiRecord;
    var ordered := InTimeOrder(frame, scope);
    InTimeOrderSorts(frame, scope);
    HoldOutLastPartitions(ordered, size);
    GatherAllPartitions(frame, ordered, size);
  }

  lemma GroupPartitions(env: Env, frame: seq<Row>, size: real, scope: seq<nat>)
    ensures var r := GroupFolds(env, frame, size, scope); r.Ok? ==> Partitions(r.value, scope)
  {
    var chosen := Take(env.permute(Assets(frame, scope)), HoldOut(|Assets(frame, scope)|, size));
    FilterSplits(scope, NotIn(frame, chosen), OfAssets(frame, chosen), (i: nat) => true);
    FilterAll(scope, (i: nat) => true);
  }

  /** Whatever the strategy and the scope, one pass puts each row of the scope in exactly one of its two folds. */
  lemma OnePassPartitions(env: Env, frame: seq<Row>, st: Strategy, size: real, scope: seq<nat>)
    requires Honest(env)
    ensures var r := OnePass(env, frame, st, size, scope); r.Ok? ==> Partitions(r.value, scope)
  {
    match st
    case GroupTime => GroupTimePartitions(frame, size, scope);
    case Group => GroupPartitions(env, frame, size, scope);
    case Chronological =>
      InTimeOrderSorts(frame, scope);
      HoldOutLastPartitions(InTimeOrder(frame, scope), size);
    case _ =>
  }

  /** The mask written from the train fold selects exactly the train fold. */
  lemma WhereOfTrain(n: nat, f: Folds)
    requires Partitions(f, AllRows(n))
    ensures multiset(Where(n, f.train)) == multiset(f.train)
    ensures |Where(n, f.train)| == |f.train|
  {
    hide AllRows, Distinct;
    RowsOfFrame(n);
    FilterPart(AllRows(n), multiset(f.train), multiset(f.test), (x: nat) => x in f.train);
    assert |multiset(Where(n, f.train))| == |multiset(f.train)|;
  }

  lemma FirstPassPartitions(env: Env, frame: seq<Row>, req: Request)
    requires Honest(env) && FirstPass(env, frame, req).Ok?
    ensures Sizes(req) && Partitions(FirstPass(env, frame, req).value, AllRows(|frame|))
  {
    hide OnePass, AllRows, Partitions, Honest;
    OnePassPartitions(env, frame, StrategyOf(req), req.testSize, AllRows(|frame|));
  }

  /** The second pass divides the train fold, or leaves it as it was. */
  lemma SecondPassPartitions(env: Env, frame: seq<Row>, req: Request, first: Folds)
    requires Honest(env) && Sizes(req) && Partitions(first, AllRows(|frame|))
    ensures var r := SecondPass(env, frame, req, first.train); r.Ok? ==> Partitions(r.value, first.train)
  {
    hide OnePass, AllRows, Honest, Where;
    WhereOfTrain(|frame|, first);
    OnePassPartitions(env, frame, StrategyOf(req), Fraction(req), Where(|frame|, first.train));
  }

  /** The two passes, chained: what `SplitRows` returns before its lists are sorted. */
  lemma TwoPasses(env: Env, frame: seq<Row>, req: Request) returns (first: Folds, second: Folds)
    requires Honest(env) && SplitRows(env, frame, req).Ok?
    ensures Sizes(req) && FirstPass(env, frame, req) == Ok(first)
    ensures SecondPass(env, frame, req, first.train) == Ok(second)
    ensures Partitions(first, AllRows(|frame|)) && Partitions(second, first.train)
    ensures var r := SplitRows(env, frame, req).value;
      r == Splits(Ascending(second.train), Ascending(second.test), Ascending(first.test))
  {
    hide FirstPass, SecondPass, Partitions, AllRows, Ascending, Honest;
    first := FirstPass(env, frame, req).value;
    FirstPassPartitions(env, frame, req);
    second := SecondPass(env, frame, req, first.train).value;
    SecondPassPartitions(env, frame, req, first);
  }

  lemma AscendingSorts(s: seq<nat>)
    ensures multiset(Ascending(s)) == multiset(s) && |Ascending(s)| == |s|
    ensures forall x :: x in Ascending(s) <==> x in s
    ensures forall i, j :: 0 <= i < j < |s| ==> Ascending(s)[i] <= Ascending(s)[j]
  {
    var le: Order<nat> := (i: nat, j: nat) => i <= j;
    SortSorts(s, le);
    assert |multiset(Ascending(s))| == |multiset(s)|;
    forall i, j | 0 <= i < j < |s| ensures Ascending(s)[i] <= Ascending(s)[j] {
      assert le(Ascending(s)[i], Ascending(s)[j]);
    }
  }

  lemma AscendingPart(a: seq<nat>, b: seq<nat>, s: seq<nat>)
    requires Distinct(s) && multiset(a) + multiset(b) == multiset(s)
    ensures Rising(Ascending(a)) && forall x :: x in a ==> x !in b && x in s
  {
    AscendingSorts(a);
    PartIsDistinct(Ascending(a), b, s);
    forall x | x in a ensures x in s { assert x in multiset(a) + multiset(b); }
  }

  /**
   For every strategy, every size and every generator, each row of the frame lands in exactly one of the three
   folds, and each fold is listed in strictly ascending order.
   */
  lemma EveryRowInExactlyOneFold(env: Env, frame: seq<Row>, req: Request)
    requires Honest(env) && SplitRows(env, frame, req).Ok?
    ensures var r := SplitRows(env, frame, req).value;
      && Rising(r.train) && Rising(r.validation) && Rising(r.test)
      && (forall x: nat :: x < |frame| <==> x in r.train || x in r.validation || x in r.test)
      && (forall x :: x in r.train ==> x !in r.validation && x !in r.test)
      && (forall x :: x in r.validation ==> x !in r.test)
  {
    hide FirstPass, SecondPass, SplitRows, AllRows, Rising, Ascending, Honest, Distinct;
    var first, second := TwoPasses(env, frame, req);
    var rows := AllRows(|frame|);
    RowsOfFrame(|frame|);
    AscendingSorts(second.train);
    AscendingSorts(second.test);
    AscendingSorts(first.test);
    AscendingPart(first.test, first.train, rows);
    AscendingPart(second.train, second.test + first.test, rows);
    AscendingPart(second.test, second.train + first.test, rows);
    assert multiset(rows) == multiset(second.train) + multiset(second.test) + multiset(first.test);
    forall x: nat ensures x < |frame| <==> x in second.train || x in second.test || x in first.test {
      assert x in rows <==> x in multiset(rows);
    }
  }

  lemma RowsOfFrame(n: nat)
    ensures Distinct(AllRows(n)) && |AllRows(n)| == n && forall x: nat :: x in AllRows(n) <==> x < n
  {
    RowsAre(0, n);
  }

  // ----- the loops -----

  /** The loop over the assets, appending to the fold lists. */
  method GroupTimeLoop(frame: seq<Row>, size: real, scope: seq<nat>) returns (r: Result<Folds, Failure>)
    ensures r == GroupTimeFolds(frame, size, scope)
  {
    hide Records, HoldOutLast, InTimeOrder, Assets;
    if exists row :: row in frame && row.time == None { return Err(BadTimestamps); }
    if exists row :: row in frame && row.asset == None { return Err(MissingAsset); }
    var ordered := InTimeOrder(frame, scope);
    var assets := Assets(frame, ordered);
    var train: seq<nat>, test: seq<nat>, multiRecord := [], [], false;
    for n := 0 to |assets|
      invariant Folds(train, test) == Gather(frame, ordered, size, assets[..n])
      invariant multiRecord <==> exists a :: a in assets[..n] && |Records(frame, ordered, a)| >= 2
    {
      var positions := Records(frame, ordered, assets[n]);
      assert assets[..n + 1][..n] == assets[..n];
      if |positions| >= 2 {
        multiRecord := true;
        var f := HoldOutLast(positions, size);
        test := test + f.test;
        train := train + f.train;
      } else {
        train := train + positions;
      }
    }
    assert assets[..|assets|] == assets;
    r := Ok(if multiRecord then Folds(train, test) else HoldOutLast(ordered, size));
  }

  method RunPass(env: Env, frame: seq<Row>, st: Strategy, size: real, scope: seq<nat>) returns (r: Result<Folds,
                 Failure>)
    ensures r == OnePass(env, frame, st, size, scope)
  {
    if st == GroupTime {
      r := GroupTimeLoop(frame, size, scope);
    } else {
      r := OnePass(env, frame, st, size, scope);
    }
  }

  lemma {:induction false} RowsExtend(from: nat, n: nat)
    requires from <= n
    ensures Rows(from, n + 1) == Rows(from, n) + [n]
    decreases n - from
  {
    if from < n { RowsExtend(from + 1, n); }
  }

  lemma {:induction false} FilterAppend(s: seq<nat>, x: nat, keep: nat -> bool)
    ensures Filter(s + [x], keep) == Filter(s, keep) + (if keep(x) then [x] else [])
  {
    if s != [] {
      FilterAppend(s[1..], x, keep);
      assert (s + [x])[1..] == s[1..] + [x];
    }
  }

  /** The true positions of a mask. */
  method FlatNonZero(mask: array<bool>, ghost positions: seq<nat>) returns (scope: seq<nat>)
    requires forall i :: 0 <= i < mask.Length ==> (mask[i] <==> i in positions)
    ensures scope == Where(mask.Length, positions)
  {
    scope := [];
    for i := 0 to mask.Length
      invariant scope == Where(i, positions)
    {
      RowsExtend(0, i);
      FilterAppend(AllRows(i), i, (x: nat) => x in positions);
      if mask[i] { scope := scope + [i]; }
    }
  }

  /** Writes the mask of the train fold and reads its positions back. */
  method TrainScope(n: nat, train: seq<nat>) returns (scope: seq<nat>)
    requires forall x :: x in train ==> x < n
    ensures scope == Where(n, train)
  {
    var mask := new bool[n](_ => false);
    for i := 0 to |train|
      invariant forall x :: 0 <= x < n ==> (mask[x] <==> x in train[..i])
    {
      assert train[i] in train;
      mask[train[i]] := true;
    }
    assert train[..|train|] == train;
    scope := FlatNonZero(mask, train);
  }

  lemma TrainInRange(env: Env, frame: seq<Row>, req: Request)
    requires Honest(env) && FirstPass(env, frame, req).Ok?
    ensures forall x :: x in FirstPass(env, frame, req).value.train ==> x < |frame|
  {
    hide FirstPass, Honest;
    FirstPassPartitions(env, frame, req);
    var f := FirstPass(env, frame, req).value;
    RowsOfFrame(|frame|);
    forall x | x in f.train ensures x < |frame| {
      assert x in multiset(f.train) + multiset(f.test);
      assert x in AllRows(|frame|);
    }
  }

  /** Both passes with the train-scope mask between them. */
  method RunSplit(env: Env, frame: seq<Row>, req: Request) returns (r: Result<Splits, Failure>)
    requires Honest(env)
    ensures r == SplitRows(env, frame, req)
  {
    hide OnePass, Honest, AllRows, Where, Ascending;
    if |frame| < 4 { return Err(TooFewRows); }
    if !Sizes(req) { return Err(BadSizes); }
    if req.asset.Absent? || req.time.Absent? || req.target.Absent? { return Err(MissingColumn); }
    var strategy := StrategyOf(req);
    var pass := RunPass(env, frame, strategy, req.testSize, AllRows(|frame|));
    if pass.Err? { return Err(pass.error); }
    var first := pass.value;
    if first.train == [] || first.test == [] { return Err(EmptyFold); }
    var train, validation: seq<nat> := first.train, [];
    if req.validationSize > 0.0 && |train| >= 4 && 0.0 < Fraction(req) < 1.0 {
      TrainInRange(env, frame, req);
      var scope := TrainScope(|frame|, train);
      pass := RunPass(env, frame, strategy, Fraction(req), scope);
      match pass
      case Ok(f) => train, validation := f.train, f.test;
      case Err(e) => if e == LibraryError { return Err(e); }
    }
    r := Ok(Splits(Ascending(train), Ascending(validation), Ascending(first.test)));
  }
}
