/** How large the folds are: when a pass leaves its train fold empty, and what the trainer then makes of it. */
module FoldSizes {
  import opened Wrappers
  import opened Sorting
  import opened Split
  import opened Leakage

  /** No fold can keep an element: every asset, or the pool of rows or assets, is too small for its share to stay. */
  ghost predicate NoRoom(frame: seq<Row>, st: Strategy, size: real, scope: seq<nat>) {
    match st
    case GroupTime =>
      if exists i :: i in scope && |Records(frame, scope, Key(frame, i))| >= 2 then
        forall i :: i in scope ==>
          |Records(frame, scope, Key(frame, i))| >= 2 && Tight(|Records(frame, scope, Key(frame, i))|, size)
      else Tight(|scope|, size)
    case Group => Tight(|Assets(frame, scope)|, size)
    case Chronological => Tight(|scope|, size)
    case _ => false
  }

  predicate Deterministic(st: Strategy) { st.GroupTime? || st.Group? || st.Chronological? }

  lemma HoldOutLastSizes(s: seq<nat>, size: real)
    requires s != [] && 0.0 < size < 1.0
    ensures HoldOutLast(s, size).test != []
    ensures HoldOutLast(s, size).train == [] <==> Tight(|s|, size)
  {
  }

  lemma RecordsOfOrdered(frame: seq<Row>, scope: seq<nat>, a: int)
    ensures |Records(frame, InTimeOrder(frame, scope), a)| == |Records(frame, scope, a)|
  {
    var keep := OfAsset(frame, a);
    TimeOrderIsTotal(frame);
    SortFilter(scope, Earliest(frame), keep);
    SortSorts(Filter(scope, keep), Earliest(frame));
    assert |multiset(Sort(Filter(scope, keep), Earliest(frame)))| == |multiset(Filter(scope, keep))|;
  }

  lemma {:induction false} GatherSizes(frame: seq<Row>, ordered: seq<nat>, size: real, assets: seq<int>)
    requires 0.0 < size < 1.0
    requires forall a :: a in assets ==> |Records(frame, ordered, a)| >= 1
    ensures Gather(frame, ordered, size, assets).train == [] <==>
            forall a :: a in assets ==> |Records(frame, ordered, a)| >= 2 && Tight(|Records(frame, ordered, a)|, size)
    ensures Gather(frame, ordered, size, assets).test == [] <==>
            forall a :: a in assets ==> |Records(frame, ordered, a)| < 2
  {
    if assets != [] {
      var most, a := assets[..|assets| - 1], assets[|assets| - 1];
      assert assets == most + [a];
      GatherSizes(frame, ordered, size, most);
      HoldOutLastSizes(Records(frame, ordered, a), size);
    }
  }

  lemma GroupTimeSizes(frame: seq<Row>, size: real, scope: seq<nat>)
    requires scope != [] && 0.0 < size < 1.0 && GroupTimeFolds(frame, size, scope).Ok?
    ensures var f := GroupTimeFolds(frame, size, scope).value;
      f.test != [] && (f.train == [] <==> NoRoom(frame, GroupTime, size, scope))
  {
    hide Gather, Assets, HoldOutLast, Records, Tight;
    var ordered := InTimeOrder(frame, scope);
    var assets := Assets(frame, ordered);
    InTimeOrderSorts(frame, scope);
    AssetsAre(frame, ordered);
    forall a ensures |Records(frame, ordered, a)| == |Records(frame, scope, a)| {
      RecordsOfOrdered(frame, scope, a);
    }
    forall a | a in assets ensures |Records(frame, ordered, a)| >= 1 {
      var x :| x in ordered && Key(frame, x) == a;
      HasRecord(frame, ordered, x);
    }
    if MultiRecord(frame, ordered) {
      GatherSizes(frame, ordered, size, assets);
    } else {
      HoldOutLastSizes(ordered, size);
    }
  }

  lemma HasRecord(frame: seq<Row>, positions: seq<nat>, x: nat)
    requires x in positions
    ensures |Records(frame, positions, Key(frame, x))| >= 1
  {
    FilterMembers(positions, OfAsset(frame, Key(frame, x)));
    assert x in Records(frame, positions, Key(frame, x));
  }

  /**
   In one pass by asset and time, each asset with several rows in scope gives up its rounded-up share; the others
   none.
   */
  lemma AssetSharesInOnePass(frame: seq<Row>, size: real, scope: seq<nat>, a: int)
    requires 0.0 < size < 1.0 && GroupTimeFolds(frame, size, scope).Ok?
    requires exists i :: i in scope && |Records(frame, scope, Key(frame, i))| >= 2
    ensures var m := |Records(frame, scope, a)|;
      |Records(frame, GroupTimeFolds(frame, size, scope).value.test, a)| == if m >= 2 then HoldOut(m, size) else 0
  {
    hide Gather, Assets, HoldOutLast, HoldOut, Records, InTimeOrder, Sorted;
    var ordered := InTimeOrder(frame, scope);
    var assets := Assets(frame, ordered);
    InTimeOrderSorts(frame, scope);
    AssetsAre(frame, ordered);
    var i :| i in scope && |Records(frame, scope, Key(frame, i))| >= 2;
    RecordsOfOrdered(frame, scope, Key(frame, i));
    RecordsOfOrdered(frame, scope, a);
    EachAssetGivesItsShare(frame, ordered, size, assets, a);
    if |Records(frame, ordered, a)| >= 1 {
      RecordIsThere(frame, ordered, a);
    }
  }

  lemma RecordIsThere(frame: seq<Row>, positions: seq<nat>, a: int)
    requires |Records(frame, positions, a)| >= 1
    ensures exists x :: x in positions && Key(frame, x) == a
  {
    FilterMembers(positions, OfAsset(frame, a));
    assert Records(frame, positions, a)[0] in Records(frame, positions, a);
  }

  lemma {:induction false} SomeKeyOutside(keys: seq<int>, chosen: seq<int>)
    requires Rising(keys) && |chosen| < |keys|
    ensures exists a :: a in keys && a !in chosen
  {
    if forall a :: a in keys ==> a in chosen {
      var all, few := set a | a in keys, set a | a in chosen;
      RisingCard(keys);
      SeqCard(chosen);
      assert all <= few;
      Subset(all, few);
      assert false;
    }
  }

  lemma Subset(a: set<int>, b: set<int>)
    requires a <= b
    ensures |a| <= |b|
  {
    assert b == a + (b - a);
  }

  lemma {:induction false} RisingCard(keys: seq<int>)
    requires Rising(keys)
    ensures |set a | a in keys| == |keys|
  {
    if keys != [] {
      RisingCard(keys[1..]);
      assert (set a | a in keys) == {keys[0]} + (set a | a in keys[1..]);
      assert keys[0] !in keys[1..];
    }
  }

  lemma {:induction false} SeqCard(keys: seq<int>)
    ensures |set a | a in keys| <= |keys|
  {
    if keys != [] {
      SeqCard(keys[1..]);
      assert (set a | a in keys) == {keys[0]} + (set a | a in keys[1..]);
    }
  }

  lemma GroupSizes(env: Env, frame: seq<Row>, size: real, scope: seq<nat>)
    requires Honest(env) && 0.0 < size < 1.0 && GroupFolds(env, frame, size, scope).Ok?
    ensures var f := GroupFolds(env, frame, size, scope).value;
      f.test != [] && (f.train == [] <==> NoRoom(frame, Group, size, scope))
  {
    var f := GroupFolds(env, frame, size, scope).value;
    var assets := Assets(frame, scope);
    var shuffled := env.permute(assets);
    var chosen := Take(shuffled, HoldOut(|assets|, size));
    hide Assets, Rising, HoldOut, Honest;
    AssetsAre(frame, scope);
    AssetsRise(frame, scope);
    PermutedKeys(env, assets);
    HoldOutLeavesOne(|assets|, size);
    FilterMembers(scope, NotIn(frame, chosen));
    FilterMembers(scope, OfAssets(frame, chosen));
    assert chosen[0] == shuffled[0] && shuffled[0] in assets && chosen[0] in chosen;
    var x :| x in scope && Key(frame, x) == chosen[0];
    assert x in f.test;
    if Tight(|assets|, size) {
      assert chosen == shuffled;
      assert forall i :: i in scope ==> Key(frame, i) in chosen;
      FilterNone(scope, NotIn(frame, chosen));
    } else {
      SomeKeyOutside(assets, chosen);
      var a :| a in assets && a !in chosen;
      var y :| y in scope && Key(frame, y) == a;
      assert y in f.train;
    }
  }

  lemma AssetsRise(frame: seq<Row>, scope: seq<nat>)
    ensures Rising(Assets(frame, scope))
  {
    UniqueIs(Keys(frame, scope));
  }

  lemma PermutedKeys(env: Env, keys: seq<int>)
    requires Honest(env)
    ensures |env.permute(keys)| == |keys| && forall a :: a in env.permute(keys) <==> a in keys
  {
    assert |multiset(env.permute(keys))| == |multiset(keys)|;
    assert forall a :: a in env.permute(keys) <==> a in multiset(env.permute(keys));
  }

  /** One pass always holds something out, and keeps nothing back exactly when there is no room. */
  lemma OnePassSizes(env: Env, frame: seq<Row>, st: Strategy, size: real, scope: seq<nat>)
    requires Honest(env) && Deterministic(st) && scope != [] && 0.0 < size < 1.0
    requires OnePass(env, frame, st, size, scope).Ok?
    ensures var f := OnePass(env, frame, st, size, scope).value;
      f.test != [] && (f.train == [] <==> NoRoom(frame, st, size, scope))
  {
    hide NoRoom, GroupTimeFolds, GroupFolds, Honest;
    match st
    case GroupTime => GroupTimeSizes(frame, size, scope);
    case Group => GroupSizes(env, frame, size, scope);
    case Chronological => ChronologicalSizes(frame, size, scope);
  }

  lemma ChronologicalSizes(frame: seq<Row>, size: real, scope: seq<nat>)
    requires scope != [] && 0.0 < size < 1.0 && ChronologicalFolds(frame, size, scope).Ok?
    ensures var f := ChronologicalFolds(frame, size, scope).value;
      f.test != [] && (f.train == [] <==> NoRoom(frame, Chronological, size, scope))
  {
    InTimeOrderSorts(frame, scope);
    HoldOutLastSizes(InTimeOrder(frame, scope), size);
  }

  // ----- what the trainer accepts -----

  /** The trainer's check of the indices it is given. */
  predicate TrainerAccepts(r: Splits, n: nat) {
    && r.train != [] && r.test != []
    && (forall x :: x in r.train ==> x !in r.test)
    && (forall x :: x in r.train ==> x < n) && (forall x :: x in r.test ==> x < n)
  }

  lemma FractionInUnit(req: Request)
    requires Sizes(req) && req.validationSize > 0.0
    ensures 0.0 < Fraction(req) < 1.0
  {
    var rest := 1.0 - req.testSize;
    QuotientInUnit(req.validationSize, rest);
  }

  lemma QuotientInUnit(a: real, b: real)
    requires 0.0 < a < b
    ensures 0.0 < a / b < 1.0
  {
    var q := a / b;
    assert q * b == a;
    assert (1.0 - q) * b == b - q * b;
    PositiveFactor(1.0 - q, b);
  }

  lemma PositiveFactor(x: real, b: real)
    requires b > 0.0 && x * b > 0.0
    ensures x > 0.0
  {
  }

  /** Whether a second pass over this train fold succeeds and uses it up. */
  ghost predicate SecondPassTakesAll(env: Env, frame: seq<Row>, req: Request, train: seq<nat>)
    requires Sizes(req)
  {
    && req.validationSize > 0.0 && |train| >= 4
    && OnePass(env, frame, StrategyOf(req), Fraction(req), Where(|frame|, train)).Ok?
    && NoRoom(frame, StrategyOf(req), Fraction(req), Where(|frame|, train))
  }

  lemma SecondPassSizes(env: Env, frame: seq<Row>, req: Request, first: Folds)
    requires Honest(env) && Sizes(req) && Deterministic(StrategyOf(req))
    requires first.train != [] && Partitions(first, AllRows(|frame|))
    requires SecondPass(env, frame, req, first.train).Ok?
    ensures SecondPass(env, frame, req, first.train).value.train == [] <==>
            SecondPassTakesAll(env, frame, req, first.train)
  {
    hide OnePass, NoRoom, AllRows, Where, Honest, Partitions;
    WhereOfTrain(|frame|, first);
    if req.validationSize > 0.0 && |first.train| >= 4 {
      FractionInUnit(req);
      var scope := Where(|frame|, first.train);
      if OnePass(env, frame, StrategyOf(req), Fraction(req), scope).Ok? {
        OnePassSizes(env, frame, StrategyOf(req), Fraction(req), scope);
      }
    }
  }

  lemma FirstPassSizes(env: Env, frame: seq<Row>, req: Request)
    requires FirstPass(env, frame, req).Ok?
    ensures FirstPass(env, frame, req).value.train != [] && FirstPass(env, frame, req).value.test != []
  {
  }

  /**
   For arbitrary sizes: the trainer accepts a returned split exactly when the second pass did not use up the
   train fold of the first.
   */
  lemma TrainerAcceptsIffRoomIsLeft(env: Env, frame: seq<Row>, req: Request)
    requires Honest(env) && Deterministic(StrategyOf(req)) && SplitRows(env, frame, req).Ok?
    ensures FirstPass(env, frame, req).Ok? && Sizes(req)
    ensures TrainerAccepts(SplitRows(env, frame, req).value, |frame|) <==>
            !SecondPassTakesAll(env, frame, req, FirstPass(env, frame, req).value.train)
  {
    hide FirstPass, SecondPass, SplitRows, SecondPassTakesAll, Ascending, Honest, Partitions, Rising, AllRows;
    var first, second := TwoPasses(env, frame, req);
    FirstPassSizes(env, frame, req);
    SecondPassSizes(env, frame, req, first);
    AscendingSorts(second.train);
    AscendingSorts(first.test);
    EveryRowInExactlyOneFold(env, frame, req);
  }

  lemma RoomForAQuarter(env: Env, frame: seq<Row>, st: Strategy, scope: seq<nat>)
    requires Deterministic(st) && |scope| >= 4 && OnePass(env, frame, st, 0.25, scope).Ok?
    ensures !NoRoom(frame, st, 0.25, scope)
  {
  }

  /** With the default sizes every split by asset, by time or by both passes the trainer's check. */
  lemma DefaultSizesSatisfyTheTrainer(env: Env, frame: seq<Row>, req: Request)
    requires Honest(env) && Deterministic(StrategyOf(req)) && SplitRows(env, frame, req).Ok?
    requires req.testSize == 0.2 && req.validationSize == 0.2
    ensures TrainerAccepts(SplitRows(env, frame, req).value, |frame|)
  {
    hide FirstPass, SecondPass, SplitRows, NoRoom, TrainerAccepts, Honest, AllRows, OnePass, Where, Partitions;
    var first, _ := TwoPasses(env, frame, req);
    TrainerAcceptsIffRoomIsLeft(env, frame, req);
    WhereOfTrain(|frame|, first);
    assert Fraction(req) == 0.25;
    var scope := Where(|frame|, first.train);
    if SecondPassTakesAll(env, frame, req, first.train) {
      RoomForAQuarter(env, frame, StrategyOf(req), scope);
      assert false;
    }
  }

  // ----- sizes that use the train fold up -----

  function Daily(n: nat): seq<Row> {
    seq(n, i => Row(None, Some(i)))
  }

  /** Twenty dated rows with test_size 0.2 and validation_size 0.76: the split is returned with no train row at all. */
  lemma LargeValidationSizeEmptiesTrain(env: Env)
    requires Honest(env)
    ensures var req := Request(NotRequested, Present, NotRequested, false, 0.2, 0.76);
      && SplitRows(env, Daily(20), req).Ok?
      && SplitRows(env, Daily(20), req).value.train == []
  {
    hide Honest, AllRows, Where, Partitions, Ascending, InTimeOrder, HoldOutLast, Daily;
    var req := Request(NotRequested, Present, NotRequested, false, 0.2, 0.76);
    var frame := Daily(20);
    assert |frame| == 20 && forall r :: r in frame ==> r.time != None by { DailyRows(20); }
    RowsOfFrame(20);
    InTimeOrderSorts(frame, AllRows(20));
    HoldOutLastSizes(InTimeOrder(frame, AllRows(20)), 0.2);
    SixteenRemain(InTimeOrder(frame, AllRows(20)));
    var first, second := TwoPasses(env, frame, req);
    assert Fraction(req) == 0.95;
    WhereOfTrain(20, first);
    var scope := Where(20, first.train);
    InTimeOrderSorts(frame, scope);
    HoldOutLastSizes(InTimeOrder(frame, scope), 0.95);
    AscendingSorts(second.train);
  }

  lemma DailyRows(n: nat)
    ensures |Daily(n)| == n && forall r :: r in Daily(n) ==> r.time != None
  {
  }

  lemma SixteenRemain(s: seq<nat>)
    requires |s| == 20
    ensures |HoldOutLast(s, 0.2).train| == 16
  {
  }
}
