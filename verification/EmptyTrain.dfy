/**
 When the second pass of a split uses the train fold up, as a condition on the frame, the sizes and the seeded
 permutation alone, so that a caller can check it before splitting.
 */
module EmptyTrain {
  import opened Wrappers
  import opened Sorting
  import opened Split
  import opened Leakage
  import opened FoldSizes

  /** How many rows an asset with `n` rows gives up to the test fold, when some asset has several. */
  function Given(n: nat, size: real): nat {
    if n >= 2 then HoldOut(n, size) else 0
  }

  function RowsOf(frame: seq<Row>, a: int): nat { |Records(frame, AllRows(|frame|), a)| }

  function FrameAssets(frame: seq<Row>): seq<int> { Assets(frame, AllRows(|frame|)) }

  /** The rows of an asset that the first pass leaves. */
  function Left(frame: seq<Row>, size: real, a: int): int {
    RowsOf(frame, a) - Given(RowsOf(frame, a), size)
  }

  function TotalGiven(frame: seq<Row>, size: real, assets: seq<int>): nat {
    if assets == [] then 0
    else TotalGiven(frame, size, assets[..|assets| - 1]) + Given(RowsOf(frame, assets[|assets| - 1]), size)
  }

  predicate SomeMulti(frame: seq<Row>) {
    exists a :: a in FrameAssets(frame) && RowsOf(frame, a) >= 2
  }

  predicate TightNat(n: int, size: real) { n >= 0 && Tight(n, size) }

  /** By asset and time: what the per-asset counts leave after their first share. */
  ghost predicate UsesUpByAssetAndTime(frame: seq<Row>, testSize: real, fraction: real) {
    var assets, n := FrameAssets(frame), |frame|;
    if SomeMulti(frame) then
      var m := n - TotalGiven(frame, testSize, assets);
      && m >= 4
      && if exists a :: a in assets && Left(frame, testSize, a) >= 2 then
        forall a :: a in assets ==>
          Left(frame, testSize, a) == 0
              || (Left(frame, testSize, a) >= 2 && TightNat(Left(frame, testSize, a), fraction))
      else TightNat(m, fraction)
    else
      n - HoldOut(n, testSize) >= 4 && TightNat(n - HoldOut(n, testSize), fraction)
  }

  /** The assets the seeded permutation sends to the test fold. */
  function Chosen(env: Env, frame: seq<Row>, size: real): seq<int> {
    Take(env.permute(FrameAssets(frame)), HoldOut(|FrameAssets(frame)|, size))
  }

  function KeptRows(env: Env, frame: seq<Row>, size: real): seq<nat> {
    Filter(AllRows(|frame|), NotIn(frame, Chosen(env, frame, size)))
  }

  ghost predicate UsesUp(env: Env, frame: seq<Row>, req: Request)
    requires Sizes(req)
  {
    && req.validationSize > 0.0
    && match StrategyOf(req)
       case Chronological =>
         var m := |frame| - HoldOut(|frame|, req.testSize);
         m >= 4 && TightNat(m, Fraction(req))
       case Group =>
         var u := |FrameAssets(frame)| - HoldOut(|FrameAssets(frame)|, req.testSize);
         u >= 2 && TightNat(u, Fraction(req)) && |KeptRows(env, frame, req.testSize)| >= 4
       case GroupTime => UsesUpByAssetAndTime(frame, req.testSize, Fraction(req))
       case _ => false
  }

  // ----- counting by content -----

  const NAT_ORDER: Order<nat> := (i: nat, j: nat) => i <= j

  /** How many elements satisfy a test depends only on which elements there are, and how often. */
  lemma FilterCount(s: seq<nat>, t: seq<nat>, keep: nat -> bool)
    requires multiset(s) == multiset(t)
    ensures |Filter(s, keep)| == |Filter(t, keep)|
  {
    hide Filter, Sort;
    assert TotalPreorder(NAT_ORDER) && NoTies(s, NAT_ORDER);
    SortIgnoresInputOrder(s, t, NAT_ORDER);
    SortFilter(s, NAT_ORDER, keep);
    SortFilter(t, NAT_ORDER, keep);
    SortSize(Filter(s, keep));
    SortSize(Filter(t, keep));
  }

  lemma SortSize(s: seq<nat>)
    ensures |Sort(s, NAT_ORDER)| == |s|
  {
    hide Sort;
    SortSorts(s, NAT_ORDER);
    assert |multiset(Sort(s, NAT_ORDER))| == |multiset(s)|;
  }

  lemma FilterParts(f: Folds, s: seq<nat>, keep: nat -> bool)
    requires Partitions(f, s)
    ensures |Filter(f.train, keep)| + |Filter(f.test, keep)| == |Filter(s, keep)|
  {
    hide Filter;
    assert multiset(f.train + f.test) == multiset(s);
    FilterCount(f.train + f.test, s, keep);
    FilterConcat(f.train, f.test, keep);
  }

  lemma PartSizes(f: Folds, s: seq<nat>)
    requires Partitions(f, s)
    ensures |f.train| + |f.test| == |s|
  {
    assert |multiset(f.train)| + |multiset(f.test)| == |multiset(s)|;
  }

  // ----- by time -----

  lemma ChronologicalUsesUp(env: Env, frame: seq<Row>, req: Request, first: Folds)
    requires Honest(env) && StrategyOf(req).Chronological? && FirstPass(env, frame, req) == Ok(first) && Sizes(req)
    requires Partitions(first, AllRows(|frame|))
    ensures SecondPassTakesAll(env, frame, req, first.train) <==> UsesUp(env, frame, req)
  {
    hide AllRows, Where, InTimeOrder, Honest, Partitions, HoldOut, Tight;
    RowsOfFrame(|frame|);
    InTimeOrderSorts(frame, AllRows(|frame|));
    HoldOutLeavesOne(|frame|, req.testSize);
    WhereOfTrain(|frame|, first);
  }

  // ----- by asset -----

  lemma DistinctPrefix(p: seq<int>, k: nat)
    requires k <= |p| && |set a | a in p| == |p|
    ensures |set a | a in p[..k]| == k
  {
    var left, right := set a | a in p[..k], set a | a in p[k..];
    assert p == p[..k] + p[k..];
    assert (set a | a in p) == left + right;
    SeqCard(p[..k]);
    SeqCard(p[k..]);
    UnionCard(left, right);
  }

  lemma UnionCard(a: set<int>, b: set<int>)
    ensures |a + b| <= |a| + |b|
  {
    assert a + b == a + (b - a);
    Subset(b - a, b);
  }

  /** After the first pass as many assets are left as were not chosen. */
  lemma AssetsLeft(env: Env, frame: seq<Row>, size: real, scope: seq<nat>)
    requires Honest(env) && 0.0 < size < 1.0 && FrameAssets(frame) != []
    requires forall x :: x in scope <==> x in KeptRows(env, frame, size)
    ensures |Assets(frame, scope)| == |FrameAssets(frame)| - HoldOut(|FrameAssets(frame)|, size)
  {
    hide AllRows, HoldOut, Honest, Rising, Assets, KeptRows, Chosen;
    var all, chosen, left := FrameAssets(frame), Chosen(env, frame, size), Assets(frame, scope);
    ChosenAre(env, frame, size);
    LeftAre(env, frame, size, scope);
    AssetsRise(frame, AllRows(|frame|));
    AssetsRise(frame, scope);
    RisingCard(all);
    RisingCard(left);
    RestCard(all, chosen, left);
  }

  lemma RestCard(all: seq<int>, part: seq<int>, rest: seq<int>)
    requires forall a :: a in part ==> a in all
    requires forall a :: a in rest <==> a in all && a !in part
    ensures |set a | a in all| == |set a | a in part| + |set a | a in rest|
  {
    var one, two, three := set a | a in all, set a | a in part, set a | a in rest;
    forall a | a in two ensures a in one && a !in three {
      assert a in part;
    }
    forall a | a in three ensures a in one {
      assert a in rest;
    }
    forall a | a in one ensures a in two + three {
      assert a in all;
    }
    assert one == two + three && two !! three;
  }

  lemma ChosenAre(env: Env, frame: seq<Row>, size: real)
    requires Honest(env) && 0.0 < size < 1.0 && FrameAssets(frame) != []
    ensures var chosen := Chosen(env, frame, size);
      && |set a | a in chosen| == HoldOut(|FrameAssets(frame)|, size)
      && forall a :: a in chosen ==> a in FrameAssets(frame)
  {
    hide AllRows, HoldOut, Honest, Rising, Assets;
    var all := FrameAssets(frame);
    var p, k := env.permute(all), HoldOut(|all|, size);
    PermutedKeys(env, all);
    HoldOutLeavesOne(|all|, size);
    AssetsRise(frame, AllRows(|frame|));
    PrefixOfPermutation(p, all, k);
    assert Chosen(env, frame, size) == p[..k];
  }

  lemma SameSet(s: seq<int>, t: seq<int>)
    requires forall a :: a in s <==> a in t
    ensures (set a | a in s) == (set a | a in t)
  {
    var one, two := set a | a in s, set a | a in t;
    forall a | a in one ensures a in two {
      assert a in s;
    }
    forall a | a in two ensures a in one {
      assert a in t;
    }
  }

  lemma PrefixOfPermutation(p: seq<int>, all: seq<int>, k: nat)
    requires Rising(all) && |p| == |all| && k <= |p| && forall a :: a in p <==> a in all
    ensures |set a | a in p[..k]| == k && forall a :: a in p[..k] ==> a in all
  {
    RisingCard(all);
    hide Rising;
    SameSet(p, all);
    DistinctPrefix(p, k);
    forall a | a in p[..k] ensures a in all {
      assert a in p;
    }
  }

  lemma LeftAre(env: Env, frame: seq<Row>, size: real, scope: seq<nat>)
    requires forall x :: x in scope <==> x in KeptRows(env, frame, size)
    ensures forall a :: a in Assets(frame, scope) <==> a in FrameAssets(frame) && a !in Chosen(env, frame, size)
  {
    hide AllRows, Assets, Chosen;
    var rows: seq<nat> := AllRows(|frame|);
    var chosen := Chosen(env, frame, size);
    AssetsAre(frame, rows);
    AssetsAre(frame, scope);
    FilterMembers<nat>(rows, NotIn(frame, chosen));
    forall a | a in Assets(frame, scope) ensures a in FrameAssets(frame) && a !in chosen {
      var x :| x in scope && Key(frame, x) == a;
    }
    forall a | a in FrameAssets(frame) && a !in chosen ensures a in Assets(frame, scope) {
      var x :| x in rows && Key(frame, x) == a;
      assert x in scope;
    }
  }

  lemma GroupUsesUp(env: Env, frame: seq<Row>, req: Request, first: Folds)
    requires Honest(env) && StrategyOf(req).Group? && FirstPass(env, frame, req) == Ok(first) && Sizes(req)
    requires Partitions(first, AllRows(|frame|))
    ensures SecondPassTakesAll(env, frame, req, first.train) <==> UsesUp(env, frame, req)
  {
    hide AllRows, Where, Honest, HoldOut, Tight, Assets;
    var rows := AllRows(|frame|);
    assert first.train == KeptRows(env, frame, req.testSize) && |FrameAssets(frame)| >= 2;
    assert forall i :: i in rows && i < |frame| ==> frame[i].asset != None;
    WhereOfTrain(|frame|, first);
    var scope := Where(|frame|, first.train);
    hide FirstPass;
    RowsOfFrame(|frame|);
    SameElements(scope, first.train);
    FilterMembers<nat>(rows, NotIn(frame, Chosen(env, frame, req.testSize)));
    AssetsLeft(env, frame, req.testSize, scope);
    if req.validationSize > 0.0 {
      GroupFoldsOk(env, frame, Fraction(req), scope);
    }
  }

  lemma SameElements(s: seq<nat>, t: seq<nat>)
    requires multiset(s) == multiset(t)
    ensures forall x :: x in s <==> x in t
  {
    assert forall x :: x in s <==> x in multiset(s);
  }

  lemma GroupFoldsOk(env: Env, frame: seq<Row>, size: real, scope: seq<nat>)
    requires forall i :: i in scope && i < |frame| ==> frame[i].asset != None
    ensures GroupFolds(env, frame, size, scope).Ok? <==> |Assets(frame, scope)| >= 2
  {
  }

  // ----- by asset and time -----

  /** The test fold of the first pass holds the sum of the shares. */
  lemma {:induction false} GatheredTest(frame: seq<Row>, size: real, assets: seq<int>)
    requires 0.0 < size < 1.0
    ensures |Gather(frame, InTimeOrder(frame, AllRows(|frame|)), size, assets).test| == TotalGiven(frame, size, assets)
  {
    hide AllRows, InTimeOrder, Records, HoldOut;
    if assets != [] {
      var most, a := assets[..|assets| - 1], assets[|assets| - 1];
      var ordered := InTimeOrder(frame, AllRows(|frame|));
      GatheredTest(frame, size, most);
      RecordsOfOrdered(frame, AllRows(|frame|), a);
      if |Records(frame, ordered, a)| >= 2 { HoldOutLeavesOne(|Records(frame, ordered, a)|, size); }
    }
  }

  /** Reordering rows changes neither the assets nor who has several records. */
  lemma OrderedAssets(frame: seq<Row>)
    ensures Assets(frame, InTimeOrder(frame, AllRows(|frame|))) == FrameAssets(frame)
    ensures MultiRecord(frame, InTimeOrder(frame, AllRows(|frame|))) <==> SomeMulti(frame)
  {
    var rows := AllRows(|frame|);
    var ordered := InTimeOrder(frame, rows);
    hide AllRows, InTimeOrder, Records, Rising, Assets;
    InTimeOrderSorts(frame, rows);
    AssetsAre(frame, rows);
    AssetsAre(frame, ordered);
    AssetsRise(frame, rows);
    AssetsRise(frame, ordered);
    SameKeys(frame, rows, ordered);
    forall a ensures |Records(frame, ordered, a)| == |Records(frame, rows, a)| {
      RecordsOfOrdered(frame, rows, a);
    }
  }

  lemma SameKeys(frame: seq<Row>, s: seq<nat>, t: seq<nat>)
    requires forall x :: x in s <==> x in t
    ensures Assets(frame, s) == Assets(frame, t)
  {
    hide Rising, Assets;
    AssetsAre(frame, s);
    AssetsAre(frame, t);
    AssetsRise(frame, s);
    AssetsRise(frame, t);
    RisingAreEqual(Assets(frame, s), Assets(frame, t));
  }

  lemma {:induction false} RisingAreEqual(s: seq<int>, t: seq<int>)
    requires Rising(s) && Rising(t) && forall x :: x in s <==> x in t
    ensures s == t
  {
    assert s != [] ==> s[0] in s;
    assert t != [] ==> t[0] in t;
    if s != [] && t != [] {
      RisingHead(s, t[0]);
      RisingHead(t, s[0]);
      RisingTail(s);
      RisingTail(t);
      hide Rising;
      assert forall x :: x in s[1..] <==> x in t[1..];
      RisingAreEqual(s[1..], t[1..]);
      assert s == [s[0]] + s[1..] && t == [t[0]] + t[1..];
    }
  }

  lemma RisingHead(s: seq<int>, x: int)
    requires Rising(s) && x in s
    ensures s[0] <= x
  {
  }

  lemma RisingTail(s: seq<int>)
    requires Rising(s) && s != []
    ensures Rising(s[1..]) && forall x :: x in s[1..] <==> x in s && x != s[0]
  {
    assert forall i :: 0 <= i < |s[1..]| ==> s[1..][i] == s[i + 1];
    assert s == [s[0]] + s[1..];
  }

  /** What the first pass leaves of each asset, and in all. */
  lemma LeftAfterFirst(frame: seq<Row>, size: real, f: Folds, a: int)
    requires 0.0 < size < 1.0 && SomeMulti(frame) && GroupTimeFolds(frame, size, AllRows(|frame|)) == Ok(f)
    ensures |Records(frame, f.train, a)| == Left(frame, size, a)
    ensures |f.train| == |frame| - TotalGiven(frame, size, FrameAssets(frame))
  {
    var rows := AllRows(|frame|);
    hide AllRows, InTimeOrder, Records, HoldOut, Gather, Assets, MultiRecord, Partitions;
    OrderedAssets(frame);
    GatheredTest(frame, size, FrameAssets(frame));
    GroupTimePartitions(frame, size, rows);
    FilterParts(f, rows, OfAsset(frame, a));
    PartSizes(f, rows);
    RowsOfFrame(|frame|);
    MultiRow(frame);
    AssetSharesInOnePass(frame, size, rows, a);
    RecordsFilter(frame, f.train, a);
    RecordsFilter(frame, f.test, a);
    RecordsFilter(frame, rows, a);
  }

  lemma RecordsFilter(frame: seq<Row>, positions: seq<nat>, a: int)
    ensures Records(frame, positions, a) == Filter(positions, OfAsset(frame, a))
  {
  }

  lemma MultiRow(frame: seq<Row>)
    requires SomeMulti(frame)
    ensures var rows := AllRows(|frame|); exists i :: i in rows && |Records(frame, rows, Key(frame, i))| >= 2
  {
    hide AllRows, Records, Assets;
    var a :| a in FrameAssets(frame) && RowsOf(frame, a) >= 2;
    AssetsAre(frame, AllRows(|frame|));
  }

  /** The room of a scope, told by the number of records per asset. */
  ghost predicate RoomByCounts(frame: seq<Row>, size: real, scope: seq<nat>, assets: seq<int>) {
    if exists a :: a in assets && |Records(frame, scope, a)| >= 2 then
      forall a :: a in assets ==>
        |Records(frame, scope, a)| == 0 || (|Records(frame, scope, a)| >= 2 && Tight(|Records(frame, scope, a)|, size))
    else Tight(|scope|, size)
  }

  lemma NoRoomByCounts(frame: seq<Row>, size: real, scope: seq<nat>, assets: seq<int>)
    requires forall x :: x in scope ==> Key(frame, x) in assets
    ensures NoRoom(frame, GroupTime, size, scope) <==> RoomByCounts(frame, size, scope, assets)
  {
    hide Records, Tight;
    forall x | x in scope ensures |Records(frame, scope, Key(frame, x))| >= 1 {
      HasRecord(frame, scope, x);
    }
    forall a | |Records(frame, scope, a)| >= 1 ensures exists x :: x in scope && Key(frame, x) == a {
      RecordIsThere(frame, scope, a);
    }
  }

  lemma GroupTimeUsesUp(env: Env, frame: seq<Row>, req: Request, first: Folds)
    requires Honest(env) && StrategyOf(req).GroupTime? && FirstPass(env, frame, req) == Ok(first) && Sizes(req)
    requires Partitions(first, AllRows(|frame|))
    ensures SecondPassTakesAll(env, frame, req, first.train) <==> UsesUp(env, frame, req)
  {
    var rows := AllRows(|frame|);
    assert GroupTimeFolds(frame, req.testSize, rows) == Ok(first);
    assert req.validationSize > 0.0 ==> GroupTimeFolds(frame, Fraction(req), Where(|frame|, first.train)).Ok?;
    hide AllRows, Where, Honest, HoldOut, Tight, Assets, FirstPass, GroupTimeFolds, Records, NoRoom, Partitions,
         SomeMulti, UsesUpByAssetAndTime;
    WhereOfTrain(|frame|, first);
    var scope := Where(|frame|, first.train);
    ScopeCondition(frame, req.testSize, Fraction(req), first, scope);
  }

  lemma ScopeCondition(frame: seq<Row>, testSize: real, fraction: real, first: Folds, scope: seq<nat>)
    requires 0.0 < testSize < 1.0 && GroupTimeFolds(frame, testSize, AllRows(|frame|)) == Ok(first)
    requires multiset(scope) == multiset(first.train) && |frame| >= 1
    ensures UsesUpByAssetAndTime(frame, testSize, fraction) <==>
            |first.train| >= 4 && NoRoom(frame, GroupTime, fraction, scope)
  {
    hide AllRows, FrameAssets, GroupTimeFolds, Records, NoRoom, Partitions, SomeMulti, UsesUpByAssetAndTime,
         RoomByCounts,
         Tight, HoldOut;
    ScopeCounts(frame, testSize, fraction, first, scope);
    if SomeMulti(frame) {
      LeftOfAll(frame, testSize, first);
      MultiCondition(frame, testSize, fraction, scope);
    } else {
      FallbackLeaves(frame, testSize, first);
      FallbackCondition(frame, testSize, fraction, scope);
    }
  }

  lemma ScopeCounts(frame: seq<Row>, testSize: real, fraction: real, first: Folds, scope: seq<nat>)
    requires GroupTimeFolds(frame, testSize, AllRows(|frame|)) == Ok(first) && multiset(scope) == multiset(first.train)
    ensures NoRoom(frame, GroupTime, fraction, scope) <==> RoomByCounts(frame, fraction, scope, FrameAssets(frame))
    ensures |scope| == |first.train|
    ensures forall a :: |Records(frame, scope, a)| == |Records(frame, first.train, a)|
  {
    hide AllRows, FrameAssets, GroupTimeFolds, Records, NoRoom, Partitions;
    GroupTimePartitions(frame, testSize, AllRows(|frame|));
    KeysOfScope(frame, first, scope);
    NoRoomByCounts(frame, fraction, scope, FrameAssets(frame));
    assert |multiset(scope)| == |multiset(first.train)|;
    forall a ensures |Records(frame, scope, a)| == |Records(frame, first.train, a)| {
      RecordsFilter(frame, scope, a);
      RecordsFilter(frame, first.train, a);
      FilterCount(scope, first.train, OfAsset(frame, a));
    }
  }

  lemma LeftOfAll(frame: seq<Row>, size: real, f: Folds)
    requires 0.0 < size < 1.0 && SomeMulti(frame) && GroupTimeFolds(frame, size, AllRows(|frame|)) == Ok(f)
    ensures forall a :: |Records(frame, f.train, a)| == Left(frame, size, a)
    ensures |f.train| == |frame| - TotalGiven(frame, size, FrameAssets(frame))
  {
    hide AllRows, FrameAssets, GroupTimeFolds, Records, SomeMulti, Left;
    LeftAfterFirst(frame, size, f, 0);
    forall a ensures |Records(frame, f.train, a)| == Left(frame, size, a) {
      LeftAfterFirst(frame, size, f, a);
    }
  }

  lemma MultiCondition(frame: seq<Row>, testSize: real, fraction: real, scope: seq<nat>)
    requires SomeMulti(frame)
    requires forall a :: |Records(frame, scope, a)| == Left(frame, testSize, a)
    requires |scope| == |frame| - TotalGiven(frame, testSize, FrameAssets(frame))
    ensures UsesUpByAssetAndTime(frame, testSize, fraction) <==>
            |scope| >= 4 && RoomByCounts(frame, fraction, scope, FrameAssets(frame))
  {
    hide Records, Left, FrameAssets, Tight, SomeMulti, TotalGiven;
  }

  lemma FallbackCondition(frame: seq<Row>, testSize: real, fraction: real, scope: seq<nat>)
    requires !SomeMulti(frame) && |scope| == |frame| - HoldOut(|frame|, testSize)
    requires forall a :: a in FrameAssets(frame) ==> |Records(frame, scope, a)| < 2
    ensures UsesUpByAssetAndTime(frame, testSize, fraction) <==>
            |scope| >= 4 && RoomByCounts(frame, fraction, scope, FrameAssets(frame))
  {
    hide Records, Left, FrameAssets, Tight, SomeMulti, TotalGiven, HoldOut;
  }

  lemma KeysOfScope(frame: seq<Row>, first: Folds, scope: seq<nat>)
    requires Partitions(first, AllRows(|frame|)) && multiset(scope) == multiset(first.train)
    ensures forall x :: x in scope ==> Key(frame, x) in FrameAssets(frame)
  {
    hide AllRows, Assets;
    var rows := AllRows(|frame|);
    AssetsAre(frame, rows);
    forall x | x in scope ensures x in rows {
      assert x in multiset(scope);
      assert x in multiset(first.train) + multiset(first.test);
    }
  }

  /** Without an asset with several rows the first pass goes by time alone, and no asset has several rows left. */
  lemma FallbackLeaves(frame: seq<Row>, size: real, f: Folds)
    requires 0.0 < size < 1.0 && |frame| >= 1 && !SomeMulti(frame)
    requires GroupTimeFolds(frame, size, AllRows(|frame|)) == Ok(f)
    ensures |f.train| == |frame| - HoldOut(|frame|, size)
    ensures forall a :: a in FrameAssets(frame) ==> |Records(frame, f.train, a)| < 2
  {
    var rows := AllRows(|frame|);
    var ordered := InTimeOrder(frame, rows);
    hide AllRows, InTimeOrder, Records, HoldOut, Gather, Assets, MultiRecord;
    OrderedAssets(frame);
    RowsOfFrame(|frame|);
    InTimeOrderSorts(frame, rows);
    HoldOutLeavesOne(|frame|, size);
    HoldOutLastPartitions(ordered, size);
    forall a | a in FrameAssets(frame) ensures |Records(frame, f.train, a)| < 2 {
      FilterParts(f, ordered, OfAsset(frame, a));
      RecordsFilter(frame, f.train, a);
      RecordsFilter(frame, ordered, a);
      RecordsOfOrdered(frame, rows, a);
    }
  }

  /**
   For arbitrary sizes the trainer accepts a returned split exactly when the frame, the sizes and the seeded
   permutation do not meet the condition above.
   */
  lemma TrainerAcceptsUnlessUsedUp(env: Env, frame: seq<Row>, req: Request)
    requires Honest(env) && Deterministic(StrategyOf(req)) && SplitRows(env, frame, req).Ok?
    ensures Sizes(req)
    ensures TrainerAccepts(SplitRows(env, frame, req).value, |frame|) <==> !UsesUp(env, frame, req)
  {
    hide FirstPass, SecondPass, SplitRows, SecondPassTakesAll, UsesUp, TrainerAccepts, Honest, Partitions, AllRows;
    var first, _ := TwoPasses(env, frame, req);
    TrainerAcceptsIffRoomIsLeft(env, frame, req);
    match StrategyOf(req)
    case Chronological => ChronologicalUsesUp(env, frame, req, first);
    case Group => GroupUsesUp(env, frame, req, first);
    case GroupTime => GroupTimeUsesUp(env, frame, req, first);
  }
}
