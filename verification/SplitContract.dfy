/** What a caller of a split can rely on, told from the columns and sizes of the request alone. */
module SplitContract {
  import opened Wrappers
  import opened Sorting
  import opened Split
  import opened Leakage
  import opened FoldSizes
  import opened EmptyTrain

  /** `i` is in an earlier fold than `j`, in the order train, validation, test. */
  predicate EarlierFold(r: Splits, i: nat, j: nat) {
    || (i in r.train && (j in r.validation || j in r.test))
    || (i in r.validation && j in r.test)
  }

  predicate Asked(column: Column) { column != NotRequested }

  /** Every row of a split that was asked to look at a column has a cell there. */
  lemma CellsPresent(env: Env, frame: seq<Row>, req: Request)
    requires FirstPass(env, frame, req).Ok?
    ensures Asked(req.asset) ==> forall i :: 0 <= i < |frame| ==> frame[i].asset.Some?
    ensures Asked(req.time) ==> forall i :: 0 <= i < |frame| ==> frame[i].time.Some?
  {
    hide AllRows, Assets, Take, InTimeOrder, HoldOutLast, Gather, MultiRecord;
    RowsOfFrame(|frame|);
    assert forall i :: 0 <= i < |frame| ==> frame[i] in frame;
  }

  /**
   No leakage, by column. With an asset column and no time column no asset is in two folds. With both, within each
   asset train comes no later than validation and validation no later than test. With a time column only, that order
   holds across the whole frame.
   */
  lemma FoldsFollowColumns(env: Env, frame: seq<Row>, req: Request)
    requires Honest(env) && SplitRows(env, frame, req).Ok?
    ensures var r := SplitRows(env, frame, req).value;
      && (forall i: nat, j: nat :: EarlierFold(r, i, j) ==> i < |frame| && j < |frame|)
      && (Asked(req.asset) && !Asked(req.time) ==>
            forall i: nat, j: nat :: EarlierFold(r, i, j) ==>
              frame[i].asset.Some? && frame[j].asset.Some? && frame[i].asset != frame[j].asset)
      && (Asked(req.asset) && Asked(req.time) ==>
            forall i: nat, j: nat :: EarlierFold(r, i, j) && frame[i].asset == frame[j].asset ==>
              frame[i].time.Some? && frame[j].time.Some? && frame[i].time.value <= frame[j].time.value)
      && (!Asked(req.asset) && Asked(req.time) ==>
            forall i: nat, j: nat :: EarlierFold(r, i, j) ==>
              frame[i].time.Some? && frame[j].time.Some? && frame[i].time.value <= frame[j].time.value)
  {
    hide FirstPass, SecondPass, SplitRows, AllRows, Ascending, Honest, Rising, Separated, EarlierFold, Partitions;
    var r := SplitRows(env, frame, req).value;
    var first, second := TwoPasses(env, frame, req);
    CellsPresent(env, frame, req);
    EveryRowInExactlyOneFold(env, frame, req);
    FoldsAreSeparated(env, frame, req);
    forall i: nat, j: nat | EarlierFold(r, i, j)
      ensures i < |frame| && j < |frame|
      ensures match StrategyOf(req)
              case Group => Key(frame, i) != Key(frame, j)
              case GroupTime => Key(frame, i) == Key(frame, j) ==> Time(frame, i) <= Time(frame, j)
              case Chronological => Time(frame, i) <= Time(frame, j)
              case _ => true
    {
      PairIsSeparated(frame, StrategyOf(req), r, i, j);
    }
  }

  lemma PairIsSeparated(frame: seq<Row>, st: Strategy, r: Splits, i: nat, j: nat)
    requires EarlierFold(r, i, j)
    requires Separated(frame, st, r.train, r.validation) && Separated(frame, st, r.validation, r.test)
    requires Separated(frame, st, r.train, r.test)
    ensures i in r.train || i in r.validation
    ensures j in r.validation || j in r.test
    ensures match st
            case Group => Key(frame, i) != Key(frame, j)
            case GroupTime => Key(frame, i) == Key(frame, j) ==> Time(frame, i) <= Time(frame, j)
            case Chronological => Time(frame, i) <= Time(frame, j)
            case _ => true
  {
  }

  /**
   With both columns the share is taken from every asset: each asset with several rows gives the test fold its share of
   them, rounded up, and an asset with one row gives nothing unless all assets are that small.
   */
  lemma EveryAssetIsTested(env: Env, frame: seq<Row>, req: Request, a: int)
    requires Honest(env) && SplitRows(env, frame, req).Ok? && Asked(req.asset) && Asked(req.time)
    requires exists i: nat :: i < |frame| && |Records(frame, AllRows(|frame|), Key(frame, i))| >= 2
    ensures var m := |Records(frame, AllRows(|frame|), a)|;
      |Records(frame, SplitRows(env, frame, req).value.test, a)| == if m >= 2 then HoldOut(m, req.testSize) else 0
  {
    var first, second := TwoPasses(env, frame, req);
    var rows := AllRows(|frame|);
    assert GroupTimeFolds(frame, req.testSize, rows) == Ok(first);
    hide FirstPass, SecondPass, SplitRows, AllRows, Ascending, Honest, HoldOut, Records, GroupTimeFolds, Partitions,
         OfAsset, Filter;
    RowsOfFrame(|frame|);
    AssetSharesInOnePass(frame, req.testSize, rows, a);
    AscendingSorts(first.test);
    FilterCount(Ascending(first.test), first.test, OfAsset(frame, a));
    RecordsFilter(frame, Ascending(first.test), a);
    RecordsFilter(frame, first.test, a);
  }

  /**
   Without either column the library splits: by class when a classification target is named, at random otherwise. It is
   asked for the test fold among all rows and then for the validation fold among the train rows; only a stratified
   second pass may fail without failing the split.
   */
  lemma LibraryIsAsked(env: Env, frame: seq<Row>, req: Request)
    requires Honest(env) && SplitRows(env, frame, req).Ok? && !Asked(req.asset) && !Asked(req.time)
    ensures var kind := if req.classification && Asked(req.target) then Stratified else Random;
      var r := SplitRows(env, frame, req).value;
      && env.library(kind, AllRows(|frame|), req.testSize).Some?
      && var first := env.library(kind, AllRows(|frame|), req.testSize).value;
      && multiset(r.test) == multiset(first.test)
      && if req.validationSize > 0.0 && |first.train| >= 4 then
           match env.library(kind, Where(|frame|, first.train), req.validationSize / (1.0 - req.testSize))
           case Some(f) => multiset(r.train) == multiset(f.train) && multiset(r.validation) == multiset(f.test)
           case None => kind == Stratified && multiset(r.train) == multiset(first.train) && r.validation == []
         else multiset(r.train) == multiset(first.train) && r.validation == []
  {
    hide AllRows, Where, Ascending, Honest, Partitions;
    var first, second := TwoPasses(env, frame, req);
    AscendingSorts(first.test);
    AscendingSorts(second.train);
    AscendingSorts(second.test);
    if req.validationSize > 0.0 { FractionInUnit(req); }
  }

  /** The size check, in one line: a test share, perhaps a validation share, and something left to train on. */
  predicate SizesFit(req: Request) {
    0.0 < req.testSize && 0.0 <= req.validationSize && req.testSize + req.validationSize < 1.0
  }

  predicate Prepared(frame: seq<Row>, req: Request) {
    |frame| >= 4 && SizesFit(req) && req.asset != Absent && req.time != Absent && req.target != Absent
  }

  lemma AssetsAreAlike(frame: seq<Row>)
    requires |frame| >= 1 && forall i :: 0 <= i < |frame| ==> frame[i].asset.Some?
    ensures |Assets(frame, AllRows(|frame|))| < 2 <==>
            forall i :: 0 <= i < |frame| ==> frame[i].asset == frame[0].asset
  {
    hide AllRows, Assets;
    var assets := Assets(frame, AllRows(|frame|));
    RowsOfFrame(|frame|);
    AssetsAre(frame, AllRows(|frame|));
    if |assets| >= 2 {
      assert assets[0] in assets && assets[1] in assets;
    } else {
      forall i | 0 <= i < |frame| ensures frame[i].asset == frame[0].asset {
        assert Key(frame, i) in assets && Key(frame, 0) in assets;
      }
    }
  }

  /** Which request is refused, and why; the checks stand in this order. */
  lemma RefusedRequests(env: Env, frame: seq<Row>, req: Request)
    requires Honest(env)
    ensures var r := SplitRows(env, frame, req);
      var untimed := exists i :: 0 <= i < |frame| && frame[i].time.None?;
      var unnamed := exists i :: 0 <= i < |frame| && frame[i].asset.None?;
      && (r == Err(TooFewRows) <==> |frame| < 4)
      && (r == Err(BadSizes) <==> |frame| >= 4 && !SizesFit(req))
      && (r == Err(MissingColumn) <==> |frame| >= 4 && SizesFit(req) && !Prepared(frame, req))
      && (r == Err(BadTimestamps) <==> Prepared(frame, req) && Asked(req.time) && untimed)
      && (r == Err(MissingAsset) <==>
            Prepared(frame, req) && Asked(req.asset) && unnamed && !(Asked(req.time) && untimed))
      && (r == Err(TooFewAssets) <==>
            && Prepared(frame, req) && Asked(req.asset) && !Asked(req.time) && !unnamed
            && forall i :: 0 <= i < |frame| ==> frame[i].asset == frame[0].asset)
      && (r == Err(CannotStratify) <==>
            && Prepared(frame, req) && !Asked(req.asset) && !Asked(req.time) && Asked(req.target) && req.classification
            && env.library(Stratified, AllRows(|frame|), req.testSize).None?)
  {
    hide AllRows, Assets, InTimeOrder, HoldOutLast, Gather, MultiRecord, Where, Take, Honest, HoldOut, OnePass;
    var st := StrategyOf(req);
    if Prepared(frame, req) {
      PassRefusals(env, frame, st, req.testSize);
    }
  }

  lemma PassRefusals(env: Env, frame: seq<Row>, st: Strategy, size: real)
    requires |frame| >= 1
    ensures var r := OnePass(env, frame, st, size, AllRows(|frame|));
      var untimed := exists i :: 0 <= i < |frame| && frame[i].time.None?;
      var unnamed := exists i :: 0 <= i < |frame| && frame[i].asset.None?;
      && (r == Err(BadTimestamps) <==> (st == GroupTime || st == Chronological) && untimed)
      && (r == Err(MissingAsset) <==> (st == GroupTime && !untimed && unnamed) || (st == Group && unnamed))
      && (r == Err(TooFewAssets) <==>
            st == Group && !unnamed && forall i :: 0 <= i < |frame| ==> frame[i].asset == frame[0].asset)
      && (r == Err(CannotStratify) <==> st == Stratified && env.library(Stratified, AllRows(|frame|), size).None?)
      && (r.Err? ==> r.error in {BadTimestamps, MissingAsset, TooFewAssets, CannotStratify, LibraryError})
  {
    hide AllRows, Assets, InTimeOrder, HoldOutLast, Gather, MultiRecord, Take, HoldOut;
    RowsOfFrame(|frame|);
    if forall i :: 0 <= i < |frame| ==> frame[i].asset.Some? { AssetsAreAlike(frame); }
    assert forall i :: 0 <= i < |frame| ==> frame[i] in frame;
  }
}
