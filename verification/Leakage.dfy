/** No leakage: how the three folds of a split are separated in time or by asset, across both passes. */
module Leakage {
  import opened Wrappers
  import opened Sorting
  import opened Split

  /**
   What a strategy keeps apart. By asset and time: within every asset, no earlier row is later than a held-out
   one. By time: no earlier row at all is later than a held-out one. By asset: no asset is on both sides.
   */
  ghost predicate Separated(frame: seq<Row>, st: Strategy, kept: seq<nat>, held: seq<nat>) {
    match st
    case GroupTime =>
      forall i, j :: i in kept && j in held && Key(frame, i) == Key(frame, j) ==> Time(frame, i) <= Time(frame, j)
    case Chronological =>
      forall i, j :: i in kept && j in held ==> Time(frame, i) <= Time(frame, j)
    case Group =>
      forall i, j :: i in kept && j in held ==> Key(frame, i) != Key(frame, j)
    case _ => true
  }

  lemma {:induction false} FilterSorted(s: seq<nat>, le: Order<nat>, keep: nat -> bool)
    requires Sorted(s, le)
    ensures Sorted(Filter(s, keep), le)
  {
    if s != [] {
      FilterSorted(s[1..], le, keep);
      FilterMembers(s[1..], keep);
      assert forall i :: 0 <= i < |s[1..]| ==> le(s[0], s[1..][i]);
      var rest := Filter(s[1..], keep);
      forall j | 0 <= j < |rest| ensures le(s[0], rest[j]) {
        assert rest[j] in s[1..];
      }
    }
  }

  lemma HoldOutLastSeparates(frame: seq<Row>, s: seq<nat>, size: real)
    requires Sorted(s, Earliest(frame))
    ensures Separated(frame, Chronological, HoldOutLast(s, size).train, HoldOutLast(s, size).test)
    ensures forall x :: x in HoldOutLast(s, size).train || x in HoldOutLast(s, size).test ==> x in s
  {
  }

  lemma HoldOutOfSeparates(frame: seq<Row>, ordered: seq<nat>, size: real, a: int)
    requires Sorted(ordered, Earliest(frame))
    ensures var h := HoldOutOf(frame, ordered, size, a);
      && Separated(frame, Chronological, h.train, h.test)
      && forall x :: x in h.train || x in h.test ==> Key(frame, x) == a
  {
    var records := Records(frame, ordered, a);
    FilterSorted(ordered, Earliest(frame), OfAsset(frame, a));
    FilterMembers(ordered, OfAsset(frame, a));
    HoldOutLastSeparates(frame, records, size);
  }

  lemma {:induction false} GatherSeparates(frame: seq<Row>, ordered: seq<nat>, size: real, assets: seq<int>)
    requires Sorted(ordered, Earliest(frame))
    requires forall i, j :: 0 <= i < j < |assets| ==> assets[i] != assets[j]
    ensures var g := Gather(frame, ordered, size, assets);
      && Separated(frame, GroupTime, g.train, g.test)
      && forall x :: x in g.train || x in g.test ==> Key(frame, x) in assets
  {
    if assets != [] {
      var most, a := assets[..|assets| - 1], assets[|assets| - 1];
      assert assets == most + [a] && a !in most;
      GatherSeparates(frame, ordered, size, most);
      HoldOutOfSeparates(frame, ordered, size, a);
    }
  }

  lemma GroupTimeSeparates(frame: seq<Row>, size: real, scope: seq<nat>)
    ensures var r := GroupTimeFolds(frame, size, scope);
      r.Ok? ==> Separated(frame, GroupTime, r.value.train, r.value.test)
  {
    hide Gather, Assets, HoldOutLast, MultiRecord;
    var ordered := InTimeOrder(frame, scope);
    InTimeOrderSorts(frame, scope);
    AssetsAre(frame, ordered);
    GatherSeparates(frame, ordered, size, Assets(frame, ordered));
    HoldOutLastSeparates(frame, ordered, size);
  }

  lemma OnePassSeparates(env: Env, frame: seq<Row>, st: Strategy, size: real, scope: seq<nat>)
    ensures var r := OnePass(env, frame, st, size, scope);
      r.Ok? ==> Separated(frame, st, r.value.train, r.value.test)
  {
    match st
    case GroupTime => GroupTimeSeparates(frame, size, scope);
    case Group =>
      var chosen := Take(env.permute(Assets(frame, scope)), HoldOut(|Assets(frame, scope)|, size));
      FilterMembers(scope, NotIn(frame, chosen));
      FilterMembers(scope, OfAssets(frame, chosen));
    case Chronological =>
      InTimeOrderSorts(frame, scope);
      HoldOutLastSeparates(frame, InTimeOrder(frame, scope), size);
    case _ =>
  }

  lemma FewerRowsStaySeparated(frame: seq<Row>, st: Strategy, kept: seq<nat>, held: seq<nat>, kept': seq<nat>,
                               held': seq<nat>)
    requires Separated(frame, st, kept, held)
    requires (forall x :: x in kept' ==> x in kept) && (forall x :: x in held' ==> x in held)
    ensures Separated(frame, st, kept', held')
  {
  }

  lemma FirstPassSeparates(env: Env, frame: seq<Row>, req: Request)
    ensures var r := FirstPass(env, frame, req);
      r.Ok? ==> Separated(frame, StrategyOf(req), r.value.train, r.value.test)
  {
    hide OnePass, Separated;
    OnePassSeparates(env, frame, StrategyOf(req), req.testSize, AllRows(|frame|));
  }

  lemma SecondPassSeparates(env: Env, frame: seq<Row>, req: Request, train: seq<nat>)
    requires Sizes(req)
    ensures var r := SecondPass(env, frame, req, train);
      r.Ok? ==> Separated(frame, StrategyOf(req), r.value.train, r.value.test)
  {
    hide OnePass, Where;
    OnePassSeparates(env, frame, StrategyOf(req), Fraction(req), Where(|frame|, train));
  }

  /** Train, validation and test stay separated pairwise, whatever the second pass did. */
  lemma FoldsAreSeparated(env: Env, frame: seq<Row>, req: Request)
    requires Honest(env) && SplitRows(env, frame, req).Ok?
    ensures var r := SplitRows(env, frame, req).value;
      && Separated(frame, StrategyOf(req), r.train, r.validation)
      && Separated(frame, StrategyOf(req), r.validation, r.test)
      && Separated(frame, StrategyOf(req), r.train, r.test)
  {
    hide FirstPass, SecondPass, SplitRows, AllRows, Ascending, Honest, Separated;
    var first, second := TwoPasses(env, frame, req);
    FirstPassSeparates(env, frame, req);
    SecondPassSeparates(env, frame, req, first.train);
    AscendingSorts(second.train);
    AscendingSorts(second.test);
    AscendingSorts(first.test);
    assert forall x :: x in second.train || x in second.test ==> x in multiset(first.train);
    var st := StrategyOf(req);
    FewerRowsStaySeparated(frame, st, second.train, second.test, Ascending(second.train), Ascending(second.test));
    FewerRowsStaySeparated(frame, st, first.train, first.test, Ascending(second.train), Ascending(first.test));
    FewerRowsStaySeparated(frame, st, first.train, first.test, Ascending(second.test), Ascending(first.test));
  }

  // ----- how many rows each asset gives up -----

  lemma {:induction false} FilterConcat(s: seq<nat>, t: seq<nat>, keep: nat -> bool)
    ensures Filter(s + t, keep) == Filter(s, keep) + Filter(t, keep)
  {
    if s == [] {
      assert s + t == t;
    } else {
      FilterConcat(s[1..], t, keep);
      assert (s + t)[1..] == s[1..] + t;
      var head := if keep(s[0]) then [s[0]] else [];
      assert Filter(s, keep) == head + Filter(s[1..], keep);
      assert Filter(s + t, keep) == head + Filter(s[1..] + t, keep);
      hide Filter;
    }
  }

  /** Each asset with several records gives up its share, rounded up, and at least one; the others give up none. */
  lemma {:induction false} EachAssetGivesItsShare(frame: seq<Row>, ordered: seq<nat>, size: real, assets: seq<int>,
                                                  a: int)
    requires Sorted(ordered, Earliest(frame)) && 0.0 < size < 1.0
    requires forall i, j :: 0 <= i < j < |assets| ==> assets[i] != assets[j]
    ensures var m := |Records(frame, ordered, a)|;
      |Records(frame, Gather(frame, ordered, size, assets).test, a)|
      == if a in assets && m >= 2 then HoldOut(m, size) else 0
  {
    if assets != [] {
      var most, last := assets[..|assets| - 1], assets[|assets| - 1];
      var mine := OfAsset(frame, a);
      assert assets == most + [last] && last !in most;
      EachAssetGivesItsShare(frame, ordered, size, most, a);
      var g, h := Gather(frame, ordered, size, most), HoldOutOf(frame, ordered, size, last);
      FilterConcat(g.test, h.test, mine);
      HoldOutOfSeparates(frame, ordered, size, last);
      if a == last {
        FilterAll(h.test, mine);
        if |Records(frame, ordered, a)| >= 2 { HoldOutLeavesOne(|Records(frame, ordered, a)|, size); }
      } else {
        FilterNone(h.test, mine);
      }
    }
  }
}
