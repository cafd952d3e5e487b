/** `sorted` with a key: a stable sort under a total preorder, and the facts that make its result canonical. */
module Sorting {

  type Order<!T> = (T, T) -> bool

  ghost predicate TotalPreorder<T(!new)>(le: Order<T>) {
    && (forall x, y :: le(x, y) || le(y, x))
    && (forall x, y, z :: le(x, y) && le(y, z) ==> le(x, z))
  }

  function Insert<T>(x: T, s: seq<T>, le: Order<T>): seq<T> {
    if s == [] then [x]
    else if le(x, s[0]) then [x] + s
    else [s[0]] + Insert(x, s[1..], le)
  }

  /** Stable: of two elements that tie, the one that came first stays first. */
  function Sort<T>(s: seq<T>, le: Order<T>): seq<T> {
    if s == [] then [] else Insert(s[0], Sort(s[1..], le), le)
  }

  function Filter<T>(s: seq<T>, keep: T -> bool): seq<T> {
    if s == [] then [] else (if keep(s[0]) then [s[0]] else []) + Filter(s[1..], keep)
  }

  function Map<T, U>(s: seq<T>, f: T -> U): (r: seq<U>)
    ensures |r| == |s| && forall i :: 0 <= i < |s| ==> r[i] == f(s[i])
  {
    if s == [] then [] else [f(s[0])] + Map(s[1..], f)
  }

  ghost predicate Sorted<T>(s: seq<T>, le: Order<T>) {
    forall i, j :: 0 <= i < j < |s| ==> le(s[i], s[j])
  }

  lemma {:induction false} InsertMembers<T>(x: T, s: seq<T>, le: Order<T>)
    ensures multiset(Insert(x, s, le)) == multiset(s) + multiset{x}
    ensures forall y :: y in Insert(x, s, le) <==> y == x || y in s
  {
    if s != [] && !le(x, s[0]) {
      InsertMembers(x, s[1..], le);
      assert s == [s[0]] + s[1..];
    }
  }

  lemma {:induction false} InsertSorted<T(!new)>(x: T, s: seq<T>, le: Order<T>)
    requires TotalPreorder(le) && Sorted(s, le)
    ensures Sorted(Insert(x, s, le), le)
  {
    if s == [] {
    } else if le(x, s[0]) {
      assert forall i :: 0 <= i < |s| ==> le(x, s[i]);
    } else {
      InsertSorted(x, s[1..], le);
      InsertMembers(x, s[1..], le);
      var rest := Insert(x, s[1..], le);
      assert le(s[0], x);
      assert forall i :: 0 <= i < |rest| ==> rest[i] == x || rest[i] in s[1..];
      assert forall y :: y in s[1..] ==> le(s[0], y);
      assert Insert(x, s, le) == [s[0]] + rest;
    }
  }

  lemma {:induction false} SortSorts<T(!new)>(s: seq<T>, le: Order<T>)
    requires TotalPreorder(le)
    ensures Sorted(Sort(s, le), le) && multiset(Sort(s, le)) == multiset(s)
    ensures forall y :: y in Sort(s, le) <==> y in s
  {
    if s != [] {
      SortSorts(s[1..], le);
      InsertSorted(s[0], Sort(s[1..], le), le);
      InsertMembers(s[0], Sort(s[1..], le), le);
      assert s == [s[0]] + s[1..];
    }
  }

  ghost predicate NoTies<T>(s: seq<T>, le: Order<T>) {
    forall x, y :: x in s && y in s && le(x, y) && le(y, x) ==> x == y
  }

  /** Without ties there is only one sorted arrangement. */
  lemma {:induction false} SortedIsUnique<T(!new)>(s: seq<T>, t: seq<T>, le: Order<T>)
    requires TotalPreorder(le) && Sorted(s, le) && Sorted(t, le)
    requires multiset(s) == multiset(t) && NoTies(s, le)
    ensures s == t
  {
    if s == [] {
      assert |multiset(t)| == 0;
    } else {
      HeadsAgree(s, t, le);
      TailsMatch(s, t);
      SortedTail(s, le);
      SortedTail(t, le);
      assert NoTies(s[1..], le);
      hide Sorted, TotalPreorder, NoTies;
      SortedIsUnique(s[1..], t[1..], le);
      assert s == [s[0]] + s[1..] && t == [t[0]] + t[1..];
    }
  }

  lemma SortedTail<T(!new)>(s: seq<T>, le: Order<T>)
    requires s != [] && Sorted(s, le)
    ensures Sorted(s[1..], le)
  {
  }

  /** The least element of a sorted list heads every sorted arrangement of it. */
  lemma HeadsAgree<T(!new)>(s: seq<T>, t: seq<T>, le: Order<T>)
    requires TotalPreorder(le) && Sorted(s, le) && Sorted(t, le)
    requires s != [] && multiset(s) == multiset(t) && NoTies(s, le)
    ensures t != [] && s[0] == t[0]
  {
    assert s[0] in multiset(s) && s[0] in multiset(t);
    assert t[0] in multiset(t) && t[0] in multiset(s);
    AtLeastHead(s, t[0], le);
    AtLeastHead(t, s[0], le);
  }

  lemma AtLeastHead<T(!new)>(s: seq<T>, x: T, le: Order<T>)
    requires TotalPreorder(le) && Sorted(s, le) && x in s
    ensures le(s[0], x)
  {
    var i :| 0 <= i < |s| && s[i] == x;
    assert i == 0 || le(s[0], s[i]);
  }

  lemma TailsMatch<T>(s: seq<T>, t: seq<T>)
    requires s != [] && t != [] && s[0] == t[0] && multiset(s) == multiset(t)
    ensures multiset(s[1..]) == multiset(t[1..])
  {
    assert s == [s[0]] + s[1..] && t == [t[0]] + t[1..];
    assert multiset(s[1..]) == multiset(s) - multiset{s[0]};
    assert multiset(t[1..]) == multiset(t) - multiset{t[0]};
  }

  lemma SortIgnoresInputOrder<T(!new)>(s: seq<T>, t: seq<T>, le: Order<T>)
    requires TotalPreorder(le) && multiset(s) == multiset(t) && NoTies(s, le)
    ensures Sort(s, le) == Sort(t, le)
  {
    SortSorts(s, le);
    SortSorts(t, le);
    SortedIsUnique(Sort(s, le), Sort(t, le), le);
  }

  lemma {:induction false} FilterMembers<T>(s: seq<T>, keep: T -> bool)
    ensures forall x :: x in Filter(s, keep) <==> x in s && keep(x)
  {
    if s != [] { FilterMembers(s[1..], keep); }
  }

  lemma HeadBelowAll<T(!new)>(x: T, s: seq<T>, le: Order<T>)
    requires TotalPreorder(le) && Sorted(s, le) && s != [] && le(x, s[0])
    ensures forall y :: y in s ==> le(x, y)
  {
  }

  lemma {:induction false} FilterInsert<T(!new)>(x: T, s: seq<T>, le: Order<T>, keep: T -> bool)
    requires TotalPreorder(le) && Sorted(s, le)
    ensures Filter(Insert(x, s, le), keep) ==
            if keep(x) then Insert(x, Filter(s, keep), le) else Filter(s, keep)
  {
    if s == [] {
    } else if le(x, s[0]) {
      HeadBelowAll(x, s, le);
      hide TotalPreorder, Sorted;
      assert ([x] + s)[1..] == s;
      FilterMembers(s, keep);
      assert Filter(s, keep) != [] ==> Filter(s, keep)[0] in s;
    } else {
      FilterInsert(x, s[1..], le, keep);
      hide TotalPreorder, Sorted;
      var inserted, rest := Insert(x, s, le), Filter(s[1..], keep);
      assert inserted[0] == s[0] && inserted[1..] == Insert(x, s[1..], le);
      assert ([s[0]] + rest)[1..] == rest && [] + rest == rest;
      assert [] + Filter(inserted[1..], keep) == Filter(inserted[1..], keep);
    }
  }

  lemma SortFilterStep<T>(s: seq<T>, le: Order<T>, keep: T -> bool)
    requires s != []
    ensures keep(s[0]) ==> Sort(Filter(s, keep), le) == Insert(s[0], Sort(Filter(s[1..], keep), le), le)
    ensures !keep(s[0]) ==> Filter(s, keep) == Filter(s[1..], keep)
  {
  }

  /** Filtering commutes with sorting, so a stricter filter gives a subsequence of the same ranking. */
  lemma {:induction false} SortFilter<T(!new)>(s: seq<T>, le: Order<T>, keep: T -> bool)
    requires TotalPreorder(le)
    ensures Sort(Filter(s, keep), le) == Filter(Sort(s, le), keep)
  {
    hide TotalPreorder, Sorted, Insert, Filter;
    if s == [] {
      assert Filter(s, keep) == [] by { FilterEmpty(s, keep); }
    } else {
      SortFilter(s[1..], le, keep);
      SortSorts(s[1..], le);
      FilterInsert(s[0], Sort(s[1..], le), le, keep);
      SortFilterStep(s, le, keep);
    }
  }

  lemma FilterEmpty<T>(s: seq<T>, keep: T -> bool)
    requires s == []
    ensures Filter(s, keep) == []
  {
  }

  lemma {:induction false} InsertMap<T(!new), U>(x: T, s: seq<T>, le: Order<T>, f: T -> U, le': Order<U>)
    requires forall a, b :: le'(f(a), f(b)) == le(a, b)
    ensures Map(Insert(x, s, le), f) == Insert(f(x), Map(s, f), le')
  {
    if s != [] && !le(x, s[0]) {
      InsertMap(x, s[1..], le, f, le');
      assert Insert(x, s, le)[1..] == Insert(x, s[1..], le);
    } else {
      assert ([x] + s)[1..] == s;
    }
  }

  /** Renaming elements along an order-preserving map commutes with sorting. */
  lemma {:induction false} SortMap<T(!new), U>(s: seq<T>, le: Order<T>, f: T -> U, le': Order<U>)
    requires forall a, b :: le'(f(a), f(b)) == le(a, b)
    ensures Map(Sort(s, le), f) == Sort(Map(s, f), le')
  {
    if s != [] {
      SortMap(s[1..], le, f, le');
      InsertMap(s[0], Sort(s[1..], le), le, f, le');
    }
  }

  lemma {:induction false} FilterTwice<T>(s: seq<T>, p: T -> bool, q: T -> bool)
    requires forall x :: x in s && q(x) ==> p(x)
    ensures Filter(Filter(s, p), q) == Filter(s, q)
  {
    if s != [] {
      FilterTwice(s[1..], p, q);
      if p(s[0]) {
        assert Filter(s, p)[1..] == Filter(s[1..], p);
      } else {
        assert Filter(s, p) == Filter(s[1..], p) && !q(s[0]);
      }
    }
  }

  // ----- strings in code-point order -----

  predicate TextLe(a: string, b: string) {
    if a == "" then true
    else if b == "" then false
    else if a[0] != b[0] then a[0] < b[0]
    else TextLe(a[1..], b[1..])
  }

  lemma {:induction false} TextLeTotal(a: string, b: string)
    ensures TextLe(a, b) || TextLe(b, a)
    ensures TextLe(a, b) && TextLe(b, a) ==> a == b
  {
    if a != "" && b != "" && a[0] == b[0] {
      TextLeTotal(a[1..], b[1..]);
      assert a == [a[0]] + a[1..] && b == [b[0]] + b[1..];
    }
  }

  /** Text is ordered as in a dictionary: a prefix first, otherwise by the first character that differs. */
  lemma {:induction false} TextLeIsLexicographic(a: string, b: string)
    ensures TextLe(a, b) <==>
            a <= b || exists k :: 0 <= k < |a| && k < |b| && a[..k] == b[..k] && a[k] < b[k]
  {
    if a != "" && b != "" && a[0] == b[0] {
      TextLeIsLexicographic(a[1..], b[1..]);
      assert a == [a[0]] + a[1..] && b == [b[0]] + b[1..];
      forall k | 0 <= k < |a| && k < |b| && a[..k] == b[..k] && a[k] < b[k]
        ensures 0 < k && a[1..][..k - 1] == b[1..][..k - 1] && a[1..][k - 1] < b[1..][k - 1]
      {
        assert a[1..][..k - 1] == a[..k][1..] && b[1..][..k - 1] == b[..k][1..];
      }
      forall k | 0 <= k < |a[1..]| && k < |b[1..]| && a[1..][..k] == b[1..][..k] && a[1..][k] < b[1..][k]
        ensures a[..k + 1] == b[..k + 1] && a[k + 1] < b[k + 1]
      {
        assert a[..k + 1] == [a[0]] + a[1..][..k] && b[..k + 1] == [b[0]] + b[1..][..k];
      }
    } else if a != "" && b != "" && a[0] < b[0] {
      assert a[..0] == b[..0];
    }
  }

  lemma {:induction false} TextLeTransitive(a: string, b: string, c: string)
    requires TextLe(a, b) && TextLe(b, c)
    ensures TextLe(a, c)
  {
    if a != "" && b != "" && c != "" && a[0] == b[0] == c[0] {
      TextLeTransitive(a[1..], b[1..], c[1..]);
    }
  }
}
