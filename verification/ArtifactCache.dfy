/** The 16-entry least-recently-used cache of deployed package artifacts. */
module ArtifactCache {
  import opened Wrappers
  import opened Records

  type Key = (Id, string)

  /** The registered-model columns a load reads. */
  datatype Row = Row(id: Id, version: string, artifact: Option<string>, modelRun: Option<Id>)
  {
    function Key(): Key { (id, version) }
  }

  datatype Package = Package(modelName: string, content: nat)

  datatype LoadError = NoArtifact | InvalidArtifact | WrongModel

  /** Artifacts on disk and model runs in the database; neither changes once written. */
  datatype World = World(disk: map<string, Package>, runs: map<Id, string>)

  const CAPACITY := 16

  function LoadFresh(w: World, row: Row): Result<Package, LoadError> {
    if row.artifact.None? || row.artifact.value == "" then Err(NoArtifact)
    else if row.artifact.value !in w.disk then Err(InvalidArtifact)
    else
      var p := w.disk[row.artifact.value];
      if row.modelRun.Some? && row.modelRun.value != "" && row.modelRun.value in w.runs
         && w.runs[row.modelRun.value] != p.modelName
      then Err(WrongModel)
      else Ok(p)
  }

  // ----- the order of keys -----

  function Without(s: seq<Key>, k: Key): seq<Key> {
    if s == [] then [] else (if s[0] == k then [] else [s[0]]) + Without(s[1..], k)
  }

  function Trim(s: seq<Key>): seq<Key> {
    if |s| > CAPACITY then s[|s| - CAPACITY..] else s
  }

  /** One use of a key: it moves to the end and the oldest keys beyond the capacity leave. */
  function Touch(order: seq<Key>, k: Key): seq<Key> {
    Trim(Without(order, k) + [k])
  }

  /** The key order after a whole history of successful loads. */
  function Play(uses: seq<Key>): seq<Key> {
    if uses == [] then [] else Touch(Play(uses[..|uses| - 1]), uses[|uses| - 1])
  }

  // ----- what that order means -----

  function LastUse(uses: seq<Key>, k: Key): int {
    if uses == [] then -1
    else if uses[|uses| - 1] == k then |uses| - 1
    else LastUse(uses[..|uses| - 1], k)
  }

  /** The distinct keys used after the last use of `k`. */
  function Since(uses: seq<Key>, k: Key): set<Key> {
    if uses == [] || uses[|uses| - 1] == k then {}
    else Since(uses[..|uses| - 1], k) + {uses[|uses| - 1]}
  }

  /** Every key ever used, ordered by last use: the order an unbounded cache would have. */
  function Recent(uses: seq<Key>): seq<Key> {
    if uses == [] then []
    else Without(Recent(uses[..|uses| - 1]), uses[|uses| - 1]) + [uses[|uses| - 1]]
  }

  lemma {:induction false} WithoutMembers(s: seq<Key>, k: Key)
    ensures forall x :: x in Without(s, k) <==> x in s && x != k
    ensures k !in s ==> Without(s, k) == s
    ensures Distinct(s) ==> Distinct(Without(s, k))
    ensures Distinct(s) && k in s ==> |Without(s, k)| == |s| - 1
  {
    if s != [] {
      WithoutMembers(s[1..], k);
      assert Distinct(s) ==> Distinct(s[1..]) && s[0] !in s[1..];
    }
  }

  lemma {:induction false} WithoutConcat(a: seq<Key>, b: seq<Key>, k: Key)
    ensures Without(a + b, k) == Without(a, k) + Without(b, k)
  {
    if a == [] {
      assert a + b == b;
    } else {
      assert (a + b)[1..] == a[1..] + b;
      WithoutConcat(a[1..], b, k);
    }
  }

  /** Trimming first or last makes no difference to a use. */
  lemma TrimThenTouch(r: seq<Key>, k: Key)
    requires Distinct(r)
    ensures Touch(Trim(r), k) == Trim(Without(r, k) + [k])
  {
    hide Without, Distinct;
    if |r| > CAPACITY {
      var a, b := r[..|r| - CAPACITY], r[|r| - CAPACITY..];
      assert r == a + b;
      DistinctHalves(a, b);
      WithoutConcat(a, b, k);
      WithoutMembers(b, k);
      assert Without(r, k) + [k] == Without(a, k) + (Without(b, k) + [k]);
      TrimSuffix(a, Without(b, k) + [k], k, k in b);
    }
  }

  lemma DistinctHalves(a: seq<Key>, b: seq<Key>)
    requires Distinct(a + b)
    ensures Distinct(b) && forall x :: x in a ==> x !in b
  {
    forall i, j | 0 <= i < |a| && 0 <= j < |b| ensures a[i] != b[j] {
      assert (a + b)[i] != (a + b)[|a| + j];
    }
    forall i, j | 0 <= i < j < |b| ensures b[i] != b[j] {
      assert (a + b)[|a| + i] != (a + b)[|a| + j];
    }
  }

  lemma TrimSuffix(a: seq<Key>, tail: seq<Key>, k: Key, hit: bool)
    requires hit ==> k !in a && |tail| == CAPACITY
    requires !hit ==> |tail| == CAPACITY + 1
    ensures Trim(tail) == Trim(Without(a, k) + tail)
  {
  }

  lemma {:induction false} PlayIsTrimmedRecent(uses: seq<Key>)
    ensures Distinct(Recent(uses)) && Play(uses) == Trim(Recent(uses))
    ensures forall x :: x in Recent(uses) <==> x in uses
  {
    if uses != [] {
      var before, k := uses[..|uses| - 1], uses[|uses| - 1];
      PlayIsTrimmedRecent(before);
      WithoutMembers(Recent(before), k);
      TrimThenTouch(Recent(before), k);
      assert uses == before + [k];
    }
  }

  ghost predicate ByLastUse(s: seq<Key>, uses: seq<Key>) {
    forall i, j :: 0 <= i < j < |s| ==> LastUse(uses, s[i]) < LastUse(uses, s[j])
  }

  lemma {:induction false} WithoutKeepsOrder(s: seq<Key>, k: Key, uses: seq<Key>)
    requires ByLastUse(s, uses)
    ensures ByLastUse(Without(s, k), uses)
  {
    hide Distinct, LastUse, ByLastUse;
    if s != [] {
      HeadUsedFirst(s, uses);
      WithoutKeepsOrder(s[1..], k, uses);
      WithoutMembers(s[1..], k);
      HeadBefore(s[0], Without(s[1..], k), uses);
      assert s[0] == k ==> Without(s, k) == Without(s[1..], k);
    } else {
      assert Without(s, k) == s;
    }
  }

  lemma HeadUsedFirst(s: seq<Key>, uses: seq<Key>)
    requires s != [] && ByLastUse(s, uses)
    ensures ByLastUse(s[1..], uses) && forall x :: x in s[1..] ==> LastUse(uses, s[0]) < LastUse(uses, x)
  {
    hide LastUse;
  }

  lemma HeadBefore(x: Key, rest: seq<Key>, uses: seq<Key>)
    requires ByLastUse(rest, uses) && forall y :: y in rest ==> LastUse(uses, x) < LastUse(uses, y)
    ensures ByLastUse([x] + rest, uses)
  {
    hide LastUse;
    var all := [x] + rest;
    forall i, j | 0 <= i < j < |all| ensures LastUse(uses, all[i]) < LastUse(uses, all[j]) {
      assert all[j] == rest[j - 1] && rest[j - 1] in rest;
      if i > 0 { assert all[i] == rest[i - 1]; }
    }
  }

  /** The newest use is the last use of its key, and no other key's. */
  lemma LaterUse(uses: seq<Key>)
    requires uses != []
    ensures var before, k := uses[..|uses| - 1], uses[|uses| - 1];
      LastUse(uses, k) == |uses| - 1 && forall x :: x != k ==> LastUse(uses, x) == LastUse(before, x)
  {
  }

  lemma {:induction false} RecentByLastUse(uses: seq<Key>)
    ensures ByLastUse(Recent(uses), uses)
    ensures forall k :: k in uses ==> 0 <= LastUse(uses, k) < |uses|
  {
    hide Recent, Without, LastUse, Distinct, Play, ByLastUse, Trim;
    if uses == [] {
      NothingRecent();
    } else {
      var before, k := uses[..|uses| - 1], uses[|uses| - 1];
      var rest := Without(Recent(before), k);
      RecentByLastUse(before);
      PlayIsTrimmedRecent(before);
      WithoutMembers(Recent(before), k);
      WithoutKeepsOrder(Recent(before), k, before);
      assert forall x :: x in uses <==> x in before || x == k;
      LaterUse(uses);
      RecentOn(uses);
      LatestLast(rest, k, before, uses);
    }
  }

  lemma NothingRecent()
    ensures Recent([]) == [] && ByLastUse([], [])
  {
  }

  lemma RecentOn(uses: seq<Key>)
    requires uses != []
    ensures Recent(uses) == Without(Recent(uses[..|uses| - 1]), uses[|uses| - 1]) + [uses[|uses| - 1]]
  {
  }

  lemma LatestLast(rest: seq<Key>, k: Key, before: seq<Key>, uses: seq<Key>)
    requires ByLastUse(rest, before) && k !in rest
    requires forall x :: x in rest ==> LastUse(before, x) < |before|
    requires LastUse(uses, k) == |before| && forall x :: x != k ==> LastUse(uses, x) == LastUse(before, x)
    ensures ByLastUse(rest + [k], uses)
  {
    hide LastUse;
    forall i, j | 0 <= i < j < |rest + [k]| ensures LastUse(uses, (rest + [k])[i]) < LastUse(uses, (rest + [k])[j]) {
      assert rest[i] in rest;
      assert j < |rest| ==> rest[j] in rest;
    }
  }

  /** "Since" is "later last use". */
  lemma {:induction false} SinceIsLater(uses: seq<Key>, k: Key)
    requires k in uses
    ensures forall x :: x in Since(uses, k) <==> x in uses && LastUse(uses, x) > LastUse(uses, k)
  {
    var before, y := uses[..|uses| - 1], uses[|uses| - 1];
    RecentByLastUse(uses);
    RecentByLastUse(before);
    assert forall x :: x in uses <==> x in before || x == y;
    if y != k {
      SinceIsLater(before, k);
    }
  }

  function Elements(s: seq<Key>): set<Key> {
    set x | x in s
  }

  lemma {:induction false} DistinctSetSize(s: seq<Key>)
    requires Distinct(s)
    ensures |Elements(s)| == |s|
  {
    if s != [] {
      DistinctSetSize(s[1..]);
      assert Elements(s) == Elements(s[1..]) + {s[0]};
    }
  }

  lemma OrderedByLastUse(s: seq<Key>, uses: seq<Key>, i: nat, j: nat)
    requires ByLastUse(s, uses) && i < |s| && j < |s|
    ensures i < j <==> LastUse(uses, s[i]) < LastUse(uses, s[j])
  {
    assert i < j ==> LastUse(uses, s[i]) < LastUse(uses, s[j]);
    assert j < i ==> LastUse(uses, s[j]) < LastUse(uses, s[i]);
  }

  lemma TailIsDistinct(s: seq<Key>, i: nat)
    requires Distinct(s) && i < |s|
    ensures Distinct(s[i + 1..])
  {
  }

  lemma SinceIsTail(uses: seq<Key>, i: nat)
    requires i < |Recent(uses)|
    ensures |Since(uses, Recent(uses)[i])| == |Recent(uses)| - 1 - i
  {
    hide Recent, Since, LastUse, Play, ByLastUse, Distinct, Trim;
    var r := Recent(uses);
    PlayIsTrimmedRecent(uses);
    RecentByLastUse(uses);
    SinceIsLater(uses, r[i]);
    var tail := r[i + 1..];
    forall x | x in Since(uses, r[i]) ensures x in Elements(tail) {
      var j: nat :| j < |r| && r[j] == x;
      OrderedByLastUse(r, uses, i, j);
      assert tail[j - i - 1] == x;
    }
    forall x | x in Elements(tail) ensures x in Since(uses, r[i]) {
      var j: nat :| j < |tail| && tail[j] == x;
      assert x in r;
      OrderedByLastUse(r, uses, i, i + 1 + j);
    }
    TailIsDistinct(r, i);
    assert Elements(tail) == Since(uses, r[i]);
    DistinctSetSize(tail);
  }

  /**
   After any history the cache holds exactly the keys since whose last use fewer than 16 distinct
   other keys were used, at most 16 of them, in order of last use.
   */
  lemma HoldsTheMostRecentlyUsed(uses: seq<Key>)
    ensures |Play(uses)| <= 16
    ensures forall k :: k in Play(uses) <==> k in uses && |Since(uses, k)| < 16
    ensures var p := Play(uses); forall i, j :: 0 <= i < j < |p| ==> LastUse(uses, p[i]) < LastUse(uses, p[j])
  {
    var r := Recent(uses);
    PlayIsTrimmedRecent(uses);
    RecentByLastUse(uses);
    forall k ensures k in Play(uses) <==> k in uses && |Since(uses, k)| < CAPACITY {
      if k in r {
        var i :| 0 <= i < |r| && r[i] == k;
        SinceIsTail(uses, i);
        if i >= |r| - CAPACITY && |r| > CAPACITY {
          assert Play(uses)[i - (|r| - CAPACITY)] == k;
        }
        if k in Play(uses) && |r| > CAPACITY {
          var p :| 0 <= p < |Play(uses)| && Play(uses)[p] == k;
          assert r[p + |r| - CAPACITY] == k;
        }
      }
    }
  }

  lemma HistoryStep(uses: seq<Key>, k: Key)
    ensures Distinct(Play(uses)) && |Play(uses)| <= CAPACITY
    ensures Play(uses + [k]) == Touch(Play(uses), k)
    ensures k !in Play(uses) ==> Touch(Play(uses), k) == Trim(Play(uses) + [k])
    ensures k in Play(uses) ==> Touch(Play(uses), k) == Without(Play(uses), k) + [k]
    ensures forall x :: x in Without(Play(uses), k) <==> x in Play(uses) && x != k
  {
    assert (uses + [k])[..|uses|] == uses;
    PlayIsTrimmedRecent(uses);
    WithoutMembers(Play(uses), k);
  }

  // ----- the cache object -----

  class Cache {
    const world: World
    ghost const rows: map<Key, Row>
    var entries: map<Key, Package>
    var order: seq<Key>
    ghost var uses: seq<Key>

    /** Cached values are what an uncached load returns, and the key order is that of the use history. */
    ghost predicate Valid()
      reads this
    {
      && order == Play(uses)
      && (forall k :: k in entries <==> k in order)
      && (forall k :: k in entries ==> k in rows && LoadFresh(world, rows[k]) == Ok(entries[k]))
    }

    constructor (world: World, ghost rows: map<Key, Row>)
      ensures Valid() && uses == [] && this.world == world && this.rows == rows
    {
      this.world := world;
      this.rows := rows;
      entries, order, uses := map[], [], [];
    }

    method LoadDeployed(row: Row) returns (r: Result<Package, LoadError>)
      requires Valid() && row.Key() in rows && rows[row.Key()] == row
      modifies this
      ensures Valid()
      ensures r == LoadFresh(world, row)
      ensures r == Err(NoArtifact) <==> row.artifact.None? || row.artifact == Some("")
      ensures r == Err(InvalidArtifact) <==> r != Err(NoArtifact) && row.artifact.value !in world.disk
      ensures r == Err(WrongModel) <==>
              && r != Err(NoArtifact) && r != Err(InvalidArtifact)
              && row.modelRun.Some? && row.modelRun != Some("") && row.modelRun.value in world.runs
              && world.runs[row.modelRun.value] != world.disk[row.artifact.value].modelName
      ensures r.Ok? ==> r.value == world.disk[row.artifact.value]
      ensures uses == if r.Ok? then old(uses) + [row.Key()] else old(uses)
      ensures order == if r.Ok? then Touch(old(order), row.Key()) else old(order)
      ensures forall k :: k in entries ==> k == row.Key() || (k in old(entries) && entries[k] == old(entries[k]))
    {
      hide Without, Play, LoadFresh, Touch;
      var key := row.Key();
      FreshLoad(world, row);
      HistoryStep(uses, key);
      if key in entries {
        order := Without(order, key) + [key];
        uses := uses + [key];
        return Ok(entries[key]);
      }
      r := LoadFresh(world, row);
      if r.Err? { return; }
      entries := entries[key := r.value];
      order := order + [key];
      uses := uses + [key];
      EvictOverflow();
    }

    /** Drop from the front until at most 16 entries are left. */
    method EvictOverflow()
      requires Distinct(order) && forall k :: k in entries <==> k in order
      modifies this`entries, this`order
      ensures order == Trim(old(order))
      ensures forall k :: k in entries <==> k in order
      ensures forall k :: k in entries ==> k in old(entries) && entries[k] == old(entries[k])
    {
      ghost var full, kept := order, entries;
      ghost var dropped := 0;
      while |order| > CAPACITY
        invariant 0 <= dropped <= |full| && order == full[dropped..]
        invariant dropped == 0 || |order| >= CAPACITY
        invariant forall k :: k in entries <==> k in order
        invariant forall k :: k in entries ==> k in kept && entries[k] == kept[k]
      {
        DistinctHead(full, dropped);
        entries := entries - {order[0]};
        order := order[1..];
        dropped := dropped + 1;
      }
    }
  }

  lemma FreshLoad(w: World, row: Row)
    ensures var r := LoadFresh(w, row);
      && (r == Err(NoArtifact) <==> row.artifact.None? || row.artifact == Some(""))
      && (r == Err(InvalidArtifact) <==> r != Err(NoArtifact) && row.artifact.value !in w.disk)
      && (r == Err(WrongModel) <==>
            && r != Err(NoArtifact) && r != Err(InvalidArtifact)
            && row.modelRun.Some? && row.modelRun != Some("") && row.modelRun.value in w.runs
            && w.runs[row.modelRun.value] != w.disk[row.artifact.value].modelName)
      && (r.Ok? ==> row.artifact.Some? && row.artifact.value in w.disk && r.value == w.disk[row.artifact.value])
  {
  }

  lemma DistinctHead(s: seq<Key>, i: nat)
    requires Distinct(s) && i < |s|
    ensures s[i] !in s[i + 1..] && s[i..][1..] == s[i + 1..]
    ensures forall k :: k in s[i..] <==> k == s[i] || k in s[i + 1..]
  {
  }
}
