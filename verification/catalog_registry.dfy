/** Building from sources in any order, and publishing by compare-and-swap. */
module CatalogOrder {
  import opened Wrappers
  import opened Catalog

  /** A package source; `rank` puts kernel and platform first. The rest is opaque here. */
  datatype Source = Source(package: string, rank: nat, body: nat)

  /** What the builder does with one source and with the whole; an error is None or false. */
  datatype Rules = Rules(shape: Source -> bool, add: (Contents, Source) -> Option<Contents>, complete: Contents -> bool)

  predicate Less(a: string, b: string) {
    if b == "" then false else if a == "" then true
    else if a[0] != b[0] then a[0] < b[0] else Less(a[1..], b[1..])
  }

  lemma {:induction false} LessIsTotal(a: string, b: string)
    ensures Less(a, b) || Less(b, a) || a == b
  {
    if a != "" && b != "" && a[0] == b[0] {
      LessIsTotal(a[1..], b[1..]);
      if a[1..] == b[1..] { assert a == [a[0]] + a[1..] && b == [b[0]] + b[1..]; }
    }
  }

  predicate Before(a: Source, b: Source) { a.rank < b.rank || (a.rank == b.rank && Less(a.package, b.package)) }

  /** Names are ordered by their first difference, a beginning before what it begins. */
  lemma {:induction false} LessIs(a: string, b: string)
    ensures Less(a, b) <==> exists k :: 0 <= k <= |a| && k < |b| && a[..k] == b[..k] && (k == |a| || a[k] < b[k])
  {
    if a == "" || b == "" {
      if a == "" && b != "" { assert a[..0] == b[..0]; }
    } else if a[0] == b[0] {
      LessIs(a[1..], b[1..]);
      if k :| 0 <= k <= |a| && k < |b| && a[..k] == b[..k] && (k == |a| || a[k] < b[k]) {
        assert a[1..][..k - 1] == a[..k][1..] && b[1..][..k - 1] == b[..k][1..];
      }
      if k :| 0 <= k <= |a[1..]| && k < |b[1..]| && a[1..][..k] == b[1..][..k] && (k == |a[1..]| || a[1..][k] < b[1..][k]) {
        assert a[..k + 1] == [a[0]] + a[1..][..k] && b[..k + 1] == [b[0]] + b[1..][..k];
      }
    } else {
      assert a[..0] == b[..0];
      forall k | 0 < k <= |a| && k <= |b| ensures a[..k][0] == a[0] && b[..k][0] == b[0] {}
    }
  }

  /** What an unstable sort guarantees: a permutation in which nothing stands after something it
      should come before. */
  ghost predicate SortOf(out: seq<Source>, xs: seq<Source>) {
    multiset(out) == multiset(xs) && forall i, j :: 0 <= i < j < |out| ==> !Before(out[j], out[i])
  }

  /** Sorted means: lower ranks first, and within a rank by package name. */
  lemma SortedByRank(out: seq<Source>, xs: seq<Source>)
    requires SortOf(out, xs)
    ensures forall i, j :: 0 <= i < j < |out| ==>
              out[i].rank <= out[j].rank && (out[i].rank == out[j].rank ==> out[i].package == out[j].package || Less(out[i].package, out[j].package))
  {
    hide Less;
    forall i, j | 0 <= i < j < |out|
      ensures out[i].rank <= out[j].rank && (out[i].rank == out[j].rank ==> out[i].package == out[j].package || Less(out[i].package, out[j].package))
    {
      LessIsTotal(out[i].package, out[j].package);
    }
  }

  predicate Distinct(xs: seq<Source>) { forall i, j :: 0 <= i < j < |xs| ==> xs[i].package != xs[j].package }

  /** Add the sources one after the other; a package seen twice rejects everything. */
  function AddAll(r: Rules, acc: Contents, xs: seq<Source>, seen: set<string>): Option<Contents>
    decreases |xs|
  {
    if xs == [] then Some(acc)
    else if xs[0].package in seen then None
    else
      var next := r.add(acc, xs[0]);
      if next.None? then None else AddAll(r, next.value, xs[1..], seen + {xs[0].package})
  }

  /** Build, given the order in which its sort has put the sources. */
  function Build(r: Rules, xs: seq<Source>, ordered: seq<Source>): Option<Contents> {
    if exists i :: 0 <= i < |xs| && !r.shape(xs[i]) then None
    else
      var c := AddAll(r, NoContents, ordered, {});
      if c.Some? && r.complete(c.value) then c else None
  }

  lemma {:induction false} DuplicateRejects(r: Rules, acc: Contents, xs: seq<Source>, seen: set<string>)
    requires !Distinct(xs) || exists i :: 0 <= i < |xs| && xs[i].package in seen
    ensures AddAll(r, acc, xs, seen) == None
    decreases |xs|
  {
    if xs[0].package !in seen {
      var next := r.add(acc, xs[0]);
      if next.Some? {
        var rest := xs[1..];
        if exists i :: 0 <= i < |xs| && xs[i].package in seen {
          var i :| 0 <= i < |xs| && xs[i].package in seen;
          assert rest[i - 1].package in seen + {xs[0].package};
        } else {
          var i, j :| 0 <= i < j < |xs| && xs[i].package == xs[j].package;
          if i == 0 { assert rest[j - 1].package in seen + {xs[0].package}; }
          else { assert rest[i - 1].package == rest[j - 1].package; }
        }
        DuplicateRejects(r, next.value, rest, seen + {xs[0].package});
      }
    }
  }

  /** With distinct packages the order is total, so there is only one sorted arrangement. */
  lemma {:induction false} SortIsUnique(a: seq<Source>, b: seq<Source>)
    requires SortOf(a, b) && SortOf(b, a) && Distinct(a)
    ensures a == b
    decreases |a|
  {
    SameLength(a, b);
    if a != [] {
      HeadsAgree(a, b);
      assert a == [a[0]] + a[1..] && b == [b[0]] + b[1..];
      assert multiset(a[1..]) == multiset(a) - multiset{a[0]} && multiset(b[1..]) == multiset(b) - multiset{b[0]};
      SortIsUnique(a[1..], b[1..]);
    }
  }

  lemma SameLength(a: seq<Source>, b: seq<Source>)
    requires multiset(a) == multiset(b)
    ensures |a| == |b|
  {
    assert |multiset(a)| == |a| && |multiset(b)| == |b|;
  }

  lemma HeadsAgree(a: seq<Source>, b: seq<Source>)
    requires SortOf(a, b) && SortOf(b, a) && Distinct(a) && a != [] && b != []
    ensures a[0] == b[0]
  {
    assert a[0] in multiset(b) && b[0] in multiset(a);
    var i :| 0 <= i < |b| && b[i] == a[0];
    var j :| 0 <= j < |a| && a[j] == b[0];
    assert i > 0 ==> !Before(b[i], b[0]);
    assert j > 0 ==> !Before(a[j], a[0]);
    LessIsTotal(a[0].package, b[0].package);
  }

  lemma DistinctAlike(a: seq<Source>, b: seq<Source>)
    requires multiset(a) == multiset(b) && Distinct(a)
    ensures Distinct(b)
  {
    if i, j :| 0 <= i < j < |b| && b[i].package == b[j].package {
      assert b[i] in multiset(a) && b[j] in multiset(a);
      var m :| 0 <= m < |a| && a[m] == b[i];
      var n :| 0 <= n < |a| && a[n] == b[j];
      if m == n { TwiceIn(b, i, j); OnceIn(a, m); }
    }
  }

  lemma TwiceIn(b: seq<Source>, i: nat, j: nat)
    requires i < j < |b| && b[i] == b[j]
    ensures multiset(b)[b[i]] >= 2
  {
    assert b == b[..j] + b[j..] && b[..j][i] == b[i] && b[j..][0] == b[j];
    assert multiset(b) == multiset(b[..j]) + multiset(b[j..]);
    assert b[i] in multiset(b[..j]) && b[j] in multiset(b[j..]);
  }

  lemma OnceIn(a: seq<Source>, m: nat)
    requires m < |a| && Distinct(a)
    ensures multiset(a)[a[m]] == 1
  {
    assert a == a[..m] + [a[m]] + a[m + 1..];
    assert multiset(a) == multiset(a[..m]) + multiset{a[m]} + multiset(a[m + 1..]);
    assert a[m] !in a[..m] && a[m] !in a[m + 1..];
  }

  /** Build does not depend on the order of its sources: any permutation, sorted by any (unstable)
      sort, gives the same outcome and the same contents; and two sources with one package are always
      rejected, wherever the sort puts them. */
  lemma BuildIgnoresOrder(r: Rules, xs: seq<Source>, ys: seq<Source>, a: seq<Source>, b: seq<Source>)
    requires multiset(xs) == multiset(ys) && SortOf(a, xs) && SortOf(b, ys)
    ensures Build(r, xs, a) == Build(r, ys, b)
    ensures !Distinct(xs) ==> Build(r, xs, a) == None
  {
    ShapesAlike(r, xs, ys);
    if Distinct(xs) {
      DistinctAlike(xs, a);
      SortIsUnique(a, b);
    } else {
      if Distinct(a) { DistinctAlike(a, xs); }
      if Distinct(b) { DistinctAlike(b, xs); }
      DuplicateRejects(r, NoContents, a, {});
      DuplicateRejects(r, NoContents, b, {});
    }
  }

  /** The outcome of a whole build on `previous`: rejected, or the stamped contents with their index. */
  ghost predicate Builds(r: Rules, previous: Snapshot, xs: seq<Source>, ordered: seq<Source>, out: Option<Snapshot>) {
    var c := Build(r, xs, ordered);
    if c.None? || !HandlesApart(Assigned(previous, c.value).resources) then out.None? else
      out.Some? && out.value.(byHandle := map[]) == Assigned(previous, c.value) && Indexed(out.value.resources, out.value.byHandle)
  }

  lemma AddAllNext(r: Rules, xs: seq<Source>, n: nat, acc: Contents, seen: set<string>)
    requires n < |xs|
    ensures AddAll(r, acc, xs[n..], seen) ==
            if xs[n].package in seen || r.add(acc, xs[n]).None? then None
            else AddAll(r, r.add(acc, xs[n]).value, xs[n + 1..], seen + {xs[n].package})
  {
    assert xs[n..][0] == xs[n] && xs[n..][1..] == xs[n + 1..];
  }

  /** Builder.Build, once the sort has put the sources in some order. */
  method BuildSnapshot(r: Rules, previous: Snapshot, xs: seq<Source>, ordered: seq<Source>) returns (out: Option<Snapshot>)
    ensures Builds(r, previous, xs, ordered, out)
    ensures out.Some? ==> Build(r, xs, ordered).Some? && HoldsContents(out.value, Build(r, xs, ordered).value)
  {
    hide AddAll, Assigned, HandlesApart, Indexed;
    var i := 0;
    while i < |xs|
      invariant 0 <= i <= |xs| && forall j :: 0 <= j < i ==> r.shape(xs[j])
    {
      if !r.shape(xs[i]) { return None; }
      i := i + 1;
    }
    var acc, seen, n := NoContents, {}, 0;
    assert ordered[0..] == ordered;
    while n < |ordered|
      invariant 0 <= n <= |ordered| && AddAll(r, acc, ordered[n..], seen) == AddAll(r, NoContents, ordered, {})
    {
      AddAllNext(r, ordered, n, acc, seen);
      if ordered[n].package in seen { return None; }
      var next := r.add(acc, ordered[n]);
      if next.None? { return None; }
      acc, seen, n := next.value, seen + {ordered[n].package}, n + 1;
    }
    NoneLeft(r, acc, ordered[n..], seen);
    if !r.complete(acc) { return None; }
    var b := new Builder();
    var next := b.AssignDefinitionGenerations(previous, acc);
    var index := b.BuildResourceHandleIndex(next.resources);
    if index.None? { return None; }
    NoIndexYet(previous, acc);
    AssignedHolds(previous, acc);
    return Some(next.(byHandle := index.value));
  }

  lemma NoneLeft(r: Rules, acc: Contents, xs: seq<Source>, seen: set<string>)
    requires xs == []
    ensures AddAll(r, acc, xs, seen) == Some(acc)
  {
  }

  lemma NoIndexYet(previous: Snapshot, c: Contents)
    ensures Assigned(previous, c).byHandle == map[]
  {
  }

  // There is only one index of a set of resources.
  lemma IndexIsUnique(resources: map<ResourceKey, Def<Resource>>, a: map<string, Def<Resource>>, b: map<string, Def<Resource>>)
    requires Indexed(resources, a) && Indexed(resources, b)
    ensures a == b
  {
    forall h | h in a || h in b ensures h in a && h in b && a[h] == b[h] {
      var k :| k in resources && resources[k].meaning.handle == h;
    }
  }

  /** Build does not depend on the order of its sources: the same sources in another order, put in order by
      any (unstable) sort, give the same Snapshot - contents, generations and handle index - or are both
      rejected. */
  lemma SnapshotIgnoresOrder(r: Rules, previous: Snapshot, xs: seq<Source>, ys: seq<Source>, a: seq<Source>, b: seq<Source>,
                             x: Option<Snapshot>, y: Option<Snapshot>)
    requires multiset(xs) == multiset(ys) && SortOf(a, xs) && SortOf(b, ys)
    requires Builds(r, previous, xs, a, x) && Builds(r, previous, ys, b, y)
    ensures x == y
    ensures !Distinct(xs) ==> x == None
  {
    hide Build, Assigned, Indexed;
    BuildIgnoresOrder(r, xs, ys, a, b);
    if x.Some? {
      IndexIsUnique(x.value.resources, x.value.byHandle, y.value.byHandle);
      assert x.value == x.value.(byHandle := map[]).(byHandle := x.value.byHandle);
      assert y.value == y.value.(byHandle := map[]).(byHandle := y.value.byHandle);
    }
  }

  lemma ShapesAlike(r: Rules, xs: seq<Source>, ys: seq<Source>)
    requires multiset(xs) == multiset(ys)
    ensures (exists i :: 0 <= i < |xs| && !r.shape(xs[i])) <==> (exists i :: 0 <= i < |ys| && !r.shape(ys[i]))
  {
    if i :| 0 <= i < |xs| && !r.shape(xs[i]) {
      assert xs[i] in multiset(ys);
      var j :| 0 <= j < |ys| && ys[j] == xs[i];
    }
    if i :| 0 <= i < |ys| && !r.shape(ys[i]) {
      assert ys[i] in multiset(xs);
      var j :| 0 <= j < |xs| && xs[j] == ys[i];
    }
  }
}

module CatalogRegistry {
  import opened Wrappers
  import opened Catalog

  /** `base` stands for the identity of the snapshot the candidate was prepared against. */
  datatype Candidate = Candidate(base: nat, snapshot: Snapshot)

  class Registry {
    var current: Snapshot
    var version: nat
    ghost var published: seq<Snapshot>

    /** Whatever was prepared and published by whomever, what has been current so far is one history in
        which each snapshot was built from the one before. */
    ghost predicate Valid()
      reads this
    {
      published != [] && version == |published| - 1 && current == published[version] && History(published)
    }

    constructor (initial: Snapshot)
      requires Follows(NoSnapshot, initial)
      ensures Valid() && published == [initial]
    {
      current, version, published := initial, 0, [initial];
    }

    /** A candidate built from the complete set of sources, against what is current now. */
    method Prepare(c: Contents) returns (candidate: Option<Candidate>)
      requires Valid()
      ensures candidate.Some? ==> Prepared(published, candidate.value) && HoldsContents(candidate.value.snapshot, c)
      ensures candidate.None? <==> !HandlesApart(Assigned(current, c).resources)
    {
      var b := new Builder();
      var next := b.AssignDefinitionGenerations(current, c);
      var index := b.BuildResourceHandleIndex(next.resources);
      if index.None? { return None; }
      var s := next.(byHandle := index.value);
      AssignedHolds(current, c);
      assert s.(byHandle := map[]) == Assigned(current, c);
      return Some(Candidate(version, s));
    }

    /** The compare-and-swap: only the candidate prepared against the present snapshot wins. */
    method Publish(candidate: Candidate) returns (won: bool)
      requires Valid() && candidate.base < |published| && Prepared(published[..candidate.base + 1], candidate)
      modifies this
      ensures Valid() && won == (candidate.base == old(version))
      ensures published == if won then old(published) + [candidate.snapshot] else old(published)
    {
      won := candidate.base == version;
      if won {
        assert published[..candidate.base + 1] == published;
        ghost var was, now := published, published + [candidate.snapshot];
        forall i | 0 <= i < |now| ensures FollowsAt(now, i) { if i < |was| { assert FollowsAt(was, i); } }
        current, version, published := candidate.snapshot, version + 1, now;
      }
    }
  }

  ghost predicate Prepared(h: seq<Snapshot>, candidate: Candidate) {
    h != [] && candidate.base == |h| - 1 && Follows(h[candidate.base], candidate.snapshot)
  }
}
