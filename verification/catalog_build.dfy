/** The robot catalog: building a snapshot from package sources, stamping definition generations,
    publishing by compare-and-swap, and which resource authority a publication revokes. */
module Catalog {
  import opened Wrappers

  // What a definition says; two definitions with the same meaning are the same contract.
  datatype Iface = Iface(
    schema: nat, compatible: seq<string>, fallback: Option<ResourceKey>, permission: string, methods: map<nat, string>, owner: nat)
  datatype Provider = Provider(component: string, builtin: bool, owner: nat)
  datatype Resource = Resource(handle: string, kind: string, role: string, details: nat)

  datatype IfaceKey = IfaceKey(id: string, major: nat)
  datatype ProviderKey = ProviderKey(package: string, iface: IfaceKey)
  datatype ResourceKey = ResourceKey(kind: string, role: string)

  datatype Def<M> = Def(meaning: M, generation: nat)

  /** What the sources add up to, before generations. */
  datatype Contents = Contents(
    interfaces: map<IfaceKey, Iface>, providers: map<ProviderKey, Provider>,
    permissions: map<string, nat>, resources: map<ResourceKey, Resource>)

  const NoContents: Contents := Contents(map[], map[], map[], map[])

  datatype Snapshot = Snapshot(
    revision: nat, interfaces: map<IfaceKey, Def<Iface>>, providers: map<ProviderKey, Def<Provider>>,
    permissions: map<string, Def<nat>>, resources: map<ResourceKey, Def<Resource>>, byHandle: map<string, Def<Resource>>)

  // ------------------------------------------------------------------ generations

  /** A definition that was there with the same meaning keeps its generation. */
  function Stamp<M(==)>(prior: Option<Def<M>>, meaning: M, revision: nat): Def<M> {
    Def(meaning, if prior.Some? && prior.value.meaning == meaning then prior.value.generation else revision)
  }

  function Get<K, M>(m: map<K, M>, k: K): Option<M> { if k in m then Some(m[k]) else None }

  function Stamped<K, M(==)>(prior: map<K, Def<M>>, next: map<K, M>, revision: nat): map<K, Def<M>> {
    map k | k in next :: Stamp(Get(prior, k), next[k], revision)
  }

  function GenerationOf<K, M>(m: map<K, Def<M>>, k: K): nat { if k in m then m[k].generation else 0 }

  /** A Provider also gets a new generation when the interface it implements did. */
  function StampProvider(prior: Snapshot, k: ProviderKey, p: Provider, interfaces: map<IfaceKey, Def<Iface>>, revision: nat): Def<Provider> {
    if GenerationOf(prior.interfaces, k.iface) == GenerationOf(interfaces, k.iface)
    then Stamp(Get(prior.providers, k), p, revision) else Def(p, revision)
  }

  function StampedProviders(prior: Snapshot, next: map<ProviderKey, Provider>, interfaces: map<IfaceKey, Def<Iface>>, revision: nat)
    : map<ProviderKey, Def<Provider>>
  {
    map k | k in next :: StampProvider(prior, k, next[k], interfaces, revision)
  }

  const NoSnapshot: Snapshot := Snapshot(0, map[], map[], map[], map[], map[])

  /** The snapshot after `previous` (NoSnapshot at the very beginning), without its handle index. */
  function Assigned(previous: Snapshot, c: Contents): Snapshot {
    var revision := previous.revision + 1;
    var interfaces := Stamped(previous.interfaces, c.interfaces, revision);
    Snapshot(revision, interfaces, StampedProviders(previous, c.providers, interfaces, revision),
             Stamped(previous.permissions, c.permissions, revision), Stamped(previous.resources, c.resources, revision), map[])
  }

  ghost predicate HandlesApart(resources: map<ResourceKey, Def<Resource>>) {
    forall k, j :: k in resources && j in resources && k != j ==> resources[k].meaning.handle != resources[j].meaning.handle
  }

  ghost predicate Indexed(resources: map<ResourceKey, Def<Resource>>, byHandle: map<string, Def<Resource>>) {
    && (forall k :: k in resources ==> resources[k].meaning.handle in byHandle && byHandle[resources[k].meaning.handle] == resources[k])
    && (forall h :: h in byHandle ==> exists k :: k in resources && resources[k].meaning.handle == h)
  }

  /** The snapshot holds exactly these contents. */
  predicate HoldsContents(s: Snapshot, c: Contents) {
    && s.interfaces.Keys == c.interfaces.Keys && (forall k :: k in c.interfaces ==> s.interfaces[k].meaning == c.interfaces[k])
    && s.providers.Keys == c.providers.Keys && (forall k :: k in c.providers ==> s.providers[k].meaning == c.providers[k])
    && s.permissions.Keys == c.permissions.Keys && (forall k :: k in c.permissions ==> s.permissions[k].meaning == c.permissions[k])
    && s.resources.Keys == c.resources.Keys && (forall k :: k in c.resources ==> s.resources[k].meaning == c.resources[k])
  }

  /** Same generation as before, or the new revision. */
  ghost predicate Kept<K, M>(was: map<K, Def<M>>, now: map<K, Def<M>>, revision: nat) {
    forall k :: k in now ==>
      now[k].generation == if k in was && was[k].meaning == now[k].meaning then was[k].generation else revision
  }

  /** Stamping adds generations and nothing else. */
  lemma AssignedHolds(previous: Snapshot, c: Contents)
    ensures HoldsContents(Assigned(previous, c), c) && Assigned(previous, c).revision == previous.revision + 1
  {
  }

  /** A definition keeps its generation exactly if it was there with the same meaning ... */
  lemma AssignedKeeps(previous: Snapshot, c: Contents)
    ensures var s := Assigned(previous, c);
            && Kept(previous.interfaces, s.interfaces, s.revision) && Kept(previous.permissions, s.permissions, s.revision)
            && Kept(previous.resources, s.resources, s.revision)
  {
    hide StampedProviders;
  }

  /** ... a Provider only if its interface has kept its own, too. */
  lemma AssignedProviders(previous: Snapshot, c: Contents)
    requires forall k :: k in previous.interfaces ==> previous.interfaces[k].generation > 0
    ensures var s := Assigned(previous, c);
            forall k :: k in s.providers ==>
              s.providers[k].generation ==
              if k in previous.providers && previous.providers[k].meaning == c.providers[k] &&
                 (k.iface in previous.interfaces <==> k.iface in s.interfaces) &&
                 (k.iface in s.interfaces ==> previous.interfaces[k.iface].generation == s.interfaces[k.iface].generation)
              then previous.providers[k].generation else s.revision
  {
    StampedAbove(previous.interfaces, c.interfaces, previous.revision + 1);
    hide Stamped;
  }

  lemma StampedAbove<K, M>(was: map<K, Def<M>>, next: map<K, M>, revision: nat)
    requires revision > 0 && forall k :: k in was ==> was[k].generation > 0
    ensures forall k :: k in Stamped(was, next, revision) ==> Stamped(was, next, revision)[k].generation > 0
  {
  }

  class Builder {
    constructor () {}

    method StampAll<K(==), M(==)>(prior: map<K, Def<M>>, next: map<K, M>, revision: nat) returns (out: map<K, Def<M>>)
      ensures out == Stamped(prior, next, revision)
    {
      out := map[];
      var left := next.Keys;
      while left != {}
        invariant left <= next.Keys && out.Keys == next.Keys - left
        invariant forall k :: k in out ==> out[k] == Stamp(Get(prior, k), next[k], revision)
        decreases |left|
      {
        var k :| k in left;
        var generation := revision;
        if k in prior && prior[k].meaning == next[k] { generation := prior[k].generation; }
        out := out[k := Def(next[k], generation)];
        left := left - {k};
      }
    }

    method StampAllProviders(previous: Snapshot, next: map<ProviderKey, Provider>, interfaces: map<IfaceKey, Def<Iface>>, revision: nat)
      returns (out: map<ProviderKey, Def<Provider>>)
      ensures out == StampedProviders(previous, next, interfaces, revision)
    {
      out := map[];
      var left := next.Keys;
      while left != {}
        invariant left <= next.Keys && out.Keys == next.Keys - left
        invariant forall k :: k in out ==> out[k] == StampProvider(previous, k, next[k], interfaces, revision)
        decreases |left|
      {
        var k :| k in left;
        var generation := revision;
        if k in previous.providers && previous.providers[k].meaning == next[k] &&
           GenerationOf(previous.interfaces, k.iface) == GenerationOf(interfaces, k.iface)
        {
          generation := previous.providers[k].generation;
        }
        out := out[k := Def(next[k], generation)];
        left := left - {k};
      }
    }

    method AssignDefinitionGenerations(previous: Snapshot, c: Contents) returns (s: Snapshot)
      ensures s == Assigned(previous, c)
    {
      hide Stamped, StampedProviders;
      var revision := previous.revision + 1;
      var interfaces := StampAll(previous.interfaces, c.interfaces, revision);
      var providers := StampAllProviders(previous, c.providers, interfaces, revision);
      var permissions := StampAll(previous.permissions, c.permissions, revision);
      var resources := StampAll(previous.resources, c.resources, revision);
      s := Snapshot(revision, interfaces, providers, permissions, resources, map[]);
    }

    /** A handle may name one resource only. */
    method BuildResourceHandleIndex(resources: map<ResourceKey, Def<Resource>>) returns (index: Option<map<string, Def<Resource>>>)
      ensures index.Some? <==> HandlesApart(resources)
      ensures index.Some? ==> Indexed(resources, index.value)
    {
      var byHandle: map<string, Def<Resource>> := map[];
      var left := resources.Keys;
      ghost var done: map<ResourceKey, Def<Resource>> := map[];
      while left != {}
        invariant left <= resources.Keys && done.Keys == resources.Keys - left
        invariant forall k :: k in done ==> done[k] == resources[k]
        invariant HandlesApart(done) && Indexed(done, byHandle)
        decreases |left|
      {
        var k :| k in left;
        var d := resources[k];
        if d.meaning.handle in byHandle {
          ghost var j :| j in done && done[j].meaning.handle == d.meaning.handle;
          assert !HandlesApart(resources) by { assert j in resources && k in resources && j != k; }
          return None;
        }
        ghost var was := done;
        done := done[k := d];
        byHandle := byHandle[d.meaning.handle := d];
        IndexedNext(was, byHandle - {d.meaning.handle}, k, d);
        assert byHandle == (byHandle - {d.meaning.handle})[d.meaning.handle := d];
        left := left - {k};
      }
      assert done == resources;
      return Some(byHandle);
    }
  }

  lemma IndexedNext(was: map<ResourceKey, Def<Resource>>, index: map<string, Def<Resource>>, k: ResourceKey, d: Def<Resource>)
    requires HandlesApart(was) && Indexed(was, index) && k !in was && d.meaning.handle !in index
    ensures HandlesApart(was[k := d]) && Indexed(was[k := d], index[d.meaning.handle := d])
  {
    var now, index' := was[k := d], index[d.meaning.handle := d];
    forall h | h in index' ensures exists j :: j in now && now[j].meaning.handle == h {
      if h == d.meaning.handle { assert now[k].meaning.handle == h; } else {
        var j :| j in was && was[j].meaning.handle == h;
        assert now[j] == was[j];
      }
    }
  }

  // ------------------------------------------------------------------ histories

  /** One published snapshot after another. */
  ghost predicate Follows(previous: Snapshot, s: Snapshot) {
    && (exists c: Contents :: s.(byHandle := map[]) == Assigned(previous, c))
    && HandlesApart(s.resources) && Indexed(s.resources, s.byHandle)
  }

  ghost predicate History(h: seq<Snapshot>) {
    forall i :: 0 <= i < |h| ==> FollowsAt(h, i)
  }

  ghost predicate FollowsAt(h: seq<Snapshot>, i: nat)
    requires i < |h|
  {
    Follows(if i == 0 then NoSnapshot else h[i - 1], h[i])
  }

  // Generations of one kind of definition over a history.
  ghost predicate StampsAt<K, M>(run: seq<map<K, Def<M>>>, i: nat)
    requires i < |run|
  {
    forall k :: k in run[i] ==>
      run[i][k].generation ==
      (if i > 0 && k in run[i - 1] && run[i - 1][k].meaning == run[i][k].meaning then run[i - 1][k].generation else i + 1)
  }

  /** A (key, generation) pair in a published snapshot means: present and unchanged in every revision
      since that generation - and new or changed at that generation. */
  lemma {:induction false} NoAba<K, M>(run: seq<map<K, Def<M>>>, n: nat, k: K)
    requires n < |run| && k in run[n] && forall i :: 0 <= i <= n ==> StampsAt(run, i)
    ensures var g := run[n][k].generation;
            && 1 <= g <= n + 1
            && (forall m :: g - 1 <= m <= n ==> k in run[m] && run[m][k] == run[n][k])
            && (g > 1 ==> k !in run[g - 2] || run[g - 2][k].meaning != run[n][k].meaning)
  {
    assert StampsAt(run, n);
    if n > 0 && k in run[n - 1] && run[n - 1][k].meaning == run[n][k].meaning {
      NoAba(run, n - 1, k);
      assert run[n - 1][k] == run[n][k];
    }
  }

  /** The same pair seen at two revisions: nothing happened to the definition in between. */
  lemma Unchanged<K, M>(run: seq<map<K, Def<M>>>, i: nat, j: nat, k: K)
    requires i <= j < |run| && k in run[i] && k in run[j] && run[i][k].generation == run[j][k].generation
    requires forall n :: 0 <= n <= j ==> StampsAt(run, n)
    ensures forall m :: i <= m <= j ==> k in run[m] && run[m][k] == run[i][k]
  {
    NoAba(run, i, k);
    NoAba(run, j, k);
  }

  function Interfaces(h: seq<Snapshot>): (r: seq<map<IfaceKey, Def<Iface>>>) {
    seq(|h|, i requires 0 <= i < |h| => h[i].interfaces)
  }

  function Resources(h: seq<Snapshot>): seq<map<ResourceKey, Def<Resource>>> {
    seq(|h|, i requires 0 <= i < |h| => h[i].resources)
  }

  // A Provider together with the generation of its interface.
  function WithIface(s: Snapshot): map<ProviderKey, Def<(Provider, nat)>> {
    map k | k in s.providers :: Def((s.providers[k].meaning, GenerationOf(s.interfaces, k.iface)), s.providers[k].generation)
  }

  function Providers(h: seq<Snapshot>): seq<map<ProviderKey, Def<(Provider, nat)>>> {
    seq(|h|, i requires 0 <= i < |h| => WithIface(h[i]))
  }

  lemma {:induction false} Revisions(h: seq<Snapshot>, i: nat)
    requires History(h) && i < |h|
    ensures h[i].revision == i + 1
  {
    assert FollowsAt(h, i);
    if i > 0 { Revisions(h, i - 1); }
  }

  lemma StampedAt<K, M>(was: map<K, Def<M>>, next: map<K, M>, revision: nat)
    ensures forall k :: k in Stamped(was, next, revision) ==>
              Stamped(was, next, revision)[k].generation ==
              if k in was && was[k].meaning == Stamped(was, next, revision)[k].meaning then was[k].generation else revision
  {
  }

  // The three runs stamp at i as soon as each step does.
  lemma RunsStamp(h: seq<Snapshot>, i: nat, previous: Snapshot)
    requires i < |h| && previous == (if i == 0 then NoSnapshot else h[i - 1]) && h[i].revision == i + 1
    requires forall k :: k in h[i].interfaces ==>
               h[i].interfaces[k].generation ==
               if k in previous.interfaces && previous.interfaces[k].meaning == h[i].interfaces[k].meaning
               then previous.interfaces[k].generation else i + 1
    requires forall k :: k in h[i].resources ==>
               h[i].resources[k].generation ==
               if k in previous.resources && previous.resources[k].meaning == h[i].resources[k].meaning
               then previous.resources[k].generation else i + 1
    ensures StampsAt(Interfaces(h), i) && StampsAt(Resources(h), i)
  {
  }

  lemma ProviderRunStamps(h: seq<Snapshot>, i: nat, previous: Snapshot)
    requires i < |h| && previous == (if i == 0 then NoSnapshot else h[i - 1]) && h[i].revision == i + 1
    requires forall k :: k in h[i].providers ==>
               h[i].providers[k].generation ==
               if k in previous.providers && previous.providers[k].meaning == h[i].providers[k].meaning &&
                  GenerationOf(previous.interfaces, k.iface) == GenerationOf(h[i].interfaces, k.iface)
               then previous.providers[k].generation else h[i].revision
    ensures StampsAt(Providers(h), i)
  {
    hide GenerationOf;
  }

  lemma HistoryStamps(h: seq<Snapshot>, i: nat)
    requires History(h) && i < |h|
    ensures StampsAt(Interfaces(h), i) && StampsAt(Resources(h), i) && StampsAt(Providers(h), i)
  {
    hide History, StampsAt, Stamped, StampedProviders, HandlesApart, Indexed;
    AtHistory(h, i);
    Revisions(h, i);
    var previous := if i == 0 then NoSnapshot else h[i - 1];
    if i > 0 { Revisions(h, i - 1); }
    var c: Contents :| h[i].(byHandle := map[]) == Assigned(previous, c);
    StampedAt(previous.interfaces, c.interfaces, i + 1);
    StampedAt(previous.resources, c.resources, i + 1);
    StampedProvidersAt(previous, c, h[i]);
    RunsStamp(h, i, previous);
    ProviderRunStamps(h, i, previous);
  }

  lemma AtHistory(h: seq<Snapshot>, i: nat)
    requires History(h) && i < |h|
    ensures FollowsAt(h, i) && HandlesApart(h[i].resources) && Indexed(h[i].resources, h[i].byHandle)
  {
  }

  lemma StampedProvidersAt(previous: Snapshot, c: Contents, s: Snapshot)
    requires s.(byHandle := map[]) == Assigned(previous, c)
    ensures forall k :: k in s.providers ==>
              s.providers[k].generation ==
              if k in previous.providers && previous.providers[k].meaning == s.providers[k].meaning &&
                 GenerationOf(previous.interfaces, k.iface) == GenerationOf(s.interfaces, k.iface)
              then previous.providers[k].generation else s.revision
  {
  }

  // ------------------------------------------------------------------ what a publication revokes

  datatype RevokedResource = RevokedResource(handle: string, generation: nat)

  method RevokedResources(previous: Snapshot, next: Snapshot) returns (changed: set<RevokedResource>)
    ensures changed == Revoked(previous, next)
  {
    changed := {};
    var left := previous.byHandle.Keys;
    while left != {}
      invariant left <= previous.byHandle.Keys
      invariant forall r :: r in changed <==> r.handle !in left && Lost(previous, next, r)
      decreases |left|
    {
      var h :| h in left;
      var prior := previous.byHandle[h];
      if h !in next.byHandle || next.byHandle[h].generation != prior.generation {
        changed := changed + {RevokedResource(h, prior.generation)};
      }
      left := left - {h};
    }
    RevokedIs(previous, next, changed);
  }

  predicate Lost(previous: Snapshot, next: Snapshot, r: RevokedResource) {
    && r.handle in previous.byHandle && r.generation == previous.byHandle[r.handle].generation
    && (r.handle !in next.byHandle || next.byHandle[r.handle].generation != r.generation)
  }

  function Revoked(previous: Snapshot, next: Snapshot): set<RevokedResource> {
    set h | h in previous.byHandle && Lost(previous, next, RevokedResource(h, previous.byHandle[h].generation)) ::
      RevokedResource(h, previous.byHandle[h].generation)
  }

  lemma RevokedIs(previous: Snapshot, next: Snapshot, changed: set<RevokedResource>)
    requires forall r :: r in changed <==> Lost(previous, next, r)
    ensures changed == Revoked(previous, next)
  {
    forall r ensures r in changed <==> r in Revoked(previous, next) {
      if Lost(previous, next, r) { assert r == RevokedResource(r.handle, previous.byHandle[r.handle].generation); }
    }
  }

  // Which resource a handle names.
  lemma HandleKey(s: Snapshot, handle: string) returns (k: ResourceKey)
    requires Indexed(s.resources, s.byHandle) && handle in s.byHandle
    ensures k in s.resources && s.resources[k] == s.byHandle[handle] && s.byHandle[handle].meaning.handle == handle
  {
    k :| k in s.resources && s.resources[k].meaning.handle == handle;
  }

  // One resource definition, in two consecutive revisions.
  lemma Consecutive(h: seq<Snapshot>, i: nat, k: ResourceKey)
    requires History(h) && i + 1 < |h| && k in h[i + 1].resources
    ensures (k in h[i].resources && h[i].resources[k].meaning == h[i + 1].resources[k].meaning)
            <==> h[i + 1].resources[k].generation <= i + 1
    ensures k in h[i].resources && h[i].resources[k].meaning == h[i + 1].resources[k].meaning ==> h[i].resources[k] == h[i + 1].resources[k]
  {
    hide History, HandlesApart, Indexed, FollowsAt;
    HistoryStamps(h, i + 1);
    assert Resources(h)[i] == h[i].resources && Resources(h)[i + 1] == h[i + 1].resources;
    if k in h[i].resources { NoAbaResources(h, i, k); }
  }

  // There is a resource behind the handle now and before, the same and meaning the same.
  ghost predicate StillThere(was: Snapshot, now: Snapshot, handle: string) {
    exists k :: k in was.resources && was.resources[k].meaning.handle == handle &&
                k in now.resources && now.resources[k].meaning == was.resources[k].meaning
  }

  /** Between consecutive revisions, a handle is revoked exactly when the definition behind it - the
      same resource with the same meaning - is not there any more. */
  lemma RevokedExactly(h: seq<Snapshot>, i: nat, handle: string)
    requires History(h) && i + 1 < |h| && handle in h[i].byHandle
    ensures Lost(h[i], h[i + 1], RevokedResource(handle, h[i].byHandle[handle].generation)) <==> !StillThere(h[i], h[i + 1], handle)
  {
    hide History, FollowsAt;
    var was, now := h[i], h[i + 1];
    AtHistory(h, i);
    AtHistory(h, i + 1);
    var k := HandleKey(was, handle);
    if k in now.resources { Consecutive(h, i, k); }
    if handle in now.byHandle && now.byHandle[handle].generation == was.byHandle[handle].generation {
      var j := HandleKey(now, handle);
      Consecutive(h, i, j);
      NoAbaResources(h, i, k);
      assert j in was.resources && was.resources[j].meaning.handle == handle;
      assert StillThere(was, now, handle);
    }
  }

  lemma NoAbaResources(h: seq<Snapshot>, n: nat, k: ResourceKey)
    requires History(h) && n < |h| && k in h[n].resources
    ensures 1 <= h[n].resources[k].generation <= n + 1
    ensures forall m :: h[n].resources[k].generation - 1 <= m <= n ==> k in h[m].resources && h[m].resources[k] == h[n].resources[k]
  {
    hide History, StampsAt;
    forall i | 0 <= i <= n ensures StampsAt(Resources(h), i) { HistoryStamps(h, i); }
    NoAba(Resources(h), n, k);
    forall m | h[n].resources[k].generation - 1 <= m <= n ensures k in h[m].resources && h[m].resources[k] == h[n].resources[k] {
      assert Resources(h)[m] == h[m].resources;
    }
  }
}
