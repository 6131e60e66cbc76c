/** Endpoint bindings and the check that every call repeats: nothing the binding relied on has changed. */
module Endpoint {
  import opened Wrappers
  import opened Catalog

  datatype Registration = Registration(
    package: string, component: string, iface: IfaceKey, schema: nat, resource: string,
    ifaceGen: nat, providerGen: nat, resourceGen: nat, live: bool, generation: nat, public: bool)

  datatype Binding = Binding(
    caller: string, target: nat, targetGeneration: nat, iface: IfaceKey, resource: string,
    ifaceGen: nat, providerGen: nat, resourceGen: nat)

  datatype Code = NotFound | PermissionDenied | FailedPrecondition

  datatype Result<T> = Ok(value: T) | Err(code: Code)

  // The permission grants of the moment: package and permission.
  type Grants = set<(string, string)>

  predicate Allowed(grants: Grants, package: string, permission: string) {
    permission == "" || (package, permission) in grants
  }

  /** The registration still stands in this snapshot: same interface and Provider generations, same schema. */
  predicate InSnapshot(s: Snapshot, reg: Registration) {
    var pk := ProviderKey(reg.package, reg.iface);
    && reg.live
    && reg.iface in s.interfaces && s.interfaces[reg.iface].generation == reg.ifaceGen
    && s.interfaces[reg.iface].meaning.schema == reg.schema
    && pk in s.providers && s.providers[pk].meaning.component == reg.component
    && s.providers[pk].generation == reg.providerGen
  }

  predicate Compatible(i: Iface, kind: string) { kind in i.compatible }

  // The resource an interface binds: the selected one, or its default; None when the selection fails.
  datatype Selection = Unselected | Selected(key: Option<ResourceKey>)

  /** Which resource handle and generation a resolve ends up with. */
  function ResolveResource(s: Snapshot, i: Iface, sel: Selection): Option<(string, nat)> {
    var key := match sel case Unselected => i.fallback case Selected(k) => k;
    if sel.Unselected? && i.fallback.None? then (if i.compatible == [] then Some(("", 0)) else None)
    else if i.compatible == [] || key.None? || key.value !in s.resources then None
    else
      var r := s.resources[key.value];
      if Compatible(i, r.meaning.kind) then Some((r.meaning.handle, r.generation)) else None
  }

  /** What a resolve asks for. */
  datatype Wanted = Wanted(caller: string, id: string, lo: nat, hi: nat, sel: Selection)

  // The stages a registration of the wanted interface passes in a resolve.
  predicate Visible(reg: Registration, w: Wanted) {
    reg.live && reg.iface.id == w.id && (reg.package == w.caller || reg.public)
  }

  predicate InRange(reg: Registration, w: Wanted) { Visible(reg, w) && w.lo <= reg.iface.major <= w.hi }

  predicate ResourceFits(s: Snapshot, reg: Registration, w: Wanted)
    requires InSnapshot(s, reg)
  {
    ResolveResource(s, s.interfaces[reg.iface].meaning, w.sel) == Some((reg.resource, reg.resourceGen))
  }

  /** A candidate: interface in the version range, registration and resource both current. */
  predicate Eligible(s: Snapshot, reg: Registration, w: Wanted) {
    InRange(reg, w) && InSnapshot(s, reg) && ResourceFits(s, reg, w)
  }

  /** All but the resource is right. */
  predicate Mismatched(s: Snapshot, reg: Registration, w: Wanted) {
    InRange(reg, w) && InSnapshot(s, reg) && !ResourceFits(s, reg, w)
  }

  function BindTo(caller: string, target: nat, reg: Registration): Binding {
    Binding(caller, target, reg.generation, reg.iface, reg.resource, reg.ifaceGen, reg.providerGen, reg.resourceGen)
  }

  /** The resource a resolve asks for, by the snapshot itself: that of the selected key, or of the interface's
      default, of a kind the interface is compatible with - or none, for an interface that uses none. */
  predicate AskedFor(s: Snapshot, i: Iface, sel: Selection, handle: string, generation: nat) {
    match sel
    case Selected(None) => false
    case Selected(Some(key)) => IsResource(s, i, key, handle, generation)
    case Unselected =>
      if i.fallback.Some? then IsResource(s, i, i.fallback.value, handle, generation)
      else i.compatible == [] && handle == "" && generation == 0
  }

  predicate IsResource(s: Snapshot, i: Iface, key: ResourceKey, handle: string, generation: nat) {
    && key in s.resources && s.resources[key].meaning.kind in i.compatible
    && handle == s.resources[key].meaning.handle && generation == s.resources[key].generation
  }

  /** Live, of the caller's own package or public, in the version range, current in the snapshot - interface,
      schema, Provider - and bound to the resource asked for. */
  predicate Candidate(s: Snapshot, reg: Registration, w: Wanted) {
    && reg.live && (reg.public || reg.package == w.caller)
    && reg.iface.id == w.id && w.lo <= reg.iface.major && reg.iface.major <= w.hi
    && reg.iface in s.interfaces && s.interfaces[reg.iface].generation == reg.ifaceGen && s.interfaces[reg.iface].meaning.schema == reg.schema
    && ProviderKey(reg.package, reg.iface) in s.providers
    && s.providers[ProviderKey(reg.package, reg.iface)].meaning.component == reg.component
    && s.providers[ProviderKey(reg.package, reg.iface)].generation == reg.providerGen
    && AskedFor(s, s.interfaces[reg.iface].meaning, w.sel, reg.resource, reg.resourceGen)
  }

  /** Eligible means exactly that. */
  lemma EligibleIff(s: Snapshot, reg: Registration, w: Wanted)
    ensures Eligible(s, reg, w) <==> Candidate(s, reg, w)
  {
  }

  /** The only candidate, whose interface the caller may use. */
  ghost predicate Chosen(s: Snapshot, grants: Grants, regs: seq<Registration>, w: Wanted, n: nat) {
    && n < |regs| && Candidate(s, regs[n], w)
    && (forall m :: 0 <= m < |regs| && m != n ==> !Candidate(s, regs[m], w))
    && var needed := s.interfaces[regs[n].iface].meaning.permission; (needed == "" || (w.caller, needed) in grants)
  }

  // What one pass has found out.
  lemma PassFinds(s: Snapshot, grants: Grants, regs: seq<Registration>, w: Wanted, found: bool, several: bool, at: nat)
    requires found ==> at < |regs| && Eligible(s, regs[at], w)
    requires !several ==> forall m :: 0 <= m < |regs| && !(found && m == at) ==> !Eligible(s, regs[m], w)
    requires several ==> found && exists m :: 0 <= m < |regs| && m != at && Eligible(s, regs[m], w)
    ensures (exists n: nat :: Chosen(s, grants, regs, w, n)) <==>
            found && !several && Allowed(grants, w.caller, s.interfaces[regs[at].iface].meaning.permission)
    ensures forall n: nat :: Chosen(s, grants, regs, w, n) ==> n == at && BoundTo(s, regs[n], w, BindTo(w.caller, n, regs[n]))
  {
    hide Eligible, AskedFor;
    forall n | 0 <= n < |regs| ensures Eligible(s, regs[n], w) <==> Candidate(s, regs[n], w) { EligibleIff(s, regs[n], w); }
    if several {
      var m :| 0 <= m < |regs| && m != at && Eligible(s, regs[m], w);
      assert Candidate(s, regs[m], w) && Candidate(s, regs[at], w);
    } else if found && Allowed(grants, w.caller, s.interfaces[regs[at].iface].meaning.permission) {
      assert Chosen(s, grants, regs, w, at);
    }
  }

  lemma RangeOnly(s: Snapshot, grants: Grants, regs: seq<Registration>, w: Wanted)
    ensures w.hi < w.lo ==> forall n: nat :: !Chosen(s, grants, regs, w, n)
  {
    hide AskedFor;
  }

  /** The binding names the registration and the resource asked for. */
  predicate BoundTo(s: Snapshot, reg: Registration, w: Wanted, b: Binding) {
    && b.caller == w.caller && b.targetGeneration == reg.generation && b.iface == reg.iface
    && b.ifaceGen == reg.ifaceGen && b.providerGen == reg.providerGen
    && b.iface in s.interfaces && AskedFor(s, s.interfaces[b.iface].meaning, w.sel, b.resource, b.resourceGen)
  }

  datatype Reason = Unspecified | VersionMismatch | ResourceNotFound | InterfaceNotFound | ResourceAmbiguous

  // `Absent`: nobody has registered the interface, and a component may be started on demand.
  datatype Resolved = Bound(binding: Binding) | Refused(code: Code, reason: Reason) | Absent

  /** One pass over the registrations: exactly one candidate binds, if the caller is allowed; the reason of
      a refusal tells how far the registrations got. */
  method ResolveEndpoint(s: Snapshot, grants: Grants, regs: seq<Registration>, w: Wanted) returns (r: Resolved)
    ensures r.Bound? <==> exists n: nat :: Chosen(s, grants, regs, w, n)
    ensures forall n: nat :: Chosen(s, grants, regs, w, n) ==>
              r.Bound? && r.binding.target == n && BoundTo(s, regs[n], w, r.binding)
    ensures r.Bound? ==> exists n :: 0 <= n < |regs| && Eligible(s, regs[n], w) &&
                           r.binding == BindTo(w.caller, n, regs[n]) && Allowed(grants, w.caller, s.interfaces[regs[n].iface].meaning.permission) &&
                           forall m :: 0 <= m < |regs| && m != n ==> !Eligible(s, regs[m], w)
    ensures r == Refused(PermissionDenied, Unspecified) <==>
            exists n :: 0 <= n < |regs| && Eligible(s, regs[n], w) &&
                        !Allowed(grants, w.caller, s.interfaces[regs[n].iface].meaning.permission) &&
                        forall m :: 0 <= m < |regs| && m != n ==> !Eligible(s, regs[m], w)
    ensures r == Refused(FailedPrecondition, ResourceAmbiguous) <==>
            exists m, n :: 0 <= m < n < |regs| && Eligible(s, regs[m], w) && Eligible(s, regs[n], w)
    ensures r == Refused(FailedPrecondition, VersionMismatch) <==>
            w.hi < w.lo || ((exists n :: 0 <= n < |regs| && Visible(regs[n], w)) && forall n :: 0 <= n < |regs| ==> !InRange(regs[n], w))
    ensures r == Refused(FailedPrecondition, ResourceNotFound) <==>
            && (forall n :: 0 <= n < |regs| ==> !Eligible(s, regs[n], w))
            && exists n :: 0 <= n < |regs| && Mismatched(s, regs[n], w)
    ensures r == Absent <==> w.lo <= w.hi && forall n :: 0 <= n < |regs| ==> !Visible(regs[n], w)
    ensures r == Refused(FailedPrecondition, InterfaceNotFound) || r.Bound? || r.Absent? ||
            r.reason in {VersionMismatch, ResourceNotFound, ResourceAmbiguous} || r.code == PermissionDenied
  {
    hide ResolveResource, Allowed, Visible, Chosen, BoundTo, Candidate;
    RangeOnly(s, grants, regs, w);
    if w.hi < w.lo { return Refused(FailedPrecondition, VersionMismatch); }
    var found, several, at, n := false, false, 0, 0;
    var visible, version, mismatch := false, false, false;
    while n < |regs|
      invariant 0 <= n <= |regs|
      invariant visible <==> exists m :: 0 <= m < n && Visible(regs[m], w)
      invariant version <==> exists m :: 0 <= m < n && InRange(regs[m], w)
      invariant mismatch <==> exists m :: 0 <= m < n && Mismatched(s, regs[m], w)
      invariant found ==> at < n && Eligible(s, regs[at], w)
      invariant !several ==> forall m :: 0 <= m < n && !(found && m == at) ==> !Eligible(s, regs[m], w)
      invariant several ==> found && exists m :: 0 <= m < n && m != at && Eligible(s, regs[m], w)
    {
      var reg := regs[n];
      if Visible(reg, w) { visible := true; }
      if InRange(reg, w) {
        version := true;
        if InSnapshot(s, reg) {
          if !ResourceFits(s, reg, w) { mismatch := true; }
          else if found { several := true; }
          else { found, at := true, n; }
        }
      }
      n := n + 1;
    }
    PassFinds(s, grants, regs, w, found, several, at);
    if several { return Refused(FailedPrecondition, ResourceAmbiguous); }
    if found {
      if !Allowed(grants, w.caller, s.interfaces[regs[at].iface].meaning.permission) { return Refused(PermissionDenied, Unspecified); }
      return Bound(BindTo(w.caller, at, regs[at]));
    }
    if !visible { return Absent; }
    if !version { return Refused(FailedPrecondition, VersionMismatch); }
    if mismatch { return Refused(FailedPrecondition, ResourceNotFound); }
    return Refused(FailedPrecondition, InterfaceNotFound);
  }

  // What a call is sent to, with the authority it was checked against.
  datatype RouteInfo = RouteInfo(
    registration: Registration, iface: IfaceKey, resource: string, methodID: nat,
    ifaceGen: nat, providerGen: nat, resourceGen: nat, permissions: set<string>)

  predicate ResourceStands(s: Snapshot, b: Binding, reg: Registration, i: Iface) {
    if b.resource == "" then b.resourceGen == 0 && i.compatible == []
    else b.resource in s.byHandle && s.byHandle[b.resource].generation == b.resourceGen &&
         Compatible(i, s.byHandle[b.resource].meaning.kind) && reg.resource == b.resource
  }

  /** The check on every call, in the order in which it fails. */
  function Route(s: Snapshot, grants: Grants, b: Binding, reg: Registration, m: nat): Result<RouteInfo> {
    if !reg.live || b.targetGeneration != reg.generation || !InSnapshot(s, reg) then Err(NotFound)
    else
      var def := s.interfaces[reg.iface];
      var provider := s.providers[ProviderKey(reg.package, reg.iface)];
      if def.generation != b.ifaceGen || provider.generation != b.providerGen || b.iface != reg.iface then Err(NotFound)
      else if !ResourceStands(s, b, reg, def.meaning) then Err(NotFound)
      else if !Allowed(grants, b.caller, def.meaning.permission) then Err(PermissionDenied)
      else if m !in def.meaning.methods then Err(NotFound)
      else if !Allowed(grants, b.caller, def.meaning.methods[m]) then Err(PermissionDenied)
      else
        Ok(RouteInfo(reg, b.iface, b.resource, m, b.ifaceGen, b.providerGen, b.resourceGen,
                     {def.meaning.permission, def.meaning.methods[m]} - {""}))
  }

  /** Dynamic revocation: a routed call holds every permission that its interface and method demand now. */
  lemma RouteIsPermitted(s: Snapshot, grants: Grants, b: Binding, reg: Registration, m: nat)
    requires Route(s, grants, b, reg, m).Ok?
    ensures var r := Route(s, grants, b, reg, m).value;
            && (forall p :: p in r.permissions ==> (b.caller, p) in grants)
            && s.interfaces[reg.iface].meaning.permission in r.permissions + {""}
            && s.interfaces[reg.iface].meaning.methods[m] in r.permissions + {""}
  {
  }

  /** Everything a routed call needs, in the order of the source's checks. */
  predicate Routable(s: Snapshot, b: Binding, reg: Registration) {
    && reg.live && b.targetGeneration == reg.generation
    && reg.iface in s.interfaces && s.interfaces[reg.iface].generation == reg.ifaceGen && s.interfaces[reg.iface].meaning.schema == reg.schema
    && ProviderKey(reg.package, reg.iface) in s.providers
    && s.providers[ProviderKey(reg.package, reg.iface)].meaning.component == reg.component
    && s.providers[ProviderKey(reg.package, reg.iface)].generation == reg.providerGen
    && b.ifaceGen == reg.ifaceGen && b.providerGen == reg.providerGen && b.iface == reg.iface
    && (b.resource == "" ==> b.resourceGen == 0 && s.interfaces[reg.iface].meaning.compatible == [])
    && (b.resource != "" ==>
          && b.resource == reg.resource && b.resource in s.byHandle && s.byHandle[b.resource].generation == b.resourceGen
          && s.byHandle[b.resource].meaning.kind in s.interfaces[reg.iface].meaning.compatible)
  }

  /** A call is routed if and only if its binding still stands, the method exists, and the caller holds the
      permissions of interface and method; only a missing permission is PERMISSION_DENIED. The route names the
      binding's own interface, resource and generations. */
  lemma RouteIff(s: Snapshot, grants: Grants, b: Binding, reg: Registration, m: nat)
    ensures var r := Route(s, grants, b, reg, m);
            if !Routable(s, b, reg) then r == Err(NotFound) else
              var i := s.interfaces[reg.iface].meaning;
              if i.permission != "" && (b.caller, i.permission) !in grants then r == Err(PermissionDenied)
              else if m !in i.methods then r == Err(NotFound)
              else if i.methods[m] != "" && (b.caller, i.methods[m]) !in grants then r == Err(PermissionDenied)
              else
                && r.Ok? && r.value.registration == reg && r.value.iface == b.iface && r.value.resource == b.resource && r.value.methodID == m
                && r.value.ifaceGen == b.ifaceGen && r.value.providerGen == b.providerGen && r.value.resourceGen == b.resourceGen
                && (forall p :: p in r.value.permissions <==> p != "" && (p == i.permission || p == i.methods[m]))
  {
  }

  // ------------------------------------------------------------------ what a successful route proves

  lemma RunsAt(h: seq<Snapshot>, j: nat)
    requires History(h) && j < |h|
    ensures forall n :: 0 <= n <= j ==> StampsAt(Interfaces(h), n) && StampsAt(Resources(h), n) && StampsAt(Providers(h), n)
  {
    hide History, StampsAt;
    forall n | 0 <= n <= j ensures StampsAt(Interfaces(h), n) && StampsAt(Resources(h), n) && StampsAt(Providers(h), n) {
      HistoryStamps(h, n);
    }
  }

  lemma IfaceUnchanged(h: seq<Snapshot>, i: nat, j: nat, k: IfaceKey)
    requires History(h) && i <= j < |h| && k in h[i].interfaces && k in h[j].interfaces
    requires h[i].interfaces[k].generation == h[j].interfaces[k].generation
    ensures forall m :: i <= m <= j ==> k in h[m].interfaces && h[m].interfaces[k] == h[i].interfaces[k]
  {
    hide History, StampsAt;
    RunsAt(h, j);
    Unchanged(Interfaces(h), i, j, k);
    forall m | i <= m <= j ensures k in h[m].interfaces && h[m].interfaces[k] == h[i].interfaces[k] {
      assert Interfaces(h)[m] == h[m].interfaces;
    }
  }

  lemma ProviderUnchanged(h: seq<Snapshot>, i: nat, j: nat, k: ProviderKey)
    requires History(h) && i <= j < |h| && k in h[i].providers && k in h[j].providers
    requires h[i].providers[k].generation == h[j].providers[k].generation
    ensures forall m :: i <= m <= j ==> k in h[m].providers && h[m].providers[k] == h[i].providers[k]
    ensures forall m :: i <= m <= j ==> GenerationOf(h[m].interfaces, k.iface) == GenerationOf(h[i].interfaces, k.iface)
  {
    hide History, StampsAt, GenerationOf;
    RunsAt(h, j);
    assert Providers(h)[i] == WithIface(h[i]) && Providers(h)[j] == WithIface(h[j]);
    Unchanged(Providers(h), i, j, k);
    forall m | i <= m <= j
      ensures k in h[m].providers && h[m].providers[k] == h[i].providers[k]
      ensures GenerationOf(h[m].interfaces, k.iface) == GenerationOf(h[i].interfaces, k.iface)
    {
      assert Providers(h)[m] == WithIface(h[m]);
    }
  }

  /** A handle with an unchanged generation still names the same resource: had it moved to another one
      in between, the two would have claimed the handle together. */
  lemma HandleUnchanged(h: seq<Snapshot>, i: nat, j: nat, handle: string)
    requires History(h) && i <= j < |h| && handle in h[i].byHandle && handle in h[j].byHandle
    requires h[i].byHandle[handle].generation == h[j].byHandle[handle].generation
    ensures forall m :: i <= m <= j ==> handle in h[m].byHandle && h[m].byHandle[handle] == h[i].byHandle[handle]
  {
    hide History, StampsAt, FollowsAt;
    AtHistory(h, i);
    AtHistory(h, j);
    var k := HandleKey(h[i], handle);
    var l := HandleKey(h[j], handle);
    NoAbaResources(h, j, l);
    NoAbaResources(h, i, k);
    assert l in h[i].resources && h[i].resources[l] == h[j].resources[l];
    assert k == l;
    forall m | i <= m <= j ensures handle in h[m].byHandle && h[m].byHandle[handle] == h[i].byHandle[handle] {
      AtHistory(h, m);
      assert h[m].resources[l] == h[j].resources[l];
    }
  }

  // A binding made from this snapshot.
  ghost predicate BoundAt(s: Snapshot, b: Binding, package: string) {
    && b.iface in s.interfaces && s.interfaces[b.iface].generation == b.ifaceGen
    && ProviderKey(package, b.iface) in s.providers && s.providers[ProviderKey(package, b.iface)].generation == b.providerGen
    && (b.resource == "" || (b.resource in s.byHandle && s.byHandle[b.resource].generation == b.resourceGen))
  }

  /** ResolveEndpoint binds what the snapshot says now. */
  lemma ResolveBinds(h: seq<Snapshot>, i: nat, reg: Registration, n: nat, w: Wanted)
    requires History(h) && i < |h| && Eligible(h[i], reg, w)
    ensures BoundAt(h[i], BindTo(w.caller, n, reg), reg.package)
  {
    AtHistory(h, i);
  }

  ghost predicate Between(i: nat, j: nat, n: nat) { (i <= n <= j) || (j <= n <= i) }

  /** A call that is routed on revision j over a binding made on revision i: in every revision between the
      two the interface, the Provider and the resource were there and unchanged. Route loads its snapshot
      before it takes the lock, so j may also be the earlier one. */
  lemma RouteProvesUnchanged(h: seq<Snapshot>, i: nat, j: nat, grants: Grants, b: Binding, reg: Registration, m: nat)
    requires History(h) && i < |h| && j < |h| && BoundAt(h[i], b, reg.package) && Route(h[j], grants, b, reg, m).Ok?
    ensures forall n :: 0 <= n < |h| && Between(i, j, n) ==>
              && b.iface in h[n].interfaces && h[n].interfaces[b.iface] == h[i].interfaces[b.iface]
              && var pk := ProviderKey(reg.package, b.iface); pk in h[n].providers && h[n].providers[pk] == h[i].providers[pk]
    ensures b.resource != "" ==> forall n :: 0 <= n < |h| && Between(i, j, n) ==>
              b.resource in h[n].byHandle && h[n].byHandle[b.resource] == h[i].byHandle[b.resource]
    ensures b.targetGeneration == reg.generation && reg.live
  {
    hide History;
    var lo, hi := if i <= j then i else j, if i <= j then j else i;
    IfaceUnchanged(h, lo, hi, b.iface);
    ProviderUnchanged(h, lo, hi, ProviderKey(reg.package, b.iface));
    if b.resource != "" { HandleUnchanged(h, lo, hi, b.resource); }
  }
}
