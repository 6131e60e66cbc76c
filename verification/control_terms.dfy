/** On which terms leases are granted, what a batch revocation and RevokeAll take, and what a snapshot
    answers - over whole runs, in terms of the leases' own fields. */
module ControlTerms {
  import opened Wrappers
  import opened ControlTypes
  import opened ControlProtocol
  import opened ControlInvariant
  import opened ControlRuns
  import opened ControlGuarantees
  import opened ControlDecisions

  // ------------------------------------------------------------------ the request behind a grant

  /** The request of the Acquire in progress. */
  function Asked(mu: Mu): Option<Request> {
    match mu
    case AEnter(q) => Some(q) case ADrain(q) => Some(q) case ADraining(q) => Some(q)
    case AStop(q) => Some(q) case AClock(q) => Some(q) case AGate(q, _) => Some(q) case ASlot(q, _) => Some(q)
    case ALoad(a) => Some(a.req)
    case VGate(_, _, _, u) => UsedFor(u) case VFloor(_, _, _, _, u) => UsedFor(u) case VFresh(_, _, _, _, _, u) => UsedFor(u)
    case MDrop(_, _, c) => GoesOnFor(c) case MEnd(_, c) => GoesOnFor(c) case MNotify(_, c) => GoesOnFor(c)
    case MPreempt(a, _) => Some(a.req)
    case IBump(a, _) => Some(a.req) case IPend(a, _, _) => Some(a.req) case IDrain(a, _, _) => Some(a.req)
    case IDraining(a, _, _) => Some(a.req) case ISeq(a, _, _) => Some(a.req) case IRevoked(a, _, _, _) => Some(a.req)
    case IFresh(a, _, _, _) => Some(a.req) case IStore(a, _, _, _) => Some(a.req)
    case IGate(a, _, _, _) => Some(a.req) case IReSeq(a, _, _, _) => Some(a.req)
    case _ => None
  }

  function UsedFor(u: Use): Option<Request> { if u.ForAcquire? then Some(u.a.req) else None }

  function GoesOnFor(c: Cont): Option<Request> { if c.ToIssue? then Some(c.a.req) else None }

  /** The clock reading that the Acquire in progress works with. */
  function ReadAt(mu: Mu): Option<nat> {
    match mu
    case AGate(_, now) => Some(now) case ASlot(_, now) => Some(now)
    case ALoad(a) => Some(a.now)
    case VGate(_, _, _, u) => ReadBy(u) case VFloor(_, _, _, _, u) => ReadBy(u) case VFresh(_, _, _, _, _, u) => ReadBy(u)
    case MDrop(_, _, c) => ReadFor(c) case MEnd(_, c) => ReadFor(c) case MNotify(_, c) => ReadFor(c)
    case MPreempt(a, _) => Some(a.now)
    case IBump(a, _) => Some(a.now) case IPend(a, _, _) => Some(a.now) case IDrain(a, _, _) => Some(a.now)
    case IDraining(a, _, _) => Some(a.now) case ISeq(a, _, _) => Some(a.now) case IRevoked(a, _, _, _) => Some(a.now)
    case IFresh(a, _, _, _) => Some(a.now) case IStore(a, _, _, _) => Some(a.now)
    case IGate(a, _, _, _) => Some(a.now) case IReSeq(a, _, _, _) => Some(a.now)
    case _ => None
  }

  function ReadBy(u: Use): Option<nat> { if u.ForAcquire? then Some(u.a.now) else None }

  function ReadFor(c: Cont): Option<nat> { if c.ToIssue? then Some(c.a.now) else None }

  /** The terms of a lease are those of its request. */
  predicate OnTerms(l: Lease, q: Request, now: nat) {
    && l.conn == q.conn && l.cls == q.cls && l.resource == q.resource && l.generation == q.generation
    && l.package == q.package && l.ttl == q.ttl && l.deadman == q.deadman && l.deadline == now + q.ttl
  }

  predicate Minted(mu: Mu) {
    match mu
    case IFresh(a, _, l, _) => OnTerms(l, a.req, a.now)
    case IStore(a, _, l, _) => OnTerms(l, a.req, a.now)
    case IGate(a, _, l, _) => OnTerms(l, a.req, a.now)
    case IReSeq(a, _, l, _) => OnTerms(l, a.req, a.now)
    case _ => true
  }

  /** How request and clock reading get from one point to the next. */
  ghost predicate Carries(s: State, mu: Mu) {
    && (Asked(mu).Some? ==> Asked(mu) == Asked(s.mu))
    && (ReadAt(mu).Some? ==> ReadAt(mu) == ReadAt(s.mu) || (s.mu.AClock? && ReadAt(mu) == Some(s.w.now)))
    && (Minted(s.mu) ==> Minted(mu))
  }

  lemma AcquireCarries(s: State)
    ensures Carries(s, AcquireGo(s).mu)
  {
    hide FindSlot;
  }

  lemma CheckCarries(s: State)
    ensures Carries(s, CheckGo(s).mu)
  {
    hide LeaseStateAt;
  }

  lemma EndCarries(s: State)
    ensures Carries(s, EndGo(s).mu)
  {
  }

  lemma IssueTerms(s: State, id: nat)
    ensures Carries(s, IssueGo(s, id).mu)
  {
  }

  lemma RestCarries(s: State, k: nat)
    ensures Carries(s, BatchGo(s).mu) && Carries(s, FindGo(s, k).mu) && Carries(s, SnapGo(s).mu) && Carries(s, s.mu)
  {
    hide LeaseStateAt, FindSlot;
  }

  lemma DrainCarries(s: State, n: nat)
    ensures Carries(s, AfterDrain(s.mu, n))
  {
  }

  ghost predicate Begins(s: State, step: Step, mu: Mu) {
    && s.mu.MuIdle? && step.StartMu? && ReadAt(mu).None? && Minted(mu)
    && (Asked(mu).Some? ==> step == StartMu(OpAcquire(Asked(mu).value)))
  }

  lemma StartBegins(s: State, op: MuOp)
    ensures var mu := MuStart(s, op).mu; mu == s.mu || Begins(s, StartMu(op), mu)
  {
  }

  lemma StepCarries(s: State, step: Step)
    ensures var mu := Do(s, step, true).mu; Carries(s, mu) || Begins(s, step, mu)
  {
    hide AcquireGo, CheckGo, EndGo, IssueGo, BatchGo, FindGo, SnapGo, RvGo, RearmGo, ReaderGo, EnvGo, DrainGo, MuStart, Carries, Begins, AfterDrain;
    RestCarries(s, if step.GoMu? then step.k else 0);
    match step
    case GoMu(id, k) => AcquireCarries(s); CheckCarries(s); EndCarries(s); IssueTerms(s, id);
    case GoDrain => DrainCarries(s, |s.w.c.slots|);
    case StartMu(op) => StartBegins(s, op);
    case _ =>
  }

  /** The operation in progress at n was started at b as this Acquire, and has kept mu ever since. */
  lemma {:induction false} StartedAs(steps: seq<Step>, n: nat) returns (b: nat)
    requires n <= |steps| && Asked(StateAt(steps, n).mu).Some?
    ensures b < n && steps[b] == StartMu(OpAcquire(Asked(StateAt(steps, n).mu).value)) && StateAt(steps, b).mu.MuIdle?
    ensures forall j :: b < j <= n ==> Asked(StateAt(steps, j).mu) == Asked(StateAt(steps, n).mu)
  {
    hide Do, Asked, ReadAt, Minted;
    IdleAsks(steps);
    AtNext(steps, n - 1);
    StepCarries(StateAt(steps, n - 1), steps[n - 1]);
    if Asked(StateAt(steps, n - 1).mu).None? { b := n - 1; } else { b := StartedAs(steps, n - 1); }
  }

  lemma IdleAsks(steps: seq<Step>)
    ensures StateAt(steps, 0).mu.MuIdle? && Asked(StateAt(steps, 0).mu).None? && ReadAt(StateAt(steps, 0).mu).None?
    ensures Minted(StateAt(steps, 0).mu)
  {
    assert steps[..0] == [];
  }

  lemma {:induction false} ClockReadAt(steps: seq<Step>, n: nat) returns (t: nat)
    requires n <= |steps| && ReadAt(StateAt(steps, n).mu).Some?
    ensures t < n && StateAt(steps, t).mu.AClock? && ReadAt(StateAt(steps, n).mu) == Some(StateAt(steps, t).w.now)
    ensures forall j :: t < j <= n ==> ReadAt(StateAt(steps, j).mu).Some?
  {
    hide Do, Asked, ReadAt, Minted;
    IdleAsks(steps);
    AtNext(steps, n - 1);
    StepCarries(StateAt(steps, n - 1), steps[n - 1]);
    if ReadAt(StateAt(steps, n - 1).mu) == ReadAt(StateAt(steps, n).mu) { t := ClockReadAt(steps, n - 1); } else {
      t := n - 1;
    }
  }

  lemma {:induction false} MintedRun(steps: seq<Step>, n: nat)
    requires n <= |steps|
    ensures Minted(StateAt(steps, n).mu)
  {
    hide Do, Asked, ReadAt, Minted;
    IdleAsks(steps);
    if n > 0 {
      MintedRun(steps, n - 1);
      AtNext(steps, n - 1);
      StepCarries(StateAt(steps, n - 1), steps[n - 1]);
    }
  }

  /** Every grant is what its Acquire asked for: connection, class, resource, generation, package, ttl and
      deadman window are the request's, and the deadline is the ttl from the clock reading taken under mu. */
  lemma GrantTerms(steps: seq<Step>, n: nat) returns (b: nat, t: nat)
    requires n < |steps| && StateAt(steps, n + 1).w.grants != StateAt(steps, n).w.grants
    ensures b < t < n && steps[b].StartMu? && steps[b].op.OpAcquire? && StateAt(steps, b).mu.MuIdle? && StateAt(steps, t).mu.AClock?
    ensures forall j :: b < j <= n ==> !StateAt(steps, j).mu.MuIdle?
    ensures |StateAt(steps, n + 1).w.grants| == |StateAt(steps, n).w.grants| + 1
    ensures var (l, q) := (StateAt(steps, n + 1).w.grants[|StateAt(steps, n).w.grants|].lease, steps[b].op.req);
            && l.conn == q.conn && l.cls == q.cls && l.resource == q.resource && l.generation == q.generation
            && l.package == q.package && l.ttl == q.ttl && l.deadman == q.deadman
            && l.deadline == StateAt(steps, t).w.now + q.ttl
  {
    hide Do, Inv, Carried, Asked, ReadAt;
    RunSteps(steps, n);
    GrantsMove(steps, n);
    GrantAsks(StateAt(steps, n).mu);
    b := StartedAs(steps, n);
    t := ClockReadAt(steps, n);
    MintedRun(steps, n);
    forall j | b < j <= n ensures !StateAt(steps, j).mu.MuIdle? { IdleIs(StateAt(steps, j).mu); }
    IdleIs(StateAt(steps, b).mu);
  }

  lemma GrantAsks(mu: Mu)
    requires mu.IReSeq?
    ensures Asked(mu) == Some(mu.a.req) && ReadAt(mu) == Some(mu.a.now)
  {
  }

  lemma IdleIs(mu: Mu)
    ensures mu.MuIdle? ==> Asked(mu).None? && ReadAt(mu).None?
  {
  }

  // ------------------------------------------------------------------ batch revocation

  /** What a batch revocation is after, in the lease's own fields. */
  predicate Wanted(m: Match, l: Lease) { (m.ByConn? ==> l.conn == m.conn) && (m.ByPackage? ==> l.package == m.package) }

  ghost predicate Cleared(m: Match, slots: seq<Slot>, i: nat) {
    forall k :: 0 <= k < |slots| && k < i && slots[k].cur.Some? ==> !Wanted(m, slots[k].cur.value)
  }

  ghost predicate AllWanted(m: Match, d: seq<Lease>) { forall j :: 0 <= j < |d| ==> Wanted(m, d[j]) }

  ghost predicate BatchOk(s: State) {
    match s.mu
    case BScan(m, i, _, d, _) => Cleared(m, s.w.c.slots, i) && AllWanted(m, d)
    case BCas(m, i, _, d, _, l) => Cleared(m, s.w.c.slots, i) && AllWanted(m, d) && Wanted(m, l)
    case _ => true
  }

  lemma BatchStep(s: State)
    requires BatchOk(s) && (s.mu.BScan? || s.mu.BCas?) && (s.mu.BCas? ==> NilOr(s.w, Hold(s.mu.i, s.mu.l)))
    ensures BatchOk(BatchGo(s))
    ensures s.mu.BCas? && BatchGo(s).w.c.slots != s.w.c.slots ==>
            InSlotAt(s, s.mu.i, s.mu.l) && BatchGo(s).w.c.slots == s.w.c.slots[s.mu.i := s.w.c.slots[s.mu.i].(cur := None)]
    ensures s.mu.BScan? ==> BatchGo(s).w.c == s.w.c
  {
    hide Placed;
  }

  lemma ClearedStays(m: Match, slots: seq<Slot>, slots': seq<Slot>, i: nat)
    requires Cleared(m, slots, i) && Emptied(slots, slots')
    ensures Cleared(m, slots', i)
  {
  }

  lemma OnlyEmpties(s: State, step: Step)
    requires !step.GoMu? && !step.StartMu?
    ensures Emptied(s.w.c.slots, Do(s, step, true).w.c.slots)
  {
    hide RvGo, DrainGo, RearmGo, EnvGo, ReaderGo, Emptied;
    SupervisorEmpties(s.w);
    WorldEmpties(s.w);
    AsideWorlds(s, step, if step.GoRearm? then step.i else 0);
  }

  predicate Batches(mu: Mu) { mu.BScan? || mu.BCas? }

  lemma BatchBegins(s: State, step: Step)
    requires Batches(Do(s, step, true).mu) && !Batches(s.mu)
    ensures Do(s, step, true).mu.BScan? && Do(s, step, true).mu.i == 0 && Do(s, step, true).mu.dropped == []
    ensures (step.StartMu? && s.mu.MuIdle? && step.op == OpRevoke(Do(s, step, true).mu.m)) || Do(s, step, true).mu.final
  {
    hide AcquireGo, CheckGo, EndGo, IssueGo, FindGo, SnapGo, RvGo, DrainGo, RearmGo, EnvGo, ReaderGo;
    if step.GoMu? { NoBatch(s, step.id, step.k); }
  }

  lemma NoBatch(s: State, id: nat, k: nat)
    requires !Batches(s.mu)
    ensures !Batches(AcquireGo(s).mu) && !Batches(CheckGo(s).mu) && !Batches(EndGo(s).mu) && !Batches(IssueGo(s, id).mu)
    ensures !Batches(FindGo(s, k).mu) && !Batches(SnapGo(s).mu)
  {
    hide LeaseStateAt, FindSlot, NewLease, Placed;
  }

  lemma CasNilOr(s: State)
    requires Inv(s) && s.mu.BCas?
    ensures NilOr(s.w, Hold(s.mu.i, s.mu.l))
  {
    hide Core, IssueFacts, QuietFacts, DrainFacts, LookFacts, LeaseFacts, GrantFacts, ReaderInv, Fits;
  }

  lemma BatchKept(s: State, step: Step)
    requires BatchOk(s) && Inv(s)
    ensures BatchOk(Do(s, step, true))
    ensures Batches(s.mu) && Batches(Do(s, step, true).mu) ==>
            Do(s, step, true).mu.m == s.mu.m && Do(s, step, true).mu.final == s.mu.final && Do(s, step, true).mu.n == s.mu.n
  {
    hide AcquireGo, CheckGo, EndGo, IssueGo, BatchGo, FindGo, SnapGo, RvGo, DrainGo, RearmGo, EnvGo, ReaderGo, Cleared, AllWanted, Emptied, MuStart,
         Inv, NilOr;
    var s' := Do(s, step, true);
    if Batches(s'.mu) && !Batches(s.mu) {
      BatchBegins(s, step);
      NothingCleared(s'.mu.m, s'.w.c.slots);
    } else if Batches(s.mu) {
      if step.GoMu? {
        if s.mu.BCas? { CasNilOr(s); }
        BatchStep(s);
        BatchSame(s);
      } else if step.StartMu? { StartIdle2(s, step.op); } else {
        OnlyEmpties(s, step);
        MuStays(s, step);
        ClearedStays(s.mu.m, s.w.c.slots, s'.w.c.slots, s.mu.i);
      }
    }
  }

  lemma StartIdle2(s: State, op: MuOp)
    requires !s.mu.MuIdle?
    ensures MuStart(s, op) == s
  {
  }

  lemma BatchSame(s: State)
    requires Batches(s.mu)
    ensures Batches(BatchGo(s).mu) ==> BatchGo(s).mu.m == s.mu.m && BatchGo(s).mu.final == s.mu.final && BatchGo(s).mu.n == s.mu.n
  {
    hide Placed;
  }

  lemma NothingCleared(m: Match, slots: seq<Slot>)
    ensures Cleared(m, slots, 0) && AllWanted(m, [])
  {
  }

  lemma {:induction false} BatchRun(steps: seq<Step>, n: nat) returns (b: nat)
    requires n <= |steps|
    ensures BatchOk(StateAt(steps, n))
    ensures Batches(StateAt(steps, n).mu) && !StateAt(steps, n).mu.final ==>
            b < n && steps[b] == StartMu(OpRevoke(StateAt(steps, n).mu.m)) && StateAt(steps, b).mu.MuIdle?
    ensures Batches(StateAt(steps, n).mu) && !StateAt(steps, n).mu.final ==> forall j :: b < j <= n ==> Batches(StateAt(steps, j).mu)
  {
    hide Do, BatchOk, Inv;
    b := 0;
    if n == 0 { NoBatchYet(steps); } else {
      b := BatchRun(steps, n - 1);
      RunInv(steps, n - 1);
      AtNext(steps, n - 1);
      BatchKept(StateAt(steps, n - 1), steps[n - 1]);
      if Batches(StateAt(steps, n).mu) && !Batches(StateAt(steps, n - 1).mu) {
        BatchBegins(StateAt(steps, n - 1), steps[n - 1]);
        b := n - 1;
      }
    }
  }

  lemma NoBatchYet(steps: seq<Step>)
    ensures StateAt(steps, 0).mu.MuIdle? && BatchOk(StateAt(steps, 0))
  {
    assert steps[..0] == [];
  }

  /** A batch revocation for a connection, a package or, at Stop, everybody: when its scan is over no slot holds a
      lease it is after, and it has taken out - and goes on to report - only such leases. */
  lemma BatchRevokes(steps: seq<Step>, n: nat) returns (b: nat)
    requires n < |steps| && steps[n].GoMu? && StateAt(steps, n).mu.BScan? && StateAt(steps, n).mu.i >= StateAt(steps, n).mu.n
    ensures var (s, s') := (StateAt(steps, n), StateAt(steps, n + 1));
            && (!s.mu.final ==> b < n && steps[b] == StartMu(OpRevoke(s.mu.m)) && StateAt(steps, b).mu.MuIdle?)
            && (s.mu.final ==> s.mu.m.All?)
            && (forall k :: 0 <= k < |s'.w.c.slots| && s'.w.c.slots[k].cur.Some? ==>
                  var l := s'.w.c.slots[k].cur.value;
                  (s.mu.m.ByConn? && l.conn != s.mu.m.conn) || (s.mu.m.ByPackage? && l.package != s.mu.m.package))
            && (forall j :: 0 <= j < |s.mu.dropped| ==> Wanted(s.mu.m, s.mu.dropped[j]))
            && s'.mu == if s.mu.dropped == [] then MuIdle else MEnd(s.mu.dropped, ToIdle)
  {
    hide Do, Inv;
    b := BatchRun(steps, n);
    RunInv(steps, n);
    ScanIs(StateAt(steps, n));
    AtNext(steps, n);
    ScanEnds(StateAt(steps, n), steps[n].id, steps[n].k);
  }

  lemma ScanIs(s: State)
    requires Inv(s) && s.mu.BScan?
    ensures s.mu.n == |s.w.c.slots| && (s.mu.final ==> s.mu.m.All?)
  {
    hide Core, IssueFacts, QuietFacts, DrainFacts, LookFacts, LeaseFacts, GrantFacts, ReaderInv;
  }

  lemma ScanEnds(s: State, id: nat, k: nat)
    requires s.mu.BScan? && s.mu.i >= s.mu.n
    ensures var s' := Do(s, GoMu(id, k), true); s'.w.c == s.w.c && s'.mu == if s.mu.dropped == [] then MuIdle else MEnd(s.mu.dropped, ToIdle)
  {
  }

  // ------------------------------------------------------------------ RevokeAll takes whatever it meets

  // At some step of this RevokeAll slot k has been emptied or found empty.
  ghost predicate Visited(steps: seq<Step>, n: nat, e: nat, k: nat)
    requires n <= |steps|
  {
    exists j :: 0 <= j < n && Visits(steps, j, e, k)
  }

  ghost predicate Visits(steps: seq<Step>, j: nat, e: nat, k: nat)
    requires j < |steps|
  {
    && steps[j].GoRv? && StateAt(steps, j).w.c.rv.RvScan? && StateAt(steps, j).w.c.rv.e == e && StateAt(steps, j).w.c.rv.i == k
    && k < |StateAt(steps, j + 1).w.c.slots| && StateAt(steps, j + 1).w.c.slots[k].cur.None?
  }

  // The slot RevokeAll has come to, if it is inside its scan.
  function Reached(rv: Rv): nat {
    match rv case RvScan(_, i, _) => i case RvMid(_, i, _, _) => i + 1 case RvCounted(_, i, _, _) => i + 1 case _ => 0
  }

  lemma ScanMoves(w: World)
    requires CellInv(w.c.slots, w.c.rv)
    ensures var rv' := RvGo(w).c.rv;
            && (Reached(rv') > 0 && rv' != w.c.rv ==> Sweeping(w.c.rv) && rv'.e == w.c.rv.e && Reached(rv') <= Reached(w.c.rv) + 1)
            && (Reached(rv') > Reached(w.c.rv) ==>
                  w.c.rv.RvScan? && w.c.rv.i < |w.c.slots| && RvGo(w).c.slots == w.c.slots[w.c.rv.i := w.c.slots[w.c.rv.i].(cur := None)])
            && (w.c.rv.RvScan? && rv'.RvIdle? ==> w.c.rv.i >= w.c.rv.n)
  {
    hide Placed;
  }

  lemma RvStays(s: State, step: Step)
    requires !step.GoRv?
    ensures Do(s, step, true).w.c.rv == s.w.c.rv
  {
    hide RvGo, RearmGo, ReaderGo, MuStart, AcquireGo, CheckGo, EndGo, IssueGo, BatchGo, FindGo, SnapGo;
    RearmGrants(s.w);
    if step.GoMu? { MuRv(s, step.id, step.k); }
    if step.StartMu? { StartRv(s, step.op); }
  }

  lemma MuRv(s: State, id: nat, k: nat)
    ensures AcquireGo(s).w.c.rv == s.w.c.rv && CheckGo(s).w.c.rv == s.w.c.rv && EndGo(s).w.c.rv == s.w.c.rv
    ensures IssueGo(s, id).w.c.rv == s.w.c.rv && BatchGo(s).w.c.rv == s.w.c.rv && FindGo(s, k).w.c.rv == s.w.c.rv
    ensures SnapGo(s).w.c.rv == s.w.c.rv
  {
    hide LeaseStateAt, FindSlot, NewLease, Placed;
  }

  lemma StartRv(s: State, op: MuOp)
    ensures MuStart(s, op).w.c == s.w.c
  {
  }

  /** When RevokeAll has come past a slot it has been there and left it empty; it ends only behind the last one
      of the index it loaded. */
  lemma {:induction false} RevokeAllVisits(steps: seq<Step>, n: nat, k: nat)
    requires n <= |steps| && k < Reached(StateAt(steps, n).w.c.rv)
    ensures Visited(steps, n, StateAt(steps, n).w.c.rv.e, k)
  {
    hide Do, Inv, Init;
    NotYet(steps);
    AtNext(steps, n - 1);
    var s, s' := StateAt(steps, n - 1), StateAt(steps, n);
    RunInv(steps, n - 1);
    CellsGive(s);
    if steps[n - 1].GoRv? {
      IsRv(s);
      ScanMoves(s.w);
      if k == Reached(s.w.c.rv) { assert Visits(steps, n - 1, s'.w.c.rv.e, k); }
      else { RevokeAllVisits(steps, n - 1, k); }
    } else {
      RvStays(s, steps[n - 1]);
      RevokeAllVisits(steps, n - 1, k);
    }
  }

  lemma NotYet(steps: seq<Step>)
    ensures Reached(StateAt(steps, 0).w.c.rv) == 0
  {
    assert steps[..0] == [];
  }

  lemma IsRv(s: State)
    ensures Do(s, GoRv, true).w == RvGo(s.w)
  {
  }

  lemma CellsGive(s: State)
    requires Inv(s)
    ensures CellInv(s.w.c.slots, s.w.c.rv)
  {
    hide FactsOk, Fits, ReaderInv, CurAt, RevokedAt, MidAt, DrainAt, EndedAt, DrainRange, Filled;
  }

  // ------------------------------------------------------------------ what a snapshot calls held

  /** ControlSnapshotFor calls a lease held exactly if it is sound by the state it sampled, the floor and the
      freshness it loaded after that and the clock it reads last. */
  lemma SnapshotHolds(steps: seq<Step>, n: nat)
    requires n < |steps| && steps[n].GoMu? && StateAt(steps, n).mu.NFresh? && StateAt(steps, n).mu.k < |StateAt(steps, n).w.c.slots|
    ensures var (s, s') := (StateAt(steps, n), StateAt(steps, n + 1));
            && s'.w == s.w
            && s'.mu == NDone(s.mu.g, s.mu.view, Sound(s.mu.l, s.mu.g.st, s.mu.floor, s.w.c.slots[s.mu.k].freshAt, s.w.now))
  {
    AtNext(steps, n);
  }

  // ------------------------------------------------------------------ what a check accepts

  /** CheckLease and CheckResource go on with a lease exactly if it is sound by the gate, floor and freshness they
      loaded, and accept it exactly if the slot then still holds the same id, connection and resource. */
  lemma ChecksAreExact(w: World, r: Reader, k: nat)
    ensures r.RFloor? ==>
              var passes := r.k < |w.c.slots| && Sound(r.l, r.g.st, r.floor, w.c.slots[r.k].freshAt, r.now);
              ReaderGo(w, r, k) ==
              if passes then RFresh(r.k, r.l, r.now, r.born, r.g, r.heldThen, r.tripThen, r.floor) else RIdle
    ensures r.RFresh? ==>
              var stays := r.k < |w.c.slots| && w.c.slots[r.k].cur.Some? && w.c.slots[r.k].cur.value.id == r.l.id &&
                           w.c.slots[r.k].cur.value.conn == r.l.conn && w.c.slots[r.k].cur.value.resource == r.l.resource;
              ReaderGo(w, r, k) == if stays then RDone(r.k, r.l, r.born, r.g, r.heldThen, r.tripThen, r.now) else RIdle
  {
  }
}
