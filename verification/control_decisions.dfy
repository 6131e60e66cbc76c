/** What the holder of mu decides, over whole runs and in terms of the leases' own fields: who may take,
    keep, renew and end a lease, and on which terms it was granted. */
module ControlDecisions {
  import opened Wrappers
  import opened ControlTypes
  import opened ControlProtocol
  import opened ControlInvariant
  import opened ControlRuns
  import opened ControlGuarantees

  // ------------------------------------------------------------------ following one operation

  /** The step that brought the holder of mu to its present program point. */
  lemma {:induction false} Entered(steps: seq<Step>, n: nat) returns (i: nat)
    requires n <= |steps| && !StateAt(steps, n).mu.MuIdle?
    ensures i < n && StateAt(steps, i).mu != StateAt(steps, n).mu
    ensures forall j :: i < j <= n ==> StateAt(steps, j).mu == StateAt(steps, n).mu
  {
    hide Do;
    assert steps[..0] == [];
    if StateAt(steps, n - 1).mu != StateAt(steps, n).mu { i := n - 1; } else { i := Entered(steps, n - 1); }
  }

  predicate Waits(mu: Mu) { mu.MuIdle? || mu.ADraining? || mu.IDraining? || mu.SDraining? }

  lemma MuStays(s: State, step: Step)
    requires !step.GoMu? && !Waits(s.mu)
    ensures Do(s, step, true).mu == s.mu
  {
    hide RvGo, DrainGo, RearmGo, EnvGo, ReaderGo, MuGo;
  }

  /** Between its own steps the operation stays where it is. */
  lemma {:induction false} Stays(steps: seq<Step>, m: nat, n: nat)
    requires m <= n <= |steps| && !Waits(StateAt(steps, m).mu) && forall j :: m <= j < n ==> !steps[j].GoMu?
    ensures StateAt(steps, n).mu == StateAt(steps, m).mu && StateAt(steps, n).w.grants == StateAt(steps, m).w.grants
  {
    hide Do, Inv, Carried;
    if m < n {
      Stays(steps, m, n - 1);
      AtNext(steps, n - 1);
      MuStays(StateAt(steps, n - 1), steps[n - 1]);
      GrantsMove(steps, n - 1);
    }
  }

  // Grants are made by the holder of mu, at one point.
  lemma GrantsMove(steps: seq<Step>, n: nat)
    requires n < |steps|
    ensures StateAt(steps, n + 1).w.grants != StateAt(steps, n).w.grants ==> StateAt(steps, n).mu.IReSeq? && steps[n].GoMu?
  {
    hide Inv, Carried, Do;
    RunSteps(steps, n);
    if !steps[n].GoMu? { GrantsStay(StateAt(steps, n), steps[n]); }
  }

  lemma GrantsStay(s: State, step: Step)
    requires !step.GoMu?
    ensures Do(s, step, true).w.grants == s.w.grants
  {
    hide RearmGo, ReaderGo, Placed;
    RearmGrants(s.w);
  }

  lemma RearmGrants(w: World)
    ensures forall i: nat :: RearmGo(w, i, true) == w.(g := RearmGo(w, i, true).g)
  {
  }

  // ------------------------------------------------------------------ the check of a slot's lease

  /** A lease that may authorise: Normal gate, above the safety floor, not expired, input fresh enough. */
  predicate Sound(l: Lease, st: GateState, floor: nat, freshAt: int, now: int) {
    st == Normal && floor < l.epoch && now <= l.deadline && (l.deadman <= 0 || now - freshAt <= l.deadman)
  }

  predicate Checks(mu: Mu) { mu.VGate? || mu.VFloor? || mu.VFresh? }

  // Where the lease under check was found.
  ghost predicate FoundBy(s: State, k: nat, l: Lease, now: nat, use: Use) {
    && k < |s.w.c.slots| && s.w.c.slots[k].cur == Some(l)
    && match use
       case ForAcquire(a) => s.mu == ALoad(a) && k == a.k && now == a.now && l.generation == a.req.generation
       case ForRenew => s.mu == FRenew(l.id, l.conn, now)
       case ForExpiry => s.mu == FExpire(k, l, now)
  }

  ghost predicate CheckMoves(s: State, mu: Mu) {
    match mu
    case VGate(k, l, now, use) => FoundBy(s, k, l, now, use)
    case VFloor(k, l, now, st, use) => s.mu == VGate(k, l, now, use) && st == s.w.g.gate.st
    case VFresh(k, l, now, st, floor, use) => s.mu == VFloor(k, l, now, st, use) && floor == s.w.g.floor
    case _ => true
  }

  lemma LoadMoves(s: State)
    ensures AcquireGo(s).mu == s.mu || CheckMoves(s, AcquireGo(s).mu)
  {
    hide FindSlot;
  }

  lemma CheckGoMoves(s: State)
    ensures CheckGo(s).mu == s.mu || CheckMoves(s, CheckGo(s).mu)
  {
    hide LeaseStateAt;
  }

  lemma FindMoves(s: State, k: nat)
    ensures FindGo(s, k).mu == s.mu || CheckMoves(s, FindGo(s, k).mu)
    ensures SnapGo(s).mu == s.mu || !Checks(SnapGo(s).mu)
  {
    hide LeaseStateAt, FindSlot;
  }

  lemma OtherMoves(s: State, id: nat)
    ensures EndGo(s).mu == s.mu || !Checks(EndGo(s).mu)
    ensures IssueGo(s, id).mu == s.mu || !Checks(IssueGo(s, id).mu)
    ensures BatchGo(s).mu == s.mu || !Checks(BatchGo(s).mu)
  {
  }

  lemma MuMoves(s: State, step: Step)
    requires Do(s, step, true).mu != s.mu && Checks(Do(s, step, true).mu)
    ensures step.GoMu? && CheckMoves(s, Do(s, step, true).mu)
  {
    hide AcquireGo, CheckGo, EndGo, IssueGo, BatchGo, FindGo, SnapGo, CheckMoves, RvGo, DrainGo, RearmGo, EnvGo, ReaderGo;
    match step
    case GoMu(id, k) => LoadMoves(s); CheckGoMoves(s); FindMoves(s, k); OtherMoves(s, id);
    case _ =>
  }

  /** The lease was in the slot at i, and gate, floor and freshness are read after that, in this order. */
  lemma CheckSaw(steps: seq<Step>, n: nat) returns (i: nat, g: nat, f: nat)
    requires n <= |steps| && StateAt(steps, n).mu.VFresh?
    ensures i < g < f < n
    ensures var mu := StateAt(steps, n).mu;
            && FoundBy(StateAt(steps, i), mu.k, mu.l, mu.now, mu.use)
            && StateAt(steps, g).w.g.gate.st == mu.st && StateAt(steps, f).w.g.floor == mu.floor
    ensures forall j :: i < j <= n ==> Checks(StateAt(steps, j).mu)
  {
    hide Do, FoundBy;
    f := Entered(steps, n);
    AtNext(steps, f);
    MuMoves(StateAt(steps, f), steps[f]);
    g := Entered(steps, f);
    AtNext(steps, g);
    MuMoves(StateAt(steps, g), steps[g]);
    i := Entered(steps, g);
    AtNext(steps, i);
    MuMoves(StateAt(steps, i), steps[i]);
  }

  // ------------------------------------------------------------------ Acquire meets a lease

  /** The check of an Acquire ends at n: it has read the freshness of the slot. */
  ghost predicate Decides(steps: seq<Step>, n: nat, a: Acq, l: Lease, sound: bool)
    requires n < |steps|
  {
    var s := StateAt(steps, n);
    && steps[n].GoMu? && s.mu.VFresh? && s.mu.use == ForAcquire(a) && s.mu.k == a.k && s.mu.l == l && s.mu.now == a.now
    && a.k < |s.w.c.slots| && (sound <==> Sound(l, s.mu.st, s.mu.floor, s.w.c.slots[a.k].freshAt, a.now))
  }

  lemma DecideStep(s: State, id: nat, k: nat, a: Acq)
    requires s.mu.VFresh? && s.mu.use == ForAcquire(a) && s.mu.k < |s.w.c.slots|
    ensures var (s', l) := (Do(s, GoMu(id, k), true), s.mu.l);
            var sound := Sound(l, s.mu.st, s.mu.floor, s.w.c.slots[s.mu.k].freshAt, s.mu.now);
            && s'.w == s.w
            && (!sound ==> s'.mu == MDrop(s.mu.k, l, ToIssue(a, AfterDrop)))
            && (sound && l.conn == a.req.conn && l.cls == a.req.cls ==> s'.mu == MRenew(s.mu.k, l, s.mu.now))
            && (sound && l.cls == AI && a.req.cls == Human ==> s'.mu == MPreempt(a, l))
            && (sound && l.cls == Human && a.req.cls == AI ==> s'.mu == MuIdle)
            && (sound && l.cls == a.req.cls && l.conn != a.req.conn ==> s'.mu == MuIdle)
  {
  }

  /** A valid lease is safe from an AI that asks for a HUMAN's, and from a rival of the same class: the
      Acquire ends, and from the moment it loaded the slot it has changed nothing at all. */
  lemma AcquireRefuses(steps: seq<Step>, n: nat, a: Acq, l: Lease) returns (i: nat)
    requires n < |steps| && Decides(steps, n, a, l, true)
    requires (l.cls == Human && a.req.cls == AI) || (l.cls == a.req.cls && l.conn != a.req.conn)
    ensures i < n && StateAt(steps, i).mu == ALoad(a) && InSlotAt(StateAt(steps, i), a.k, l)
    ensures StateAt(steps, n + 1).mu == MuIdle && StateAt(steps, n + 1).w.grants == StateAt(steps, i).w.grants
    ensures forall j :: i <= j <= n && steps[j].GoMu? ==> StateAt(steps, j + 1).w == StateAt(steps, j).w
  {
    hide Do, FoundBy, Sound;
    var g, f;
    i, g, f := CheckSaw(steps, n);
    FoundGives(StateAt(steps, i), a, l);
    AtNext(steps, n);
    DecideStep(StateAt(steps, n), steps[n].id, steps[n].k, a);
    forall j | i <= j <= n && steps[j].GoMu? ensures StateAt(steps, j + 1).w == StateAt(steps, j).w {
      AtNext(steps, j);
      CheckStill(StateAt(steps, j), steps[j]);
    }
    CheckGrants(steps, i, n + 1);
  }

  ghost predicate InSlotAt(s: State, k: nat, l: Lease) { k < |s.w.c.slots| && s.w.c.slots[k].cur == Some(l) }

  lemma FoundGives(s: State, a: Acq, l: Lease)
    requires FoundBy(s, a.k, l, a.now, ForAcquire(a))
    ensures s.mu == ALoad(a) && InSlotAt(s, a.k, l)
  {
  }

  lemma CheckStill(s: State, step: Step)
    requires step.GoMu? && (Checks(s.mu) || s.mu.ALoad?)
    ensures Do(s, step, true).w == s.w
  {
    hide LeaseStateAt, Decide;
  }

  lemma {:induction false} CheckGrants(steps: seq<Step>, m: nat, n: nat)
    requires m <= n <= |steps| && forall j :: m <= j < n ==> !StateAt(steps, j).mu.IReSeq?
    ensures StateAt(steps, n).w.grants == StateAt(steps, m).w.grants
  {
    hide Do;
    if m < n {
      CheckGrants(steps, m, n - 1);
      GrantsMove(steps, n - 1);
    }
  }

  /** A HUMAN takes over from an AI: the operation's next step takes exactly the AI's lease out of the slot,
      and the one after that reports its end - both before any grant - unless RevokeAll was faster. */
  lemma AcquirePreempts(steps: seq<Step>, n: nat, m: nat, q: nat, a: Acq, l: Lease)
    requires n < m < q < |steps| && Decides(steps, n, a, l, true) && l.cls == AI && a.req.cls == Human
    requires steps[m].GoMu? && steps[q].GoMu? && forall j :: n < j < q && j != m ==> !steps[j].GoMu?
    ensures StateAt(steps, n + 1).w == StateAt(steps, n).w
    ensures InSlotAt(StateAt(steps, m), a.k, l) ==>
            && StateAt(steps, m + 1).w.c.slots == StateAt(steps, m).w.c.slots[a.k := StateAt(steps, m).w.c.slots[a.k].(cur := None)]
            && StateAt(steps, q + 1).w.c.ended == StateAt(steps, q).w.c.ended + multiset{l.id}
            && StateAt(steps, q + 1).mu == MNotify([], ToIssue(a, Preempting))
    ensures !InSlotAt(StateAt(steps, m), a.k, l) ==>
            StateAt(steps, m + 1).mu == IBump(a, Plain) && StateAt(steps, m + 1).w == StateAt(steps, m).w
    ensures StateAt(steps, q + 1).w.grants == StateAt(steps, n).w.grants
  {
    hide Do, Sound;
    AtNext(steps, n);
    DecideStep(StateAt(steps, n), steps[n].id, steps[n].k, a);
    Stays(steps, n + 1, m);
    AtNext(steps, m);
    PreemptStep(StateAt(steps, m), steps[m].id, steps[m].k);
    Stays(steps, m + 1, q);
    AtNext(steps, q);
    if InSlotAt(StateAt(steps, m), a.k, l) { TellStep(StateAt(steps, q), steps[q].id, steps[q].k); }
    GrantsMove(steps, m);
    GrantsMove(steps, q);
  }

  lemma PreemptStep(s: State, id: nat, k: nat)
    requires s.mu.MPreempt?
    ensures var (s', a, l) := (Do(s, GoMu(id, k), true), s.mu.a, s.mu.l);
            if InSlotAt(s, a.k, l)
            then s'.w.c.slots == s.w.c.slots[a.k := s.w.c.slots[a.k].(cur := None)] && s'.mu == MNotify([l], ToIssue(a, Preempting))
            else s'.w == s.w && s'.mu == IBump(a, Plain)
  {
  }

  lemma TellStep(s: State, id: nat, k: nat)
    requires s.mu.MNotify? && s.mu.dropped != []
    ensures var s' := Do(s, GoMu(id, k), true);
            && s'.w.c.ended == s.w.c.ended + multiset{s.mu.dropped[0].id} && s'.mu == MNotify(s.mu.dropped[1..], s.mu.cont)
            && s'.w.c.slots == s.w.c.slots
  {
  }

  /** The same connection with the same class keeps its lease: same id, same epoch, new deadline; no grant. */
  lemma AcquireRenews(steps: seq<Step>, n: nat, m: nat, q: nat, a: Acq, l: Lease)
    requires n < m < q < |steps| && Decides(steps, n, a, l, true) && l.conn == a.req.conn && l.cls == a.req.cls
    requires steps[m].GoMu? && steps[q].GoMu? && forall j :: n < j < q && j != m ==> !steps[j].GoMu?
    ensures InSlotAt(StateAt(steps, m), a.k, l) ==>
            && Extended(StateAt(steps, m), StateAt(steps, m + 1), a.k, l, a.now)
            && a.k < |StateAt(steps, q).w.c.slots| && Marks(StateAt(steps, q), StateAt(steps, q + 1), a.k, a.now)
            && StateAt(steps, q + 1).mu == MuIdle
    ensures !InSlotAt(StateAt(steps, m), a.k, l) ==> StateAt(steps, m + 1).mu == MuIdle && StateAt(steps, m + 1).w == StateAt(steps, m).w
    ensures StateAt(steps, m + 1).w.grants == StateAt(steps, n).w.grants
  {
    hide Do, Sound, Inv;
    AtNext(steps, n);
    DecideStep(StateAt(steps, n), steps[n].id, steps[n].k, a);
    Stays(steps, n + 1, m);
    AtNext(steps, m);
    RenewStep(StateAt(steps, m), steps[m].id, steps[m].k);
    GrantsMove(steps, m);
    if InSlotAt(StateAt(steps, m), a.k, l) {
      Stays(steps, m + 1, q);
      AtNext(steps, q);
      RunInv(steps, q);
      MarkIndex(StateAt(steps, q));
      FreshenStep(StateAt(steps, q), steps[q].id, steps[q].k);
    }
  }

  // Only the deadline of the slot's lease moves.
  ghost predicate Extended(s: State, s': State, k: nat, l: Lease, now: int) {
    && k < |s.w.c.slots| == |s'.w.c.slots| && s'.w.c.slots == s.w.c.slots[k := s'.w.c.slots[k]] && s'.w.c.slots[k].cur.Some?
    && s'.w.c.slots[k] == s.w.c.slots[k].(cur := s'.w.c.slots[k].cur)
    && var r := s'.w.c.slots[k].cur.value;
       && r.deadline == now + l.ttl && r.id == l.id && r.epoch == l.epoch && r.conn == l.conn && r.cls == l.cls
       && r.resource == l.resource && r.generation == l.generation && r.package == l.package && r.ttl == l.ttl && r.deadman == l.deadman
  }

  // Only the freshness of the slot moves, and never back.
  ghost predicate Marks(s: State, s': State, k: nat, now: int)
    requires k < |s.w.c.slots|
  {
    s'.w.c.slots == s.w.c.slots[k := s.w.c.slots[k].(freshAt := if s.w.c.slots[k].freshAt < now then now else s.w.c.slots[k].freshAt)]
  }

  lemma RenewStep(s: State, id: nat, k: nat)
    requires s.mu.MRenew?
    ensures var s' := Do(s, GoMu(id, k), true);
            if InSlotAt(s, s.mu.k, s.mu.l) then Extended(s, s', s.mu.k, s.mu.l, s.mu.now) && s'.mu == MRenewFresh(s.mu.k, s.mu.now)
            else s'.w == s.w && s'.mu == MuIdle
  {
  }

  lemma FreshenStep(s: State, id: nat, k: nat)
    requires s.mu.MRenewFresh? && s.mu.k < |s.w.c.slots|
    ensures var s' := Do(s, GoMu(id, k), true); Marks(s, s', s.mu.k, s.mu.now) && s'.mu == MuIdle
  {
  }

  lemma MarkIndex(s: State)
    requires Inv(s) && s.mu.MRenewFresh?
    ensures s.mu.k < |s.w.c.slots|
  {
    hide Core, IssueFacts, QuietFacts, DrainFacts, LookFacts, LeaseFacts, GrantFacts, ReaderInv, Fits;
  }

  /** A lease that is stale, expired or out of its deadman window is collected: the next step takes exactly
      it out, if RevokeAll has not. */
  lemma AcquireCollects(steps: seq<Step>, n: nat, m: nat, a: Acq, l: Lease)
    requires n < m < |steps| && Decides(steps, n, a, l, false)
    requires steps[m].GoMu? && forall j :: n < j < m ==> !steps[j].GoMu?
    ensures DropsAt(StateAt(steps, m), StateAt(steps, m + 1), a.k, l, ToIssue(a, AfterDrop))
    ensures StateAt(steps, m + 1).w.grants == StateAt(steps, n).w.grants
  {
    hide Do, Sound;
    AtNext(steps, n);
    DecideStep(StateAt(steps, n), steps[n].id, steps[n].k, a);
    Stays(steps, n + 1, m);
    AtNext(steps, m);
    DropStep(StateAt(steps, m), steps[m].id, steps[m].k);
    GrantsMove(steps, m);
  }

  // Exactly this lease leaves its slot, if it is still there.
  ghost predicate DropsAt(s: State, s': State, k: nat, l: Lease, c: Cont) {
    if InSlotAt(s, k, l)
    then s'.w.c.slots == s.w.c.slots[k := s.w.c.slots[k].(cur := None)] && s'.mu == MEnd([l], c)
    else s'.w == s.w && (c.ToIdle? ==> s'.mu == MuIdle) && (c.ToIssue? ==> s'.mu == IBump(c.a, c.how))
  }

  lemma DropStep(s: State, id: nat, k: nat)
    requires s.mu.MDrop?
    ensures DropsAt(s, Do(s, GoMu(id, k), true), s.mu.k, s.mu.l, s.mu.cont)
  {
  }

  /** An empty slot is free to be issued; a lease of another resource generation is collected unchecked. */
  lemma AcquireLoads(steps: seq<Step>, n: nat)
    requires n < |steps| && steps[n].GoMu? && StateAt(steps, n).mu.ALoad? && StateAt(steps, n).mu.a.k < |StateAt(steps, n).w.c.slots|
    ensures var (s, s') := (StateAt(steps, n), StateAt(steps, n + 1));
            var (a, cur) := (s.mu.a, s.w.c.slots[s.mu.a.k].cur);
            && s'.w == s.w
            && (cur.None? ==> s'.mu == IBump(a, Plain))
            && (cur.Some? && cur.value.generation != a.req.generation ==> s'.mu == MDrop(a.k, cur.value, ToIssue(a, AfterDrop)))
            && (cur.Some? && cur.value.generation == a.req.generation ==> s'.mu == VGate(a.k, cur.value, a.now, ForAcquire(a)))
  {
    AtNext(steps, n);
  }

  /** The way to that decision: ends handed over by RevokeAll are delivered first, then Stop, a latched gate and the
      limit of 1024 slots refuse; a resource seen for the first time gets an empty slot behind the others. */
  lemma AcquireEnters(steps: seq<Step>, n: nat)
    requires n < |steps| && steps[n].GoMu?
    ensures var (s, s') := (StateAt(steps, n), StateAt(steps, n + 1));
            match s.mu
            case AEnter(q) => s'.w == s.w && s'.mu == if s.w.c.pending == 0 then AStop(q) else ADrain(q)
            case AStop(q) => s'.w == s.w && s'.mu == if s.w.stopping then MuIdle else AClock(q)
            case AClock(q) => s'.w == s.w && s'.mu == AGate(q, s.w.now)
            case AGate(q, now) => s'.w == s.w && s'.mu == if s.w.g.gate.st == Normal then ASlot(q, now) else MuIdle
            case ASlot(q, now) =>
              && (forall k :: 0 <= k < |s.w.c.slots| && s.w.c.slots[k].resource == q.resource &&
                              (forall i :: 0 <= i < k ==> s.w.c.slots[i].resource != q.resource) ==>
                    s'.w == s.w && s'.mu == ALoad(Acq(q, now, k)))
              && ((forall k :: 0 <= k < |s.w.c.slots| ==> s.w.c.slots[k].resource != q.resource) ==>
                    if |s.w.c.slots| >= 1024 then s'.w == s.w && s'.mu == MuIdle
                    else s'.w.c.slots == s.w.c.slots + [Slot(q.resource, None, 0, None)] && s'.mu == ALoad(Acq(q, now, |s.w.c.slots|)))
            case _ => true
  {
    AtNext(steps, n);
    if StateAt(steps, n).mu.ASlot? { FirstSlot(StateAt(steps, n).w.c.slots, StateAt(steps, n).mu.req.resource); }
  }

  /** The way from the decision to the lease: a latched gate, a RevokeAll in progress and an undelivered end in the slot's
      cell refuse; ends handed over since are delivered first. */
  lemma IssueEnters(steps: seq<Step>, n: nat)
    requires n < |steps| && steps[n].GoMu?
    ensures var (s, s') := (StateAt(steps, n), StateAt(steps, n + 1));
            match s.mu
            case IBump(a, how) =>
              if s.w.g.gate.st == Normal
              then s'.w.g.gate == Gate(Normal, s.w.g.gate.epoch + 1) && s'.mu == IPend(a, how, s.w.g.gate.epoch + 1)
              else s'.w == s.w && s'.mu == MuIdle
            case IPend(a, how, ep) => s'.w == s.w && s'.mu == if s.w.c.pending == 0 then ISeq(a, how, ep) else IDrain(a, how, ep)
            case ISeq(a, how, ep) => s'.w == s.w && s'.mu == if s.w.g.seqno % 2 == 0 then IRevoked(a, how, ep, s.w.g.seqno) else MuIdle
            case IRevoked(a, _, _, _) => a.k < |s.w.c.slots| && s.w.c.slots[a.k].revoked.Some? && steps[n].id !in s.w.c.place ==> s'.w == s.w && s'.mu == MuIdle
            case _ => true
  {
    AtNext(steps, n);
  }

  /** Why a lease does not hold: Safety first, then the floor, then the deadline, then the input. */
  lemma CauseIsFirst(l: Lease, st: GateState, floor: nat, freshAt: int, now: int)
    ensures var cause := LeaseStateAt(l, st, floor, freshAt, now);
            && (cause == Valid <==> Sound(l, st, floor, freshAt, now))
            && (cause == SafetyLatched <==> st != Normal)
            && (cause == StaleEpoch <==> st == Normal && l.epoch <= floor)
            && (cause == LeaseExpired <==> st == Normal && floor < l.epoch && l.deadline < now)
            && (cause == DeadmanExpired <==> st == Normal && floor < l.epoch && now <= l.deadline && l.deadman > 0 && now - freshAt > l.deadman)
  {
  }

  // ------------------------------------------------------------------ Renew, expiry, Release

  /** Renew extends exactly a sound lease of this id and connection that is still there at the end of its
      check; any other Renew changes nothing. */
  lemma RenewDecides(steps: seq<Step>, n: nat)
    requires n < |steps| && steps[n].GoMu? && StateAt(steps, n).mu.VFresh? && StateAt(steps, n).mu.use == ForRenew
    requires StateAt(steps, n).mu.k < |StateAt(steps, n).w.c.slots|
    ensures var (s, s') := (StateAt(steps, n), StateAt(steps, n + 1));
            && s'.w == s.w
            && s'.mu == if Sound(s.mu.l, s.mu.st, s.mu.floor, s.w.c.slots[s.mu.k].freshAt, s.mu.now)
                        then VHolds(s.mu.k, s.mu.l, s.mu.now) else MuIdle
  {
    AtNext(steps, n);
  }

  lemma RenewHolds(steps: seq<Step>, n: nat)
    requires n < |steps| && steps[n].GoMu? && StateAt(steps, n).mu.VHolds?
    ensures var (s, s') := (StateAt(steps, n), StateAt(steps, n + 1));
            var (k, l) := (s.mu.k, s.mu.l);
            && s'.w == s.w
            && s'.mu == if k < |s.w.c.slots| && s.w.c.slots[k].cur.Some? && s.w.c.slots[k].cur.value.id == l.id &&
                           s.w.c.slots[k].cur.value.conn == l.conn && s.w.c.slots[k].cur.value.resource == l.resource
                        then MRenew(k, l, s.mu.now) else MuIdle
  {
    AtNext(steps, n);
  }

  /** The expiry pass ends a lease exactly if, under a Normal gate and above the floor, its deadline has
      passed or its input is stale; leases of a stopped robot are Safety's to end. */
  lemma ExpiryDecides(steps: seq<Step>, n: nat)
    requires n < |steps| && steps[n].GoMu? && StateAt(steps, n).mu.VFresh? && StateAt(steps, n).mu.use == ForExpiry
    requires StateAt(steps, n).mu.k < |StateAt(steps, n).w.c.slots|
    ensures var (s, s') := (StateAt(steps, n), StateAt(steps, n + 1));
            var (l, read) := (s.mu.l, s.w.c.slots[s.mu.k].freshAt);
            && s'.w == s.w
            && s'.mu == if s.mu.st == Normal && s.mu.floor < l.epoch &&
                           (s.mu.now > l.deadline || (l.deadman > 0 && s.mu.now - read > l.deadman))
                        then MDrop(s.mu.k, l, ToIdle) else MuIdle
  {
    AtNext(steps, n);
  }

  /** Which lease Release and Renew accept: the one with this id and connection. */
  lemma LookupsAreExact(steps: seq<Step>, n: nat)
    requires n < |steps| && steps[n].GoMu?
    ensures var (s, s', k) := (StateAt(steps, n), StateAt(steps, n + 1), steps[n].k);
            && (s.mu.FRelease? || s.mu.FResource? || s.mu.FRenew? || s.mu.FExpire? ==> s'.w == s.w)
            && (s.mu.FRelease? ==>
                  if k < |s.w.c.slots| && s.w.c.slots[k].cur.Some? && s.w.c.slots[k].cur.value.id == s.mu.id && s.w.c.slots[k].cur.value.conn == s.mu.conn
                  then s'.mu == MDrop(k, s.w.c.slots[k].cur.value, ToIdle) else s'.mu == MuIdle)
            && (s.mu.FRenew? ==>
                  if k < |s.w.c.slots| && s.w.c.slots[k].cur.Some? && s.w.c.slots[k].cur.value.id == s.mu.id && s.w.c.slots[k].cur.value.conn == s.mu.conn
                  then s'.mu == VGate(k, s.w.c.slots[k].cur.value, s.mu.now, ForRenew) else s'.mu == MuIdle)
  {
    AtNext(steps, n);
  }

  /** RevokeResource ends the lease in its resource's slot exactly if it is of this generation. */
  lemma ResourceIsExact(steps: seq<Step>, n: nat)
    requires n < |steps| && steps[n].GoMu? && StateAt(steps, n).mu.FResource?
    ensures var (s, s') := (StateAt(steps, n), StateAt(steps, n + 1));
            && s'.w == s.w
            && ((forall j: nat :: !FirstFor(s.w.c.slots, s.mu.resource, j)) ==> s'.mu == MuIdle)
            && (forall j: nat :: FirstFor(s.w.c.slots, s.mu.resource, j) ==>
                  var cur := s.w.c.slots[j].cur;
                  s'.mu == if cur.Some? && cur.value.generation == s.mu.generation then MDrop(j, cur.value, ToIdle) else MuIdle)
  {
    hide FindSlot, FirstFor;
    AtNext(steps, n);
    FirstIs(StateAt(steps, n).w.c.slots, StateAt(steps, n).mu.resource);
  }

  lemma FirstIs(slots: seq<Slot>, resource: string)
    ensures var k := FindSlot(slots, resource);
            && (k < |slots| ==> FirstFor(slots, resource, k))
            && forall j: nat :: FirstFor(slots, resource, j) ==> j == k < |slots|
  {
    FirstSlot(slots, resource);
    var k := FindSlot(slots, resource);
    assert k < |slots| ==> slots[k].resource == resource;
  }

  // The slot of a resource.
  predicate FirstFor(slots: seq<Slot>, resource: string, j: nat) {
    j < |slots| && slots[j].resource == resource && forall i :: 0 <= i < j ==> slots[i].resource != resource
  }

  lemma {:induction false} FirstSlot(slots: seq<Slot>, resource: string)
    ensures var k := FindSlot(slots, resource);
            && (k < |slots| ==> slots[k].resource == resource)
            && forall i :: 0 <= i < k ==> slots[i].resource != resource
  {
    if slots != [] && slots[0].resource != resource {
      FirstSlot(slots[1..], resource);
      var k := FindSlot(slots, resource);
      forall i | 0 <= i < k ensures slots[i].resource != resource { if i > 0 { assert slots[i] == slots[1..][i - 1]; } }
    }
  }
}
