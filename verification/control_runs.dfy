/** Every step of every thread keeps the invariant, hence every run does. */
module ControlStepProof {
  import opened Wrappers
  import opened ControlTypes
  import opened ControlProtocol
  import opened ControlInvariant
  import opened ControlProof
  import opened ControlMuProof
  import opened ControlWorldProof

  lemma Gives(s: State)
    requires Inv(s)
    ensures Core(s.w) && Fits(s.mu) && FactsOk(s.w, FactsOf(s.mu)) && ReaderInv(s.w, s.reader)
    ensures GateInv(s.w.g, s.w.c.rv) && CellsInv(s.w.c)
  {
  }

  lemma Moved(s: State, s': State)
    requires Inv(s) && s'.w == s.w && s'.reader == s.reader && Fits(s'.mu) && FactsOk(s.w, FactsOf(s'.mu))
    ensures Inv(s')
  {
    hide Core, ReaderInv, FactsOk, Fits;
  }

  lemma Changed(s: State, s': State)
    requires Inv(s) && s'.reader == s.reader && Evolve(s.w, s'.w)
    requires Core(s'.w) && Fits(s'.mu) && FactsOk(s'.w, FactsOf(s'.mu))
    ensures Inv(s')
  {
    hide Core, ReaderInv, FactsOk, Fits, Evolve;
    ReaderKeeps(s.w, s'.w, s.reader);
  }

  // Same cells, same gate.
  lemma Unmoved(w: World, w': World)
    requires Core(w) && w'.c == w.c && w'.g == w.g
    ensures Core(w') && Evolve(w, w')
  {
    hide GateInv, CellsInv, EpochInv;
  }

  // The cells changed, the gate did not.
  lemma Cellwise(w: World, c: Cells)
    requires Core(w) && CellsInv(c) && Onward(w.c.place, c.place) && c.rv == w.c.rv
    requires EpochInv(c.place, w.g.gate.epoch)
    ensures Core(w.(c := c)) && Evolve(w, w.(c := c))
  {
    hide GateInv, CellsInv, EpochInv, Onward;
  }

  // ------------------------------------------------------------------ Acquire

  lemma SlotAppends(s: State)
    requires Inv(s) && s.mu.ASlot? && FindSlot(s.w.c.slots, s.mu.req.resource) == |s.w.c.slots|
    requires |s.w.c.slots| < MAX_SLOTS
    ensures Inv(AcquireGo(s))
  {
    hide Inv, Core, FactsOk, CellsInv, GateInv, EpochInv, Onward, AddSlot, Evolve;
    Gives(s);
    AddSlotCells(s.w.c, s.mu.req.resource);
    AddSlotFacts(s.w, s.mu.req.resource);
    AddSlotSame(s.w.c, s.mu.req.resource, s.w.g.gate.epoch, s.w);
    Cellwise(s.w, AddSlot(s.w.c, s.mu.req.resource));
    Changed(s, AcquireGo(s));
  }

  lemma AddSlotSame(c: Cells, resource: string, epoch: nat, w: World)
    requires Core(w) && c == w.c && epoch == w.g.gate.epoch
    ensures AddSlot(c, resource).rv == c.rv && EpochInv(AddSlot(c, resource).place, epoch)
  {
  }

  lemma SlotFound(w: World, req: Request, now: nat, k: nat)
    requires FactsOk(w, FactsOf(ASlot(req, now))) && k < |w.c.slots| && w.c.slots[k].resource == req.resource
    ensures FactsOk(w, FactsOf(ALoad(Acq(req, now, k)))) && Fits(ALoad(Acq(req, now, k)))
  {
    hide IssueFacts, QuietFacts, DrainFacts, LookFacts, LeaseFacts, GrantFacts;
    Reslot(w, FactsOf(ASlot(req, now)), FactsOf(ALoad(Acq(req, now, k))));
  }

  lemma EnteringIs(req: Request, now: nat)
    ensures FactsOf(ASlot(req, now)) == Entering() && FactsOf(ADrain(req)) == Fresh(Nothing)
    ensures FactsOf(ADraining(req)) == Fresh(Nothing).(draining := true) && FactsOf(AStop(req)) == Fresh(Nothing)
    ensures FactsOf(SDrain) == Fresh(Nothing.(shutdown := true))
    ensures FactsOf(SDraining) == Fresh(Nothing.(shutdown := true)).(draining := true)
    ensures Fits(ADraining(req)) && Fits(SDraining) && Fits(AStop(req))
  {
    hide FactsOf;
    AtSlot(req, now);
    AtDrain(req);
    AtDraining(req);
    AtStop(req);
    AtStopDrain();
    AtStopDraining();
  }

  lemma AcquireKeeps(s: State)
    requires Inv(s)
    requires s.mu.AEnter? || s.mu.ADrain? || s.mu.AStop? || s.mu.AClock? || s.mu.AGate? || s.mu.ASlot? || s.mu.ALoad?
    ensures Inv(AcquireGo(s))
  {
    hide Inv, FactsOk, Core, CellsInv, GateInv, FactsOf, Fits, ReaderInv, AddSlot;
    Gives(s);
    match s.mu
    case ADrain(req) =>
      if s.w.c.drain.DFree? {
        EnteringIs(req, 0);
        StartDrain(s.w, FactsOf(s.mu), s.reader);
        Assemble(AcquireGo(s));
      }
    case ASlot(req, now) =>
      var k := FindSlot(s.w.c.slots, req.resource);
      if k < |s.w.c.slots| {
        SlotFound(s.w, req, now, k);
        Moved(s, AcquireGo(s));
      } else if k >= MAX_SLOTS {
        EnteringIs(req, now);
        Idle(s.w, FactsOf(s.mu));
        Moved(s, AcquireGo(s));
      } else {
        SlotAppends(s);
      }
    case ALoad(a) => LocalLoad(s); Moved(s, AcquireGo(s));
    case _ => LocalAcquire(s); Moved(s, AcquireGo(s));
  }

  // ------------------------------------------------------------------ validity check and renewal

  lemma RenewKeeps(s: State)
    requires Inv(s) && s.mu.MRenew? && Holds(s.w.c, s.mu.k, s.mu.l)
    ensures Inv(CheckGo(s))
  {
    hide Inv, FactsOk, Core, CellsInv, GateInv, EpochInv, FactsOf, ReaderInv, Onward, Evolve;
    Gives(s);
    var l := s.mu.l;
    RenewCells(s.w.c, s.mu.k, l, s.mu.now + l.ttl);
    RenewedFacts(s.w, s.mu.k, l, s.mu.now);
    SameCells(s.w.c);
    CoreEpoch(s.w);
    Cellwise(s.w, Renewed(s.w.c, s.mu.k, l.(deadline := s.mu.now + l.ttl)));
    Changed(s, CheckGo(s));
  }

  lemma CoreEpoch(w: World)
    requires Core(w)
    ensures EpochInv(w.c.place, w.g.gate.epoch)
  {
  }

  lemma RenewingIs(mu: Mu)
    requires mu.MRenew? || mu.MRenewFresh? || mu.IWithdraw? || mu.IBump? || mu.IRevoked?
    ensures var f := FactsOf(mu); !f.draining && f.birth.None? && f.dropped == []
  {
  }

  lemma CheckKeeps(s: State)
    requires Inv(s)
    requires s.mu.VGate? || s.mu.VFloor? || s.mu.VFresh? || s.mu.VHolds? || s.mu.MRenew? || s.mu.MRenewFresh?
    ensures Inv(CheckGo(s))
  {
    hide Inv, FactsOk, Core, CellsInv, GateInv, FactsOf, Fits, ReaderInv, LeaseStateAt, Decide, MarkFresh;
    Gives(s);
    match s.mu
    case MRenew(k, l, now) =>
      if Holds(s.w.c, k, l) { RenewKeeps(s); } else {
        RenewingIs(s.mu);
        Idle(s.w, FactsOf(s.mu));
        Moved(s, CheckGo(s));
      }
    case MRenewFresh(k, now) =>
      if k < |s.w.c.slots| {
        RenewingIs(s.mu);
        MarkKeeps(s.w, k, now, FactsOf(s.mu), s.reader);
        Idle(CheckGo(s).w, FactsOf(s.mu));
        Assemble(CheckGo(s));
      }
    case VFresh(k, _, _, _, _, _) => if k < |s.w.c.slots| { LocalDecide(s); Moved(s, CheckGo(s)); }
    case VHolds(_, _, _) => LocalHolds(s); Moved(s, CheckGo(s));
    case _ => LocalCheck(s); Moved(s, CheckGo(s));
  }

  // ------------------------------------------------------------------ ending leases

  lemma DropFits(s: State)
    requires Fits(s.mu) && (s.mu.MDrop? || s.mu.MPreempt?) && FactsOk(s.w, FactsOf(s.mu))
    requires s.mu.MDrop? ==> Holds(s.w.c, s.mu.k, s.mu.l)
    requires s.mu.MPreempt? ==> Holds(s.w.c, s.mu.a.k, s.mu.l)
    ensures var f, f' := FactsOf(s.mu), FactsOf(EndGo(s).mu);
            && f' == f.(nilOr := None, empty := f'.empty, dropped := f.dropped + [s.mu.l])
            && Less(Some(if s.mu.MDrop? then s.mu.k else s.mu.a.k), f'.empty)
            && f.birth.None? && f.stored.None? && f.sure.None? && f.cell.None? && f.guard.None? && f.quiet.None? && f.over.None?
            && Fits(EndGo(s).mu)
  {
    hide FactsOk, Take, Resume;
  }

  lemma DropKeeps(s: State)
    requires Inv(s) && (s.mu.MDrop? || s.mu.MPreempt?)
    requires s.mu.MDrop? ==> Holds(s.w.c, s.mu.k, s.mu.l)
    requires s.mu.MPreempt? ==> Holds(s.w.c, s.mu.a.k, s.mu.l)
    ensures Inv(EndGo(s))
  {
    hide Inv, FactsOk, Core, CellsInv, GateInv, EpochInv, FactsOf, ReaderInv, Evolve, Fits, Take;
    Gives(s);
    DropFits(s);
    Dropping(s.w, if s.mu.MDrop? then s.mu.k else s.mu.a.k, s.mu.l, FactsOf(s.mu), FactsOf(EndGo(s).mu));
    Changed(s, EndGo(s));
  }

  lemma EndIs(d: seq<Lease>, c: Cont)
    requires Fits(MEnd(d, c))
    ensures var f, f' := FactsOf(MEnd(d, c)), FactsOf(MNotify(d, c));
            f' == f.(spent := Some(Range(0, 1))) && f.spent == Some(Range(0, 0)) && Fits(MNotify(d, c))
  {
  }

  lemma NotifyIs(d: seq<Lease>, c: Cont)
    requires d != []
    ensures var f := FactsOf(MNotify(d, c));
            && f.dropped == d && FactsOf(MNotify(d[1..], c)) == f.(dropped := d[1..])
            && f.birth.None? && f.stored.None? && f.quiet.None? && f.over.None? && Fits(MNotify(d[1..], c))
  {
  }

  lemma SpentIs(w: World, f: Facts)
    requires FactsOk(w, f) && f.spent.Some?
    ensures f.spent.value.lo <= w.spent <= f.spent.value.hi
  {
  }

  lemma BoundaryKeeps(s: State)
    requires Inv(s) && s.mu.MEnd?
    ensures Inv(EndGo(s))
  {
    hide Inv, FactsOk, Core, CellsInv, GateInv, FactsOf, Fits, ReaderInv, Evolve, Take, Tell, Bump, Resume;
    Gives(s);
    var d, c := s.mu.dropped, s.mu.cont;
    EndIs(d, c);
    SpentIs(s.w, FactsOf(s.mu));
    if s.w.g.gate.st == Normal {
      Bumped(s.w, FactsOf(s.mu), FactsOf(MNotify(d, c)), s.reader);
      Changed(s, EndGo(s));
    } else {
      Respend(s.w, s.w.spent, FactsOf(s.mu), FactsOf(MNotify(d, c)));
      Moved(s, EndGo(s));
    }
  }

  lemma EndKeeps(s: State)
    requires Inv(s) && (s.mu.MDrop? || s.mu.MPreempt? || s.mu.MEnd? || s.mu.MNotify?)
    ensures Inv(EndGo(s))
  {
    hide Inv, FactsOk, Core, CellsInv, GateInv, FactsOf, Fits, ReaderInv, Evolve, Take, Tell, Bump, Resume;
    Gives(s);
    match s.mu
    case MDrop(k, l, _) =>
      if Holds(s.w.c, k, l) { DropKeeps(s); } else { LocalMiss(s); Moved(s, EndGo(s)); }
    case MPreempt(a, l) =>
      if Holds(s.w.c, a.k, l) { DropKeeps(s); } else { LocalMissPreempt(s); Moved(s, EndGo(s)); }
    case MEnd(_, _) => BoundaryKeeps(s);
    case MNotify(d, c) =>
      if d == [] { LocalDone(s); Moved(s, EndGo(s)); } else {
        NotifyIs(d, c);
        Telling(s.w, FactsOf(s.mu));
        Changed(s, EndGo(s));
      }
  }

  // ------------------------------------------------------------------ issuing

  lemma BumpIs(a: Acq, how: How, ep: nat)
    ensures var f, f' := FactsOf(IBump(a, how)), FactsOf(IPend(a, how, ep));
            && f' == f.(spent := f'.spent, token := Some(ep)) && f.token.None? && f.cleared.None?
            && f.spent == Some(Limit(how, 0)) && f'.spent == Some(Limit(how, 1)) && Fits(IPend(a, how, ep))
  {
  }

  lemma GrantsBelow(w: World, f: Facts)
    requires FactsOk(w, f)
    ensures forall i :: 0 <= i < |w.grants| ==> w.grants[i].lease.epoch < w.g.gate.epoch + 1
  {
  }

  lemma BumpedNext(s: State)
    requires Inv(s) && s.mu.IBump? && s.w.g.gate.st == Normal
    ensures Inv(IssueGo(s, 0))
  {
    hide Inv, FactsOk, Core, CellsInv, GateInv, FactsOf, Fits, ReaderInv, Evolve;
    Gives(s);
    var f := FactsOf(s.mu);
    var f' := f.(spent := Some(Limit(s.mu.how, 1)));
    BumpIs(s.mu.a, s.mu.how, s.w.g.gate.epoch + 1);
    SpentIs(s.w, f);
    GrantsBelow(s.w, f);
    Bumped(s.w, f, f', s.reader);
    Retoken(IssueGo(s, 0).w, f', s.w.g.gate.epoch + 1);
    Changed(s, IssueGo(s, 0));
  }

  lemma MintEpoch(w: World, k: nat, l: Lease, f: Facts)
    requires Core(w) && FactsOk(w, f) && f.token == Some(l.epoch) && l.id !in w.c.place
    ensures EpochInv(Mint(w.c, k, l).place, w.g.gate.epoch) && Mint(w.c, k, l).rv == w.c.rv
  {
  }

  lemma MintIs(a: Acq, how: How, ep: nat, seen: nat, id: nat)
    ensures FactsOf(IRevoked(a, how, ep, seen)).token == Some(ep)
    ensures Fits(IFresh(a, how, NewLease(a, id, ep), seen))
  {
  }

  lemma MintNext(s: State, id: nat)
    requires Inv(s) && s.mu.IRevoked? && s.mu.a.k < |s.w.c.slots| && id !in s.w.c.place
    requires s.w.c.slots[s.mu.a.k].revoked.None?
    ensures Inv(IssueGo(s, id))
  {
    hide Inv, FactsOk, Core, CellsInv, GateInv, EpochInv, FactsOf, Fits, ReaderInv, Evolve, Onward, Mint;
    Gives(s);
    var IRevoked(a, how, ep, seen) := s.mu;
    var l := NewLease(a, id, ep);
    MintIs(a, how, ep, seen, id);
    MintCells(s.w.c, a.k, l);
    MintEpoch(s.w, a.k, l, FactsOf(s.mu));
    MintedFacts(s.w, a, how, l, seen);
    Cellwise(s.w, Mint(s.w.c, a.k, l));
    Changed(s, IssueGo(s, id));
  }

  lemma StoreReady(w: World, a: Acq, how: How, l: Lease, seen: nat)
    requires Core(w) && FactsOk(w, FactsOf(IStore(a, how, l, seen)))
    ensures a.k < |w.c.slots| && w.c.slots[a.k].cur.None? && w.c.slots[a.k].revoked.None? && !Filling(w.c.rv, a.k)
    ensures At1(w.c.place, l, New, a.k)
    ensures EpochInv(Store(w.c, a.k, l).place, w.g.gate.epoch) && Store(w.c, a.k, l).rv == w.c.rv
  {
    hide CellsInv, GateInv, QuietFacts, DrainFacts, LookFacts, GrantFacts;
  }

  lemma StoreIs(a: Acq, how: How, l: Lease, seen: nat)
    requires Fits(IFresh(a, how, l, seen)) || Fits(IStore(a, how, l, seen))
    ensures FactsOf(IFresh(a, how, l, seen)) == FactsOf(IStore(a, how, l, seen)) && Fits(IStore(a, how, l, seen))
    ensures Fits(IGate(a, how, l, seen))
  {
    hide FactsOf;
    AtFresh(a, how, l, seen);
    AtStore(a, how, l, seen);
  }

  lemma StoreNext(s: State)
    requires Inv(s) && s.mu.IStore?
    ensures Inv(IssueGo(s, 0))
  {
    hide Inv, FactsOk, Core, CellsInv, GateInv, EpochInv, FactsOf, Fits, ReaderInv, Evolve, Onward, Store;
    Gives(s);
    var IStore(a, how, l, seen) := s.mu;
    StoreReady(s.w, a, how, l, seen);
    StoreIs(a, how, l, seen);
    StoreCells(s.w.c, a.k, l);
    StoredFacts(s.w, a, how, l, seen);
    Cellwise(s.w, Store(s.w.c, a.k, l));
    Changed(s, IssueGo(s, 0));
  }

  lemma IdleFits()
    ensures Fits(MuIdle) && FactsOf(MuIdle) == Nothing
  {
  }

  lemma GrantNext(s: State)
    requires Inv(s) && s.mu.IReSeq? && s.w.g.seqno == s.mu.seen
    ensures Inv(IssueGo(s, 0))
  {
    hide Inv, FactsOk, Core, CellsInv, GateInv, EpochInv, FactsOf, Fits, ReaderInv, Evolve;
    Gives(s);
    AtReSeq(s.mu.a, s.mu.how, s.mu.l, s.mu.seen);
    GrantedFacts(s.w, s.mu.a, s.mu.how, s.mu.l, s.mu.seen);
    IdleFits();
    Unmoved(s.w, IssueGo(s, 0).w);
    Changed(s, IssueGo(s, 0));
  }

  lemma WithdrawIs(k: nat, l: Lease, a: Acq, how: How, seen: nat)
    ensures var f := FactsOf(IWithdraw(k, l));
            f.ungranted == Some(l.id) && f.dropped == [] && f.birth.None? && !f.draining
    ensures var f, f' := FactsOf(IReSeq(a, how, l, seen)), FactsOf(IWithdraw(a.k, l));
            LessSlots(f, f') && LessIssue(f, f') && LessRest(f, f') && f'.guard.None? && Fits(IWithdraw(a.k, l))
  {
    hide FactsOf;
    AtReSeq(a, how, l, seen);
    AtWithdraw(a.k, l);
    AtWithdraw(k, l);
  }

  lemma WithdrawNext(s: State)
    requires Inv(s) && s.mu.IWithdraw?
    ensures Inv(IssueGo(s, 0))
  {
    hide Inv, FactsOk, Core, CellsInv, GateInv, EpochInv, FactsOf, Fits, ReaderInv, Evolve, Take, LessSlots, LessIssue, LessRest;
    Gives(s);
    var k, l := s.mu.k, s.mu.l;
    WithdrawIs(k, l, Acq(Request(0, AI, "", 0, "", 0, 0), 0, 0), Plain, 0);
    IdleFits();
    if Holds(s.w.c, k, l) {
      Withdrawing(s.w, k, l, FactsOf(s.mu));
      Changed(s, IssueGo(s, 0));
    } else {
      Idle(s.w, FactsOf(s.mu));
      Moved(s, IssueGo(s, 0));
    }
  }

  lemma IDrainIs(a: Acq, how: How, ep: nat)
    ensures var f := FactsOf(IDrain(a, how, ep));
            FactsOf(IDraining(a, how, ep)) == f.(draining := true, cleared := f.token) && Fits(IDraining(a, how, ep))
  {
  }

  lemma IssueKeepsMu(s: State, id: nat)
    requires Inv(s)
    requires s.mu.IBump? || s.mu.IPend? || s.mu.IDrain? || s.mu.ISeq? || s.mu.IRevoked?
    ensures Inv(IssueGo(s, id))
  {
    hide Inv, FactsOk, Core, CellsInv, GateInv, FactsOf, Fits, ReaderInv, Evolve, Bump, Mint, NewLease;
    Gives(s);
    match s.mu
    case IBump(_, _) =>
      if s.w.g.gate.st == Normal { BumpedNext(s); } else {
        RenewingIs(s.mu);
        Idle(s.w, FactsOf(s.mu));
        Moved(s, IssueGo(s, id));
      }
    case IPend(_, _, _) => LocalPend(s, id); Moved(s, IssueGo(s, id));
    case IDrain(a, how, ep) =>
      if s.w.c.drain.DFree? {
        IDrainIs(a, how, ep);
        StartDrain(s.w, FactsOf(s.mu), s.reader);
        Assemble(IssueGo(s, id));
      }
    case ISeq(_, _, _) => LocalSeq(s, id); Moved(s, IssueGo(s, id));
    case IRevoked(a, _, _, _) =>
      if a.k < |s.w.c.slots| && id !in s.w.c.place {
        if s.w.c.slots[a.k].revoked.None? { MintNext(s, id); } else {
          RenewingIs(s.mu);
          Idle(s.w, FactsOf(s.mu));
          Moved(s, IssueGo(s, id));
        }
      }
  }

  lemma PublishKeeps(s: State, id: nat)
    requires Inv(s)
    requires s.mu.IFresh? || s.mu.IStore? || s.mu.IGate? || s.mu.IReSeq? || s.mu.IWithdraw?
    ensures Inv(IssueGo(s, id))
  {
    hide Inv, FactsOk, Core, CellsInv, GateInv, FactsOf, Fits, ReaderInv, Evolve, MarkFresh, Store, Take, Holds, LessSlots, LessIssue, LessRest;
    Gives(s);
    match s.mu
    case IFresh(a, how, l, seen) =>
      if a.k < |s.w.c.slots| {
        StoreIs(a, how, l, seen);
        MarkKeeps(s.w, a.k, a.now, FactsOf(s.mu), s.reader);
        Assemble(IssueGo(s, id));
      }
    case IStore(_, _, _, _) => StoreNext(s);
    case IGate(_, _, _, _) => LocalPublished(s, id); Moved(s, IssueGo(s, id));
    case IReSeq(a, how, l, seen) =>
      if s.w.g.seqno == seen { GrantNext(s); } else {
        WithdrawIs(a.k, l, a, how, seen);
        Weaken(s.w, FactsOf(s.mu), FactsOf(IWithdraw(a.k, l)));
        Moved(s, IssueGo(s, id));
      }
    case IWithdraw(_, _) => WithdrawNext(s);
  }

  // ------------------------------------------------------------------ batches, Stop, snapshots

  lemma BatchIs(m: Match, i: nat, n: nat, d: seq<Lease>, final: bool, l: Lease)
    requires i < n && (final ==> m.All?)
    ensures var f, f' := FactsOf(BCas(m, i, n, d, final, l)), FactsOf(BScan(m, i, n, d + [l], final));
            && f' == f.(nilOr := None, empty := None, dropped := f.dropped + [l])
            && f.birth.None? && f.stored.None? && f.sure.None? && f.cell.None? && f.guard.None? && f.quiet.None? && f.over.None?
    ensures Fits(BScan(m, i + 1, n, d + [l], final))
  {
    hide FactsOf;
    AtCas(m, i, n, d, final, l);
    AtScan(m, i, n, d + [l], final);
  }

  lemma BatchFits(m: Match, i: nat, n: nat, d: seq<Lease>, final: bool, l: Lease)
    ensures Fits(BCas(m, i, n, d, final, l)) ==> i < n && (final ==> m.All?)
    ensures Fits(MEnd(d, ToIdle)) && Fits(MuIdle) && FactsOf(MuIdle) == Nothing
  {
  }

  lemma BatchTakes(s: State)
    requires Inv(s) && s.mu.BCas? && Holds(s.w.c, s.mu.i, s.mu.l)
    ensures Inv(BatchGo(s))
  {
    hide Inv, FactsOk, Core, CellsInv, GateInv, EpochInv, FactsOf, Fits, ReaderInv, Evolve;
    Gives(s);
    var BCas(m, i, n, d, final, l) := s.mu;
    BatchFits(m, i, n, d, final, l);
    BatchIs(m, i, n, d, final, l);
    Dropping(s.w, i, l, FactsOf(s.mu), FactsOf(BScan(m, i, n, d + [l], final)));
    ScanSkip(BatchGo(s).w, m, i, n, d + [l], final);
    Changed(s, BatchGo(s));
  }

  lemma CountIs(w: World, m: Match, i: nat, n: nat, d: seq<Lease>, final: bool)
    requires FactsOk(w, FactsOf(BScan(m, i, n, d, final)))
    ensures n == |w.c.slots|
  {
    hide IssueFacts, QuietFacts, DrainFacts, LookFacts, LeaseFacts, GrantFacts;
  }

  lemma BatchKeeps(s: State)
    requires Inv(s) && (s.mu.BScan? || s.mu.BCas?)
    ensures Inv(BatchGo(s))
  {
    hide Inv, FactsOk, Core, CellsInv, GateInv, FactsOf, Fits, ReaderInv, Evolve, Take;
    Gives(s);
    match s.mu
    case BScan(m, i, n, d, final) =>
      CountIs(s.w, m, i, n, d, final);
      if i >= n {
        BatchFits(m, i, n, d, final, NewLease(Acq(Request(0, AI, "", 0, "", 0, 0), 0, 0), 0, 0));
        Scanned(s.w, m, i, n, d, final);
        Unmoved(s.w, BatchGo(s).w);
        Changed(s, BatchGo(s));
      } else {
        LocalScan(s);
        Moved(s, BatchGo(s));
      }
    case BCas(m, i, n, d, final, l) =>
      if Holds(s.w.c, i, l) { BatchTakes(s); } else { LocalMissBatch(s); Moved(s, BatchGo(s)); }
  }

  lemma FindKeeps(s: State, k: nat)
    requires Inv(s) && (s.mu.FRenew? || s.mu.FRelease? || s.mu.FResource? || s.mu.FExpire? || s.mu.SDrain?)
    ensures Inv(FindGo(s, k))
  {
    hide Inv, FactsOk, Core, CellsInv, GateInv, FactsOf, Fits, ReaderInv, Evolve;
    Gives(s);
    if s.mu.SDrain? {
      if s.w.c.drain.DFree? {
        EnteringIs(Request(0, AI, "", 0, "", 0, 0), 0);
        StartDrain(s.w, FactsOf(s.mu), s.reader);
        Assemble(FindGo(s, k));
      }
    } else {
      LocalFind(s, k);
      Moved(s, FindGo(s, k));
    }
  }

  lemma SnapKeeps(s: State)
    requires Inv(s)
    requires s.mu.NSeq? || s.mu.NGate? || s.mu.NCur? || s.mu.NGate2? || s.mu.NSeq2? || s.mu.NFloor? || s.mu.NFresh? || s.mu.NDone?
    ensures Inv(SnapGo(s))
  {
    hide Inv, FactsOk, Core, CellsInv, GateInv, FactsOf, Fits, ReaderInv, Evolve, SnapGo;
    Gives(s);
    if s.mu.NSeq? || s.mu.NGate? || s.mu.NCur? { LocalSample(s); }
    else if s.mu.NGate2? || s.mu.NSeq2? { LocalResample(s); }
    else { LocalAnswer(s); }
    SnapWorld(s);
    Moved(s, SnapGo(s));
  }

  lemma SnapWorld(s: State)
    ensures SnapGo(s).w == s.w && SnapGo(s).reader == s.reader
  {
  }
}
