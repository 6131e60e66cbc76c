/** What holds over whole runs of the control-lease protocol. */
module ControlRuns {
  import opened Wrappers
  import opened ControlTypes
  import opened ControlProtocol
  import opened ControlInvariant
  import opened ControlProof
  import opened ControlMuProof
  import opened ControlWorldProof
  import opened ControlStepProof

  // ------------------------------------------------------------------ one step

  lemma StartFacts(w: World)
    requires FactsOk(w, Nothing)
    ensures FactsOk(w.(spent := 0), Plainly())
  {
  }

  lemma StartBatch(w: World, m: Match)
    requires FactsOk(w, Plainly())
    ensures FactsOk(w, FactsOf(BScan(m, 0, |w.c.slots|, [], false))) && Fits(BScan(m, 0, |w.c.slots|, [], false))
  {
    hide FactsOf, IssueFacts, QuietFacts, DrainFacts, LookFacts, LeaseFacts, GrantFacts;
    AtScan(m, 0, |w.c.slots|, [], false);
    Reslot(w, Plainly(), Scanning(0, |w.c.slots|, [], false));
  }

  lemma StartStop(w: World)
    requires FactsOk(w, Plainly()) && w.stopping
    ensures FactsOk(w, FactsOf(SDrain)) && Fits(SDrain)
  {
    hide FactsOf, IssueFacts, QuietFacts, DrainFacts, LookFacts, LeaseFacts, GrantFacts;
    AtStopDrain();
    Reslot(w, Plainly(), Plainly().(shutdown := true));
  }

  lemma StartIs(mu: Mu)
    requires mu.AEnter? || mu.FRenew? || mu.FRelease? || mu.FResource? || mu.FExpire?
    ensures FactsOf(mu) == Plainly() && Fits(mu)
  {
  }

  lemma StartSnap(w: World, r: string)
    requires FactsOk(w, Plainly())
    ensures FactsOk(w, FactsOf(NSeq(r))) && Fits(NSeq(r))
  {
    hide FactsOk, FactsOf;
    AtSample(r);
    Weaken(w, Plainly(), Nothing);
  }

  lemma StartKeeps(s: State, op: MuOp)
    requires Inv(s)
    ensures Inv(MuStart(s, op))
  {
    hide Inv, FactsOk, Core, CellsInv, GateInv, FactsOf, Fits, ReaderInv, Evolve;
    if s.mu.MuIdle? {
      var s' := MuStart(s, op);
      Gives(s);
      AtIdle();
      IdleFits();
      StartFacts(s.w);
      Unmoved(s.w, s.w.(spent := 0));
      match op {
        case OpRevoke(m) => StartBatch(s.w.(spent := 0), m);
        case OpSnapshot(r) => StartSnap(s.w.(spent := 0), r);
        case OpStop => if s.w.stopping { StartStop(s.w.(spent := 0)); } else { StartIdle(s.w); }
        case OpExpire(_, _, tick) => if tick <= s.w.now { StartIs(s'.mu); } else { StartIdle(s.w); }
        case _ => StartIs(s'.mu);
      }
      Changed(s, s');
    }
  }

  lemma StartIdle(w: World)
    requires FactsOk(w, Nothing)
    ensures FactsOk(w.(spent := 0), FactsOf(MuIdle))
  {
    hide FactsOk, FactsOf;
    AtIdle();
    Respend(w, 0, Nothing, Nothing);
  }

  lemma MuKeeps(s: State, id: nat, k: nat)
    requires Inv(s)
    ensures Inv(MuGo(s, id, k))
  {
    hide Inv, AcquireGo, CheckGo, EndGo, IssueGo, BatchGo, FindGo, SnapGo;
    if s.mu.AEnter? || s.mu.ADrain? || s.mu.AStop? || s.mu.AClock? || s.mu.AGate? || s.mu.ASlot? || s.mu.ALoad? {
      AcquireKeeps(s);
    } else if s.mu.VGate? || s.mu.VFloor? || s.mu.VFresh? || s.mu.VHolds? || s.mu.MRenew? || s.mu.MRenewFresh? {
      CheckKeeps(s);
    } else if s.mu.MDrop? || s.mu.MPreempt? || s.mu.MEnd? || s.mu.MNotify? {
      EndKeeps(s);
    } else if s.mu.IBump? || s.mu.IPend? || s.mu.IDrain? || s.mu.ISeq? || s.mu.IRevoked? {
      IssueKeepsMu(s, id);
    } else if s.mu.IFresh? || s.mu.IStore? || s.mu.IGate? || s.mu.IReSeq? || s.mu.IWithdraw? {
      PublishKeeps(s, id);
    } else if s.mu.BScan? || s.mu.BCas? {
      BatchKeeps(s);
    } else if s.mu.FRenew? || s.mu.FRelease? || s.mu.FResource? || s.mu.FExpire? || s.mu.SDrain? {
      FindKeeps(s, k);
    } else if s.mu.MuIdle? || s.mu.ADraining? || s.mu.IDraining? || s.mu.SDraining? {
    } else {
      SnapKeeps(s);
    }
  }

  // ------------------------------------------------------------------ the end of a drain run by mu

  lemma DrainEndFacts(w: World, f: Facts, r: Reader)
    requires Core(w) && FactsOk(w, f) && ReaderInv(w, r)
    requires w.c.drain.DAt? && DrainGo(w).c.drain.DFree?
    ensures Core(DrainGo(w)) && FactsOk(DrainGo(w), f.(draining := false, cleared := None)) && ReaderInv(DrainGo(w), r)
    ensures LeaseFacts(DrainGo(w), f) && SlotFacts(DrainGo(w), f)
  {
    hide ReaderInv, GateInv, Onward, DrainFacts, CellsInv, DrainGo, RelySlots;
    var w' := DrainGo(w);
    var f' := f.(draining := false, cleared := None);
    DrainWorld(w);
    EpochKeeps(w.c.place, w'.c.place, w.g.gate.epoch);
    ReaderKeeps(w, w', r);
    SlotKeeps(w, w', f);
    IssueKeeps(w, w', f);
    QuietKeeps(w, w', f);
    LeaseKeeps(w, w', f);
    GrantKeeps(w, w', f);
    LookKeeps(w, w', f);
    DrainEndDrain(w, f);
    Redrain(w', f, f');
  }

  lemma DrainEndDrain(w: World, f: Facts)
    requires w.c.drain.DAt? && DrainGo(w).c.drain.DFree?
    ensures DrainFacts(DrainGo(w), f.(draining := false, cleared := None))
  {
  }

  // The drain has emptied every hand-over cell, and RevokeAll has been idle ever since.
  lemma DrainedCell(w: World, a: Acq, how: How, ep: nat)
    requires CellsInv(w.c) && FactsOk(w, FactsOf(IDraining(a, how, ep)))
    requires w.c.drain.DAt? && DrainGo(w).c.drain.DFree? && w.g.gate == Gate(Normal, ep)
    ensures a.k < |w.c.slots| && DrainGo(w).c.slots == w.c.slots && w.c.slots[a.k].revoked.None? && w.c.slots[a.k].cur.None?
    ensures DrainGo(w).g == w.g
  {
    hide CurAt, RevokedAt, EndedAt, Filled, MidAt, DrainAt, QuietFacts, LookFacts, GrantFacts, LeaseFacts;
  }

  lemma IDrainingIs(a: Acq, how: How, ep: nat)
    ensures var f := FactsOf(IDraining(a, how, ep));
            && f.(draining := false, cleared := None) == Issuing(a, how, ep) && f.birth.None? && f.dropped == []
            && Issuing(a, how, ep).birth.None? && Issuing(a, how, ep).dropped == []
            && f.token == Some(ep) && Fits(ISeq(a, how, ep))
  {
  }

  lemma DrainedIssue(w: World, a: Acq, how: How, ep: nat, r: Reader)
    requires Core(w) && FactsOk(w, FactsOf(IDraining(a, how, ep))) && ReaderInv(w, r)
    requires w.c.drain.DAt? && DrainGo(w).c.drain.DFree?
    ensures Core(DrainGo(w)) && FactsOk(DrainGo(w), FactsOf(ISeq(a, how, ep))) && ReaderInv(DrainGo(w), r)
  {
    hide FactsOf, FactsOk, Core, CellsInv, ReaderInv, DrainGo, Issuing, Quieted, LeaseFacts, QuietFacts;
    var w' := DrainGo(w);
    DrainEndFacts(w, FactsOf(IDraining(a, how, ep)), r);
    IDrainingIs(a, how, ep);
    CoreGives(w);
    LeaseAndIssue(w', Issuing(a, how, ep));
    DrainGate(w);
    if w.g.gate == Gate(Normal, ep) {
      DrainedCell(w, a, how, ep);
      NothingLeft(w', Issuing(a, how, ep), ep, a.k);
    }
    QuietedFacts(w', a, how, ep);
    AtSeq(a, how, ep);
    Requiet(w', Issuing(a, how, ep), Quieted(a, how, ep));
  }

  lemma DrainGate(w: World)
    ensures DrainGo(w).g == w.g && (DrainGo(w).c.drain.DFree? ==> !DrainGo(w).c.drain.DHold?)
  {
  }

  lemma LeaseAndIssue(w: World, f: Facts)
    requires FactsOk(w, f)
    ensures LeaseFacts(w, f) && IssueFacts(w, f)
  {
  }

  lemma QuietedFacts(w: World, a: Acq, how: How, ep: nat)
    requires IssueFacts(w, Issuing(a, how, ep))
    requires w.g.gate == Gate(Normal, ep) ==> AllOver(w, Quiet(ep, a.k, None))
    ensures QuietFacts(w, Quieted(a, how, ep))
    ensures Quieted(a, how, ep) == Issuing(a, how, ep).(quiet := Quieted(a, how, ep).quiet, over := Quieted(a, how, ep).over)
  {
    hide AllOver;
  }

  lemma DrainedAcquire(w: World, req: Request, r: Reader)
    requires Core(w) && FactsOk(w, FactsOf(ADraining(req))) && ReaderInv(w, r)
    requires w.c.drain.DAt? && DrainGo(w).c.drain.DFree?
    ensures Core(DrainGo(w)) && FactsOk(DrainGo(w), FactsOf(AStop(req))) && ReaderInv(DrainGo(w), r) && Fits(AStop(req))
  {
    hide FactsOf, FactsOk, Core, CellsInv, ReaderInv, DrainGo;
    DrainEndFacts(w, FactsOf(ADraining(req)), r);
    EnteringIs(req, 0);
  }

  lemma DrainedStop(w: World, n: nat, r: Reader)
    requires Core(w) && FactsOk(w, FactsOf(SDraining)) && ReaderInv(w, r) && n == |w.c.slots|
    requires w.c.drain.DAt? && DrainGo(w).c.drain.DFree?
    ensures Core(DrainGo(w)) && FactsOk(DrainGo(w), FactsOf(BScan(All, 0, n, [], true))) && ReaderInv(DrainGo(w), r)
    ensures Fits(BScan(All, 0, n, [], true))
  {
    hide FactsOf, Core, CellsInv, ReaderInv, DrainGo, IssueFacts, QuietFacts, DrainFacts, LookFacts, LeaseFacts, GrantFacts;
    DrainEndFacts(w, FactsOf(SDraining), r);
    AtStopDraining();
    AtScan(All, 0, n, [], true);
    DrainSize(w);
    Reslot(DrainGo(w), Plainly().(shutdown := true), Scanning(0, n, [], true));
  }

  lemma DrainSize(w: World)
    ensures |DrainGo(w).c.slots| == |w.c.slots|
  {
  }

  lemma WhoDrains(w: World, mu: Mu)
    requires FactsOk(w, FactsOf(mu))
    ensures !w.c.drain.DFree? && w.c.drain.byMu ==> mu.ADraining? || mu.IDraining? || mu.SDraining?
    ensures FactsOf(mu).draining <==> !w.c.drain.DFree? && w.c.drain.byMu
  {
    hide SlotFacts, IssueFacts, QuietFacts, LookFacts, LeaseFacts, GrantFacts;
  }

  // The holder of mu waits for its own drain: the end of the drain moves it on.
  lemma OwnDrainKeeps(s: State)
    requires Inv(s) && s.w.c.drain.DAt? && s.w.c.drain.byMu && DrainGo(s.w).c.drain.DFree?
    ensures Inv(Do(s, GoDrain, true))
  {
    hide Inv, FactsOf, FactsOk, Fits, Core, CellsInv, GateInv, ReaderInv, DrainGo, RvGo, MuGo, MuStart, RearmGo, ReaderGo, EnvGo;
    var s' := Do(s, GoDrain, true);
    Gives(s);
    WhoDrains(s.w, s.mu);
    match s.mu
    case ADraining(req) => DrainedAcquire(s.w, req, s.reader); Assemble(s');
    case IDraining(a, how, ep) =>
      DrainedIssue(s.w, a, how, ep, s.reader);
      IDrainingIs(a, how, ep);
      Assemble(s');
    case SDraining => DrainedStop(s.w, |s.w.c.slots|, s.reader); Assemble(s');
  }

  lemma DrainKeepsInv(s: State)
    requires Inv(s)
    ensures Inv(Do(s, GoDrain, true))
  {
    hide Inv, FactsOf, FactsOk, Fits, Core, CellsInv, GateInv, ReaderInv, DrainGo, RvGo, MuGo, MuStart, RearmGo, ReaderGo, EnvGo;
    if s.w.c.drain.DAt? && s.w.c.drain.byMu && DrainGo(s.w).c.drain.DFree? {
      OwnDrainKeeps(s);
    } else {
      Gives(s);
      DrainPhase(s.w);
      WhoDrains(s.w, s.mu);
      DrainKeeps(s.w, FactsOf(s.mu), s.reader);
      Assemble(Do(s, GoDrain, true));
    }
  }

  lemma DrainPhase(w: World)
    ensures DrainGo(w).c.drain.DFree? ==> w.c.drain.DAt?
  {
  }

  // ------------------------------------------------------------------ every step, every run

  // A step that the holder of mu and the drainer have no part in.
  function Aside(s: State, step: Step): State {
    if step.GoRv? then s.(w := RvGo(s.w))
    else if step.GoRearm? then s.(w := RearmGo(s.w, step.i, true))
    else if step.GoReader? then s.(reader := ReaderGo(s.w, s.reader, step.k))
    else s.(w := EnvGo(s.w, step))
  }

  lemma AsideIs(s: State, step: Step)
    requires !step.StartMu? && !step.GoMu? && !step.GoDrain?
    ensures Do(s, step, true) == Aside(s, step)
  {
    hide DrainGo, RvGo, MuGo, MuStart, RearmGo, ReaderGo, EnvGo;
  }

  lemma AsideKeeps(s: State, step: Step)
    requires Inv(s)
    ensures Inv(Aside(s, step))
  {
    hide Inv, FactsOf, FactsOk, Fits, Core, CellsInv, GateInv, ReaderInv, RvGo, RearmGo, ReaderGo, EnvGo;
    Gives(s);
    if step.GoRv? { SupervisorKeeps(s.w, FactsOf(s.mu), s.reader); }
    else if step.GoRearm? { RearmKeeps(s.w, step.i, FactsOf(s.mu), s.reader); }
    else if step.GoReader? { ReaderStep(s.w, s.reader, step.k); }
    else { EnvKeeps(s.w, step, FactsOf(s.mu), s.reader); }
    Assemble(Aside(s, step));
  }

  lemma StepKeeps(s: State, step: Step)
    requires Inv(s)
    ensures Inv(Do(s, step, true))
  {
    hide Inv, DrainGo, RvGo, MuGo, MuStart, RearmGo, ReaderGo, EnvGo;
    match step
    case StartMu(op) => StartKeeps(s, op);
    case GoMu(id, k) => MuKeeps(s, id, k);
    case GoDrain => DrainKeepsInv(s);
    case _ => AsideIs(s, step); AsideKeeps(s, step);
  }

  /** Every state of every run, whatever the interleaving. */
  function StateAt(steps: seq<Step>, n: nat): State
    requires n <= |steps|
  {
    Exec(Init(), steps[..n], true)
  }

  lemma AtNext(steps: seq<Step>, n: nat)
    requires n < |steps|
    ensures StateAt(steps, n + 1) == Do(StateAt(steps, n), steps[n], true)
  {
    hide Do, Init;
    assert steps[..n + 1][..n] == steps[..n];
  }

  lemma {:induction false} RunInv(steps: seq<Step>, n: nat)
    requires n <= |steps|
    ensures Inv(StateAt(steps, n))
  {
    hide Inv, Do, Init;
    if n == 0 {
      InitInv(Init());
    } else {
      RunInv(steps, n - 1);
      AtNext(steps, n - 1);
      StepKeeps(StateAt(steps, n - 1), steps[n - 1]);
    }
  }
}
