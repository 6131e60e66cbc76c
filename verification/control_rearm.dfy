/** The re-arm path as the code has it, without the environment rule: the check of the settled stop
    phase and the swap of the gate are two steps, and nothing orders concurrent callers.

    What still holds, with how many callers, and exactly when a swap is safe.
 */
module ControlRearm {
  import opened Wrappers
  import opened ControlTypes
  import opened ControlProtocol
  import opened ControlInvariant
  import opened ControlRuns

  /** The states of a run of the code alone. */
  function CodeAt(steps: seq<Step>, n: nat): State
    requires n <= |steps|
  {
    Exec(Init(), steps[..n], false)
  }

  lemma CodeNext(steps: seq<Step>, n: nat)
    requires n < |steps|
    ensures CodeAt(steps, n + 1) == Do(CodeAt(steps, n), steps[n], false)
  {
    hide Do, Init;
    assert steps[..n + 1][..n] == steps[..n];
  }

  // ------------------------------------------------------------------ the leases that may still be accepted

  // The token of the issue in progress, until its lease is in the slot.
  function Token(mu: Mu): Option<nat> {
    match mu
    case IPend(_, _, ep) => Some(ep)
    case IDrain(_, _, ep) => Some(ep)
    case IDraining(_, _, ep) => Some(ep)
    case ISeq(_, _, ep) => Some(ep)
    case IRevoked(_, _, ep, _) => Some(ep)
    case IFresh(_, _, l, _) => Some(l.epoch)
    case IStore(_, _, l, _) => Some(l.epoch)
    case _ => None
  }

  ghost predicate InSlots(slots: seq<Slot>, e: nat) {
    exists k :: 0 <= k < |slots| && slots[k].cur.Some? && slots[k].cur.value.epoch == e
  }

  /** A lease of this epoch is in a slot, or being issued, or loaded by a check that has not read the gate. */
  ghost predicate Around(s: State, e: nat) {
    InSlots(s.w.c.slots, e) || Token(s.mu) == Some(e) || (s.reader.RLoaded? && s.reader.l.epoch == e)
  }

  ghost predicate NoneNew(slots: seq<Slot>, slots': seq<Slot>) {
    forall e: nat :: InSlots(slots', e) ==> InSlots(slots, e)
  }

  lemma SlotWise(slots: seq<Slot>, slots': seq<Slot>)
    requires forall k :: 0 <= k < |slots'| && slots'[k].cur.Some? ==>
                           k < |slots| && slots[k].cur.Some? && slots[k].cur.value.epoch == slots'[k].cur.value.epoch
    ensures NoneNew(slots, slots')
  {
  }

  predicate BumpTakes(s: State, step: Step) {
    step.GoMu? && s.w.g.gate.st == Normal && (s.mu.IBump? || s.mu.MEnd?)
  }

  ghost predicate Fewer(s: State, s': State) { forall e: nat :: Around(s', e) ==> Around(s, e) }

  // Neither the safety state nor RevokeAll has moved.
  predicate GateStill(s: State, s': State) { s'.w.g == s.w.g && s'.w.c.rv == s.w.c.rv }

  lemma CellsFewer(s: State, s': State)
    requires NoneNew(s.w.c.slots, s'.w.c.slots) && s'.reader == s.reader && (Token(s'.mu).None? || Token(s'.mu) == Token(s.mu))
    ensures Fewer(s, s')
  {
  }

  lemma AcquireFewer(s: State)
    ensures Fewer(s, AcquireGo(s)) && GateStill(s, AcquireGo(s))
  {
    hide InSlots, FindSlot;
    if s.mu.ASlot? { SlotWise(s.w.c.slots, AcquireGo(s).w.c.slots); }
    CellsFewer(s, AcquireGo(s));
  }

  lemma CheckFewer(s: State)
    ensures Fewer(s, CheckGo(s)) && GateStill(s, CheckGo(s))
  {
    hide InSlots, LeaseStateAt;
    if s.mu.MRenew? || s.mu.MRenewFresh? { SlotWise(s.w.c.slots, CheckGo(s).w.c.slots); }
    CellsFewer(s, CheckGo(s));
  }

  lemma EndFewer(s: State)
    ensures Fewer(s, EndGo(s)) && EndGo(s).w.c.rv == s.w.c.rv
    ensures EndGo(s).w.g == if s.mu.MEnd? && s.w.g.gate.st == Normal then Bump(s.w.g) else s.w.g
  {
    hide InSlots;
    if s.mu.MDrop? || s.mu.MPreempt? { SlotWise(s.w.c.slots, EndGo(s).w.c.slots); }
    CellsFewer(s, EndGo(s));
  }

  lemma BatchFewer(s: State)
    ensures Fewer(s, BatchGo(s)) && GateStill(s, BatchGo(s))
  {
    hide InSlots;
    if s.mu.BCas? { SlotWise(s.w.c.slots, BatchGo(s).w.c.slots); }
    CellsFewer(s, BatchGo(s));
  }

  lemma FindFewer(s: State, k: nat)
    ensures Fewer(s, FindGo(s, k)) && Fewer(s, SnapGo(s)) && GateStill(s, FindGo(s, k)) && GateStill(s, SnapGo(s))
  {
    hide InSlots, FindSlot;
    CellsFewer(s, FindGo(s, k));
    CellsFewer(s, SnapGo(s));
  }

  lemma IssueFewer(s: State, id: nat)
    ensures forall e: nat :: Around(IssueGo(s, id), e) ==>
              Around(s, e) || (s.mu.IBump? && s.w.g.gate.st == Normal && e == s.w.g.gate.epoch + 1)
    ensures IssueGo(s, id).w.c.rv == s.w.c.rv
    ensures IssueGo(s, id).w.g == if s.mu.IBump? && s.w.g.gate.st == Normal then Bump(s.w.g) else s.w.g
  {
    hide InSlots;
    var s' := IssueGo(s, id);
    if s.mu.IStore? && s.mu.a.k < |s.w.c.slots| { StoreFewer(s.w.c, s.mu.a.k, s.mu.l); }
    else if s.mu.IFresh? || s.mu.IWithdraw? { SlotWise(s.w.c.slots, s'.w.c.slots); }
  }

  lemma StoreFewer(c: Cells, k: nat, l: Lease)
    requires k < |c.slots|
    ensures forall e: nat :: InSlots(Store(c, k, l).slots, e) ==> InSlots(c.slots, e) || e == l.epoch
  {
  }

  lemma WorldFewer(s: State, step: Step, rule: bool)
    requires !step.GoMu? && !step.StartMu?
    ensures Fewer(s, Do(s, step, rule))
  {
    hide InSlots;
    match step
    case GoRv => SupervisorSlots(s.w); CellsFewer(s, Do(s, step, rule));
    case GoDrain => DrainSlots(s.w); CellsFewer(s, Do(s, step, rule));
    case GoReader(k) => ReaderFewer(s, k);
    case GoRearm(_) => CellsFewer(s, Do(s, step, rule));
    case _ => EnvSlots(s.w, step); CellsFewer(s, Do(s, step, rule));
  }

  lemma SupervisorSlots(w: World)
    ensures NoneNew(w.c.slots, RvGo(w).c.slots)
  {
    hide Placed, InSlots;
    SlotWise(w.c.slots, RvGo(w).c.slots);
  }

  lemma DrainSlots(w: World)
    ensures NoneNew(w.c.slots, DrainGo(w).c.slots)
  {
    hide Placed, InSlots;
    SlotWise(w.c.slots, DrainGo(w).c.slots);
  }

  lemma EnvSlots(w: World, step: Step)
    ensures NoneNew(w.c.slots, EnvGo(w, step).c.slots)
  {
    hide InSlots;
    SlotWise(w.c.slots, EnvGo(w, step).c.slots);
  }

  lemma ReaderFewer(s: State, k: nat)
    ensures Fewer(s, s.(reader := ReaderGo(s.w, s.reader, k)))
  {
  }

  /** The only new epoch a step can bring is the one it has just allocated under a Normal gate. */
  lemma AroundStep(s: State, step: Step, rule: bool, e: nat)
    requires Around(Do(s, step, rule), e)
    ensures Around(s, e) || (BumpTakes(s, step) && e == s.w.g.gate.epoch + 1)
  {
    hide Around, AcquireGo, CheckGo, EndGo, IssueGo, BatchGo, FindGo, SnapGo;
    match step
    case GoMu(id, k) =>
      AcquireFewer(s); CheckFewer(s); EndFewer(s); BatchFewer(s); FindFewer(s, k); IssueFewer(s, id);
    case StartMu(op) => StartFewer(s, op);
    case _ => WorldFewer(s, step, rule);
  }

  lemma StartFewer(s: State, op: MuOp)
    ensures Fewer(s, MuStart(s, op))
  {
    hide InSlots;
    CellsFewer(s, MuStart(s, op));
  }

  // ------------------------------------------------------------------ what holds without the rule

  ghost predicate GateSane(g: Safety, rv: Rv) {
    && 1 <= g.gate.epoch && g.lastTrip <= g.gate.epoch && (g.gate.st != Normal ==> g.lastTrip == g.gate.epoch)
    && g.floor <= g.halt <= g.gate.epoch && (g.gate.st == Normal ==> g.halt < g.gate.epoch)
    && (g.settled == 0 || g.settled == g.halt)
    && (rv.RvReady? ==> g.halt < rv.e <= g.gate.epoch && (g.gate.st == Normal ==> rv.e < g.gate.epoch))
    && (rv.RvPhase? || Sweeping(rv) ==> rv.e == g.halt && g.settled == 0)
    && (rv.RvPhase? || rv.RvOdd? || g.floor == g.halt)
  }

  /** What a caller's sample is worth. */
  ghost predicate SampleSane(g: Safety, re: Re) {
    && (re.ReSnap? || re.ReChecked? ==> 1 <= re.ep <= g.gate.epoch)
    && (re.ReChecked? && re.ep == g.gate.epoch ==> g.settled == re.ep)
  }

  ghost predicate Sane(s: State) {
    && GateSane(s.w.g, s.w.c.rv) && (forall i :: 0 <= i < |s.w.g.re| ==> SampleSane(s.w.g, s.w.g.re[i]))
    && forall e: nat :: Around(s, e) ==> e <= s.w.g.gate.epoch
  }

  /** Caller i's step swaps the gate. */
  predicate Swaps(w: World, step: Step, rule: bool) { step.GoRearm? && Arms(w, step.i) && (rule ==> Swept(w)) }

  // How far the safety state may move in one step.
  ghost predicate GateMove(g: Safety, g': Safety, swap: bool, bump: bool) {
    && g.gate.epoch <= g'.gate.epoch && g.floor <= g'.floor && g.lastTrip <= g'.lastTrip && g.halt <= g'.halt
    && (g'.gate.st == Normal ==> g'.lastTrip == g.lastTrip && (g.gate.st == Normal || swap))
    && (bump ==> g' == g.(gate := Gate(Normal, g.gate.epoch + 1)))
    && (g'.gate.epoch == g.gate.epoch ==> g'.settled == g.settled || g.settled == 0 || g'.halt > g.halt)
  }

  lemma SupervisorSane(w: World)
    requires GateSane(w.g, w.c.rv)
    ensures GateSane(RvGo(w).g, RvGo(w).c.rv) && GateMove(w.g, RvGo(w).g, false, false)
    ensures RvGo(w).g.re == w.g.re && (RvGo(w).g.settled == w.g.settled || w.g.halt < w.g.gate.epoch)
  {
  }

  lemma EnvSane(w: World, step: Step)
    requires GateSane(w.g, w.c.rv)
    ensures GateSane(EnvGo(w, step).g, EnvGo(w, step).c.rv) && GateMove(w.g, EnvGo(w, step).g, false, false)
    ensures EnvGo(w, step).g.re == w.g.re && (EnvGo(w, step).g.settled == w.g.settled || w.g.settled == 0)
  {
  }

  lemma RearmSane(w: World, i: nat, rule: bool)
    requires GateSane(w.g, w.c.rv)
    ensures GateSane(RearmGo(w, i, rule).g, RearmGo(w, i, rule).c.rv)
    ensures GateMove(w.g, RearmGo(w, i, rule).g, Swaps(w, GoRearm(i), rule), false)
  {
  }

  lemma MuGate(s: State, id: nat, k: nat)
    ensures var w' := MuGo(s, id, k).w;
            w'.c.rv == s.w.c.rv && w'.g == if BumpTakes(s, GoMu(id, k)) then Bump(s.w.g) else s.w.g
  {
    hide AcquireGo, CheckGo, EndGo, IssueGo, BatchGo, FindGo, SnapGo, Fewer, Around;
    AcquireFewer(s); CheckFewer(s); EndFewer(s); BatchFewer(s); FindFewer(s, k); IssueFewer(s, id);
  }

  lemma StillGate(s: State, op: MuOp)
    ensures MuStart(s, op).w.g == s.w.g && MuStart(s, op).w.c == s.w.c
    ensures DrainGo(s.w).g == s.w.g && DrainGo(s.w).c.rv == s.w.c.rv
  {
    hide Placed;
  }

  lemma GateStep(s: State, step: Step, rule: bool)
    requires GateSane(s.w.g, s.w.c.rv)
    ensures var w' := Do(s, step, rule).w;
            && GateSane(w'.g, w'.c.rv) && GateMove(s.w.g, w'.g, Swaps(s.w, step, rule), BumpTakes(s, step))
            && (!step.GoRearm? ==> w'.g.re == s.w.g.re)
            && (!step.GoRearm? ==> w'.g.settled == s.w.g.settled || s.w.g.settled == 0 || s.w.g.halt < s.w.g.gate.epoch)
  {
    hide RvGo, RearmGo, MuGo, MuStart, DrainGo, EnvGo, ReaderGo;
    match step
    case GoMu(id, k) => MuGate(s, id, k);
    case StartMu(op) => StillGate(s, op);
    case GoDrain => StillGate(s, OpStop);
    case GoRv => SupervisorSane(s.w);
    case GoRearm(i) => RearmSane(s.w, i, rule);
    case GoReader(_) =>
    case _ => EnvSane(s.w, step);
  }

  lemma SampleStep(g: Safety, g': Safety, re: Re)
    requires SampleSane(g, re) && g.gate.epoch <= g'.gate.epoch
    requires g'.settled == g.settled || g.settled == 0 || g.halt < g.gate.epoch
    requires re.ReChecked? && re.ep == g.gate.epoch ==> g.halt == re.ep && g.settled == re.ep
    ensures SampleSane(g', re)
  {
  }

  lemma RearmSamples(w: World, i: nat, rule: bool)
    ensures var re' := RearmGo(w, i, rule).g.re;
            && |w.g.re| <= |re'| && (forall j :: 0 <= j < |w.g.re| && j != i ==> re'[j] == w.g.re[j])
            && (forall j :: 0 <= j < |re'| && (j == i || j >= |w.g.re|) ==>
                  re'[j].ReIdle? || re'[j] == ReSnap(w.g.gate.epoch) ||
                  (i < |w.g.re| && w.g.re[i].ReSnap? && re'[j] == ReChecked(w.g.re[i].ep) && w.g.settled == w.g.re[i].ep))
    ensures RearmGo(w, i, rule).g.settled == w.g.settled
  {
  }

  lemma SamplesStep(s: State, step: Step, rule: bool, i: nat)
    requires GateSane(s.w.g, s.w.c.rv) && (forall i :: 0 <= i < |s.w.g.re| ==> SampleSane(s.w.g, s.w.g.re[i]))
    requires i < |Do(s, step, rule).w.g.re|
    ensures SampleSane(Do(s, step, rule).w.g, Do(s, step, rule).w.g.re[i])
  {
    hide RearmGo, RvGo, MuGo, MuStart, DrainGo, EnvGo, ReaderGo;
    GateStep(s, step, rule);
    if step.GoRearm? { RearmSamples(s.w, step.i, rule); }
    var g, g' := s.w.g, Do(s, step, rule).w.g;
    if i < |g.re| && g'.re[i] == g.re[i] { SampleStep(g, g', g.re[i]); }
  }

  lemma SaneStep(s: State, step: Step, rule: bool)
    requires Sane(s)
    ensures Sane(Do(s, step, rule))
  {
    hide Do, Around, GateSane, SampleSane;
    GateStep(s, step, rule);
    forall i | 0 <= i < |Do(s, step, rule).w.g.re| ensures SampleSane(Do(s, step, rule).w.g, Do(s, step, rule).w.g.re[i]) {
      SamplesStep(s, step, rule, i);
    }
    forall e: nat | Around(Do(s, step, rule), e) ensures e <= Do(s, step, rule).w.g.gate.epoch { AroundStep(s, step, rule, e); }
  }

  lemma {:induction false} SaneRun(steps: seq<Step>, n: nat)
    requires n <= |steps|
    ensures Sane(CodeAt(steps, n))
  {
    hide Do;
    if n > 0 {
      SaneRun(steps, n - 1);
      CodeNext(steps, n - 1);
      SaneStep(CodeAt(steps, n - 1), steps[n - 1], false);
    }
  }

  // ------------------------------------------------------------------ the rule, and what would establish it

  lemma SweptIsEpoch(s: State, i: nat)
    requires Sane(s) && Arms(s.w, i) && s.w.g.re[i].ep == s.w.g.gate.epoch
    ensures Swept(s.w)
  {
    assert SampleSane(s.w.g, s.w.g.re[i]);
  }

  /** A swap that also compared the gate's epoch with the caller's sample would establish the environment
      rule by itself, for any number of callers: a run of the code in which every swap finds the epoch its
      caller sampled is a run under the rule, and has every guarantee of ControlGuarantees. */
  lemma {:induction false} ComparedSwapKeepsRule(steps: seq<Step>, n: nat)
    requires n <= |steps|
    requires forall j :: 0 <= j < n && steps[j].GoRearm? && Arms(CodeAt(steps, j).w, steps[j].i) ==>
               CodeAt(steps, j).w.g.re[steps[j].i].ep == CodeAt(steps, j).w.g.gate.epoch
    ensures CodeAt(steps, n) == StateAt(steps, n)
  {
    hide Do, Sane, Inv;
    assert steps[..0] == [];
    if n > 0 {
      ComparedSwapKeepsRule(steps, n - 1);
      CodeNext(steps, n - 1);
      AtNext(steps, n - 1);
      SaneRun(steps, n - 1);
      var s, step := CodeAt(steps, n - 1), steps[n - 1];
      if step.GoRearm? && Arms(s.w, step.i) { SweptIsEpoch(s, step.i); }
      SameStep(s, step);
    }
  }

  lemma SameStep(s: State, step: Step)
    requires step.GoRearm? && Arms(s.w, step.i) ==> Swept(s.w)
    ensures Do(s, step, false) == Do(s, step, true)
  {
  }

  /** A swap keeps the invariant of the protocol exactly if RevokeAll for the present halt is finished. */
  lemma SwapKeepsInvariantIff(s: State, i: nat)
    requires Inv(s) && Arms(s.w, i)
    ensures Inv(Do(s, GoRearm(i), false)) <==> Swept(s.w)
  {
    hide Inv;
    if Swept(s.w) { SameStep(s, GoRearm(i)); StepKeeps(s, GoRearm(i)); }
    if Inv(Do(s, GoRearm(i), false)) { NormalIsSwept(s, i); }
  }

  lemma NormalIsSwept(s: State, i: nat)
    requires Inv(s) && Arms(s.w, i) && Inv(Do(s, GoRearm(i), false))
    ensures Swept(s.w)
  {
    hide CellsInv, EpochInv, FactsOk, FactsOf, Fits, ReaderInv;
  }

  // ------------------------------------------------------------------ when a swap is safe

  /** Under a Normal gate, whatever the epoch rule admits is newer than the last Trip. */
  ghost predicate Fenced(s: State) {
    s.w.g.gate.st == Normal ==> forall e: nat :: Around(s, e) ==> e <= s.w.g.floor || s.w.g.lastTrip < e
  }

  lemma FencedStep(s: State, step: Step)
    requires Sane(s) && Fenced(s) && !Swaps(s.w, step, false)
    ensures Fenced(Do(s, step, false))
  {
    hide Do, Around, SampleSane;
    GateStep(s, step, false);
    var s' := Do(s, step, false);
    forall e: nat | s'.w.g.gate.st == Normal && Around(s', e) ensures e <= s'.w.g.floor || s'.w.g.lastTrip < e {
      AroundStep(s, step, false, e);
    }
  }

  /** No swap happens in this continuation. */
  ghost predicate SwapFree(s: State, cont: seq<Step>) {
    forall n :: 0 <= n < |cont| ==> !Swaps(Exec(s, cont[..n], false).w, cont[n], false)
  }

  lemma {:induction false} FencedFrom(s: State, cont: seq<Step>)
    requires Sane(s) && Fenced(s) && SwapFree(s, cont)
    ensures Sane(Exec(s, cont, false)) && Fenced(Exec(s, cont, false))
    decreases |cont|
  {
    hide Do, Fenced, Sane, Swaps;
    if cont != [] {
      var init, last := cont[..|cont| - 1], cont[|cont| - 1];
      forall n | 0 <= n < |init| ensures !Swaps(Exec(s, init[..n], false).w, init[n], false) {
        assert cont[..n] == init[..n] && cont[n] == init[n];
      }
      FencedFrom(s, init);
      assert !Swaps(Exec(s, cont[..|cont| - 1], false).w, last, false);
      FencedStep(Exec(s, init, false), last);
      SaneStep(Exec(s, init, false), last, false);
    }
  }

  lemma SwapIs(s: State, i: nat)
    requires Sane(s) && Arms(s.w, i)
    ensures var s' := Do(s, GoRearm(i), false);
            && s'.w.g.gate.st == Normal && s'.w.g.floor == s.w.g.floor && s'.w.g.lastTrip == s.w.g.gate.epoch
            && forall e: nat :: Around(s', e) <==> Around(s, e)
  {
  }

  /** Exactly when a swap is safe, for any number of callers and whatever they had checked: no continuation
      up to the next swap lets the epoch rule admit a lease older than the last Trip if and only if the
      safety floor has already reached every lease that is in a slot, being issued, or just loaded by a check. */
  lemma SwapIsSafeIff(s: State, i: nat)
    requires Sane(s) && Arms(s.w, i)
    ensures var s' := Do(s, GoRearm(i), false);
            (forall cont: seq<Step> :: SwapFree(s', cont) ==> Fenced(Exec(s', cont, false))) <==>
            (forall e: nat :: Around(s, e) ==> e <= s.w.g.floor)
  {
    hide Do, Around;
    var s' := Do(s, GoRearm(i), false);
    SwapIs(s, i);
    if forall e: nat :: Around(s, e) ==> e <= s.w.g.floor {
      SaneStep(s, GoRearm(i), false);
      forall cont: seq<Step> | SwapFree(s', cont) ensures Fenced(Exec(s', cont, false)) { FencedFrom(s', cont); }
    }
    if forall cont: seq<Step> :: SwapFree(s', cont) ==> Fenced(Exec(s', cont, false)) {
      assert SwapFree(s', []) && Exec(s', [], false) == s';
    }
  }

  // ------------------------------------------------------------------ checks behind the fence

  /** What a check knows at each of its points. */
  predicate Careful(s: State) {
    match s.reader
    case RIdle => true
    case RLoaded(_, _, _, born) => born <= s.w.g.lastTrip
    case RGate(_, l, _, born, g, _, t) => born <= t && (g.st == Normal ==> l.epoch <= s.w.g.floor || t < l.epoch)
    case RFloor(_, l, _, born, g, _, t, floor) => born <= t && (g.st == Normal ==> l.epoch <= floor || t < l.epoch)
    case RFresh(_, l, _, born, _, _, t, _) => born <= t < l.epoch
    case RDone(_, l, born, _, _, t, _) => born <= t < l.epoch
  }

  lemma CarefulRead(s: State, k: nat)
    requires Fenced(s) && Careful(s)
    ensures Careful(s.(reader := ReaderGo(s.w, s.reader, k)))
  {
    if s.reader.RLoaded? { assert Around(s, s.reader.l.epoch); }
  }

  lemma CarefulOther(s: State, s': State)
    requires Careful(s) && s'.reader == s.reader && s.w.g.floor <= s'.w.g.floor && s.w.g.lastTrip <= s'.w.g.lastTrip
    ensures Careful(s')
  {
  }

  lemma MuReader(s: State, id: nat, k: nat, op: MuOp)
    ensures MuGo(s, id, k).reader == s.reader && MuStart(s, op).reader == s.reader
  {
    hide LeaseStateAt, NewLease, FindSlot, Placed;
  }

  lemma CarefulStep(s: State, step: Step)
    requires Sane(s) && Fenced(s) && Careful(s)
    ensures Careful(Do(s, step, false))
    ensures !step.GoReader? ==> Do(s, step, false).reader == s.reader
    ensures step.GoReader? ==> Do(s, step, false).reader == ReaderGo(s.w, s.reader, step.k)
  {
    hide Careful, Fenced, Around, GateSane, SampleSane, MuGo, MuStart, DrainGo, RvGo, EnvGo, RearmGo, ReaderGo;
    GateStep(s, step, false);
    var s' := Do(s, step, false);
    if step.GoReader? { CarefulRead(s, step.k); } else {
      if step.GoMu? { MuReader(s, step.id, step.k, OpStop); }
      if step.StartMu? { MuReader(s, 0, 0, step.op); }
      CarefulOther(s, s');
    }
  }

  lemma {:induction false} CarefulRun(steps: seq<Step>, n: nat)
    requires n <= |steps| && forall j :: 0 <= j < n ==> Fenced(CodeAt(steps, j))
    ensures Careful(CodeAt(steps, n))
  {
    hide Do, Fenced, Sane;
    if n > 0 {
      CarefulRun(steps, n - 1);
      CodeNext(steps, n - 1);
      SaneRun(steps, n - 1);
      CarefulStep(CodeAt(steps, n - 1), steps[n - 1]);
    }
  }

  // A check that began after instant m knows every Trip up to m.
  lemma {:induction false} BornAfter(steps: seq<Step>, m: nat, n: nat)
    requires m <= n <= |steps| && forall j :: 0 <= j < n ==> Fenced(CodeAt(steps, j))
    requires CodeAt(steps, m).reader.RIdle?
    ensures CodeAt(steps, m).w.g.lastTrip <= CodeAt(steps, n).w.g.lastTrip
    ensures !CodeAt(steps, n).reader.RIdle? ==> CodeAt(steps, m).w.g.lastTrip <= CodeAt(steps, n).reader.born
  {
    hide Do, Fenced;
    if m < n {
      BornAfter(steps, m, n - 1);
      CodeNext(steps, n - 1);
      SaneRun(steps, n - 1);
      CarefulRun(steps, n - 1);
      GateStep(CodeAt(steps, n - 1), steps[n - 1], false);
      CarefulStep(CodeAt(steps, n - 1), steps[n - 1]);
    }
  }

  // ------------------------------------------------------------------ one caller

  // The gate has not been Normal since the sample, so every lease around is at most that old ...
  ghost predicate Latest(s: State, ep: nat) {
    s.w.g.gate.st != Normal && forall e: nat :: Around(s, e) ==> e <= ep
  }

  // ... or the sample was taken under a Normal gate, and no halt will ever carry its epoch.
  predicate Never(s: State, ep: nat) {
    && s.w.g.halt != ep && (s.w.c.rv.RvReady? ==> s.w.c.rv.e != ep)
    && ep <= s.w.g.gate.epoch && (s.w.g.gate.st != Normal ==> s.w.g.gate.epoch != ep)
  }

  ghost predicate CallerOk(s: State, re: Re) {
    match re
    case ReIdle => true
    case ReSnap(ep) => Latest(s, ep) || Never(s, ep)
    case ReChecked(ep) => Latest(s, ep) && ep <= s.w.g.floor
  }

  ghost predicate Lone(s: State) {
    Sane(s) && Fenced(s) && |s.w.g.re| <= 1 && (|s.w.g.re| == 1 ==> CallerOk(s, s.w.g.re[0]))
  }

  lemma LatestStep(s: State, step: Step, ep: nat)
    requires Sane(s) && Latest(s, ep) && !Swaps(s.w, step, false)
    ensures Latest(Do(s, step, false), ep)
  {
    hide Do, Around, SampleSane;
    GateStep(s, step, false);
    forall e: nat | Around(Do(s, step, false), e) ensures e <= ep { AroundStep(s, step, false, e); }
  }

  lemma RvMove(w: World)
    ensures RvGo(w).c.rv.RvReady? ==> w.c.rv == RvGo(w).c.rv || (w.g.gate.st != Normal && RvGo(w).c.rv.e == w.g.gate.epoch)
    ensures RvGo(w).g.halt == w.g.halt || (w.c.rv.RvReady? && RvGo(w).g.halt == w.c.rv.e)
    ensures RvGo(w).g.gate == w.g.gate
  {
  }

  lemma EnvMove(w: World, step: Step)
    ensures var w' := EnvGo(w, step);
            && w'.c.rv == w.c.rv && w'.g.halt == w.g.halt
            && (w'.g.gate.epoch == w.g.gate.epoch || w'.g.gate.epoch == w.g.gate.epoch + 1)
            && (w'.g.gate.epoch == w.g.gate.epoch ==> (w'.g.gate.st == Normal <==> w.g.gate.st == Normal))
  {
  }

  lemma NeverStep(s: State, step: Step, ep: nat)
    requires Sane(s) && Never(s, ep) && !Swaps(s.w, step, false)
    ensures Never(Do(s, step, false), ep)
  {
    hide RvGo, MuGo, MuStart, DrainGo, EnvGo, ReaderGo, Around, SampleSane;
    match step
    case GoMu(id, k) => MuGate(s, id, k);
    case StartMu(op) => StillGate(s, op);
    case GoDrain => StillGate(s, OpStop);
    case GoRv => RvMove(s.w);
    case GoRearm(_) =>
    case GoReader(_) =>
    case _ => EnvMove(s.w, step);
  }

  // The caller's own step.
  lemma CallerMoves(s: State, step: Step)
    requires Lone(s) && step == GoRearm(0)
    ensures var s' := Do(s, step, false); |s'.w.g.re| == 1 && CallerOk(s', s'.w.g.re[0]) && (Swaps(s.w, step, false) ==> Fenced(s'))
  {
    var s' := Do(s, step, false);
    assert forall e: nat :: Around(s', e) <==> Around(s, e);
    if |s.w.g.re| == 1 { assert SampleSane(s.w.g, s.w.g.re[0]); }
  }

  lemma LoneStep(s: State, step: Step)
    requires Lone(s) && (step.GoRearm? ==> step.i == 0)
    ensures Lone(Do(s, step, false))
  {
    hide Do, Around, SampleSane, Latest, Never, Fenced, Sane;
    SaneStep(s, step, false);
    if step.GoRearm? {
      CallerMoves(s, step);
      if !Swaps(s.w, step, false) { FencedStep(s, step); }
    } else {
      FencedStep(s, step);
      SaneGives(s);
      GateStep(s, step, false);
      if |s.w.g.re| == 1 && !s.w.g.re[0].ReIdle? {
        var ep := s.w.g.re[0].ep;
        if Latest(s, ep) { LatestStep(s, step, ep); } else { NeverStep(s, step, ep); }
      }
    }
  }

  lemma SaneGives(s: State)
    requires Sane(s)
    ensures GateSane(s.w.g, s.w.c.rv)
  {
  }

  lemma {:induction false} LoneRun(steps: seq<Step>, n: nat)
    requires n <= |steps| && forall j :: 0 <= j < n && steps[j].GoRearm? ==> steps[j].i == 0
    ensures Lone(CodeAt(steps, n))
  {
    hide Do, Lone;
    if n == 0 { LoneInit(); assert steps[..0] == []; } else {
      LoneRun(steps, n - 1);
      CodeNext(steps, n - 1);
      LoneStep(CodeAt(steps, n - 1), steps[n - 1]);
    }
  }

  lemma LoneInit()
    ensures Lone(Init())
  {
  }

  /** With a single re-arm caller the code needs no rule for this: once a Trip has taken effect, no check
      that starts afterwards ever accepts a lease whose token is not above that Trip's, even if the gate is
      re-armed between a later Trip and its RevokeAll. */
  lemma OneCallerIsSafe(steps: seq<Step>, t: nat, m: nat, n: nat)
    requires t < m <= n <= |steps| && steps[t] == Trip
    requires forall j :: 0 <= j < n && steps[j].GoRearm? ==> steps[j].i == 0
    requires CodeAt(steps, m).reader.RIdle? && CodeAt(steps, n).reader.RDone?
    ensures CodeAt(steps, t + 1).w.g.gate.epoch < CodeAt(steps, n).reader.l.epoch
  {
    hide Do, Fenced, Sane;
    forall j | 0 <= j < n ensures Fenced(CodeAt(steps, j)) { LoneRun(steps, j); }
    TripIs(steps, t);
    TripsRise(steps, t + 1, m);
    BornAfter(steps, m, n);
    CarefulRun(steps, n);
  }

  lemma TripIs(steps: seq<Step>, t: nat)
    requires t < |steps| && steps[t] == Trip
    ensures CodeAt(steps, t + 1).w.g.lastTrip == CodeAt(steps, t + 1).w.g.gate.epoch
  {
    hide Around;
    CodeNext(steps, t);
    SaneRun(steps, t);
  }

  lemma {:induction false} TripsRise(steps: seq<Step>, m: nat, n: nat)
    requires m <= n <= |steps|
    ensures CodeAt(steps, m).w.g.lastTrip <= CodeAt(steps, n).w.g.lastTrip
  {
    hide Do;
    if m < n {
      TripsRise(steps, m, n - 1);
      CodeNext(steps, n - 1);
      SaneRun(steps, n - 1);
      GateStep(CodeAt(steps, n - 1), steps[n - 1], false);
    }
  }
}
