/** The ledger of epochs: every boundary of a run is a Trip, a re-arm or one successful increment of the
    holder of mu, and every operation's increments are known exactly. */
module ControlLedger {
  import opened ControlTypes
  import opened ControlProtocol
  import opened ControlInvariant
  import opened ControlRuns
  import opened ControlGuarantees
  import opened ControlRearm

  // ------------------------------------------------------------------ the whole run

  predicate TripTakes(s: State, step: Step) { step.Trip? && s.w.g.gate.st != Latched }

  datatype Ledger = Ledger(trips: nat, rearms: nat, bumps: nat)

  /** How often a Trip took effect, a re-arm succeeded, and the holder of mu advanced the epoch. */
  function Booked(steps: seq<Step>, n: nat): Ledger
    requires n <= |steps|
  {
    if n == 0 then Ledger(0, 0, 0) else
      var (b, s, step) := (Booked(steps, n - 1), StateAt(steps, n - 1), steps[n - 1]);
      Ledger(b.trips + One(TripTakes(s, step)), b.rearms + One(Swaps(s.w, step, true)), b.bumps + One(BumpTakes(s, step)))
  }

  lemma GateEpochs(s: State, step: Step, i: nat)
    ensures RvGo(s.w).g.gate == s.w.g.gate
    ensures RearmGo(s.w, i, true).g.gate.epoch == s.w.g.gate.epoch + One(Swaps(s.w, GoRearm(i), true))
    ensures !step.Trip? ==> EnvGo(s.w, step).g.gate.epoch == s.w.g.gate.epoch
    ensures EnvGo(s.w, Trip).g.gate.epoch == s.w.g.gate.epoch + One(TripTakes(s, Trip))
  {
  }

  lemma EpochStep(s: State, step: Step)
    ensures Do(s, step, true).w.g.gate.epoch ==
            s.w.g.gate.epoch + One(TripTakes(s, step)) + One(Swaps(s.w, step, true)) + One(BumpTakes(s, step))
  {
    hide RvGo, RearmGo, MuGo, MuStart, DrainGo, EnvGo, ReaderGo, Swaps;
    GateEpochs(s, step, if step.GoRearm? then step.i else 0);
    NoSwap(s.w, step);
    match step
    case GoMu(id, k) => MuGate(s, id, k);
    case StartMu(op) => StillGate(s, op);
    case GoDrain => StillGate(s, OpStop);
    case _ =>
  }

  lemma NoSwap(w: World, step: Step)
    ensures !step.GoRearm? ==> !Swaps(w, step, true)
  {
  }

  /** The epoch is 1 plus every effective Trip, every successful re-arm and every successful increment. */
  lemma {:induction false} EpochIsBooked(steps: seq<Step>, n: nat)
    requires n <= |steps|
    ensures var b := Booked(steps, n); StateAt(steps, n).w.g.gate.epoch == 1 + b.trips + b.rearms + b.bumps
  {
    hide Do;
    if n > 0 {
      EpochIsBooked(steps, n - 1);
      AtNext(steps, n - 1);
      EpochStep(StateAt(steps, n - 1), steps[n - 1]);
    }
  }

  // ------------------------------------------------------------------ one operation

  /** Increments made since the operation in progress took mu: at the end of leases, and for an issue. */
  datatype Cost = Cost(ends: nat, issues: nat)

  function CostAt(steps: seq<Step>, n: nat): Cost
    requires n <= |steps|
  {
    if n == 0 then Cost(0, 0) else CostNext(StateAt(steps, n - 1), steps[n - 1], CostAt(steps, n - 1))
  }

  function CostNext(s: State, step: Step, c: Cost): Cost {
    if step.StartMu? && s.mu.MuIdle? then Cost(0, 0)
    else if BumpTakes(s, step) then (if s.mu.MEnd? then c.(ends := c.ends + 1) else c.(issues := c.issues + 1))
    else c
  }

  /** What an operation can have spent at each of its points. */
  predicate Costs(mu: Mu, c: Cost) {
    match mu
    case MuIdle => true
    case IWithdraw(_, _) => true
    case IBump(_, how) => c.issues == 0 && Ended(how, c)
    case IPend(_, how, _) => c.issues == 1 && Ended(how, c)
    case IDrain(_, how, _) => c.issues == 1 && Ended(how, c)
    case IDraining(_, how, _) => c.issues == 1 && Ended(how, c)
    case ISeq(_, how, _) => c.issues == 1 && Ended(how, c)
    case IRevoked(_, how, _, _) => c.issues == 1 && Ended(how, c)
    case IFresh(_, how, _, _) => c.issues == 1 && Ended(how, c)
    case IStore(_, how, _, _) => c.issues == 1 && Ended(how, c)
    case IGate(_, how, _, _) => c.issues == 1 && Ended(how, c)
    case IReSeq(_, how, _, _) => c.issues == 1 && Ended(how, c)
    case MDrop(_, _, cont) => c == Cost(0, 0) && (cont.ToIssue? ==> cont.how == AfterDrop)
    case MEnd(_, cont) => c == Cost(0, 0) && (cont.ToIssue? ==> cont.how == AfterDrop)
    case MNotify(_, cont) => c.issues == 0 && c.ends <= 1 && (cont.ToIssue? ==> Ended(cont.how, c))
    case _ => c == Cost(0, 0)
  }

  predicate Ended(how: How, c: Cost) { c.ends <= 1 && (how != AfterDrop ==> c.ends == 0) }

  lemma AcquireCosts(s: State, c: Cost)
    requires Costs(s.mu, c)
    ensures Costs(AcquireGo(s).mu, c) && Costs(CheckGo(s).mu, c)
    ensures AcquireGo(s).w.spent == s.w.spent && CheckGo(s).w.spent == s.w.spent
  {
    hide LeaseStateAt, FindSlot;
  }

  lemma EndCosts(s: State, c: Cost)
    requires Costs(s.mu, c)
    ensures Costs(EndGo(s).mu, if s.mu.MEnd? && s.w.g.gate.st == Normal then c.(ends := c.ends + 1) else c)
    ensures EndGo(s).w.spent == s.w.spent + One(s.mu.MEnd? && s.w.g.gate.st == Normal)
  {
  }

  lemma IssueCosts(s: State, id: nat, c: Cost)
    requires Costs(s.mu, c)
    ensures Costs(IssueGo(s, id).mu, if s.mu.IBump? && s.w.g.gate.st == Normal then c.(issues := c.issues + 1) else c)
    ensures IssueGo(s, id).w.spent == s.w.spent + One(s.mu.IBump? && s.w.g.gate.st == Normal)
  {
    hide NewLease;
  }

  lemma OtherCosts(s: State, k: nat, c: Cost)
    requires Costs(s.mu, c)
    ensures Costs(BatchGo(s).mu, c) && Costs(FindGo(s, k).mu, c) && Costs(SnapGo(s).mu, c)
    ensures BatchGo(s).w.spent == s.w.spent && FindGo(s, k).w.spent == s.w.spent && SnapGo(s).w.spent == s.w.spent
  {
    hide LeaseStateAt, FindSlot;
  }

  lemma StartCosts(s: State, op: MuOp)
    ensures s.mu.MuIdle? ==> Costs(MuStart(s, op).mu, Cost(0, 0)) && MuStart(s, op).w.spent == 0
    ensures !s.mu.MuIdle? ==> MuStart(s, op) == s
  {
  }

  lemma AsideCosts(s: State, step: Step, c: Cost)
    requires Costs(s.mu, c) && !step.GoMu? && !step.StartMu?
    ensures Costs(Do(s, step, true).mu, c) && Do(s, step, true).w.spent == s.w.spent
  {
    hide Placed;
  }

  lemma CostStep(s: State, step: Step, c: Cost)
    requires Costs(s.mu, c) && s.w.spent == c.ends + c.issues
    ensures var (s', c') := (Do(s, step, true), CostNext(s, step, c)); Costs(s'.mu, c') && s'.w.spent == c'.ends + c'.issues
  {
    hide AcquireGo, CheckGo, EndGo, IssueGo, BatchGo, FindGo, SnapGo, MuStart, Costs;
    match step
    case GoMu(id, k) => AcquireCosts(s, c); EndCosts(s, c); IssueCosts(s, id, c); OtherCosts(s, k, c);
    case StartMu(op) => StartCosts(s, op);
    case _ => AsideCosts(s, step, c);
  }

  lemma {:induction false} CostRun(steps: seq<Step>, n: nat)
    requires n <= |steps|
    ensures var (s, c) := (StateAt(steps, n), CostAt(steps, n)); Costs(s.mu, c) && s.w.spent == c.ends + c.issues
  {
    hide Do, CostNext;
    if n > 0 {
      CostRun(steps, n - 1);
      AtNext(steps, n - 1);
      CostStep(StateAt(steps, n - 1), steps[n - 1], CostAt(steps, n - 1));
    }
  }

  /** The operation in progress at n left MEnd at e, and found the gate Normal. */
  ghost predicate EndedUnderNormal(steps: seq<Step>, e: nat, n: nat)
    requires e < n <= |steps|
  {
    && steps[e].GoMu? && StateAt(steps, e).mu.MEnd? && StateAt(steps, e).w.g.gate.st == Normal
    && forall j :: e < j < n ==> !(steps[j].StartMu? && StateAt(steps, j).mu.MuIdle?)
  }

  /** `ends` counts exactly that. */
  lemma {:induction false} EndsIff(steps: seq<Step>, n: nat)
    requires n <= |steps|
    ensures CostAt(steps, n).ends > 0 <==> exists e :: 0 <= e < n && EndedUnderNormal(steps, e, n)
  {
    hide Do, Init;
    if n > 0 {
      EndsIff(steps, n - 1);
      var s, step := StateAt(steps, n - 1), steps[n - 1];
      var p := n - 1;
      assert EndedUnderNormal(steps, p, n) <==> s.mu.MEnd? && BumpTakes(s, step);
      forall e: nat | e < p ensures EndedUnderNormal(steps, e, n) <==>
                                    EndedUnderNormal(steps, e, p) && !(step.StartMu? && s.mu.MuIdle?)
      {
        EndedNext(steps, e, p);
      }
      if e: nat :| e < n && EndedUnderNormal(steps, e, n) { assert e < p ==> EndedUnderNormal(steps, e, p); }
      if e: nat :| e < p && EndedUnderNormal(steps, e, p) && !(step.StartMu? && s.mu.MuIdle?) {
        assert EndedUnderNormal(steps, e, n);
      }
    }
  }

  lemma EndedNext(steps: seq<Step>, e: nat, n: nat)
    requires e < n < |steps|
    ensures EndedUnderNormal(steps, e, n + 1) <==>
            EndedUnderNormal(steps, e, n) && !(steps[n].StartMu? && StateAt(steps, n).mu.MuIdle?)
  {
  }

  /** A grant costs exactly one epoch boundary, and a second one exactly if its Acquire first collected an
      invalid or outdated lease under a Normal gate; a HUMAN-over-AI preemption is one boundary in all. */
  lemma GrantCost(steps: seq<Step>, n: nat)
    requires n < |steps| && StateAt(steps, n + 1).w.grants != StateAt(steps, n).w.grants
    ensures |StateAt(steps, n + 1).w.grants| == |StateAt(steps, n).w.grants| + 1
    ensures var g := StateAt(steps, n + 1).w.grants[|StateAt(steps, n).w.grants|];
            && g.spent == 1 + One(exists e :: 0 <= e < n && EndedUnderNormal(steps, e, n))
            && (g.spent == 2 ==> g.how == AfterDrop)
  {
    hide Do, Inv, Carried, EndedUnderNormal;
    RunSteps(steps, n);
    CostRun(steps, n);
    EndsIff(steps, n);
  }

  /** Dropping a lease or a whole batch makes exactly one boundary under a Normal gate and none otherwise;
      renewal makes none, nor does the lease a preemption takes out. */
  lemma BoundariesOfEndings(steps: seq<Step>, n: nat)
    requires n <= |steps|
    ensures var (s, ended) := (StateAt(steps, n), exists e :: 0 <= e < n && EndedUnderNormal(steps, e, n));
            && (s.mu.MNotify? && s.mu.cont.ToIdle? ==> s.w.spent == One(ended))
            && (s.mu.MNotify? && s.mu.cont.ToIssue? && s.mu.cont.how == Preempting ==> s.w.spent == 0)
            && (s.mu.MRenew? || s.mu.MRenewFresh? ==> s.w.spent == 0)
  {
    hide Do, EndedUnderNormal;
    CostRun(steps, n);
    EndsIff(steps, n);
  }

  /** The boundary is made at the step that leaves MEnd: before it nothing is spent, and the gate advances
      by one exactly if it was Normal. */
  lemma EndingStep(steps: seq<Step>, n: nat)
    requires n < |steps| && steps[n].GoMu? && StateAt(steps, n).mu.MEnd?
    ensures var (s, s') := (StateAt(steps, n), StateAt(steps, n + 1));
            && s.w.spent == 0 && s'.mu == MNotify(s.mu.dropped, s.mu.cont)
            && s'.w.spent == One(s.w.g.gate.st == Normal)
            && s'.w.g.gate.epoch == s.w.g.gate.epoch + One(s.w.g.gate.st == Normal)
  {
    hide Init;
    AtNext(steps, n);
    CostRun(steps, n);
  }
}
