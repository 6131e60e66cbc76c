/** The guarantees of the control-lease protocol, for every run of all its threads. `StateAt(steps, n)` is
    the state after n steps; the environment keeps its rule that the RevokeAll of a Trip is finished
    before the gate is re-armed (`RearmGo`). Module ControlRearm is about the code without that rule. */
module ControlGuarantees {
  import opened Wrappers
  import opened ControlTypes
  import opened ControlProtocol
  import opened ControlInvariant
  import opened ControlProof
  import opened ControlStepProof
  import opened ControlRuns

  // ------------------------------------------------------------------ what single steps leave alone

  // Program points that remember an earlier instant.
  predicate Remembers(mu: Mu) {
    mu.IReSeq? || mu.NGate2? || mu.NSeq2? || mu.NFloor? || mu.NFresh? || mu.NDone?
  }

  ghost predicate Quietly(s: State, s': State) {
    && s'.w.grants == s.w.grants && s'.w.stopped == s.w.stopped
    && s'.reader == s.reader && s'.w.g.lastTrip == s.w.g.lastTrip && s'.w.g.seqno == s.w.g.seqno
    && (Remembers(s'.mu) ==> s'.mu == s.mu)
  }

  lemma AcquireQuiet(s: State)
    ensures Quietly(s, AcquireGo(s))
  {
  }

  lemma CheckQuiet(s: State)
    ensures Quietly(s, CheckGo(s))
  {
    hide LeaseStateAt;
  }

  lemma EndQuiet(s: State)
    ensures Quietly(s, EndGo(s))
  {
  }

  lemma FindQuiet(s: State, k: nat)
    ensures Quietly(s, FindGo(s, k))
  {
  }

  lemma IssueQuiet(s: State, id: nat)
    requires !s.mu.IReSeq? && !s.mu.IGate?
    ensures Quietly(s, IssueGo(s, id))
  {
  }

  lemma BatchQuiet(s: State)
    ensures var s' := BatchGo(s);
            s' == s || (s'.w.grants == s.w.grants && (s.w.stopped ==> s'.w.stopped) && !Remembers(s'.mu))
    ensures BatchGo(s).w.g == s.w.g && BatchGo(s).reader == s.reader
  {
  }

  /** How a program point that remembers an instant is reached. */
  ghost predicate Origin(s: State, mu: Mu) {
    match mu
    case IReSeq(a, how, l, seen) => s.mu == IGate(a, how, l, seen) && s.w.g.gate == Gate(Normal, l.epoch)
    case NGate2(_, _, g, v) => Loaded(s, g, v)
    case NSeq2(_, _, g, v) => Loaded(s, g, v)
    case NFloor(g, v, _, _) => Loaded(s, g, v)
    case NFresh(g, v, _, _, _) => Loaded(s, g, v)
    case NDone(g, v, _) => Loaded(s, g, v)
    case _ => true
  }

  // ControlSnapshotFor, having sampled the gate as g, loads the slot at s.
  ghost predicate Loaded(s: State, g: Gate, v: View) {
    && s.mu.NCur? && s.mu.g == g && s.mu.resource == v.resource && v.k == FindSlot(s.w.c.slots, v.resource)
    && v.cur == (if v.k < |s.w.c.slots| then s.w.c.slots[v.k].cur else None)
    && v.gateThen == s.w.g.gate && v.floorThen == s.w.g.floor
  }

  // Either freshly remembered at s, or carried over from s.
  ghost predicate Carried(s: State, mu: Mu) {
    Origin(s, mu) || (Remembers(s.mu) && forall o: State :: Origin(o, s.mu) ==> Origin(o, mu))
  }

  lemma SnapCarried(s: State)
    ensures Carried(s, SnapGo(s).mu) && SnapGo(s).w == s.w && SnapGo(s).reader == s.reader
  {
  }

  lemma IssueCarried(s: State, id: nat)
    requires s.mu.IReSeq? || s.mu.IGate?
    ensures Carried(s, IssueGo(s, id).mu) && IssueGo(s, id).reader == s.reader
    ensures var w, w' := s.w, IssueGo(s, id).w;
            w' == w || (s.mu.IReSeq? && w.g.seqno == s.mu.seen &&
                        w' == w.(grants := w.grants + [Grant(s.mu.l, s.mu.a.k, s.mu.how, w.spent)]))
  {
  }

  lemma StartCarried(s: State, op: MuOp)
    ensures var s' := MuStart(s, op); Carried(s, s'.mu) && s'.w == s.w.(spent := s'.w.spent) && s'.reader == s.reader
  {
  }

  lemma QuietCarried(s: State, mu: Mu)
    requires !Remembers(mu) || mu == s.mu
    ensures Carried(s, mu)
  {
  }

  lemma DrainCarried(s: State)
    ensures var s' := Do(s, GoDrain, true);
            Carried(s, s'.mu) && s'.w == s.w.(c := s'.w.c)
  {
    QuietCarried(s, Do(s, GoDrain, true).mu);
  }

  ghost predicate Granting(s: State, s': State) {
    && s.mu.IReSeq? && s.w.g.seqno == s.mu.seen
    && s'.w == s.w.(grants := s.w.grants + [Grant(s.mu.l, s.mu.a.k, s.mu.how, s.w.spent)])
  }

  ghost predicate Stepped(s: State, s': State) {
    && Carried(s, s'.mu) && (s.w.stopped ==> s'.w.stopped)
    && s.w.g.lastTrip <= s'.w.g.lastTrip && s.w.g.seqno <= s'.w.g.seqno
    && (s'.w.grants == s.w.grants || Granting(s, s'))
  }

  lemma QuietSteps(s: State, s': State)
    requires Quietly(s, s')
    ensures Stepped(s, s')
  {
    QuietCarried(s, s'.mu);
  }

  lemma MuSteps(s: State, id: nat, k: nat)
    ensures Stepped(s, MuGo(s, id, k)) && MuGo(s, id, k).reader == s.reader
  {
    hide AcquireGo, CheckGo, EndGo, IssueGo, BatchGo, FindGo, SnapGo, Carried;
    AcquireQuiet(s); CheckQuiet(s); EndQuiet(s); FindQuiet(s, k); BatchQuiet(s); SnapCarried(s);
    QuietSteps(s, AcquireGo(s)); QuietSteps(s, CheckGo(s)); QuietSteps(s, EndGo(s)); QuietSteps(s, FindGo(s, k));
    if s.mu.IReSeq? || s.mu.IGate? { IssueCarried(s, id); } else { IssueQuiet(s, id); QuietSteps(s, IssueGo(s, id)); }
    QuietCarried(s, s.mu);
    if BatchGo(s) != s { QuietCarried(s, BatchGo(s).mu); }
  }

  lemma WorldSteps(s: State, w': World)
    requires Later(s.w.g, w'.g) && w'.grants == s.w.grants && w'.stopped == s.w.stopped
    ensures Stepped(s, s.(w := w'))
  {
    hide Carried;
    QuietCarried(s, s.mu);
  }

  lemma Frames(w: World, step: Step)
    ensures RvGo(w) == w.(g := RvGo(w).g, c := RvGo(w).c)
    ensures var w' := EnvGo(w, step); w'.grants == w.grants && w'.stopped == w.stopped
    ensures !(step.Trip? || step.BeginRecovery? || step.RequireRearm? || step.Settle?) ==> EnvGo(w, step).g == w.g
  {
    hide MarkFresh;
  }

  lemma LaterSame(g: Safety)
    ensures Later(g, g)
  {
  }

  lemma Steps(s: State, step: Step)
    requires Inv(s)
    ensures Stepped(s, Do(s, step, true))
  {
    hide Inv, Carried, Later, DrainGo, RvGo, MuGo, MuStart, RearmGo, ReaderGo, EnvGo, GateInv;
    Gives(s);
    Frames(s.w, step);
    LaterSame(s.w.g);
    match step
    case StartMu(op) => StartCarried(s, op);
    case GoMu(id, k) => MuSteps(s, id, k);
    case GoDrain => DrainCarried(s);
    case GoRv => SupervisorGate(s.w); WorldSteps(s, RvGo(s.w));
    case GoRearm(i) => RearmGate(s.w, i); WorldSteps(s, RearmGo(s.w, i, true));
    case GoReader(_) => QuietCarried(s, s.mu);
    case Trip => TripEnv(s.w); TripGate(s.w); WorldSteps(s, EnvGo(s.w, step));
    case _ =>
      if step.BeginRecovery? || step.RequireRearm? || step.Settle? { LatchGate(s.w, step); }
      WorldSteps(s, EnvGo(s.w, step));
  }

  lemma TripEnv(w: World)
    ensures EnvGo(w, Trip) == TripGo(w)
  {
  }

  lemma RunSteps(steps: seq<Step>, n: nat)
    requires n < |steps|
    ensures Stepped(StateAt(steps, n), StateAt(steps, n + 1)) && Inv(StateAt(steps, n)) && Inv(StateAt(steps, n + 1))
    ensures StateAt(steps, n + 1) == Do(StateAt(steps, n), steps[n], true)
  {
    hide Inv, Do, Init, Stepped;
    RunInv(steps, n);
    RunInv(steps, n + 1);
    AtNext(steps, n);
    Steps(StateAt(steps, n), steps[n]);
  }

  // ------------------------------------------------------------------ the two remembered instants

  /** Whatever a program point of mu remembers did hold at an earlier instant of the run. */
  lemma {:induction false} Remembered(steps: seq<Step>, n: nat) returns (i: nat)
    requires n <= |steps| && Remembers(StateAt(steps, n).mu)
    ensures i < n && Origin(StateAt(steps, i), StateAt(steps, n).mu)
  {
    hide Inv, Do, Origin;
    assert steps[..0] == [];
    RunSteps(steps, n - 1);
    if Origin(StateAt(steps, n - 1), StateAt(steps, n).mu) { i := n - 1; } else { i := Remembered(steps, n - 1); }
  }

  lemma {:induction false} Monotone(steps: seq<Step>, m: nat, n: nat)
    requires m <= n <= |steps|
    ensures var w, w' := StateAt(steps, m).w, StateAt(steps, n).w;
            w.g.lastTrip <= w'.g.lastTrip && w.g.seqno <= w'.g.seqno && (w.stopped ==> w'.stopped)
  {
    hide Inv, Do, Carried, Init;
    if m < n {
      Monotone(steps, m, n - 1);
      RunSteps(steps, n - 1);
    }
  }

  // ------------------------------------------------------------------ an accepted lease

  lemma ReaderOf(s: State, step: Step)
    ensures Do(s, step, true).reader == if step.GoReader? then ReaderGo(s.w, s.reader, step.k) else s.reader
  {
    hide Stepped, Carried, MuGo, MuStart, ReaderGo, DrainGo, RvGo, RearmGo, EnvGo;
    if step.StartMu? { StartCarried(s, step.op); }
    if step.GoMu? { MuSteps(s, step.id, step.k); }
  }

  lemma ReaderNext(steps: seq<Step>, n: nat)
    requires n < |steps|
    ensures var s, s' := StateAt(steps, n), StateAt(steps, n + 1);
            s'.reader == s.reader || (exists k :: s'.reader == ReaderGo(s.w, s.reader, k))
  {
    hide Do, Init, ReaderGo;
    AtNext(steps, n);
    ReaderOf(StateAt(steps, n), steps[n]);
  }

  // A check that began after instant m knows every Trip up to m.
  lemma {:induction false} Born(steps: seq<Step>, m: nat, n: nat)
    requires m <= n <= |steps| && StateAt(steps, m).reader.RIdle? && !StateAt(steps, n).reader.RIdle?
    ensures StateAt(steps, m).w.g.lastTrip <= StateAt(steps, n).reader.born
  {
    hide Do, Init, Inv;
    ReaderNext(steps, n - 1);
    if StateAt(steps, n - 1).reader.RIdle? { Monotone(steps, m, n - 1); } else { Born(steps, m, n - 1); }
  }

  /** The token of a Trip is the last one known right after it. */
  lemma TripToken(steps: seq<Step>, t: nat)
    requires t < |steps| && steps[t] == Trip
    ensures var g := StateAt(steps, t + 1).w.g; g.lastTrip == g.gate.epoch && g.gate.st == Latched
  {
    hide Do, Init, Inv;
    RunSteps(steps, t);
    Gives(StateAt(steps, t));
    AfterTrip(StateAt(steps, t));
  }

  lemma AfterTrip(s: State)
    requires GateInv(s.w.g, s.w.c.rv)
    ensures var g := Do(s, Trip, true).w.g; g.lastTrip == g.gate.epoch && g.gate.st == Latched
  {
  }

  lemma DoneGives(s: State)
    requires Inv(s) && s.reader.RDone?
    ensures var r := s.reader; r.g.st == Normal && r.heldThen && r.born <= r.tripThen < r.l.epoch && r.now <= r.l.deadline
  {
    hide Core, FactsOk, Fits;
  }

  /** Once a Trip has taken effect, no check that starts afterwards ever accepts a lease whose token
      is not above that Trip's: not while latched, not after any re-arm. */
  lemma NoStaleLeaseAccepted(steps: seq<Step>, t: nat, m: nat, n: nat)
    requires t < m <= n <= |steps| && steps[t] == Trip
    requires StateAt(steps, m).reader.RIdle? && StateAt(steps, n).reader.RDone?
    ensures StateAt(steps, t + 1).w.g.gate.epoch < StateAt(steps, n).reader.l.epoch
  {
    hide Do, Init, Inv;
    TripToken(steps, t);
    Monotone(steps, t + 1, m);
    Born(steps, m, n);
    RunInv(steps, n);
    DoneGives(StateAt(steps, n));
  }

  // The instant at which the check read the gate.
  ghost predicate GateReadAt(s: State, r: Reader) {
    && !r.RIdle? && !r.RLoaded? && s.reader == RLoaded(r.k, r.l, r.now, r.born)
    && s.w.g.gate == r.g && s.w.g.lastTrip == r.tripThen
    && (r.heldThen ==> r.k < |s.w.c.slots| && s.w.c.slots[r.k].cur.Some? && s.w.c.slots[r.k].cur.value.id == r.l.id)
  }

  lemma GateReadNext(w: World, s: State, r: Reader, k: nat)
    requires var r' := ReaderGo(w, r, k); !r'.RIdle? && !r'.RLoaded? && !r.RLoaded?
    requires GateReadAt(s, r)
    ensures GateReadAt(s, ReaderGo(w, r, k))
  {
  }

  lemma ReaderPast(w: World, r: Reader, k: nat)
    requires var r' := ReaderGo(w, r, k); !r'.RIdle? && !r'.RLoaded?
    ensures !r.RIdle?
    ensures r.RLoaded? ==> forall s: State :: s.w == w && s.reader == r ==> GateReadAt(s, ReaderGo(w, r, k))
  {
  }

  lemma {:induction false} GateRead(steps: seq<Step>, m: nat, n: nat) returns (i: nat)
    requires m <= n <= |steps| && StateAt(steps, m).reader.RIdle?
    requires var r := StateAt(steps, n).reader; !r.RIdle? && !r.RLoaded?
    ensures m <= i < n && GateReadAt(StateAt(steps, i), StateAt(steps, n).reader)
  {
    hide Do, Init, ReaderGo, GateReadAt;
    ReaderNext(steps, n - 1);
    var s, r' := StateAt(steps, n - 1), StateAt(steps, n).reader;
    if s.reader == r' { i := GateRead(steps, m, n - 1); } else {
      var k :| r' == ReaderGo(s.w, s.reader, k);
      ReaderPast(s.w, s.reader, k);
      if s.reader.RLoaded? { i := n - 1; } else {
        i := GateRead(steps, m, n - 1);
        GateReadNext(s.w, StateAt(steps, i), s.reader, k);
      }
    }
  }

  /** What it means for a lease to authorise motion at one instant. */
  ghost predicate Authorises(s: State, k: nat, l: Lease) {
    && s.w.g.gate.st == Normal && s.w.g.lastTrip < l.epoch && k < |s.w.c.slots| && s.w.c.slots[k].cur.Some?
    && Same(s.w.c.slots[k].cur.value, l)
  }

  lemma SameLease(s: State)
    requires Inv(s) && s.reader.RLoaded?
    requires var r := s.reader; r.k < |s.w.c.slots| && s.w.c.slots[r.k].cur.Some? && s.w.c.slots[r.k].cur.value.id == r.l.id
    ensures Same(s.w.c.slots[s.reader.k].cur.value, s.reader.l)
  {
    hide FactsOk, Fits, RevokedAt, MidAt, DrainAt, EndedAt, CellInv, DrainRange, EpochInv, GateInv;
  }

  /** CheckLease and CheckResource are linearizable: an accepted lease was, at one instant inside the
      call, in its slot (possibly renewed), under a Normal gate, above every Trip so far. */
  lemma AcceptedAtOneInstant(steps: seq<Step>, m: nat, n: nat) returns (i: nat)
    requires m <= n <= |steps| && StateAt(steps, m).reader.RIdle? && StateAt(steps, n).reader.RDone?
    ensures m <= i < n
    ensures var r := StateAt(steps, n).reader; Authorises(StateAt(steps, i), r.k, r.l) && r.now <= r.l.deadline
  {
    hide Do, Init, Inv;
    i := GateRead(steps, m, n);
    RunInv(steps, n);
    RunInv(steps, i);
    DoneGives(StateAt(steps, n));
    SameLease(StateAt(steps, i));
  }

  // ------------------------------------------------------------------ the deadman window

  // The instant at which the check read the slot's freshness.
  ghost predicate FreshReadAt(s: State, r: Reader) {
    && !r.RIdle? && s.reader.RFloor? && s.reader.k == r.k && s.reader.l == r.l && s.reader.now == r.now && r.k < |s.w.c.slots|
    && (r.l.deadman > 0 ==> r.now - s.w.c.slots[r.k].freshAt <= r.l.deadman)
  }

  lemma FreshReadNext(w: World, r: Reader, k: nat)
    requires var r' := ReaderGo(w, r, k); (r'.RFresh? || r'.RDone?)
    ensures r.RFloor? || r.RFresh?
    ensures r.RFloor? ==> forall s: State :: s.w == w && s.reader == r ==> FreshReadAt(s, ReaderGo(w, r, k))
    ensures r.RFresh? ==> var r' := ReaderGo(w, r, k); r'.k == r.k && r'.l == r.l && r'.now == r.now
  {
  }

  lemma {:induction false} FreshRead(steps: seq<Step>, m: nat, n: nat) returns (i: nat)
    requires m <= n <= |steps| && StateAt(steps, m).reader.RIdle?
    requires var r := StateAt(steps, n).reader; r.RFresh? || r.RDone?
    ensures m <= i < n && FreshReadAt(StateAt(steps, i), StateAt(steps, n).reader)
  {
    hide Do, Init, ReaderGo, FreshReadAt;
    ReaderNext(steps, n - 1);
    var s, r' := StateAt(steps, n - 1), StateAt(steps, n).reader;
    if s.reader == r' { i := FreshRead(steps, m, n - 1); } else {
      var k :| r' == ReaderGo(s.w, s.reader, k);
      FreshReadNext(s.w, s.reader, k);
      if s.reader.RFloor? { i := n - 1; } else {
        i := FreshRead(steps, m, n - 1);
        SameFresh(StateAt(steps, i), s.reader, r');
      }
    }
  }

  lemma SameFresh(s: State, r: Reader, r': Reader)
    requires (r.RFresh? || r.RDone?) && (r'.RFresh? || r'.RDone?) && r'.k == r.k && r'.l == r.l && r'.now == r.now
    requires FreshReadAt(s, r)
    ensures FreshReadAt(s, r')
  {
  }

  /** A step that marks slot k fresh with the time t: a Refresh, a renewal or an issue. */
  predicate Samples(s: State, step: Step, k: nat, t: nat) {
    || (step.Refresh? && step.i < |s.w.beats| && s.w.beats[step.i].k == k && s.w.beats[step.i].at == t)
    || (step.GoMu? && s.mu.MRenewFresh? && s.mu.k == k && s.mu.now == t)
    || (step.GoMu? && s.mu.IFresh? && s.mu.a.k == k && s.mu.a.now == t)
  }

  ghost predicate FreshKept(slots: seq<Slot>, slots': seq<Slot>) {
    && |slots| <= |slots'|
    && forall k :: 0 <= k < |slots'| ==> slots'[k].freshAt == if k < |slots| then slots[k].freshAt else 0
  }

  // Only MarkFresh touches the marks.
  lemma MuFresh(s: State, id: nat, k: nat)
    requires !s.mu.MRenewFresh? && !s.mu.IFresh?
    ensures FreshKept(s.w.c.slots, AcquireGo(s).w.c.slots) && FreshKept(s.w.c.slots, EndGo(s).w.c.slots)
    ensures FreshKept(s.w.c.slots, BatchGo(s).w.c.slots) && FreshKept(s.w.c.slots, FindGo(s, k).w.c.slots)
  {
    hide FindSlot;
  }

  lemma MuFresh2(s: State, id: nat)
    requires !s.mu.MRenewFresh? && !s.mu.IFresh?
    ensures FreshKept(s.w.c.slots, CheckGo(s).w.c.slots) && FreshKept(s.w.c.slots, IssueGo(s, id).w.c.slots)
    ensures FreshKept(s.w.c.slots, SnapGo(s).w.c.slots)
  {
    hide LeaseStateAt;
  }

  lemma SupervisorFresh(w: World)
    ensures FreshKept(w.c.slots, RvGo(w).c.slots)
  {
    hide Placed;
  }

  lemma OthersFresh(w: World)
    ensures FreshKept(w.c.slots, DrainGo(w).c.slots)
    ensures forall i: nat :: FreshKept(w.c.slots, RearmGo(w, i, true).c.slots)
    ensures FreshKept(w.c.slots, w.c.slots)
  {
  }

  // A mark is a maximum.
  lemma MarkStep(s: State, step: Step, k: nat)
    requires (step.GoMu? && (s.mu.MRenewFresh? || s.mu.IFresh?)) || step.Refresh?
    ensures |Do(s, step, true).w.c.slots| == |s.w.c.slots|
    ensures k < |s.w.c.slots| ==>
            var s' := Do(s, step, true);
            && (s'.w.c.slots[k].freshAt == s.w.c.slots[k].freshAt ||
                (s'.w.c.slots[k].freshAt >= 0 && Samples(s, step, k, s'.w.c.slots[k].freshAt)))
            && (forall t: nat :: Samples(s, step, k, t) ==> s'.w.c.slots[k].freshAt == Max(s.w.c.slots[k].freshAt, t))
  {
    hide NewLease;
  }

  lemma FreshStep(s: State, step: Step, k: nat)
    ensures var s' := Do(s, step, true);
            && |s.w.c.slots| <= |s'.w.c.slots|
            && (k < |s'.w.c.slots| ==>
                  || s'.w.c.slots[k].freshAt == (if k < |s.w.c.slots| then s.w.c.slots[k].freshAt else 0)
                  || (s'.w.c.slots[k].freshAt >= 0 && Samples(s, step, k, s'.w.c.slots[k].freshAt)))
  {
    hide AcquireGo, CheckGo, EndGo, IssueGo, BatchGo, FindGo, SnapGo, MuStart, RvGo, DrainGo, RearmGo, MarkFresh;
    OthersFresh(s.w);
    SupervisorFresh(s.w);
    match step
    case GoMu(id, j) =>
      if s.mu.MRenewFresh? || s.mu.IFresh? { MarkStep(s, step, k); } else {
        MuFresh(s, id, j);
        MuFresh2(s, id);
        assert FreshKept(s.w.c.slots, MuGo(s, id, j).w.c.slots);
      }
    case Refresh(_) => MarkStep(s, step, k);
    case StartMu(op) => StartCarried(s, op);
    case GoDrain =>
    case GoRv =>
    case GoRearm(_) =>
    case GoReader(_) =>
    case _ => assert step.Trip? ==> TripGo(s.w).c == s.w.c;
  }

  // The slot holds a lease.
  predicate Occupied(s: State, k: nat) { k < |s.w.c.slots| && s.w.c.slots[k].cur.Some? }

  predicate Storing(s: State, k: nat) { s.mu.IStore? && s.mu.a.k == k && k < |s.w.c.slots| }

  ghost predicate OnlyEmptied(s: State, s': State) {
    forall k: nat :: Occupied(s', k) || Storing(s', k) ==> Occupied(s, k) || Storing(s, k)
  }

  lemma MuEmpties(s: State, id: nat, k: nat)
    ensures OnlyEmptied(s, AcquireGo(s)) && OnlyEmptied(s, FindGo(s, k)) && OnlyEmptied(s, SnapGo(s))
    ensures OnlyEmptied(s, EndGo(s)) && OnlyEmptied(s, BatchGo(s))
  {
    hide LeaseStateAt, FindSlot;
  }

  lemma MuStores(s: State, id: nat)
    ensures OnlyEmptied(s, CheckGo(s)) && (!s.mu.IFresh? ==> OnlyEmptied(s, IssueGo(s, id)))
    ensures s.mu.IFresh? ==>
            forall k: nat :: Occupied(IssueGo(s, id), k) || Storing(IssueGo(s, id), k) ==> Occupied(s, k) || (s.mu.a.k == k && k < |s.w.c.slots|)
  {
    hide LeaseStateAt, NewLease;
  }

  // No slot gains a lease.
  ghost predicate Emptied(slots: seq<Slot>, slots': seq<Slot>) {
    |slots'| == |slots| && forall k :: 0 <= k < |slots| ==> slots'[k].cur == slots[k].cur || slots'[k].cur.None?
  }

  lemma SupervisorEmpties(w: World)
    ensures Emptied(w.c.slots, RvGo(w).c.slots)
  {
    hide Placed;
  }

  lemma WorldEmpties(w: World)
    ensures Emptied(w.c.slots, DrainGo(w).c.slots)
    ensures forall k: nat, t: int :: k < |w.c.slots| ==> Emptied(w.c.slots, MarkFresh(w.c, k, t).slots)
    ensures Emptied(w.c.slots, w.c.slots)
  {
    hide Placed;
  }

  lemma OthersEmpty(s: State, w': World, mu': Mu)
    requires Emptied(s.w.c.slots, w'.c.slots) && (mu' == s.mu || !mu'.IStore?)
    ensures OnlyEmptied(s, s.(w := w', mu := mu'))
  {
  }

  lemma AsideWorlds(s: State, step: Step, i: nat)
    ensures var c' := EnvGo(s.w, step).c; c' == s.w.c || exists k: nat, t: int :: k < |s.w.c.slots| && c' == MarkFresh(s.w.c, k, t)
    ensures RearmGo(s.w, i, true).c == s.w.c
    ensures Do(s, GoDrain, true).mu == s.mu || !Do(s, GoDrain, true).mu.IStore?
  {
    hide MarkFresh, DrainGo;
  }

  // A slot comes to hold a lease by a store, which follows the mark of the same issue.
  lemma OccupiedStep(s: State, step: Step, k: nat)
    requires var s' := Do(s, step, true); Occupied(s', k) || Storing(s', k)
    ensures Occupied(s, k) || Storing(s, k) || (step.GoMu? && s.mu.IFresh? && s.mu.a.k == k && k < |s.w.c.slots|)
  {
    hide AcquireGo, CheckGo, EndGo, IssueGo, BatchGo, FindGo, SnapGo, MuStart, RvGo, DrainGo, RearmGo, EnvGo, ReaderGo, Occupied, Storing, Emptied;
    var s' := Do(s, step, true);
    SupervisorEmpties(s.w);
    WorldEmpties(s.w);
    match step
    case GoMu(id, j) => MuEmpties(s, id, j); MuStores(s, id);
    case StartMu(op) => StartEmpties(s, op);
    case GoReader(_) =>
      OthersEmpty(s, s.w, s.mu);
      SameSlots(s, s', k);
    case GoRearm(i) => AsideWorlds(s, step, i); OthersEmpty(s, s'.w, s.mu);
    case GoRv => OthersEmpty(s, s'.w, s.mu);
    case GoDrain => AsideWorlds(s, step, 0); OthersEmpty(s, s'.w, s'.mu);
    case _ => AsideWorlds(s, step, 0); OthersEmpty(s, s'.w, s.mu);
  }

  lemma StartEmpties(s: State, op: MuOp)
    ensures OnlyEmptied(s, MuStart(s, op))
  {
  }

  lemma SameSlots(s: State, s': State, k: nat)
    requires s'.w == s.w && s'.mu == s.mu
    ensures (Occupied(s', k) <==> Occupied(s, k)) && (Storing(s', k) <==> Storing(s, k))
  {
  }

  // Somebody has marked slot k with the time t so far.
  ghost predicate Marked(steps: seq<Step>, n: nat, k: nat, t: int)
    requires n <= |steps|
  {
    t >= 0 && exists j :: 0 <= j < n && Samples(StateAt(steps, j), steps[j], k, t)
  }

  ghost predicate MarkIsSampled(steps: seq<Step>, n: nat, k: nat)
    requires n <= |steps|
  {
    k < |StateAt(steps, n).w.c.slots| && Marked(steps, n, k, StateAt(steps, n).w.c.slots[k].freshAt)
  }

  // A mark is the initial 0 or somebody's.
  lemma {:induction false} FreshIsSampled(steps: seq<Step>, n: nat, k: nat)
    requires n <= |steps| && k < |StateAt(steps, n).w.c.slots|
    ensures StateAt(steps, n).w.c.slots[k].freshAt == 0 || MarkIsSampled(steps, n, k)
  {
    hide Do, Samples;
    if n > 0 {
      AtNext(steps, n - 1);
      FreshStep(StateAt(steps, n - 1), steps[n - 1], k);
      if k < |StateAt(steps, n - 1).w.c.slots| { FreshIsSampled(steps, n - 1, k); }
    }
  }

  lemma {:induction false} StaysSampled(steps: seq<Step>, m: nat, n: nat, k: nat)
    requires m <= n <= |steps| && MarkIsSampled(steps, m, k)
    ensures MarkIsSampled(steps, n, k)
  {
    hide Do, Samples;
    if m < n {
      StaysSampled(steps, m, n - 1, k);
      AtNext(steps, n - 1);
      FreshStep(StateAt(steps, n - 1), steps[n - 1], k);
    }
  }

  // Once a lease has been issued on a slot its mark is somebody's, even if it is 0.
  lemma {:induction false} OccupiedIsSampled(steps: seq<Step>, n: nat, k: nat)
    requires n <= |steps| && (Occupied(StateAt(steps, n), k) || Storing(StateAt(steps, n), k))
    ensures MarkIsSampled(steps, n, k)
  {
    hide Do, Samples;
    if n > 0 {
      AtNext(steps, n - 1);
      var s := StateAt(steps, n - 1);
      OccupiedStep(s, steps[n - 1], k);
      if Occupied(s, k) || Storing(s, k) {
        OccupiedIsSampled(steps, n - 1, k);
        StaysSampled(steps, n - 1, n, k);
      } else {
        FreshIsSampled(steps, n - 1, k);
        MarkStep(s, steps[n - 1], k);
        IssueSamples(s, steps[n - 1]);
      }
    }
  }

  lemma IssueSamples(s: State, step: Step)
    requires step.GoMu? && s.mu.IFresh?
    ensures Samples(s, step, s.mu.a.k, s.mu.a.now)
  {
  }

  // A check has found its lease in the slot.
  lemma {:induction false} CheckFound(steps: seq<Step>, n: nat) returns (i: nat)
    requires n <= |steps| && !StateAt(steps, n).reader.RIdle?
    ensures i < n && Occupied(StateAt(steps, i), StateAt(steps, n).reader.k)
  {
    hide Do;
    assert steps[..0] == [];
    ReaderNext(steps, n - 1);
    if StateAt(steps, n - 1).reader.RIdle? { i := n - 1; } else { i := CheckFound(steps, n - 1); }
  }

  /** A sign of life on slot k at time t: a Refresh that, having read the clock as t, found a lease there,
      a renewal, or the issue of a lease. */
  predicate Alive(s: State, step: Step, k: nat, t: nat) {
    || (step.Lookup? && step.k == k && step.at == t && t <= s.w.now && Occupied(s, k))
    || (step.GoMu? && s.mu.MRenewFresh? && s.mu.k == k && s.mu.now == t)
    || (step.GoMu? && s.mu.IFresh? && s.mu.a.k == k && s.mu.a.now == t)
  }

  lemma BeatStep(s: State, step: Step)
    ensures var (b, b') := (s.w.beats, Do(s, step, true).w.beats);
            || b' == b
            || (step.Lookup? && Alive(s, step, step.k, step.at) && |b'| == |b| + 1 && b'[..|b|] == b &&
                b'[|b|].k == step.k && b'[|b|].at == step.at)
  {
    hide LeaseStateAt, NewLease, FindSlot;
  }

  // Every pending mark of a Refresh stems from a lookup.
  lemma {:induction false} BeatIsAlive(steps: seq<Step>, n: nat, i: nat) returns (j: nat)
    requires n <= |steps| && i < |StateAt(steps, n).w.beats|
    ensures j < n && var b := StateAt(steps, n).w.beats[i]; Alive(StateAt(steps, j), steps[j], b.k, b.at)
  {
    hide Do, Alive;
    assert steps[..0] == [];
    AtNext(steps, n - 1);
    BeatStep(StateAt(steps, n - 1), steps[n - 1]);
    var b, b' := StateAt(steps, n - 1).w.beats, StateAt(steps, n).w.beats;
    if i < |b| { assert b'[i] == b'[..|b|][i]; j := BeatIsAlive(steps, n - 1, i); } else { j := n - 1; }
  }

  /** The deadman: a lease with a deadman window is only accepted when there was a sign of life on its
      slot no longer ago than the window. */
  lemma DeadmanHonoured(steps: seq<Step>, m: nat, n: nat) returns (j: nat, t: nat)
    requires m <= n <= |steps| && StateAt(steps, m).reader.RIdle? && StateAt(steps, n).reader.RDone?
    requires StateAt(steps, n).reader.l.deadman > 0
    ensures j < n && var r := StateAt(steps, n).reader; r.now - t <= r.l.deadman && Alive(StateAt(steps, j), steps[j], r.k, t)
  {
    hide Do, Init, Samples, Alive, FreshReadAt;
    var k := StateAt(steps, n).reader.k;
    var i := FreshRead(steps, m, n);
    FreshReadGives(StateAt(steps, i), StateAt(steps, n).reader);
    var f := CheckFound(steps, i);
    OccupiedIsSampled(steps, f, k);
    StaysSampled(steps, f, i, k);
    t := StateAt(steps, i).w.c.slots[k].freshAt;
    j :| j < i && Samples(StateAt(steps, j), steps[j], k, t);
    SamplesGives(StateAt(steps, j), steps[j], k, t);
    if steps[j].Refresh? { j := BeatIsAlive(steps, j, steps[j].i); }
  }

  lemma FreshReadGives(s: State, r: Reader)
    requires FreshReadAt(s, r)
    ensures s.reader.RFloor? && s.reader.k == r.k && r.k < |s.w.c.slots|
    ensures r.l.deadman > 0 ==> r.now - s.w.c.slots[r.k].freshAt <= r.l.deadman
    ensures !r.RIdle?
  {
  }

  lemma SamplesGives(s: State, step: Step, k: nat, t: nat)
    requires Samples(s, step, k, t)
    ensures !step.Refresh? ==> Alive(s, step, k, t)
    ensures step.Refresh? ==> step.i < |s.w.beats| && s.w.beats[step.i].k == k && s.w.beats[step.i].at == t
  {
  }
}
