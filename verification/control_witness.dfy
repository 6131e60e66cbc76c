/** Runs of the control-lease protocol that show what can happen: a lease is granted and accepted; and,
    without the environment rule on re-arming, what the code's own check does not prevent. */
module ControlWitness {
  import opened Wrappers
  import opened ControlTypes
  import opened ControlProtocol
  import opened ControlInvariant
  import opened ControlGuarantees
  import opened ControlRearm

  /** Some run reaches t with so many re-arm callers at most. */
  ghost predicate Reach(t: State, rule: bool, callers: nat) {
    exists steps: seq<Step> :: Exec(Init(), steps, rule) == t && FewCallers(steps, callers)
  }

  predicate FewCallers(steps: seq<Step>, callers: nat) {
    forall j :: 0 <= j < |steps| && steps[j].GoRearm? ==> steps[j].i < callers
  }

  lemma ReachInit(rule: bool, callers: nat)
    ensures Reach(Init(), rule, callers)
  {
    assert FewCallers([], callers) && Exec(Init(), [], rule) == Init();
  }

  lemma ReachNext(t: State, x: Step, rule: bool, callers: nat, t': State)
    requires Reach(t, rule, callers) && Do(t, x, rule) == t' && (x.GoRearm? ==> x.i < callers)
    ensures Reach(t', rule, callers)
  {
    hide Do, Init;
    var steps :| Exec(Init(), steps, rule) == t && FewCallers(steps, callers);
    assert (steps + [x])[..|steps|] == steps;
    assert Exec(Init(), steps + [x], rule) == t' && FewCallers(steps + [x], callers);
  }

  // ------------------------------------------------------------------ one Acquire, from any quiet state

  /** Nothing stands in the way of an Acquire of slot k. */
  predicate Ready(s: State, q: Request, k: nat) {
    && s.mu.MuIdle? && !s.w.stopping && s.w.c.pending == 0 && s.w.g.gate.st == Normal
    && k == FindSlot(s.w.c.slots, q.resource) < |s.w.c.slots| && s.w.c.slots[k].cur.None?
  }

  /** The Acquire has allocated its epoch. */
  function Pending(s: State, q: Request, k: nat): State {
    var w := s.w.(g := Bump(s.w.g), spent := 1);
    s.(w := w, mu := IPend(Acq(q, s.w.now, k), Plain, s.w.g.gate.epoch + 1))
  }

  lemma Enters(s: State, q: Request, k: nat, rule: bool, callers: nat)
    requires Reach(s, rule, callers) && Ready(s, q, k)
    ensures Reach(s.(w := s.w.(spent := 0), mu := ASlot(q, s.w.now)), rule, callers)
  {
    hide Reach, Init;
    var z := s.(w := s.w.(spent := 0));
    ReachNext(s, StartMu(OpAcquire(q)), rule, callers, To(z, AEnter(q)));
    ReachNext(To(z, AEnter(q)), GoMu(0, 0), rule, callers, To(z, AStop(q)));
    ReachNext(To(z, AStop(q)), GoMu(0, 0), rule, callers, To(z, AClock(q)));
    ReachNext(To(z, AClock(q)), GoMu(0, 0), rule, callers, To(z, AGate(q, s.w.now)));
    ReachNext(To(z, AGate(q, s.w.now)), GoMu(0, 0), rule, callers, To(z, ASlot(q, s.w.now)));
  }

  lemma Allocates(s: State, q: Request, k: nat, rule: bool, callers: nat)
    requires Reach(s, rule, callers) && Ready(s, q, k)
    ensures Reach(Pending(s, q, k), rule, callers)
  {
    hide Reach, Init;
    var z, a := s.(w := s.w.(spent := 0)), Acq(q, s.w.now, k);
    Enters(s, q, k, rule, callers);
    ReachNext(To(z, ASlot(q, s.w.now)), GoMu(0, 0), rule, callers, To(z, ALoad(a)));
    ReachNext(To(z, ALoad(a)), GoMu(0, 0), rule, callers, To(z, IBump(a, Plain)));
    ReachNext(To(z, IBump(a, Plain)), GoMu(0, 0), rule, callers, Pending(s, q, k));
  }

  /** Nothing stands in the way of the issue either. */
  predicate Clear(s: State, id: nat) {
    && s.mu.ISeq? && s.mu.a.k < |s.w.c.slots| && s.w.c.slots[s.mu.a.k].revoked.None?
    && s.w.g.seqno % 2 == 0 && s.w.g.gate == Gate(Normal, s.mu.ep) && id !in s.w.c.place
  }

  function Granted(s: State, id: nat): State
    requires Clear(s, id)
  {
    var (a, l) := (s.mu.a, NewLease(s.mu.a, id, s.mu.ep));
    var c := Store(MarkFresh(Mint(s.w.c, a.k, l), a.k, a.now), a.k, l);
    s.(w := s.w.(c := c, grants := s.w.grants + [Grant(l, a.k, s.mu.how, s.w.spent)]), mu := MuIdle)
  }

  // The lease is minted and its slot marked fresh.
  lemma Mints(s: State, id: nat, rule: bool, callers: nat)
    requires Reach(s, rule, callers) && Clear(s, id)
    ensures var (a, l) := (s.mu.a, NewLease(s.mu.a, id, s.mu.ep));
            Reach(Put(s, MarkFresh(Mint(s.w.c, a.k, l), a.k, a.now), IStore(a, s.mu.how, l, s.w.g.seqno)), rule, callers)
  {
    hide Reach, Init;
    var a, how, seen, l := s.mu.a, s.mu.how, s.w.g.seqno, NewLease(s.mu.a, id, s.mu.ep);
    var c1 := Mint(s.w.c, a.k, l);
    var c2 := MarkFresh(c1, a.k, a.now);
    ReachNext(s, GoMu(id, 0), rule, callers, To(s, IRevoked(a, how, s.mu.ep, seen)));
    ReachNext(To(s, IRevoked(a, how, s.mu.ep, seen)), GoMu(id, 0), rule, callers, Put(s, c1, IFresh(a, how, l, seen)));
    ReachNext(Put(s, c1, IFresh(a, how, l, seen)), GoMu(id, 0), rule, callers, Put(s, c2, IStore(a, how, l, seen)));
  }

  // It is stored, and both checks after that pass.
  lemma Publishes(s: State, rule: bool, callers: nat)
    requires Reach(s, rule, callers) && s.mu.IStore? && s.mu.a.k < |s.w.c.slots|
    requires s.w.g.gate == Gate(Normal, s.mu.l.epoch) && s.w.g.seqno == s.mu.seen
    ensures var w := s.w.(c := Store(s.w.c, s.mu.a.k, s.mu.l), grants := s.w.grants + [Grant(s.mu.l, s.mu.a.k, s.mu.how, s.w.spent)]);
            Reach(State(w, MuIdle, s.reader), rule, callers)
  {
    hide Reach, Init;
    var a, how, l, seen := s.mu.a, s.mu.how, s.mu.l, s.mu.seen;
    var c := Store(s.w.c, a.k, l);
    var w := s.w.(c := c, grants := s.w.grants + [Grant(l, a.k, how, s.w.spent)]);
    ReachNext(s, GoMu(0, 0), rule, callers, Put(s, c, IGate(a, how, l, seen)));
    ReachNext(Put(s, c, IGate(a, how, l, seen)), GoMu(0, 0), rule, callers, Put(s, c, IReSeq(a, how, l, seen)));
    ReachNext(Put(s, c, IReSeq(a, how, l, seen)), GoMu(0, 0), rule, callers, State(w, MuIdle, s.reader));
  }

  lemma Issues(s: State, id: nat, rule: bool, callers: nat)
    requires Reach(s, rule, callers) && Clear(s, id)
    ensures Reach(Granted(s, id), rule, callers)
  {
    hide Reach, Init;
    var a, l := s.mu.a, NewLease(s.mu.a, id, s.mu.ep);
    Mints(s, id, rule, callers);
    Publishes(Put(s, MarkFresh(Mint(s.w.c, a.k, l), a.k, a.now), IStore(a, s.mu.how, l, s.w.g.seqno)), rule, callers);
  }

  lemma Acquires(s: State, q: Request, k: nat, id: nat, rule: bool, callers: nat)
    requires Reach(s, rule, callers) && Ready(s, q, k)
    requires s.w.c.slots[k].revoked.None? && s.w.g.seqno % 2 == 0 && id !in s.w.c.place
    ensures var p := Pending(s, q, k);
            Reach(Granted(To(p, ISeq(p.mu.a, p.mu.how, p.mu.ep)), id), rule, callers)
  {
    hide Reach, Init;
    var p := Pending(s, q, k);
    Allocates(s, q, k, rule, callers);
    ReachNext(p, GoMu(0, 0), rule, callers, To(p, ISeq(p.mu.a, p.mu.how, p.mu.ep)));
    Issues(To(p, ISeq(p.mu.a, p.mu.how, p.mu.ep)), id, rule, callers);
  }

  // ------------------------------------------------------------------ a check that accepts

  lemma ExecNext(s: State, cont: seq<Step>, x: Step)
    ensures Exec(s, cont + [x], false) == Do(Exec(s, cont, false), x, false)
  {
    assert (cont + [x])[..|cont|] == cont;
  }

  predicate Acceptable(s: State, k: nat) {
    && k < |s.w.c.slots| && s.w.c.slots[k].cur.Some? && s.w.g.gate.st == Normal && s.reader.RIdle?
    && s.w.g.floor < s.w.c.slots[k].cur.value.epoch && s.w.now <= s.w.c.slots[k].cur.value.deadline
  }

  /** An unexpired lease above the floor is accepted by the next check under a Normal gate, once its holder
      has shown a sign of life. */
  lemma IsAccepted(s: State, k: nat) returns (cont: seq<Step>)
    requires Acceptable(s, k)
    ensures SwapFree(s, cont)
    ensures var (l, r) := (s.w.c.slots[k].cur.value, Exec(s, cont, false).reader);
            r == RDone(k, l, s.w.g.lastTrip, s.w.g.gate, true, s.w.g.lastTrip, s.w.now)
  {
    var w, l := s.w, s.w.c.slots[k].cur.value;
    var beats := w.beats + [Beat(k, w.now, l.id)];
    var s1 := s.(w := w.(beats := beats));
    var s2 := s.(w := w.(beats := beats, c := MarkFresh(w.c, k, w.now)));
    var g, t := w.g.gate, w.g.lastTrip;
    var c1 := [Lookup(k, w.now)];
    var c2 := c1 + [Refresh(|w.beats|)];
    var c3 := c2 + [GoReader(k)];
    var c4 := c3 + [GoReader(k)];
    var c5 := c4 + [GoReader(k)];
    var c6 := c5 + [GoReader(k)];
    cont := c6 + [GoReader(k)];
    assert Exec(s, [], false) == s && [] + c1 == c1;
    ExecNext(s, [], Lookup(k, w.now));
    ExecNext(s, c1, Refresh(|w.beats|));
    assert Exec(s, c2, false) == s2;
    ExecNext(s, c2, GoReader(k));
    ExecNext(s, c3, GoReader(k));
    assert Exec(s, c4, false) == s2.(reader := RGate(k, l, w.now, t, g, true, t));
    ExecNext(s, c4, GoReader(k));
    ExecNext(s, c5, GoReader(k));
    assert Exec(s, c6, false) == s2.(reader := RFresh(k, l, w.now, t, g, true, t, w.g.floor));
    ExecNext(s, c6, GoReader(k));
    assert forall n :: 0 <= n < |cont| ==> !cont[n].GoRearm?;
  }

  /** Swapping the gate while an unexpired lease in a slot is above the floor lets a check that starts
      afterwards accept it, although it is older than the last Trip. */
  lemma UnsafeSwapIsAccepted(s: State, i: nat, k: nat) returns (cont: seq<Step>)
    requires Sane(s) && Arms(s.w, i) && s.reader.RIdle? && k < |s.w.c.slots| && s.w.c.slots[k].cur.Some?
    requires s.w.g.floor < s.w.c.slots[k].cur.value.epoch && s.w.now <= s.w.c.slots[k].cur.value.deadline
    ensures var s' := Do(s, GoRearm(i), false);
            && SwapFree(s', cont)
            && var r := Exec(s', cont, false).reader; r.RDone? && r.born == s.w.g.lastTrip && r.l.epoch <= s.w.g.lastTrip
  {
    assert Around(s, s.w.c.slots[k].cur.value.epoch);
    cont := IsAccepted(Do(s, GoRearm(i), false), k);
  }

  /** There are runs in which a lease is granted and a check accepts it. */
  lemma AcceptanceHappens()
    ensures exists t: State :: Reach(t, true, 0) && |t.w.grants| == 1 && t.reader.RDone? && t.reader.l == t.w.grants[0].lease
  {
    hide Reach;
    ReachInit(true, 0);
    var s0, q := Init(), Asked();
    Acquires(s0, q, 0, 5, true, 0);
    var p := Pending(s0, q, 0);
    var s := Granted(To(p, ISeq(p.mu.a, p.mu.how, p.mu.ep)), 5);
    var l, g := s.w.c.slots[0].cur.value, Gate(Normal, 2);
    ReachNext(s, GoReader(0), true, 0, s.(reader := RLoaded(0, l, 0, 0)));
    ReachNext(s.(reader := RLoaded(0, l, 0, 0)), GoReader(0), true, 0, s.(reader := RGate(0, l, 0, 0, g, true, 0)));
    ReachNext(s.(reader := RGate(0, l, 0, 0, g, true, 0)), GoReader(0), true, 0, s.(reader := RFloor(0, l, 0, 0, g, true, 0, 0)));
    ReachNext(s.(reader := RFloor(0, l, 0, 0, g, true, 0, 0)), GoReader(0), true, 0, s.(reader := RFresh(0, l, 0, 0, g, true, 0, 0)));
    ReachNext(s.(reader := RFresh(0, l, 0, 0, g, true, 0, 0)), GoReader(0), true, 0, s.(reader := RDone(0, l, 0, g, true, 0, 0)));
  }

  function Asked(): Request { Request(7, AI, "base.main", 1, "pkg", 10, 5) }

  // ------------------------------------------------------------------ without the rule

  // The initial state with another safety state and supervisor.
  function Halting(g: Safety, rv: Rv): State {
    var s := Init();
    s.(w := s.w.(g := g, c := s.w.c.(rv := rv)))
  }

  lemma HaltBegins(callers: nat)
    ensures Reach(Halting(Safety(Gate(Latched, 2), 2, 1, 2, 2, 0, []), RvFloored(2)), false, callers)
  {
    hide Reach;
    var t1 := Halting(Safety(Gate(Latched, 2), 2, 0, 0, 0, 0, []), RvIdle);
    var t2 := Halting(Safety(Gate(Latched, 2), 2, 0, 0, 0, 0, []), RvReady(2));
    var t3 := Halting(Safety(Gate(Latched, 2), 2, 0, 0, 2, 0, []), RvPhase(2));
    var t4 := Halting(Safety(Gate(Latched, 2), 2, 1, 0, 2, 0, []), RvOdd(2));
    var t5 := Halting(Safety(Gate(Latched, 2), 2, 1, 2, 2, 0, []), RvFloored(2));
    ReachInit(false, callers);
    ReachNext(Init(), Trip, false, callers, t1);
    ReachNext(t1, GoRv, false, callers, t2);
    ReachNext(t2, GoRv, false, callers, t3);
    ReachNext(t3, GoRv, false, callers, t4);
    ReachNext(t4, GoRv, false, callers, t5);
  }

  // One halt, settled, waiting to be re-armed.
  lemma HaltEnds(callers: nat)
    ensures Reach(Halting(Safety(Gate(RearmRequired, 2), 2, 2, 2, 2, 2, []), RvIdle), false, callers)
  {
    hide Reach;
    var t5 := Halting(Safety(Gate(Latched, 2), 2, 1, 2, 2, 0, []), RvFloored(2));
    var t6 := Halting(Safety(Gate(Latched, 2), 2, 1, 2, 2, 0, []), RvScan(2, 0, 1));
    var t7 := Halting(Safety(Gate(Latched, 2), 2, 1, 2, 2, 0, []), RvScan(2, 1, 1));
    var t8 := Halting(Safety(Gate(Latched, 2), 2, 2, 2, 2, 0, []), RvIdle);
    var t9 := Halting(Safety(Gate(Latched, 2), 2, 2, 2, 2, 2, []), RvIdle);
    var t10 := Halting(Safety(Gate(RearmRequired, 2), 2, 2, 2, 2, 2, []), RvIdle);
    HaltBegins(callers);
    ReachNext(t5, GoRv, false, callers, t6);
    ReachNext(t6, GoRv, false, callers, t7);
    ReachNext(t7, GoRv, false, callers, t8);
    ReachNext(t8, Settle, false, callers, t9);
    ReachNext(t9, RequireRearm, false, callers, t10);
  }

  function Rearming(re: seq<Re>): State { Halting(Safety(Gate(RearmRequired, 2), 2, 2, 2, 2, 2, re), RvIdle) }

  // Two callers have passed the check of the same halt, and one has swapped.
  lemma SecondCallerWaits()
    ensures Reach(Halting(Safety(Gate(Normal, 3), 2, 2, 2, 2, 2, [ReChecked(2), ReIdle]), RvIdle), false, 2)
  {
    hide Reach;
    HaltEnds(2);
    ReachNext(Rearming([]), GoRearm(0), false, 2, Rearming([ReSnap(2)]));
    ReachNext(Rearming([ReSnap(2)]), GoRearm(0), false, 2, Rearming([ReChecked(2)]));
    ReachNext(Rearming([ReChecked(2)]), GoRearm(1), false, 2, Rearming([ReChecked(2), ReSnap(2)]));
    ReachNext(Rearming([ReChecked(2), ReSnap(2)]), GoRearm(1), false, 2, Rearming([ReChecked(2), ReChecked(2)]));
    var t := Halting(Safety(Gate(Normal, 3), 2, 2, 2, 2, 2, [ReChecked(2), ReIdle]), RvIdle);
    ReachNext(Rearming([ReChecked(2), ReChecked(2)]), GoRearm(1), false, 2, t);
  }

  /** With two re-arm callers the check of the settled stop phase is not enough. A passes it, B re-arms, a
      lease is granted, a Trip follows, and A swaps the gate before that Trip's RevokeAll has begun: a
      check that starts after all this accepts the lease, although the Trip came after it. */
  lemma RearmCheckIsNotEnough() returns (s: State, cont: seq<Step>)
    ensures Reach(s, false, 2) && Arms(s.w, 0) && s.reader.RIdle? && !Swept(s.w)
    ensures var s' := Do(s, GoRearm(0), false);
            && SwapFree(s', cont) && |s.w.grants| == 1
            && var r := Exec(s', cont, false).reader;
               r.RDone? && r.l == s.w.grants[0].lease && r.l.epoch < s.w.g.lastTrip && r.born == s.w.g.lastTrip
  {
    hide Reach;
    var s0 := Halting(Safety(Gate(Normal, 3), 2, 2, 2, 2, 2, [ReChecked(2), ReIdle]), RvIdle);
    SecondCallerWaits();
    Acquires(s0, Asked(), 0, 5, false, 2);
    var p := Pending(s0, Asked(), 0);
    var s1 := Granted(To(p, ISeq(p.mu.a, p.mu.how, p.mu.ep)), 5);
    var s2 := s1.(w := s1.w.(g := s1.w.g.(gate := Gate(Latched, 5), lastTrip := 5)));
    s := s1.(w := s1.w.(g := s1.w.g.(gate := Gate(RearmRequired, 5), lastTrip := 5)));
    ReachNext(s1, Trip, false, 2, s2);
    ReachNext(s2, RequireRearm, false, 2, s);
    cont := IsAccepted(Do(s, GoRearm(0), false), 0);
  }

  // The supervisor has seen the second Trip and is about to start its RevokeAll.
  lemma SwapOvertakes()
    ensures Reach(Halting(Safety(Gate(Normal, 4), 3, 2, 2, 2, 2, [ReIdle]), RvReady(3)), false, 1)
  {
    hide Reach;
    HaltEnds(1);
    ReachNext(Rearming([]), GoRearm(0), false, 1, Rearming([ReSnap(2)]));
    ReachNext(Rearming([ReSnap(2)]), GoRearm(0), false, 1, Rearming([ReChecked(2)]));
    var t1 := Halting(Safety(Gate(Latched, 3), 3, 2, 2, 2, 2, [ReChecked(2)]), RvIdle);
    var t2 := Halting(Safety(Gate(RearmRequired, 3), 3, 2, 2, 2, 2, [ReChecked(2)]), RvIdle);
    var t3 := Halting(Safety(Gate(RearmRequired, 3), 3, 2, 2, 2, 2, [ReChecked(2)]), RvReady(3));
    ReachNext(Rearming([ReChecked(2)]), Trip, false, 1, t1);
    ReachNext(t1, RequireRearm, false, 1, t2);
    ReachNext(t2, GoRv, false, 1, t3);
    ReachNext(t3, GoRearm(0), false, 1, Halting(Safety(Gate(Normal, 4), 3, 2, 2, 2, 2, [ReIdle]), RvReady(3)));
  }

  // RevokeAll takes the lease of slot 0 under a Normal gate.
  lemma RevokeAllTakes(s: State, l: Lease)
    requires Reach(s, false, 1) && s.w.c.rv == RvReady(3) && |s.w.c.slots| == 1 && s.w.c.slots[0].cur == Some(l)
    requires s.w.g.floor == 2 && s.w.g.seqno == 2
    ensures var g' := s.w.g.(halt := 3, settled := 0, seqno := 3, floor := 3);
            Reach(s.(w := s.w.(g := g', c := Take(s.w.c, 0, l, Mid).(rv := RvMid(3, 0, 1, l)))), false, 1)
  {
    hide Reach;
    var g1 := s.w.g.(halt := 3, settled := 0);
    var g2 := g1.(seqno := 3);
    var g3 := g2.(floor := 3);
    var s1 := s.(w := s.w.(g := g1, c := s.w.c.(rv := RvPhase(3))));
    var s2 := s.(w := s.w.(g := g2, c := s.w.c.(rv := RvOdd(3))));
    var s3 := s.(w := s.w.(g := g3, c := s.w.c.(rv := RvFloored(3))));
    var s4 := s.(w := s.w.(g := g3, c := s.w.c.(rv := RvScan(3, 0, 1))));
    ReachNext(s, GoRv, false, 1, s1);
    ReachNext(s1, GoRv, false, 1, s2);
    ReachNext(s2, GoRv, false, 1, s3);
    ReachNext(s3, GoRv, false, 1, s4);
    ReachNext(s4, GoRv, false, 1, s.(w := s.w.(g := g3, c := Take(s.w.c, 0, l, Mid).(rv := RvMid(3, 0, 1, l)))));
  }

  // It hands the lease over and ends, and a drainer picks the lease up.
  lemma DrainerHolds(s: State, l: Lease)
    requires Reach(s, false, 1) && s.w.c.rv == RvMid(3, 0, 1, l) && |s.w.c.slots| == 1 && s.w.c.slots[0].revoked.None?
    requires s.w.c.drain.DFree? && s.w.c.pending == 0
    ensures var c' := Collect(HandOver(s.w.c, 0, l), 0, l).(rv := RvIdle, drain := DHold(false, 0, 1, l), pending := 1);
            Reach(s.(w := s.w.(g := s.w.g.(seqno := s.w.g.seqno + 1), c := c')), false, 1)
  {
    hide Reach;
    var c1 := s.w.c.(rv := RvCounted(3, 0, 1, l), pending := 1);
    var c2 := HandOver(c1, 0, l).(rv := RvScan(3, 1, 1));
    var c3 := c2.(rv := RvIdle);
    var c4 := c3.(drain := DAt(false, 0, 1));
    var c5 := Collect(c4, 0, l).(drain := DHold(false, 0, 1, l));
    var g' := s.w.g.(seqno := s.w.g.seqno + 1);
    ReachNext(s, GoRv, false, 1, s.(w := s.w.(c := c1)));
    ReachNext(s.(w := s.w.(c := c1)), GoRv, false, 1, s.(w := s.w.(c := c2)));
    ReachNext(s.(w := s.w.(c := c2)), GoRv, false, 1, s.(w := s.w.(g := g', c := c3)));
    ReachNext(s.(w := s.w.(g := g', c := c3)), GoDrain, false, 1, s.(w := s.w.(g := g', c := c4)));
    ReachNext(s.(w := s.w.(g := g', c := c4)), GoDrain, false, 1, s.(w := s.w.(g := g', c := c5)));
  }

  /** Even a single re-arm caller can break the order of notifications: it swaps the gate between a Trip
      and its RevokeAll, which then takes a lease under a Normal gate. An Acquire of the same slot that has
      already found nothing pending is granted while the end of the earlier lease is still undelivered. */
  lemma EndComesTooLate()
    ensures exists t: State :: Reach(t, false, 1) && t.mu.MuIdle? && |t.w.grants| == 2 && t.w.grants[0].k == t.w.grants[1].k &&
              |t.w.c.slots| == 1 && t.w.c.slots[0].cur == Some(t.w.grants[1].lease) && t.w.c.ended[t.w.grants[0].lease.id] == 0
  {
    hide Reach;
    var s0, q := Halting(Safety(Gate(Normal, 4), 3, 2, 2, 2, 2, [ReIdle]), RvReady(3)), Asked();
    SwapOvertakes();
    Acquires(s0, q, 0, 5, false, 1);
    var p0 := Pending(s0, q, 0);
    var s1 := Granted(To(p0, ISeq(p0.mu.a, p0.mu.how, p0.mu.ep)), 5);
    var l := s1.w.grants[0].lease;
    RevokeAllTakes(s1, l);
    var g2 := s1.w.g.(halt := 3, settled := 0, seqno := 3, floor := 3);
    assert s1.w.c.slots[0].cur == Some(l);
    var s2 := s1.(w := s1.w.(g := g2, c := Take(s1.w.c, 0, l, Mid).(rv := RvMid(3, 0, 1, l))));
    Allocates(s2, q, 0, false, 1);
    var p := Pending(s2, q, 0);
    var s3 := To(p, ISeq(p.mu.a, p.mu.how, p.mu.ep));
    ReachNext(p, GoMu(0, 0), false, 1, s3);
    DrainerHolds(s3, l);
    var c4 := Collect(HandOver(s3.w.c, 0, l), 0, l).(rv := RvIdle, drain := DHold(false, 0, 1, l), pending := 1);
    var s4 := s3.(w := s3.w.(g := s3.w.g.(seqno := 4), c := c4));
    Issues(s4, 6, false, 1);
  }
}
