/** The steps of the holder of `mu` keep the invariant. */
module ControlMuProof {
  import opened Wrappers
  import opened ControlTypes
  import opened ControlProtocol
  import opened ControlInvariant
  import opened ControlProof

  // ------------------------------------------------------------------ weakening what mu relies on

  predicate Less<T(==)>(o: Option<T>, o': Option<T>) { o' == o || o'.None? }

  predicate LessSlots(f: Facts, f': Facts) {
    && Less(f.nilOr, f'.nilOr) && Less(f.home, f'.home) && Less(f.count, f'.count) && Less(f.index, f'.index)
    && (f'.empty == f.empty || (f'.empty.None? && f'.guard.None?))
    && (f'.admitted ==> f.admitted) && (f'.shutdown ==> f.shutdown) && Less(f.sealed, f'.sealed)
  }

  predicate LessIssue(f: Facts, f': Facts) {
    && (f'.token == f.token || (f'.token.None? && f'.cleared.None?))
    && (f'.seen == f.seen || (f'.seen.None? && f'.sure.None? && f'.above.None?))
    && Less(f.sure, f'.sure) && Less(f.above, f'.above)
    && (f'.guard == f.guard || (f'.guard.None? && f'.cell.None?)) && Less(f.cell, f'.cell)
    && (f'.spent.None? || (f.spent.Some? && f'.spent.value.lo <= f.spent.value.lo && f.spent.value.hi <= f'.spent.value.hi))
  }

  predicate LessRest(f: Facts, f': Facts) {
    && Less(f.quiet, f'.quiet) && Less(f.over, f'.over)
    && f'.draining == f.draining && Less(f.cleared, f'.cleared)
    && f'.birth == f.birth && Less(f.stored, f'.stored) && f'.dropped == f.dropped && Less(f.ungranted, f'.ungranted)
    && Less(f.sampled, f'.sampled) && Less(f.look, f'.look) && Less(f.lookFloor, f'.lookFloor)
    && (f'.verdict ==> f.verdict)
  }

  predicate Weaker(f: Facts, f': Facts) { LessSlots(f, f') && LessIssue(f, f') && LessRest(f, f') }

  lemma WeakenSlots(w: World, f: Facts, f': Facts)
    requires SlotFacts(w, f) && LessSlots(f, f')
    ensures SlotFacts(w, f')
  {
  }

  lemma WeakenIssue(w: World, f: Facts, f': Facts)
    requires IssueFacts(w, f) && (f'.guard.Some? ==> f'.empty == f.empty) && LessIssue(f, f')
    ensures IssueFacts(w, f')
  {
  }

  lemma WeakenQuiet(w: World, f: Facts, f': Facts)
    requires QuietFacts(w, f) && DrainFacts(w, f) && LookFacts(w, f) && LessIssue(f, f') && LessRest(f, f')
    ensures QuietFacts(w, f') && DrainFacts(w, f') && LookFacts(w, f')
  {
  }

  lemma WeakenLeases(w: World, f: Facts, f': Facts)
    requires LeaseFacts(w, f) && GrantFacts(w, f) && LessIssue(f, f') && LessRest(f, f')
    ensures LeaseFacts(w, f') && GrantFacts(w, f')
  {
  }

  /** Only what is known of the slots is new. */
  lemma Reslot(w: World, f: Facts, f': Facts)
    requires FactsOk(w, f) && SlotFacts(w, f')
    requires (f'.guard.Some? ==> f'.empty == f.empty) && LessIssue(f, f') && LessRest(f, f')
    ensures FactsOk(w, f')
  {
    hide LessIssue, LessRest, SlotFacts, IssueFacts, QuietFacts, DrainFacts, LookFacts, LeaseFacts, GrantFacts;
    WeakenIssue(w, f, f');
    WeakenQuiet(w, f, f');
    WeakenLeases(w, f, f');
  }

  lemma Weaken(w: World, f: Facts, f': Facts)
    requires FactsOk(w, f) && LessSlots(f, f') && LessIssue(f, f') && LessRest(f, f')
    requires f'.guard.Some? ==> f'.empty == f.empty
    ensures FactsOk(w, f')
  {
    hide LessSlots, LessIssue, LessRest, SlotFacts, IssueFacts, QuietFacts, DrainFacts, LookFacts, LeaseFacts, GrantFacts;
    WeakenSlots(w, f, f');
    Reslot(w, f, f');
  }

  /** Every lease of a slot is over once the slot and its hand-over cell are empty and nothing is
      on the way, in a Normal gate. */
  lemma NothingLeft(w: World, f: Facts, ep: nat, k: nat)
    requires Core(w) && LeaseFacts(w, f) && f.birth.None? && f.dropped == []
    requires w.g.gate.st == Normal && w.c.drain.DHold? == false
    requires k < |w.c.slots| && w.c.slots[k].cur.None? && w.c.slots[k].revoked.None?
    ensures AllOver(w, Quiet(ep, k, None))
  {
    hide EndedAt, Filled;
  }

  /** With nothing pending the hand-over cells are empty and no delivery is in progress. */
  lemma NonePending(c: Cells, k: nat)
    requires CellsInv(c) && c.pending == 0 && k < |c.slots|
    ensures c.slots[k].revoked.None? && !InHand(c.drain) && !c.rv.RvCounted?
  {
    hide CurAt, RevokedAt, MidAt, EndedAt, DrainAt, CellInv;
    FilledZero(c.slots, k);
  }

  // ------------------------------------------------------------------ steps that only move the program counter

  lemma LocalAcquire(s: State)
    requires FactsOk(s.w, FactsOf(s.mu)) && Fits(s.mu)
    requires s.mu.AEnter? || s.mu.AStop? || s.mu.AClock? || s.mu.AGate?
    ensures var s' := AcquireGo(s); s'.w == s.w && Fits(s'.mu) && FactsOk(s.w, FactsOf(s'.mu))
  {
    hide IssueFacts, QuietFacts, DrainFacts, LookFacts, LeaseFacts, GrantFacts;
    Reslot(s.w, FactsOf(s.mu), FactsOf(AcquireGo(s).mu));
  }

  lemma LoadNext(w: World, a: Acq, mu: Mu)
    requires FactsOk(w, FactsOf(ALoad(a))) && a.k < |w.c.slots|
    requires if w.c.slots[a.k].cur.None? then mu == IBump(a, Plain)
             else var l := w.c.slots[a.k].cur.value;
               mu == MDrop(a.k, l, ToIssue(a, AfterDrop)) || mu == VGate(a.k, l, a.now, ForAcquire(a))
    ensures FactsOk(w, FactsOf(mu)) && Fits(mu)
  {
    hide FactsOf, IssueFacts, QuietFacts, DrainFacts, LookFacts, LeaseFacts, GrantFacts;
    var f := Entering().(home := Some(Home(a.k, a.req.resource)));
    AtLoad(a);
    if mu.IBump? { AtBump(a, Plain); Reslot(w, f, Bumping(a, Plain)); }
    else if mu.MDrop? { AtDrop(a.k, mu.l, ToIssue(a, AfterDrop)); Reslot(w, f, ToDrop(a.k, mu.l, ToIssue(a, AfterDrop))); }
    else { AtCheck(a.k, mu.l, a.now, ForAcquire(a)); Reslot(w, f, Checking(a.k, mu.l, ForAcquire(a))); }
  }

  lemma LocalLoad(s: State)
    requires FactsOk(s.w, FactsOf(s.mu)) && s.mu.ALoad?
    ensures var s' := AcquireGo(s); s'.w == s.w && Fits(s'.mu) && FactsOk(s.w, FactsOf(s'.mu))
  {
    hide FactsOk, FactsOf, Fits;
    if s.mu.a.k < |s.w.c.slots| { LoadNext(s.w, s.mu.a, AcquireGo(s).mu); } else { TrivialFits(s.mu); }
  }

  lemma TrivialFits(mu: Mu)
    requires mu.ALoad? || mu.MuIdle?
    ensures Fits(mu)
  {
  }

  // Any program point outside a drain and without unfinished business may end the operation.
  lemma Idle(w: World, f: Facts)
    requires FactsOk(w, f) && !f.draining && f.birth.None? && f.dropped == []
    ensures FactsOk(w, FactsOf(MuIdle)) && Fits(MuIdle)
  {
    hide FactsOk;
    Weaken(w, f, Nothing);
  }

  lemma LocalCheck(s: State)
    requires FactsOk(s.w, FactsOf(s.mu)) && Fits(s.mu) && (s.mu.VGate? || s.mu.VFloor?)
    ensures var s' := CheckGo(s); s'.w == s.w && Fits(s'.mu) && FactsOk(s.w, FactsOf(s'.mu))
  {
    hide FactsOk;
    Weaken(s.w, FactsOf(s.mu), FactsOf(CheckGo(s).mu));
  }

  lemma DecideNext(w: World, k: nat, l: Lease, now: nat, a: Acq, mu: Mu)
    requires FactsOk(w, Checking(k, l, ForAcquire(a))) && a.k == k
    requires mu == MDrop(k, l, ToIssue(a, AfterDrop)) || mu == MRenew(k, l, now) || mu == MPreempt(a, l)
    ensures FactsOk(w, FactsOf(mu)) && Fits(mu)
  {
    hide FactsOk;
    if mu.MDrop? { Weaken(w, Checking(k, l, ForAcquire(a)), FactsOf(MDrop(k, l, ToIssue(a, AfterDrop)))); }
    else if mu.MRenew? { Weaken(w, Checking(k, l, ForAcquire(a)), FactsOf(MRenew(k, l, now))); }
    else { Weaken(w, Checking(k, l, ForAcquire(a)), FactsOf(MPreempt(a, l))); }
  }

  lemma VerdictNext(w: World, f: Facts, k: nat, l: Lease, now: nat, mu: Mu)
    requires FactsOk(w, f) && f == Fresh(Nothing.(nilOr := Some(Hold(k, l))))
    requires mu == VHolds(k, l, now) || mu == MRenew(k, l, now) || mu == MDrop(k, l, ToIdle)
    ensures FactsOk(w, FactsOf(mu)) && Fits(mu)
  {
    hide FactsOk;
    if mu.VHolds? { assert FactsOf(VHolds(k, l, now)) == f; }
    else if mu.MRenew? { assert FactsOf(MRenew(k, l, now)) == f; }
    else { assert FactsOf(MDrop(k, l, ToIdle)) == f; }
  }

  lemma CheckingIs(k: nat, l: Lease, now: nat, st: GateState, floor: nat, use: Use)
    ensures FactsOf(VFresh(k, l, now, st, floor, use)) == Checking(k, l, use)
    ensures FactsOf(VHolds(k, l, now)) == Fresh(Nothing.(nilOr := Some(Hold(k, l))))
    ensures Fits(VFresh(k, l, now, st, floor, use)) <==> UseFits(k, use)
  {
  }

  lemma LocalDecide(s: State)
    requires FactsOk(s.w, FactsOf(s.mu)) && Fits(s.mu) && s.mu.VFresh? && s.mu.k < |s.w.c.slots|
    ensures var s' := CheckGo(s); s'.w == s.w && Fits(s'.mu) && FactsOk(s.w, FactsOf(s'.mu))
  {
    hide FactsOk, FactsOf, Fits, LeaseStateAt;
    var VFresh(k, l, now, st, floor, use) := s.mu;
    var mu := CheckGo(s).mu;
    CheckingIs(k, l, now, st, floor, use);
    if mu.MuIdle? { Idle(s.w, Checking(k, l, use)); }
    else if use.ForAcquire? { DecideNext(s.w, k, l, now, use.a, mu); }
    else { VerdictNext(s.w, Checking(k, l, use), k, l, now, mu); }
  }

  lemma LocalHolds(s: State)
    requires FactsOk(s.w, FactsOf(s.mu)) && Fits(s.mu) && s.mu.VHolds?
    ensures var s' := CheckGo(s); s'.w == s.w && Fits(s'.mu) && FactsOk(s.w, FactsOf(s'.mu))
  {
    hide FactsOk, FactsOf, Fits;
    var VHolds(k, l, now) := s.mu;
    CheckingIs(k, l, now, Normal, 0, ForRenew);
    if CheckGo(s).mu.MuIdle? { Idle(s.w, Checking(k, l, ForRenew)); }
    else { VerdictNext(s.w, Checking(k, l, ForRenew), k, l, now, MRenew(k, l, now)); }
  }

  // A scan found l in slot k.
  lemma Located(w: World, k: nat, l: Lease, mu: Mu)
    requires FactsOk(w, Fresh(Nothing)) && Holds(w.c, k, l)
    requires mu.MDrop? || mu.VGate?
    requires mu.MDrop? ==> mu == MDrop(k, l, ToIdle)
    requires mu.VGate? ==> mu.k == k && mu.l == l && !mu.use.ForAcquire?
    ensures FactsOk(w, FactsOf(mu)) && Fits(mu)
  {
    hide IssueFacts, QuietFacts, DrainFacts, LookFacts, LeaseFacts, GrantFacts;
    var f := Fresh(Nothing.(nilOr := Some(Hold(k, l))));
    Reslot(w, Fresh(Nothing), f);
    if mu.MDrop? { assert FactsOf(mu) == f; } else { assert FactsOf(mu) == f; }
  }

  lemma FindingIs(mu: Mu)
    requires mu.FRenew? || mu.FRelease? || mu.FResource? || mu.FExpire?
    ensures FactsOf(mu) == Fresh(Nothing)
  {
  }

  lemma LocalFind(s: State, k: nat)
    requires FactsOk(s.w, FactsOf(s.mu)) && (s.mu.FRenew? || s.mu.FRelease? || s.mu.FResource? || s.mu.FExpire?)
    ensures var s' := FindGo(s, k); s'.w == s.w && Fits(s'.mu) && FactsOk(s.w, FactsOf(s'.mu))
  {
    hide FactsOk, FactsOf, Fits;
    var mu := FindGo(s, k).mu;
    FindingIs(s.mu);
    if mu.MuIdle? { Idle(s.w, Fresh(Nothing)); } else { Located(s.w, mu.k, mu.l, mu); }
  }

  // What a snapshot step may add.
  lemma Relook(w: World, f: Facts, f': Facts)
    requires FactsOk(w, f) && f' == f.(sampled := f'.sampled, look := f'.look, lookFloor := f'.lookFloor, verdict := f'.verdict)
    requires LookFacts(w, f')
    ensures FactsOk(w, f')
  {
    hide LookFacts;
    var f0 := f.(sampled := None, look := None, lookFloor := None, verdict := false);
    WeakenSlots(w, f, f');
    WeakenIssue(w, f, f');
    WeakenLeases(w, f, f0);
  }

  lemma SampledGate(w: World, r: string, seen: nat)
    requires FactsOk(w, FactsOf(NGate(r, seen)))
    ensures FactsOk(w, FactsOf(NCur(r, seen, w.g.gate)))
  {
    hide FactsOf, SlotFacts, IssueFacts, QuietFacts, DrainFacts, LeaseFacts, GrantFacts;
    AtSampleGate(r, seen);
    AtSampled(r, seen, w.g.gate);
    Relook(w, Nothing, Nothing.(sampled := Some(w.g.gate)));
  }

  lemma SampledSlot(w: World, r: string, seen: nat, g: Gate, v: View)
    requires FactsOk(w, FactsOf(NCur(r, seen, g))) && v.gateThen == w.g.gate && v.floorThen == w.g.floor
    requires v.cur.Some? ==> v.k < |w.c.slots|
    ensures FactsOk(w, FactsOf(NGate2(r, seen, g, v)))
  {
    hide FactsOf, SlotFacts, IssueFacts, QuietFacts, DrainFacts, LeaseFacts, GrantFacts;
    AtSampled(r, seen, g);
    AtLook(r, seen, g, v);
    Relook(w, Nothing.(sampled := Some(g)), Looking(g, v, false));
  }

  lemma SampledSeq(r: string, seen: nat)
    ensures FactsOf(NSeq(r)) == FactsOf(NGate(r, seen))
  {
    hide FactsOf;
    AtSample(r);
    AtSampleGate(r, seen);
  }

  lemma LocalSample(s: State)
    requires FactsOk(s.w, FactsOf(s.mu)) && (s.mu.NSeq? || s.mu.NGate? || s.mu.NCur?)
    ensures var s' := SnapGo(s); s'.w == s.w && Fits(s'.mu) && FactsOk(s.w, FactsOf(s'.mu))
  {
    hide FactsOk, FactsOf, Fits;
    SnapFits(SnapGo(s).mu);
    match s.mu
    case NSeq(r) => SampledSeq(r, s.w.g.seqno);
    case NGate(r, seen) => SampledGate(s.w, r, seen);
    case NCur(r, seen, g) => SampledSlot(s.w, r, seen, g, SnapGo(s).mu.view);
  }

  lemma SnapFits(mu: Mu)
    requires mu.NSeq? || mu.NGate? || mu.NCur? || mu.NGate2?
    ensures Fits(mu)
  {
  }

  lemma Resampled(w: World, r: string, seen: nat, g: Gate, v: View, same: bool)
    requires FactsOk(w, FactsOf(NGate2(r, seen, g, v))) && same == (w.g.gate == g)
    ensures FactsOk(w, FactsOf(if same then NSeq2(r, seen, g, v) else NSeq(r)))
  {
    hide FactsOf, SlotFacts, IssueFacts, QuietFacts, DrainFacts, LeaseFacts, GrantFacts;
    AtLook(r, seen, g, v);
    AtLooked(r, seen, g, v);
    AtSample(r);
    if same { Relook(w, Looking(g, v, false), Looking(g, v, true)); } else { Relook(w, Looking(g, v, false), Nothing); }
  }

  lemma Resequenced(w: World, r: string, seen: nat, g: Gate, v: View, mu: Mu)
    requires FactsOk(w, FactsOf(NSeq2(r, seen, g, v)))
    requires mu == NSeq(r) || mu == NDone(g, v, false) || (v.cur.Some? && mu == NFloor(g, v, v.cur.value, v.k))
    ensures FactsOk(w, FactsOf(mu))
  {
    hide FactsOk, FactsOf;
    AtLooked(r, seen, g, v);
    AtSample(r);
    AtDone(g, v, false);
    if mu.NSeq? { Weaken(w, Looking(g, v, true), Nothing); }
    else if mu.NFloor? { AtFloor(g, v, v.cur.value, v.k); }
  }

  lemma LocalResample(s: State)
    requires FactsOk(s.w, FactsOf(s.mu)) && (s.mu.NGate2? || s.mu.NSeq2?)
    ensures var s' := SnapGo(s); s'.w == s.w && Fits(s'.mu) && FactsOk(s.w, FactsOf(s'.mu))
  {
    hide FactsOk, FactsOf;
    if s.mu.NGate2? { Resampled(s.w, s.mu.resource, s.mu.seen, s.mu.g, s.mu.view, s.w.g.gate == s.mu.g); }
    else { Resequenced(s.w, s.mu.resource, s.mu.seen, s.mu.g, s.mu.view, SnapGo(s).mu); }
  }

  lemma Floored(w: World, g: Gate, v: View, l: Lease, k: nat)
    requires FactsOk(w, FactsOf(NFloor(g, v, l, k)))
    ensures FactsOk(w, FactsOf(NFresh(g, v, l, k, w.g.floor)))
  {
    hide FactsOf, SlotFacts, IssueFacts, QuietFacts, DrainFacts, LeaseFacts, GrantFacts;
    AtFloor(g, v, l, k);
    AtFloored(g, v, l, k, w.g.floor);
    Relook(w, Looking(g, v, true), Looking(g, v, true).(lookFloor := Some(w.g.floor)));
  }

  lemma Answered(w: World, g: Gate, v: View, l: Lease, k: nat, floor: nat, held: bool)
    requires FactsOk(w, FactsOf(NFresh(g, v, l, k, floor))) && v.cur == Some(l) && (held ==> floor < l.epoch)
    ensures FactsOk(w, FactsOf(NDone(g, v, held)))
  {
    hide FactsOf, SlotFacts, IssueFacts, QuietFacts, DrainFacts, LeaseFacts, GrantFacts;
    AtFloored(g, v, l, k, floor);
    AtDone(g, v, held);
    Relook(w, Looking(g, v, true).(lookFloor := Some(floor)), Looking(g, v, true).(verdict := held));
  }

  lemma LookingIs(g: Gate, v: View, held: bool)
    ensures var f := FactsOf(NDone(g, v, held)); !f.draining && f.birth.None? && f.dropped == []
  {
    hide FactsOf;
    AtDone(g, v, held);
  }

  lemma LocalAnswer(s: State)
    requires FactsOk(s.w, FactsOf(s.mu)) && Fits(s.mu) && (s.mu.NFloor? || s.mu.NFresh? || s.mu.NDone?)
    ensures var s' := SnapGo(s); s'.w == s.w && Fits(s'.mu) && FactsOk(s.w, FactsOf(s'.mu))
  {
    hide FactsOk, FactsOf;
    match s.mu
    case NFloor(g, v, l, k) => Floored(s.w, g, v, l, k);
    case NFresh(g, v, l, k, floor) =>
      if k < |s.w.c.slots| { Answered(s.w, g, v, l, k, floor, SnapGo(s).mu.held); }
    case NDone(g, v, held) =>
      LookingIs(g, v, held);
      Idle(s.w, FactsOf(s.mu));
  }

  // revokeSeq is even, so RevokeAll is not at work: `seen` and `guard` are new.
  lemma Sequenced(w: World, a: Acq, how: How, ep: nat)
    requires FactsOk(w, FactsOf(ISeq(a, how, ep))) && GateInv(w.g, w.c.rv) && w.g.seqno % 2 == 0
    ensures FactsOk(w, FactsOf(IRevoked(a, how, ep, w.g.seqno)))
  {
    hide FactsOf, SlotFacts, QuietFacts, DrainFacts, LookFacts, LeaseFacts, GrantFacts;
    var f := Quieted(a, how, ep);
    var f' := f.(seen := Some(w.g.seqno), guard := Some(a.k));
    AtSeq(a, how, ep);
    AtRevoked(a, how, ep, w.g.seqno);
    WeakenSlots(w, f, f');
    WeakenRest(w, f, f');
  }

  // `seen`, `guard` and `cell` matter to IssueFacts alone.
  lemma WeakenRest(w: World, f: Facts, f': Facts)
    requires QuietFacts(w, f) && DrainFacts(w, f) && LookFacts(w, f) && LeaseFacts(w, f) && GrantFacts(w, f)
    requires f' == f.(seen := f'.seen, guard := f'.guard, cell := f'.cell)
    ensures QuietFacts(w, f') && DrainFacts(w, f') && LookFacts(w, f') && LeaseFacts(w, f') && GrantFacts(w, f')
  {
  }

  lemma IssuingIs(a: Acq, how: How, ep: nat)
    ensures var f := FactsOf(ISeq(a, how, ep)); !f.draining && f.birth.None? && f.dropped == []
  {
    hide FactsOf;
    AtSeq(a, how, ep);
  }

  lemma LocalSeq(s: State, id: nat)
    requires FactsOk(s.w, FactsOf(s.mu)) && GateInv(s.w.g, s.w.c.rv) && s.mu.ISeq?
    ensures var s' := IssueGo(s, id); s'.w == s.w && Fits(s'.mu) && FactsOk(s.w, FactsOf(s'.mu))
  {
    hide FactsOk, FactsOf, GateInv;
    if s.w.g.seqno % 2 == 0 { Sequenced(s.w, s.mu.a, s.mu.how, s.mu.ep); }
    else {
      IssuingIs(s.mu.a, s.mu.how, s.mu.ep);
      Idle(s.w, FactsOf(s.mu));
    }
  }

  lemma Pended(w: World, a: Acq, how: How, ep: nat)
    requires FactsOk(w, FactsOf(IPend(a, how, ep))) && Core(w) && w.c.pending == 0
    ensures FactsOk(w, FactsOf(ISeq(a, how, ep)))
  {
    hide FactsOf, Core, CellsInv, DrainFacts, LookFacts, LeaseFacts, GrantFacts, AllOver;
    AtPend(a, how, ep);
    AtSeq(a, how, ep);
    CoreGives(w);
    NonePending(w.c, a.k);
    if w.g.gate.st == Normal { NothingLeft(w, Issuing(a, how, ep), ep, a.k); }
    Requiet(w, Issuing(a, how, ep), Quieted(a, how, ep));
  }

  lemma PendingIs(a: Acq, how: How, ep: nat)
    ensures FactsOf(IDrain(a, how, ep)) == FactsOf(IPend(a, how, ep))
  {
  }

  lemma LocalPend(s: State, id: nat)
    requires FactsOk(s.w, FactsOf(s.mu)) && Core(s.w) && s.mu.IPend?
    ensures var s' := IssueGo(s, id); s'.w == s.w && Fits(s'.mu) && FactsOk(s.w, FactsOf(s'.mu))
  {
    hide Core, FactsOk, FactsOf;
    PendingIs(s.mu.a, s.mu.how, s.mu.ep);
    if s.w.c.pending == 0 { Pended(s.w, s.mu.a, s.mu.how, s.mu.ep); }
  }

  lemma CoreGives(w: World)
    requires Core(w)
    ensures CellsInv(w.c)
  {
  }

  // Only the claim about the slot's earlier leases is new.
  lemma Requiet(w: World, f: Facts, f': Facts)
    requires FactsOk(w, f) && f' == f.(quiet := f'.quiet, over := f'.over) && QuietFacts(w, f')
    ensures FactsOk(w, f')
  {
    hide QuietFacts;
    var f0 := f.(quiet := None, over := None);
    WeakenSlots(w, f, f');
    WeakenIssue(w, f, f');
    WeakenLeases(w, f, f0);
  }

  // The gate still shows the token of the issue: no RevokeAll can have come in between.
  lemma Rechecked(w: World, a: Acq, how: How, l: Lease, seen: nat)
    requires FactsOk(w, FactsOf(IGate(a, how, l, seen))) && GateInv(w.g, w.c.rv) && w.g.gate == Gate(Normal, l.epoch)
    ensures FactsOk(w, FactsOf(IReSeq(a, how, l, seen)))
  {
    hide FactsOf, SlotFacts, DrainFacts, LookFacts, LeaseFacts, GrantFacts, AllOver;
    var f := Unchecked(a, how, l, seen);
    var f1 := f.(above := Some(l.epoch));
    AtGate(a, how, l, seen);
    AtReSeq(a, how, l, seen);
    WeakenSlots(w, f, f1);
    AboveOnly(w, f, f1);
    Requiet(w, f1, Checked(a, how, l, seen));
  }

  lemma AboveOnly(w: World, f: Facts, f': Facts)
    requires QuietFacts(w, f) && DrainFacts(w, f) && LookFacts(w, f) && LeaseFacts(w, f) && GrantFacts(w, f)
    requires f' == f.(above := f'.above)
    ensures QuietFacts(w, f') && DrainFacts(w, f') && LookFacts(w, f') && LeaseFacts(w, f') && GrantFacts(w, f')
  {
  }

  lemma Overtaken(w: World, a: Acq, how: How, l: Lease, seen: nat)
    requires FactsOk(w, FactsOf(IGate(a, how, l, seen))) && Fits(IGate(a, how, l, seen))
    ensures FactsOk(w, FactsOf(IWithdraw(a.k, l))) && Fits(IWithdraw(a.k, l)) && Fits(IReSeq(a, how, l, seen))
  {
    hide FactsOk, FactsOf;
    AtGate(a, how, l, seen);
    AtWithdraw(a.k, l);
    Weaken(w, Unchecked(a, how, l, seen), Withdraw(a.k, l));
  }

  lemma LocalPublished(s: State, id: nat)
    requires FactsOk(s.w, FactsOf(s.mu)) && Fits(s.mu) && GateInv(s.w.g, s.w.c.rv) && s.mu.IGate?
    ensures var s' := IssueGo(s, id); s'.w == s.w && Fits(s'.mu) && FactsOk(s.w, FactsOf(s'.mu))
  {
    hide FactsOk, FactsOf, Fits, GateInv;
    var IGate(a, how, l, seen) := s.mu;
    Overtaken(s.w, a, how, l, seen);
    if s.w.g.gate == Gate(Normal, l.epoch) { Rechecked(s.w, a, how, l, seen); }
  }

  lemma ScanHit(w: World, m: Match, i: nat, n: nat, d: seq<Lease>, final: bool, l: Lease)
    requires FactsOk(w, FactsOf(BScan(m, i, n, d, final))) && i < |w.c.slots| && w.c.slots[i].cur == Some(l)
    ensures FactsOk(w, FactsOf(BCas(m, i, n, d, final, l)))
  {
    hide FactsOf, IssueFacts, QuietFacts, DrainFacts, LookFacts, LeaseFacts, GrantFacts;
    AtScan(m, i, n, d, final);
    AtCas(m, i, n, d, final, l);
    Reslot(w, Scanning(i, n, d, final), Scanning(i, n, d, final).(nilOr := Some(Hold(i, l))));
  }

  lemma ScanSkip(w: World, m: Match, i: nat, n: nat, d: seq<Lease>, final: bool)
    requires FactsOk(w, FactsOf(BScan(m, i, n, d, final)))
    requires i < |w.c.slots| && (final ==> w.c.slots[i].cur.None?)
    ensures FactsOk(w, FactsOf(BScan(m, i + 1, n, d, final)))
  {
    hide FactsOf, IssueFacts, QuietFacts, DrainFacts, LookFacts, LeaseFacts, GrantFacts;
    AtScan(m, i, n, d, final);
    AtScan(m, i + 1, n, d, final);
    Reslot(w, Scanning(i, n, d, final), Scanning(i + 1, n, d, final));
  }

  lemma LocalScan(s: State)
    requires FactsOk(s.w, FactsOf(s.mu)) && Fits(s.mu) && s.mu.BScan?
    requires s.mu.i < s.mu.n && s.mu.i < |s.w.c.slots|
    ensures var s' := BatchGo(s); s'.w == s.w && Fits(s'.mu) && FactsOk(s.w, FactsOf(s'.mu))
  {
    hide FactsOk, FactsOf;
    var BScan(m, i, n, d, final) := s.mu;
    var cur := s.w.c.slots[i].cur;
    if cur.Some? && m.Has(cur.value) { ScanHit(s.w, m, i, n, d, final, cur.value); } else { ScanSkip(s.w, m, i, n, d, final); }
  }

  // A compare-and-swap that finds the slot emptied by RevokeAll.
  lemma LocalMiss(s: State)
    requires FactsOk(s.w, FactsOf(s.mu)) && Fits(s.mu)
    requires s.mu.MDrop? && !Holds(s.w.c, s.mu.k, s.mu.l)
    ensures var s' := EndGo(s); s'.w == s.w && Fits(s'.mu) && FactsOk(s.w, FactsOf(s'.mu))
  {
    hide IssueFacts, QuietFacts, DrainFacts, LookFacts, LeaseFacts, GrantFacts;
    Reslot(s.w, FactsOf(s.mu), FactsOf(EndGo(s).mu));
  }

  lemma LocalMissPreempt(s: State)
    requires FactsOk(s.w, FactsOf(s.mu)) && Fits(s.mu)
    requires s.mu.MPreempt? && !Holds(s.w.c, s.mu.a.k, s.mu.l)
    ensures var s' := EndGo(s); s'.w == s.w && Fits(s'.mu) && FactsOk(s.w, FactsOf(s'.mu))
  {
    hide IssueFacts, QuietFacts, DrainFacts, LookFacts, LeaseFacts, GrantFacts;
    Reslot(s.w, FactsOf(s.mu), FactsOf(EndGo(s).mu));
  }

  lemma LocalMissBatch(s: State)
    requires FactsOk(s.w, FactsOf(s.mu)) && Fits(s.mu)
    requires s.mu.BCas? && !Holds(s.w.c, s.mu.i, s.mu.l)
    ensures var s' := BatchGo(s); s'.w == s.w && Fits(s'.mu) && FactsOk(s.w, FactsOf(s'.mu))
  {
    hide IssueFacts, QuietFacts, DrainFacts, LookFacts, LeaseFacts, GrantFacts;
    Reslot(s.w, FactsOf(s.mu), FactsOf(BatchGo(s).mu));
  }

  lemma LocalDone(s: State)
    requires FactsOk(s.w, FactsOf(s.mu)) && Fits(s.mu)
    requires s.mu.MNotify? && s.mu.dropped == []
    ensures var s' := EndGo(s); s'.w == s.w && Fits(s'.mu) && FactsOk(s.w, FactsOf(s'.mu))
  {
    hide FactsOk;
    Weaken(s.w, FactsOf(s.mu), FactsOf(EndGo(s).mu));
  }
}
