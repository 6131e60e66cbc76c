/** The inductive invariant of the control-lease protocol.

    `Core` speaks of the shared cells; `FactsOk` says what the holder of `mu` may rely on at its
    present program point (`FactsOf`); `ReaderInv` does the same for the lock-free reader.
 */
module ControlInvariant {
  import opened Wrappers
  import opened ControlTypes
  import opened ControlProtocol

  // ------------------------------------------------------------------ gate, supervisor, re-arm

  // Between the two increments of revokeSeq.
  predicate Sweeping(rv: Rv) {
    rv.RvOdd? || rv.RvFloored? || rv.RvScan? || rv.RvMid? || rv.RvCounted?
  }

  ghost predicate GateInv(g: Safety, rv: Rv) {
    && 1 <= g.gate.epoch
    && g.lastTrip <= g.gate.epoch && (g.gate.st != Normal ==> g.lastTrip == g.gate.epoch)
    && g.floor <= g.halt <= g.gate.epoch
    && (g.settled == 0 || g.settled == g.halt)
    && (g.gate.st == Normal ==> rv.RvIdle? && g.halt == g.lastTrip && g.halt < g.gate.epoch)
    && (rv.RvReady? ==> g.halt < rv.e <= g.gate.epoch)
    && (rv.RvPhase? || Sweeping(rv) ==> rv.e == g.halt && g.settled == 0)
    && (rv.RvPhase? || rv.RvOdd? || g.floor == g.halt)
    && (g.seqno % 2 == 1 <==> Sweeping(rv))
  }

  // ------------------------------------------------------------------ where the leases are

  predicate InMid(rv: Rv) { rv.RvMid? || rv.RvCounted? }

  predicate InHand(d: Drain) { d.DHold? || d.DTold? }

  type Places = map<nat, Place>

  ghost predicate At1(place: Places, l: Lease, at: At, k: nat) {
    l.id in place && place[l.id].at == at && place[l.id].k == k && Same(l, place[l.id].orig)
  }

  /** The lease a slot holds is exactly the one whose history says so, and conversely. */
  ghost predicate CurAt(slots: seq<Slot>, place: Places) {
    && (forall k :: 0 <= k < |slots| && slots[k].cur.Some? ==> At1(place, slots[k].cur.value, InCur, k))
    && (forall id :: id in place && place[id].at == InCur ==>
                       place[id].k < |slots| && slots[place[id].k].cur.Some? &&
                       slots[place[id].k].cur.value.id == id)
  }

  ghost predicate RevokedAt(slots: seq<Slot>, place: Places) {
    && (forall k :: 0 <= k < |slots| && slots[k].revoked.Some? ==> At1(place, slots[k].revoked.value, Revoked, k))
    && (forall id :: id in place && place[id].at == Revoked ==>
                       place[id].k < |slots| && slots[place[id].k].revoked.Some? &&
                       slots[place[id].k].revoked.value.id == id)
  }

  ghost predicate MidAt(place: Places, rv: Rv) {
    && (InMid(rv) ==> At1(place, rv.l, Mid, rv.i))
    && (forall id :: id in place && place[id].at == Mid ==> InMid(rv) && rv.l.id == id)
  }

  ghost predicate DrainAt(place: Places, drain: Drain) {
    && (drain.DHold? ==> At1(place, drain.l, Draining, drain.i))
    && (forall id :: id in place && place[id].at == Draining ==> drain.DHold? && drain.l.id == id)
  }

  ghost predicate EndedAt(place: Places, ended: multiset<nat>, n: nat) {
    && (forall id :: id in place ==> ended[id] == if place[id].at == Ended then 1 else 0)
    && (forall id :: id !in place ==> ended[id] == 0)
    && (forall id :: id in place ==> place[id].k < n && place[id].orig.id == id)
  }

  // ------------------------------------------------------------------ hand-over cells

  function Filled(slots: seq<Slot>): nat {
    if |slots| == 0 then 0
    else Filled(slots[..|slots| - 1]) + if slots[|slots| - 1].revoked.Some? then 1 else 0
  }

  function One(b: bool): nat { if b then 1 else 0 }

  // RevokeAll is about to fill the hand-over cell of slot k.
  predicate Filling(rv: Rv, k: nat) { InMid(rv) && rv.i == k }

  /** A slot that holds a lease has an empty hand-over cell, and none on its way. */
  ghost predicate CellInv(slots: seq<Slot>, rv: Rv) {
    && (forall k :: 0 <= k < |slots| && slots[k].cur.Some? ==> slots[k].revoked.None? && !Filling(rv, k))
    && (rv.RvScan? || InMid(rv) ==> rv.n <= |slots|)
    && (InMid(rv) ==> rv.i < rv.n && slots[rv.i].revoked.None?)
  }

  ghost predicate DrainRange(drain: Drain, n: nat) {
    && (!drain.DFree? ==> drain.i <= drain.n <= n)
    && (InHand(drain) ==> drain.i < drain.n)
  }

  ghost predicate CellsInv(c: Cells) {
    && CurAt(c.slots, c.place) && RevokedAt(c.slots, c.place) && MidAt(c.place, c.rv) && DrainAt(c.place, c.drain)
    && EndedAt(c.place, c.ended, |c.slots|) && CellInv(c.slots, c.rv) && DrainRange(c.drain, |c.slots|)
    // revPending counts the filled cells, the hand-over in progress and the delivery in progress
    && c.pending == Filled(c.slots) + One(c.rv.RvCounted?) + One(InHand(c.drain))
  }

  ghost predicate EpochInv(place: Places, epoch: nat) {
    forall id :: id in place ==> place[id].orig.epoch <= epoch
  }

  ghost predicate Core(w: World) { GateInv(w.g, w.c.rv) && CellsInv(w.c) && EpochInv(w.c.place, w.g.gate.epoch) }

  // ------------------------------------------------------------------ the holder of mu

  datatype Hold = Hold(k: nat, l: Lease)
  datatype Home = Home(k: nat, resource: string)
  datatype Quiet = Quiet(ep: nat, k: nat, but: Option<nat>)
  datatype Sure = Sure(k: nat, l: Lease, seen: nat)
  datatype Range = Range(lo: nat, hi: nat)
  datatype Look = Look(g: Gate, v: View, exact: bool)

  /** What holds at a program point of the holder of `mu`; a part that is None says nothing. */
  datatype Facts = Facts(
    nilOr: Option<Hold>,      // the slot holds l, unless RevokeAll has emptied it
    empty: Option<nat>,       // the slot is empty
    home: Option<Home>,       // the slot of this resource
    token: Option<nat>,       // the epoch allocated to the issue in progress
    seen: Option<nat>,        // the even revokeSeq it loaded
    quiet: Option<Quiet>,     // while the gate stays at `ep`, the slot's earlier leases are over
    over: Option<Quiet>,      // they are over for good
    guard: Option<nat>,       // RevokeAll is not about to fill this cell
    cell: Option<nat>,        // the cell is empty
    birth: Option<Hold>,      // minted, not stored yet
    stored: Option<Hold>,     // stored
    sure: Option<Sure>,       // still in the slot, if revokeSeq has not moved
    above: Option<nat>,       // ... and above the safety floor
    dropped: seq<Lease>,      // taken out of their slots, observer not told yet
    ungranted: Option<nat>,   // not returned to any caller
    draining: bool,           // inside drainRevoked
    cleared: Option<nat>,     // the drain has emptied every cell before it, while the gate stays
    count: Option<nat>,       // the number of slots
    index: Option<nat>,       // an existing slot
    spent: Option<Range>,     // epoch boundaries this operation has made
    admitted: bool,           // an Acquire past the shutdown check
    shutdown: bool,           // part of Stop
    sealed: Option<nat>,      // Stop: the slots before it are empty
    sampled: Option<Gate>,    // a gate word loaded by ControlSnapshotFor
    look: Option<Look>,       // ... and the slot loaded after it
    lookFloor: Option<nat>,   // ... and the floor loaded after that
    verdict: bool)            // ... and it is about to answer that the lease is held

  const Nothing: Facts :=
    Facts(None, None, None, None, None, None, None, None, None, None, None, None, None, [], None,
          false, None, None, None, None, false, false, None, None, None, None, false)

  function Fresh(f: Facts): Facts { f.(spent := Some(Range(0, 0))) }

  function Entering(): Facts { Fresh(Nothing.(admitted := true)) }

  function Checking(k: nat, l: Lease, use: Use): Facts {
    var f := Fresh(Nothing.(nilOr := Some(Hold(k, l))));
    if use.ForAcquire?
    then f.(home := Some(Home(use.a.k, use.a.req.resource)), index := Some(k), admitted := true) else f
  }

  function UseFits(k: nat, use: Use): bool { use.ForAcquire? ==> use.a.k == k }

  function Limit(how: How, n: nat): Range {
    Range(n, n + if how == AfterDrop then 1 else 0)
  }

  function Continuing(f: Facts, c: Cont): Facts {
    match c
    case ToIdle => f
    case ToIssue(a, _) => f.(empty := Some(a.k), home := Some(Home(a.k, a.req.resource)), admitted := true)
  }

  function Issuing(a: Acq, how: How, ep: nat): Facts {
    Nothing.(empty := Some(a.k), home := Some(Home(a.k, a.req.resource)), token := Some(ep),
             spent := Some(Limit(how, 1)), admitted := true)
  }

  function Minted(a: Acq, how: How, l: Lease, seen: nat): Facts {
    Issuing(a, how, l.epoch).(
      seen := Some(seen), quiet := Some(Quiet(l.epoch, a.k, Some(l.id))), guard := Some(a.k), cell := Some(a.k),
      birth := Some(Hold(a.k, l)), ungranted := Some(l.id))
  }

  function Published(a: Acq, how: How, l: Lease, seen: nat): Facts {
    Nothing.(nilOr := Some(Hold(a.k, l)), home := Some(Home(a.k, a.req.resource)), token := Some(l.epoch), seen := Some(seen), stored := Some(Hold(a.k, l)),
             sure := Some(Sure(a.k, l, seen)), ungranted := Some(l.id),
             spent := Some(Limit(how, 1)), admitted := true)
  }

  function Plainly(): Facts { Fresh(Nothing) }

  function Holding(k: nat, l: Lease): Facts { Fresh(Nothing.(nilOr := Some(Hold(k, l)))) }

  function ToDrop(k: nat, l: Lease, c: Cont): Facts {
    if c.ToIssue?
    then Holding(k, l).(home := Some(Home(k, c.a.req.resource)), admitted := true) else Holding(k, l)
  }

  function ToPreempt(a: Acq, l: Lease): Facts {
    Entering().(nilOr := Some(Hold(a.k, l)), home := Some(Home(a.k, a.req.resource)))
  }

  function Notifying(d: seq<Lease>, c: Cont): Facts {
    Continuing(Nothing.(dropped := d, spent := Some(Range(0, if c.ToIssue? && c.how != AfterDrop then 0 else 1))), c)
  }

  function Bumping(a: Acq, how: How): Facts {
    Nothing.(empty := Some(a.k), home := Some(Home(a.k, a.req.resource)), spent := Some(Limit(how, 0)), admitted := true)
  }

  function Quieted(a: Acq, how: How, ep: nat): Facts {
    Issuing(a, how, ep).(quiet := Some(Quiet(ep, a.k, None)))
  }

  function Unchecked(a: Acq, how: How, l: Lease, seen: nat): Facts {
    Published(a, how, l, seen).(quiet := Some(Quiet(l.epoch, a.k, Some(l.id))))
  }

  function Checked(a: Acq, how: How, l: Lease, seen: nat): Facts {
    Published(a, how, l, seen).(over := Some(Quiet(l.epoch, a.k, Some(l.id))), above := Some(l.epoch))
  }

  function Withdraw(k: nat, l: Lease): Facts {
    Nothing.(nilOr := Some(Hold(k, l)), stored := Some(Hold(k, l)), ungranted := Some(l.id))
  }

  function Scanning(i: nat, n: nat, d: seq<Lease>, final: bool): Facts {
    Fresh(Nothing.(dropped := d, count := Some(n), shutdown := final, sealed := if final then Some(i) else None))
  }

  function Looking(g: Gate, v: View, exact: bool): Facts { Nothing.(look := Some(Look(g, v, exact))) }

  function FactsOf(mu: Mu): Facts {
    match mu
    case MuIdle => Nothing
    case AEnter(_) => Plainly() case ADrain(_) => Plainly()
    case ADraining(_) => Plainly().(draining := true)
    case AStop(_) => Plainly()
    case AClock(_) => Entering() case AGate(_, _) => Entering() case ASlot(_, _) => Entering()
    case ALoad(a) => Entering().(home := Some(Home(a.k, a.req.resource)))
    case VGate(k, l, _, use) => Checking(k, l, use)
    case VFloor(k, l, _, _, use) => Checking(k, l, use)
    case VFresh(k, l, _, _, _, use) => Checking(k, l, use)
    case VHolds(k, l, _) => Holding(k, l)
    case MRenew(k, l, _) => Holding(k, l)
    case MRenewFresh(k, _) => Plainly().(index := Some(k))
    case MDrop(k, l, c) => ToDrop(k, l, c)
    case MPreempt(a, l) => ToPreempt(a, l)
    case MEnd(d, c) => Continuing(Plainly().(dropped := d), c)
    case MNotify(d, c) => Notifying(d, c)
    case IBump(a, how) => Bumping(a, how)
    case IPend(a, how, ep) => Issuing(a, how, ep)
    case IDrain(a, how, ep) => Issuing(a, how, ep)
    case IDraining(a, how, ep) => Issuing(a, how, ep).(draining := true, cleared := Some(ep))
    case ISeq(a, how, ep) => Quieted(a, how, ep)
    case IRevoked(a, how, ep, seen) => Quieted(a, how, ep).(seen := Some(seen), guard := Some(a.k))
    case IFresh(a, how, l, seen) => Minted(a, how, l, seen)
    case IStore(a, how, l, seen) => Minted(a, how, l, seen)
    case IGate(a, how, l, seen) => Unchecked(a, how, l, seen)
    case IReSeq(a, how, l, seen) => Checked(a, how, l, seen)
    case IWithdraw(k, l) => Withdraw(k, l)
    case BScan(_, i, n, d, final) => Scanning(i, n, d, final)
    case BCas(_, i, n, d, final, l) => Scanning(i, n, d, final).(nilOr := Some(Hold(i, l)))
    case FRenew(_, _, _) => Plainly() case FRelease(_, _) => Plainly()
    case FResource(_, _) => Plainly() case FExpire(_, _, _) => Plainly()
    case SDrain => Plainly().(shutdown := true)
    case SDraining => Plainly().(shutdown := true, draining := true)
    case NSeq(_) => Nothing case NGate(_, _) => Nothing
    case NCur(_, _, g) => Nothing.(sampled := Some(g))
    case NGate2(_, _, g, v) => Looking(g, v, false)
    case NSeq2(_, _, g, v) => Looking(g, v, true)
    case NFloor(g, v, _, _) => Looking(g, v, true)
    case NFresh(g, v, _, _, floor) => Looking(g, v, true).(lookFloor := Some(floor))
    case NDone(g, v, held) => Looking(g, v, true).(verdict := held)
  }

  // The facts of one program point at a time, for proofs that keep FactsOf hidden.
  lemma AtDrain(r: Request) ensures FactsOf(ADrain(r)) == Plainly() {}
  lemma AtDraining(r: Request) ensures FactsOf(ADraining(r)) == Plainly().(draining := true) {}
  lemma AtStop(r: Request) ensures FactsOf(AStop(r)) == Plainly() {}
  lemma AtSlot(r: Request, now: nat) ensures FactsOf(ASlot(r, now)) == Entering() {}
  lemma AtLoad(a: Acq) ensures FactsOf(ALoad(a)) == Entering().(home := Some(Home(a.k, a.req.resource))) {}
  lemma AtCheck(k: nat, l: Lease, now: nat, use: Use) ensures FactsOf(VGate(k, l, now, use)) == Checking(k, l, use) {}
  lemma AtDrop(k: nat, l: Lease, c: Cont) ensures FactsOf(MDrop(k, l, c)) == ToDrop(k, l, c) {}
  lemma AtEnd(d: seq<Lease>, c: Cont) ensures FactsOf(MEnd(d, c)) == Continuing(Plainly().(dropped := d), c) {}
  lemma AtBump(a: Acq, how: How) ensures FactsOf(IBump(a, how)) == Bumping(a, how) {}
  lemma AtPend(a: Acq, how: How, ep: nat) ensures FactsOf(IPend(a, how, ep)) == Issuing(a, how, ep) {}
  lemma AtSeq(a: Acq, how: How, ep: nat) ensures FactsOf(ISeq(a, how, ep)) == Quieted(a, how, ep) {}
  lemma AtRevoked(a: Acq, how: How, ep: nat, seen: nat)
    ensures FactsOf(IRevoked(a, how, ep, seen)) == Quieted(a, how, ep).(seen := Some(seen), guard := Some(a.k)) {}
  lemma AtFresh(a: Acq, how: How, l: Lease, seen: nat) ensures FactsOf(IFresh(a, how, l, seen)) == Minted(a, how, l, seen) {}
  lemma AtStore(a: Acq, how: How, l: Lease, seen: nat) ensures FactsOf(IStore(a, how, l, seen)) == Minted(a, how, l, seen) {}
  lemma AtGate(a: Acq, how: How, l: Lease, seen: nat) ensures FactsOf(IGate(a, how, l, seen)) == Unchecked(a, how, l, seen) {}
  lemma AtReSeq(a: Acq, how: How, l: Lease, seen: nat) ensures FactsOf(IReSeq(a, how, l, seen)) == Checked(a, how, l, seen) {}
  lemma AtWithdraw(k: nat, l: Lease) ensures FactsOf(IWithdraw(k, l)) == Withdraw(k, l) {}
  lemma AtScan(m: Match, i: nat, n: nat, d: seq<Lease>, final: bool)
    ensures FactsOf(BScan(m, i, n, d, final)) == Scanning(i, n, d, final) {}
  lemma AtCas(m: Match, i: nat, n: nat, d: seq<Lease>, final: bool, l: Lease)
    ensures FactsOf(BCas(m, i, n, d, final, l)) == Scanning(i, n, d, final).(nilOr := Some(Hold(i, l))) {}
  lemma AtStopDrain() ensures FactsOf(SDrain) == Plainly().(shutdown := true) {}
  lemma AtStopDraining() ensures FactsOf(SDraining) == Plainly().(shutdown := true, draining := true) {}
  lemma AtSample(r: string) ensures FactsOf(NSeq(r)) == Nothing {}
  lemma AtSampleGate(r: string, seen: nat) ensures FactsOf(NGate(r, seen)) == Nothing {}
  lemma AtSampled(r: string, seen: nat, g: Gate) ensures FactsOf(NCur(r, seen, g)) == Nothing.(sampled := Some(g)) {}
  lemma AtLook(r: string, seen: nat, g: Gate, v: View) ensures FactsOf(NGate2(r, seen, g, v)) == Looking(g, v, false) {}
  lemma AtLooked(r: string, seen: nat, g: Gate, v: View) ensures FactsOf(NSeq2(r, seen, g, v)) == Looking(g, v, true) {}
  lemma AtFloor(g: Gate, v: View, l: Lease, k: nat) ensures FactsOf(NFloor(g, v, l, k)) == Looking(g, v, true) {}
  lemma AtFloored(g: Gate, v: View, l: Lease, k: nat, floor: nat)
    ensures FactsOf(NFresh(g, v, l, k, floor)) == Looking(g, v, true).(lookFloor := Some(floor)) {}
  lemma AtDone(g: Gate, v: View, held: bool) ensures FactsOf(NDone(g, v, held)) == Looking(g, v, true).(verdict := held) {}
  lemma AtIdle() ensures FactsOf(MuIdle) == Nothing {}

  // Program points whose own arguments have to agree.
  predicate Fits(mu: Mu) {
    match mu
    case VGate(k, _, _, use) => UseFits(k, use)
    case VFloor(k, _, _, _, use) => UseFits(k, use)
    case VFresh(k, _, _, _, _, use) => UseFits(k, use)
    case MDrop(k, _, c) => c.ToIssue? ==> c.a.k == k && c.how == AfterDrop
    case MEnd(_, c) => c.ToIssue? ==> c.how == AfterDrop
    case IFresh(a, _, l, _) => l.resource == a.req.resource
    case IStore(a, _, l, _) => l.resource == a.req.resource
    case IGate(a, _, l, _) => l.resource == a.req.resource
    case IReSeq(a, _, l, _) => l.resource == a.req.resource
    case BScan(m, i, n, _, final) => i <= n && (final ==> m.All?)
    case BCas(m, i, n, _, final, _) => i < n && (final ==> m.All?)
    case NFloor(g, v, l, k) => v.cur == Some(l) && v.k == k && g.st == Normal
    case NFresh(g, v, l, k, _) => v.cur == Some(l) && v.k == k && g.st == Normal
    case NDone(g, v, held) => held ==> v.cur.Some? && g.st == Normal
    case _ => true
  }

  ghost predicate NilOr(w: World, h: Hold) {
    h.k < |w.c.slots| && (w.c.slots[h.k].cur.None? || w.c.slots[h.k].cur == Some(h.l))
  }

  /** Every lease the slot ever had is over and, if it was ever granted, the observer knows. */
  ghost predicate AllOver(w: World, q: Quiet) {
    forall id :: id in w.c.place && w.c.place[id].k == q.k && Some(id) != q.but ==>
                   w.c.place[id].at == Ended || w.c.place[id].at == Withdrawn
  }

  ghost predicate SlotFacts(w: World, f: Facts) {
    && (f.nilOr.Some? ==> NilOr(w, f.nilOr.value))
    && (f.empty.Some? ==> f.empty.value < |w.c.slots| && w.c.slots[f.empty.value].cur.None?)
    && (f.home.Some? ==> f.home.value.k < |w.c.slots| && w.c.slots[f.home.value.k].resource == f.home.value.resource)
    && (f.count.Some? ==> f.count.value == |w.c.slots|)
    && (f.index.Some? ==> f.index.value < |w.c.slots|)
    && (f.sealed.Some? ==> forall k :: 0 <= k < |w.c.slots| && k < f.sealed.value ==> w.c.slots[k].cur.None?)
    && (f.shutdown ==> w.stopping)
    && (w.stopped ==> w.stopping && !f.admitted && forall k :: 0 <= k < |w.c.slots| ==> w.c.slots[k].cur.None?)
  }

  ghost predicate IssueFacts(w: World, f: Facts) {
    && (f.token.Some? ==> f.token.value <= w.g.gate.epoch)
    && (f.seen.Some? ==> f.seen.value % 2 == 0 && f.seen.value <= w.g.seqno)
    && (f.guard.Some? ==> f.empty == f.guard && !Filling(w.c.rv, f.guard.value))
    && (f.cell.Some? ==> f.guard == f.cell && f.cell.value < |w.c.slots| && w.c.slots[f.cell.value].revoked.None?)
    && (f.sure.Some? ==>
          var u := f.sure.value;
          u.k < |w.c.slots| && f.seen == Some(u.seen) && (w.g.seqno == u.seen ==> w.c.slots[u.k].cur == Some(u.l)))
    && (f.above.Some? ==> f.seen.Some? && (w.g.seqno == f.seen.value ==> w.g.floor < f.above.value))
    && (f.spent.Some? ==> f.spent.value.lo <= w.spent <= f.spent.value.hi)
  }

  ghost predicate QuietFacts(w: World, f: Facts) {
    && (f.quiet.Some? ==> f.quiet.value.ep <= w.g.gate.epoch)
    && (f.quiet.Some? && w.g.gate == Gate(Normal, f.quiet.value.ep) ==> AllOver(w, f.quiet.value))
    && (f.over.Some? ==> AllOver(w, f.over.value))
  }

  ghost predicate DrainFacts(w: World, f: Facts) {
    && (f.draining <==> !w.c.drain.DFree? && w.c.drain.byMu)
    && (f.cleared.Some? ==> f.draining && f.token == f.cleared && w.c.drain.n == |w.c.slots|)
    && (f.cleared.Some? && w.g.gate == Gate(Normal, f.cleared.value) ==>
          forall k :: 0 <= k < |w.c.slots| && (k < w.c.drain.i || (InHand(w.c.drain) && k == w.c.drain.i)) ==>
                        w.c.slots[k].revoked.None?)
  }

  ghost predicate LeaseFacts(w: World, f: Facts) {
    && (f.birth.Some? ==> At1(w.c.place, f.birth.value.l, New, f.birth.value.k) && w.c.place[f.birth.value.l.id].orig == f.birth.value.l)
    && (forall id :: id in w.c.place && w.c.place[id].at == New ==> f.birth.Some? && f.birth.value.l.id == id)
    && (f.stored.Some? ==>
          var h := f.stored.value;
          && h.l.id in w.c.place && w.c.place[h.l.id].k == h.k && w.c.place[h.l.id].orig == h.l
          && w.c.place[h.l.id].at !in {New, Withdrawn, Dropped})
    && (forall i :: 0 <= i < |f.dropped| ==> f.dropped[i].id in w.c.place && w.c.place[f.dropped[i].id].at == Dropped)
    && (forall i, j :: 0 <= i < j < |f.dropped| ==> f.dropped[i].id != f.dropped[j].id)
    && (forall id :: id in w.c.place && w.c.place[id].at == Dropped ==>
                       exists i :: 0 <= i < |f.dropped| && f.dropped[i].id == id)
  }

  ghost predicate GrantFacts(w: World, f: Facts) {
    && (forall i :: 0 <= i < |w.grants| ==>
          var g := w.grants[i];
          && g.lease.epoch <= w.g.gate.epoch
          && (f.token.Some? ==> g.lease.epoch < f.token.value)
          && g.lease.id in w.c.place && w.c.place[g.lease.id].k == g.k && w.c.place[g.lease.id].orig == g.lease
          && w.c.place[g.lease.id].at !in {New, Withdrawn}
          && f.ungranted != Some(g.lease.id)
          && 1 <= g.spent <= (if g.how == AfterDrop then 2 else 1))
    && (forall i, j :: 0 <= i < j < |w.grants| ==> w.grants[i].lease.epoch < w.grants[j].lease.epoch)
  }

  function Age(g: Gate): nat {
    4 * g.epoch + match g.st case Normal => 0 case Latched => 1 case Recovery => 2 case RearmRequired => 3
  }

  ghost predicate LookFacts(w: World, f: Facts) {
    && (f.sampled.Some? ==> Age(f.sampled.value) <= Age(w.g.gate))
    && (f.look.Some? ==>
          var lk := f.look.value;
          && (if lk.exact then lk.v.gateThen == lk.g else Age(lk.g) <= Age(lk.v.gateThen) <= Age(w.g.gate))
          && lk.v.floorThen <= w.g.floor && (lk.v.cur.Some? ==> lk.v.k < |w.c.slots|)
          && (f.lookFloor.Some? ==> lk.v.floorThen <= f.lookFloor.value)
          && (f.verdict ==> lk.v.cur.Some? && lk.v.floorThen < lk.v.cur.value.epoch))
  }

  ghost predicate FactsOk(w: World, f: Facts) {
    SlotFacts(w, f) && IssueFacts(w, f) && QuietFacts(w, f) && DrainFacts(w, f) && LeaseFacts(w, f) &&
    GrantFacts(w, f) && LookFacts(w, f)
  }

  // ------------------------------------------------------------------ the reader

  ghost predicate Known(w: World, k: nat, l: Lease) {
    l.id in w.c.place && w.c.place[l.id].k == k && Same(l, w.c.place[l.id].orig) && w.c.place[l.id].at != New
  }

  // Once out of its slot a lease never comes back to it.
  ghost predicate Gone(w: World, id: nat) { id in w.c.place && w.c.place[id].at !in {New, InCur} }

  ghost predicate Sampled(w: World, l: Lease, born: nat, g: Gate, held: bool, trip: nat) {
    born <= trip <= w.g.lastTrip && (g.st == Normal ==> trip <= w.g.floor) && (held || Gone(w, l.id))
  }

  ghost predicate ReaderInv(w: World, r: Reader) {
    match r
    case RIdle => true
    case RLoaded(k, l, _, born) => Known(w, k, l) && born <= w.g.lastTrip
    case RGate(k, l, _, born, g, h, t) => Known(w, k, l) && Sampled(w, l, born, g, h, t)
    case RFloor(k, l, _, born, g, h, t, floor) =>
      Known(w, k, l) && Sampled(w, l, born, g, h, t) && floor <= w.g.floor && (g.st == Normal ==> t <= floor)
    case RFresh(k, l, now, born, g, h, t, floor) =>
      && Known(w, k, l) && Sampled(w, l, born, g, h, t) && t <= floor && g.st == Normal && floor < l.epoch
      && now <= l.deadline
    case RDone(k, l, born, g, h, t, now) =>
      Known(w, k, l) && h && g.st == Normal && born <= t < l.epoch && now <= l.deadline
  }

  ghost predicate Inv(s: State) {
    Core(s.w) && Fits(s.mu) && FactsOk(s.w, FactsOf(s.mu)) && ReaderInv(s.w, s.reader)
  }
}
