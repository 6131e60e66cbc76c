/** Every step keeps the invariant. */
module ControlProof {
  import opened Wrappers
  import opened ControlTypes
  import opened ControlProtocol
  import opened ControlInvariant

  // ------------------------------------------------------------------ counting filled cells

  lemma {:induction false} FilledSet(slots: seq<Slot>, k: nat, sl: Slot)
    requires k < |slots|
    ensures Filled(slots[k := sl]) ==
            Filled(slots) + (if sl.revoked.Some? then 1 else 0) - (if slots[k].revoked.Some? then 1 else 0)
  {
    var n := |slots| - 1;
    if k == n {
      assert slots[k := sl][..n] == slots[..n];
    } else {
      assert slots[k := sl][..n] == slots[..n][k := sl];
      FilledSet(slots[..n], k, sl);
    }
  }

  lemma {:induction false} FilledZero(slots: seq<Slot>, k: nat)
    requires k < |slots| && Filled(slots) == 0
    ensures slots[k].revoked.None?
  {
    if k < |slots| - 1 { FilledZero(slots[..|slots| - 1], k); }
  }

  lemma Assemble(s: State)
    requires Core(s.w) && ReaderInv(s.w, s.reader) && Fits(s.mu)
    requires FactsOk(s.w, FactsOf(s.mu))
    ensures Inv(s)
  {
  }

  lemma InitCore(s: State)
    requires s == Init()
    ensures Core(s.w)
  {
    assert s.w.c.slots[..0] == [];
  }

  lemma InitFacts(s: State)
    requires s == Init()
    ensures FactsOk(s.w, Nothing)
  {
  }

  lemma InitInv(s: State)
    requires s == Init()
    ensures Inv(s)
  {
    hide Core, FactsOk;
    InitCore(s);
    InitFacts(s);
    assert FactsOf(s.mu) == Nothing;
  }

  // ------------------------------------------------------------------ how any step changes history

  /** What every operation on the cells respects: a lease never returns to an earlier stage. */
  ghost predicate Onward(place: Places, place': Places) {
    forall id :: id in place ==>
      && id in place' && place'[id].k == place[id].k && place'[id].orig == place[id].orig
      && (place'[id].at == New ==> place[id].at == New)
      && (place[id].at !in {New, InCur} ==> place'[id].at !in {New, InCur})
      && (place[id].at in {Ended, Withdrawn} ==> place'[id].at == place[id].at)
  }

  ghost predicate Later(g: Safety, g': Safety) {
    && g.floor <= g'.floor && g.lastTrip <= g'.lastTrip && Age(g.gate) <= Age(g'.gate)
    && g.gate.epoch <= g'.gate.epoch && g.seqno <= g'.seqno && (g'.floor == g.floor || g.seqno % 2 == 1)
    && (g'.gate.st == Normal && g'.gate.epoch == g.gate.epoch ==> g'.gate == g.gate)
  }

  ghost predicate Evolve(w: World, w': World) { Onward(w.c.place, w'.c.place) && Later(w.g, w'.g) }

  lemma ReaderKeeps(w: World, w': World, r: Reader)
    requires ReaderInv(w, r) && Evolve(w, w')
    ensures ReaderInv(w', r)
  {
  }

  // ------------------------------------------------------------------ the other threads

  /** What the holder of mu may rely on while the others work on the cells. */
  ghost predicate RelySlots(slots: seq<Slot>, slots': seq<Slot>, rv: Rv) {
    && |slots'| == |slots|
    && (forall k :: 0 <= k < |slots| ==>
          && slots'[k].resource == slots[k].resource
          && (slots'[k].cur == slots[k].cur || (slots'[k].cur.None? && Sweeping(rv)))
          && (slots'[k].revoked.Some? ==> slots[k].revoked.Some? || Filling(rv, k)))
  }

  ghost predicate RelyPlace(place: Places, place': Places) {
    && Onward(place, place') && place'.Keys == place.Keys
    && (forall id :: id in place ==>
          && (place'[id].at == New <==> place[id].at == New)
          && (place'[id].at == Dropped <==> place[id].at == Dropped)
          && (place'[id].at == Withdrawn <==> place[id].at == Withdrawn))
  }

  ghost predicate RelyCells(c: Cells, c': Cells) {
    && RelySlots(c.slots, c'.slots, c.rv) && RelyPlace(c.place, c'.place)
    && (InMid(c'.rv) ==> Filling(c.rv, c'.rv.i) || (c'.rv.i < |c.slots| && c.slots[c'.rv.i].cur.Some?))
  }

  ghost predicate Rely(w: World, w': World) {
    && RelyCells(w.c, w'.c) && Later(w.g, w'.g)
    && w'.grants == w.grants && w'.spent == w.spent && w'.stopped == w.stopped
    && (w.stopping ==> w'.stopping)
  }

  lemma SlotKeeps(w: World, w': World, f: Facts)
    requires Core(w) && Rely(w, w')
    requires SlotFacts(w, f)
    ensures SlotFacts(w', f)
  {
  }

  lemma IssueKeeps(w: World, w': World, f: Facts)
    requires Core(w) && Rely(w, w')
    requires SlotFacts(w, f) && IssueFacts(w, f)
    ensures IssueFacts(w', f)
  {
  }

  lemma QuietKeeps(w: World, w': World, f: Facts)
    requires Core(w) && Rely(w, w')
    requires QuietFacts(w, f)
    ensures QuietFacts(w', f)
  {
  }

  lemma LeaseKeeps(w: World, w': World, f: Facts)
    requires Core(w) && Rely(w, w')
    requires LeaseFacts(w, f)
    ensures LeaseFacts(w', f)
  {
  }

  lemma GrantKeeps(w: World, w': World, f: Facts)
    requires Core(w) && Rely(w, w')
    requires GrantFacts(w, f)
    ensures GrantFacts(w', f)
  {
  }

  lemma LookKeeps(w: World, w': World, f: Facts)
    requires Core(w) && Rely(w, w')
    requires LookFacts(w, f)
    ensures LookFacts(w', f)
  {
  }

  lemma FactsKeep(w: World, w': World, f: Facts)
    requires Core(w) && Rely(w, w')
    requires FactsOk(w, f) && DrainFacts(w', f)
    ensures FactsOk(w', f)
  {
    SlotKeeps(w, w', f);
    IssueKeeps(w, w', f);
    QuietKeeps(w, w', f);
    LeaseKeeps(w, w', f);
    GrantKeeps(w, w', f);
    LookKeeps(w, w', f);
  }

  // ------------------------------------------------------------------ operations on the cells

  // Emptying a slot, by whomever.
  lemma TakeCur(c: Cells, k: nat, at: At)
    requires CurAt(c.slots, c.place) && k < |c.slots| && c.slots[k].cur.Some? && at != InCur
    ensures var l := c.slots[k].cur.value;
            var c' := Take(c, k, l, at);
            CurAt(c'.slots, c'.place) && At1(c.place, l, InCur, k) && At1(c'.place, l, at, k)
  {
  }

  lemma TakeRevoked(c: Cells, k: nat, at: At)
    requires CurAt(c.slots, c.place) && RevokedAt(c.slots, c.place)
    requires k < |c.slots| && c.slots[k].cur.Some? && at != Revoked
    ensures var c' := Take(c, k, c.slots[k].cur.value, at); RevokedAt(c'.slots, c'.place)
  {
  }

  lemma TakeHistory(c: Cells, k: nat, at: At)
    requires CurAt(c.slots, c.place) && EndedAt(c.place, c.ended, |c.slots|) && DrainAt(c.place, c.drain)
    requires k < |c.slots| && c.slots[k].cur.Some? && at in {Mid, Dropped, Withdrawn}
    ensures var c' := Take(c, k, c.slots[k].cur.value, at);
            && EndedAt(c'.place, c'.ended, |c'.slots|) && Onward(c.place, c'.place) && DrainAt(c'.place, c'.drain)
            && Filled(c'.slots) == Filled(c.slots)
  {
    FilledSet(c.slots, k, c.slots[k].(cur := None));
  }

  lemma TakeMid(c: Cells, i: nat)
    requires CellsInv(c) && c.rv.RvScan? && i == c.rv.i < c.rv.n && c.slots[i].cur.Some?
    ensures var l := c.slots[i].cur.value;
            var c' := Take(c, i, l, Mid).(rv := RvMid(c.rv.e, i, c.rv.n, l));
            CellsInv(c') && RelyCells(c, c')
  {
    hide CurAt, RevokedAt, EndedAt, DrainAt, Filled;
    TakeCur(c, i, Mid);
    TakeRevoked(c, i, Mid);
    TakeHistory(c, i, Mid);
  }

  lemma HandOverRevoked(c: Cells)
    requires RevokedAt(c.slots, c.place) && MidAt(c.place, c.rv) && CellInv(c.slots, c.rv) && c.rv.RvCounted?
    ensures var c' := HandOver(c, c.rv.i, c.rv.l); RevokedAt(c'.slots, c'.place)
  {
  }

  lemma HandOverCur(c: Cells)
    requires CurAt(c.slots, c.place) && MidAt(c.place, c.rv) && CellInv(c.slots, c.rv) && c.rv.RvCounted?
    ensures var c' := HandOver(c, c.rv.i, c.rv.l); CurAt(c'.slots, c'.place)
  {
  }

  lemma HandOverHistory(c: Cells)
    requires EndedAt(c.place, c.ended, |c.slots|) && MidAt(c.place, c.rv)
    requires CellInv(c.slots, c.rv) && c.rv.RvCounted?
    ensures var c' := HandOver(c, c.rv.i, c.rv.l);
            && EndedAt(c'.place, c'.ended, |c'.slots|)
            && RelyPlace(c.place, c'.place) && Filled(c'.slots) == Filled(c.slots) + 1
  {
    FilledSet(c.slots, c.rv.i, c.slots[c.rv.i].(revoked := Some(c.rv.l)));
  }

  lemma GiveBack(c: Cells)
    requires CellsInv(c) && c.rv.RvCounted?
    ensures var c' := HandOver(c, c.rv.i, c.rv.l).(rv := RvScan(c.rv.e, c.rv.i + 1, c.rv.n));
            CellsInv(c') && RelyCells(c, c')
  {
    hide CurAt, RevokedAt, EndedAt, Filled, RelyPlace;
    HandOverRevoked(c);
    HandOverCur(c);
    HandOverHistory(c);
  }

  // ------------------------------------------------------------------ the supervisor

  lemma SupervisorGate(w: World)
    requires GateInv(w.g, w.c.rv)
    ensures GateInv(RvGo(w).g, RvGo(w).c.rv) && Later(w.g, RvGo(w).g)
  {
  }

  lemma CellsGive(c: Cells)
    requires CellsInv(c)
    ensures CellInv(c.slots, c.rv) && DrainRange(c.drain, |c.slots|)
  {
  }

  lemma SupervisorBegins(w: World)
    requires CellsInv(w.c) && (w.c.rv.RvIdle? || w.c.rv.RvReady? || w.c.rv.RvPhase?)
    ensures CellsInv(RvGo(w).c) && RelyCells(w.c, RvGo(w).c)
  {
    hide CurAt, RevokedAt, EndedAt, DrainAt, Filled;
  }

  lemma SupervisorCounts(w: World)
    requires CellsInv(w.c) && (w.c.rv.RvOdd? || w.c.rv.RvFloored? || w.c.rv.RvMid?)
    ensures CellsInv(RvGo(w).c) && RelyCells(w.c, RvGo(w).c)
  {
    hide CurAt, RevokedAt, EndedAt, DrainAt, Filled;
  }

  lemma SupervisorScan(w: World)
    requires CellsInv(w.c) && CellInv(w.c.slots, w.c.rv) && w.c.rv.RvScan?
    requires w.c.rv.i < w.c.rv.n && w.c.slots[w.c.rv.i].cur.Some?
    ensures CellsInv(RvGo(w).c) && RelyCells(w.c, RvGo(w).c)
  {
    hide CellsInv, RelyCells;
    TakeMid(w.c, w.c.rv.i);
  }

  lemma SupervisorSkip(w: World)
    requires CellsInv(w.c) && w.c.rv.RvScan?
    requires w.c.rv.i >= w.c.rv.n || w.c.slots[w.c.rv.i].cur.None?
    ensures CellsInv(RvGo(w).c) && RelyCells(w.c, RvGo(w).c)
  {
    hide CurAt, RevokedAt, EndedAt, DrainAt, Filled;
  }

  lemma SupervisorHandOver(w: World)
    requires CellsInv(w.c) && CellInv(w.c.slots, w.c.rv) && w.c.rv.RvCounted?
    ensures CellsInv(RvGo(w).c) && RelyCells(w.c, RvGo(w).c)
  {
    hide CellsInv, RelyCells;
    GiveBack(w.c);
  }

  lemma SupervisorWorld(w: World)
    requires CellsInv(w.c)
    ensures CellsInv(RvGo(w).c) && RelyCells(w.c, RvGo(w).c)
  {
    hide CellsInv, RelyCells, RvGo;
    CellsGive(w.c);
    match w.c.rv
    case RvScan(_, i, n) =>
      if i < n && w.c.slots[i].cur.Some? { SupervisorScan(w); } else { SupervisorSkip(w); }
    case RvCounted(_, _, _, _) => SupervisorHandOver(w);
    case RvIdle => SupervisorBegins(w);
    case RvReady(_) => SupervisorBegins(w);
    case RvPhase(_) => SupervisorBegins(w);
    case _ => SupervisorCounts(w);
  }

  lemma SupervisorFrame(w: World, f: Facts)
    requires DrainFacts(w, f) && EpochInv(w.c.place, w.g.gate.epoch) && RelyCells(w.c, RvGo(w).c)
    requires GateInv(w.g, w.c.rv) && Later(w.g, RvGo(w).g)
    ensures DrainFacts(RvGo(w), f) && EpochInv(RvGo(w).c.place, RvGo(w).g.gate.epoch)
    ensures RvGo(w) == w.(g := RvGo(w).g, c := RvGo(w).c)
  {
  }

  lemma SupervisorKeeps(w: World, f: Facts, r: Reader)
    requires Core(w) && FactsOk(w, f) && ReaderInv(w, r)
    ensures Core(RvGo(w)) && FactsOk(RvGo(w), f) && ReaderInv(RvGo(w), r)
  {
    hide ReaderInv, GateInv, RvGo, Onward, DrainFacts, EpochInv, CellsInv;
    SupervisorGate(w);
    SupervisorWorld(w);
    SupervisorFrame(w, f);
    ReaderKeeps(w, RvGo(w), r);
    FactsKeep(w, RvGo(w), f);
  }

  // ------------------------------------------------------------------ gate, re-arm, clock, refresh

  lemma SameCells(c: Cells)
    requires CellsInv(c)
    ensures RelyCells(c, c) && Onward(c.place, c.place)
  {
  }

  lemma GateFrame(w: World, g': Safety, f: Facts)
    requires DrainFacts(w, f) && IssueFacts(w, f) && EpochInv(w.c.place, w.g.gate.epoch) && Later(w.g, g')
    ensures DrainFacts(w.(g := g'), f) && EpochInv(w.c.place, g'.gate.epoch)
  {
  }

  lemma GateKeeps(w: World, g': Safety, f: Facts, r: Reader)
    requires Core(w) && FactsOk(w, f) && ReaderInv(w, r)
    requires GateInv(g', w.c.rv) && Later(w.g, g')
    ensures var w' := w.(g := g'); Core(w') && FactsOk(w', f) && ReaderInv(w', r)
  {
    hide ReaderInv, GateInv, Onward, DrainFacts, IssueFacts, EpochInv, CellsInv;
    SameCells(w.c);
    GateFrame(w, g', f);
    ReaderKeeps(w, w.(g := g'), r);
    FactsKeep(w, w.(g := g'), f);
  }

  lemma TripGate(w: World)
    requires GateInv(w.g, w.c.rv)
    ensures var g' := TripGo(w).g; GateInv(g', w.c.rv) && Later(w.g, g') && TripGo(w) == w.(g := g')
  {
  }

  lemma LatchGate(w: World, step: Step)
    requires GateInv(w.g, w.c.rv) && (step.BeginRecovery? || step.RequireRearm? || step.Settle?)
    ensures var g' := EnvGo(w, step).g; GateInv(g', w.c.rv) && Later(w.g, g') && EnvGo(w, step) == w.(g := g')
  {
  }

  lemma RearmGate(w: World, i: nat)
    requires GateInv(w.g, w.c.rv)
    ensures var g' := RearmGo(w, i, true).g; GateInv(g', w.c.rv) && Later(w.g, g') && RearmGo(w, i, true) == w.(g := g')
  {
  }

  // A later freshness mark changes nothing but the mark.
  lemma MarkCells(c: Cells, k: nat, t: int)
    requires CellsInv(c) && k < |c.slots|
    ensures CellsInv(MarkFresh(c, k, t)) && RelyCells(c, MarkFresh(c, k, t))
  {
    FilledSet(c.slots, k, MarkFresh(c, k, t).slots[k]);
  }

  lemma MarkDrain(w: World, k: nat, t: int, f: Facts)
    requires DrainFacts(w, f) && k < |w.c.slots|
    ensures DrainFacts(w.(c := MarkFresh(w.c, k, t)), f)
  {
  }

  lemma MarkKeeps(w: World, k: nat, t: int, f: Facts, r: Reader)
    requires Core(w) && FactsOk(w, f) && ReaderInv(w, r) && k < |w.c.slots|
    ensures var w' := w.(c := MarkFresh(w.c, k, t)); Core(w') && FactsOk(w', f) && ReaderInv(w', r)
  {
    hide ReaderInv, GateInv, Onward, DrainFacts, EpochInv, CellsInv, RelySlots;
    MarkCells(w.c, k, t);
    MarkDrain(w, k, t, f);
    ReaderKeeps(w, w.(c := MarkFresh(w.c, k, t)), r);
    FactsKeep(w, w.(c := MarkFresh(w.c, k, t)), f);
  }

  lemma ClockKeeps(w: World, t: nat, beats: seq<Beat>, stop: bool, f: Facts, r: Reader)
    requires Core(w) && FactsOk(w, f) && ReaderInv(w, r)
    ensures var w' := w.(now := t, beats := beats, stopping := w.stopping || stop);
            Core(w') && FactsOk(w', f) && ReaderInv(w', r)
  {
    var w' := w.(now := t, beats := beats, stopping := w.stopping || stop);
    hide ReaderInv, GateInv, Onward, EpochInv, CellsInv;
    SameCells(w.c);
    ReaderKeeps(w, w', r);
    FactsKeep(w, w', f);
  }

  lemma EnvKeeps(w: World, step: Step, f: Facts, r: Reader)
    requires Core(w) && FactsOk(w, f) && ReaderInv(w, r)
    ensures var w' := EnvGo(w, step); Core(w') && FactsOk(w', f) && ReaderInv(w', r)
  {
    hide ReaderInv, FactsOk, GateInv, Later, EpochInv, CellsInv, TripGo;
    match step
    case Lookup(_, _) => ClockKeeps(w, w.now, EnvGo(w, step).beats, false, f, r);
    case Refresh(i) => if i < |w.beats| && w.beats[i].k < |w.c.slots| { MarkKeeps(w, w.beats[i].k, w.beats[i].at, f, r); }
    case Tick(t) => if w.now <= t { ClockKeeps(w, t, w.beats, false, f, r); }
    case CloseStop => ClockKeeps(w, w.now, w.beats, true, f, r);
    case Trip =>
      TripGate(w);
      GateKeeps(w, TripGo(w).g, f, r);
    case _ =>
      if step.BeginRecovery? || step.RequireRearm? || step.Settle? {
        LatchGate(w, step);
        GateKeeps(w, EnvGo(w, step).g, f, r);
      }
  }

  lemma RearmKeeps(w: World, i: nat, f: Facts, r: Reader)
    requires Core(w) && FactsOk(w, f) && ReaderInv(w, r)
    ensures var w' := RearmGo(w, i, true); Core(w') && FactsOk(w', f) && ReaderInv(w', r)
  {
    hide ReaderInv, FactsOk, GateInv, Later, EpochInv, CellsInv, RearmGo;
    RearmGate(w, i);
    GateKeeps(w, RearmGo(w, i, true).g, f, r);
  }

  // ------------------------------------------------------------------ the reader

  lemma ReaderStep(w: World, r: Reader, k: nat)
    requires Core(w) && ReaderInv(w, r)
    ensures ReaderInv(w, ReaderGo(w, r, k))
  {
    hide RevokedAt, MidAt, DrainAt, CellInv, DrainRange, Filled;
  }

  // ------------------------------------------------------------------ the drainer

  lemma CollectRevoked(c: Cells, k: nat)
    requires RevokedAt(c.slots, c.place) && k < |c.slots| && c.slots[k].revoked.Some?
    ensures var l := c.slots[k].revoked.value;
            var c' := Collect(c, k, l);
            RevokedAt(c'.slots, c'.place) && At1(c.place, l, Revoked, k) && At1(c'.place, l, Draining, k)
  {
  }

  lemma CollectHistory(c: Cells, k: nat)
    requires CurAt(c.slots, c.place) && EndedAt(c.place, c.ended, |c.slots|)
    requires k < |c.slots| && c.slots[k].revoked.Some? && At1(c.place, c.slots[k].revoked.value, Revoked, k)
    ensures var c' := Collect(c, k, c.slots[k].revoked.value);
            && CurAt(c'.slots, c'.place) && EndedAt(c'.place, c'.ended, |c'.slots|)
            && RelyPlace(c.place, c'.place) && Filled(c'.slots) == Filled(c.slots) - 1
  {
    FilledSet(c.slots, k, c.slots[k].(revoked := None));
  }

  lemma CollectCells(w: World, i: nat)
    requires CellsInv(w.c) && w.c.drain.DAt? && i == w.c.drain.i < w.c.drain.n && i < |w.c.slots|
    requires w.c.slots[i].revoked.Some?
    ensures CellsInv(DrainGo(w).c) && RelyCells(w.c, DrainGo(w).c)
  {
    hide CurAt, RevokedAt, EndedAt, Filled, RelyPlace;
    CollectRevoked(w.c, i);
    CollectHistory(w.c, i);
  }

  lemma TellPlace(c: Cells, id: nat, n: nat)
    requires EndedAt(c.place, c.ended, n) && id in c.place && c.place[id].at in {Draining, Dropped}
    ensures EndedAt(Tell(c, id).place, Tell(c, id).ended, n) && Onward(c.place, Tell(c, id).place)
  {
  }

  lemma TellSlots(c: Cells, id: nat)
    requires CurAt(c.slots, c.place) && RevokedAt(c.slots, c.place)
    requires id in c.place && c.place[id].at in {Draining, Dropped}
    ensures CurAt(c.slots, Tell(c, id).place) && RevokedAt(c.slots, Tell(c, id).place)
  {
  }

  lemma TellCells(w: World)
    requires CellsInv(w.c) && w.c.drain.DHold?
    ensures CellsInv(DrainGo(w).c) && RelyCells(w.c, DrainGo(w).c)
  {
    hide EndedAt, Filled, Onward, CurAt, RevokedAt;
    TellPlace(w.c, w.c.drain.l.id, |w.c.slots|);
    TellSlots(w.c, w.c.drain.l.id);
  }

  lemma DrainPlain(w: World)
    requires CellsInv(w.c) && !w.c.drain.DHold?
    requires w.c.drain.DAt? && w.c.drain.i < w.c.drain.n && w.c.drain.i < |w.c.slots| ==>
               w.c.slots[w.c.drain.i].revoked.None?
    ensures CellsInv(DrainGo(w).c) && RelyCells(w.c, DrainGo(w).c)
  {
    hide CurAt, RevokedAt, EndedAt, Filled;
  }

  lemma DrainWorld(w: World)
    requires CellsInv(w.c)
    ensures CellsInv(DrainGo(w).c) && RelyCells(w.c, DrainGo(w).c) && DrainGo(w) == w.(c := DrainGo(w).c)
    ensures DrainGo(w).c.rv == w.c.rv
  {
    hide CellsInv, RelyCells;
    CellsGive(w.c);
    match w.c.drain
    case DHold(_, _, _, _) => TellCells(w);
    case DAt(_, i, n) =>
      if i < n && w.c.slots[i].revoked.Some? { CollectCells(w, i); } else { DrainPlain(w); }
    case _ => DrainPlain(w);
  }

  lemma DrainFrame(w: World, f: Facts)
    requires DrainFacts(w, f) && CellsInv(w.c) && GateInv(w.g, w.c.rv)
    requires DrainGo(w).c.drain.DFree? ==> !f.draining
    ensures DrainFacts(DrainGo(w), f)
  {
    hide CurAt, RevokedAt, EndedAt, Filled, MidAt, DrainAt;
  }

  lemma EpochKeeps(place: Places, place': Places, epoch: nat)
    requires EpochInv(place, epoch) && RelyPlace(place, place')
    ensures EpochInv(place', epoch)
  {
  }

  lemma DrainKeeps(w: World, f: Facts, r: Reader)
    requires Core(w) && FactsOk(w, f) && ReaderInv(w, r)
    requires DrainGo(w).c.drain.DFree? ==> !f.draining
    ensures Core(DrainGo(w)) && FactsOk(DrainGo(w), f) && ReaderInv(DrainGo(w), r)
  {
    hide ReaderInv, GateInv, Onward, DrainFacts, CellsInv, DrainGo, RelySlots;
    DrainWorld(w);
    DrainFrame(w, f);
    EpochKeeps(w.c.place, DrainGo(w).c.place, w.g.gate.epoch);
    ReaderKeeps(w, DrainGo(w), r);
    FactsKeep(w, DrainGo(w), f);
  }
}
