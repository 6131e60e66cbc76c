/** The steps of the holder of `mu` that change the shared world. */
module ControlWorldProof {
  import opened Wrappers
  import opened ControlTypes
  import opened ControlProtocol
  import opened ControlInvariant
  import opened ControlProof
  import opened ControlMuProof

  // ------------------------------------------------------------------ counting the epoch boundaries of an operation

  lemma Respend(w: World, n: nat, f: Facts, f': Facts)
    requires FactsOk(w, f) && f' == f.(spent := f'.spent)
    requires f'.spent.Some? ==> f'.spent.value.lo <= n <= f'.spent.value.hi
    ensures FactsOk(w.(spent := n), f')
  {
  }

  lemma BumpGate(g: Safety, rv: Rv)
    requires GateInv(g, rv) && g.gate.st == Normal
    ensures GateInv(Bump(g), rv) && Later(g, Bump(g))
  {
  }

  lemma Bumped(w: World, f: Facts, f': Facts, r: Reader)
    requires Core(w) && FactsOk(w, f) && ReaderInv(w, r) && w.g.gate.st == Normal
    requires f' == f.(spent := f'.spent)
    requires f'.spent.Some? ==> f'.spent.value.lo <= w.spent + 1 <= f'.spent.value.hi
    ensures var w' := w.(g := Bump(w.g), spent := w.spent + 1);
            Core(w') && FactsOk(w', f') && ReaderInv(w', r) && Evolve(w, w')
  {
    hide GateInv, FactsOk, Later, CellsInv, EpochInv, Bump;
    BumpGate(w.g, w.c.rv);
    GateKeeps(w, Bump(w.g), f, r);
    Respend(w.(g := Bump(w.g)), w.spent + 1, f, f');
    SameCells(w.c);
    ReaderKeeps(w, w.(g := Bump(w.g), spent := w.spent + 1), r);
  }

  lemma Retoken(w: World, f: Facts, ep: nat)
    requires FactsOk(w, f) && f.token.None? && f.cleared.None? && ep == w.g.gate.epoch
    requires forall i :: 0 <= i < |w.grants| ==> w.grants[i].lease.epoch < ep
    ensures FactsOk(w, f.(token := Some(ep)))
  {
  }

  // ------------------------------------------------------------------ drains run by the holder of mu

  lemma StartDrainCells(c: Cells)
    requires CellsInv(c) && c.drain.DFree?
    ensures var c' := c.(drain := DAt(true, 0, |c.slots|)); CellsInv(c') && RelyCells(c, c')
  {
    hide CurAt, RevokedAt, EndedAt, Filled;
  }

  lemma StartDrainFacts(w: World, f: Facts)
    requires DrainFacts(w, f) && w.c.drain.DFree?
    ensures DrainFacts(w.(c := w.c.(drain := DAt(true, 0, |w.c.slots|))), f.(draining := true, cleared := f.token))
  {
  }

  // FactsOk up to what is said of the drain.
  lemma Redrain(w: World, f: Facts, f': Facts)
    requires SlotFacts(w, f) && IssueFacts(w, f) && QuietFacts(w, f) && LeaseFacts(w, f) && GrantFacts(w, f) && LookFacts(w, f)
    requires f' == f.(draining := f'.draining, cleared := f'.cleared) && DrainFacts(w, f')
    ensures FactsOk(w, f')
  {
    hide DrainFacts;
  }

  lemma StartDrain(w: World, f: Facts, r: Reader)
    requires Core(w) && FactsOk(w, f) && ReaderInv(w, r) && w.c.drain.DFree?
    ensures var w' := w.(c := w.c.(drain := DAt(true, 0, |w.c.slots|)));
            Core(w') && FactsOk(w', f.(draining := true, cleared := f.token)) && ReaderInv(w', r)
  {
    hide ReaderInv, GateInv, Onward, DrainFacts, EpochInv, CellsInv, RelyCells;
    var w' := w.(c := w.c.(drain := DAt(true, 0, |w.c.slots|)));
    StartDrainCells(w.c);
    StartDrainFacts(w, f);
    CellsGiveRely(w, w');
    ReaderKeeps(w, w', r);
    SlotKeeps(w, w', f);
    IssueKeeps(w, w', f);
    QuietKeeps(w, w', f);
    LeaseKeeps(w, w', f);
    GrantKeeps(w, w', f);
    LookKeeps(w, w', f);
    Redrain(w', f, f.(draining := true, cleared := f.token));
  }

  lemma CellsGiveRely(w: World, w': World)
    requires RelyCells(w.c, w'.c) && w' == w.(c := w'.c)
    ensures Rely(w, w') && Onward(w.c.place, w'.c.place)
  {
  }

  // ------------------------------------------------------------------ a new slot

  lemma {:induction false} AddSlotCells(c: Cells, resource: string)
    requires CellsInv(c)
    ensures CellsInv(AddSlot(c, resource)) && Onward(c.place, AddSlot(c, resource).place)
  {
    var slots := AddSlot(c, resource).slots;
    assert slots[..|slots| - 1] == c.slots;
  }

  lemma AddSlotFacts(w: World, resource: string)
    requires FactsOk(w, Entering())
    ensures var w' := w.(c := AddSlot(w.c, resource));
            FactsOk(w', Entering().(home := Some(Home(|w.c.slots|, resource))))
  {
  }

  // ------------------------------------------------------------------ taking a lease out of its slot

  lemma TakeRest(c: Cells, k: nat, l: Lease, at: At)
    requires MidAt(c.place, c.rv) && CellInv(c.slots, c.rv) && DrainRange(c.drain, |c.slots|)
    requires Holds(c, k, l) && At1(c.place, l, InCur, k) && at in {Dropped, Withdrawn}
    ensures var c' := Take(c, k, l, at);
            MidAt(c'.place, c'.rv) && CellInv(c'.slots, c'.rv) && DrainRange(c'.drain, |c'.slots|)
  {
  }

  lemma TakeCells(c: Cells, k: nat, l: Lease, at: At)
    requires CellsInv(c) && Holds(c, k, l) && at in {Dropped, Withdrawn}
    ensures var c' := Take(c, k, l, at);
            && CellsInv(c') && Onward(c.place, c'.place) && At1(c.place, l, InCur, k)
            && c'.place == c.place[l.id := c.place[l.id].(at := at)]
  {
    hide CurAt, RevokedAt, EndedAt, DrainAt, Filled, MidAt, CellInv, DrainRange, Onward;
    TakeCur(c, k, at);
    TakeRevoked(c, k, at);
    TakeHistory(c, k, at);
    TakeRest(c, k, l, at);
  }

  lemma TakeEpoch(c: Cells, k: nat, l: Lease, at: At, epoch: nat)
    requires EpochInv(c.place, epoch) && Holds(c, k, l)
    ensures EpochInv(Take(c, k, l, at).place, epoch)
  {
  }

  lemma DroppingSlots(w: World, k: nat, l: Lease, f: Facts, f': Facts)
    requires SlotFacts(w, f) && IssueFacts(w, f) && DrainFacts(w, f) && LookFacts(w, f) && Holds(w.c, k, l)
    requires f.sure.None? && f.cell.None? && f.guard.None? && f.quiet.None? && f.over.None?
    requires f' == f.(nilOr := None, empty := f'.empty, dropped := f'.dropped) && Less(Some(k), f'.empty)
    ensures var w' := w.(c := Take(w.c, k, l, Dropped));
            SlotFacts(w', f') && IssueFacts(w', f') && QuietFacts(w', f') && DrainFacts(w', f') && LookFacts(w', f')
  {
  }

  lemma DroppingLeases(w: World, k: nat, l: Lease, f: Facts, f': Facts)
    requires LeaseFacts(w, f) && Holds(w.c, k, l) && f.birth.None? && f.stored.None?
    requires l.id in w.c.place && w.c.place[l.id].at == InCur
    requires f' == f.(nilOr := None, empty := f'.empty, dropped := f.dropped + [l])
    ensures LeaseFacts(w.(c := Take(w.c, k, l, Dropped)), f')
  {
    var w' := w.(c := Take(w.c, k, l, Dropped));
    forall id | id in w'.c.place && w'.c.place[id].at == Dropped
      ensures exists i :: 0 <= i < |f'.dropped| && f'.dropped[i].id == id
    {
      if id == l.id { assert f'.dropped[|f.dropped|].id == id; }
      else {
        var i :| 0 <= i < |f.dropped| && f.dropped[i].id == id;
        assert f'.dropped[i].id == id;
      }
    }
  }

  lemma DroppingGrants(w: World, k: nat, l: Lease, f: Facts, f': Facts)
    requires GrantFacts(w, f) && Holds(w.c, k, l) && l.id in w.c.place
    requires f' == f.(nilOr := None, empty := f'.empty, dropped := f'.dropped)
    ensures GrantFacts(w.(c := Take(w.c, k, l, Dropped)), f')
  {
  }

  /** The holder of mu wins the compare-and-swap: the slot is empty, the observer not yet told. */
  lemma Dropping(w: World, k: nat, l: Lease, f: Facts, f': Facts)
    requires Core(w) && FactsOk(w, f) && Holds(w.c, k, l)
    requires f.birth.None? && f.stored.None? && f.sure.None? && f.cell.None? && f.guard.None? && f.quiet.None? && f.over.None?
    requires f' == f.(nilOr := None, empty := f'.empty, dropped := f.dropped + [l]) && Less(Some(k), f'.empty)
    ensures var w' := w.(c := Take(w.c, k, l, Dropped)); Core(w') && FactsOk(w', f') && Evolve(w, w')
  {
    hide GateInv, CellsInv, EpochInv, SlotFacts, IssueFacts, QuietFacts, DrainFacts, LookFacts, LeaseFacts, GrantFacts, Onward, Take;
    TakeCells(w.c, k, l, Dropped);
    TakeEpoch(w.c, k, l, Dropped, w.g.gate.epoch);
    TakeSame(w.c, k, l, Dropped);
    DroppingSlots(w, k, l, f, f');
    DroppingLeases(w, k, l, f, f');
    DroppingGrants(w, k, l, f, f');
  }

  lemma TakeSame(c: Cells, k: nat, l: Lease, at: At)
    requires Holds(c, k, l)
    ensures Take(c, k, l, at).rv == c.rv
  {
  }

  lemma WithdrawingFacts(w: World, k: nat, l: Lease, f: Facts)
    requires FactsOk(w, f) && Holds(w.c, k, l) && f.dropped == [] && f.birth.None? && !f.draining
    requires f.ungranted == Some(l.id) && l.id in w.c.place
    ensures FactsOk(w.(c := Take(w.c, k, l, Withdrawn)), Nothing)
  {
  }

  lemma Withdrawing(w: World, k: nat, l: Lease, f: Facts)
    requires Core(w) && FactsOk(w, f) && Holds(w.c, k, l) && f.dropped == [] && f.birth.None? && !f.draining
    requires f.ungranted == Some(l.id)
    ensures var w' := w.(c := Take(w.c, k, l, Withdrawn)); Core(w') && FactsOk(w', Nothing) && Evolve(w, w')
  {
    hide GateInv, CellsInv, EpochInv, FactsOk, Onward, Take;
    TakeCells(w.c, k, l, Withdrawn);
    TakeEpoch(w.c, k, l, Withdrawn, w.g.gate.epoch);
    TakeSame(w.c, k, l, Withdrawn);
    WithdrawingFacts(w, k, l, f);
  }

  // ------------------------------------------------------------------ telling the observer

  lemma TellRest(c: Cells, id: nat)
    requires MidAt(c.place, c.rv) && DrainAt(c.place, c.drain) && id in c.place && c.place[id].at == Dropped
    ensures MidAt(Tell(c, id).place, c.rv) && DrainAt(Tell(c, id).place, c.drain)
  {
  }

  lemma TellingCells(c: Cells, id: nat)
    requires CellsInv(c) && id in c.place && c.place[id].at == Dropped
    ensures CellsInv(Tell(c, id)) && Onward(c.place, Tell(c, id).place)
  {
    hide CurAt, RevokedAt, EndedAt, DrainAt, Filled, MidAt, CellInv, DrainRange, Onward;
    TellPlace(c, id, |c.slots|);
    TellSlots(c, id);
    TellRest(c, id);
  }

  lemma TellingLeases(w: World, f: Facts)
    requires LeaseFacts(w, f) && f.dropped != [] && f.birth.None? && f.stored.None?
    ensures LeaseFacts(w.(c := Tell(w.c, f.dropped[0].id)), f.(dropped := f.dropped[1..]))
  {
    var f' := f.(dropped := f.dropped[1..]);
    var w' := w.(c := Tell(w.c, f.dropped[0].id));
    forall id | id in w'.c.place && w'.c.place[id].at == Dropped
      ensures exists i :: 0 <= i < |f'.dropped| && f'.dropped[i].id == id
    {
      var i :| 0 <= i < |f.dropped| && f.dropped[i].id == id;
      assert f'.dropped[i - 1].id == id;
    }
  }

  lemma TellingRest(w: World, f: Facts)
    requires FactsOk(w, f) && f.dropped != [] && f.quiet.None? && f.over.None?
    ensures var w' := w.(c := Tell(w.c, f.dropped[0].id));
            var f' := f.(dropped := f.dropped[1..]);
            SlotFacts(w', f') && IssueFacts(w', f') && QuietFacts(w', f') && DrainFacts(w', f') && GrantFacts(w', f') && LookFacts(w', f')
  {
    hide LeaseFacts;
  }

  lemma Telling(w: World, f: Facts)
    requires Core(w) && FactsOk(w, f) && f.dropped != []
    requires f.birth.None? && f.stored.None? && f.quiet.None? && f.over.None?
    ensures var w' := w.(c := Tell(w.c, f.dropped[0].id));
            Core(w') && FactsOk(w', f.(dropped := f.dropped[1..])) && Evolve(w, w')
  {
    hide GateInv, CellsInv, SlotFacts, IssueFacts, QuietFacts, DrainFacts, LookFacts, GrantFacts, Onward;
    TellingCells(w.c, f.dropped[0].id);
    TellingLeases(w, f);
    TellingRest(w, f);
  }

  // ------------------------------------------------------------------ issuing

  lemma MintSlots(c: Cells, k: nat, l: Lease)
    requires CurAt(c.slots, c.place) && RevokedAt(c.slots, c.place) && l.id !in c.place
    ensures CurAt(c.slots, Mint(c, k, l).place) && RevokedAt(c.slots, Mint(c, k, l).place)
  {
  }

  lemma MintRestCells(c: Cells, k: nat, l: Lease)
    requires MidAt(c.place, c.rv) && DrainAt(c.place, c.drain) && EndedAt(c.place, c.ended, |c.slots|)
    requires k < |c.slots| && l.id !in c.place
    ensures var place' := Mint(c, k, l).place;
            && MidAt(place', c.rv) && DrainAt(place', c.drain) && EndedAt(place', c.ended, |c.slots|) && Onward(c.place, place')
  {
  }

  lemma MintCells(c: Cells, k: nat, l: Lease)
    requires CellsInv(c) && k < |c.slots| && l.id !in c.place
    ensures CellsInv(Mint(c, k, l)) && Onward(c.place, Mint(c, k, l).place)
  {
    hide CurAt, RevokedAt, MidAt, DrainAt, EndedAt, CellInv, Filled, Onward;
    MintSlots(c, k, l);
    MintRestCells(c, k, l);
  }

  lemma MintLeases(w: World, k: nat, l: Lease, f: Facts, f': Facts)
    requires LeaseFacts(w, f) && GrantFacts(w, f) && l.id !in w.c.place && f.birth.None? && f.dropped == [] && f.stored.None?
    requires f' == f.(quiet := f'.quiet, cell := f'.cell, birth := Some(Hold(k, l)), ungranted := Some(l.id))
    ensures LeaseFacts(w.(c := Mint(w.c, k, l)), f') && GrantFacts(w.(c := Mint(w.c, k, l)), f')
  {
  }

  lemma MintRest(w: World, k: nat, l: Lease, f: Facts, f': Facts)
    requires SlotFacts(w, f) && IssueFacts(w, f) && QuietFacts(w, f) && DrainFacts(w, f) && LookFacts(w, f)
    requires k < |w.c.slots| && w.c.slots[k].revoked.None? && l.id !in w.c.place
    requires f.quiet == Some(Quiet(l.epoch, k, None)) && f.guard == Some(k) && f.over.None?
    requires f' == f.(quiet := Some(Quiet(l.epoch, k, Some(l.id))), cell := Some(k), birth := f'.birth, ungranted := f'.ungranted)
    ensures var w' := w.(c := Mint(w.c, k, l));
            SlotFacts(w', f') && IssueFacts(w', f') && QuietFacts(w', f') && DrainFacts(w', f') && LookFacts(w', f')
  {
  }

  lemma MintedFacts(w: World, a: Acq, how: How, l: Lease, seen: nat)
    requires FactsOk(w, FactsOf(IRevoked(a, how, l.epoch, seen))) && l.id !in w.c.place
    requires a.k < |w.c.slots| && w.c.slots[a.k].revoked.None?
    ensures FactsOk(w.(c := Mint(w.c, a.k, l)), FactsOf(IFresh(a, how, l, seen)))
  {
    hide FactsOf, SlotFacts, IssueFacts, QuietFacts, DrainFacts, LookFacts, LeaseFacts, GrantFacts;
    AtRevoked(a, how, l.epoch, seen);
    AtFresh(a, how, l, seen);
    var f := Quieted(a, how, l.epoch).(seen := Some(seen), guard := Some(a.k));
    MintLeases(w, a.k, l, f, Minted(a, how, l, seen));
    MintRest(w, a.k, l, f, Minted(a, how, l, seen));
  }

  lemma StoreSlots(c: Cells, k: nat, l: Lease)
    requires CurAt(c.slots, c.place) && RevokedAt(c.slots, c.place) && k < |c.slots| && c.slots[k].cur.None?
    requires At1(c.place, l, New, k)
    ensures var c' := Store(c, k, l); CurAt(c'.slots, c'.place) && RevokedAt(c'.slots, c'.place)
  {
  }

  lemma StoreHistory(c: Cells, k: nat, l: Lease)
    requires MidAt(c.place, c.rv) && DrainAt(c.place, c.drain) && EndedAt(c.place, c.ended, |c.slots|)
    requires CellInv(c.slots, c.rv) && k < |c.slots| && c.slots[k].revoked.None? && !Filling(c.rv, k)
    requires At1(c.place, l, New, k)
    ensures var c' := Store(c, k, l);
            && MidAt(c'.place, c'.rv) && DrainAt(c'.place, c'.drain) && EndedAt(c'.place, c'.ended, |c'.slots|)
            && CellInv(c'.slots, c'.rv) && Onward(c.place, c'.place) && Filled(c'.slots) == Filled(c.slots)
  {
    FilledSet(c.slots, k, Store(c, k, l).slots[k]);
  }

  lemma StoreCells(c: Cells, k: nat, l: Lease)
    requires CellsInv(c) && k < |c.slots| && c.slots[k].cur.None? && c.slots[k].revoked.None? && !Filling(c.rv, k)
    requires At1(c.place, l, New, k)
    ensures CellsInv(Store(c, k, l)) && Onward(c.place, Store(c, k, l).place)
  {
    hide CurAt, RevokedAt, EndedAt, DrainAt, Filled, MidAt, CellInv, Onward;
    StoreSlots(c, k, l);
    StoreHistory(c, k, l);
  }

  lemma StoredLeases(w: World, a: Acq, l: Lease, f: Facts, f': Facts)
    requires LeaseFacts(w, f) && GrantFacts(w, f) && f.birth == Some(Hold(a.k, l)) && f.dropped == [] && a.k < |w.c.slots|
    requires f'.birth.None? && f'.stored == Some(Hold(a.k, l)) && f'.dropped == [] && f'.token == f.token && f'.ungranted == f.ungranted
    ensures LeaseFacts(w.(c := Store(w.c, a.k, l)), f') && GrantFacts(w.(c := Store(w.c, a.k, l)), f')
  {
  }

  lemma StoredRest(w: World, a: Acq, how: How, l: Lease, seen: nat)
    requires var f := Minted(a, how, l, seen);
             SlotFacts(w, f) && IssueFacts(w, f) && QuietFacts(w, f) && DrainFacts(w, f) && a.k < |w.c.slots|
    requires l.id in w.c.place
    ensures var f' := Unchecked(a, how, l, seen);
            var w' := w.(c := Store(w.c, a.k, l));
            SlotFacts(w', f') && IssueFacts(w', f') && QuietFacts(w', f') && DrainFacts(w', f') && LookFacts(w', f')
  {
  }

  lemma StoredFacts(w: World, a: Acq, how: How, l: Lease, seen: nat)
    requires FactsOk(w, FactsOf(IStore(a, how, l, seen))) && a.k < |w.c.slots|
    ensures FactsOk(w.(c := Store(w.c, a.k, l)), FactsOf(IGate(a, how, l, seen)))
  {
    hide FactsOf, SlotFacts, IssueFacts, QuietFacts, DrainFacts, LookFacts, GrantFacts;
    AtStore(a, how, l, seen);
    AtGate(a, how, l, seen);
    StoredLeases(w, a, l, Minted(a, how, l, seen), Unchecked(a, how, l, seen));
    StoredRest(w, a, how, l, seen);
  }

  lemma GrantedFacts(w: World, a: Acq, how: How, l: Lease, seen: nat)
    requires FactsOk(w, Checked(a, how, l, seen))
    ensures FactsOk(w.(grants := w.grants + [Grant(l, a.k, how, w.spent)]), Nothing)
  {
  }

  // ------------------------------------------------------------------ renewal, the end of a batch

  lemma RenewCells(c: Cells, k: nat, l: Lease, d: int)
    requires CellsInv(c) && Holds(c, k, l)
    ensures CellsInv(Renewed(c, k, l.(deadline := d)))
  {
    FilledSet(c.slots, k, Renewed(c, k, l.(deadline := d)).slots[k]);
    hide Filled, EndedAt, MidAt, DrainAt;
  }

  lemma RenewedRest(w: World, k: nat, l: Lease, d: int, f: Facts)
    requires FactsOk(w, f) && f == Fresh(Nothing.(nilOr := Some(Hold(k, l)))) && Holds(w.c, k, l)
    ensures FactsOk(w.(c := Renewed(w.c, k, l.(deadline := d))), Fresh(Nothing.(index := Some(k))))
  {
  }

  lemma RenewedFacts(w: World, k: nat, l: Lease, now: nat)
    requires FactsOk(w, FactsOf(MRenew(k, l, now))) && Holds(w.c, k, l)
    ensures FactsOk(w.(c := Renewed(w.c, k, l.(deadline := now + l.ttl))), FactsOf(MRenewFresh(k, now)))
  {
    hide FactsOk;
    RenewedRest(w, k, l, now + l.ttl, FactsOf(MRenew(k, l, now)));
  }

  lemma ScannedFacts(w: World, f: Facts, i: nat, n: nat, final: bool)
    requires FactsOk(w, f) && f.count == Some(n) && i >= n && !f.admitted && (final ==> f.shutdown && f.sealed == Some(i))
    ensures FactsOk(w.(stopped := w.stopped || final), f)
  {
  }

  lemma Scanned(w: World, m: Match, i: nat, n: nat, d: seq<Lease>, final: bool)
    requires FactsOk(w, FactsOf(BScan(m, i, n, d, final))) && i >= n
    ensures var w' := w.(stopped := w.stopped || final);
            if d == [] then FactsOk(w', Nothing) else FactsOk(w', FactsOf(MEnd(d, ToIdle)))
  {
    hide FactsOk, FactsOf;
    var w' := w.(stopped := w.stopped || final);
    AtScan(m, i, n, d, final);
    AtEnd(d, ToIdle);
    ScannedFacts(w, Scanning(i, n, d, final), i, n, final);
    Weaken(w', Scanning(i, n, d, final), if d == [] then Nothing else Continuing(Plainly().(dropped := d), ToIdle));
  }
}
