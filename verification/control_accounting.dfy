/** Grants, the end of leases, epochs and snapshots over whole runs. */
module ControlAccounting {
  import opened Wrappers
  import opened ControlTypes
  import opened ControlProtocol
  import opened ControlInvariant
  import opened ControlMuProof
  import opened ControlStepProof
  import opened ControlRuns
  import opened ControlGuarantees
  import M = MotionGate

  // ------------------------------------------------------------------ where a granted lease is

  predicate InSlot(s: State, k: nat, id: nat) {
    k < |s.w.c.slots| && s.w.c.slots[k].cur.Some? && s.w.c.slots[k].cur.value.id == id
  }

  predicate HandedOver(s: State, k: nat, id: nat) {
    k < |s.w.c.slots| && s.w.c.slots[k].revoked.Some? && s.w.c.slots[k].revoked.value.id == id
  }

  predicate BeingRevoked(s: State, id: nat) { InMid(s.w.c.rv) && s.w.c.rv.l.id == id }

  predicate BeingDrained(s: State, id: nat) { s.w.c.drain.DHold? && s.w.c.drain.l.id == id }

  // What the holder of mu has taken out of slots and not reported yet.
  function TakenBy(mu: Mu): seq<Lease> {
    match mu
    case MEnd(d, _) => d
    case MNotify(d, _) => d
    case BScan(_, _, _, d, _) => d
    case BCas(_, _, _, d, _, _) => d
    case _ => []
  }

  predicate BeingDropped(s: State, id: nat) { exists i :: 0 <= i < |TakenBy(s.mu)| && TakenBy(s.mu)[i].id == id }

  lemma TakenSome(mu: Mu)
    requires mu.MEnd? || mu.MNotify? || mu.BScan? || mu.BCas?
    ensures FactsOf(mu).dropped == TakenBy(mu)
  {
  }

  lemma TakenNone(mu: Mu)
    requires !(mu.MEnd? || mu.MNotify? || mu.BScan? || mu.BCas?)
    ensures FactsOf(mu).dropped == TakenBy(mu)
  {
  }

  lemma TakenIs(mu: Mu)
    ensures FactsOf(mu).dropped == TakenBy(mu)
  {
    hide FactsOf;
    if mu.MEnd? || mu.MNotify? || mu.BScan? || mu.BCas? { TakenSome(mu); } else { TakenNone(mu); }
  }

  lemma WhereIs(w: World, f: Facts, j: nat)
    requires CellsInv(w.c) && LeaseFacts(w, f) && GrantFacts(w, f) && j < |w.grants|
    ensures var g := w.grants[j];
            g.lease.id in w.c.place && w.c.place[g.lease.id].k == g.k && w.c.place[g.lease.id].at !in {New, Withdrawn}
  {
    hide CellsInv, LeaseFacts;
  }

  lemma PlaceSlots(s: State, id: nat, k: nat)
    requires CellsInv(s.w.c) && id in s.w.c.place && s.w.c.place[id].k == k
    ensures InSlot(s, k, id) <==> s.w.c.place[id].at == InCur
    ensures HandedOver(s, k, id) <==> s.w.c.place[id].at == Revoked
    ensures forall j :: j != k ==> !InSlot(s, j, id) && !HandedOver(s, j, id)
  {
    hide MidAt, DrainAt, EndedAt, CellInv, DrainRange, Filled;
  }

  lemma PlaceOther(s: State, id: nat)
    requires CellsInv(s.w.c) && id in s.w.c.place
    ensures BeingRevoked(s, id) <==> s.w.c.place[id].at == Mid
    ensures BeingDrained(s, id) <==> s.w.c.place[id].at == Draining
    ensures s.w.c.ended[id] == One(s.w.c.place[id].at == Ended)
  {
    hide CurAt, RevokedAt, CellInv, DrainRange, Filled;
  }

  lemma PlaceDropped(s: State, f: Facts, id: nat)
    requires LeaseFacts(s.w, f) && f.dropped == TakenBy(s.mu) && id in s.w.c.place
    ensures BeingDropped(s, id) <==> s.w.c.place[id].at == Dropped
  {
  }

  lemma InvParts(s: State)
    requires Inv(s)
    ensures CellsInv(s.w.c) && LeaseFacts(s.w, FactsOf(s.mu)) && GrantFacts(s.w, FactsOf(s.mu)) && GateInv(s.w.g, s.w.c.rv)
    ensures CellInv(s.w.c.slots, s.w.c.rv) && LookFacts(s.w, FactsOf(s.mu)) && IssueFacts(s.w, FactsOf(s.mu))
    ensures SlotFacts(s.w, FactsOf(s.mu)) && QuietFacts(s.w, FactsOf(s.mu)) && Fits(s.mu)
  {
  }

  /** Conservation: a granted lease is at all times in exactly one place - in the slot it was granted
      on, in RevokeAll's hands, in that slot's hand-over cell, in the drainer's hands, in the hands of
      the holder of mu, or over with its one ControlLeaseEnded delivered. */
  lemma Conservation(steps: seq<Step>, n: nat, j: nat)
    requires n <= |steps| && j < |StateAt(steps, n).w.grants|
    ensures var s := StateAt(steps, n);
            var (k, id) := (s.w.grants[j].k, s.w.grants[j].lease.id);
            && One(InSlot(s, k, id)) + One(BeingRevoked(s, id)) + One(HandedOver(s, k, id)) + One(BeingDrained(s, id))
               + One(BeingDropped(s, id)) + s.w.c.ended[id] == 1
            && forall o :: o != k ==> !InSlot(s, o, id) && !HandedOver(s, o, id)
  {
    hide Inv, CellsInv, GateInv, LeaseFacts, GrantFacts, FactsOf, CellInv, LookFacts, IssueFacts, SlotFacts, QuietFacts,
         InSlot, HandedOver, BeingRevoked, BeingDrained, BeingDropped, StateAt;
    var s := StateAt(steps, n);
    RunInv(steps, n);
    InvParts(s);
    WhereIs(s.w, FactsOf(s.mu), j);
    TakenIs(s.mu);
    var id := s.w.grants[j].lease.id;
    PlaceSlots(s, id, s.w.grants[j].k);
    PlaceOther(s, id);
    PlaceDropped(s, FactsOf(s.mu), id);
  }

  /** No lease, granted or not, ever has its end reported twice. */
  lemma EndedOnce(steps: seq<Step>, n: nat, id: nat)
    requires n <= |steps|
    ensures StateAt(steps, n).w.c.ended[id] <= 1
  {
    hide Inv, GateInv, LeaseFacts, GrantFacts, FactsOf, CellInv, LookFacts, IssueFacts, SlotFacts, QuietFacts, Filled,
         CurAt, RevokedAt, MidAt, DrainAt, StateAt;
    RunInv(steps, n);
    InvParts(StateAt(steps, n));
  }

  /** The compare-and-swap on a hand-over cell never fails, and revPending counts exactly the filled
      cells, the hand-over in progress and the delivery in progress; so no decrement underflows. */
  lemma PendingCounts(steps: seq<Step>, n: nat)
    requires n <= |steps|
    ensures var c := StateAt(steps, n).w.c;
            && c.pending == Filled(c.slots) + One(c.rv.RvCounted?) + One(InHand(c.drain))
            && (c.rv.RvCounted? ==> c.rv.i < |c.slots| && c.slots[c.rv.i].revoked.None? && c.pending > 0)
            && (c.drain.DTold? ==> c.pending > 0)
  {
    hide Inv, GateInv, LeaseFacts, GrantFacts, FactsOf, LookFacts, IssueFacts, SlotFacts, QuietFacts, Filled,
         CurAt, RevokedAt, MidAt, DrainAt, EndedAt, StateAt;
    RunInv(steps, n);
    InvParts(StateAt(steps, n));
  }

  // ------------------------------------------------------------------ what a grant guarantees

  lemma GrantReady(s: State)
    requires Inv(s) && s.mu.IReSeq? && s.w.g.seqno == s.mu.seen
    ensures var (k, l) := (s.mu.a.k, s.mu.l);
            && k < |s.w.c.slots| && s.w.c.slots[k] == s.w.c.slots[k].(cur := Some(l), resource := l.resource)
            && s.w.g.floor < l.epoch && !s.w.stopped && AllOver(s.w, Quiet(l.epoch, k, Some(l.id)))
            && forall j :: 0 <= j < |s.w.grants| ==>
                 && s.w.grants[j].lease.epoch < l.epoch && s.w.grants[j].lease.id != l.id
                 && s.w.grants[j].lease.id in s.w.c.place && s.w.c.place[s.w.grants[j].lease.id].k == s.w.grants[j].k
                 && s.w.c.place[s.w.grants[j].lease.id].at != Withdrawn
    ensures 1 <= s.w.spent <= if s.mu.how == AfterDrop then 2 else 1
  {
    hide CellsInv, GateInv, LeaseFacts, LookFacts, FactsOf, AllOver;
    AtReSeq(s.mu.a, s.mu.how, s.mu.l, s.mu.seen);
  }

  lemma GrantOver(s: State, j: nat)
    requires CellsInv(s.w.c) && s.mu.IReSeq? && AllOver(s.w, Quiet(s.mu.l.epoch, s.mu.a.k, Some(s.mu.l.id)))
    requires j < |s.w.grants| && s.w.grants[j].k == s.mu.a.k
    requires var id := s.w.grants[j].lease.id;
             id != s.mu.l.id && id in s.w.c.place && s.w.c.place[id].k == s.w.grants[j].k && s.w.c.place[id].at != Withdrawn
    ensures s.w.c.ended[s.w.grants[j].lease.id] == 1
  {
    hide CurAt, RevokedAt, MidAt, DrainAt, Filled, CellInv, DrainRange;
  }

  /** When Acquire returns a new lease: the slot of its resource holds it, it is above the safety
      floor, its token is above that of every earlier grant, Stop's last sweep has not happened, and
      ControlLeaseEnded has been delivered for every earlier grant of the same slot. */
  lemma GrantOrdering(steps: seq<Step>, n: nat)
    requires n < |steps| && StateAt(steps, n + 1).w.grants != StateAt(steps, n).w.grants
    ensures var (s, s') := (StateAt(steps, n), StateAt(steps, n + 1));
            && |s'.w.grants| == |s.w.grants| + 1 && s'.w.grants[..|s.w.grants|] == s.w.grants
            && var g := s'.w.grants[|s.w.grants|];
            && g.k < |s.w.c.slots| && s.w.c.slots[g.k].cur == Some(g.lease) && s.w.c.slots[g.k].resource == g.lease.resource
            && s.w.g.floor < g.lease.epoch && !s.w.stopped
            && (forall j :: 0 <= j < |s.w.grants| ==>
                  && s.w.grants[j].lease.epoch < g.lease.epoch && s.w.grants[j].lease.id != g.lease.id
                  && (s.w.grants[j].k == g.k ==> s.w.c.ended[s.w.grants[j].lease.id] == 1))
  {
    hide Inv, Carried, Do, CellsInv, GateInv, LeaseFacts, GrantFacts, LookFacts, IssueFacts, SlotFacts, QuietFacts, FactsOf,
         CellInv, Fits, AllOver;
    var s := StateAt(steps, n);
    RunSteps(steps, n);
    InvParts(s);
    GrantReady(s);
    forall j | 0 <= j < |s.w.grants| && s.w.grants[j].k == s.mu.a.k ensures s.w.c.ended[s.w.grants[j].lease.id] == 1 {
      GrantOver(s, j);
    }
  }

  lemma StoredThen(s: State, l: Lease)
    requires Inv(s) && s.mu.IGate? && s.mu.l == l && s.w.g.gate == Gate(Normal, l.epoch) && s.w.g.seqno == s.mu.seen
    ensures Authorises(s, s.mu.a.k, l)
  {
    hide CellsInv, LeaseFacts, GrantFacts, LookFacts, SlotFacts, QuietFacts, FactsOf, EpochInv;
    AtGate(s.mu.a, s.mu.how, l, s.mu.seen);
  }

  lemma SeenBound(s: State)
    requires Inv(s) && s.mu.IGate?
    ensures s.mu.seen <= s.w.g.seqno
  {
    hide CellsInv, GateInv, LeaseFacts, GrantFacts, LookFacts, SlotFacts, QuietFacts, FactsOf, EpochInv;
    AtGate(s.mu.a, s.mu.how, s.mu.l, s.mu.seen);
  }

  /** No lease is returned that a Trip had already overtaken when it became visible: at one instant
      between its publication and its return it authorised motion. */
  lemma GrantAtOneInstant(steps: seq<Step>, n: nat) returns (i: nat)
    requires n < |steps| && StateAt(steps, n + 1).w.grants != StateAt(steps, n).w.grants
    ensures i < n && StateAt(steps, n).mu.IReSeq?
    ensures var mu := StateAt(steps, n).mu; Authorises(StateAt(steps, i), mu.a.k, mu.l) && StateAt(steps, i).mu.IGate?
  {
    hide Inv, Carried, Do, Authorises;
    var s := StateAt(steps, n);
    RunSteps(steps, n);
    i := Remembered(steps, n);
    RunInv(steps, i);
    Monotone(steps, i, n);
    SeenBound(StateAt(steps, i));
    StoredThen(StateAt(steps, i), s.mu.l);
  }

  // ------------------------------------------------------------------ epochs

  /** Tokens of grants strictly increase across all slots and never exceed the gate's epoch, which is
      never 0. A grant costs one epoch boundary, preemption included; only an Acquire that first
      collects an invalid or outdated lease costs at most one more (`ControlLedger.GrantCost` says when). */
  lemma EpochsOfGrants(steps: seq<Step>, n: nat)
    requires n <= |steps|
    ensures var w := StateAt(steps, n).w;
            && 1 <= w.g.gate.epoch
            && (forall i, j :: 0 <= i < j < |w.grants| ==> w.grants[i].lease.epoch < w.grants[j].lease.epoch)
            && (forall i :: 0 <= i < |w.grants| ==>
                  && w.grants[i].lease.epoch <= w.g.gate.epoch
                  && 1 <= w.grants[i].spent <= if w.grants[i].how == AfterDrop then 2 else 1)
  {
    hide Inv, CellsInv, LeaseFacts, FactsOf, CellInv, LookFacts, IssueFacts, SlotFacts, QuietFacts, StateAt;
    RunInv(steps, n);
    InvParts(StateAt(steps, n));
  }

  // ------------------------------------------------------------------ Stop

  lemma StoppedGives(s: State)
    requires Inv(s) && s.w.stopped
    ensures !s.mu.IReSeq? && forall k :: 0 <= k < |s.w.c.slots| ==> s.w.c.slots[k].cur.None?
  {
    hide Core, IssueFacts, QuietFacts, DrainFacts, LookFacts, LeaseFacts, GrantFacts, ReaderInv;
  }

  /** After Stop's final sweep no slot ever holds a lease again and no lease is ever granted. */
  lemma {:induction false} StoppedForever(steps: seq<Step>, m: nat, n: nat)
    requires m <= n <= |steps| && StateAt(steps, m).w.stopped
    ensures var s := StateAt(steps, n);
            && s.w.stopped && s.w.grants == StateAt(steps, m).w.grants
            && forall k :: 0 <= k < |s.w.c.slots| ==> s.w.c.slots[k].cur.None?
  {
    hide Inv, Carried, Do, Init;
    RunInv(steps, n);
    if m < n {
      StoppedForever(steps, m, n - 1);
      RunSteps(steps, n - 1);
      StoppedGives(StateAt(steps, n - 1));
    }
    StoppedGives(StateAt(steps, n));
  }

  // ------------------------------------------------------------------ ControlSnapshotFor

  lemma LookIs(s: State)
    requires Inv(s) && s.mu.NDone?
    ensures s.mu.view.gateThen == s.mu.g && (s.mu.held ==> s.mu.view.cur.Some? && s.mu.g.st == Normal)
    ensures s.mu.held ==> s.mu.view.floorThen < s.mu.view.cur.value.epoch
  {
    hide Core, SlotFacts, IssueFacts, QuietFacts, DrainFacts, LeaseFacts, GrantFacts, ReaderInv, FactsOf;
    AtDone(s.mu.g, s.mu.view, s.mu.held);
  }

  /** A snapshot is a state, an epoch and a lease that held simultaneously at one instant of its
      execution; a lease it reports as held was above the safety floor at that instant. */
  lemma SnapshotAtOneInstant(steps: seq<Step>, n: nat) returns (i: nat)
    requires n <= |steps| && StateAt(steps, n).mu.NDone?
    ensures i < n
    ensures var (mu, s) := (StateAt(steps, n).mu, StateAt(steps, i));
            && s.mu.NCur? && s.mu.resource == mu.view.resource && s.w.g.gate == mu.g
            && var k := FindSlot(s.w.c.slots, mu.view.resource);
            && mu.view.cur == (if k < |s.w.c.slots| then s.w.c.slots[k].cur else None)
            && (mu.held ==> mu.view.cur.Some? && s.w.g.gate.st == Normal && s.w.g.floor < mu.view.cur.value.epoch)
  {
    hide Inv, Do, Init;
    i := Remembered(steps, n);
    RunInv(steps, n);
    LookIs(StateAt(steps, n));
  }

  // ------------------------------------------------------------------ the packed word behind the gate

  function Code(st: GateState): M.StateCode {
    match st case Normal => M.NORMAL case Latched => M.LATCHED case Recovery => M.RECOVERY case RearmRequired => M.REARM
  }

  /** The 64-bit word that stands for the gate. */
  function WordOf(g: Gate): M.Word { M.Pack(Code(g.st), g.epoch) }

  // The swap that ends a re-arm.
  lemma RearmIsPacked(w: World, i: nat)
    requires w.g.gate.epoch + 1 < M.EPOCH_MODULUS && i < |w.g.re| && w.g.re[i].ReChecked?
    ensures M.Apply(WordOf(w.g.gate), M.Rearm) == (WordOf(RearmGo(w, i, false).g.gate), w.g.gate.st == RearmRequired)
  {
    M.PackExact(Code(w.g.gate.st), w.g.gate.epoch, WordOf(w.g.gate));
  }

  lemma OthersArePacked(w: World)
    requires w.g.gate.epoch + 1 < M.EPOCH_MODULUS
    ensures M.Apply(WordOf(w.g.gate), M.Trip) == (WordOf(TripGo(w).g.gate), w.g.gate.st != Latched)
    ensures M.Apply(WordOf(w.g.gate), M.BumpIfNormal) ==
            if w.g.gate.st == Normal then (WordOf(Bump(w.g).gate), true) else (WordOf(w.g.gate), false)
    ensures M.Apply(WordOf(w.g.gate), M.BeginRecovery) == (WordOf(EnvGo(w, BeginRecovery).g.gate), w.g.gate.st == Latched)
    ensures M.Apply(WordOf(w.g.gate), M.RequireRearm) ==
            (WordOf(EnvGo(w, RequireRearm).g.gate), w.g.gate.st == Latched || w.g.gate.st == Recovery)
  {
    M.PackExact(Code(w.g.gate.st), w.g.gate.epoch, WordOf(w.g.gate));
  }

  /** While the epoch fits its 56 bits, every gate step of the protocol is the packed word's
      operation of the same name. */
  lemma GateIsPacked(w: World, i: nat)
    requires w.g.gate.epoch + 1 < M.EPOCH_MODULUS
    ensures M.Apply(WordOf(w.g.gate), M.Trip) == (WordOf(TripGo(w).g.gate), w.g.gate.st != Latched)
    ensures M.Apply(WordOf(w.g.gate), M.BumpIfNormal) ==
            if w.g.gate.st == Normal then (WordOf(Bump(w.g).gate), true) else (WordOf(w.g.gate), false)
    ensures M.Apply(WordOf(w.g.gate), M.BeginRecovery) == (WordOf(EnvGo(w, BeginRecovery).g.gate), w.g.gate.st == Latched)
    ensures M.Apply(WordOf(w.g.gate), M.RequireRearm) ==
            (WordOf(EnvGo(w, RequireRearm).g.gate), w.g.gate.st == Latched || w.g.gate.st == Recovery)
    ensures i < |w.g.re| && w.g.re[i].ReChecked? ==>
            M.Apply(WordOf(w.g.gate), M.Rearm) == (WordOf(RearmGo(w, i, false).g.gate), w.g.gate.st == RearmRequired)
  {
    hide RearmGo, WordOf;
    if i < |w.g.re| && w.g.re[i].ReChecked? { RearmIsPacked(w, i); }
    OthersArePacked(w);
  }

  /** Two gates are told apart by their words. */
  lemma WordsAreExact(g: Gate, g': Gate)
    requires g.epoch < M.EPOCH_MODULUS && g'.epoch < M.EPOCH_MODULUS && WordOf(g) == WordOf(g')
    ensures g == g'
  {
    M.PackExact(Code(g.st), g.epoch, WordOf(g));
    M.PackExact(Code(g'.st), g'.epoch, WordOf(g'));
  }
}
