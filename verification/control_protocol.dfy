/** Values of the control-lease protocol: leases, slots, the gate as (state, epoch), and the one
    validity rule every path applies to a lease. */
module ControlTypes {
  import opened Wrappers

  datatype Class = Human | AI

  /** A lease is immutable: renewal publishes a new value that differs in `deadline` only. */
  datatype Lease = Lease(
    id: nat, conn: nat, cls: Class, resource: string, generation: nat, package: string,
    deadline: int, ttl: int, deadman: int, epoch: nat)

  /** The same grant, possibly renewed. */
  predicate Same(l: Lease, o: Lease) { l == o.(deadline := l.deadline) }

  datatype Request = Request(
    conn: nat, cls: Class, resource: string, generation: nat, package: string, ttl: int, deadman: int)

  datatype GateState = Normal | Latched | Recovery | RearmRequired
  datatype Gate = Gate(st: GateState, epoch: nat)

  datatype Slot = Slot(resource: string, cur: Option<Lease>, freshAt: int, revoked: Option<Lease>)

  datatype Cause = Valid | SafetyLatched | StaleEpoch | LeaseExpired | DeadmanExpired

  /** Safety first, then the safety floor, then the deadline, then the deadman window. */
  function LeaseStateAt(l: Lease, st: GateState, floor: nat, freshAt: int, now: int): Cause {
    if st != Normal then SafetyLatched
    else if l.epoch <= floor then StaleEpoch
    else if now > l.deadline then LeaseExpired
    else if l.deadman > 0 && now - freshAt > l.deadman then DeadmanExpired
    else Valid
  }

  predicate CanPreempt(want: Class, held: Class) { want == Human && held == AI }

  const MAX_SLOTS: nat := 1024

  function FindSlot(slots: seq<Slot>, resource: string): (k: nat)
    ensures k <= |slots|
    ensures k < |slots| ==> slots[k].resource == resource
  {
    if |slots| == 0 then 0
    else if slots[0].resource == resource then 0
    else 1 + FindSlot(slots[1..], resource)
  }

  function Max(a: int, b: int): int { if a < b then b else a }
}

/** The control-lease protocol as a transition system whose steps are single atomic operations.

    Threads: the one holder of `mu` (Acquire, Renew, Release, Revoke*, lease expiry, snapshot,
    Stop), a Control Lane that may drain, the Safety supervisor with its lock-free RevokeAll, any
    number of re-arm callers and of Refresh callers, one lock-free reader, and the environment (Trip,
    recovery, the clock).
    A thread that waits for a lock does not move. Steps marked history only feed the properties.
 */
module ControlProtocol {
  import opened Wrappers
  import opened ControlTypes

  // Where a lease is, from its birth on.
  datatype At = New | InCur | Mid | Revoked | Draining | Dropped | Ended | Withdrawn
  datatype Place = Place(at: At, k: nat, orig: Lease)

  datatype How = Plain | Preempting | AfterDrop
  datatype Grant = Grant(lease: Lease, k: nat, how: How, spent: nat)

  datatype Match = ByConn(conn: nat) | ByPackage(package: string) | All {
    predicate Has(l: Lease) {
      match this
      case ByConn(c) => l.conn == c
      case ByPackage(p) => l.package == p
      case All => true
    }
  }

  // The context of an Acquire once its slot is known.
  datatype Acq = Acq(req: Request, now: nat, k: nat)
  datatype Use = ForAcquire(a: Acq) | ForRenew | ForExpiry
  datatype Cont = ToIdle | ToIssue(a: Acq, how: How)

  datatype Mu =
    | MuIdle
    // Acquire, up to the decision about the slot's present lease
    | AEnter(req: Request) | ADrain(req: Request) | ADraining(req: Request)
    | AStop(req: Request) | AClock(req: Request)
    | AGate(req: Request, now: nat) | ASlot(req: Request, now: nat) | ALoad(a: Acq)
    // the validity check of a lease: gate, floor and freshness are three loads
    | VGate(k: nat, l: Lease, now: nat, use: Use)
    | VFloor(k: nat, l: Lease, now: nat, st: GateState, use: Use)
    | VFresh(k: nat, l: Lease, now: nat, st: GateState, floor: nat, use: Use)
    | VHolds(k: nat, l: Lease, now: nat)
    // renewal
    | MRenew(k: nat, l: Lease, now: nat) | MRenewFresh(k: nat, now: nat)
    // ending leases: compare-and-swap, one epoch boundary, notifications
    | MDrop(k: nat, l: Lease, cont: Cont) | MPreempt(a: Acq, l: Lease)
    | MEnd(dropped: seq<Lease>, cont: Cont) | MNotify(dropped: seq<Lease>, cont: Cont)
    // issueLocked
    | IBump(a: Acq, how: How) | IPend(a: Acq, how: How, ep: nat)
    | IDrain(a: Acq, how: How, ep: nat) | IDraining(a: Acq, how: How, ep: nat)
    | ISeq(a: Acq, how: How, ep: nat) | IRevoked(a: Acq, how: How, ep: nat, seen: nat)
    | IFresh(a: Acq, how: How, l: Lease, seen: nat) | IStore(a: Acq, how: How, l: Lease, seen: nat)
    | IGate(a: Acq, how: How, l: Lease, seen: nat) | IReSeq(a: Acq, how: How, l: Lease, seen: nat)
    | IWithdraw(k: nat, l: Lease)
    // batch revocation
    | BScan(m: Match, i: nat, n: nat, dropped: seq<Lease>, final: bool)
    | BCas(m: Match, i: nat, n: nat, dropped: seq<Lease>, final: bool, l: Lease)
    // Renew, Release, RevokeResource, expiry: locate the lease
    | FRenew(id: nat, conn: nat, now: nat) | FRelease(id: nat, conn: nat)
    | FResource(resource: string, generation: nat) | FExpire(k: nat, l: Lease, now: nat)
    // Stop
    | SDrain | SDraining
    // ControlSnapshotFor
    | NSeq(resource: string) | NGate(resource: string, seen: nat) | NCur(resource: string, seen: nat, g: Gate)
    | NGate2(resource: string, seen: nat, g: Gate, view: View)
    | NSeq2(resource: string, seen: nat, g: Gate, view: View)
    | NFloor(g: Gate, view: View, l: Lease, k: nat) | NFresh(g: Gate, view: View, l: Lease, k: nat, floor: nat)
    | NDone(g: Gate, view: View, held: bool)

  // What a snapshot saw when it loaded the slot; gate and floor are history.
  datatype View = View(resource: string, cur: Option<Lease>, k: nat, gateThen: Gate, floorThen: nat)

  datatype Drain =
    | DFree
    | DAt(byMu: bool, i: nat, n: nat)
    | DHold(byMu: bool, i: nat, n: nat, l: Lease)   // taken out, observer not told yet
    | DTold(byMu: bool, i: nat, n: nat, l: Lease)   // told, still counted as pending

  datatype Rv =
    | RvIdle | RvReady(e: nat) | RvPhase(e: nat) | RvOdd(e: nat) | RvFloored(e: nat)
    | RvScan(e: nat, i: nat, n: nat)
    | RvMid(e: nat, i: nat, n: nat, l: Lease)       // swapped out of the slot
    | RvCounted(e: nat, i: nat, n: nat, l: Lease)   // counted as pending, not yet handed over

  // One re-arm caller.
  datatype Re = ReIdle | ReSnap(ep: nat) | ReChecked(ep: nat)

  // A Refresh that sampled the clock as `at` and then found lease `id` in slot k; its mark is to come.
  datatype Beat = Beat(k: nat, at: nat, id: nat)

  // CheckLease / CheckResource. `born` and what follows `|` in the names of fields is history.
  datatype Reader =
    | RIdle
    | RLoaded(k: nat, l: Lease, now: int, born: nat)
    | RGate(k: nat, l: Lease, now: int, born: nat, g: Gate, heldThen: bool, tripThen: nat)
    | RFloor(k: nat, l: Lease, now: int, born: nat, g: Gate, heldThen: bool, tripThen: nat, floor: nat)
    | RFresh(k: nat, l: Lease, now: int, born: nat, g: Gate, heldThen: bool, tripThen: nat, floor: nat)
    | RDone(k: nat, l: Lease, born: nat, g: Gate, heldThen: bool, tripThen: nat, now: int)

  // The gate, the seqlock, the safety floor, and the supervisor's bookkeeping (`lastTrip`: history).
  datatype Safety = Safety(
    gate: Gate, lastTrip: nat, seqno: nat, floor: nat, halt: nat, settled: nat, re: seq<Re>)

  // The cells RevokeAll, the drainer and the holder of mu share (`place`, `ended`: history).
  datatype Cells = Cells(
    slots: seq<Slot>, pending: int, rv: Rv, drain: Drain, place: map<nat, Place>, ended: multiset<nat>)

  datatype World = World(
    g: Safety, c: Cells, now: nat, beats: seq<Beat>, stopping: bool, grants: seq<Grant>, spent: nat, stopped: bool)

  datatype State = State(w: World, mu: Mu, reader: Reader)

  function Init(): State {
    State(World(Safety(Gate(Normal, 1), 0, 0, 0, 0, 0, []),
                Cells([Slot("base.main", None, 0, None)], 0, RvIdle, DFree, map[], multiset{}),
                0, [], false, [], 0, false),
          MuIdle, RIdle)
  }

  // ---------------------------------------------------------------- operations on the cells

  function Placed(place: map<nat, Place>, id: nat, at: At): map<nat, Place> {
    if id in place then place[id := place[id].(at := at)] else place
  }

  /** Empty `cur` of slot k. */
  function Take(c: Cells, k: nat, l: Lease, at: At): Cells
    requires k < |c.slots|
  {
    c.(slots := c.slots[k := c.slots[k].(cur := None)], place := Placed(c.place, l.id, at))
  }

  /** RevokeAll leaves what it took in the hand-over cell. */
  function HandOver(c: Cells, k: nat, l: Lease): Cells
    requires k < |c.slots|
  {
    c.(slots := c.slots[k := c.slots[k].(revoked := Some(l))], place := Placed(c.place, l.id, Revoked))
  }

  /** The drainer takes what was handed over. */
  function Collect(c: Cells, k: nat, l: Lease): Cells
    requires k < |c.slots|
  {
    c.(slots := c.slots[k := c.slots[k].(revoked := None)], place := Placed(c.place, l.id, Draining))
  }

  /** ControlLeaseEnded reaches the observer. */
  function Tell(c: Cells, id: nat): Cells {
    c.(place := Placed(c.place, id, Ended), ended := c.ended + multiset{id})
  }

  /** The atomic maximum of `markFresh`. */
  function MarkFresh(c: Cells, k: nat, t: int): Cells
    requires k < |c.slots|
  {
    c.(slots := c.slots[k := c.slots[k].(freshAt := Max(c.slots[k].freshAt, t))])
  }

  function Renewed(c: Cells, k: nat, l: Lease): Cells
    requires k < |c.slots|
  {
    c.(slots := c.slots[k := c.slots[k].(cur := Some(l))])
  }

  function Store(c: Cells, k: nat, l: Lease): Cells
    requires k < |c.slots|
  {
    Renewed(c, k, l).(place := Placed(c.place, l.id, InCur))
  }

  function Mint(c: Cells, k: nat, l: Lease): Cells { c.(place := c.place[l.id := Place(New, k, l)]) }

  function AddSlot(c: Cells, resource: string): Cells {
    c.(slots := c.slots + [Slot(resource, None, 0, None)])
  }

  predicate Holds(c: Cells, k: nat, l: Lease) {
    k < |c.slots| && c.slots[k].cur == Some(l)
  }

  /** BumpEpochIfNormal, when it succeeds. */
  function Bump(g: Safety): Safety { g.(gate := Gate(Normal, g.gate.epoch + 1)) }

  function Resume(c: Cont): Mu {
    match c case ToIdle => MuIdle case ToIssue(a, how) => IBump(a, how)
  }

  function To(s: State, mu: Mu): State { s.(mu := mu) }

  function Put(s: State, c: Cells, mu: Mu): State { s.(w := s.w.(c := c), mu := mu) }

  /** BumpEpochIfNormal took effect. */
  function PutBump(s: State, mu: Mu): State { s.(w := s.w.(g := Bump(s.w.g), spent := s.w.spent + 1), mu := mu) }

  // ---------------------------------------------------------------- the holder of mu

  datatype MuOp =
    | OpAcquire(req: Request) | OpRenew(id: nat, conn: nat) | OpRelease(id: nat, conn: nat)
    | OpRevokeResource(resource: string, generation: nat) | OpRevoke(m: Match)
    | OpExpire(k: nat, l: Lease, tick: nat) | OpSnapshot(resource: string) | OpStop

  function MuStart(s: State, op: MuOp): State {
    if !s.mu.MuIdle? then s else
      var s := s.(w := s.w.(spent := 0));
      match op
      case OpAcquire(req) => To(s, AEnter(req))
      case OpRenew(id, conn) => To(s, FRenew(id, conn, s.w.now))
      case OpRelease(id, conn) => To(s, FRelease(id, conn))
      case OpRevokeResource(r, g) => To(s, FResource(r, g))
      case OpRevoke(m) => To(s, BScan(m, 0, |s.w.c.slots|, [], false))
      case OpExpire(k, l, tick) => if tick <= s.w.now then To(s, FExpire(k, l, tick)) else s
      case OpSnapshot(r) => To(s, NSeq(r))
      case OpStop => if s.w.stopping then To(s, SDrain) else s
  }

  function AcquireGo(s: State): State {
    match s.mu
    case AEnter(req) => To(s, if s.w.c.pending != 0 then ADrain(req) else AStop(req))
    case ADrain(req) =>
      if s.w.c.drain.DFree? then Put(s, s.w.c.(drain := DAt(true, 0, |s.w.c.slots|)), ADraining(req)) else s
    case AStop(req) => To(s, if s.w.stopping then MuIdle else AClock(req))
    case AClock(req) => To(s, AGate(req, s.w.now))
    case AGate(req, now) => To(s, if s.w.g.gate.st != Normal then MuIdle else ASlot(req, now))
    case ASlot(req, now) =>
      var k := FindSlot(s.w.c.slots, req.resource);
      if k < |s.w.c.slots| then To(s, ALoad(Acq(req, now, k)))
      else if |s.w.c.slots| >= MAX_SLOTS then To(s, MuIdle)
      else Put(s, AddSlot(s.w.c, req.resource), ALoad(Acq(req, now, k)))
    case ALoad(a) =>
      if a.k >= |s.w.c.slots| then s
      else (match s.w.c.slots[a.k].cur
            case None => To(s, IBump(a, Plain))
            case Some(present) =>
              if present.generation != a.req.generation then To(s, MDrop(a.k, present, ToIssue(a, AfterDrop)))
              else To(s, VGate(a.k, present, a.now, ForAcquire(a))))
    case _ => s
  }

  function Decide(k: nat, l: Lease, now: nat, cause: Cause, use: Use): Mu {
    match use
    case ForAcquire(a) =>
      if cause != Valid then MDrop(k, l, ToIssue(a, AfterDrop))
      else if l.conn == a.req.conn && l.cls == a.req.cls then MRenew(k, l, now)
      else if CanPreempt(a.req.cls, l.cls) then MPreempt(a, l)
      else MuIdle
    case ForRenew => if cause != Valid then MuIdle else VHolds(k, l, now)
    case ForExpiry =>
      if cause == LeaseExpired || cause == DeadmanExpired then MDrop(k, l, ToIdle) else MuIdle
  }

  function CheckGo(s: State): State {
    match s.mu
    case VGate(k, l, now, use) => To(s, VFloor(k, l, now, s.w.g.gate.st, use))
    case VFloor(k, l, now, st, use) => To(s, VFresh(k, l, now, st, s.w.g.floor, use))
    case VFresh(k, l, now, st, floor, use) =>
      if k >= |s.w.c.slots| then s
      else To(s, Decide(k, l, now, LeaseStateAt(l, st, floor, s.w.c.slots[k].freshAt, now), use))
    case VHolds(k, l, now) =>
      if k < |s.w.c.slots| && s.w.c.slots[k].cur.Some? && s.w.c.slots[k].cur.value.id == l.id &&
         s.w.c.slots[k].cur.value.conn == l.conn && s.w.c.slots[k].cur.value.resource == l.resource
      then To(s, MRenew(k, l, now)) else To(s, MuIdle)
    case MRenew(k, l, now) =>
      if Holds(s.w.c, k, l)
      then Put(s, Renewed(s.w.c, k, l.(deadline := now + l.ttl)), MRenewFresh(k, now))
      else To(s, MuIdle)
    case MRenewFresh(k, now) => if k < |s.w.c.slots| then Put(s, MarkFresh(s.w.c, k, now), MuIdle) else s
    case _ => s
  }

  function EndGo(s: State): State {
    match s.mu
    case MDrop(k, l, cont) =>
      if Holds(s.w.c, k, l) then Put(s, Take(s.w.c, k, l, Dropped), MEnd([l], cont))
      else To(s, Resume(cont))
    case MPreempt(a, l) =>
      if Holds(s.w.c, a.k, l)
      then Put(s, Take(s.w.c, a.k, l, Dropped), MNotify([l], ToIssue(a, Preempting)))
      else To(s, IBump(a, Plain))
    case MEnd(dropped, cont) =>
      if s.w.g.gate.st == Normal
      then PutBump(s, MNotify(dropped, cont))
      else To(s, MNotify(dropped, cont))
    case MNotify(dropped, cont) =>
      if dropped == [] then To(s, Resume(cont))
      else Put(s, Tell(s.w.c, dropped[0].id), MNotify(dropped[1..], cont))
    case _ => s
  }

  function NewLease(a: Acq, id: nat, ep: nat): Lease {
    Lease(id, a.req.conn, a.req.cls, a.req.resource, a.req.generation, a.req.package,
          a.now + a.req.ttl, a.req.ttl, a.req.deadman, ep)
  }

  /** `id` is the outcome of `newID`: it never repeats an identifier already issued. */
  function IssueGo(s: State, id: nat): State {
    match s.mu
    case IBump(a, how) =>
      if s.w.g.gate.st != Normal then To(s, MuIdle)
      else PutBump(s, IPend(a, how, s.w.g.gate.epoch + 1))
    case IPend(a, how, ep) => To(s, if s.w.c.pending != 0 then IDrain(a, how, ep) else ISeq(a, how, ep))
    case IDrain(a, how, ep) =>
      if s.w.c.drain.DFree? then Put(s, s.w.c.(drain := DAt(true, 0, |s.w.c.slots|)), IDraining(a, how, ep)) else s
    case ISeq(a, how, ep) =>
      To(s, if s.w.g.seqno % 2 == 1 then MuIdle else IRevoked(a, how, ep, s.w.g.seqno))
    case IRevoked(a, how, ep, seen) =>
      if a.k >= |s.w.c.slots| || id in s.w.c.place then s
      else if s.w.c.slots[a.k].revoked.Some? then To(s, MuIdle)
      else
        var l := NewLease(a, id, ep);
        Put(s, Mint(s.w.c, a.k, l), IFresh(a, how, l, seen))
    case IFresh(a, how, l, seen) =>
      if a.k < |s.w.c.slots| then Put(s, MarkFresh(s.w.c, a.k, a.now), IStore(a, how, l, seen)) else s
    case IStore(a, how, l, seen) =>
      if a.k < |s.w.c.slots| then Put(s, Store(s.w.c, a.k, l), IGate(a, how, l, seen)) else s
    case IGate(a, how, l, seen) =>
      To(s, if s.w.g.gate == Gate(Normal, l.epoch) then IReSeq(a, how, l, seen) else IWithdraw(a.k, l))
    case IReSeq(a, how, l, seen) =>
      if s.w.g.seqno == seen
      then s.(w := s.w.(grants := s.w.grants + [Grant(l, a.k, how, s.w.spent)]), mu := MuIdle)
      else To(s, IWithdraw(a.k, l))
    case IWithdraw(k, l) =>
      if Holds(s.w.c, k, l) then Put(s, Take(s.w.c, k, l, Withdrawn), MuIdle) else To(s, MuIdle)
    case _ => s
  }

  /** `k` is the slot at which the scan of `findLease` stopped, if it found anything. */
  function FindGo(s: State, k: nat): State {
    var c := if k < |s.w.c.slots| then s.w.c.slots[k].cur else None;
    match s.mu
    case FRenew(id, conn, now) =>
      To(s, if c.Some? && c.value.id == id && c.value.conn == conn then VGate(k, c.value, now, ForRenew) else MuIdle)
    case FRelease(id, conn) =>
      To(s, if c.Some? && c.value.id == id && c.value.conn == conn then MDrop(k, c.value, ToIdle) else MuIdle)
    case FResource(r, g) =>
      var j := FindSlot(s.w.c.slots, r);
      if j < |s.w.c.slots| && s.w.c.slots[j].cur.Some? && s.w.c.slots[j].cur.value.generation == g
      then To(s, MDrop(j, s.w.c.slots[j].cur.value, ToIdle)) else To(s, MuIdle)
    case FExpire(j, l, now) =>
      To(s, if Holds(s.w.c, j, l) then VGate(j, l, now, ForExpiry) else MuIdle)
    case SDrain =>
      if s.w.c.drain.DFree? then Put(s, s.w.c.(drain := DAt(true, 0, |s.w.c.slots|)), SDraining) else s
    case _ => s
  }

  function BatchGo(s: State): State {
    match s.mu
    case BScan(m, i, n, dropped, final) =>
      if i >= n || i >= |s.w.c.slots| then
        s.(w := s.w.(stopped := s.w.stopped || final), mu := if dropped == [] then MuIdle else MEnd(dropped, ToIdle))
      else if s.w.c.slots[i].cur.Some? && m.Has(s.w.c.slots[i].cur.value)
      then To(s, BCas(m, i, n, dropped, final, s.w.c.slots[i].cur.value))
      else To(s, BScan(m, i + 1, n, dropped, final))
    case BCas(m, i, n, dropped, final, l) =>
      if Holds(s.w.c, i, l)
      then Put(s, Take(s.w.c, i, l, Dropped), BScan(m, i + 1, n, dropped + [l], final))
      else To(s, BScan(m, i + 1, n, dropped, final))
    case _ => s
  }

  function SnapGo(s: State): State {
    match s.mu
    case NSeq(r) => if s.w.g.seqno % 2 == 1 then s else To(s, NGate(r, s.w.g.seqno))
    case NGate(r, seen) => To(s, NCur(r, seen, s.w.g.gate))
    case NCur(r, seen, g) =>
      var k := FindSlot(s.w.c.slots, r);
      To(s, NGate2(r, seen, g, View(r, if k < |s.w.c.slots| then s.w.c.slots[k].cur else None, k, s.w.g.gate, s.w.g.floor)))
    case NGate2(r, seen, g, v) => To(s, if s.w.g.gate == g then NSeq2(r, seen, g, v) else NSeq(r))
    case NSeq2(r, seen, g, v) =>
      if s.w.g.seqno != seen then To(s, NSeq(r))
      else if g.st != Normal || v.cur.None? then To(s, NDone(g, v, false))
      else To(s, NFloor(g, v, v.cur.value, v.k))
    case NFloor(g, v, l, k) => To(s, NFresh(g, v, l, k, s.w.g.floor))
    case NFresh(g, v, l, k, floor) =>
      if k >= |s.w.c.slots| then s
      else To(s, NDone(g, v, LeaseStateAt(l, g.st, floor, s.w.c.slots[k].freshAt, s.w.now) == Valid))
    case NDone(_, _, _) => To(s, MuIdle)
    case _ => s
  }

  function MuGo(s: State, id: nat, k: nat): State {
    match s.mu
    case AEnter(_) => AcquireGo(s) case ADrain(_) => AcquireGo(s) case AStop(_) => AcquireGo(s)
    case AClock(_) => AcquireGo(s) case AGate(_, _) => AcquireGo(s) case ASlot(_, _) => AcquireGo(s)
    case ALoad(_) => AcquireGo(s)
    case VGate(_, _, _, _) => CheckGo(s) case VFloor(_, _, _, _, _) => CheckGo(s)
    case VFresh(_, _, _, _, _, _) => CheckGo(s) case VHolds(_, _, _) => CheckGo(s)
    case MRenew(_, _, _) => CheckGo(s) case MRenewFresh(_, _) => CheckGo(s)
    case MDrop(_, _, _) => EndGo(s) case MPreempt(_, _) => EndGo(s)
    case MEnd(_, _) => EndGo(s) case MNotify(_, _) => EndGo(s)
    case IBump(_, _) => IssueGo(s, id) case IPend(_, _, _) => IssueGo(s, id)
    case IDrain(_, _, _) => IssueGo(s, id) case ISeq(_, _, _) => IssueGo(s, id)
    case IRevoked(_, _, _, _) => IssueGo(s, id) case IFresh(_, _, _, _) => IssueGo(s, id)
    case IStore(_, _, _, _) => IssueGo(s, id) case IGate(_, _, _, _) => IssueGo(s, id)
    case IReSeq(_, _, _, _) => IssueGo(s, id) case IWithdraw(_, _) => IssueGo(s, id)
    case BScan(_, _, _, _, _) => BatchGo(s) case BCas(_, _, _, _, _, _) => BatchGo(s)
    case FRenew(_, _, _) => FindGo(s, k) case FRelease(_, _) => FindGo(s, k)
    case FResource(_, _) => FindGo(s, k) case FExpire(_, _, _) => FindGo(s, k)
    case SDrain => FindGo(s, k)
    case NSeq(_) => SnapGo(s) case NGate(_, _) => SnapGo(s) case NCur(_, _, _) => SnapGo(s)
    case NGate2(_, _, _, _) => SnapGo(s) case NSeq2(_, _, _, _) => SnapGo(s)
    case NFloor(_, _, _, _) => SnapGo(s) case NFresh(_, _, _, _, _) => SnapGo(s)
    case NDone(_, _, _) => SnapGo(s)
    // idle, or inside drainRevoked: the drainer moves
    case MuIdle => s case ADraining(_) => s case IDraining(_, _, _) => s case SDraining => s
  }

  // ---------------------------------------------------------------- drainRevoked

  function AfterDrain(mu: Mu, n: nat): Mu {
    match mu
    case ADraining(req) => AStop(req)
    case IDraining(a, how, ep) => ISeq(a, how, ep)
    case SDraining => BScan(All, 0, n, [], true)
    case _ => mu
  }

  function DrainGo(w: World): World {
    match w.c.drain
    case DFree => w.(c := w.c.(drain := DAt(false, 0, |w.c.slots|)))
    case DAt(byMu, i, n) =>
      if i >= n || i >= |w.c.slots| then w.(c := w.c.(drain := DFree))
      else (match w.c.slots[i].revoked
            case None => w.(c := w.c.(drain := DAt(byMu, i + 1, n)))
            case Some(l) => w.(c := Collect(w.c, i, l).(drain := DHold(byMu, i, n, l))))
    case DHold(byMu, i, n, l) => w.(c := Tell(w.c, l.id).(drain := DTold(byMu, i, n, l)))
    case DTold(byMu, i, n, _) => w.(c := w.c.(drain := DAt(byMu, i + 1, n), pending := w.c.pending - 1))
  }

  // ---------------------------------------------------------------- the Safety supervisor

  /** reconcile and beginHalt, then RevokeAll one atomic operation at a time. */
  function RvGo(w: World): World {
    match w.c.rv
    case RvIdle =>
      if w.g.gate.st != Normal && w.g.gate.epoch != w.g.halt then w.(c := w.c.(rv := RvReady(w.g.gate.epoch))) else w
    case RvReady(e) => w.(c := w.c.(rv := RvPhase(e)), g := w.g.(halt := e, settled := 0))
    case RvPhase(e) => w.(c := w.c.(rv := RvOdd(e)), g := w.g.(seqno := w.g.seqno + 1))
    case RvOdd(e) => w.(c := w.c.(rv := RvFloored(e)), g := w.g.(floor := if w.g.floor < e then e else w.g.floor))
    case RvFloored(e) => w.(c := w.c.(rv := RvScan(e, 0, |w.c.slots|)))
    case RvScan(e, i, n) =>
      if i >= n || i >= |w.c.slots| then w.(c := w.c.(rv := RvIdle), g := w.g.(seqno := w.g.seqno + 1))
      else (match w.c.slots[i].cur
            case None => w.(c := w.c.(rv := RvScan(e, i + 1, n)))
            case Some(l) => w.(c := Take(w.c, i, l, Mid).(rv := RvMid(e, i, n, l))))
    case RvMid(e, i, n, l) => w.(c := w.c.(rv := RvCounted(e, i, n, l), pending := w.c.pending + 1))
    case RvCounted(e, i, n, l) =>
      if i < |w.c.slots| && w.c.slots[i].revoked.None?
      then w.(c := HandOver(w.c, i, l).(rv := RvScan(e, i + 1, n)))
      else w.(c := w.c.(rv := RvScan(e, i + 1, n), pending := w.c.pending - 1))
  }

  // ---------------------------------------------------------------- gate, re-arm, readers

  function TripGo(w: World): World {
    if w.g.gate.st == Latched then w
    else w.(g := w.g.(gate := Gate(Latched, w.g.gate.epoch + 1), lastTrip := w.g.gate.epoch + 1))
  }

  /** RevokeAll for the present halt has run to its end. */
  predicate Swept(w: World) { w.c.rv.RvIdle? && w.g.halt == w.g.gate.epoch }

  /** Caller i's next step would swap the gate. */
  predicate Arms(w: World, i: nat) { i < |w.g.re| && w.g.re[i].ReChecked? && w.g.gate.st == RearmRequired }

  /** Re-arm caller i: sample the gate, compare the settled stop phase with that epoch, then swap the
      gate. `rule` is the environment rule that the RevokeAll of every Trip comes first. */
  function RearmGo(w: World, i: nat, rule: bool): World {
    if i >= |w.g.re| then w.(g := w.g.(re := w.g.re + [ReSnap(w.g.gate.epoch)])) else
      match w.g.re[i]
      case ReIdle => w.(g := w.g.(re := w.g.re[i := ReSnap(w.g.gate.epoch)]))
      case ReSnap(ep) => w.(g := w.g.(re := w.g.re[i := if w.g.settled == ep then ReChecked(ep) else ReIdle]))
      case ReChecked(_) =>
        var g := w.g.(re := w.g.re[i := ReIdle]);
        if Arms(w, i) && (rule ==> Swept(w)) then w.(g := g.(gate := Gate(Normal, w.g.gate.epoch + 1))) else w.(g := g)
  }

  function ReaderGo(w: World, r: Reader, k: nat): Reader {
    match r
    case RIdle =>
      if k < |w.c.slots| && w.c.slots[k].cur.Some?
      then RLoaded(k, w.c.slots[k].cur.value, w.now, w.g.lastTrip) else RIdle
    case RLoaded(k, l, now, born) =>
      RGate(k, l, now, born, w.g.gate,
            k < |w.c.slots| && w.c.slots[k].cur.Some? && w.c.slots[k].cur.value.id == l.id, w.g.lastTrip)
    case RGate(k, l, now, born, g, h, t) => RFloor(k, l, now, born, g, h, t, w.g.floor)
    case RFloor(k, l, now, born, g, h, t, floor) =>
      if k < |w.c.slots| && LeaseStateAt(l, g.st, floor, w.c.slots[k].freshAt, now) == Valid
      then RFresh(k, l, now, born, g, h, t, floor) else RIdle
    case RFresh(k, l, now, born, g, h, t, floor) =>
      if k < |w.c.slots| && w.c.slots[k].cur.Some? && w.c.slots[k].cur.value.id == l.id &&
         w.c.slots[k].cur.value.conn == l.conn && w.c.slots[k].cur.value.resource == l.resource
      then RDone(k, l, born, g, h, t, now) else RIdle
    case RDone(_, _, _, _, _, _, _) => RIdle
  }

  datatype Step =
    | StartMu(op: MuOp) | GoMu(id: nat, k: nat) | GoDrain | GoRv | GoRearm(i: nat) | GoReader(k: nat)
    | Trip | BeginRecovery | RequireRearm | Settle
    | Lookup(k: nat, at: nat) | Refresh(i: nat) | Tick(t: nat) | CloseStop

  function EnvGo(w: World, step: Step): World {
    var g := w.g;
    match step
    case Trip => TripGo(w)
    case BeginRecovery =>
      if g.gate.st == Latched then w.(g := g.(gate := Gate(Recovery, g.gate.epoch))) else w
    case RequireRearm =>
      if g.gate.st == Latched || g.gate.st == Recovery
      then w.(g := g.(gate := Gate(RearmRequired, g.gate.epoch))) else w
    case Settle => if w.c.rv.RvIdle? then w.(g := g.(settled := g.halt)) else w
    case Lookup(k, at) =>
      if k < |w.c.slots| && w.c.slots[k].cur.Some? && at <= w.now
      then w.(beats := w.beats + [Beat(k, at, w.c.slots[k].cur.value.id)]) else w
    case Refresh(i) =>
      if i < |w.beats| && w.beats[i].k < |w.c.slots| then w.(c := MarkFresh(w.c, w.beats[i].k, w.beats[i].at)) else w
    case Tick(t) => if w.now <= t then w.(now := t) else w
    case CloseStop => w.(stopping := true)
    case _ => w
  }

  /** One step of the whole system. `rule` is the environment rule on re-arming. */
  function Do(s: State, step: Step, rule: bool): State {
    match step
    case StartMu(op) => MuStart(s, op)
    case GoMu(id, k) => MuGo(s, id, k)
    case GoDrain =>
      s.(w := DrainGo(s.w),
         mu := if s.w.c.drain.DAt? && s.w.c.drain.byMu && DrainGo(s.w).c.drain.DFree?
               then AfterDrain(s.mu, |s.w.c.slots|) else s.mu)
    case GoRv => s.(w := RvGo(s.w))
    case GoRearm(i) => s.(w := RearmGo(s.w, i, rule))
    case GoReader(k) => s.(reader := ReaderGo(s.w, s.reader, k))
    case _ => s.(w := EnvGo(s.w, step))
  }

  function Exec(s: State, steps: seq<Step>, rule: bool): State {
    if steps == [] then s else Do(Exec(s, steps[..|steps| - 1], rule), steps[|steps| - 1], rule)
  }
}
