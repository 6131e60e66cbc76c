/** The Operation Manager: long-running operations, their one terminal outcome, and the fan-out of
    their events. Every function `...On` is the effect of one critical section of the manager's lock;
    class `Manager` is the code that performs it. */
module Operations {
  import opened Wrappers

  datatype OpState = Pending | Running | CancelRequested | Succeeded | Failed | Cancelled

  predicate Terminal(s: OpState) { s == Succeeded || s == Failed || s == Cancelled }

  /** The one table of legal moves. */
  predicate CanTransition(s: OpState, to: OpState) {
    match s
    case Pending => to == Running || to == CancelRequested || to == Failed
    case Running => to == CancelRequested || to == Succeeded || to == Failed
    case CancelRequested => to == Succeeded || to == Failed || to == Cancelled
    case _ => false
  }

  datatype Code =
    | Unspecified | OK | Accepted | CodeCancelled | Internal | InvalidArgument | FailedPrecondition
    | DeadlineExceeded | Unavailable | ResourceExhausted | NotFound | PermissionDenied | OtherCode(wire: nat)

  // What a Provider may report as the cause of a failure.
  predicate ProviderFailCode(c: Code) {
    c in {Internal, InvalidArgument, FailedPrecondition, DeadlineExceeded, Unavailable, ResourceExhausted, NotFound}
  }

  type Bytes = seq<bv8>

  // conn and provider: 0 when there is no connection.
  datatype Op = Op(
    caller: string, conn: nat, provider: nat, lease: nat, epoch: nat, deadline: int,
    state: OpState, status: Code, result: Bytes, error: Bytes, updated: int)

  datatype Event = Progress(payload: Bytes) | Changed(state: OpState, status: Code, detail: Bytes)

  /** A subscription's channel; `closings` and `late` count close calls and sends after a close. */
  datatype Chan = Chan(queue: seq<Event>, closed: bool, closings: nat, late: nat)

  const SUB_BUFFER: nat := 16
  const MAX_DEADLINE_HORIZON: nat := 30 * 60_000_000_000
  const TERMINAL_RETENTION: nat := 5 * 60_000_000_000

  /** `observed` is what the event observer has been given. */
  datatype Book = Book(
    ops: map<nat, Op>, subs: map<nat, seq<nat>>, chans: map<nat, Chan>, observed: seq<(nat, Event)>, nextChan: nat)

  // ------------------------------------------------------------------ channels

  function SendTo(ch: Chan, ev: Event): Chan {
    if ch.closed then ch
    else if ch.closings > 0 then ch.(late := ch.late + 1)
    else if |ch.queue| < SUB_BUFFER then ch.(queue := ch.queue + [ev])
    else ch
  }

  function CloseOf(ch: Chan): Chan {
    if ch.closed then ch else ch.(closed := true, closings := ch.closings + 1)
  }

  /** Offer the event to every listed channel; a full one misses it. */
  function SendAll(chans: map<nat, Chan>, list: seq<nat>, ev: Event): map<nat, Chan> {
    if list == [] then chans else
      var m := SendAll(chans, list[..|list| - 1], ev);
      var c := list[|list| - 1];
      if c in m then m[c := SendTo(m[c], ev)] else m
  }

  function CloseAll(chans: map<nat, Chan>, list: seq<nat>): map<nat, Chan> {
    if list == [] then chans else
      var m := CloseAll(chans, list[..|list| - 1]);
      var c := list[|list| - 1];
      if c in m then m[c := CloseOf(m[c])] else m
  }

  function SubsOf(b: Book, id: nat): seq<nat> { if id in b.subs then b.subs[id] else [] }

  function EmitOn(b: Book, id: nat, ev: Event): Book {
    b.(chans := SendAll(b.chans, SubsOf(b, id), ev), observed := b.observed + [(id, ev)])
  }

  // ------------------------------------------------------------------ state changes

  function TransitionOn(b: Book, id: nat, to: OpState, now: int): Book
    requires id in b.ops
  {
    EmitOn(b.(ops := b.ops[id := b.ops[id].(state := to, updated := now)]), id, Changed(to, Unspecified, []))
  }

  function Ended(op: Op, to: OpState, status: Code, detail: Bytes, now: int): Op {
    op.(state := to, status := status, updated := now,
        result := if to == Succeeded then detail else op.result, error := if to == Failed then detail else op.error)
  }

  /** The only way into a terminal state: compare-and-set, then the last event, then every channel of
      the operation is closed and dropped. */
  function TerminateOn(b: Book, id: nat, to: OpState, status: Code, detail: Bytes, now: int): Book {
    if id !in b.ops || Terminal(b.ops[id].state) || !CanTransition(b.ops[id].state, to) then b
    else
      var op := Ended(b.ops[id], to, status, detail, now);
      var e := EmitOn(b.(ops := b.ops[id := op]), id, Changed(to, status, if to == Cancelled then [] else detail));
      e.(chans := CloseAll(e.chans, SubsOf(b, id)), subs := b.subs - {id})
  }

  /** Overtaken by a revocation boundary, or past its deadline: what every Provider report checks. */
  function Overtaken(op: Op, boundary: nat, now: int): Option<Code> {
    if op.lease != 0 && boundary != 0 && op.epoch < boundary then Some(FailedPrecondition)
    else if now > op.deadline then Some(DeadlineExceeded)
    else None
  }

  function AcceptOn(b: Book, id: nat, epoch: nat, boundary: nat, now: int): Book {
    if id !in b.ops || Terminal(b.ops[id].state) then b
    else if epoch != b.ops[id].epoch then TerminateOn(b, id, Failed, FailedPrecondition, [], now)
    else
      var o := Overtaken(b.ops[id], boundary, now);
      if o.Some? then TerminateOn(b, id, Failed, o.value, [], now)
      else if !CanTransition(b.ops[id].state, Running) then b
      else TransitionOn(b, id, Running, now)
  }

  function ProgressOn(b: Book, id: nat, payload: Bytes): Book {
    if id in b.ops && (b.ops[id].state == Running || b.ops[id].state == CancelRequested)
    then EmitOn(b, id, Progress(payload)) else b
  }

  datatype Report = Success(result: Bytes) | Failure(code: Code, detail: Bytes) | Cancellation

  function TargetOf(r: Report): OpState {
    match r case Success(_) => Succeeded case Failure(_, _) => Failed case Cancellation => Cancelled
  }

  // A code that is not the Provider's to use becomes INTERNAL.
  function StatusOf(r: Report): Code {
    match r
    case Success(_) => OK
    case Failure(code, _) => if ProviderFailCode(code) then code else Internal
    case Cancellation => CodeCancelled
  }

  function DetailOf(r: Report): Bytes {
    match r case Success(d) => d case Failure(_, d) => d case Cancellation => []
  }

  function ReportOn(b: Book, id: nat, r: Report, boundary: nat, now: int): Book {
    if id !in b.ops || b.ops[id].state == TargetOf(r) || Terminal(b.ops[id].state) then b
    else
      var o := Overtaken(b.ops[id], boundary, now);
      if o.Some? then TerminateOn(b, id, Failed, o.value, [], now)
      else TerminateOn(b, id, TargetOf(r), StatusOf(r), DetailOf(r), now)
  }

  predicate CanSee(caller: string, op: Op) { caller == "" || caller == op.caller }

  function CancelOn(b: Book, caller: string, id: nat, now: int): (Book, Code) {
    if id !in b.ops || !CanSee(caller, b.ops[id]) then (b, NotFound)
    else if !Terminal(b.ops[id].state) && b.ops[id].state != CancelRequested && CanTransition(b.ops[id].state, CancelRequested)
    then (TransitionOn(b, id, CancelRequested, now), Accepted)
    else (b, Accepted)
  }

  /** The channel handed out is already closed when there is nothing to wait for. */
  function SubscribeOn(b: Book, caller: string, id: nat): (Book, nat) {
    var c := b.nextChan + 1;
    if id !in b.ops || !CanSee(caller, b.ops[id]) || Terminal(b.ops[id].state)
    then (b.(chans := b.chans[c := Chan([], true, 1, 0)], nextChan := c), c)
    else (b.(chans := b.chans[c := Chan([], false, 0, 0)], subs := b.subs[id := SubsOf(b, id) + [c]], nextChan := c), c)
  }

  function Without(list: seq<nat>, c: nat): seq<nat> {
    if list == [] then [] else if list[0] == c then list[1..] else [list[0]] + Without(list[1..], c)
  }

  function UnsubscribeOn(b: Book, id: nat, c: nat): Book {
    if c !in SubsOf(b, id) then b
    else
      var left := Without(SubsOf(b, id), c);
      b.(chans := CloseAll(b.chans, [c]), subs := if left == [] then b.subs - {id} else b.subs[id := left])
  }

  /** Why the manager itself ends operations. */
  datatype Why = Superseded(boundary: nat) | Expired(now: int) | ConnGone(conn: nat) | Shutdown

  predicate Picks(why: Why, op: Op) {
    match why
    case Superseded(boundary) => op.lease != 0 && op.epoch < boundary
    case Expired(now) => now > op.deadline
    case ConnGone(conn) => op.conn == conn
    case Shutdown => true
  }

  function WhyCode(why: Why): Code {
    match why
    case Superseded(_) => FailedPrecondition
    case Expired(_) => DeadlineExceeded
    case ConnGone(_) => Unavailable
    case Shutdown => Unavailable
  }

  function EndOne(b: Book, id: nat, why: Why, now: int): Book {
    if id in b.ops && !Terminal(b.ops[id].state) && Picks(why, b.ops[id])
    then TerminateOn(b, id, Failed, WhyCode(why), [], now) else b
  }

  /** One pass over the operations, in the given order. */
  function SweepOn(b: Book, order: seq<nat>, why: Why, now: int): Book {
    if order == [] then b
    else EndOne(SweepOn(b, order[..|order| - 1], why, now), order[|order| - 1], why, now)
  }

  predicate Covers(order: seq<nat>, ids: set<nat>) {
    (forall i :: 0 <= i < |order| ==> order[i] in ids) && forall id :: id in ids ==> id in order
  }

  predicate Overdue(op: Op, now: int) { Terminal(op.state) && now - op.updated > TERMINAL_RETENTION }

  function ReapOn(b: Book, now: int): Book {
    var ids := set id | id in b.ops && Overdue(b.ops[id], now);
    b.(ops := b.ops - ids, subs := b.subs - ids)
  }

  /** The checks before an operation exists. `known` are the robot's resource handles; `validator` is
      the lease validator's verdict, None when none is installed. */
  function ValidateCreate(resources: seq<string>, known: set<string>, lease: nat, validator: Option<bool>, deadline: int, now: int): Code {
    var bad := FirstBad(resources, known);
    if |resources| == 0 then InvalidArgument
    else if bad < |resources| then (if resources[bad] == "" then InvalidArgument else FailedPrecondition)
    else if lease != 0 && |resources| != 1 then InvalidArgument
    else if deadline <= now || deadline > now + MAX_DEADLINE_HORIZON then InvalidArgument
    else if lease != 0 && validator != Some(true) then FailedPrecondition
    else OK
  }

  function FirstBad(resources: seq<string>, known: set<string>): (k: nat)
    ensures k <= |resources|
    ensures forall i :: 0 <= i < k ==> resources[i] != "" && resources[i] in known
  {
    if resources == [] || resources[0] == "" || resources[0] !in known then 0 else 1 + FirstBad(resources[1..], known)
  }

  // ------------------------------------------------------------------ the object

  class Manager {
    var ops: map<nat, Op>
    var subs: map<nat, seq<nat>>
    var chans: map<nat, Chan>
    var observed: seq<(nat, Event)>
    var nextChan: nat
    var nextID: nat
    var supersedeEpoch: nat
    var stopping: bool

    ghost function Value(): Book
      reads this
    {
      Book(ops, subs, chans, observed, nextChan)
    }

    constructor ()
      ensures Value() == Book(map[], map[], map[], [], 0) && nextID == 0 && supersedeEpoch == 0 && !stopping
    {
      ops, subs, chans, observed := map[], map[], map[], [];
      nextChan, nextID, supersedeEpoch, stopping := 0, 0, 0, false;
    }

    method Emit(id: nat, ev: Event)
      modifies this`chans, this`observed
      ensures Value() == EmitOn(old(Value()), id, ev)
    {
      var list := if id in subs then subs[id] else [];
      observed := observed + [(id, ev)];
      var i := 0;
      assert list[..0] == [];
      while i < |list|
        invariant 0 <= i <= |list| && chans == SendAll(old(chans), list[..i], ev)
        invariant observed == old(observed) + [(id, ev)]
      {
        var c := list[i];
        if c in chans { chans := chans[c := SendTo(chans[c], ev)]; }
        i := i + 1;
        assert list[..i][..i - 1] == list[..i - 1];
      }
      assert list[..i] == list;
    }

    method CloseAllSubs(id: nat)
      modifies this`chans, this`subs
      ensures chans == CloseAll(old(chans), old(SubsOf(Value(), id))) && subs == old(subs) - {id}
    {
      var list := if id in subs then subs[id] else [];
      var i := 0;
      assert list[..0] == [];
      while i < |list|
        invariant 0 <= i <= |list| && chans == CloseAll(old(chans), list[..i]) && subs == old(subs)
      {
        var c := list[i];
        if c in chans { chans := chans[c := CloseOf(chans[c])]; }
        i := i + 1;
        assert list[..i][..i - 1] == list[..i - 1];
      }
      assert list[..i] == list;
      subs := subs - {id};
    }

    method Transition(id: nat, to: OpState, now: int)
      requires id in ops
      modifies this`ops, this`chans, this`observed
      ensures Value() == TransitionOn(old(Value()), id, to, now)
    {
      ops := ops[id := ops[id].(state := to, updated := now)];
      Emit(id, Changed(to, Unspecified, []));
    }

    method Terminate(id: nat, to: OpState, status: Code, detail: Bytes, now: int) returns (written: bool)
      requires id in ops
      modifies this`ops, this`subs, this`chans, this`observed
      ensures Value() == TerminateOn(old(Value()), id, to, status, detail, now)
      ensures written <==> CanTransition(old(ops)[id].state, to)
    {
      var op := ops[id];
      if Terminal(op.state) || !CanTransition(op.state, to) { return false; }
      op := op.(state := to, updated := now, status := status);
      match to {
        case Succeeded => op := op.(result := detail);
        case Failed => op := op.(error := detail);
        case _ =>
      }
      ops := ops[id := op];
      Emit(id, Changed(to, status, if to == Cancelled then [] else detail));
      CloseAllSubs(id);
      return true;
    }

    method Accept(id: nat, epoch: nat, now: int) returns (ok: bool)
      modifies this`ops, this`subs, this`chans, this`observed
      ensures Value() == AcceptOn(old(Value()), id, epoch, supersedeEpoch, now)
      ensures ok ==> id in ops && ops[id].state == Running && Overtaken(ops[id], supersedeEpoch, now).None?
    {
      if id !in ops || Terminal(ops[id].state) { return false; }
      if epoch != ops[id].epoch {
        var _ := Terminate(id, Failed, FailedPrecondition, [], now);
        return false;
      }
      var o := Overtaken(ops[id], supersedeEpoch, now);
      if o.Some? {
        var _ := Terminate(id, Failed, o.value, [], now);
        return false;
      }
      if !CanTransition(ops[id].state, Running) { return false; }
      Transition(id, Running, now);
      return true;
    }

    method ReportProgress(id: nat, payload: Bytes) returns (ok: bool)
      modifies this`chans, this`observed
      ensures Value() == ProgressOn(old(Value()), id, payload)
      ensures ok <==> id in ops && (ops[id].state == Running || ops[id].state == CancelRequested)
    {
      if id !in ops || (ops[id].state != Running && ops[id].state != CancelRequested) { return false; }
      Emit(id, Progress(payload));
      return true;
    }

    /** Succeed, Fail and Cancelled. Repeating the outcome that stands is accepted and changes nothing. */
    method ReportTerminal(id: nat, r: Report, now: int) returns (ok: bool)
      modifies this`ops, this`subs, this`chans, this`observed
      ensures Value() == ReportOn(old(Value()), id, r, supersedeEpoch, now)
      ensures ok <==> id in ops && ops[id].state == TargetOf(r) &&
                      (id in old(ops) && (old(ops)[id].state == TargetOf(r) || Overtaken(old(ops)[id], supersedeEpoch, now).None?))
    {
      if id !in ops { return false; }
      if ops[id].state == TargetOf(r) { return true; }
      if Terminal(ops[id].state) { return false; }
      var o := Overtaken(ops[id], supersedeEpoch, now);
      if o.Some? {
        var _ := Terminate(id, Failed, o.value, [], now);
        return false;
      }
      ok := Terminate(id, TargetOf(r), StatusOf(r), DetailOf(r), now);
    }

    method Cancel(caller: string, id: nat, now: int) returns (code: Code)
      modifies this`ops, this`chans, this`observed
      ensures (Value(), code) == CancelOn(old(Value()), caller, id, now)
    {
      if id !in ops || !CanSee(caller, ops[id]) { return NotFound; }
      if !Terminal(ops[id].state) && ops[id].state != CancelRequested && CanTransition(ops[id].state, CancelRequested) {
        Transition(id, CancelRequested, now);
      }
      return Accepted;
    }

    method Subscribe(caller: string, id: nat) returns (c: nat)
      modifies this`subs, this`chans, this`nextChan
      ensures (Value(), c) == SubscribeOn(old(Value()), caller, id)
    {
      nextChan := nextChan + 1;
      c := nextChan;
      if id !in ops || !CanSee(caller, ops[id]) || Terminal(ops[id].state) {
        chans := chans[c := Chan([], true, 1, 0)];
        return;
      }
      chans := chans[c := Chan([], false, 0, 0)];
      subs := subs[id := (if id in subs then subs[id] else []) + [c]];
    }

    /** The cancel function of a subscription: find it in the list, close it once, drop it. */
    method Unsubscribe(id: nat, c: nat)
      modifies this`subs, this`chans
      ensures Value() == UnsubscribeOn(old(Value()), id, c)
    {
      var list := if id in subs then subs[id] else [];
      var i := 0;
      while i < |list|
        invariant 0 <= i <= |list| && c !in list[..i]
      {
        if list[i] == c {
          if c in chans { chans := chans[c := CloseOf(chans[c])]; }
          assert CloseAll(old(chans), []) == old(chans) && [c][..0] == [];
          WithoutAt(list, i, c);
          var left := list[..i] + list[i + 1..];
          subs := if left == [] then subs - {id} else subs[id := left];
          return;
        }
        i := i + 1;
      }
    }

    /** Insert an operation that has passed its checks, unless the manager is stopping. */
    method Insert(id: nat, op: Op) returns (code: Code)
      modifies this`ops
      ensures code == (if stopping then Unavailable else Accepted)
      ensures ops == if stopping then old(ops) else old(ops)[id := op]
    {
      if stopping { return Unavailable; }
      ops := ops[id := op];
      return Accepted;
    }

    /** The atomic maximum: never moved back by a late, smaller boundary. */
    method SafetySupersede(epoch: nat)
      modifies this`supersedeEpoch
      ensures supersedeEpoch >= old(supersedeEpoch) && supersedeEpoch >= epoch
      ensures supersedeEpoch == old(supersedeEpoch) || supersedeEpoch == epoch
    {
      var cur := supersedeEpoch;
      if epoch > cur { supersedeEpoch := epoch; }
    }

    /** ReleaseByConn, convergeSupersede, scanDeadlines and Stop: end whatever the reason picks. One
        pass leaves none of it unfinished. */
    method Sweep(why: Why, now: int) returns (ghost order: seq<nat>)
      modifies this`ops, this`subs, this`chans, this`observed
      ensures Value() == SweepOn(old(Value()), order, why, now) && Covers(order, old(ops).Keys)
      ensures forall id :: id in ops && Picks(why, ops[id]) ==> Terminal(ops[id].state)
    {
      order := [];
      var left := ops.Keys;
      while left != {}
        invariant left <= ops.Keys == old(ops).Keys
        invariant Value() == SweepOn(old(Value()), order, why, now)
        invariant forall i :: 0 <= i < |order| ==> order[i] in old(ops)
        invariant forall id :: id in old(ops) ==> id in left || id in order
        invariant forall id :: id in ops && id !in left && Picks(why, ops[id]) ==> Terminal(ops[id].state)
        decreases |left|
      {
        var id :| id in left;
        ghost var was, before := order, Value();
        order := order + [id];
        assert order[..|order| - 1] == was;
        if !Terminal(ops[id].state) && Picks(why, ops[id]) {
          EndsAs(Value(), id, why, now);
          var _ := Terminate(id, Failed, WhyCode(why), [], now);
        }
        assert Value() == EndOne(before, id, why, now);
        left := left - {id};
      }
    }

    method ReapTerminal(now: int)
      modifies this`ops, this`subs
      ensures Value() == ReapOn(old(Value()), now)
    {
      var left := ops.Keys;
      ghost var all := set id | id in ops && Overdue(ops[id], now);
      while left != {}
        invariant left <= old(ops).Keys
        invariant ops == old(ops) - (all - left) && subs == old(subs) - (all - left)
        decreases |left|
      {
        var id :| id in left;
        ReapNext(old(ops), old(subs), all, left, id);
        if Overdue(ops[id], now) {
          ops := ops - {id};
          subs := subs - {id};
        }
        left := left - {id};
      }
      NoneLeft(all, left);
    }
  }

  lemma {:induction false} WithoutAt(list: seq<nat>, i: nat, c: nat)
    requires i < |list| && list[i] == c && c !in list[..i]
    ensures Without(list, c) == list[..i] + list[i + 1..]
  {
    if i > 0 {
      assert list[1..][..i - 1] == list[..i][1..];
      WithoutAt(list[1..], i - 1, c);
    }
  }

  // Everything but the ended operation keeps its record.
  lemma EndsAs(b: Book, id: nat, why: Why, now: int)
    requires id in b.ops && !Terminal(b.ops[id].state)
    ensures var b' := TerminateOn(b, id, Failed, WhyCode(why), [], now);
            b'.ops == b.ops[id := Ended(b.ops[id], Failed, WhyCode(why), [], now)]
  {
  }

  lemma ReapNext(was: map<nat, Op>, subs: map<nat, seq<nat>>, all: set<nat>, left: set<nat>, id: nat)
    requires id in left && left <= was.Keys
    ensures var done := all - left;
            && id !in done && id in was - done && (was - done)[id] == was[id]
            && all - (left - {id}) == (if id in all then done + {id} else done)
            && was - done - {id} == was - (done + {id}) && subs - done - {id} == subs - (done + {id})
  {
  }

  lemma NoneLeft(all: set<nat>, left: set<nat>)
    requires left == {}
    ensures all - left == all
  {
  }
}
