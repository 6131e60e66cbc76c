/** Operations over whole runs: Provider reports, callers, Safety, deadlines, the background
    convergence and shutdown, interleaved at the manager's lock. */
module OperationRuns {
  import opened Wrappers
  import opened Operations

  // `fresh`: created but not yet inserted. `stopped`: Stop has made its last pass.
  datatype State = State(
    b: Book, waiting: map<nat, Op>, nextID: nat, boundary: nat, now: int, stopping: bool, stopped: bool)

  const Start: State := State(Book(map[], map[], map[], [], 0), map[], 0, 0, 0, false, false)

  datatype Step =
    | Create(caller: string, conn: nat, provider: nat, resources: seq<string>, known: set<string>,
             lease: nat, epoch: nat, validator: Option<bool>, deadline: int)
    | Insert(id: nat)
    | CancelOp(caller: string, id: nat)
    | Subscribe(caller: string, id: nat)
    | Unsubscribe(id: nat, c: nat)
    | Receive(c: nat)
    | Accept(id: nat, epoch: nat)
    | ReportProgress(id: nat, payload: Bytes)
    | ReportTerminal(id: nat, r: Report)
    | ReleaseByConn(conn: nat, order: seq<nat>)
    | SafetySupersede(epoch: nat)
    // the boundary and the clock are read before the lock is taken
    | Converge(epoch: nat, order: seq<nat>)
    | ScanDeadlines(at: int, order: seq<nat>)
    | Reap(at: int)
    | CloseStop
    | StopSweep(order: seq<nat>)
    | Tick(to: int)

  function Sweep(s: State, order: seq<nat>, why: Why): State {
    if Covers(order, s.b.ops.Keys) then s.(b := SweepOn(s.b, order, why, s.now)) else s
  }

  function Do(s: State, step: Step): State {
    match step
    case Create(caller, conn, provider, resources, known, lease, epoch, validator, deadline) =>
      if ValidateCreate(resources, known, lease, validator, deadline, s.now) == OK
      then s.(nextID := s.nextID + 1,
              waiting := s.waiting[s.nextID + 1 := Op(caller, conn, provider, lease, epoch, deadline, Pending, Unspecified, [], [], s.now)])
      else s
    case Insert(id) =>
      if id !in s.waiting then s
      else if s.stopping then s.(waiting := s.waiting - {id})
      else s.(waiting := s.waiting - {id}, b := s.b.(ops := s.b.ops[id := s.waiting[id]]))
    case CancelOp(caller, id) => s.(b := CancelOn(s.b, caller, id, s.now).0)
    case Subscribe(caller, id) => s.(b := SubscribeOn(s.b, caller, id).0)
    case Unsubscribe(id, c) => s.(b := UnsubscribeOn(s.b, id, c))
    case Receive(c) =>
      if c in s.b.chans && s.b.chans[c].queue != []
      then s.(b := s.b.(chans := s.b.chans[c := s.b.chans[c].(queue := s.b.chans[c].queue[1..])])) else s
    case Accept(id, epoch) => s.(b := AcceptOn(s.b, id, epoch, s.boundary, s.now))
    case ReportProgress(id, payload) => s.(b := ProgressOn(s.b, id, payload))
    case ReportTerminal(id, r) => s.(b := ReportOn(s.b, id, r, s.boundary, s.now))
    case ReleaseByConn(conn, order) => if conn == 0 then s else Sweep(s, order, ConnGone(conn))
    case SafetySupersede(epoch) => s.(boundary := if epoch > s.boundary then epoch else s.boundary)
    case Converge(epoch, order) => if 0 < epoch <= s.boundary then Sweep(s, order, Superseded(epoch)) else s
    case ScanDeadlines(at, order) => if at <= s.now then Sweep(s, order, Expired(at)) else s
    case Reap(at) => if at <= s.now then s.(b := ReapOn(s.b, at)) else s
    case CloseStop => s.(stopping := true)
    case StopSweep(order) =>
      if s.stopping && Covers(order, s.b.ops.Keys) then Sweep(s, order, Shutdown).(stopped := true) else s
    case Tick(to) => if to >= s.now then s.(now := to) else s
  }

  function Exec(steps: seq<Step>): State {
    if steps == [] then Start else Do(Exec(steps[..|steps| - 1]), steps[|steps| - 1])
  }

  function StateAt(steps: seq<Step>, n: nat): State
    requires n <= |steps|
  {
    Exec(steps[..n])
  }
}

module OperationInvariant {
  import opened Operations
  import opened OperationRuns

  /** Status and payload say what the state says. */
  predicate OpOk(op: Op) {
    match op.state
    case Succeeded => op.status == OK && op.error == []
    case Cancelled => op.status == CodeCancelled && op.result == [] && op.error == []
    case Failed => ProviderFailCode(op.status) && op.result == []
    case _ => op.status == Unspecified && op.result == [] && op.error == []
  }

  ghost predicate OpsOk(ops: map<nat, Op>) { forall id :: id in ops ==> OpOk(ops[id]) }

  predicate Open(ch: Chan) { !ch.closed && ch.closings == 0 }

  /** A channel is closed at most once and gets nothing afterwards. */
  predicate ChanOk(ch: Chan) {
    ch.late == 0 && |ch.queue| <= SUB_BUFFER && (if ch.closed then ch.closings == 1 else ch.closings == 0)
  }

  ghost predicate ChansOk(chans: map<nat, Chan>, nextChan: nat) {
    forall c :: c in chans ==> ChanOk(chans[c]) && c <= nextChan
  }

  /** Only live, unfinished operations have subscriptions. */
  ghost predicate SubsLive(ops: map<nat, Op>, subs: map<nat, seq<nat>>) {
    forall id :: id in subs ==> id in ops && !Terminal(ops[id].state) && subs[id] != []
  }

  /** The open channels are exactly the listed ones, each in one place. */
  ghost predicate SubsOpen(subs: map<nat, seq<nat>>, chans: map<nat, Chan>) {
    && (forall id, i :: id in subs && 0 <= i < |subs[id]| ==> subs[id][i] in chans && Open(chans[subs[id][i]]))
    && (forall c :: c in chans && Open(chans[c]) ==> exists id :: id in subs && c in subs[id])
  }

  ghost predicate SubsApart(subs: map<nat, seq<nat>>) {
    && (forall id, i, j :: id in subs && 0 <= i < j < |subs[id]| ==> subs[id][i] != subs[id][j])
    && (forall id, o, c :: id in subs && o in subs && c in subs[id] && c in subs[o] ==> id == o)
  }

  predicate Last(ev: Event) { ev.Changed? && Terminal(ev.state) }

  /** Nothing is observed of an operation after its terminal event. */
  ghost predicate LogOk(observed: seq<(nat, Event)>, ops: map<nat, Op>) {
    && (forall i, j :: 0 <= i < j < |observed| && observed[i].0 == observed[j].0 ==> !Last(observed[i].1))
    && (forall i :: 0 <= i < |observed| && Last(observed[i].1) && observed[i].0 in ops ==> Terminal(ops[observed[i].0].state))
  }

  ghost predicate IdsOk(s: State) {
    && (forall id :: id in s.b.ops || id in s.waiting ==> 1 <= id <= s.nextID)
    && (forall id :: id in s.waiting ==> id !in s.b.ops && s.waiting[id].state == Pending && OpOk(s.waiting[id]))
    && (forall i :: 0 <= i < |s.b.observed| ==> s.b.observed[i].0 <= s.nextID && s.b.observed[i].0 !in s.waiting)
  }

  ghost predicate StopOk(s: State) {
    s.stopped ==> s.stopping && forall id :: id in s.b.ops ==> Terminal(s.b.ops[id].state)
  }

  ghost predicate BookOk(b: Book) {
    && OpsOk(b.ops) && ChansOk(b.chans, b.nextChan) && SubsLive(b.ops, b.subs) && SubsOpen(b.subs, b.chans)
    && SubsApart(b.subs) && LogOk(b.observed, b.ops)
  }

  ghost predicate Inv(s: State) { BookOk(s.b) && IdsOk(s) && StopOk(s) }
}

module OperationProof {
  import opened Operations
  import opened OperationRuns
  import opened OperationInvariant

  // ------------------------------------------------------------------ channels

  lemma {:induction false} SendAllKeeps(chans: map<nat, Chan>, list: seq<nat>, ev: Event)
    ensures var m := SendAll(chans, list, ev);
            && m.Keys == chans.Keys
            && forall c :: c in chans ==> (ChanOk(chans[c]) ==> ChanOk(m[c])) && Open(m[c]) == Open(chans[c])
  {
    if list != [] { SendAllKeeps(chans, list[..|list| - 1], ev); }
  }

  lemma {:induction false} CloseAllKeeps(chans: map<nat, Chan>, list: seq<nat>)
    ensures var m := CloseAll(chans, list);
            && m.Keys == chans.Keys
            && forall c :: c in chans ==> (ChanOk(chans[c]) ==> ChanOk(m[c])) && (c !in list ==> m[c] == chans[c])
    ensures forall c :: c in chans && c in list ==> CloseAll(chans, list)[c].closed
  {
    if list != [] {
      var init := list[..|list| - 1];
      CloseAllKeeps(chans, init);
      forall c | c in list ensures c in init || c == list[|list| - 1] {
        var i :| 0 <= i < |list| && list[i] == c;
        if i < |init| { assert init[i] == c; }
      }
      forall c | c in init ensures c in list {
        var i :| 0 <= i < |init| && init[i] == c;
        assert list[i] == c;
      }
    }
  }

  // ------------------------------------------------------------------ the two kinds of state change

  lemma EmitChans(b: Book, id: nat, ev: Event)
    requires ChansOk(b.chans, b.nextChan) && SubsOpen(b.subs, b.chans)
    ensures var b' := EmitOn(b, id, ev); ChansOk(b'.chans, b'.nextChan) && SubsOpen(b'.subs, b'.chans)
  {
    hide ChanOk, SendAll;
    SendAllKeeps(b.chans, SubsOf(b, id), ev);
  }

  lemma EmitLog(b: Book, id: nat, ev: Event, ops: map<nat, Op>)
    requires LogOk(b.observed, b.ops) && id in b.ops && !Terminal(b.ops[id].state)
    requires forall o :: o in ops && o != id ==> o in b.ops && ops[o] == b.ops[o]
    requires Last(ev) ==> id in ops && Terminal(ops[id].state)
    ensures LogOk(EmitOn(b, id, ev).observed, ops)
  {
  }

  lemma EmitKeeps(b: Book, id: nat, ev: Event)
    requires BookOk(b) && id in b.ops && !Terminal(b.ops[id].state) && !Last(ev)
    ensures BookOk(EmitOn(b, id, ev))
  {
    hide OpsOk, ChansOk, SubsLive, SubsOpen, SubsApart, LogOk;
    EmitChans(b, id, ev);
    EmitLog(b, id, ev, b.ops);
  }

  lemma TransitionKeeps(b: Book, id: nat, to: OpState, now: int)
    requires BookOk(b) && id in b.ops && CanTransition(b.ops[id].state, to) && !Terminal(to)
    ensures BookOk(TransitionOn(b, id, to, now))
  {
    hide ChansOk, SubsOpen, SubsApart, LogOk, SendAll;
    var ops := b.ops[id := b.ops[id].(state := to, updated := now)];
    EmitChans(b, id, Changed(to, Unspecified, []));
    EmitLog(b, id, Changed(to, Unspecified, []), ops);
  }

  // What a termination may write.
  predicate Fitting(to: OpState, status: Code, detail: Bytes) {
    match to
    case Succeeded => status == OK
    case Failed => ProviderFailCode(status)
    case Cancelled => status == CodeCancelled
    case _ => false
  }

  lemma CloseSubs(b: Book, id: nat)
    requires ChansOk(b.chans, b.nextChan) && SubsOpen(b.subs, b.chans) && SubsApart(b.subs)
    ensures var chans := CloseAll(b.chans, SubsOf(b, id));
            ChansOk(chans, b.nextChan) && SubsOpen(b.subs - {id}, chans) && SubsApart(b.subs - {id})
  {
    hide ChanOk, CloseAll;
    var list := SubsOf(b, id);
    var chans, subs := CloseAll(b.chans, list), b.subs - {id};
    CloseAllKeeps(b.chans, list);
    forall o, i | o in subs && 0 <= i < |subs[o]| ensures subs[o][i] in chans && Open(chans[subs[o][i]]) {
      assert subs[o][i] in b.subs[o];
    }
    forall c | c in chans && Open(chans[c]) ensures exists o :: o in subs && c in subs[o] {
      assert c !in list && Open(b.chans[c]);
      var o :| o in b.subs && c in b.subs[o];
      assert o in subs;
    }
  }

  lemma TerminateKeeps(b: Book, id: nat, to: OpState, status: Code, detail: Bytes, now: int)
    requires BookOk(b) && Fitting(to, status, detail)
    ensures BookOk(TerminateOn(b, id, to, status, detail, now))
  {
    hide ChansOk, SubsOpen, SubsApart, LogOk, SendAll, CloseAll;
    if id in b.ops && !Terminal(b.ops[id].state) && CanTransition(b.ops[id].state, to) {
      var ops := b.ops[id := Ended(b.ops[id], to, status, detail, now)];
      var ev := Changed(to, status, if to == Cancelled then [] else detail);
      EmitChans(b, id, ev);
      EmitLog(b, id, ev, ops);
      CloseSubs(EmitOn(b, id, ev), id);
    }
  }

  lemma {:induction false} SweepKeeps(b: Book, order: seq<nat>, why: Why, now: int)
    requires BookOk(b)
    ensures BookOk(SweepOn(b, order, why, now))
  {
    hide BookOk, TerminateOn;
    if order != [] {
      var init := order[..|order| - 1];
      SweepKeeps(b, init, why, now);
      TerminateKeeps(SweepOn(b, init, why, now), order[|order| - 1], Failed, WhyCode(why), [], now);
    }
  }

  // ------------------------------------------------------------------ subscriptions

  lemma SubscribeKeeps(b: Book, caller: string, id: nat)
    requires BookOk(b)
    ensures BookOk(SubscribeOn(b, caller, id).0)
  {
    hide OpsOk, LogOk;
    var (b', c) := SubscribeOn(b, caller, id);
    if id in b.ops && CanSee(caller, b.ops[id]) && !Terminal(b.ops[id].state) {
      var was := SubsOf(b, id);
      assert b'.subs[id][|was|] == c;
      forall o, x | o in b.subs && x in b.subs[o] ensures x in b'.subs[o] {
        if o == id { var i :| 0 <= i < |was| && was[i] == x; assert b'.subs[id][i] == x; }
      }
    }
  }

  lemma {:induction false} WithoutIs(list: seq<nat>, c: nat)
    requires forall i, j :: 0 <= i < j < |list| ==> list[i] != list[j]
    ensures var w := Without(list, c);
            && (forall x :: x in w <==> x in list && x != c)
            && (forall i, j :: 0 <= i < j < |w| ==> w[i] != w[j])
  {
    if list != [] {
      assert forall x :: x in list <==> x == list[0] || x in list[1..];
      if list[0] != c {
        WithoutIs(list[1..], c);
        var rest, w := Without(list[1..], c), Without(list, c);
        assert w == [list[0]] + rest && list[0] !in rest;
        forall i, j | 0 <= i < j < |w| ensures w[i] != w[j] { if i == 0 { assert w[j] in rest; } else { assert w[i] == rest[i - 1] && w[j] == rest[j - 1]; } }
        forall x ensures x in w <==> x in list && x != c { assert x in w <==> x == list[0] || x in rest; }
      } else {
        assert list[0] !in list[1..];
      }
    }
  }

  lemma UnsubscribeKeeps(b: Book, id: nat, c: nat)
    requires BookOk(b)
    ensures BookOk(UnsubscribeOn(b, id, c))
  {
    hide OpsOk, LogOk, ChanOk, CloseAll, SubsApart, SubsOpen;
    if c in SubsOf(b, id) {
      var b' := UnsubscribeOn(b, id, c);
      CloseAllKeeps(b.chans, [c]);
      UnsubscribedApart(b, id, c);
      UnsubscribedOpen(b, id, c);
    }
  }

  lemma UnsubscribedApart(b: Book, id: nat, c: nat)
    requires SubsApart(b.subs) && id in b.subs && c in b.subs[id]
    ensures SubsApart(UnsubscribeOn(b, id, c).subs)
  {
    WithoutIs(b.subs[id], c);
  }

  lemma UnsubscribedOpen(b: Book, id: nat, c: nat)
    requires SubsApart(b.subs) && SubsOpen(b.subs, b.chans) && id in b.subs && c in b.subs[id]
    ensures var b' := UnsubscribeOn(b, id, c); SubsOpen(b'.subs, b'.chans)
  {
    hide CloseAll;
    var b' := UnsubscribeOn(b, id, c);
    WithoutIs(b.subs[id], c);
    CloseAllKeeps(b.chans, [c]);
    forall o, i | o in b'.subs && 0 <= i < |b'.subs[o]| ensures b'.subs[o][i] in b'.chans && Open(b'.chans[b'.subs[o][i]]) {
      var x := b'.subs[o][i];
      assert x in b'.subs[o] && x in b.subs[o] && x != c;
    }
    forall x | x in b'.chans && Open(b'.chans[x]) ensures exists o :: o in b'.subs && x in b'.subs[o] {
      assert x != c;
      var o :| o in b.subs && x in b.subs[o];
      assert o in b'.subs && x in b'.subs[o];
    }
  }

  lemma ReapKeeps(b: Book, now: int)
    requires BookOk(b)
    ensures BookOk(ReapOn(b, now)) && ReapOn(b, now).subs == b.subs
  {
    hide ChansOk, SubsOpen, SubsApart;
    assert ReapOn(b, now).subs == b.subs;
  }

  // ------------------------------------------------------------------ Provider reports

  lemma AcceptKeeps(b: Book, id: nat, epoch: nat, boundary: nat, now: int)
    requires BookOk(b)
    ensures BookOk(AcceptOn(b, id, epoch, boundary, now))
  {
    hide BookOk, TerminateOn, TransitionOn;
    TerminateKeeps(b, id, Failed, FailedPrecondition, [], now);
    TerminateKeeps(b, id, Failed, DeadlineExceeded, [], now);
    if id in b.ops && CanTransition(b.ops[id].state, Running) { TransitionKeeps(b, id, Running, now); }
  }

  lemma ReportKeeps(b: Book, id: nat, r: Report, boundary: nat, now: int)
    requires BookOk(b)
    ensures BookOk(ReportOn(b, id, r, boundary, now))
  {
    hide BookOk, TerminateOn;
    TerminateKeeps(b, id, Failed, FailedPrecondition, [], now);
    TerminateKeeps(b, id, Failed, DeadlineExceeded, [], now);
    TerminateKeeps(b, id, TargetOf(r), StatusOf(r), DetailOf(r), now);
  }

  // ------------------------------------------------------------------ what every critical section respects

  /** An operation moves only along the table, keeps its identity, and never leaves a terminal state. */
  predicate Moves(op: Op, op': Op) {
    && (op' == op || (!Terminal(op.state) && CanTransition(op.state, op'.state)))
    && op'.caller == op.caller && op'.conn == op.conn && op'.lease == op.lease && op'.epoch == op.epoch
    && op'.deadline == op.deadline && op'.provider == op.provider
  }

  ghost predicate BookMoves(b: Book, b': Book) {
    && b'.ops.Keys == b.ops.Keys && (forall id :: id in b.ops ==> Moves(b.ops[id], b'.ops[id]))
    && b.observed <= b'.observed
    && (forall i :: |b.observed| <= i < |b'.observed| ==> b'.observed[i].0 in b.ops)
  }

  lemma SameBook(b: Book, b': Book)
    requires b'.ops == b.ops && b'.observed == b.observed
    ensures BookMoves(b, b')
  {
  }

  lemma TerminateMoves(b: Book, id: nat, to: OpState, status: Code, detail: Bytes, now: int)
    ensures var b' := TerminateOn(b, id, to, status, detail, now);
            BookMoves(b, b') && forall o :: o in b.ops && (o != id || Terminal(b.ops[o].state)) ==> b'.ops[o] == b.ops[o]
  {
    hide SendAll, CloseAll;
  }

  lemma AcceptMoves(b: Book, id: nat, epoch: nat, boundary: nat, now: int)
    ensures BookMoves(b, AcceptOn(b, id, epoch, boundary, now))
  {
    hide TerminateOn, SendAll;
    TerminateMoves(b, id, Failed, FailedPrecondition, [], now);
    TerminateMoves(b, id, Failed, DeadlineExceeded, [], now);
    SameBook(b, b);
  }

  lemma ReportMoves(b: Book, id: nat, r: Report, boundary: nat, now: int)
    ensures BookMoves(b, ReportOn(b, id, r, boundary, now))
  {
    hide TerminateOn, BookMoves;
    TerminateMoves(b, id, Failed, FailedPrecondition, [], now);
    TerminateMoves(b, id, Failed, DeadlineExceeded, [], now);
    TerminateMoves(b, id, TargetOf(r), StatusOf(r), DetailOf(r), now);
    SameBook(b, b);
  }

  lemma {:induction false} SweepMoves(b: Book, order: seq<nat>, why: Why, now: int)
    ensures var b' := SweepOn(b, order, why, now);
            && BookMoves(b, b')
            && (forall id :: id in b.ops ==> b'.ops[id] == b.ops[id] || (b'.ops[id].state == Failed && b'.ops[id].status == WhyCode(why)))
            && (forall id :: id in b.ops && id in order && Picks(why, b.ops[id]) ==> Terminal(b'.ops[id].state))
  {
    hide TerminateOn, BookMoves;
    if order == [] { SameBook(b, b); } else {
      var init, id := order[..|order| - 1], order[|order| - 1];
      SweepMoves(b, init, why, now);
      var m := SweepOn(b, init, why, now);
      TerminateMoves(m, id, Failed, WhyCode(why), [], now);
      SameBook(m, m);
      SweepEnds(b, m, id, why, now);
      MovesJoin(b, m, EndOne(m, id, why, now));
      forall o | o in b.ops && o in order ensures o in init || o == id {
        var i :| 0 <= i < |order| && order[i] == o;
        if i < |init| { assert init[i] == o; }
      }
    }
  }

  // What is Failed already is not ended again.
  lemma SweepEnds(b: Book, m: Book, id: nat, why: Why, now: int)
    requires BookMoves(b, m)
    requires forall o :: o in b.ops ==> m.ops[o] == b.ops[o] || (m.ops[o].state == Failed && m.ops[o].status == WhyCode(why))
    ensures var b' := EndOne(m, id, why, now);
            && (forall o :: o in b.ops ==> b'.ops[o] == m.ops[o] || (o == id && m.ops[o] == b.ops[o]))
            && (forall o :: o in b.ops ==> b'.ops[o] == b.ops[o] || (b'.ops[o].state == Failed && b'.ops[o].status == WhyCode(why)))
            && (id in b.ops && Picks(why, b.ops[id]) ==> Terminal(b'.ops[id].state))
            && (forall o :: o in b.ops && Terminal(m.ops[o].state) ==> b'.ops[o] == m.ops[o])
            && BookMoves(m, b')
  {
    hide TerminateOn, BookMoves;
    TerminateMoves(m, id, Failed, WhyCode(why), [], now);
    SameBook(m, m);
    KeysMove(b, m);
    KeysMove(m, EndOne(m, id, why, now));
    if id in m.ops && !Terminal(m.ops[id].state) { EndsAs(m, id, why, now); }
  }

  lemma KeysMove(b: Book, b': Book)
    requires BookMoves(b, b')
    ensures b'.ops.Keys == b.ops.Keys && forall id :: id in b.ops ==> Moves(b.ops[id], b'.ops[id])
  {
  }

  lemma MovesJoin(b: Book, m: Book, b': Book)
    requires BookMoves(b, m) && BookMoves(m, b')
    requires forall o :: o in b.ops ==> b'.ops[o] == m.ops[o] || m.ops[o] == b.ops[o]
    ensures BookMoves(b, b')
  {
  }

  // ------------------------------------------------------------------ every step keeps the invariant

  lemma MovedKeeps(s: State, b': Book)
    requires Inv(s) && BookOk(b') && BookMoves(s.b, b')
    ensures Inv(s.(b := b'))
  {
    hide BookOk;
    var s' := s.(b := b');
    forall i | 0 <= i < |b'.observed| ensures b'.observed[i].0 <= s.nextID && b'.observed[i].0 !in s.waiting {
      if i < |s.b.observed| { assert b'.observed[i] == s.b.observed[i]; }
    }
  }

  lemma QuietKeeps(s: State, b': Book)
    requires Inv(s) && BookOk(b') && b'.ops == s.b.ops && b'.observed == s.b.observed
    ensures Inv(s.(b := b'))
  {
    hide Inv, BookOk;
    SameBook(s.b, b');
    MovedKeeps(s, b');
  }

  lemma InsertKeeps(s: State, id: nat)
    requires Inv(s) && id in s.waiting
    ensures Inv(Do(s, Insert(id)))
  {
    hide ChansOk, SubsOpen, SubsApart, ChanOk;
  }

  lemma CreateKeeps(s: State, step: Step)
    requires Inv(s) && step.Create?
    ensures Inv(Do(s, step))
  {
    hide BookOk, ValidateCreate;
  }

  lemma ReceiveKeeps(b: Book, c: nat)
    requires BookOk(b) && c in b.chans && b.chans[c].queue != []
    ensures BookOk(b.(chans := b.chans[c := b.chans[c].(queue := b.chans[c].queue[1..])]))
  {
    hide OpsOk, LogOk, SubsApart;
    var chans := b.chans[c := b.chans[c].(queue := b.chans[c].queue[1..])];
    forall x | x in chans && Open(chans[x]) ensures exists id :: id in b.subs && x in b.subs[id] {
      assert Open(b.chans[x]);
    }
  }

  lemma SweepStep(s: State, order: seq<nat>, why: Why)
    requires Inv(s)
    ensures Inv(Sweep(s, order, why))
  {
    hide Inv, BookOk, SweepOn, BookMoves;
    Parts(s);
    if Covers(order, s.b.ops.Keys) {
      SweepKeeps(s.b, order, why, s.now);
      SweepMoves(s.b, order, why, s.now);
      MovedKeeps(s, SweepOn(s.b, order, why, s.now));
    }
  }

  lemma Parts(s: State)
    requires Inv(s)
    ensures BookOk(s.b) && IdsOk(s) && StopOk(s)
  {
  }

  /** One sweep ends all it picks. */
  lemma SweepDone(s: State, order: seq<nat>, why: Why)
    requires Covers(order, s.b.ops.Keys)
    ensures var s' := Sweep(s, order, why);
            forall id :: id in s'.b.ops && Picks(why, s'.b.ops[id]) ==> Terminal(s'.b.ops[id].state)
    ensures why == Shutdown ==> forall id :: id in Sweep(s, order, why).b.ops ==> Terminal(Sweep(s, order, why).b.ops[id].state)
  {
    hide SweepOn;
    SweepMoves(s.b, order, why, s.now);
  }

  lemma StopKeeps(s: State, order: seq<nat>)
    requires Inv(s) && s.stopping && Covers(order, s.b.ops.Keys)
    ensures Inv(Do(s, StopSweep(order)))
  {
    hide BookOk, IdsOk, SweepOn;
    SweepStep(s, order, Shutdown);
    SweepDone(s, order, Shutdown);
    IdsSame(Sweep(s, order, Shutdown), Do(s, StopSweep(order)));
  }

  lemma IdsSame(s: State, s': State)
    requires IdsOk(s) && s'.b == s.b && s'.waiting == s.waiting && s'.nextID == s.nextID
    ensures IdsOk(s')
  {
  }

  lemma CancelKeeps(b: Book, caller: string, id: nat, now: int)
    requires BookOk(b)
    ensures var b' := CancelOn(b, caller, id, now).0; BookOk(b') && BookMoves(b, b')
  {
    hide BookOk, SendAll;
    SameBook(b, b);
    if id in b.ops && CanTransition(b.ops[id].state, CancelRequested) { TransitionKeeps(b, id, CancelRequested, now); }
  }

  lemma ProgressKeeps(b: Book, id: nat, payload: Bytes)
    requires BookOk(b)
    ensures var b' := ProgressOn(b, id, payload); BookOk(b') && BookMoves(b, b')
  {
    hide BookOk, SendAll;
    SameBook(b, b);
    if id in b.ops && !Terminal(b.ops[id].state) { EmitKeeps(b, id, Progress(payload)); }
  }

  lemma ReapStep(s: State, at: int)
    requires Inv(s)
    ensures Inv(s.(b := ReapOn(s.b, at)))
  {
    hide BookOk;
    ReapKeeps(s.b, at);
  }

  lemma StepKeeps(s: State, step: Step)
    requires Inv(s)
    ensures Inv(Do(s, step))
  {
    hide Inv, BookOk, IdsOk, StopOk, BookMoves, AcceptOn, ReportOn, CancelOn, SubscribeOn, UnsubscribeOn, ProgressOn, ReapOn, Sweep,
         ValidateCreate, Covers;
    Parts(s);
    match step
    case Create(_, _, _, _, _, _, _, _, _) => CreateKeeps(s, step);
    case Insert(id) => if id in s.waiting { InsertKeeps(s, id); }
    case CancelOp(caller, id) => CancelKeeps(s.b, caller, id, s.now); MovedKeeps(s, CancelOn(s.b, caller, id, s.now).0);
    case Subscribe(caller, id) => SubscribeKeeps(s.b, caller, id); SubscribeQuiet(s.b, caller, id, 0); QuietKeeps(s, SubscribeOn(s.b, caller, id).0);
    case Unsubscribe(id, c) => UnsubscribeKeeps(s.b, id, c); SubscribeQuiet(s.b, "", id, c); QuietKeeps(s, UnsubscribeOn(s.b, id, c));
    case Receive(c) =>
      if c in s.b.chans && s.b.chans[c].queue != [] { ReceiveKeeps(s.b, c); QuietKeeps(s, Do(s, step).b); }
    case Accept(id, e) => AcceptKeeps(s.b, id, e, s.boundary, s.now); AcceptMoves(s.b, id, e, s.boundary, s.now); MovedKeeps(s, Do(s, step).b);
    case ReportProgress(id, p) => ProgressKeeps(s.b, id, p); MovedKeeps(s, ProgressOn(s.b, id, p));
    case ReportTerminal(id, r) => ReportKeeps(s.b, id, r, s.boundary, s.now); ReportMoves(s.b, id, r, s.boundary, s.now); MovedKeeps(s, Do(s, step).b);
    case ReleaseByConn(conn, order) => SweepStep(s, order, ConnGone(conn));
    case Converge(e, order) => SweepStep(s, order, Superseded(e));
    case ScanDeadlines(at, order) => SweepStep(s, order, Expired(at));
    case Reap(at) => ReapStep(s, at);
    case StopSweep(order) => if s.stopping && Covers(order, s.b.ops.Keys) { StopKeeps(s, order); }
    case SafetySupersede(_) => ClockKeeps(s, Do(s, step));
    case CloseStop => ClockKeeps(s, Do(s, step));
    case Tick(_) => ClockKeeps(s, Do(s, step));
  }

  lemma SubscribeQuiet(b: Book, caller: string, id: nat, c: nat)
    ensures SubscribeOn(b, caller, id).0.ops == b.ops && SubscribeOn(b, caller, id).0.observed == b.observed
    ensures UnsubscribeOn(b, id, c).ops == b.ops && UnsubscribeOn(b, id, c).observed == b.observed
  {
  }

  lemma ClockKeeps(s: State, s': State)
    requires Inv(s) && s'.b == s.b && s'.waiting == s.waiting && s'.nextID == s.nextID && s'.stopped == s.stopped
    requires s.stopping ==> s'.stopping
    ensures Inv(s')
  {
    hide BookOk;
  }

  lemma StartInv(s: State)
    requires s == Start
    ensures Inv(s)
  {
  }

  lemma {:induction false} RunInv(steps: seq<Step>)
    ensures Inv(Exec(steps))
  {
    hide Inv, Do, Start;
    if steps == [] { StartInv(Start); } else {
      RunInv(steps[..|steps| - 1]);
      StepKeeps(Exec(steps[..|steps| - 1]), steps[|steps| - 1]);
    }
  }
}
