/** What each critical section does to operations, subscriptions, channels and events, in plain fields: who
    is ended by a pass and who is not, and what a report, a cancellation or a subscription leads to. */
module OperationOutcomes {
  import opened Wrappers
  import opened Operations
  import opened OperationRuns
  import opened OperationInvariant
  import opened OperationProof
  import opened OperationGuarantees

  predicate Unfinished(op: Op) { op.state == Pending || op.state == Running || op.state == CancelRequested }

  // ------------------------------------------------------------------ one operation ended

  /** The record of an operation that the manager has failed. */
  function Struck(op: Op, code: Code, now: int): Op { op.(state := Failed, status := code, error := [], updated := now) }

  /** A channel that has been offered the event, and then closed. */
  predicate ClosedWith(ch: Chan, ch': Chan, ev: Event) {
    if ch.closed then ch' == ch
    else ch'.closed && ch'.closings == ch.closings + 1 && ch'.late == ch.late && (ch'.queue == ch.queue || (|ch.queue| < SUB_BUFFER && ch'.queue == ch.queue + [ev]))
  }

  lemma {:induction false} SentAndClosed(chans: map<nat, Chan>, list: seq<nat>, ev: Event)
    requires forall i, j :: 0 <= i < j < |list| ==> list[i] != list[j]
    ensures var m := CloseAll(SendAll(chans, list, ev), list);
            && m.Keys == chans.Keys
            && (forall c :: c in chans && c !in list ==> m[c] == chans[c])
            && (forall c :: c in chans && c in list ==> m[c] == CloseOf(SendTo(chans[c], ev)))
  {
    Sent(chans, list, ev);
    ClosedAll(SendAll(chans, list, ev), list);
  }

  lemma {:induction false} Sent(chans: map<nat, Chan>, list: seq<nat>, ev: Event)
    requires forall i, j :: 0 <= i < j < |list| ==> list[i] != list[j]
    ensures var m := SendAll(chans, list, ev);
            && m.Keys == chans.Keys
            && (forall c :: c in chans && c !in list ==> m[c] == chans[c])
            && (forall c :: c in chans && c in list ==> m[c] == SendTo(chans[c], ev))
  {
    if list != [] {
      var init := list[..|list| - 1];
      Sent(chans, init, ev);
      assert list == init + [list[|list| - 1]] && list[|list| - 1] !in init;
    }
  }

  lemma {:induction false} ClosedAll(chans: map<nat, Chan>, list: seq<nat>)
    requires forall i, j :: 0 <= i < j < |list| ==> list[i] != list[j]
    ensures var m := CloseAll(chans, list);
            && m.Keys == chans.Keys
            && (forall c :: c in chans && c !in list ==> m[c] == chans[c])
            && (forall c :: c in chans && c in list ==> m[c] == CloseOf(chans[c]))
  {
    if list != [] {
      var init := list[..|list| - 1];
      ClosedAll(chans, init);
      assert list == init + [list[|list| - 1]] && list[|list| - 1] !in init;
    }
  }

  lemma SentThenClosed(ch: Chan, ev: Event)
    requires ChanOk(ch)
    ensures ClosedWith(ch, CloseOf(SendTo(ch, ev)), ev)
  {
  }

  /** The effect of ending an unfinished operation: its record, its one last event, its channels - and nothing
      of any other operation. */
  ghost predicate EndsOne(b: Book, b': Book, id: nat, op: Op, ev: Event)
    requires id in b.ops
  {
    && b'.ops == b.ops[id := op] && b'.subs == b.subs - {id} && b'.observed == b.observed + [(id, ev)] && b'.nextChan == b.nextChan
    && b'.chans.Keys == b.chans.Keys
    && (forall c :: c in b.chans && c !in SubsOf(b, id) ==> b'.chans[c] == b.chans[c])
    && (forall c :: c in b.chans && c in SubsOf(b, id) ==> ClosedWith(b.chans[c], b'.chans[c], ev))
  }

  lemma TerminateIs(b: Book, id: nat, to: OpState, status: Code, detail: Bytes, now: int)
    requires id in b.ops && !Terminal(b.ops[id].state) && CanTransition(b.ops[id].state, to) && ChansOk(b.chans, b.nextChan) && SubsApart(b.subs)
    ensures EndsOne(b, TerminateOn(b, id, to, status, detail, now), id, Ended(b.ops[id], to, status, detail, now),
                    Changed(to, status, if to == Cancelled then [] else detail))
  {
    hide ChanOk, CloseAll, SendAll, CloseOf, SendTo, ClosedWith;
    var ev := Changed(to, status, if to == Cancelled then [] else detail);
    SubsDistinct(b, id);
    SentAndClosed(b.chans, SubsOf(b, id), ev);
    forall c | c in b.chans && c in SubsOf(b, id) ensures ClosedWith(b.chans[c], CloseOf(SendTo(b.chans[c], ev)), ev) {
      SentThenClosed(b.chans[c], ev);
    }
  }

  lemma SubsDistinct(b: Book, id: nat)
    requires SubsApart(b.subs)
    ensures var list := SubsOf(b, id); forall i, j :: 0 <= i < j < |list| ==> list[i] != list[j]
    ensures forall o, c :: o != id && c in SubsOf(b, id) ==> c !in SubsOf(b, o)
  {
  }

  // ------------------------------------------------------------------ passes

  /** Whom a pass ends, and with which code. */
  predicate Falls(why: Why, op: Op) {
    && Unfinished(op)
    && match why
       case Superseded(boundary) => op.lease != 0 && op.epoch < boundary
       case Expired(now) => op.deadline < now
       case ConnGone(conn) => op.conn == conn
       case Shutdown => true
  }

  function FallsWith(why: Why): Code {
    if why.Superseded? then FailedPrecondition else if why.Expired? then DeadlineExceeded else Unavailable
  }

  function Fallen(ops: map<nat, Op>, ids: set<nat>, why: Why): set<nat> {
    set id | id in ids && id in ops && Falls(why, ops[id])
  }

  // Records, subscriptions and events after a pass over these operations ...
  ghost predicate PassedRecords(b: Book, b': Book, gone: set<nat>, why: Why, now: int) {
    && b'.ops.Keys == b.ops.Keys && b'.nextChan == b.nextChan && b'.chans.Keys == b.chans.Keys
    && (forall id :: id in b.ops ==> b'.ops[id] == if id in gone then Struck(b.ops[id], FallsWith(why), now) else b.ops[id])
    && b'.subs == b.subs - gone
  }

  // ... one event for each that fell ...
  ghost predicate PassedEvents(b: Book, b': Book, gone: set<nat>, ev: Event) {
    && b.observed <= b'.observed && |b'.observed| == |b.observed| + |gone|
    && (forall i :: |b.observed| <= i < |b'.observed| ==> b'.observed[i].0 in gone && b'.observed[i].1 == ev)
    && (forall i, j :: |b.observed| <= i < j < |b'.observed| ==> b'.observed[i].0 != b'.observed[j].0)
  }

  // ... and the channels: those of the fallen are closed, all others as they were.
  ghost predicate PassedChans(b: Book, b': Book, gone: set<nat>, ev: Event) {
    && b'.chans.Keys == b.chans.Keys
    && (forall id, c :: id in gone && c in SubsOf(b, id) && c in b.chans ==> ClosedWith(b.chans[c], b'.chans[c], ev))
    && (forall c :: c in b.chans && (forall id :: id in gone ==> c !in SubsOf(b, id)) ==> b'.chans[c] == b.chans[c])
  }

  /** The effect of a pass over these operations. */
  ghost predicate PassedOver(b: Book, b': Book, ids: set<nat>, why: Why, now: int) {
    var gone, ev := Fallen(b.ops, ids, why), Changed(Failed, FallsWith(why), []);
    PassedRecords(b, b', gone, why, now) && PassedEvents(b, b', gone, ev) && PassedChans(b, b', gone, ev)
  }

  lemma PicksAre(why: Why, op: Op)
    ensures !Terminal(op.state) && Picks(why, op) <==> Falls(why, op)
    ensures WhyCode(why) == FallsWith(why)
    ensures !Terminal(op.state) ==> CanTransition(op.state, Failed)
  {
  }

  lemma NobodyFalls(b: Book, why: Why, now: int)
    ensures PassedOver(b, b, {}, why, now)
  {
    assert Fallen(b.ops, {}, why) == {};
  }

  lemma Spared(b: Book, m: Book, ids: set<nat>, id: nat, why: Why, now: int)
    requires PassedOver(b, m, ids, why, now) && (id in ids || id !in b.ops || !Falls(why, b.ops[id]))
    ensures PassedOver(b, m, ids + {id}, why, now)
  {
    assert Fallen(b.ops, ids + {id}, why) == Fallen(b.ops, ids, why);
  }

  lemma FelledRecords(b: Book, m: Book, m': Book, gone: set<nat>, id: nat, why: Why, now: int)
    requires PassedRecords(b, m, gone, why, now) && id in b.ops && id !in gone
    requires EndsOne(m, m', id, Struck(b.ops[id], FallsWith(why), now), Changed(Failed, FallsWith(why), []))
    ensures PassedRecords(b, m', gone + {id}, why, now)
  {
    hide ClosedWith;
  }

  lemma FelledEvents(b: Book, m: Book, m': Book, gone: set<nat>, id: nat, ev: Event)
    requires PassedEvents(b, m, gone, ev) && id !in gone && m'.observed == m.observed + [(id, ev)]
    ensures PassedEvents(b, m', gone + {id}, ev)
  {
  }

  lemma FelledChans(b: Book, m: Book, m': Book, gone: set<nat>, id: nat, ev: Event)
    requires PassedChans(b, m, gone, ev) && SubsApart(b.subs) && id !in gone && SubsOf(m, id) == SubsOf(b, id)
    requires m'.chans.Keys == m.chans.Keys
    requires forall c :: c in m.chans && c !in SubsOf(m, id) ==> m'.chans[c] == m.chans[c]
    requires forall c :: c in m.chans && c in SubsOf(m, id) ==> ClosedWith(m.chans[c], m'.chans[c], ev)
    ensures PassedChans(b, m', gone + {id}, ev)
  {
    hide ClosedWith;
    SubsDistinct(b, id);
    forall o, c | o in gone + {id} && c in SubsOf(b, o) && c in b.chans ensures ClosedWith(b.chans[c], m'.chans[c], ev) {
      if o == id { OthersChannels(b, m, gone, id, c); }
    }
    forall c | c in b.chans && (forall o :: o in gone + {id} ==> c !in SubsOf(b, o)) ensures m'.chans[c] == b.chans[c] {
      assert id in gone + {id};
    }
  }

  lemma Felled(b: Book, m: Book, m': Book, ids: set<nat>, id: nat, why: Why, now: int)
    requires PassedOver(b, m, ids, why, now) && SubsApart(b.subs) && id in b.ops && id !in ids && Falls(why, b.ops[id])
    requires id in m.ops && EndsOne(m, m', id, Struck(b.ops[id], FallsWith(why), now), Changed(Failed, FallsWith(why), []))
    ensures PassedOver(b, m', ids + {id}, why, now)
  {
    hide ClosedWith, Falls, PassedChans, PassedEvents;
    var gone, ev := Fallen(b.ops, ids, why), Changed(Failed, FallsWith(why), []);
    assert Fallen(b.ops, ids + {id}, why) == gone + {id} && id !in gone;
    FelledRecords(b, m, m', gone, id, why, now);
    FelledEvents(b, m, m', gone, id, ev);
    FelledChans(b, m, m', gone, id, ev);
  }

  lemma OthersChannels(b: Book, m: Book, gone: set<nat>, id: nat, c: nat)
    requires SubsApart(b.subs) && id !in gone && c in SubsOf(b, id) && c in b.chans && c in m.chans
    requires forall c :: c in b.chans && c in m.chans && (forall o :: o in gone ==> c !in SubsOf(b, o)) ==> m.chans[c] == b.chans[c]
    ensures m.chans[c] == b.chans[c]
  {
    SubsDistinct(b, id);
  }

  lemma {:induction false} PassIs(b: Book, order: seq<nat>, ids: set<nat>, why: Why, now: int)
    requires BookOk(b) && forall id :: id in ids <==> id in order
    ensures PassedOver(b, SweepOn(b, order, why, now), ids, why, now)
    ensures var m := SweepOn(b, order, why, now); ChansOk(m.chans, m.nextChan) && SubsApart(m.subs) && m.nextChan == b.nextChan
    decreases |order|
  {
    hide PassedOver, TerminateOn, EndsOne, Picks, Falls, BookOk, ChanOk;
    PassBook(b);
    if order == [] {
      assert ids == {} && SweepOn(b, order, why, now) == b;
      NobodyFalls(b, why, now);
    } else {
      var init, id := order[..|order| - 1], order[|order| - 1];
      var was := set o | o in init;
      PassIs(b, init, was, why, now);
      assert order == init + [id] && ids == was + {id};
      PassOne(b, SweepOn(b, init, why, now), was, id, why, now);
    }
  }

  lemma PassBook(b: Book)
    requires BookOk(b)
    ensures ChansOk(b.chans, b.nextChan) && SubsApart(b.subs)
  {
  }

  lemma PassOne(b: Book, m: Book, ids: set<nat>, id: nat, why: Why, now: int)
    requires PassedOver(b, m, ids, why, now) && SubsApart(b.subs) && ChansOk(m.chans, m.nextChan) && SubsApart(m.subs) && m.nextChan == b.nextChan
    ensures var m' := EndOne(m, id, why, now);
            PassedOver(b, m', ids + {id}, why, now) && ChansOk(m'.chans, b.nextChan) && SubsApart(m'.subs) && m'.nextChan == b.nextChan
  {
    hide TerminateOn, EndsOne, Picks, Falls, ClosedWith, ChanOk;
    if id in m.ops && !Terminal(m.ops[id].state) && Picks(why, m.ops[id]) {
      PicksAre(why, m.ops[id]);
      StruckIsDone(why, b.ops[id], now);
      assert Falls(why, b.ops[id]) ==> id !in ids;
      assert m.ops[id] == b.ops[id];
      TerminateIs(m, id, Failed, WhyCode(why), [], now);
      EndedIsStruck(m.ops[id], WhyCode(why), now);
      var m' := TerminateOn(m, id, Failed, WhyCode(why), [], now);
      EndsKeepsChans(m, m', id, Struck(m.ops[id], FallsWith(why), now), Changed(Failed, FallsWith(why), []));
      Felled(b, m, m', ids, id, why, now);
    } else {
      if id in b.ops { PicksAre(why, m.ops[id]); PicksAre(why, b.ops[id]); }
      Spared(b, m, ids, id, why, now);
    }
  }

  lemma StruckIsDone(why: Why, op: Op, now: int)
    ensures !Falls(why, Struck(op, FallsWith(why), now)) && Terminal(Struck(op, FallsWith(why), now).state)
  {
  }

  lemma EndedIsStruck(op: Op, code: Code, now: int)
    ensures Ended(op, Failed, code, [], now) == Struck(op, code, now)
  {
  }

  lemma EndsKeepsChans(b: Book, b': Book, id: nat, op: Op, ev: Event)
    requires id in b.ops && EndsOne(b, b', id, op, ev) && ChansOk(b.chans, b.nextChan) && SubsApart(b.subs)
    ensures ChansOk(b'.chans, b.nextChan) && SubsApart(b'.subs)
  {
  }

  lemma BookAt(steps: seq<Step>, n: nat)
    requires n < |steps|
    ensures BookOk(StateAt(steps, n).b) && ChansOk(StateAt(steps, n).b.chans, StateAt(steps, n).b.nextChan)
    ensures SubsApart(StateAt(steps, n).b.subs)
    ensures StateAt(steps, n + 1) == Do(StateAt(steps, n), steps[n])
  {
    hide Do, IdsOk, StopOk;
    RunInv(steps[..n]);
    Parts(StateAt(steps, n));
    PassBook(StateAt(steps, n).b);
    OperationGuarantees.AtNext(steps, n);
  }

  /** Why a step makes a pass, if it does. */
  function PassOf(s: State, step: Step): Option<Why> {
    match step
    case Converge(epoch, _) => if 0 < epoch <= s.boundary then Some(Superseded(epoch)) else None
    case ScanDeadlines(at, _) => if at <= s.now then Some(Expired(at)) else None
    case ReleaseByConn(conn, _) => if conn != 0 then Some(ConnGone(conn)) else None
    case StopSweep(_) => if s.stopping then Some(Shutdown) else None
    case _ => None
  }

  predicate IsPass(step: Step) { step.Converge? || step.ScanDeadlines? || step.ReleaseByConn? || step.StopSweep? }

  /** A pass ends exactly the unfinished operations its reason names - superseded ones with a lease and an epoch
      below the boundary, those past their deadline, those of the connection, or all - each with the code of
      that reason and one last event. Every other operation keeps its record, its subscriptions and its
      channels, and gets no event. */
  lemma PassIsExact(steps: seq<Step>, n: nat)
    requires n < |steps| && IsPass(steps[n])
    ensures var (s, s') := (StateAt(steps, n), StateAt(steps, n + 1));
            var why := PassOf(s, steps[n]);
            if why.Some? && Covers(steps[n].order, s.b.ops.Keys) then PassedOver(s.b, s'.b, s.b.ops.Keys, why.value, s.now) else s'.b == s.b
  {
    hide PassedOver, SweepOn, BookOk;
    BookAt(steps, n);
    var s := StateAt(steps, n);
    var why := PassOf(s, steps[n]);
    if why.Some? && Covers(steps[n].order, s.b.ops.Keys) {
      PassIs(s.b, steps[n].order, s.b.ops.Keys, why.value, s.now);
    }
  }

  // ------------------------------------------------------------------ Provider reports

  /** Overtaken by Safety, or past the deadline: what such an operation is failed with. */
  function TooLate(op: Op, boundary: nat, now: int): Option<Code> {
    if op.lease != 0 && boundary != 0 && op.epoch < boundary then Some(FailedPrecondition)
    else if op.deadline < now then Some(DeadlineExceeded) else None
  }

  /** The state changes and the event is offered; everything else stays. */
  ghost predicate MovesTo(b: Book, b': Book, id: nat, to: OpState, now: int)
    requires id in b.ops
  {
    var ev := Changed(to, Unspecified, []);
    && b'.ops == b.ops[id := b.ops[id].(state := to, updated := now)] && b'.subs == b.subs && b'.nextChan == b.nextChan
    && b'.observed == b.observed + [(id, ev)] && OfferedAll(b, b', id, ev)
  }

  ghost predicate OfferedAll(b: Book, b': Book, id: nat, ev: Event) {
    && b'.chans.Keys == b.chans.Keys
    && (forall c :: c in b.chans && c !in SubsOf(b, id) ==> b'.chans[c] == b.chans[c])
    && (forall c :: c in b.chans && c in SubsOf(b, id) ==>
          if !b.chans[c].closed && |b.chans[c].queue| < 16 then b'.chans[c] == b.chans[c].(queue := b.chans[c].queue + [ev])
          else b'.chans[c] == b.chans[c])
  }

  lemma TransitionIs(b: Book, id: nat, to: OpState, now: int)
    requires id in b.ops && ChansOk(b.chans, b.nextChan) && SubsApart(b.subs)
    ensures MovesTo(b, TransitionOn(b, id, to, now), id, to, now)
  {
    hide SendAll;
    var m := b.(ops := b.ops[id := b.ops[id].(state := to, updated := now)]);
    SubsDistinct(b, id);
    Sent(m.chans, SubsOf(b, id), Changed(to, Unspecified, []));
  }

  predicate FailsWith(code: Code, status: Code) {
    if code in {Internal, InvalidArgument, FailedPrecondition, DeadlineExceeded, Unavailable, ResourceExhausted, NotFound}
    then status == code else status == Internal
  }

  /** What a terminal report does, case by case: finished and unknown operations are left alone; late ones are
      failed by the manager; success needs RUNNING or CANCEL_REQUESTED and carries the result, failure carries
      the Provider's code if it may use it and its detail, cancellation needs CANCEL_REQUESTED. */
  lemma ReportIsExact(steps: seq<Step>, n: nat)
    requires n < |steps| && steps[n].ReportTerminal?
    ensures var (s, s', id, r) := (StateAt(steps, n), StateAt(steps, n + 1), steps[n].id, steps[n].r);
            if id !in s.b.ops || !Unfinished(s.b.ops[id]) then s'.b == s.b else
              var op := s.b.ops[id];
              var late := TooLate(op, s.boundary, s.now);
              if late.Some? then EndsOne(s.b, s'.b, id, Struck(op, late.value, s.now), Changed(Failed, late.value, [])) else
                match r
                case Success(d) =>
                  if op.state == Pending then s'.b == s.b
                  else EndsOne(s.b, s'.b, id, op.(state := Succeeded, status := OK, result := d, updated := s.now), Changed(Succeeded, OK, d))
                case Failure(code, d) =>
                  exists status :: FailsWith(code, status) &&
                    EndsOne(s.b, s'.b, id, op.(state := Failed, status := status, error := d, updated := s.now), Changed(Failed, status, d))
                case Cancellation =>
                  if op.state != CancelRequested then s'.b == s.b
                  else EndsOne(s.b, s'.b, id, op.(state := Cancelled, status := CodeCancelled, updated := s.now), Changed(Cancelled, CodeCancelled, []))
  {
    hide EndsOne, TerminateOn, BookOk;
    BookAt(steps, n);
    var s, id, r := StateAt(steps, n), steps[n].id, steps[n].r;
    if id in s.b.ops && Unfinished(s.b.ops[id]) {
      ReportCases(s.b, id, r, s.boundary, s.now);
    }
  }

  lemma NoTransition(b: Book, id: nat, to: OpState, status: Code, detail: Bytes, now: int)
    requires id !in b.ops || Terminal(b.ops[id].state) || !CanTransition(b.ops[id].state, to)
    ensures TerminateOn(b, id, to, status, detail, now) == b
  {
  }

  lemma ReportCases(b: Book, id: nat, r: Report, boundary: nat, now: int)
    requires id in b.ops && Unfinished(b.ops[id]) && ChansOk(b.chans, b.nextChan) && SubsApart(b.subs)
    ensures var (b', op, late) := (ReportOn(b, id, r, boundary, now), b.ops[id], TooLate(b.ops[id], boundary, now));
            if late.Some? then EndsOne(b, b', id, Struck(op, late.value, now), Changed(Failed, late.value, [])) else
              match r
              case Success(d) =>
                if op.state == Pending then b' == b
                else EndsOne(b, b', id, op.(state := Succeeded, status := OK, result := d, updated := now), Changed(Succeeded, OK, d))
              case Failure(code, d) =>
                exists status :: FailsWith(code, status) &&
                  EndsOne(b, b', id, op.(state := Failed, status := status, error := d, updated := now), Changed(Failed, status, d))
              case Cancellation =>
                if op.state != CancelRequested then b' == b
                else EndsOne(b, b', id, op.(state := Cancelled, status := CodeCancelled, updated := now), Changed(Cancelled, CodeCancelled, []))
  {
    hide EndsOne, TerminateOn, ChanOk;
    var op, late := b.ops[id], TooLate(b.ops[id], boundary, now);
    if late.Some? {
      TerminateIs(b, id, Failed, late.value, [], now);
    } else {
      var to := TargetOf(r);
      if CanTransition(op.state, to) { TerminateIs(b, id, to, StatusOf(r), DetailOf(r), now); }
      else { NoTransition(b, id, to, StatusOf(r), DetailOf(r), now); }
      if r.Failure? { assert FailsWith(r.code, StatusOf(r)); }
    }
  }

  /** What Accept does: a wrong epoch or a late operation fails; a PENDING one runs; others stay. */
  lemma AcceptIsExact(steps: seq<Step>, n: nat)
    requires n < |steps| && steps[n].Accept?
    ensures var (s, s', id) := (StateAt(steps, n), StateAt(steps, n + 1), steps[n].id);
            if id !in s.b.ops || !Unfinished(s.b.ops[id]) then s'.b == s.b else
              var op := s.b.ops[id];
              var late := if steps[n].epoch != op.epoch then Some(FailedPrecondition) else TooLate(op, s.boundary, s.now);
              if late.Some? then EndsOne(s.b, s'.b, id, Struck(op, late.value, s.now), Changed(Failed, late.value, []))
              else if op.state == Pending then MovesTo(s.b, s'.b, id, Running, s.now)
              else s'.b == s.b
  {
    hide EndsOne, TerminateOn, BookOk, TransitionOn, MovesTo, ChanOk;
    BookAt(steps, n);
    var s, id := StateAt(steps, n), steps[n].id;
    if id in s.b.ops && Unfinished(s.b.ops[id]) {
      var op := s.b.ops[id];
      var late := if steps[n].epoch != op.epoch then Some(FailedPrecondition) else TooLate(op, s.boundary, s.now);
      if late.Some? { TerminateIs(s.b, id, Failed, late.value, [], s.now); } else { TransitionIs(s.b, id, Running, s.now); }
    }
  }

  /** Progress is offered for running and cancelling operations only, and changes no record. */
  lemma ProgressIsExact(steps: seq<Step>, n: nat)
    requires n < |steps| && steps[n].ReportProgress?
    ensures var (b, b', id, ev) := (StateAt(steps, n).b, StateAt(steps, n + 1).b, steps[n].id, Progress(steps[n].payload));
            if id in b.ops && (b.ops[id].state == Running || b.ops[id].state == CancelRequested)
            then b'.ops == b.ops && b'.subs == b.subs && b'.observed == b.observed + [(id, ev)] && OfferedAll(b, b', id, ev)
            else b' == b
  {
    hide BookOk, SendAll;
    BookAt(steps, n);
    var b, id := StateAt(steps, n).b, steps[n].id;
    SubsDistinct(b, id);
    Sent(b.chans, SubsOf(b, id), Progress(steps[n].payload));
  }

  // ------------------------------------------------------------------ callers

  /** Cancelling moves a PENDING or RUNNING operation of this caller - or of anybody, for the kernel - to
      CANCEL_REQUESTED; foreign and unknown ids are NOT_FOUND alike. */
  lemma CancelIsExact(steps: seq<Step>, n: nat)
    requires n < |steps| && steps[n].CancelOp?
    ensures var (s, s', id, caller) := (StateAt(steps, n), StateAt(steps, n + 1), steps[n].id, steps[n].caller);
            var seen := id in s.b.ops && (caller == "" || s.b.ops[id].caller == caller);
            && CancelOn(s.b, caller, id, s.now).1 == (if seen then Accepted else NotFound)
            && if seen && (s.b.ops[id].state == Pending || s.b.ops[id].state == Running)
               then MovesTo(s.b, s'.b, id, CancelRequested, s.now) else s'.b == s.b
  {
    hide BookOk, TransitionOn, MovesTo, ChanOk;
    BookAt(steps, n);
    var s, id := StateAt(steps, n), steps[n].id;
    if id in s.b.ops { TransitionIs(s.b, id, CancelRequested, s.now); }
  }

  /** A subscription of a visible unfinished operation is a new open channel, listed for it; of anything else a
      new channel that is closed already. */
  lemma SubscribeIsExact(steps: seq<Step>, n: nat)
    requires n < |steps| && steps[n].Subscribe?
    ensures var (b, b', id, caller) := (StateAt(steps, n).b, StateAt(steps, n + 1).b, steps[n].id, steps[n].caller);
            var c := b.nextChan + 1;
            && c !in b.chans && b'.nextChan == c && b'.ops == b.ops && b'.observed == b.observed
            && if id in b.ops && (caller == "" || b.ops[id].caller == caller) && Unfinished(b.ops[id])
               then b'.chans == b.chans[c := Chan([], false, 0, 0)] && b'.subs == b.subs[id := SubsOf(b, id) + [c]]
               else b'.chans == b.chans[c := Chan([], true, 1, 0)] && b'.subs == b.subs
  {
    hide BookOk, ChanOk;
    BookAt(steps, n);
  }

  /** Unsubscribing closes exactly that channel and takes it, once, out of the list. */
  lemma UnsubscribeIsExact(steps: seq<Step>, n: nat)
    requires n < |steps| && steps[n].Unsubscribe?
    ensures var (b, b', id, c) := (StateAt(steps, n).b, StateAt(steps, n + 1).b, steps[n].id, steps[n].c);
            && b'.ops == b.ops && b'.observed == b.observed
            && (c !in SubsOf(b, id) ==> b' == b)
            && (c in SubsOf(b, id) ==>
                  && c in b.chans && !b.chans[c].closed && b'.chans == b.chans[c := b.chans[c].(closed := true, closings := 1)]
                  && (exists i :: 0 <= i < |SubsOf(b, id)| && SubsOf(b, id)[i] == c && SubsOf(b', id) == SubsOf(b, id)[..i] + SubsOf(b, id)[i + 1..])
                  && forall o :: o != id ==> SubsOf(b', o) == SubsOf(b, o))
  {
    hide OpsOk, SubsLive, LogOk;
    BookAt(steps, n);
    var b, id, c := StateAt(steps, n).b, steps[n].id, steps[n].c;
    var list := SubsOf(b, id);
    if c in list {
      var i := FirstOf(list, c);
      WithoutAt(list, i, c);
      assert b.chans[c].closings == 0 && !b.chans[c].closed;
      assert [c][..0] == [] && CloseAll(b.chans, []) == b.chans;
      assert CloseAll(b.chans, [c]) == b.chans[c := CloseOf(b.chans[c])];
      var left := Without(list, c);
      assert left == list[..i] + list[i + 1..];
      assert SubsOf(UnsubscribeOn(b, id, c), id) == left;
    }
  }

  lemma {:induction false} FirstOf(list: seq<nat>, c: nat) returns (i: nat)
    requires c in list
    ensures i < |list| && list[i] == c && c !in list[..i]
  {
    if list[0] == c { i := 0; } else {
      i := FirstOf(list[1..], c);
      i := i + 1;
      assert list[..i] == [list[0]] + list[1..][..i - 1];
    }
  }

  /** Retention: exactly the operations that finished more than five minutes before are forgotten. */
  lemma ReapIsExact(steps: seq<Step>, n: nat)
    requires n < |steps| && steps[n].Reap? && steps[n].at <= StateAt(steps, n).now
    ensures var (b, b', at) := (StateAt(steps, n).b, StateAt(steps, n + 1).b, steps[n].at);
            && b'.observed == b.observed && b'.chans == b.chans && b'.subs == b.subs
            && (forall id :: id in b'.ops <==> id in b.ops && (Unfinished(b.ops[id]) || at - b.ops[id].updated <= 300_000_000_000))
            && (forall id :: id in b'.ops ==> b'.ops[id] == b.ops[id])
  {
    hide OpsOk, ChansOk, SubsOpen, SubsApart, LogOk;
    BookAt(steps, n);
    var b, at := StateAt(steps, n).b, steps[n].at;
    assert forall id :: id in b.subs ==> id in b.ops && !Terminal(b.ops[id].state);
    assert ReapOn(b, at).subs == b.subs;
  }

  // ------------------------------------------------------------------ creation

  /** An operation is what its creation asked for, and creation was entitled to it: known resources, a deadline
      ahead within half an hour, and, for a motion operation, a validated lease over its one resource. */
  ghost predicate CreatedBy(s: State, step: Step, id: nat, op: Op) {
    && step.Create? && id == s.nextID + 1
    && op.caller == step.caller && op.conn == step.conn && op.provider == step.provider
    && op.lease == step.lease && op.epoch == step.epoch && op.deadline == step.deadline
    && step.resources != [] && (forall i :: 0 <= i < |step.resources| ==> step.resources[i] != "" && step.resources[i] in step.known)
    && s.now < step.deadline <= s.now + 1_800_000_000_000
    && (step.lease != 0 ==> |step.resources| == 1 && step.validator == Some(true))
  }

  lemma CreateIs(s: State, step: Step, id: nat)
    requires id in Do(s, step).waiting && id !in s.waiting
    ensures CreatedBy(s, step, id, Do(s, step).waiting[id]) && Do(s, step).waiting[id].state == Pending
  {
    hide ValidateCreate, AcceptOn, ReportOn, CancelOn, SubscribeOn, UnsubscribeOn, ProgressOn, ReapOn, SweepOn, Covers;
    if step.Create? { CreationChecks(step.resources, step.known, step.lease, step.validator, step.deadline, s.now); }
  }

  lemma {:induction false} OperationIsAsCreated(steps: seq<Step>, n: nat, id: nat) returns (k: nat)
    requires n <= |steps| && (id in StateAt(steps, n).b.ops || id in StateAt(steps, n).waiting)
    ensures k < n
    ensures var s := StateAt(steps, n);
            CreatedBy(StateAt(steps, k), steps[k], id, if id in s.b.ops then s.b.ops[id] else s.waiting[id])
  {
    hide Do, Inv, CreatedBy;
    assert steps[..0] == [];
    OperationGuarantees.AtNext(steps, n - 1);
    var s, s' := StateAt(steps, n - 1), StateAt(steps, n);
    WaitingApart(steps, n);
    WaitingApart(steps, n - 1);
    if id in s.b.ops || id in s.waiting {
      k := OperationIsAsCreated(steps, n - 1, id);
      assert OpsMove(s, s') && id <= s.nextID;
      assert id in s.b.ops ==> id !in s'.waiting;
      assert id in s.waiting ==> id !in s.b.ops && (id in s'.b.ops ==> s'.b.ops[id] == s.waiting[id]) && (id in s'.waiting ==> s'.waiting[id] == s.waiting[id]);
      if id in s.b.ops && id in s'.b.ops { SameTerms(StateAt(steps, k), steps[k], id, s.b.ops[id], s'.b.ops[id]); }
    } else {
      CreateIs(s, steps[n - 1], id);
      k := n - 1;
    }
  }

  lemma SameTerms(s: State, step: Step, id: nat, op: Op, op': Op)
    requires CreatedBy(s, step, id, op) && Moves(op, op')
    ensures CreatedBy(s, step, id, op')
  {
    hide CanTransition;
  }

  lemma WaitingApart(steps: seq<Step>, n: nat)
    requires n <= |steps|
    ensures forall id :: id in StateAt(steps, n).waiting ==> id !in StateAt(steps, n).b.ops
    ensures forall id :: id in StateAt(steps, n).b.ops || id in StateAt(steps, n).waiting ==> id <= StateAt(steps, n).nextID
  {
    hide BookOk, StopOk;
    RunInv(steps[..n]);
  }

  // ------------------------------------------------------------------ the revocation boundary

  /** The boundary that every report is checked against is the highest that Safety has delivered so far. */
  lemma {:induction false} BoundaryIsHighest(steps: seq<Step>, n: nat)
    requires n <= |steps|
    ensures forall j :: 0 <= j < n && steps[j].SafetySupersede? ==> steps[j].epoch <= StateAt(steps, n).boundary
    ensures StateAt(steps, n).boundary != 0 ==> exists j :: 0 <= j < n && steps[j] == SafetySupersede(StateAt(steps, n).boundary)
  {
    hide Do;
    if n == 0 { assert steps[..0] == []; } else {
      BoundaryIsHighest(steps, n - 1);
      OperationGuarantees.AtNext(steps, n - 1);
      BoundaryStep(StateAt(steps, n - 1), steps[n - 1]);
    }
  }

  lemma BoundaryStep(s: State, step: Step)
    ensures var b := Do(s, step).boundary;
            if step.SafetySupersede? then b >= step.epoch && b >= s.boundary && (b == step.epoch || b == s.boundary) else b == s.boundary
  {
    hide ValidateCreate, AcceptOn, ReportOn, CancelOn, SubscribeOn, UnsubscribeOn, ProgressOn, ReapOn, SweepOn, Covers;
  }

  /** The clock is the latest reading so far, and Stop, once begun, stays begun. */
  lemma ClockStep(s: State, step: Step)
    ensures Do(s, step).now == if step.Tick? && s.now <= step.to then step.to else s.now
    ensures Do(s, step).stopping == (s.stopping || step.CloseStop?)
  {
    hide ValidateCreate, AcceptOn, ReportOn, CancelOn, SubscribeOn, UnsubscribeOn, ProgressOn, ReapOn, SweepOn, Covers;
  }

  lemma {:induction false} StopStays(steps: seq<Step>, m: nat, n: nat)
    requires m < n <= |steps| && steps[m].CloseStop?
    ensures StateAt(steps, n).stopping
  {
    hide Do;
    OperationGuarantees.AtNext(steps, n - 1);
    ClockStep(StateAt(steps, n - 1), steps[n - 1]);
    if m < n - 1 { StopStays(steps, m, n - 1); }
  }

  /** From the moment Stop closes the manager no operation is added any more, whatever was being created. */
  lemma StopRefusesNew(steps: seq<Step>, m: nat, n: nat, id: nat)
    requires m < n < |steps| && steps[m].CloseStop? && id in StateAt(steps, n + 1).b.ops
    ensures id in StateAt(steps, n).b.ops
  {
    hide Do, Inv;
    StopStays(steps, m, n);
    OperationGuarantees.AtNext(steps, n);
    StoppingAddsNone(StateAt(steps, n), steps[n], id);
  }

  lemma StoppingAddsNone(s: State, step: Step, id: nat)
    requires s.stopping && OpsMove(s, Do(s, step)) && id in Do(s, step).b.ops
    ensures id in s.b.ops
  {
    hide ValidateCreate, Covers, Picks, Overtaken, SendAll, CloseAll;
    match step
    case Accept(o, e) => AcceptKeys(s.b, o, e, s.boundary, s.now);
    case ReportTerminal(o, r) => AcceptKeys(s.b, o, 0, s.boundary, s.now); ReportKeys(s.b, o, r, s.boundary, s.now);
    case Converge(e, order) => SweepKeys(s.b, order, Superseded(e), s.now);
    case ScanDeadlines(at, order) => SweepKeys(s.b, order, Expired(at), s.now);
    case ReleaseByConn(conn, order) => SweepKeys(s.b, order, ConnGone(conn), s.now);
    case StopSweep(order) => SweepKeys(s.b, order, Shutdown, s.now);
    case _ =>
  }

  lemma AcceptKeys(b: Book, id: nat, epoch: nat, boundary: nat, now: int)
    ensures AcceptOn(b, id, epoch, boundary, now).ops.Keys == b.ops.Keys
  {
    hide SendAll, CloseAll;
  }

  lemma ReportKeys(b: Book, id: nat, r: Report, boundary: nat, now: int)
    ensures ReportOn(b, id, r, boundary, now).ops.Keys == b.ops.Keys
  {
    hide SendAll, CloseAll;
  }

  lemma {:induction false} SweepKeys(b: Book, order: seq<nat>, why: Why, now: int)
    ensures SweepOn(b, order, why, now).ops.Keys == b.ops.Keys
  {
    hide SendAll, CloseAll, Picks;
    if order != [] { SweepKeys(b, order[..|order| - 1], why, now); }
  }
}
