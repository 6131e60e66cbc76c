/** The guarantees of the Operation Manager, for every run. */
module OperationGuarantees {
  import opened Wrappers
  import opened Operations
  import opened OperationRuns
  import opened OperationInvariant
  import opened OperationProof

  // ------------------------------------------------------------------ one step

  ghost predicate OpsMove(s: State, s': State) {
    && (forall id :: id in s'.b.ops ==>
          if id in s.b.ops then Moves(s.b.ops[id], s'.b.ops[id])
          else id in s.waiting && s'.b.ops[id] == s.waiting[id])
    && (forall id :: id in s'.waiting ==> if id in s.waiting then s'.waiting[id] == s.waiting[id] else id == s.nextID + 1)
    && s.nextID <= s'.nextID && s.boundary <= s'.boundary && s.now <= s'.now
  }

  lemma BookStep(s: State, b': Book)
    requires BookMoves(s.b, b')
    ensures OpsMove(s, s.(b := b'))
  {
  }

  lemma SweepsMove(s: State, order: seq<nat>, why: Why)
    ensures OpsMove(s, Sweep(s, order, why))
  {
    hide SweepOn, BookMoves, Covers;
    SameBook(s.b, s.b);
    SweepMoves(s.b, order, why, s.now);
    BookStep(s, SweepOn(s.b, order, why, s.now));
    BookStep(s, s.b);
  }

  lemma StepMoves(s: State, step: Step)
    requires Inv(s)
    ensures OpsMove(s, Do(s, step))
  {
    hide Inv, BookOk, BookMoves, OpsMove, AcceptOn, ReportOn, CancelOn, SubscribeOn, UnsubscribeOn, ProgressOn, ReapOn, Sweep,
         ValidateCreate, Covers;
    Parts(s);
    SameBook(s.b, s.b);
    BookStep(s, s.b);
    match step
    case CancelOp(caller, id) => CancelKeeps(s.b, caller, id, s.now); BookStep(s, CancelOn(s.b, caller, id, s.now).0);
    case Subscribe(caller, id) =>
      SubscribeQuiet(s.b, caller, id, 0); SameBook(s.b, SubscribeOn(s.b, caller, id).0); BookStep(s, SubscribeOn(s.b, caller, id).0);
    case Unsubscribe(id, c) =>
      SubscribeQuiet(s.b, "", id, c); SameBook(s.b, UnsubscribeOn(s.b, id, c)); BookStep(s, UnsubscribeOn(s.b, id, c));
    case Receive(c) => SameBook(s.b, Do(s, step).b); BookStep(s, Do(s, step).b);
    case Accept(id, e) => AcceptMoves(s.b, id, e, s.boundary, s.now); BookStep(s, Do(s, step).b);
    case ReportProgress(id, p) => ProgressKeeps(s.b, id, p); BookStep(s, ProgressOn(s.b, id, p));
    case ReportTerminal(id, r) => ReportMoves(s.b, id, r, s.boundary, s.now); BookStep(s, Do(s, step).b);
    case ReleaseByConn(conn, order) => SweepsMove(s, order, ConnGone(conn));
    case Converge(e, order) => SweepsMove(s, order, Superseded(e));
    case ScanDeadlines(at, order) => SweepsMove(s, order, Expired(at));
    case StopSweep(order) => SweepsMove(s, order, Shutdown); MoveStopped(s, Sweep(s, order, Shutdown), true);
    case Reap(at) => ReapMoves(s, at);
    case _ => OtherMoves(s, step);
  }

  lemma MoveStopped(s: State, s': State, stopped: bool)
    requires OpsMove(s, s')
    ensures OpsMove(s, s'.(stopped := stopped))
  {
  }

  lemma ReapMoves(s: State, at: int)
    ensures OpsMove(s, Do(s, Reap(at)))
  {
  }

  lemma OtherMoves(s: State, step: Step)
    requires IdsOk(s) && (step.Create? || step.Insert? || step.SafetySupersede? || step.CloseStop? || step.Tick?)
    ensures OpsMove(s, Do(s, step))
  {
    hide ValidateCreate;
  }

  lemma AtNext(steps: seq<Step>, n: nat)
    requires n < |steps|
    ensures StateAt(steps, n + 1) == Do(StateAt(steps, n), steps[n])
    ensures Inv(StateAt(steps, n)) && Inv(StateAt(steps, n + 1)) && OpsMove(StateAt(steps, n), StateAt(steps, n + 1))
  {
    hide Inv, Do, Start, OpsMove;
    assert steps[..n + 1][..n] == steps[..n];
    RunInv(steps[..n]);
    RunInv(steps[..n + 1]);
    StepMoves(StateAt(steps, n), steps[n]);
  }

  // ------------------------------------------------------------------ Safety and deadlines beat late reports

  predicate Progressed(st: OpState) { st == Running || st == Succeeded || st == Cancelled }

  // A report about an overtaken operation cannot move it forward.
  lemma LateReport(b: Book, id: nat, epoch: nat, r: Report, boundary: nat, now: int, o: nat)
    requires o in b.ops && Overtaken(b.ops[o], boundary, now).Some?
    ensures o in AcceptOn(b, id, epoch, boundary, now).ops && o in ReportOn(b, id, r, boundary, now).ops
    ensures var op := AcceptOn(b, id, epoch, boundary, now).ops[o]; Progressed(op.state) ==> op == b.ops[o]
    ensures var op := ReportOn(b, id, r, boundary, now).ops[o]; Progressed(op.state) ==> op == b.ops[o]
  {
    hide SendAll, CloseAll;
  }

  lemma SweepLate(s: State, order: seq<nat>, why: Why, o: nat)
    requires o in s.b.ops
    ensures var s' := Sweep(s, order, why); o in s'.b.ops && (s'.b.ops[o] == s.b.ops[o] || s'.b.ops[o].state == Failed)
  {
    hide SweepOn, Covers;
    SweepMoves(s.b, order, why, s.now);
  }

  lemma CancelLate(b: Book, caller: string, id: nat, now: int, o: nat, payload: Bytes)
    requires o in b.ops
    ensures var b' := CancelOn(b, caller, id, now).0; o in b'.ops && (b'.ops[o] == b.ops[o] || b'.ops[o].state == CancelRequested)
    ensures ProgressOn(b, id, payload).ops == b.ops
  {
    hide SendAll;
  }

  lemma LateStep(s: State, step: Step, o: nat)
    requires o in Do(s, step).b.ops && o in s.b.ops && Overtaken(s.b.ops[o], s.boundary, s.now).Some?
    requires Progressed(Do(s, step).b.ops[o].state) && IdsOk(s)
    ensures Do(s, step).b.ops[o] == s.b.ops[o]
  {
    hide AcceptOn, ReportOn, CancelOn, SubscribeOn, UnsubscribeOn, ProgressOn, Sweep, ValidateCreate, Covers, Overtaken;
    match step
    case Accept(id, e) => LateReport(s.b, id, e, Cancellation, s.boundary, s.now, o);
    case ReportTerminal(id, r) => LateReport(s.b, id, 0, r, s.boundary, s.now, o);
    case CancelOp(caller, id) => CancelLate(s.b, caller, id, s.now, o, []);
    case ReportProgress(id, p) => CancelLate(s.b, "", id, s.now, o, p);
    case Subscribe(caller, id) => SubscribeQuiet(s.b, caller, id, 0);
    case Unsubscribe(id, c) => SubscribeQuiet(s.b, "", id, c);
    case _ => if Sweeps(step) { LateSweep(s, step, o); }
  }

  predicate Sweeps(step: Step) { step.ReleaseByConn? || step.Converge? || step.ScanDeadlines? || step.StopSweep? }

  lemma LateSweep(s: State, step: Step, o: nat)
    requires o in Do(s, step).b.ops && o in s.b.ops && Sweeps(step)
    ensures Do(s, step).b.ops[o] == s.b.ops[o] || Do(s, step).b.ops[o].state == Failed
  {
    hide Sweep;
    match step
    case ReleaseByConn(conn, order) => SweepLate(s, order, ConnGone(conn), o);
    case Converge(e, order) => SweepLate(s, order, Superseded(e), o);
    case ScanDeadlines(at, order) => SweepLate(s, order, Expired(at), o);
    case StopSweep(order) => SweepLate(s, order, Shutdown, o);
  }

  lemma OvertakenStays(op: Op, op': Op, boundary: nat, boundary': nat, now: int, now': int)
    requires Moves(op, op') && boundary <= boundary' && now <= now' && Overtaken(op', boundary, now).Some?
    ensures Overtaken(op, boundary', now').Some? && Overtaken(op, boundary, now).Some?
  {
  }

  /** Once Safety has moved the boundary past an operation's motion epoch, or its deadline has passed,
      no Provider report can bring it into RUNNING, SUCCEEDED or CANCELLED any more, whether or not the
      background convergence has run: if it is in such a state later, it already was. */
  lemma {:induction false} LateReportsLose(steps: seq<Step>, m: nat, n: nat, id: nat)
    requires m <= n <= |steps| && id in StateAt(steps, n).b.ops
    requires Overtaken(StateAt(steps, n).b.ops[id], StateAt(steps, m).boundary, StateAt(steps, m).now).Some?
    requires Progressed(StateAt(steps, n).b.ops[id].state)
    ensures id in StateAt(steps, m).b.ops && StateAt(steps, m).b.ops[id] == StateAt(steps, n).b.ops[id]
  {
    hide Inv, Do, Overtaken, IdsOk, BookOk, StopOk;
    if m < n {
      AtNext(steps, n - 1);
      var s, s' := StateAt(steps, n - 1), StateAt(steps, n);
      Clocks(steps, m, n - 1);
      FreshGives(s, id);
      Parts(s);
      OvertakenStays(s.b.ops[id], s'.b.ops[id], StateAt(steps, m).boundary, s.boundary, StateAt(steps, m).now, s.now);
      LateStep(s, steps[n - 1], id);
      LateReportsLose(steps, m, n - 1, id);
    }
  }

  // What is newly inserted is PENDING.
  lemma FreshGives(s: State, id: nat)
    requires Inv(s)
    ensures id in s.waiting ==> s.waiting[id].state == Pending
  {
    hide BookOk;
  }

  lemma {:induction false} Clocks(steps: seq<Step>, m: nat, n: nat)
    requires m <= n <= |steps|
    ensures StateAt(steps, m).boundary <= StateAt(steps, n).boundary && StateAt(steps, m).now <= StateAt(steps, n).now
  {
    hide Inv, Do;
    if m < n {
      Clocks(steps, m, n - 1);
      AtNext(steps, n - 1);
    }
  }

  /** One pass of the background convergence leaves no motion operation below the boundary unfinished,
      and one deadline scan no operation past its deadline. */
  lemma ConvergenceCompletes(s: State, epoch: nat, at: int, order: seq<nat>)
    requires Covers(order, s.b.ops.Keys) && 0 < epoch <= s.boundary && at <= s.now
    ensures var ops := Do(s, Converge(epoch, order)).b.ops;
            forall id :: id in ops && ops[id].lease != 0 && ops[id].epoch < epoch ==> Terminal(ops[id].state)
    ensures var ops := Do(s, ScanDeadlines(at, order)).b.ops;
            forall id :: id in ops && at > ops[id].deadline ==> Terminal(ops[id].state)
  {
    hide Sweep, Covers;
    SweepDone(s, order, Superseded(epoch));
    SweepDone(s, order, Expired(at));
  }

  // ------------------------------------------------------------------ one outcome

  /** A terminal outcome is written once: while the operation is still kept it never changes, and its
      id is never given to another operation. */
  lemma {:induction false} OutcomeIsFinal(steps: seq<Step>, m: nat, n: nat, id: nat)
    requires m <= n <= |steps| && id in StateAt(steps, m).b.ops && Terminal(StateAt(steps, m).b.ops[id].state)
    ensures id in StateAt(steps, n).b.ops ==> StateAt(steps, n).b.ops[id] == StateAt(steps, m).b.ops[id]
    ensures id <= StateAt(steps, n).nextID && id !in StateAt(steps, n).waiting
  {
    hide Inv, Do;
    if m == n {
      RunInv(steps[..n]);
      KnownId(StateAt(steps, n), id);
    } else {
      OutcomeIsFinal(steps, m, n - 1, id);
      AtNext(steps, n - 1);
    }
  }

  lemma KnownId(s: State, id: nat)
    requires Inv(s) && id in s.b.ops
    ensures id <= s.nextID && id !in s.waiting
  {
    hide BookOk;
  }

  /** Status and payload match the state in every reachable state, and each change of state is one the
      table allows: CANCELLED is reached from CANCEL_REQUESTED only. */
  lemma OutcomeIsConsistent(steps: seq<Step>, n: nat, id: nat)
    requires n < |steps| && id in StateAt(steps, n + 1).b.ops
    ensures OpOk(StateAt(steps, n + 1).b.ops[id])
    ensures var (s, op) := (StateAt(steps, n), StateAt(steps, n + 1).b.ops[id]);
            && (id !in s.b.ops ==> op.state == Pending)
            && (id in s.b.ops && op != s.b.ops[id] ==> CanTransition(s.b.ops[id].state, op.state))
            && (id in s.b.ops && op.state == Cancelled ==> s.b.ops[id].state == Cancelled || s.b.ops[id].state == CancelRequested)
  {
    hide Do, ChansOk, SubsLive, SubsOpen, SubsApart, LogOk, StateAt;
    AtNext(steps, n);
  }

  /** After Stop no operation is unfinished, then or ever. */
  lemma {:induction false} StoppedIsFinal(steps: seq<Step>, m: nat, n: nat)
    requires m <= n <= |steps| && StateAt(steps, m).stopped
    ensures StateAt(steps, n).stopped && forall id :: id in StateAt(steps, n).b.ops ==> Terminal(StateAt(steps, n).b.ops[id].state)
  {
    hide Do, BookOk, IdsOk;
    RunInv(steps[..n]);
    if m < n {
      StoppedIsFinal(steps, m, n - 1);
      AtNext(steps, n - 1);
      StoppedStep(StateAt(steps, n - 1), steps[n - 1]);
    }
  }

  lemma StoppedStep(s: State, step: Step)
    requires s.stopped
    ensures Do(s, step).stopped
  {
    hide AcceptOn, ReportOn, CancelOn, SubscribeOn, UnsubscribeOn, ProgressOn, ReapOn, SweepOn, ValidateCreate, Covers;
  }

  // ------------------------------------------------------------------ subscriptions and events

  /** Subscriptions exist only for unfinished operations and hold only open channels, each once; every
      channel ever handed out is open and listed, or closed exactly once and never sent to again. */
  lemma SubscriptionsAreLive(steps: seq<Step>, n: nat)
    requires n <= |steps|
    ensures var b := StateAt(steps, n).b;
            && (forall id :: id in b.subs ==> id in b.ops && !Terminal(b.ops[id].state) && b.subs[id] != [])
            && (forall id, i :: id in b.subs && 0 <= i < |b.subs[id]| ==> b.subs[id][i] in b.chans && Open(b.chans[b.subs[id][i]]))
            && (forall c :: c in b.chans ==>
                  b.chans[c].late == 0 && |b.chans[c].queue| <= SUB_BUFFER &&
                  (if Open(b.chans[c]) then exists id :: id in b.subs && c in b.subs[id] else b.chans[c].closings == 1))
  {
    hide OpsOk, SubsApart, LogOk, IdsOk, StopOk;
    RunInv(steps[..n]);
  }

  /** The observer sees at most one terminal event of an operation, and nothing of it afterwards. */
  lemma TerminalEventIsLast(steps: seq<Step>, n: nat, i: nat, j: nat)
    requires n <= |steps| && i < j < |StateAt(steps, n).b.observed|
    requires StateAt(steps, n).b.observed[i].0 == StateAt(steps, n).b.observed[j].0
    ensures !Last(StateAt(steps, n).b.observed[i].1)
  {
    hide OpsOk, ChansOk, SubsLive, SubsOpen, SubsApart, IdsOk, StopOk;
    RunInv(steps[..n]);
  }

  /** A motion operation is only ever created with a validated lease over its single resource, and
      every deadline lies in the future but within the horizon. */
  lemma CreationChecks(resources: seq<string>, known: set<string>, lease: nat, validator: Option<bool>, deadline: int, now: int)
    ensures ValidateCreate(resources, known, lease, validator, deadline, now) == OK <==>
              && resources != [] && (forall i :: 0 <= i < |resources| ==> resources[i] != "" && resources[i] in known)
              && now < deadline <= now + MAX_DEADLINE_HORIZON
              && (lease != 0 ==> |resources| == 1 && validator == Some(true))
  {
    FirstBadIs(resources, known);
  }

  /** What a refused creation is told: FAILED_PRECONDITION for an unknown resource or an unvalidated lease,
      INVALID_ARGUMENT for everything else, the first fault deciding. */
  lemma CreationFaults(resources: seq<string>, known: set<string>, lease: nat, validator: Option<bool>, deadline: int, now: int)
    ensures var code := ValidateCreate(resources, known, lease, validator, deadline, now);
            && (resources == [] ==> code == InvalidArgument)
            && (forall k :: 0 <= k < |resources| && (resources[k] == "" || resources[k] !in known) &&
                            (forall i :: 0 <= i < k ==> resources[i] != "" && resources[i] in known) ==>
                  code == if resources[k] == "" then InvalidArgument else FailedPrecondition)
            && (resources != [] && (forall i :: 0 <= i < |resources| ==> resources[i] != "" && resources[i] in known) ==>
                  code == if (lease != 0 && |resources| > 1) || deadline <= now || now + MAX_DEADLINE_HORIZON < deadline then InvalidArgument
                          else if lease != 0 && validator != Some(true) then FailedPrecondition else OK)
  {
    FirstBadIs(resources, known);
  }

  lemma {:induction false} FirstBadIs(resources: seq<string>, known: set<string>)
    ensures var k := FirstBad(resources, known); k < |resources| ==> resources[k] == "" || resources[k] !in known
  {
    if resources != [] && resources[0] != "" && resources[0] in known { FirstBadIs(resources[1..], known); }
  }
}
