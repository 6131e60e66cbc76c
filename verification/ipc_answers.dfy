/** What the peers of a dispatched request get to see: which response with which code, which cancellation,
    which Dispatch - over every interleaving, in terms of the events and the envelopes themselves. */
module IpcAnswers {
  import opened Wrappers
  import opened IpcTypes
  import opened Outbox
  import opened Requests
  import opened Routes
  import opened IpcRuns
  import opened IpcInvariant
  import opened IpcProof
  import opened IpcGuarantees

  // ------------------------------------------------------------------ streams

  /** Everything a connection's queue has ever accepted. */
  function Stream(s: State, c: Conn): seq<Envelope> { BoxOf(s.boxes, c).accepted }

  predicate Shut(s: State, c: Conn) { BoxOf(s.boxes, c).closed }

  /** The envelope is appended to the stream - or the queue is full or closed, and closed it stays. */
  ghost predicate Offered(s: State, s': State, c: Conn, env: Envelope) {
    if !Shut(s, c) && BoxOf(s.boxes, c).bytes + env.size <= MAX_OUTBOUND_QUEUE_BYTES
    then Stream(s', c) == Stream(s, c) + [env] && !Shut(s', c)
    else Stream(s', c) == Stream(s, c) && Shut(s', c)
  }

  predicate Owes(s: State, i: nat, act: Act) {
    i < |s.insts| && s.insts[i].phase.Ending? && s.insts[i].phase.acts != [] && s.insts[i].phase.acts[0] == act
  }

  /** What may enter a stream: a Response only when the instance that owes it performs it, and likewise for
      cancellations and Dispatches. */
  ghost predicate Enters(s: State, step: Step, c: Conn, env: Envelope) {
    match env.body
    case Response(r, code) => step.Perform? && Owes(s, step.i, Respond(code)) && s.insts[step.i].source == c && s.insts[step.i].request == r
    case CancelDispatch(id) => step.Perform? && Owes(s, step.i, Cancel(id, c))
    case Dispatch(_, _) => step.PublishRoute? && At(s, step.i) && s.insts[step.i].phase.Held? && s.insts[step.i].phase.target == c
    case OtherBody(tag) => step == Queued(c, tag, env.size)
  }

  ghost predicate StreamMoves(s: State, s': State, step: Step, c: Conn) {
    && (Shut(s, c) ==> Shut(s', c) && Stream(s', c) == Stream(s, c))
    && (Stream(s', c) == Stream(s, c) || exists env :: Stream(s', c) == Stream(s, c) + [env] && Enters(s, step, c, env))
  }

  lemma EnqueueIs(boxes: map<Conn, Queue>, c: Conn, env: Envelope)
    ensures var (q, q') := (BoxOf(boxes, c), BoxOf(Enqueue(boxes, c, env), c));
            if !q.closed && q.bytes + env.size <= MAX_OUTBOUND_QUEUE_BYTES then q'.accepted == q.accepted + [env] && !q'.closed
            else q'.accepted == q.accepted && q'.closed
    ensures forall o :: o != c ==> BoxOf(Enqueue(boxes, c, env), o) == BoxOf(boxes, o)
  {
  }

  lemma OneEnters(s: State, s': State, step: Step, c: Conn, env: Envelope)
    requires Offered(s, s', c, env) && Enters(s, step, c, env)
    ensures StreamMoves(s, s', step, c)
  {
    hide Enters;
  }

  lemma PerformStep(s: State, i: nat, size: nat)
    requires i < |s.insts| && s.insts[i].phase.Ending? && s.insts[i].phase.acts != []
    ensures var (s', x) := (ActGo(s, i, size), s.insts[i]);
            match x.phase.acts[0]
            case Release => forall c :: BoxOf(s'.boxes, c) == BoxOf(s.boxes, c)
            case Respond(code) =>
              && Offered(s, s', x.source, Envelope(Response(x.request, code), size))
              && forall c :: c != x.source ==> BoxOf(s'.boxes, c) == BoxOf(s.boxes, c)
            case Cancel(id, target) =>
              && Offered(s, s', target, Envelope(CancelDispatch(id), size))
              && forall c :: c != target ==> BoxOf(s'.boxes, c) == BoxOf(s.boxes, c)
    ensures ActGo(s, i, size).insts == s.insts[i := ActGo(s, i, size).insts[i]]
    ensures ActGo(s, i, size).insts[i].phase == Ending(s.insts[i].phase.acts[1..])
    ensures ActGo(s, i, size).insts[i].responses == s.insts[i].responses + One(s.insts[i].phase.acts[0].Respond?)
  {
    hide Enqueue, ReleaseOn;
    var x := s.insts[i];
    match x.phase.acts[0]
    case Release =>
    case Respond(code) =>
      EnqueueIs(s.boxes, x.source, Envelope(Response(x.request, code), size));
    case Cancel(id, target) =>
      EnqueueIs(s.boxes, target, Envelope(CancelDispatch(id), size));
  }

  lemma PublishStream(s: State, i: nat, d: int, l: nat, n: nat, c: Conn)
    requires i < |s.insts| && s.insts[i].phase.Held?
    ensures StreamMoves(s, PublishGo(s, i, d, l, n), PublishRoute(i, d, l, n), c)
  {
    var call := CallOf(s.insts[i], d, l, n);
    assert Enters(s, PublishRoute(i, d, l, n), call.target, EnvelopeOf(s.t, call));
  }

  lemma StreamStep(s: State, step: Step, c: Conn)
    ensures StreamMoves(s, Do(s, step), step, c)
  {
    hide PublishGo, ActGo, Enqueue, ReserveOn, EndInst, RemoveOn, Enters;
    match step
    case PublishRoute(i, d, l, n) => if At(s, i) && s.insts[i].phase.Held? { PublishStream(s, i, d, l, n, c); }
    case Perform(i, size) =>
      if At(s, i) && s.insts[i].phase.Ending? && s.insts[i].phase.acts != [] {
        PerformStep(s, i, size);
        PerformEnters(s, i, size, c);
      }
    case Queued(o, tag, size) =>
      EnqueueIs(s.boxes, o, Envelope(OtherBody(tag), size));
      OtherEnters(s, o, tag, size);
    case _ =>
  }

  lemma PerformEnters(s: State, i: nat, size: nat, c: Conn)
    requires i < |s.insts| && s.insts[i].phase.Ending? && s.insts[i].phase.acts != []
    ensures StreamMoves(s, ActGo(s, i, size), Perform(i, size), c)
  {
    hide ActGo;
    PerformStep(s, i, size);
    var x := s.insts[i];
    match x.phase.acts[0]
    case Release =>
    case Respond(code) => if c == x.source { OneEnters(s, ActGo(s, i, size), Perform(i, size), c, Envelope(Response(x.request, code), size)); }
    case Cancel(id, target) => if c == target { OneEnters(s, ActGo(s, i, size), Perform(i, size), c, Envelope(CancelDispatch(id), size)); }
  }

  lemma OtherEnters(s: State, c: Conn, tag: nat, size: nat)
    ensures Enters(s, Queued(c, tag, size), c, Envelope(OtherBody(tag), size))
  {
  }

  /** Streams only grow, and a closed one not at all. */
  lemma {:induction false} StreamGrows(steps: seq<Step>, m: nat, n: nat, c: Conn)
    requires m <= n <= |steps|
    ensures Stream(StateAt(steps, m), c) <= Stream(StateAt(steps, n), c)
    ensures Shut(StateAt(steps, m), c) ==> Shut(StateAt(steps, n), c) && Stream(StateAt(steps, n), c) == Stream(StateAt(steps, m), c)
  {
    hide Do, Enters;
    if m < n {
      StreamGrows(steps, m, n - 1, c);
      AtNext(steps, n - 1);
      StreamStep(StateAt(steps, n - 1), steps[n - 1], c);
    }
  }

  // ------------------------------------------------------------------ the event that ends a request

  /** Which routes an event takes out of the table, with which code for the source and whether the Provider is
      sent a cancellation. */
  predicate RouteEnds(cause: Cause, e: Entry, code: Option<Code>, gone: Option<Entry>) {
    match cause
    case Revoked(OfEndpoint(provider, endpoint, registration)) =>
      && e.target == provider && e.route.endpoint == endpoint && (registration == 0 || e.route.registration == registration)
      && code == Some(Unavailable) && gone == Some(e)
    case Revoked(OfPackage(package)) =>
      (e.source.package == package || e.target.package == package) && code == Some(Unavailable) && gone == Some(e)
    case Revoked(OfPermission(package, permission)) =>
      e.source.package == package && permission in e.route.permissions && code == Some(PermissionDenied) && gone == Some(e)
    case Revoked(OfResource(resource, generation)) =>
      e.route.resource == resource && e.route.generation == generation && code == Some(FailedPrecondition) && gone == Some(e)
    case Revoked(OfControl(caller, resource)) =>
      e.source.id == caller && e.route.resource == resource && e.route.needsControl && code == Some(FailedPrecondition) && gone == Some(e)
    case Reaped(now) => e.deadline < now && code == Some(DeadlineExceeded) && gone == Some(e)
    case ConnClosed(c) =>
      if e.target == c then code == Some(Unavailable) && gone.None? else e.source == c && code.None? && gone == Some(e)
    case Completed(id, provider, now, given) =>
      e.id == id && e.target == provider && gone.None? && code == Some(if e.deadline <= now then DeadlineExceeded else given)
  }

  /** The event at which instance i stops being served, the code its source is due and the route to cancel. */
  ghost predicate EndsWith(s: State, step: Step, i: nat, code: Option<Code>, gone: Option<Entry>)
    requires i < |s.insts|
  {
    var x := s.insts[i];
    match step
    case Refuse(j, c) => j == i && code == Some(c) && gone.None?
    case Abort(j, c) => j == i && code == Some(c) && gone.None?
    case Builtin(j, c) => j == i && code == Some(c) && gone.None?
    case Reserve(j) =>
      j == i && gone.None? && code == Some(if x.request in TrackerOf(s.trackers, x.source).requests then InvalidArgument else ResourceExhausted)
    case PublishRoute(j, _, lease, _) =>
      && j == i && gone.None? && x.phase.Held?
      && code == Some(if s.t.epoch == x.phase.e && lease != 0 && s.t.nextSequence == MAX_UINT64 then Internal else Unavailable)
    case EndRoutes(cause) => x.phase.Live? && x.phase.id in s.t.entries && RouteEnds(cause, s.t.entries[x.phase.id], code, gone)
    case _ => false
  }

  ghost predicate OwesExactly(acts: seq<Act>, code: Option<Code>, gone: Option<Entry>) {
    && (forall c :: Respond(c) in acts <==> code == Some(c))
    && (forall id, t :: Cancel(id, t) in acts <==> gone.Some? && gone.value.id == id && gone.value.target == t)
  }

  lemma CauseEnds(cause: Cause, e: Entry) returns (code: Option<Code>, gone: Option<Entry>)
    requires Ends(cause, e)
    ensures RouteEnds(cause, e, code, gone) && OwesExactly(ActsFor(cause, e), code, gone)
    ensures code.None? <==> Silences(cause, e)
  {
    match cause
    case Revoked(OfPermission(_, _)) => code, gone := Some(PermissionDenied), Some(e);
    case Revoked(OfResource(_, _)) => code, gone := Some(FailedPrecondition), Some(e);
    case Revoked(OfControl(_, _)) => code, gone := Some(FailedPrecondition), Some(e);
    case Revoked(_) => code, gone := Some(Unavailable), Some(e);
    case Reaped(_) => code, gone := Some(DeadlineExceeded), Some(e);
    case ConnClosed(c) => if e.target == c { code, gone := Some(Unavailable), None; } else { code, gone := None, Some(e); }
    case Completed(_, _, now, given) => code, gone := Some(if e.deadline <= now then DeadlineExceeded else given), None;
  }

  lemma CauseSpares(cause: Cause, e: Entry)
    requires !Ends(cause, e)
    ensures forall code, gone :: !RouteEnds(cause, e, code, gone)
  {
  }

  /** A pass over the table ends exactly the routes its cause names: a live request is ended if and only if its
      entry is one of them, and otherwise nothing about it or its entry changes. */
  lemma PassIsExact(steps: seq<Step>, n: nat, i: nat)
    requires n < |steps| && steps[n].EndRoutes? && i < |StateAt(steps, n).insts| && StateAt(steps, n).insts[i].phase.Live?
    ensures var (s, s') := (StateAt(steps, n), StateAt(steps, n + 1));
            var id := s.insts[i].phase.id;
            && id in s.t.entries && i < |s'.insts|
            && (s'.insts[i].phase.Ending? <==> exists code, gone :: RouteEnds(steps[n].cause, s.t.entries[id], code, gone))
            && (!s'.insts[i].phase.Ending? ==> s'.insts[i] == s.insts[i] && id in s'.t.entries && s'.t.entries[id] == s.t.entries[id])
            && (s'.insts[i].phase.Ending? ==> id !in s'.t.entries)
  {
    hide Inv, Ends, ActsFor, Silences, RouteEnds;
    var s := StateAt(steps, n);
    AtNext(steps, n);
    RunInv(steps[..n]);
    Parts(s);
    LiveEntry(s, i);
    EndAt(s, steps[n].cause, i);
    var e := s.t.entries[s.insts[i].phase.id];
    if Ends(steps[n].cause, e) { var code, gone := CauseEnds(steps[n].cause, e); } else { CauseSpares(steps[n].cause, e); }
  }

  lemma LiveEntry(s: State, i: nat)
    requires Owned(s.t.entries, s.insts, s.owner) && i < |s.insts| && s.insts[i].phase.Live?
    ensures s.insts[i].phase.id in s.t.entries
  {
  }

  lemma EndAt(s: State, cause: Cause, i: nat)
    requires i < |s.insts| && s.insts[i].phase.Live? && s.insts[i].phase.id in s.t.entries
    ensures var (s', x) := (Do(s, EndRoutes(cause)), s.insts[i]);
            var (id, e) := (x.phase.id, s.t.entries[x.phase.id]);
            && i < |s'.insts|
            && (if Ends(cause, e) then s'.insts[i] == x.(phase := Ending(ActsFor(cause, e)), silent := Silences(cause, e)) && id !in s'.t.entries
                else s'.insts[i] == x && id in s'.t.entries && s'.t.entries[id] == e)
  {
    hide Ends, ActsFor, Silences;
  }

  lemma EndingIs(s: State, step: Step, i: nat) returns (code: Option<Code>, gone: Option<Entry>)
    requires Inv(s) && i < |s.insts| && !s.insts[i].phase.Ending?
    requires i < |Do(s, step).insts| && Do(s, step).insts[i].phase.Ending?
    ensures EndsWith(s, step, i, code, gone) && OwesExactly(Do(s, step).insts[i].phase.acts, code, gone)
    ensures Do(s, step).insts[i].responses == s.insts[i].responses
  {
    hide Inv, Ends, ActsFor, Silences, RouteEnds, PushOn, ActGo, End;
    if step.EndRoutes? {
      Parts(s);
      NotLiveStays(s, step.cause, i);
      LiveEntry(s, i);
      EndAt(s, step.cause, i);
      code, gone := CauseEnds(step.cause, s.t.entries[s.insts[i].phase.id]);
    } else {
      EarlyEnds(s, step, i);
      gone := None;
      var x := s.insts[i];
      match step
      case Refuse(_, c) => code := Some(c);
      case Abort(_, c) => code := Some(c);
      case Builtin(_, c) => code := Some(c);
      case Reserve(_) => code := Some(if x.request in TrackerOf(s.trackers, x.source).requests then InvalidArgument else ResourceExhausted);
      case PublishRoute(_, _, lease, _) =>
        code := Some(if s.t.epoch == x.phase.e && lease != 0 && s.t.nextSequence == MAX_UINT64 then Internal else Unavailable);
    }
  }

  lemma NotLiveStays(s: State, cause: Cause, i: nat)
    requires i < |s.insts|
    ensures i < |Do(s, EndRoutes(cause)).insts| && (!s.insts[i].phase.Live? ==> Do(s, EndRoutes(cause)).insts[i] == s.insts[i])
  {
    hide ActsFor, Silences, Ends;
  }

  // What an instance without a route owes when it ends.
  ghost predicate EarlyActs(s: State, step: Step, i: nat, acts: seq<Act>)
    requires i < |s.insts|
  {
    var x := s.insts[i];
    match step
    case Refuse(j, c) => j == i && acts == [Respond(c)]
    case Abort(j, c) => j == i && acts == [Release, Respond(c)]
    case Builtin(j, c) => j == i && acts == [Respond(c), Release]
    case Reserve(j) =>
      j == i && acts == [Respond(if x.request in TrackerOf(s.trackers, x.source).requests then InvalidArgument else ResourceExhausted)]
    case PublishRoute(j, _, lease, _) =>
      && j == i && x.phase.Held?
      && acts == [Release, Respond(if s.t.epoch == x.phase.e && lease != 0 && s.t.nextSequence == MAX_UINT64 then Internal else Unavailable)]
    case _ => false
  }

  lemma PublishEnds(s: State, i: nat, d: int, l: nat, n: nat)
    requires i < |s.insts| && s.insts[i].phase.Held? && PublishGo(s, i, d, l, n).insts[i].phase.Ending?
    ensures EarlyActs(s, PublishRoute(i, d, l, n), i, PublishGo(s, i, d, l, n).insts[i].phase.acts)
    ensures PublishGo(s, i, d, l, n).insts[i].responses == s.insts[i].responses
  {
    hide PushOn;
  }

  lemma ReserveEnds(s: State, i: nat)
    requires i < |s.insts| && s.insts[i].phase.Resolved? && ReserveGo(s, i).insts[i].phase.Ending?
    ensures EarlyActs(s, Reserve(i), i, ReserveGo(s, i).insts[i].phase.acts)
    ensures ReserveGo(s, i).insts[i].responses == s.insts[i].responses
  {
  }

  // A step about another instance, or about none, leaves this one alone.
  lemma OthersStay(s: State, step: Step, i: nat)
    requires !step.EndRoutes? && i < |s.insts|
    requires step.Arrive? || step.Queued? || step.WriterPops? || step.CloseBox? || step.i != i
    ensures i < |Do(s, step).insts| && Do(s, step).insts[i] == s.insts[i]
  {
    hide Enqueue, PopOn, Do;
    if step.Arrive? || step.Queued? || step.WriterPops? || step.CloseBox? { AddsOnly(s, step); }
    else if At(s, step.i) { StepAt(s, step); }
    else { OffSkips(s, step); }
  }

  lemma AddsOnly(s: State, step: Step)
    requires step.Arrive? || step.Queued? || step.WriterPops? || step.CloseBox?
    ensures s.insts <= Do(s, step).insts
  {
    hide Enqueue, PopOn;
  }

  lemma OffSkips(s: State, step: Step)
    requires !step.EndRoutes? && !step.Arrive? && !step.Queued? && !step.WriterPops? && !step.CloseBox? && !At(s, step.i)
    ensures Do(s, step) == s
  {
    hide ActGo, PublishGo, ReserveGo, Enqueue, End;
  }

  lemma EarlyEnds(s: State, step: Step, i: nat)
    requires !step.EndRoutes? && i < |s.insts| && !s.insts[i].phase.Ending?
    requires i < |Do(s, step).insts| && Do(s, step).insts[i].phase.Ending?
    ensures EarlyActs(s, step, i, Do(s, step).insts[i].phase.acts) && Do(s, step).insts[i].responses == s.insts[i].responses
  {
    hide PublishGo, ReserveGo, ActGo, End, Enqueue, PopOn;
    if step.Arrive? || step.Queued? || step.WriterPops? || step.CloseBox? || step.i != i { OthersStay(s, step, i); } else {
      match step
      case Reserve(_) => if s.insts[i].phase.Resolved? { ReserveEnds(s, i); }
      case PublishRoute(_, d, l, n) => if s.insts[i].phase.Held? { PublishEnds(s, i, d, l, n); }
      case _ =>
    }
  }

  // ------------------------------------------------------------------ the response gets there

  /** At j instance i performs what it owes: the envelope is offered to c, and what c has accepted stays. */
  ghost predicate Performed(steps: seq<Step>, j: nat, n: nat, i: nat, act: Act, c: Conn, body: Body)
    requires j < n <= |steps|
  {
    && steps[j].Perform? && steps[j].i == i && Owes(StateAt(steps, j), i, act)
    && Offered(StateAt(steps, j), StateAt(steps, j + 1), c, Envelope(body, steps[j].size))
    && Stream(StateAt(steps, j + 1), c) <= Stream(StateAt(steps, n), c)
    && (Shut(StateAt(steps, j + 1), c) ==> Shut(StateAt(steps, n), c))
  }

  ghost predicate Over(s: State, i: nat) { i < |s.insts| && s.insts[i].phase.Ending? }

  lemma EndKeepsEnded(s: State, cause: Cause, i: nat)
    requires Over(s, i)
    ensures var s' := Do(s, EndRoutes(cause)); i < |s'.insts| && s'.insts[i] == s.insts[i]
  {
    hide ActsFor, Silences, Ends;
  }

  lemma ActStep(s: State, step: Step, i: nat)
    requires Over(s, i)
    ensures Over(Do(s, step), i) && Do(s, step).insts[i].source == s.insts[i].source && Do(s, step).insts[i].request == s.insts[i].request
    ensures var (x, y) := (s.insts[i], Do(s, step).insts[i]);
            if step.Perform? && step.i == i && x.phase.acts != []
            then Do(s, step) == ActGo(s, i, step.size) && y.phase.acts == x.phase.acts[1..] && y.responses == x.responses + One(x.phase.acts[0].Respond?)
            else y.phase == x.phase && y.responses == x.responses
  {
    hide PublishGo, ReserveGo, ActGo, End, Enqueue, PopOn;
    if step.EndRoutes? { EndKeepsEnded(s, step.cause, i); }
    else if step.Arrive? || step.Queued? || step.WriterPops? || step.CloseBox? || step.i != i { OthersStay(s, step, i); }
    else if step.Perform? && s.insts[i].phase.acts != [] { PerformStep(s, i, step.size); ActPeer(s, i, step.size); }
  }

  lemma ActPeer(s: State, i: nat, size: nat)
    requires Over(s, i) && s.insts[i].phase.acts != []
    ensures ActGo(s, i, size).insts[i].source == s.insts[i].source && ActGo(s, i, size).insts[i].request == s.insts[i].request
  {
    hide Enqueue, ReleaseOn;
  }

  datatype Fate = Fate(ended: nat, code: Option<Code>, gone: Option<Entry>, answered: nat, cancelled: nat)

  /** How a request instance that is no longer served came to its end, and what has become of its duties. */
  ghost predicate FateOf(steps: seq<Step>, n: nat, i: nat, f: Fate)
    requires n <= |steps|
  {
    && Over(StateAt(steps, n), i) && f.ended < n && i < |StateAt(steps, f.ended).insts|
    && EndsWith(StateAt(steps, f.ended), steps[f.ended], i, f.code, f.gone)
    && var x := StateAt(steps, n).insts[i];
       && (forall c :: Respond(c) in x.phase.acts ==> f.code == Some(c))
       && (forall id, t :: Cancel(id, t) in x.phase.acts ==> f.gone.Some? && f.gone.value.id == id && f.gone.value.target == t)
       && (f.code.Some? && Respond(f.code.value) !in x.phase.acts ==>
             f.ended < f.answered < n &&
             Performed(steps, f.answered, n, i, Respond(f.code.value), x.source, Response(x.request, f.code.value)))
       && (f.gone.Some? && Cancel(f.gone.value.id, f.gone.value.target) !in x.phase.acts ==>
             f.ended < f.cancelled < n &&
             Performed(steps, f.cancelled, n, i, Cancel(f.gone.value.id, f.gone.value.target), f.gone.value.target, CancelDispatch(f.gone.value.id)))
  }

  lemma PerformedStays(steps: seq<Step>, j: nat, n: nat, i: nat, act: Act, c: Conn, body: Body)
    requires j < n < |steps| && Performed(steps, j, n, i, act, c, body)
    ensures Performed(steps, j, n + 1, i, act, c, body)
  {
    hide Offered, Owes, Do;
    StreamGrows(steps, n, n + 1, c);
  }

  lemma PerformsNow(steps: seq<Step>, n: nat, i: nat, act: Act)
    requires n < |steps| && Over(StateAt(steps, n), i) && Owes(StateAt(steps, n), i, act) && !act.Release?
    requires steps[n].Perform? && steps[n].i == i
    ensures act.Respond? ==>
              var x := StateAt(steps, n).insts[i]; Performed(steps, n, n + 1, i, act, x.source, Response(x.request, act.code))
    ensures act.Cancel? ==> Performed(steps, n, n + 1, i, act, act.target, CancelDispatch(act.route))
  {
    hide Offered;
    AtNext(steps, n);
    ActStep(StateAt(steps, n), steps[n], i);
    PerformStep(StateAt(steps, n), i, steps[n].size);
  }

  lemma {:induction false} FateRun(steps: seq<Step>, n: nat, i: nat) returns (f: Fate)
    requires n <= |steps| && Over(StateAt(steps, n), i)
    ensures FateOf(steps, n, i, f)
  {
    hide Do, Inv, EndsWith, Performed, Owes;
    assert steps[..0] == [];
    var p := n - 1;
    var s := StateAt(steps, p);
    AtNext(steps, p);
    RunInv(steps[..p]);
    if Over(s, i) {
      f := FateRun(steps, p, i);
      ActStep(s, steps[p], i);
      FateNext(steps, p, i, f);
      f := FateMoved(steps, p, i, f);
    } else {
      NewInst(s, steps[p], i);
      var code, gone := EndingIs(s, steps[p], i);
      f := Fate(p, code, gone, 0, 0);
    }
  }

  // An instance arrives before it ends.
  lemma NewInst(s: State, step: Step, i: nat)
    requires !Over(s, i) && Over(Do(s, step), i)
    ensures i < |s.insts|
  {
    hide PushOn, Enqueue, ReserveOn, ReleaseOn, PublishOn, EndInst;
  }

  function Moved(steps: seq<Step>, p: nat, i: nat, f: Fate): Fate
    requires p < |steps| && Over(StateAt(steps, p), i)
  {
    var acts := StateAt(steps, p).insts[i].phase.acts;
    if steps[p].Perform? && steps[p].i == i && acts != [] then
      f.(answered := if acts[0].Respond? then p else f.answered, cancelled := if acts[0].Cancel? then p else f.cancelled)
    else f
  }

  lemma FateNext(steps: seq<Step>, p: nat, i: nat, f: Fate)
    requires p < |steps| && FateOf(steps, p, i, f)
    ensures f.code.Some? && Respond(f.code.value) !in StateAt(steps, p).insts[i].phase.acts ==>
              Performed(steps, f.answered, p + 1, i, Respond(f.code.value), StateAt(steps, p).insts[i].source,
                        Response(StateAt(steps, p).insts[i].request, f.code.value))
    ensures f.gone.Some? && Cancel(f.gone.value.id, f.gone.value.target) !in StateAt(steps, p).insts[i].phase.acts ==>
              Performed(steps, f.cancelled, p + 1, i, Cancel(f.gone.value.id, f.gone.value.target), f.gone.value.target,
                        CancelDispatch(f.gone.value.id))
  {
    hide Performed, EndsWith, Do;
    var x := StateAt(steps, p).insts[i];
    if f.code.Some? && Respond(f.code.value) !in x.phase.acts {
      PerformedStays(steps, f.answered, p, i, Respond(f.code.value), x.source, Response(x.request, f.code.value));
    }
    if f.gone.Some? && Cancel(f.gone.value.id, f.gone.value.target) !in x.phase.acts {
      PerformedStays(steps, f.cancelled, p, i, Cancel(f.gone.value.id, f.gone.value.target), f.gone.value.target, CancelDispatch(f.gone.value.id));
    }
  }

  lemma FateMoved(steps: seq<Step>, p: nat, i: nat, f: Fate) returns (h: Fate)
    requires p < |steps| && FateOf(steps, p, i, f)
    ensures FateOf(steps, p + 1, i, h)
  {
    hide Performed, EndsWith, Do;
    var s, x := StateAt(steps, p), StateAt(steps, p).insts[i];
    AtNext(steps, p);
    ActStep(s, steps[p], i);
    FateNext(steps, p, i, f);
    h := f;
    if steps[p].Perform? && steps[p].i == i && x.phase.acts != [] {
      assert x.phase.acts == [x.phase.acts[0]] + x.phase.acts[1..];
      if !x.phase.acts[0].Release? { PerformsNow(steps, p, i, x.phase.acts[0]); }
      if x.phase.acts[0].Respond? && Respond(f.code.value) !in x.phase.acts[1..] { h := h.(answered := p); }
      if x.phase.acts[0].Cancel? && Cancel(f.gone.value.id, f.gone.value.target) !in x.phase.acts[1..] { h := h.(cancelled := p); }
    }
  }

  /** When a request instance is finished: the event that ended it says which code its source is due, if any;
      exactly then its response - this request id, this code - was offered to the source's queue, and stands
      in the source's stream unless that queue refused it and is closed for good. Likewise the cancellation of
      its route with the Provider. */
  lemma SourceIsAnswered(steps: seq<Step>, n: nat, i: nat) returns (f: Fate)
    requires n <= |steps| && i < |StateAt(steps, n).insts| && StateAt(steps, n).insts[i].phase == Ending([])
    ensures f.ended < n && i < |StateAt(steps, f.ended).insts| && EndsWith(StateAt(steps, f.ended), steps[f.ended], i, f.code, f.gone)
    ensures f.code.Some? ==>
              var x := StateAt(steps, n).insts[i];
              && f.ended < f.answered < n && steps[f.answered].Perform?
              && Delivered(steps, f.answered, n, x.source, Envelope(Response(x.request, f.code.value), steps[f.answered].size))
    ensures f.gone.Some? ==>
              && f.ended < f.cancelled < n && steps[f.cancelled].Perform?
              && Delivered(steps, f.cancelled, n, f.gone.value.target, Envelope(CancelDispatch(f.gone.value.id), steps[f.cancelled].size))
  {
    hide Do, EndsWith, Offered, Owes;
    f := FateRun(steps, n, i);
    var x := StateAt(steps, n).insts[i];
    if f.code.Some? { IsDelivered(steps, f.answered, n, x.source, Envelope(Response(x.request, f.code.value), steps[f.answered].size)); }
    if f.gone.Some? {
      IsDelivered(steps, f.cancelled, n, f.gone.value.target, Envelope(CancelDispatch(f.gone.value.id), steps[f.cancelled].size));
    }
  }

  /** Offered at j; at n it stands where it was put, or the queue is closed. */
  ghost predicate Delivered(steps: seq<Step>, j: nat, n: nat, c: Conn, env: Envelope)
    requires j < n <= |steps|
  {
    var (at, now) := (|Stream(StateAt(steps, j), c)|, Stream(StateAt(steps, n), c));
    (at < |now| && now[at] == env && Stream(StateAt(steps, j + 1), c) == Stream(StateAt(steps, j), c) + [env]) ||
    (Shut(StateAt(steps, n), c) && Stream(StateAt(steps, j + 1), c) == Stream(StateAt(steps, j), c))
  }

  lemma IsDelivered(steps: seq<Step>, j: nat, n: nat, c: Conn, env: Envelope)
    requires j < n <= |steps| && Offered(StateAt(steps, j), StateAt(steps, j + 1), c, env)
    requires Stream(StateAt(steps, j + 1), c) <= Stream(StateAt(steps, n), c)
    requires Shut(StateAt(steps, j + 1), c) ==> Shut(StateAt(steps, n), c)
    ensures Delivered(steps, j, n, c, env)
  {
    hide StateAt;
  }

  // ------------------------------------------------------------------ nothing else is a response

  function Answers(a: seq<Envelope>, r: nat): nat {
    if a == [] then 0 else Answers(a[..|a| - 1], r) + One(a[|a| - 1].body.Response? && a[|a| - 1].body.request == r)
  }

  lemma AnswersNext(a: seq<Envelope>, env: Envelope, r: nat)
    ensures Answers(a + [env], r) == Answers(a, r) + One(env.body.Response? && env.body.request == r)
  {
    assert (a + [env])[..|a|] == a;
  }

  // This step offers c a response to request r ...
  predicate Replies(s: State, step: Step, c: Conn, r: nat) {
    && step.Perform? && step.i < |s.insts| && s.insts[step.i].source == c && s.insts[step.i].request == r
    && s.insts[step.i].phase.Ending? && s.insts[step.i].phase.acts != [] && s.insts[step.i].phase.acts[0].Respond?
  }

  // ... and its queue takes it.
  predicate Accepts(s: State, step: Step, c: Conn, r: nat) {
    Replies(s, step, c, r) && !Shut(s, c) && BoxOf(s.boxes, c).bytes + step.size <= MAX_OUTBOUND_QUEUE_BYTES
  }

  /** The request instances whose response connection c has accepted under request id r. */
  function AnsweredBy(steps: seq<Step>, n: nat, c: Conn, r: nat): set<nat>
    requires n <= |steps|
  {
    if n == 0 then {}
    else AnsweredBy(steps, n - 1, c, r) + if Accepts(StateAt(steps, n - 1), steps[n - 1], c, r) then {steps[n - 1].i} else {}
  }

  lemma ReplyStep(s: State, step: Step, c: Conn, r: nat)
    ensures Answers(Stream(Do(s, step), c), r) == Answers(Stream(s, c), r) + One(Accepts(s, step, c, r))
    ensures Replies(s, step, c, r) && !Accepts(s, step, c, r) ==> Shut(Do(s, step), c)
  {
    hide Do, Answers;
    StreamStep(s, step, c);
    if Replies(s, step, c, r) {
      PerformIs(s, step);
      PerformStep(s, step.i, step.size);
      AnswersNext(Stream(s, c), Envelope(Response(r, s.insts[step.i].phase.acts[0].code), step.size), r);
    } else if Stream(Do(s, step), c) != Stream(s, c) {
      var env :| Stream(Do(s, step), c) == Stream(s, c) + [env] && Enters(s, step, c, env);
      AnswersNext(Stream(s, c), env, r);
    }
  }

  lemma PerformIs(s: State, step: Step)
    requires step.Perform? && step.i < |s.insts| && s.insts[step.i].phase.Ending? && s.insts[step.i].phase.acts != []
    ensures Do(s, step) == ActGo(s, step.i, step.size)
  {
    hide ActGo;
  }

  ghost predicate Answered(x: Inst, c: Conn, r: nat) { x.source == c && x.request == r && x.responses == 1 }

  // How `responses` moves: only a reply raises it.
  lemma ReplyCounts(s: State, step: Step, i: nat)
    requires i < |Do(s, step).insts|
    ensures i >= |s.insts| ==> Do(s, step).insts[i].responses == 0
    ensures i < |s.insts| ==>
              var (x, y) := (s.insts[i], Do(s, step).insts[i]);
              && y.source == x.source && y.request == x.request
              && y.responses == x.responses + One(step.Perform? && step.i == i && Replies(s, step, x.source, x.request))
  {
    hide PublishGo, ReserveGo, ActGo, End, Enqueue, PopOn;
    if i < |s.insts| {
      if step.EndRoutes? { EndCounts(s, step.cause, i); }
      else if step.Arrive? || step.Queued? || step.WriterPops? || step.CloseBox? || step.i != i { OthersStay(s, step, i); }
      else if s.insts[i].phase.Ending? { ActStep(s, step, i); }
      else { EarlyCounts(s, step); }
    } else if step.EndRoutes? { EndSize(s, step.cause); }
    else if !step.Arrive? && !step.Queued? && !step.WriterPops? && !step.CloseBox? && At(s, step.i) { StepAt(s, step); }
  }

  lemma EndSize(s: State, cause: Cause)
    ensures |Do(s, EndRoutes(cause)).insts| == |s.insts|
  {
    hide EndInst;
  }

  lemma EndCounts(s: State, cause: Cause, i: nat)
    requires i < |s.insts|
    ensures var (x, y) := (s.insts[i], Do(s, EndRoutes(cause)).insts[i]);
            y.source == x.source && y.request == x.request && y.responses == x.responses
  {
    hide ActsFor, Silences, Ends;
  }

  lemma PublishCounts(s: State, i: nat, d: int, l: nat, n: nat)
    requires i < |s.insts| && s.insts[i].phase.Held?
    ensures var (x, y) := (s.insts[i], PublishGo(s, i, d, l, n).insts[i]);
            y.source == x.source && y.request == x.request && y.responses == x.responses
            && (Targets(y.phase) ==> y.phase == x.phase)
  {
    hide PublishOn;
  }

  lemma ReserveCounts(s: State, i: nat)
    requires i < |s.insts| && s.insts[i].phase.Resolved?
    ensures var (x, y) := (s.insts[i], ReserveGo(s, i).insts[i]);
            y.source == x.source && y.request == x.request && y.responses == x.responses
            && (Targets(y.phase) ==> y.phase.target == x.phase.target && y.phase.route == x.phase.route)
  {
    hide ReserveOn;
  }

  lemma EarlyCounts(s: State, step: Step)
    requires !step.EndRoutes? && !step.Arrive? && !step.Queued? && !step.WriterPops? && !step.CloseBox?
    requires At(s, step.i) && !s.insts[step.i].phase.Ending?
    ensures var (x, y) := (s.insts[step.i], Do(s, step).insts[step.i]);
            && y.source == x.source && y.request == x.request && y.responses == x.responses
            && (Targets(y.phase) ==>
                  step == Resolve(step.i, y.phase.target, y.phase.route) ||
                  (Targets(x.phase) && y.phase.target == x.phase.target && y.phase.route == x.phase.route))
  {
    hide PublishGo, ReserveGo, ActGo;
    var i, x := step.i, s.insts[step.i];
    if step.PublishRoute? && x.phase.Held? { PublishCounts(s, i, step.deadline, step.lease, step.size); }
    if step.Reserve? && x.phase.Resolved? { ReserveCounts(s, i); }
  }

  lemma RepliesOnce(s: State, step: Step, c: Conn, r: nat)
    requires Inv(s) && Replies(s, step, c, r)
    ensures s.insts[step.i].responses == 0
  {
    hide Inv, Distinct, HasRelease, HasCancel;
    Parts(s);
    OkAt(s.insts, step.i);
    assert HasRespond(s.insts[step.i].phase.acts);
  }

  /** The responses that a connection's stream holds for a request id are exactly one for each instance of it
      that has been answered and whose response was accepted - all of them while the queue is not closed. */
  lemma {:induction false} ResponsesAreAnswers(steps: seq<Step>, n: nat, c: Conn, r: nat)
    requires n <= |steps|
    ensures var (s, done) := (StateAt(steps, n), AnsweredBy(steps, n, c, r));
            && Answers(Stream(s, c), r) == |done|
            && (forall i :: i in done ==> i < |s.insts| && Answered(s.insts[i], c, r))
            && (!Shut(s, c) ==> forall i :: 0 <= i < |s.insts| && Answered(s.insts[i], c, r) ==> i in done)
  {
    hide Do, Inv, Accepts, Answers;
    if n == 0 { NothingYet(steps, c, r); } else {
      var s, s', step := StateAt(steps, n - 1), StateAt(steps, n), steps[n - 1];
      var was, done := AnsweredBy(steps, n - 1, c, r), AnsweredBy(steps, n, c, r);
      ResponsesAreAnswers(steps, n - 1, c, r);
      AtNext(steps, n - 1);
      RunInv(steps[..n - 1]);
      ReplyStep(s, step, c, r);
      StreamStep(s, step, c);
      StepProgress(s, step);
      if Replies(s, step, c, r) { RepliesOnce(s, step, c, r); }
      AcceptsReplies(s, step, c, r);
      assert Accepts(s, step, c, r) ==> step.i !in was;
      forall i | i in done ensures i < |s'.insts| && Answered(s'.insts[i], c, r) { ReplyCounts(s, step, i); }
      forall i | 0 <= i < |s'.insts| && Answered(s'.insts[i], c, r) && !Shut(s', c) ensures i in done { ReplyCounts(s, step, i); }
    }
  }

  lemma AcceptsReplies(s: State, step: Step, c: Conn, r: nat)
    ensures Accepts(s, step, c, r) ==> Replies(s, step, c, r)
  {
  }

  lemma NothingYet(steps: seq<Step>, c: Conn, r: nat)
    ensures StateAt(steps, 0) == Start && Answers(Stream(StateAt(steps, 0), c), r) == 0
  {
    assert steps[..0] == [];
  }

  // ------------------------------------------------------------------ what a live route is

  predicate Targets(p: Phase) { p.Resolved? || p.Held? }

  // A target and a route only come from the resolve.
  lemma {:induction false} ResolvedAt(steps: seq<Step>, n: nat, i: nat) returns (r: nat)
    requires n <= |steps| && i < |StateAt(steps, n).insts| && Targets(StateAt(steps, n).insts[i].phase)
    ensures r < n && var p := StateAt(steps, n).insts[i].phase; steps[r] == Resolve(i, p.target, p.route)
  {
    hide Do;
    assert steps[..0] == [];
    AtNext(steps, n - 1);
    var p := StateAt(steps, n).insts[i].phase;
    TargetStep(StateAt(steps, n - 1), steps[n - 1], i);
    if steps[n - 1] == Resolve(i, p.target, p.route) { r := n - 1; } else { r := ResolvedAt(steps, n - 1, i); }
  }

  lemma TargetStep(s: State, step: Step, i: nat)
    requires i < |Do(s, step).insts| && Targets(Do(s, step).insts[i].phase)
    ensures var p := Do(s, step).insts[i].phase;
            || step == Resolve(i, p.target, p.route)
            || (i < |s.insts| && Targets(s.insts[i].phase) && s.insts[i].phase.target == p.target && s.insts[i].phase.route == p.route)
  {
    hide PublishGo, ReserveGo, ActGo, End, Enqueue, PopOn;
    if i >= |s.insts| { ArrivesFresh(s, step, i); }
    else if step.EndRoutes? { EndTargets(s, step.cause, i); }
    else if step.Arrive? || step.Queued? || step.WriterPops? || step.CloseBox? || step.i != i { OthersStay(s, step, i); }
    else if s.insts[i].phase.Ending? { ActStep(s, step, i); }
    else { EarlyCounts(s, step); }
  }

  lemma EndTargets(s: State, cause: Cause, i: nat)
    requires i < |s.insts|
    ensures var (x, y) := (s.insts[i], Do(s, EndRoutes(cause)).insts[i]); y == x || y.phase.Ending?
  {
    hide ActsFor, Silences, Ends;
  }

  lemma ArrivesFresh(s: State, step: Step, i: nat)
    requires |s.insts| <= i < |Do(s, step).insts|
    ensures Do(s, step).insts[i].phase.Fresh?
  {
    hide PublishGo, ReserveGo, ActGo, EndInst, Enqueue, PopOn;
    if !step.EndRoutes? && !step.Arrive? && !step.Queued? && !step.WriterPops? && !step.CloseBox? && At(s, step.i) { StepAt(s, step); }
  }

  /** The entry of the route table and the Dispatch that a publication makes. */
  ghost predicate PublishedAs(s: State, s': State, step: Step, i: nat, id: nat)
    requires i < |s.insts|
  {
    && step.PublishRoute? && step.i == i && s.insts[i].phase.Held? && id in s'.t.entries
    && var (x, e) := (s.insts[i], s'.t.entries[id]);
       && e.id == id && e.source == x.source && e.request == x.request && e.target == x.phase.target && e.route == x.phase.route
       && e.deadline == step.deadline && (e.sequence == 0 <==> step.lease == 0)
       && Stream(s', e.target) == Stream(s, e.target) + [Envelope(Dispatch(id, e.sequence), step.size)]
  }

  lemma PublishIs(s: State, step: Step, i: nat)
    requires i < |s.insts| && !s.insts[i].phase.Live? && i < |Do(s, step).insts| && Do(s, step).insts[i].phase.Live?
    ensures PublishedAs(s, Do(s, step), step, i, Do(s, step).insts[i].phase.id)
  {
    hide PublishGo, ReserveGo, ActGo, End, Enqueue, PopOn;
    if step.EndRoutes? { EndTargets(s, step.cause, i); }
    else if step.Arrive? || step.Queued? || step.WriterPops? || step.CloseBox? || step.i != i { OthersStay(s, step, i); }
    else if s.insts[i].phase.Ending? { ActStep(s, step, i); }
    else if step.PublishRoute? && s.insts[i].phase.Held? { PublishGives(s, i, step.deadline, step.lease, step.size); }
    else if step.Reserve? && s.insts[i].phase.Resolved? { ReserveLives(s, i); }
  }

  lemma PublishGives(s: State, i: nat, d: int, l: nat, n: nat)
    requires i < |s.insts| && s.insts[i].phase.Held? && PublishGo(s, i, d, l, n).insts[i].phase.Live?
    ensures PublishedAs(s, PublishGo(s, i, d, l, n), PublishRoute(i, d, l, n), i, PublishGo(s, i, d, l, n).insts[i].phase.id)
  {
  }

  lemma ReserveLives(s: State, i: nat)
    requires i < |s.insts| && s.insts[i].phase.Resolved?
    ensures !ReserveGo(s, i).insts[i].phase.Live?
  {
    hide ReserveOn;
  }

  lemma EntryStays(s: State, step: Step, id: nat)
    requires TableOk(s.t) && id in s.t.entries && id in Do(s, step).t.entries
    ensures Do(s, step).t.entries[id] == s.t.entries[id]
  {
    hide PushOn, Enqueue, ReserveOn, ReleaseOn, EndInst, PopOn;
  }

  lemma LiveStays(s: State, step: Step, i: nat)
    requires i < |s.insts| && s.insts[i].phase.Live? && i < |Do(s, step).insts| && Do(s, step).insts[i].phase.Live?
    ensures Do(s, step).insts[i] == s.insts[i]
  {
    hide PublishGo, ReserveGo, ActGo, End, Enqueue, PopOn;
    if step.EndRoutes? { EndTargets(s, step.cause, i); }
    else if step.Arrive? || step.Queued? || step.WriterPops? || step.CloseBox? || step.i != i { OthersStay(s, step, i); }
  }

  /** A live route's entry names the connection and request it serves, the Provider, endpoint, permissions and
      resource that the resolve found, and the deadline of its publication; its Dispatch was put into that
      Provider's stream and carries a command sequence exactly if a control lease was involved. */
  lemma {:induction false} LiveRouteIs(steps: seq<Step>, n: nat, i: nat) returns (p: nat, r: nat)
    requires n <= |steps| && i < |StateAt(steps, n).insts| && StateAt(steps, n).insts[i].phase.Live?
    ensures r < p < n && i < |StateAt(steps, p).insts|
    ensures var id := StateAt(steps, n).insts[i].phase.id;
            && PublishedAs(StateAt(steps, p), StateAt(steps, p + 1), steps[p], i, id)
            && id in StateAt(steps, n).t.entries && StateAt(steps, n).t.entries[id] == StateAt(steps, p + 1).t.entries[id]
            && steps[r] == Resolve(i, StateAt(steps, n).t.entries[id].target, StateAt(steps, n).t.entries[id].route)
  {
    hide Do, Inv, PublishedAs, TableOk, EpochOk, InstsOk, Owned, Respected, Tracked, NoLeak, TrackersOk, BoxesOk, Streams, Cancels;
    assert steps[..0] == [];
    var m := n - 1;
    var s, s' := StateAt(steps, m), StateAt(steps, n);
    AtNext(steps, m);
    RunInv(steps[..m]);
    RunInv(steps[..n]);
    Parts(s);
    Parts(s');
    LiveEntry(s', i);
    if i >= |s.insts| { ArrivesFresh(s, steps[m], i); }
    if s.insts[i].phase.Live? {
      p, r := LiveRouteIs(steps, m, i);
      LiveStays(s, steps[m], i);
      EntryStays(s, steps[m], s'.insts[i].phase.id);
    } else {
      PublishIs(s, steps[m], i);
      PublishHeld(s, s', steps[m], i, s'.insts[i].phase.id);
      p := m;
      r := ResolvedAt(steps, m, i);
    }
  }

  lemma PublishHeld(s: State, s': State, step: Step, i: nat, id: nat)
    requires i < |s.insts| && PublishedAs(s, s', step, i, id)
    ensures Targets(s.insts[i].phase) && id in s'.t.entries
    ensures s'.t.entries[id].target == s.insts[i].phase.target && s'.t.entries[id].route == s.insts[i].phase.route
  {
  }

  /** Revocation-epoch safety by kind: a live route is none that a revocation after its authority was sampled
      would have to end. */
  lemma RevocationSafetyByKind(steps: seq<Step>, i: nat, a: nat, b: nat, n: nat, rev: Revocation)
    requires a < b < n <= |steps| && steps[a] == Sample(i) && steps[b] == EndRoutes(Revoked(rev))
    requires i < |StateAt(steps, a).insts| && StateAt(steps, a).insts[i].phase.Fresh?
    requires i < |StateAt(steps, n).insts| && StateAt(steps, n).insts[i].phase.Live?
    ensures var (s, id) := (StateAt(steps, n), StateAt(steps, n).insts[i].phase.id);
            && id in s.t.entries
            && forall code, gone :: !RouteEnds(Revoked(rev), s.t.entries[id], code, gone)
  {
    hide Inv, Do, RouteEnds, Hits;
    RevocationSafety(steps, i, a, b, n, rev);
    NotHit(rev, StateAt(steps, n).t.entries[StateAt(steps, n).insts[i].phase.id]);
  }

  lemma NotHit(rev: Revocation, e: Entry)
    requires !Hits(rev, e.source, e.target, e.route)
    ensures forall code, gone :: !RouteEnds(Revoked(rev), e, code, gone)
  {
  }

  // ------------------------------------------------------------------ the other steps

  /** Other envelopes are offered like any; the writer takes the oldest one out and its size off the count; closing
      only closes. None of it touches a request. */
  lemma QueueStepsAre(s: State, c: Conn, tag: nat, size: nat)
    ensures var s' := Do(s, Queued(c, tag, size)); Offered(s, s', c, Envelope(OtherBody(tag), size)) && s' == s.(boxes := s'.boxes)
    ensures var (s', q) := (Do(s, WriterPops(c)), BoxOf(s.boxes, c));
            && s' == s.(boxes := s'.boxes) && Stream(s', c) == q.accepted && Shut(s', c) == q.closed
            && BoxOf(s'.boxes, c).popped == q.popped + One(q.popped < |q.accepted|)
            && BoxOf(s'.boxes, c).bytes == q.bytes - if q.popped < |q.accepted| then q.accepted[q.popped].size else 0
    ensures var s' := Do(s, CloseBox(c)); s' == s.(boxes := s'.boxes) && Stream(s', c) == Stream(s, c) && Shut(s', c)
  {
    hide Enqueue;
    EnqueueIs(s.boxes, c, Envelope(OtherBody(tag), size));
  }

  /** A request can be refused, with any code, at any point before its reservation, and aborted or answered by the
      kernel itself at any point between reservation and publication. */
  lemma CanBeRefused(s: State, i: nat, code: Code)
    requires i < |s.insts|
    ensures s.insts[i].phase.Fresh? || s.insts[i].phase.Sampled? || s.insts[i].phase.Resolved? ==>
              EndsWith(s, Refuse(i, code), i, Some(code), None) && Over(Do(s, Refuse(i, code)), i)
    ensures s.insts[i].phase.Held? ==>
              && EndsWith(s, Abort(i, code), i, Some(code), None) && Over(Do(s, Abort(i, code)), i)
              && EndsWith(s, Builtin(i, code), i, Some(code), None) && Over(Do(s, Builtin(i, code)), i)
  {
  }
}
