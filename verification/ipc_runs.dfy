/** Requests, results, revocations, deadlines and disconnects, interleaved at the granularity of the
    server's locks: the route table, each connection's request tracker and each outbound queue.

    An instance is one Request frame from its arrival to its end. Whoever takes a route out of the
    table takes over the actions that finish its instance (`Ending`), and performs them one by one.
 */
module IpcRuns {
  import opened IpcTypes
  import opened Outbox
  import opened Requests
  import opened Routes

  datatype Act = Release | Respond(code: Code) | Cancel(route: nat, target: Conn)

  datatype Phase =
    | Fresh
    | Sampled(e: nat)                                   // authorization epoch taken
    | Resolved(e: nat, target: Conn, route: Route)      // endpoint, permissions and gates checked
    | Held(e: nat, target: Conn, route: Route)          // reserved with the tracker
    | Live(id: nat, e: nat)                             // published
    | Ending(acts: seq<Act>)

  // `silent`: the source is gone, so no Response is due.
  datatype Inst = Inst(
    source: Conn, request: nat, payload: nat, phase: Phase, reserved: bool, silent: bool, releases: nat, responses: nat)

  // `revs` and `owner` (route id to instance) are history.
  datatype State = State(
    t: Table, revs: seq<Revocation>, owner: map<nat, nat>, insts: seq<Inst>,
    trackers: map<Conn, Tracker>, boxes: map<Conn, Queue>)

  const Start: State := State(NoRoutes, [], map[], [], map[], map[])

  function TrackerOf(trackers: map<Conn, Tracker>, c: Conn): Tracker { if c in trackers then trackers[c] else Idle }

  function BoxOf(boxes: map<Conn, Queue>, c: Conn): Queue { if c in boxes then boxes[c] else Empty }

  function RevocationCode(r: Revocation): Code {
    match r
    case OfEndpoint(_, _, _) => Unavailable
    case OfPackage(_) => Unavailable
    case OfPermission(_, _) => PermissionDenied
    case OfResource(_, _) => FailedPrecondition
    case OfControl(_, _) => FailedPrecondition
  }

  /** What the remover of an entry still has to do, in its own order. */
  function ActsFor(cause: Cause, e: Entry): seq<Act> {
    match cause
    case Revoked(r) => [Cancel(e.id, e.target), Release, Respond(RevocationCode(r))]
    case Reaped(_) => [Release, Respond(DeadlineExceeded), Cancel(e.id, e.target)]
    case ConnClosed(c) => if e.target == c then [Release, Respond(Unavailable)] else [Release, Cancel(e.id, e.target)]
    case Completed(_, _, now, code) =>
      if now >= e.deadline then [Release, Respond(DeadlineExceeded)] else [Release, Respond(code)]
  }

  predicate Silences(cause: Cause, e: Entry) { cause.ConnClosed? && e.target != cause.conn }

  function EndInst(x: Inst, entries: map<nat, Entry>, cause: Cause): Inst {
    if x.phase.Live? && x.phase.id in Chosen(entries, cause)
    then x.(phase := Ending(ActsFor(cause, entries[x.phase.id])), silent := Silences(cause, entries[x.phase.id]))
    else x
  }

  function End(s: State, cause: Cause): State {
    s.(t := RemoveOn(s.t, cause), revs := if cause.Revoked? then s.revs + [cause.rev] else s.revs,
       insts := seq(|s.insts|, i requires 0 <= i < |s.insts| => EndInst(s.insts[i], s.t.entries, cause)))
  }

  function Fail(acts: seq<Act>, x: Inst): Inst { x.(phase := Ending(acts)) }

  function Put(s: State, i: nat, x: Inst): State
    requires i < |s.insts|
  {
    s.(insts := s.insts[i := x])
  }

  function ReserveGo(s: State, i: nat): State
    requires i < |s.insts| && s.insts[i].phase.Resolved?
  {
    var x := s.insts[i];
    var (tr, code) := ReserveOn(TrackerOf(s.trackers, x.source), x.request, x.payload);
    if code == Unspecified
    then Put(s, i, x.(phase := Held(x.phase.e, x.phase.target, x.phase.route), reserved := true)).(trackers := s.trackers[x.source := tr])
    else Put(s, i, Fail([Respond(code)], x))
  }

  function CallOf(x: Inst, deadline: int, lease: nat, size: nat): Call
    requires x.phase.Held?
  {
    Call(x.phase.e, x.source, x.request, x.phase.target, deadline, x.phase.route, lease, size)
  }

  function PublishGo(s: State, i: nat, deadline: int, lease: nat, size: nat): State
    requires i < |s.insts| && s.insts[i].phase.Held?
  {
    var x := s.insts[i];
    var (t, q, p) := PublishOn(s.t, CallOf(x, deadline, lease, size), BoxOf(s.boxes, x.phase.target));
    match p
    case EpochChanged => Put(s, i, Fail([Release, Respond(Unavailable)], x))
    case SequenceExhausted => Put(s, i, Fail([Release, Respond(Internal)], x))
    case TargetUnavailable(_) =>
      // the slow Provider is disconnected
      Put(s, i, Fail([Release, Respond(Unavailable)], x)).(t := t, boxes := s.boxes[x.phase.target := q.(closed := true)])
    case Published(id) =>
      Put(s, i, x.(phase := Live(id, x.phase.e))).(t := t, owner := s.owner[id := i], boxes := s.boxes[x.phase.target := q])
  }

  // conn.enqueue: a consumer that cannot keep up is closed.
  function Enqueue(boxes: map<Conn, Queue>, c: Conn, env: Envelope): map<Conn, Queue> {
    var (q, pushed) := PushOn(BoxOf(boxes, c), env);
    boxes[c := if pushed then q else q.(closed := true)]
  }

  function ActGo(s: State, i: nat, size: nat): State
    requires i < |s.insts| && s.insts[i].phase.Ending? && s.insts[i].phase.acts != []
  {
    var x := s.insts[i];
    var y := x.(phase := Ending(x.phase.acts[1..]));
    match x.phase.acts[0]
    case Release =>
      Put(s, i, y.(releases := x.releases + 1)).(
        trackers := s.trackers[x.source := ReleaseOn(TrackerOf(s.trackers, x.source), x.request)])
    case Respond(code) =>
      Put(s, i, y.(responses := x.responses + 1)).(
        boxes := Enqueue(s.boxes, x.source, Envelope(Response(x.request, code), size)))
    case Cancel(id, target) =>
      Put(s, i, y).(boxes := Enqueue(s.boxes, target, Envelope(CancelDispatch(id), size)))
  }

  datatype Step =
    | Arrive(source: Conn, request: nat, payload: nat)
    | Sample(i: nat)
    | Resolve(i: nat, target: Conn, route: Route)
    | Refuse(i: nat, code: Code)                          // before the reservation
    | Reserve(i: nat)
    | Abort(i: nat, code: Code)                           // after it, before publication
    | Builtin(i: nat, code: Code)                         // served by the kernel itself
    | PublishRoute(i: nat, deadline: int, lease: nat, size: nat)
    | EndRoutes(cause: Cause)
    | Perform(i: nat, size: nat)
    | Queued(c: Conn, tag: nat, size: nat)                // results, events, pings
    | WriterPops(c: Conn)
    | CloseBox(c: Conn)

  predicate At(s: State, i: nat) { i < |s.insts| }

  function Do(s: State, step: Step): State {
    match step
    case Arrive(c, r, n) =>
      if r == 0 then s else s.(insts := s.insts + [Inst(c, r, n, Fresh, false, false, 0, 0)])
    case Sample(i) => if At(s, i) && s.insts[i].phase.Fresh? then Put(s, i, s.insts[i].(phase := Sampled(s.t.epoch))) else s
    case Resolve(i, target, route) =>
      if At(s, i) && s.insts[i].phase.Sampled?
      then Put(s, i, s.insts[i].(phase := Resolved(s.insts[i].phase.e, target, route))) else s
    case Refuse(i, code) =>
      if At(s, i) && (s.insts[i].phase.Fresh? || s.insts[i].phase.Sampled? || s.insts[i].phase.Resolved?)
      then Put(s, i, Fail([Respond(code)], s.insts[i])) else s
    case Reserve(i) => if At(s, i) && s.insts[i].phase.Resolved? then ReserveGo(s, i) else s
    case Abort(i, code) =>
      if At(s, i) && s.insts[i].phase.Held? then Put(s, i, Fail([Release, Respond(code)], s.insts[i])) else s
    case Builtin(i, code) =>
      if At(s, i) && s.insts[i].phase.Held? then Put(s, i, Fail([Respond(code), Release], s.insts[i])) else s
    case PublishRoute(i, deadline, lease, size) =>
      if At(s, i) && s.insts[i].phase.Held? then PublishGo(s, i, deadline, lease, size) else s
    case EndRoutes(cause) => End(s, cause)
    case Perform(i, size) =>
      if At(s, i) && s.insts[i].phase.Ending? && s.insts[i].phase.acts != [] then ActGo(s, i, size) else s
    case Queued(c, tag, size) => s.(boxes := Enqueue(s.boxes, c, Envelope(OtherBody(tag), size)))
    case WriterPops(c) => s.(boxes := s.boxes[c := PopOn(BoxOf(s.boxes, c)).0])
    case CloseBox(c) => s.(boxes := s.boxes[c := BoxOf(s.boxes, c).(closed := true)])
  }

  function Exec(steps: seq<Step>): State {
    if steps == [] then Start else Do(Exec(steps[..|steps| - 1]), steps[|steps| - 1])
  }
}

/** The invariant of these runs. */
module IpcInvariant {
  import opened IpcTypes
  import opened Outbox
  import opened Requests
  import opened Routes
  import opened IpcRuns

  function One(b: bool): nat { if b then 1 else 0 }

  predicate HasRelease(acts: seq<Act>) { exists k :: 0 <= k < |acts| && acts[k].Release? }
  predicate HasRespond(acts: seq<Act>) { exists k :: 0 <= k < |acts| && acts[k].Respond? }
  predicate HasCancel(acts: seq<Act>) { exists k :: 0 <= k < |acts| && acts[k].Cancel? }

  predicate Distinct(acts: seq<Act>) {
    forall j, k :: 0 <= j < k < |acts| ==>
      !(acts[j].Release? && acts[k].Release?) && !(acts[j].Respond? && acts[k].Respond?) && !(acts[j].Cancel? && acts[k].Cancel?)
  }

  /** Responses and releases made so far and still owed. */
  ghost predicate InstOk(x: Inst) {
    match x.phase
    case Ending(acts) =>
      && Distinct(acts) && x.responses + One(HasRespond(acts)) == One(!x.silent)
      && x.releases + One(HasRelease(acts)) == One(x.reserved)
    case _ =>
      x.responses == 0 && x.releases == 0 && !x.silent && (x.reserved <==> x.phase.Held? || x.phase.Live?)
  }

  ghost predicate InstsOk(insts: seq<Inst>) { forall i :: 0 <= i < |insts| ==> InstOk(insts[i]) }

  /** Every live entry belongs to one instance and every live instance has its entry. */
  ghost predicate Owned(entries: map<nat, Entry>, insts: seq<Inst>, owner: map<nat, nat>) {
    && (forall id :: id in entries ==>
          && id in owner && owner[id] < |insts| && insts[owner[id]].phase.Live? && insts[owner[id]].phase.id == id
          && entries[id].source == insts[owner[id]].source && entries[id].request == insts[owner[id]].request)
    && (forall i :: 0 <= i < |insts| && insts[i].phase.Live? ==>
          insts[i].phase.id in entries && insts[i].phase.id in owner && owner[insts[i].phase.id] == i)
  }

  /** No revocation since the authority was sampled hits a live route. */
  ghost predicate Respected(entries: map<nat, Entry>, insts: seq<Inst>, owner: map<nat, nat>, revs: seq<Revocation>) {
    forall id, j :: id in entries && id in owner && owner[id] < |insts| && insts[owner[id]].phase.Live? &&
                    insts[owner[id]].phase.e <= j < |revs| ==>
                      !Hits(revs[j], entries[id].source, entries[id].target, entries[id].route)
  }

  // The instance occupies its id in its connection's tracker.
  predicate Holding(x: Inst) { x.reserved && x.releases == 0 }

  /** The trackers hold exactly the reserved, unreleased requests. */
  ghost predicate Tracked(insts: seq<Inst>, trackers: map<Conn, Tracker>) {
    && (forall i :: 0 <= i < |insts| && Holding(insts[i]) ==>
          var tr := TrackerOf(trackers, insts[i].source);
          insts[i].request in tr.requests && tr.requests[insts[i].request] == insts[i].payload)
    && (forall i, j :: 0 <= i < j < |insts| && Holding(insts[i]) && Holding(insts[j]) && insts[i].source == insts[j].source ==>
          insts[i].request != insts[j].request)
  }

  ghost predicate NoLeak(insts: seq<Inst>, trackers: map<Conn, Tracker>) {
    forall c, r :: r in TrackerOf(trackers, c).requests ==>
      exists i :: 0 <= i < |insts| && Holding(insts[i]) && insts[i].source == c && insts[i].request == r
  }

  ghost predicate TrackersOk(trackers: map<Conn, Tracker>) { forall c :: TrackerOk(TrackerOf(trackers, c)) }

  ghost predicate BoxesOk(boxes: map<Conn, Queue>) { forall c :: QueueOk(BoxOf(boxes, c)) }

  predicate Carries(q: Queue, body: Body) { exists k :: 0 <= k < |q.accepted| && q.accepted[k].body == body }

  predicate HasDispatch(q: Queue, id: nat) {
    exists k :: 0 <= k < |q.accepted| && q.accepted[k].body.Dispatch? && q.accepted[k].body.route == id
  }

  /** The order of one Provider's stream. */
  ghost predicate Ordered(q: Queue) {
    var a := q.accepted;
    && (forall i, j :: 0 <= i < j < |a| && a[i].body.Dispatch? && a[j].body.Dispatch? ==>
          a[i].body.route < a[j].body.route &&
          (a[i].body.sequence != 0 && a[j].body.sequence != 0 ==> a[i].body.sequence < a[j].body.sequence))
    && (forall i, j :: 0 <= i < j < |a| && a[i].body.CancelDispatch? && a[j].body.CancelDispatch? ==>
          a[i].body.route != a[j].body.route)
    && (forall j :: 0 <= j < |a| && a[j].body.CancelDispatch? ==>
          exists i :: 0 <= i < j && a[i].body.Dispatch? && a[i].body.route == a[j].body.route)
  }

  ghost predicate Bounded(q: Queue, t: Table) {
    forall i :: 0 <= i < |q.accepted| && q.accepted[i].body.Dispatch? ==>
      1 <= q.accepted[i].body.route <= t.nextID && q.accepted[i].body.sequence <= t.nextSequence
  }

  ghost predicate Streams(boxes: map<Conn, Queue>, t: Table) {
    forall c :: Ordered(BoxOf(boxes, c)) && Bounded(BoxOf(boxes, c), t)
  }

  // Only the instance's own remover queues the cancellation of its route, after its Dispatch.
  ghost predicate CancelOwed(x: Inst, i: nat, owner: map<nat, nat>, boxes: map<Conn, Queue>) {
    x.phase.Ending? ==>
      forall k :: 0 <= k < |x.phase.acts| && x.phase.acts[k].Cancel? ==>
        var id := x.phase.acts[k].route;
        id in owner && owner[id] == i && HasDispatch(BoxOf(boxes, x.phase.acts[k].target), id)
  }

  ghost predicate Cancels(s: State) {
    && (forall i :: 0 <= i < |s.insts| ==> CancelOwed(s.insts[i], i, s.owner, s.boxes))
    && (forall id :: id in s.t.entries ==> HasDispatch(BoxOf(s.boxes, s.t.entries[id].target), id))
    && (forall c, k :: 0 <= k < |BoxOf(s.boxes, c).accepted| && BoxOf(s.boxes, c).accepted[k].body.CancelDispatch? ==>
          var id := BoxOf(s.boxes, c).accepted[k].body.route;
          && id in s.owner && s.owner[id] < |s.insts| && s.insts[s.owner[id]].phase.Ending?
          && !HasCancel(s.insts[s.owner[id]].phase.acts))
    && (forall id :: id in s.owner ==> 1 <= id <= s.t.nextID)
  }

  ghost predicate EpochOk(s: State) { s.t.epoch == |s.revs| }

  ghost predicate Inv(s: State) {
    && TableOk(s.t) && EpochOk(s) && InstsOk(s.insts) && Owned(s.t.entries, s.insts, s.owner)
    && Respected(s.t.entries, s.insts, s.owner, s.revs) && Tracked(s.insts, s.trackers) && NoLeak(s.insts, s.trackers)
    && TrackersOk(s.trackers) && BoxesOk(s.boxes) && Streams(s.boxes, s.t) && Cancels(s)
  }
}
