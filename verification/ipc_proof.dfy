/** Every step keeps the invariant, and what that gives for whole runs. */
module IpcProof {
  import opened IpcTypes
  import opened Outbox
  import opened Requests
  import opened Routes
  import opened IpcRuns
  import opened IpcInvariant

  lemma Parts(s: State)
    requires Inv(s)
    ensures TableOk(s.t) && EpochOk(s) && InstsOk(s.insts) && Owned(s.t.entries, s.insts, s.owner)
    ensures Respected(s.t.entries, s.insts, s.owner, s.revs) && Tracked(s.insts, s.trackers) && NoLeak(s.insts, s.trackers)
    ensures TrackersOk(s.trackers) && BoxesOk(s.boxes) && Streams(s.boxes, s.t) && Cancels(s)
  {
  }

  lemma Join(s: State)
    requires TableOk(s.t) && EpochOk(s) && InstsOk(s.insts) && Owned(s.t.entries, s.insts, s.owner)
    requires Respected(s.t.entries, s.insts, s.owner, s.revs) && Tracked(s.insts, s.trackers) && NoLeak(s.insts, s.trackers)
    requires TrackersOk(s.trackers) && BoxesOk(s.boxes) && Streams(s.boxes, s.t) && Cancels(s)
    ensures Inv(s)
  {
  }

  // ------------------------------------------------------------------ an instance moves on by itself

  // They occupy the tracker alike.
  predicate Alike(x: Inst, y: Inst) {
    && Holding(x) == Holding(y)
    && y.source == x.source && y.request == x.request && y.payload == x.payload
  }

  lemma PutOwned(s: State, i: nat, y: Inst)
    requires i < |s.insts| && Owned(s.t.entries, s.insts, s.owner) && !s.insts[i].phase.Live? && !y.phase.Live?
    ensures Owned(s.t.entries, s.insts[i := y], s.owner)
  {
  }

  lemma PutRespected(s: State, i: nat, y: Inst)
    requires i < |s.insts| && Respected(s.t.entries, s.insts, s.owner, s.revs) && !y.phase.Live?
    ensures Respected(s.t.entries, s.insts[i := y], s.owner, s.revs)
  {
  }

  lemma PutTracked(s: State, i: nat, y: Inst)
    requires i < |s.insts| && Tracked(s.insts, s.trackers) && Alike(s.insts[i], y)
    ensures Tracked(s.insts[i := y], s.trackers)
  {
  }

  lemma PutNoLeak(s: State, i: nat, y: Inst)
    requires i < |s.insts| && NoLeak(s.insts, s.trackers) && Holding(s.insts[i]) == Holding(y)
    requires y.source == s.insts[i].source && y.request == s.insts[i].request
    ensures NoLeak(s.insts[i := y], s.trackers)
  {
    var insts := s.insts[i := y];
    forall c, r | r in TrackerOf(s.trackers, c).requests
      ensures exists j :: 0 <= j < |insts| && Holding(insts[j]) && insts[j].source == c && insts[j].request == r
    {
      var j :| 0 <= j < |s.insts| && Holding(s.insts[j]) && s.insts[j].source == c && s.insts[j].request == r;
      assert Holding(insts[j]) && insts[j].source == c && insts[j].request == r;
    }
  }

  lemma PutCancels(s: State, i: nat, y: Inst)
    requires i < |s.insts| && Cancels(s) && !s.insts[i].phase.Ending? && (y.phase.Ending? ==> !HasCancel(y.phase.acts))
    ensures Cancels(Put(s, i, y))
  {
  }

  lemma PutInsts(s: State, i: nat, y: Inst)
    requires i < |s.insts| && InstsOk(s.insts) && InstOk(y)
    ensures InstsOk(s.insts[i := y])
  {
  }

  lemma Rephase(s: State, i: nat, y: Inst)
    requires Inv(s) && i < |s.insts| && Alike(s.insts[i], y) && !s.insts[i].phase.Ending? && InstOk(y)
    requires !s.insts[i].phase.Live? && !y.phase.Live?
    requires y.phase.Ending? ==> !HasCancel(y.phase.acts)
    ensures Inv(Put(s, i, y))
  {
    hide Inv, TableOk, EpochOk, InstsOk, Owned, Respected, Tracked, NoLeak, TrackersOk, BoxesOk, Streams, Cancels, InstOk, HasCancel;
    Parts(s);
    PutOwned(s, i, y);
    PutRespected(s, i, y);
    PutTracked(s, i, y);
    PutNoLeak(s, i, y);
    PutCancels(s, i, y);
    PutInsts(s, i, y);
    SameEpoch(s, Put(s, i, y));
    Join(Put(s, i, y));
  }

  lemma SameEpoch(s: State, s': State)
    requires EpochOk(s) && s'.t.epoch == s.t.epoch && s'.revs == s.revs
    ensures EpochOk(s')
  {
  }

  // The short lists of actions that do not involve a route.
  lemma Shapes(code: Code)
    ensures Distinct([Release, Respond(code)]) && HasRelease([Release, Respond(code)]) && HasRespond([Release, Respond(code)])
    ensures !HasCancel([Release, Respond(code)]) && !HasCancel([Respond(code)]) && !HasCancel([Respond(code), Release])
    ensures Distinct([Respond(code), Release]) && HasRelease([Respond(code), Release]) && HasRespond([Respond(code), Release])
    ensures Distinct([Respond(code)]) && HasRespond([Respond(code)]) && !HasRelease([Respond(code)])
  {
    assert [Release, Respond(code)][0].Release? && [Release, Respond(code)][1].Respond?;
    assert [Respond(code), Release][1].Release? && [Respond(code), Release][0].Respond?;
    assert [Respond(code)][0].Respond?;
  }

  lemma Arrives(s: State, x: Inst)
    requires Inv(s) && x.phase.Fresh? && !x.reserved && !x.silent && x.releases == 0 && x.responses == 0
    ensures Inv(s.(insts := s.insts + [x]))
  {
    hide TableOk, TrackersOk, BoxesOk, Streams, Respected, NoLeak, Tracked, Cancels;
    ArrivesRest(s, x);
  }

  lemma ArrivesRest(s: State, x: Inst)
    requires Respected(s.t.entries, s.insts, s.owner, s.revs) && NoLeak(s.insts, s.trackers) && Tracked(s.insts, s.trackers)
    requires Cancels(s) && !Holding(x) && !x.phase.Live? && !x.phase.Ending? && Owned(s.t.entries, s.insts, s.owner)
    ensures var insts := s.insts + [x];
            Respected(s.t.entries, insts, s.owner, s.revs) && NoLeak(insts, s.trackers) && Tracked(insts, s.trackers)
    ensures Cancels(s.(insts := s.insts + [x]))
  {
    var insts := s.insts + [x];
    forall c, r | r in TrackerOf(s.trackers, c).requests
      ensures exists j :: 0 <= j < |insts| && Holding(insts[j]) && insts[j].source == c && insts[j].request == r
    {
      var j :| 0 <= j < |s.insts| && Holding(s.insts[j]) && s.insts[j].source == c && s.insts[j].request == r;
      assert insts[j] == s.insts[j];
    }
  }

  // ------------------------------------------------------------------ reservation

  lemma Reserves(s: State, i: nat)
    requires Inv(s) && i < |s.insts| && s.insts[i].phase.Resolved?
    ensures Inv(ReserveGo(s, i))
  {
    hide Inv, TableOk, EpochOk, InstsOk, Owned, Respected, Tracked, NoLeak, TrackersOk, BoxesOk, Streams, Cancels, ReserveOn, HasCancel;
    var x := s.insts[i];
    var (tr, code) := ReserveOn(TrackerOf(s.trackers, x.source), x.request, x.payload);
    Parts(s);
    OkAt(s.insts, i);
    if code == Unspecified {
      var y := x.(phase := Held(x.phase.e, x.phase.target, x.phase.route), reserved := true);
      var trackers := s.trackers[x.source := tr];
      PutOwned(s, i, y);
      PutRespected(s, i, y);
      ReservedTracked(s, i, y, trackers);
      PutCancels(s, i, y);
      PutInsts(s, i, y);
      SameEpoch(s, ReserveGo(s, i));
      CancelsSame(Put(s, i, y), ReserveGo(s, i));
      Join(ReserveGo(s, i));
    } else {
      Shapes(code);
      Rephase(s, i, Fail([Respond(code)], x));
    }
  }

  lemma OkAt(insts: seq<Inst>, i: nat)
    requires InstsOk(insts) && i < |insts|
    ensures InstOk(insts[i])
  {
  }

  lemma CancelsSame(s: State, s': State)
    requires Cancels(s) && s'.insts == s.insts && s'.owner == s.owner && s'.t == s.t && s'.boxes == s.boxes
    ensures Cancels(s')
  {
  }

  // The trackers after connection c's has become tr.
  lemma TrackersNext(trackers: map<Conn, Tracker>, c: Conn, tr: Tracker)
    requires TrackersOk(trackers) && TrackerOk(tr)
    ensures TrackersOk(trackers[c := tr])
  {
    hide TrackerOk;
    var trackers' := trackers[c := tr];
    forall d ensures TrackerOk(TrackerOf(trackers', d)) {
      if d != c { assert TrackerOf(trackers', d) == TrackerOf(trackers, d); }
    }
  }

  lemma ReservedLeak(s: State, i: nat, y: Inst, tr: Tracker)
    requires NoLeak(s.insts, s.trackers) && i < |s.insts| && !Holding(s.insts[i]) && Holding(y)
    requires forall r :: r in tr.requests ==> r == y.request || r in TrackerOf(s.trackers, y.source).requests
    ensures NoLeak(s.insts[i := y], s.trackers[y.source := tr])
  {
    var insts, trackers := s.insts[i := y], s.trackers[y.source := tr];
    forall c, r | r in TrackerOf(trackers, c).requests
      ensures exists j :: 0 <= j < |insts| && Holding(insts[j]) && insts[j].source == c && insts[j].request == r
    {
      if c == y.source && r == y.request { assert Holding(insts[i]) && insts[i].source == c && insts[i].request == r; } else {
        assert r in TrackerOf(s.trackers, c).requests;
        var j :| 0 <= j < |s.insts| && Holding(s.insts[j]) && s.insts[j].source == c && s.insts[j].request == r;
        assert insts[j] == s.insts[j];
      }
    }
  }

  lemma ReservedHeld(s: State, i: nat, y: Inst, tr: Tracker)
    requires Tracked(s.insts, s.trackers) && i < |s.insts| && !Holding(s.insts[i]) && Holding(y)
    requires var was := TrackerOf(s.trackers, y.source).requests; y.request !in was && tr.requests == was[y.request := y.payload]
    ensures Tracked(s.insts[i := y], s.trackers[y.source := tr])
  {
  }

  lemma ReservedTracked(s: State, i: nat, y: Inst, trackers: map<Conn, Tracker>)
    requires Tracked(s.insts, s.trackers) && NoLeak(s.insts, s.trackers) && TrackersOk(s.trackers)
    requires i < |s.insts| && !Holding(s.insts[i]) && Holding(y)
    requires var (tr, code) := ReserveOn(TrackerOf(s.trackers, y.source), y.request, y.payload);
             code == Unspecified && trackers == s.trackers[y.source := tr]
    ensures Tracked(s.insts[i := y], trackers) && NoLeak(s.insts[i := y], trackers) && TrackersOk(trackers)
  {
    hide Tracked, NoLeak, TrackerOk, Holding;
    var tr0 := TrackerOf(s.trackers, y.source);
    var tr := ReserveOn(tr0, y.request, y.payload).0;
    ReserveKeeps(tr0, y.request, y.payload);
    TrackersNext(s.trackers, y.source, tr);
    ReservedLeak(s, i, y, tr);
    ReservedHeld(s, i, y, tr);
  }

  lemma ReleasedLeak(s: State, i: nat, y: Inst, tr: Tracker)
    requires NoLeak(s.insts, s.trackers) && i < |s.insts| && Holding(s.insts[i]) && !Holding(y)
    requires tr.requests == TrackerOf(s.trackers, s.insts[i].source).requests - {s.insts[i].request}
    ensures NoLeak(s.insts[i := y], s.trackers[s.insts[i].source := tr])
  {
    var insts, trackers := s.insts[i := y], s.trackers[s.insts[i].source := tr];
    forall c, r | r in TrackerOf(trackers, c).requests
      ensures exists j :: 0 <= j < |insts| && Holding(insts[j]) && insts[j].source == c && insts[j].request == r
    {
      assert r in TrackerOf(s.trackers, c).requests;
      var j :| 0 <= j < |s.insts| && Holding(s.insts[j]) && s.insts[j].source == c && s.insts[j].request == r;
      assert insts[j] == s.insts[j];
    }
  }

  lemma ReleasedHeld(s: State, i: nat, y: Inst, tr: Tracker)
    requires Tracked(s.insts, s.trackers) && i < |s.insts| && Holding(s.insts[i]) && !Holding(y)
    requires tr.requests == TrackerOf(s.trackers, s.insts[i].source).requests - {s.insts[i].request}
    ensures Tracked(s.insts[i := y], s.trackers[s.insts[i].source := tr])
  {
  }

  lemma HeldIs(insts: seq<Inst>, trackers: map<Conn, Tracker>, i: nat)
    requires Tracked(insts, trackers) && i < |insts| && Holding(insts[i])
    ensures insts[i].request in TrackerOf(trackers, insts[i].source).requests
  {
  }

  lemma ReleasedTracked(s: State, i: nat, y: Inst, trackers: map<Conn, Tracker>)
    requires Tracked(s.insts, s.trackers) && NoLeak(s.insts, s.trackers) && TrackersOk(s.trackers)
    requires i < |s.insts| && Holding(s.insts[i]) && !Holding(y)
    requires trackers == s.trackers[s.insts[i].source := ReleaseOn(TrackerOf(s.trackers, s.insts[i].source), s.insts[i].request)]
    ensures Tracked(s.insts[i := y], trackers) && NoLeak(s.insts[i := y], trackers) && TrackersOk(trackers)
  {
    hide Tracked, NoLeak, TrackerOk, Holding;
    var x := s.insts[i];
    var tr := ReleaseOn(TrackerOf(s.trackers, x.source), x.request);
    HeldIs(s.insts, s.trackers, i);
    ReleaseKeeps(TrackerOf(s.trackers, x.source), x.request);
    TrackersNext(s.trackers, x.source, tr);
    ReleasedLeak(s, i, y, tr);
    ReleasedHeld(s, i, y, tr);
  }

  // ------------------------------------------------------------------ queues

  lemma BoxesNext(boxes: map<Conn, Queue>, c: Conn, q: Queue)
    requires BoxesOk(boxes) && QueueOk(q)
    ensures BoxesOk(boxes[c := q])
  {
    hide QueueOk;
    var boxes' := boxes[c := q];
    forall d ensures QueueOk(BoxOf(boxes', d)) {
      if d != c { assert BoxOf(boxes', d) == BoxOf(boxes, d); }
    }
  }

  lemma StreamsNext(boxes: map<Conn, Queue>, t: Table, t': Table, c: Conn, q: Queue)
    requires Streams(boxes, t) && Ordered(q) && Bounded(q, t') && t.nextID <= t'.nextID && t.nextSequence <= t'.nextSequence
    ensures Streams(boxes[c := q], t')
  {
    hide Ordered;
    var boxes' := boxes[c := q];
    forall d ensures Ordered(BoxOf(boxes', d)) && Bounded(BoxOf(boxes', d), t') {
      if d != c { assert BoxOf(boxes', d) == BoxOf(boxes, d); }
    }
  }

  // What a queue that accepts `env`, or refuses it and is closed, may look like.
  predicate Extends(q: Queue, q': Queue, env: Envelope) {
    q'.accepted == q.accepted || q'.accepted == q.accepted + [env]
  }

  lemma {:induction false} OrderedDispatch(q: Queue, q': Queue, env: Envelope, t: Table)
    requires Ordered(q) && Bounded(q, t) && Extends(q, q', env) && env.body.Dispatch?
    requires env.body.route == t.nextID + 1 && (env.body.sequence == 0 || env.body.sequence == t.nextSequence + 1)
    ensures Ordered(q')
  {
    var a := q'.accepted;
    forall j | 0 <= j < |a| && a[j].body.CancelDispatch?
      ensures exists i :: 0 <= i < j && a[i].body.Dispatch? && a[i].body.route == a[j].body.route
    {
      var i :| 0 <= i < j && q.accepted[i].body.Dispatch? && q.accepted[i].body.route == q.accepted[j].body.route;
      assert a[i] == q.accepted[i];
    }
  }

  lemma {:induction false} OrderedCancel(q: Queue, q': Queue, env: Envelope)
    requires Ordered(q) && Extends(q, q', env) && env.body.CancelDispatch? && HasDispatch(q, env.body.route)
    requires forall k :: 0 <= k < |q.accepted| ==> q.accepted[k].body != env.body
    ensures Ordered(q')
  {
    var a := q'.accepted;
    forall j | 0 <= j < |a| && a[j].body.CancelDispatch?
      ensures exists i :: 0 <= i < j && a[i].body.Dispatch? && a[i].body.route == a[j].body.route
    {
      if j == |q.accepted| {
        var i :| 0 <= i < |q.accepted| && q.accepted[i].body.Dispatch? && q.accepted[i].body.route == env.body.route;
        assert a[i] == q.accepted[i];
      } else {
        var i :| 0 <= i < j && q.accepted[i].body.Dispatch? && q.accepted[i].body.route == q.accepted[j].body.route;
        assert a[i] == q.accepted[i];
      }
    }
  }

  lemma {:induction false} OrderedOther(q: Queue, q': Queue, env: Envelope)
    requires Ordered(q) && Extends(q, q', env) && !env.body.Dispatch? && !env.body.CancelDispatch?
    ensures Ordered(q')
  {
    var a := q'.accepted;
    forall j | 0 <= j < |a| && a[j].body.CancelDispatch?
      ensures exists i :: 0 <= i < j && a[i].body.Dispatch? && a[i].body.route == a[j].body.route
    {
      var i :| 0 <= i < j && q.accepted[i].body.Dispatch? && q.accepted[i].body.route == q.accepted[j].body.route;
      assert a[i] == q.accepted[i];
    }
  }

  lemma HasDispatchGrows(q: Queue, q': Queue, env: Envelope, id: nat)
    requires HasDispatch(q, id) && Extends(q, q', env)
    ensures HasDispatch(q', id)
  {
    var k :| 0 <= k < |q.accepted| && q.accepted[k].body.Dispatch? && q.accepted[k].body.route == id;
    assert q'.accepted[k] == q.accepted[k];
  }

  lemma OwedGrow(x: Inst, i: nat, owner: map<nat, nat>, boxes: map<Conn, Queue>, c: Conn, q: Queue, env: Envelope)
    requires CancelOwed(x, i, owner, boxes) && Extends(BoxOf(boxes, c), q, env)
    ensures CancelOwed(x, i, owner, boxes[c := q])
  {
    if x.phase.Ending? {
      forall k | 0 <= k < |x.phase.acts| && x.phase.acts[k].Cancel?
        ensures HasDispatch(BoxOf(boxes[c := q], x.phase.acts[k].target), x.phase.acts[k].route)
      {
        if x.phase.acts[k].target == c { HasDispatchGrows(BoxOf(boxes, c), q, env, x.phase.acts[k].route); }
      }
    }
  }

  // The rest of Cancels when one queue grows by anything but an unowned cancellation.
  lemma CancelsGrow(s: State, c: Conn, q: Queue, env: Envelope)
    requires Cancels(s) && Extends(BoxOf(s.boxes, c), q, env)
    requires env.body.CancelDispatch? ==>
               var id := env.body.route;
               && id in s.owner && s.owner[id] < |s.insts| && s.insts[s.owner[id]].phase.Ending?
               && !HasCancel(s.insts[s.owner[id]].phase.acts)
    ensures Cancels(s.(boxes := s.boxes[c := q]))
  {
    hide HasCancel, CancelOwed, HasDispatch;
    var s' := s.(boxes := s.boxes[c := q]);
    forall i | 0 <= i < |s.insts| ensures CancelOwed(s.insts[i], i, s.owner, s'.boxes) {
      OwedGrow(s.insts[i], i, s.owner, s.boxes, c, q, env);
    }
    forall id | id in s.t.entries ensures HasDispatch(BoxOf(s'.boxes, s.t.entries[id].target), id) {
      if s.t.entries[id].target == c { HasDispatchGrows(BoxOf(s.boxes, c), q, env, id); }
    }
    forall d, k | 0 <= k < |BoxOf(s'.boxes, d).accepted| && BoxOf(s'.boxes, d).accepted[k].body.CancelDispatch?
      ensures var id := BoxOf(s'.boxes, d).accepted[k].body.route;
              && id in s.owner && s.owner[id] < |s.insts| && s.insts[s.owner[id]].phase.Ending?
              && !HasCancel(s.insts[s.owner[id]].phase.acts)
    {
      if d != c || k < |BoxOf(s.boxes, c).accepted| {
        assert BoxOf(s'.boxes, d).accepted[k] == BoxOf(s.boxes, d).accepted[k];
      }
    }
  }

  lemma PushExtends(q: Queue, env: Envelope)
    requires QueueOk(q)
    ensures var (q', ok) := PushOn(q, env);
            && Extends(q, q', env) && QueueOk(q') && QueueOk(q'.(closed := true)) && Extends(q, q'.(closed := true), env)
            && q'.(closed := true).accepted == q'.accepted
  {
    PushKeeps(q, env);
  }

  lemma BoxOk(s: State, c: Conn)
    requires BoxesOk(s.boxes) && Streams(s.boxes, s.t)
    ensures QueueOk(BoxOf(s.boxes, c)) && Ordered(BoxOf(s.boxes, c)) && Bounded(BoxOf(s.boxes, c), s.t)
  {
  }

  lemma Unbounded(q: Queue, q': Queue, env: Envelope, t: Table)
    requires Bounded(q, t) && Extends(q, q', env) && !env.body.Dispatch?
    ensures Bounded(q', t)
  {
  }

  // conn.enqueue of anything but a route message.
  lemma Enqueues(s: State, c: Conn, env: Envelope)
    requires Inv(s) && !env.body.Dispatch? && !env.body.CancelDispatch?
    ensures Inv(s.(boxes := Enqueue(s.boxes, c, env)))
  {
    hide Inv, TableOk, EpochOk, InstsOk, Owned, Respected, Tracked, NoLeak, TrackersOk, BoxesOk, Streams, Cancels, QueueOk,
         Ordered, Bounded, PushOn, Extends;
    Parts(s);
    BoxOk(s, c);
    var q := BoxOf(s.boxes, c);
    var (p, ok) := PushOn(q, env);
    var q' := if ok then p else p.(closed := true);
    PushExtends(q, env);
    BoxesNext(s.boxes, c, q');
    OrderedOther(q, q', env);
    Unbounded(q, q', env, s.t);
    StreamsNext(s.boxes, s.t, s.t, c, q');
    CancelsGrow(s, c, q', env);
    SameEpoch(s, s.(boxes := s.boxes[c := q']));
    Join(s.(boxes := s.boxes[c := q']));
  }

  // The writer, or a close: the accepted stream stays.
  lemma Settles(s: State, c: Conn, q: Queue)
    requires Inv(s) && QueueOk(q) && q.accepted == BoxOf(s.boxes, c).accepted
    ensures Inv(s.(boxes := s.boxes[c := q]))
  {
    hide Inv, TableOk, EpochOk, InstsOk, Owned, Respected, Tracked, NoLeak, TrackersOk, BoxesOk, Streams, Cancels, QueueOk, Ordered, Bounded;
    Parts(s);
    BoxOk(s, c);
    BoxesNext(s.boxes, c, q);
    var none := Envelope(OtherBody(0), 0);
    OrderedOther(BoxOf(s.boxes, c), q, none);
    Unbounded(BoxOf(s.boxes, c), q, none, s.t);
    StreamsNext(s.boxes, s.t, s.t, c, q);
    CancelsGrow(s, c, q, none);
    SameEpoch(s, s.(boxes := s.boxes[c := q]));
    Join(s.(boxes := s.boxes[c := q]));
  }

  // ------------------------------------------------------------------ performing what is owed

  lemma ActInst(x: Inst)
    requires InstOk(x) && x.phase.Ending? && x.phase.acts != []
    ensures var y := x.(phase := Ending(x.phase.acts[1..]));
            match x.phase.acts[0]
            case Release => InstOk(y.(releases := x.releases + 1)) && Holding(x) && x.releases == 0
            case Respond(_) => InstOk(y.(responses := x.responses + 1))
            case Cancel(_, _) => InstOk(y) && !HasCancel(y.phase.acts)
  {
    var acts, rest := x.phase.acts, x.phase.acts[1..];
    assert forall k :: 0 <= k < |rest| ==> rest[k] == acts[k + 1];
    assert HasRelease(acts) == (acts[0].Release? || HasRelease(rest)) by {
      if HasRelease(rest) { var k :| 0 <= k < |rest| && rest[k].Release?; assert acts[k + 1].Release?; }
      if acts[0].Release? { assert acts[0].Release?; }
      else if HasRelease(acts) { var k :| 0 <= k < |acts| && acts[k].Release?; assert rest[k - 1].Release?; }
    }
    assert HasRespond(acts) == (acts[0].Respond? || HasRespond(rest)) by {
      if HasRespond(rest) { var k :| 0 <= k < |rest| && rest[k].Respond?; assert acts[k + 1].Respond?; }
      if acts[0].Respond? { assert acts[0].Respond?; }
      else if HasRespond(acts) { var k :| 0 <= k < |acts| && acts[k].Respond?; assert rest[k - 1].Respond?; }
    }
  }

  lemma FewerActs(s: State, i: nat, y: Inst)
    requires i < |s.insts| && Cancels(s) && s.insts[i].phase.Ending? && s.insts[i].phase.acts != []
    requires y.phase == Ending(s.insts[i].phase.acts[1..])
    ensures Cancels(Put(s, i, y))
  {
    var x, s' := s.insts[i], Put(s, i, y);
    var acts, rest := x.phase.acts, y.phase.acts;
    assert forall k :: 0 <= k < |rest| ==> rest[k] == acts[k + 1];
    assert CancelOwed(x, i, s.owner, s.boxes);
    assert CancelOwed(y, i, s.owner, s.boxes);
    assert HasCancel(rest) ==> HasCancel(acts) by {
      if HasCancel(rest) { var k :| 0 <= k < |rest| && rest[k].Cancel?; assert acts[k + 1].Cancel?; }
    }
    forall j | 0 <= j < |s'.insts| ensures CancelOwed(s'.insts[j], j, s'.owner, s'.boxes) {
      if j != i { assert CancelOwed(s.insts[j], j, s.owner, s.boxes); }
    }
  }

  lemma Acts(s: State, i: nat, size: nat)
    requires Inv(s) && i < |s.insts| && s.insts[i].phase.Ending? && s.insts[i].phase.acts != []
    ensures Inv(ActGo(s, i, size))
  {
    hide Inv, TableOk, EpochOk, InstsOk, Owned, Respected, Tracked, NoLeak, TrackersOk, BoxesOk, Streams, Cancels, InstOk,
         Enqueue, ReleaseOn, HasCancel;
    Parts(s);
    OkAt(s.insts, i);
    var x := s.insts[i];
    var y := x.(phase := Ending(x.phase.acts[1..]));
    ActInst(x);
    match x.phase.acts[0]
    case Respond(code) =>
      var z := y.(responses := x.responses + 1);
      ActPuts(s, i, z);
      Enqueues(Put(s, i, z), x.source, Envelope(Response(x.request, code), size));
    case Cancel(id, target) => ActCancels(s, i, size);
    case Release =>
      var z := y.(releases := x.releases + 1);
      var s' := ActGo(s, i, size);
      PutOwned(s, i, z);
      PutRespected(s, i, z);
      ReleasedTracked(s, i, z, s'.trackers);
      FewerActs(s, i, z);
      PutInsts(s, i, z);
      SameEpoch(s, s');
      CancelsSame(Put(s, i, z), s');
      Join(s');
  }

  lemma ActPuts(s: State, i: nat, z: Inst)
    requires Inv(s) && i < |s.insts| && s.insts[i].phase.Ending? && s.insts[i].phase.acts != []
    requires InstOk(z) && z.phase == Ending(s.insts[i].phase.acts[1..]) && Alike(s.insts[i], z)
    ensures Inv(Put(s, i, z))
  {
    hide Inv, TableOk, EpochOk, InstsOk, Owned, Respected, Tracked, NoLeak, TrackersOk, BoxesOk, Streams, Cancels, InstOk;
    Parts(s);
    PutOwned(s, i, z);
    PutRespected(s, i, z);
    PutTracked(s, i, z);
    PutNoLeak(s, i, z);
    FewerActs(s, i, z);
    PutInsts(s, i, z);
    SameEpoch(s, Put(s, i, z));
    Join(Put(s, i, z));
  }

  // The route of a cancellation that is owed has its Dispatch but no cancellation in the stream.
  lemma CancelFacts(s: State, i: nat)
    requires Cancels(s) && i < |s.insts| && s.insts[i].phase.Ending? && s.insts[i].phase.acts != []
    requires s.insts[i].phase.acts[0].Cancel?
    ensures var a := s.insts[i].phase.acts[0];
            && a.route in s.owner && s.owner[a.route] == i && HasDispatch(BoxOf(s.boxes, a.target), a.route)
            && forall k :: 0 <= k < |BoxOf(s.boxes, a.target).accepted| ==> BoxOf(s.boxes, a.target).accepted[k].body != CancelDispatch(a.route)
  {
    assert CancelOwed(s.insts[i], i, s.owner, s.boxes);
    assert HasCancel(s.insts[i].phase.acts);
  }

  lemma ActCancels(s: State, i: nat, size: nat)
    requires Inv(s) && i < |s.insts| && s.insts[i].phase.Ending? && s.insts[i].phase.acts != []
    requires s.insts[i].phase.acts[0].Cancel? && InstOk(s.insts[i])
    ensures Inv(ActGo(s, i, size))
  {
    hide Inv, TableOk, EpochOk, InstsOk, Owned, Respected, Tracked, NoLeak, TrackersOk, BoxesOk, Streams, Cancels, QueueOk,
         Ordered, Bounded, PushOn, Extends, InstOk, HasCancel, HasDispatch;
    Parts(s);
    var x := s.insts[i];
    var Cancel(id, c) := x.phase.acts[0];
    var y := x.(phase := Ending(x.phase.acts[1..]));
    var env := Envelope(CancelDispatch(id), size);
    ActInst(x);
    CancelFacts(s, i);
    ActPuts(s, i, y);
    var s1 := Put(s, i, y);
    Parts(s1);
    BoxOk(s1, c);
    var q := BoxOf(s1.boxes, c);
    var (p, ok) := PushOn(q, env);
    var q' := if ok then p else p.(closed := true);
    PushExtends(q, env);
    BoxesNext(s1.boxes, c, q');
    OrderedCancel(q, q', env);
    Unbounded(q, q', env, s1.t);
    StreamsNext(s1.boxes, s1.t, s1.t, c, q');
    CancelsGrow(s1, c, q', env);
    SameEpoch(s1, s1.(boxes := s1.boxes[c := q']));
    Join(s1.(boxes := s1.boxes[c := q']));
  }

  // ------------------------------------------------------------------ publication

  lemma PublishedOwned(entries: map<nat, Entry>, insts: seq<Inst>, owner: map<nat, nat>, i: nat, e: Entry, y: Inst)
    requires Owned(entries, insts, owner) && i < |insts| && !insts[i].phase.Live? && e.id !in owner
    requires y.phase.Live? && y.phase.id == e.id && e.source == y.source && e.request == y.request
    requires y.source == insts[i].source && y.request == insts[i].request
    ensures Owned(entries[e.id := e], insts[i := y], owner[e.id := i])
  {
  }

  lemma PublishedRespected(s: State, i: nat, e: Entry, y: Inst)
    requires Respected(s.t.entries, s.insts, s.owner, s.revs) && Owned(s.t.entries, s.insts, s.owner) && i < |s.insts|
    requires e.id !in s.owner && !s.insts[i].phase.Live? && y.phase.Live? && y.phase.id == e.id && y.phase.e == |s.revs|
    ensures Respected(s.t.entries[e.id := e], s.insts[i := y], s.owner[e.id := i], s.revs)
  {
  }

  lemma PublishedTable(t: Table, e: Entry, sequence: nat)
    requires TableOk(t) && e.id == t.nextID + 1
    ensures TableOk(t.(entries := t.entries[e.id := e], tokens := t.tokens + {e.id}, nextID := e.id, nextSequence := sequence))
  {
  }

  lemma PublishedStream(q: Queue, env: Envelope, t: Table, nextSequence: nat)
    requires Ordered(q) && Bounded(q, t) && PushOn(q, env).1 && env.body.Dispatch? && env.body.route == t.nextID + 1
    requires (env.body.sequence == 0 && nextSequence == t.nextSequence) || env.body.sequence == nextSequence == t.nextSequence + 1
    ensures var q' := PushOn(q, env).0;
            Ordered(q') && Bounded(q', t.(nextID := t.nextID + 1, nextSequence := nextSequence)) && HasDispatch(q', t.nextID + 1)
  {
    var q' := PushOn(q, env).0;
    OrderedDispatch(q, q', env, t);
    assert q'.accepted[|q.accepted|] == env;
  }

  lemma PublishedCancels(s: State, i: nat, e: Entry, y: Inst, q: Queue, t': Table, env: Envelope)
    requires Cancels(s) && i < |s.insts| && !s.insts[i].phase.Ending? && y.phase.Live? && e.id == s.t.nextID + 1
    requires Extends(BoxOf(s.boxes, e.target), q, env) && !env.body.CancelDispatch? && HasDispatch(q, e.id)
    requires t'.entries == s.t.entries[e.id := e] && t'.nextID == e.id
    ensures Cancels(s.(t := t', owner := s.owner[e.id := i], insts := s.insts[i := y], boxes := s.boxes[e.target := q]))
  {
    hide HasCancel, HasDispatch;
    var s1 := s.(boxes := s.boxes[e.target := q]);
    CancelsGrow(s, e.target, q, env);
    var s' := s.(t := t', owner := s.owner[e.id := i], insts := s.insts[i := y], boxes := s.boxes[e.target := q]);
    forall j | 0 <= j < |s'.insts| ensures CancelOwed(s'.insts[j], j, s'.owner, s'.boxes) {
      assert CancelOwed(s1.insts[j], j, s1.owner, s1.boxes);
    }
  }

  // The Provider's queue takes the Dispatch.
  lemma PublishedBoxes(s: State, call: Call, q': Queue, t': Table)
    requires BoxesOk(s.boxes) && Streams(s.boxes, s.t)
    requires PushOn(BoxOf(s.boxes, call.target), EnvelopeOf(s.t, call)) == (q', true)
    requires t'.nextID == s.t.nextID + 1
    requires t'.nextSequence == if call.lease != 0 then s.t.nextSequence + 1 else s.t.nextSequence
    ensures BoxesOk(s.boxes[call.target := q']) && Streams(s.boxes[call.target := q'], t') && HasDispatch(q', t'.nextID)
    ensures Extends(BoxOf(s.boxes, call.target), q', EnvelopeOf(s.t, call))
  {
    hide BoxesOk, Streams, QueueOk, Ordered, Bounded, PushOn, Extends, HasDispatch;
    var q, env := BoxOf(s.boxes, call.target), EnvelopeOf(s.t, call);
    BoxOk(s, call.target);
    PushExtends(q, env);
    PublishedStream(q, env, s.t, t'.nextSequence);
    BoundedBy(q', s.t.(nextID := t'.nextID, nextSequence := t'.nextSequence), t');
    BoxesNext(s.boxes, call.target, q');
    StreamsNext(s.boxes, s.t, t', call.target, q');
  }

  // What published: the call's epoch is the table's.
  lemma Publishes(s: State, i: nat, deadline: int, lease: nat, size: nat)
    requires Inv(s) && i < |s.insts| && s.insts[i].phase.Held?
    requires PublishOn(s.t, CallOf(s.insts[i], deadline, lease, size), BoxOf(s.boxes, s.insts[i].phase.target)).2.Published?
    ensures Inv(PublishGo(s, i, deadline, lease, size))
  {
    hide Inv, TableOk, InstsOk, Owned, Respected, Tracked, NoLeak, TrackersOk, BoxesOk, Streams, Cancels,
         PushOn, Extends, InstOk, HasDispatch, Alike;
    Parts(s);
    var x := s.insts[i];
    var call := CallOf(x, deadline, lease, size);
    var e := EntryOf(s.t, call);
    var q' := PushOn(BoxOf(s.boxes, call.target), EnvelopeOf(s.t, call)).0;
    var y := x.(phase := Live(e.id, x.phase.e));
    var s' := PublishGo(s, i, deadline, lease, size);
    OwnerBound(s);
    OkAt(s.insts, i);
    HeldToLive(x, y);
    PublishedOwned(s.t.entries, s.insts, s.owner, i, e, y);
    PublishedRespected(s, i, e, y);
    PublishedTable(s.t, e, s'.t.nextSequence);
    PublishedBoxes(s, call, q', s'.t);
    PublishedCancels(s, i, e, y, q', s'.t, EnvelopeOf(s.t, call));
    PutTracked(s, i, y);
    LiveLeak(s, i, y);
    PutInsts(s, i, y);
    Join(s');
  }

  lemma LiveLeak(s: State, i: nat, y: Inst)
    requires i < |s.insts| && NoLeak(s.insts, s.trackers) && Alike(s.insts[i], y)
    ensures NoLeak(s.insts[i := y], s.trackers)
  {
    hide NoLeak;
    PutNoLeak(s, i, y);
  }

  lemma OwnerBound(s: State)
    requires Cancels(s)
    ensures s.t.nextID + 1 !in s.owner
  {
  }

  lemma HeldToLive(x: Inst, y: Inst)
    requires InstOk(x) && x.phase.Held? && y == x.(phase := y.phase) && y.phase.Live?
    ensures InstOk(y) && Alike(x, y)
  {
  }

  lemma BoundedBy(q: Queue, t: Table, t': Table)
    requires Bounded(q, t) && t'.nextID == t.nextID && t'.nextSequence == t.nextSequence
    ensures Bounded(q, t')
  {
  }

  // A refused publication: the route id and the command sequence stay consumed.
  lemma Spends(s: State, t': Table)
    requires Inv(s) && t' == s.t.(nextID := t'.nextID, nextSequence := t'.nextSequence)
    requires s.t.nextID <= t'.nextID && s.t.nextSequence <= t'.nextSequence
    ensures Inv(s.(t := t'))
  {
    hide Owned, Respected, Tracked, NoLeak, TrackersOk, BoxesOk, InstsOk, Ordered, HasCancel, HasDispatch;
  }

  lemma FailInst(x: Inst, code: Code)
    requires InstOk(x) && x.phase.Held?
    ensures var y := Fail([Release, Respond(code)], x); InstOk(y) && Alike(x, y) && !HasCancel(y.phase.acts)
    ensures var y := Fail([Respond(code), Release], x); InstOk(y) && Alike(x, y) && !HasCancel(y.phase.acts)
  {
    hide HasCancel, HasRelease, HasRespond, Distinct;
    Shapes(code);
  }

  lemma Fails(s: State, i: nat, code: Code)
    requires Inv(s) && i < |s.insts| && s.insts[i].phase.Held?
    ensures Inv(Put(s, i, Fail([Release, Respond(code)], s.insts[i])))
    ensures Inv(Put(s, i, Fail([Respond(code), Release], s.insts[i])))
  {
    hide Inv, InstOk, InstsOk, HasCancel, Alike;
    Parts(s);
    OkAt(s.insts, i);
    FailInst(s.insts[i], code);
    Rephase(s, i, Fail([Release, Respond(code)], s.insts[i]));
    Rephase(s, i, Fail([Respond(code), Release], s.insts[i]));
  }

  lemma PublishKeeps(s: State, i: nat, deadline: int, lease: nat, size: nat)
    requires Inv(s) && i < |s.insts| && s.insts[i].phase.Held?
    ensures Inv(PublishGo(s, i, deadline, lease, size))
  {
    hide Inv, BoxesOk, Streams, Ordered, Bounded, QueueOk;
    var x := s.insts[i];
    var call := CallOf(x, deadline, lease, size);
    var q := BoxOf(s.boxes, call.target);
    var (t, q', p) := PublishOn(s.t, call, q);
    match p
    case EpochChanged => Fails(s, i, Unavailable);
    case SequenceExhausted => Fails(s, i, Internal);
    case Published(_) => Publishes(s, i, deadline, lease, size);
    case TargetUnavailable(_) =>
      var s1 := Put(s, i, Fail([Release, Respond(Unavailable)], x));
      Fails(s, i, Unavailable);
      Spends(s1, t);
      Parts(s1.(t := t));
      BoxOk(s1.(t := t), call.target);
      assert q' == q;
      ClosedOk(q);
      Settles(s1.(t := t), call.target, q.(closed := true));
  }

  lemma ClosedOk(q: Queue)
    requires QueueOk(q)
    ensures QueueOk(q.(closed := true))
  {
  }

  // ------------------------------------------------------------------ taking routes out

  lemma ActsShape(cause: Cause, e: Entry)
    ensures var acts := ActsFor(cause, e);
            && Distinct(acts) && HasRelease(acts) && HasRespond(acts) == !Silences(cause, e)
            && forall k :: 0 <= k < |acts| && acts[k].Cancel? ==> acts[k] == Cancel(e.id, e.target)
  {
    var acts := ActsFor(cause, e);
    assert acts[if cause.Revoked? then 1 else 0].Release?;
    if !Silences(cause, e) { assert acts[if cause.Revoked? then 2 else 1].Respond?; }
  }

  lemma EndInstOk(x: Inst, entries: map<nat, Entry>, cause: Cause)
    requires InstOk(x)
    ensures InstOk(EndInst(x, entries, cause)) && Holding(EndInst(x, entries, cause)) == Holding(x)
  {
    hide HasRelease, HasRespond, Distinct, ActsFor, Silences;
    if x.phase.Live? && x.phase.id in Chosen(entries, cause) { ActsShape(cause, entries[x.phase.id]); }
  }

  lemma EndInsts(s: State, cause: Cause)
    requires InstsOk(s.insts)
    ensures InstsOk(End(s, cause).insts)
    ensures forall i :: 0 <= i < |s.insts| ==> Alike(s.insts[i], End(s, cause).insts[i])
  {
    hide InstOk, Holding, Chosen, RemoveOn;
    forall i | 0 <= i < |s.insts| ensures InstOk(End(s, cause).insts[i]) && Alike(s.insts[i], End(s, cause).insts[i]) {
      EndInstOk(s.insts[i], s.t.entries, cause);
    }
  }

  lemma EndOwned(s: State, cause: Cause)
    requires Owned(s.t.entries, s.insts, s.owner)
    ensures var s' := End(s, cause); Owned(s'.t.entries, s'.insts, s'.owner)
  {
    hide ActsFor, Silences, Ends;
  }

  lemma EndRespected(s: State, cause: Cause)
    requires Respected(s.t.entries, s.insts, s.owner, s.revs) && Owned(s.t.entries, s.insts, s.owner)
    ensures var s' := End(s, cause); Respected(s'.t.entries, s'.insts, s'.owner, s'.revs)
  {
    hide ActsFor, Silences, Hits;
  }

  lemma EndTable(s: State, cause: Cause)
    requires TableOk(s.t) && EpochOk(s)
    ensures TableOk(End(s, cause).t) && EpochOk(End(s, cause))
  {
    hide Ends, EndInst;
  }

  lemma EndTracked(insts: seq<Inst>, insts': seq<Inst>, trackers: map<Conn, Tracker>)
    requires Tracked(insts, trackers) && NoLeak(insts, trackers) && |insts'| == |insts|
    requires forall i :: 0 <= i < |insts| ==> Alike(insts[i], insts'[i])
    ensures Tracked(insts', trackers) && NoLeak(insts', trackers)
  {
    hide Holding;
    forall c, r | r in TrackerOf(trackers, c).requests
      ensures exists j :: 0 <= j < |insts'| && Holding(insts'[j]) && insts'[j].source == c && insts'[j].request == r
    {
      var j :| 0 <= j < |insts| && Holding(insts[j]) && insts[j].source == c && insts[j].request == r;
      assert Alike(insts[j], insts'[j]);
    }
  }

  lemma EndOwed(s: State, cause: Cause, i: nat)
    requires Cancels(s) && Owned(s.t.entries, s.insts, s.owner) && TableOk(s.t) && i < |s.insts|
    ensures CancelOwed(End(s, cause).insts[i], i, s.owner, s.boxes)
  {
    hide ActsFor, Silences, Ends, HasDispatch, HasCancel;
    var x := s.insts[i];
    assert CancelOwed(x, i, s.owner, s.boxes);
    if x.phase.Live? && x.phase.id in Chosen(s.t.entries, cause) { ActsShape(cause, s.t.entries[x.phase.id]); }
  }

  lemma EndCancels(s: State, cause: Cause)
    requires Cancels(s) && Owned(s.t.entries, s.insts, s.owner) && TableOk(s.t)
    ensures Cancels(End(s, cause))
  {
    hide CancelOwed, HasDispatch, HasCancel, ActsFor, Silences, Ends;
    forall i | 0 <= i < |s.insts| ensures CancelOwed(End(s, cause).insts[i], i, s.owner, s.boxes) { EndOwed(s, cause, i); }
  }

  lemma EndStreams(s: State, cause: Cause)
    requires Streams(s.boxes, s.t)
    ensures Streams(End(s, cause).boxes, End(s, cause).t)
  {
    hide Ordered, Chosen, EndInst;
  }

  lemma EndKeeps(s: State, cause: Cause)
    requires Inv(s)
    ensures Inv(End(s, cause))
  {
    hide Inv, TableOk, EpochOk, InstsOk, Owned, Respected, Tracked, NoLeak, TrackersOk, BoxesOk, Streams, Cancels, RemoveOn, EndInst;
    Parts(s);
    EndInsts(s, cause);
    EndOwned(s, cause);
    EndRespected(s, cause);
    EndTable(s, cause);
    EndTracked(s.insts, End(s, cause).insts, s.trackers);
    EndCancels(s, cause);
    EndStreams(s, cause);
    Join(End(s, cause));
  }

  // ------------------------------------------------------------------ every step, every run

  lemma StartInv(s: State)
    requires s == Start
    ensures Inv(s)
  {
  }

  lemma EarlyInst(x: Inst, y: Inst)
    requires InstOk(x) && (x.phase.Fresh? || x.phase.Sampled? || x.phase.Resolved?)
    requires y.phase.Sampled? || y.phase.Resolved? || (y.phase.Ending? && |y.phase.acts| == 1 && y.phase.acts[0].Respond?)
    requires y == x.(phase := y.phase)
    ensures InstOk(y) && Alike(x, y) && (y.phase.Ending? ==> !HasCancel(y.phase.acts))
  {
    if y.phase.Ending? { Shapes(y.phase.acts[0].code); assert y.phase.acts == [y.phase.acts[0]]; }
  }

  lemma Early(s: State, i: nat, y: Inst)
    requires Inv(s) && i < |s.insts| && (s.insts[i].phase.Fresh? || s.insts[i].phase.Sampled? || s.insts[i].phase.Resolved?)
    requires y.phase.Sampled? || y.phase.Resolved? || (y.phase.Ending? && |y.phase.acts| == 1 && y.phase.acts[0].Respond?)
    requires y == s.insts[i].(phase := y.phase)
    ensures Inv(Put(s, i, y))
  {
    hide Inv, InstOk, InstsOk, HasCancel, Alike;
    Parts(s);
    OkAt(s.insts, i);
    EarlyInst(s.insts[i], y);
    Rephase(s, i, y);
  }

  lemma StepKeeps(s: State, step: Step)
    requires Inv(s)
    ensures Inv(Do(s, step))
  {
    hide Inv, ReserveGo, PublishGo, ActGo, End, Enqueue, QueueOk, BoxesOk, Streams, Ordered, Bounded, PopOn;
    match step
    case Arrive(c, r, n) => if r != 0 { Arrives(s, Inst(c, r, n, Fresh, false, false, 0, 0)); }
    case Sample(i) => if At(s, i) && s.insts[i].phase.Fresh? { Early(s, i, s.insts[i].(phase := Sampled(s.t.epoch))); }
    case Resolve(i, target, route) =>
      if At(s, i) && s.insts[i].phase.Sampled? { Early(s, i, s.insts[i].(phase := Resolved(s.insts[i].phase.e, target, route))); }
    case Refuse(i, code) =>
      if At(s, i) && (s.insts[i].phase.Fresh? || s.insts[i].phase.Sampled? || s.insts[i].phase.Resolved?) {
        Early(s, i, Fail([Respond(code)], s.insts[i]));
      }
    case Reserve(i) => if At(s, i) && s.insts[i].phase.Resolved? { Reserves(s, i); }
    case Abort(i, code) => if At(s, i) && s.insts[i].phase.Held? { Fails(s, i, code); }
    case Builtin(i, code) => if At(s, i) && s.insts[i].phase.Held? { Fails(s, i, code); }
    case PublishRoute(i, d, l, n) => if At(s, i) && s.insts[i].phase.Held? { PublishKeeps(s, i, d, l, n); }
    case EndRoutes(cause) => EndKeeps(s, cause);
    case Perform(i, n) => if At(s, i) && s.insts[i].phase.Ending? && s.insts[i].phase.acts != [] { Acts(s, i, n); }
    case Queued(c, tag, n) => Enqueues(s, c, Envelope(OtherBody(tag), n));
    case WriterPops(c) => SettleBox(s, c);
    case CloseBox(c) => SettleBox(s, c);
  }

  lemma SettleBox(s: State, c: Conn)
    requires Inv(s)
    ensures Inv(s.(boxes := s.boxes[c := PopOn(BoxOf(s.boxes, c)).0]))
    ensures Inv(s.(boxes := s.boxes[c := BoxOf(s.boxes, c).(closed := true)]))
  {
    hide Inv, QueueOk, Ordered, Bounded, BoxesOk, Streams;
    Parts(s);
    BoxOk(s, c);
    PopKeeps(BoxOf(s.boxes, c));
    ClosedOk(BoxOf(s.boxes, c));
    Settles(s, c, PopOn(BoxOf(s.boxes, c)).0);
    Settles(s, c, BoxOf(s.boxes, c).(closed := true));
  }

  lemma {:induction false} RunInv(steps: seq<Step>)
    ensures Inv(Exec(steps))
  {
    hide Inv, Do;
    if steps == [] {
      StartInv(Start);
    } else {
      RunInv(steps[..|steps| - 1]);
      StepKeeps(Exec(steps[..|steps| - 1]), steps[|steps| - 1]);
    }
  }
}
