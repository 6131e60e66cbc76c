/** The guarantees of request dispatch, for every interleaving. */
module IpcGuarantees {
  import opened IpcTypes
  import opened Outbox
  import opened Requests
  import opened Routes
  import opened IpcRuns
  import opened IpcInvariant
  import opened IpcProof

  // ------------------------------------------------------------------ how an instance moves

  predicate HasEpoch(p: Phase) { p.Sampled? || p.Resolved? || p.Held? || p.Live? }

  function EpochOf(p: Phase): nat
    requires HasEpoch(p)
  {
    match p case Sampled(e) => e case Resolved(e, _, _) => e case Held(e, _, _) => e case Live(_, e) => e
  }

  /** An instance never goes back, and keeps the epoch it sampled. */
  predicate Progress(x: Inst, y: Inst) {
    && y.source == x.source && y.request == x.request && y.payload == x.payload
    && (y.phase.Fresh? ==> x.phase.Fresh?)
    && (HasEpoch(y.phase) && !x.phase.Fresh? ==> HasEpoch(x.phase) && EpochOf(y.phase) == EpochOf(x.phase))
    && x.responses <= y.responses && x.releases <= y.releases
  }

  ghost predicate AllProgress(s: State, s': State) {
    |s.insts| <= |s'.insts| && forall i :: 0 <= i < |s.insts| ==> Progress(s.insts[i], s'.insts[i])
  }

  lemma PutProgress(s: State, s': State, i: nat)
    requires i < |s.insts| && |s'.insts| == |s.insts| && s'.insts == s.insts[i := s'.insts[i]] && Progress(s.insts[i], s'.insts[i])
    ensures AllProgress(s, s')
  {
  }

  lemma EndProgress(s: State, cause: Cause)
    ensures AllProgress(s, End(s, cause))
  {
    hide ActsFor, Silences, RemoveOn, Chosen;
  }

  lemma StepProgress(s: State, step: Step)
    ensures AllProgress(s, Do(s, step))
    ensures s.revs <= Do(s, step).revs
  {
    hide End, AllProgress, PushOn, PublishOn, Enqueue, ReserveOn, ReleaseOn, PopOn;
    if step.EndRoutes? {
      EndProgress(s, step.cause);
      EndRevs(s, step.cause);
    } else {
      StepRevs(s, step);
      if step.Arrive? || step.Queued? || step.WriterPops? || step.CloseBox? {
        Unchanged(s, Do(s, step));
      } else if At(s, step.i) {
        StepAt(s, step);
        PutProgress(s, Do(s, step), step.i);
      } else {
        Unchanged(s, s);
      }
    }
  }

  ghost predicate Moves(s: State, s': State, i: nat) {
    i < |s.insts| && |s'.insts| == |s.insts| && s'.insts == s.insts[i := s'.insts[i]] && Progress(s.insts[i], s'.insts[i])
  }

  lemma ReserveMoves(s: State, i: nat)
    requires i < |s.insts| && s.insts[i].phase.Resolved?
    ensures Moves(s, ReserveGo(s, i), i)
  {
    hide ReserveOn;
  }

  lemma PublishMoves(s: State, i: nat, d: int, l: nat, n: nat)
    requires i < |s.insts| && s.insts[i].phase.Held?
    ensures Moves(s, PublishGo(s, i, d, l, n), i)
  {
    hide PublishOn;
  }

  lemma ActMoves(s: State, i: nat, n: nat)
    requires i < |s.insts| && s.insts[i].phase.Ending? && s.insts[i].phase.acts != []
    ensures Moves(s, ActGo(s, i, n), i)
  {
    hide Enqueue, ReleaseOn;
  }

  lemma StepAt(s: State, step: Step)
    requires !step.EndRoutes? && !step.Arrive? && !step.Queued? && !step.WriterPops? && !step.CloseBox? && At(s, step.i)
    ensures Moves(s, Do(s, step), step.i)
  {
    hide ReserveGo, PublishGo, ActGo;
    var x := s.insts[step.i];
    if step.Reserve? && x.phase.Resolved? { ReserveMoves(s, step.i); }
    else if step.PublishRoute? && x.phase.Held? { PublishMoves(s, step.i, step.deadline, step.lease, step.size); }
    else if step.Perform? && x.phase.Ending? && x.phase.acts != [] { ActMoves(s, step.i, step.size); }
  }

  lemma Unchanged(s: State, s': State)
    requires s.insts <= s'.insts
    ensures AllProgress(s, s')
  {
  }

  lemma EndRevs(s: State, cause: Cause)
    ensures s.revs <= End(s, cause).revs
  {
  }

  lemma StepRevs(s: State, step: Step)
    requires !step.EndRoutes?
    ensures Do(s, step).revs == s.revs
  {
    hide PushOn, Enqueue, ReserveOn, ReleaseOn, PublishOn;
  }

  function StateAt(steps: seq<Step>, n: nat): State
    requires n <= |steps|
  {
    Exec(steps[..n])
  }

  lemma AtNext(steps: seq<Step>, n: nat)
    requires n < |steps|
    ensures StateAt(steps, n + 1) == Do(StateAt(steps, n), steps[n])
  {
    assert steps[..n + 1][..n] == steps[..n];
  }

  lemma {:induction false} Later(steps: seq<Step>, m: nat, n: nat, i: nat)
    requires m <= n <= |steps| && i < |StateAt(steps, m).insts|
    ensures i < |StateAt(steps, n).insts| && Progress(StateAt(steps, m).insts[i], StateAt(steps, n).insts[i])
    ensures StateAt(steps, m).revs <= StateAt(steps, n).revs
  {
    hide Do;
    if m < n {
      Later(steps, m, n - 1, i);
      AtNext(steps, n - 1);
      StepProgress(StateAt(steps, n - 1), steps[n - 1]);
    }
  }

  // ------------------------------------------------------------------ revocation

  /** Revocation-epoch safety: when a request's authority was sampled before a revocation and its
      route is live at any later time, that revocation does not apply to the route - however the
      sampling, the lookups, the publication and the revocation were interleaved. */
  lemma RevocationSafety(steps: seq<Step>, i: nat, a: nat, b: nat, n: nat, rev: Revocation)
    requires a < b < n <= |steps| && steps[a] == Sample(i) && steps[b] == EndRoutes(Revoked(rev))
    requires i < |StateAt(steps, a).insts| && StateAt(steps, a).insts[i].phase.Fresh?
    requires i < |StateAt(steps, n).insts| && StateAt(steps, n).insts[i].phase.Live?
    ensures var (s, id) := (StateAt(steps, n), StateAt(steps, n).insts[i].phase.id);
            && id in s.t.entries && s.t.entries[id].source == s.insts[i].source && s.t.entries[id].request == s.insts[i].request
            && !Hits(rev, s.t.entries[id].source, s.t.entries[id].target, s.t.entries[id].route)
  {
    hide Inv, Hits, Do, Start;
    var s := StateAt(steps, n);
    AtNext(steps, a);
    AtNext(steps, b);
    SampleStep(StateAt(steps, a), i);
    RevokeStep(StateAt(steps, b), rev);
    Later(steps, a + 1, n, i);
    Later(steps, a + 1, b, i);
    Later(steps, b + 1, n, i);
    RunInv(steps[..n]);
    RunInv(steps[..a]);
    EpochGives(StateAt(steps, a));
    LiveGives(s, i, |StateAt(steps, b).revs|);
  }

  lemma SampleStep(s: State, i: nat)
    requires i < |s.insts| && s.insts[i].phase.Fresh?
    ensures var s' := Do(s, Sample(i)); i < |s'.insts| && s'.insts[i].phase == Sampled(s.t.epoch) && s'.revs == s.revs
  {
  }

  lemma RevokeStep(s: State, rev: Revocation)
    ensures var s' := Do(s, EndRoutes(Revoked(rev))); s'.revs == s.revs + [rev] && |s'.insts| == |s.insts|
  {
    hide EndInst, RemoveOn;
  }

  lemma EpochGives(s: State)
    requires Inv(s)
    ensures s.t.epoch == |s.revs|
  {
  }

  lemma LiveGives(s: State, i: nat, j: nat)
    requires Inv(s) && i < |s.insts| && s.insts[i].phase.Live? && s.insts[i].phase.e <= j < |s.revs|
    ensures var id := s.insts[i].phase.id;
            && id in s.t.entries && s.t.entries[id].source == s.insts[i].source && s.t.entries[id].request == s.insts[i].request
            && !Hits(s.revs[j], s.t.entries[id].source, s.t.entries[id].target, s.t.entries[id].route)
  {
    hide Hits, Tracked, NoLeak, TrackersOk, BoxesOk, Streams, Cancels, InstsOk;
  }

  // ------------------------------------------------------------------ one response, one release

  /** Every request instance is answered at most once and released at most once; when it is finished
      it has been answered exactly once - unless its own connection went away - and released exactly
      if it had been reserved. */
  lemma OneResponse(steps: seq<Step>, n: nat, i: nat)
    requires n <= |steps| && i < |StateAt(steps, n).insts|
    ensures var x := StateAt(steps, n).insts[i];
            && x.responses <= 1 && x.releases <= 1
            && (!x.phase.Ending? ==> x.responses == 0 && x.releases == 0)
            && (x.phase == Ending([]) ==> x.responses == One(!x.silent) && x.releases == One(x.reserved))
  {
    hide Inv, HasRelease, HasRespond, InstsOk, InstOk;
    RunInv(steps[..n]);
    Parts(StateAt(steps, n));
    OkAt(StateAt(steps, n).insts, i);
    Counted(StateAt(steps, n).insts[i]);
  }

  lemma Counted(x: Inst)
    requires InstOk(x)
    ensures x.responses <= 1 && x.releases <= 1 && (!x.phase.Ending? ==> x.responses == 0 && x.releases == 0)
    ensures x.phase == Ending([]) ==> x.responses == One(!x.silent) && x.releases == One(x.reserved)
  {
  }

  lemma GoneStep(s: State, step: Step, id: nat)
    requires id <= s.t.nextID && id !in s.t.entries
    ensures id <= Do(s, step).t.nextID && id !in Do(s, step).t.entries
  {
    hide PushOn, Enqueue, ReserveOn, ReleaseOn, EndInst;
  }

  /** A route that has been taken out of the table never comes back, so exactly one of result, reaper,
      revocation and disconnect ends it. */
  lemma {:induction false} RouteNeverReturns(steps: seq<Step>, m: nat, n: nat, id: nat)
    requires m <= n <= |steps| && id <= StateAt(steps, m).t.nextID && id !in StateAt(steps, m).t.entries
    ensures id <= StateAt(steps, n).t.nextID && id !in StateAt(steps, n).t.entries
  {
    hide Do;
    if m < n {
      RouteNeverReturns(steps, m, n - 1, id);
      AtNext(steps, n - 1);
      GoneStep(StateAt(steps, n - 1), steps[n - 1], id);
    }
  }

  /** A route token is open exactly while its route is live; every live route belongs to exactly one
      unanswered request instance. */
  lemma TokensAreLive(steps: seq<Step>, n: nat)
    requires n <= |steps|
    ensures var s := StateAt(steps, n);
            && s.t.tokens == s.t.entries.Keys
            && (forall id :: id in s.t.tokens ==>
                  id in s.owner && s.owner[id] < |s.insts| && s.insts[s.owner[id]].phase.Live? && s.insts[s.owner[id]].phase.id == id)
            && (forall i, j :: 0 <= i < j < |s.insts| && s.insts[i].phase.Live? && s.insts[j].phase.Live? ==>
                  s.insts[i].phase.id != s.insts[j].phase.id)
  {
    hide Tracked, NoLeak, TrackersOk, BoxesOk, Streams, Cancels, InstsOk, Respected;
    RunInv(steps[..n]);
  }

  // ------------------------------------------------------------------ limits

  /** Per connection, the reserved requests are exactly the unreleased instances, requestBytes is
      their sum, and neither limit is passed. */
  lemma InflightAccounting(steps: seq<Step>, n: nat, c: Conn)
    requires n <= |steps|
    ensures var s := StateAt(steps, n);
            var tr := TrackerOf(s.trackers, c);
            && tr.bytes == Total(tr.requests) <= MAX_INFLIGHT_PAYLOAD_BYTES && |tr.requests| <= MAX_INFLIGHT_REQUESTS
            && (forall i :: 0 <= i < |s.insts| && Holding(s.insts[i]) && s.insts[i].source == c ==>
                  s.insts[i].request in tr.requests && tr.requests[s.insts[i].request] == s.insts[i].payload)
            && (forall r :: r in tr.requests ==>
                  exists i :: 0 <= i < |s.insts| && Holding(s.insts[i]) && s.insts[i].source == c && s.insts[i].request == r)
  {
    hide Inv, InstsOk, Owned, Respected, BoxesOk, Streams, Cancels;
    RunInv(steps[..n]);
    Parts(StateAt(steps, n));
    assert TrackerOk(TrackerOf(StateAt(steps, n).trackers, c));
  }

  // ------------------------------------------------------------------ the Provider's stream

  /** In every Provider's accepted stream: at most one Dispatch and one CancelDispatch per route, the
      Dispatch first; command sequences strictly increase; what is queued is what was accepted and not
      popped, within the byte bound. */
  lemma ProviderStream(steps: seq<Step>, n: nat, c: Conn)
    requires n <= |steps|
    ensures var q := BoxOf(StateAt(steps, n).boxes, c); Ordered(q) && QueueOk(q)
  {
    hide Inv, Ordered, QueueOk, Bounded;
    RunInv(steps[..n]);
    Parts(StateAt(steps, n));
    BoxOk(StateAt(steps, n), c);
  }

  /** A revocation that comes between sampling and publication keeps the Dispatch from ever being
      queued. */
  lemma RevokedBeforePublication(s: State, i: nat, rev: Revocation, deadline: int, lease: nat, size: nat)
    requires i < |s.insts| && s.insts[i].phase.Held? && s.insts[i].phase.e <= s.t.epoch
    ensures var s1 := End(s, Revoked(rev));
            && PublishGo(s1, i, deadline, lease, size).boxes == s.boxes
            && PublishGo(s1, i, deadline, lease, size).t == s1.t
            && PublishGo(s1, i, deadline, lease, size).insts[i].phase == Ending([Release, Respond(Unavailable)])
  {
    hide PushOn;
  }
}
