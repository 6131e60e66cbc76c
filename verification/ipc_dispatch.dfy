/** The route table: who may end a dispatched call, and which revocations it must respect. */
module Routes {
  import opened Wrappers
  import opened IpcTypes
  import opened Outbox

  // A connection with the package its peer belongs to.
  datatype Conn = Conn(id: nat, package: string)

  // What authorisation looked at when it resolved the call.
  datatype Route = Route(
    endpoint: nat, registration: nat, permissions: seq<string>, resource: string, generation: nat, needsControl: bool)

  datatype Entry = Entry(
    id: nat, source: Conn, request: nat, target: Conn, deadline: int, route: Route, sequence: nat)

  datatype Revocation =
    | OfEndpoint(provider: Conn, endpoint: nat, registration: nat)
    | OfPackage(package: string)
    | OfPermission(package: string, permission: string)
    | OfResource(resource: string, generation: nat)
    | OfControl(caller: nat, resource: string)

  predicate Hits(r: Revocation, source: Conn, target: Conn, route: Route) {
    match r
    case OfEndpoint(provider, endpoint, registration) =>
      target == provider && route.endpoint == endpoint && (registration == 0 || route.registration == registration)
    case OfPackage(package) => source.package == package || target.package == package
    case OfPermission(package, permission) => source.package == package && permission in route.permissions
    case OfResource(resource, generation) => route.resource == resource && route.generation == generation
    case OfControl(caller, resource) => source.id == caller && route.resource == resource && route.needsControl
  }

  /** Open route tokens are what still lets a Provider open a stream for a route. */
  datatype Table = Table(entries: map<nat, Entry>, tokens: set<nat>, epoch: nat, nextID: nat, nextSequence: nat)

  const NoRoutes: Table := Table(map[], {}, 0, 0, 0)

  datatype Publish = Published(id: nat) | EpochChanged | TargetUnavailable(id: nat) | SequenceExhausted

  // The call to publish; lease 0 means that no control command is involved.
  datatype Call = Call(
    epoch: nat, source: Conn, request: nat, target: Conn, deadline: int, route: Route, lease: nat, size: nat)

  function SequenceOf(t: Table, call: Call): nat { if call.lease != 0 then t.nextSequence + 1 else 0 }

  function EnvelopeOf(t: Table, call: Call): Envelope {
    Envelope(Dispatch(t.nextID + 1, SequenceOf(t, call)), call.size)
  }

  function EntryOf(t: Table, call: Call): Entry {
    Entry(t.nextID + 1, call.source, call.request, call.target, call.deadline, call.route, SequenceOf(t, call))
  }

  /** Publication against a queue: all of it happens under the table's lock. */
  function PublishOn(t: Table, call: Call, q: Queue): (Table, Queue, Publish) {
    if t.epoch != call.epoch then (t, q, EpochChanged)
    else if call.lease != 0 && t.nextSequence == MAX_UINT64 then (t, q, SequenceExhausted)
    else
      var id := t.nextID + 1;
      var (q', pushed) := PushOn(q, EnvelopeOf(t, call));
      var spent := t.(nextID := id, nextSequence := if call.lease != 0 then t.nextSequence + 1 else t.nextSequence);
      if pushed
      then (spent.(entries := t.entries[id := EntryOf(t, call)], tokens := t.tokens + {id}), q', Published(id))
      else (spent, q', TargetUnavailable(id))
  }

  /** Why routes are taken out of the table. */
  datatype Cause =
    | Revoked(rev: Revocation)
    | Reaped(now: int)
    | ConnClosed(conn: Conn)
    | Completed(id: nat, provider: Conn, now: int, code: Code)

  predicate Ends(cause: Cause, e: Entry) {
    match cause
    case Revoked(r) => Hits(r, e.source, e.target, e.route)
    case Reaped(now) => now > e.deadline
    case ConnClosed(c) => e.target == c || e.source == c
    case Completed(id, from, _, _) => e.id == id && e.target == from
  }

  function Chosen(entries: map<nat, Entry>, cause: Cause): set<nat> {
    set id | id in entries && Ends(cause, entries[id])
  }

  function TargetsOf(entries: map<nat, Entry>, c: Conn): set<nat> {
    set id | id in entries && entries[id].target == c
  }

  function SourcesOf(entries: map<nat, Entry>, c: Conn): set<nat> {
    set id | id in entries && entries[id].target != c && entries[id].source == c
  }

  /** Revocation also moves the epoch, whether or not it hits anything. */
  function RemoveOn(t: Table, cause: Cause): Table {
    var ids := Chosen(t.entries, cause);
    t.(entries := t.entries - ids, tokens := t.tokens - ids, epoch := t.epoch + if cause.Revoked? then 1 else 0)
  }

  ghost predicate TableOk(t: Table) {
    && t.tokens == t.entries.Keys
    && forall id :: id in t.entries ==> t.entries[id].id == id && 1 <= id <= t.nextID
  }

  /** `list` names every chosen entry exactly once. */
  ghost predicate Lists(list: seq<Entry>, entries: map<nat, Entry>, ids: set<nat>) {
    && (forall i :: 0 <= i < |list| ==> list[i].id in ids && list[i].id in entries && entries[list[i].id] == list[i])
    && (forall i, j :: 0 <= i < j < |list| ==> list[i].id != list[j].id)
    && (forall id :: id in ids ==> exists i :: 0 <= i < |list| && list[i].id == id)
  }

  lemma ListsNext(list: seq<Entry>, entries: map<nat, Entry>, ids: set<nat>, e: Entry)
    requires Lists(list, entries, ids) && e.id !in ids && e.id in entries && entries[e.id] == e
    ensures Lists(list + [e], entries, ids + {e.id})
  {
    forall id | id in ids + {e.id} ensures exists i :: 0 <= i < |list + [e]| && (list + [e])[i].id == id {
      if id == e.id { assert (list + [e])[|list|].id == id; } else {
        var i :| 0 <= i < |list| && list[i].id == id;
        assert (list + [e])[i].id == id;
      }
    }
  }

  lemma ListsNone(entries: map<nat, Entry>)
    ensures Lists([], entries, {})
  {
  }

  // One step of a pass over `was`, which has deleted what of `all` is not left.
  lemma SweepNext(was: map<nat, Entry>, tokens: set<nat>, all: set<nat>, left: set<nat>, id: nat)
    requires id in left && left <= was.Keys
    ensures var done := all - left;
            && id !in done && (was - done)[id] == was[id]
            && all - (left - {id}) == (if id in all then done + {id} else done)
            && was - done - {id} == was - (done + {id}) && tokens - done - {id} == tokens - (done + {id})
  {
  }

  lemma NoneLeft(all: set<nat>, left: set<nat>)
    requires left == {}
    ensures all - left == all
  {
  }

  lemma Sets(all: set<nat>, left: set<nat>, id: nat)
    requires id in left
    ensures all - (left - {id}) == (if id in all then (all - left) + {id} else all - left)
  {
  }

  lemma ChosenIs(was: map<nat, Entry>, cause: Cause)
    ensures forall id :: id in Chosen(was, cause) <==> id in was && Ends(cause, was[id])
    ensures {} == Chosen(was, cause) - was.Keys && was == was - {}
  {
  }

  lemma KeysAre(t: Table)
    requires TableOk(t)
    ensures forall id :: id in t.entries ==> t.entries[id].id == id
  {
  }

  lemma ClosedIs(was: map<nat, Entry>, c: Conn)
    ensures forall id :: id in TargetsOf(was, c) <==> id in was && was[id].target == c
    ensures forall id :: id in SourcesOf(was, c) <==> id in was && was[id].target != c && was[id].source == c
    ensures {} == TargetsOf(was, c) - was.Keys && {} == SourcesOf(was, c) - was.Keys && was == was - {}
    ensures forall id :: id in Chosen(was, ConnClosed(c)) <==> id in was && (was[id].target == c || was[id].source == c)
    ensures {} == Chosen(was, ConnClosed(c)) - was.Keys
  {
  }

  datatype Status = CompleteOK | NotFound | Mismatch | Expired

  class DispatchTable {
    var entries: map<nat, Entry>
    var tokens: set<nat>
    var epoch: nat
    var nextID: nat
    var nextCommandSequence: nat

    ghost function Value(): Table
      reads this
    {
      Table(entries, tokens, epoch, nextID, nextCommandSequence)
    }

    ghost predicate Valid()
      reads this
    {
      TableOk(Value())
    }

    constructor ()
      ensures Valid() && Value() == NoRoutes
    {
      entries, tokens, epoch, nextID, nextCommandSequence := map[], {}, 0, 0, 0;
    }

    /** The route is entered before the Dispatch is queued, and withdrawn again when the Provider's
        queue refuses it; the id and the command sequence stay consumed. */
    method PublishDispatchAtEpoch(call: Call, outbox: OutboundQueue) returns (result: Publish)
      requires Valid() && outbox.Valid()
      modifies this, outbox
      ensures Valid() && outbox.Valid()
      ensures (Value(), outbox.Value(), result) == PublishOn(old(Value()), call, old(outbox.Value()))
    {
      hide QueueOk, PushOn;
      ghost var t := Value();
      if epoch != call.epoch { return EpochChanged; }
      var sequence := 0;
      if call.lease != 0 {
        if nextCommandSequence == MAX_UINT64 { return SequenceExhausted; }
        nextCommandSequence := nextCommandSequence + 1;
        sequence := nextCommandSequence;
      }
      nextID := nextID + 1;
      var id := nextID;
      entries := entries[id := Entry(id, call.source, call.request, call.target, call.deadline, call.route, sequence)];
      tokens := tokens + {id};
      assert Envelope(Dispatch(id, sequence), call.size) == EnvelopeOf(t, call) && entries[id] == EntryOf(t, call);
      var pushed := outbox.Push(Envelope(Dispatch(id, sequence), call.size));
      if !pushed {
        entries := entries - {id};
        tokens := tokens - {id};
        assert entries == old(entries) && tokens == old(tokens);
        return TargetUnavailable(id);
      }
      return Published(id);
    }

    /** One pass over the entries, in any order, deleting those that the cause ends. */
    method Sweep(cause: Cause) returns (removed: seq<Entry>)
      requires Valid()
      modifies this`entries, this`tokens
      ensures entries == old(entries) - Chosen(old(entries), cause) && tokens == old(tokens) - Chosen(old(entries), cause)
      ensures Lists(removed, old(entries), Chosen(old(entries), cause))
    {
      hide Lists, Chosen, Ends;
      ghost var was, was', all := entries, tokens, Chosen(entries, cause);
      removed := [];
      var left := entries.Keys;
      ListsNone(was);
      ChosenIs(was, cause);
      while left != {}
        invariant left <= was.Keys
        invariant entries == was - (all - left) && tokens == was' - (all - left)
        invariant Lists(removed, was, all - left)
        decreases |left|
      {
        var id :| id in left;
        SweepNext(was, was', all, left, id);
        var e := entries[id];
        if Ends(cause, e) {
          ListsNext(removed, was, all - left, e);
          entries := entries - {id};
          tokens := tokens - {id};
          removed := removed + [e];
        }
        left := left - {id};
      }
      NoneLeft(all, left);
    }

    method Revoke(rev: Revocation) returns (revoked: seq<Entry>)
      requires Valid()
      modifies this
      ensures Valid() && Value() == RemoveOn(old(Value()), Revoked(rev))
      ensures Lists(revoked, old(entries), Chosen(old(entries), Revoked(rev)))
    {
      epoch := epoch + 1;
      revoked := Sweep(Revoked(rev));
    }

    method Reap(now: int) returns (expired: seq<Entry>)
      requires Valid()
      modifies this
      ensures Valid() && Value() == RemoveOn(old(Value()), Reaped(now))
      ensures Lists(expired, old(entries), Chosen(old(entries), Reaped(now)))
    {
      expired := Sweep(Reaped(now));
    }

    /** Both lists together are what the connection took part in; a route to itself counts as one
        of which it is the target. */
    method Close(c: Conn) returns (asTarget: seq<Entry>, asSource: seq<Entry>)
      requires Valid()
      modifies this`entries, this`tokens
      ensures entries == old(entries) - Chosen(old(entries), ConnClosed(c))
      ensures tokens == old(tokens) - Chosen(old(entries), ConnClosed(c))
      ensures Lists(asTarget, old(entries), TargetsOf(old(entries), c))
      ensures Lists(asSource, old(entries), SourcesOf(old(entries), c))
    {
      hide Lists, TableOk;
      ghost var was, was' := entries, tokens;
      ghost var ins, outs, both := TargetsOf(was, c), SourcesOf(was, c), Chosen(was, ConnClosed(c));
      asTarget, asSource := [], [];
      var left := entries.Keys;
      KeysAre(Value());
      ListsNone(was);
      ClosedIs(was, c);
      hide TargetsOf, SourcesOf, Chosen;
      while left != {}
        invariant left <= was.Keys
        invariant entries == was - (both - left) && tokens == was' - (both - left)
        invariant Lists(asTarget, was, ins - left) && Lists(asSource, was, outs - left)
        decreases |left|
      {
        var id :| id in left;
        SweepNext(was, was', both, left, id);
        var e := entries[id];
        Sets(ins, left, id);
        Sets(outs, left, id);
        if c == e.target {
          ListsNext(asTarget, was, ins - left, e);
          asTarget := asTarget + [e];
        } else if c == e.source {
          ListsNext(asSource, was, outs - left, e);
          asSource := asSource + [e];
        }
        if c == e.target || c == e.source { entries, tokens := entries - {id}, tokens - {id}; }
        left := left - {id};
      }
      NoneLeft(ins, left);
      NoneLeft(outs, left);
      NoneLeft(both, left);
    }

    /** Only the registered Provider's result takes the entry; a late one takes it too, but as
        expired. */
    method Complete(id: nat, provider: Conn, now: int) returns (e: Option<Entry>, status: Status)
      requires Valid()
      modifies this
      ensures Valid()
      ensures forall code :: Value() == RemoveOn(old(Value()), Completed(id, provider, now, code))
      ensures e == if id in old(entries) && old(entries)[id].target == provider then Some(old(entries)[id]) else None
      ensures status == if id !in old(entries) then NotFound
                        else if old(entries)[id].target != provider then Mismatch
                        else if now >= old(entries)[id].deadline then Expired else CompleteOK
    {
      ghost var was := entries;
      if id !in entries {
        assert forall code :: Chosen(was, Completed(id, provider, now, code)) == {};
        return None, NotFound;
      }
      var found := entries[id];
      if found.target != provider {
        assert forall code :: Chosen(was, Completed(id, provider, now, code)) == {};
        return None, Mismatch;
      }
      assert forall code :: Chosen(was, Completed(id, provider, now, code)) == {id};
      entries := entries - {id};
      tokens := tokens - {id};
      return Some(found), if now >= found.deadline then Expired else CompleteOK;
    }
  }
}
