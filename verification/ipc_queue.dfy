/** The per-connection parts of the IPC server: the bounded outbound queue, the in-flight request
    tracker and the connection-scoped lease handles. */
module IpcTypes {
  const MAX_INFLIGHT_REQUESTS: nat := 64
  const MAX_INFLIGHT_PAYLOAD_BYTES: nat := 0x10_0000
  const MAX_OUTBOUND_QUEUE_BYTES: nat := 0x8_0000
  const MAX_UINT64: nat := 0xFFFF_FFFF_FFFF_FFFF

  datatype Code =
    | Unspecified | InvalidArgument | ResourceExhausted | Unavailable | Internal
    | PermissionDenied | FailedPrecondition | DeadlineExceeded | Given(wire: nat)

  datatype Body =
    | Dispatch(route: nat, sequence: nat)   // sequence 0: not a control command
    | CancelDispatch(route: nat)
    | Response(request: nat, code: Code)
    | OtherBody(tag: nat)

  // `size` is the encoded length; an envelope is not changed once queued.
  datatype Envelope = Envelope(body: Body, size: nat)
}

module Outbox {
  import opened Wrappers
  import opened IpcTypes

  /** A queue by its history: everything ever accepted, and how much of it has left. */
  datatype Queue = Queue(accepted: seq<Envelope>, popped: nat, bytes: int, closed: bool)

  const Empty: Queue := Queue([], 0, 0, false)

  function Weight(items: seq<Envelope>): nat {
    if |items| == 0 then 0 else items[0].size + Weight(items[1..])
  }

  /** A full or closed queue refuses; nothing already queued is ever displaced. */
  function PushOn(q: Queue, env: Envelope): (Queue, bool) {
    if q.closed || q.bytes + env.size > MAX_OUTBOUND_QUEUE_BYTES then (q, false)
    else (q.(accepted := q.accepted + [env], bytes := q.bytes + env.size), true)
  }

  function PopOn(q: Queue): (Queue, Option<Envelope>) {
    if q.popped < |q.accepted|
    then (q.(popped := q.popped + 1, bytes := q.bytes - q.accepted[q.popped].size), Some(q.accepted[q.popped]))
    else (q, None)
  }

  ghost predicate QueueOk(q: Queue) {
    q.popped <= |q.accepted| && q.bytes == Weight(q.accepted[q.popped..]) && q.bytes <= MAX_OUTBOUND_QUEUE_BYTES
  }

  lemma {:induction false} WeightAppend(items: seq<Envelope>, env: Envelope)
    ensures Weight(items + [env]) == Weight(items) + env.size
  {
    if |items| == 0 {
      assert items + [env] == [env];
    } else {
      assert (items + [env])[1..] == items[1..] + [env];
      WeightAppend(items[1..], env);
    }
  }

  /** The byte count is the weight of what is queued, and never passes the bound. */
  lemma PushKeeps(q: Queue, env: Envelope)
    requires QueueOk(q)
    ensures QueueOk(PushOn(q, env).0)
  {
    WeightAppend(q.accepted[q.popped..], env);
    assert (q.accepted + [env])[q.popped..] == q.accepted[q.popped..] + [env];
  }

  lemma PopKeeps(q: Queue)
    requires QueueOk(q)
    ensures QueueOk(PopOn(q).0)
  {
    if q.popped < |q.accepted| {
      assert q.accepted[q.popped..][1..] == q.accepted[q.popped + 1..];
    }
  }

  class OutboundQueue {
    var items: seq<Envelope>
    var bytes: int
    var closed: bool
    ghost var gone: seq<Envelope>   // what the writer has popped

    ghost function Value(): Queue
      reads this
    {
      Queue(gone + items, |gone|, bytes, closed)
    }

    ghost predicate Valid()
      reads this
    {
      QueueOk(Value())
    }

    constructor ()
      ensures Valid() && Value() == Empty
    {
      items, bytes, closed, gone := [], 0, false, [];
    }

    method Push(env: Envelope) returns (ok: bool)
      requires Valid()
      modifies this
      ensures Valid() && (Value(), ok) == PushOn(old(Value()), env)
    {
      PushKeeps(Value(), env);
      if closed || bytes + env.size > MAX_OUTBOUND_QUEUE_BYTES { return false; }
      assert gone + (items + [env]) == gone + items + [env];
      items := items + [env];
      bytes := bytes + env.size;
      return true;
    }

    /** One turn of the writer at the queue; None with `done` means closed and drained. */
    method Pop() returns (env: Option<Envelope>, done: bool)
      requires Valid()
      modifies this
      ensures Valid() && (Value(), env) == PopOn(old(Value()))
      ensures done <==> env.None? && closed
    {
      PopKeeps(Value());
      if |items| > 0 {
        var first := items[0];
        assert (gone + [first]) + items[1..] == gone + items;
        gone := gone + [first];
        items := items[1..];
        bytes := bytes - first.size;
        return Some(first), false;
      }
      return None, closed;
    }

    method Close()
      requires Valid()
      modifies this`closed
      ensures Valid() && Value() == old(Value()).(closed := true)
    {
      closed := true;
    }
  }
}

module Requests {
  import opened IpcTypes

  /** The in-flight requests of one connection with their payload sizes. */
  datatype Tracker = Tracker(requests: map<nat, nat>, bytes: int)

  const Idle: Tracker := Tracker(map[], 0)

  function ReserveOn(t: Tracker, id: nat, payload: nat): (Tracker, Code) {
    if id in t.requests then (t, InvalidArgument)
    else if |t.requests| >= MAX_INFLIGHT_REQUESTS || t.bytes + payload > MAX_INFLIGHT_PAYLOAD_BYTES then (t, ResourceExhausted)
    else (Tracker(t.requests[id := payload], t.bytes + payload), Unspecified)
  }

  function ReleaseOn(t: Tracker, id: nat): Tracker {
    if id in t.requests then Tracker(t.requests - {id}, t.bytes - t.requests[id]) else t
  }

  ghost function Total(requests: map<nat, nat>): nat {
    if requests == map[] then 0 else
      var id :| id in requests;
      requests[id] + Total(requests - {id})
  }

  lemma {:induction false} TotalWithout(requests: map<nat, nat>, id: nat)
    requires id in requests
    ensures Total(requests) == requests[id] + Total(requests - {id})
    decreases |requests|
  {
    var first :| first in requests && Total(requests) == requests[first] + Total(requests - {first});
    if first != id {
      TotalWithout(requests - {first}, id);
      TotalWithout(requests - {id}, first);
      assert requests - {first} - {id} == requests - {id} - {first};
    }
  }

  ghost predicate TrackerOk(t: Tracker) {
    t.bytes == Total(t.requests) && |t.requests| <= MAX_INFLIGHT_REQUESTS && t.bytes <= MAX_INFLIGHT_PAYLOAD_BYTES
  }

  /** requestBytes is the sum over the reserved requests, within both limits, at all times. */
  lemma ReserveKeeps(t: Tracker, id: nat, payload: nat)
    requires TrackerOk(t)
    ensures TrackerOk(ReserveOn(t, id, payload).0)
  {
    if id !in t.requests {
      TotalWithout(t.requests[id := payload], id);
      assert t.requests[id := payload] - {id} == t.requests;
    }
  }

  lemma ReleaseKeeps(t: Tracker, id: nat)
    requires TrackerOk(t)
    ensures TrackerOk(ReleaseOn(t, id))
  {
    if id in t.requests {
      TotalWithout(t.requests, id);
      assert t.requests == (t.requests - {id})[id := t.requests[id]];
    }
  }

  datatype TrackerOp = Taken(id: nat, payload: nat) | Given(id: nat)

  function Run(t: Tracker, ops: seq<TrackerOp>): Tracker {
    if ops == [] then t else
      var u := Run(t, ops[..|ops| - 1]);
      match ops[|ops| - 1] case Taken(id, payload) => ReserveOn(u, id, payload).0 case Given(id) => ReleaseOn(u, id)
  }

  lemma OpKeeps(t: Tracker, op: TrackerOp, id: nat)
    requires TrackerOk(t) && op.id != id && id in t.requests
    ensures var u := match op case Taken(j, p) => ReserveOn(t, j, p).0 case Given(j) => ReleaseOn(t, j);
            TrackerOk(u) && id in u.requests && u.requests[id] == t.requests[id]
  {
    hide TrackerOk;
    match op
    case Taken(j, p) => ReserveKeeps(t, j, p);
    case Given(j) => ReleaseKeeps(t, j);
  }

  // Other requests do not touch a reservation.
  lemma {:induction false} RunKeeps(t: Tracker, ops: seq<TrackerOp>, id: nat)
    requires TrackerOk(t) && id in t.requests && forall i :: 0 <= i < |ops| ==> ops[i].id != id
    ensures var u := Run(t, ops); TrackerOk(u) && id in u.requests && u.requests[id] == t.requests[id]
  {
    hide TrackerOk, ReserveOn, ReleaseOn;
    if ops != [] {
      RunKeeps(t, ops[..|ops| - 1], id);
      OpKeeps(Run(t, ops[..|ops| - 1]), ops[|ops| - 1], id);
    }
  }

  /** A release gives back exactly what its reservation took, whatever was reserved or released for other
      requests in between; with nothing in between everything is as it was. */
  lemma ReleaseUndoes(t: Tracker, id: nat, payload: nat, ops: seq<TrackerOp>)
    requires TrackerOk(t) && ReserveOn(t, id, payload).1 == Unspecified
    requires forall i :: 0 <= i < |ops| ==> ops[i].id != id
    ensures var u := Run(ReserveOn(t, id, payload).0, ops);
            && TrackerOk(u) && TrackerOk(ReleaseOn(u, id)) && id in u.requests
            && ReleaseOn(u, id) == Tracker(u.requests - {id}, u.bytes - payload)
            && (ops == [] ==> ReleaseOn(u, id) == t)
  {
    hide TrackerOk;
    ReserveKeeps(t, id, payload);
    var r := ReserveOn(t, id, payload).0;
    RunKeeps(r, ops, id);
    ReleaseKeeps(Run(r, ops), id);
    assert t.requests[id := payload] - {id} == t.requests;
  }

  class RequestTracker {
    var requests: map<nat, nat>
    var requestBytes: int

    ghost function Value(): Tracker
      reads this
    {
      Tracker(requests, requestBytes)
    }

    ghost predicate Valid()
      reads this
    {
      TrackerOk(Value())
    }

    constructor ()
      ensures Valid() && Value() == Idle
    {
      requests, requestBytes := map[], 0;
    }

    method Reserve(id: nat, payload: nat) returns (code: Code)
      requires Valid()
      modifies this
      ensures Valid() && (Value(), code) == ReserveOn(old(Value()), id, payload)
    {
      ReserveKeeps(Value(), id, payload);
      if id in requests { return InvalidArgument; }
      if |requests| >= MAX_INFLIGHT_REQUESTS || requestBytes + payload > MAX_INFLIGHT_PAYLOAD_BYTES {
        return ResourceExhausted;
      }
      requests := requests[id := payload];
      requestBytes := requestBytes + payload;
      return Unspecified;
    }

    method Release(id: nat)
      requires Valid()
      modifies this
      ensures Valid() && Value() == ReleaseOn(old(Value()), id)
    {
      ReleaseKeeps(Value(), id);
      if id in requests {
        var payload := requests[id];
        requests := requests - {id};
        requestBytes := requestBytes - payload;
      }
    }
  }
}

/** Connection-scoped wire handles of control leases. */
module LeaseHandles {
  import opened IpcTypes

  class Handles {
    var nextLease: nat
    var leases: map<nat, nat>        // handle -> lease
    var leaseHandles: map<nat, nat>  // lease -> handle
    ghost var issued: map<nat, nat>  // every handle ever issued, with its lease

    /** The two maps are inverse, and a handle names one lease for the life of the connection. */
    ghost predicate Valid()
      reads this
    {
      && (forall h :: h in leases ==> leases[h] in leaseHandles && leaseHandles[leases[h]] == h)
      && (forall id :: id in leaseHandles ==> leaseHandles[id] in leases && leases[leaseHandles[id]] == id)
      && (forall h :: h in issued <==> 1 <= h <= nextLease)
      && (forall h :: h in leases ==> h in issued && issued[h] == leases[h])
    }

    constructor ()
      ensures Valid() && issued == map[] && leases == map[]
    {
      nextLease, leases, leaseHandles, issued := 0, map[], map[], map[];
    }

    /** A renewal keeps its handle; any other lease gets a number never used before. */
    method Register(id: nat) returns (handle: nat)
      requires Valid()
      modifies this
      ensures Valid() && handle != 0 && handle in leases && leases[handle] == id
      ensures if id in old(leaseHandles)
              then handle == old(leaseHandles)[id] && leases == old(leases) && issued == old(issued)
              else handle !in old(issued) && leases == old(leases)[handle := id] && issued == old(issued)[handle := id]
    {
      if id in leaseHandles { return leaseHandles[id]; }
      nextLease := nextLease + 1;
      leases := leases[nextLease := id];
      leaseHandles := leaseHandles[id := nextLease];
      issued := issued[nextLease := id];
      return nextLease;
    }

    /** Releasing a handle forgets exactly that handle. */
    method Forget(handle: nat)
      requires Valid()
      modifies this`leases, this`leaseHandles
      ensures Valid() && leases == old(leases) - {handle}
    {
      ghost var was := leases;
      if handle in leases && leases[handle] in leaseHandles && leaseHandles[leases[handle]] == handle {
        leaseHandles := leaseHandles - {leases[handle]};
      }
      leases := leases - {handle};
    }

    /** The end of a lease retires the handle of exactly that lease; a newer lease on the same
        connection and resource keeps its own. */
    method ForgetLease(id: nat)
      requires Valid()
      modifies this`leases, this`leaseHandles
      ensures Valid() && id !in leaseHandles
      ensures forall h :: h in leases <==> h in old(leases) && old(leases)[h] != id
      ensures forall h :: h in leases ==> leases[h] == old(leases)[h]
    {
      if id in leaseHandles { Forget(leaseHandles[id]); }
    }
  }
}
