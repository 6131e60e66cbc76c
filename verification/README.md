# Verification model of nervud's control, dispatch, operation, audit and catalog cores

Dafny models of the concurrent and state-keeping cores of the robot kernel daemon, with the guarantees
its comments claim stated and proved. `dafny verify dfyconfig.toml` checks everything.

* **Motion gate** (`motion_gate.dfy`): the packed 64-bit word of Safety state and motion epoch, and its
  compare-and-swap loops, run against an arbitrary schedule of other threads' operations.
* **Control leases** (`control_*.dfy`): the lease protocol as a transition system whose steps are single
  atomic operations. Its threads are the holder of `mu`, a Control Lane that may drain, the Safety
  supervisor with its lock-free `RevokeAll`, any number of re-arm and of Refresh callers, one lock-free
  reader, and the environment. `control_protocol.dfy` is the system, `control_invariant.dfy` its inductive
  invariant, `control_proof*.dfy`, `control_runs.dfy` and `control_theorems.dfy` the proof that every step
  keeps it, `control_guarantees.dfy`, `control_accounting.dfy` and `control_ledger.dfy` what it means for
  whole runs, `control_decisions.dfy` and `control_terms.dfy` what is decided about which lease, `control_rearm.dfy` and `control_witness.dfy` what the re-arm path does without the
  environment rule below.
* **IPC dispatch** (`ipc_*.dfy`): outbound queues, request trackers, lease handles and the route table as
  objects, and a transition system over them at the granularity of the server's locks; `ipc_answers.dfy`
  says what the peers get to see.
* **Operation manager** (`operation_*.dfy`): the object, its critical sections as functions, and the
  guarantees over whole runs; `operation_outcomes.dfy` says what each step does to which operation.
* **Audit chain** (`audit_*.dfy`): the hash chain and its verifiers, files as bytes, the recorder with
  rotation, restart and crash at any byte; `audit_contents.dfy` says which record tells of which event;
  `audit_witness.dfy` holds the histories that fail and a hash
  and codec that meet the assumptions.
* **Catalog and endpoints** (`catalog_*.dfy`, `endpoint_route.dfy`), **event scopes**
  (`event_scope.dfy`), **user data ACL** (`user_data_acl.dfy`), **control policy** (`control_policy.dfy`).

Functions and transition systems carry the meaning; a class or method is the code that does it, and its
`ensures` ties the new state to the function.

## Assumptions

* Atomics are sequentially consistent. Epochs do not reach 2^56 - 1 in the control protocol
  (`MotionGate.NeverInvalid` holds across a wrap). Counters that the source keeps in 64 bits (route ids,
  authorization epoch, operation ids, audit sequence) are unbounded, except the command sequence, whose
  exhaustion is modelled.
* `internal/control/doc.go:51` and `internal/control/slot.go:363-373` say that Safety runs `RevokeAll` for
  each Trip, one at a time. The model follows `internal/safety/supervisor.go:39-80` for that. The guarantees
  of `ControlGuarantees` and `ControlAccounting` take as an environment rule that the `RevokeAll` of the last
  Trip is finished when the gate is re-armed (`ControlProtocol.Swept`), for any number of re-arm callers.
  `Module.Rearm` (`internal/safety/module.go:345-367`) does not establish the rule by itself;
  `ControlRearm` says what holds without it.
* Lease identifiers do not repeat; the clock does not run backwards.
* The hash is injective on the hashed fields and never empty; a record's line decodes to it, contains no
  newline and no proper beginning of it decodes (`AuditChain.Injective`, `AuditFile.Faithful`).
* Equality of definition meanings stands for the source's contract and owner comparisons.

## What the code does that a reader might not expect

* A gap record whose write fails takes the losses it was to report with it
  (`internal/audit/file.go:422-435`, `internal/audit/file.go:464-471`): `AuditRuns.GapWriteDecides`.
* A restart with no readable record in the current file starts a chain at sequence 1 even when rotated
  files exist, and the verifier of all files then rejects them (`internal/audit/file.go:239-248`): exactly
  when is `AuditProof.RestartVerifiesIff`, a history that gets there is `AuditWitness.RestartCanBreak`.
* The verifier reads the first record of the oldest file without a check (`cmd/nervusctl/audit.go:101-105`):
  the `Panics` verdict of `AuditChain.VerifyFiles`, reached in `AuditWitness.OldestCanBeEmpty`.
* `Refresh` may mark a replacement lease fresh with its own, later clock reading
  (`internal/control/slot.go:262-279`); the deadman guarantee speaks of a sign of life of some lease on the
  slot.
* `Module.Rearm` checks the settled stop phase and swaps the gate in two steps, and nothing orders its
  callers (`internal/safety/module.go:345-367`, `internal/safety/builtin.go:80-95`). With one caller stale
  leases are still never accepted (`ControlRearm.OneCallerIsSafe`), but the end of a lease can be delivered
  after the next grant of its slot (`ControlWitness.EndComesTooLate`). With two callers a check can accept a
  lease that a Trip overtook (`ControlWitness.RearmCheckIsNotEnough`). A swap is safe exactly if the safety
  floor has reached every lease still around (`ControlRearm.SwapIsSafeIff`) and keeps the protocol's
  invariant exactly if `RevokeAll` is finished (`ControlRearm.SwapKeepsInvariantIff`); comparing the epoch
  in the swap would ensure it (`ControlRearm.ComparedSwapKeepsRule`).

## Model

| member | source | states |
|---|---|---|
| `MotionGate.PackExact` | internal/motiongate/gate.go:27-37 | packing a state and a 56-bit epoch into one word loses nothing, in both directions |
| `MotionGate.NeverInvalid` | internal/motiongate/gate.go:16-45 | no sequence of gate operations, of any length and even across a wrap, ever shows epoch 0 or an unknown state |
| `MotionGate.EffectiveOpAges` | internal/motiongate/gate.go:66-158 | short of 2^56 boundaries every operation that takes effect makes the word strictly older; Trip, the bumps and Rearm advance the epoch by exactly one, the others not at all |
| `MotionGate.NoAba` | internal/motiongate/gate.go:49-158 | a word seen at both ends of a run was there at every point of it |
| `MotionGate.FrozenAfterTrip` | internal/motiongate/gate.go:103-136 | from a Trip until the next Trip or Rearm the epoch does not move, whatever lease operations are tried |
| `MotionGate.Gate.Trip` | internal/motiongate/gate.go:66-79 | the retry loop, under any interference, is exactly one atomic Trip at one instant, and reports whether that one took effect |
| `MotionGate.Gate.BumpEpochIfNormal` | internal/motiongate/gate.go:103-116 | test-and-advance is one instant: on success the gate is Normal at the returned epoch, otherwise it is not Normal and unchanged by the call |
| `MotionGate.Gate.RequireRearm` | internal/motiongate/gate.go:123-135 | exactly one atomic RequireRearm under any interference |
| `MotionGate.Gate.Cas1` | internal/motiongate/gate.go:119-158 | BeginRecovery and Rearm are exactly one atomic transition from their one source state |
| `MotionGate.Gate.CompareAndSwap` | internal/motiongate/gate.go:66-79 | one attempt: succeeds exactly if the word is still the one loaded |
| `ControlRuns.RunInv` | internal/control/slot.go:167-223 | after every sequence of single atomic steps of the holder of mu, the drainer, RevokeAll, any number of re-arm and Refresh callers, a reader and the gate environment, the inductive invariant of the protocol holds |
| `ControlRuns.StepKeeps` | internal/control/slot.go:46-697 | every atomic step of every thread keeps that invariant |
| `ControlProof.SupervisorKeeps` | internal/control/slot.go:374-402 | each of RevokeAll's atomic operations keeps the invariant without mu, including what the holder of mu relies on at its program point |
| `ControlProof.DrainKeeps` | internal/control/lane.go:94-117 | so does each step of drainRevoked |
| `ControlProof.EnvKeeps` | internal/motiongate/gate.go:66-158 | so do Trip, BeginRecovery, RequireRearm, Refresh, the clock and the shutdown flag |
| `ControlProof.RearmKeeps` | internal/safety/module.go:345-367 | so does each step of any re-arm caller, if the swap finds the RevokeAll of the last Trip finished |
| `ControlStepProof.AcquireKeeps` | internal/control/slot.go:46-129 | so does each step of Acquire up to its decision; what it decides is in ControlDecisions |
| `ControlStepProof.IssueKeepsMu` | internal/control/slot.go:167-193 | so does each step of issueLocked before publication |
| `ControlStepProof.PublishKeeps` | internal/control/slot.go:194-223 | so does publication and its re-check |
| `ControlStepProof.EndKeeps` | internal/control/slot.go:618-647 | so does dropping a lease: compare-and-swap, one epoch boundary, notification |
| `ControlGuarantees.NoStaleLeaseAccepted` | internal/control/slot.go:541-588 | once a Trip has taken effect, no check that starts later accepts a lease whose epoch is not above the token of that Trip, also after any re-arm by any number of callers that finds RevokeAll finished |
| `ControlGuarantees.AcceptedAtOneInstant` | internal/control/slot.go:525-560 | CheckLease and CheckResource are linearizable: at one instant inside the call the accepted lease was in its slot, the gate was Normal and the epoch above every Trip so far |
| `ControlGuarantees.DeadmanHonoured` | internal/control/slot.go:262-279 | a lease with a deadman window is accepted only if within the window a Refresh found a lease on its slot, or a lease there was renewed or issued |
| `ControlGuarantees.TripToken` | internal/motiongate/gate.go:66-79 | after a Trip the gate is latched at the token the Trip produced (or the one it was already latched at) |
| `ControlGuarantees.Remembered` | internal/control/slot.go:482-520 | what a program point of the holder of mu remembers did hold at an earlier instant of the run |
| `ControlAccounting.Conservation` | internal/control/slot.go:374-393 | every granted lease is at all times in exactly one of: its slot, RevokeAll's hands, its slot's hand-over cell, the drainer's hands, the hands of the holder of mu, ended-and-reported |
| `ControlAccounting.EndedOnce` | internal/control/module.go:151-158 | ControlLeaseEnded is delivered at most once per lease |
| `ControlAccounting.PendingCounts` | internal/control/lane.go:94-117 | the compare-and-swap on a hand-over cell never fails, revPending is exactly filled cells plus hand-over and delivery in progress, and no decrement underflows |
| `ControlAccounting.GrantOrdering` | internal/control/slot.go:167-223 | when Acquire returns a new lease its slot holds it, it is above the safety floor, its epoch is above every earlier grant, and the end of every earlier grant of the slot has been delivered |
| `ControlAccounting.GrantAtOneInstant` | internal/control/slot.go:205-221 | no lease is returned that a Trip had overtaken before it was published: at one instant after publication it authorised motion |
| `ControlAccounting.EpochsOfGrants` | internal/control/slot.go:103-115 | epochs of grants strictly increase across all slots and the epoch is never 0 |
| `ControlAccounting.StoppedForever` | internal/control/module.go:191-202 | after Stop's last sweep no slot ever holds a lease and nothing is granted |
| `ControlAccounting.SnapshotAtOneInstant` | internal/control/slot.go:482-520 | ControlSnapshotFor returns a state, an epoch and a lease that held together at one instant of its execution; a lease it calls held was above the floor there |
| `ControlAccounting.GateIsPacked` | internal/motiongate/gate.go:27-158 | each gate step of the protocol is the packed word's operation of the same name |
| `ControlAccounting.WordsAreExact` | internal/motiongate/gate.go:27-37 | two gates with the same word are the same gate |
| `ControlDecisions.CheckSaw` | internal/control/slot.go:541-593 | the lease a check is about was in its slot when the check began, and gate, floor and freshness were loaded after that in this order |
| `ControlDecisions.AcquireRefuses` | internal/control/slot.go:105-121 | a valid HUMAN lease is safe from an AI, and any valid lease from a rival of its own class: that Acquire grants nothing and, from loading the slot to its end, changes nothing |
| `ControlDecisions.AcquirePreempts` | internal/control/class.go:84-86 | a HUMAN over a valid AI lease: exactly that lease is taken out and its end reported before any grant, unless RevokeAll took it first |
| `ControlDecisions.AcquireRenews` | internal/control/slot.go:105-121 | the same connection and class keeps its lease: id, epoch and terms stay, the deadline becomes the clock reading plus its ttl, freshness never goes back |
| `ControlDecisions.AcquireCollects` | internal/control/slot.go:88-103 | a stale, expired or deadman-dead lease: exactly it is taken out, if it is still there |
| `ControlDecisions.AcquireLoads` | internal/control/slot.go:82-103 | an empty slot is issued, a lease of another resource generation collected, any other one checked |
| `ControlDecisions.AcquireEnters` | internal/control/slot.go:56-87 | before that: handed-over ends are delivered, Stop, a latched gate and a full slot index refuse, a new resource gets an empty slot |
| `ControlDecisions.IssueEnters` | internal/control/slot.go:167-184 | after that: a latched gate, a RevokeAll in progress and an undelivered end refuse, handed-over ends are delivered |
| `ControlDecisions.CauseIsFirst` | internal/control/slot.go:572-593 | which cause a lease is refused for: Safety, then floor, then deadline, then deadman window |
| `ControlDecisions.RenewDecides` | internal/control/slot.go:226-260 | Renew goes on only with a lease that is sound at its check, and changes nothing otherwise |
| `ControlDecisions.RenewHolds` | internal/control/slot.go:541-560 | after its check Renew goes on only if the slot still holds the same id, connection and resource |
| `ControlDecisions.ExpiryDecides` | internal/control/lane.go:43-78 | the expiry pass ends a lease exactly if, under Normal and above the floor, its deadline or its deadman window has passed |
| `ControlDecisions.LookupsAreExact` | internal/control/slot.go:226-296 | Renew and Release match id and connection; anything else changes nothing |
| `ControlDecisions.ResourceIsExact` | internal/control/slot.go:317-349 | RevokeResource ends the lease in the resource's slot exactly if it is of this generation |
| `ControlTerms.GrantTerms` | internal/control/slot.go:186-199 | a granted lease carries the connection, class, resource, generation, package, ttl and deadman window of the Acquire that started the operation, and its deadline is the ttl after the clock reading taken under mu |
| `ControlTerms.BatchRevokes` | internal/control/slot.go:629-647 | after the scan of a batch revocation no slot holds a lease of that connection or package (at Stop: any lease), and only such leases were taken out |
| `ControlTerms.RevokeAllVisits` | internal/control/slot.go:374-393 | RevokeAll leaves every slot it has come past empty at its visit |
| `ControlTerms.SnapshotHolds` | internal/control/slot.go:482-520 | a snapshot calls the lease held exactly if it is sound by the state, floor, freshness and clock it read |
| `ControlTerms.ChecksAreExact` | internal/control/slot.go:541-593 | CheckLease and CheckResource accept a lease exactly if it is sound by what they loaded and the slot still holds the same id, connection and resource |
| `ControlLedger.EpochIsBooked` | internal/motiongate/gate.go:66-158 | in every run the epoch is 1 plus the effective Trips, the successful re-arms and the successful increments of the holder of mu |
| `ControlLedger.GrantCost` | internal/control/slot.go:103-115 | a grant costs exactly one boundary, and exactly one more if and only if its Acquire first collected an invalid lease under a Normal gate; a preemption is one in total |
| `ControlLedger.BoundariesOfEndings` | internal/control/slot.go:245-257 | when the ends are reported, a drop or a whole batch has made exactly one boundary if and only if it found the gate Normal; renewal and preempted leases none |
| `ControlLedger.EndingStep` | internal/control/slot.go:244-257 | that boundary is made in one step, which advances the gate by one exactly under Normal |
| `ControlRearm.OneCallerIsSafe` | internal/safety/module.go:345-367 | with one re-arm caller and no rule at all, no check that starts after a Trip ever accepts a lease not above its token |
| `ControlRearm.SwapIsSafeIff` | internal/safety/module.go:345-367 | a swap, by any of any number of callers, lets the epoch rule admit a lease older than the last Trip in some continuation unless the safety floor has reached every lease in a slot, being issued or just loaded by a check: if and only if |
| `ControlRearm.SwapKeepsInvariantIff` | internal/control/slot.go:363-373 | a swap keeps the invariant of the protocol exactly if the RevokeAll of the last Trip is finished |
| `ControlRearm.ComparedSwapKeepsRule` | internal/safety/module.go:345-367 | a run of the code in which every swap finds the epoch its caller sampled is a run under the rule, for any number of callers |
| `ControlRearm.AroundStep` | internal/control/slot.go:46-223 | a step brings no epoch into slots, issue or check but the one it has just allocated under a Normal gate |
| `ControlRearm.SaneRun` | internal/safety/supervisor.go:39-80 | order of floor, halt, settled phase and epoch in every run of the code, with any number of re-arm callers and without the rule |
| `ControlWitness.RearmCheckIsNotEnough` | internal/safety/module.go:345-367 | a run with two re-arm callers after which a check that starts later accepts a granted lease that the last Trip overtook |
| `ControlWitness.EndComesTooLate` | internal/control/slot.go:56-62 | a run with one re-arm caller in which a slot is granted again while the end of its earlier lease is undelivered |
| `ControlWitness.UnsafeSwapIsAccepted` | internal/safety/module.go:345-367 | from any state in which a swap finds an unexpired lease above the floor in a slot, a check that starts after it can accept that lease |
| `ControlWitness.AcceptanceHappens` | internal/control/slot.go:426-439 | there are runs that grant a lease and accept it |
| `ControlPolicy.GrantedIsNeverLaxer` | internal/control/policy.go:84-108 | granted terms are never laxer than the class policy |
| `ControlPolicy.GrantedExactly` | internal/control/slot.go:134-164 | a strict request is granted exactly if it is within the policy; a wire preference without a window always fits |
| `ControlPolicy.ResolvedExactly` | internal/control/policy.go:84-108 | the whole outcome: which wishes are invalid, what a preference is cut to, what defaults apply, what violates the policy |
| `Outbox.PushKeeps` | internal/ipc/outbox.go:43-61 | the byte count is the weight of the queued envelopes and stays within the bound |
| `Outbox.PopKeeps` | internal/ipc/outbox.go:68-86 | the same after a pop |
| `Outbox.OutboundQueue.Push` | internal/ipc/outbox.go:43-61 | accepts at the end or refuses, and never displaces what is queued |
| `Outbox.OutboundQueue.Pop` | internal/ipc/outbox.go:68-86 | takes the oldest queued envelope; a closed queue is still drained |
| `Outbox.OutboundQueue.Close` | internal/ipc/outbox.go:91-104 | only marks the queue |
| `Requests.ReserveKeeps` | internal/ipc/conn.go:168-181 | requestBytes stays the sum over the reserved requests and both limits hold |
| `Requests.ReleaseKeeps` | internal/ipc/conn.go:183-190 | the same after a release |
| `Requests.ReleaseUndoes` | internal/ipc/conn.go:168-190 | a release gives back exactly what its reservation took, whatever was reserved or released for other requests in between |
| `Requests.RequestTracker.Reserve` | internal/ipc/conn.go:168-181 | duplicate ids are INVALID_ARGUMENT, a passed limit is RESOURCE_EXHAUSTED, and both change nothing |
| `Requests.RequestTracker.Release` | internal/ipc/conn.go:183-190 | takes out exactly that request, or does nothing |
| `LeaseHandles.Handles.Register` | internal/ipc/conn.go:197-213 | the same lease keeps its handle, any other gets a number never used before |
| `LeaseHandles.Handles.Forget` | internal/ipc/conn.go:238-262 | retires exactly that handle and keeps the two maps inverse |
| `LeaseHandles.Handles.ForgetLease` | internal/ipc/conn.go:248-254 | retires exactly the handle of that lease |
| `Routes.DispatchTable.PublishDispatchAtEpoch` | internal/ipc/dispatch.go:148-224 | publishes and queues as one step, or leaves no route; a refused push still consumes the id and the sequence |
| `Routes.DispatchTable.Sweep` | internal/ipc/dispatch.go:236-250 | one pass removes exactly the entries the cause ends and lists each once |
| `Routes.DispatchTable.Revoke` | internal/ipc/dispatch.go:236-292 | moves the epoch always, and removes exactly the routes the revocation hits |
| `Routes.DispatchTable.Reap` | internal/ipc/dispatch.go:375-389 | removes exactly the routes past their deadline |
| `Routes.DispatchTable.Close` | internal/ipc/dispatch.go:355-371 | splits the connection's routes into those it served and those it asked for, each once |
| `Routes.DispatchTable.Complete` | internal/ipc/dispatch.go:296-321 | only the registered Provider takes the entry; at or after the deadline it is expired |
| `IpcProof.RunInv` | internal/ipc/dispatch.go:60-250 | the invariant of dispatch holds after every interleaving of requests, results, revocations, reaping, disconnects and queue operations |
| `IpcProof.Publishes` | internal/ipc/dispatch.go:148-224 | publication keeps it |
| `IpcProof.EndKeeps` | internal/ipc/dispatch.go:236-389 | taking routes out, for whatever cause, keeps it |
| `IpcProof.Acts` | internal/ipc/dispatch.go:394-397 | performing what is owed for a removed route keeps it |
| `IpcGuarantees.RevocationSafety` | internal/ipc/dispatch.go:148-250 | a revocation after a request's authority was sampled never applies to that request's live route, in any interleaving |
| `IpcGuarantees.OneResponse` | internal/ipc/conn.go:616-835 | a request instance is answered and released at most once; when finished it was answered exactly once unless its own connection went away, and released exactly if it had been reserved (what the source receives: IpcAnswers) |
| `IpcAnswers.SourceIsAnswered` | internal/ipc/dispatch.go:394-397 | the event that ended a finished request fixes its code and whether its route is cancelled; the Response with this request id and code stands in the source's stream, and the CancelDispatch in the Provider's, unless that queue refused it and is closed for good |
| `IpcAnswers.ResponsesAreAnswers` | internal/ipc/conn.go:889-917 | a stream holds, per request id, exactly one Response for each answered instance whose push was accepted, and nothing else that is a Response |
| `IpcAnswers.PassIsExact` | internal/ipc/dispatch.go:236-389 | a result, a reaper pass, a revocation of each kind and a disconnect end exactly the routes their own fields name, and leave the entries of all others alone |
| `IpcAnswers.EndingIs` | internal/ipc/revoke.go:74-94 | what a request is due by the event that ends it: the Provider's code before the deadline, DEADLINE_EXCEEDED at or after it and when reaped, UNAVAILABLE, PERMISSION_DENIED or FAILED_PRECONDITION by kind of revocation, the code of a refusal |
| `IpcAnswers.StreamStep` | internal/ipc/outbox.go:43-61 | one envelope at most enters a stream in a step: a Response or cancellation only from the instance that owes it, a Dispatch only from its publication |
| `IpcAnswers.LiveRouteIs` | internal/ipc/dispatch.go:148-224 | a live route's entry has the source, request and deadline of its request, the target and route the resolve found, and its Dispatch is in that Provider's stream, with a command sequence exactly if a lease was involved |
| `IpcAnswers.RevocationSafetyByKind` | internal/ipc/dispatch.go:148-250 | revocation safety spelled out for each kind of revocation |
| `IpcGuarantees.RouteNeverReturns` | internal/ipc/dispatch.go:296-389 | a removed route never comes back, so exactly one of result, reaper, revocation and disconnect ends it |
| `IpcGuarantees.TokensAreLive` | internal/ipc/dispatch.go:148-250 | a route token is open exactly while its route is live, and each live route belongs to one unanswered instance |
| `IpcGuarantees.InflightAccounting` | internal/ipc/conn.go:168-190 | per connection the tracker holds exactly the reserved, unreleased instances; requestBytes is their sum within both limits |
| `IpcGuarantees.ProviderStream` | internal/ipc/revoke.go:74-94 | in every accepted stream: at most one Dispatch and one CancelDispatch per route, Dispatch first; command sequences strictly increase; accepted = popped then queued, within the byte bound |
| `EventScope.EventScopes.Bind` | internal/ipc/eventscope.go:69-81 | the instance now belongs to this owner; both reverse indexes stay exact |
| `EventScope.EventScopes.Remove` | internal/ipc/eventscope.go:145-158 | takes out one registration and all its traces |
| `EventScope.EventScopes.Release` | internal/ipc/eventscope.go:84-90 | revokes exactly one registration |
| `EventScope.EventScopes.Allows` | internal/ipc/eventscope.go:96-105 | true exactly for the registered owner of a registered non-zero scope |
| `EventScope.EventScopes.CloseProvider` | internal/ipc/eventscope.go:108-143 | exactly the Provider's instances disappear |
| `EventScope.EventScopes.CloseOwner` | internal/ipc/eventscope.go:113-143 | exactly the owner's instances disappear |
| `EventScope.EventScopes.CloseEndpoint` | internal/ipc/eventscope.go:121-129 | exactly the endpoint's instances disappear |
| `Operations.Manager.Terminate` | internal/operation/manager.go:557-593 | compare-and-set into a terminal state: written only along the transition table, with payload, last event and closed subscriptions |
| `Operations.Manager.Accept` | internal/operation/reporter.go:39-68 | reaches RUNNING only if neither a boundary nor the deadline has overtaken the operation |
| `Operations.Manager.ReportProgress` | internal/operation/reporter.go:72-90 | emits without a state change, in RUNNING or CANCEL_REQUESTED only |
| `Operations.Manager.ReportTerminal` | internal/operation/reporter.go:156-182 | an overtaken operation becomes FAILED whatever is reported; repeating the outcome that stands is a no-op |
| `Operations.Manager.Cancel` | internal/operation/manager.go:386-402 | moves an unfinished visible operation to CANCEL_REQUESTED; foreign ids are NOT_FOUND |
| `Operations.Manager.Subscribe` | internal/operation/manager.go:410-435 | a closed channel for foreign, unknown and finished operations, otherwise an open registered one |
| `Operations.Manager.Unsubscribe` | internal/operation/manager.go:642-658 | closes the channel once and takes it out of the fan-out |
| `Operations.Manager.SafetySupersede` | internal/operation/manager.go:468-484 | the boundary is the maximum of all that were delivered |
| `Operations.Manager.Sweep` | internal/operation/manager.go:488-521 | one pass visits every operation and ends those the reason picks; whom that is, and that nobody else is touched: OperationOutcomes.PassIsExact |
| `Operations.Manager.ReapTerminal` | internal/operation/manager.go:525-535 | deletes exactly the terminal operations past their retention |
| `Operations.Manager.Emit` | internal/operation/manager.go:601-628 | offers the event to the observer and to every open channel of the operation, in order, dropping at a full one |
| `Operations.Manager.CloseAllSubs` | internal/operation/manager.go:631-639 | closes every channel of the operation and drops the list |
| `OperationProof.StepKeeps` | internal/operation/manager.go:200-658 | every critical section keeps the manager's invariant |
| `OperationProof.RunInv` | internal/operation/manager.go:200-658 | so it holds in every reachable state |
| `OperationGuarantees.LateReportsLose` | internal/operation/reporter.go:187-200 | after SafetySupersede(e) or past the deadline no report brings a motion operation below e, or the expired one, into RUNNING, SUCCEEDED or CANCELLED, whether or not convergence has run |
| `OperationGuarantees.ConvergenceCompletes` | internal/operation/manager.go:488-521 | one convergence pass leaves no such operation unfinished, one deadline scan none past its deadline |
| `OperationGuarantees.OutcomeIsFinal` | internal/operation/manager.go:557-566 | a terminal record never changes while it is kept, and its id is never reused |
| `OperationGuarantees.OutcomeIsConsistent` | internal/operation/operation.go:70-82 | status and payload fit the state in every reachable state, and states change along the table only: CANCELLED from CANCEL_REQUESTED only, FAILED with a whitelisted code |
| `OperationGuarantees.StoppedIsFinal` | internal/operation/manager.go:200-216 | after Stop no operation is unfinished, then or later |
| `OperationGuarantees.SubscriptionsAreLive` | internal/operation/manager.go:410-435 | subscriptions exist for unfinished operations only and hold open channels; every channel is closed at most once and never sent to afterwards |
| `OperationGuarantees.TerminalEventIsLast` | internal/operation/manager.go:557-593 | the observer sees one terminal event per operation and nothing after it |
| `OperationGuarantees.CreationChecks` | internal/operation/manager.go:299-343 | creation passes exactly if every resource is known, the deadline lies ahead within the horizon, and a motion operation has a validated lease over its single resource |
| `OperationGuarantees.CreationFaults` | internal/operation/manager.go:299-343 | the first fault of a refused creation decides its code |
| `OperationOutcomes.PassIsExact` | internal/operation/manager.go:468-521 | a convergence pass changes an operation only if it is unfinished with a lease and an epoch below the boundary, a deadline scan only past the deadline, a connection release only of that connection; each with its code, one event and closed channels; all others keep record, subscriptions and channels |
| `OperationOutcomes.ReportIsExact` | internal/operation/reporter.go:102-182 | every terminal report case by case: result, failure code and detail reach the record and the last event, a code that is not the Provider's becomes INTERNAL, late ones are failed by the manager |
| `OperationOutcomes.AcceptIsExact` | internal/operation/reporter.go:39-68 | a wrong epoch or a late operation fails with its code, a PENDING one runs, all others stay |
| `OperationOutcomes.CancelIsExact` | internal/operation/manager.go:386-402 | PENDING and RUNNING operations of the caller, or of anybody for the kernel, go to CANCEL_REQUESTED |
| `OperationOutcomes.SubscribeIsExact` | internal/operation/manager.go:410-435 | a new open listed channel for a visible unfinished operation, a new closed one otherwise |
| `OperationOutcomes.UnsubscribeIsExact` | internal/operation/manager.go:642-658 | exactly that channel is closed and leaves its list |
| `OperationOutcomes.ReapIsExact` | internal/operation/manager.go:525-535 | exactly what finished more than five minutes before is forgotten |
| `OperationOutcomes.OperationIsAsCreated` | internal/operation/manager.go:299-343 | every operation carries what its creation asked for, and that creation was entitled to it |
| `OperationOutcomes.BoundaryIsHighest` | internal/operation/manager.go:468-484 | the boundary is the highest that Safety has delivered |
| `OperationOutcomes.StopRefusesNew` | internal/operation/manager.go:200-216 | once Stop has begun no operation is added |
| `AuditChain.VerifyChain` | internal/audit/chain.go:130-159 | -1 exactly for a contiguous chain, otherwise the first record that does not follow |
| `AuditChain.ChainedSplit` | internal/audit/chain.go:130-159 | A++B is accepted from (p, s) exactly if A is and B is from A's last hash and s+|A| |
| `AuditChain.FinalHashPinsAll` | internal/audit/chain.go:82-128 | with an injective hash two accepted stretches from the same start with the same last hash are identical |
| `AuditChain.VerifyFiles` | cmd/nervusctl/audit.go:53-110 | accepts exactly if the records of all files, oldest first, are one chain from their first record on; reports the first bad record; panics exactly if the chain is fine and the oldest file has no record |
| `AuditChain.RotationIndex` | cmd/nervusctl/audit.go:172-184 | the number behind the dot, or 2^30 for anything else |
| `AuditChain.IndexRoundTrip` | cmd/nervusctl/audit.go:172-184 | reads back the index the recorder's file name was made from |
| `AuditFile.ReadFile` | internal/audit/file.go:596-626 | the forward reader delivers the decodable lines in order and counts the others |
| `AuditFile.LastLink` | internal/audit/file.go:309-339 | the backward byte scan returns exactly the last record with a hash that the forward reader delivers, and nothing exactly if there is none |
| `AuditFile.AppendReads` | internal/audit/file.go:448-480 | a record appended to whole lines is read back behind what was there |
| `AuditFile.BrokenLineReads` | internal/audit/file.go:275-301 | a line torn at any byte decodes to nothing and stays apart from the next; one that only lost its newline is still read |
| `AuditRecorder.FileRecorder.Append` | internal/audit/file.go:448-480 | a write that fails does not advance the chain and is counted; what a record says is in AuditContents |
| `AuditRecorder.FileRecorder.FlushGap` | internal/audit/file.go:422-435 | reports the losses since the last gap record |
| `AuditRecorder.FileRecorder.RotateIfNeeded` | internal/audit/file.go:525-577 | moves every rotated file up by one, drops the oldest, carries the chain into the new file |
| `AuditRecorder.FileRecorder.WriteRecord` | internal/audit/file.go:438-445 | gap record, rotation, record, in that order |
| `AuditRecorder.FileRecorder.Record` | internal/audit/file.go:352-368 | queues or counts, never blocks |
| `AuditRecorder.FileRecorder.Close` | internal/audit/file.go:380-419 | drains the queue, reports losses, writes the closing record last |
| `AuditRecorder.FileRecorder.TerminateDanglingLine` | internal/audit/file.go:275-301 | a file that ends inside a line gets one newline, any other stays as it is |
| `AuditRecorder.FileRecorder.Open` | internal/audit/file.go:208-269 | finishes a torn line, finds the last link, and reports a fresh chain or an unclean shutdown |
| `AuditProof.CutBuilt` | internal/audit/file.go:275-301 | of a file cut at any byte exactly the lines survive that end within the bytes kept, the newline of the last one not counted; what follows decodes to nothing |
| `AuditProof.CutIsExact` | internal/audit/file.go:208-301 | so it is for what any crash leaves of the current file |
| `AuditProof.LastLineCut` | internal/audit/file.go:208-301 | after a crash inside the last line and a restart every earlier record is readable, the last one exactly if all its bytes were kept, and then the restart's own record |
| `AuditProof.RotationKeeps` | internal/audit/file.go:525-577 | rotation keeps every record on disk except those of the file that falls out |
| `AuditProof.WriteRecordKeeps` | internal/audit/file.go:438-480 | writing keeps what is on disk a contiguous end of one chain |
| `AuditProof.OpenKeeps` | internal/audit/file.go:208-269 | a start that can find the end of the chain continues it |
| `AuditProof.RestartVerifiesIff` | internal/audit/file.go:239-248 | after a crash that cut the current file anywhere, the restarted files verify if and only if the cut left a readable record there or no older file holds any |
| `AuditProof.UncleanIsReported` | internal/audit/file.go:239-268 | wherever the file was cut, the restart leaves exactly what survived, plus nothing after a clean stop, an UncleanShutdown record linked to the last survivor otherwise, or the first record of a chain |
| `AuditRuns.FilesAreOneChain` | internal/audit/file.go:438-577 | over any history of events, losses, failed writes, rotations, restarts and crashes in which every start could find the end of the chain, the retained files read oldest first are a contiguous end of the full chain and verify |
| `AuditRuns.CleanHistoriesVerify` | cmd/nervusctl/audit.go:53-93 | without crashes and failed writes that condition always holds |
| `AuditRuns.BooksAlwaysBalance` | internal/audit/file.go:352-480 | in every state of every history a submitted event is written, in a gap record, forgotten with a failed gap record, still to be reported, or queued, up to lost records of the recorder itself |
| `AuditRuns.SessionBalances` | internal/audit/file.go:352-480 | in every state of a session without write errors submitted = written + in gap records + drops to be recorded + queued |
| `AuditRuns.StopAccountsForAll` | internal/audit/file.go:380-419 | after any shutdown in any history the queue is empty and the books balance |
| `AuditRuns.CleanStopAccountsForAll` | internal/audit/file.go:380-419 | the shutdown of a session without write errors leaves submitted = written + in gap records |
| `AuditRuns.GapWriteDecides` | internal/audit/file.go:422-435 | accumulated losses are reported in full if and only if the write of the gap record succeeds (or it was a single one) |
| `AuditContents.LogTellsItsStory` | internal/audit/chain.go:82-104 | over whole histories record i of the log carries exactly action, subject, denied mark, error and detail of its event and the time of its write, or is the recorder's own ChainStarted, ChainGap (denied), Rotated, Closed or UncleanShutdown (denied) of the kernel, each where it belongs |
| `AuditContents.QueueIsInOrder` | internal/audit/file.go:352-419 | events not dropped are taken out first in, first out |
| `AuditContents.SessionIsLast` | internal/audit/file.go:438-480 | what a session has written is the end of the log |
| `AuditContents.EventsInOrder` | internal/audit/file.go:352-480 | a session's event records are, in submission order, exactly the events taken out whose own write landed, and as many as the books count |
| `AuditWitness.RestartCanBreak` | internal/audit/file.go:239-248 | for every configuration a history - a rotation, a crash, a restart - whose files the verifier rejects |
| `AuditWitness.OldestCanBeEmpty` | cmd/nervusctl/audit.go:101-105 | for every configuration a history whose files are one chain but whose oldest file has no record, the case in which the verifier panics |
| `AuditWitness.ProperExists` | internal/audit/chain.go:82-128 | the assumptions on hash and line codec can be met together |
| `Catalog.Builder.AssignDefinitionGenerations` | internal/catalog/builder.go:888-945 | a definition keeps its generation exactly if it was there with the same meaning; a Provider also needs its interface's generation unchanged |
| `Catalog.AssignedHolds` | internal/catalog/builder.go:47-122 | a stamped snapshot holds exactly the interfaces, Providers, permissions and resources of its contents |
| `Catalog.AssignedKeeps` | internal/catalog/builder.go:888-945 | interfaces, permissions and resources keep their generation exactly if they were there with the same meaning |
| `Catalog.AssignedProviders` | internal/catalog/builder.go:907-925 | a Provider also only if its interface kept its own |
| `Catalog.Builder.BuildResourceHandleIndex` | internal/catalog/builder.go:989-998 | fails exactly if two resources share a handle, otherwise indexes every resource |
| `Catalog.NoAba` | internal/catalog/builder.go:888-945 | a (key, generation) pair in a published snapshot was present and unchanged in every revision since that generation, and new or changed at it |
| `Catalog.Unchanged` | internal/catalog/builder.go:888-945 | the same pair at two revisions: nothing happened in between |
| `Catalog.HistoryStamps` | internal/catalog/builder.go:888-945 | interfaces, resources and Providers of every published history are stamped that way |
| `Catalog.RevokedResources` | internal/catalog/model.go:559-574 | exactly the handles whose entry disappeared or changed generation |
| `Catalog.RevokedExactly` | internal/catalog/model.go:549-574 | between consecutive revisions a handle is revoked exactly if the same resource with the same meaning is not behind it any more |
| `CatalogOrder.BuildSnapshot` | internal/catalog/builder.go:47-122 | the builder's loop: rejects on a bad shape, a duplicate package, a source that cannot be added or a shared handle, otherwise stamps and indexes the contents |
| `CatalogOrder.SnapshotIgnoresOrder` | internal/catalog/builder.go:47-122 | any permutation of the sources, sorted by any unstable sort, gives the same Snapshot - contents, generations, handle index - or the same rejection; duplicate packages are always rejected |
| `CatalogOrder.SortIsUnique` | internal/catalog/builder.go:67-73 | with distinct packages there is only one sorted arrangement |
| `CatalogOrder.SortedByRank` | internal/catalog/builder.go:67-73 | sources are taken by rank, and within a rank by package name |
| `CatalogRegistry.Registry.Prepare` | internal/catalog/registry.go:69-86 | a candidate is built from what is current and holds exactly the given contents; it fails exactly on a handle collision |
| `CatalogRegistry.Registry.Publish` | internal/catalog/registry.go:90-95 | wins exactly if nothing was published since the candidate was prepared, and then extends the history by it |
| `Endpoint.ResolveEndpoint` | internal/endpoint/resolve.go:46-165 | binds if and only if exactly one registration is live, visible to the caller, in the version range, current in the snapshot and bound to the resource asked for - the selected key's, else the default's, else none - and the interface permission is held; each refusal has its reason |
| `Endpoint.EligibleIff` | internal/endpoint/resolve.go:316-388 | eligibility field by field |
| `Endpoint.RouteIff` | internal/endpoint/route.go:27-137 | a call is routed if and only if its binding still stands, the method exists and both permissions are held; only a missing permission is PERMISSION_DENIED |
| `Endpoint.HandleUnchanged` | internal/endpoint/route.go:74-86 | a handle with an unchanged generation names the same resource in every revision in between |
| `Endpoint.ResolveBinds` | internal/endpoint/resolve.go:86-114 | a binding captures the generations of the snapshot it was made from |
| `Endpoint.RouteProvesUnchanged` | internal/endpoint/route.go:27-86 | a successful Route proves interface, Provider and resource present and unchanged in every revision between the bind and the one it used, whichever came first |
| `UserDataAcl.EntryExact` | internal/authority/acl_linux.go:104-112 | an entry and its eight bytes determine each other |
| `UserDataAcl.EntryLayout` | internal/authority/acl_linux.go:104-135 | tag, permissions and id as eight little-endian bytes |
| `UserDataAcl.MarshalLayout` | internal/authority/acl_linux.go:117-135 | version 2, then the entries in order |
| `UserDataAcl.SortedByTag` | internal/authority/acl_linux.go:117-125 | on disk entries stand by tag, then by id |
| `UserDataAcl.ParseACL` | internal/authority/acl_linux.go:92-115 | empty input is an empty ACL; wrong length or version is an error; otherwise the entries in order |
| `UserDataAcl.ParseMarshal` | internal/authority/acl_linux.go:92-135 | parsing what was marshalled gives the (tag, id)-sorted list |
| `UserDataAcl.MarshalParse` | internal/authority/acl_linux.go:92-135 | marshalling a parsed, ordered blob gives its bytes back |
| `UserDataAcl.OrderIsCanonical` | internal/authority/acl_linux.go:117-125 | with distinct keys the order on disk depends on the entries alone |
| `UserDataAcl.WithNamedUser` | internal/authority/acl_linux.go:155-180 | the loop is the edit function |
| `UserDataAcl.EditKeepsValid` | internal/authority/acl_linux.go:155-180 | grant and revoke keep the ACL valid: base entries once, named entries apart, mask exactly if something is named |
| `UserDataAcl.EditIsExact` | internal/authority/acl_linux.go:155-180 | afterwards the user has full rights exactly if allowed, every other entry is as before, and there is a mask, which withholds nothing, exactly if somebody is named |
| `UserDataAcl.LastEditWins` | internal/authority/acl_linux.go:155-180 | the last decision about a user counts; repeating it changes nothing |
| `UserDataAcl.EditsCommute` | internal/authority/acl_linux.go:155-180 | edits of different users commute, down to the bytes on disk |
| `UserDataAcl.Reconcile` | internal/authority/acl_linux.go:273-297 | the reconciliation loop is baseline plus one entry per listed user |
| `UserDataAcl.ReconcileIsExact` | internal/authority/acl_linux.go:273-297 | the unnamed entries, one full-rights entry per listed user, and one mask that withholds nothing if there is a user |
| `UserDataAcl.ReconcileIsGrantAll` | internal/authority/acl_linux.go:273-297 | reconciling equals granting each listed user on the stripped baseline, down to the bytes |
| `UserDataAcl.BaseFromModeIsValid` | internal/authority/acl_linux.go:142-148 | the three entries are the mode's nine permission bits and a valid ACL |

## Left out

* The control module in the form of its source: lease slots, counters and `mu` are one transition system on
  values instead of classes with atomics, because the subject is their interleaving; object identity of
  lease values is equality, which agrees with pointer comparison since only the holder of `mu` stores
  leases.
* One lock-free reader and one lane drainer are modelled; a reader only reads, so the guarantees hold for
  each of any number of readers. A reader samples the clock when it loads the slot.
* Lookup scans of the control module are over-approximated: a step names the slot at which the scan
  stopped. Refresh finds a lease there and later marks the slot; that it also checks the lease's validity
  in between is left out, which allows more marks than the code.
* `ControlWitness.UnsafeSwapIsAccepted` covers leases in slots; for a lease still being issued
  `ControlRearm.SwapIsSafeIff` says that the epoch rule admits it, not that a check comes in time.
* Liveness: that a drain, a convergence pass or a reaper tick eventually happens.
* Sockets, framing, credentials, preflight, command line and package unpacking; protobuf validation of
  payloads; audit texts and logging; power, health and administration handlers.
* `revokedEpoch`, the fields of leases that only auditing reads, and audit records of the control, IPC and
  operation modules.
* Route ids, operation ids and the authorization epoch wrapping in 64 bits.
* Building a snapshot's contents from one source: `CatalogOrder` takes it as a parameter of the builder;
  permission tables, trust floors and label rules are inside it. `RevokedResources` is a set here, without
  its sorting by handle.
* `Endpoint.ResolveEndpoint` ends where a component would be started on demand; label selectors, endpoint
  registration and its indexes.
* Operation caller connections, provider ownership lookups and copies of byte slices; the zero deadline,
  which creation never admits.
* File system errors of the audit recorder other than failed writes and a file that cannot be reopened after
  rotation; fsync timing, so a crash may keep any part of the current file; rotated files lose nothing.
* Reading and writing extended attributes around the ACL editor.
