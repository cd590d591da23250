# Verification of the codex_monitor delivery pipeline

A Dafny model of the five cooperating parts of codex_monitor that carry its promises, and
proofs of those promises over every run. `dafny verify dfyconfig.toml` checks everything.

The system takes events from outside, from watched files and from requests, keeps them in a
durable inbox, and hands each to the native queue of a Codex conversation. Its promise is
that a crash at any moment, an answer lost on the wire, an operator's replay or a change of
route never duplicates, drops, reorders or misdirects what it has accepted.

How the model is laid out:

- `Errors`, `Envelopes`: the error contract of a submission and the three kinds of event.
- `Inbox`, `Delivery`: the tables of `monitor.py`, each operation first as a function on the
  tables and then as a method of the class `Monitor` that updates them in place; then the
  engine as a state machine in which intake, operator, dispatcher, transport and crashes
  interleave. `HandOff`, `Ordering`, `Routing`, `Budget` and `Admission` prove one promise each,
  and `Backdating` that the condition of the last is exact.
- `Transport`, `Session`, `Pipeline`, `EndToEnd`: callers, writer, reader, closer and server of
  `session.py`, step by step; what `deliver` and `inspect` may conclude; and the engine on top
  of such connections, where its assumption that reports and findings are honest becomes a theorem.
- `Conditions`, `Watch`, `Chain`, `Managed`, `Supervisor`, `Sampling`: debounce, change emitter,
  their composition across three durable stores, the sampler processes, and all of these over
  the engine, with the registry's lifecycle epochs.
- `Requests`, `Lifecycle`, `Outbox`: the request store, its history, and the relay of its
  notifications into the inbox.
- `Pointers`, `Predicates`, `Options`, `Permissions`, `Services`, `Inventory`, `Resident`: the
  self-contained algorithms.

Conventions. A run is a list of actions folded over a deterministic step; an action whose
guard fails changes nothing, so a theorem about all lists is a theorem about all
interleavings. A transaction, or one write of a checkpoint file, is one step: an operation that
makes several durable writes is several steps, and anything else may happen between them,
a crash included. The methods that perform such an operation in one go, cut off after any
number of writes (`fuel`), are proved to be runs of those steps. A crash drops what is not
durable. Clocks are arbitrary readings unless a theorem says otherwise.
A delivery id is the position of its row: rows are never deleted and UUIDs are fresh. What
the kernel, the peer or the disk decides is a parameter of the step. An operation that a
source object performs in place is a method whose postcondition equates the new fields with
the specification function of the old ones; the theorems are about that function.

Where the code and its documentation differ, the model follows the code:
`docs/CONVERSATION-MONITORS.md` line 54 caps the sampler pool at four, while
`codex_monitor/managed.py` line 35 sets eight; the proofs hold for every limit. The same
document (line 63) says a changed state is emitted only after observed samples stayed equal
for the debounce time. That is false after `select` has raised an error, because the policy
object then goes on with the stored candidate: `Conditions.ReliableExactly` gives the exact
condition. A column that `resolve` rewrites is what the rate limit counts, so an operator's
resolution stamped before the intake can let one event too many into a window:
`Backdating.RateBoundExactly` has the run, and shows that nothing else can. Rewriting an
owner's arguments twice does not always equal rewriting them once: `Permissions.AbsorbsExactly`
gives the exact condition.

## Model

| member | source | states |
|---|---|---|
| `HandOff.AtMostOnce` | codex_monitor/monitor.py:571-642 | over every run with crashes anywhere and any outcome the error contract allows, one client id enters the native queue at most once plus once per operator replay made while it was uncertain; replays of dead deliveries add nothing |
| `HandOff.RetryIsSafe` | codex_monitor/errors.py:7-16 | a pending or dead delivery that was never replayed while uncertain is not in the queue, nor on its way there, so a retry cannot duplicate it |
| `HandOff.AcceptedIsGrounded` | codex_monitor/monitor.py:611-627 | a row marked accepted is in the peer's log, or an operator said so |
| `Ordering.ClaimedIsFirst` | codex_monitor/monitor.py:594-598 | the dispatch query picks a row with no active row of the same binding before it, whatever the back-off times |
| `Ordering.SubmissionsInOrder` | codex_monitor/monitor.py:571-642 | submissions of each binding happen in nondecreasing inbox order over every run in which no dead delivery is replayed behind a later submission |
| `Ordering.BrokenExactlyByOvertaking` | codex_monitor/monitor.py:594-616 | in an orderly state a submission keeps the order if and only if no later delivery of the binding was submitted before it |
| `Routing.ReconcilesWhereItWent` | codex_monitor/monitor.py:160-176 | in every reachable state an event in doubt has a binding with the thread and endpoint of its last submission, and a claimed reconciliation asks exactly there, whatever rebind, pause and remove did meanwhile |
| `Delivery.RouteOnlySteps` | codex_monitor/monitor.py:516-569 | binding and watch operations leave every event alone, never change a thread, and keep the endpoint of a route with an event in doubt |
| `Delivery.ConsistentRun` | codex_monitor/monitor.py:591-642 | tables and histories agree in every reachable state, and the row in the dispatcher's hands is submitting, with the attempts and route the dispatcher remembers |
| `Budget.AttemptBudget` | codex_monitor/monitor.py:601-606 | between two decisions at most max_attempts calls end other than Unavailable, the attempts column counts them exactly, and a pending event is always below the maximum |
| `Budget.CallsRunOut` | codex_monitor/monitor.py:619-641 | without new events or decisions the remaining calls that end other than Unavailable are bounded by the attempts that pending and claimed rows have left |
| `Admission.RateBound` | codex_monitor/monitor.py:482-491 | every 60-second window of true intake times holds at most rate_limit new events of a binding, although resolve rewrites the column that is counted, as long as no resolution is stamped before the intake it resolves; intakes may commit in another order than they read the clock |
| `Admission.MonotoneRateBound` | codex_monitor/monitor.py:580-581 | the same for every run in which no resolution is stamped earlier than an intake committed before it, as over any clock that never goes back, in whatever order intakes that overlap commit |
| `Backdating.RateBoundExactly` | codex_monitor/monitor.py:571-584 | for all limits, every window of every run keeps the rate limit if and only if no resolution is stamped before the intake it resolves: one that is makes a run with a window of rate_limit + 1 |
| `Admission.TraceBound` | codex_monitor/monitor.py:488-491 | over the whole history a trace id is admitted at most trace_limit times |
| `Inbox.IngestEffect` | codex_monitor/monitor.py:445-493 | intake appends one row with a new key to an enabled binding, or changes nothing and answers with the row that has the same key and content |
| `Inbox.ClaimEffect` | codex_monitor/monitor.py:594-608 | a claim changes the state and attempts of one row, a pending one for delivery and one in doubt for reconciliation, or expires one pending row |
| `Inbox.SettleEffect` | codex_monitor/monitor.py:609-642 | a settled row is accepted exactly on a receipt, and goes back to pending or dies only after a failure that promises the message was not accepted, never after a reconciliation |
| `Inbox.Monitor.Ingest` | codex_monitor/monitor.py:445-493 | the method leaves the tables its specification function describes, refusals included |
| `Inbox.Monitor.Rebind` | codex_monitor/monitor.py:160-176 | likewise for rebind, refused while an event is in doubt |
| `Inbox.Monitor.Enable` | codex_monitor/monitor.py:504-514 | likewise for enable |
| `Inbox.Monitor.DashboardAction` | codex_monitor/monitor.py:516-569 | likewise for the dashboard's pause, resume and remove |
| `Inbox.Monitor.SetWatchEnabled` | codex_monitor/monitor.py:415-426 | likewise for pausing a watch, which raises its epoch |
| `Inbox.Monitor.RemoveWatch` | codex_monitor/monitor.py:428-439 | likewise for removing a watch that an earlier lookup found, even if it was removed in between |
| `Inbox.Monitor.Resolve` | codex_monitor/monitor.py:571-584 | likewise for accept and replay, with the decision recorded |
| `Inbox.Monitor.Claim` | codex_monitor/monitor.py:591-608 | the row the dispatch query names, the first eligible by next_at and then position, is claimed or expired, and the change is committed |
| `Inbox.Monitor.Settle` | codex_monitor/monitor.py:609-642 | the outcome of a claimed job is booked |
| `Inbox.Monitor.DispatchOnce` | codex_monitor/monitor.py:591-642 | an uninterrupted dispatch is a claim followed by its settlement |
| `Transport.WrittenAtMostOnce` | codex_monitor/session.py:194-301 | under every interleaving of callers, writer, reader and closer each message is passed to the transport at most once, and never, before or after, if its call raised Unavailable |
| `Transport.EndedStays` | codex_monitor/session.py:268-301 | what an ended call reported never changes afterwards |
| `Session.DeliverIsHonest` | codex_monitor/session.py:379-388 | when a queue/add call has ended, what deliver reports of its message keeps the error contract, then and in every later state of the connection |
| `Session.TargetCheckIsHonest` | codex_monitor/session.py:360-377 | a delivery that ends at the target check reports only what holds of a message that was never sent |
| `Session.RetryableOnlyIfHarmless` | codex_monitor/session.py:103-112 | deliver raises a retryable error only if the message was never written or was rejected with -32001 |
| `Session.FindInPage` | codex_monitor/session.py:396-441 | a page is said to hold the message exactly when one of its rows carries the client id |
| `Session.Scan` | codex_monitor/session.py:406-440 | the paging loop follows cursors from the start, keeps the page bound, finds only what a page shows, and says unknown only at the end of the list |
| `Session.Inspect` | codex_monitor/session.py:396-441 | at most max_reconcile_pages list calls in all; queued or consumed only for a page that carries the client id; unknown only after both lists were exhausted |
| `Session.NothingMissed` | codex_monitor/session.py:396-441 | a message that moves at most once, from queue to history, while the scan runs is never reported unknown, given that each list pages stably by positions and cursors of its own |
| `EndToEnd.ReportIsBooked` | codex_monitor/session.py:379-388 | every report a delivery can make, from a failed target check or from its queue/add call on any connection, keeps the error contract and is booked by the engine |
| `EndToEnd.FindingIsBooked` | codex_monitor/session.py:396-441 | a reconciliation that comes to a page with the client id reports what the engine assumes of it: the message is in the native queue or its history |
| `EndToEnd.EngineOfRun` | codex_monitor/monitor.py:609-642 | engine, session and connections together behave as a run of the engine alone |
| `EndToEnd.AtMostOnceEndToEnd` | codex_monitor/monitor.py:571-642 | over engine, session and connections together, the queue/add calls for one delivery put its message into the native queue at most once plus once per replay made while it was uncertain |
| `EndToEnd.AcceptedIsGroundedEndToEnd` | codex_monitor/monitor.py:609-627 | over engine, session and connections together, the message of an accepted delivery is in the native queue or its history, or an operator accepted it |
| `Conditions.ConditionDebouncer.Select` | codex_monitor/conditions.py:120-179 | select leaves the checkpoint and answer its specification function describes, failed writes included |
| `Conditions.ConditionDebouncer.Commit` | codex_monitor/conditions.py:186-196 | commit clears the candidate it is given, or reports that none or another is stored |
| `Conditions.ConditionDebouncer.Reset` | codex_monitor/conditions.py:198-205 | reset forgets the candidate |
| `Conditions.ChosenIsStable` | codex_monitor/conditions.py:120-179 | a changed sample is chosen only at the end of a run of observations by this instance, in one pause epoch, of nothing but that sample, over a clock that never went back and at least the window long, as long as no select raised an error once one had not |
| `Conditions.ReliableExactly` | codex_monitor/conditions.py:120-179 | choices can be relied on over every history whose selects ended alike if and only if none raised an error -- refused, or failed to read the clock or to save -- but for refusals before the first that did not |
| `Watch.ChangeWatcher.FlushPending` | codex_monitor/watch.py:31-36 | a stored event is emitted before it is cleared, and a crash between the two leaves it stored |
| `Watch.ChangeWatcher.Check` | codex_monitor/watch.py:31-48 | one check of the write-ahead emitter, cut off after any number of durable writes |
| `Chain.UnbrokenChain` | codex_monitor/watch.py:31-48 | with crashes, failed emits and any other transaction between any two writes, the inbox events of a watch have distinct ids, each starts at the sample where its predecessor ended, the first at the silent baseline, and none is a non-change |
| `Chain.VerdictsAlternate` | codex_monitor/managed.py:282-306 | in predicate mode matched and not_matched strictly alternate |
| `Chain.StoresAgree` | codex_monitor/managed.py:270-306 | a pending event always is the stored debounce candidate, so neither the commit mismatch nor the missing baseline error is ever raised |
| `Chain.EngineIsHarmless` | codex_monitor/monitor.py:471-476 | every step of the delivery engine except an intake on this watch's binding is one of the transactions the chain tolerates |
| `Managed.ManagedWatch.ReplayPending` | codex_monitor/managed.py:270-280 | replay is the emitter's check followed by the debouncer's commit |
| `Managed.ReplayIsRun` | codex_monitor/managed.py:270-280 | a replay, however far it gets, is a run of the chain's single steps |
| `Managed.ManagedWatch.ObserveSample` | codex_monitor/managed.py:282-306 | an observation is select, check and commit on the three stores |
| `Managed.ObservationIsRun` | codex_monitor/managed.py:282-306 | an observation after a replay, however far it gets, is a run of the chain's single steps |
| `Supervisor.SamplersBounded` | codex_monitor/managed.py:308-326 | in every reachable state the live samplers are in the worker table, at most one per watch, within the overall and the per-thread limit |
| `Supervisor.LiveAtMost` | codex_monitor/managed.py:341-377 | the number of live sampler processes never exceeds the worker limit, however many refuse to die |
| `Sampling.WholeIsSound` | codex_monitor/managed.py:411-460 | with engine, registry, supervisor and watch interleaved step by step, the chain is unbroken, the consistency errors never arise, and the samplers keep their limits |
| `Sampling.LogTellsAll` | codex_monitor/managed.py:411-460 | a step without a log entry changes neither checkpoint, candidate nor the watch's inbox events |
| `Sampling.OldResultsChangeNothing` | codex_monitor/managed.py:411-417 | once the watch was paused, resumed or removed, no result of a worker started before is applied: over every continuation no entry is made on its behalf |
| `Sampling.SwitchRetiresWorker` | codex_monitor/managed.py:387-391 | a switch of the watch while a worker is in the table retires that worker's result for good |
| `Sampling.BetweenReadsOnlyReplay` | codex_monitor/managed.py:446-450 | if the watch is switched between the two reads of its row, the sample is never looked at, and all that still happens for older workers is the replay of the event that was pending |
| `Sampling.StoredChangesAreStable` | codex_monitor/managed.py:282-306 | over every run of the whole, each change stored for a debounced watch, and so emitted, was stable when its policy object was last asked: seen and nothing else, in one epoch, for at least the window, unless a select of that object had raised an error, refusals before the first that did not aside |
| `Supervisor.EpochsOnlyRise` | codex_monitor/monitor.py:415-439 | every engine step keeps a watch's epoch, or raises it when it switches the watch |
| `Supervisor.OutdatedForGood` | codex_monitor/managed.py:387-391 | a worker started before a pause never becomes current again |
| `Supervisor.ManagedSupervisor.ConsiderRow` | codex_monitor/managed.py:505-569 | one round of the scheduling loop |
| `Supervisor.ManagedSupervisor.ConsiderRows` | codex_monitor/managed.py:505-569 | the scheduling loop, and how many samplers it started |
| `Supervisor.ManagedSupervisor.ScheduleRows` | codex_monitor/managed.py:505-569 | the loop with its rotating start |
| `Supervisor.ManagedSupervisor.CancelWorker` | codex_monitor/managed.py:359-385 | cancelling keeps a worker in the table until its process is gone |
| `Supervisor.ManagedSupervisor.ReapWorker` | codex_monitor/managed.py:462-503 | one round of reaping for a row read before; a result is applied at most once and only for a current row, the application itself being Sampling's |
| `Lifecycle.HistoryIsChain` | codex_monitor/requests.py:577-622 | the revision is the number of recorded updates, the updates are contiguous from received on, each previous state the state before it, and there never are more than three |
| `Lifecycle.RunExtends` | codex_monitor/requests.py:508-518 | no run leaves a terminal state or rewrites a recorded update |
| `Lifecycle.RetryChangesNothing` | codex_monitor/requests.py:577-602 | repeating an update that went through changes nothing, at any later time and after anything in between |
| `Lifecycle.CapacityIsReserved` | codex_monitor/requests.py:525-544 | pending notifications and open requests together never exceed max_notifications |
| `Lifecycle.TerminalAlwaysFits` | codex_monitor/requests.py:603-606 | ending an open request at its current revision under an unused update id is never refused, for capacity or anything else |
| `Lifecycle.AllExpire` | codex_monitor/requests.py:651-678 | selected rows without a clashing update id all expire: the early break in the loop never happens |
| `Lifecycle.ExpiryIsExact` | codex_monitor/requests.py:651-678 | expire_due fails if and only if a caller has used the update id that an expiry needs, then expiring none; otherwise it expires exactly the selected rows |
| `Lifecycle.ExpiryDrains` | codex_monitor/requests.py:651-678 | with callers that keep off the reserved ids, enough calls at one time leave no due request open |
| `Requests.RequestStore.Create` | codex_monitor/requests.py:342-403 | creation leaves the tables its specification function describes, with every refusal |
| `Requests.RequestStore.Transition` | codex_monitor/requests.py:577-622 | likewise for a transition: retry, revision, state and capacity checks in the code's order |
| `Requests.RequestStore.ExpireDue` | codex_monitor/requests.py:651-678 | likewise for the expiry loop, rolled back when a row fails |
| `Requests.RequestStore.Accept` | codex_monitor/requests.py:727-746 | likewise for an acknowledgement, refused when another delivery was recorded |
| `Requests.RequestStore.Fail` | codex_monitor/requests.py:748-775 | likewise for a failed relay and its back-off |
| `Requests.RequestStore.Defer` | codex_monitor/requests.py:777-800 | likewise for a deferred relay |
| `Requests.Stopped` | codex_monitor/requests.py:651-678 | once the expiry loop stops short, the remaining rows change nothing |
| `Outbox.RelayedInOrder` | codex_monitor/request_dispatch.py:16-48 | with crashes and any other transaction between intake and acknowledgement, a request's notifications enter the inbox in increasing revision order, an accepted one is there exactly once and unchanged, the accepted ones are a prefix, and the conflict of different deliveries is unreachable |
| `Outbox.RelayIsRun` | codex_monitor/request_dispatch.py:23-47 | one row handled without interference, cut off after any write, is a run of the relay's single steps |
| `Outbox.RequestDispatcher.Handle` | codex_monitor/request_dispatch.py:20-47 | one round of the loop over both stores, cut off after any number of writes |
| `Outbox.RequestDispatcher.Pump` | codex_monitor/request_dispatch.py:16-48 | one pump, complete or cut off, does what the specification says and keeps both stores sound |
| `Outbox.EngineIsHarmless` | codex_monitor/monitor.py:445-493 | every step of the delivery engine except an intake of a request notification is one of the transactions the relay tolerates |
| `Pointers.PointerTokens` | codex_monitor/predicates.py:58-88 | the decoding loop, with each of its refusals in the code's order |
| `Pointers.DecodesExactly` | codex_monitor/predicates.py:58-88 | a string decodes to a token list if and only if it is the encoding of that list and within the byte and depth limits |
| `Pointers.RefusedFor` | codex_monitor/predicates.py:58-88 | a string is refused if and only if it breaks the byte limit or UTF-8, or is the encoding of no list within the depth limit |
| `Predicates.StrictEqualIsSameMeaning` | codex_monitor/predicates.py:44-55 | two nested values are strictly equal if and only if they are the same JSON with numbers compared by amount |
| `Predicates.StrictEqualIsEquivalence` | codex_monitor/predicates.py:44-55 | strict equality is reflexive, symmetric and transitive, and never holds between a boolean and a number |
| `Predicates.DecimalIsIndex` | codex_monitor/predicates.py:187-193 | every array index has its decimal rendering as an accepted token |
| `Predicates.IndexIsDecimal` | codex_monitor/predicates.py:187-193 | no other accepted token means that index |
| `Predicates.Resolve` | codex_monitor/predicates.py:180-198 | the resolution loop finds exactly what following the tokens one by one finds |
| `Predicates.FollowsPath` | codex_monitor/predicates.py:180-198 | tokens lead along a path if and only if the path exists in the document and they are its tokens; then resolution gives the node at its end |
| `Predicates.EveryNodeIsReached` | codex_monitor/predicates.py:180-198 | every node of a document is what the encoding of its path resolves to, within the limits |
| `Predicates.PointersAreLocations` | codex_monitor/predicates.py:180-198 | two accepted pointers that resolve to one location of a document are the same string |
| `Predicates.NormalizesExactly` | codex_monitor/predicates.py:116-141 | normalization accepts exactly the written forms of valid conditions and gives each condition back |
| `Predicates.OppositesDisagree` | codex_monitor/predicates.py:201-223 | opposite operators give opposite verdicts, or the same reason for giving none |
| `Predicates.VerdictsAreOrdered` | codex_monitor/predicates.py:209-223 | on numbers exactly one of lt, eq and gt matches, gt matches every larger number too and lt every smaller one |
| `Predicates.VerdictByMeaning` | codex_monitor/predicates.py:201-223 | verdicts are the same for strictly equal documents and expected values |
| `Options.KeepOthers` | codex_monitor/permission_reconnect.py:31-58 | the rewriting loop keeps the units that are no overrides and complains of the first malformed one |
| `Options.WordsOfUnits` | codex_monitor/permission_reconnect.py:33-58 | reading arguments as units loses no word |
| `Options.ReplacementIsExact` | codex_monitor/permission_reconnect.py:28-66 | for any option wording: what is no override stays in order, and the overrides are exactly those written |
| `Permissions.PolicyArgs` | codex_monitor/permission_reconnect.py:28-66 | the rewriter produces the rewriting specification's arguments or its complaint |
| `Permissions.RewriteIsExact` | codex_monitor/permission_reconnect.py:28-66 | every argument that sets no permission stays, in its order, and the permissions set are exactly those of the policy |
| `Permissions.AbsorbsExactly` | codex_monitor/permission_reconnect.py:28-66 | a second rewrite equals rewriting once, for all policies, always for a resident and, for an owner, if and only if the first argument kept does not begin a configuration pair |
| `Permissions.ExecutableFirst` | codex_monitor/permission_reconnect.py:46-58 | arguments that start with an executable path meet that condition |
| `Permissions.LabelReadsBack` | codex_monitor/permission_status.py:17-23 | the label read from rewritten resident arguments is exactly that of the policy written |
| `Permissions.Conversation.Configure` | codex_monitor/permission_status.py:10-29 | the loops over bindings and services label each binding by its matching services and the conversation by its bindings |
| `Permissions.ConversationReadsBack` | codex_monitor/permission_status.py:5-29 | once every matching service was rewritten for a policy, the conversation is labelled with exactly that policy |
| `Services.WordingIsSound` | codex_monitor/permission_reconnect.py:12-66 | the options, keys and modes the program uses meet everything these proofs assume of a wording |
| `Inventory.Threads` | codex_monitor/owner_reconnect.py:150-168 | at most eight calls; an answer if and only if the pages form a whole inventory within eight, then with every thread of it |
| `Resident.ReadyIsExact` | codex_monitor/resident.py:132-165 | after every step a thread is ready exactly when connected, healthy, loaded and subscribed |
| `Resident.RetriesStayClose` | codex_monitor/resident.py:286-289 | every retry and reconnect delay is positive and at most backoff_max, after failed connection attempts too |
| `Resident.RegistersConsiderately` | codex_monitor/resident.py:245-318 | on one connection a successful resume is not repeated until a probe shows the thread unloaded, and a permanent rejection is never retried |
| `Resident.ResidentKeeper.UpdateLoaded` | codex_monitor/resident.py:157-165 | the method leaves the states its specification function describes |
| `Resident.ResidentKeeper.Probe` | codex_monitor/resident.py:320-335 | likewise for a probe |
| `Resident.ResidentKeeper.RegisterOne` | codex_monitor/resident.py:187-252 | likewise for a registration, queue probe and resume |
| `Resident.ResidentKeeper.RetryTarget` | codex_monitor/resident.py:291-318 | likewise for one round of the retry loop |

## Left out

- Session.NothingMissed: each list is assumed to page stably, as paging is the peer's; no position or cursor need agree between the two lists.
- EndToEnd.FindingIsBooked: the peer's lists are assumed honest, that is, to show a client id only if its message is in the queue or the history.
- Sampling.OldResultsChangeNothing: a result whose second read found the row current goes on to be observed even if the watch is switched right after, as in the code, which does not hold the row; the theorem therefore speaks of states in which no older result is being applied.
- Ordering.SubmissionsInOrder: orders the calls, not the moments at which the server takes the messages of calls that ended uncertain.
- Outbox.RelayedInOrder: producers other than the relay are assumed not to use `request-<uuid>-<revision>` ids.
- Lifecycle.ExpiryDrains: callers are assumed to keep off the `request-expiry-` update ids; Lifecycle.ExpiryIsExact covers those that do not.
- Predicates.NormalizesExactly: the size and encoding check of the expected value is a parameter; NaN and non-JSON values, which the parser refuses, have no model value.
- Permissions.Conversation.Configure: one conversation at a time; the lookup of the installed services is a parameter, and bindings are values inside the conversation object.
- Inventory.Threads: a page's list of threads is a set, and an entry that is no string is a malformed reply.
- Inbox.Monitor.RemoveWatch: what the lookup by thread and name saw is a parameter.
- Inbox.Monitor.Ingest: the refusals of ill-formed identifiers and oversized envelopes are not modelled.
- Requests.RequestStore.Create: the refusals of ill-formed identifiers and oversized payloads are not modelled.
- Resident.ResidentKeeper.RegisterOne: the confirmation of the sandbox mode is part of the reply, and error texts are not modelled.
- Supervisor.ManagedSupervisor.ReapWorker: pipes and exit codes are folded into what is sighted; whether the row is current is a parameter here and computed from the registry in Sampling.
- Names, watch capacity and uniqueness in `managed_create`, endpoint validation, conversation metadata and schema migrations.
- Rendered texts, error messages, `updated` stamps and submission ids.
- The backup, write and rollback of service files in `execute_policy`, and restarting services.
- HTTP serving, command line, terminal dashboard, launchd and systemd management, installers.
- SQLite, file locks, file hashing, JSON parsing and sockets: replaced by atomic transactions, abstract values and arbitrary peers.
- `ReplyStore`, `OwnerHealthCache` and process listing, which hold no hard property.
- Fairness between bindings or watches, which the code does not promise.
