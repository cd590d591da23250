/** The delivery engine as a state machine: the inbox, its one dispatcher, the operator and
    the native queue, interleaved in any order, with a crash possible at any moment.
    A run is a list of actions; an action whose guard fails changes nothing. */
module Delivery {
  import opened Sequences
  import opened Errors
  import opened Envelopes
  import opened Inbox

  /** One `deliver` call: what it was for, where it went, and what became of its message.
      `ended` stays None while the call runs, and for ever if a crash cut it off. */
  datatype Call = Call(
    delivery: nat, thread: string, endpoint: string, generation: nat, fate: Fate, ended: Option<Outcome>)
  {
    /** The caller was told the message is out of the world. */
    predicate Forgotten() {
      ended == Some(Unavailable) || ended == Some(Retryable) || ended == Some(Permanent)
    }

    /** The message is accepted, or still may be. A caller that was not told otherwise must
        reckon with a late write. */
    predicate Possible() {
      fate.MayBeAccepted() || (fate.Unsent? && !Forgotten())
    }
  }

  datatype Intake = Intake(binding: string, at: real)

  datatype Sys = Sys(
    db: Db,
    job: Option<Job>,           // the dispatcher's memory, lost in a crash
    calls: seq<Call>,           // every deliver call made so far
    admitted: seq<Intake>,   // true intake times, row by row
    doubts: seq<nat>,           // deliveries replayed while uncertain, one entry a replay
    lateReplay: bool,           // a dead delivery was replayed behind a later submission
    clockBack: bool)            // a resolution was stamped earlier than the event's intake

  datatype Action =
    | Bind(name: string, thread: string, endpoint: string, sources: set<string>)
    | CreateWatch(name: string, thread: string, endpoint: string)
    | Ingest(b: string, env: Envelope, now: real)
    | Enable(b: string, flag: bool)
    | Rebind(b: string, thread: string, previous: string, endpoint: string)
    | Dashboard(b: string, thread: string, endpoint: string, action: RouteAction)
    | SetWatchEnabled(b: string, flag: bool)
    | RemoveWatch(b: string, found: bool)   // found by an earlier lookup
    | Resolve(delivery: nat, verdict: Verdict, reason: string, now: real)
    | Claim(now: real, age: real)
    | Write(call: nat)     // the transport passes the message on
    | Arrive(call: nat)    // the server takes it
    | Vanish(call: nat)    // the server refuses it, or it is lost
    | Settle(outcome: Outcome, now: real)
    | Crash

  const INIT := Sys(Db(map[], map[], [], []), None, [], [], [], false, false)

  // ----- what calls are counted by

  function PossibleFor(d: nat): Call -> bool {
    (c: Call) => c.delivery == d && c.Possible()
  }

  function QueuedFor(d: nat): Call -> bool {
    (c: Call) => c.delivery == d && c.fate.Queued?
  }

  function SpentFor(d: nat, generation: nat): Call -> bool {
    (c: Call) => c.delivery == d && c.generation == generation && c.ended != Some(Unavailable)
  }

  function Spent(): Call -> bool {
    (c: Call) => c.ended != Some(Unavailable)
  }

  function Is(d: nat): nat -> bool {
    (x: nat) => x == d
  }

  function About(d: nat): Decision -> bool {
    (x: Decision) => x.delivery == d
  }

  /** How many times the operator has settled this delivery: its attempts are counted anew
      after each. */
  function Generation(db: Db, d: nat): nat {
    Count(db.decisions, About(d))
  }

  // ----- the steps

  predicate Overtaken(s: Sys, d: nat)
    requires d < |s.db.events|
  {
    exists k | 0 <= k < |s.calls| ::
      d < s.calls[k].delivery < |s.db.events|
      && s.db.events[s.calls[k].delivery].binding == s.db.events[d].binding
  }

  function DoIngest(limits: Limits, s: Sys, b: string, env: Envelope, now: real): Sys {
    var (db, r) := s.db.Ingest(limits, b, env, now);
    s.(db := db, admitted := if r.Ok? && !r.value.duplicate then s.admitted + [Intake(b, now)] else s.admitted)
  }

  function DoResolve(s: Sys, d: nat, verdict: Verdict, reason: string, now: real): Sys {
    var (db, r) := s.db.Resolve(d, verdict, reason, now);
    if r.Err? then s
    else
      var from := s.db.events[d].state;
      s.(db := db,
         doubts := if verdict.Replay? && from.Unsure? then s.doubts + [d] else s.doubts,
         lateReplay := s.lateReplay || (verdict.Replay? && from.Dead? && Overtaken(s, d)),
         clockBack := s.clockBack || (d < |s.admitted| && now < s.admitted[d].at))
  }

  function DoClaim(limits: Limits, s: Sys, now: real, age: real): Sys {
    if s.job.Some? then s
    else
      var (db, r) := s.db.Claim(limits, now, age);
      match r
      case Idle => s
      case Expiring(_) => s.(db := db)
      case Claimed(job) =>
        s.(db := db, job := Some(job),
           calls := if job.reconciling then s.calls else
             s.calls + [Call(job.delivery, job.thread, job.endpoint, Generation(s.db, job.delivery), Unsent, None)])
  }

  function SetFate(s: Sys, k: nat, from: Fate, to: Fate): Sys {
    if k < |s.calls| && s.calls[k].fate == from && (from.Unsent? ==> !s.calls[k].Forgotten())
    then s.(calls := s.calls[k := s.calls[k].(fate := to)])
    else s
  }

  /** What the session may report to the dispatcher: a delivery keeps the error contract, a
      reconciliation finds only what is there. */
  predicate MayReport(s: Sys, job: Job, outcome: Outcome) {
    if job.reconciling then
      outcome.Delivered? ==> exists k | 0 <= k < |s.calls| :: QueuedFor(job.delivery)(s.calls[k])
    else
      s.calls != [] && Honest(outcome, Last(s.calls).fate)
  }

  function DoSettle(limits: Limits, s: Sys, outcome: Outcome, now: real): Sys {
    if s.job.None? || s.job.value.delivery >= |s.db.events| || !MayReport(s, s.job.value, outcome) then s
    else
      var job := s.job.value;
      s.(db := s.db.Settle(limits, job, outcome, now), job := None,
         calls := if job.reconciling then s.calls
                  else s.calls[|s.calls| - 1 := Last(s.calls).(ended := Some(outcome))])
  }

  function Step(limits: Limits, s: Sys, a: Action): Sys {
    match a
    case Bind(name, thread, endpoint, sources) =>
      if name in s.db.bindings then s else s.(db := s.db.Bind(name, thread, endpoint, sources))
    case CreateWatch(name, thread, endpoint) =>
      if name in s.db.bindings then s else s.(db := s.db.CreateWatch(name, thread, endpoint))
    case Ingest(b, env, now) => DoIngest(limits, s, b, env, now)
    case Enable(b, flag) => s.(db := s.db.Enable(b, flag).0)
    case Rebind(b, thread, previous, endpoint) => s.(db := s.db.Rebind(b, thread, previous, endpoint).0)
    case Dashboard(b, thread, endpoint, action) => s.(db := s.db.DashboardAction(b, thread, endpoint, action).0)
    case SetWatchEnabled(b, flag) => s.(db := s.db.SetWatchEnabled(b, flag).0)
    case RemoveWatch(b, found) => s.(db := s.db.RemoveWatch(b, found).0)
    case Resolve(d, verdict, reason, now) => DoResolve(s, d, verdict, reason, now)
    case Claim(now, age) => DoClaim(limits, s, now, age)
    case Write(k) => SetFate(s, k, Unsent, OnWire)
    case Arrive(k) => SetFate(s, k, OnWire, Queued)
    case Vanish(k) => SetFate(s, k, OnWire, Refused)
    case Settle(outcome, now) => DoSettle(limits, s, outcome, now)
    case Crash => s.(job := None)
  }

  function RunFrom(limits: Limits, s: Sys, actions: seq<Action>): Sys {
    if actions == [] then s else Step(limits, RunFrom(limits, s, Front(actions)), Last(actions))
  }

  function Run(limits: Limits, actions: seq<Action>): Sys {
    RunFrom(limits, INIT, actions)
  }

  // ----- the invariant every other one builds on

  /** Histories and tables agree, and a claimed row waits for its dispatcher. */
  ghost predicate Consistent(s: Sys) {
    && s.db.Sound()
    && |s.admitted| == |s.db.events|
    && (forall i | 0 <= i < |s.admitted| :: s.admitted[i].binding == s.db.events[i].binding)
    && (forall k | 0 <= k < |s.calls| :: s.calls[k].delivery < |s.db.events|)
    && (forall k | 0 <= k < |s.doubts| :: s.doubts[k] < |s.db.events|)
    && (s.job.Some? ==> JobHeld(s, s.job.value))
  }

  ghost predicate JobHeld(s: Sys, job: Job) {
    && job.delivery < |s.db.events|
    && s.db.events[job.delivery].state.Submitting?
    && s.db.events[job.delivery].attempts == job.attempts + (if job.reconciling then 0 else 1)
    && s.db.events[job.delivery].binding in s.db.bindings
    && s.db.bindings[s.db.events[job.delivery].binding].thread == job.thread
    && s.db.bindings[s.db.events[job.delivery].binding].endpoint == job.endpoint
    && (!job.reconciling ==>
          && s.calls != [] && Last(s.calls).delivery == job.delivery
          && Last(s.calls).ended.None?
          && Last(s.calls).thread == job.thread && Last(s.calls).endpoint == job.endpoint)
  }

  /** The actions that touch only bindings and watches. */
  predicate RouteOnly(a: Action) {
    a.Bind? || a.CreateWatch? || a.Enable? || a.Rebind? || a.Dashboard? || a.SetWatchEnabled? || a.RemoveWatch?
  }

  /** A change of routes leaves every event alone, and every route with an event in doubt keeps
      its thread and endpoint; threads never change. */
  ghost predicate RouteChange(s: Db, t: Db) {
    && t.Sound()
    && t == s.(bindings := t.bindings, watches := t.watches)
    && s.bindings.Keys <= t.bindings.Keys
    && (forall b | b in s.bindings :: t.bindings[b].thread == s.bindings[b].thread)
    && (forall i | 0 <= i < |s.events| && s.events[i].InDoubt() && s.events[i].binding in s.bindings ::
          t.bindings[s.events[i].binding].endpoint == s.bindings[s.events[i].binding].endpoint)
  }

  lemma CreationsChangeRoutes(s: Db, name: string, thread: string, endpoint: string, sources: set<string>)
    requires s.Sound() && name !in s.bindings
    ensures RouteChange(s, s.Bind(name, thread, endpoint, sources))
    ensures RouteChange(s, s.CreateWatch(name, thread, endpoint))
  {
  }

  lemma EnableChangesRoutes(s: Db, b: string, flag: bool)
    requires s.Sound()
    ensures RouteChange(s, s.Enable(b, flag).0)
  {
  }

  lemma SwitchesChangeRoutes(s: Db, b: string, flag: bool)
    requires s.Sound()
    ensures RouteChange(s, s.SetWatchEnabled(b, flag).0)
    ensures RouteChange(s, s.RemoveWatch(b, flag).0)
  {
  }

  lemma RebindChangesRoutes(s: Db, b: string, thread: string, previous: string, endpoint: string)
    requires s.Sound()
    ensures RouteChange(s, s.Rebind(b, thread, previous, endpoint).0)
  {
  }

  lemma DashboardChangesRoutes(s: Db, b: string, thread: string, endpoint: string, action: RouteAction)
    requires s.Sound()
    ensures RouteChange(s, s.DashboardAction(b, thread, endpoint, action).0)
  {
  }

  lemma RouteOnlyTables(limits: Limits, s: Sys, a: Action)
    requires RouteOnly(a)
    ensures var t := Step(limits, s, a);
      t.db == s.db.(bindings := t.db.bindings, watches := t.db.watches)
  {
  }

  /** What a claim changes, told without the query. */
  ghost predicate ClaimChange(s: Sys, t: Sys, r: ClaimResult) {
    match r
    case Idle => t == s
    case Expiring(d) =>
      && d < |s.db.events| && s.db.events[d].state.Pending?
      && t == s.(db := s.db.SetEvent(d, s.db.events[d].(state := Dead)))
    case Claimed(job) =>
      && s.job.None? && job.delivery < |s.db.events|
      && var e := s.db.events[job.delivery];
      && job.attempts == e.attempts
      && (if job.reconciling then e.InDoubt() else e.state.Pending?)
      && t.db == s.db.SetEvent(job.delivery, e.(
           state := Submitting, attempts := job.attempts + if job.reconciling then 0 else 1))
      && t == s.(db := t.db, job := Some(job), calls := t.calls)
      && t.calls == if job.reconciling then s.calls else
           s.calls + [Call(job.delivery, job.thread, job.endpoint, Generation(s.db, job.delivery), Unsent, None)]
  }

  lemma ClaimChanges(limits: Limits, s: Sys, now: real, age: real)
    ensures ClaimChange(s, DoClaim(limits, s, now, age), if s.job.Some? then Idle else s.db.Claim(limits, now, age).1)
  {
    ClaimEffect(s.db, limits, now, age);
  }

  /** What a booked report changes, told without the rules. */
  ghost predicate SettleChange(limits: Limits, s: Sys, t: Sys, outcome: Outcome) {
    && s.job.Some? && s.job.value.delivery < |s.db.events|
    && var job, d := s.job.value, s.job.value.delivery;
    && MayReport(s, job, outcome) && (!job.reconciling ==> s.calls != [])
    && d < |t.db.events|
    && var before, after := s.db.events[d], t.db.events[d];
    && t.db == s.db.SetEvent(d, after)
    && after == before.(state := after.state, attempts := after.attempts, nextAt := after.nextAt)
    && (after.state.Accepted? <==> outcome.Delivered?)
    && after.state in {Accepted, Pending, Dead, Unsure}
    && (after.state.Pending? || after.state.Dead? ==>
          !job.reconciling && (outcome.Unavailable? || outcome.Retryable? || outcome.Permanent?))
    && (job.reconciling || !outcome.Unavailable? ==> after.attempts == before.attempts)
    && (!job.reconciling && outcome.Unavailable? ==>
          after.attempts == if before.attempts > 0 then before.attempts - 1 else 0)
    && (after.state.Pending? && !outcome.Unavailable? ==> job.attempts + 1 < limits.maxAttempts)
    && t == s.(db := t.db, job := None, calls := t.calls)
    && t.calls == if job.reconciling then s.calls
                  else s.calls[|s.calls| - 1 := Last(s.calls).(ended := Some(outcome))]
  }

  lemma SettleChanges(limits: Limits, s: Sys, outcome: Outcome, now: real)
    ensures var t := DoSettle(limits, s, outcome, now); t == s || SettleChange(limits, s, t, outcome)
  {
    if s.job.Some? && s.job.value.delivery < |s.db.events| {
      SettleEffect(s.db, limits, s.job.value, outcome, now);
    }
  }

  lemma ClaimKeepsRows(s: Sys, t: Sys, r: ClaimResult)
    requires ClaimChange(s, t, r)
    ensures t.db.KeepsRows(s.db) && |t.db.events| == |s.db.events|
  {
  }

  lemma SettleKeepsRows(limits: Limits, s: Sys, outcome: Outcome, now: real)
    ensures var t := DoSettle(limits, s, outcome, now); t.db.KeepsRows(s.db) && |t.db.events| == |s.db.events|
  {
    SettleChanges(limits, s, outcome, now);
  }

  lemma ResolveKeepsRows(s: Sys, d: nat, verdict: Verdict, reason: string, now: real)
    ensures var t := DoResolve(s, d, verdict, reason, now); t.db.KeepsRows(s.db) && |t.db.events| == |s.db.events|
  {
  }

  /** Only an intake adds a row, and no action changes a row's identity. */
  lemma NoIntakeKeepsRows(limits: Limits, s: Sys, a: Action)
    requires !a.Ingest?
    ensures var t := Step(limits, s, a);
      t.db.KeepsRows(s.db) && |t.db.events| == |s.db.events|
  {
    hide DoIngest, DoClaim, DoSettle, DoResolve, Db.Claim, ClaimChange, SettleChange;
    match a {
      case Claim(now, age) =>
        ClaimChanges(limits, s, now, age);
        ClaimKeepsRows(s, DoClaim(limits, s, now, age), if s.job.Some? then Idle else s.db.Claim(limits, now, age).1);
      case Settle(outcome, now) => SettleKeepsRows(limits, s, outcome, now);
      case Resolve(d, verdict, reason, now) => ResolveKeepsRows(s, d, verdict, reason, now);
      case Crash =>
      case _ =>
        if RouteOnly(a) {
          RouteOnlyTables(limits, s, a);
        }
    }
  }

  /** Route actions change routes and nothing else. */
  lemma RouteOnlySteps(limits: Limits, s: Sys, a: Action)
    requires RouteOnly(a) && s.db.Sound()
    ensures var t := Step(limits, s, a);
      RouteChange(s.db, t.db) && t == s.(db := t.db)
  {
    match a {
      case Bind(name, thread, endpoint, sources) =>
        if name !in s.db.bindings {
          CreationsChangeRoutes(s.db, name, thread, endpoint, sources);
        }
      case CreateWatch(name, thread, endpoint) =>
        if name !in s.db.bindings {
          CreationsChangeRoutes(s.db, name, thread, endpoint, {});
        }
      case Enable(b, flag) => EnableChangesRoutes(s.db, b, flag);
      case Rebind(b, thread, previous, endpoint) => RebindChangesRoutes(s.db, b, thread, previous, endpoint);
      case Dashboard(b, thread, endpoint, action) => DashboardChangesRoutes(s.db, b, thread, endpoint, action);
      case SetWatchEnabled(b, flag) => SwitchesChangeRoutes(s.db, b, flag);
      case RemoveWatch(b, found) => SwitchesChangeRoutes(s.db, b, found);
    }
  }

  lemma ConsistentIngest(limits: Limits, s: Sys, b: string, env: Envelope, now: real)
    requires Consistent(s)
    ensures Consistent(DoIngest(limits, s, b, env, now))
  {
  }

  lemma ConsistentResolve(s: Sys, d: nat, verdict: Verdict, reason: string, now: real)
    requires Consistent(s)
    ensures Consistent(DoResolve(s, d, verdict, reason, now))
  {
  }

  lemma ConsistentClaim(limits: Limits, s: Sys, now: real, age: real)
    requires Consistent(s)
    ensures Consistent(DoClaim(limits, s, now, age))
  {
    ClaimEffect(s.db, limits, now, age);
    var t := DoClaim(limits, s, now, age);
    assert t.db.bindings == s.db.bindings && t.db.watches == s.db.watches && |t.db.events| == |s.db.events|;
  }

  lemma ConsistentSettle(limits: Limits, s: Sys, outcome: Outcome, now: real)
    requires Consistent(s)
    ensures Consistent(DoSettle(limits, s, outcome, now))
  {
  }

  lemma ConsistentFate(s: Sys, k: nat, from: Fate, to: Fate)
    requires Consistent(s)
    ensures Consistent(SetFate(s, k, from, to))
  {
  }

  lemma ConsistentCrash(s: Sys)
    requires Consistent(s)
    ensures Consistent(s.(job := None))
  {
  }

  lemma ConsistentRoute(limits: Limits, s: Sys, a: Action)
    requires Consistent(s) && RouteOnly(a)
    ensures Consistent(Step(limits, s, a))
  {
    RouteOnlySteps(limits, s, a);
  }

  lemma ConsistentStep(limits: Limits, s: Sys, a: Action)
    requires Consistent(s)
    ensures Consistent(Step(limits, s, a))
  {
    hide Consistent, DoIngest, DoResolve, DoClaim, DoSettle, SetFate;
    match a {
      case Ingest(b, env, now) => ConsistentIngest(limits, s, b, env, now);
      case Resolve(d, verdict, reason, now) => ConsistentResolve(s, d, verdict, reason, now);
      case Claim(now, age) => ConsistentClaim(limits, s, now, age);
      case Settle(outcome, now) => ConsistentSettle(limits, s, outcome, now);
      case Write(k) => ConsistentFate(s, k, Unsent, OnWire);
      case Arrive(k) => ConsistentFate(s, k, OnWire, Queued);
      case Vanish(k) => ConsistentFate(s, k, OnWire, Refused);
      case Crash => ConsistentCrash(s);
      case _ => ConsistentRoute(limits, s, a);
    }
  }

  lemma {:induction false} ConsistentRun(limits: Limits, actions: seq<Action>)
    ensures Consistent(Run(limits, actions))
  {
    if actions != [] {
      ConsistentRun(limits, Front(actions));
      ConsistentStep(limits, Run(limits, Front(actions)), Last(actions));
    }
  }
}
