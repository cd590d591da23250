/** The durable event inbox of monitor.py: its tables as a value (`Db`), what every
    transaction does to them, and the `Monitor` object that performs the transactions.
    A delivery id is the row's position, which also is its native client id. */
module Inbox {
  import opened Sequences
  import opened Errors
  import opened Envelopes

  datatype LimitValues = LimitValues(
    maxAttempts: int, maxAge: real, maxPending: int, rateLimit: int, traceLimit: int)

  /** All limits are positive. */
  type Limits = l: LimitValues |
    && l.maxAttempts > 0 && l.maxAge > 0.0 && l.maxPending > 0 && l.rateLimit > 0 && l.traceLimit > 0
    witness LimitValues(5, 3600.0, 1000, 120, 16)

  const RATE_WINDOW := 60.0
  const RECONCILE_DELAY := 30.0
  const UNAVAILABLE_DELAY := 5.0
  const MAX_RETRY_DELAY := 60.0

  datatype Binding = Binding(
    thread: string, endpoint: string, sources: set<string>, enabled: bool, removed: bool)

  /** The lifecycle columns of a managed watch; its binding's name is its key. */
  datatype Watch = Watch(enabled: bool, removed: bool, epoch: nat)

  datatype EventState = Pending | Submitting | Unsure | Accepted | Dead | Discarded | Ignored

  datatype Event = Event(
    binding: string, envelope: Envelope, state: EventState, created: real, attempts: nat, nextAt: real)
  {
    predicate Active() {
      state.Pending? || state.Submitting? || state.Unsure?
    }

    /** The message may be in the native queue without this row saying so. */
    predicate InDoubt() {
      state.Submitting? || state.Unsure?
    }

    predicate HasKey(b: string, source: string, id: EventId) {
      binding == b && envelope.source == source && envelope.id == id
    }
  }

  datatype Verdict = Accept | Replay | Discard

  datatype Decision = Decision(delivery: nat, verdict: Verdict)

  datatype RouteAction = Pause | Resume | Remove

  datatype Receipt = Receipt(delivery: nat, duplicate: bool)

  datatype Refusal =
    | Malformed
    | UnknownBinding
    | SourceForbidden
    | IdReused
    | BindingDisabled
    | QueueFull
    | RateLimited
    | TraceExhausted
    | RouteChanged
    | RouteRetired
    | RouteManaged
    | RouteBusy
    | NotResolvable

  /** A claimed row, with the columns the dispatcher read before it committed the claim. */
  datatype Job = Job(delivery: nat, reconciling: bool, attempts: nat, thread: string, endpoint: string)

  datatype ClaimResult = Idle | Expiring(delivery: nat) | Claimed(job: Job)

  // ----- row predicates as values, for counting

  function ActiveOn(b: string): Event -> bool {
    (e: Event) => e.binding == b && e.Active()
  }

  function CreatedAfter(b: string, since: real): Event -> bool {
    (e: Event) => e.binding == b && e.created > since
  }

  function Traced(trace: string): Event -> bool {
    (e: Event) => e.envelope.trace == Some(trace)
  }

  /** The unique row with this key, if there is one. */
  function FindEvent(events: seq<Event>, b: string, source: string, id: EventId): (r: Option<nat>)
    ensures r.Some? ==> r.value < |events| && events[r.value].HasKey(b, source, id)
    ensures r.None? ==> forall i | 0 <= i < |events| :: !events[i].HasKey(b, source, id)
  {
    if events == [] then None
    else if Last(events).HasKey(b, source, id) then Some(|events| - 1)
    else FindEvent(Front(events), b, source, id)
  }

  /** min(60, 2 ** attempts) */
  function RetryDelay(attempts: nat): real {
    if attempts >= 6 then MAX_RETRY_DELAY
    else [1.0, 2.0, 4.0, 8.0, 16.0, 32.0][attempts]
  }

  predicate Blank(reason: string) {
    forall c | c in reason :: c in {' ', '\t', '\n', '\r'}
  }

  datatype Db = Db(
    bindings: map<string, Binding>, watches: map<string, Watch>, events: seq<Event>, decisions: seq<Decision>)
  {
    function SetEvent(i: nat, e: Event): Db
      requires i < |events|
    {
      this.(events := events[i := e])
    }

    function Bind(name: string, thread: string, endpoint: string, sources: set<string>): Db
      requires name !in bindings
    {
      this.(bindings := bindings[name := Binding(thread, endpoint, sources, true, false)])
    }

    function CreateWatch(name: string, thread: string, endpoint: string): Db
      requires name !in bindings
    {
      Bind(name, thread, endpoint, {MANAGED_SOURCE}).(watches := watches[name := Watch(true, false, 0)])
    }

    /** Why an event with a new key is turned away. */
    function FreshRefusal(limits: Limits, b: string, env: Envelope, now: real): Option<Refusal>
      requires b in bindings
    {
      if !bindings[b].enabled || bindings[b].removed then Some(BindingDisabled)
      else if Count(events, ActiveOn(b)) >= limits.maxPending then Some(QueueFull)
      else if Count(events, CreatedAfter(b, now - RATE_WINDOW)) >= limits.rateLimit then Some(RateLimited)
      else if env.trace.Some? && Count(events, Traced(env.trace.value)) >= limits.traceLimit then Some(TraceExhausted)
      else None
    }

    function NewEvent(b: string, env: Envelope, now: real): Event {
      Event(b, env, if env.kind == "agent.ack" then Ignored else Pending, now, 0, 0.0)
    }

    function Ingest(limits: Limits, b: string, env: Envelope, now: real): (Db, Result<Receipt, Refusal>) {
      if !(0 <= env.hops <= MAX_HOPS) then (this, Err(Malformed))
      else if b !in bindings then (this, Err(UnknownBinding))
      else if env.source !in bindings[b].sources then (this, Err(SourceForbidden))
      else
        var existing := FindEvent(events, b, env.source, env.id);
        if existing.Some? then
          if events[existing.value].envelope != env then (this, Err(IdReused))
          else (this, Ok(Receipt(existing.value, true)))
        else
          var refusal := FreshRefusal(limits, b, env, now);
          if refusal.Some? then (this, Err(refusal.value))
          else (this.(events := events + [NewEvent(b, env, now)]), Ok(Receipt(|events|, false)))
    }

    function Enable(b: string, flag: bool): (Db, Result<bool, Refusal>) {
      if b !in bindings then (this, Err(UnknownBinding))
      else if bindings[b].removed then (this, Err(if flag then RouteRetired else UnknownBinding))
      else (this.(bindings := bindings[b := bindings[b].(enabled := flag)]), Ok(flag))
    }

    function Rebind(b: string, thread: string, previous: string, endpoint: string): (Db, Result<bool, Refusal>) {
      if b !in bindings || bindings[b].thread != thread || bindings[b].endpoint != previous then
        (this, Err(RouteChanged))
      else if bindings[b].removed then (this, Err(RouteRetired))
      else if b in watches then (this, Err(RouteManaged))
      else if exists i | 0 <= i < |events| :: events[i].binding == b && events[i].InDoubt() then
        (this, Err(RouteBusy))
      else (this.(bindings := bindings[b := bindings[b].(endpoint := endpoint)]), Ok(true))
    }

    function DashboardAction(b: string, thread: string, endpoint: string, action: RouteAction)
      : (Db, Result<bool, Refusal>)
    {
      if b !in bindings || bindings[b].thread != thread || bindings[b].endpoint != endpoint
         || bindings[b].removed then (this, Err(RouteChanged))
      else if b in watches && watches[b].removed then (this, Err(RouteRetired))
      else
        var row := bindings[b].(enabled := action.Resume?, removed := action.Remove?);
        var routed := this.(bindings := bindings[b := row]);
        (if b !in watches then routed
         else routed.(watches := watches[b := Watch(action.Resume?, action.Remove?, watches[b].epoch + 1)]),
         Ok(b in watches))
    }

    function SetWatchEnabled(b: string, flag: bool): (Db, Result<bool, Refusal>) {
      if b !in watches || watches[b].removed || b !in bindings then (this, Err(UnknownBinding))
      else
        (this.(watches := watches[b := Watch(flag, false, watches[b].epoch + 1)],
               bindings := bindings[b := bindings[b].(enabled := flag)]), Ok(flag))
    }

    /** `found` is what the lookup by thread and name saw, in a transaction of its own before:
        a watch not yet removed. The update does not ask again. */
    function RemoveWatch(b: string, found: bool): (Db, Result<bool, Refusal>) {
      if !found || b !in watches || b !in bindings then (this, Err(UnknownBinding))
      else
        (this.(watches := watches[b := Watch(false, true, watches[b].epoch + 1)],
               bindings := bindings[b := bindings[b].(enabled := false, removed := true)]), Ok(true))
    }

    function Resolve(delivery: nat, verdict: Verdict, reason: string, now: real): (Db, Result<bool, Refusal>) {
      if Blank(reason) then (this, Err(Malformed))
      else if delivery >= |events| || !(events[delivery].state.Unsure? || events[delivery].state.Dead?) then
        (this, Err(NotResolvable))
      else
        var state := match verdict case Accept => Accepted case Replay => Pending case Discard => Discarded;
        var e := events[delivery].(state := state, attempts := 0, nextAt := 0.0, created := now);
        (SetEvent(delivery, e).(decisions := decisions + [Decision(delivery, verdict)]), Ok(true))
    }

    /** The WHERE clause of the dispatch query. */
    predicate Eligible(i: nat, now: real)
      requires i < |events|
    {
      && events[i].Active()
      && events[i].binding in bindings
      && bindings[events[i].binding].enabled
      && !bindings[events[i].binding].removed
      && events[i].nextAt <= now
      && forall j | 0 <= j < i :: !(events[j].binding == events[i].binding && events[j].Active())
    }

    /** The ORDER BY clause: due time first, then arrival. */
    predicate Before(i: nat, j: nat)
      requires i < |events| && j < |events|
    {
      events[i].nextAt < events[j].nextAt || (events[i].nextAt == events[j].nextAt && i <= j)
    }

    /** The row the dispatch query returns, looking at the first n rows only. */
    function Next(now: real, n: nat): (r: Option<nat>)
      requires n <= |events|
      ensures r.Some? ==> r.value < n && Eligible(r.value, now)
      ensures r.Some? ==> forall j | 0 <= j < n && Eligible(j, now) :: Before(r.value, j)
      ensures r.None? ==> forall j | 0 <= j < n :: !Eligible(j, now)
    {
      if n == 0 then None
      else
        var best := Next(now, n - 1);
        if !Eligible(n - 1, now) then best
        else if best.Some? && Before(best.value, n - 1) then best
        else Some(n - 1)
    }

    /** The first transaction of `dispatch_once`, up to its commit. */
    function Claim(limits: Limits, now: real, age: real): (Db, ClaimResult) {
      var next := Next(now, |events|);
      if next.None? then (this, Idle)
      else
        var i := next.value;
        var row := events[i];
        if row.state.Pending? && age - row.created > limits.maxAge then
          (SetEvent(i, row.(state := Dead)), Expiring(i))
        else
          var reconciling := !row.state.Pending?;
          var attempts := if reconciling then row.attempts else row.attempts + 1;
          var route := bindings[row.binding];
          (SetEvent(i, row.(state := Submitting, attempts := attempts)),
           Claimed(Job(i, reconciling, row.attempts, route.thread, route.endpoint)))
    }

    /** The second transaction of `dispatch_once`: record how the session call ended. */
    function Settle(limits: Limits, job: Job, outcome: Outcome, now: real): Db
      requires job.delivery < |events|
    {
      var row := events[job.delivery];
      var (state, attempts, delay) :=
        if outcome.Delivered? then (Accepted, row.attempts, 0.0)
        else if job.reconciling || outcome.Uncertain? then (Unsure, row.attempts, RECONCILE_DELAY)
        else if outcome.Unavailable? then
          (Pending, if row.attempts > 0 then row.attempts - 1 else 0, UNAVAILABLE_DELAY)
        else if outcome.Retryable? then
          (if job.attempts + 1 >= limits.maxAttempts then Dead else Pending, row.attempts, RetryDelay(job.attempts))
        else if outcome.Permanent? then (Dead, row.attempts, 0.0)
        else (Unsure, row.attempts, RECONCILE_DELAY);
      var next := if outcome.Delivered? then row.nextAt else now + delay;
      SetEvent(job.delivery, row.(state := state, attempts := attempts, nextAt := next))
    }

    /** Every row names a registered binding, and every watch has one. */
    ghost predicate Sound() {
      && (forall i | 0 <= i < |events| :: events[i].binding in bindings)
      && watches.Keys <= bindings.Keys
    }

    /** What no transaction ever changes in a row. */
    ghost predicate KeepsRows(older: Db) {
      && |older.events| <= |events|
      && (forall i | 0 <= i < |older.events| ::
            && events[i].binding == older.events[i].binding
            && events[i].envelope == older.events[i].envelope)
    }
  }

  /** Intake appends at most one row, whose key is new, and says which row answers. */
  lemma IngestEffect(db: Db, limits: Limits, b: string, env: Envelope, now: real)
    ensures var (t, r) := db.Ingest(limits, b, env, now);
      if r.Ok? && !r.value.duplicate then
        && t == db.(events := db.events + [db.NewEvent(b, env, now)])
        && r.value.delivery == |db.events|
        && b in db.bindings && db.bindings[b].enabled && !db.bindings[b].removed
        && forall i | 0 <= i < |db.events| :: !db.events[i].HasKey(b, env.source, env.id)
      else
        && t == db
        && (r.Ok? ==> r.value.delivery < |db.events| && db.events[r.value.delivery].binding == b
                      && db.events[r.value.delivery].envelope == env)
  {
  }

  /** A claim changes one active row, and only its state and attempts. */
  lemma ClaimEffect(db: Db, limits: Limits, now: real, age: real)
    ensures var (t, r) := db.Claim(limits, now, age);
      match r
      case Idle => t == db
      case Expiring(i) =>
        i < |db.events| && db.events[i].state.Pending? && t == db.SetEvent(i, db.events[i].(state := Dead))
      case Claimed(job) =>
        && job.delivery < |db.events|
        && (if job.reconciling then db.events[job.delivery].InDoubt() else db.events[job.delivery].state.Pending?)
        && t == db.SetEvent(job.delivery, db.events[job.delivery].(
                  state := Submitting, attempts := job.attempts + if job.reconciling then 0 else 1))
  {
  }

  /** Which states a settled row may be in: only a failure known to be harmless lets a
      delivery be tried again or given up, and a reconciliation never does. */
  lemma SettleEffect(db: Db, limits: Limits, job: Job, outcome: Outcome, now: real)
    requires job.delivery < |db.events|
    ensures var e := db.Settle(limits, job, outcome, now).events[job.delivery];
      && db.Settle(limits, job, outcome, now) == db.SetEvent(job.delivery, e)
      && e == db.events[job.delivery].(state := e.state, attempts := e.attempts, nextAt := e.nextAt)
      && (e.state.Accepted? <==> outcome.Delivered?)
      && (e.state.Pending? || e.state.Dead? ==>
            !job.reconciling && (outcome.Unavailable? || outcome.Retryable? || outcome.Permanent?))
      && e.state in {Accepted, Pending, Dead, Unsure}
  {
  }

  /** The object behind `monitor.sqlite3`; one method per transaction. */
  class Monitor {
    const limits: Limits
    var bindings: map<string, Binding>
    var watches: map<string, Watch>
    var events: seq<Event>
    var decisions: seq<Decision>

    constructor (limits: Limits)
      ensures this.limits == limits && Tables() == Db(map[], map[], [], [])
    {
      this.limits := limits;
      bindings, watches, events, decisions := map[], map[], [], [];
    }

    function Tables(): Db
      reads this
    {
      Db(bindings, watches, events, decisions)
    }

    method Ingest(b: string, env: Envelope, now: real) returns (r: Result<Receipt, Refusal>)
      modifies this`events
      ensures (Tables(), r) == old(Tables()).Ingest(limits, b, env, now)
    {
      if !(0 <= env.hops <= MAX_HOPS) {
        return Err(Malformed);
      }
      if b !in bindings {
        return Err(UnknownBinding);
      }
      var target := bindings[b];
      if env.source !in target.sources {
        return Err(SourceForbidden);
      }
      var existing := FindEvent(events, b, env.source, env.id);
      if existing.Some? {
        if events[existing.value].envelope != env {
          return Err(IdReused);
        }
        return Ok(Receipt(existing.value, true));
      }
      if !target.enabled || target.removed {
        return Err(BindingDisabled);
      }
      var active := Count(events, ActiveOn(b));
      if active >= limits.maxPending {
        return Err(QueueFull);
      }
      var recent := Count(events, CreatedAfter(b, now - RATE_WINDOW));
      if recent >= limits.rateLimit {
        return Err(RateLimited);
      }
      if env.trace.Some? {
        var traced := Count(events, Traced(env.trace.value));
        if traced >= limits.traceLimit {
          return Err(TraceExhausted);
        }
      }
      var state := if env.kind == "agent.ack" then Ignored else Pending;
      events := events + [Event(b, env, state, now, 0, 0.0)];
      r := Ok(Receipt(|events| - 1, false));
    }

    method Enable(b: string, flag: bool) returns (r: Result<bool, Refusal>)
      modifies this`bindings
      ensures (Tables(), r) == old(Tables()).Enable(b, flag)
    {
      if flag {
        if b !in bindings {
          return Err(UnknownBinding);
        }
        if bindings[b].removed {
          return Err(RouteRetired);
        }
      }
      if b !in bindings || bindings[b].removed {
        return Err(UnknownBinding);
      }
      bindings := bindings[b := bindings[b].(enabled := flag)];
      r := Ok(flag);
    }

    method Rebind(b: string, thread: string, previous: string, endpoint: string)
      returns (r: Result<bool, Refusal>)
      modifies this`bindings
      ensures (Tables(), r) == old(Tables()).Rebind(b, thread, previous, endpoint)
    {
      if b !in bindings || bindings[b].thread != thread || bindings[b].endpoint != previous {
        return Err(RouteChanged);
      }
      if bindings[b].removed {
        return Err(RouteRetired);
      }
      if b in watches {
        return Err(RouteManaged);
      }
      if exists i | 0 <= i < |events| :: events[i].binding == b && events[i].InDoubt() {
        return Err(RouteBusy);
      }
      bindings := bindings[b := bindings[b].(endpoint := endpoint)];
      r := Ok(true);
    }

    method DashboardAction(b: string, thread: string, endpoint: string, action: RouteAction)
      returns (r: Result<bool, Refusal>)
      modifies this`bindings, this`watches
      ensures (Tables(), r) == old(Tables()).DashboardAction(b, thread, endpoint, action)
    {
      if b !in bindings || bindings[b].thread != thread || bindings[b].endpoint != endpoint
         || bindings[b].removed {
        return Err(RouteChanged);
      }
      var managed := b in watches;
      if managed && watches[b].removed {
        return Err(RouteRetired);
      }
      var enabled, removed := action == Resume, action == Remove;
      bindings := bindings[b := bindings[b].(enabled := enabled, removed := removed)];
      if managed {
        watches := watches[b := Watch(enabled, removed, watches[b].epoch + 1)];
      }
      r := Ok(managed);
    }

    method SetWatchEnabled(b: string, flag: bool) returns (r: Result<bool, Refusal>)
      modifies this`bindings, this`watches
      ensures (Tables(), r) == old(Tables()).SetWatchEnabled(b, flag)
    {
      if b !in watches || watches[b].removed || b !in bindings {
        return Err(UnknownBinding);
      }
      watches := watches[b := Watch(flag, false, watches[b].epoch + 1)];
      bindings := bindings[b := bindings[b].(enabled := flag)];
      r := Ok(flag);
    }

    method RemoveWatch(b: string, found: bool) returns (r: Result<bool, Refusal>)
      modifies this`bindings, this`watches
      ensures (Tables(), r) == old(Tables()).RemoveWatch(b, found)
    {
      if !found || b !in watches || b !in bindings {
        return Err(UnknownBinding);
      }
      watches := watches[b := Watch(false, true, watches[b].epoch + 1)];
      bindings := bindings[b := bindings[b].(enabled := false, removed := true)];
      r := Ok(true);
    }

    method Resolve(delivery: nat, verdict: Verdict, reason: string, now: real)
      returns (r: Result<bool, Refusal>)
      modifies this`events, this`decisions
      ensures (Tables(), r) == old(Tables()).Resolve(delivery, verdict, reason, now)
    {
      if Blank(reason) {
        return Err(Malformed);
      }
      if delivery >= |events| || events[delivery].state !in {Unsure, Dead} {
        return Err(NotResolvable);
      }
      var state;
      match verdict {
        case Accept => state := Accepted;
        case Replay => state := Pending;
        case Discard => state := Discarded;
      }
      events := events[delivery :=
        events[delivery].(state := state, attempts := 0, nextAt := 0.0, created := now)];
      decisions := decisions + [Decision(delivery, verdict)];
      r := Ok(true);
    }

    /** `dispatch_once` up to the commit that separates the claim from its outcome. */
    method Claim(now: real, age: real) returns (r: ClaimResult)
      modifies this`events
      ensures (Tables(), r) == old(Tables()).Claim(limits, now, age)
      ensures r.Claimed? ==> r.job.delivery < |events|
    {
      var next := Tables().Next(now, |events|);
      if next.None? {
        return Idle;
      }
      var i, row := next.value, events[next.value];
      var reconciling := row.state != Pending;
      if !reconciling && age - row.created > limits.maxAge {
        events := events[i := row.(state := Dead)];
        return Expiring(i);
      }
      var route := bindings[row.binding];
      events := events[i := row.(state := Submitting, attempts := row.attempts + if reconciling then 0 else 1)];
      r := Claimed(Job(i, reconciling, row.attempts, route.thread, route.endpoint));
    }

    /** `dispatch_once` after the session call returned or raised. */
    method Settle(job: Job, outcome: Outcome, now: real)
      requires job.delivery < |events|
      modifies this`events
      ensures Tables() == old(Tables()).Settle(limits, job, outcome, now)
    {
      var i, row := job.delivery, events[job.delivery];
      if outcome.Delivered? {
        events := events[i := row.(state := Accepted)];
        return;
      }
      var state, delay;
      if job.reconciling || outcome.Uncertain? {
        state, delay := Unsure, RECONCILE_DELAY;
      } else if outcome.Unavailable? {
        state, delay := Pending, UNAVAILABLE_DELAY;
        row := row.(attempts := if row.attempts > 0 then row.attempts - 1 else 0);
      } else if outcome.Retryable? {
        state := if job.attempts + 1 >= limits.maxAttempts then Dead else Pending;
        delay := RetryDelay(job.attempts);
      } else if outcome.Permanent? {
        state, delay := Dead, 0.0;
      } else {
        state, delay := Unsure, RECONCILE_DELAY;
      }
      events := events[i := row.(state := state, nextAt := now + delay)];
    }

    /** One uninterrupted `dispatch_once`; `outcome` is how the session call ends. */
    method DispatchOnce(now: real, age: real, outcome: Outcome, settled: real) returns (busy: bool)
      modifies this`events
      ensures var (claimed, r) := old(Tables()).Claim(limits, now, age);
        && busy == !r.Idle?
        && (r.Claimed? ==> r.job.delivery < |claimed.events|)
        && Tables() == if r.Claimed? then claimed.Settle(limits, r.job, outcome, settled) else claimed
    {
      var r := Claim(now, age);
      if r.Claimed? {
        Settle(r.job, outcome, settled);
      }
      busy := !r.Idle?;
    }
  }
}
