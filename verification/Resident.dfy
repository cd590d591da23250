/** The subscription keeper of resident.py: connect, attach every thread, probe, retry with
    backoff, disconnect -- against an owner that may answer anything. `log` is the history of
    what was asked and shown. */
module Resident {
  import opened Sequences

  datatype Status = Status(loaded: bool, subscribed: bool, ready: bool)

  /** `at` is None for "not scheduled" (infinity). */
  datatype Retry = Retry(at: Option<real>, delay: real, terminal: bool)

  /** How the owner answers a request about one thread; `lasting` is the classification of its
      rejection, and Broken any failure of the connection itself. */
  datatype Reply = Granted | Rejected(lasting: bool) | Broken

  datatype Loaded = Shown(threads: set<string>) | Refused | Lost

  datatype Entry =
    | Opened                          // a new connection
    | Probed(threads: set<string>)    // the owner listed its loaded threads
    | Tried(thread: string)           // a registration was started
    | Resumed(thread: string)         // and succeeded
    | Barred(thread: string)          // or was rejected for good

  datatype Delays = Delays(initial: real, max: real)

  datatype Keeper = Keeper(
    connected: bool, healthy: bool, states: map<string, Status>, retries: map<string, Retry>,
    opening: bool,           // connected, but the attach has not asked for the loaded threads
    waiting: seq<string>,    // threads the running attach has not come to
    probed: bool,            // a periodic probe has succeeded on this connection
    backoff: real, log: seq<Entry>)

  const DOWN := Status(false, false, false)

  function AllDown(states: map<string, Status>): map<string, Status> {
    map t | t in states :: DOWN
  }

  /** `_set_connected` and the new retry table of `_attach`. */
  function Connect(d: Delays, k: Keeper, threads: seq<string>, now: real): Keeper {
    k.(connected := true, healthy := false, states := AllDown(k.states),
       retries := map t | t in k.states :: Retry(Some(now), d.initial, false),
       opening := true, waiting := threads, probed := false, log := k.log + [Opened])
  }

  /** The delay `run` waits before it connects again. */
  function Wait(d: Delays, k: Keeper): real {
    if k.probed then d.initial else k.backoff
  }

  /** `_set_disconnected`, and the next reconnect delay. */
  function Disconnect(d: Delays, k: Keeper): Keeper {
    k.(connected := false, healthy := false, states := AllDown(k.states), opening := false, waiting := [],
       probed := false, backoff := Doubled(d, Wait(d, k)))
  }

  function Doubled(d: Delays, delay: real): real {
    if delay * 2.0 < d.max then delay * 2.0 else d.max
  }

  /** `_update_loaded` */
  function LoadedKnown(k: Keeper, loaded: set<string>): Keeper {
    k.(states := map t | t in k.states ::
      var subscribed := t in loaded && k.states[t].subscribed;
      Status(t in loaded, subscribed, k.connected && k.healthy && t in loaded && subscribed))
  }

  /** The loaded-thread request that opens `_attach`. */
  function AttachAnswered(d: Delays, k: Keeper, reply: Loaded): Keeper {
    match reply
    case Shown(loaded) => LoadedKnown(k.(healthy := true, opening := false, log := k.log + [Probed(loaded)]), loaded)
    case Refused => LoadedKnown(k.(healthy := false, opening := false), {})
    case Lost => Disconnect(d, k)
  }

  /** `_probe` */
  function ProbeAnswered(d: Delays, k: Keeper, reply: Loaded): Keeper {
    match reply
    case Shown(loaded) => LoadedKnown(k.(healthy := true, probed := true, log := k.log + [Probed(loaded)]), loaded)
    case Refused => k.(healthy := false, states := map t | t in k.states :: k.states[t].(ready := false))
    case Lost => Disconnect(d, k)
  }

  datatype Result = Fine | Transient | Permanent | Down

  function Classified(reply: Reply): Result {
    match reply
    case Granted => Fine
    case Rejected(lasting) => if lasting then Permanent else Transient
    case Broken => Down
  }

  /** `_register_one`: the queue probe, then the resume. */
  function Register(k: Keeper, t: string, queue: Reply, resume: Reply, stopping: bool): (Keeper, Result)
    requires t in k.states
  {
    if k.states[t].subscribed then (k, Fine)
    else
      var tried := k.(log := k.log + [Tried(t)]);
      var asked := if queue.Granted? && !stopping then resume else queue;
      if queue.Granted? && stopping then (tried, Fine)
      else
        match asked
        case Granted =>
          (tried.(states := k.states[t := Status(true, true, k.connected && k.healthy)],
                  log := tried.log + [Resumed(t)]), Fine)
        case Rejected(lasting) =>
          (tried.(states := k.states[t := k.states[t].(subscribed := false, ready := false)],
                  log := if lasting then tried.log + [Barred(t)] else tried.log), Classified(asked))
        case Broken => (tried, Down)
  }

  /** `_schedule_retry` */
  function Scheduled(d: Delays, r: Retry, now: real): Retry {
    Retry(Some(now + r.delay), Doubled(d, r.delay), r.terminal)
  }

  /** What a registration's result does to the thread's retry entry. */
  function Rescheduled(d: Delays, k: Keeper, t: string, result: Result, clock: real): Keeper
    requires t in k.retries
  {
    match result
    case Fine => k.(retries := k.retries[t := k.retries[t].(at := None)])
    case Transient => k.(retries := k.retries[t := Scheduled(d, k.retries[t], clock)])
    case Permanent => k.(retries := k.retries[t := k.retries[t].(at := None, terminal := true)])
    case Down => Disconnect(d, k)
  }

  /** One round of the loop in `_attach`. */
  function AttachOne(d: Delays, k: Keeper, queue: Reply, resume: Reply, stopping: bool, clock: real): Keeper
    requires k.waiting != [] && k.waiting[0] in k.states && k.waiting[0] in k.retries
  {
    var t := k.waiting[0];
    var (registered, result) := Register(k.(waiting := k.waiting[1..]), t, queue, resume, stopping);
    Rescheduled(d, registered, t, result, clock)
  }

  /** An unscheduled retry becomes due now. */
  function Dated(k: Keeper, t: string, now: real): Keeper
    requires t in k.retries
  {
    var r := k.retries[t];
    k.(retries := k.retries[t := r.(at := Some(if r.at.None? then now else r.at.value))])
  }

  /** One round of the loop in `_retry_targets`. */
  function RetryOne(d: Delays, k: Keeper, t: string, now: real, queue: Reply, resume: Reply, stopping: bool,
                    clock: real): Keeper
    requires t in k.states && t in k.retries
  {
    if k.states[t].subscribed then k.(retries := k.retries[t := k.retries[t].(at := None)])
    else if k.retries[t].terminal then k
    else
      var dated := Dated(k, t, now);
      if dated.retries[t].at.value > now then dated
      else
        var (registered, result) := Register(dated, t, queue, resume, stopping);
        Rescheduled(d, registered, t, result, clock)
  }

  // ----- the object

  class ResidentKeeper {
    const delays: Delays
    const threads: seq<string>
    var connected: bool
    var healthy: bool
    var states: map<string, Status>
    var retries: map<string, Retry>
    ghost var opening: bool
    ghost var waiting: seq<string>
    var probed: bool
    var backoff: real
    ghost var log: seq<Entry>

    constructor (delays: Delays, threads: seq<string>)
      ensures this.delays == delays && this.threads == threads
      ensures State() == Start(delays, threads)
    {
      this.delays, this.threads := delays, threads;
      connected, healthy, probed, backoff := false, false, false, delays.initial;
      opening, waiting, log := false, [], [];
      states := map t | t in threads :: DOWN;
      retries := map t | t in threads :: Retry(None, delays.initial, false);
    }

    ghost function State(): Keeper
      reads this
    {
      Keeper(connected, healthy, states, retries, opening, waiting, probed, backoff, log)
    }

    method UpdateLoaded(loaded: set<string>)
      modifies this`states
      ensures State() == LoadedKnown(old(State()), loaded)
    {
      states := map t | t in states ::
        Status(t in loaded, t in loaded && states[t].subscribed,
               connected && healthy && t in loaded && t in loaded && states[t].subscribed);
    }

    /** `_probe`; true when the owner listed its threads. */
    method Probe(reply: Loaded) returns (ok: bool)
      requires !reply.Lost?
      modifies this
      ensures State() == ProbeAnswered(delays, old(State()), reply)
      ensures ok == reply.Shown?
    {
      ok := reply.Shown?;
      if ok {
        healthy, probed := true, true;
        log := log + [Probed(reply.threads)];
        UpdateLoaded(reply.threads);
      } else {
        healthy := false;
        states := map t | t in states :: states[t].(ready := false);
      }
    }

    method RegisterOne(t: string, queue: Reply, resume: Reply, stopping: bool) returns (result: Result)
      requires t in states
      modifies this`states, this`log
      ensures (State(), result) == Register(old(State()), t, queue, resume, stopping)
    {
      if states[t].subscribed {
        return Fine;
      }
      log := log + [Tried(t)];
      var asked := queue;
      if queue.Granted? {
        if stopping {
          return Fine;
        }
        asked := resume;
      }
      result := Classified(asked);
      if asked.Granted? {
        states := states[t := Status(true, true, connected && healthy)];
        log := log + [Resumed(t)];
      } else if asked.Rejected? {
        states := states[t := states[t].(subscribed := false, ready := false)];
        log := if asked.lasting then log + [Barred(t)] else log;
      }
    }

    /** Book a registration's result; Down leaves the disconnecting to `run`. */
    method Reschedule(t: string, result: Result, clock: real) returns (down: bool)
      requires t in retries
      modifies this`retries
      ensures (if down then Disconnect(delays, State()) else State())
           == Rescheduled(delays, old(State()), t, result, clock)
    {
      down := false;
      var retry := retries[t];
      match result {
        case Fine => retries := retries[t := retry.(at := None)];
        case Transient => retries := retries[t := Scheduled(delays, retry, clock)];
        case Permanent => retries := retries[t := retry.(at := None, terminal := true)];
        case Down => down := true;
      }
    }

    /** One round of `_retry_targets`. */
    method RetryTarget(t: string, now: real, queue: Reply, resume: Reply, stopping: bool, clock: real)
      returns (down: bool)
      requires t in states && t in retries
      modifies this`states, this`log, this`retries
      ensures (if down then Disconnect(delays, State()) else State())
           == RetryOne(delays, old(State()), t, now, queue, resume, stopping, clock)
    {
      hide Register, Rescheduled;
      var retry := retries[t];
      if states[t].subscribed {
        retries := retries[t := retry.(at := None)];
        return false;
      }
      if retry.terminal {
        return false;
      }
      var at := if retry.at.None? then now else retry.at.value;
      retries := retries[t := retry.(at := Some(at))];
      if at > now {
        return false;
      }
      var result := RegisterOne(t, queue, resume, stopping);
      down := Reschedule(t, result, clock);
    }
  }

  function Start(d: Delays, threads: seq<string>): Keeper {
    Keeper(false, false, map t | t in threads :: DOWN, map t | t in threads :: Retry(None, d.initial, false),
           false, [], false, d.initial, [])
  }

  // ----- runs

  datatype Action =
    | Connecting(now: real)
    | AttachReply(loaded: Loaded)
    | Attach(queue: Reply, resume: Reply, stopping: bool, clock: real)
    | ProbeReply(shown: Loaded)
    | RetryThread(thread: string, now: real, queue: Reply, resume: Reply, stopping: bool, clock: real)
    | ConnectFailed         // no connection came about
    | ConnectionLost

  predicate Serving(k: Keeper) {
    k.connected && !k.opening && k.waiting == []
  }

  function Step(d: Delays, threads: seq<string>, k: Keeper, a: Action): Keeper {
    match a
    case Connecting(now) => if k.connected then k else Connect(d, k, threads, now)
    case AttachReply(loaded) => if k.connected && k.opening then AttachAnswered(d, k, loaded) else k
    case Attach(queue, resume, stopping, clock) =>
      if k.connected && !k.opening && k.waiting != [] && k.waiting[0] in k.states && k.waiting[0] in k.retries
      then AttachOne(d, k, queue, resume, stopping, clock) else k
    case ProbeReply(shown) => if Serving(k) then ProbeAnswered(d, k, shown) else k
    case RetryThread(t, now, queue, resume, stopping, clock) =>
      if Serving(k) && t in k.states && t in k.retries
      then RetryOne(d, k, t, now, queue, resume, stopping, clock) else k
    case ConnectFailed => if k.connected then k else Disconnect(d, k)
    case ConnectionLost => if k.connected then Disconnect(d, k) else k
  }

  function Run(d: Delays, threads: seq<string>, actions: seq<Action>): Keeper {
    if actions == [] then Start(d, threads) else Step(d, threads, Run(d, threads, Front(actions)), Last(actions))
  }

  // ----- readiness

  ghost predicate Exact(k: Keeper) {
    forall t | t in k.states ::
      && (k.states[t].ready <==> k.connected && k.healthy && k.states[t].loaded && k.states[t].subscribed)
      && (k.states[t].subscribed ==> k.states[t].loaded)
  }

  lemma ExactRegister(k: Keeper, t: string, queue: Reply, resume: Reply, stopping: bool)
    requires Exact(k) && t in k.states
    ensures Exact(Register(k, t, queue, resume, stopping).0)
  {
  }

  lemma ExactRescheduled(d: Delays, k: Keeper, t: string, result: Result, clock: real)
    requires Exact(k) && t in k.retries
    ensures Exact(Rescheduled(d, k, t, result, clock))
  {
  }

  lemma ExactAnswers(d: Delays, threads: seq<string>, k: Keeper, a: Action)
    requires Exact(k) && !a.Attach? && !a.RetryThread?
    ensures Exact(Step(d, threads, k, a))
  {
  }

  lemma ExactStep(d: Delays, threads: seq<string>, k: Keeper, a: Action)
    requires Exact(k)
    ensures Exact(Step(d, threads, k, a))
  {
    hide Register, Rescheduled;
    match a {
      case Attach(queue, resume, stopping, clock) =>
        if k.connected && !k.opening && k.waiting != [] && k.waiting[0] in k.states && k.waiting[0] in k.retries {
          var m := k.(waiting := k.waiting[1..]);
          var (registered, result) := Register(m, k.waiting[0], queue, resume, stopping);
          RegisterKeeps(m, k.waiting[0], queue, resume, stopping);
          ExactRegister(m, k.waiting[0], queue, resume, stopping);
          ExactRescheduled(d, registered, k.waiting[0], result, clock);
        }
      case RetryThread(t, now, queue, resume, stopping, clock) =>
        if Serving(k) && t in k.states && t in k.retries {
          var dated := Dated(k, t, now);
          var (registered, result) := Register(dated, t, queue, resume, stopping);
          RegisterKeeps(dated, t, queue, resume, stopping);
          ExactRegister(dated, t, queue, resume, stopping);
          ExactRescheduled(d, registered, t, result, clock);
        }
      case _ => ExactAnswers(d, threads, k, a);
    }
  }

  /** The main result on readiness: after every step a thread is `ready` exactly when the
      keeper is connected and healthy and the thread is loaded and subscribed. */
  lemma {:induction false} ReadyIsExact(d: Delays, threads: seq<string>, actions: seq<Action>)
    ensures Exact(Run(d, threads, actions))
  {
    if actions != [] {
      ReadyIsExact(d, threads, Front(actions));
      ExactStep(d, threads, Run(d, threads, Front(actions)), Last(actions));
    }
  }

  // ----- pace

  ghost predicate Paced(d: Delays, k: Keeper) {
    && 0.0 < k.backoff <= d.max
    && forall t | t in k.retries :: 0.0 < k.retries[t].delay <= d.max
  }

  lemma {:induction false} DelaysBounded(d: Delays, threads: seq<string>, actions: seq<Action>)
    requires 0.0 < d.initial <= d.max
    ensures Paced(d, Run(d, threads, actions))
  {
    if actions != [] {
      DelaysBounded(d, threads, Front(actions));
      PacedStep(d, threads, Run(d, threads, Front(actions)), Last(actions));
    }
  }

  lemma PacedRescheduled(d: Delays, k: Keeper, t: string, result: Result, clock: real)
    requires 0.0 < d.initial <= d.max && Paced(d, k) && t in k.retries
    ensures Paced(d, Rescheduled(d, k, t, result, clock))
  {
  }

  lemma PacedAnswers(d: Delays, threads: seq<string>, k: Keeper, a: Action)
    requires 0.0 < d.initial <= d.max && Paced(d, k) && !a.Attach? && !a.RetryThread?
    ensures Paced(d, Step(d, threads, k, a))
  {
  }

  lemma RegisterKeeps(k: Keeper, t: string, queue: Reply, resume: Reply, stopping: bool)
    requires t in k.states
    ensures var m := Register(k, t, queue, resume, stopping).0;
      && m == k.(states := m.states, log := m.log)
      && m.states.Keys == k.states.Keys
  {
  }

  lemma PacedStep(d: Delays, threads: seq<string>, k: Keeper, a: Action)
    requires 0.0 < d.initial <= d.max && Paced(d, k)
    ensures Paced(d, Step(d, threads, k, a))
  {
    hide Register, Rescheduled;
    match a {
      case Attach(queue, resume, stopping, clock) =>
        if k.connected && !k.opening && k.waiting != [] && k.waiting[0] in k.states && k.waiting[0] in k.retries {
          var m := k.(waiting := k.waiting[1..]);
          var (registered, result) := Register(m, k.waiting[0], queue, resume, stopping);
          RegisterKeeps(m, k.waiting[0], queue, resume, stopping);
          PacedRescheduled(d, registered, k.waiting[0], result, clock);
        }
      case RetryThread(t, now, queue, resume, stopping, clock) =>
        if Serving(k) && t in k.states && t in k.retries {
          var dated := Dated(k, t, now);
          var (registered, result) := Register(dated, t, queue, resume, stopping);
          RegisterKeeps(dated, t, queue, resume, stopping);
          PacedRescheduled(d, registered, t, result, clock);
        }
      case _ => PacedAnswers(d, threads, k, a);
    }
  }

  /** The main result on pace: a retry is never scheduled further ahead than the maximum, nor
      is a reconnect. */
  lemma RetriesStayClose(d: Delays, threads: seq<string>, actions: seq<Action>, t: string, clock: real)
    requires 0.0 < d.initial <= d.max
    requires t in Run(d, threads, actions).retries
    ensures var k := Run(d, threads, actions);
      && clock < Scheduled(d, k.retries[t], clock).at.value <= clock + d.max
      && 0.0 < Wait(d, k) <= d.max
  {
    DelaysBounded(d, threads, actions);
  }

  // ----- history

  /** The log says this thread is subscribed: resumed on this connection, and not shown
      unloaded since. */
  predicate Held(log: seq<Entry>, t: string) {
    if log == [] then false
    else
      match Last(log)
      case Resumed(u) => u == t || Held(Front(log), t)
      case Opened => false
      case Probed(shown) => t in shown && Held(Front(log), t)
      case _ => Held(Front(log), t)
  }

  /** The log says this thread was rejected for good on this connection. */
  predicate Excluded(log: seq<Entry>, t: string) {
    if log == [] then false
    else
      match Last(log)
      case Barred(u) => u == t || Excluded(Front(log), t)
      case Opened => false
      case _ => Excluded(Front(log), t)
  }

  /** No registration was started for a thread that was subscribed or excluded. */
  predicate Considerate(log: seq<Entry>) {
    log == [] || (
      && Considerate(Front(log))
      && (Last(log).Tried? ==> !Held(Front(log), Last(log).thread) && !Excluded(Front(log), Last(log).thread))
      && (Last(log).Resumed? ==> !Held(Front(log), Last(log).thread)))
  }

  ghost predicate Remembered(k: Keeper, t: string) {
    t in k.states && k.connected ==>
      && (Held(k.log, t) <==> k.states[t].subscribed)
      && (Excluded(k.log, t) ==> t in k.retries && k.retries[t].terminal && t !in k.waiting && !k.states[t].subscribed)
  }

  ghost predicate Faithful(k: Keeper) {
    && Considerate(k.log)
    && (forall t | t in k.states :: Remembered(k, t))
    && (forall i, j | 0 <= i < j < |k.waiting| :: k.waiting[i] != k.waiting[j])
    && (k.opening ==> forall t | t in k.states :: !k.states[t].subscribed)
  }

  /** What one more entry means. */
  lemma Entered(log: seq<Entry>, e: Entry)
    ensures Front(log + [e]) == log && Last(log + [e]) == e
  {
  }

  /** What a registration that was due adds to the log, and whom it touches. */
  lemma RegisterEffect(k: Keeper, t: string, queue: Reply, resume: Reply, stopping: bool)
    requires t in k.states && !k.states[t].subscribed
    ensures var (m, result) := Register(k, t, queue, resume, stopping);
      var tried := k.log + [Tried(t)];
      && (m.log == tried || m.log == tried + [Resumed(t)] || (m.log == tried + [Barred(t)] && result.Permanent?))
      && (m.states[t].subscribed <==> m.log == tried + [Resumed(t)])
      && m.states == k.states[t := m.states[t]]
  {
    var m, tried := Register(k, t, queue, resume, stopping).0, k.log + [Tried(t)];
    assert m.states == k.states[t := m.states[t]];
    assert (tried + [Resumed(t)])[|tried|] != (tried + [Barred(t)])[|tried|];
    assert |tried + [Resumed(t)]| != |tried|;
  }

  /** What the entries of a registration of `t` say of a thread `u`. */
  lemma RegisterEntries(log: seq<Entry>, t: string, u: string)
    requires Considerate(log) && !Held(log, t) && !Excluded(log, t)
    ensures var tried := log + [Tried(t)];
      && Considerate(tried) && Considerate(tried + [Resumed(t)]) && Considerate(tried + [Barred(t)])
      && Held(tried, u) == Held(log, u) && Held(tried + [Barred(t)], u) == Held(log, u)
      && Held(tried + [Resumed(t)], u) == (u == t || Held(log, u))
      && Excluded(tried, u) == Excluded(log, u) && Excluded(tried + [Resumed(t)], u) == Excluded(log, u)
      && Excluded(tried + [Barred(t)], u) == (u == t || Excluded(log, u))
  {
    var tried := log + [Tried(t)];
    Entered(log, Tried(t));
    Entered(tried, Resumed(t));
    Entered(tried, Barred(t));
    assert !Held(tried, t);
  }

  /** A registration that was due, with its result booked. */
  lemma RegisteredFaithful(k: Keeper, t: string, queue: Reply, resume: Reply, stopping: bool, u: string)
    requires Faithful(k) && k.connected && t in k.states && t in k.retries && t !in k.waiting
    requires !Excluded(k.log, t)
    ensures var (m, result) := Register(k, t, queue, resume, stopping);
      && Considerate(m.log)
      && (u in k.states ==> (Held(m.log, u) <==> m.states[u].subscribed))
      && (u in k.states && u != t ==> (Excluded(m.log, u) <==> Excluded(k.log, u)) && m.states[u] == k.states[u])
      && (Excluded(m.log, t) ==> result.Permanent? && !m.states[t].subscribed)
  {
    assert Remembered(k, t);
    assert u in k.states ==> Remembered(k, u);
    if !k.states[t].subscribed {
      RegisterEffect(k, t, queue, resume, stopping);
      RegisterEntries(k.log, t, u);
      RegisterEntries(k.log, t, t);
    }
  }

  lemma BookedFaithful(d: Delays, k: Keeper, t: string, queue: Reply, resume: Reply, stopping: bool, clock: real)
    requires Faithful(k) && k.connected && !k.opening && t in k.states && t in k.retries && t !in k.waiting
    requires !Excluded(k.log, t)
    ensures var (m, result) := Register(k, t, queue, resume, stopping);
      t in m.retries && Faithful(Rescheduled(d, m, t, result, clock))
  {
    hide Register;
    var (m, result) := Register(k, t, queue, resume, stopping);
    RegisterKeeps(k, t, queue, resume, stopping);
    RegisteredFaithful(k, t, queue, resume, stopping, t);
    var v := Rescheduled(d, m, t, result, clock);
    if !result.Down? {
      forall u | u in v.states ensures Remembered(v, u) {
        RegisteredFaithful(k, t, queue, resume, stopping, u);
        assert Remembered(k, u);
      }
    }
  }

  lemma DisconnectFaithful(d: Delays, k: Keeper)
    requires Faithful(k)
    ensures Faithful(Disconnect(d, k))
  {
  }

  lemma ConnectFaithful(d: Delays, k: Keeper, threads: seq<string>, now: real)
    requires Faithful(k) && !k.connected
    requires forall i, j | 0 <= i < j < |threads| :: threads[i] != threads[j]
    ensures Faithful(Connect(d, k, threads, now))
  {
    Entered(k.log, Opened);
  }

  lemma ShownFaithful(k: Keeper, loaded: set<string>)
    requires Faithful(k)
    ensures Faithful(LoadedKnown(k.(healthy := true, opening := false, log := k.log + [Probed(loaded)]), loaded))
    ensures Faithful(LoadedKnown(k.(healthy := true, probed := true, log := k.log + [Probed(loaded)]), loaded))
  {
    Entered(k.log, Probed(loaded));
    forall t | t in k.states
      ensures Remembered(LoadedKnown(k.(healthy := true, opening := false, log := k.log + [Probed(loaded)]), loaded), t)
      ensures Remembered(LoadedKnown(k.(healthy := true, probed := true, log := k.log + [Probed(loaded)]), loaded), t)
    {
      assert Remembered(k, t);
    }
  }

  lemma AnswersFaithful(d: Delays, threads: seq<string>, k: Keeper, a: Action)
    requires Faithful(k) && (a.AttachReply? || a.ProbeReply?)
    ensures Faithful(Step(d, threads, k, a))
  {
    var reply := if a.AttachReply? then a.loaded else a.shown;
    match reply {
      case Shown(loaded) => ShownFaithful(k, loaded);
      case Lost => DisconnectFaithful(d, k);
      case Refused =>
        var t := Step(d, threads, k, a);
        forall u | u in t.states ensures Remembered(t, u) {
          assert Remembered(k, u);
        }
    }
  }

  lemma FaithfulStep(d: Delays, threads: seq<string>, k: Keeper, a: Action)
    requires Faithful(k)
    requires forall i, j | 0 <= i < j < |threads| :: threads[i] != threads[j]
    ensures Faithful(Step(d, threads, k, a))
  {
    match a {
      case Connecting(now) =>
        if !k.connected {
          ConnectFaithful(d, k, threads, now);
        }
      case Attach(queue, resume, stopping, clock) =>
        if k.connected && !k.opening && k.waiting != [] && k.waiting[0] in k.states && k.waiting[0] in k.retries {
          var t, m := k.waiting[0], k.(waiting := k.waiting[1..]);
          assert Remembered(k, t);
          forall u | u in m.states ensures Remembered(m, u) {
            assert Remembered(k, u);
          }
          BookedFaithful(d, m, t, queue, resume, stopping, clock);
        }
      case RetryThread(t, now, queue, resume, stopping, clock) =>
        if Serving(k) && t in k.states && t in k.retries {
          RetryFaithful(d, k, t, now, queue, resume, stopping, clock);
        }
      case ConnectFailed => DisconnectFaithful(d, k);
      case ConnectionLost => DisconnectFaithful(d, k);
      case _ => AnswersFaithful(d, threads, k, a);
    }
  }

  lemma RetryFaithful(d: Delays, k: Keeper, t: string, now: real, queue: Reply, resume: Reply, stopping: bool,
                      clock: real)
    requires Faithful(k) && Serving(k) && t in k.states && t in k.retries
    ensures Faithful(RetryOne(d, k, t, now, queue, resume, stopping, clock))
  {
    assert Remembered(k, t);
    if k.states[t].subscribed {
      var v := k.(retries := k.retries[t := k.retries[t].(at := None)]);
      forall u | u in v.states ensures Remembered(v, u) {
        assert Remembered(k, u);
      }
    } else if !k.retries[t].terminal {
      var dated := Dated(k, t, now);
      forall u | u in dated.states ensures Remembered(dated, u) {
        assert Remembered(k, u);
      }
      BookedFaithful(d, dated, t, queue, resume, stopping, clock);
    }
  }

  lemma {:induction false} FaithfulRun(d: Delays, threads: seq<string>, actions: seq<Action>)
    requires forall i, j | 0 <= i < j < |threads| :: threads[i] != threads[j]
    ensures Faithful(Run(d, threads, actions))
  {
    if actions != [] {
      FaithfulRun(d, threads, Front(actions));
      FaithfulStep(d, threads, Run(d, threads, Front(actions)), Last(actions));
    }
  }

  // ----- the history read off

  /** Between two positions the connection was renewed, or a probe showed the thread gone. */
  ghost predicate LetGo(log: seq<Entry>, i: nat, j: nat, t: string) {
    exists k :: i < k < j && k < |log| && (log[k].Opened? || (log[k].Probed? && t !in log[k].threads))
  }

  ghost predicate Renewed(log: seq<Entry>, i: nat, j: nat) {
    exists k :: i < k < j && k < |log| && log[k].Opened?
  }

  lemma {:induction false} HeldSince(log: seq<Entry>, i: nat, t: string)
    requires i < |log| && log[i] == Resumed(t) && !Held(log, t)
    ensures LetGo(log, i, |log|, t)
  {
    if i < |log| - 1 {
      var front, last := Front(log), Last(log);
      if last.Opened? || (last.Probed? && t !in last.threads) {
        assert log[|log| - 1] == last;
      } else {
        HeldSince(front, i, t);
        var k :| i < k < |front| && (front[k].Opened? || (front[k].Probed? && t !in front[k].threads));
        assert log[k] == front[k];
      }
    }
  }

  lemma {:induction false} ExcludedSince(log: seq<Entry>, i: nat, t: string)
    requires i < |log| && log[i] == Barred(t) && !Excluded(log, t)
    ensures Renewed(log, i, |log|)
  {
    if i < |log| - 1 {
      var front, last := Front(log), Last(log);
      if last.Opened? {
        assert log[|log| - 1] == last;
      } else {
        ExcludedSince(front, i, t);
        var k :| i < k < |front| && front[k].Opened?;
        assert log[k] == front[k];
      }
    }
  }

  lemma {:induction false} ConsideratePrefix(log: seq<Entry>, n: nat)
    requires Considerate(log) && n <= |log|
    ensures Considerate(log[..n])
  {
    if n == |log| {
      assert log[..n] == log;
    } else {
      assert Front(log)[..n] == log[..n];
      ConsideratePrefix(Front(log), n);
    }
  }

  /** The main result on history: on one connection a successful resume is not repeated until
      a probe showed the thread unloaded, and after a lasting rejection no registration of the
      thread is even started. */
  lemma RegistersConsiderately(d: Delays, threads: seq<string>, actions: seq<Action>, i: nat, j: nat, t: string)
    requires forall a, b | 0 <= a < b < |threads| :: threads[a] != threads[b]
    requires i < j < |Run(d, threads, actions).log|
    ensures var log := Run(d, threads, actions).log;
      && (log[i] == Resumed(t) && log[j] in {Tried(t), Resumed(t)} ==> LetGo(log, i, j, t))
      && (log[i] == Barred(t) && log[j] == Tried(t) ==> Renewed(log, i, j))
  {
    FaithfulRun(d, threads, actions);
    var log := Run(d, threads, actions).log;
    ConsideratePrefix(log, j + 1);
    var before := log[..j];
    assert Front(log[..j + 1]) == before && before[i] == log[i];
    if log[i] == Resumed(t) && log[j] in {Tried(t), Resumed(t)} {
      HeldSince(before, i, t);
      var k :| i < k < j && (before[k].Opened? || (before[k].Probed? && t !in before[k].threads));
      assert log[k] == before[k];
    }
    if log[i] == Barred(t) && log[j] == Tried(t) {
      ExcludedSince(before, i, t);
      var k :| i < k < j && before[k].Opened?;
      assert log[k] == before[k];
    }
  }
}
