/** The supervisor at work on one watch, over the registry and the inbox: launches, pauses and
    removals, the two reads of the row, the replay between them and the observation after them,
    step by step, with the whole delivery engine interleaved. */
module Sampling {
  import opened Sequences
  import opened Envelopes
  import opened Inbox
  import opened Watch
  import opened Conditions
  import opened Chain
  import Delivery
  import S = Supervisor

  /** What stays the same: the watch, its mode, and the limits. */
  datatype Setting = Setting(b: string, mode: Mode, interval: real, limits: Limits, capacity: S.Capacity)

  /** A worker's report after the checks on its shape: a sample, or one of the errors that drop
      the policy object. */
  datatype Report = Usable(sample: Sample) | Faulty

  /** The result being applied, and the epoch its worker was started under. */
  datatype Job = Job(epoch: nat, report: Report)

  /** What a step of the watch's machine wrote or asked. */
  datatype Deed =
    | EmitDeed(env: Envelope)
    | ClearDeed
    | CommitDeed
    | SelectDeed
    | CheckDeed

  /** `epoch` is None for what the scheduler does on its own. */
  datatype Entry = Entry(epoch: Option<nat>, deed: Deed)

  /** The life of one policy object: every observation it was shown, and how that ended. */
  datatype Shown = Shown(seen: seq<Observation>, endings: seq<Ending>)

  const NOTHING := Shown([], [])

  datatype System = System(
    engine: Delivery.Sys,
    sup: S.Sup,
    checkpoint: Option<Checkpoint>,
    policy: Policy,
    baseline: Option<Sample>,
    fault: bool,
    at: Point,             // where the supervisor thread stands
    job: Option<Job>,      // on whose behalf
    row: Option<S.Row>,    // the row the scheduler read last
    shown: Shown,          // what the present policy object was shown
    log: seq<Entry>)       // every step that changed one of the watch's stores

  datatype Action =
    | Engine(a: Delivery.Action)
    | ReadRow(id: string)
    | ReplayFirst                                                // the scheduler's replay
    | Consider(listed: S.Row, now: real, replayed: bool, launches: bool)
    | Reap(id: string, at: real, sane: bool, dies: bool, report: Report)
    | Go(now: real, uuid: nat, clock: real, trouble: Trouble)    // the next step of a replay or observation
    | Die(process: nat)
    | Break(restart: bool)                                       // an error; or the policy object is dropped
    | Crash                                                      // and the sampler processes end with their parent

  const INIT := System(
    Delivery.INIT, S.EMPTY, START.store.checkpoint, START.policy, None, false, Rest, None, None, NOTHING, [])

  function MachineOf(s: System): Machine {
    Machine(World(Store(s.checkpoint, s.engine.db), s.policy, s.baseline, s.fault), s.at)
  }

  /** `managed_runtime_row` */
  function RowOf(c: Setting, db: Db, id: string): Option<S.Row> {
    if id !in db.watches || id !in db.bindings then None
    else Some(S.Row(id, db.bindings[id].thread, c.interval, db.watches[id].enabled, db.watches[id].removed,
                    db.watches[id].epoch))
  }

  /** The scheduler goes by the row it read before the replay. */
  function AnswersOf(s: System, replayed: bool, launches: bool): S.Answers {
    S.Answers(id => if s.row.Some? && s.row.value.id == id then s.row else None, _ => replayed, _ => launches)
  }

  predicate Idle(s: System) {
    s.job.None? && (s.at.Rest? || s.at.Replayed?)
  }

  /** The worker's result is to be applied: the row is current, and the process has ended or is
      out of time. */
  predicate Reports(c: Setting, s: System, id: string, at: real) {
    && id in s.sup.workers
    && var w := s.sup.workers[id];
       && !w.cancelled && !w.reported
       && S.Current(w.epoch, id, RowOf(c, s.engine.db, id))
       && (w.process !in s.sup.live || at >= w.deadline)
  }

  /** `_reap_workers` for one worker, up to the first statement of `_apply_result`. */
  function Reaped(c: Setting, s: System, id: string, at: real, sane: bool, dies: bool, report: Report): System {
    var current := id in s.sup.workers && S.Current(s.sup.workers[id].epoch, id, RowOf(c, s.engine.db, id));
    var reaped := s.(sup := S.Reap(s.sup, id, at, S.Sighting(current, sane, dies)));
    if id == c.b && Reports(c, s, id, at) then
      var w := s.sup.workers[id];
      var told := if w.process in s.sup.live then Faulty else report;
      reaped.(job := Some(Job.Job(w.epoch, told)),
              at := if HasPending(MachineOf(s).world) then Emitting(Errand.Replay) else Replayed)
    else reaped
  }

  /** After the replay: the second read of the row, and what becomes of the report. */
  function Reread(c: Setting, s: System): System
    requires s.job.Some?
  {
    var stopped := s.(at := Rest, job := None);
    match s.job.value.report
    case Faulty => stopped.(policy := s.policy.(observing := false), shown := NOTHING)
    case Usable(sample) =>
      if S.Current(s.job.value.epoch, c.b, RowOf(c, s.engine.db, c.b)) && sample.Condition? == c.mode.verdicts
      then s.(at := Selecting(sample, s.job.value.epoch))
      else stopped
  }

  function DeedOf(m: Machine): Deed {
    match m.at
    case Emitting(_) =>
      if HasPending(m.world) then EmitDeed(ChangeEvent(m.world.store.checkpoint.value.pending.value)) else ClearDeed
    case Clearing(_) => ClearDeed
    case Committing(_, _) => CommitDeed
    case Selecting(_, _) => SelectDeed
    case _ => CheckDeed
  }

  /** The baseline the policy is asked with. */
  function BaselineOf(s: System): Option<Sample> {
    if s.checkpoint.Some? then Some(s.checkpoint.value.last) else None
  }

  /** What the policy object is shown at this point. */
  function ShownNext(c: Setting, s: System, clock: real, trouble: Trouble): Shown {
    if !s.at.Selecting? || !c.mode.Policed() then s.shown
    else
      var o := Observation(s.at.sample, BaselineOf(s), s.at.epoch, clock, trouble);
      var answer := s.policy.Select(c.mode.seconds, o.sample, o.baseline, o.epoch, o.now, o.trouble).1;
      Shown(s.shown.seen + [o], s.shown.endings + [EndingOf(answer)])
  }

  /** The machine's own step; an emit goes through the engine's intake. */
  function Stepped(c: Setting, s: System, now: real, uuid: nat, clock: real, trouble: Trouble): System {
    var m := MachineOf(s);
    var t := Moved(c.mode, c.limits, c.b, m, now, uuid, clock, trouble);
    var engine :=
      if s.at.Emitting? && HasPending(m.world)
      then Delivery.DoIngest(c.limits, s.engine, c.b, ChangeEvent(m.world.store.checkpoint.value.pending.value), now)
      else s.engine;
    var epoch := if s.job.Some? then Some(s.job.value.epoch) else None;
    s.(engine := engine, checkpoint := t.world.store.checkpoint, policy := t.world.policy, baseline := t.world.baseline,
       fault := t.world.fault, at := t.at, shown := ShownNext(c, s, clock, trouble),
       job := if t.at.Rest? then None else s.job,
       log := if t.world == m.world then s.log else s.log + [Entry(epoch, DeedOf(m))])
  }

  function Step(c: Setting, s: System, a: Action): System {
    match a
    case Engine(e) =>
      if e.Ingest? && e.b == c.b then s else s.(engine := Delivery.Step(c.limits, s.engine, e))
    case ReadRow(id) => if Idle(s) then s.(row := RowOf(c, s.engine.db, id), at := Rest) else s
    case ReplayFirst =>
      if s.job.None? && s.at.Rest? && s.row.Some?
         && s.row.value.id == c.b && s.row.value.enabled && !s.row.value.removed
      then s.(at := if HasPending(MachineOf(s).world) then Emitting(Errand.Replay) else Replayed)
      else s
    case Consider(listed, now, replayed, launches) =>
      if !Idle(s) then s
      else
        s.(sup := S.Consider(c.capacity, s.sup, listed, now, AnswersOf(s, replayed, launches)), at := Rest)
    case Reap(id, at, sane, dies, report) => if Idle(s) then Reaped(c, s, id, at, sane, dies, report) else s
    case Go(now, uuid, clock, trouble) =>
      if s.at.Replayed? && s.job.Some? then Reread(c, s)
      else Stepped(c, s, now, uuid, clock, trouble)
    case Die(p) => s.(sup := s.sup.(live := s.sup.live - {p}))
    case Break(restart) =>
      s.(at := Rest, job := None, policy := if restart then s.policy.(observing := false) else s.policy,
         shown := if restart then NOTHING else s.shown)
    case Crash =>
      s.(engine := Delivery.Step(c.limits, s.engine, Delivery.Crash), sup := S.EMPTY, at := Rest, job := None,
         row := None,
         policy := s.policy.(observing := false), shown := NOTHING)
  }

  function RunFrom(c: Setting, s: System, actions: seq<Action>): System {
    if actions == [] then s else Step(c, RunFrom(c, s, Front(actions)), Last(actions))
  }

  function Run(c: Setting, actions: seq<Action>): System {
    RunFrom(c, INIT, actions)
  }

  // ----- the invariants of the parts hold of the whole

  ghost predicate Sane(c: Setting, s: System) {
    && Delivery.Consistent(s.engine)
    && Chain.Invariant(c.mode, c.b, MachineOf(s))
    && S.Bounded(c.capacity, s.sup)
  }

  lemma EngineSane(c: Setting, s: System, a: Delivery.Action)
    requires Sane(c, s) && (a.Ingest? ==> a.b != c.b)
    ensures Sane(c, s.(engine := Delivery.Step(c.limits, s.engine, a)))
  {
    Delivery.ConsistentStep(c.limits, s.engine, a);
    EngineIsHarmless(c.limits, s.engine, a, c.b);
    InvariantStep(c.mode, c.limits, c.b, MachineOf(s), Others(Delivery.Step(c.limits, s.engine, a).db));
  }

  lemma SteppedMachine(c: Setting, s: System, now: real, uuid: nat, clock: real, trouble: Trouble)
    ensures MachineOf(Stepped(c, s, now, uuid, clock, trouble))
         == Moved(c.mode, c.limits, c.b, MachineOf(s), now, uuid, clock, trouble)
    ensures var t := Stepped(c, s, now, uuid, clock, trouble);
      t.engine == s.engine
      || exists env :: t.engine == Delivery.Step(c.limits, s.engine, Delivery.Ingest(c.b, env, now))
  {
    var m := MachineOf(s);
    if s.at.Emitting? && HasPending(m.world) {
      var env := ChangeEvent(m.world.store.checkpoint.value.pending.value);
      IngestEffect(s.engine.db, c.limits, c.b, env, now);
      assert Stepped(c, s, now, uuid, clock, trouble).engine
          == Delivery.Step(c.limits, s.engine, Delivery.Ingest(c.b, env, now));
    }
  }

  lemma SteppedSane(c: Setting, s: System, now: real, uuid: nat, clock: real, trouble: Trouble)
    requires Sane(c, s)
    ensures Sane(c, Stepped(c, s, now, uuid, clock, trouble))
  {
    SteppedMachine(c, s, now, uuid, clock, trouble);
    MoveKeeps(c.mode, c.limits, c.b, MachineOf(s), now, uuid, clock, trouble);
    var t := Stepped(c, s, now, uuid, clock, trouble);
    if t.engine != s.engine {
      var env :| t.engine == Delivery.Step(c.limits, s.engine, Delivery.Ingest(c.b, env, now));
      Delivery.ConsistentStep(c.limits, s.engine, Delivery.Ingest(c.b, env, now));
    }
  }

  lemma ConsiderSane(c: Setting, s: System, listed: S.Row, now: real, replayed: bool, launches: bool)
    requires Sane(c, s)
    ensures Sane(c, Step(c, s, Consider(listed, now, replayed, launches)))
  {
    hide Chain.Invariant, Delivery.Consistent, S.Consider, S.Bounded, AnswersOf;
    S.ConsiderBounded(c.capacity, s.sup, listed, now, AnswersOf(s, replayed, launches));
    TablesSane(c, s, S.Consider(c.capacity, s.sup, listed, now, AnswersOf(s, replayed, launches)));
  }

  lemma ReapSane(c: Setting, s: System, id: string, at: real, sane: bool, dies: bool, report: Report)
    requires Sane(c, s) && Idle(s)
    ensures Sane(c, Reaped(c, s, id, at, sane, dies, report))
  {
    hide Chain.Invariant, Delivery.Consistent, S.Bounded, S.Reap;
    var current := id in s.sup.workers && S.Current(s.sup.workers[id].epoch, id, RowOf(c, s.engine.db, id));
    S.ReapBounded(c.capacity, s.sup, id, at, S.Sighting(current, sane, dies));
    var t := Reaped(c, s, id, at, sane, dies, report);
    TablesSane(c, s, t.sup);
    if t.job.Some? {
      MachineSane(c, s.(sup := t.sup, at := Rest), t, BeginReplay);
    }
  }

  lemma RereadSane(c: Setting, s: System)
    requires Sane(c, s) && s.at.Replayed? && s.job.Some?
    ensures Sane(c, Reread(c, s))
  {
    var t := Reread(c, s);
    if t.at.Selecting? {
      MachineSane(c, s, t, Chain.Observe(t.at.sample, t.at.epoch));
    } else {
      MachineSane(c, s, t, Halt(s.job.value.report.Faulty?));
    }
  }

  /** A step of the machine, nothing else touched. */
  lemma MachineSane(c: Setting, s: System, t: System, a: Chain.Action)
    requires Sane(c, s) && t.engine == s.engine && t.sup == s.sup
    requires MachineOf(t) == Chain.Step(c.mode, c.limits, c.b, MachineOf(s), a)
    ensures Sane(c, t)
  {
    InvariantStep(c.mode, c.limits, c.b, MachineOf(s), a);
  }

  /** The supervisor's tables change and its thread rests. */
  lemma TablesSane(c: Setting, s: System, sup: S.Sup)
    requires Sane(c, s) && S.Bounded(c.capacity, sup)
    ensures Sane(c, s.(sup := sup))
    ensures Sane(c, s.(sup := sup, at := Rest))
  {
    InvariantStep(c.mode, c.limits, c.b, MachineOf(s), Halt(false));
  }

  lemma CrashSane(c: Setting, s: System)
    requires Sane(c, s)
    ensures Sane(c, Step(c, s, Crash))
  {
    hide Chain.Invariant, Delivery.Consistent, Delivery.Step;
    var t := Step(c, s, Crash);
    var m := s.(engine := t.engine);
    S.SamplersBounded(c.capacity, []);
    EngineSane(c, s, Delivery.Crash);
    InvariantStep(c.mode, c.limits, c.b, MachineOf(m), Halt(true));
  }

  lemma DieBounded(c: Setting, s: System, p: nat)
    requires Sane(c, s)
    ensures S.Bounded(c.capacity, s.sup.(live := s.sup.live - {p}))
  {
    S.BoundedStep(c.capacity, s.sup, S.Die(p));
  }

  lemma MemorySane(c: Setting, s: System, a: Action)
    requires Sane(c, s) && (a.ReadRow? || a.ReplayFirst? || a.Die? || a.Break?)
    ensures Sane(c, Step(c, s, a))
  {
    hide Sane, S.Bounded, HasPending, RowOf;
    var t := Step(c, s, a);
    match a {
      case ReadRow(_) => MachineSane(c, s, t, if t.at == s.at then Others(s.engine.db) else Halt(false));
      case ReplayFirst => MachineSane(c, s, t, if t == s then Others(s.engine.db) else BeginReplay);
      case Break(restart) => MachineSane(c, s, t, Halt(restart));
      case Die(p) =>
        DieBounded(c, s, p);
        TablesSane(c, s, t.sup);
    }
  }

  lemma SaneStep(c: Setting, s: System, a: Action)
    requires Sane(c, s)
    ensures Sane(c, Step(c, s, a))
  {
    hide Sane, Idle, Stepped, Reread, Reaped, Delivery.Step, S.Consider;
    match a {
      case Engine(e) =>
        if !(e.Ingest? && e.b == c.b) {
          EngineSane(c, s, e);
        }
      case Consider(listed, now, replayed, launches) => ConsiderSane(c, s, listed, now, replayed, launches);
      case Reap(id, at, sane, dies, report) =>
        if Idle(s) {
          ReapSane(c, s, id, at, sane, dies, report);
        }
      case Go(now, uuid, clock, trouble) =>
        if s.at.Replayed? && s.job.Some? {
          RereadSane(c, s);
        } else {
          SteppedSane(c, s, now, uuid, clock, trouble);
        }
      case Crash => CrashSane(c, s);
      case _ => MemorySane(c, s, a);
    }
  }

  lemma {:induction false} SaneRun(c: Setting, actions: seq<Action>)
    ensures Sane(c, Run(c, actions))
  {
    if actions == [] {
      assert Run(c, actions) == INIT;
      S.SamplersBounded(c.capacity, []);
      assert Chain.Run(c.mode, c.limits, c.b, []) == MachineOf(INIT);
      InvariantRun(c.mode, c.limits, c.b, []);
    } else {
      SaneRun(c, Front(actions));
      SaneStep(c, Run(c, Front(actions)), Last(actions));
    }
  }

  /** The main result on the whole: with engine, registry, supervisor and watch interleaved step
      by step, the watch's events form an unbroken chain, its stores never contradict each
      other, and the samplers keep their limits. */
  lemma WholeIsSound(c: Setting, actions: seq<Action>)
    ensures var s := Run(c, actions);
      && Unbroken(MachineOf(s).world, c.b) && !s.fault
      && |s.sup.live| <= c.capacity.workers && S.Bounded(c.capacity, s.sup)
  {
    SaneRun(c, actions);
    var s := Run(c, actions);
    SoundIsUnbroken(MachineOf(s).world, c.b);
    S.BoundedIsFew(c.capacity, s.sup);
  }

  // ----- what old results may do

  /** The watch's stores: what a result may change. */
  ghost predicate SameStores(c: Setting, s: System, t: System) {
    && t.checkpoint == s.checkpoint && t.policy.candidate == s.policy.candidate
    && Trail(t.engine.db.events, c.b) == Trail(s.engine.db.events, c.b)
  }

  lemma SteppedLogs(c: Setting, s: System, now: real, uuid: nat, clock: real, trouble: Trouble)
    ensures var t := Stepped(c, s, now, uuid, clock, trouble);
      || t.log != s.log
      || Moved(c.mode, c.limits, c.b, MachineOf(s), now, uuid, clock, trouble).world == MachineOf(s).world
  {
    var t := Stepped(c, s, now, uuid, clock, trouble);
    assert t.log == s.log || |t.log| == |s.log| + 1;
  }

  lemma EngineQuiet(c: Setting, s: System, e: Delivery.Action)
    requires !(e.Ingest? && e.b == c.b)
    ensures SameStores(c, s, s.(engine := Delivery.Step(c.limits, s.engine, e)))
  {
    EngineIsHarmless(c.limits, s.engine, e, c.b);
    TrailHarmless(s.engine.db.events, Delivery.Step(c.limits, s.engine, e).db.events, c.b);
  }

  lemma GoQuiet(c: Setting, s: System, now: real, uuid: nat, clock: real, trouble: Trouble)
    requires Stepped(c, s, now, uuid, clock, trouble).log == s.log
    ensures SameStores(c, s, Stepped(c, s, now, uuid, clock, trouble))
  {
    SteppedMachine(c, s, now, uuid, clock, trouble);
    SteppedLogs(c, s, now, uuid, clock, trouble);
    assert MachineOf(Stepped(c, s, now, uuid, clock, trouble)).world == MachineOf(s).world;
  }

  lemma SupQuiet(c: Setting, s: System, a: Action)
    requires !a.Engine? && !a.Go? && !a.Crash?
    ensures SameStores(c, s, Step(c, s, a))
  {
  }

  /** The log tells all: a step that leaves no entry leaves checkpoint, candidate and the
      watch's inbox events as they are. */
  lemma LogTellsAll(c: Setting, s: System, a: Action)
    requires Step(c, s, a).log == s.log
    ensures SameStores(c, s, Step(c, s, a))
  {
    match a {
      case Engine(e) =>
        if !(e.Ingest? && e.b == c.b) {
          EngineQuiet(c, s, e);
        }
      case Go(now, uuid, clock, trouble) =>
        if !(s.at.Replayed? && s.job.Some?) {
          GoQuiet(c, s, now, uuid, clock, trouble);
        }
      case Crash => EngineQuiet(c, s, Delivery.Crash);
      case _ => SupQuiet(c, s, a);
    }
  }

  /** No entry after the first n is on behalf of a worker started before epoch e. */
  predicate NothingOld(log: seq<Entry>, n: nat, e: nat) {
    forall i | n <= i < |log| && log[i].epoch.Some? :: log[i].epoch.value >= e
  }

  predicate NotOld(s: System, e: nat) {
    s.job.Some? ==> s.job.value.epoch >= e
  }

  ghost predicate Past(c: Setting, s: System, e: nat) {
    c.b in s.engine.db.watches && s.engine.db.watches[c.b].epoch >= e
  }

  /** Epochs never fall, whatever happens in the system. */
  lemma PastThroughEngine(c: Setting, s: System, t: System, a: Delivery.Action, e: nat)
    requires Sane(c, s) && Past(c, s, e) && t.engine == Delivery.Step(c.limits, s.engine, a)
    ensures Past(c, t, e)
  {
    S.EpochsOnlyRise(c.limits, s.engine, a, c.b);
  }

  lemma PastGo(c: Setting, s: System, now: real, uuid: nat, clock: real, trouble: Trouble, e: nat)
    requires Sane(c, s) && Past(c, s, e)
    ensures Past(c, Stepped(c, s, now, uuid, clock, trouble), e)
  {
    SteppedMachine(c, s, now, uuid, clock, trouble);
    var t := Stepped(c, s, now, uuid, clock, trouble);
    if t.engine != s.engine {
      var env :| t.engine == Delivery.Step(c.limits, s.engine, Delivery.Ingest(c.b, env, now));
      PastThroughEngine(c, s, t, Delivery.Ingest(c.b, env, now), e);
    }
  }

  lemma PastKept(c: Setting, s: System, t: System, e: nat)
    requires Past(c, s, e) && t.engine == s.engine
    ensures Past(c, t, e)
  {
  }

  lemma PastStays(c: Setting, s: System, a: Action, e: nat)
    requires Sane(c, s) && Past(c, s, e)
    ensures Past(c, Step(c, s, a), e)
  {
    hide Sane, Past, Stepped, Delivery.Step, S.Consider, S.Reap;
    match a {
      case Engine(x) =>
        if !(x.Ingest? && x.b == c.b) {
          PastThroughEngine(c, s, Step(c, s, a), x, e);
        }
      case Crash => PastThroughEngine(c, s, Step(c, s, a), Delivery.Crash, e);
      case Go(now, uuid, clock, trouble) =>
        if !(s.at.Replayed? && s.job.Some?) {
          PastGo(c, s, now, uuid, clock, trouble, e);
        } else {
          PastKept(c, s, Step(c, s, a), e);
        }
      case _ => PastKept(c, s, Step(c, s, a), e);
    }
  }

  /** Besides the machine's own steps, all that touches the work in progress ends it, or begins
      it for a worker that is current. */
  lemma BesidesGo(c: Setting, s: System, a: Action)
    requires !a.Go?
    ensures var t := Step(c, s, a);
      && t.log == s.log && t.checkpoint == s.checkpoint
      && (|| t.job.None?
          || (t.job == s.job && t.at == s.at)
          || (c.b in s.engine.db.watches && t.job.value.epoch == s.engine.db.watches[c.b].epoch))
  {
  }

  lemma OldStep(c: Setting, s: System, a: Action, e: nat, n: nat)
    requires Past(c, s, e) && NotOld(s, e) && n <= |s.log| && NothingOld(s.log, n, e)
    ensures var t := Step(c, s, a); NotOld(t, e) && n <= |t.log| && NothingOld(t.log, n, e)
  {
    if !a.Go? {
      BesidesGo(c, s, a);
    }
  }

  /** The main result on epochs: once the watch has been switched -- paused, resumed or removed
      -- no result of a worker started before is ever applied again: over every continuation,
      no entry is made on its behalf, so neither checkpoint nor candidate nor inbox is changed
      by it. The one result that may be in the middle of being applied is the subject of
      BetweenReadsOnlyReplay. */
  lemma {:induction false} OldResultsChangeNothing(c: Setting, before: seq<Action>, after: seq<Action>, e: nat)
    requires var s := Run(c, before); Past(c, s, e) && NotOld(s, e)
    ensures var s, t := Run(c, before), RunFrom(c, Run(c, before), after);
      Sane(c, t) && Past(c, t, e) && NotOld(t, e) && |s.log| <= |t.log| && NothingOld(t.log, |s.log|, e)
  {
    if after == [] {
      SaneRun(c, before);
    } else {
      OldResultsChangeNothing(c, before, Front(after), e);
      var m := RunFrom(c, Run(c, before), Front(after));
      SaneStep(c, m, Last(after));
      PastStays(c, m, Last(after), e);
      OldStep(c, m, Last(after), e, |Run(c, before).log|);
    }
  }

  /** Rows and workers are never ahead of the registry. */
  ghost predicate Dated(c: Setting, s: System) {
    && (s.row.Some? && s.row.value.id == c.b ==> Past(c, s, s.row.value.epoch))
    && (c.b in s.sup.workers ==> Past(c, s, s.sup.workers[c.b].epoch))
    && (s.job.Some? ==> Past(c, s, s.job.value.epoch))
  }

  lemma LaunchedEpoch(c: Setting, s: System, listed: S.Row, now: real, replayed: bool, launches: bool, id: string)
    ensures var workers := S.Consider(c.capacity, s.sup, listed, now, AnswersOf(s, replayed, launches)).workers;
      id in workers ==>
        || (id in s.sup.workers && workers[id] == s.sup.workers[id])
        || (s.row.Some? && s.row.value.id == id && workers[id].epoch == s.row.value.epoch)
  {
    S.ConsiderEffect(c.capacity, s.sup, listed, now, AnswersOf(s, replayed, launches));
  }

  lemma DatedConsider(c: Setting, s: System, listed: S.Row, now: real, replayed: bool, launches: bool)
    requires Dated(c, s)
    ensures Dated(c, Step(c, s, Consider(listed, now, replayed, launches)))
  {
    LaunchedEpoch(c, s, listed, now, replayed, launches, c.b);
  }

  lemma ReapKeepsEpochs(sup: S.Sup, id: string, at: real, sight: S.Sighting)
    ensures var t := S.Reap(sup, id, at, sight);
      forall x | x in t.workers :: x in sup.workers && t.workers[x].epoch == sup.workers[x].epoch
  {
  }

  lemma DatedReap(c: Setting, s: System, id: string, at: real, sane: bool, dies: bool, report: Report)
    requires Dated(c, s)
    ensures Dated(c, Reaped(c, s, id, at, sane, dies, report))
  {
    var current := id in s.sup.workers && S.Current(s.sup.workers[id].epoch, id, RowOf(c, s.engine.db, id));
    ReapKeepsEpochs(s.sup, id, at, S.Sighting(current, sane, dies));
  }

  lemma MemoryKept(c: Setting, s: System, a: Action)
    requires !a.Consider? && !a.Reap? && !a.ReadRow? && !a.Crash?
    ensures var t := Step(c, s, a);
      t.row == s.row && t.sup.workers == s.sup.workers && (t.job == s.job || t.job.None?)
  {
  }

  lemma DatedKept(c: Setting, s: System, a: Action)
    requires Sane(c, s) && Dated(c, s) && !a.Consider? && !a.Reap? && !a.ReadRow? && !a.Crash?
    ensures Dated(c, Step(c, s, a))
  {
    MemoryKept(c, s, a);
    if s.row.Some? && s.row.value.id == c.b {
      PastStays(c, s, a, s.row.value.epoch);
    }
    if c.b in s.sup.workers {
      PastStays(c, s, a, s.sup.workers[c.b].epoch);
    }
    if s.job.Some? {
      PastStays(c, s, a, s.job.value.epoch);
    }
  }

  lemma DatedStep(c: Setting, s: System, a: Action)
    requires Sane(c, s) && Dated(c, s)
    ensures Dated(c, Step(c, s, a))
  {
    hide Sane, Stepped, Reread, Reaped, S.Consider;
    match a {
      case Consider(listed, now, replayed, launches) => DatedConsider(c, s, listed, now, replayed, launches);
      case Reap(id, at, sane, dies, report) =>
        if Idle(s) {
          DatedReap(c, s, id, at, sane, dies, report);
        }
      case ReadRow(_) =>
      case Crash =>
      case _ => DatedKept(c, s, a);
    }
  }

  lemma {:induction false} DatedRun(c: Setting, actions: seq<Action>)
    ensures Dated(c, Run(c, actions))
  {
    if actions != [] {
      DatedRun(c, Front(actions));
      SaneRun(c, Front(actions));
      DatedStep(c, Run(c, Front(actions)), Last(actions));
    }
  }

  /** In the terms of one worker: whatever switches the watch while the worker is in the table
      and no result is being applied retires its result for good. */
  lemma SwitchRetiresWorker(c: Setting, before: seq<Action>, switch: Delivery.Action, after: seq<Action>)
    requires var s := Run(c, before);
      && c.b in s.sup.workers && s.job.None?
      && c.b in s.engine.db.watches && c.b in Step(c, s, Engine(switch)).engine.db.watches
      && Step(c, s, Engine(switch)).engine.db.watches[c.b] != s.engine.db.watches[c.b]
    ensures var s := Run(c, before);
      var t := RunFrom(c, Step(c, s, Engine(switch)), after);
      |s.log| <= |t.log| && NothingOld(t.log, |s.log|, s.sup.workers[c.b].epoch + 1)
  {
    var s, all := Run(c, before), before + [Engine(switch)];
    assert Front(all) == before && Last(all) == Engine(switch);
    SaneRun(c, before);
    DatedRun(c, before);
    S.EpochsOnlyRise(c.limits, s.engine, switch, c.b);
    OldResultsChangeNothing(c, all, after, s.sup.workers[c.b].epoch + 1);
  }

  /** The points before the second read. */
  predicate Replaying(at: Point) {
    at == Emitting(Errand.Replay) || at == Clearing(Errand.Replay) || (at.Committing? && at.replaying) || at.Replayed?
  }

  /** The replay of a pending event: emitting it, forgetting it, clearing the candidate. */
  predicate OfReplay(deed: Deed, pending: Option<Transition>) {
    deed.ClearDeed? || deed.CommitDeed? || (deed.EmitDeed? && pending.Some? && deed.env == ChangeEvent(pending.value))
  }

  predicate OnlyReplay(log: seq<Entry>, n: nat, e: nat, pending: Option<Transition>) {
    forall i | n <= i < |log| && log[i].epoch.Some? && log[i].epoch.value < e :: OfReplay(log[i].deed, pending)
  }

  function PendingOf(s: System): Option<Transition> {
    if s.checkpoint.Some? then s.checkpoint.value.pending else None
  }

  /** An old result is in its replay, of the event that was pending then, or is over. */
  predicate Caught(s: System, e: nat, pending: Option<Transition>) {
    NotOld(s, e) || (Replaying(s.at) && (PendingOf(s).Some? ==> PendingOf(s) == pending))
  }

  /** What one step of the replay does. */
  lemma ReplayingMoves(c: Setting, s: System, now: real, uuid: nat, clock: real, trouble: Trouble)
    requires Sane(c, s) && Replaying(s.at) && !s.at.Replayed?
    ensures var t := Stepped(c, s, now, uuid, clock, trouble);
      && (Replaying(t.at) || t.job.None?)
      && (PendingOf(t).Some? ==> PendingOf(t) == PendingOf(s))
      && OfReplay(DeedOf(MachineOf(s)), PendingOf(s))
  {
  }

  /** What one step of the machine leaves behind. */
  lemma SteppedTrace(c: Setting, s: System, now: real, uuid: nat, clock: real, trouble: Trouble)
    ensures var t := Stepped(c, s, now, uuid, clock, trouble);
      && (t.job == s.job || t.job.None?)
      && (t.log == s.log
          || t.log == s.log + [Entry(if s.job.Some? then Some(s.job.value.epoch) else None, DeedOf(MachineOf(s)))])
  {
  }

  /** The second read comes too late for an old result. */
  lemma RereadTrace(c: Setting, s: System)
    requires s.job.Some?
    ensures var t := Reread(c, s);
      && t.log == s.log
      && (t.job.None? || (c.b in s.engine.db.watches && t.job.value.epoch == s.engine.db.watches[c.b].epoch))
  {
  }

  lemma CaughtGo(c: Setting, s: System, a: Action, e: nat, n: nat, pending: Option<Transition>)
    requires a.Go?
    requires Sane(c, s) && Past(c, s, e) && Caught(s, e, pending) && n <= |s.log| && OnlyReplay(s.log, n, e, pending)
    ensures var t := Step(c, s, a); Caught(t, e, pending) && n <= |t.log| && OnlyReplay(t.log, n, e, pending)
  {
    hide Sane, Stepped, Reread, DeedOf, MachineOf;
    if s.at.Replayed? && s.job.Some? {
      RereadTrace(c, s);
    } else {
      SteppedTrace(c, s, a.now, a.uuid, a.clock, a.trouble);
      if Replaying(s.at) && !s.at.Replayed? {
        ReplayingMoves(c, s, a.now, a.uuid, a.clock, a.trouble);
      }
    }
  }

  lemma CaughtStep(c: Setting, s: System, a: Action, e: nat, n: nat, pending: Option<Transition>)
    requires Sane(c, s) && Past(c, s, e) && Caught(s, e, pending) && n <= |s.log| && OnlyReplay(s.log, n, e, pending)
    ensures var t := Step(c, s, a); Caught(t, e, pending) && n <= |t.log| && OnlyReplay(t.log, n, e, pending)
  {
    if a.Go? {
      CaughtGo(c, s, a, e, n, pending);
    } else {
      BesidesGo(c, s, a);
    }
  }

  /** The main result on the window between the two reads: if the watch is switched while a
      result is in its replay, the sample is never looked at. Over every continuation, all
      that is done on behalf of older workers is to finish that replay: the event that was
      pending is emitted and forgotten, and the candidate cleared. */
  lemma {:induction false} BetweenReadsOnlyReplay(c: Setting, before: seq<Action>, after: seq<Action>, e: nat)
    requires var s := Run(c, before); Past(c, s, e) && Replaying(s.at)
    ensures var s, t := Run(c, before), RunFrom(c, Run(c, before), after);
      && Sane(c, t) && Past(c, t, e) && Caught(t, e, PendingOf(s))
      && |s.log| <= |t.log| && OnlyReplay(t.log, |s.log|, e, PendingOf(s))
  {
    if after == [] {
      SaneRun(c, before);
    } else {
      BetweenReadsOnlyReplay(c, before, Front(after), e);
      var s, m := Run(c, before), RunFrom(c, Run(c, before), Front(after));
      SaneStep(c, m, Last(after));
      PastStays(c, m, Last(after), e);
      CaughtStep(c, m, Last(after), e, |s.log|, PendingOf(s));
    }
  }

  // ----- every change stored was stable

  function InstanceOf(s: System): Instance {
    Instance(s.policy, s.shown.seen, s.shown.endings)
  }

  /** A sample on its way from the policy to the checkpoint was chosen as stable. */
  ghost predicate Chosen(c: Setting, s: System) {
    s.at.Checking? && s.checkpoint.Some? && c.mode.seconds > 0.0 && Tidy(s.shown.endings) ==>
      && s.shown.seen != [] && Last(s.shown.seen).sample == s.at.sample
      && Stable(c.mode.seconds, Front(s.shown.seen), Last(s.shown.seen))
  }

  ghost predicate Watched(c: Setting, s: System) {
    Anchored(InstanceOf(s)) && Chosen(c, s)
  }

  lemma WatchedSelect(c: Setting, s: System, now: real, uuid: nat, clock: real, trouble: Trouble)
    requires Watched(c, s) && s.at.Selecting? && c.mode.Policed()
    ensures Watched(c, Stepped(c, s, now, uuid, clock, trouble))
  {
    hide Anchored, Stable, Tidy;
    var o := Observation(s.at.sample, BaselineOf(s), s.at.epoch, clock, trouble);
    var x, t := InstanceOf(s), Stepped(c, s, now, uuid, clock, trouble);
    var (p, answer) := Answering(c.mode.seconds, x, o);
    AnchoredObservation(c.mode.seconds, x, o);
    assert InstanceOf(t) == Apply(c.mode.seconds, x, Conditions.Observe(o));
    if t.at.Checking? && t.checkpoint.Some? && c.mode.seconds > 0.0 && Tidy(t.shown.endings) {
      TidyBefore(x.endings, EndingOf(answer));
      ChosenAnchored(c.mode.seconds, x, o);
      assert Front(t.shown.seen) == s.shown.seen && Last(t.shown.seen) == o;
    }
  }

  lemma WatchedGo(c: Setting, s: System, now: real, uuid: nat, clock: real, trouble: Trouble)
    requires Watched(c, s) && !(s.at.Selecting? && c.mode.Policed()) && (c.mode.seconds > 0.0 ==> c.mode.Policed())
    requires s.at.Clearing? ==> !s.at.errand.Recheck?
    ensures Watched(c, Stepped(c, s, now, uuid, clock, trouble))
  {
  }

  /** Nothing is chosen, and the policy object is shown nothing or dropped. */
  lemma WatchedAside(c: Setting, s: System, t: System)
    requires Watched(c, s) && t.checkpoint == s.checkpoint && (t.at == s.at || !t.at.Checking?)
    requires (t.policy == s.policy && t.shown == s.shown)
          || (!t.policy.observing && t.shown == NOTHING && !t.at.Checking?)
    ensures Watched(c, t)
  {
  }

  lemma NoRecheck(c: Setting, s: System)
    requires Sane(c, s) && s.at.Clearing?
    ensures !s.at.errand.Recheck?
  {
  }

  lemma WatchedStep(c: Setting, s: System, a: Action)
    requires Sane(c, s) && Watched(c, s)
    ensures Watched(c, Step(c, s, a))
  {
    hide Sane, Watched, Stepped, RowOf, HasPending, Delivery.Step, S.Consider, S.Reap;
    match a {
      case Go(now, uuid, clock, trouble) =>
        if !(s.at.Replayed? && s.job.Some?) {
          if s.at.Selecting? && c.mode.Policed() {
            WatchedSelect(c, s, now, uuid, clock, trouble);
          } else {
            if s.at.Clearing? {
              NoRecheck(c, s);
            }
            WatchedGo(c, s, now, uuid, clock, trouble);
          }
        } else {
          WatchedAside(c, s, Step(c, s, a));
        }
      case _ => WatchedAside(c, s, Step(c, s, a));
    }
  }

  lemma {:induction false} WatchedRun(c: Setting, actions: seq<Action>)
    ensures Watched(c, Run(c, actions))
  {
    if actions != [] {
      WatchedRun(c, Front(actions));
      SaneRun(c, Front(actions));
      WatchedStep(c, Run(c, Front(actions)), Last(actions));
    }
  }

  /** The main result on debounced watches: every change that is stored, and so emitted, was
      stable when the policy object was last asked -- seen and nothing else, in one epoch, for
      at least the window -- unless a `select` of that object had raised an error before. */
  lemma StoredChangesAreStable(c: Setting, actions: seq<Action>, a: Action)
    requires c.mode.seconds > 0.0
    requires var s := Run(c, actions);
      && PendingOf(s).None? && PendingOf(Step(c, s, a)).Some?
      && Tidy(s.shown.endings)
    ensures var s := Run(c, actions);
      && s.shown.seen != []
      && Last(s.shown.seen).sample == PendingOf(Step(c, s, a)).value.current
      && Stable(c.mode.seconds, Front(s.shown.seen), Last(s.shown.seen))
  {
    WatchedRun(c, actions);
    OnlyChecksStore(c, Run(c, actions), a);
  }

  lemma OnlyChecksStore(c: Setting, s: System, a: Action)
    requires PendingOf(s).None? && PendingOf(Step(c, s, a)).Some?
    ensures s.at.Checking? && s.checkpoint.Some? && PendingOf(Step(c, s, a)).value.current == s.at.sample
  {
  }
}
