/** One managed watch as managed.py runs it: replay of a pending event, debounce, emit and
    commit over three durable stores -- checkpoint, candidate, inbox -- one write at a time,
    with a crash, a failed emit or a restart at any point, and the rest of the system at work
    on the inbox between any two writes. */
module Chain {
  import opened Sequences
  import opened Envelopes
  import opened Inbox
  import opened Watch
  import opened Conditions
  import Delivery

  /** How the watch was created: `policed` watches go through the debounce policy. */
  datatype Mode = Mode(seconds: real, verdicts: bool) {
    predicate Policed() {
      verdicts || seconds != 0.0
    }
  }

  /** `baseline` remembers the silent first sample; `fault` records that one of the errors
      meant for inconsistent stores was raised. */
  datatype World = World(store: Store, policy: Policy, baseline: Option<Sample>, fault: bool)

  /** Why a stored event is emitted: to replay it, because it was just stored, or because a
      check found it in its way. */
  datatype Errand = Replay | Fresh | Recheck(sample: Sample)

  /** What the supervisor thread does next for this watch. */
  datatype Point =
    | Rest
    | Emitting(errand: Errand)                      // emit the stored event
    | Clearing(errand: Errand)                      // and forget it
    | Committing(sample: Sample, replaying: bool)   // clear the candidate
    | Replayed                                      // nothing is pending any more
    | Selecting(sample: Sample, epoch: nat)         // ask the debounce policy
    | Checking(sample: Sample)                      // compare with the checkpoint, store a change

  datatype Machine = Machine(world: World, at: Point)

  datatype Action =
    | Others(db: Db)                                 // any other transaction on the inbox
    | BeginReplay
    | Observe(sample: Sample, epoch: nat)            // a sample is to be looked at
    | Move(now: real, uuid: nat, clock: real, trouble: Trouble)
    | Halt(restart: bool)                            // an error; or a crash, or the policy object is dropped

  const START := World(Store(None, Db(map[], map[], [], [])), Policy(None, false, false), None, false)

  /** The envelopes taken in on binding b, in order. */
  function Trail(events: seq<Event>, b: string): seq<Envelope> {
    if events == [] then []
    else Trail(Front(events), b) + if Last(events).binding == b then [Last(events).envelope] else []
  }

  /** What the rest of the system may do: it changes no row's identity and takes nothing in
      on this binding, whose source is reserved. */
  ghost predicate Harmless(older: Db, newer: Db, b: string) {
    && newer.KeepsRows(older)
    && forall i | |older.events| <= i < |newer.events| :: newer.events[i].binding != b
  }

  // ----- the steps

  predicate HasPending(w: World) {
    w.store.checkpoint.Some? && w.store.checkpoint.value.pending.Some?
  }

  function Stopped(m: Machine): Machine {
    m.(at := Rest)
  }

  function Emit(limits: Limits, b: string, m: Machine, now: real): Machine
    requires m.at.Emitting?
  {
    if !HasPending(m.world) then Stopped(m)
    else
      var (db, r) := m.world.store.db.Ingest(limits, b, ChangeEvent(m.world.store.checkpoint.value.pending.value), now);
      if r.Err? then Stopped(m)
      else Machine(m.world.(store := m.world.store.(db := db)), Clearing(m.at.errand))
  }

  function Clear(m: Machine): Machine
    requires m.at.Clearing?
  {
    if !HasPending(m.world) then Stopped(m)
    else
      var current := m.world.store.checkpoint.value.pending.value.current;
      Machine(
        m.world.(store := m.world.store.(checkpoint := Some(Checkpoint(current, None)))),
        match m.at.errand
        case Replay => Committing(current, true)
        case Fresh => Committing(current, false)
        case Recheck(sample) => Checking(sample))
  }

  /** `commit`, on a policed watch. */
  function Commit(mode: Mode, m: Machine): Machine
    requires m.at.Committing?
  {
    var next := if m.at.replaying then Replayed else Rest;
    if !mode.Policed() then m.(at := next)
    else
      var (policy, r) := m.world.policy.Commit(m.at.sample);
      match r
      case Mismatch => Machine(m.world.(fault := true), Rest)
      case NothingPending => m.(at := next)
      case Cleared => Machine(m.world.(policy := policy), next)
  }

  function Select(mode: Mode, m: Machine, clock: real, trouble: Trouble): Machine
    requires m.at.Selecting?
  {
    if !mode.Policed() then m.(at := Checking(m.at.sample))
    else
      var cp := m.world.store.checkpoint;
      var last := if cp.Some? then Some(cp.value.last) else None;
      var (policy, answer) := m.world.policy.Select(mode.seconds, m.at.sample, last, m.at.epoch, clock, trouble);
      var selected := m.world.(policy := policy);
      match answer
      case MissingBaseline => Machine(selected.(fault := true), Rest)
      case Chosen(sample) => Machine(selected, Checking(sample))
      case _ => Machine(selected, Rest)
  }

  /** The identifier of a new event has not been used before. */
  predicate FreshChange(w: World, b: string, uuid: nat) {
    forall i | 0 <= i < |w.store.db.events| ::
      w.store.db.events[i].binding == b ==> w.store.db.events[i].envelope.id != EventId.Change(uuid)
  }

  function Check(b: string, m: Machine, uuid: nat): Machine
    requires m.at.Checking?
  {
    var w, sample := m.world, m.at.sample;
    match w.store.checkpoint
    case None =>
      Machine(w.(store := w.store.(checkpoint := Some(Checkpoint(sample, None))), baseline := Some(sample)),
              Committing(sample, false))
    case Some(cp) =>
      if cp.pending.Some? then m.(at := Emitting(Recheck(sample)))
      else if sample == cp.last then m.(at := Committing(sample, false))
      else if !FreshChange(w, b, uuid) then m
      else
        var armed := Checkpoint(cp.last, Some(Transition(uuid, cp.last, sample)));
        Machine(w.(store := w.store.(checkpoint := Some(armed))), Emitting(Fresh))
  }

  function Moved(mode: Mode, limits: Limits, b: string, m: Machine, now: real, uuid: nat, clock: real,
                 trouble: Trouble): Machine {
    match m.at
    case Emitting(_) => Emit(limits, b, m, now)
    case Clearing(_) => Clear(m)
    case Committing(_, _) => Commit(mode, m)
    case Selecting(_, _) => Select(mode, m, clock, trouble)
    case Checking(_) => Check(b, m, uuid)
    case _ => m
  }

  ghost function Step(mode: Mode, limits: Limits, b: string, m: Machine, a: Action): Machine {
    match a
    case Others(db) =>
      if Harmless(m.world.store.db, db, b) then m.(world := m.world.(store := m.world.store.(db := db))) else m
    case BeginReplay =>
      if m.at.Rest? then m.(at := if HasPending(m.world) then Emitting(Errand.Replay) else Replayed) else m
    case Observe(sample, epoch) =>
      if m.at.Replayed? && sample.Condition? == mode.verdicts then m.(at := Selecting(sample, epoch)) else m
    case Move(now, uuid, clock, trouble) => Moved(mode, limits, b, m, now, uuid, clock, trouble)
    case Halt(restart) =>
      if restart then Machine(m.world.(policy := m.world.policy.(observing := false)), Rest) else Stopped(m)
  }

  ghost function RunFrom(mode: Mode, limits: Limits, b: string, m: Machine, actions: seq<Action>): Machine {
    if actions == [] then m else Step(mode, limits, b, RunFrom(mode, limits, b, m, Front(actions)), Last(actions))
  }

  ghost function Run(mode: Mode, limits: Limits, b: string, actions: seq<Action>): Machine {
    RunFrom(mode, limits, b, Machine(START, Rest), actions)
  }

  /** Every step of the delivery engine but an intake on this binding is such a transaction. */
  lemma EngineIsHarmless(limits: Limits, s: Delivery.Sys, a: Delivery.Action, b: string)
    requires a.Ingest? ==> a.b != b
    ensures Harmless(s.db, Delivery.Step(limits, s, a).db, b)
  {
    if a.Ingest? {
      IngestEffect(s.db, limits, a.b, a.env, a.now);
    } else {
      Delivery.NoIntakeKeepsRows(limits, s, a);
    }
  }

  // ----- trails

  lemma {:induction false} TrailHarmless(older: seq<Event>, newer: seq<Event>, b: string)
    requires |older| <= |newer|
    requires forall i | 0 <= i < |older| ::
      newer[i].binding == older[i].binding && newer[i].envelope == older[i].envelope
    requires forall i | |older| <= i < |newer| :: newer[i].binding != b
    ensures Trail(newer, b) == Trail(older, b)
    decreases |newer|
  {
    if |newer| > |older| {
      TrailHarmless(older, Front(newer), b);
    } else if newer != [] {
      TrailHarmless(Front(older), Front(newer), b);
    }
  }

  lemma TrailAppend(events: seq<Event>, e: Event, b: string)
    ensures Trail(events + [e], b) == Trail(events, b) + if e.binding == b then [e.envelope] else []
  {
    assert Front(events + [e]) == events;
  }

  lemma {:induction false} TrailHas(events: seq<Event>, i: nat, b: string)
    requires i < |events| && events[i].binding == b
    ensures events[i].envelope in Trail(events, b)
  {
    if i < |events| - 1 {
      TrailHas(Front(events), i, b);
    }
  }

  lemma {:induction false} TrailMisses(events: seq<Event>, b: string, source: string, id: EventId)
    requires forall i | 0 <= i < |events| :: !events[i].HasKey(b, source, id)
    ensures forall env | env in Trail(events, b) :: env.source != source || env.id != id
  {
    if events != [] {
      assert forall i | 0 <= i < |Front(events)| :: Front(events)[i] == events[i];
      TrailMisses(Front(events), b, source, id);
    }
  }

  /** Where the watch stands after these events. */
  function End(base: Sample, trail: seq<Envelope>): Sample {
    if trail != [] && Last(trail).payload.FileChanged? then Last(trail).payload.current else base
  }

  predicate Link(env: Envelope, previous: Sample) {
    && env.id.Change? && env.payload.FileChanged?
    && env.payload.previous == previous && env.payload.current != previous
    && env.payload.current.Condition? == previous.Condition?
    && env == ChangeEvent(Transition(env.id.uuid, previous, env.payload.current))
  }

  predicate Unused(trail: seq<Envelope>, id: EventId) {
    forall env | env in trail :: env.id != id
  }

  /** A gapless chain of changes from the baseline on, under distinct identifiers. */
  predicate Linked(base: Sample, trail: seq<Envelope>) {
    trail == [] || (
      && Linked(base, Front(trail))
      && Link(Last(trail), End(base, Front(trail)))
      && Unused(Front(trail), Last(trail).id))
  }

  ghost predicate Sound(b: string, baseline: Option<Sample>, s: Store) {
    var trail := Trail(s.db.events, b);
    match s.checkpoint
    case None => trail == [] && baseline.None?
    case Some(cp) =>
      && baseline.Some?
      && Linked(baseline.value, trail)
      && match cp.pending
         case None => End(baseline.value, trail) == cp.last
         case Some(c) => Armed(baseline.value, trail, cp.last, c)
  }

  /** A pending change starts where the checkpoint stands, and is either the newest event of
      the inbox already, or not in the inbox at all. */
  predicate Armed(base: Sample, trail: seq<Envelope>, last: Sample, c: Transition) {
    && c.previous == last && c.current != last && c.current.Condition? == last.Condition?
    && (|| (trail != [] && Last(trail) == ChangeEvent(c) && End(base, Front(trail)) == last)
        || (Unused(trail, EventId.Change(c.uuid)) && End(base, trail) == last))
  }

  lemma {:induction false} OneOfAKind(base: Sample, trail: seq<Envelope>, env: Envelope, c: Transition)
    requires Linked(base, trail) && trail != [] && Last(trail) == ChangeEvent(c)
    requires env in trail && env.id == EventId.Change(c.uuid)
    ensures env == ChangeEvent(c)
  {
    assert trail == Front(trail) + [Last(trail)];
  }

  lemma Extended(base: Sample, trail: seq<Envelope>, last: Sample, c: Transition)
    requires Linked(base, trail) && Armed(base, trail, last, c) && Unused(trail, EventId.Change(c.uuid))
    ensures Linked(base, trail + [ChangeEvent(c)])
    ensures End(base, Front(trail + [ChangeEvent(c)])) == last
  {
    assert Front(trail + [ChangeEvent(c)]) == trail;
  }

  lemma NeverReused(limits: Limits, b: string, base: Sample, db: Db, last: Sample, c: Transition, now: real)
    requires Linked(base, Trail(db.events, b)) && Armed(base, Trail(db.events, b), last, c)
    requires FindEvent(db.events, b, MANAGED_SOURCE, EventId.Change(c.uuid)).Some?
    ensures var i := FindEvent(db.events, b, MANAGED_SOURCE, EventId.Change(c.uuid)).value;
      db.events[i].envelope == ChangeEvent(c)
    ensures Trail(db.events, b) != [] && Last(Trail(db.events, b)) == ChangeEvent(c)
  {
    var i := FindEvent(db.events, b, MANAGED_SOURCE, EventId.Change(c.uuid)).value;
    TrailHas(db.events, i, b);
    assert !Unused(Trail(db.events, b), EventId.Change(c.uuid));
    OneOfAKind(base, Trail(db.events, b), db.events[i].envelope, c);
  }

  /** Emitting the pending event adds it to the trail unless it is there; it never collides. */
  lemma EmitEffect(limits: Limits, b: string, base: Sample, db: Db, last: Sample, c: Transition, now: real)
    requires Linked(base, Trail(db.events, b)) && Armed(base, Trail(db.events, b), last, c)
    ensures var (t, r) := db.Ingest(limits, b, ChangeEvent(c), now);
      && r != Err(IdReused)
      && (if r.Ok? then
            && Linked(base, Trail(t.events, b))
            && Trail(t.events, b) != [] && Last(Trail(t.events, b)) == ChangeEvent(c)
            && End(base, Front(Trail(t.events, b))) == last
          else t == db)
  {
    var env, trail := ChangeEvent(c), Trail(db.events, b);
    IngestEffect(db, limits, b, env, now);
    if FindEvent(db.events, b, env.source, env.id).Some? {
      NeverReused(limits, b, base, db, last, c, now);
    } else if db.Ingest(limits, b, env, now).1.Ok? {
      TrailAppend(db.events, db.NewEvent(b, env, now), b);
      TrailMisses(db.events, b, env.source, env.id);
      Extended(base, trail, last, c);
    }
  }

  // ----- the three stores together

  /** A pending event was chosen by the debounce policy: the candidate still stores its
      sample, so that neither the commit nor a missing baseline can go wrong. */
  ghost predicate Agreed(mode: Mode, w: World) {
    && (w.baseline.Some? ==> w.baseline.value.Condition? == mode.verdicts)
    && (w.store.checkpoint.None? ==> w.policy.candidate.None?)
    && (mode.Policed() && HasPending(w) ==>
          && w.policy.candidate.Some?
          && w.policy.candidate.value.sample == w.store.checkpoint.value.pending.value.current)
  }

  /** What is known at each point. */
  ghost predicate Located(mode: Mode, b: string, w: World, at: Point) {
    match at
    case Rest => true
    case Emitting(errand) => !errand.Recheck? && HasPending(w)
    case Clearing(errand) =>
      && !errand.Recheck? && HasPending(w)
      && var trail := Trail(w.store.db.events, b);
         trail != [] && Last(trail) == ChangeEvent(w.store.checkpoint.value.pending.value)
    case Committing(sample, _) =>
      && !HasPending(w) && w.store.checkpoint.Some?
      && (mode.Policed() && w.policy.candidate.Some? ==> w.policy.candidate.value.sample == sample)
    case Replayed => !HasPending(w)
    case Selecting(sample, _) => !HasPending(w) && sample.Condition? == mode.verdicts
    case Checking(sample) =>
      && !HasPending(w) && sample.Condition? == mode.verdicts
      && (mode.Policed() && w.store.checkpoint.Some? ==>
            w.policy.candidate.Some? && w.policy.candidate.value.sample == sample)
  }

  ghost predicate Invariant(mode: Mode, b: string, m: Machine) {
    && Sound(b, m.world.baseline, m.world.store) && Agreed(mode, m.world) && !m.world.fault
    && Located(mode, b, m.world, m.at)
  }

  lemma {:induction false} KindKept(base: Sample, trail: seq<Envelope>)
    requires Linked(base, trail)
    ensures End(base, trail).Condition? == base.Condition?
  {
    if trail != [] {
      KindKept(base, Front(trail));
    }
  }

  /** Whatever the policy answers, a chosen sample is the stored candidate, unless there is
      no baseline yet; and it never finds the baseline missing here. */
  lemma SelectAgrees(seconds: real, p: Policy, sample: Sample, baseline: Option<Sample>, epoch: nat, now: real,
                     trouble: Trouble)
    ensures var (q, r) := p.Select(seconds, sample, baseline, epoch, now, trouble);
      && (r.MissingBaseline? ==> baseline.None? && p.candidate.Some?)
      && (r.Chosen? ==> r.sample == sample)
      && (r.Chosen? && baseline.Some? ==> q.candidate.Some? && q.candidate.value.sample == sample)
      && (baseline.None? && p.candidate.None? ==> q.candidate.None?)
  {
  }

  lemma {:induction false} TrailAvoids(events: seq<Event>, b: string, id: EventId)
    requires forall i | 0 <= i < |events| :: events[i].binding == b ==> events[i].envelope.id != id
    ensures Unused(Trail(events, b), id)
  {
    if events != [] {
      assert forall i | 0 <= i < |Front(events)| :: Front(events)[i] == events[i];
      TrailAvoids(Front(events), b, id);
    }
  }

  lemma EmitKeeps(mode: Mode, limits: Limits, b: string, m: Machine, now: real)
    requires Invariant(mode, b, m) && m.at.Emitting?
    ensures Invariant(mode, b, Emit(limits, b, m, now))
  {
    var cp := m.world.store.checkpoint.value;
    EmitEffect(limits, b, m.world.baseline.value, m.world.store.db, cp.last, cp.pending.value, now);
  }

  lemma ClearKeeps(mode: Mode, b: string, m: Machine)
    requires Invariant(mode, b, m) && m.at.Clearing?
    ensures Invariant(mode, b, Clear(m))
  {
    var cp, trail := m.world.store.checkpoint.value, Trail(m.world.store.db.events, b);
    assert Last(trail) in trail;
  }

  lemma SelectKeeps(mode: Mode, b: string, m: Machine, clock: real, trouble: Trouble)
    requires Invariant(mode, b, m) && m.at.Selecting?
    ensures Invariant(mode, b, Select(mode, m, clock, trouble))
  {
    var cp := m.world.store.checkpoint;
    var last := if cp.Some? then Some(cp.value.last) else None;
    SelectAgrees(mode.seconds, m.world.policy, m.at.sample, last, m.at.epoch, clock, trouble);
  }

  lemma CheckKeeps(mode: Mode, b: string, m: Machine, uuid: nat)
    requires Invariant(mode, b, m) && m.at.Checking?
    ensures Invariant(mode, b, Check(b, m, uuid))
  {
    if m.world.store.checkpoint.Some? {
      KindKept(m.world.baseline.value, Trail(m.world.store.db.events, b));
      if FreshChange(m.world, b, uuid) {
        TrailAvoids(m.world.store.db.events, b, EventId.Change(uuid));
      }
    }
  }

  lemma MoveKeeps(mode: Mode, limits: Limits, b: string, m: Machine, now: real, uuid: nat, clock: real,
                  trouble: Trouble)
    requires Invariant(mode, b, m)
    ensures Invariant(mode, b, Moved(mode, limits, b, m, now, uuid, clock, trouble))
  {
    match m.at {
      case Emitting(_) => EmitKeeps(mode, limits, b, m, now);
      case Clearing(_) => ClearKeeps(mode, b, m);
      case Committing(_, _) =>
      case Selecting(_, _) => SelectKeeps(mode, b, m, clock, trouble);
      case Checking(_) => CheckKeeps(mode, b, m, uuid);
      case _ =>
    }
  }

  lemma InvariantStep(mode: Mode, limits: Limits, b: string, m: Machine, a: Action)
    requires Invariant(mode, b, m)
    ensures Invariant(mode, b, Step(mode, limits, b, m, a))
  {
    match a {
      case Others(db) =>
        if Harmless(m.world.store.db, db, b) {
          TrailHarmless(m.world.store.db.events, db.events, b);
        }
      case Move(now, uuid, clock, trouble) => MoveKeeps(mode, limits, b, m, now, uuid, clock, trouble);
      case _ =>
    }
  }

  lemma {:induction false} InvariantRun(mode: Mode, limits: Limits, b: string, actions: seq<Action>)
    ensures Invariant(mode, b, Run(mode, limits, b, actions))
  {
    if actions != [] {
      InvariantRun(mode, limits, b, Front(actions));
      InvariantStep(mode, limits, b, Run(mode, limits, b, Front(actions)), Last(actions));
    }
  }

  lemma {:induction false} LinkedPrefix(base: Sample, trail: seq<Envelope>, n: nat)
    requires Linked(base, trail) && n <= |trail|
    ensures Linked(base, trail[..n])
  {
    if n == |trail| {
      assert trail[..n] == trail;
    } else {
      assert Front(trail)[..n] == trail[..n];
      LinkedPrefix(base, Front(trail), n);
    }
  }

  /** The chain read off at one index. */
  lemma LinkAt(base: Sample, trail: seq<Envelope>, i: nat)
    requires Linked(base, trail) && i < |trail|
    ensures Link(trail[i], End(base, trail[..i]))
    ensures Unused(trail[..i], trail[i].id)
  {
    LinkedPrefix(base, trail, i + 1);
    assert Front(trail[..i + 1]) == trail[..i];
  }

  lemma LinkedReads(base: Sample, trail: seq<Envelope>)
    requires Linked(base, trail)
    ensures forall i | 0 <= i < |trail| :: Link(trail[i], End(base, trail[..i]))
    ensures forall i, j | 0 <= i < j < |trail| :: trail[i].id != trail[j].id
  {
    forall i | 0 <= i < |trail| ensures Link(trail[i], End(base, trail[..i])) {
      LinkAt(base, trail, i);
    }
    forall i, j | 0 <= i < j < |trail| ensures trail[i].id != trail[j].id {
      LinkAt(base, trail, j);
      assert trail[i] == trail[..j][i];
    }
  }

  /** The trail of a sound store, read off. */
  ghost predicate Unbroken(w: World, b: string) {
    var trail := Trail(w.store.db.events, b);
    && (trail != [] ==> w.baseline.Some?)
    && (forall i | 0 <= i < |trail| :: Link(trail[i], End(w.baseline.value, trail[..i])))
    && (forall i, j | 0 <= i < j < |trail| :: trail[i].id != trail[j].id)
  }

  lemma SoundIsUnbroken(w: World, b: string)
    requires Sound(b, w.baseline, w.store)
    ensures Unbroken(w, b)
  {
    if w.baseline.Some? {
      LinkedReads(w.baseline.value, Trail(w.store.db.events, b));
    }
  }

  /** The main result: over every run, the inbox events of one watch have distinct ids, and
      each is a change that starts where its predecessor ended, the first at the silent
      baseline. */
  lemma UnbrokenChain(mode: Mode, limits: Limits, b: string, actions: seq<Action>)
    ensures var w := Run(mode, limits, b, actions).world;
      var trail := Trail(w.store.db.events, b);
      && (trail != [] ==> w.baseline.Some?)
      && (forall i | 0 <= i < |trail| :: Link(trail[i], End(w.baseline.value, trail[..i])))
      && (forall i, j | 0 <= i < j < |trail| :: trail[i].id != trail[j].id)
  {
    InvariantRun(mode, limits, b, actions);
    SoundIsUnbroken(Run(mode, limits, b, actions).world, b);
  }

  /** In predicate mode `matched` and `not_matched` strictly alternate. */
  lemma VerdictsAlternate(mode: Mode, limits: Limits, b: string, actions: seq<Action>, i: nat)
    requires mode.verdicts
    requires i + 1 < |Trail(Run(mode, limits, b, actions).world.store.db.events, b)|
    ensures var trail := Trail(Run(mode, limits, b, actions).world.store.db.events, b);
      && trail[i].payload.FileChanged? && trail[i + 1].payload.FileChanged?
      && trail[i].payload.current.Condition? && trail[i + 1].payload.current.Condition?
      && trail[i + 1].payload.current.matched == !trail[i].payload.current.matched
  {
    InvariantRun(mode, limits, b, actions);
    var w := Run(mode, limits, b, actions).world;
    var trail := Trail(w.store.db.events, b);
    LinkedPrefix(w.baseline.value, trail, i + 1);
    KindKept(w.baseline.value, trail[..i + 1]);
    LinkAt(w.baseline.value, trail, i);
    LinkAt(w.baseline.value, trail, i + 1);
    assert Last(trail[..i + 1]) == trail[i];
  }

  /** The main result on the composition: a pending event always is the stored candidate, and
      neither the commit-mismatch nor the missing-baseline error is ever raised. */
  lemma StoresAgree(mode: Mode, limits: Limits, b: string, actions: seq<Action>)
    ensures var w := Run(mode, limits, b, actions).world;
      && !w.fault
      && (mode.Policed() && HasPending(w) ==>
            w.policy.candidate.Some?
            && w.policy.candidate.value.sample == w.store.checkpoint.value.pending.value.current)
  {
    InvariantRun(mode, limits, b, actions);
  }
}
