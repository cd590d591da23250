/** The sampler processes of managed.py: scheduling, reaping, cancelling and timing out, with
    processes dying -- or refusing to -- at any time; and the lifecycle epochs that tell a
    current worker from an old one. */
module Supervisor {
  import opened Sequences
  import opened Envelopes
  import opened Inbox
  import Delivery

  datatype Row = Row(id: string, thread: string, interval: real, enabled: bool, removed: bool, epoch: nat)

  datatype Worker = Worker(thread: string, epoch: nat, process: nat, deadline: real, cancelled: bool, reported: bool)

  datatype Capacity = Capacity(workers: nat, perThread: nat, poll: real, timeout: real)

  /** The supervisor's tables, and the operating system's: which processes are alive, how many
      were ever launched. */
  datatype Sup = Sup(
    workers: map<string, Worker>, next: map<string, real>, cursor: nat, suspended: bool,
    live: set<nat>, launched: nat)

  /** What the outside answers while a schedule runs: the registry's current rows, whether a
      pending event could be replayed, whether a launch succeeds. */
  datatype Answers = Answers(current: string -> Option<Row>, replayed: string -> bool, launches: string -> bool)

  /** What it answers about one worker being reaped: whether its row is current, whether the
      process left a result that is in order, whether killing it succeeds. */
  datatype Sighting = Sighting(current: bool, sane: bool, dies: bool)

  function OnThread(workers: map<string, Worker>, thread: string): set<string> {
    set id | id in workers && workers[id].thread == thread
  }

  /** `_row_is_schedulable` */
  function Schedulable(row: Row, answers: Answers): Option<Row> {
    match answers.current(row.id)
    case None => None
    case Some(r) => if r.id == row.id && r.enabled && !r.removed && r.epoch == row.epoch then Some(r) else None
  }

  function Later(c: Capacity, row: Row, now: real): real {
    now + if row.interval < c.poll then c.poll else row.interval
  }

  function Launch(c: Capacity, s: Sup, row: Row, real_now: real): Sup {
    s.(workers := s.workers[row.id := Worker(row.thread, row.epoch, s.launched, real_now + c.timeout, false, false)],
       live := s.live + {s.launched}, launched := s.launched + 1)
  }

  /** One round of the loop in `_schedule`. */
  function Consider(c: Capacity, s: Sup, row: Row, now: real, answers: Answers): Sup {
    if !row.enabled || row.removed then s.(next := s.next - {row.id})
    else if (row.id in s.next && now < s.next[row.id]) || row.id in s.workers then s
    else
      var current := Schedulable(row, answers);
      if current.None? then s
      else
        var r := current.value;
        var later := s.(next := s.next[r.id := Later(c, r, now)]);
        if !answers.replayed(r.id) then later
        else if s.suspended then later
        else if |OnThread(s.workers, r.thread)| >= c.perThread then later
        else if |s.workers| >= c.workers then later
        else if !answers.launches(r.id) then later.(suspended := true)
        else Launch(c, s, r, now)
  }

  function ConsiderAll(c: Capacity, s: Sup, rows: seq<Row>, now: real, answers: Answers): Sup {
    if rows == [] then s else Consider(c, ConsiderAll(c, s, Front(rows), now, answers), Last(rows), now, answers)
  }

  function Rotated(rows: seq<Row>, cursor: nat): seq<Row>
    requires rows != []
  {
    rows[cursor % |rows|..] + rows[..cursor % |rows|]
  }

  function Schedule(c: Capacity, s: Sup, rows: seq<Row>, now: real, answers: Answers): Sup {
    if rows == [] then s
    else
      ConsiderAll(c, s.(cursor := (s.cursor % |rows| + 1) % |rows|), Rotated(rows, s.cursor), now, answers)
  }

  /** `_terminate_process`: whether the process goes is up to the kernel. */
  function Terminate(s: Sup, id: string, dies: bool): Sup
    requires id in s.workers
  {
    if dies then s.(live := s.live - {s.workers[id].process}) else s
  }

  /** `_retire_if_dead` */
  function Retire(s: Sup, id: string): Sup
    requires id in s.workers
  {
    if s.workers[id].process in s.live then s else s.(workers := s.workers - {id})
  }

  function SetWorker(s: Sup, id: string, w: Worker): Sup {
    s.(workers := s.workers[id := w])
  }

  /** `_cancel_worker` */
  function Cancel(s: Sup, id: string, dies: bool): Sup
    requires id in s.workers
  {
    var w := s.workers[id];
    if w.cancelled then Retire(s, id)
    else Retire(Terminate(SetWorker(s, id, w.(cancelled := true)), id, dies), id)
  }

  /** One round of the loop in `_reap_workers`; applying the result happens elsewhere. */
  function Reap(s: Sup, id: string, real_now: real, sight: Sighting): Sup {
    if id !in s.workers then s
    else
      var w := s.workers[id];
      if w.cancelled || w.reported || !sight.current then Cancel(s, id, sight.dies)
      else if w.process !in s.live then
        Retire(SetWorker(s, id, w.(reported := true)).(suspended := s.suspended || !sight.sane), id)
      else if real_now >= w.deadline then
        Retire(Terminate(SetWorker(s, id, w.(reported := true)), id, sight.dies), id)
      else s
  }

  class ManagedSupervisor {
    const capacity: Capacity
    var workers: map<string, Worker>
    var next: map<string, real>
    var cursor: nat
    var suspended: bool
    ghost var live: set<nat>
    ghost var launched: nat

    constructor (capacity: Capacity)
      ensures this.capacity == capacity && State() == EMPTY
    {
      this.capacity := capacity;
      workers, next, cursor, suspended := map[], map[], 0, false;
      live, launched := {}, 0;
    }

    ghost function State(): Sup
      reads this
    {
      Sup(workers, next, cursor, suspended, live, launched)
    }

    /** One row of the scheduling loop; `pid` is the process a launch would create. */
    method ConsiderRow(row: Row, now: real, answers: Answers, pid: nat) returns (started: bool)
      requires pid == launched
      modifies this
      ensures State() == Consider(capacity, old(State()), row, now, answers)
      ensures started == (launched == old(launched) + 1)
    {
      started := false;
      if !row.enabled || row.removed {
        next := next - {row.id};
        return;
      }
      if (row.id in next && now < next[row.id]) || row.id in workers {
        return;
      }
      var current := Schedulable(row, answers);
      if current.None? {
        return;
      }
      var r := current.value;
      var later := Later(capacity, r, now);
      if !answers.replayed(r.id) || suspended {
        next := next[r.id := later];
        return;
      }
      var busy := |OnThread(workers, r.thread)|;
      if busy >= capacity.perThread || |workers| >= capacity.workers {
        next := next[r.id := later];
        return;
      }
      if !answers.launches(r.id) {
        suspended := true;
        next := next[r.id := later];
        return;
      }
      workers := workers[r.id := Worker(r.thread, r.epoch, pid, now + capacity.timeout, false, false)];
      live, launched := live + {pid}, launched + 1;
      started := true;
    }

    /** The scheduling loop over rows in their turn; the result names the started watches. */
    method ConsiderRows(ordered: seq<Row>, now: real, answers: Answers, firstPid: nat) returns (scheduled: seq<string>)
      requires firstPid == launched
      modifies this
      ensures State() == ConsiderAll(capacity, old(State()), ordered, now, answers)
      ensures launched == old(launched) + |scheduled|
    {
      scheduled := [];
      ghost var from := State();
      for i := 0 to |ordered|
        invariant State() == ConsiderAll(capacity, from, ordered[..i], now, answers)
        invariant launched == firstPid + |scheduled|
      {
        ConsiderNext(capacity, from, ordered, i, now, answers);
        var started := ConsiderRow(ordered[i], now, answers, firstPid + |scheduled|);
        if started {
          scheduled := scheduled + [ordered[i].id];
        } else {
          NeverUnlaunched(capacity, ConsiderAll(capacity, from, ordered[..i], now, answers), ordered[i], now, answers);
        }
      }
      assert ordered[..|ordered|] == ordered;
    }

    /** `_schedule`, starting one row further each time. */
    method ScheduleRows(rows: seq<Row>, now: real, answers: Answers, firstPid: nat) returns (scheduled: seq<string>)
      requires firstPid == launched
      modifies this
      ensures State() == Schedule(capacity, old(State()), rows, now, answers)
      ensures launched == old(launched) + |scheduled|
    {
      if rows == [] {
        return [];
      }
      var start := cursor % |rows|;
      cursor := (start + 1) % |rows|;
      scheduled := ConsiderRows(rows[start..] + rows[..start], now, answers, firstPid);
    }

    /** `_cancel_worker`; `alive` is what `is_alive` says before. */
    method CancelWorker(id: string, dies: bool, alive: bool)
      requires id in workers && alive == (workers[id].process in live)
      modifies this`workers, this`live
      ensures State() == Cancel(old(State()), id, dies)
    {
      var w := workers[id];
      var gone := !alive;
      if !w.cancelled {
        workers := workers[id := w.(cancelled := true)];
        gone := gone || dies;
        live := if dies then live - {w.process} else live;
      }
      if gone {
        workers := workers - {id};
      }
    }

    /** One round of `_reap_workers`; the flag tells that a result is to be applied. */
    method ReapWorker(id: string, real_now: real, sight: Sighting, alive: bool) returns (report: bool)
      requires id in workers && alive == (workers[id].process in live)
      modifies this`workers, this`live, this`suspended
      ensures State() == Reap(old(State()), id, real_now, sight)
      ensures report ==> old(!workers[id].cancelled && !workers[id].reported) && sight.current
    {
      report := false;
      var w := workers[id];
      if w.cancelled || w.reported || !sight.current {
        CancelWorker(id, sight.dies, alive);
        return;
      }
      if alive && real_now < w.deadline {
        return;
      }
      report := true;
      if !alive {
        suspended := suspended || !sight.sane;
      }
      if !alive || sight.dies {
        live := live - {w.process};
        workers := workers - {id};
      } else {
        workers := workers[id := w.(reported := true)];
      }
    }
  }

  lemma NeverUnlaunched(c: Capacity, s: Sup, row: Row, now: real, answers: Answers)
    ensures s.launched <= Consider(c, s, row, now, answers).launched <= s.launched + 1
  {
  }

  lemma ConsiderNext(c: Capacity, s: Sup, rows: seq<Row>, i: nat, now: real, answers: Answers)
    requires i < |rows|
    ensures ConsiderAll(c, s, rows[..i + 1], now, answers)
         == Consider(c, ConsiderAll(c, s, rows[..i], now, answers), rows[i], now, answers)
  {
    assert Front(rows[..i + 1]) == rows[..i];
  }

  // ----- runs

  datatype Action =
    | Scheduling(rows: seq<Row>, now: real, answers: Answers)
    | Reaping(id: string, at: real, sight: Sighting)
    | Die(process: nat)

  const EMPTY := Sup(map[], map[], 0, false, {}, 0)

  function Step(c: Capacity, s: Sup, a: Action): Sup {
    match a
    case Scheduling(rows, now, answers) => Schedule(c, s, rows, now, answers)
    case Reaping(id, at, sight) => Reap(s, id, at, sight)
    case Die(p) => s.(live := s.live - {p})
  }

  function Run(c: Capacity, actions: seq<Action>): Sup {
    if actions == [] then EMPTY else Step(c, Run(c, Front(actions)), Last(actions))
  }

  /** Every live sampler is in the table, once; the table keeps its limits. */
  ghost predicate Bounded(c: Capacity, s: Sup) {
    && (forall p | p in s.live :: exists id :: id in s.workers && s.workers[id].process == p)
    && (forall id | id in s.workers :: s.workers[id].process < s.launched)
    && (forall id, other | id in s.workers && other in s.workers && s.workers[id].process == s.workers[other].process ::
          id == other)
    && |s.workers| <= c.workers
    && (forall thread :: |OnThread(s.workers, thread)| <= c.perThread)
  }

  lemma FewerBounded(c: Capacity, s: Sup, t: Sup)
    requires Bounded(c, s)
    requires t.workers.Keys <= s.workers.Keys && t.launched == s.launched && t.live <= s.live
    requires forall id | id in t.workers ::
      t.workers[id].thread == s.workers[id].thread && t.workers[id].process == s.workers[id].process
    requires forall id | id in s.workers && id !in t.workers :: s.workers[id].process !in t.live
    ensures Bounded(c, t)
  {
    SubsetSize(t.workers.Keys, s.workers.Keys);
    forall thread ensures |OnThread(t.workers, thread)| <= c.perThread {
      SubsetSize(OnThread(t.workers, thread), OnThread(s.workers, thread));
    }
    forall p | p in t.live ensures exists id :: id in t.workers && t.workers[id].process == p {
      var id :| id in s.workers && s.workers[id].process == p;
      assert id in t.workers;
    }
  }

  lemma {:induction false} SubsetSize<T>(small: set<T>, large: set<T>)
    requires small <= large
    ensures |small| <= |large|
  {
    if small != {} {
      var x :| x in small;
      SubsetSize(small - {x}, large - {x});
    }
  }

  lemma LaunchThreads(c: Capacity, s: Sup, row: Row, now: real, thread: string)
    requires row.id !in s.workers
    requires |OnThread(s.workers, thread)| <= c.perThread
    requires thread == row.thread ==> |OnThread(s.workers, thread)| < c.perThread
    ensures |OnThread(Launch(c, s, row, now).workers, thread)| <= c.perThread
  {
    var t := Launch(c, s, row, now);
    if thread == row.thread {
      assert OnThread(t.workers, thread) == OnThread(s.workers, thread) + {row.id};
    } else {
      assert OnThread(t.workers, thread) == OnThread(s.workers, thread);
    }
  }

  lemma LaunchOwned(c: Capacity, s: Sup, row: Row, now: real, p: nat)
    requires row.id !in s.workers && p in Launch(c, s, row, now).live
    requires p in s.live ==> exists id :: id in s.workers && s.workers[id].process == p
    ensures var t := Launch(c, s, row, now); exists id :: id in t.workers && t.workers[id].process == p
  {
    var t := Launch(c, s, row, now);
    if p in s.live {
      var id :| id in s.workers && s.workers[id].process == p;
      assert t.workers[id].process == p;
    } else {
      assert t.workers[row.id].process == p;
    }
  }

  lemma LaunchBounded(c: Capacity, s: Sup, row: Row, now: real)
    requires Bounded(c, s) && row.id !in s.workers
    requires |OnThread(s.workers, row.thread)| < c.perThread && |s.workers| < c.workers
    ensures Bounded(c, Launch(c, s, row, now))
  {
    var t := Launch(c, s, row, now);
    assert t.workers.Keys == s.workers.Keys + {row.id} && |t.workers| == |s.workers| + 1;
    forall thread ensures |OnThread(t.workers, thread)| <= c.perThread {
      LaunchThreads(c, s, row, now, thread);
    }
    forall p | p in t.live ensures exists id :: id in t.workers && t.workers[id].process == p {
      LaunchOwned(c, s, row, now, p);
    }
  }

  /** A round either launches one sampler, with room for it, or leaves the table alone. */
  lemma ConsiderEffect(c: Capacity, s: Sup, row: Row, now: real, answers: Answers)
    ensures var t := Consider(c, s, row, now, answers);
      if t.launched == s.launched then t.workers == s.workers && t.live == s.live
      else
        && Schedulable(row, answers).Some?
        && var r := Schedulable(row, answers).value;
          && r.id !in s.workers && |OnThread(s.workers, r.thread)| < c.perThread && |s.workers| < c.workers
          && t == Launch(c, s, r, now)
  {
    hide OnThread, Later;
  }

  lemma ConsiderBounded(c: Capacity, s: Sup, row: Row, now: real, answers: Answers)
    requires Bounded(c, s)
    ensures Bounded(c, Consider(c, s, row, now, answers))
  {
    ConsiderEffect(c, s, row, now, answers);
    var t := Consider(c, s, row, now, answers);
    if t.launched != s.launched {
      LaunchBounded(c, s, Schedulable(row, answers).value, now);
    }
  }

  lemma {:induction false} ConsiderAllBounded(c: Capacity, s: Sup, rows: seq<Row>, now: real, answers: Answers)
    requires Bounded(c, s)
    ensures Bounded(c, ConsiderAll(c, s, rows, now, answers))
  {
    if rows != [] {
      ConsiderAllBounded(c, s, Front(rows), now, answers);
      ConsiderBounded(c, ConsiderAll(c, s, Front(rows), now, answers), Last(rows), now, answers);
    }
  }

  lemma MarkBounded(c: Capacity, s: Sup, id: string, w: Worker)
    requires Bounded(c, s) && id in s.workers
    requires w.thread == s.workers[id].thread && w.process == s.workers[id].process
    ensures Bounded(c, SetWorker(s, id, w))
  {
    FewerBounded(c, s, SetWorker(s, id, w));
  }

  lemma RetireBounded(c: Capacity, s: Sup, id: string)
    requires Bounded(c, s) && id in s.workers
    ensures Bounded(c, Retire(s, id))
  {
    FewerBounded(c, s, Retire(s, id));
  }

  lemma TerminateBounded(c: Capacity, s: Sup, id: string, dies: bool)
    requires Bounded(c, s) && id in s.workers
    ensures Bounded(c, Terminate(s, id, dies))
  {
    FewerBounded(c, s, Terminate(s, id, dies));
  }

  lemma ReapBounded(c: Capacity, s: Sup, id: string, at: real, sight: Sighting)
    requires Bounded(c, s)
    ensures Bounded(c, Reap(s, id, at, sight))
  {
    hide Bounded;
    if id in s.workers {
      var w := s.workers[id];
      if w.cancelled {
        RetireBounded(c, s, id);
      } else if w.reported || !sight.current {
        MarkBounded(c, s, id, w.(cancelled := true));
        var marked := SetWorker(s, id, w.(cancelled := true));
        TerminateBounded(c, marked, id, sight.dies);
        RetireBounded(c, Terminate(marked, id, sight.dies), id);
      } else {
        MarkBounded(c, s, id, w.(reported := true));
        var marked := SetWorker(s, id, w.(reported := true));
        if w.process !in s.live {
          var judged := marked.(suspended := s.suspended || !sight.sane);
          FewerBounded(c, marked, judged);
          RetireBounded(c, judged, id);
        } else if at >= w.deadline {
          TerminateBounded(c, marked, id, sight.dies);
          RetireBounded(c, Terminate(marked, id, sight.dies), id);
        }
      }
    }
  }

  lemma BoundedStep(c: Capacity, s: Sup, a: Action)
    requires Bounded(c, s)
    ensures Bounded(c, Step(c, s, a))
  {
    match a {
      case Scheduling(rows, now, answers) =>
        if rows != [] {
          var turned := s.(cursor := (s.cursor % |rows| + 1) % |rows|);
          FewerBounded(c, s, turned);
          ConsiderAllBounded(c, turned, Rotated(rows, s.cursor), now, answers);
        }
      case Reaping(id, at, sight) => ReapBounded(c, s, id, at, sight);
      case Die(p) => FewerBounded(c, s, s.(live := s.live - {p}));
    }
  }

  /** The main result: in every reachable state the live samplers are all in the table, one a
      watch at most, within the overall and the per-thread limit. */
  lemma {:induction false} SamplersBounded(c: Capacity, actions: seq<Action>)
    ensures Bounded(c, Run(c, actions))
  {
    if actions == [] {
      assert forall thread :: OnThread(EMPTY.workers, thread) == {};
    } else {
      SamplersBounded(c, Front(actions));
      BoundedStep(c, Run(c, Front(actions)), Last(actions));
    }
  }

  lemma BoundedIsFew(c: Capacity, s: Sup)
    requires Bounded(c, s)
    ensures |s.live| <= c.workers
  {
    assert s.live <= Processes(s.workers);
    SubsetSize(s.live, Processes(s.workers));
    ProcessesSize(s.workers);
  }

  /** In numbers: however many processes were launched, or refuse to die, no more than the
      limit are alive. */
  lemma LiveAtMost(c: Capacity, actions: seq<Action>)
    ensures |Run(c, actions).live| <= c.workers
  {
    SamplersBounded(c, actions);
    BoundedIsFew(c, Run(c, actions));
  }

  function Processes(workers: map<string, Worker>): set<nat> {
    set id | id in workers :: workers[id].process
  }

  lemma {:induction false} ProcessesSize(workers: map<string, Worker>)
    ensures |Processes(workers)| <= |workers|
    decreases |workers|
  {
    if workers.Keys == {} {
      assert Processes(workers) == {};
    } else {
      var x :| x in workers;
      var rest := workers - {x};
      assert workers.Keys == rest.Keys + {x};
      ProcessesSize(rest);
      assert Processes(workers) == Processes(rest) + {workers[x].process};
    }
  }

  // ----- lifecycle epochs

  /** `_row_is_current`, for a worker started under this epoch. */
  predicate Current(epoch: nat, id: string, row: Option<Row>) {
    row.Some? && row.value.id == id && row.value.enabled && !row.value.removed && row.value.epoch == epoch
  }

  /** Epochs never come back: every step of the engine keeps a watch's epoch or raises it, and
      whatever switches the watch on, off or away raises it. */
  lemma EpochsOnlyRise(limits: Limits, s: Delivery.Sys, a: Delivery.Action, b: string)
    requires b in s.db.watches && s.db.Sound()
    ensures var t := Delivery.Step(limits, s, a);
      && b in t.db.watches
      && t.db.watches[b].epoch >= s.db.watches[b].epoch
      && (t.db.watches[b] != s.db.watches[b] ==> t.db.watches[b].epoch > s.db.watches[b].epoch)
  {
    hide Db.Ingest, Db.Claim, Delivery.DoSettle;
    match a {
      case Ingest(c, env, now) => IngestEffect(s.db, limits, c, env, now);
      case Claim(now, age) => ClaimEffect(s.db, limits, now, age);
      case Settle(outcome, now) => Delivery.SettleChanges(limits, s, outcome, now);
      case _ =>
    }
  }

  /** So a worker started before a pause is outdated for good. */
  lemma {:induction false} OutdatedForGood(limits: Limits, s: Delivery.Sys, actions: seq<Delivery.Action>, b: string,
                                           w: Worker)
    requires b in s.db.watches && Delivery.Consistent(s) && s.db.watches[b].epoch > w.epoch
    ensures var t := Delivery.RunFrom(limits, s, actions);
      Delivery.Consistent(t) && b in t.db.watches && t.db.watches[b].epoch > w.epoch
  {
    if actions != [] {
      OutdatedForGood(limits, s, Front(actions), b, w);
      var m := Delivery.RunFrom(limits, s, Front(actions));
      Delivery.ConsistentStep(limits, m, Last(actions));
      EpochsOnlyRise(limits, m, Last(actions), b);
    }
  }
}
