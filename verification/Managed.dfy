/** `_replay_pending` and `_observe_sample` of managed.py over the objects they use. What one
    call does, cut off after any number of durable writes, is proved to be a run of the watch's
    state machine, in which other transactions may come between the writes. */
module Managed {
  import opened Sequences
  import opened Envelopes
  import opened Inbox
  import opened Watch
  import opened Conditions
  import opened Chain

  /** `commit`; the flag tells that it went through. */
  function StoreCommit(mode: Mode, w: World, sample: Sample, fuel: nat): (World, bool, nat) {
    if !mode.Policed() then (w, true, fuel)
    else
      var (policy, r) := w.policy.Commit(sample);
      match r
      case Mismatch => (w.(fault := true), false, fuel)
      case NothingPending => (w, true, fuel)
      case Cleared => if fuel == 0 then (w, false, 0) else (w.(policy := policy), true, fuel - 1)
  }

  /** `_replay_pending`; the flag tells that sampling may go on. */
  function ReplayStored(mode: Mode, limits: Limits, b: string, w: World, now: real, fuel: nat): (World, bool, nat) {
    if !HasPending(w) then (w, true, fuel)
    else
      var current := w.store.checkpoint.value.pending.value.current;
      var (store, progress, left) := CheckStore(limits, b, w.store, current, 0, now, fuel);
      if !progress.Done? then (w.(store := store), false, left)
      else StoreCommit(mode, w.(store := store), current, left)
  }

  function Emitted(mode: Mode, limits: Limits, b: string, w: World, sample: Sample, uuid: nat, now: real,
                   fuel: nat): World {
    var (store, progress, left) := CheckStore(limits, b, w.store, sample, uuid, now, fuel);
    var cp := store.checkpoint;
    var baseline := if w.baseline.None? && cp.Some? then Some(cp.value.last) else w.baseline;
    var after := w.(store := store, baseline := baseline);
    if !progress.Done? then after else StoreCommit(mode, after, sample, left).0
  }

  /** The baseline the policy is asked with. */
  function LastOf(checkpoint: Option<Checkpoint>): Option<Sample> {
    if checkpoint.Some? then Some(checkpoint.value.last) else None
  }

  /** `_observe_sample` */
  function Observed(mode: Mode, limits: Limits, b: string, w: World, sample: Sample, uuid: nat, epoch: nat,
                    now: real, clock: real, trouble: Trouble, fuel: nat): World {
    if !mode.Policed() then Emitted(mode, limits, b, w, sample, uuid, now, fuel)
    else
      var last := LastOf(w.store.checkpoint);
      var (policy, answer) := w.policy.Select(mode.seconds, sample, last, epoch, clock, trouble);
      var selected := w.(policy := policy);
      match answer
      case MissingBaseline => selected.(fault := true)
      case Chosen(chosen) => Emitted(mode, limits, b, selected, chosen, uuid, now, fuel)
      case _ => selected
  }

  class ManagedWatch {
    const mode: Mode
    const watcher: ChangeWatcher
    const policy: ConditionDebouncer

    constructor (mode: Mode, watcher: ChangeWatcher, policy: ConditionDebouncer)
      requires policy.seconds == mode.seconds
      ensures Configured()
      ensures this.mode == mode && this.watcher == watcher && this.policy == policy
    {
      this.mode, this.watcher, this.policy := mode, watcher, policy;
    }

    predicate Configured() {
      policy.seconds == mode.seconds
    }

    /** The stores as the state machine sees them; the baseline is history, not state. */
    ghost function Snapshot(baseline: Option<Sample>): World
      reads watcher, watcher.monitor, policy
    {
      World(watcher.Durable(), policy.State(), baseline, false)
    }

    /** `commit` when the watch is policed; `fault` is the mismatch error. */
    method Commit(sample: Sample, fuel: nat, ghost baseline: Option<Sample>) returns (ok: bool, left: nat, fault: bool)
      modifies policy
      ensures watcher.Durable() == old(watcher.Durable())
      ensures (Snapshot(baseline).(fault := fault), ok, left)
           == StoreCommit(mode, old(Snapshot(baseline)), sample, fuel)
    {
      ok, left, fault := true, fuel, false;
      if mode.Policed() && policy.candidate.Some? {
        if policy.candidate.value.sample == sample {
          if fuel == 0 {
            return false, 0, false;
          }
          left := fuel - 1;
        }
        var r := policy.Commit(sample);
        fault := r.Mismatch?;
        ok := !fault;
      }
    }

    method ReplayPending(now: real, fuel: nat, ghost baseline: Option<Sample>)
      returns (ok: bool, left: nat, fault: bool)
      modifies watcher`checkpoint, watcher.monitor`events, policy
      ensures (Snapshot(baseline).(fault := fault), ok, left)
           == ReplayStored(mode, watcher.monitor.limits, watcher.binding, old(Snapshot(baseline)), now, fuel)
    {
      var checkpoint := watcher.checkpoint;
      if checkpoint.None? || checkpoint.value.pending.None? {
        return true, fuel, false;
      }
      var pending := checkpoint.value.pending.value.current;
      var progress;
      progress, left := watcher.Check(pending, 0, now, fuel);
      if !progress.Done? {
        return false, left, false;
      }
      ok, left, fault := Commit(pending, left, baseline);
    }

    /** `check` on the chosen sample, then `commit`. */
    method EmitSelected(sample: Sample, uuid: nat, now: real, fuel: nat, ghost baseline: Option<Sample>)
      returns (fault: bool, ghost silent: Option<Sample>)
      modifies watcher`checkpoint, watcher.monitor`events, policy
      ensures Snapshot(silent).(fault := fault)
           == Emitted(mode, watcher.monitor.limits, watcher.binding, old(Snapshot(baseline)), sample, uuid, now, fuel)
    {
      fault := false;
      var progress, left := watcher.Check(sample, uuid, now, fuel);
      silent := if baseline.None? && watcher.checkpoint.Some? then Some(watcher.checkpoint.value.last) else baseline;
      if progress.Done? {
        var ok, rest;
        ok, rest, fault := Commit(sample, left, silent);
      }
    }

    /** `select` on a policed watch; any sample passes on another. */
    method SelectSample(sample: Sample, epoch: nat, clock: real, trouble: Trouble) returns (answer: Answer)
      requires Configured()
      modifies policy
      ensures (policy.State(), answer) ==
        if mode.Policed() then
          old(policy.State()).Select(mode.seconds, sample, LastOf(watcher.checkpoint), epoch, clock, trouble)
        else (old(policy.State()), Chosen(sample))
    {
      answer := Chosen(sample);
      if mode.Policed() {
        answer := policy.Select(sample, LastOf(watcher.checkpoint), epoch, clock, trouble);
      }
    }

    method ObserveSample(sample: Sample, uuid: nat, epoch: nat, now: real, clock: real, trouble: Trouble, fuel: nat,
                         ghost baseline: Option<Sample>)
      returns (fault: bool, ghost silent: Option<Sample>)
      requires Configured()
      modifies watcher`checkpoint, watcher.monitor`events, policy
      ensures Snapshot(silent).(fault := fault)
           == Observed(mode, watcher.monitor.limits, watcher.binding, old(Snapshot(baseline)),
                       sample, uuid, epoch, now, clock, trouble, fuel)
    {
      var answer := SelectSample(sample, epoch, clock, trouble);
      fault, silent := answer.MissingBaseline?, baseline;
      if answer.Chosen? {
        fault, silent := EmitSelected(answer.sample, uuid, now, fuel, baseline);
      }
    }
  }

  // ----- the calls are runs of the machine

  /** The supervisor's own steps lead from one state to the other. */
  ghost predicate Reaches(mode: Mode, limits: Limits, b: string, m: Machine, t: Machine) {
    exists actions: seq<Chain.Action> ::
      (forall i | 0 <= i < |actions| :: !actions[i].Others?) && Chain.RunFrom(mode, limits, b, m, actions) == t
  }

  lemma Here(mode: Mode, limits: Limits, b: string, m: Machine)
    ensures Reaches(mode, limits, b, m, m)
  {
    assert Chain.RunFrom(mode, limits, b, m, []) == m;
  }

  lemma Further(mode: Mode, limits: Limits, b: string, m: Machine, t: Machine, a: Chain.Action)
    requires Reaches(mode, limits, b, m, t) && !a.Others?
    ensures Reaches(mode, limits, b, m, Chain.Step(mode, limits, b, t, a))
  {
    var actions: seq<Chain.Action> :|
      (forall i | 0 <= i < |actions| :: !actions[i].Others?) && Chain.RunFrom(mode, limits, b, m, actions) == t;
    assert Front(actions + [a]) == actions;
    assert Chain.RunFrom(mode, limits, b, m, actions + [a]) == Chain.Step(mode, limits, b, t, a);
  }

  lemma Halted(mode: Mode, limits: Limits, b: string, m: Machine, t: Machine)
    requires Reaches(mode, limits, b, m, t)
    ensures Reaches(mode, limits, b, m, Machine(t.world, Rest))
  {
    Further(mode, limits, b, m, t, Halt(false));
  }

  lemma Moving(mode: Mode, limits: Limits, b: string, m: Machine, t: Machine, now: real, uuid: nat, clock: real,
               trouble: Trouble)
    requires Reaches(mode, limits, b, m, t)
    ensures Reaches(mode, limits, b, m, Moved(mode, limits, b, t, now, uuid, clock, trouble))
  {
    Further(mode, limits, b, m, t, Move(now, uuid, clock, trouble));
  }

  lemma CommitReached(mode: Mode, limits: Limits, b: string, m: Machine, w: World, sample: Sample, replaying: bool,
                      fuel: nat)
    requires Reaches(mode, limits, b, m, Machine(w, Committing(sample, replaying)))
    ensures var (v, ok, _) := StoreCommit(mode, w, sample, fuel);
      Reaches(mode, limits, b, m, Machine(v, if ok && replaying then Replayed else Rest))
  {
    Moving(mode, limits, b, m, Machine(w, Committing(sample, replaying)), 0.0, 0, 0.0, Fine);
    Halted(mode, limits, b, m, Machine(w, Committing(sample, replaying)));
  }

  /** Emitting and forgetting a stored event, as far as the fuel goes. */
  lemma FlushReached(mode: Mode, limits: Limits, b: string, m: Machine, w: World, errand: Errand, now: real, fuel: nat)
    requires HasPending(w) && !errand.Recheck? && Reaches(mode, limits, b, m, Machine(w, Emitting(errand)))
    ensures var (store, progress, _) := Flush(limits, b, w.store, now, fuel);
      Reaches(mode, limits, b, m, Machine(w.(store := store),
        if progress.Done? then Committing(w.store.checkpoint.value.pending.value.current, errand.Replay?) else Rest))
  {
    var start := Machine(w, Emitting(errand));
    Halted(mode, limits, b, m, start);
    Moving(mode, limits, b, m, start, now, 0, 0.0, Fine);
    var emitted := Moved(mode, limits, b, start, now, 0, 0.0, Fine);
    Halted(mode, limits, b, m, emitted);
    Moving(mode, limits, b, m, emitted, now, 0, 0.0, Fine);
  }

  /** The main result: a replay, however far it gets, is a run of the machine. */
  lemma ReplayIsRun(mode: Mode, limits: Limits, b: string, w: World, now: real, fuel: nat)
    ensures var (v, ok, _) := ReplayStored(mode, limits, b, w, now, fuel);
      Reaches(mode, limits, b, Machine(w, Rest), Machine(v, if ok then Replayed else Rest))
  {
    hide Reaches;
    var m := Machine(w, Rest);
    Here(mode, limits, b, m);
    Further(mode, limits, b, m, m, BeginReplay);
    if HasPending(w) {
      var current := w.store.checkpoint.value.pending.value.current;
      FlushReached(mode, limits, b, m, w, Errand.Replay, now, fuel);
      var (store, progress, left) := Flush(limits, b, w.store, now, fuel);
      if progress.Done? {
        CommitReached(mode, limits, b, m, w.(store := store), current, true, left);
      }
    }
  }

  /** The two easy cases of a check: a first sample, and no change. */
  lemma CheckedReached(mode: Mode, limits: Limits, b: string, m: Machine, w: World, sample: Sample, uuid: nat,
                       now: real, fuel: nat)
    requires Reaches(mode, limits, b, m, Machine(w, Checking(sample)))
    requires !HasPending(w) && w.baseline.None? == w.store.checkpoint.None?
    requires w.store.checkpoint.None? || w.store.checkpoint.value.last == sample
    ensures Reaches(mode, limits, b, m, Machine(Emitted(mode, limits, b, w, sample, uuid, now, fuel), Rest))
  {
    var start := Machine(w, Checking(sample));
    Halted(mode, limits, b, m, start);
    Moving(mode, limits, b, m, start, now, uuid, 0.0, Fine);
    var checked := Check(b, start, uuid);
    var (store, progress, left) := CheckStore(limits, b, w.store, sample, uuid, now, fuel);
    if progress.Done? {
      assert checked == Machine(checked.world, Committing(sample, false));
      CommitReached(mode, limits, b, m, checked.world, sample, false, left);
    }
  }

  /** A change is stored first. */
  lemma ArmedReached(mode: Mode, limits: Limits, b: string, m: Machine, w: World, sample: Sample, uuid: nat,
                     now: real, fuel: nat)
    requires Reaches(mode, limits, b, m, Machine(w, Checking(sample)))
    requires !HasPending(w) && FreshChange(w, b, uuid) && w.baseline.Some?
    requires w.store.checkpoint.Some? && w.store.checkpoint.value.last != sample
    ensures Reaches(mode, limits, b, m, Machine(Emitted(mode, limits, b, w, sample, uuid, now, fuel), Rest))
  {
    hide Reaches;
    var start := Machine(w, Checking(sample));
    Halted(mode, limits, b, m, start);
    Moving(mode, limits, b, m, start, now, uuid, 0.0, Fine);
    var checked := Check(b, start, uuid);
    if fuel > 0 {
      FlushReached(mode, limits, b, m, checked.world, Fresh, now, fuel - 1);
      var (store, progress, left) := Flush(limits, b, checked.world.store, now, fuel - 1);
      var after := checked.world.(store := store);
      assert after == w.(store := store);
      if progress.Done? {
        CommitReached(mode, limits, b, m, after, sample, false, left);
      }
    }
  }

  lemma EmittedReached(mode: Mode, limits: Limits, b: string, m: Machine, w: World, sample: Sample, uuid: nat,
                       now: real, fuel: nat)
    requires Reaches(mode, limits, b, m, Machine(w, Checking(sample)))
    requires !HasPending(w) && FreshChange(w, b, uuid) && w.baseline.None? == w.store.checkpoint.None?
    ensures Reaches(mode, limits, b, m, Machine(Emitted(mode, limits, b, w, sample, uuid, now, fuel), Rest))
  {
    if w.store.checkpoint.None? || w.store.checkpoint.value.last == sample {
      CheckedReached(mode, limits, b, m, w, sample, uuid, now, fuel);
    } else {
      ArmedReached(mode, limits, b, m, w, sample, uuid, now, fuel);
    }
  }

  /** And so is an observation after it, with an identifier not used before. */
  lemma ObservationIsRun(mode: Mode, limits: Limits, b: string, w: World, sample: Sample, uuid: nat, epoch: nat,
                         now: real, clock: real, trouble: Trouble, fuel: nat)
    requires !HasPending(w) && FreshChange(w, b, uuid) && w.baseline.None? == w.store.checkpoint.None?
    requires sample.Condition? == mode.verdicts
    ensures Reaches(mode, limits, b, Machine(w, Replayed),
                    Machine(Observed(mode, limits, b, w, sample, uuid, epoch, now, clock, trouble, fuel), Rest))
  {
    hide Reaches;
    var m := Machine(w, Replayed);
    Here(mode, limits, b, m);
    Further(mode, limits, b, m, m, Chain.Observe(sample, epoch));
    var selecting := Machine(w, Selecting(sample, epoch));
    Moving(mode, limits, b, m, selecting, now, uuid, clock, trouble);
    var selected := Moved(mode, limits, b, selecting, now, uuid, clock, trouble);
    if selected.at.Checking? {
      EmittedReached(mode, limits, b, m, selected.world, selected.at.sample, uuid, now, fuel);
    }
  }
}
