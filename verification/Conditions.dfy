/** The durable debounce policy of conditions.py, and what its answer is worth: a stable
    window of observations made by one running instance in one pause epoch. */
module Conditions {
  import opened Sequences
  import opened Envelopes

  datatype Candidate = Candidate(sample: Sample, firstSeen: real, lastSeen: real, epoch: nat)

  datatype Answer =
    | Chosen(sample: Sample)
    | Waiting
    | MissingBaseline     // a candidate is stored but the caller has no baseline
    | Unreadable          // reading the checkpoint raised
    | ClockFailed         // reading the clock raised
    | SaveFailed          // writing the checkpoint raised

  /** What goes wrong in one `select`, should it be needed. */
  datatype Trouble = Fine | NoRead | NoClock | NoWrite

  datatype CommitResult = Cleared | NothingPending | Mismatch

  /** The checkpoint file and the instance's only volatile field. A file that exists may hold
      no candidate. */
  datatype Policy = Policy(candidate: Option<Candidate>, observing: bool, written: bool) {

    predicate Exists() {
      written || candidate.Some?
    }

    /** Write the checkpoint and answer; a failed write leaves the stored candidate. */
    function Saving(next: Option<Candidate>, trouble: Trouble, answer: Answer): (Policy, Answer) {
      if trouble.NoWrite? then (this.(observing := true), SaveFailed) else (Policy(next, true, true), answer)
    }

    function Select(seconds: real, sample: Sample, baseline: Option<Sample>, epoch: nat, now: real, trouble: Trouble)
      : (Policy, Answer)
    {
      if trouble.NoRead? && Exists() then (this, Unreadable)
      else if baseline.None? then
        if candidate.Some? then (this, MissingBaseline)
        else if !written && trouble.NoWrite? then (this, SaveFailed)
        else (Policy(None, true, true), Chosen(sample))
      else if sample == baseline.value then
        if candidate.Some? then Saving(None, trouble, Waiting) else (this.(observing := true), Waiting)
      else if trouble.NoClock? then (this.(observing := true), ClockFailed)
      else
        var atOnce := if seconds == 0.0 then Chosen(sample) else Waiting;
        if candidate.None? || candidate.value.sample != sample then
          Saving(Some(Candidate(sample, now, now, epoch)), trouble, atOnce)
        else
          var c := candidate.value;
          if !observing || c.epoch != epoch || now < c.lastSeen then
            Saving(Some(Candidate(sample, now, now, epoch)), trouble, atOnce)
          else
            var answer := if now - c.firstSeen >= seconds then Chosen(sample) else Waiting;
            if now != c.lastSeen then Saving(Some(c.(lastSeen := now)), trouble, answer)
            else (this.(observing := true), answer)
    }

    function Commit(sample: Sample): (Policy, CommitResult) {
      if candidate.None? then (this, NothingPending)
      else if candidate.value.sample != sample then (this, Mismatch)
      else (this.(candidate := None), Cleared)
    }
  }

  class ConditionDebouncer {
    const seconds: real
    var candidate: Option<Candidate>    // the checkpoint file
    var written: bool                   // and whether there is one
    var observing: bool

    constructor (stored: Option<Candidate>, written: bool, seconds: real)
      ensures this.seconds == seconds && State() == Policy(stored, false, written)
    {
      this.seconds := seconds;
      candidate, observing, this.written := stored, false, written;
    }

    function State(): Policy
      reads this
    {
      Policy(candidate, observing, written)
    }

    /** Replace the checkpoint file. */
    method Save(next: Option<Candidate>, trouble: Trouble) returns (ok: bool)
      modifies this`candidate, this`written
      ensures ok == !trouble.NoWrite?
      ensures State() == if ok then old(State()).(candidate := next, written := true) else old(State())
    {
      ok := !trouble.NoWrite?;
      if ok {
        candidate, written := next, true;
      }
    }

    method Select(sample: Sample, baseline: Option<Sample>, epoch: nat, now: real, trouble: Trouble) returns (r: Answer)
      modifies this
      ensures (State(), r) == old(State()).Select(seconds, sample, baseline, epoch, now, trouble)
    {
      if trouble.NoRead? && (written || candidate.Some?) {
        return Unreadable;
      }
      var ok := true;
      if baseline.None? {
        if candidate.Some? {
          return MissingBaseline;
        }
        if !written {
          ok := Save(None, trouble);
          if !ok {
            return SaveFailed;
          }
        }
        observing := true;
        return Chosen(sample);
      }
      var firstObservation := !observing;
      observing := true;
      if sample == baseline.value {
        if candidate.Some? {
          ok := Save(None, trouble);
        }
        return if ok then Waiting else SaveFailed;
      }
      if trouble.NoClock? {
        return ClockFailed;
      }
      r := if seconds == 0.0 then Chosen(sample) else Waiting;
      if candidate.None? || candidate.value.sample != sample {
        ok := Save(Some(Candidate(sample, now, now, epoch)), trouble);
        return if ok then r else SaveFailed;
      }
      var c := candidate.value;
      if firstObservation || c.epoch != epoch || now < c.lastSeen {
        ok := Save(Some(c.(firstSeen := now, lastSeen := now, epoch := epoch)), trouble);
        return if ok then r else SaveFailed;
      }
      if now != c.lastSeen {
        ok := Save(Some(c.(lastSeen := now)), trouble);
        if !ok {
          return SaveFailed;
        }
      }
      r := if now - c.firstSeen >= seconds then Chosen(sample) else Waiting;
    }

    method Commit(sample: Sample) returns (r: CommitResult)
      modifies this`candidate
      ensures (State(), r) == old(State()).Commit(sample)
    {
      if candidate.None? {
        return NothingPending;
      }
      if candidate.value.sample != sample {
        return Mismatch;
      }
      candidate := None;
      r := Cleared;
    }

    method Reset() returns (dropped: bool)
      modifies this`candidate
      ensures candidate == None && dropped == old(candidate).Some?
    {
      dropped := candidate.Some?;
      candidate := None;
    }
  }

  // ----- runs of one instance

  datatype Observation = Observation(sample: Sample, baseline: Option<Sample>, epoch: nat, now: real, trouble: Trouble)

  datatype Op = Observe(o: Observation) | CommitOp(committed: Sample) | ResetOp

  /** How a `select` ended for its caller: with an answer, with an error before it took notice
      of the sample, or with an error after. */
  datatype Ending = Answered | Refused | Lost

  function EndingOf(r: Answer): Ending {
    match r
    case Chosen(_) => Answered
    case Waiting => Answered
    case MissingBaseline => Refused
    case Unreadable => Refused
    case ClockFailed => Lost
    case SaveFailed => Lost
  }

  /** An instance with everything it was shown, and how each `select` ended. */
  datatype Instance = Instance(policy: Policy, seen: seq<Observation>, endings: seq<Ending>)

  function Answering(seconds: real, x: Instance, o: Observation): (Policy, Answer) {
    x.policy.Select(seconds, o.sample, o.baseline, o.epoch, o.now, o.trouble)
  }

  function Apply(seconds: real, x: Instance, op: Op): Instance {
    match op
    case Observe(o) =>
      var (p, r) := Answering(seconds, x, o);
      Instance(p, x.seen + [o], x.endings + [EndingOf(r)])
    case CommitOp(sample) => x.(policy := x.policy.Commit(sample).0)
    case ResetOp => x.(policy := x.policy.(candidate := None))
  }

  function RunFrom(seconds: real, x: Instance, ops: seq<Op>): Instance {
    if ops == [] then x else Apply(seconds, RunFrom(seconds, x, Front(ops)), Last(ops))
  }

  /** A new instance over whatever an earlier one left in the file. */
  function Run(seconds: real, start: Policy, ops: seq<Op>): Instance {
    RunFrom(seconds, Instance(start, [], []), ops)
  }

  /** No `select` raised an error, but for refusals before the first that did not. */
  predicate Tidy(endings: seq<Ending>) {
    forall i | 0 <= i < |endings| ::
      endings[i].Answered? || (endings[i].Refused? && forall j | 0 <= j < i :: endings[j].Refused?)
  }

  predicate Sighting(o: Observation, c: Candidate) {
    o.sample == c.sample && o.epoch == c.epoch && o.baseline.Some? && o.baseline.value != o.sample
  }

  /** From position `from` on, everything shown was this sample in this epoch, against a
      different baseline, with the clock never going back; the window spans c's times. */
  ghost predicate Window(seen: seq<Observation>, from: nat, c: Candidate) {
    && from < |seen|
    && (forall i | from <= i < |seen| :: Sighting(seen[i], c))
    && seen[from].now == c.firstSeen && Last(seen).now == c.lastSeen
    && (forall i, j | from <= i < j < |seen| :: seen[i].now <= seen[j].now)
  }

  ghost predicate Anchored(x: Instance) {
    && |x.endings| == |x.seen|
    && ((forall i | 0 <= i < |x.endings| :: x.endings[i].Refused?) ==> !x.policy.observing)
    && (Tidy(x.endings) && x.policy.observing && x.policy.candidate.Some? ==>
          exists from :: Window(x.seen, from, x.policy.candidate.value))
  }

  /** A stored candidate is either anchored by the observation just made, or carried on from
      before by one that continues its window. */
  lemma AnchoredOrCarried(seconds: real, x: Instance, o: Observation)
    requires var (p, r) := Answering(seconds, x, o); p.candidate.Some? && EndingOf(r).Answered?
    ensures var c := Answering(seconds, x, o).0.candidate.value;
      && Sighting(o, c)
      && c.lastSeen == o.now
      && (c.firstSeen == o.now ||
          (x.policy.observing && x.policy.candidate.Some?
           && x.policy.candidate.value.(lastSeen := o.now) == c && o.now >= x.policy.candidate.value.lastSeen))
  {
  }

  lemma WindowGrows(seen: seq<Observation>, from: nat, c: Candidate, o: Observation)
    requires Window(seen, from, c) && Sighting(o, c) && o.now >= c.lastSeen
    ensures Window(seen + [o], from, c.(lastSeen := o.now))
  {
    var longer := seen + [o];
    forall i, j | from <= i < j < |longer| ensures longer[i].now <= longer[j].now {
      assert i < |seen| && longer[i].now <= c.lastSeen by {
        if i < |seen| - 1 {
          assert seen[i].now <= seen[|seen| - 1].now;
        }
      }
    }
  }

  lemma TidyBefore(endings: seq<Ending>, e: Ending)
    requires Tidy(endings + [e])
    ensures Tidy(endings)
    ensures !e.Lost? && (e.Refused? ==> forall i | 0 <= i < |endings| :: endings[i].Refused?)
  {
    var longer := endings + [e];
    assert forall i | 0 <= i < |endings| :: longer[i] == endings[i];
    assert longer[|endings|] == e;
  }

  lemma AnchoredObservation(seconds: real, x: Instance, o: Observation)
    requires Anchored(x)
    ensures Anchored(Apply(seconds, x, Observe(o)))
  {
    var (p, r) := Answering(seconds, x, o);
    var t, e := Apply(seconds, x, Observe(o)), EndingOf(r);
    assert t.endings[|x.endings|] == e && forall i | 0 <= i < |x.endings| :: t.endings[i] == x.endings[i];
    if Tidy(t.endings) {
      TidyBefore(x.endings, e);
      if e.Answered? && p.candidate.Some? {
        AnchoredOrCarried(seconds, x, o);
        var c := p.candidate.value;
        if c.firstSeen == o.now {
          assert Window(x.seen + [o], |x.seen|, c);
        } else {
          var from :| Window(x.seen, from, x.policy.candidate.value);
          WindowGrows(x.seen, from, x.policy.candidate.value, o);
        }
      }
    }
  }

  lemma {:induction false} AnchoredRun(seconds: real, start: Policy, ops: seq<Op>)
    requires !start.observing
    ensures Anchored(Run(seconds, start, ops))
  {
    if ops != [] {
      AnchoredRun(seconds, start, Front(ops));
      if Last(ops).Observe? {
        AnchoredObservation(seconds, Run(seconds, start, Front(ops)), Last(ops).o);
      }
    }
  }

  /** At the end stands a run of observations of nothing else, by this instance, in this epoch,
      over a clock that never went back, spanning at least the window. */
  ghost predicate Stable(seconds: real, seen: seq<Observation>, o: Observation) {
    exists from: nat, c: Candidate ::
      && Window(seen + [o], from, c)
      && c.sample == o.sample && c.epoch == o.epoch && c.lastSeen == o.now
      && c.lastSeen - c.firstSeen >= seconds
  }

  /** A sample chosen against a baseline by an anchored instance is stable. */
  lemma ChosenAnchored(seconds: real, x: Instance, o: Observation)
    requires seconds > 0.0 && o.baseline.Some? && Anchored(x) && Tidy(x.endings)
    requires Answering(seconds, x, o).1.Chosen?
    ensures Stable(seconds, x.seen, o)
  {
    AnchoredObservation(seconds, x, o);
    AnchoredOrCarried(seconds, x, o);
    TidyAfter(x.endings);
    var c := Answering(seconds, x, o).0.candidate.value;
    var from :| Window(x.seen + [o], from, c);
  }

  /** The main result: with a positive window, a changed sample is chosen only when it is
      stable -- as long as no `select` of this instance raised an error once one had not. */
  lemma ChosenIsStable(seconds: real, start: Policy, ops: seq<Op>, o: Observation)
    requires seconds > 0.0 && !start.observing && o.baseline.Some?
    requires var x := Run(seconds, start, ops); Tidy(x.endings) && Answering(seconds, x, o).1.Chosen?
    ensures Stable(seconds, Run(seconds, start, ops).seen, o)
  {
    AnchoredRun(seconds, start, ops);
    ChosenAnchored(seconds, Run(seconds, start, ops), o);
  }

  lemma TidyAfter(endings: seq<Ending>)
    requires Tidy(endings)
    ensures Tidy(endings + [Answered])
  {
    var longer := endings + [Answered];
    forall i | 0 <= i < |longer|
      ensures longer[i].Answered? || (longer[i].Refused? && forall j | 0 <= j < i :: longer[j].Refused?)
    {
      if i < |endings| {
        assert longer[i] == endings[i];
      }
    }
  }

  // ----- the condition is exact

  /** Over every history whose calls of `select` ended like this, whatever is chosen next is
      stable. */
  ghost predicate Reliable(seconds: real, endings: seq<Ending>) {
    forall start: Policy, ops: seq<Op>, o: Observation |
      !start.observing && Run(seconds, start, ops).endings == endings
      && o.baseline.Some? && Answering(seconds, Run(seconds, start, ops), o).1.Chosen? ::
      Stable(seconds, Run(seconds, start, ops).seen, o)
  }

  const BASE := File(false, "")
  const FIRST := File(true, "1")
  const OTHER := File(true, "2")

  /** A history in which the file shows FIRST, but OTHER wherever an error is raised. */
  function Glance(seconds: real, endings: seq<Ending>, failed: nat, n: nat): Observation
    requires n < |endings|
  {
    var at := if n < failed then 0.0 else if n == failed then 2.0 * seconds else 3.0 * seconds;
    match endings[n]
    case Answered => Observation(FIRST, Some(BASE), 0, at, Fine)
    case Refused => Observation(OTHER, None, 0, at, Fine)
    case Lost => Observation(OTHER, Some(BASE), 0, at, NoWrite)
  }

  function Glances(seconds: real, endings: seq<Ending>, failed: nat, n: nat): seq<Op>
    requires n <= |endings|
  {
    if n == 0 then [] else Glances(seconds, endings, failed, n - 1) + [Observe(Glance(seconds, endings, failed, n - 1))]
  }

  const STORED := Policy(Some(Candidate(FIRST, 0.0, 0.0, 0)), false, true)

  /** The stored candidate keeps the time it was first seen. */
  predicate Keeps(p: Policy, latest: real) {
    && p.candidate.Some?
    && p.candidate.value == Candidate(FIRST, 0.0, p.candidate.value.lastSeen, 0)
    && p.candidate.value.lastSeen <= latest
  }

  /** FIRST is seen again, by a running instance or at the time it was stored. */
  lemma SeenAgain(seconds: real, p: Policy, now: real)
    requires seconds > 0.0 && Keeps(p, now) && (p.observing || now == 0.0)
    ensures var (q, r) := p.Select(seconds, FIRST, Some(BASE), 0, now, Fine);
      Keeps(q, now) && q.observing && EndingOf(r).Answered?
  {
  }

  /** OTHER is seen, but not written down, or not at all. */
  lemma SeenInVain(seconds: real, p: Policy, now: real)
    requires seconds > 0.0 && Keeps(p, now)
    ensures var (q, r) := p.Select(seconds, OTHER, Some(BASE), 0, now, NoWrite);
      Keeps(q, now) && q.observing && EndingOf(r).Lost?
    ensures p.Select(seconds, OTHER, None, 0, now, Fine) == (p, MissingBaseline)
  {
  }

  /** A `select` that raised after one that did not refuse, or raised too late to refuse. */
  predicate Fails(endings: seq<Ending>, failed: nat) {
    failed < |endings| && (endings[failed].Lost? || (endings[failed].Refused? && Noticed(endings, failed)))
  }

  predicate Noticed(endings: seq<Ending>, n: nat)
    requires n <= |endings|
  {
    exists i | 0 <= i < n :: !endings[i].Refused?
  }

  lemma GlanceKeeps(seconds: real, x: Instance, endings: seq<Ending>, failed: nat, n: nat)
    requires seconds > 0.0 && Fails(endings, failed) && n < |endings|
    requires Keeps(x.policy, Glance(seconds, endings, failed, n).now)
    requires x.policy.observing <==> Noticed(endings, n)
    ensures var o := Glance(seconds, endings, failed, n);
      var t := Apply(seconds, x, Observe(o));
      && Keeps(t.policy, o.now) && t.endings == x.endings + [endings[n]] && t.seen == x.seen + [o]
      && (t.policy.observing <==> Noticed(endings, n + 1))
  {
    var o := Glance(seconds, endings, failed, n);
    assert Noticed(endings, n + 1) <==> Noticed(endings, n) || !endings[n].Refused?;
    match endings[n] {
      case Answered =>
        assert n > failed ==> Noticed(endings, n) by {
          if n > failed && endings[failed].Lost? {
            assert !endings[failed].Refused?;
          }
        }
        SeenAgain(seconds, x.policy, o.now);
      case _ => SeenInVain(seconds, x.policy, o.now);
    }
  }

  /** The instance after the first n glances. */
  ghost predicate Glanced(seconds: real, endings: seq<Ending>, failed: nat, n: nat, x: Instance)
    requires n <= |endings|
  {
    && Keeps(x.policy, if n == 0 then 0.0 else Glance(seconds, endings, failed, n - 1).now)
    && (x.policy.observing <==> Noticed(endings, n))
    && x.endings == endings[..n]
    && |x.seen| == n && (forall i | 0 <= i < n :: x.seen[i] == Glance(seconds, endings, failed, i))
  }

  lemma GlancedNext(seconds: real, endings: seq<Ending>, failed: nat, n: nat, x: Instance)
    requires seconds > 0.0 && Fails(endings, failed) && n < |endings| && Glanced(seconds, endings, failed, n, x)
    ensures Glanced(seconds, endings, failed, n + 1, Apply(seconds, x, Observe(Glance(seconds, endings, failed, n))))
  {
    GlanceKeeps(seconds, x, endings, failed, n);
    assert endings[..n + 1] == endings[..n] + [endings[n]];
  }

  lemma {:induction false} GlancesKeep(seconds: real, endings: seq<Ending>, failed: nat, n: nat)
    requires seconds > 0.0 && Fails(endings, failed) && n <= |endings|
    ensures Glanced(seconds, endings, failed, n, Run(seconds, STORED, Glances(seconds, endings, failed, n)))
  {
    if n > 0 {
      GlancesKeep(seconds, endings, failed, n - 1);
      var ops, o := Glances(seconds, endings, failed, n), Glance(seconds, endings, failed, n - 1);
      assert Front(ops) == Glances(seconds, endings, failed, n - 1) && Last(ops) == Observe(o);
      GlancedNext(seconds, endings, failed, n - 1, Run(seconds, STORED, Front(ops)));
    }
  }

  lemma WindowAfter(seen: seq<Observation>, from: nat, c: Candidate, other: nat)
    requires Window(seen, from, c) && other < |seen| && seen[other].sample != c.sample
    ensures from > other
  {
    assert from <= other ==> Sighting(seen[other], c);
  }

  lemma NotStable(seconds: real, seen: seq<Observation>, other: nat, o: Observation)
    requires seconds > 0.0 && other < |seen| && seen[other].sample != o.sample
    requires forall i | other < i < |seen| :: o.now - seen[i].now < seconds
    ensures !Stable(seconds, seen, o)
  {
    var all := seen + [o];
    forall from: nat, c: Candidate | Window(all, from, c) && c.sample == o.sample && c.lastSeen == o.now
      ensures c.lastSeen - c.firstSeen < seconds
    {
      WindowAfter(all, from, c, other);
      assert c.firstSeen == all[from].now;
    }
  }

  /** One such error is enough to have a sample chosen that was not stable. */
  lemma OneFailureIsEnough(seconds: real, endings: seq<Ending>, failed: nat)
    requires seconds > 0.0 && Fails(endings, failed)
    ensures !Reliable(seconds, endings)
  {
    var n := |endings|;
    var ops := Glances(seconds, endings, failed, n);
    GlancesKeep(seconds, endings, failed, n);
    assert endings[..n] == endings;
    var x := Run(seconds, STORED, ops);
    var o := Observation(FIRST, Some(BASE), 0, 3.5 * seconds, Fine);
    assert Noticed(endings, n) by {
      if endings[failed].Lost? {
        assert !endings[failed].Refused?;
      }
    }
    assert Answering(seconds, x, o).1.Chosen?;
    NotStable(seconds, x.seen, failed, o);
  }

  /** The condition is exact: an instance's next choice can be relied on if and only if none of
      its calls of `select` raised an error, but for refusals before the first that did not.
      After any other error the instance goes on with the stale candidate and credits the gap. */
  lemma ReliableExactly(seconds: real, endings: seq<Ending>)
    requires seconds > 0.0
    ensures Reliable(seconds, endings) <==> Tidy(endings)
  {
    if Tidy(endings) {
      forall start: Policy, ops: seq<Op>, o: Observation |
        !start.observing && Run(seconds, start, ops).endings == endings
        && o.baseline.Some? && Answering(seconds, Run(seconds, start, ops), o).1.Chosen?
        ensures Stable(seconds, Run(seconds, start, ops).seen, o)
      {
        ChosenIsStable(seconds, start, ops, o);
      }
    } else {
      var failed :| 0 <= failed < |endings| && !endings[failed].Answered?
        && !(endings[failed].Refused? && forall j | 0 <= j < failed :: endings[j].Refused?);
      OneFailureIsEnough(seconds, endings, failed);
    }
  }
}
