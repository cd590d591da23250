/** The condition of the rate bound is exact: whatever the limits, a resolution stamped before
    the intake of its event lets one event too many into a window. */
module Backdating {
  import opened Sequences
  import opened Errors
  import opened Envelopes
  import opened Inbox
  import opened Delivery
  import opened Admission

  const AT := 100.0

  /** The nth of a series of different events. */
  function Nth(n: nat): Envelope {
    Envelope(EventId.External(seq(n, _ => 'x')), "s", "k", Opaque(""), None, 0)
  }

  const START := [Bind("b", "t", "e", {"s"})]

  /** n events, each taken in, claimed and given up, all at one time. */
  function Rounds(n: nat): seq<Action> {
    if n == 0 then START
    else Rounds(n - 1) + [Ingest("b", Nth(n - 1), AT)] + [Claim(AT, AT)] + [Settle(Permanent, AT)]
  }

  /** The oldest is settled with a stamp of long ago, and one more is taken in. */
  function Backdated(n: nat): seq<Action> {
    Rounds(n) + [Resolve(0, Verdict.Discard, "r", 0.0)] + [Ingest("b", Nth(n), AT)]
  }

  predicate Taken(e: Event, n: nat) {
    e.binding == "b" && e.envelope == Nth(n) && e.created == AT
  }

  predicate Spent(s: Sys, n: nat) {
    && s.db.bindings == map["b" := Binding("t", "e", {"s"}, true, false)]
    && s.job.None? && !s.clockBack
    && |s.db.events| == n && |s.admitted| == n
    && (forall i | 0 <= i < n :: Taken(s.db.events[i], i) && s.db.events[i].state.Dead?)
    && (forall i | 0 <= i < n :: s.admitted[i] == Intake("b", AT))
  }

  lemma NamesDiffer(m: nat, n: nat)
    requires m != n
    ensures Nth(m).id != Nth(n).id
  {
    assert |Nth(m).id.name| == m && |Nth(n).id.name| == n;
  }

  lemma NthDiffers(events: seq<Event>, n: nat)
    requires |events| == n && forall i | 0 <= i < n :: events[i].envelope == Nth(i)
    ensures FindEvent(events, "b", "s", Nth(n).id).None?
  {
    forall i | 0 <= i < n ensures !events[i].HasKey("b", "s", Nth(n).id) {
      NamesDiffer(i, n);
    }
  }

  /** With nothing active and room in the column, the next event is admitted. */
  lemma Admits(limits: Limits, s: Sys, n: nat)
    requires s.db.bindings == map["b" := Binding("t", "e", {"s"}, true, false)]
    requires |s.db.events| == n
    requires forall i | 0 <= i < n :: s.db.events[i].envelope == Nth(i) && !s.db.events[i].Active()
    requires Count(s.db.events, CreatedAfter("b", AT - RATE_WINDOW)) < limits.rateLimit
    ensures DoIngest(limits, s, "b", Nth(n), AT)
         == s.(db := s.db.(events := s.db.events + [s.db.NewEvent("b", Nth(n), AT)]),
               admitted := s.admitted + [Intake("b", AT)])
  {
    NthDiffers(s.db.events, n);
    CountZero(s.db.events, ActiveOn("b"));
  }

  /** The one active row is claimed. */
  lemma Claims(limits: Limits, s: Sys, n: nat)
    requires s.db.bindings == map["b" := Binding("t", "e", {"s"}, true, false)] && s.job.None?
    requires |s.db.events| == n + 1 && forall i | 0 <= i < n :: !s.db.events[i].Active()
    requires s.db.events[n] == s.db.NewEvent("b", Nth(n), AT)
    ensures var t := DoClaim(limits, s, AT, AT);
      && t.job == Some(Job(n, false, 0, "t", "e"))
      && t.db == s.db.SetEvent(n, s.db.events[n].(state := Submitting, attempts := 1))
      && t.calls != [] && Last(t.calls).fate.Unsent?
      && t == s.(db := t.db, job := t.job, calls := t.calls)
  {
    assert s.db.Eligible(n, AT);
    assert s.db.Next(AT, n + 1) == Some(n);
  }

  /** And given up. */
  lemma GivesUp(limits: Limits, s: Sys, n: nat)
    requires |s.db.events| == n + 1 && s.job == Some(Job(n, false, 0, "t", "e"))
    requires s.calls != [] && Last(s.calls).fate.Unsent?
    ensures var t := DoSettle(limits, s, Permanent, AT);
      && t.job.None? && t.db == s.db.SetEvent(n, t.db.events[n])
      && t.db.events[n] == s.db.events[n].(state := Dead, nextAt := t.db.events[n].nextAt)
      && t == s.(db := t.db, job := None, calls := t.calls)
  {
  }

  lemma OneRound(limits: Limits, s: Sys, n: nat)
    requires Spent(s, n) && n < limits.rateLimit
    ensures Spent(DoSettle(limits, DoClaim(limits, DoIngest(limits, s, "b", Nth(n), AT), AT, AT), Permanent, AT), n + 1)
  {
    Admits(limits, s, n);
    var taken := DoIngest(limits, s, "b", Nth(n), AT);
    Claims(limits, taken, n);
    GivesUp(limits, DoClaim(limits, taken, AT, AT), n);
  }

  lemma RunsOn(limits: Limits, actions: seq<Action>, a: Action)
    ensures Run(limits, actions + [a]) == Step(limits, Run(limits, actions), a)
  {
    assert Front(actions + [a]) == actions;
  }

  lemma RoundRuns(limits: Limits, n: nat)
    ensures var taken := DoIngest(limits, Run(limits, Rounds(n)), "b", Nth(n), AT);
      Run(limits, Rounds(n + 1)) == DoSettle(limits, DoClaim(limits, taken, AT, AT), Permanent, AT)
  {
    var taken := Rounds(n) + [Ingest("b", Nth(n), AT)];
    RunsOn(limits, Rounds(n), Ingest("b", Nth(n), AT));
    RunsOn(limits, taken, Claim(AT, AT));
    RunsOn(limits, taken + [Claim(AT, AT)], Settle(Permanent, AT));
  }

  lemma Started(limits: Limits)
    ensures Spent(Run(limits, START), 0)
  {
    RunsOn(limits, [], START[0]);
    assert [] + [START[0]] == START;
  }

  lemma {:induction false} SpentAfter(limits: Limits, n: nat)
    requires n <= limits.rateLimit
    ensures Spent(Run(limits, Rounds(n)), n)
  {
    if n == 0 {
      Started(limits);
    } else {
      SpentAfter(limits, n - 1);
      RoundRuns(limits, n - 1);
      OneRound(limits, Run(limits, Rounds(n - 1)), n - 1);
    }
  }

  /** Once the oldest row is backdated, the column counts one event too few. */
  lemma Uncounted(s: Sys, n: nat)
    requires Spent(s, n) && n > 0
    ensures var t := DoResolve(s, 0, Verdict.Discard, "r", 0.0);
      && t.clockBack && t.admitted == s.admitted && t.db.bindings == s.db.bindings
      && |t.db.events| == n && (forall i | 0 <= i < n :: t.db.events[i].envelope == Nth(i) && !t.db.events[i].Active())
      && Count(t.db.events, CreatedAfter("b", AT - RATE_WINDOW)) < n
  {
    var p := CreatedAfter("b", AT - RATE_WINDOW);
    var e := s.db.events[0].(state := Discarded, attempts := 0, nextAt := 0.0, created := 0.0);
    assert !Inbox.Blank("r") by {
      assert 'r' in "r";
    }
    CountUpdate(s.db.events, 0, e, p);
    assert p(s.db.events[0]) && !p(e);
  }

  lemma {:induction false} AllInWindow(xs: seq<Intake>)
    requires forall i | 0 <= i < |xs| :: xs[i] == Intake("b", AT)
    ensures Count(xs, InWindow("b", AT)) == |xs|
  {
    if xs != [] {
      AllInWindow(Front(xs));
    }
  }

  lemma OneTooMany(limits: Limits)
    ensures var s := Run(limits, Backdated(limits.rateLimit));
      s.clockBack && Count(s.admitted, InWindow("b", AT)) == limits.rateLimit + 1
  {
    var n: nat := limits.rateLimit;
    var resolve := Resolve(0, Verdict.Discard, "r", 0.0);
    SpentAfter(limits, n);
    var s := Run(limits, Rounds(n));
    RunsOn(limits, Rounds(n), resolve);
    RunsOn(limits, Rounds(n) + [resolve], Ingest("b", Nth(n), AT));
    Uncounted(s, n);
    Admits(limits, DoResolve(s, 0, Verdict.Discard, "r", 0.0), n);
    AllInWindow(Run(limits, Backdated(n)).admitted);
  }

  /** Every window of every run of this kind keeps the limit. */
  ghost predicate Bounding(limits: Limits, clockBack: bool) {
    forall actions: seq<Action>, b, t | Run(limits, actions).clockBack == clockBack ::
      Count(Run(limits, actions).admitted, InWindow(b, t)) <= limits.rateLimit
  }

  /** The main result: the bound can be relied on if and only if no resolution is stamped
      earlier than the intake of its event, whatever the limits. */
  lemma RateBoundExactly(limits: Limits, clockBack: bool)
    ensures Bounding(limits, clockBack) <==> !clockBack
  {
    if clockBack {
      OneTooMany(limits);
      assert Count(Run(limits, Backdated(limits.rateLimit)).admitted, InWindow("b", AT)) > limits.rateLimit;
    } else {
      forall actions: seq<Action>, b, t | !Run(limits, actions).clockBack
        ensures Count(Run(limits, actions).admitted, InWindow(b, t)) <= limits.rateLimit
      {
        RateBound(limits, actions, b, t);
      }
    }
  }
}
