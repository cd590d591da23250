/** What every run of the request store keeps: the reserved notification capacity and the
    shape of each request's history; and what follows for terminal transitions, retries and
    expiry. */
module Lifecycle {
  import opened Sequences
  import opened Envelopes
  import opened Requests

  datatype Action =
    | Create(c: string, s: string, k: string, original: nat, binding: string, payload: string,
             expiresAt: Option<real>, expiresIn: Option<real>, now: real)
    | Transition(r: nat, id: UpdateId, target: RequestState, expected: nat, summary: Option<string>, now: real)
    | ExpireDue(now: real, limit: nat)
    | Accept(i: nat, delivery: nat)
    | Fail(i: nat, now: real)
    | Defer(i: nat, now: real, delay: real)

  const EMPTY := Store([], [], [])

  function Step(bounds: Bounds, s: Store, a: Action): Store {
    match a
    case Create(c, src, k, original, binding, payload, expiresAt, expiresIn, now) =>
      s.Create(bounds, c, src, k, original, binding, payload, expiresAt, expiresIn, now).0
    case Transition(r, id, target, expected, summary, now) =>
      if r < |s.requests| then s.Transition(bounds, r, id, target, expected, summary, now).0 else s
    case ExpireDue(now, limit) => s.ExpireDue(bounds, now, limit).0
    case Accept(i, delivery) => s.Accept(i, delivery).0
    case Fail(i, now) => s.Fail(i, now).0
    case Defer(i, now, delay) => s.Defer(i, now, delay).0
  }

  function RunFrom(bounds: Bounds, s: Store, actions: seq<Action>): Store {
    if actions == [] then s else Step(bounds, RunFrom(bounds, s, Front(actions)), Last(actions))
  }

  function Run(bounds: Bounds, actions: seq<Action>): Store {
    RunFrom(bounds, EMPTY, actions)
  }

  // ----- the invariant

  /** Every open request has a place in the outbox reserved for its end. */
  ghost predicate Reserved(bounds: Bounds, s: Store) {
    s.Pending() + s.Opened() <= bounds.maxNotifications
  }

  /** A chain of allowed transitions from `received` to this state, numbered without gaps. */
  predicate Leads(h: seq<Update>, state: RequestState) {
    if h == [] then state.Received?
    else
      var u := Last(h);
      && u.state == state && u.expected == |h| - 1 && u.revision == |h|
      && Allowed(u.previous, u.state)
      && Leads(Front(h), u.previous)
  }

  /** The revision counts the history, and the history leads to the state. */
  ghost predicate Told(row: Request, h: seq<Update>) {
    |h| == row.revision && Leads(h, row.state)
  }

  ghost predicate Recorded(s: Store, r: nat)
    requires r < |s.requests|
  {
    Told(s.requests[r], Filter(s.updates, OfRequest(r)))
  }

  ghost predicate Unique(s: Store) {
    && (forall i, j | 0 <= i < j < |s.updates| ::
          s.updates[i].request != s.updates[j].request || s.updates[i].id != s.updates[j].id)
    && (forall i | 0 <= i < |s.updates| :: s.updates[i].request < |s.requests|)
  }

  ghost predicate Sound(bounds: Bounds, s: Store) {
    && Reserved(bounds, s) && Unique(s)
    && forall r | 0 <= r < |s.requests| :: Recorded(s, r)
  }

  /** What a transition that goes through does to the counted quantities. */
  lemma RecordedEffect(s: Store, r: nat, id: UpdateId, target: RequestState, summary: Option<string>, now: real)
    requires r < |s.requests| && s.requests[r].Open()
    ensures var t := s.Recorded(r, id, target, summary, now);
      && t.Pending() == s.Pending() + (if target.Notifies() then 1 else 0)
      && t.Opened() == s.Opened() - (if target.Terminal() then 1 else 0)
      && s.Opened() >= 1
  {
    var t := s.Recorded(r, id, target, summary, now);
    CountUpdate(s.requests, r, t.requests[r], IsOpen());
    CountAtLeastOne(s.requests, r, IsOpen());
    if target.Notifies() {
      CountAppend(s.notes, Last(t.notes), IsPending());
    }
  }

  /** When a transition is let through, and what it then does. */
  lemma TransitionEffect(bounds: Bounds, s: Store, r: nat, id: UpdateId, target: RequestState, expected: nat,
                         summary: Option<string>, now: real)
    requires r < |s.requests|
    ensures var (t, result) := s.Transition(bounds, r, id, target, expected, summary, now);
      if result == Ok(false) then
        && t == s.Recorded(r, id, target, summary, now)
        && FindUpdate(s.updates, r, id).None?
        && s.requests[r].revision == expected
        && Allowed(s.requests[r].state, target)
        && s.requests[r].Open()
        && (target.InProgress? ==> s.Pending() + s.Opened() + 1 <= bounds.maxNotifications)
      else t == s
  {
  }

  lemma LeadsOn(h: seq<Update>, state: RequestState, u: Update)
    requires Leads(h, state) && u.previous == state && Allowed(state, u.state)
    requires u.expected == |h| && u.revision == |h| + 1
    ensures Leads(h + [u], u.state)
  {
    assert Front(h + [u]) == h;
  }

  /** The writes of a transition, told apart from the notification. */
  lemma RecordedWrites(s: Store, r: nat, id: UpdateId, target: RequestState, summary: Option<string>, now: real)
    requires r < |s.requests|
    ensures var (t, row) := (s.Recorded(r, id, target, summary, now), s.requests[r]);
      && t.requests == s.requests[r := row.(state := target, revision := row.revision + 1)]
      && t.updates == s.updates + [Update(r, id, row.revision, row.revision + 1, row.state, target, summary)]
  {
  }

  lemma ToldOn(row: Request, h: seq<Update>, u: Update)
    requires Told(row, h) && Allowed(row.state, u.state)
    requires u.previous == row.state && u.expected == row.revision && u.revision == row.revision + 1
    ensures Told(row.(state := u.state, revision := row.revision + 1), h + [u])
  {
    LeadsOn(h, row.state, u);
  }

  lemma ToldAfter(s: Store, t: Store, u: Update, q: nat)
    requires q < |s.requests| && u.request < |s.requests| && |t.requests| == |s.requests|
    requires Recorded(s, q) && t.updates == s.updates + [u]
    requires Allowed(s.requests[u.request].state, u.state) && u.previous == s.requests[u.request].state
    requires u.expected == s.requests[u.request].revision && u.revision == u.expected + 1
    requires t.requests[q] ==
      if q == u.request then s.requests[q].(state := u.state, revision := u.revision) else s.requests[q]
    ensures Recorded(t, q)
  {
    var h := Filter(s.updates, OfRequest(q));
    FilterAppend(s.updates, u, OfRequest(q));
    if q == u.request {
      ToldOn(s.requests[q], h, u);
    } else {
      assert h + [] == h;
    }
  }

  lemma RecordedHistory(s: Store, r: nat, id: UpdateId, target: RequestState, summary: Option<string>, now: real,
                        q: nat)
    requires r < |s.requests| && q < |s.requests| && Recorded(s, q)
    requires Allowed(s.requests[r].state, target)
    ensures Recorded(s.Recorded(r, id, target, summary, now), q)
  {
    var t := s.Recorded(r, id, target, summary, now);
    RecordedWrites(s, r, id, target, summary, now);
    ToldAfter(s, t, Last(t.updates), q);
  }

  lemma RecordedUnique(s: Store, r: nat, id: UpdateId, target: RequestState, summary: Option<string>, now: real)
    requires r < |s.requests| && Unique(s) && FindUpdate(s.updates, r, id).None?
    ensures Unique(s.Recorded(r, id, target, summary, now))
  {
  }

  lemma RecordedSound(bounds: Bounds, s: Store, r: nat, id: UpdateId, target: RequestState, summary: Option<string>,
                      now: real)
    requires Sound(bounds, s) && r < |s.requests|
    requires FindUpdate(s.updates, r, id).None? && Allowed(s.requests[r].state, target)
    requires target.InProgress? ==> s.Pending() + s.Opened() + 1 <= bounds.maxNotifications
    ensures Sound(bounds, s.Recorded(r, id, target, summary, now))
  {
    var t := s.Recorded(r, id, target, summary, now);
    RecordedEffect(s, r, id, target, summary, now);
    RecordedUnique(s, r, id, target, summary, now);
    forall q | 0 <= q < |t.requests| ensures Recorded(t, q) {
      RecordedHistory(s, r, id, target, summary, now, q);
    }
  }

  lemma TransitionSound(bounds: Bounds, s: Store, r: nat, id: UpdateId, target: RequestState, expected: nat,
                        summary: Option<string>, now: real)
    requires Sound(bounds, s) && r < |s.requests|
    ensures Sound(bounds, s.Transition(bounds, r, id, target, expected, summary, now).0)
  {
    TransitionEffect(bounds, s, r, id, target, expected, summary, now);
    if s.Transition(bounds, r, id, target, expected, summary, now).1 == Ok(false) {
      RecordedSound(bounds, s, r, id, target, summary, now);
    }
  }

  lemma {:induction false} ExpireRowsSound(bounds: Bounds, s: Store, rows: seq<nat>, now: real)
    requires Sound(bounds, s)
    requires forall i | 0 <= i < |rows| :: rows[i] < |s.requests|
    ensures Sound(bounds, s.ExpireRows(bounds, rows, now).0)
  {
    if rows != [] {
      ExpireRowsSound(bounds, s, Front(rows), now);
      var before := s.ExpireRows(bounds, Front(rows), now).0;
      var r := Last(rows);
      TransitionSound(bounds, before, r, Expiry(r, s.requests[r].revision), Expired, s.requests[r].revision, None, now);
    }
  }

  lemma NoteSound(bounds: Bounds, s: Store, i: nat, n: Notification)
    requires Sound(bounds, s) && i < |s.notes| && (n.accepted || !s.notes[i].accepted)
    ensures Sound(bounds, s.SetNote(i, n))
  {
    CountUpdate(s.notes, i, n, IsPending());
    forall r | 0 <= r < |s.requests| ensures Recorded(s.SetNote(i, n), r) {
      assert Recorded(s, r);
    }
  }

  /** What a creation adds. */
  lemma Created(bounds: Bounds, s: Store, c: string, src: string, k: string, original: nat, binding: string,
                payload: string, expiresAt: Option<real>, expiresIn: Option<real>, now: real)
    ensures var t := s.Create(bounds, c, src, k, original, binding, payload, expiresAt, expiresIn, now).0;
      t == s || (
        && |t.requests| == |s.requests| + 1 && t == s.(requests := s.requests + [Last(t.requests)])
        && Last(t.requests).state.Received? && Last(t.requests).revision == 0
        && s.Pending() + s.Opened() + 1 <= bounds.maxNotifications)
  {
  }

  lemma OneMoreSound(bounds: Bounds, s: Store, row: Request)
    requires Sound(bounds, s) && row.state.Received? && row.revision == 0
    requires s.Pending() + s.Opened() + 1 <= bounds.maxNotifications
    ensures Sound(bounds, s.(requests := s.requests + [row]))
  {
    var t := s.(requests := s.requests + [row]);
    CountAppend(s.requests, row, IsOpen());
    forall r | 0 <= r < |t.requests| ensures Recorded(t, r) {
      if r < |s.requests| {
        assert Recorded(s, r);
      } else {
        CountZero(s.updates, OfRequest(r));
      }
    }
  }

  lemma CreateSound(bounds: Bounds, s: Store, c: string, src: string, k: string, original: nat, binding: string,
                    payload: string, expiresAt: Option<real>, expiresIn: Option<real>, now: real)
    requires Sound(bounds, s)
    ensures Sound(bounds, s.Create(bounds, c, src, k, original, binding, payload, expiresAt, expiresIn, now).0)
  {
    var t := s.Create(bounds, c, src, k, original, binding, payload, expiresAt, expiresIn, now).0;
    Created(bounds, s, c, src, k, original, binding, payload, expiresAt, expiresIn, now);
    if t != s {
      OneMoreSound(bounds, s, Last(t.requests));
    }
  }

  lemma SoundStep(bounds: Bounds, s: Store, a: Action)
    requires Sound(bounds, s)
    ensures Sound(bounds, Step(bounds, s, a))
  {
    match a {
      case Create(c, src, k, original, binding, payload, expiresAt, expiresIn, now) =>
        CreateSound(bounds, s, c, src, k, original, binding, payload, expiresAt, expiresIn, now);
      case Transition(r, id, target, expected, summary, now) =>
        if r < |s.requests| {
          TransitionSound(bounds, s, r, id, target, expected, summary, now);
        }
      case ExpireDue(now, limit) => ExpireRowsSound(bounds, s, DueRows(s.requests, now, limit, |s.requests|), now);
      case _ =>
        var t := Step(bounds, s, a);
        if t != s {
          NoteSound(bounds, s, a.i, t.notes[a.i]);
        }
    }
  }

  lemma {:induction false} SoundRun(bounds: Bounds, actions: seq<Action>)
    ensures Sound(bounds, Run(bounds, actions))
  {
    if actions != [] {
      SoundRun(bounds, Front(actions));
      SoundStep(bounds, Run(bounds, Front(actions)), Last(actions));
    }
  }

  // ----- histories

  function Rank(state: RequestState): nat {
    match state
    case Received => 0
    case Acknowledged => 1
    case InProgress => 2
    case _ => 3
  }

  lemma {:induction false} LeadsReads(h: seq<Update>, state: RequestState)
    requires Leads(h, state)
    ensures |h| <= Rank(state)
    ensures forall i | 0 <= i < |h| :: Continues(h, i)
    ensures h == [] ==> state.Received?
    ensures h != [] ==> Last(h).state == state
  {
    if h != [] {
      var front := Front(h);
      LeadsReads(front, Last(h).previous);
      forall i | 0 <= i < |h| ensures Continues(h, i) {
        if i < |front| {
          assert Continues(front, i);
        }
      }
    }
  }

  /** The i-th update takes up where the one before it ended. */
  predicate Continues(h: seq<Update>, i: nat)
    requires i < |h|
  {
    && h[i].revision == i + 1 && h[i].expected == i
    && h[i].previous == (if i == 0 then Received else h[i - 1].state)
    && Allowed(h[i].previous, h[i].state)
  }

  /** The main result on histories: the revision is the number of recorded updates, they are
      contiguous from `received` on, and there never are more than three. */
  lemma HistoryIsChain(bounds: Bounds, actions: seq<Action>, r: nat)
    requires r < |Run(bounds, actions).requests|
    ensures var (row, h) := (Run(bounds, actions).requests[r], Filter(Run(bounds, actions).updates, OfRequest(r)));
      && row.revision == |h| <= 3
      && row.state == (if h == [] then Received else Last(h).state)
      && forall i | 0 <= i < |h| :: Continues(h, i)
  {
    SoundRun(bounds, actions);
    var s := Run(bounds, actions);
    assert Recorded(s, r);
    LeadsReads(Filter(s.updates, OfRequest(r)), s.requests[r].state);
  }

  /** Rows and updates are only ever added, and an ended request is left as it is. */
  ghost predicate Extends(s: Store, t: Store) {
    && s.updates <= t.updates
    && |s.requests| <= |t.requests|
    && forall r | 0 <= r < |s.requests| && s.requests[r].state.Terminal() :: t.requests[r] == s.requests[r]
  }

  lemma TransitionExtends(bounds: Bounds, s: Store, r: nat, id: UpdateId, target: RequestState, expected: nat,
                          summary: Option<string>, now: real)
    requires r < |s.requests|
    ensures Extends(s, s.Transition(bounds, r, id, target, expected, summary, now).0)
  {
    TransitionEffect(bounds, s, r, id, target, expected, summary, now);
    RecordedWrites(s, r, id, target, summary, now);
  }

  lemma {:induction false} ExpireRowsExtends(bounds: Bounds, s: Store, rows: seq<nat>, now: real)
    requires forall i | 0 <= i < |rows| :: rows[i] < |s.requests|
    ensures Extends(s, s.ExpireRows(bounds, rows, now).0)
  {
    if rows != [] {
      ExpireRowsExtends(bounds, s, Front(rows), now);
      var before := s.ExpireRows(bounds, Front(rows), now).0;
      var r := Last(rows);
      TransitionExtends(bounds, before, r, Expiry(r, s.requests[r].revision), Expired, s.requests[r].revision, None,
                        now);
    }
  }

  lemma StepExtends(bounds: Bounds, s: Store, a: Action)
    ensures Extends(s, Step(bounds, s, a))
  {
    match a {
      case Transition(r, id, target, expected, summary, now) =>
        if r < |s.requests| {
          TransitionExtends(bounds, s, r, id, target, expected, summary, now);
        }
      case ExpireDue(now, limit) => ExpireRowsExtends(bounds, s, DueRows(s.requests, now, limit, |s.requests|), now);
      case _ =>
    }
  }

  /** No run leaves a terminal state, or rewrites what was recorded. */
  lemma {:induction false} RunExtends(bounds: Bounds, s: Store, actions: seq<Action>)
    ensures Extends(s, RunFrom(bounds, s, actions))
  {
    if actions != [] {
      RunExtends(bounds, s, Front(actions));
      StepExtends(bounds, RunFrom(bounds, s, Front(actions)), Last(actions));
    }
  }

  lemma {:induction false} SoundFrom(bounds: Bounds, s: Store, actions: seq<Action>)
    requires Sound(bounds, s)
    ensures Sound(bounds, RunFrom(bounds, s, actions))
  {
    if actions != [] {
      SoundFrom(bounds, s, Front(actions));
      SoundStep(bounds, RunFrom(bounds, s, Front(actions)), Last(actions));
    }
  }

  lemma KnownUpdate(s: Store, i: nat)
    requires Unique(s) && i < |s.updates|
    ensures FindUpdate(s.updates, s.updates[i].request, s.updates[i].id) == Some(i)
  {
  }

  /** The main result on retries: once an update went through, repeating it with the same
      content changes nothing, however much later and whatever happened in between. */
  lemma RetryChangesNothing(bounds: Bounds, before: seq<Action>, r: nat, id: UpdateId, target: RequestState,
                            expected: nat, summary: Option<string>, now: real, between: seq<Action>, later: real)
    requires var s := Run(bounds, before);
      r < |s.requests| && s.Transition(bounds, r, id, target, expected, summary, now).1.Ok?
    ensures var t := RunFrom(bounds, Run(bounds, before).Transition(bounds, r, id, target, expected, summary, now).0,
                             between);
      r < |t.requests| && t.Transition(bounds, r, id, target, expected, summary, later) == (t, Ok(true))
  {
    var s := Run(bounds, before);
    SoundRun(bounds, before);
    var m := s.Transition(bounds, r, id, target, expected, summary, now).0;
    TransitionSound(bounds, s, r, id, target, expected, summary, now);
    TransitionEffect(bounds, s, r, id, target, expected, summary, now);
    RecordedWrites(s, r, id, target, summary, now);
    var i :| 0 <= i < |m.updates| && m.updates[i].request == r && m.updates[i].id == id
             && m.updates[i].expected == expected && m.updates[i].state == target && m.updates[i].summary == summary;
    SoundFrom(bounds, m, between);
    RunExtends(bounds, m, between);
    KnownUpdate(RunFrom(bounds, m, between), i);
  }

  // ----- capacity

  /** The main result on capacity, for every run. */
  lemma CapacityIsReserved(bounds: Bounds, actions: seq<Action>)
    ensures var s := Run(bounds, actions); s.Pending() + s.Opened() <= bounds.maxNotifications
  {
    SoundRun(bounds, actions);
  }

  lemma TerminalFits(bounds: Bounds, s: Store, r: nat, id: UpdateId, target: RequestState, summary: Option<string>,
                     now: real)
    requires Sound(bounds, s) && r < |s.requests| && s.requests[r].Open()
    requires target.Terminal() && FindUpdate(s.updates, r, id).None?
    ensures s.Pending() < bounds.maxNotifications
    ensures s.Transition(bounds, r, id, target, s.requests[r].revision, summary, now)
         == (s.Recorded(r, id, target, summary, now), Ok(false))
  {
    CountAtLeastOne(s.requests, r, IsOpen());
  }

  /** An open request can always be ended: at the current revision, under an unused update
      id, a terminal transition is never refused, for capacity or anything else. */
  lemma TerminalAlwaysFits(bounds: Bounds, actions: seq<Action>, r: nat, id: UpdateId, target: RequestState,
                           summary: Option<string>, now: real)
    requires var s := Run(bounds, actions);
      r < |s.requests| && s.requests[r].Open() && FindUpdate(s.updates, r, id).None?
    requires target.Terminal()
    ensures var s := Run(bounds, actions);
      s.Transition(bounds, r, id, target, s.requests[r].revision, summary, now).1 == Ok(false)
  {
    SoundRun(bounds, actions);
    TerminalFits(bounds, Run(bounds, actions), r, id, target, summary, now);
  }

  // ----- expiry

  /** A caller has used up the update id that the expiry of this request needs. */
  predicate Clashes(s: Store, r: nat)
    requires r < |s.requests|
  {
    FindUpdate(s.updates, r, Expiry(r, s.requests[r].revision)).Some?
  }

  ghost predicate ExpiredExactly(s: Store, t: Store, rows: seq<nat>) {
    && |t.requests| == |s.requests|
    && forall q | 0 <= q < |s.requests| ::
      && t.requests[q] == (if q in rows
                           then s.requests[q].(state := Expired, revision := s.requests[q].revision + 1)
                           else s.requests[q])
      && (q !in rows ==> forall id :: FindUpdate(t.updates, q, id) == FindUpdate(s.updates, q, id))
  }

  /** One more row expires, and nothing else happens. */
  lemma OneExpires(bounds: Bounds, s: Store, r: nat, now: real)
    requires Sound(bounds, s) && r < |s.requests| && s.requests[r].Open() && !Clashes(s, r)
    ensures s.Pending() < bounds.maxNotifications
    ensures var (t, result) :=
        s.Transition(bounds, r, Expiry(r, s.requests[r].revision), Expired, s.requests[r].revision, None, now);
      result == Ok(false) && Sound(bounds, t) && ExpiredExactly(s, t, [r])
  {
    hide Store.Transition, Sound;
    var id := Expiry(r, s.requests[r].revision);
    TerminalFits(bounds, s, r, id, Expired, None, now);
    RecordedSound(bounds, s, r, id, Expired, None, now);
    RecordedWrites(s, r, id, Expired, None, now);
    OthersUnaffected(s.updates, Last(s.Recorded(r, id, Expired, None, now).updates));
  }

  lemma ExpiredTogether(s: Store, m: Store, t: Store, rows: seq<nat>, r: nat)
    requires ExpiredExactly(s, m, rows) && ExpiredExactly(m, t, [r]) && r !in rows
    ensures ExpiredExactly(s, t, rows + [r])
  {
    forall q | 0 <= q < |s.requests| && q !in rows + [r]
      ensures forall id :: FindUpdate(t.updates, q, id) == FindUpdate(s.updates, q, id)
    {
      assert q !in rows && q !in [r];
    }
  }

  /** A row that is not among the expired ones is as it was, its update ids included. */
  lemma NotYetExpired(s: Store, t: Store, rows: seq<nat>, r: nat)
    requires ExpiredExactly(s, t, rows) && r !in rows && r < |s.requests|
    ensures t.requests[r] == s.requests[r] && Clashes(t, r) == Clashes(s, r)
  {
  }

  lemma NoneExpire(bounds: Bounds, s: Store, now: real)
    ensures s.ExpireRows(bounds, [], now) == (s, Ok(0)) && ExpiredExactly(s, s, [])
  {
  }

  /** Distinct open rows without a clash are all expired; the early break never happens. */
  lemma {:induction false} AllExpire(bounds: Bounds, s: Store, rows: seq<nat>, now: real)
    requires Sound(bounds, s)
    requires forall i | 0 <= i < |rows| :: rows[i] < |s.requests| && s.requests[rows[i]].Open() && !Clashes(s, rows[i])
    requires forall i, j | 0 <= i < j < |rows| :: rows[i] != rows[j]
    ensures var (t, r) := s.ExpireRows(bounds, rows, now);
      r == Ok(|rows|) && Sound(bounds, t) && ExpiredExactly(s, t, rows)
  {
    hide ExpiredExactly, Sound, Clashes, Store.Transition, Store.ExpireRows, Store.Pending;
    if rows == [] {
      NoneExpire(bounds, s, now);
    } else {
      var front, r := Front(rows), Last(rows);
      AllExpire(bounds, s, front, now);
      var before := s.ExpireRows(bounds, front, now).0;
      assert rows == front + [r] && r !in front;
      NotYetExpired(s, before, front, r);
      OneExpires(bounds, before, r, now);
      ExpireNext(bounds, s, rows, now);
      var after := s.ExpireRows(bounds, rows, now).0;
      ExpiredTogether(s, before, after, front, r);
    }
  }

  lemma OthersUnaffected(updates: seq<Update>, u: Update)
    ensures forall q, id :: q != u.request ==> FindUpdate(updates + [u], q, id) == FindUpdate(updates, q, id)
  {
    assert Front(updates + [u]) == updates;
  }

  lemma KnownIsPast(bounds: Bounds, s: Store, r: nat, id: UpdateId)
    requires Sound(bounds, s) && r < |s.requests|
    requires FindUpdate(s.updates, r, id).Some?
    ensures s.updates[FindUpdate(s.updates, r, id).value].expected < s.requests[r].revision
  {
    assert Recorded(s, r);
    var u := s.updates[FindUpdate(s.updates, r, id).value];
    var h := Filter(s.updates, OfRequest(r));
    LeadsReads(h, s.requests[r].state);
    assert u in h;
    var i :| 0 <= i < |h| && h[i] == u;
    assert Continues(h, i);
  }

  /** An expiry whose update id is taken is refused, and not for want of room. */
  lemma ClashRefused(bounds: Bounds, s: Store, r: nat, now: real)
    requires Sound(bounds, s) && r < |s.requests| && s.requests[r].Open() && Clashes(s, r)
    ensures s.Pending() < bounds.maxNotifications
    ensures var revision := s.requests[r].revision;
      s.Transition(bounds, r, Expiry(r, revision), Expired, revision, None, now).1.Err?
  {
    KnownIsPast(bounds, s, r, Expiry(r, s.requests[r].revision));
    CountAtLeastOne(s.requests, r, IsOpen());
  }

  /** A clash makes the whole batch fail. */
  lemma ClashFails(bounds: Bounds, s: Store, rows: seq<nat>, now: real, k: nat)
    requires Sound(bounds, s) && k < |rows|
    requires forall i | 0 <= i < |rows| :: rows[i] < |s.requests| && s.requests[rows[i]].Open()
    requires forall i, j | 0 <= i < j < |rows| :: rows[i] != rows[j]
    requires Clashes(s, rows[k]) && forall i | 0 <= i < k :: !Clashes(s, rows[i])
    ensures s.ExpireRows(bounds, rows, now).1.Err?
  {
    var done, r := rows[..k], rows[k];
    AllExpire(bounds, s, done, now);
    var before := s.ExpireRows(bounds, done, now).0;
    hide ExpiredExactly, Sound, Clashes, Store.Transition, Store.ExpireRows, Store.Pending;
    NotYetExpired(s, before, done, r);
    ClashRefused(bounds, before, r, now);
    assert Front(rows[..k + 1]) == done && Last(rows[..k + 1]) == r;
    ExpireNext(bounds, s, rows[..k + 1], now);
    Stopped(bounds, s, rows, k + 1, now);
  }

  predicate SomeClash(s: Store, rows: seq<nat>)
    requires forall i | 0 <= i < |rows| :: rows[i] < |s.requests|
  {
    exists i | 0 <= i < |rows| :: Clashes(s, rows[i])
  }

  lemma FirstClash(s: Store, rows: seq<nat>) returns (k: nat)
    requires forall i | 0 <= i < |rows| :: rows[i] < |s.requests|
    requires SomeClash(s, rows)
    ensures k < |rows| && Clashes(s, rows[k]) && forall i | 0 <= i < k :: !Clashes(s, rows[i])
  {
    k := 0;
    while !Clashes(s, rows[k])
      invariant k < |rows| && forall i | 0 <= i < k :: !Clashes(s, rows[i])
      invariant SomeClash(s, rows)
      decreases |rows| - k
    {
      k := k + 1;
    }
  }

  /** The main result on expiry: in every reachable state `expire_due` expires exactly the
      rows it selected, unless a caller has taken the update id one of them needs; then, and
      only then, it fails, and expires none. */
  lemma ExpiryIsExact(bounds: Bounds, actions: seq<Action>, now: real, limit: nat)
    ensures var s := Run(bounds, actions);
      var rows := DueRows(s.requests, now, limit, |s.requests|);
      var (t, r) := s.ExpireDue(bounds, now, limit);
      && (r.Err? <==> SomeClash(s, rows))
      && (r.Ok? ==> r.value == |rows| && ExpiredExactly(s, t, rows))
      && (r.Err? ==> t == s)
  {
    var s := Run(bounds, actions);
    var rows := DueRows(s.requests, now, limit, |s.requests|);
    SoundRun(bounds, actions);
    if SomeClash(s, rows) {
      var k := FirstClash(s, rows);
      ClashFails(bounds, s, rows, now, k);
    } else {
      AllExpire(bounds, s, rows, now);
    }
  }

  // ----- repeated expiry

  function Overdue(s: Store, now: real): nat {
    Count(s.requests, IsDue(now))
  }

  lemma {:induction false} DueRowsCount(requests: seq<Request>, now: real, limit: nat, n: nat)
    requires n <= |requests|
    ensures |DueRows(requests, now, limit, n)|
         == var due := Count(requests[..n], IsDue(now)); if due < limit then due else limit
  {
    if n > 0 {
      DueRowsCount(requests, now, limit, n - 1);
      assert requests[..n] == requests[..n - 1] + [requests[n - 1]];
      CountAppend(requests[..n - 1], requests[n - 1], IsDue(now));
    }
  }

  lemma {:induction false} OverdueDrops(bounds: Bounds, s: Store, rows: seq<nat>, now: real)
    requires Sound(bounds, s)
    requires forall i | 0 <= i < |rows| ::
      rows[i] < |s.requests| && s.requests[rows[i]].Due(now) && !Clashes(s, rows[i])
    requires forall i, j | 0 <= i < j < |rows| :: rows[i] != rows[j]
    ensures Overdue(s.ExpireRows(bounds, rows, now).0, now) == Overdue(s, now) - |rows|
  {
    if rows != [] {
      var front, r := Front(rows), Last(rows);
      OverdueDrops(bounds, s, front, now);
      AllExpire(bounds, s, front, now);
      var before := s.ExpireRows(bounds, front, now).0;
      assert r !in front;
      assert before.requests[r] == s.requests[r] && !Clashes(before, r);
      var id := Expiry(r, s.requests[r].revision);
      TerminalFits(bounds, before, r, id, Expired, None, now);
      RecordedWrites(before, r, id, Expired, None, now);
      CountUpdate(before.requests, r, before.Recorded(r, id, Expired, None, now).requests[r], IsDue(now));
    }
  }

  ghost predicate NoClash(s: Store) {
    forall r | 0 <= r < |s.requests| && s.requests[r].Open() :: !Clashes(s, r)
  }

  lemma NoNewClash(s: Store, t: Store, rows: seq<nat>)
    requires ExpiredExactly(s, t, rows) && NoClash(s)
    ensures NoClash(t)
  {
    forall r | 0 <= r < |t.requests| && t.requests[r].Open() ensures !Clashes(t, r) {
      assert r !in rows;
    }
  }

  lemma DueAreOverdue(s: Store, now: real, limit: nat)
    ensures |DueRows(s.requests, now, limit, |s.requests|)| ==
      if Overdue(s, now) < limit then Overdue(s, now) else limit
  {
    DueRowsCount(s.requests, now, limit, |s.requests|);
    assert s.requests[..|s.requests|] == s.requests;
  }

  lemma ExpireOnce(bounds: Bounds, s: Store, now: real, limit: nat)
    requires Sound(bounds, s) && NoClash(s)
    ensures var t := s.ExpireDue(bounds, now, limit).0;
      && Sound(bounds, t) && NoClash(t)
      && Overdue(t, now) == if Overdue(s, now) < limit then 0 else Overdue(s, now) - limit
  {
    var rows := DueRows(s.requests, now, limit, |s.requests|);
    AllExpire(bounds, s, rows, now);
    OverdueDrops(bounds, s, rows, now);
    DueAreOverdue(s, now, limit);
    NoNewClash(s, s.ExpireRows(bounds, rows, now).0, rows);
  }

  function Repeat(bounds: Bounds, s: Store, now: real, limit: nat, times: nat): Store
    decreases times
  {
    if times == 0 then s else Repeat(bounds, s.ExpireDue(bounds, now, limit).0, now, limit, times - 1)
  }

  /** Callers keep away from the expiry identifiers. */
  predicate Polite(actions: seq<Action>) {
    forall i | 0 <= i < |actions| :: actions[i].Transition? ==> actions[i].id.Chosen?
  }

  ghost predicate ExpiryIdsEnd(s: Store) {
    forall i | 0 <= i < |s.updates| ::
      s.updates[i].request < |s.requests|
      && (s.updates[i].id.Expiry? ==> s.requests[s.updates[i].request].state.Terminal())
  }

  lemma TransitionIdsEnd(bounds: Bounds, s: Store, r: nat, id: UpdateId, target: RequestState, expected: nat,
                         summary: Option<string>, now: real)
    requires ExpiryIdsEnd(s) && r < |s.requests| && (id.Chosen? || target.Terminal())
    ensures ExpiryIdsEnd(s.Transition(bounds, r, id, target, expected, summary, now).0)
  {
    TransitionEffect(bounds, s, r, id, target, expected, summary, now);
    RecordedWrites(s, r, id, target, summary, now);
  }

  lemma {:induction false} ExpireRowsIdsEnd(bounds: Bounds, s: Store, rows: seq<nat>, now: real)
    requires ExpiryIdsEnd(s)
    requires forall i | 0 <= i < |rows| :: rows[i] < |s.requests|
    ensures ExpiryIdsEnd(s.ExpireRows(bounds, rows, now).0)
  {
    if rows != [] {
      ExpireRowsIdsEnd(bounds, s, Front(rows), now);
      var r := Last(rows);
      TransitionIdsEnd(bounds, s.ExpireRows(bounds, Front(rows), now).0, r, Expiry(r, s.requests[r].revision), Expired,
        s.requests[r].revision, None, now);
    }
  }

  lemma {:induction false} PoliteRun(bounds: Bounds, actions: seq<Action>)
    requires Polite(actions)
    ensures ExpiryIdsEnd(Run(bounds, actions))
  {
    if actions != [] {
      PoliteRun(bounds, Front(actions));
      var s, a := Run(bounds, Front(actions)), Last(actions);
      match a {
        case Transition(r, id, target, expected, summary, now) =>
          if r < |s.requests| {
            TransitionIdsEnd(bounds, s, r, id, target, expected, summary, now);
          }
        case ExpireDue(now, limit) => ExpireRowsIdsEnd(bounds, s, DueRows(s.requests, now, limit, |s.requests|), now);
        case _ =>
      }
    }
  }

  lemma {:induction false} RepeatDrains(bounds: Bounds, s: Store, now: real, limit: nat, times: nat)
    requires Sound(bounds, s) && NoClash(s)
    requires Overdue(s, now) <= times * limit
    ensures Overdue(Repeat(bounds, s, now, limit, times), now) == 0
    decreases times
  {
    if times > 0 {
      ExpireOnce(bounds, s, now, limit);
      assert times * limit == (times - 1) * limit + limit;
      RepeatDrains(bounds, s.ExpireDue(bounds, now, limit).0, now, limit, times - 1);
    }
  }

  /** The main result on repeated expiry: with polite callers, enough calls at one time leave
      no due request open. */
  lemma ExpiryDrains(bounds: Bounds, actions: seq<Action>, now: real, limit: nat, times: nat)
    requires Polite(actions)
    requires Overdue(Run(bounds, actions), now) <= times * limit
    ensures var t := Repeat(bounds, Run(bounds, actions), now, limit, times);
      forall r | 0 <= r < |t.requests| :: !t.requests[r].Due(now)
  {
    var s := Run(bounds, actions);
    SoundRun(bounds, actions);
    PoliteRun(bounds, actions);
    RepeatDrains(bounds, s, now, limit, times);
    var t := Repeat(bounds, s, now, limit, times);
    forall r | 0 <= r < |t.requests| ensures !t.requests[r].Due(now) {
      if t.requests[r].Due(now) {
        CountAtLeastOne(t.requests, r, IsDue(now));
      }
    }
  }
}
