/** The relay of request_dispatch.py between the request outbox and the inbox. Between any two
    of its reads and writes it may crash, and the rest of both systems is at work. */
module Outbox {
  import opened Sequences
  import opened Envelopes
  import opened Inbox
  import opened Requests
  import Lifecycle
  import Delivery

  /** Both stores, and the memory of a running `pump`: the rows it read, the routes it saw, and
      the delivery of the row just taken in, until it is acknowledged. `fault` records that one
      of its acknowledgements was refused. */
  datatype Hub = Hub(
    store: Store, db: Db, batch: seq<nat>, routes: map<string, Binding>, receipt: Option<nat>, fault: bool)

  datatype Action =
    | Local(a: Lifecycle.Action)          // callers and the expiry at work on the requests
    | Others(db: Db)                      // any other transactions on the inbox
    | ReadBatch(now: real, limit: nat)    // `pump` reads the notifications
    | ReadRoutes                          // and the bindings
    | Take(now: real)                     // it takes one row in, defers it or notes a failure
    | Acknowledge                         // and acknowledges what was taken in
    | Crash

  const START := Hub(Lifecycle.EMPTY, Db(map[], map[], [], []), [], map[], None, false)

  const PAUSED_DELAY := 1.0

  /** Other producers change no row's identity and use no request notification id. */
  ghost predicate Harmless(older: Db, newer: Db) {
    && newer.KeepsRows(older)
    && forall i | |older.events| <= i < |newer.events| :: !newer.events[i].envelope.id.RequestUpdate?
  }

  /** The checks before intake. */
  predicate Deliverable(routes: map<string, Binding>, n: Notification) {
    && n.binding in routes
    && n.envelope.source in routes[n.binding].sources
    && n.envelope.payload.RequestStatus?
    && routes[n.binding].thread == n.envelope.payload.conversation
  }

  predicate Paused(routes: map<string, Binding>, n: Notification) {
    n.binding in routes && !routes[n.binding].enabled
  }

  /** What one row of the batch does to the two stores. The flag tells that the pump goes on. */
  function Relay(limits: Limits, store: Store, db: Db, routes: map<string, Binding>, i: nat, now: real, fuel: nat)
    : (outcome: (Store, Db, Result<bool, Failure>, nat))
    requires i < |store.notes|
    ensures |outcome.0.notes| == |store.notes|
  {
    var n := store.notes[i];
    if fuel == 0 then (store, db, Ok(false), 0)
    else if Paused(routes, n) then
      var (t, r) := store.Defer(i, now, PAUSED_DELAY);
      (t, db, if r.Ok? then Ok(true) else Err(r.error), fuel - 1)
    else
      var (taken, receipt) := if Deliverable(routes, n) then db.Ingest(limits, n.binding, n.envelope, now)
                              else (db, Err(SourceForbidden));
      if receipt.Err? then
        var (t, r) := store.Fail(i, now);
        (t, taken, if r.Ok? then Ok(true) else Err(r.error), fuel - 1)
      else if fuel == 1 then (store, taken, Ok(false), 0)
      else
        var (t, r) := store.Accept(i, receipt.value.delivery);
        (t, taken, if r.Ok? then Ok(true) else Err(r.error), fuel - 2)
  }

  /** The loop of `pump` over the rows it read. */
  function RelayAll(limits: Limits, store: Store, db: Db, batch: seq<nat>, routes: map<string, Binding>, now: real,
                    fuel: nat)
    : (Store, Db)
    requires forall k | 0 <= k < |batch| :: batch[k] < |store.notes|
    decreases |batch|
  {
    if batch == [] then (store, db)
    else
      var (t, taken, r, left) := Relay(limits, store, db, routes, batch[0], now, fuel);
      if r == Ok(true) then RelayAll(limits, t, taken, batch[1..], routes, now, left) else (t, taken)
  }

  /** `pump` without interference: expire, read a batch, relay it; a failing expiry raises. */
  function Pumped(limits: Limits, bounds: Bounds, store: Store, db: Db, now: real, size: nat, fuel: nat): (Store, Db) {
    var (expired, r) := store.ExpireDue(bounds, now, size);
    if r.Err? then (store, db)
    else RelayAll(limits, expired, db, expired.Sendables(now, size), db.bindings, now, fuel)
  }

  /** A row rewritten, and the pump going on; or an error raised out of it. */
  function Noted(s: Hub, store: Store, r: Result<bool, Failure>): Hub {
    s.(store := store, batch := if s.batch != [] && r.Ok? then s.batch[1..] else [], receipt := None,
       fault := s.fault || r.Err?)
  }

  function TakeStep(limits: Limits, s: Hub, now: real): Hub {
    if s.receipt.Some? || s.batch == [] || s.batch[0] >= |s.store.notes| then s
    else
      var i, n := s.batch[0], s.store.notes[s.batch[0]];
      if Paused(s.routes, n) then
        var (t, r) := s.store.Defer(i, now, PAUSED_DELAY);
        Noted(s, t, r)
      else
        var (db, receipt) := if Deliverable(s.routes, n) then s.db.Ingest(limits, n.binding, n.envelope, now)
                             else (s.db, Err(SourceForbidden));
        if receipt.Ok? then s.(db := db, receipt := Some(receipt.value.delivery))
        else
          var (t, r) := s.store.Fail(i, now);
          Noted(s, t, r)
  }

  function AcknowledgeStep(s: Hub): Hub {
    if s.receipt.None? || s.batch == [] || s.batch[0] >= |s.store.notes| then s
    else
      var (t, r) := s.store.Accept(s.batch[0], s.receipt.value);
      Noted(s, t, r)
  }

  ghost function Step(limits: Limits, bounds: Bounds, s: Hub, a: Action): Hub {
    match a
    case Local(b) =>
      if b.Create? || b.Transition? || b.ExpireDue? then s.(store := Lifecycle.Step(bounds, s.store, b)) else s
    case Others(db) => if Harmless(s.db, db) then s.(db := db) else s
    case ReadBatch(now, limit) =>
      if s.batch == [] then s.(batch := s.store.Sendables(now, limit), receipt := None) else s
    case ReadRoutes => s.(routes := s.db.bindings)
    case Take(now) => TakeStep(limits, s, now)
    case Acknowledge => AcknowledgeStep(s)
    case Crash => Stopped(s)
  }

  function Stopped(s: Hub): Hub {
    s.(batch := [], receipt := None)
  }

  ghost function Run(limits: Limits, bounds: Bounds, actions: seq<Action>): Hub {
    if actions == [] then START else Step(limits, bounds, Run(limits, bounds, Front(actions)), Last(actions))
  }

  /** Every step of the delivery engine but an intake of a request notification qualifies. */
  lemma EngineIsHarmless(limits: Limits, s: Delivery.Sys, a: Delivery.Action)
    requires a.Ingest? ==> !a.env.id.RequestUpdate?
    ensures Harmless(s.db, Delivery.Step(limits, s, a).db)
  {
    if a.Ingest? {
      IngestEffect(s.db, limits, a.b, a.env, a.now);
    } else {
      Delivery.NoIntakeKeepsRows(limits, s, a);
    }
  }

  // ----- the ledger: what the outbox rows of a request look like

  ghost predicate Filed(store: Store, i: nat)
    requires i < |store.notes|
  {
    var n := store.notes[i];
    && n.request < |store.requests|
    && n.revision <= store.requests[n.request].revision
    && n.envelope.id == RequestUpdate(n.request, n.revision)
    && n.envelope.source == store.requests[n.request].source
    && n.binding == store.requests[n.request].binding
  }

  ghost predicate Ledger(store: Store) {
    && (forall i | 0 <= i < |store.notes| :: Filed(store, i))
    && (forall i, j | 0 <= i < j < |store.notes| && store.notes[i].request == store.notes[j].request ::
          store.notes[i].revision < store.notes[j].revision)
  }

  /** How the request side may change the outbox: append rows of later revisions. */
  ghost predicate Appends(s: Store, t: Store) {
    && s.notes <= t.notes
    && |s.requests| <= |t.requests|
    && (forall r | 0 <= r < |s.requests| ::
          && t.requests[r].revision >= s.requests[r].revision
          && t.requests[r].source == s.requests[r].source
          && t.requests[r].binding == s.requests[r].binding)
    && (forall i | |s.notes| <= i < |t.notes| ::
          && !t.notes[i].accepted
          && (t.notes[i].request < |s.requests| ==> t.notes[i].revision > s.requests[t.notes[i].request].revision))
  }

  lemma AppendsTransitive(s: Store, m: Store, t: Store)
    requires Appends(s, m) && Appends(m, t)
    ensures Appends(s, t)
  {
  }

  lemma TransitionAppends(bounds: Bounds, s: Store, r: nat, id: UpdateId, target: RequestState, expected: nat,
                          summary: Option<string>, now: real)
    requires r < |s.requests| && Ledger(s)
    ensures var t := s.Transition(bounds, r, id, target, expected, summary, now).0; Appends(s, t) && Ledger(t)
  {
    Lifecycle.TransitionEffect(bounds, s, r, id, target, expected, summary, now);
    var t := s.Transition(bounds, r, id, target, expected, summary, now).0;
    forall i | 0 <= i < |t.notes| ensures Filed(t, i) {
      if i < |s.notes| {
        assert Filed(s, i);
      }
    }
    forall i, j | 0 <= i < j < |t.notes| && t.notes[i].request == t.notes[j].request
      ensures t.notes[i].revision < t.notes[j].revision
    {
      assert Filed(s, i);
    }
  }

  lemma {:induction false} ExpireRowsAppends(bounds: Bounds, s: Store, rows: seq<nat>, now: real)
    requires Ledger(s)
    requires forall i | 0 <= i < |rows| :: rows[i] < |s.requests|
    ensures var t := s.ExpireRows(bounds, rows, now).0; Appends(s, t) && Ledger(t)
  {
    if rows != [] {
      ExpireRowsAppends(bounds, s, Front(rows), now);
      var r := Last(rows);
      var before := s.ExpireRows(bounds, Front(rows), now).0;
      TransitionAppends(bounds, before, r, Expiry(r, s.requests[r].revision), Expired, s.requests[r].revision, None,
                        now);
      AppendsTransitive(s, before, s.ExpireRows(bounds, rows, now).0);
    }
  }

  lemma LocalAppends(bounds: Bounds, s: Store, a: Lifecycle.Action)
    requires Ledger(s) && (a.Create? || a.Transition? || a.ExpireDue?)
    ensures var t := Lifecycle.Step(bounds, s, a); Appends(s, t) && Ledger(t)
  {
    match a {
      case Transition(r, id, target, expected, summary, now) =>
        if r < |s.requests| {
          TransitionAppends(bounds, s, r, id, target, expected, summary, now);
        }
      case ExpireDue(now, limit) => ExpireRowsAppends(bounds, s, DueRows(s.requests, now, limit, |s.requests|), now);
      case Create(c, src, k, original, binding, payload, expiresAt, expiresIn, now) =>
        var t := Lifecycle.Step(bounds, s, a);
        forall i | 0 <= i < |t.notes| ensures Filed(t, i) {
          assert Filed(s, i);
        }
    }
  }

  // ----- the two stores together

  predicate Same(n: Notification, e: Event) {
    e.binding == n.binding && e.envelope == n.envelope
  }

  /** Everything the request announced before has been accepted. */
  ghost predicate AheadDone(store: Store, i: nat)
    requires i < |store.notes|
  {
    forall j | 0 <= j < |store.notes| && store.notes[j].request == store.notes[i].request
               && store.notes[j].revision < store.notes[i].revision :: store.notes[j].accepted
  }

  ghost predicate Acknowledged(s: Hub, i: nat)
    requires i < |s.store.notes|
  {
    s.store.notes[i].accepted ==>
      && AheadDone(s.store, i)
      && s.store.notes[i].delivery.Some?
      && s.store.notes[i].delivery.value < |s.db.events|
      && Same(s.store.notes[i], s.db.events[s.store.notes[i].delivery.value])
  }

  ghost predicate Accounted(s: Hub, d: nat)
    requires d < |s.db.events|
  {
    s.db.events[d].envelope.id.RequestUpdate? ==>
      exists i :: 0 <= i < |s.store.notes| && Same(s.store.notes[i], s.db.events[d]) && AheadDone(s.store, i)
  }

  ghost predicate Increasing(events: seq<Event>) {
    forall d, e | 0 <= d < e < |events| && SameRequest(events[d], events[e]) ::
      events[d].envelope.id.revision < events[e].envelope.id.revision
  }

  predicate SameRequest(e: Event, f: Event) {
    e.envelope.id.RequestUpdate? && f.envelope.id.RequestUpdate? && e.envelope.id.request == f.envelope.id.request
  }

  ghost predicate Batched(s: Hub) {
    && (forall k | 0 <= k < |s.batch| ::
          s.batch[k] < |s.store.notes| && !s.store.notes[s.batch[k]].accepted && AheadDone(s.store, s.batch[k]))
    && (forall j, k | 0 <= j < k < |s.batch| :: s.batch[j] != s.batch[k])
  }

  ghost predicate Sound(s: Hub) {
    && Ledger(s.store)
    && (forall i | 0 <= i < |s.store.notes| :: Acknowledged(s, i))
    && (forall d | 0 <= d < |s.db.events| :: Accounted(s, d))
    && Increasing(s.db.events)
    && Batched(s)
    && Received(s)
    && !s.fault
  }

  /** The receipt in hand is that of the row in hand. */
  ghost predicate Received(s: Hub) {
    s.receipt.Some? ==>
      && s.batch != [] && s.batch[0] < |s.store.notes|
      && s.receipt.value < |s.db.events|
      && Same(s.store.notes[s.batch[0]], s.db.events[s.receipt.value])
  }

  lemma AheadStays(s: Store, t: Store, i: nat)
    requires Ledger(s) && Appends(s, t) && i < |s.notes| && AheadDone(s, i)
    ensures AheadDone(t, i)
  {
    assert Filed(s, i);
  }

  lemma LocalSound(s: Hub, t: Store)
    requires Sound(s) && Appends(s.store, t) && Ledger(t)
    ensures Sound(s.(store := t))
  {
    var u := s.(store := t);
    forall i | 0 <= i < |t.notes| ensures Acknowledged(u, i) {
      if i < |s.store.notes| {
        assert Acknowledged(s, i);
        if t.notes[i].accepted {
          AheadStays(s.store, t, i);
        }
      }
    }
    forall d | 0 <= d < |s.db.events| ensures Accounted(u, d) {
      assert Accounted(s, d);
      if s.db.events[d].envelope.id.RequestUpdate? {
        var i :| 0 <= i < |s.store.notes| && Same(s.store.notes[i], s.db.events[d]) && AheadDone(s.store, i);
        AheadStays(s.store, t, i);
      }
    }
    forall k | 0 <= k < |s.batch| ensures AheadDone(t, s.batch[k]) {
      AheadStays(s.store, t, s.batch[k]);
    }
  }

  lemma OthersSound(s: Hub, db: Db)
    requires Sound(s) && Harmless(s.db, db)
    ensures Sound(s.(db := db))
  {
    var u := s.(db := db);
    forall i | 0 <= i < |s.store.notes| ensures Acknowledged(u, i) {
      assert Acknowledged(s, i);
    }
    forall d | 0 <= d < |db.events| ensures Accounted(u, d) {
      if d < |s.db.events| {
        assert Accounted(s, d);
      }
    }
    forall d, e | 0 <= d < e < |db.events| && SameRequest(db.events[d], db.events[e])
      ensures db.events[d].envelope.id.revision < db.events[e].envelope.id.revision
    {
      assert e < |s.db.events| && SameRequest(s.db.events[d], s.db.events[e]);
    }
  }

  lemma BatchSound(s: Hub, now: real, limit: nat)
    requires Sound(s)
    ensures Sound(s.(batch := s.store.Sendables(now, limit), receipt := None))
  {
    var batch := s.store.Sendables(now, limit);
    var u := s.(batch := batch, receipt := None);
    forall k | 0 <= k < |batch|
      ensures batch[k] < |s.store.notes| && !s.store.notes[batch[k]].accepted && AheadDone(s.store, batch[k])
    {
      assert s.store.Sendable(batch[k], now);
    }
    SameTables(s, u);
  }

  /** The tables are in order whatever the pump remembers. */
  lemma SameTables(s: Hub, u: Hub)
    requires Sound(s) && u.store == s.store && u.db == s.db
    ensures forall i | 0 <= i < |u.store.notes| :: Acknowledged(u, i)
    ensures forall d | 0 <= d < |u.db.events| :: Accounted(u, d)
  {
    forall i | 0 <= i < |u.store.notes| ensures Acknowledged(u, i) {
      assert Acknowledged(s, i);
    }
    forall d | 0 <= d < |u.db.events| ensures Accounted(u, d) {
      assert Accounted(s, d);
    }
  }

  /** A row that takes the place of note i, with the same identity and no less accepted. */
  lemma RewriteSound(s: Hub, i: nat, n: Notification, batch: seq<nat>)
    requires Sound(s) && i < |s.store.notes| && AheadDone(s.store, i) && !s.store.notes[i].accepted
    requires n == s.store.notes[i].(accepted := n.accepted, delivery := n.delivery, attempts := n.attempts,
                                    nextAt := n.nextAt)
    requires n.accepted ==>
      n.delivery.Some? && n.delivery.value < |s.db.events| && Same(n, s.db.events[n.delivery.value])
    requires batch == [] || (s.batch != [] && s.batch[0] == i && batch == s.batch[1..])
    ensures Sound(s.(store := s.store.SetNote(i, n), batch := batch, receipt := None))
  {
    var t := s.store.SetNote(i, n);
    var u := s.(store := t, batch := batch, receipt := None);
    forall j | 0 <= j < |t.notes|
      ensures Filed(t, j) && (AheadDone(s.store, j) ==> AheadDone(t, j)) && Acknowledged(u, j)
    {
      assert Filed(s.store, j) && Acknowledged(s, j);
    }
    forall d | 0 <= d < |s.db.events| ensures Accounted(u, d) {
      assert Accounted(s, d);
      if s.db.events[d].envelope.id.RequestUpdate? {
        var j :| 0 <= j < |s.store.notes| && Same(s.store.notes[j], s.db.events[d]) && AheadDone(s.store, j);
        assert Same(t.notes[j], s.db.events[d]) && AheadDone(t, j);
      }
    }
  }

  /** A row with this note's identifier is this note's row: intake never meets another
      event under it. */
  lemma RowIsOwn(s: Hub, i: nat, d: nat)
    requires Sound(s) && i < |s.store.notes| && d < |s.db.events|
    requires s.db.events[d].envelope.id == s.store.notes[i].envelope.id
    ensures Same(s.store.notes[i], s.db.events[d])
  {
    assert Filed(s.store, i) && Accounted(s, d);
    var j :| 0 <= j < |s.store.notes| && Same(s.store.notes[j], s.db.events[d]) && AheadDone(s.store, j);
    assert Filed(s.store, j);
  }

  /** A row of the same request taken in before belongs to an earlier revision. */
  lemma RowIsEarlier(s: Hub, i: nat, d: nat)
    requires Sound(s) && i < |s.store.notes| && d < |s.db.events| && !s.store.notes[i].accepted
    requires s.db.events[d].envelope.id.RequestUpdate?
    requires s.db.events[d].envelope.id.request == s.store.notes[i].request
    requires s.db.events[d].envelope.id != s.store.notes[i].envelope.id
    ensures s.db.events[d].envelope.id.revision < s.store.notes[i].revision
  {
    assert Filed(s.store, i) && Accounted(s, d);
    var j :| 0 <= j < |s.store.notes| && Same(s.store.notes[j], s.db.events[d]) && AheadDone(s.store, j);
    assert Filed(s.store, j);
  }

  lemma IntakeSound(limits: Limits, s: Hub, i: nat, now: real)
    requires Sound(s) && i < |s.store.notes| && !s.store.notes[i].accepted && AheadDone(s.store, i)
    ensures var n := s.store.notes[i];
      var (db, r) := s.db.Ingest(limits, n.binding, n.envelope, now);
      && Sound(s.(db := db))
      && r != Err(IdReused)
      && (r.Err? ==> db == s.db)
      && (r.Ok? ==> r.value.delivery < |db.events| && Same(n, db.events[r.value.delivery]))
  {
    var n := s.store.notes[i];
    var (db, r) := s.db.Ingest(limits, n.binding, n.envelope, now);
    IngestEffect(s.db, limits, n.binding, n.envelope, now);
    assert Filed(s.store, i);
    if FindEvent(s.db.events, n.binding, n.envelope.source, n.envelope.id).Some? {
      RowIsOwn(s, i, FindEvent(s.db.events, n.binding, n.envelope.source, n.envelope.id).value);
    }
    if r.Ok? && !r.value.duplicate {
      forall d | 0 <= d < |s.db.events| && SameRequest(s.db.events[d], db.events[|s.db.events|])
        ensures s.db.events[d].envelope.id.revision < n.revision
      {
        if s.db.events[d].envelope.id == n.envelope.id {
          RowIsOwn(s, i, d);
        }
        RowIsEarlier(s, i, d);
      }
      FreshSound(s, i, db);
    }
  }

  lemma FreshSound(s: Hub, i: nat, db: Db)
    requires Sound(s) && i < |s.store.notes| && AheadDone(s.store, i)
    requires |db.events| == |s.db.events| + 1 && db.events[..|s.db.events|] == s.db.events
    requires Same(s.store.notes[i], db.events[|s.db.events|])
    requires forall d | 0 <= d < |s.db.events| && SameRequest(s.db.events[d], db.events[|s.db.events|]) ::
      s.db.events[d].envelope.id.revision < s.store.notes[i].revision
    ensures Sound(s.(db := db))
  {
    var u := s.(db := db);
    var e := |s.db.events|;
    assert Filed(s.store, i);
    assert forall d | 0 <= d < e :: db.events[d] == s.db.events[d];
    forall j | 0 <= j < |s.store.notes| ensures Acknowledged(u, j) {
      assert Acknowledged(s, j);
    }
    forall d | 0 <= d < |db.events| ensures Accounted(u, d) {
      if d < e {
        assert Accounted(s, d);
      } else {
        assert Same(u.store.notes[i], db.events[d]) && AheadDone(u.store, i);
      }
    }
  }

  lemma TakeSound(limits: Limits, s: Hub, now: real)
    requires Sound(s)
    ensures Sound(TakeStep(limits, s, now))
  {
    if s.receipt.None? && s.batch != [] {
      var i := s.batch[0];
      var n := s.store.notes[i];
      if Paused(s.routes, n) {
        RewriteSound(s, i, s.store.Defer(i, now, PAUSED_DELAY).0.notes[i], s.batch[1..]);
      } else if !Deliverable(s.routes, n) {
        RewriteSound(s, i, s.store.Fail(i, now).0.notes[i], s.batch[1..]);
      } else {
        IntakeSound(limits, s, i, now);
        var (db, r) := s.db.Ingest(limits, n.binding, n.envelope, now);
        if r.Err? {
          RewriteSound(s, i, s.store.Fail(i, now).0.notes[i], s.batch[1..]);
        } else {
          SameTables(s.(db := db), s.(db := db, receipt := Some(r.value.delivery)));
        }
      }
    }
  }

  lemma AcknowledgeSound(s: Hub)
    requires Sound(s)
    ensures Sound(AcknowledgeStep(s))
  {
    if s.receipt.Some? {
      var i := s.batch[0];
      RewriteSound(s, i, s.store.Accept(i, s.receipt.value).0.notes[i], s.batch[1..]);
    }
  }

  lemma StoppedSound(s: Hub)
    requires Sound(s)
    ensures Sound(Stopped(s))
  {
    SameTables(s, Stopped(s));
  }

  lemma SoundStep(limits: Limits, bounds: Bounds, s: Hub, a: Action)
    requires Sound(s)
    ensures Sound(Step(limits, bounds, s, a))
  {
    match a {
      case Local(b) =>
        if b.Create? || b.Transition? || b.ExpireDue? {
          LocalAppends(bounds, s.store, b);
          LocalSound(s, Lifecycle.Step(bounds, s.store, b));
        }
      case Others(db) =>
        if Harmless(s.db, db) {
          OthersSound(s, db);
        }
      case ReadBatch(now, limit) =>
        if s.batch == [] {
          BatchSound(s, now, limit);
        }
      case ReadRoutes => SameTables(s, s.(routes := s.db.bindings));
      case Take(now) => TakeSound(limits, s, now);
      case Acknowledge => AcknowledgeSound(s);
      case Crash => StoppedSound(s);
    }
  }

  lemma {:induction false} SoundRun(limits: Limits, bounds: Bounds, actions: seq<Action>)
    ensures Sound(Run(limits, bounds, actions))
  {
    if actions != [] {
      SoundRun(limits, bounds, Front(actions));
      SoundStep(limits, bounds, Run(limits, bounds, Front(actions)), Last(actions));
    }
  }

  /** The inbox row that announces revision v of request r. */
  predicate RowFor(e: Event, r: nat, v: nat) {
    e.envelope.id == RequestUpdate(r, v)
  }

  /** Row d announces notification n as it was written, and no other row bears its id. */
  ghost predicate OnlyRow(events: seq<Event>, n: Notification, d: nat) {
    && d < |events| && Same(n, events[d])
    && forall e | 0 <= e < |events| && RowFor(events[e], n.request, n.revision) :: e == d
  }

  /** The main result: over every run, one request's notifications enter the inbox in
      increasing revision order, so each at most once; an accepted one is in the inbox exactly
      once, as it was written; the accepted ones form a prefix of what the request announced;
      and no acknowledgement is ever refused. */
  lemma RelayedInOrder(limits: Limits, bounds: Bounds, actions: seq<Action>)
    ensures var s := Run(limits, bounds, actions);
      && !s.fault
      && Increasing(s.db.events)
      && (forall i | 0 <= i < |s.store.notes| && s.store.notes[i].accepted ::
            var n := s.store.notes[i];
            AheadDone(s.store, i) && exists d :: OnlyRow(s.db.events, n, d))
  {
    SoundRun(limits, bounds, actions);
    var s := Run(limits, bounds, actions);
    forall i | 0 <= i < |s.store.notes| && s.store.notes[i].accepted
      ensures AheadDone(s.store, i) && exists d :: OnlyRow(s.db.events, s.store.notes[i], d)
    {
      var n := s.store.notes[i];
      assert Acknowledged(s, i) && Filed(s.store, i);
      var d := n.delivery.value;
      forall e | 0 <= e < |s.db.events| && RowFor(s.db.events[e], n.request, n.revision) ensures e == d {
        assert SameRequest(s.db.events[d], s.db.events[e]) && SameRequest(s.db.events[e], s.db.events[d]);
      }
      assert OnlyRow(s.db.events, n, d);
    }
  }

  // ----- one row without interference

  /** The state a row handled without interference leads to, however far it gets. */
  function RelayStep(limits: Limits, s: Hub, now: real, fuel: nat): Hub
    requires s.batch != [] && s.batch[0] < |s.store.notes|
  {
    var (store, db, r, left) := Relay(limits, s.store, s.db, s.routes, s.batch[0], now, fuel);
    Hub(store, db, if r == Ok(true) then s.batch[1..] else [], s.routes, None, s.fault || r.Err?)
  }

  /** It is a run of the steps above: taken in, acknowledged, cut off after any write. */
  lemma RelayIsRun(limits: Limits, s: Hub, now: real, fuel: nat)
    requires Sound(s) && s.receipt.None? && s.batch != []
    ensures var taken := TakeStep(limits, s, now);
      RelayStep(limits, s, now, fuel) in {Stopped(s), taken, Stopped(taken), AcknowledgeStep(taken)}
    ensures Sound(RelayStep(limits, s, now, fuel))
  {
    var taken := TakeStep(limits, s, now);
    TakeSound(limits, s, now);
    AcknowledgeSound(taken);
    StoppedSound(s);
    StoppedSound(taken);
    RelayCases(limits, s, now, fuel);
  }

  /** A row the pump does not take in. */
  lemma RelayRefuses(limits: Limits, s: Hub, now: real, fuel: nat)
    requires s.receipt.None? && s.batch != [] && s.batch[0] < |s.store.notes| && fuel > 0
    requires TakeStep(limits, s, now).receipt.None?
    ensures RelayStep(limits, s, now, fuel) == TakeStep(limits, s, now)
  {
  }

  /** A row it does. */
  lemma RelayTakes(limits: Limits, s: Hub, now: real, fuel: nat)
    requires s.receipt.None? && s.batch != [] && s.batch[0] < |s.store.notes| && fuel > 0
    requires TakeStep(limits, s, now).receipt.Some?
    ensures var taken := TakeStep(limits, s, now);
      RelayStep(limits, s, now, fuel) == if fuel == 1 then Stopped(taken) else AcknowledgeStep(taken)
  {
  }

  lemma RelayCases(limits: Limits, s: Hub, now: real, fuel: nat)
    requires Sound(s) && s.receipt.None? && s.batch != []
    ensures var taken := TakeStep(limits, s, now);
      RelayStep(limits, s, now, fuel) ==
        if fuel == 0 then Stopped(s)
        else if taken.receipt.None? then taken
        else if fuel == 1 then Stopped(taken)
        else AcknowledgeStep(taken)
  {
    if fuel > 0 {
      if TakeStep(limits, s, now).receipt.None? {
        RelayRefuses(limits, s, now, fuel);
      } else {
        RelayTakes(limits, s, now, fuel);
      }
    }
  }

  // ----- the object

  class RequestDispatcher {
    const monitor: Monitor
    const requests: RequestStore
    const batchSize: nat

    constructor (monitor: Monitor, requests: RequestStore, batchSize: nat)
      ensures this.monitor == monitor && this.requests == requests && this.batchSize == batchSize
    {
      this.monitor, this.requests, this.batchSize := monitor, requests, batchSize;
    }

    /** The stores with a batch in hand. */
    ghost function Snapshot(batch: seq<nat>, routes: map<string, Binding>): Hub
      reads monitor, requests
    {
      Hub(requests.Tables(), monitor.Tables(), batch, routes, None, false)
    }

    /** The body of the loop in `pump`, for one row. */
    method Handle(i: nat, routes: map<string, Binding>, now: real, fuel: nat)
      returns (r: Result<bool, Failure>, left: nat)
      requires i < |requests.notes|
      modifies monitor`events, requests`notes
      ensures (requests.Tables(), monitor.Tables(), r, left)
           == Relay(monitor.limits, old(requests.Tables()), old(monitor.Tables()), routes, i, now, fuel)
    {
      var n := requests.notes[i];
      if fuel == 0 {
        return Ok(false), 0;
      }
      if Paused(routes, n) {
        var deferred := requests.Defer(i, now, PAUSED_DELAY);
        return if deferred.Ok? then Ok(true) else Err(deferred.error), fuel - 1;
      }
      var receipt: Result<Receipt, Refusal> := Err(SourceForbidden);
      if Deliverable(routes, n) {
        receipt := monitor.Ingest(n.binding, n.envelope, now);
      }
      if receipt.Err? {
        var failed := requests.Fail(i, now);
        return if failed.Ok? then Ok(true) else Err(failed.error), fuel - 1;
      }
      if fuel == 1 {
        return Ok(false), 0;
      }
      var accepted := requests.Accept(i, receipt.value.delivery);
      r, left := if accepted.Ok? then Ok(true) else Err(accepted.error), fuel - 2;
    }

    /** The loop of `pump` over the rows it read. */
    method RelayBatch(rows: seq<nat>, routes: map<string, Binding>, now: real, fuel: nat) returns (relayed: bool)
      requires Sound(Snapshot(rows, routes))
      modifies monitor`events, requests`notes
      ensures (requests.Tables(), monitor.Tables())
           == RelayAll(monitor.limits, old(requests.Tables()), old(monitor.Tables()), rows, routes, now, fuel)
      ensures Sound(Snapshot([], map[]))
    {
      relayed := false;
      var batch, left := rows, fuel;
      ghost var end := RelayAll(monitor.limits, requests.Tables(), monitor.Tables(), rows, routes, now, fuel);
      while batch != []
        invariant Sound(Snapshot(batch, routes))
        invariant end == RelayAll(monitor.limits, requests.Tables(), monitor.Tables(), batch, routes, now, left)
        decreases |batch|
      {
        var i := batch[0];
        RelayIsRun(monitor.limits, Snapshot(batch, routes), now, left);
        var r;
        r, left := Handle(i, routes, now, left);
        if r != Ok(true) {
          batch := [];
          break;
        }
        batch := batch[1..];
        relayed := relayed || requests.notes[i].accepted;
      }
      SameTables(Snapshot(batch, routes), Snapshot([], map[]));
    }

    /** One `pump`, run until it is done or has crashed; the stores stay sound in any case. */
    method Pump(now: real, fuel: nat) returns (processed: bool)
      requires Sound(Snapshot([], map[]))
      modifies monitor`events, requests
      ensures (requests.Tables(), monitor.Tables())
           == Pumped(monitor.limits, requests.bounds, old(requests.Tables()), old(monitor.Tables()), now, batchSize,
                     fuel)
      ensures Sound(Snapshot([], map[]))
    {
      ghost var swept := Lifecycle.Step(requests.bounds, requests.Tables(), Lifecycle.ExpireDue(now, batchSize));
      LocalAppends(requests.bounds, requests.Tables(), Lifecycle.ExpireDue(now, batchSize));
      LocalSound(Snapshot([], map[]), swept);
      var expired := requests.ExpireDue(now, batchSize);
      if expired.Err? {
        return false;
      }
      var batch := requests.Tables().Sendables(now, batchSize);
      var routes := monitor.bindings;
      BatchSound(Snapshot([], map[]), now, batchSize);
      SameTables(Snapshot(batch, map[]), Snapshot(batch, routes));
      var relayed := RelayBatch(batch, routes, now, fuel);
      processed := expired.value > 0 || relayed;
    }
  }
}
