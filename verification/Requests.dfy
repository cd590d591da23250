/** The request lifecycle of requests.py: optimistic transitions, reserved notification
    capacity, expiry, and the outbox. A request id is its row's position. */
module Requests {
  import opened Sequences
  import opened Envelopes

  datatype BoundValues = BoundValues(maxRequests: int, maxUpdates: int, maxNotifications: int)

  /** Limits are positive, and the update limit leaves room for an expiry. */
  type Bounds = b: BoundValues | b.maxRequests > 0 && b.maxUpdates >= 2 && b.maxNotifications > 0
    witness BoundValues(10000, 64, 10000)

  const MAX_BACKOFF := 60.0

  /** `Expiry(r, n)` is the text `request-expiry-<r>-<n>`, which callers are not meant to use. */
  datatype UpdateId = Chosen(name: string) | Expiry(request: nat, revision: nat)

  datatype Request = Request(
    conversation: string, source: string, key: string, original: nat, binding: string, payload: string,
    state: RequestState, revision: nat, expiresAt: Option<real>, expiresIn: Option<real>)
  {
    predicate Open() {
      !state.Terminal()
    }

    predicate Due(now: real) {
      Open() && expiresAt.Some? && expiresAt.value <= now
    }

    predicate HasKey(c: string, s: string, k: string) {
      conversation == c && source == s && key == k
    }
  }

  datatype Update = Update(
    request: nat, id: UpdateId, expected: nat, revision: nat, previous: RequestState, state: RequestState,
    summary: Option<string>)

  datatype Notification = Notification(
    request: nat, id: UpdateId, revision: nat, binding: string, envelope: Envelope,
    accepted: bool, delivery: Option<nat>, attempts: nat, nextAt: real, created: real)

  datatype Failure =
    | NotFound
    | KeyTaken
    | RequestsFull
    | Reserved
    | UpdateIdTaken
    | Conflict
    | NotAllowed
    | NotificationsFull
    | UpdatesFull
    | AlreadyAccepted
    | OtherDelivery
    | Exclusive

  // ----- what rows are counted by

  function IsPending(): Notification -> bool {
    (n: Notification) => !n.accepted
  }

  function IsOpen(): Request -> bool {
    (r: Request) => r.Open()
  }

  function IsDue(now: real): Request -> bool {
    (r: Request) => r.Due(now)
  }

  function OfRequest(r: nat): Update -> bool {
    (u: Update) => u.request == r
  }

  predicate Allowed(previous: RequestState, target: RequestState) {
    if previous.Terminal() || target == previous then false
    else
      match target
      case Received => false
      case Acknowledged => previous.Received?
      case InProgress => previous.Received? || previous.Acknowledged?
      case _ => true
  }

  function FindRequest(requests: seq<Request>, c: string, s: string, k: string): (r: Option<nat>)
    ensures r.Some? ==> r.value < |requests| && requests[r.value].HasKey(c, s, k)
    ensures r.None? ==> forall i | 0 <= i < |requests| :: !requests[i].HasKey(c, s, k)
  {
    if requests == [] then None
    else if Last(requests).HasKey(c, s, k) then Some(|requests| - 1)
    else FindRequest(Front(requests), c, s, k)
  }

  function FindUpdate(updates: seq<Update>, r: nat, id: UpdateId): (u: Option<nat>)
    ensures u.Some? ==> u.value < |updates| && updates[u.value].request == r && updates[u.value].id == id
    ensures u.None? ==> forall i | 0 <= i < |updates| :: updates[i].request != r || updates[i].id != id
  {
    if updates == [] then None
    else if Last(updates).request == r && Last(updates).id == id then Some(|updates| - 1)
    else FindUpdate(Front(updates), r, id)
  }

  /** The first `limit` due rows, oldest first, among the first n. */
  function DueRows(requests: seq<Request>, now: real, limit: nat, n: nat): (rows: seq<nat>)
    requires n <= |requests|
    ensures forall i | 0 <= i < |rows| :: rows[i] < n && requests[rows[i]].Due(now)
    ensures forall i, j | 0 <= i < j < |rows| :: rows[i] < rows[j]
    ensures |rows| <= limit
  {
    if n == 0 then []
    else
      var rows := DueRows(requests, now, limit, n - 1);
      if |rows| < limit && requests[n - 1].Due(now) then rows + [n - 1] else rows
  }

  function StatusEnvelope(r: nat, row: Request, state: RequestState, summary: Option<string>): Envelope {
    Envelope(RequestUpdate(r, row.revision), row.source, "request.status.changed",
             RequestStatus(r, row.conversation, row.revision, state, summary), None, 0)
  }

  datatype Store = Store(requests: seq<Request>, updates: seq<Update>, notes: seq<Notification>) {

    function Pending(): nat {
      Count(notes, IsPending())
    }

    function Opened(): nat {
      Count(requests, IsOpen())
    }

    function Create(bounds: Bounds, c: string, s: string, k: string, original: nat, binding: string, payload: string,
                    expiresAt: Option<real>, expiresIn: Option<real>, now: real): (Store, Result<nat, Failure>)
    {
      if expiresAt.Some? && expiresIn.Some? then (this, Err(Exclusive))
      else
        var deadline := if expiresIn.Some? then Some(now + expiresIn.value) else expiresAt;
        var existing := FindRequest(requests, c, s, k);
        if existing.Some? then
          var row := requests[existing.value];
          if row.original != original || row.binding != binding || row.payload != payload
             || (if expiresIn.Some? || row.expiresIn.Some? then row.expiresIn != expiresIn
                 else row.expiresAt != deadline)
          then (this, Err(KeyTaken))
          else (this, Ok(existing.value))
        else if |requests| >= bounds.maxRequests then (this, Err(RequestsFull))
        else if Pending() + Opened() + 1 > bounds.maxNotifications then (this, Err(Reserved))
        else
          var row := Request(c, s, k, original, binding, payload, Received, 0, deadline, expiresIn);
          (this.(requests := requests + [row]), Ok(|requests|))
    }

    /** `_notification_capacity` */
    function CapacityRefusal(bounds: Bounds, target: RequestState): Option<Failure> {
      if !target.Notifies() then None
      else if target.Terminal() then
        if Pending() + 1 > bounds.maxNotifications then Some(NotificationsFull) else None
      else if Pending() + Opened() + 1 > bounds.maxNotifications then Some(Reserved)
      else None
    }

    /** What a transition that is let through writes. */
    function Recorded(r: nat, id: UpdateId, target: RequestState, summary: Option<string>, now: real): Store
      requires r < |requests|
    {
      var row := requests[r];
      var next := row.(state := target, revision := row.revision + 1);
      var note := Notification(r, id, next.revision, row.binding, StatusEnvelope(r, next, target, summary),
                               false, None, 0, now, now);
      Store(requests[r := next],
            updates + [Update(r, id, row.revision, next.revision, row.state, target, summary)],
            if target.Notifies() then notes + [note] else notes)
    }

    /** `_transition_db`; a failure raised by the last guard undoes the writes before it. */
    function Transition(bounds: Bounds, r: nat, id: UpdateId, target: RequestState, expected: nat,
                        summary: Option<string>, now: real): (Store, Result<bool, Failure>)
      requires r < |requests|
    {
      var row := requests[r];
      var existing := FindUpdate(updates, r, id);
      if existing.Some? then
        var u := updates[existing.value];
        if u.expected != expected || u.state != target || u.summary != summary then (this, Err(UpdateIdTaken))
        else (this, Ok(true))
      else if row.revision != expected then (this, Err(Conflict))
      else if !Allowed(row.state, target) then (this, Err(NotAllowed))
      else
        var refusal := CapacityRefusal(bounds, target);
        if refusal.Some? then (this, Err(refusal.value))
        else if !target.Terminal() && Count(updates, OfRequest(r)) + 1 >= bounds.maxUpdates then
          (this, Err(UpdatesFull))
        else if target.Notifies() && Pending() >= bounds.maxNotifications then (this, Err(NotificationsFull))
        else (Recorded(r, id, target, summary, now), Ok(false))
    }

    /** The loop of `expire_due` over the selected rows; the number is how many it expired. */
    function ExpireRows(bounds: Bounds, rows: seq<nat>, now: real): (r: (Store, Result<nat, Failure>))
      requires forall i | 0 <= i < |rows| :: rows[i] < |requests|
      ensures |r.0.requests| == |requests|
    {
      if rows == [] then (this, Ok(0))
      else
        var (before, done) := ExpireRows(bounds, Front(rows), now);
        if done.Err? || done.value < |rows| - 1 || before.Pending() >= bounds.maxNotifications then (before, done)
        else
          var r := Last(rows);
          var (after, result) :=
            before.Transition(bounds, r, Expiry(r, requests[r].revision), Expired, requests[r].revision, None, now);
          if result.Err? then (after, Err(result.error)) else (after, Ok(done.value + 1))
    }

    /** One transaction: an exception rolls everything back. */
    function ExpireDue(bounds: Bounds, now: real, limit: nat): (Store, Result<nat, Failure>) {
      var (after, r) := ExpireRows(bounds, DueRows(requests, now, limit, |requests|), now);
      if r.Err? then (this, r) else (after, r)
    }

    // ----- the outbox

    /** The WHERE clause of `pending_notifications`: nothing of the same request waits ahead. */
    predicate Sendable(i: nat, now: real)
      requires i < |notes|
    {
      && !notes[i].accepted && notes[i].nextAt <= now
      && forall j | 0 <= j < |notes| ::
        !(notes[j].request == notes[i].request && notes[j].revision < notes[i].revision && !notes[j].accepted)
    }

    predicate Sooner(i: nat, j: nat)
      requires i < |notes| && j < |notes|
    {
      || notes[i].nextAt < notes[j].nextAt
      || (notes[i].nextAt == notes[j].nextAt && notes[i].created < notes[j].created)
      || (notes[i].nextAt == notes[j].nextAt && notes[i].created == notes[j].created && i <= j)
    }

    function NextNote(now: real, taken: seq<nat>, n: nat): (r: Option<nat>)
      requires n <= |notes|
      ensures r.Some? ==> r.value < n && Sendable(r.value, now) && r.value !in taken
    {
      if n == 0 then None
      else
        var best := NextNote(now, taken, n - 1);
        if !Sendable(n - 1, now) || n - 1 in taken then best
        else if best.Some? && Sooner(best.value, n - 1) then best
        else Some(n - 1)
    }

    /** `pending_notifications`: the sendable rows by due time, at most `limit`. */
    function Sendables(now: real, limit: nat): (r: seq<nat>)
      ensures forall k | 0 <= k < |r| :: r[k] < |notes| && Sendable(r[k], now)
      ensures forall j, k | 0 <= j < k < |r| :: r[j] != r[k]
      ensures |r| <= limit
    {
      if limit == 0 then []
      else
        var taken := Sendables(now, limit - 1);
        var next := NextNote(now, taken, |notes|);
        if next.None? then taken else taken + [next.value]
    }

    function SetNote(i: nat, n: Notification): Store
      requires i < |notes|
    {
      this.(notes := notes[i := n])
    }

    function Accept(i: nat, delivery: nat): (Store, Result<bool, Failure>) {
      if i >= |notes| then (this, Err(NotFound))
      else if notes[i].accepted then
        if notes[i].delivery != Some(delivery) then (this, Err(OtherDelivery)) else (this, Ok(true))
      else (SetNote(i, notes[i].(accepted := true, delivery := Some(delivery))), Ok(false))
    }

    function Fail(i: nat, now: real): (Store, Result<bool, Failure>) {
      if i >= |notes| then (this, Err(NotFound))
      else if notes[i].accepted then (this, Err(AlreadyAccepted))
      else
        var n := notes[i].attempts + 1;
        (SetNote(i, notes[i].(attempts := n, nextAt := now + Backoff(n))), Ok(false))
    }

    function Defer(i: nat, now: real, delay: real): (Store, Result<bool, Failure>) {
      if i >= |notes| then (this, Err(NotFound))
      else if notes[i].accepted then (this, Err(AlreadyAccepted))
      else (SetNote(i, notes[i].(nextAt := now + if delay < MAX_BACKOFF then delay else MAX_BACKOFF)), Ok(false))
    }
  }

  /** min(60, 2 ** min(attempts - 1, 6)) */
  function Backoff(attempts: nat): real {
    if 1 <= attempts <= 6 then [1.0, 2.0, 4.0, 8.0, 16.0, 32.0][attempts - 1]
    else if attempts == 0 then 1.0
    else MAX_BACKOFF
  }

  // ----- the object

  class RequestStore {
    const bounds: Bounds
    var requests: seq<Request>
    var updates: seq<Update>
    var notes: seq<Notification>

    constructor (bounds: Bounds)
      ensures this.bounds == bounds && Tables() == Store([], [], [])
    {
      this.bounds := bounds;
      requests, updates, notes := [], [], [];
    }

    function Tables(): Store
      reads this
    {
      Store(requests, updates, notes)
    }

    method Create(c: string, s: string, k: string, original: nat, binding: string, payload: string,
                  expiresAt: Option<real>, expiresIn: Option<real>, now: real) returns (r: Result<nat, Failure>)
      modifies this`requests
      ensures (Tables(), r)
           == old(Tables()).Create(bounds, c, s, k, original, binding, payload, expiresAt, expiresIn, now)
    {
      if expiresAt.Some? && expiresIn.Some? {
        return Err(Exclusive);
      }
      var deadline := expiresAt;
      if expiresIn.Some? {
        deadline := Some(now + expiresIn.value);
      }
      var existing := FindRequest(requests, c, s, k);
      if existing.Some? {
        var row := requests[existing.value];
        var otherExpiry;
        if expiresIn.Some? || row.expiresIn.Some? {
          otherExpiry := row.expiresIn != expiresIn;
        } else {
          otherExpiry := row.expiresAt != deadline;
        }
        if row.original != original || row.binding != binding || row.payload != payload || otherExpiry {
          return Err(KeyTaken);
        }
        return Ok(existing.value);
      }
      if |requests| >= bounds.maxRequests {
        return Err(RequestsFull);
      }
      if Tables().Pending() + Tables().Opened() + 1 > bounds.maxNotifications {
        return Err(Reserved);
      }
      requests := requests + [Request(c, s, k, original, binding, payload, Received, 0, deadline, expiresIn)];
      r := Ok(|requests| - 1);
    }

    /** `_transition_db` on a row that exists. */
    method Transition(i: nat, id: UpdateId, target: RequestState, expected: nat, summary: Option<string>, now: real)
      returns (r: Result<bool, Failure>)
      requires i < |requests|
      modifies this
      ensures (Tables(), r) == old(Tables()).Transition(bounds, i, id, target, expected, summary, now)
    {
      hide Count, FindUpdate, Store.Pending;
      var row := requests[i];
      var existing := FindUpdate(updates, i, id);
      if existing.Some? {
        var u := updates[existing.value];
        if u.expected != expected || u.state != target || u.summary != summary {
          return Err(UpdateIdTaken);
        }
        return Ok(true);
      }
      if row.revision != expected {
        return Err(Conflict);
      }
      if !Allowed(row.state, target) {
        return Err(NotAllowed);
      }
      var refusal := Tables().CapacityRefusal(bounds, target);
      if refusal.Some? {
        return Err(refusal.value);
      }
      var used := Count(updates, OfRequest(i));
      if !target.Terminal() && used + 1 >= bounds.maxUpdates {
        return Err(UpdatesFull);
      }
      if target.Notifies() && Tables().Pending() >= bounds.maxNotifications {
        return Err(NotificationsFull);
      }
      var revision := expected + 1;
      updates := updates + [Update(i, id, expected, revision, row.state, target, summary)];
      row := row.(state := target, revision := revision);
      requests := requests[i := row];
      if target.Notifies() {
        notes := notes + [Notification(i, id, revision, row.binding, StatusEnvelope(i, row, target, summary),
                                       false, None, 0, now, now)];
      }
      r := Ok(false);
    }

    method ExpireDue(now: real, limit: nat) returns (r: Result<nat, Failure>)
      modifies this
      ensures (Tables(), r) == old(Tables()).ExpireDue(bounds, now, limit)
    {
      hide Store.Transition, Store.Pending, DueRows, FindUpdate, Count;
      var start := Tables();
      var rows := DueRows(requests, now, limit, |requests|);
      var done := 0;
      while done < |rows|
        invariant done <= |rows| && |requests| == |start.requests|
        invariant start.ExpireRows(bounds, rows[..done], now) == (Tables(), Ok(done))
        modifies this
      {
        assert Front(rows[..done + 1]) == rows[..done];
        if Tables().Pending() >= bounds.maxNotifications {
          Stopped(bounds, start, rows, done, now);
          assert rows[..|rows|] == rows;
          return Ok(done);
        }
        ExpireNext(bounds, start, rows[..done + 1], now);
        var i := rows[done];
        var revision := start.requests[i].revision;
        var result := Transition(i, Expiry(i, revision), Expired, revision, None, now);
        if result.Err? {
          Stopped(bounds, start, rows, done + 1, now);
          assert rows[..|rows|] == rows;
          requests, updates, notes := start.requests, start.updates, start.notes;
          return Err(result.error);
        }
        done := done + 1;
      }
      assert rows[..done] == rows;
      r := Ok(done);
    }

    method Accept(i: nat, delivery: nat) returns (r: Result<bool, Failure>)
      modifies this`notes
      ensures (Tables(), r) == old(Tables()).Accept(i, delivery)
    {
      if i >= |notes| {
        return Err(NotFound);
      }
      if notes[i].accepted {
        if notes[i].delivery != Some(delivery) {
          return Err(OtherDelivery);
        }
        return Ok(true);
      }
      notes := notes[i := notes[i].(accepted := true, delivery := Some(delivery))];
      r := Ok(false);
    }

    method Fail(i: nat, now: real) returns (r: Result<bool, Failure>)
      modifies this`notes
      ensures (Tables(), r) == old(Tables()).Fail(i, now)
    {
      if i >= |notes| {
        return Err(NotFound);
      }
      if notes[i].accepted {
        return Err(AlreadyAccepted);
      }
      var attempts := notes[i].attempts + 1;
      notes := notes[i := notes[i].(attempts := attempts, nextAt := now + Backoff(attempts))];
      r := Ok(false);
    }

    method Defer(i: nat, now: real, delay: real) returns (r: Result<bool, Failure>)
      modifies this`notes
      ensures (Tables(), r) == old(Tables()).Defer(i, now, delay)
    {
      if i >= |notes| {
        return Err(NotFound);
      }
      if notes[i].accepted {
        return Err(AlreadyAccepted);
      }
      var capped := if delay < MAX_BACKOFF then delay else MAX_BACKOFF;
      notes := notes[i := notes[i].(nextAt := now + capped)];
      r := Ok(false);
    }
  }

  /** Once the loop of `expire_due` has stopped short, the rest of the rows changes nothing. */
  lemma {:induction false} Stopped(bounds: Bounds, s: Store, rows: seq<nat>, n: nat, now: real)
    requires n <= |rows|
    requires forall i | 0 <= i < |rows| :: rows[i] < |s.requests|
    requires var (t, r) := s.ExpireRows(bounds, rows[..n], now);
      r.Err? || r.value < n || t.Pending() >= bounds.maxNotifications
    ensures s.ExpireRows(bounds, rows, now) == s.ExpireRows(bounds, rows[..n], now)
    decreases |rows|
  {
    if n == |rows| {
      assert rows[..n] == rows;
    } else {
      assert Front(rows)[..n] == rows[..n];
      Stopped(bounds, s, Front(rows), n, now);
    }
  }

  /** One more row, when the rows before it all expired and there is room. */
  lemma ExpireNext(bounds: Bounds, s: Store, rows: seq<nat>, now: real)
    requires rows != [] && forall i | 0 <= i < |rows| :: rows[i] < |s.requests|
    requires var (before, done) := s.ExpireRows(bounds, Front(rows), now);
      done == Ok(|rows| - 1) && before.Pending() < bounds.maxNotifications
    ensures var r, before := Last(rows), s.ExpireRows(bounds, Front(rows), now).0;
      var revision := s.requests[r].revision;
      var (after, result) := before.Transition(bounds, r, Expiry(r, revision), Expired, revision, None, now);
      s.ExpireRows(bounds, rows, now) == (after, if result.Err? then Err(result.error) else Ok(|rows|))
  {
  }
}
