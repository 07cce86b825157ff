/**
 The durable turn ledger of core/persistence/postgres_turn_queue.py, one transaction a step.

 The four tables become maps. What a SELECT may return is left open up to what its ORDER BY,
 LIMIT and SKIP LOCKED clauses say: the rows it picked travel with the step, and `Choice` says
 which picks the database may make. Each transaction brings its own now(); nothing assumes that
 two transactions see increasing times.
 */
module TurnLedger {
  import opened Common

  // ---------- Tables ----------

  datatype Scope = Scope(tenant: string, project: string, user: string)

  type TurnId = nat

  datatype Status = Queued | Running | Completed | Failed | Cancelled

  /** `content` stands for the JSONB value, `encodedLength` for the length of its encoding. */
  datatype Payload = Payload(content: string, encodedLength: nat)

  datatype Job = Job(
    session: string, key: string, payload: string, status: Status, attempts: nat, fence: nat,
    leaseOwner: Option<string>, leaseUntil: Option<int>, created: int, result: Option<string>)

  datatype Event = Event(number: nat, turn: TurnId, state: Status, fence: nat)

  /** `keys` is the unique index on (scope, idempotency key); `events` holds each session's rows. */
  datatype Db = Db(
    jobs: map<(Scope, TurnId), Job>, keys: map<(Scope, string), TurnId>,
    cursors: map<(Scope, string), nat>, events: map<(Scope, string), seq<Event>>)

  const EMPTY := Db(map[], map[], map[], map[])

  const MAX_JSON := 65536
  const MAX_LEASE_SECONDS := 3600
  const CLAIM_SWEEP := 100
  const LEASE_EXPIRED := "lease_expired_uncertain"

  // ---------- Argument checks ----------

  predicate IsAlphaNumeric(c: char) {
    'A' <= c <= 'Z' || 'a' <= c <= 'z' || '0' <= c <= '9'
  }

  /** Worker identities and idempotency keys: 1 to 128 characters of a fixed alphabet. */
  predicate ValidName(s: string) {
    && 1 <= |s| <= 128
    && IsAlphaNumeric(s[0])
    && forall i :: 1 <= i < |s| ==> IsAlphaNumeric(s[i]) || s[i] in "_.:-"
  }

  predicate ValidSession(s: string) {
    |s| == 12 && forall i :: 0 <= i < |s| ==> '0' <= s[i] <= '9' || 'a' <= s[i] <= 'f'
  }

  // ---------- Steps ----------

  datatype LeaseAction = Renew(seconds: int) | Complete(result: Payload) | Fail(kind: string)

  datatype Op =
    | CreateSession(scope: Scope, session: string)
    | Enqueue(scope: Scope, session: string, key: string, payload: Payload, newId: TurnId, now: int)
    | Claim(scope: Scope, worker: string, seconds: int, now: int, locked: set<TurnId>,
            expired: seq<TurnId>, picked: Option<TurnId>)
    | Reap(scope: Scope, limit: int, now: int, locked: set<TurnId>, expired: seq<TurnId>)
    | Cancel(scope: Scope, turn: TurnId)
    | Lease(scope: Scope, turn: TurnId, worker: string, fence: int, action: LeaseAction, now: int)

  datatype Error = InvalidArgument | IdempotencyConflict | NoSession

  datatype Outcome =
    | Rejected(error: Error)
    | Created(inserted: bool)
    | Turn(id: TurnId)
    | Nothing
    | Leased(id: TurnId, payload: string, fence: nat, attempt: nat)
    | Count(rows: nat)
    | Flag(ok: bool)

  /**
   Writes a turn's row, takes the session's next event number and appends the event, all in one
   transaction. Without the owning session the transaction aborts and nothing changes.
   */
  function Advance(db: Db, sc: Scope, t: TurnId, job: Job, state: Status): Db {
    var s := (sc, job.session);
    if s !in db.cursors || s !in db.events then db
    else
      var n := db.cursors[s] + 1;
      db.(jobs := db.jobs[(sc, t) := job],
          cursors := db.cursors[s := n],
          events := db.events[s := db.events[s] + [Event(n, t, state, job.fence)]])
  }

  predicate Expired(db: Db, sc: Scope, t: TurnId, now: int) {
    && (sc, t) in db.jobs
    && db.jobs[(sc, t)].status == Running
    && db.jobs[(sc, t)].leaseUntil.Some?
    && db.jobs[(sc, t)].leaseUntil.value <= now
  }

  predicate IsQueued(db: Db, sc: Scope, t: TurnId) {
    (sc, t) in db.jobs && db.jobs[(sc, t)].status == Queued
  }

  /** ORDER BY of a time and the turn id. */
  predicate Before(time0: int, t0: TurnId, time1: int, t1: TurnId) {
    time0 < time1 || (time0 == time1 && t0 < t1)
  }

  function LeaseEnd(db: Db, sc: Scope, t: TurnId): int {
    if (sc, t) in db.jobs && db.jobs[(sc, t)].leaseUntil.Some? then db.jobs[(sc, t)].leaseUntil.value else 0
  }

  function CreatedAt(db: Db, sc: Scope, t: TurnId): int {
    if (sc, t) in db.jobs then db.jobs[(sc, t)].created else 0
  }

  /** What the sweep's SELECT may return: the earliest expired unlocked rows, up to the limit. */
  ghost predicate IsSweep(db: Db, sc: Scope, now: int, locked: set<TurnId>, limit: int, rows: seq<TurnId>) {
    && |rows| <= limit
    && Distinct(rows)
    && (forall t :: t in rows ==> Expired(db, sc, t, now) && t !in locked)
    && (forall u :: Expired(db, sc, u, now) && u !in locked && u !in rows ==>
          |rows| == limit && forall t :: t in rows ==> Before(LeaseEnd(db, sc, t), t, LeaseEnd(db, sc, u), u))
  }

  /** What the claim's SELECT may return: the oldest queued unlocked row, if there is one. */
  ghost predicate IsPick(db: Db, sc: Scope, locked: set<TurnId>, picked: Option<TurnId>) {
    match picked
    case None => forall u :: IsQueued(db, sc, u) ==> u in locked
    case Some(t) =>
      && IsQueued(db, sc, t) && t !in locked
      && forall u :: IsQueued(db, sc, u) && u !in locked && u != t ==>
           Before(CreatedAt(db, sc, t), t, CreatedAt(db, sc, u), u)
  }

  /** The picks a step carries are ones the database may make; a generated turn id is unused. */
  ghost predicate Choice(db: Db, op: Op) {
    match op
    case Enqueue(sc, _, _, _, newId, _) => (sc, newId) !in db.jobs
    case Claim(sc, _, _, now, locked, expired, picked) =>
      IsSweep(db, sc, now, locked, CLAIM_SWEEP, expired) && IsPick(db, sc, locked, picked)
    case Reap(sc, limit, now, locked, expired) =>
      1 <= limit <= 1000 ==> IsSweep(db, sc, now, locked, limit, expired)
    case _ => true
  }

  function Reaped(j: Job): Job {
    j.(status := Failed, result := Some(LEASE_EXPIRED), leaseOwner := None, leaseUntil := None, fence := j.fence + 1)
  }

  function Sweep(db: Db, sc: Scope, rows: seq<TurnId>): Db {
    if rows == [] then db
    else
      var d, t := Sweep(db, sc, Front(rows)), Last(rows);
      if (sc, t) in d.jobs then Advance(d, sc, t, Reaped(d.jobs[(sc, t)]), Failed) else d
  }

  function Taken(j: Job, worker: string, until: int): Job {
    j.(status := Running, fence := j.fence + 1, attempts := j.attempts + 1,
       leaseOwner := Some(worker), leaseUntil := Some(until))
  }

  function Revoked(j: Job): Job {
    j.(status := Cancelled, fence := j.fence + 1, leaseOwner := None, leaseUntil := None)
  }

  function Finished(j: Job, status: Status, result: string): Job {
    j.(status := status, result := Some(result), leaseOwner := None, leaseUntil := None)
  }

  /** The WHERE clause of every fenced update. */
  predicate Held(db: Db, sc: Scope, t: TurnId, worker: string, fence: int, now: int) {
    && (sc, t) in db.jobs
    && db.jobs[(sc, t)].status == Running
    && db.jobs[(sc, t)].leaseOwner == Some(worker)
    && db.jobs[(sc, t)].fence == fence
    && db.jobs[(sc, t)].leaseUntil.Some?
    && db.jobs[(sc, t)].leaseUntil.value > now
  }

  predicate ValidAction(a: LeaseAction) {
    match a
    case Renew(seconds) => 1 <= seconds <= MAX_LEASE_SECONDS
    case Complete(result) => result.encodedLength <= MAX_JSON
    case Fail(kind) => kind == "worker_execution_failed" || kind == "invalid_payload"
  }

  predicate HasEvent(db: Db, sc: Scope, t: TurnId) {
    exists s | s in db.events.Keys :: s.0 == sc && exists i | 0 <= i < |db.events[s]| :: db.events[s][i].turn == t
  }

  function ApplyEnqueue(db: Db, sc: Scope, session: string, key: string, payload: Payload, newId: TurnId, now: int)
    : (Db, Outcome)
  {
    if !ValidSession(session) || !ValidName(key) || payload.encodedLength > MAX_JSON then
      (db, Rejected(InvalidArgument))
    else if (sc, key) in db.keys then
      var t := db.keys[(sc, key)];
      if (sc, t) in db.jobs && db.jobs[(sc, t)].session == session && db.jobs[(sc, t)].payload == payload.content then
        (if HasEvent(db, sc, t) then db else Advance(db, sc, t, db.jobs[(sc, t)], Queued), Turn(t))
      else
        (db, Rejected(IdempotencyConflict))
    else if (sc, session) !in db.cursors then
      (db, Rejected(NoSession))
    else
      var job := Job(session, key, payload.content, Queued, 0, 0, None, None, now, None);
      (Advance(db.(keys := db.keys[(sc, key) := newId]), sc, newId, job, Queued), Turn(newId))
  }

  function ApplyClaim(db: Db, sc: Scope, worker: string, seconds: int, now: int, expired: seq<TurnId>,
                      picked: Option<TurnId>): (Db, Outcome)
  {
    if !ValidName(worker) || !(1 <= seconds <= MAX_LEASE_SECONDS) then (db, Rejected(InvalidArgument))
    else
      var swept := Sweep(db, sc, expired);
      if picked.None? || (sc, picked.value) !in swept.jobs then (swept, Nothing)
      else
        var t := picked.value;
        var j := Taken(swept.jobs[(sc, t)], worker, now + seconds);
        (Advance(swept, sc, t, j, Running), Leased(t, j.payload, j.fence, j.attempts))
  }

  function ApplyLease(db: Db, sc: Scope, t: TurnId, worker: string, fence: int, action: LeaseAction, now: int)
    : (Db, Outcome)
  {
    if !ValidName(worker) || fence < 1 || !ValidAction(action) then (db, Rejected(InvalidArgument))
    else if !Held(db, sc, t, worker, fence, now) then (db, Flag(false))
    else
      var j := db.jobs[(sc, t)];
      match action
      case Renew(seconds) => (db.(jobs := db.jobs[(sc, t) := j.(leaseUntil := Some(now + seconds))]), Flag(true))
      case Complete(result) => (Advance(db, sc, t, Finished(j, Completed, result.content), Completed), Flag(true))
      case Fail(kind) => (Advance(db, sc, t, Finished(j, Failed, kind), Failed), Flag(true))
  }

  /** One transaction: the new tables and what the caller sees. */
  function Apply(db: Db, op: Op): (Db, Outcome) {
    match op
    case CreateSession(sc, session) =>
      if !ValidSession(session) then (db, Rejected(InvalidArgument))
      else if (sc, session) in db.cursors then (db, Created(false))
      else (db.(cursors := db.cursors[(sc, session) := 0], events := db.events[(sc, session) := []]), Created(true))
    case Enqueue(sc, session, key, payload, newId, now) => ApplyEnqueue(db, sc, session, key, payload, newId, now)
    case Claim(sc, worker, seconds, now, _, expired, picked) =>
      ApplyClaim(db, sc, worker, seconds, now, expired, picked)
    case Reap(sc, limit, _, _, expired) =>
      if !(1 <= limit <= 1000) then (db, Rejected(InvalidArgument))
      else (Sweep(db, sc, expired), Count(|expired|))
    case Cancel(sc, t) =>
      if (sc, t) in db.jobs && (db.jobs[(sc, t)].status == Queued || db.jobs[(sc, t)].status == Running)
      then (Advance(db, sc, t, Revoked(db.jobs[(sc, t)]), Cancelled), Flag(true))
      else (db, Flag(false))
    case Lease(sc, t, worker, fence, action, now) => ApplyLease(db, sc, t, worker, fence, action, now)
  }

  /** The tables after a run of transactions. */
  function Exec(db: Db, ops: seq<Op>): Db {
    if ops == [] then db else Apply(Exec(db, Front(ops)), Last(ops)).0
  }

  ghost predicate Feasible(db: Db, ops: seq<Op>) {
    forall i :: 0 <= i < |ops| ==> Choice(Exec(db, ops[..i]), ops[i])
  }
}
