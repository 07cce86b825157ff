/**
 What each call on the queue answers and leaves in the tables, read off row by row: the contract a caller may rely on
 without knowing how a transaction is written.
 */
module TurnLedgerAnswers {
  import opened Common
  import opened TurnLedger
  import opened TurnLedgerProofs
  import Theorems = TurnLedgerTheorems

  // ---------- Names ----------

  /** A valid name, letter by letter: it starts with a letter or digit and takes up to 127 more characters. */
  lemma NamesLetterByLetter(s: string, c: char)
    ensures !ValidName("")
    ensures ValidName([c]) <==> IsAlphaNumeric(c)
    ensures s != "" ==> (ValidName(s + [c]) <==> ValidName(s) && |s| < 128 && (IsAlphaNumeric(c) || c in "_.:-"))
  {
    if s != "" {
      var r := s + [c];
      assert forall i :: 0 <= i < |s| ==> r[i] == s[i];
      assert r[|s|] == c;
    }
  }

  // ---------- One row and one event ----------

  /** Turn `t`'s row is now `j`, its session has one more event saying so, and nothing else differs. */
  ghost predicate Moved(db: Db, d: Db, sc: Scope, t: TurnId, j: Job) {
    var s := (sc, j.session);
    && s in db.cursors && s in db.events
    && d.jobs == db.jobs[(sc, t) := j]
    && d.keys == db.keys
    && d.cursors == db.cursors[s := db.cursors[s] + 1]
    && d.events == db.events[s := db.events[s] + [Event(db.cursors[s] + 1, t, j.status, j.fence)]]
  }

  ghost predicate CreateAnswers(db: Db, d: Db, r: Outcome, sc: Scope, session: string) {
    if !ValidSession(session) then r == Rejected(InvalidArgument) && d == db
    else if (sc, session) in db.cursors then r == Created(false) && d == db
    else
      && r == Created(true) && d.jobs == db.jobs && d.keys == db.keys
      && d.cursors == db.cursors[(sc, session) := 0] && d.events == db.events[(sc, session) := []]
  }

  /** A used key answers with its turn for the same work only; a new one queues the turn and says so. */
  ghost predicate EnqueueAnswers(db: Db, d: Db, r: Outcome, sc: Scope, session: string, key: string, payload: Payload,
                                 newId: TurnId, now: int)
  {
    if !ValidSession(session) || !ValidName(key) || payload.encodedLength > 65536
    then r == Rejected(InvalidArgument) && d == db
    else if (sc, key) in db.keys then
      && d == db && (sc, db.keys[(sc, key)]) in db.jobs
      && var j := db.jobs[(sc, db.keys[(sc, key)])];
         r == if j.session == session && j.payload == payload.content then Turn(db.keys[(sc, key)])
              else Rejected(IdempotencyConflict)
    else if (sc, session) !in db.cursors then r == Rejected(NoSession) && d == db
    else
      && r == Turn(newId)
      && d.keys == db.keys[(sc, key) := newId]
      && Moved(db, d.(keys := db.keys), sc, newId,
               Job(session, key, payload.content, Queued, 0, 0, None, None, now, None))
  }

  /** True exactly for a queued or running turn, which is then cancelled under the next fence. */
  ghost predicate CancelAnswers(db: Db, d: Db, r: Outcome, sc: Scope, t: TurnId) {
    && (r == Flag(true) || r == Flag(false))
    && (r == Flag(true) <==> (sc, t) in db.jobs && db.jobs[(sc, t)].status in {Queued, Running})
    && (r == Flag(false) ==> d == db)
    && (r == Flag(true) ==>
          var j := db.jobs[(sc, t)];
          Moved(db, d, sc, t, Job(j.session, j.key, j.payload, Cancelled, j.attempts, j.fence + 1, None, None,
                                  j.created, j.result)))
  }

  // ---------- Fenced updates ----------

  /**
   True exactly if the row is running under this worker and fence with time left. Then it has the new
   lease end, or is completed or failed and its session's log says so.
   */
  ghost predicate LeaseAnswers(db: Db, d: Db, r: Outcome, sc: Scope, t: TurnId, worker: string, fence: int,
                               action: LeaseAction, now: int)
  {
    var valid := ValidName(worker) && fence >= 1 && match action
                                                    case Renew(seconds) => 1 <= seconds <= 3600
                                                    case Complete(result) => result.encodedLength <= 65536
                                                    case Fail(kind) =>
                                                      kind in {"worker_execution_failed", "invalid_payload"};
    && (!valid <==> r == Rejected(InvalidArgument))
    && (r == Rejected(InvalidArgument) || r == Flag(true) || r == Flag(false))
    && (r == Flag(true) <==>
          && valid && (sc, t) in db.jobs
          && var j := db.jobs[(sc, t)];
             j.status == Running && j.leaseOwner == Some(worker) && j.fence == fence
             && j.leaseUntil.Some? && now < j.leaseUntil.value)
    && (r != Flag(true) ==> d == db)
    && (r == Flag(true) ==>
          var j := db.jobs[(sc, t)];
          match action
          case Renew(seconds) =>
            && d.jobs == db.jobs[(sc, t) := Job(j.session, j.key, j.payload, Running, j.attempts, fence, Some(worker),
                                                Some(now + seconds), j.created, None)]
            && d.keys == db.keys && d.cursors == db.cursors && d.events == db.events
          case Complete(result) =>
            Moved(db, d, sc, t, Job(j.session, j.key, j.payload, Completed, j.attempts, fence, None, None, j.created,
                                    Some(result.content)))
          case Fail(kind) =>
            Moved(db, d, sc, t, Job(j.session, j.key, j.payload, Failed, j.attempts, fence, None, None, j.created,
                                    Some(kind))))
  }

  lemma CreateIsExact(db: Db, sc: Scope, session: string)
    ensures var (d, r) := Apply(db, CreateSession(sc, session)); CreateAnswers(db, d, r, sc, session)
  {
  }

  lemma EnqueueIsExact(db: Db, sc: Scope, session: string, key: string, payload: Payload, newId: TurnId, now: int)
    requires Inv(db)
    ensures var (d, r) := Apply(db, Enqueue(sc, session, key, payload, newId, now));
            EnqueueAnswers(db, d, r, sc, session, key, payload, newId, now)
  {
    if (sc, key) in db.keys {
      ExistingTurnHasEvent(db, sc, db.keys[(sc, key)]);
    }
  }

  lemma CancelIsExact(db: Db, sc: Scope, t: TurnId)
    requires Inv(db)
    ensures var (d, r) := Apply(db, Cancel(sc, t)); CancelAnswers(db, d, r, sc, t)
  {
    if (sc, t) in db.jobs {
      RowHasSession(db, sc, t);
    }
  }

  /** Whatever the arguments, a fenced update answers true, false or a refusal exactly as its row says. */
  lemma LeaseIsExact(db: Db, sc: Scope, t: TurnId, worker: string, fence: int, action: LeaseAction, now: int)
    requires Inv(db)
    ensures var (d, r) := Apply(db, Lease(sc, t, worker, fence, action, now));
            LeaseAnswers(db, d, r, sc, t, worker, fence, action, now)
  {
    if (sc, t) in db.jobs {
      RowHasSession(db, sc, t);
    }
  }

  /** A row's session is in the tables, and a running row has no result yet. */
  lemma RowHasSession(db: Db, sc: Scope, t: TurnId)
    requires Inv(db) && (sc, t) in db.jobs
    ensures (sc, db.jobs[(sc, t)].session) in db.cursors && (sc, db.jobs[(sc, t)].session) in db.events
    ensures db.jobs[(sc, t)].status == Running ==> db.jobs[(sc, t)].result == None && db.jobs[(sc, t)].fence == 1
    ensures db.jobs[(sc, t)].status == Queued ==>
              var j := db.jobs[(sc, t)]; j.result == None && j.fence == 0 && j.attempts == 0
  {
    assert Tells(TurnHistory(db, sc, t), db.jobs[(sc, t)]);
  }

  // ---------- Sweeps and claims ----------

  /** The rows of one session among those picked, in the order they were picked. */
  function RowsOf(db: Db, sc: Scope, rows: seq<TurnId>, s: string): seq<TurnId> {
    if rows == [] then []
    else
      var t := Last(rows);
      RowsOf(db, sc, Front(rows), s) + if (sc, t) in db.jobs && db.jobs[(sc, t)].session == s then [t] else []
  }

  /** One failure each, numbered on from the session's cursor. */
  ghost function Failures(db: Db, sc: Scope, rows: seq<TurnId>, s: string, cursor: nat): seq<Event> {
    var mine := RowsOf(db, sc, rows, s);
    seq(|mine|, k requires 0 <= k < |mine| => Event(cursor + k + 1, mine[k], Failed, 2))
  }

  /** Swept: failed as uncertain under the next fence, the lease gone, everything else as it was. */
  function SweptJob(j: Job): Job {
    Job(j.session, j.key, j.payload, Failed, j.attempts, 2, None, None, j.created, Some("lease_expired_uncertain"))
  }

  ghost predicate RowsSwept(db: Db, d: Db, sc: Scope, rows: seq<TurnId>) {
    && d.jobs.Keys == db.jobs.Keys
    && forall k :: k in db.jobs ==>
         d.jobs[k] == if k.0 == sc && k.1 in rows then SweptJob(db.jobs[k]) else db.jobs[k]
  }

  ghost predicate LogSwept(db: Db, d: Db, sc: Scope, rows: seq<TurnId>, s: (Scope, string))
    requires s in db.events && s in db.cursors && s in d.events && s in d.cursors
  {
    if s.0 != sc then d.events[s] == db.events[s] && d.cursors[s] == db.cursors[s]
    else
      && d.events[s] == db.events[s] + Failures(db, sc, rows, s.1, db.cursors[s])
      && d.cursors[s] == db.cursors[s] + |RowsOf(db, sc, rows, s.1)|
  }

  /** Exactly these rows are swept, and each session's log goes on with its failures in their order. */
  ghost predicate SweepAnswers(db: Db, d: Db, sc: Scope, rows: seq<TurnId>) {
    && d.keys == db.keys && RowsSwept(db, d, sc, rows)
    && d.events.Keys == db.events.Keys && d.cursors.Keys == db.cursors.Keys
    && forall s :: s in db.events && s in db.cursors ==> LogSwept(db, d, sc, rows, s)
  }

  ghost predicate ReapAnswers(db: Db, d: Db, r: Outcome, sc: Scope, limit: int, rows: seq<TurnId>) {
    if 1 <= limit <= 1000 then r == Count(|rows|) && SweepAnswers(db, d, sc, rows)
    else r == Rejected(InvalidArgument) && d == db
  }

  /** At most `limit` running rows whose lease has ended, none locked; what is left out ended no earlier. */
  ghost predicate EarliestExpired(db: Db, sc: Scope, now: int, locked: set<TurnId>, limit: int, rows: seq<TurnId>) {
    && |rows| <= limit
    && (forall i, j :: 0 <= i < j < |rows| ==> rows[i] != rows[j])
    && (forall t :: t in rows ==> (sc, t) in db.jobs && t !in locked && Overdue(db.jobs[(sc, t)], now))
    && (forall u :: (sc, u) in db.jobs && u !in locked && u !in rows && Overdue(db.jobs[(sc, u)], now) ==>
          && |rows| == limit
          && forall t :: t in rows ==>
               var end, end' := db.jobs[(sc, t)].leaseUntil.value, db.jobs[(sc, u)].leaseUntil.value;
               end < end' || (end == end' && t < u))
  }

  predicate Overdue(j: Job, now: int) {
    j.status == Running && j.leaseUntil.Some? && j.leaseUntil.value <= now
  }

  /** The queued turn created first, the smaller id first among equals; none only if every one is locked. */
  ghost predicate OldestQueued(db: Db, sc: Scope, locked: set<TurnId>, picked: Option<TurnId>) {
    && (picked.None? ==> forall u :: (sc, u) in db.jobs && db.jobs[(sc, u)].status == Queued ==> u in locked)
    && (picked.Some? ==>
          var t := picked.value;
          && (sc, t) in db.jobs && t !in locked && db.jobs[(sc, t)].status == Queued
          && forall u :: (sc, u) in db.jobs && u !in locked && u != t && db.jobs[(sc, u)].status == Queued ==>
               var made, made' := db.jobs[(sc, t)].created, db.jobs[(sc, u)].created;
               made < made' || (made == made' && t < u))
  }

  /** Expired turns are swept first; then the oldest queued one runs under fence 1, its first attempt. */
  ghost predicate ClaimAnswers(db: Db, d: Db, r: Outcome, sc: Scope, worker: string, seconds: int, now: int,
                               locked: set<TurnId>, rows: seq<TurnId>, picked: Option<TurnId>)
  {
    if !ValidName(worker) || !(1 <= seconds <= 3600) then r == Rejected(InvalidArgument) && d == db
    else
      && EarliestExpired(db, sc, now, locked, 100, rows)
      && OldestQueued(db, sc, locked, picked)
      && match picked
         case None => r == Nothing && SweepAnswers(db, d, sc, rows)
         case Some(t) =>
           var j := db.jobs[(sc, t)];
           && r == Leased(t, j.payload, 1, 1)
           && exists mid ::
                && SweepAnswers(db, mid, sc, rows)
                && Moved(mid, d, sc, t, Job(j.session, j.key, j.payload, Running, 1, 1, Some(worker),
                                            Some(now + seconds), j.created, None))
  }

  lemma SweepIsEarliest(db: Db, sc: Scope, now: int, locked: set<TurnId>, limit: int, rows: seq<TurnId>)
    requires IsSweep(db, sc, now, locked, limit, rows)
    ensures EarliestExpired(db, sc, now, locked, limit, rows)
  {
    forall u | (sc, u) in db.jobs && u !in locked && u !in rows && Overdue(db.jobs[(sc, u)], now)
      ensures |rows| == limit && forall t :: t in rows ==> Before(LeaseEnd(db, sc, t), t, LeaseEnd(db, sc, u), u)
    {
      assert Expired(db, sc, u, now);
    }
  }

  lemma PickIsOldest(db: Db, sc: Scope, locked: set<TurnId>, picked: Option<TurnId>)
    requires IsPick(db, sc, locked, picked)
    ensures OldestQueued(db, sc, locked, picked)
  {
    forall u | (sc, u) in db.jobs && db.jobs[(sc, u)].status == Queued ensures IsQueued(db, sc, u) {}
  }

  lemma {:induction false} SweepIsExact(db: Db, sc: Scope, rows: seq<TurnId>)
    requires Inv(db) && Distinct(rows)
    requires forall t :: t in rows ==> (sc, t) in db.jobs && db.jobs[(sc, t)].status == Running
    ensures SweepAnswers(db, Sweep(db, sc, rows), sc, rows)
  {
    if rows == [] {
    } else {
      var front, t := Front(rows), Last(rows);
      assert rows == front + [t];
      forall u | u in front ensures u in rows && u != t {}
      SweepIsExact(db, sc, front);
      SweepKeepsInv(db, sc, rows);
      SweepKeepsInv(db, sc, front);
      var d, d' := Sweep(db, sc, front), Sweep(db, sc, rows);
      RowHasSession(db, sc, t);
      AreSwept(db, d', sc, rows);
      assert (sc, t) in d.jobs && d.jobs[(sc, t)] == db.jobs[(sc, t)];
      assert d' == Advance(d, sc, t, Reaped(d.jobs[(sc, t)]), Failed);
      hide Inv, Sweep, Swept, RowsSwept;
      forall s | s in db.events && s in db.cursors ensures s in d'.events && LogSwept(db, d', sc, rows, s) {
        assert LogSwept(db, d, sc, front, s);
        OneMoreFailure(db, d, sc, rows, s);
      }
    }
  }

  lemma AreSwept(db: Db, d: Db, sc: Scope, rows: seq<TurnId>)
    requires Inv(db) && Swept(db, d, sc, rows)
    requires forall t :: t in rows ==> (sc, t) in db.jobs && db.jobs[(sc, t)].status == Running
    ensures RowsSwept(db, d, sc, rows)
  {
    forall k | k in db.jobs
      ensures d.jobs[k] == if k.0 == sc && k.1 in rows then SweptJob(db.jobs[k]) else db.jobs[k]
    {
      assert k == (k.0, k.1);
      RowHasSession(db, k.0, k.1);
    }
  }

  /** Sweeping one more row appends its failure to its own session's log. */
  lemma OneMoreFailure(db: Db, d: Db, sc: Scope, rows: seq<TurnId>, s: (Scope, string))
    requires rows != [] && (sc, Last(rows)) in db.jobs && db.jobs[(sc, Last(rows))].fence == 1
    requires s in db.events && s in db.cursors && s in d.events && s in d.cursors
    requires (sc, Last(rows)) in d.jobs && d.jobs[(sc, Last(rows))] == db.jobs[(sc, Last(rows))]
    requires LogSwept(db, d, sc, Front(rows), s)
    ensures var t := Last(rows); var d' := Advance(d, sc, t, Reaped(d.jobs[(sc, t)]), Failed);
            s in d'.events && s in d'.cursors && LogSwept(db, d', sc, rows, s)
  {
    var t, mine, n := Last(rows), RowsOf(db, sc, Front(rows), s.1), db.cursors[s];
    if s == (sc, db.jobs[(sc, t)].session) {
      assert RowsOf(db, sc, rows, s.1) == mine + [t];
      assert Failures(db, sc, rows, s.1, n)
          == Failures(db, sc, Front(rows), s.1, n) + [Event(n + |mine| + 1, t, Failed, 2)];
    } else if s.0 == sc {
      assert RowsOf(db, sc, rows, s.1) == mine;
    }
  }

  lemma ReapIsExact(db: Db, sc: Scope, limit: int, now: int, locked: set<TurnId>, rows: seq<TurnId>)
    requires Inv(db) && Choice(db, Reap(sc, limit, now, locked, rows))
    ensures var (d, r) := Apply(db, Reap(sc, limit, now, locked, rows)); ReapAnswers(db, d, r, sc, limit, rows)
  {
    if 1 <= limit <= 1000 {
      SweepIsExact(db, sc, rows);
    }
  }

  lemma ClaimIsExact(db: Db, sc: Scope, worker: string, seconds: int, now: int, locked: set<TurnId>,
                     rows: seq<TurnId>, picked: Option<TurnId>)
    requires Inv(db) && Choice(db, Claim(sc, worker, seconds, now, locked, rows, picked))
    ensures var (d, r) := Apply(db, Claim(sc, worker, seconds, now, locked, rows, picked));
            ClaimAnswers(db, d, r, sc, worker, seconds, now, locked, rows, picked)
  {
    SweepIsEarliest(db, sc, now, locked, CLAIM_SWEEP, rows);
    PickIsOldest(db, sc, locked, picked);
    SweepIsExact(db, sc, rows);
    if picked.Some? {
      PickedRow(db, sc, rows, picked.value);
    }
    hide *;
    ClaimTakes(db, sc, worker, seconds, now, locked, rows, picked);
  }

  lemma ClaimTakes(db: Db, sc: Scope, worker: string, seconds: int, now: int, locked: set<TurnId>,
                   rows: seq<TurnId>, picked: Option<TurnId>)
    requires EarliestExpired(db, sc, now, locked, CLAIM_SWEEP, rows) && OldestQueued(db, sc, locked, picked)
    requires SweepAnswers(db, Sweep(db, sc, rows), sc, rows)
    requires picked.Some? ==> Takable(db, Sweep(db, sc, rows), sc, picked.value)
    ensures var (d, r) := ApplyClaim(db, sc, worker, seconds, now, rows, picked);
            ClaimAnswers(db, d, r, sc, worker, seconds, now, locked, rows, picked)
  {
    hide Sweep, SweepAnswers, EarliestExpired, ValidName, Advance, Moved, OldestQueued;
    if picked.Some? {
      TakenMoves(Sweep(db, sc, rows), sc, picked.value, worker, now + seconds);
      assert (sc, picked.value) in db.jobs;
    }
  }

  /** A queued row that is as it was, in a session that is there. */
  ghost predicate Takable(db: Db, d: Db, sc: Scope, t: TurnId) {
    && (sc, t) in db.jobs && (sc, t) in d.jobs && d.jobs[(sc, t)] == db.jobs[(sc, t)]
    && (sc, d.jobs[(sc, t)].session) in d.cursors && (sc, d.jobs[(sc, t)].session) in d.events
    && d.jobs[(sc, t)].fence == 0 && d.jobs[(sc, t)].attempts == 0 && d.jobs[(sc, t)].result == None
  }

  lemma TakenMoves(d: Db, sc: Scope, t: TurnId, worker: string, until: int)
    requires Takable(d, d, sc, t)
    ensures var j := d.jobs[(sc, t)];
            Moved(d, Advance(d, sc, t, Taken(j, worker, until), Running), sc, t,
                  Job(j.session, j.key, j.payload, Running, 1, 1, Some(worker), Some(until), j.created, None))
  {
  }

  /** The sweep leaves a queued row and its session alone. */
  lemma PickedRow(db: Db, sc: Scope, rows: seq<TurnId>, t: TurnId)
    requires Inv(db) && Distinct(rows) && IsQueued(db, sc, t)
    requires forall u :: u in rows ==> (sc, u) in db.jobs && db.jobs[(sc, u)].status == Running
    ensures Takable(db, Sweep(db, sc, rows), sc, t)
  {
    Theorems.SweptRow(db, sc, rows, sc, t);
    RowHasSession(db, sc, t);
  }
}
