/** The queue object itself: each method runs one transaction against the tables in place. */
module TurnQueue {
  import opened Common
  import opened TurnLedger
  import opened TurnLedgerAnswers
  import opened TurnLedgerProofs
  import Theorems = TurnLedgerTheorems

  /** The first of a non-empty set of timed rows, in the order of time and then id. */
  method Earliest(times: map<TurnId, int>) returns (t: TurnId)
    requires times != map[]
    ensures t in times
    ensures forall u :: u in times && u != t ==> Before(times[t], t, times[u], u)
  {
    assert times.Keys != {};
    t :| t in times.Keys;
    var rest := times.Keys - {t};
    while rest != {}
      invariant t in times && rest <= times.Keys
      invariant forall u :: u in times && u !in rest && u != t ==> Before(times[t], t, times[u], u)
      decreases rest
    {
      var u :| u in rest;
      if Before(times[u], u, times[t], t) {
        t := u;
      }
      rest := rest - {u};
    }
  }

  /** The next selected row is still as selected, and sweeping it is one more write. */
  lemma SweepNext(db: Db, sc: Scope, rows: seq<TurnId>, i: nat)
    requires Inv(db) && Distinct(rows) && i < |rows|
    requires forall t :: t in rows ==> (sc, t) in db.jobs && db.jobs[(sc, t)].status == Running
    ensures var d, t := Sweep(db, sc, rows[..i]), rows[i];
            && (sc, t) in d.jobs && d.jobs[(sc, t)] == db.jobs[(sc, t)]
            && (sc, d.jobs[(sc, t)].session) in d.cursors && (sc, d.jobs[(sc, t)].session) in d.events
            && Sweep(db, sc, rows[..i + 1]) == Advance(d, sc, t, Reaped(d.jobs[(sc, t)]), Failed)
  {
    var before, t := rows[..i], rows[i];
    assert rows[..i + 1] == before + [t] && Front(before + [t]) == before;
    forall u | u in before ensures u in rows && u != t {}
    Theorems.SweptRow(db, sc, before, sc, t);
  }

  /** What a claim needs to know of its picks: rows that run now, and a queued row the sweep leaves alone. */
  lemma ClaimPicks(db: Db, sc: Scope, now: int, locked: set<TurnId>, rows: seq<TurnId>, picked: Option<TurnId>)
    requires Inv(db) && IsSweep(db, sc, now, locked, CLAIM_SWEEP, rows) && IsPick(db, sc, locked, picked)
    ensures Distinct(rows) && forall t :: t in rows ==> (sc, t) in db.jobs && db.jobs[(sc, t)].status == Running
    ensures picked.Some? ==> Takable(db, Sweep(db, sc, rows), sc, picked.value)
  {
    if picked.Some? {
      PickedRow(db, sc, rows, picked.value);
    }
  }

  class Queue {
    var jobs: map<(Scope, TurnId), Job>
    var keys: map<(Scope, string), TurnId>
    var cursors: map<(Scope, string), nat>
    var events: map<(Scope, string), seq<Event>>

    function Tables(): Db
      reads this
    {
      Db(jobs, keys, cursors, events)
    }

    constructor ()
      ensures Tables() == EMPTY && Inv(Tables())
    {
      jobs, keys, cursors, events := map[], map[], map[], map[];
    }

    method Create(sc: Scope, session: string) returns (r: Outcome)
      requires Inv(Tables())
      modifies this
      ensures Inv(Tables()) && (Tables(), r) == Apply(old(Tables()), CreateSession(sc, session))
      ensures CreateAnswers(old(Tables()), Tables(), r, sc, session)
    {
      StepKeepsInv(Tables(), CreateSession(sc, session));
      if !ValidSession(session) {
        return Rejected(InvalidArgument);
      }
      if (sc, session) in cursors {
        return Created(false);
      }
      cursors := cursors[(sc, session) := 0];
      events := events[(sc, session) := []];
      return Created(true);
    }

    /** Writes a row, takes the session's next number and inserts the event row. */
    method Write(sc: Scope, t: TurnId, j: Job, state: Status)
      requires (sc, j.session) in cursors && (sc, j.session) in events
      modifies this`jobs, this`cursors, this`events
      ensures Tables() == Advance(old(Tables()), sc, t, j, state)
      ensures jobs == old(jobs)[(sc, t) := j]
    {
      var s := (sc, j.session);
      jobs := jobs[(sc, t) := j];
      cursors := cursors[s := cursors[s] + 1];
      events := events[s := events[s] + [Event(cursors[s], t, state, j.fence)]];
    }

    /** A retry of the same work answers with the turn it already has and writes nothing. */
    method Enqueue(sc: Scope, session: string, key: string, payload: Payload, newId: TurnId, now: int)
      returns (r: Outcome)
      requires Inv(Tables())
      requires (sc, newId) !in jobs
      modifies this
      ensures Inv(Tables())
      ensures (Tables(), r) == Apply(old(Tables()), TurnLedger.Enqueue(sc, session, key, payload, newId, now))
      ensures EnqueueAnswers(old(Tables()), Tables(), r, sc, session, key, payload, newId, now)
    {
      ghost var op := TurnLedger.Enqueue(sc, session, key, payload, newId, now);
      StepKeepsInv(Tables(), op);
      EnqueueIsExact(Tables(), sc, session, key, payload, newId, now);
      if !ValidSession(session) || !ValidName(key) || payload.encodedLength > MAX_JSON {
        return Rejected(InvalidArgument);
      }
      if (sc, key) in keys {
        var t := keys[(sc, key)];
        ExistingTurnHasEvent(Tables(), sc, t);
        if jobs[(sc, t)].session != session || jobs[(sc, t)].payload != payload.content {
          return Rejected(IdempotencyConflict);
        }
        return Turn(t);
      }
      if (sc, session) !in cursors {
        return Rejected(NoSession);
      }
      keys := keys[(sc, key) := newId];
      Write(sc, newId, Job(session, key, payload.content, Queued, 0, 0, None, None, now, None), Queued);
      return Turn(newId);
    }

    function Ids(sc: Scope): (ids: set<TurnId>)
      reads this
      ensures forall t :: t in ids <==> (sc, t) in jobs
    {
      var ids := set r | r in jobs.Keys && r.0 == sc :: r.1;
      assert forall t :: (sc, t) in jobs ==> (sc, t) in jobs.Keys && (sc, t).1 in ids;
      ids
    }

    /** The sweep's SELECT: repeatedly the earliest expired unlocked row, up to the limit. */
    method SelectExpired(sc: Scope, now: int, locked: set<TurnId>, limit: nat) returns (rows: seq<TurnId>)
      ensures IsSweep(Tables(), sc, now, locked, limit, rows)
      ensures EarliestExpired(Tables(), sc, now, locked, limit, rows)
    {
      rows := [];
      var all := map t | t in Ids(sc) && Expired(Tables(), sc, t, now) && t !in locked :: LeaseEnd(Tables(), sc, t);
      var left := all;
      while left != map[] && |rows| < limit
        invariant |rows| <= limit && Distinct(rows)
        invariant forall t :: t in left ==> t in all && left[t] == all[t] && t !in rows
        invariant forall t :: t in all ==> t in rows || t in left
        invariant forall t :: t in rows ==> t in all
        invariant forall t, u :: t in rows && u in left ==> Before(all[t], t, all[u], u)
        decreases limit - |rows|
      {
        var t := Earliest(left);
        rows := rows + [t];
        left := left - {t};
      }
      assert left == map[] ==> forall u :: u !in left;
      SweepIsEarliest(Tables(), sc, now, locked, limit, rows);
    }

    /** The claim's SELECT: the oldest queued unlocked row. */
    method SelectQueued(sc: Scope, locked: set<TurnId>) returns (picked: Option<TurnId>)
      ensures IsPick(Tables(), sc, locked, picked) && OldestQueued(Tables(), sc, locked, picked)
    {
      var all := map t | t in Ids(sc) && IsQueued(Tables(), sc, t) && t !in locked :: CreatedAt(Tables(), sc, t);
      assert forall t :: IsQueued(Tables(), sc, t) && t !in locked ==> t in Ids(sc) && t in all;
      if all == map[] {
        return None;
      }
      var t := Earliest(all);
      PickIsOldest(Tables(), sc, locked, Some(t));
      return Some(t);
    }

    /** Turns each selected row into an uncertain failure and records it, row by row. */
    method ReapRows(sc: Scope, rows: seq<TurnId>)
      requires Inv(Tables()) && Distinct(rows)
      requires forall t :: t in rows ==> (sc, t) in jobs && jobs[(sc, t)].status == Running
      modifies this
      ensures Inv(Tables()) && Tables() == Sweep(old(Tables()), sc, rows)
      ensures SweepAnswers(old(Tables()), Tables(), sc, rows)
    {
      assert rows[..0] == [];
      ghost var before := Tables();
      for i := 0 to |rows|
        invariant Tables() == Sweep(before, sc, rows[..i])
      {
        SweepNext(before, sc, rows, i);
        var j := jobs[(sc, rows[i])];
        Write(sc, rows[i], j.(status := Failed, result := Some(LEASE_EXPIRED), leaseOwner := None,
                              leaseUntil := None, fence := j.fence + 1), Failed);
      }
      assert rows[..|rows|] == rows;
      SweepKeepsInv(before, sc, rows);
      SweepIsExact(before, sc, rows);
    }

    /** Marks expired executions as terminal failures; `locked` rows belong to other transactions. */
    method ReapExpired(sc: Scope, limit: int, now: int, locked: set<TurnId>) returns (r: Outcome, ghost op: Op)
      requires Inv(Tables())
      modifies this
      ensures Inv(Tables()) && Choice(old(Tables()), op) && (Tables(), r) == Apply(old(Tables()), op)
      ensures op.Reap? && (op.scope, op.limit, op.now, op.locked) == (sc, limit, now, locked)
      ensures 1 <= limit <= 1000 ==> EarliestExpired(old(Tables()), sc, now, locked, limit, op.expired)
      ensures ReapAnswers(old(Tables()), Tables(), r, sc, limit, op.expired)
    {
      if !(1 <= limit <= 1000) {
        return Rejected(InvalidArgument), Reap(sc, limit, now, locked, []);
      }
      var rows := SelectExpired(sc, now, locked, limit);
      ReapRows(sc, rows);
      return Count(|rows|), Reap(sc, limit, now, locked, rows);
    }

    /** Sweeps, then hands out the oldest queued turn under a new fence. */
    method Claim(sc: Scope, worker: string, seconds: int, now: int, locked: set<TurnId>)
      returns (r: Outcome, ghost op: Op)
      requires Inv(Tables())
      modifies this
      ensures Inv(Tables()) && Choice(old(Tables()), op) && (Tables(), r) == Apply(old(Tables()), op)
      ensures op.Claim? && (op.scope, op.worker, op.seconds, op.now, op.locked) == (sc, worker, seconds, now, locked)
      ensures ClaimAnswers(old(Tables()), Tables(), r, sc, worker, seconds, now, locked, op.expired, op.picked)
    {
      hide Inv, ClaimAnswers, SweepAnswers, EarliestExpired, OldestQueued, ValidName, IsSweep, IsPick, Sweep;
      op := TurnLedger.Claim(sc, worker, seconds, now, locked, [], None);
      var rows := SelectExpired(sc, now, locked, CLAIM_SWEEP);
      var picked := SelectQueued(sc, locked);
      op := TurnLedger.Claim(sc, worker, seconds, now, locked, rows, picked);
      StepKeepsInv(Tables(), op);
      ClaimIsExact(Tables(), sc, worker, seconds, now, locked, rows, picked);
      ClaimPicks(Tables(), sc, now, locked, rows, picked);
      if !ValidName(worker) || !(1 <= seconds <= MAX_LEASE_SECONDS) {
        return Rejected(InvalidArgument), op;
      }
      ReapRows(sc, rows);
      if picked.None? {
        return Nothing, op;
      }
      var t := picked.value;
      var j := jobs[(sc, t)];
      j := j.(status := Running, fence := j.fence + 1, attempts := j.attempts + 1,
              leaseOwner := Some(worker), leaseUntil := Some(now + seconds));
      Write(sc, t, j, Running);
      return Leased(t, j.payload, j.fence, j.attempts), op;
    }

    /** Revokes a queued or running turn, and only such a turn. */
    method Cancel(sc: Scope, t: TurnId) returns (r: Outcome)
      requires Inv(Tables())
      modifies this
      ensures Inv(Tables()) && (Tables(), r) == Apply(old(Tables()), TurnLedger.Cancel(sc, t))
      ensures CancelAnswers(old(Tables()), Tables(), r, sc, t)
    {
      hide Inv;
      StepKeepsInv(Tables(), TurnLedger.Cancel(sc, t));
      CancelIsExact(Tables(), sc, t);
      if (sc, t) !in jobs || (jobs[(sc, t)].status != Queued && jobs[(sc, t)].status != Running) {
        return Flag(false);
      }
      RowHasSession(Tables(), sc, t);
      var j := jobs[(sc, t)];
      Write(sc, t, j.(status := Cancelled, fence := j.fence + 1, leaseOwner := None, leaseUntil := None), Cancelled);
      return Flag(true);
    }

    /** Renew, complete or fail: one update guarded by owner, fence, status and an unexpired lease. */
    method LeaseUpdate(sc: Scope, t: TurnId, worker: string, fence: int, action: LeaseAction, now: int)
      returns (r: Outcome)
      requires Inv(Tables())
      modifies this
      ensures Inv(Tables()) && (Tables(), r) == Apply(old(Tables()), Lease(sc, t, worker, fence, action, now))
      ensures LeaseAnswers(old(Tables()), Tables(), r, sc, t, worker, fence, action, now)
    {
      hide Inv, LeaseAnswers, ValidName;
      StepKeepsInv(Tables(), Lease(sc, t, worker, fence, action, now));
      LeaseIsExact(Tables(), sc, t, worker, fence, action, now);
      if !ValidName(worker) || fence < 1 || !ValidAction(action) {
        return Rejected(InvalidArgument);
      }
      if !Held(Tables(), sc, t, worker, fence, now) {
        return Flag(false);
      }
      RowHasSession(Tables(), sc, t);
      var j := jobs[(sc, t)];
      match action {
        case Renew(seconds) =>
          jobs := jobs[(sc, t) := j.(leaseUntil := Some(now + seconds))];
        case Complete(result) =>
          Write(sc, t, j.(status := Completed, result := Some(result.content), leaseOwner := None, leaseUntil := None),
                Completed);
        case Fail(kind) =>
          Write(sc, t, j.(status := Failed, result := Some(kind), leaseOwner := None, leaseUntil := None), Failed);
      }
      return Flag(true);
    }

    /** Replays a session's events after a cursor; an unknown session is an error, not an empty page. */
    method Events(sc: Scope, session: string, after: int, limit: int) returns (r: Result<seq<Event>, Error>)
      requires Inv(Tables())
      ensures r == if !ValidSession(session) || after < 0 || after > 0x7FFF_FFFF_FFFF_FFFF || limit < 1 || limit > 100
                   then Err(InvalidArgument)
                   else if (sc, session) !in cursors then Err(NoSession)
                   else var rows := events[(sc, session)];
                        var from := Theorems.Min(after, |rows|);
                        Ok(rows[from..Theorems.Min(from + limit, |rows|)])
    {
      if !ValidSession(session) || after < 0 || after > 0x7FFF_FFFF_FFFF_FFFF || limit < 1 || limit > 100 {
        return Err(InvalidArgument);
      }
      if (sc, session) !in cursors {
        return Err(NoSession);
      }
      Theorems.ReplayPage(Tables(), sc, session, after, limit);
      return Ok(Theorems.After(events[(sc, session)], after, limit));
    }
  }
}
