/** Fencing, idempotency, isolation and replay over whole runs of the turn ledger. */
module TurnLedgerTheorems {
  import opened Common
  import opened TurnLedger
  import opened TurnLedgerProofs

  predicate Ended(s: Status) {
    s == Completed || s == Failed || s == Cancelled
  }

  /** queued, then perhaps running, then at most one terminal state; fences never fall. */
  ghost predicate Lifecycle(h: seq<Mark>) {
    && h != [] && h[0] == Mark(Queued, 0)
    && (forall i :: 1 <= i < |h| ==> h[i].state != Queued && h[i - 1].fence <= h[i].fence)
    && (forall i :: 0 <= i < |h| && h[i].state == Running ==> i == 1)
    && (forall i :: 0 <= i < |h| && Ended(h[i].state) ==> i == |h| - 1)
  }

  /**
   In every run the event log refines the job table: numbers run 1..cursor in each session, every
   row is about a turn of that session, and each turn's rows tell one life ending in its current state.
   */
  lemma EventLogRefinesJobs(ops: seq<Op>)
    requires Feasible(EMPTY, ops)
    ensures var db := Exec(EMPTY, ops);
            && (forall sc, s :: (sc, s) in db.cursors ==>
                  (sc, s) in db.events && Numbered(db.events[(sc, s)], db.cursors[(sc, s)]))
            && (forall sc, s, i :: (sc, s) in db.events && 0 <= i < |db.events[(sc, s)]| ==>
                  RowBelongs(db, sc, s, db.events[(sc, s)][i]))
            && (forall sc, t :: (sc, t) in db.jobs ==>
                  && (sc, db.jobs[(sc, t)].session) in db.events
                  && Lifecycle(TurnHistory(db, sc, t))
                  && Last(TurnHistory(db, sc, t)) == Mark(db.jobs[(sc, t)].status, db.jobs[(sc, t)].fence))
  {
    var db := Exec(EMPTY, ops);
    RunKeepsInv(EMPTY, ops);
    hide Exec, Feasible, Tells, Lifecycle, History;
    forall sc, t | (sc, t) in db.jobs
      ensures Lifecycle(TurnHistory(db, sc, t))
      ensures Last(TurnHistory(db, sc, t)) == Mark(db.jobs[(sc, t)].status, db.jobs[(sc, t)].fence)
    {
      TellsLife(TurnHistory(db, sc, t), db.jobs[(sc, t)]);
    }
  }

  lemma TellsLife(h: seq<Mark>, j: Job)
    requires Tells(h, j)
    ensures Lifecycle(h) && Last(h) == Mark(j.status, j.fence)
  {
  }

  // ---------- Fencing ----------

  predicate ClaimsTurn(db: Db, op: Op, sc: Scope, t: TurnId) {
    op.Claim? && op.scope == sc && Apply(db, op).1.Leased? && Apply(db, op).1.id == t
  }

  /** A complete or fail call that returned true. */
  predicate Publishes(db: Db, op: Op, sc: Scope, t: TurnId) {
    op.Lease? && op.scope == sc && op.turn == t && !op.action.Renew? && Apply(db, op).1 == Flag(true)
  }

  predicate Renews(db: Db, op: Op, sc: Scope, t: TurnId) {
    op.Lease? && op.scope == sc && op.turn == t && op.action.Renew? && Apply(db, op).1 == Flag(true)
  }

  predicate EndedAt(db: Db, sc: Scope, t: TurnId) {
    (sc, t) in db.jobs && Ended(db.jobs[(sc, t)].status)
  }

  function Attempts(db: Db, sc: Scope, t: TurnId): nat {
    if (sc, t) in db.jobs then db.jobs[(sc, t)].attempts else 0
  }

  /** How one transaction can change one row, by whether it claimed or published it. */
  ghost predicate RowStep(j: Job, j': Job, claimed: bool, worker: string, until: int, published: bool) {
    && (j'.session, j'.key, j'.payload, j'.created) == (j.session, j.key, j.payload, j.created)
    && (claimed ==> j.status == Queued && j' == Taken(j, worker, until))
    && (!claimed ==> j'.attempts == j.attempts)
    && (published ==> j.status == Running && Ended(j'.status) && j'.fence == j.fence)
    && (Ended(j.status) ==> j' == j)
    && (j'.status == Queued ==> j' == j)
    && (j'.status == Running && !claimed ==> j.status == Running && j'.leaseOwner == j.leaseOwner)
  }

  ghost predicate TurnStep(db: Db, op: Op, sc: Scope, t: TurnId)
    requires (sc, t) in db.jobs
  {
    var d, claimed := Apply(db, op).0, ClaimsTurn(db, op, sc, t);
    && (sc, t) in d.jobs
    && RowStep(db.jobs[(sc, t)], d.jobs[(sc, t)], claimed, if claimed then op.worker else "",
               if claimed then op.now + op.seconds else 0, Publishes(db, op, sc, t))
    && (claimed ==>
          Apply(db, op).1 == Leased(t, d.jobs[(sc, t)].payload, d.jobs[(sc, t)].fence, d.jobs[(sc, t)].attempts))
  }

  lemma SweptRow(db: Db, sc: Scope, rows: seq<TurnId>, sc': Scope, t: TurnId)
    requires Inv(db) && Distinct(rows)
    requires forall u :: u in rows ==> (sc, u) in db.jobs && db.jobs[(sc, u)].status == Running
    ensures var d := Sweep(db, sc, rows);
            && ((sc', t) in d.jobs <==> (sc', t) in db.jobs)
            && ((sc', t) in db.jobs ==>
                  && d.jobs[(sc', t)] == (if sc' == sc && t in rows then Reaped(db.jobs[(sc', t)])
                                          else db.jobs[(sc', t)])
                  && (sc', db.jobs[(sc', t)].session) in d.cursors
                  && (sc', db.jobs[(sc', t)].session) in d.events)
  {
    SweepKeepsInv(db, sc, rows);
    var d := Sweep(db, sc, rows);
    assert (sc', t) in d.jobs <==> (sc', t) in d.jobs.Keys;
  }

  lemma AdvanceMovesRow(db: Db, sc: Scope, t: TurnId, j: Job, state: Status)
    requires SessionsHold(db) && (sc, j.session) in db.events
    ensures Advance(db, sc, t, j, state).jobs == db.jobs[(sc, t) := j]
  {
  }

  lemma ClaimMovesTurn(db: Db, op: Op, sc: Scope, t: TurnId)
    requires Inv(db) && Choice(db, op) && (sc, t) in db.jobs && op.Claim?
    ensures TurnStep(db, op, sc, t)
  {
    hide Inv, Sweep, ValidName;
    SweptRow(db, op.scope, op.expired, sc, t);
    if ValidName(op.worker) && 1 <= op.seconds <= MAX_LEASE_SECONDS && op.picked.Some? {
      SweptRow(db, op.scope, op.expired, op.scope, op.picked.value);
      var d := Sweep(db, op.scope, op.expired);
      var j := Taken(d.jobs[(op.scope, op.picked.value)], op.worker, op.now + op.seconds);
      assert Apply(db, op).0.jobs == d.jobs[(op.scope, op.picked.value) := j];
    }
  }

  lemma LeaseMovesTurn(db: Db, op: Op, sc: Scope, t: TurnId)
    requires SessionsHold(db) && (sc, t) in db.jobs && op.Lease?
    ensures TurnStep(db, op, sc, t)
  {
    var j := if (op.scope, op.turn) in db.jobs then db.jobs[(op.scope, op.turn)] else db.jobs[(sc, t)];
    if ValidName(op.worker) && op.fence >= 1 && ValidAction(op.action)
       && Held(db, op.scope, op.turn, op.worker, op.fence, op.now)
    {
      match op.action
      case Renew(_) =>
      case Complete(r) => AdvanceMovesRow(db, op.scope, op.turn, Finished(j, Completed, r.content), Completed);
      case Fail(kind) => AdvanceMovesRow(db, op.scope, op.turn, Finished(j, Failed, kind), Failed);
    }
  }

  lemma CancelMovesTurn(db: Db, op: Op, sc: Scope, t: TurnId)
    requires SessionsHold(db) && (sc, t) in db.jobs && op.Cancel?
    ensures TurnStep(db, op, sc, t)
  {
    if (op.scope, op.turn) in db.jobs {
      AdvanceMovesRow(db, op.scope, op.turn, Revoked(db.jobs[(op.scope, op.turn)]), Cancelled);
    }
  }

  lemma EnqueueMovesTurn(db: Db, op: Op, sc: Scope, t: TurnId)
    requires Inv(db) && Choice(db, op) && (sc, t) in db.jobs && op.Enqueue?
    ensures TurnStep(db, op, sc, t)
  {
    if (op.scope, op.key) in db.keys {
      ExistingTurnHasEvent(db, op.scope, db.keys[(op.scope, op.key)]);
    }
  }

  lemma StepMovesTurn(db: Db, op: Op, sc: Scope, t: TurnId)
    requires Inv(db) && Choice(db, op) && (sc, t) in db.jobs
    ensures TurnStep(db, op, sc, t)
  {
    match op
    case CreateSession(_, _) =>
    case Claim(_, _, _, _, _, _, _) => ClaimMovesTurn(db, op, sc, t);
    case Reap(sc', limit, _, _, expired) =>
      if 1 <= limit <= 1000 {
        SweptRow(db, sc', expired, sc, t);
      }
    case Enqueue(_, _, _, _, _, _) => EnqueueMovesTurn(db, op, sc, t);
    case Cancel(_, _) => CancelMovesTurn(db, op, sc, t);
    case Lease(_, _, _, _, _, _) => LeaseMovesTurn(db, op, sc, t);
  }

  /** A turn not yet in the table can only be added, queued and never attempted. */
  lemma StepAddsTurn(db: Db, op: Op, sc: Scope, t: TurnId)
    requires Inv(db) && Choice(db, op) && (sc, t) !in db.jobs
    ensures !ClaimsTurn(db, op, sc, t) && !Publishes(db, op, sc, t)
    ensures var d := Apply(db, op).0;
            (sc, t) in d.jobs ==> op.Enqueue? && d.jobs[(sc, t)].status == Queued && d.jobs[(sc, t)].attempts == 0
  {
    match op
    case Claim(sc', _, _, _, _, expired, picked) => SweepKeepsInv(db, sc', expired);
    case Reap(sc', limit, _, _, expired) =>
      if 1 <= limit <= 1000 {
        SweepKeepsInv(db, sc', expired);
      }
    case _ =>
  }

  function Claims(db: Db, ops: seq<Op>, sc: Scope, t: TurnId): nat {
    if ops == [] then 0
    else Claims(db, Front(ops), sc, t) + if ClaimsTurn(Exec(db, Front(ops)), Last(ops), sc, t) then 1 else 0
  }

  function Publications(db: Db, ops: seq<Op>, sc: Scope, t: TurnId): nat {
    if ops == [] then 0
    else Publications(db, Front(ops), sc, t) + if Publishes(Exec(db, Front(ops)), Last(ops), sc, t) then 1 else 0
  }

  lemma {:induction false} RunCounts(db: Db, ops: seq<Op>, sc: Scope, t: TurnId)
    requires Inv(db) && Feasible(db, ops)
    ensures Claims(db, ops, sc, t) == Attempts(Exec(db, ops), sc, t) - Attempts(db, sc, t)
    ensures Publications(db, ops, sc, t) + (if EndedAt(db, sc, t) then 1 else 0)
            <= (if EndedAt(Exec(db, ops), sc, t) then 1 else 0)
    ensures (sc, t) in db.jobs ==> (sc, t) in Exec(db, ops).jobs
  {
    if ops == [] {
    } else {
      FeasibleFront(db, ops);
      var mid := Exec(db, Front(ops));
      RunCounts(db, Front(ops), sc, t);
      RunKeepsInv(db, Front(ops));
      if (sc, t) in mid.jobs {
        StepMovesTurn(mid, Last(ops), sc, t);
      } else {
        StepAddsTurn(mid, Last(ops), sc, t);
      }
    }
  }

  /** However workers interleave, a turn is handed out at most once and finished by at most one call. */
  lemma ClaimedAndPublishedAtMostOnce(ops: seq<Op>, sc: Scope, t: TurnId)
    requires Feasible(EMPTY, ops)
    ensures Publications(EMPTY, ops, sc, t) <= Claims(EMPTY, ops, sc, t) <= 1
    ensures Claims(EMPTY, ops, sc, t) == Attempts(Exec(EMPTY, ops), sc, t)
  {
    RunKeepsInv(EMPTY, ops);
    RunCounts(EMPTY, ops, sc, t);
    var db := Exec(EMPTY, ops);
    if (sc, t) in db.jobs {
      assert Tells(TurnHistory(db, sc, t), db.jobs[(sc, t)]);
    }
    PublishedWasClaimed(ops, sc, t);
  }

  /** A finished count implies a claim before it. */
  lemma {:induction false} PublishedWasClaimed(ops: seq<Op>, sc: Scope, t: TurnId)
    requires Feasible(EMPTY, ops)
    ensures Publications(EMPTY, ops, sc, t) <= Claims(EMPTY, ops, sc, t)
  {
    if ops == [] {
    } else {
      FeasibleFront(EMPTY, ops);
      var mid := Exec(EMPTY, Front(ops));
      PublishedWasClaimed(Front(ops), sc, t);
      RunKeepsInv(EMPTY, Front(ops));
      RunCounts(EMPTY, Front(ops), sc, t);
      if Publishes(mid, Last(ops), sc, t) {
        assert Tells(TurnHistory(mid, sc, t), mid.jobs[(sc, t)]);
      }
    }
  }

  ghost predicate ClaimedAt(ops: seq<Op>, k: nat, sc: Scope, t: TurnId, worker: string, fence: int) {
    && k < |ops|
    && ClaimsTurn(Exec(EMPTY, ops[..k]), ops[k], sc, t)
    && ops[k].worker == worker
    && Apply(Exec(EMPTY, ops[..k]), ops[k]).1.fence == fence
  }

  lemma {:induction false} RunningWasClaimed(ops: seq<Op>, sc: Scope, t: TurnId) returns (k: nat)
    requires Feasible(EMPTY, ops)
    requires var db := Exec(EMPTY, ops); (sc, t) in db.jobs && db.jobs[(sc, t)].status == Running
    ensures var j := Exec(EMPTY, ops).jobs[(sc, t)];
            j.leaseOwner.Some? && ClaimedAt(ops, k, sc, t, j.leaseOwner.value, j.fence)
    decreases |ops|
  {
    var front, op := Front(ops), Last(ops);
    FeasibleFront(EMPTY, ops);
    RunKeepsInv(EMPTY, front);
    RunKeepsInv(EMPTY, ops);
    var mid := Exec(EMPTY, front);
    assert ops[..|ops| - 1] == front;
    RunningFence(Exec(EMPTY, ops), sc, t);
    if (sc, t) !in mid.jobs {
      StepAddsTurn(mid, op, sc, t);
      assert false;
    } else {
      StepMovesTurn(mid, op, sc, t);
      assert Tells(TurnHistory(mid, sc, t), mid.jobs[(sc, t)]);
      if ClaimsTurn(mid, op, sc, t) {
        k := |ops| - 1;
      } else {
        RunningFence(mid, sc, t);
        k := RunningWasClaimed(front, sc, t);
        assert front[..k] == ops[..k];
      }
    }
  }

  /**
   Whoever renews, completes or fails a turn is the worker that claimed it, presents the fence that
   claim returned, and holds an unexpired lease.
   */
  lemma OnlyTheClaimantSucceeds(ops: seq<Op>, i: nat, sc: Scope, t: TurnId) returns (k: nat)
    requires Feasible(EMPTY, ops) && i < |ops|
    requires Publishes(Exec(EMPTY, ops[..i]), ops[i], sc, t) || Renews(Exec(EMPTY, ops[..i]), ops[i], sc, t)
    ensures k < i && ClaimedAt(ops, k, sc, t, ops[i].worker, ops[i].fence)
    ensures var before := Exec(EMPTY, ops[..i]);
            (sc, t) in before.jobs && before.jobs[(sc, t)].leaseUntil.Some?
            && ops[i].now < before.jobs[(sc, t)].leaseUntil.value
  {
    var before := ops[..i];
    forall q | 0 <= q < |before| ensures Choice(Exec(EMPTY, before[..q]), before[q]) {
      assert before[..q] == ops[..q];
    }
    k := RunningWasClaimed(before, sc, t);
    assert before[..k] == ops[..k];
  }

  /** Once finished, reaped or cancelled, a turn's row never changes again and no call on it succeeds. */
  lemma {:induction false} EndedForever(db: Db, ops: seq<Op>, sc: Scope, t: TurnId)
    requires Inv(db) && Feasible(db, ops) && EndedAt(db, sc, t)
    ensures (sc, t) in Exec(db, ops).jobs && Exec(db, ops).jobs[(sc, t)] == db.jobs[(sc, t)]
    ensures forall worker, fence, action, now ::
              Apply(Exec(db, ops), Lease(sc, t, worker, fence, action, now)).1 != Flag(true)
    ensures Apply(Exec(db, ops), Cancel(sc, t)) == (Exec(db, ops), Flag(false))
    ensures forall op :: Choice(Exec(db, ops), op) ==> !ClaimsTurn(Exec(db, ops), op, sc, t)
  {
    if ops == [] {
    } else {
      FeasibleFront(db, ops);
      EndedForever(db, Front(ops), sc, t);
      RunKeepsInv(db, Front(ops));
      StepMovesTurn(Exec(db, Front(ops)), Last(ops), sc, t);
    }
    RunKeepsInv(db, ops);
    forall op | Choice(Exec(db, ops), op) ensures !ClaimsTurn(Exec(db, ops), op, sc, t) {
      StepMovesTurn(Exec(db, ops), op, sc, t);
    }
  }

  // ---------- Idempotent enqueue ----------

  lemma {:induction false} KeyStays(db: Db, ops: seq<Op>, sc: Scope, t: TurnId)
    requires Inv(db) && Feasible(db, ops) && (sc, t) in db.jobs
    ensures var d := Exec(db, ops);
            && (sc, t) in d.jobs
            && d.jobs[(sc, t)].session == db.jobs[(sc, t)].session
            && d.jobs[(sc, t)].payload == db.jobs[(sc, t)].payload
            && d.jobs[(sc, t)].key == db.jobs[(sc, t)].key
  {
    if ops == [] {
    } else {
      FeasibleFront(db, ops);
      KeyStays(db, Front(ops), sc, t);
      RunKeepsInv(db, Front(ops));
      StepMovesTurn(Exec(db, Front(ops)), Last(ops), sc, t);
    }
  }

  /**
   After an accepted enqueue and any later run, even one that ended the turn, the same key with the
   same work returns the same turn and changes nothing; the same key with other work is refused and
   changes nothing.
   */
  lemma EnqueueIsIdempotent(db: Db, first: Op, ops: seq<Op>, retry: Op)
    requires Inv(db) && first.Enqueue? && Choice(db, first) && Apply(db, first).1.Turn?
    requires Feasible(Apply(db, first).0, ops)
    requires retry.Enqueue? && retry.scope == first.scope && retry.key == first.key
    requires ValidSession(retry.session) && retry.payload.encodedLength <= MAX_JSON
    ensures var d := Exec(Apply(db, first).0, ops);
            Apply(d, retry) == (d, if retry.session == first.session && retry.payload.content == first.payload.content
                                   then Apply(db, first).1 else Rejected(IdempotencyConflict))
  {
    var sc, t, mid := first.scope, Apply(db, first).1.id, Apply(db, first).0;
    StepKeepsInv(db, first);
    if (sc, first.key) in db.keys {
      ExistingTurnHasEvent(db, sc, t);
    }
    assert (sc, t) in mid.jobs && mid.jobs[(sc, t)].key == first.key;
    KeyStays(mid, ops, sc, t);
    RunKeepsInv(mid, ops);
    ExistingTurnHasEvent(Exec(mid, ops), sc, t);
  }

  // ---------- Scope isolation ----------

  /** One owner's view of the four tables. */
  ghost predicate SameFor(a: Db, b: Db, sc: Scope) {
    && (forall t :: (sc, t) in a.jobs <==> (sc, t) in b.jobs)
    && (forall t :: (sc, t) in a.jobs ==> a.jobs[(sc, t)] == b.jobs[(sc, t)])
    && (forall k :: (sc, k) in a.keys <==> (sc, k) in b.keys)
    && (forall k :: (sc, k) in a.keys ==> a.keys[(sc, k)] == b.keys[(sc, k)])
    && (forall s :: (sc, s) in a.cursors <==> (sc, s) in b.cursors)
    && (forall s :: (sc, s) in a.cursors ==> a.cursors[(sc, s)] == b.cursors[(sc, s)])
    && (forall s :: (sc, s) in a.events <==> (sc, s) in b.events)
    && (forall s :: (sc, s) in a.events ==> a.events[(sc, s)] == b.events[(sc, s)])
  }

  lemma AdvanceIsolated(db: Db, sc: Scope, t: TurnId, j: Job, state: Status, other: Scope)
    requires other != sc
    ensures SameFor(db, Advance(db, sc, t, j, state), other)
  {
  }

  lemma SameForTransitive(a: Db, b: Db, c: Db, sc: Scope)
    requires SameFor(a, b, sc) && SameFor(b, c, sc)
    ensures SameFor(a, c, sc)
  {
  }

  lemma {:induction false} SweepIsolated(db: Db, sc: Scope, rows: seq<TurnId>, other: Scope)
    requires other != sc
    ensures SameFor(db, Sweep(db, sc, rows), other)
  {
    if rows == [] {
    } else {
      SweepIsolated(db, sc, Front(rows), other);
      var d, t := Sweep(db, sc, Front(rows)), Last(rows);
      if (sc, t) in d.jobs {
        AdvanceIsolated(d, sc, t, Reaped(d.jobs[(sc, t)]), Failed, other);
        SameForTransitive(db, d, Sweep(db, sc, rows), other);
      }
    }
  }

  lemma EnqueueIsolated(db: Db, op: Op, other: Scope)
    requires op.Enqueue? && op.scope != other
    ensures SameFor(db, Apply(db, op).0, other)
  {
    var sc := op.scope;
    if (sc, op.key) in db.keys {
      var t := db.keys[(sc, op.key)];
      if (sc, t) in db.jobs {
        AdvanceIsolated(db, sc, t, db.jobs[(sc, t)], Queued, other);
      }
    } else {
      var k := db.(keys := db.keys[(sc, op.key) := op.newId]);
      AdvanceIsolated(k, sc, op.newId, NewJob(op.session, op.key, op.payload, op.now), Queued, other);
    }
  }

  lemma ClaimIsolated(db: Db, op: Op, other: Scope)
    requires op.Claim? && op.scope != other
    ensures SameFor(db, Apply(db, op).0, other)
  {
    var d, sc := Sweep(db, op.scope, op.expired), op.scope;
    SweepIsolated(db, sc, op.expired, other);
    if op.picked.Some? && (sc, op.picked.value) in d.jobs {
      var j := Taken(d.jobs[(sc, op.picked.value)], op.worker, op.now + op.seconds);
      AdvanceIsolated(d, sc, op.picked.value, j, Running, other);
      SameForTransitive(db, d, Advance(d, sc, op.picked.value, j, Running), other);
    }
  }

  lemma LeaseIsolated(db: Db, op: Op, other: Scope)
    requires op.Lease? && op.scope != other
    ensures SameFor(db, Apply(db, op).0, other)
  {
    if (op.scope, op.turn) in db.jobs {
      var j := db.jobs[(op.scope, op.turn)];
      match op.action
      case Renew(_) =>
      case Complete(r) => AdvanceIsolated(db, op.scope, op.turn, Finished(j, Completed, r.content), Completed, other);
      case Fail(kind) => AdvanceIsolated(db, op.scope, op.turn, Finished(j, Failed, kind), Failed, other);
    }
  }

  lemma StepIsolated(db: Db, op: Op, other: Scope)
    requires op.scope != other
    ensures SameFor(db, Apply(db, op).0, other)
  {
    match op
    case CreateSession(_, _) =>
    case Enqueue(_, _, _, _, _, _) => EnqueueIsolated(db, op, other);
    case Claim(_, _, _, _, _, _, _) => ClaimIsolated(db, op, other);
    case Reap(sc, _, _, _, expired) => SweepIsolated(db, sc, expired, other);
    case Cancel(sc, t) =>
      if (sc, t) in db.jobs {
        AdvanceIsolated(db, sc, t, Revoked(db.jobs[(sc, t)]), Cancelled, other);
      }
    case Lease(_, _, _, _, _, _) => LeaseIsolated(db, op, other);
  }

  /** No run of other owners' transactions changes anything an owner can see. */
  lemma {:induction false} ScopesAreIsolated(db: Db, ops: seq<Op>, other: Scope)
    requires forall i :: 0 <= i < |ops| ==> ops[i].scope != other
    ensures SameFor(db, Exec(db, ops), other)
  {
    if ops == [] {
    } else {
      ScopesAreIsolated(db, Front(ops), other);
      StepIsolated(Exec(db, Front(ops)), Last(ops), other);
    }
  }

  // ---------- Replay ----------

  /** The rows after a cursor, in order, up to a limit. */
  function After(rows: seq<Event>, after: nat, limit: nat): seq<Event> {
    if rows == [] || limit == 0 then []
    else if rows[0].number > after then [rows[0]] + After(rows[1..], after, limit - 1)
    else After(rows[1..], after, limit)
  }

  function Min(a: nat, b: nat): nat {
    if a < b then a else b
  }

  lemma {:induction false} AfterFromOffset(rows: seq<Event>, offset: nat, after: nat, limit: nat)
    requires forall i :: 0 <= i < |rows| ==> rows[i].number == offset + i + 1
    ensures var skip := Min(if after < offset then 0 else after - offset, |rows|);
            After(rows, after, limit) == rows[skip..Min(skip + limit, |rows|)]
  {
    if rows == [] || limit == 0 {
    } else {
      if rows[0].number > after {
        AfterFromOffset(rows[1..], offset + 1, after, limit - 1);
      } else {
        AfterFromOffset(rows[1..], offset + 1, after, limit);
      }
    }
  }

  /** A replay page is the contiguous slice of the log that follows the cursor. */
  lemma ReplayPage(db: Db, sc: Scope, s: string, after: nat, limit: nat)
    requires SessionsHold(db) && (sc, s) in db.events
    ensures var rows := db.events[(sc, s)];
            After(rows, after, limit) == rows[Min(after, |rows|)..Min(Min(after, |rows|) + limit, |rows|)]
  {
    assert Numbered(db.events[(sc, s)], db.cursors[(sc, s)]);
    AfterFromOffset(db.events[(sc, s)], 0, after, limit);
  }

  /** The first log is a prefix of the second. */
  ghost predicate Extends(a: Db, b: Db, sc: Scope, s: string) {
    (sc, s) in a.events ==> (sc, s) in b.events && a.events[(sc, s)] <= b.events[(sc, s)]
  }

  lemma AdvanceAppends(db: Db, sc: Scope, t: TurnId, j: Job, state: Status, sc': Scope, s: string)
    ensures Extends(db, Advance(db, sc, t, j, state), sc', s)
  {
  }

  lemma {:induction false} SweepAppends(db: Db, sc: Scope, rows: seq<TurnId>, sc': Scope, s: string)
    ensures Extends(db, Sweep(db, sc, rows), sc', s)
  {
    if rows == [] {
    } else {
      SweepAppends(db, sc, Front(rows), sc', s);
    }
  }

  lemma StepAppends(db: Db, op: Op, sc: Scope, s: string)
    requires SessionsHold(db)
    ensures Extends(db, Apply(db, op).0, sc, s)
  {
    hide Sweep, ValidName, ValidSession, ValidAction, Held, HasEvent;
    match op
    case Claim(sc', worker, seconds, now, _, expired, picked) =>
      SweepAppends(db, sc', expired, sc, s);
      var d := Sweep(db, sc', expired);
      if picked.Some? && (sc', picked.value) in d.jobs {
        AdvanceAppends(d, sc', picked.value, Taken(d.jobs[(sc', picked.value)], worker, now + seconds), Running, sc, s);
      }
    case Reap(sc', _, _, _, expired) => SweepAppends(db, sc', expired, sc, s);
    case Enqueue(_, _, _, _, _, _) =>
    case _ =>
  }

  /** Published rows are immutable: every later log extends every earlier one. */
  lemma {:induction false} LogOnlyGrows(db: Db, ops: seq<Op>, sc: Scope, s: string)
    requires Inv(db) && Feasible(db, ops)
    ensures Extends(db, Exec(db, ops), sc, s)
  {
    if ops == [] {
    } else {
      FeasibleFront(db, ops);
      LogOnlyGrows(db, Front(ops), sc, s);
      RunKeepsInv(db, Front(ops));
      StepAppends(Exec(db, Front(ops)), Last(ops), sc, s);
    }
  }

  // ---------- A turn that is reaped with its payload ----------

  const ME := Scope("tenant", "project", "user")
  const SESSION := "aaaaaaaaaaaa"
  const OPENED := [CreateSession(ME, SESSION), Enqueue(ME, SESSION, "k", Payload("work", 6), 1, 0)]
  const LEFT_RUNNING := OPENED + [TurnLedger.Claim(ME, "w", 10, 1, {}, [], Some(1))]
  const REAPED := LEFT_RUNNING + [Reap(ME, 5, 100, {}, [1])]

  /** A queued, running or failed row of the only turn. */
  ghost predicate OnlyTurn(db: Db, status: Status, until: Option<int>) {
    && db.jobs.Keys == {(ME, 1)} && db.jobs[(ME, 1)].status == status && db.jobs[(ME, 1)].payload == "work"
    && db.jobs[(ME, 1)].session == SESSION && db.jobs[(ME, 1)].leaseUntil == until
    && (ME, SESSION) in db.cursors && (ME, SESSION) in db.events
  }

  lemma Goes(ops: seq<Op>, op: Op)
    requires Feasible(EMPTY, ops) && Choice(Exec(EMPTY, ops), op)
    ensures Feasible(EMPTY, ops + [op]) && Exec(EMPTY, ops + [op]) == Apply(Exec(EMPTY, ops), op).0
  {
    var all := ops + [op];
    assert Front(all) == ops && Last(all) == op;
    hide Choice, Exec, Apply;
    forall i | 0 <= i < |all| ensures Choice(Exec(EMPTY, all[..i]), all[i]) {
      assert all[..i] == if i < |ops| then ops[..i] else ops;
    }
  }

  lemma OpenedRun()
    ensures Feasible(EMPTY, OPENED) && OnlyTurn(Exec(EMPTY, OPENED), Queued, None)
  {
    var create, enqueue := OPENED[0], OPENED[1];
    assert [] + [create] == [create] && [create] + [enqueue] == OPENED;
    assert ValidName("k") && ValidSession(SESSION);
    assert Exec(EMPTY, []) == EMPTY;
    Goes([], create);
    Goes([create], enqueue);
  }

  lemma ClaimedStep(db: Db)
    requires OnlyTurn(db, Queued, None)
    ensures Choice(db, LEFT_RUNNING[2]) && OnlyTurn(Apply(db, LEFT_RUNNING[2]).0, Running, Some(11))
  {
    assert ValidName("w");
    assert LEFT_RUNNING[2] == TurnLedger.Claim(ME, "w", 10, 1, {}, [], Some(1));
    assert IsQueued(db, ME, 1);
    assert forall t :: Expired(db, ME, t, 1) ==> (ME, t) == (ME, 1);
    assert forall t :: IsQueued(db, ME, t) ==> (ME, t) == (ME, 1);
    assert Sweep(db, ME, []) == db;
  }

  lemma ReapedStep(db: Db)
    requires OnlyTurn(db, Running, Some(11))
    ensures Choice(db, REAPED[3]) && OnlyTurn(Apply(db, REAPED[3]).0, Failed, None)
    ensures Apply(db, REAPED[3]).0.jobs[(ME, 1)].result == Some(LEASE_EXPIRED)
  {
    assert REAPED[3] == Reap(ME, 5, 100, {}, [1]);
    assert Expired(db, ME, 1, 100);
    assert forall t :: Expired(db, ME, t, 100) ==> (ME, t) == (ME, 1);
    assert Front([1 as TurnId]) == [] && Last([1 as TurnId]) == 1;
    assert Sweep(db, ME, []) == db;
  }

  /** Such a run: a turn is enqueued, claimed and swept after its lease; it failed, and its payload is still there. */
  lemma ReapedKeepsPayload()
    ensures Feasible(EMPTY, REAPED)
    ensures var d := Exec(EMPTY, REAPED);
            && (ME, 1) in d.jobs && d.jobs[(ME, 1)].status == Failed
            && d.jobs[(ME, 1)].result == Some(LEASE_EXPIRED) && d.jobs[(ME, 1)].payload == "work"
  {
    hide Apply, Exec, Feasible, Choice;
    OpenedRun();
    ClaimedStep(Exec(EMPTY, OPENED));
    Goes(OPENED, LEFT_RUNNING[2]);
    ReapedStep(Exec(EMPTY, LEFT_RUNNING));
    Goes(LEFT_RUNNING, REAPED[3]);
  }
}
