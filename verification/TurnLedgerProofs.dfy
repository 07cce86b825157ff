/** What every run of the turn ledger keeps. */
module TurnLedgerProofs {
  import opened Common
  import opened TurnLedger

  // ---------- The event log refines the job table ----------

  datatype Mark = Mark(state: Status, fence: nat)

  /** The (state, fence) marks a session's rows hold for one turn, oldest first. */
  function History(rows: seq<Event>, t: TurnId): seq<Mark> {
    if rows == [] then []
    else History(Front(rows), t) + if Last(rows).turn == t then [Mark(Last(rows).state, Last(rows).fence)] else []
  }

  function TurnHistory(db: Db, sc: Scope, t: TurnId): seq<Mark>
    requires (sc, t) in db.jobs && (sc, db.jobs[(sc, t)].session) in db.events
  {
    History(db.events[(sc, db.jobs[(sc, t)].session)], t)
  }

  /** The only histories a row may have, one per way its status can have come about. */
  ghost predicate Tells(h: seq<Mark>, j: Job) {
    && (j.status == Running <==> j.leaseOwner.Some?)
    && (j.status == Running <==> j.leaseUntil.Some?)
    && (j.status in {Completed, Failed} <==> j.result.Some?)
    && match j.status
       case Queued => h == [Mark(Queued, 0)] && j.fence == 0 && j.attempts == 0
       case Running => h == [Mark(Queued, 0), Mark(Running, 1)] && j.fence == 1 && j.attempts == 1
       case Completed =>
         h == [Mark(Queued, 0), Mark(Running, 1), Mark(Completed, 1)] && j.fence == 1 && j.attempts == 1
       case Failed =>
         && h == [Mark(Queued, 0), Mark(Running, 1), Mark(Failed, j.fence)] && j.attempts == 1
         && (j.fence == 1 || (j.fence == 2 && j.result == Some(LEASE_EXPIRED)))
       case Cancelled =>
         || (h == [Mark(Queued, 0), Mark(Cancelled, 1)] && j.fence == 1 && j.attempts == 0)
         || (h == [Mark(Queued, 0), Mark(Running, 1), Mark(Cancelled, 2)] && j.fence == 2 && j.attempts == 1)
  }

  /** Rows carry the numbers 1, 2, ... up to the session's cursor. */
  ghost predicate Numbered(rows: seq<Event>, cursor: nat) {
    |rows| == cursor && forall i :: 0 <= i < |rows| ==> rows[i].number == i + 1
  }

  ghost predicate KeysIndexed(db: Db) {
    && (forall sc, k :: (sc, k) in db.keys ==>
          && (sc, db.keys[(sc, k)]) in db.jobs
          && db.jobs[(sc, db.keys[(sc, k)])].key == k)
    && (forall sc, t :: (sc, t) in db.jobs ==>
          (sc, db.jobs[(sc, t)].key) in db.keys && db.keys[(sc, db.jobs[(sc, t)].key)] == t)
  }

  ghost predicate RowBelongs(db: Db, sc: Scope, s: string, e: Event) {
    (sc, e.turn) in db.jobs && db.jobs[(sc, e.turn)].session == s
  }

  ghost predicate SessionsHold(db: Db) {
    && db.cursors.Keys == db.events.Keys
    && (forall sc, t :: (sc, t) in db.jobs ==> (sc, db.jobs[(sc, t)].session) in db.events)
    && (forall sc, s :: (sc, s) in db.events ==> Numbered(db.events[(sc, s)], db.cursors[(sc, s)]))
    && (forall sc, s, i :: (sc, s) in db.events && 0 <= i < |db.events[(sc, s)]| ==>
          RowBelongs(db, sc, s, db.events[(sc, s)][i]))
  }

  ghost predicate Inv(db: Db) {
    && KeysIndexed(db)
    && SessionsHold(db)
    && forall sc, t :: (sc, t) in db.jobs ==> Tells(TurnHistory(db, sc, t), db.jobs[(sc, t)])
  }

  /** A turn without rows has an empty history. */
  lemma {:induction false} NoRowsNoHistory(rows: seq<Event>, t: TurnId)
    requires forall i :: 0 <= i < |rows| ==> rows[i].turn != t
    ensures History(rows, t) == []
  {
    if rows == [] {
    } else {
      NoRowsNoHistory(Front(rows), t);
    }
  }

  lemma HistoryGrows(rows: seq<Event>, e: Event, t: TurnId)
    ensures History(rows + [e], t) == History(rows, t) + if e.turn == t then [Mark(e.state, e.fence)] else []
  {
    assert Front(rows + [e]) == rows && Last(rows + [e]) == e;
  }

  lemma AdvanceKeepsKeys(db: Db, sc: Scope, t: TurnId, j: Job, state: Status)
    requires KeysIndexed(db) && (sc, t) in db.jobs && j.key == db.jobs[(sc, t)].key
    ensures KeysIndexed(Advance(db, sc, t, j, state))
  {
  }

  lemma AdvanceKeepsSessions(db: Db, sc: Scope, t: TurnId, j: Job, state: Status)
    requires SessionsHold(db) && (sc, j.session) in db.events
    requires (sc, t) in db.jobs ==> j.session == db.jobs[(sc, t)].session
    ensures SessionsHold(Advance(db, sc, t, j, state))
  {
    var d := Advance(db, sc, t, j, state);
    forall sc', s, i | (sc', s) in d.events && 0 <= i < |d.events[(sc', s)]|
      ensures RowBelongs(d, sc', s, d.events[(sc', s)][i])
    {
      if (sc', s) != (sc, j.session) || i < |db.events[(sc', s)]| {
        assert RowBelongs(db, sc', s, db.events[(sc', s)][i]);
      }
    }
  }

  /** Another turn's row and history are as they were. */
  lemma AdvanceKeepsHistories(db: Db, sc: Scope, t: TurnId, j: Job, state: Status, sc': Scope, t': TurnId)
    requires SessionsHold(db) && (sc', t') in db.jobs && (sc', t') != (sc, t)
    ensures (sc', t') in Advance(db, sc, t, j, state).jobs
    ensures Advance(db, sc, t, j, state).jobs[(sc', t')] == db.jobs[(sc', t')]
    ensures (sc', db.jobs[(sc', t')].session) in Advance(db, sc, t, j, state).events
    ensures TurnHistory(Advance(db, sc, t, j, state), sc', t') == TurnHistory(db, sc', t')
  {
    var s := (sc, j.session);
    if s in db.events && s in db.cursors {
      HistoryGrows(db.events[s], Event(db.cursors[s] + 1, t, state, j.fence), t');
    }
  }

  /** A row moved together with its event keeps everything, if the longer history fits the new row. */
  lemma AdvanceKeepsInv(db: Db, sc: Scope, t: TurnId, j: Job, state: Status)
    requires Inv(db) && (sc, t) in db.jobs
    requires j.session == db.jobs[(sc, t)].session && j.key == db.jobs[(sc, t)].key
    requires Tells(TurnHistory(db, sc, t) + [Mark(state, j.fence)], j)
    ensures Inv(Advance(db, sc, t, j, state))
  {
    var d := Advance(db, sc, t, j, state);
    AdvanceKeepsKeys(db, sc, t, j, state);
    AdvanceKeepsSessions(db, sc, t, j, state);
    forall sc', t' | (sc', t') in d.jobs ensures Tells(TurnHistory(d, sc', t'), d.jobs[(sc', t')]) {
      if (sc', t') == (sc, t) {
        var s := (sc, j.session);
        HistoryGrows(db.events[s], Event(db.cursors[s] + 1, t, state, j.fence), t);
      } else {
        AdvanceKeepsHistories(db, sc, t, j, state, sc', t');
      }
    }
  }

  lemma ReapFits(db: Db, sc: Scope, t: TurnId)
    requires Inv(db) && (sc, t) in db.jobs && db.jobs[(sc, t)].status == Running
    ensures Tells(TurnHistory(db, sc, t) + [Mark(Failed, Reaped(db.jobs[(sc, t)]).fence)], Reaped(db.jobs[(sc, t)]))
  {
    assert Tells(TurnHistory(db, sc, t), db.jobs[(sc, t)]);
  }

  /** `d` is `db` with exactly the running rows in `rows` turned into uncertain failures. */
  ghost predicate Swept(db: Db, d: Db, sc: Scope, rows: seq<TurnId>) {
    && d.keys == db.keys && d.cursors.Keys == db.cursors.Keys && d.jobs.Keys == db.jobs.Keys
    && forall sc', t :: (sc', t) in db.jobs ==>
         d.jobs[(sc', t)] == if sc' == sc && t in rows then Reaped(db.jobs[(sc', t)]) else db.jobs[(sc', t)]
  }

  lemma SweptOneMore(db: Db, d: Db, sc: Scope, rows: seq<TurnId>, t: TurnId)
    requires Inv(d) && Swept(db, d, sc, rows) && t !in rows && (sc, t) in db.jobs
    ensures Swept(db, Advance(d, sc, t, Reaped(d.jobs[(sc, t)]), Failed), sc, rows + [t])
  {
    var d' := Advance(d, sc, t, Reaped(d.jobs[(sc, t)]), Failed);
    assert (sc, d.jobs[(sc, t)].session) in d.events;
    assert d'.jobs.Keys == db.jobs.Keys;
  }

  lemma {:induction false} SweepKeepsInv(db: Db, sc: Scope, rows: seq<TurnId>)
    requires Inv(db) && Distinct(rows)
    requires forall t :: t in rows ==> (sc, t) in db.jobs && db.jobs[(sc, t)].status == Running
    ensures Inv(Sweep(db, sc, rows)) && Swept(db, Sweep(db, sc, rows), sc, rows)
  {
    if rows == [] {
    } else {
      var front, t := Front(rows), Last(rows);
      assert rows == front + [t];
      forall u | u in front ensures u in rows && u != t {}
      SweepKeepsInv(db, sc, front);
      var d := Sweep(db, sc, front);
      assert (sc, t) in d.jobs && d.jobs[(sc, t)] == db.jobs[(sc, t)];
      ReapFits(d, sc, t);
      AdvanceKeepsInv(d, sc, t, Reaped(d.jobs[(sc, t)]), Failed);
      SweptOneMore(db, d, sc, front, t);
    }
  }

  /** Under the invariant an existing turn has a row in its session's log. */
  lemma ExistingTurnHasEvent(db: Db, sc: Scope, t: TurnId)
    requires Inv(db) && (sc, t) in db.jobs
    ensures HasEvent(db, sc, t)
  {
    var s := (sc, db.jobs[(sc, t)].session);
    assert Tells(TurnHistory(db, sc, t), db.jobs[(sc, t)]);
    if forall i :: 0 <= i < |db.events[s]| ==> db.events[s][i].turn != t {
      NoRowsNoHistory(db.events[s], t);
    }
  }

  function NewJob(session: string, key: string, payload: Payload, now: int): Job {
    Job(session, key, payload.content, Queued, 0, 0, None, None, now, None)
  }

  lemma InsertKeepsInv(db: Db, sc: Scope, t: TurnId, j: Job)
    requires Inv(db) && (sc, t) !in db.jobs && (sc, j.key) !in db.keys && (sc, j.session) in db.events
    requires Tells([Mark(Queued, 0)], j) && j.status == Queued
    ensures Inv(Advance(db.(keys := db.keys[(sc, j.key) := t]), sc, t, j, Queued))
  {
    var k := db.(keys := db.keys[(sc, j.key) := t]);
    var d := Advance(k, sc, t, j, Queued);
    var s := (sc, j.session);
    AdvanceKeepsSessions(k, sc, t, j, Queued);
    forall sc', t' | (sc', t') in d.jobs ensures Tells(TurnHistory(d, sc', t'), d.jobs[(sc', t')]) {
      if (sc', t') == (sc, t) {
        forall i | 0 <= i < |db.events[s]| ensures db.events[s][i].turn != t {
          assert RowBelongs(db, sc, j.session, db.events[s][i]);
        }
        NoRowsNoHistory(db.events[s], t);
        HistoryGrows(db.events[s], Event(db.cursors[s] + 1, t, Queued, j.fence), t);
        assert TurnHistory(d, sc, t) == [Mark(Queued, 0)];
      } else {
        AdvanceKeepsHistories(k, sc, t, j, Queued, sc', t');
        assert TurnHistory(k, sc', t') == TurnHistory(db, sc', t');
      }
    }
  }

  lemma CreateSessionKeepsInv(db: Db, sc: Scope, session: string)
    requires Inv(db) && (sc, session) !in db.cursors
    ensures Inv(db.(cursors := db.cursors[(sc, session) := 0], events := db.events[(sc, session) := []]))
  {
    var d := db.(cursors := db.cursors[(sc, session) := 0], events := db.events[(sc, session) := []]);
    assert d.cursors.Keys == d.events.Keys;
    forall sc', s, i | (sc', s) in d.events && 0 <= i < |d.events[(sc', s)]|
      ensures RowBelongs(d, sc', s, d.events[(sc', s)][i])
    {
      assert RowBelongs(db, sc', s, db.events[(sc', s)][i]);
    }
    forall sc', t | (sc', t) in d.jobs ensures Tells(TurnHistory(d, sc', t), d.jobs[(sc', t)]) {
      assert TurnHistory(d, sc', t) == TurnHistory(db, sc', t);
    }
  }

  /** The four row changes a turn can undergo each extend its history to one that fits. */
  lemma ChangesFit(db: Db, sc: Scope, t: TurnId, worker: string, until: int, result: string)
    requires Inv(db) && (sc, t) in db.jobs
    ensures var j, h := db.jobs[(sc, t)], TurnHistory(db, sc, t);
            && (j.status == Queued ==>
                  Tells(h + [Mark(Running, Taken(j, worker, until).fence)], Taken(j, worker, until)))
            && (j.status == Queued || j.status == Running ==>
                  Tells(h + [Mark(Cancelled, Revoked(j).fence)], Revoked(j)))
            && (j.status == Running && j.fence == 1 ==>
                  && Tells(h + [Mark(Completed, j.fence)], Finished(j, Completed, result))
                  && Tells(h + [Mark(Failed, j.fence)], Finished(j, Failed, result)))
  {
    assert Tells(TurnHistory(db, sc, t), db.jobs[(sc, t)]);
  }

  lemma RenewKeepsInv(db: Db, sc: Scope, t: TurnId, until: int)
    requires Inv(db) && (sc, t) in db.jobs && db.jobs[(sc, t)].status == Running
    ensures Inv(db.(jobs := db.jobs[(sc, t) := db.jobs[(sc, t)].(leaseUntil := Some(until))]))
  {
    var d := db.(jobs := db.jobs[(sc, t) := db.jobs[(sc, t)].(leaseUntil := Some(until))]);
    forall sc', s, i | (sc', s) in d.events && 0 <= i < |d.events[(sc', s)]|
      ensures RowBelongs(d, sc', s, d.events[(sc', s)][i])
    {
      assert RowBelongs(db, sc', s, db.events[(sc', s)][i]);
    }
    forall sc', t' | (sc', t') in d.jobs ensures Tells(TurnHistory(d, sc', t'), d.jobs[(sc', t')]) {
      assert Tells(TurnHistory(db, sc', t'), db.jobs[(sc', t')]);
    }
  }

  lemma EnqueueKeepsInv(db: Db, sc: Scope, session: string, key: string, payload: Payload, newId: TurnId, now: int)
    requires Inv(db) && (sc, newId) !in db.jobs
    ensures Inv(ApplyEnqueue(db, sc, session, key, payload, newId, now).0)
  {
    if (sc, key) in db.keys {
      ExistingTurnHasEvent(db, sc, db.keys[(sc, key)]);
    } else if (sc, session) in db.cursors {
      InsertKeepsInv(db, sc, newId, NewJob(session, key, payload, now));
    }
  }

  lemma ClaimKeepsInv(db: Db, sc: Scope, worker: string, seconds: int, now: int, locked: set<TurnId>,
                      expired: seq<TurnId>, picked: Option<TurnId>)
    requires Inv(db) && IsSweep(db, sc, now, locked, CLAIM_SWEEP, expired) && IsPick(db, sc, locked, picked)
    ensures Inv(ApplyClaim(db, sc, worker, seconds, now, expired, picked).0)
  {
    hide Inv, Tells, TurnHistory, ValidName, Sweep;
    SweepKeepsInv(db, sc, expired);
    if picked.Some? {
      var d := Sweep(db, sc, expired);
      ChangesFit(d, sc, picked.value, worker, now + seconds, "");
      AdvanceKeepsInv(d, sc, picked.value, Taken(d.jobs[(sc, picked.value)], worker, now + seconds), Running);
    }
  }

  lemma FinishKeepsInv(db: Db, sc: Scope, t: TurnId, status: Status, result: string)
    requires Inv(db) && (sc, t) in db.jobs && db.jobs[(sc, t)].status == Running && db.jobs[(sc, t)].fence == 1
    requires status == Completed || status == Failed
    ensures Inv(Advance(db, sc, t, Finished(db.jobs[(sc, t)], status, result), status))
  {
    ChangesFit(db, sc, t, "", 0, result);
    AdvanceKeepsInv(db, sc, t, Finished(db.jobs[(sc, t)], status, result), status);
  }

  lemma RunningFence(db: Db, sc: Scope, t: TurnId)
    requires Inv(db) && (sc, t) in db.jobs && db.jobs[(sc, t)].status == Running
    ensures db.jobs[(sc, t)].fence == 1
  {
    assert Tells(TurnHistory(db, sc, t), db.jobs[(sc, t)]);
  }

  lemma LeaseKeepsInv(db: Db, sc: Scope, t: TurnId, worker: string, fence: int, action: LeaseAction, now: int)
    requires Inv(db)
    ensures Inv(ApplyLease(db, sc, t, worker, fence, action, now).0)
  {
    hide Inv;
    if ValidName(worker) && fence >= 1 && ValidAction(action) && Held(db, sc, t, worker, fence, now) {
      RunningFence(db, sc, t);
      match action
      case Renew(seconds) => RenewKeepsInv(db, sc, t, now + seconds);
      case Complete(result) => FinishKeepsInv(db, sc, t, Completed, result.content);
      case Fail(kind) => FinishKeepsInv(db, sc, t, Failed, kind);
    }
  }

  /** Every transaction keeps the correspondence between rows, keys, sessions and events. */
  lemma StepKeepsInv(db: Db, op: Op)
    requires Inv(db) && Choice(db, op)
    ensures Inv(Apply(db, op).0)
  {
    match op
    case CreateSession(sc, session) =>
      if (sc, session) !in db.cursors {
        CreateSessionKeepsInv(db, sc, session);
      }
    case Enqueue(sc, session, key, payload, newId, now) => EnqueueKeepsInv(db, sc, session, key, payload, newId, now);
    case Claim(sc, worker, seconds, now, locked, expired, picked) =>
      ClaimKeepsInv(db, sc, worker, seconds, now, locked, expired, picked);
    case Reap(sc, limit, now, locked, expired) =>
      if 1 <= limit <= 1000 {
        SweepKeepsInv(db, sc, expired);
      }
    case Cancel(sc, t) =>
      if (sc, t) in db.jobs {
        var j := db.jobs[(sc, t)];
        ChangesFit(db, sc, t, "", 0, "");
        if j.status == Queued || j.status == Running {
          AdvanceKeepsInv(db, sc, t, Revoked(j), Cancelled);
        }
      }
    case Lease(sc, t, worker, fence, action, now) => LeaseKeepsInv(db, sc, t, worker, fence, action, now);
  }

  lemma FeasibleFront(db: Db, ops: seq<Op>)
    requires Feasible(db, ops) && ops != []
    ensures Feasible(db, Front(ops)) && Choice(Exec(db, Front(ops)), Last(ops))
  {
    var front := Front(ops);
    forall i | 0 <= i < |front| ensures Choice(Exec(db, front[..i]), front[i]) {
      assert front[..i] == ops[..i];
    }
    assert ops[..|ops| - 1] == front;
  }

  lemma {:induction false} RunKeepsInv(db: Db, ops: seq<Op>)
    requires Inv(db) && Feasible(db, ops)
    ensures Inv(Exec(db, ops))
  {
    if ops == [] {
    } else {
      FeasibleFront(db, ops);
      RunKeepsInv(db, Front(ops));
      StepKeepsInv(Exec(db, Front(ops)), Last(ops));
    }
  }
}
