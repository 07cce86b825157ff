/** Snapshot and log together: what core/session_manager.py saves, loads, audits and repairs. */
module SessionStore {
  import opened Common
  import opened SessionLog
  import opened SessionLogProofs
  import opened Utf8

  datatype Store = Store(disk: Disk, snapshot: Option<Snapshot>)

  /** Where a save is interrupted; a failing log write is swallowed and the snapshot still written. */
  datatype SaveCut = InSync(cut: Cut) | BeforeSnapshot | SyncFailed(cut: Cut) | Done

  function AfterSave(json: Record -> string, st: Store, s: Snapshot, c: SaveCut): Store {
    match c
    case InSync(cut) => st.(disk := AfterCut(json, st.disk, s, cut))
    case BeforeSnapshot => st.(disk := Sync(json, st.disk, s))
    case SyncFailed(cut) => Store(AfterCut(json, st.disk, s, cut), Some(s))
    case Done => Store(Sync(json, st.disk, s), Some(s))
  }

  /** A cut a crash can make, and that does not collide with a stale sidecar. */
  predicate ValidSaveCut(json: Record -> string, st: Store, s: Snapshot, c: SaveCut) {
    match c
    case InSync(cut) => ValidCut(json, st.disk, s, cut) && !Collides(json, st.disk, s, cut)
    case SyncFailed(cut) => ValidCut(json, st.disk, s, cut) && !Collides(json, st.disk, s, cut)
    case _ => true
  }

  /** The save was cut inside a character. */
  predicate SplitsSave(json: Record -> string, st: Store, s: Snapshot, c: SaveCut) {
    match c
    case InSync(cut) => Splits(json, st.disk, s, cut)
    case SyncFailed(cut) => Splits(json, st.disk, s, cut)
    case _ => false
  }

  predicate HasEvents(f: LogFile) {
    exists i | 0 <= i < |Committed(f)| :: Committed(f)[i].Event? || Committed(f)[i].BranchPoint?
  }

  /** The log's history, if it is strictly longer than the snapshot's. */
  function PreferLog(d: Disk, s: Snapshot): Snapshot {
    if d.log.None? || |Derived(d.log.value)| <= |s.messages| then s
    else Snapshot(Derived(d.log.value), if ReadCursor(d.log.value).Some? then ReadCursor(d.log.value) else s.cursor)
  }

  function Repair(json: Record -> string, d: Disk, s: Snapshot): Disk {
    if d.log.Some? && |Derived(d.log.value)| < |s.messages| then Sync(json, d, s) else d
  }

  /** Every load reads the log first, if there is one, and raises if it does not decode. */
  function Load(json: Record -> string, st: Store): (Result<Option<Snapshot>, ()>, Store) {
    if st.disk.log.Some? && !Decodes(st.disk.log.value) then (Err(()), st)
    else if st.snapshot.None? then
      (Ok(if st.disk.log.Some? && HasEvents(st.disk.log.value)
          then Some(Snapshot(Derived(st.disk.log.value), ReadCursor(st.disk.log.value))) else None), st)
    else
      var s := PreferLog(st.disk, st.snapshot.value);
      (Ok(Some(s)), st.(disk := Repair(json, st.disk, s)))
  }

  // ---------- Saving and loading across crashes ----------

  lemma NormalIsStable(m: Message)
    ensures Normal(Normal(m)) == Normal(m) && Normal(FromEvent(m)) == FromEvent(m)
  {
  }

  lemma {:induction false} DerivedIsNormal(rs: seq<Record>)
    ensures Normalized(MessagesIn(rs)) == MessagesIn(rs)
  {
    if rs == [] {
    } else {
      DerivedIsNormal(Front(rs));
      if Last(rs).Event? {
        NormalIsStable(Last(rs).message);
        forall i | 0 <= i < |MessagesIn(rs)| ensures Normal(MessagesIn(rs)[i]) == MessagesIn(rs)[i] {
          if i < |MessagesIn(Front(rs))| {
            assert Normalized(MessagesIn(Front(rs)))[i] == MessagesIn(Front(rs))[i];
          }
        }
      }
    }
  }

  /** The log exists and can be read, its sidecar cannot mislead, and it is not behind the snapshot. */
  ghost predicate Good(json: Record -> string, st: Store) {
    && st.disk.log.Some? && Sound(json, st.disk) && Legible(st.disk)
    && st.snapshot.Some? && Normalized(st.snapshot.value.messages) <= Derived(st.disk.log.value)
  }

  /** Every cut of a sync whose history continues the log leaves the log between the two. */
  lemma CutStaysBetween(json: Record -> string, d: Disk, s: Snapshot, c: Cut)
    requires d.log.Some? && Sound(json, d) && Legible(d) && ValidCut(json, d, s, c) && !Collides(json, d, s, c)
    requires Derived(d.log.value) <= Normalized(s.messages)
    ensures var r := AfterCut(json, d, s, c);
            && r.log.Some? && Sound(json, r) && (Legible(r) <==> !Splits(json, d, s, c))
            && Derived(d.log.value) <= Derived(r.log.value) <= Normalized(s.messages)
  {
    CutIsExact(json, d, s, c);
    if PlanOf(json, d, s).Append? {
      CutAppendRead(json, d, s, c);
      ContinuedIsExact(Derived(d.log.value), Normalized(s.messages));
    } else {
      PlanIs(json, d, s);
      CutPublishIsExact(json, d, s);
    }
  }

  lemma SyncReaches(json: Record -> string, d: Disk, s: Snapshot)
    requires d.log.Some? && Sound(json, d) && Legible(d) && Proper(json)
    requires Derived(d.log.value) <= Normalized(s.messages)
    ensures var r := Sync(json, d, s);
            r.log.Some? && Sound(json, r) && Legible(r) && Derived(r.log.value) == Normalized(s.messages)
  {
    SyncIsExact(json, d, s);
  }

  lemma LegibleDecodes(json: Record -> string, d: Disk)
    requires Sound(json, d) && d.log.Some?
    ensures Decodes(d.log.value) <==> Legible(d)
  {
    ReadsWhole(d);
  }

  /**
   A save interrupted anywhere: the next load returns exactly if the interruption was not inside a character.
   Then its history extends what the log and the snapshot held before and is a first part of the attempted
   one, and afterwards the log agrees with it.
   */
  lemma LoadAfterInterruptedSave(json: Record -> string, st: Store, s: Snapshot, c: SaveCut)
    requires Good(json, st) && Proper(json) && ValidSaveCut(json, st, s, c)
    requires Derived(st.disk.log.value) <= Normalized(s.messages)
    ensures var (r, after) := Load(json, AfterSave(json, st, s, c));
            && (r.Ok? <==> !SplitsSave(json, st, s, c))
            && (r.Ok? ==>
                  && r.value.Some? && Good(json, after)
                  && Normalized(st.snapshot.value.messages) <= Derived(st.disk.log.value)
                  && Derived(st.disk.log.value) <= Normalized(r.value.value.messages) <= Normalized(s.messages)
                  && Derived(after.disk.log.value) == Normalized(r.value.value.messages)
                  && (c.Done? ==> Normalized(r.value.value.messages) == Normalized(s.messages)))
  {
    hide Sync, AfterCut, Derived, Sound, Legible, Normalized, Proper, ValidCut, Collides, Splits, ReadCursor, Decodes;
    var mid := AfterSave(json, st, s, c);
    match c {
      case InSync(cut) => CutStaysBetween(json, st.disk, s, cut);
      case SyncFailed(cut) => CutStaysBetween(json, st.disk, s, cut);
      case _ => SyncReaches(json, st.disk, s);
    }
    LegibleDecodes(json, mid.disk);
    if Legible(mid.disk) {
      LoadAgrees(json, mid);
    }
  }

  /** Loading when one of log and snapshot is a first part of the other, and the log can be read. */
  lemma LoadAgrees(json: Record -> string, st: Store)
    requires st.disk.log.Some? && st.snapshot.Some? && Sound(json, st.disk) && Legible(st.disk) && Proper(json)
    requires var l, n := Derived(st.disk.log.value), Normalized(st.snapshot.value.messages); l <= n || n <= l
    ensures var (r, after) := Load(json, st);
            var l, n := Derived(st.disk.log.value), Normalized(st.snapshot.value.messages);
            && r.Ok? && r.value.Some? && Good(json, after)
            && Normalized(r.value.value.messages) == (if |l| < |n| then n else l)
            && Derived(after.disk.log.value) == Normalized(r.value.value.messages)
  {
    LegibleDecodes(json, st.disk);
    hide Sync, Sound, Legible, Proper, Normal, MessagesIn, Decodes;
    DerivedIsNormal(Committed(st.disk.log.value));
    assert |Normalized(st.snapshot.value.messages)| == |st.snapshot.value.messages|;
    if |Derived(st.disk.log.value)| < |st.snapshot.value.messages| {
      SyncReaches(json, st.disk, st.snapshot.value);
    }
  }

  // ---------- From an empty store ----------

  /** The history a store holds: the log's, or before the first log the snapshot's. */
  function Known(st: Store): seq<Message> {
    if st.disk.log.Some? then Derived(st.disk.log.value)
    else if st.snapshot.Some? then Normalized(st.snapshot.value.messages)
    else []
  }

  /** The log, once there is one, can be read, cannot mislead and is not behind the snapshot, once there is one. */
  ghost predicate Fair(json: Record -> string, st: Store) {
    && Sound(json, st.disk) && Legible(st.disk)
    && (st.disk.log.Some? && st.snapshot.Some? ==> Normalized(st.snapshot.value.messages) <= Derived(st.disk.log.value))
  }

  lemma FirstLog(json: Record -> string, d: Disk, s: Snapshot, c: Cut)
    requires d.log.None? && Sound(json, d) && Proper(json) && ValidCut(json, d, s, c) && !Collides(json, d, s, c)
    ensures var r := AfterCut(json, d, s, c);
            && Sound(json, r) && Legible(r) && !Splits(json, d, s, c)
            && if c.AtStart? then r == d else r.log.Some? && Derived(r.log.value) == Normalized(s.messages)
    ensures var r := Sync(json, d, s);
            Sound(json, r) && Legible(r) && r.log.Some? && Derived(r.log.value) == Normalized(s.messages)
  {
    CutIsExact(json, d, s, c);
    CutPublishIsExact(json, d, s);
    SyncIsExact(json, d, s);
  }

  /**
   The same from the very first save on, when there is no log or no snapshot yet: unless the save was cut inside a
   character nothing known is lost, nothing is invented, a completed save is known, and a load returns what is
   known or, if that is nothing, may find no session.
   */
  lemma SaveFromAnyState(json: Record -> string, st: Store, s: Snapshot, c: SaveCut)
    requires Fair(json, st) && Proper(json) && ValidSaveCut(json, st, s, c) && Known(st) <= Normalized(s.messages)
    ensures var (r, after) := Load(json, AfterSave(json, st, s, c));
            && (r.Ok? <==> !SplitsSave(json, st, s, c))
            && (r.Ok? ==>
                  && Fair(json, after) && Known(st) <= Known(after) <= Normalized(s.messages)
                  && (c.Done? ==> Known(after) == Normalized(s.messages) && Good(json, after))
                  && if r.value.Some? then Normalized(r.value.value.messages) == Known(after) else Known(after) == [])
  {
    hide Sync, AfterCut, Derived, Sound, Legible, Normalized, Proper, ValidCut, Collides, Splits, ReadCursor, Decodes;
    var mid := AfterSave(json, st, s, c);
    if st.disk.log.Some? {
      match c {
        case InSync(cut) => CutStaysBetween(json, st.disk, s, cut);
        case SyncFailed(cut) => CutStaysBetween(json, st.disk, s, cut);
        case _ => SyncReaches(json, st.disk, s);
      }
    } else {
      match c {
        case InSync(cut) => FirstLog(json, st.disk, s, cut);
        case SyncFailed(cut) => FirstLog(json, st.disk, s, cut);
        case _ => NothingCut(json, st.disk, s); FirstLog(json, st.disk, s, AtStart);
      }
    }
    if mid.disk.log.Some? {
      LegibleDecodes(json, mid.disk);
    }
    if mid.disk.log.Some? ==> Legible(mid.disk) {
      NoLogIsLegible(mid.disk);
      LoadKnows(json, mid);
    }
  }

  lemma NoLogIsLegible(d: Disk)
    ensures d.log.None? ==> Legible(d)
  {
  }

  lemma NothingCut(json: Record -> string, d: Disk, s: Snapshot)
    requires Sound(json, d) && d.log.None?
    ensures ValidCut(json, d, s, AtStart) && !Collides(json, d, s, AtStart)
  {
  }

  /** What a load returns and leaves behind. */
  lemma LoadKnows(json: Record -> string, st: Store)
    requires Sound(json, st.disk) && Legible(st.disk) && Proper(json)
    requires st.disk.log.Some? && st.snapshot.Some? ==>
               var l, n := Derived(st.disk.log.value), Normalized(st.snapshot.value.messages); l <= n || n <= l
    ensures var (r, after) := Load(json, st);
            && Fair(json, after) && r.Ok?
            && (if r.value.Some? then Normalized(r.value.value.messages) == Known(after) else Known(after) == [])
            && (st.disk.log.None? || st.snapshot.None? ==> after == st)
            && (st.disk.log.Some? && st.snapshot.Some? ==>
                  var l, n := Derived(st.disk.log.value), Normalized(st.snapshot.value.messages);
                  Good(json, after) && Known(after) == if |l| < |n| then n else l)
  {
    hide Sync, Sound, Legible, Proper, ReadCursor, Normal, MessagesIn, Decodes;
    if st.disk.log.Some? {
      LegibleDecodes(json, st.disk);
    }
    if st.disk.log.Some? && st.snapshot.Some? {
      LoadAgrees(json, st);
    } else if st.disk.log.Some? {
      DerivedIsNormal(Committed(st.disk.log.value));
      if !HasEvents(st.disk.log.value) {
        NoEventsNoMessages(Committed(st.disk.log.value));
      }
    }
  }

  lemma {:induction false} NoEventsNoMessages(rs: seq<Record>)
    requires forall i :: 0 <= i < |rs| ==> !rs[i].Event?
    ensures MessagesIn(rs) == []
  {
    if rs == [] {
    } else {
      NoEventsNoMessages(Front(rs));
    }
  }

  // ---------- Any number of crashes ----------

  /** One life of the process: a save attempt that may be cut, then a restart that loads. */
  datatype Round = Round(attempt: Snapshot, cut: SaveCut)

  function Live(json: Record -> string, st: Store, rounds: seq<Round>): Store {
    if rounds == [] then st
    else Load(json, AfterSave(json, Live(json, st, Front(rounds)), Last(rounds).attempt, Last(rounds).cut)).1
  }

  /** Each attempt continues the history the process loaded, if it could load one. */
  ghost predicate AppendOnly(json: Record -> string, st: Store, rounds: seq<Round>) {
    rounds != [] ==>
      var before, r := Live(json, st, Front(rounds)), Last(rounds);
      && AppendOnly(json, st, Front(rounds))
      && ValidSaveCut(json, before, r.attempt, r.cut)
      && (Load(json, before).0.Ok? && Load(json, before).0.value.Some? ==>
            Normalized(Load(json, before).0.value.value.messages) <= Normalized(r.attempt.messages))
  }

  /** Some round's save was cut inside a character. */
  ghost predicate AnySaveSplits(json: Record -> string, st: Store, rounds: seq<Round>) {
    rounds != [] &&
    (|| AnySaveSplits(json, st, Front(rounds))
     || SplitsSave(json, Live(json, st, Front(rounds)), Last(rounds).attempt, Last(rounds).cut))
  }

  /** A log that ends inside a character keeps the session closed, whatever is saved. */
  lemma IllegibleSave(json: Record -> string, st: Store, s: Snapshot, c: SaveCut)
    requires st.disk.log.Some? && Sound(json, st.disk) && !Legible(st.disk) && Proper(json)
    ensures var (r, after) := Load(json, AfterSave(json, st, s, c));
            r.Err? && after.disk == st.disk && Load(json, after).0.Err?
  {
    PlanIs(json, st.disk, s);
    LegibleDecodes(json, st.disk);
  }

  /**
   Over any run of interrupted saves and restarts the session can be loaded exactly unless some save was cut
   inside a character. Until then no message is lost once a load has returned it or a save was acknowledged;
   from then on every load raises and the log never changes again.
   */
  lemma {:induction false} HistoryIsNeverLost(json: Record -> string, st: Store, rounds: seq<Round>)
    requires Good(json, st) && Proper(json) && AppendOnly(json, st, rounds)
    ensures var end := Live(json, st, rounds);
            && (Load(json, end).0.Ok? <==> !AnySaveSplits(json, st, rounds))
            && (AnySaveSplits(json, st, rounds) ==> end.disk.log.Some? && Sound(json, end.disk) && !Legible(end.disk))
            && (!AnySaveSplits(json, st, rounds) ==>
                  && Good(json, end) && Load(json, end).0.value.Some?
                  && Normalized(Load(json, end).0.value.value.messages) == Derived(end.disk.log.value)
                  && Derived(st.disk.log.value) <= Derived(end.disk.log.value)
                  && (rounds != [] && Last(rounds).cut.Done? ==>
                        Derived(end.disk.log.value) == Normalized(Last(rounds).attempt.messages)))
  {
    hide Sync, AfterCut, Derived, Sound, Legible, Normalized, Proper, ValidCut, Collides, Splits, ReadCursor, Decodes;
    var end := Live(json, st, rounds);
    if rounds == [] {
    } else {
      HistoryIsNeverLost(json, st, Front(rounds));
      var before, r := Live(json, st, Front(rounds)), Last(rounds);
      if AnySaveSplits(json, st, Front(rounds)) {
        IllegibleSave(json, before, r.attempt, r.cut);
      } else {
        LoadAfterInterruptedSave(json, before, r.attempt, r.cut);
        if SplitsSave(json, before, r.attempt, r.cut) {
          SplitStays(json, before, r.attempt, r.cut);
        }
      }
    }
    if !AnySaveSplits(json, st, rounds) {
      LoadAgrees(json, end);
      PrefixLength(Normalized(end.snapshot.value.messages), Derived(end.disk.log.value));
    }
  }

  /** After a cut inside a character the log is there, sound and illegible. */
  lemma SplitStays(json: Record -> string, st: Store, s: Snapshot, c: SaveCut)
    requires Good(json, st) && ValidSaveCut(json, st, s, c) && SplitsSave(json, st, s, c)
    ensures var after := Load(json, AfterSave(json, st, s, c)).1;
            after.disk.log.Some? && Sound(json, after.disk) && !Legible(after.disk) && Load(json, after).0.Err?
  {
    hide AfterCut, Splits;
    var cut := match c case InSync(cut) => cut case SyncFailed(cut) => cut case _ => AtStart;
    CutIsExact(json, st.disk, s, cut);
    LegibleDecodes(json, AfterCut(json, st.disk, s, cut));
  }

  /** If every record's text is ASCII, the session can always be loaded. */
  lemma {:induction false} AsciiNeverLocksOut(json: Record -> string, st: Store, rounds: seq<Round>)
    requires forall r :: Ascii(json(r))
    ensures !AnySaveSplits(json, st, rounds)
  {
    if rounds == [] {
    } else {
      AsciiNeverLocksOut(json, st, Front(rounds));
      var before, r := Live(json, st, Front(rounds)), Last(rounds);
      match r.cut
      case InSync(cut) => AsciiNeverSplits(json, before.disk, r.attempt, cut);
      case SyncFailed(cut) => AsciiNeverSplits(json, before.disk, r.attempt, cut);
      case _ =>
    }
  }

  lemma PrefixLength(a: seq<Message>, b: seq<Message>)
    requires a <= b
    ensures |a| <= |b| && (|a| == |b| ==> a == b)
  {
  }

  // ---------- Audit and repair ----------

  /** The states an audit reports; it raises on a log that does not decode. */
  datatype AuditState = Missing | LogOnly | SnapshotOnly | LogAhead | LogBehind | Diverged | InAgreement | Raises

  /** Role and content without their defaults. */
  predicate SameMember(l: Message, r: Message) {
    Got(l.role) == Got(r.role) && Got(l.content) == Got(r.content)
  }

  predicate SameMessages(l: seq<Message>, r: seq<Message>) {
    |l| == |r| && forall i :: 0 <= i < |l| ==> SameMember(l[i], r[i])
  }

  function Audit(st: Store): AuditState {
    if st.disk.log.Some? && !Decodes(st.disk.log.value) then Raises
    else if st.snapshot.None? then
      if st.disk.log.Some? && HasEvents(st.disk.log.value) then LogOnly else Missing
    else if st.disk.log.None? then SnapshotOnly
    else
      var logged, current := Derived(st.disk.log.value), st.snapshot.value.messages;
      if |logged| > |current| then LogAhead
      else if |logged| < |current| then LogBehind
      else if !SameMessages(logged, current) then Diverged
      else InAgreement
  }

  /** Only the log is ever repaired, and only towards the snapshot. */
  function Reconcile(json: Record -> string, st: Store): Store {
    if Audit(st) in {LogBehind, Diverged, SnapshotOnly} && st.snapshot.Some?
    then st.(disk := Rewrite(json, st.disk, st.snapshot.value)) else st
  }

  /** Every message has a role and a content, be they null. */
  predicate Explicit(ms: seq<Message>) {
    forall i :: 0 <= i < |ms| ==> !ms[i].role.Absent? && !ms[i].content.Absent?
  }

  /**
   A repaired log derives the snapshot's history, and the next audit agrees exactly when the snapshot
   has every role and content, be they null; a message that relies on a default is reported as diverged forever.
   */
  lemma ReconcileIsExact(json: Record -> string, st: Store)
    requires Proper(json)
    ensures var r := Reconcile(json, st);
            && r.snapshot == st.snapshot
            && (Audit(st) in {Missing, LogOnly, LogAhead, InAgreement, Raises} ==> r == st)
            && (Audit(st) in {LogBehind, Diverged, SnapshotOnly} ==>
                  && r.disk.log.Some? && Firm(json, r.disk) && Legible(r.disk)
                  && Derived(r.disk.log.value) == Normalized(st.snapshot.value.messages)
                  && Audit(r) == if Explicit(st.snapshot.value.messages) then InAgreement else Diverged)
  {
    if Audit(st) in {LogBehind, Diverged, SnapshotOnly} {
      var s := st.snapshot.value;
      GenerationRead(s, None);
      hide Generation, Derived, Decodes;
      SpelledOut(s.messages);
    }
  }

  /** A repair never shortens a log that can be read: it is as long as the longer of log and snapshot. */
  lemma RepairNeverShortens(json: Record -> string, st: Store)
    requires Proper(json) && st.disk.log.Some? && Decodes(st.disk.log.value)
    ensures var r, n := Reconcile(json, st), |Derived(st.disk.log.value)|;
            && r.disk.log.Some? && Decodes(r.disk.log.value)
            && (st.snapshot.None? || |st.snapshot.value.messages| < n ==> r == st)
            && (st.snapshot.Some? && n <= |st.snapshot.value.messages| ==>
                  |Derived(r.disk.log.value)| == |st.snapshot.value.messages|)
  {
    if Audit(st) in {LogBehind, Diverged, SnapshotOnly} && st.snapshot.Some? {
      GenerationRead(st.snapshot.value, None);
    }
  }

  lemma SpelledOut(ms: seq<Message>)
    ensures SameMessages(Normalized(ms), ms) <==> Explicit(ms)
  {
    var n := Normalized(ms);
    if SameMessages(n, ms) {
      forall i | 0 <= i < |n| ensures !ms[i].role.Absent? && !ms[i].content.Absent? {
        assert SameMember(n[i], ms[i]);
      }
    }
  }

  function ReconcileTimes(json: Record -> string, st: Store, n: nat): Store {
    if n == 0 then st else Reconcile(json, ReconcileTimes(json, st, n - 1))
  }

  /** One message without a role. */
  const ROLELESS := Snapshot([Message(Absent, Given("a"), None, None, None, None, None)], None)

  const NOTHING := Store(Disk(None, None), None)

  lemma SavedRoleless(json: Record -> string)
    requires Proper(json)
    ensures var st := AfterSave(json, NOTHING, ROLELESS, Done);
            Audit(st) == Diverged && st.snapshot == Some(ROLELESS)
  {
    assert ROLELESS.messages[0].role.Absent?;
    SyncIsExact(json, NOTHING.disk, ROLELESS);
    SpelledOut(ROLELESS.messages);
    hide Sync, Derived, Decodes, Normalized, SameMessages, Fits;
    assert Says(Sync(json, NOTHING.disk, ROLELESS), ROLELESS);
  }

  lemma StaysDiverged(json: Record -> string, st: Store)
    requires Proper(json) && Audit(st) == Diverged && st.snapshot == Some(ROLELESS)
    ensures Audit(Reconcile(json, st)) == Diverged && Reconcile(json, st).snapshot == Some(ROLELESS)
  {
    assert ROLELESS.messages[0].role.Absent?;
    assert !Explicit(ROLELESS.messages);
    hide Audit, Reconcile, Explicit, Firm, Legible, Derived, Normalized, Proper;
    ReconcileIsExact(json, st);
  }

  /** A message without a role, saved once from nothing: every audit, after any number of repairs, finds it diverged. */
  lemma {:induction false} DivergedForever(json: Record -> string, n: nat)
    requires Proper(json)
    ensures var st := AfterSave(json, NOTHING, ROLELESS, Done);
            Audit(ReconcileTimes(json, st, n)) == Diverged && ReconcileTimes(json, st, n).snapshot == Some(ROLELESS)
  {
    hide AfterSave, Audit, Reconcile, Proper;
    if n == 0 {
      SavedRoleless(json);
    } else {
      DivergedForever(json, n - 1);
      StaysDiverged(json, ReconcileTimes(json, AfterSave(json, NOTHING, ROLELESS, Done), n - 1));
    }
  }
}
