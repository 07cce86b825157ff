/** Recovery of the session log from crashes at any point of a sync. */
module SessionLogProofs {
  import opened Common
  import opened SessionLog
  import opened Utf8

  // ---------- Reading what was written ----------

  ghost predicate NoGarbled(rs: seq<Record>) {
    forall i :: 0 <= i < |rs| ==> IsRecord(rs[i])
  }

  lemma {:induction false} ReadableAll(rs: seq<Record>)
    requires NoGarbled(rs)
    ensures Readable(rs) == rs
  {
    if rs == [] {
    } else {
      assert NoGarbled(rs[1..]);
      ReadableAll(rs[1..]);
    }
  }

  lemma {:induction false} MessagesConcat(a: seq<Record>, b: seq<Record>)
    ensures MessagesIn(a + b) == MessagesIn(a) + MessagesIn(b)
    decreases |b|
  {
    if b == [] {
      assert a + b == a;
    } else {
      assert Front(a + b) == a + Front(b) && Last(a + b) == Last(b);
      MessagesConcat(a, Front(b));
    }
  }

  lemma {:induction false} EventsMessages(ms: seq<Message>, start: nat, n: nat)
    requires start + n <= |ms|
    ensures MessagesIn(Events(ms, start)[..n]) == Normalized(ms)[start..start + n]
  {
    var es := Events(ms, start);
    if n == 0 {
    } else {
      EventsMessages(ms, start, n - 1);
      assert Front(es[..n]) == es[..n - 1] && Last(es[..n]) == Event(start + n, ToEvent(ms[start + n - 1]));
      assert Normalized(ms)[start..start + n] == Normalized(ms)[start..start + n - 1] + [Normal(ms[start + n - 1])];
    }
  }

  lemma {:induction false} EventsLeaveCursor(a: seq<Record>, ms: seq<Message>, start: nat, n: nat)
    requires start + n <= |ms|
    ensures CursorIn(a + Events(ms, start)[..n]) == CursorIn(a)
  {
    var es := Events(ms, start);
    if n == 0 {
      assert a + es[..0] == a;
    } else {
      assert Front(a + es[..n]) == a + es[..n - 1] && Last(a + es[..n]) == es[n - 1];
      EventsLeaveCursor(a, ms, start, n - 1);
    }
  }

  /** A file without garbled lines is read in full. */
  ghost predicate WellFormed(d: Disk) {
    d.log.Some? ==>
      && NoGarbled(d.log.value.lines)
      && (d.log.value.tail.Unterminated? ==> IsRecord(d.log.value.tail.record))
  }

  function Whole(f: LogFile): seq<Record> {
    f.lines + if f.tail.Unterminated? then [f.tail.record] else []
  }

  lemma ReadsWhole(d: Disk)
    requires WellFormed(d) && d.log.Some?
    ensures Committed(d.log.value) == Whole(d.log.value)
    ensures Decodes(d.log.value) <==> !d.log.value.tail.Split?
  {
    ReadableAll(d.log.value.lines);
  }

  /** The new records of an append, and what any initial part of them adds. */
  lemma NewRecordsRead(a: seq<Record>, s: Snapshot, start: nat, last: Option<string>, n: nat)
    requires start <= |s.messages| && n <= |NewRecords(s, start, last)|
    ensures var rs := NewRecords(s, start, last);
            var end := if start + n <= |s.messages| then start + n else |s.messages|;
            && NoGarbled(rs)
            && MessagesIn(a + rs[..n]) == MessagesIn(a) + Normalized(s.messages)[start..end]
            && (n == |rs| && CursorIn(a) == last ==> CursorIn(a + rs[..n]) == CursorOf(s))
  {
    var rs, es, k := NewRecords(s, start, last), Events(s.messages, start), |s.messages| - start;
    if n <= k {
      assert rs[..n] == es[..n];
      MessagesConcat(a, es[..n]);
      EventsMessages(s.messages, start, n);
      EventsLeaveCursor(a, s.messages, start, n);
    } else {
      assert rs[..n] == es + [CursorMark(|s.messages|, CursorOf(s))];
      assert es == es[..k];
      MessagesConcat(a, es);
      EventsMessages(s.messages, start, k);
      assert a + rs[..n] == (a + es) + [CursorMark(|s.messages|, CursorOf(s))];
      MessagesConcat(a + es, [CursorMark(|s.messages|, CursorOf(s))]);
      assert Front(a + rs[..n]) == a + es && Last(a + rs[..n]) == CursorMark(|s.messages|, CursorOf(s));
    }
  }

  function Head(branch: Option<Branch>): seq<Record> {
    [Header] + if branch.Some? then [BranchPoint(branch.value)] else []
  }

  lemma HeadRead(branch: Option<Branch>)
    ensures MessagesIn(Head(branch)) == [] && CursorIn(Head(branch)) == None && NoGarbled(Head(branch))
  {
    assert Front([Header]) == [];
    if branch.Some? {
      assert Front(Head(branch)) == [Header];
    }
  }

  lemma GenerationLines(s: Snapshot, branch: Option<Branch>)
    ensures Generation(s.messages, CursorOf(s), branch) == LogFile(Head(branch) + NewRecords(s, 0, None), Clean)
  {
  }

  lemma NoGarbledConcat(a: seq<Record>, b: seq<Record>)
    requires NoGarbled(a) && NoGarbled(b)
    ensures NoGarbled(a + b) && Readable(a + b) == a + b
  {
    ReadableAll(a + b);
  }

  /** A published generation reads back as the snapshot it was made from. */
  lemma GenerationRead(s: Snapshot, branch: Option<Branch>)
    ensures var f := Generation(s.messages, CursorOf(s), branch);
            && NoGarbled(f.lines) && f.tail.Clean? && Decodes(f)
            && Derived(f) == Normalized(s.messages)
            && ReadCursor(f) == CursorOf(s)
  {
    hide Generation, NewRecords, Head, NoGarbled, Readable, MessagesIn, CursorIn, Normalized, CursorOf;
    var rs := NewRecords(s, 0, None);
    GenerationLines(s, branch);
    HeadRead(branch);
    NewRecordsRead(Head(branch), s, 0, None, |rs|);
    assert rs[..|rs|] == rs;
    assert NoGarbled(rs);
    NoGarbledConcat(Head(branch), rs);
    NewRecordsCount(s, 0, None);
    assert Normalized(s.messages)[0..|s.messages|] == Normalized(s.messages);
  }

  lemma NewRecordsCount(s: Snapshot, start: nat, last: Option<string>)
    requires start <= |s.messages|
    ensures |s.messages| <= start + |NewRecords(s, start, last)|
  {
  }

  /** Reading a clean file after an append. */
  lemma AppendRead(f: LogFile, s: Snapshot, start: nat, last: Option<string>)
    requires NoGarbled(f.lines) && f.tail.Clean? && start <= |s.messages|
    requires start == |Derived(f)| && last == ReadCursor(f)
    ensures var g := LogFile(f.lines + NewRecords(s, start, last), Clean);
            && NoGarbled(g.lines) && Decodes(g)
            && Derived(g) == Derived(f) + Normalized(s.messages)[start..]
            && ReadCursor(g) == CursorOf(s)
  {
    hide NewRecords, NoGarbled, Readable, MessagesIn, CursorIn, Normalized, CursorOf;
    var rs := NewRecords(s, start, last);
    ReadableAll(f.lines);
    NewRecordsRead(f.lines, s, start, last, |rs|);
    assert rs[..|rs|] == rs;
    NoGarbledConcat(f.lines, rs);
    NewRecordsCount(s, start, last);
    assert |Normalized(s.messages)| == |s.messages|;
    assert Normalized(s.messages)[start..|s.messages|] == Normalized(s.messages)[start..];
  }

  /** A history continued from its own length onward is the new one just when it was a first part of it. */
  lemma ContinuedIsExact(was: seq<Message>, now: seq<Message>)
    requires |was| <= |now|
    ensures was + now[|was|..] == now <==> was <= now
    ensures |was + now[|was|..]| == |now|
  {
    if was + now[|was|..] == now {
      assert was == now[..|was|];
    }
    if was <= now {
      assert now[..|was|] + now[|was|..] == now;
    }
  }

  // ---------- The sidecar ----------

  /** The sidecar states what the log holds, and the log ends in a newline. */
  ghost predicate Accurate(d: Disk) {
    && d.log.Some? && d.side.Some? && d.log.value.tail.Clean?
    && d.side.value.events == |Derived(d.log.value)|
    && d.side.value.cursor == ReadCursor(d.log.value)
  }

  /** A trusted sidecar is accurate: what every sync relies on. */
  ghost predicate Sound(json: Record -> string, d: Disk) {
    WellFormed(d) && (Trusted(json, d).Some? ==> Accurate(d))
  }

  /** Moreover no growth of the log can bring it back to the size of a stale sidecar. */
  ghost predicate Firm(json: Record -> string, d: Disk) {
    && Sound(json, d)
    && (d.side.Some? ==> d.log.Some? && d.side.value.size <= FileSize(json, d.log.value))
  }

  lemma {:induction false} LinesSizeConcat(json: Record -> string, a: seq<Record>, b: seq<Record>)
    ensures LinesSize(json, a + b) == LinesSize(json, a) + LinesSize(json, b)
    decreases |b|
  {
    if b == [] {
      assert a + b == a;
    } else {
      assert Front(a + b) == a + Front(b) && Last(a + b) == Last(b);
      LinesSizeConcat(json, a, Front(b));
    }
  }

  lemma LinesSizePositive(json: Record -> string, rs: seq<Record>)
    requires Proper(json) && rs != [] && NoGarbled(rs)
    ensures LinesSize(json, rs) > 0
  {
    assert LineSize(json, Last(rs)) >= 3;
  }

  // ---------- A complete sync ----------

  /** The log can be read: it does not end inside a character. */
  predicate Legible(d: Disk) {
    d.log.Some? ==> !d.log.value.tail.Split?
  }

  /** The log reads as exactly this snapshot's history and cursor. */
  predicate Says(d: Disk, s: Snapshot) {
    && d.log.Some? && Decodes(d.log.value)
    && Derived(d.log.value) == Normalized(s.messages) && ReadCursor(d.log.value) == CursorOf(s)
  }

  /**
   The histories a sync can record: anything when the log is replaced, and otherwise a history that
   continues what the log holds. Only lengths are compared, so a caller must see to the rest.
   */
  ghost predicate Fits(json: Record -> string, d: Disk, s: Snapshot) {
    || d.log.None?
    || |s.messages| < |Derived(d.log.value)|
    || (Trusted(json, d).None? && !d.log.value.tail.Clean?)
    || Derived(d.log.value) <= Normalized(s.messages)
  }

  /** The plan of a sync from a sound disk. */
  lemma PlanIs(json: Record -> string, d: Disk, s: Snapshot)
    requires Sound(json, d)
    ensures var plan := PlanOf(json, d, s);
            plan.Append? ==>
              && d.log.Some? && d.log.value.tail.Clean?
              && plan.start == |Derived(d.log.value)| <= |s.messages|
              && plan.last == ReadCursor(d.log.value)
              && Committed(d.log.value) == d.log.value.lines
    ensures PlanOf(json, d, s).Publish? ==> Fits(json, d, s)
    ensures PlanOf(json, d, s).Refuse? <==> !Legible(d)
  {
    if d.log.Some? {
      ReadsWhole(d);
    }
  }

  /**
   A sync of a log that ends inside a character does nothing. Any other leaves an accurate sidecar and the
   snapshot's cursor, and the derived history is the snapshot's exactly when the snapshot fits.
   */
  lemma SyncIsExact(json: Record -> string, d: Disk, s: Snapshot)
    requires Sound(json, d) && Proper(json)
    ensures var r := Sync(json, d, s);
            if !Legible(d) then r == d && !Says(r, s)
            else
              && Firm(json, r) && Accurate(r) && Trusted(json, r).Some? && Legible(r)
              && Decodes(r.log.value) && ReadCursor(r.log.value) == CursorOf(s)
              && |Derived(r.log.value)| == |s.messages|
              && (Says(r, s) <==> Fits(json, d, s))
  {
    PlanIs(json, d, s);
    if Legible(d) {
      LegibleSync(json, d, s);
    } else {
      ReadsWhole(d);
    }
  }

  lemma LegibleSync(json: Record -> string, d: Disk, s: Snapshot)
    requires Sound(json, d) && Proper(json) && Legible(d)
    ensures var r := Sync(json, d, s);
            && Firm(json, r) && Accurate(r) && Trusted(json, r).Some? && Legible(r)
            && Decodes(r.log.value) && ReadCursor(r.log.value) == CursorOf(s)
            && |Derived(r.log.value)| == |s.messages|
            && (Says(r, s) <==> Fits(json, d, s))
  {
    hide Generation, NewRecords, NoGarbled, Derived, ReadCursor, Normalized, CursorOf, BranchOf, Decodes;
    PlanIs(json, d, s);
    assert |Normalized(s.messages)| == |s.messages|;
    match PlanOf(json, d, s)
    case Publish(branch) => GenerationRead(s, branch);
    case Append(start, last) =>
      var f, rs := d.log.value, NewRecords(s, start, last);
      AppendRead(f, s, start, last);
      assert rs == [] ==> f.lines + rs == f.lines;
      ContinuedIsExact(Derived(f), Normalized(s.messages));
  }

  // ---------- An interrupted sync ----------

  /** Cut anywhere in an append, the log holds the old history and some first part of the new messages. */
  lemma CutAppendRead(json: Record -> string, d: Disk, s: Snapshot, c: Cut)
    requires Sound(json, d) && ValidCut(json, d, s, c) && PlanOf(json, d, s).Append?
    ensures var r := AfterCut(json, d, s, c);
            && WellFormed(r) && r.log.Some? && r.side == d.side
            && Derived(d.log.value) <= Derived(r.log.value)
            && Derived(r.log.value) <= Derived(d.log.value) + Normalized(s.messages)[|Derived(d.log.value)|..]
            && (Legible(r) <==> !Splits(json, d, s, c))
  {
    hide NewRecords, NoGarbled, ReadCursor, Normalized, CursorOf, BranchOf, MessagesIn;
    hide CursorIn, Readable, OnBoundary, Bytes;
    PlanIs(json, d, s);
    ReadsWhole(d);
    var plan, f := PlanOf(json, d, s), d.log.value;
    var rs := NewRecords(s, plan.start, plan.last);
    match c
    case AtStart =>
    case BeforeSidecar =>
      AppendRead(f, s, plan.start, plan.last);
      assert rs == [] ==> f.lines + rs == f.lines;
    case InAppend(whole, bytes) =>
      CutFragmentRead(f, s, plan.start, plan.last, whole, Fragment(json, rs[whole], bytes));
      assert rs[..whole] == [] ==> f.lines + rs[..whole] == f.lines;
  }

  lemma CutFragmentRead(f: LogFile, s: Snapshot, start: nat, last: Option<string>, whole: nat, tail: Tail)
    requires NoGarbled(f.lines) && f.tail.Clean? && start == |Derived(f)| <= |s.messages|
    requires whole < |NewRecords(s, start, last)|
    requires tail.Unterminated? ==> tail.record == NewRecords(s, start, last)[whole]
    ensures var g := LogFile(f.lines + NewRecords(s, start, last)[..whole], tail);
            && NoGarbled(g.lines) && (tail.Unterminated? ==> IsRecord(tail.record))
            && Derived(f) <= Derived(g) <= Derived(f) + Normalized(s.messages)[start..]
  {
    hide NewRecords, Normalized, CursorOf, MessagesIn, CursorIn, Readable;
    var rs := NewRecords(s, start, last);
    var n := if tail.Unterminated? then whole + 1 else whole;
    NewRecordsRead(f.lines, s, start, last, n);
    ReadableAll(f.lines);
    ReadableAll(f.lines + rs[..whole]);
    if tail.Unterminated? {
      assert f.lines + rs[..n] == (f.lines + rs[..whole]) + [rs[whole]];
    }
    var m := if start + n <= |s.messages| then start + n else |s.messages|;
    assert |Normalized(s.messages)| == |s.messages|;
    assert Normalized(s.messages)[start..m] <= Normalized(s.messages)[start..];
  }

  /** Growth never makes a stale sidecar trusted again. */
  lemma CutAppendKeepsFirm(json: Record -> string, d: Disk, s: Snapshot, c: Cut)
    requires Firm(json, d) && Proper(json) && ValidCut(json, d, s, c) && PlanOf(json, d, s).Append?
    ensures Firm(json, AfterCut(json, d, s, c))
  {
    hide NewRecords, NoGarbled, Derived, ReadCursor, Normalized, CursorOf, BranchOf, Decodes, OnBoundary, Bytes;
    CutAppendRead(json, d, s, c);
    PlanIs(json, d, s);
    var plan, f := PlanOf(json, d, s), d.log.value;
    var rs := NewRecords(s, plan.start, plan.last);
    match c
    case AtStart =>
    case BeforeSidecar =>
      LinesSizeConcat(json, f.lines, rs);
      NewRecordsRead(f.lines, s, plan.start, plan.last, 0);
      if rs != [] {
        LinesSizePositive(json, rs);
      }
    case InAppend(whole, bytes) =>
      LinesSizeConcat(json, f.lines, rs[..whole]);
      NewRecordsRead(f.lines, s, plan.start, plan.last, 0);
      if whole > 0 {
        LinesSizePositive(json, rs[..whole]);
      } else {
        assert rs[..whole] == [];
        assert f.lines + rs[..whole] == f.lines;
      }
  }

  /** The sidecar on `d` says what the log on `r` holds. */
  predicate Describes(d: Disk, r: Disk) {
    && d.side.Some? && r.log.Some? && r.log.value.tail.Clean?
    && d.side.value.events == |Derived(r.log.value)| && d.side.value.cursor == ReadCursor(r.log.value)
  }

  /** The cut leaves the log at the size a stale sidecar recorded, without the sidecar describing it. */
  predicate Collides(json: Record -> string, d: Disk, s: Snapshot, c: Cut) {
    var r := AfterCut(json, d, s, c);
    r.log.Some? && d.side.Some? && d.side.value.size == FileSize(json, r.log.value) && !Describes(d, r)
  }

  /**
   Cut anywhere, the disk stays sound exactly unless the cut collides. Only a cut that leaves the recorded
   size can: for a publish that is the size of the new generation, larger or smaller.
   */
  lemma CutIsExact(json: Record -> string, d: Disk, s: Snapshot, c: Cut)
    requires Sound(json, d) && ValidCut(json, d, s, c)
    ensures var r := AfterCut(json, d, s, c);
            && WellFormed(r) && r.side == d.side
            && (Sound(json, r) <==> !Collides(json, d, s, c))
            && (Legible(d) ==> (Legible(r) <==> !Splits(json, d, s, c)))
  {
    hide Generation, NewRecords, NoGarbled, Derived, ReadCursor, Normalized, CursorOf, BranchOf;
    hide Decodes, OnBoundary, Bytes, FileSize;
    if PlanOf(json, d, s).Append? {
      CutAppendRead(json, d, s, c);
    } else if PlanOf(json, d, s).Publish? {
      GenerationRead(s, PlanOf(json, d, s).branch);
    }
  }

  /** What a cut between a new generation and its sidecar leaves. */
  lemma CutPublishIsExact(json: Record -> string, d: Disk, s: Snapshot)
    requires Sound(json, d) && PlanOf(json, d, s).Publish?
    ensures var r := AfterCut(json, d, s, BeforeSidecar);
            && Says(r, s) && Legible(r)
            && (Sound(json, r) <==> d.side.None? || d.side.value.size != FileSize(json, r.log.value)
                                    || (d.side.value.events == |s.messages| && d.side.value.cursor == CursorOf(s)))
  {
    GenerationRead(s, PlanOf(json, d, s).branch);
  }

  /**
   Crash recovery: after a sync cut at any point that does not collide, the next sync makes the log say its
   history and cursor exactly when the cut was between characters and the history fits what the cut left.
   */
  lemma NextSyncRecovers(json: Record -> string, d: Disk, s: Snapshot, c: Cut, next: Snapshot)
    requires Sound(json, d) && Legible(d) && Proper(json) && ValidCut(json, d, s, c) && !Collides(json, d, s, c)
    ensures var r := AfterCut(json, d, s, c);
            var e := Sync(json, r, next);
            && Sound(json, r) && Sound(json, e)
            && (Says(e, next) <==> !Splits(json, d, s, c) && Fits(json, r, next))
            && (Splits(json, d, s, c) ==> e == r)
  {
    hide Sync, AfterCut, Says, Fits, Splits;
    CutIsExact(json, d, s, c);
    SyncIsExact(json, AfterCut(json, d, s, c), next);
  }

  /** If every record's text is ASCII, no cut falls inside a character. */
  lemma AsciiNeverSplits(json: Record -> string, d: Disk, s: Snapshot, c: Cut)
    requires forall r :: Ascii(json(r))
    ensures !Splits(json, d, s, c)
  {
    if c.InAppend? && PlanOf(json, d, s).Append? && PlanOf(json, d, s).start <= |s.messages| {
      var rs := NewRecords(s, PlanOf(json, d, s).start, PlanOf(json, d, s).last);
      if c.whole < |rs| && c.bytes < Bytes(json(rs[c.whole])) {
        AsciiBoundaries(json(rs[c.whole]), c.bytes);
      }
    }
  }

  // ---------- Which cuts can collide ----------

  /** While the sidecar is not ahead of the log, only a publish can collide, and only just before its sidecar. */
  lemma OnlyPublishCollides(json: Record -> string, d: Disk, s: Snapshot, c: Cut)
    requires Firm(json, d) && Proper(json) && ValidCut(json, d, s, c) && Collides(json, d, s, c)
    ensures PlanOf(json, d, s).Publish? && c.BeforeSidecar?
    ensures FileSize(json, Written(json, d, s).log.value) == d.side.value.size
  {
    CutIsExact(json, d, s, c);
    if PlanOf(json, d, s).Append? {
      CutAppendKeepsFirm(json, d, s, c);
    }
    hide Generation, NewRecords, Derived, ReadCursor, FileSize, Decodes;
  }

  /** Where in some lines their first `n` bytes end. */
  lemma {:induction false} LineAt(json: Record -> string, rs: seq<Record>, n: nat) returns (whole: nat, bytes: nat)
    requires n <= LinesSize(json, rs) && NoGarbled(rs)
    ensures whole <= |rs| && LinesSize(json, rs[..whole]) + bytes == n
    ensures if whole == |rs| then bytes == 0 else bytes <= Bytes(json(rs[whole]))
  {
    if n == LinesSize(json, rs) {
      whole, bytes := |rs|, 0;
      assert rs[..whole] == rs;
    } else if n >= LinesSize(json, Front(rs)) {
      whole, bytes := |rs| - 1, n - LinesSize(json, Front(rs));
      assert IsRecord(rs[|rs| - 1]);
    } else {
      whole, bytes := LineAt(json, Front(rs), n);
      assert rs[..whole] == Front(rs)[..whole];
    }
  }

  /** How long a cut append leaves the log. */
  lemma CutSize(json: Record -> string, d: Disk, s: Snapshot, whole: nat, bytes: nat)
    requires Sound(json, d) && PlanOf(json, d, s).Append? && ValidCut(json, d, s, InAppend(whole, bytes))
    ensures var rs := NewRecords(s, PlanOf(json, d, s).start, PlanOf(json, d, s).last);
            && AfterCut(json, d, s, InAppend(whole, bytes)).log.Some? && d.log.Some?
            && FileSize(json, AfterCut(json, d, s, InAppend(whole, bytes)).log.value)
               == FileSize(json, d.log.value) + LinesSize(json, rs[..whole]) + bytes
  {
    PlanIs(json, d, s);
    var f, rs := d.log.value, NewRecords(s, PlanOf(json, d, s).start, PlanOf(json, d, s).last);
    LinesSizeConcat(json, f.lines, rs[..whole]);
    hide NewRecords, Derived, Decodes, OnBoundary, Bytes, PlanOf;
    assert rs[..whole] == [] ==> f.lines + rs[..whole] == f.lines;
  }

  lemma WrittenSize(json: Record -> string, d: Disk, s: Snapshot)
    requires Sound(json, d) && PlanOf(json, d, s).Append?
    ensures var rs := NewRecords(s, PlanOf(json, d, s).start, PlanOf(json, d, s).last);
            && d.log.Some? && Written(json, d, s).log.Some? && NoGarbled(rs)
            && FileSize(json, Written(json, d, s).log.value) == FileSize(json, d.log.value) + LinesSize(json, rs)
  {
    PlanIs(json, d, s);
    var f, plan := d.log.value, PlanOf(json, d, s);
    var rs := NewRecords(s, plan.start, plan.last);
    NewRecordsRead(f.lines, s, plan.start, plan.last, 0);
    LinesSizeConcat(json, f.lines, rs);
    hide NewRecords, Derived, Decodes, Bytes, PlanOf;
    assert rs == [] ==> f.lines + rs == f.lines;
  }

  lemma PartSize(json: Record -> string, rs: seq<Record>, whole: nat, bytes: nat)
    requires NoGarbled(rs) && whole < |rs| && bytes <= Bytes(json(rs[whole]))
    ensures LinesSize(json, rs[..whole]) + bytes < LinesSize(json, rs)
  {
    hide Bytes;
    var next := rs[..whole + 1];
    assert Front(next) == rs[..whole] && Last(next) == rs[whole];
    assert IsRecord(rs[whole]);
    assert LinesSize(json, next) == LinesSize(json, rs[..whole]) + Bytes(json(rs[whole])) + 1;
    assert next + rs[whole + 1..] == rs;
    hide LinesSize;
    LinesSizeConcat(json, next, rs[whole + 1..]);
  }

  /**
   An append can collide only if the log grows past the recorded size, as it may after a crash behind a smaller
   generation. Then some cut leaves it at exactly that size, and that cut collides unless the record describes it.
   */
  lemma AppendCollides(json: Record -> string, d: Disk, s: Snapshot, c: Cut) returns (hit: Cut)
    requires Sound(json, d) && Proper(json) && PlanOf(json, d, s).Append? && ValidCut(json, d, s, c)
    ensures d.log.Some? && Written(json, d, s).log.Some?
    ensures var grows := d.side.Some? && FileSize(json, d.log.value) < d.side.value.size
                         && d.side.value.size <= FileSize(json, Written(json, d, s).log.value);
            && (Collides(json, d, s, c) ==> grows)
            && (grows ==>
                  && ValidCut(json, d, s, hit) && AfterCut(json, d, s, hit).log.Some?
                  && FileSize(json, AfterCut(json, d, s, hit).log.value) == d.side.value.size
                  && (Collides(json, d, s, hit) <==> !Describes(d, AfterCut(json, d, s, hit))))
  {
    WrittenSize(json, d, s);
    var rs := NewRecords(s, PlanOf(json, d, s).start, PlanOf(json, d, s).last);
    hit := AtStart;
    if Collides(json, d, s, c) {
      InsideGrowth(json, d, s, c);
    }
    if d.side.Some? && FileSize(json, d.log.value) < d.side.value.size
       && d.side.value.size <= FileSize(json, Written(json, d, s).log.value)
    {
      var whole, bytes := LineAt(json, rs, d.side.value.size - FileSize(json, d.log.value));
      if whole == |rs| {
        hit := BeforeSidecar;
        assert rs[..whole] == rs;
      } else {
        hit := InAppend(whole, bytes);
        PlanIs(json, d, s);
        hide FileSize, NewRecords, AfterCut, Written, PlanOf, Describes;
        CutSize(json, d, s, whole, bytes);
      }
    }
  }

  lemma InsideGrowth(json: Record -> string, d: Disk, s: Snapshot, c: Cut)
    requires Sound(json, d) && Proper(json) && PlanOf(json, d, s).Append? && ValidCut(json, d, s, c)
    requires Collides(json, d, s, c)
    ensures d.log.Some? && Written(json, d, s).log.Some? && d.side.Some?
    ensures FileSize(json, d.log.value) < d.side.value.size <= FileSize(json, Written(json, d, s).log.value)
  {
    WrittenSize(json, d, s);
    if d.side.value.size <= FileSize(json, d.log.value) {
      OnlyPublishCollides(json, d, s, c);
    }
    if c.InAppend? {
      var rs := NewRecords(s, PlanOf(json, d, s).start, PlanOf(json, d, s).last);
      CutSize(json, d, s, c.whole, c.bytes);
      PartSize(json, rs, c.whole, c.bytes);
    }
    hide FileSize, NewRecords, PlanOf, Derived, Describes;
  }

  // ---------- Runs ----------

  /** One attempt to sync: completed, or cut somewhere. */
  datatype Attempt = Attempt(snapshot: Snapshot, cut: Option<Cut>)

  function Try(json: Record -> string, d: Disk, a: Attempt): Disk {
    if a.cut.None? then Sync(json, d, a.snapshot) else AfterCut(json, d, a.snapshot, a.cut.value)
  }

  function TryAll(json: Record -> string, d: Disk, attempts: seq<Attempt>): Disk {
    if attempts == [] then d else Try(json, TryAll(json, d, Front(attempts)), Last(attempts))
  }

  ghost predicate Credible(json: Record -> string, d: Disk, attempts: seq<Attempt>) {
    attempts != [] ==>
      var before, a := TryAll(json, d, Front(attempts)), Last(attempts);
      Credible(json, d, Front(attempts)) && (a.cut.Some? ==> ValidCut(json, before, a.snapshot, a.cut.value))
  }

  /** Some cut of the run collides. */
  ghost predicate AnyCollides(json: Record -> string, d: Disk, attempts: seq<Attempt>) {
    attempts != [] &&
    (|| AnyCollides(json, d, Front(attempts))
     || (Last(attempts).cut.Some?
         && Collides(json, TryAll(json, d, Front(attempts)), Last(attempts).snapshot, Last(attempts).cut.value)))
  }

  /** Some cut of the run falls inside a character. */
  ghost predicate AnySplits(json: Record -> string, d: Disk, attempts: seq<Attempt>) {
    attempts != [] &&
    (|| AnySplits(json, d, Front(attempts))
     || (Last(attempts).cut.Some?
         && Splits(json, TryAll(json, d, Front(attempts)), Last(attempts).snapshot, Last(attempts).cut.value)))
  }

  /** Every disk of a run is sound. */
  ghost predicate AlwaysSound(json: Record -> string, d: Disk, attempts: seq<Attempt>) {
    && Sound(json, TryAll(json, d, attempts))
    && (attempts != [] ==> AlwaysSound(json, d, Front(attempts)))
  }

  /**
   Over any number of completed and interrupted syncs a trusted sidecar always states the true count and
   cursor exactly unless some cut collides; and then the log can be read exactly unless some cut fell
   inside a character.
   */
  lemma {:induction false} RunsStaySound(json: Record -> string, d: Disk, attempts: seq<Attempt>)
    requires Sound(json, d) && Legible(d) && Proper(json) && Credible(json, d, attempts)
    ensures AlwaysSound(json, d, attempts) <==> !AnyCollides(json, d, attempts)
    ensures !AnyCollides(json, d, attempts) ==> (Legible(TryAll(json, d, attempts)) <==> !AnySplits(json, d, attempts))
  {
    if attempts == [] {
    } else {
      RunsStaySound(json, d, Front(attempts));
      var before, a := TryAll(json, d, Front(attempts)), Last(attempts);
      hide Sync, AfterCut, Collides, Splits, Sound, Legible;
      if Sound(json, before) {
        if a.cut.Some? {
          CutIsExact(json, before, a.snapshot, a.cut.value);
          IllegibleStays(json, before, a);
        } else {
          SyncIsExact(json, before, a.snapshot);
          SyncKeepsSound(json, before, a.snapshot);
        }
      }
    }
  }

  lemma SyncKeepsSound(json: Record -> string, d: Disk, s: Snapshot)
    requires Sound(json, d) && Proper(json)
    ensures Sound(json, Sync(json, d, s)) && (Legible(Sync(json, d, s)) <==> Legible(d))
  {
    SyncIsExact(json, d, s);
  }

  /** No attempt changes a log that ends inside a character. */
  lemma IllegibleStays(json: Record -> string, d: Disk, a: Attempt)
    requires Sound(json, d) && Proper(json)
    ensures !Legible(d) ==> Try(json, d, a) == d && (a.cut.Some? ==> !Splits(json, d, a.snapshot, a.cut.value))
  {
    PlanIs(json, d, a.snapshot);
  }

  /** Once the log ends inside a character, no run of syncs ever changes it again. */
  lemma {:induction false} IllegibleForever(json: Record -> string, d: Disk, attempts: seq<Attempt>)
    requires Sound(json, d) && Proper(json) && !Legible(d)
    ensures TryAll(json, d, attempts) == d
  {
    if attempts == [] {
    } else {
      IllegibleForever(json, d, Front(attempts));
      IllegibleStays(json, d, Last(attempts));
    }
  }

  // ---------- Where the guarantees end ----------

  function Say(text: string): Message {
    Message(Given("user"), Given(text), None, None, None, None, None)
  }

  /** Equal lengths hide a change: a history of the logged length but with other contents is not recorded. */
  lemma ReplacedMessageIsLost(json: Record -> string)
    requires Proper(json)
    ensures var d := Sync(json, Disk(None, None), Snapshot([Say("a")], None));
            var r := Sync(json, d, Snapshot([Say("b")], None));
            Derived(r.log.value) == [Normal(Say("a"))] != Normalized([Say("b")])
  {
    var first, second := Snapshot([Say("a")], None), Snapshot([Say("b")], None);
    var d := Sync(json, Disk(None, None), first);
    SyncIsExact(json, Disk(None, None), first);
    SyncIsExact(json, d, second);
    assert Derived(d.log.value) == Normalized(first.messages) == [Normal(Say("a"))];
    assert PlanOf(json, d, second) == Append(1, None);
    assert NewRecords(second, 1, None) == [];
  }

  function Ten(r: Record): string {
    "{\"n\":\"x\"}"
  }

  /** A line of ten bytes. */
  lemma TenBytes(r: Record)
    ensures Bytes(Ten(r)) == 9 && Proper(Ten)
  {
    assert Ascii(Ten(r));
    BytesOfAscii(Ten(r));
  }

  lemma TwoLines(a: Record, b: Record)
    requires IsRecord(a) && IsRecord(b)
    ensures LinesSize(Ten, [a, b]) == 20
  {
    TenBytes(a);
    TenBytes(b);
    hide Bytes, Ten;
    assert Front([a, b]) == [a] && Front([a]) == [];
    assert LinesSize(Ten, [a]) == 10;
  }

  const ONE := Snapshot([Say("a")], None)
  const ONE_EVENT := Event(1, ToEvent(Say("a")))
  const STALE := Sidecar(20, 0, Some("x"))
  const TORN := Disk(Some(LogFile([Header, CursorMark(0, Some("x"))], Torn(5))), Some(STALE))

  lemma TornIsRepublished()
    ensures Derived(TORN.log.value) == [] && WellFormed(TORN) && FileSize(Ten, TORN.log.value) == 25 && Legible(TORN)
    ensures PlanOf(Ten, TORN, ONE) == Publish(None)
    ensures AfterCut(Ten, TORN, ONE, BeforeSidecar) == Disk(Some(LogFile([Header, ONE_EVENT], Clean)), Some(STALE))
  {
    var lines := [Header, CursorMark(0, Some("x"))];
    TwoLines(Header, CursorMark(0, Some("x")));
    hide LinesSize;
    assert Front(lines) == [Header] && Front([Header]) == [];
    ReadableAll(lines);
    assert Committed(TORN.log.value) == lines;
    assert MessagesIn([Header]) == [] && MessagesIn(lines) == [];
    assert Events(ONE.messages, 0) == [ONE_EVENT];
    assert Generation(ONE.messages, None, None).lines == [Header, ONE_EVENT];
  }

  lemma StaleSidecarIsTrusted(d: Disk)
    requires d == Disk(Some(LogFile([Header, ONE_EVENT], Clean)), Some(STALE))
    ensures Sync(Ten, d, ONE).log == Some(LogFile([Header, ONE_EVENT, ONE_EVENT, CursorMark(1, None)], Clean))
    ensures FileSize(Ten, d.log.value) == 20
  {
    TwoLines(Header, ONE_EVENT);
    hide LinesSize;
    assert Events(ONE.messages, 0) == [ONE_EVENT];
    assert NewRecords(ONE, 0, Some("x")) == [ONE_EVENT, CursorMark(1, None)];
    assert PlanOf(Ten, d, ONE) == Append(0, Some("x"));
    var mark := CursorMark(1, None);
    assert [Header, ONE_EVENT] + [ONE_EVENT, mark] == [Header, ONE_EVENT, ONE_EVENT, mark];
  }

  lemma TwiceRead(f: LogFile)
    requires f == LogFile([Header, ONE_EVENT, ONE_EVENT, CursorMark(1, None)], Clean)
    ensures Derived(f) == [Normal(Say("a")), Normal(Say("a"))]
  {
    var lines := f.lines;
    ReadableAll(lines);
    assert Front(lines) == [Header, ONE_EVENT, ONE_EVENT];
    assert Front([Header, ONE_EVENT, ONE_EVENT]) == [Header, ONE_EVENT] && Front([Header, ONE_EVENT]) == [Header];
    assert MessagesIn([Header]) == [] && MessagesIn([Header, ONE_EVENT]) == [Normal(Say("a"))];
    assert MessagesIn([Header, ONE_EVENT, ONE_EVENT]) == [Normal(Say("a")), Normal(Say("a"))];
  }

  /**
   A size collision is real: a torn log is republished, the crash leaves the old sidecar, the sizes
   happen to agree, and the next sync of the very same history records its message twice.
   */
  lemma CollisionDuplicates()
    ensures Proper(Ten) && Firm(Ten, TORN) && Legible(TORN) && Derived(TORN.log.value) <= Normalized(ONE.messages)
    ensures ValidCut(Ten, TORN, ONE, BeforeSidecar) && Collides(Ten, TORN, ONE, BeforeSidecar)
    ensures Derived(Sync(Ten, AfterCut(Ten, TORN, ONE, BeforeSidecar), ONE).log.value)
            == [Normal(Say("a")), Normal(Say("a"))]
  {
    TornIsRepublished();
    TenBytes(Header);
    hide Ten, FileSize, Sync, AfterCut, Derived, PlanOf;
    var r := AfterCut(Ten, TORN, ONE, BeforeSidecar);
    StaleSidecarIsTrusted(r);
    OneRead(r.log.value);
    TwiceRead(Sync(Ten, r, ONE).log.value);
  }

  lemma OneRead(f: LogFile)
    requires f == LogFile([Header, ONE_EVENT], Clean)
    ensures |Derived(f)| == 1
  {
    ReadableAll(f.lines);
    assert Front([Header, ONE_EVENT]) == [Header] && Front([Header]) == [];
    assert MessagesIn([Header]) == [];
  }

  // ---------- A cut inside a character ----------

  /** Texts that spell out a message, so that its characters are there to be cut. */
  function Spelled(r: Record): string {
    if r.Event? && r.message.content.Given? then "{" + r.message.content.text + "}" else "{}"
  }

  const ACCENT := Snapshot([Say("\U{00E9}")], None)

  /**
   One message with an accented letter, cut after the first of that letter's two bytes: the log says nothing any
   more, and no later sync, complete or cut, changes it.
   */
  lemma AccentIsSplit()
    ensures var d := Sync(Spelled, Disk(None, None), Snapshot([], None));
            && Proper(Spelled) && Sound(Spelled, d) && Legible(d) && ValidCut(Spelled, d, ACCENT, InAppend(0, 2))
            && var r := AfterCut(Spelled, d, ACCENT, InAppend(0, 2));
               && Splits(Spelled, d, ACCENT, InAppend(0, 2)) && !Collides(Spelled, d, ACCENT, InAppend(0, 2))
               && !Legible(r) && forall attempts :: TryAll(Spelled, r, attempts) == r
  {
    var none := Snapshot([], None);
    var d := Sync(Spelled, Disk(None, None), none);
    SyncIsExact(Spelled, Disk(None, None), none);
    AccentPlan(d);
    var c := InAppend(0, 2);
    hide Sync, AfterCut, Splits;
    CutAppendKeepsFirm(Spelled, d, ACCENT, c);
    CutIsExact(Spelled, d, ACCENT, c);
    var r := AfterCut(Spelled, d, ACCENT, c);
    forall attempts ensures TryAll(Spelled, r, attempts) == r {
      IllegibleForever(Spelled, r, attempts);
    }
  }

  lemma AccentPlan(d: Disk)
    requires Accurate(d) && Trusted(Spelled, d).Some? && |Derived(d.log.value)| == 0 && ReadCursor(d.log.value) == None
    ensures PlanOf(Spelled, d, ACCENT) == Append(0, None) && ValidCut(Spelled, d, ACCENT, InAppend(0, 2))
    ensures Splits(Spelled, d, ACCENT, InAppend(0, 2))
  {
    var e := Event(1, ToEvent(Say("\U{00E9}")));
    assert NewRecords(ACCENT, 0, None) == [e];
    var text := Spelled(e);
    assert text == "{\U{00E9}}";
    assert text[..0] == "" && text[..1] == "{" && text[..2] == "{" + "\U{00E9}" && text == text[..2] + "}";
    BytesOfOne('{');
    BytesOfOne('\U{00E9}');
    BytesOfOne('}');
    BytesOfConcat("{", "\U{00E9}");
    BytesOfConcat(text[..2], "}");
    assert Bytes(text[..0]) == 0 && Bytes(text[..1]) == 1 && Bytes(text[..2]) == 3 && Bytes(text) == 4;
    hide Bytes;
    forall k | 0 <= k <= |text| ensures Bytes(text[..k]) != 2 {
      assert text[..3] == text;
    }
  }
}
