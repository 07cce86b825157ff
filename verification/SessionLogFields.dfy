/** What the session log writes for a message and gives back of it, field by field. */
module SessionLogFields {
  import opened Common
  import opened SessionLog
  import opened SessionLogProofs

  /** A blank text (absent, null or empty) is left out; any other is kept. */
  predicate Kept(f: Option<string>, was: Option<string>) {
    if was.Some? && was.value != "" then f == was else f == None
  }

  predicate Defaulted(f: Member, was: Member, default: string) {
    if was == Absent then f == Given(default) else f == was
  }

  /** A message read back: role and content with their defaults, the other fields unless blank, and no timestamp. */
  predicate GivesBack(r: Message, m: Message) {
    && Defaulted(r.role, m.role, "user") && Defaulted(r.content, m.content, "")
    && Kept(r.metadata, m.metadata) && Kept(r.messageId, m.messageId)
    && Kept(r.parentId, m.parentId) && Kept(r.reasoning, m.reasoning)
    && r.timestamp == None
  }

  /** The line written for message `m` as the log's `n`-th; its timestamp is never left out. */
  predicate Writes(r: Record, n: nat, m: Message) {
    && r.Event? && r.number == n
    && Defaulted(r.message.role, m.role, "user") && Defaulted(r.message.content, m.content, "")
    && Kept(r.message.metadata, m.metadata) && Kept(r.message.messageId, m.messageId)
    && Kept(r.message.parentId, m.parentId) && Kept(r.message.reasoning, m.reasoning)
    && r.message.timestamp == Some(if m.timestamp.Some? then m.timestamp.value else "")
  }

  // ---------- Reading ----------

  /** The messages in a file's records, as they stand there. */
  function Told(rs: seq<Record>): seq<Message> {
    if rs == [] then []
    else (if rs[0].Event? then [rs[0].message] else []) + Told(rs[1..])
  }

  /** Reading gives back one message for each event record, in order. */
  ghost predicate ReadsBack(ms: seq<Message>, told: seq<Message>) {
    |ms| == |told| && forall i :: 0 <= i < |told| ==> GivesBack(ms[i], told[i])
  }

  lemma {:induction false} MessagesAreTold(rs: seq<Record>)
    ensures ReadsBack(MessagesIn(rs), Told(rs))
  {
    if rs == [] {
    } else {
      MessagesAreTold(rs[1..]);
      assert rs == [rs[0]] + rs[1..];
      MessagesConcat([rs[0]], rs[1..]);
      assert Front([rs[0]]) == [];
    }
  }

  /** The last cursor record. */
  predicate LastCursor(rs: seq<Record>, k: nat) {
    k < |rs| && rs[k].CursorMark? && forall i :: k < i < |rs| ==> !rs[i].CursorMark?
  }

  /** The last cursor record's value, none if it is blank or there is no such record. */
  lemma {:induction false} CursorIsLast(rs: seq<Record>)
    ensures (forall i :: 0 <= i < |rs| ==> !rs[i].CursorMark?) ==> CursorIn(rs) == None
    ensures forall k: nat :: LastCursor(rs, k) ==> Kept(CursorIn(rs), rs[k].cursor)
  {
    if rs == [] {
    } else {
      CursorIsLast(Front(rs));
      forall k: nat | LastCursor(rs, k) ensures Kept(CursorIn(rs), rs[k].cursor) {
        assert k < |rs| - 1 ==> !rs[|rs| - 1].CursorMark? && LastCursor(Front(rs), k);
      }
    }
  }

  // ---------- What a generation and an append give back ----------

  lemma NormalGivesBack(ms: seq<Message>)
    ensures ReadsBack(Normalized(ms), ms)
  {
  }

  /** Reading a published generation gives every message of the snapshot back, and its cursor unless blank. */
  lemma GenerationFields(s: Snapshot, branch: Option<Branch>)
    ensures var f := Generation(s.messages, CursorOf(s), branch);
            && Decodes(f) && ReadsBack(Derived(f), s.messages)
            && Kept(SessionLog.ReadCursor(f), s.cursor)
  {
    GenerationRead(s, branch);
    NormalGivesBack(s.messages);
  }

  /** Reading after an append gives back what was there before, then the new messages, and the new cursor. */
  lemma AppendFields(f: LogFile, s: Snapshot, start: nat, last: Option<string>)
    requires NoGarbled(f.lines) && f.tail.Clean? && start <= |s.messages|
    requires start == |Derived(f)| && last == SessionLog.ReadCursor(f)
    ensures var g := LogFile(f.lines + NewRecords(s, start, last), Clean);
            && Decodes(g) && Derived(f) <= Derived(g)
            && ReadsBack(Derived(g)[start..], s.messages[start..])
            && Kept(SessionLog.ReadCursor(g), s.cursor)
  {
    AppendRead(f, s, start, last);
    NormalGivesBack(s.messages);
    hide *;
    var g := LogFile(f.lines + NewRecords(s, start, last), Clean);
    assert Derived(g)[start..] == Normalized(s.messages)[start..];
    TailReadsBack(Normalized(s.messages), s.messages, start);
    CursorKept(s);
  }

  lemma CursorKept(s: Snapshot)
    ensures Kept(CursorOf(s), s.cursor)
  {
  }

  lemma TailReadsBack(ms: seq<Message>, told: seq<Message>, start: nat)
    requires ReadsBack(ms, told) && start <= |ms|
    ensures ReadsBack(ms[start..], told[start..])
  {
  }

  /** A sync of a history that fits makes the log give back every message of the snapshot, and its cursor. */
  lemma SyncFields(json: Record -> string, d: Disk, s: Snapshot)
    requires Sound(json, d) && Proper(json) && Legible(d) && Fits(json, d, s)
    ensures var r := Sync(json, d, s);
            && r.log.Some? && Decodes(r.log.value)
            && ReadsBack(Derived(r.log.value), s.messages)
            && Kept(SessionLog.ReadCursor(r.log.value), s.cursor)
  {
    SyncIsExact(json, d, s);
    NormalGivesBack(s.messages);
    CursorKept(s);
  }

  // ---------- What is written ----------

  /** The lines of messages, each numbered by its place in the whole history. */
  ghost predicate WritesAll(rs: seq<Record>, ms: seq<Message>, start: nat) {
    start + |rs| == |ms| && forall i :: 0 <= i < |rs| ==> Writes(rs[i], start + i + 1, ms[start + i])
  }

  /** Header, branch point, every message numbered from 1, and the cursor if there is one, all on whole lines. */
  ghost predicate IsGeneration(f: LogFile, ms: seq<Message>, cursor: Option<string>, branch: Option<Branch>) {
    var head := [Header] + if branch.Some? then [BranchPoint(branch.value)] else [];
    var end := |head| + |ms|;
    && f.tail.Clean?
    && |f.lines| == end + (if cursor.Some? then 1 else 0)
    && f.lines[..|head|] == head
    && WritesAll(f.lines[|head|..end], ms, 0)
    && (cursor.Some? ==> f.lines[end] == CursorMark(|ms|, cursor))
  }

  lemma EventsWrite(ms: seq<Message>, start: nat)
    requires start <= |ms|
    ensures WritesAll(Events(ms, start), ms, start)
  {
    var rs := Events(ms, start);
    forall i | 0 <= i < |rs| ensures Writes(rs[i], start + i + 1, ms[start + i]) {
      assert rs[i] == Event(start + i + 1, ToEvent(ms[start + i]));
    }
  }

  lemma GenerationIs(ms: seq<Message>, cursor: Option<string>, branch: Option<Branch>)
    ensures IsGeneration(Generation(ms, cursor, branch), ms, cursor, branch)
  {
    var head := [Header] + if branch.Some? then [BranchPoint(branch.value)] else [];
    var f := Generation(ms, cursor, branch);
    EventsWrite(ms, 0);
    assert f.lines[|head|..|head| + |ms|] == Events(ms, 0);
  }

  // ---------- Where two histories part ----------

  /** Two entries agree by id where both have one that is not blank, and otherwise by content. */
  predicate Agree(l: Message, r: Message) {
    if l.messageId.Some? && l.messageId.value != "" && r.messageId.Some? && r.messageId.value != ""
    then l.messageId.value == r.messageId.value
    else l.content == r.content || (l.content in {Absent, Null} && r.content in {Absent, Null})
  }

  /** A branch point: how long the histories agree, no shorter and no longer, and where that left the old one. */
  ghost predicate PartsAt(b: Branch, existing: seq<Message>, ms: seq<Message>) {
    && b.fromIndex <= |existing| && b.fromIndex <= |ms|
    && b.fromLength == |existing| && b.toLength == |ms|
    && (forall i :: 0 <= i < b.fromIndex ==> Agree(existing[i], ms[i]))
    && (b.fromIndex < |existing| && b.fromIndex < |ms| ==> !Agree(existing[b.fromIndex], ms[b.fromIndex]))
    && b.from == if b.fromIndex > 0 && existing[b.fromIndex - 1].messageId.Some?
                 then existing[b.fromIndex - 1].messageId.value else ""
  }

  lemma {:induction false} CommonIsLongest(ls: seq<Message>, rs: seq<Message>)
    ensures var n := CommonLength(ls, rs);
            && n <= |ls| && n <= |rs|
            && (forall i :: 0 <= i < n ==> Agree(ls[i], rs[i]))
            && (n < |ls| && n < |rs| ==> !Agree(ls[n], rs[n]))
  {
    if ls == [] || rs == [] {
    } else if SameEntry(ls[0], rs[0]) {
      CommonIsLongest(ls[1..], rs[1..]);
      var n := CommonLength(ls, rs);
      forall i | 0 <= i < n ensures Agree(ls[i], rs[i]) {
        assert i > 0 ==> ls[i] == ls[1..][i - 1] && rs[i] == rs[1..][i - 1];
      }
    }
  }

  lemma BranchIsWhereTheyPart(existing: seq<Message>, ms: seq<Message>)
    ensures PartsAt(BranchOf(existing, ms), existing, ms)
  {
    CommonIsLongest(existing, ms);
  }

  /** A history that became shorter replaces the log by a generation that says where it left the old one. */
  lemma ShrinkIsRecorded(json: Record -> string, d: Disk, s: Snapshot) returns (b: Branch)
    requires Sound(json, d) && Legible(d) && d.log.Some? && |s.messages| < |Derived(d.log.value)|
    ensures PartsAt(b, Derived(d.log.value), s.messages)
    ensures var r := Sync(json, d, s);
            r.log.Some? && IsGeneration(r.log.value, s.messages, CursorOf(s), Some(b))
  {
    b := BranchOf(Derived(d.log.value), s.messages);
    PlanIs(json, d, s);
    BranchIsWhereTheyPart(Derived(d.log.value), s.messages);
    GenerationIs(s.messages, CursorOf(s), Some(b));
    ReadsWhole(d);
    hide Generation, IsGeneration, PartsAt, Derived, BranchOf, CursorOf, Decodes;
  }

  /** A history that did not, on a log that ends in a newline, is continued behind the lines that are there. */
  lemma GrowthAppends(json: Record -> string, d: Disk, s: Snapshot)
    requires Sound(json, d) && d.log.Some? && d.log.value.tail.Clean? && |Derived(d.log.value)| <= |s.messages|
    ensures var r, start := Sync(json, d, s), |Derived(d.log.value)|;
            && r.log.Some? && r.log.value.tail.Clean? && d.log.value.lines <= r.log.value.lines
            && var added := r.log.value.lines[|d.log.value.lines|..];
               && |added| >= |s.messages| - start
               && WritesAll(added[..|s.messages| - start], s.messages, start)
               && added[|s.messages| - start..]
                  == if CursorOf(s) == SessionLog.ReadCursor(d.log.value) then []
                     else [CursorMark(|s.messages|, CursorOf(s))]
  {
    PlanIs(json, d, s);
    ReadsWhole(d);
    hide Derived, SessionLog.ReadCursor, CursorOf, Sound, FileSize, BranchOf, Decodes, Events;
    var f, start, last := d.log.value, |Derived(d.log.value)|, SessionLog.ReadCursor(d.log.value);
    var rs := NewRecords(s, start, last);
    var g := Sync(json, d, s).log.value;
    EventsWrite(s.messages, start);
    assert g.lines == f.lines + rs;
    assert g.lines[|f.lines|..] == rs;
    assert rs[..|s.messages| - start] == Events(s.messages, start);
  }
}
