/**
 The append-only session log of core/session_log.py: a file of records with perhaps a torn last
 line, and a sidecar that caches how far the log has come and is trusted on the file's size alone.
 */
module SessionLog {
  import opened Common
  import opened Utf8

  // ---------- Messages and records ----------

  /** A member that has a default: only an absent one takes it, while an explicit null stays. */
  datatype Member = Absent | Null | Given(text: string)

  /** A snapshot message; a blank optional field (absent, null, empty) is one the log leaves out. */
  datatype Message = Message(
    role: Member, content: Member, metadata: Option<string>, messageId: Option<string>,
    parentId: Option<string>, reasoning: Option<string>, timestamp: Option<string>)

  /** A branch record says where a shrunk history left the old one. */
  datatype Branch = Branch(from: string, fromIndex: nat, fromLength: nat, toLength: nat)

  datatype Record =
    | Header
    | BranchPoint(branch: Branch)
    | Event(number: nat, message: Message)
    | CursorMark(number: nat, cursor: Option<string>)
    | Garbled(bytes: nat) // a line that is not JSON
    | Undecodable(bytes: nat) // a line that is not even UTF-8

  /**
   What follows the last newline: nothing, an unparsable fragment of whole characters, a fragment that
   ends inside a character, or a whole record without its newline.
   */
  datatype Tail = Clean | Torn(bytes: nat) | Split(bytes: nat) | Unterminated(record: Record)

  datatype LogFile = LogFile(lines: seq<Record>, tail: Tail)

  datatype Sidecar = Sidecar(size: nat, events: nat, cursor: Option<string>)

  datatype Disk = Disk(log: Option<LogFile>, side: Option<Sidecar>)

  datatype Snapshot = Snapshot(messages: seq<Message>, cursor: Option<string>)

  function Filled(f: Option<string>): Option<string> {
    if f == Some("") then None else f
  }

  function OrElse(f: Option<string>, default: string): string {
    if f.Some? then f.value else default
  }

  function Or(m: Member, default: string): Member {
    if m.Absent? then Given(default) else m
  }

  /** Reading a member without a default makes an absent one null. */
  function Got(m: Member): Member {
    if m.Absent? then Null else m
  }

  /** The fields of the record written for a message. */
  function ToEvent(m: Message): Message {
    Message(Or(m.role, "user"), Or(m.content, ""), Filled(m.metadata), Filled(m.messageId),
            Filled(m.parentId), Filled(m.reasoning), Some(OrElse(m.timestamp, "")))
  }

  /** The message read back from a record: the timestamp is not part of it. */
  function FromEvent(m: Message): Message {
    Message(Or(m.role, "user"), Or(m.content, ""), Filled(m.metadata), Filled(m.messageId),
            Filled(m.parentId), Filled(m.reasoning), None)
  }

  function Normal(m: Message): Message {
    FromEvent(ToEvent(m))
  }

  function Normalized(ms: seq<Message>): (r: seq<Message>)
    ensures |r| == |ms| && forall i :: 0 <= i < |ms| ==> r[i] == Normal(ms[i])
  {
    seq(|ms|, i requires 0 <= i < |ms| => Normal(ms[i]))
  }

  /** `cursor_id or None`. */
  function CursorOf(s: Snapshot): Option<string> {
    Filled(s.cursor)
  }

  // ---------- Reading ----------

  predicate IsRecord(r: Record) {
    !r.Garbled? && !r.Undecodable?
  }

  /** Records up to the first line that is none. */
  function Readable(lines: seq<Record>): seq<Record> {
    if lines == [] || !IsRecord(lines[0]) then [] else [lines[0]] + Readable(lines[1..])
  }

  /** The records a reader gets; a complete last record counts without its newline. */
  function Committed(f: LogFile): seq<Record> {
    var r := Readable(f.lines);
    if |r| == |f.lines| && f.tail.Unterminated? && IsRecord(f.tail.record) then r + [f.tail.record] else r
  }

  /** A reader stops quietly at a line that is not JSON, but raises at one that is not UTF-8. */
  predicate Decodes(f: LogFile) {
    var n := |Readable(f.lines)|;
    if n < |f.lines| then !f.lines[n].Undecodable? else !f.tail.Split?
  }

  function MessagesIn(rs: seq<Record>): seq<Message> {
    if rs == [] then []
    else MessagesIn(Front(rs)) + if Last(rs).Event? then [FromEvent(Last(rs).message)] else []
  }

  function CursorIn(rs: seq<Record>): Option<string> {
    if rs == [] then None
    else if Last(rs).CursorMark? then Filled(Last(rs).cursor)
    else CursorIn(Front(rs))
  }

  function Derived(f: LogFile): seq<Message> {
    MessagesIn(Committed(f))
  }

  function ReadCursor(f: LogFile): Option<string> {
    CursorIn(Committed(f))
  }

  // ---------- Sizes and the sidecar ----------

  /** `json` gives a record's text; an encoded object is never shorter than "{}". */
  ghost predicate Proper(json: Record -> string) {
    forall r :: |json(r)| >= 2
  }

  /** A line's bytes, newline included. */
  function LineSize(json: Record -> string, r: Record): nat {
    if IsRecord(r) then Bytes(json(r)) + 1 else r.bytes
  }

  function LinesSize(json: Record -> string, rs: seq<Record>): nat {
    if rs == [] then 0 else LinesSize(json, Front(rs)) + LineSize(json, Last(rs))
  }

  function TailSize(json: Record -> string, t: Tail): nat {
    match t
    case Clean => 0
    case Torn(bytes) => bytes
    case Split(bytes) => bytes
    case Unterminated(r) => Bytes(json(r))
  }

  function FileSize(json: Record -> string, f: LogFile): nat {
    LinesSize(json, f.lines) + TailSize(json, f.tail)
  }

  /** The sidecar, while its recorded size is the file's size. */
  function Trusted(json: Record -> string, d: Disk): Option<Sidecar> {
    if d.log.Some? && d.side.Some? && d.side.value.size == FileSize(json, d.log.value) then d.side else None
  }

  // ---------- Writing ----------

  function Events(ms: seq<Message>, start: nat): seq<Record>
    requires start <= |ms|
  {
    seq(|ms| - start, i requires 0 <= i < |ms| - start => Event(start + i + 1, ToEvent(ms[start + i])))
  }

  /** A complete generation: header, branch, messages and cursor, put in place by one atomic replace. */
  function Generation(ms: seq<Message>, cursor: Option<string>, branch: Option<Branch>): LogFile {
    LogFile([Header] + (if branch.Some? then [BranchPoint(branch.value)] else []) + Events(ms, 0)
            + (if cursor.Some? then [CursorMark(|ms|, cursor)] else []), Clean)
  }

  function SaveState(json: Record -> string, d: Disk, events: nat, cursor: Option<string>): Disk {
    if d.log.None? then d else d.(side := Some(Sidecar(FileSize(json, d.log.value), events, cursor)))
  }

  /** Bytes appended to a file go right behind what is there: a torn tail swallows the first new line. */
  function Appended(json: Record -> string, f: LogFile, rs: seq<Record>): LogFile {
    if rs == [] then f
    else if f.tail.Clean? then LogFile(f.lines + rs, Clean)
    else
      var bytes := TailSize(json, f.tail) + LineSize(json, rs[0]);
      LogFile(f.lines + [if f.tail.Split? then Undecodable(bytes) else Garbled(bytes)] + rs[1..], Clean)
  }

  /** How long two histories agree: by id where both have one, by content otherwise. */
  predicate SameEntry(l: Message, r: Message) {
    if Filled(l.messageId).Some? && Filled(r.messageId).Some? then l.messageId == r.messageId
    else Got(l.content) == Got(r.content)
  }

  function CommonLength(ls: seq<Message>, rs: seq<Message>): nat {
    if ls == [] || rs == [] || !SameEntry(ls[0], rs[0]) then 0 else 1 + CommonLength(ls[1..], rs[1..])
  }

  function BranchOf(existing: seq<Message>, ms: seq<Message>): Branch {
    var common := CommonLength(existing, ms);
    Branch(if 0 < common <= |existing| then OrElse(existing[common - 1].messageId, "") else "",
           common, |existing|, |ms|)
  }

  /**
   What `sync` decides to do: publish a new generation, append from an index behind a known cursor, or
   nothing, because the log it has to read first does not decode.
   */
  datatype Plan = Publish(branch: Option<Branch>) | Append(start: nat, last: Option<string>) | Refuse

  function PlanOf(json: Record -> string, d: Disk, s: Snapshot): Plan {
    if d.log.None? then Publish(None)
    else
      var f, trusted := d.log.value, Trusted(json, d);
      if trusted.None? then
        if !Decodes(f) then Refuse
        else
          var existing := Derived(f);
          if |s.messages| < |existing| then Publish(Some(BranchOf(existing, s.messages)))
          else if !f.tail.Clean? then Publish(None)
          else Append(|existing|, ReadCursor(f))
      else if |s.messages| >= trusted.value.events then Append(trusted.value.events, trusted.value.cursor)
      else if !Decodes(f) then Refuse
      else Publish(Some(BranchOf(Derived(f), s.messages)))
  }

  function NewRecords(s: Snapshot, start: nat, last: Option<string>): seq<Record>
    requires start <= |s.messages|
  {
    Events(s.messages, start) + if CursorOf(s) != last then [CursorMark(|s.messages|, CursorOf(s))] else []
  }

  /** The log part of a sync, before the sidecar is rewritten. */
  function Written(json: Record -> string, d: Disk, s: Snapshot): Disk {
    match PlanOf(json, d, s)
    case Publish(branch) => d.(log := Some(Generation(s.messages, CursorOf(s), branch)))
    case Append(start, last) =>
      if d.log.Some? && start <= |s.messages|
      then d.(log := Some(Appended(json, d.log.value, NewRecords(s, start, last))))
      else d
    case Refuse => d
  }

  function Sync(json: Record -> string, d: Disk, s: Snapshot): Disk {
    if PlanOf(json, d, s).Refuse? then d else SaveState(json, Written(json, d, s), |s.messages|, CursorOf(s))
  }

  function Rewrite(json: Record -> string, d: Disk, s: Snapshot): Disk {
    SaveState(json, d.(log := Some(Generation(s.messages, CursorOf(s), None))), |s.messages|, CursorOf(s))
  }

  // ---------- Crashes ----------

  /**
   Where a sync is cut: before any effect, after `whole` records and the first `bytes` bytes of the next,
   or before the sidecar.
   */
  datatype Cut = AtStart | InAppend(whole: nat, bytes: nat) | BeforeSidecar

  predicate ValidCut(json: Record -> string, d: Disk, s: Snapshot, c: Cut) {
    match c
    case AtStart => true
    case BeforeSidecar => true
    case InAppend(whole, bytes) =>
      var plan := PlanOf(json, d, s);
      && plan.Append? && plan.start <= |s.messages|
      && whole < |NewRecords(s, plan.start, plan.last)|
      && bytes <= Bytes(json(NewRecords(s, plan.start, plan.last)[whole]))
  }

  /** The first bytes of a record, as a reader finds them. */
  function Fragment(json: Record -> string, r: Record, bytes: nat): Tail {
    if bytes == 0 then Clean
    else if bytes >= Bytes(json(r)) then Unterminated(r)
    else if OnBoundary(json(r), bytes) then Torn(bytes)
    else Split(bytes)
  }

  /** What a tail and a fragment written behind it make together. */
  function Behind(json: Record -> string, t: Tail, fragment: Tail): Tail {
    if fragment.Clean? then t
    else if t.Clean? then fragment
    else
      var bytes := TailSize(json, t) + TailSize(json, fragment);
      if t.Split? || fragment.Split? then Split(bytes) else Torn(bytes)
  }

  /** The disk such a cut leaves behind. */
  function AfterCut(json: Record -> string, d: Disk, s: Snapshot, c: Cut): Disk {
    match c
    case AtStart => d
    case BeforeSidecar => Written(json, d, s)
    case InAppend(whole, bytes) =>
      var plan := PlanOf(json, d, s);
      if d.log.Some? && plan.Append? && plan.start <= |s.messages|
         && whole < |NewRecords(s, plan.start, plan.last)| then
        var rs := NewRecords(s, plan.start, plan.last);
        var f := Appended(json, d.log.value, rs[..whole]);
        d.(log := Some(f.(tail := Behind(json, f.tail, Fragment(json, rs[whole], bytes)))))
      else d
  }

  /** The cut falls inside a character of a record. */
  predicate Splits(json: Record -> string, d: Disk, s: Snapshot, c: Cut) {
    var plan := PlanOf(json, d, s);
    && c.InAppend? && plan.Append? && plan.start <= |s.messages| && c.whole < |NewRecords(s, plan.start, plan.last)|
    && 0 < c.bytes < Bytes(json(NewRecords(s, plan.start, plan.last)[c.whole]))
    && !OnBoundary(json(NewRecords(s, plan.start, plan.last)[c.whole]), c.bytes)
  }
}
