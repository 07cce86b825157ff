/** The log writer and the session manager themselves, changing log, sidecar and snapshot in place. */
module SessionFiles {
  import opened Common
  import F = SessionLogFields
  import L = SessionLog
  import S = SessionStore

  class SessionLog {
    const json: L.Record -> string
    var log: Option<L.LogFile>
    var side: Option<L.Sidecar>

    function Disk(): L.Disk
      reads this
    {
      L.Disk(log, side)
    }

    constructor (json: L.Record -> string)
      ensures this.json == json && Disk() == L.Disk(None, None)
    {
      this.json, log, side := json, None, None;
    }

    /** Reads line by line; a line that is not JSON ends the reading, one that is not UTF-8 raises. */
    method Records() returns (r: Result<seq<L.Record>, ()>)
      ensures r == if log.None? then Ok([]) else if L.Decodes(log.value) then Ok(L.Committed(log.value)) else Err(())
    {
      if log.None? {
        return Ok([]);
      }
      var lines, i, rs := log.value.lines, 0, [];
      while i < |lines| && L.IsRecord(lines[i])
        invariant 0 <= i <= |lines| && rs == lines[..i]
        invariant L.Readable(lines) == rs + L.Readable(lines[i..])
      {
        rs := rs + [lines[i]];
        i := i + 1;
      }
      assert L.Readable(lines) == rs;
      if i < |lines| {
        return if lines[i].Undecodable? then Err(()) else Ok(rs);
      }
      if log.value.tail.Split? {
        return Err(());
      }
      if log.value.tail.Unterminated? && L.IsRecord(log.value.tail.record) {
        rs := rs + [log.value.tail.record];
      }
      return Ok(rs);
    }

    method DeriveMessages() returns (r: Result<seq<L.Message>, ()>)
      ensures r == if log.None? then Ok([]) else if L.Decodes(log.value) then Ok(L.Derived(log.value)) else Err(())
      ensures log.Some? && r.Ok? ==> F.ReadsBack(r.value, F.Told(L.Committed(log.value)))
    {
      var read := Records();
      if read.Err? {
        return Err(());
      }
      var rs, ms := read.value, [];
      F.MessagesAreTold(rs);
      assert rs[..|rs|] == rs;
      for i := 0 to |rs|
        invariant ms == L.MessagesIn(rs[..i])
      {
        assert Front(rs[..i + 1]) == rs[..i] && Last(rs[..i + 1]) == rs[i];
        if rs[i].Event? {
          ms := ms + [L.FromEvent(rs[i].message)];
        }
      }
      return Ok(ms);
    }

    method ReadCursor() returns (r: Result<Option<string>, ()>)
      ensures r == if log.None? then Ok(None) else if L.Decodes(log.value) then Ok(L.ReadCursor(log.value)) else Err(())
      ensures log.Some? && r.Ok? ==>
                var rs := L.Committed(log.value);
                && ((forall i :: 0 <= i < |rs| ==> !rs[i].CursorMark?) ==> r.value == None)
                && forall k: nat :: F.LastCursor(rs, k) ==> F.Kept(r.value, rs[k].cursor)
    {
      var read := Records();
      if read.Err? {
        return Err(());
      }
      var rs, cursor := read.value, None;
      F.CursorIsLast(rs);
      assert rs[..|rs|] == rs;
      for i := 0 to |rs|
        invariant cursor == L.CursorIn(rs[..i])
      {
        assert Front(rs[..i + 1]) == rs[..i] && Last(rs[..i + 1]) == rs[i];
        if rs[i].CursorMark? {
          cursor := L.Filled(rs[i].cursor);
        }
      }
      return Ok(cursor);
    }

    /** Walks both histories until they part. */
    method BranchRecord(ms: seq<L.Message>) returns (r: Result<L.Branch, ()>)
      requires log.Some?
      ensures r == if L.Decodes(log.value) then Ok(L.BranchOf(L.Derived(log.value), ms)) else Err(())
      ensures r.Ok? ==> F.PartsAt(r.value, L.Derived(log.value), ms)
    {
      var read := DeriveMessages();
      if read.Err? {
        return Err(());
      }
      var existing := read.value;
      var common := 0;
      while common < |existing| && common < |ms| && L.SameEntry(existing[common], ms[common])
        invariant common <= |existing| && common <= |ms|
        invariant L.CommonLength(existing, ms) == common + L.CommonLength(existing[common..], ms[common..])
      {
        assert existing[common..][1..] == existing[common + 1..] && ms[common..][1..] == ms[common + 1..];
        common := common + 1;
      }
      hide F.PartsAt, F.ReadsBack, F.Told, L.Derived;
      F.BranchIsWhereTheyPart(existing, ms);
      var from := if common > 0 then L.OrElse(existing[common - 1].messageId, "") else "";
      return Ok(L.Branch(from, common, |existing|, |ms|));
    }

    method AppendLine(r: L.Record)
      requires log.Some?
      modifies this`log
      ensures log == Some(L.Appended(json, old(log).value, [r]))
    {
      log := Some(L.Appended(json, log.value, [r]));
    }

    method AppendMessages(ms: seq<L.Message>, start: nat) returns (appended: nat)
      requires log.Some? && start <= |ms|
      modifies this`log
      ensures log == Some(L.Appended(json, old(log).value, L.Events(ms, start))) && appended == |ms| - start
      ensures old(log).value.tail.Clean? ==>
                && log.value.tail.Clean? && old(log).value.lines <= log.value.lines
                && F.WritesAll(log.value.lines[|old(log).value.lines|..], ms, start)
    {
      appended := 0;
      F.EventsWrite(ms, start);
      ghost var es, f := L.Events(ms, start), log.value;
      assert es[..0] == [] && es[..|es|] == es;
      for i := start to |ms|
        invariant appended == i - start
        invariant log == Some(L.Appended(json, f, es[..appended]))
      {
        var e := L.Event(i + 1, L.ToEvent(ms[i]));
        AppendLine(e);
        AppendTwice(json, f, es[..appended], [e]);
        assert es[..appended + 1] == es[..appended] + [e];
        appended := appended + 1;
      }
    }

    /** Builds the whole generation before the atomic replace. */
    method Publish(ms: seq<L.Message>, cursor: Option<string>, branch: Option<L.Branch>)
      modifies this`log
      ensures log == Some(L.Generation(ms, cursor, branch)) && F.IsGeneration(log.value, ms, cursor, branch)
    {
      F.GenerationIs(ms, cursor, branch);
      var lines := [L.Header] + if branch.Some? then [L.BranchPoint(branch.value)] else [];
      ghost var head, es := lines, L.Events(ms, 0);
      for i := 0 to |ms|
        invariant lines == head + es[..i]
      {
        lines := lines + [L.Event(i + 1, L.ToEvent(ms[i]))];
      }
      assert es[..|ms|] == es;
      if cursor.Some? {
        lines := lines + [L.CursorMark(|ms|, cursor)];
      }
      assert lines == L.Generation(ms, cursor, branch).lines;
      log := Some(L.LogFile(lines, L.Clean));
    }

    method SaveState(events: nat, cursor: Option<string>)
      modifies this`side
      ensures Disk() == L.SaveState(json, old(Disk()), events, cursor)
    {
      if log.Some? {
        side := Some(L.Sidecar(L.FileSize(json, log.value), events, cursor));
      }
    }

    /** Brings the log in line with a snapshot and answers how many messages were written, or raises. */
    method Sync(s: L.Snapshot) returns (r: Result<nat, ()>)
      modifies this
      ensures Disk() == L.Sync(json, old(Disk()), s)
      ensures r == match L.PlanOf(json, old(Disk()), s)
                   case Publish(_) => Ok(|s.messages|)
                   case Append(start, _) => Ok(if start <= |s.messages| then |s.messages| - start else 0)
                   case Refuse => Err(())
    {
      hide L.Generation, L.Derived, L.ReadCursor, L.FileSize, L.Events, L.BranchOf, L.CursorOf, L.Decodes;
      hide F.IsGeneration, F.PartsAt, F.ReadsBack, F.WritesAll, F.LastCursor, F.Told, L.Committed;
      var ms, cursor := s.messages, L.CursorOf(s);
      if log.None? {
        Publish(ms, cursor, None);
        SaveState(|ms|, cursor);
        return Ok(|ms|);
      }
      var start: nat, last := 0, None;
      var state := L.Trusted(json, Disk());
      if state.None? {
        var existing := DeriveMessages();
        if existing.Err? {
          return Err(());
        }
        if |ms| < |existing.value| {
          var branch := BranchRecord(ms);
          Publish(ms, cursor, Some(branch.value));
          SaveState(|ms|, cursor);
          return Ok(|ms|);
        }
        if !log.value.tail.Clean? {
          Publish(ms, cursor, None);
          SaveState(|ms|, cursor);
          return Ok(|ms|);
        }
        start := |existing.value|;
        var read := ReadCursor();
        last := read.value;
      } else {
        start, last := state.value.events, state.value.cursor;
        if |ms| < start {
          var branch := BranchRecord(ms);
          if branch.Err? {
            return Err(());
          }
          Publish(ms, cursor, Some(branch.value));
          SaveState(|ms|, cursor);
          return Ok(|ms|);
        }
      }
      assert L.PlanOf(json, old(Disk()), s) == L.Append(start, last);
      var appended := 0;
      ghost var f := log.value;
      if |ms| > start {
        appended := AppendMessages(ms, start);
      } else {
        NoEvents(ms, start);
      }
      if cursor != last {
        AppendLine(L.CursorMark(|ms|, cursor));
      }
      AppendTwice(json, f, L.Events(ms, start), if cursor != last then [L.CursorMark(|ms|, cursor)] else []);
      SaveState(|ms|, cursor);
      return Ok(appended);
    }
  }

  lemma NoEvents(ms: seq<L.Message>, start: nat)
    requires start == |ms|
    ensures L.Events(ms, start) == []
  {
  }

  /** Two appends in a row are one: only the first can run into a torn tail. */
  lemma AppendTwice(json: L.Record -> string, f: L.LogFile, a: seq<L.Record>, b: seq<L.Record>)
    ensures L.Appended(json, L.Appended(json, f, a), b) == L.Appended(json, f, a + b)
  {
    if a == [] {
      assert a + b == b;
    } else if b == [] {
      assert a + b == a;
    } else {
      assert (a + b)[0] == a[0] && (a + b)[1..] == a[1..] + b;
      assert (f.lines + a) + b == f.lines + (a + b);
      var bytes := L.TailSize(json, f.tail) + L.LineSize(json, a[0]);
      var g := f.lines + [if f.tail.Split? then L.Undecodable(bytes) else L.Garbled(bytes)];
      assert (g + a[1..]) + b == g + (a + b)[1..];
    }
  }

  class SessionManager {
    const files: SessionLog
    var snapshot: Option<L.Snapshot>

    constructor (files: SessionLog)
      ensures this.files == files && snapshot == None
    {
      this.files, snapshot := files, None;
    }

    function Store(): S.Store
      reads this, files
    {
      S.Store(files.Disk(), snapshot)
    }

    /** Log first, snapshot second; a sync that raises is passed over. */
    method SaveSession(s: L.Snapshot)
      modifies this, files
      ensures Store() == S.AfterSave(files.json, old(Store()), s, S.Done)
    {
      var _ := files.Sync(s);
      snapshot := Some(s);
    }

    /** Raises if there is a log that does not decode. */
    method LoadSession() returns (r: Result<Option<L.Snapshot>, ()>)
      modifies files
      ensures (r, Store()) == S.Load(files.json, old(Store()))
      ensures r.Err? <==> old(files.log).Some? && !L.Decodes(old(files.log).value)
      ensures r.Ok? && snapshot.Some? ==>
                && r.value.Some?
                && var s, log := r.value.value, old(files.log);
                   if log.Some? && |L.Derived(log.value)| > |snapshot.value.messages| then
                     && s.messages == L.Derived(log.value)
                     && s.cursor == (if L.ReadCursor(log.value).Some? then L.ReadCursor(log.value)
                                     else snapshot.value.cursor)
                   else s == snapshot.value
      ensures r.Ok? && snapshot.None? ==>
                var log := old(files.log);
                r.value.Some? <==> log.Some? && exists e :: e in L.Committed(log.value) && (e.Event? || e.BranchPoint?)
      ensures r.Ok? && snapshot.None? && r.value.Some? ==>
                && old(files.log).Some?
                && r.value.value
                   == L.Snapshot(L.Derived(old(files.log).value), L.ReadCursor(old(files.log).value))
    {
      var read := files.Records();
      if snapshot.None? {
        if read.Err? {
          return Err(());
        }
        var rs := read.value;
        if files.log.Some? && exists i | 0 <= i < |rs| :: rs[i].Event? || rs[i].BranchPoint? {
          var ms := files.DeriveMessages();
          var cursor := files.ReadCursor();
          return Ok(Some(L.Snapshot(ms.value, cursor.value)));
        }
        return Ok(None);
      }
      var s := snapshot.value;
      var logged := files.DeriveMessages();
      if logged.Err? {
        return Err(());
      }
      if files.log.Some? && |logged.value| > |s.messages| {
        var cursor := files.ReadCursor();
        s := L.Snapshot(logged.value, if cursor.value.Some? then cursor.value else s.cursor);
      }
      if files.log.Some? && |logged.value| < |s.messages| {
        var _ := files.Sync(s);
      }
      return Ok(Some(s));
    }
  }
}
