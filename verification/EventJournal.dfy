/** The bounded event journal: a ring that answers exactly like the whole history, or reports a gap. */
module EventJournal {
  import opened Common

  datatype AgentEvent = AgentEvent(kind: string, payload: string)

  datatype Sequenced = Sequenced(number: nat, event: AgentEvent)

  datatype Batch = Batch(events: seq<Sequenced>, gap: bool, oldest: nat, latest: nat)

  const RUN_STARTED := "run.started"

  // ---------- The unbounded history ----------

  /** The events of a history numbered above `a`, up to `b`. */
  function Span(history: seq<AgentEvent>, a: nat, b: nat): (r: seq<Sequenced>)
    requires a <= b && (a < b ==> b <= |history|)
    ensures |r| == b - a && forall i :: 0 <= i < b - a ==> r[i] == Sequenced(a + i + 1, history[a + i])
  {
    seq(b - a, i requires 0 <= i < b - a => Sequenced(a + i + 1, history[a + i]))
  }

  /** How many events a ring of this capacity has dropped. */
  function Evicted(history: seq<AgentEvent>, capacity: nat): (n: nat)
    ensures n <= |history|
  {
    if |history| > capacity then |history| - capacity else 0
  }

  function Max(a: nat, b: nat): nat {
    if a < b then b else a
  }

  function Min(a: nat, b: nat): nat {
    if a < b then a else b
  }

  /** What a reader gets: retained events after its cursor, at most `limit`. */
  function ReadFrom(history: seq<AgentEvent>, capacity: nat, after: nat, limit: nat): Batch {
    var from := Max(after, Evicted(history, capacity));
    Batch(if from >= |history| then [] else Span(history, from, Min(from + limit, |history|)),
          after < Evicted(history, capacity), Evicted(history, capacity) + 1, |history|)
  }

  /** The read, as a slice of what is retained. */
  lemma ReadFromIs(history: seq<AgentEvent>, capacity: nat, after: nat, limit: nat, entries: seq<Sequenced>,
                   skipped: nat)
    requires entries == Span(history, Evicted(history, capacity), |history|)
    requires skipped == Min(|entries|, if after > Evicted(history, capacity) then after - Evicted(history, capacity)
                                       else 0)
    ensures var visible, b := entries[skipped..], ReadFrom(history, capacity, after, limit);
            && b.events == (if |visible| > limit then visible[..limit] else visible)
            && b.gap == (after < Evicted(history, capacity)) && b.latest == |history|
            && b.oldest == (if entries != [] then entries[0].number else |history| + 1)
  {
  }

  /** The latest `run.started` event numbered above `floor`, or 0. */
  function LastStart(history: seq<AgentEvent>, floor: nat): (n: nat)
    ensures n <= |history|
    ensures n > 0 ==> n > floor && history[n - 1].kind == RUN_STARTED
    ensures forall i :: Max(n, floor) <= i < |history| ==> history[i].kind != RUN_STARTED
    ensures n == 0 ==> forall i :: floor <= i < |history| ==> history[i].kind != RUN_STARTED
  {
    if |history| <= floor then 0
    else if Last(history).kind == RUN_STARTED then |history|
    else LastStart(Front(history), floor)
  }

  function ActiveCursor(history: seq<AgentEvent>, capacity: nat): nat {
    var n := LastStart(history, Evicted(history, capacity));
    if n == 0 then 0 else n - 1
  }

  /** The retained events after a cursor, at most `limit`, and whether older ones than those retained were needed. */
  ghost predicate PageOf(b: Batch, entries: seq<Sequenced>, latest: nat, after: nat, limit: nat) {
    && b.latest == latest
    && b.oldest == (if entries == [] then latest + 1 else entries[0].number)
    && (b.gap <==> after + 1 < b.oldest)
    && exists from: nat ::
         NewFrom(entries, from, after)
         && b.events == entries[from..if from + limit < |entries| then from + limit else |entries|]
  }

  /** From this place on, and only there, entries come after the cursor. */
  predicate NewFrom(entries: seq<Sequenced>, from: nat, after: nat) {
    && from <= |entries|
    && (forall i :: 0 <= i < from ==> entries[i].number <= after)
    && forall i :: from <= i < |entries| ==> entries[i].number > after
  }

  lemma PageIs(entries: seq<Sequenced>, base: nat, skipped: nat, latest: nat, after: nat, limit: nat, b: Batch)
    requires latest == base + |entries| && forall i :: 0 <= i < |entries| ==> entries[i].number == base + i + 1
    requires skipped == Min(|entries|, if after > base then after - base else 0)
    requires b.latest == latest && b.oldest == base + 1 && (b.gap <==> after < base)
    requires b.events == if |entries| - skipped > limit then entries[skipped..][..limit] else entries[skipped..]
    ensures PageOf(b, entries, latest, after, limit)
  {
    assert NewFrom(entries, skipped, after);
    assert b.events == entries[skipped..if skipped + limit < |entries| then skipped + limit else |entries|];
  }

  // ---------- The journal ----------

  class Journal {
    const capacity: nat
    var entries: seq<Sequenced>
    var latest: nat
    var legacyCursor: nat
    /** Everything that was ever put. */
    ghost var history: seq<AgentEvent>

    ghost predicate Valid()
      reads this
    {
      && capacity >= 1 && latest == |history| && legacyCursor <= latest
      && entries == Span(history, Evicted(history, capacity), |history|)
    }

    constructor (capacity: nat)
      requires capacity >= 1
      ensures Valid() && history == [] && this.capacity == capacity
    {
      this.capacity, entries, latest, legacyCursor, history := capacity, [], 0, 0, [];
    }

    /** Appends without waiting; a full ring drops its oldest event. */
    method Put(event: AgentEvent) returns (number: nat)
      requires Valid()
      modifies this
      ensures Valid() && history == old(history) + [event] && number == |history| && legacyCursor == old(legacyCursor)
      ensures entries == if |old(entries)| < capacity then old(entries) + [Sequenced(number, event)]
                         else old(entries)[1..] + [Sequenced(number, event)]
    {
      latest := latest + 1;
      entries := entries + [Sequenced(latest, event)];
      if |entries| > capacity {
        entries := entries[1..];
      }
      history := history + [event];
      number := latest;
    }

    method ReadUnlocked(after: nat, limit: nat) returns (batch: Batch)
      requires Valid()
      ensures batch == ReadFrom(history, capacity, after, limit) && PageOf(batch, entries, latest, after, limit)
    {
      hide Span, ReadFrom, Evicted, PageOf;
      var oldest := if entries != [] then entries[0].number else latest + 1;
      var visible: seq<Sequenced> := [];
      ghost var base := Evicted(history, capacity);
      ghost var skipped := 0;
      assert |entries| == |history| - base;
      assert forall i :: 0 <= i < |entries| ==> entries[i].number == base + i + 1;
      for i := 0 to |entries|
        invariant skipped == Min(i, if after > base then after - base else 0)
        invariant visible == entries[skipped..i]
      {
        if entries[i].number > after {
          visible := visible + [entries[i]];
        } else {
          skipped := skipped + 1;
        }
      }
      assert visible == entries[skipped..];
      if |visible| > limit {
        visible := visible[..limit];
      }
      batch := Batch(visible, after < oldest - 1, oldest, latest);
      ReadFromIs(history, capacity, after, limit, entries, skipped);
      PageIs(entries, base, skipped, latest, after, limit, batch);
    }

    /** Bad arguments are refused. */
    method ReadAfter(after: int, limit: int) returns (r: Result<Batch, ()>)
      requires Valid()
      ensures r == if after < 0 || limit < 1 then Err(()) else Ok(ReadFrom(history, capacity, after, limit))
      ensures after >= 0 && limit >= 1 ==> PageOf(r.value, entries, latest, after, limit)
    {
      if after < 0 || limit < 1 {
        return Err(());
      }
      var batch := ReadUnlocked(after, limit);
      return Ok(batch);
    }

    /** Returns at once if there is something to say; otherwise others may put events before the second look. */
    method WaitAfter(after: int, limit: int, timeout: int, others: seq<AgentEvent>) returns (r: Result<Batch, ()>)
      requires Valid()
      modifies this
      ensures Valid() && legacyCursor == old(legacyCursor)
      ensures after < 0 || limit < 1 ==> r == Err(()) && history == old(history)
      ensures after >= 0 && limit >= 1 ==>
                var now := ReadFrom(old(history), capacity, after, limit);
                var waited := now.events == [] && !now.gap && timeout > 0;
                && history == (if waited then old(history) + others else old(history))
                && r == Ok(ReadFrom(history, capacity, after, limit))
    {
      if after < 0 || limit < 1 {
        return Err(());
      }
      var batch := ReadUnlocked(after, limit);
      if batch.events != [] || batch.gap || timeout <= 0 {
        return Ok(batch);
      }
      assert old(history) + others[..0] == old(history);
      for i := 0 to |others|
        invariant Valid() && legacyCursor == old(legacyCursor) && history == old(history) + others[..i]
      {
        var number := Put(others[i]);
      }
      assert others[..|others|] == others;
      batch := ReadUnlocked(after, limit);
      return Ok(batch);
    }

    /** The queue-like reader: the oldest retained event after its own cursor. */
    method GetNowait() returns (r: Option<AgentEvent>)
      requires Valid()
      modifies `legacyCursor
      ensures Valid()
      ensures var from := Max(old(legacyCursor), Evicted(history, capacity));
              if from < |history| then r == Some(history[from]) && legacyCursor == from + 1
              else r == None && legacyCursor == old(legacyCursor)
    {
      var batch := ReadUnlocked(legacyCursor, 1);
      if batch.events == [] {
        return None;
      }
      legacyCursor := batch.events[0].number;
      return Some(batch.events[0].event);
    }

    method ActiveTurnCursor() returns (cursor: nat)
      requires Valid()
      ensures cursor == ActiveCursor(history, capacity)
      ensures (forall i :: 0 <= i < |entries| ==> entries[i].event.kind != "run.started") ==> cursor == 0
      ensures forall k :: 0 <= k < |entries| && entries[k].event.kind == "run.started"
                          && (forall i :: k < i < |entries| ==> entries[i].event.kind != "run.started") ==>
                cursor + 1 == entries[k].number
    {
      ghost var floor := Evicted(history, capacity);
      var i := |entries|;
      assert floor + i == |history|;
      assert history[..floor + i] == history;
      while i > 0
        invariant 0 <= i <= |entries| == |history| - floor
        invariant LastStart(history, floor) == LastStart(history[..floor + i], floor)
        invariant forall k :: i <= k < |entries| ==> entries[k].event.kind != RUN_STARTED
      {
        assert Front(history[..floor + i]) == history[..floor + i - 1];
        i := i - 1;
        if entries[i].event.kind == RUN_STARTED {
          return entries[i].number - 1;
        }
      }
      return 0;
    }
  }

  // ---------- Gaps ----------

  /** A gap is reported exactly when an event the reader still needs was evicted. */
  lemma GapIffNeededEventEvicted(history: seq<AgentEvent>, capacity: nat, after: nat, limit: nat)
    ensures ReadFrom(history, capacity, after, limit).gap
       <==> exists e :: e in Span(history, 0, Evicted(history, capacity)) && e.number > after
  {
    var evicted := Span(history, 0, Evicted(history, capacity));
    if after < Evicted(history, capacity) {
      assert evicted[after].number == after + 1;
      assert evicted[after] in evicted;
    }
  }

  // ---------- Followers ----------

  datatype Act = Put(event: AgentEvent) | Poll(limit: nat)

  /** A follower's cursor, what it has read, and whether a gap was ever reported to it. */
  datatype Follower = Follower(cursor: nat, got: seq<Sequenced>, gap: bool)

  function Hears(f: Follower, b: Batch): Follower {
    Follower(if b.events == [] then f.cursor else Last(b.events).number, f.got + b.events, f.gap || b.gap)
  }

  function Grown(history: seq<AgentEvent>, acts: seq<Act>): seq<AgentEvent> {
    if acts == [] then history
    else Grown(history, Front(acts)) + if Last(acts).Put? then [Last(acts).event] else []
  }

  /** A follower that starts at `cursor`, with puts and polls interleaved in any way. */
  function Follow(history: seq<AgentEvent>, capacity: nat, cursor: nat, acts: seq<Act>): Follower {
    if acts == [] then Follower(cursor, [], false)
    else
      var f := Follow(history, capacity, cursor, Front(acts));
      if Last(acts).Put? then f
      else Hears(f, ReadFrom(Grown(history, Front(acts)), capacity, f.cursor, Last(acts).limit))
  }

  lemma PollIsExact(history: seq<AgentEvent>, capacity: nat, start: nat, f: Follower, limit: nat)
    requires start <= f.cursor && (start < f.cursor ==> f.cursor <= |history|)
    requires f.got == Span(history, start, f.cursor)
    requires !ReadFrom(history, capacity, f.cursor, limit).gap
    ensures var g := Hears(f, ReadFrom(history, capacity, f.cursor, limit));
            && f.cursor <= g.cursor && (start < g.cursor ==> g.cursor <= |history|)
            && g.got == Span(history, start, g.cursor)
            && g.cursor == (if f.cursor >= |history| then f.cursor else Min(f.cursor + limit, |history|))
  {
    var b := ReadFrom(history, capacity, f.cursor, limit);
    if f.cursor < |history| {
      var to := Min(f.cursor + limit, |history|);
      assert b.events == Span(history, f.cursor, to);
      assert Span(history, start, f.cursor) + Span(history, f.cursor, to) == Span(history, start, to);
    }
  }

  lemma SpanOfPrefix(history: seq<AgentEvent>, e: AgentEvent, a: nat, b: nat)
    requires a <= b && (a < b ==> b <= |history|)
    ensures Span(history + [e], a, b) == Span(history, a, b)
  {
  }

  /**
   Whatever the page sizes and however puts interleave, a follower that was told of no gap has read exactly the
   events of the unbounded history after its starting cursor, each once and in order, up to its cursor.
   */
  lemma {:induction false} FollowerReadsExactly(history: seq<AgentEvent>, capacity: nat, start: nat, acts: seq<Act>)
    requires !Follow(history, capacity, start, acts).gap
    ensures var f, h := Follow(history, capacity, start, acts), Grown(history, acts);
            && start <= f.cursor && (start < f.cursor ==> f.cursor <= |h|)
            && f.got == Span(h, start, f.cursor)
  {
    if acts == [] {
    } else {
      FollowerReadsExactly(history, capacity, start, Front(acts));
      var f, h := Follow(history, capacity, start, Front(acts)), Grown(history, Front(acts));
      if Last(acts).Put? {
        SpanOfPrefix(h, Last(acts).event, start, f.cursor);
      } else {
        PollIsExact(h, capacity, start, f, Last(acts).limit);
      }
    }
  }

  /** A follower hears of a gap only from a poll at which an event after its cursor had been evicted. */
  lemma {:induction false} GapMeansEvicted(history: seq<AgentEvent>, capacity: nat, start: nat, acts: seq<Act>)
    ensures Follow(history, capacity, start, acts).gap <==>
              exists n :: 0 <= n < |acts| && acts[n].Poll? && LostAt(history, capacity, start, acts[..n])
  {
    if acts == [] {
    } else {
      var front := Front(acts);
      GapMeansEvicted(history, capacity, start, front);
      forall n | 0 <= n < |front| ensures front[..n] == acts[..n] {
      }
      if Last(acts).Poll? && LostAt(history, capacity, start, front) {
        assert acts[..|acts| - 1] == front;
      }
      if n :| 0 <= n < |acts| && acts[n].Poll? && LostAt(history, capacity, start, acts[..n]) {
        if n < |front| {
          assert front[n] == acts[n] && front[..n] == acts[..n];
        } else {
          assert acts[..n] == front;
        }
      }
      if n :| 0 <= n < |front| && front[n].Poll? && LostAt(history, capacity, start, front[..n]) {
        assert acts[n] == front[n] && front[..n] == acts[..n];
      }
    }
  }

  /** After these acts, an event the follower still needs is gone. */
  ghost predicate LostAt(history: seq<AgentEvent>, capacity: nat, start: nat, acts: seq<Act>) {
    Follow(history, capacity, start, acts).cursor < Evicted(Grown(history, acts), capacity)
  }

  function Polls(limit: nat, n: nat): seq<Act> {
    seq(n, _ => Poll(limit))
  }

  /** Undisturbed, a follower that is not behind the ring has everything after as many polls as events were missing. */
  lemma {:induction false} PollingCatchesUp(history: seq<AgentEvent>, capacity: nat, start: nat, limit: nat, n: nat)
    requires Evicted(history, capacity) <= start <= |history| && limit >= 1
    ensures var f := Follow(history, capacity, start, Polls(limit, n));
            && !f.gap && Grown(history, Polls(limit, n)) == history
            && Min(start + n, |history|) <= f.cursor <= |history| && f.got == Span(history, start, f.cursor)
  {
    if n == 0 {
    } else {
      var acts := Polls(limit, n);
      assert Front(acts) == Polls(limit, n - 1) && Last(acts) == Poll(limit);
      hide Span, ReadFrom, Evicted, Polls;
      PollingCatchesUp(history, capacity, start, limit, n - 1);
      var f := Follow(history, capacity, start, Front(acts));
      NotBehind(history, capacity, f.cursor, limit);
      PollIsExact(history, capacity, start, f, limit);
    }
  }

  lemma NotBehind(history: seq<AgentEvent>, capacity: nat, cursor: nat, limit: nat)
    requires Evicted(history, capacity) <= cursor
    ensures !ReadFrom(history, capacity, cursor, limit).gap
  {
    hide Span;
  }

  // ---------- Resuming a turn ----------

  /**
   Whatever is put after the cursor was taken, a first read from it either begins with the last `run.started`
   there was, or replays from the beginning a history that had none, or reports a gap.
   */
  lemma ActiveCursorResumes(history: seq<AgentEvent>, capacity: nat, more: seq<AgentEvent>, limit: nat)
    requires capacity >= 1 && limit >= 1
    ensures var c := ActiveCursor(history, capacity);
            var b := ReadFrom(history + more, capacity, c, limit);
            || b.gap
            || (&& 0 < |history| && c < |history| && history[c].kind == RUN_STARTED
                && b.events != [] && b.events[0] == Sequenced(c + 1, history[c])
                && forall i :: c < i < |history| ==> history[i].kind != RUN_STARTED)
            || (&& c == 0 && (forall i :: 0 <= i < |history| ==> history[i].kind != RUN_STARTED)
                && b.events == Span(history + more, 0, Min(limit, |history + more|)))
  {
    var floor := Evicted(history, capacity);
    var n := LastStart(history, floor);
    if n > 0 {
      assert history[n - 1].kind == RUN_STARTED;
      assert (history + more)[n - 1] == history[n - 1];
    }
  }
}
