/** Fork-free runs in which the session is saved and restored at any time, destructive compaction included. */
module HistoryRestarts {
  import opened Common
  import opened History
  import opened HistoryTree
  import opened HistoryOverlay
  import opened HistoryWire
  import opened HistoryLinear
  import opened HistoryRoundTrip
  import opened HistoryReload

  // ---------- Runs ----------

  datatype Act = Happens(event: Event) | Restart

  /** A history, and the identifiers of nodes that a restart no longer knows. */
  datatype Life = Life(h: History, gone: set<Id>)

  function Live(l: Life, a: Act): Life {
    match a
    case Happens(e) => l.(h := After(l.h, e))
    case Restart => Life(Restored(l.h), l.gone + (Nodes(l.h) - Nodes(Restored(l.h))))
  }

  /** Generated ids are new to the tree, to the list and to everything dropped before. */
  predicate New(l: Life, id: Id) {
    Fresh(l.h, id) && id !in Ids(l.h.messages) && id !in l.gone
  }

  ghost predicate Timely(l: Life, a: Act) {
    match a
    case Restart => true
    case Happens(e) =>
      && Fits(l.h, e)
      && (match e
          case Turn(id, _, _, _, ids, _) => New(l, id) && forall i :: 0 <= i < |ids| ==> New(l, ids[i])
          case Compacted(_, summaryId, id, _, _, _, _) => New(l, id) && New(l, summaryId) && summaryId != id
          case Pruning(_, _) => true
          case _ => New(l, e.id))
  }

  function LifeOf(acts: seq<Act>): Life {
    if acts == [] then Life(NEW, {}) else Live(LifeOf(Front(acts)), Last(acts))
  }

  ghost predicate AllTimely(acts: seq<Act>) {
    acts != [] ==> AllTimely(Front(acts)) && Timely(LifeOf(Front(acts)), Last(acts))
  }

  // ---------- What every step keeps ----------

  /** The nodes from the cursor up, behind perhaps one that is no longer known. */
  ghost predicate Chain(h: History, line: seq<Id>, n: nat) {
    && n <= 1 && KnownFrom(h, h, line, n) && Distinct(line) && "" !in line
    && h.cursor == Before(line, |line|) && (n == 1 ==> |line| > 1) && (line == [] ==> h.entries == [])
  }

  function Shown(h: History, line: seq<Id>, n: nat): seq<Message>
    requires n <= |line|
  {
    Along(h.index, line[n..])
  }

  /** One summary in front of what is shown from a user message on. */
  ghost predicate Behind(ms: seq<Message>, full: seq<Message>, k: nat) {
    k < |full| && full[k].role == User && ms != [] && ms[0].role == Summary && ms[1..] == full[k..]
  }

  ghost predicate Listing(ms: seq<Message>, full: seq<Message>) {
    ms == full || exists k: nat :: Behind(ms, full, k)
  }

  ghost predicate Tidy(h: History, line: seq<Id>) {
    && (forall id :: id in h.index ==> h.index[id].id == id)
    && EntryIds(h.entries) !! h.index.Keys && DistinctIds(h.messages)
    && (h.messages != [] && h.messages[0].role == Summary ==>
          h.messages[0].id !in line && h.messages[0].id !in EntryIds(h.entries))
  }

  ghost predicate Inv(l: Life, line: seq<Id>, n: nat) {
    && Chain(l.h, line, n) && Tidy(l.h, line) && ForkFree(l.h.entries)
    && Listing(l.h.messages, Shown(l.h, line, n)) && (n == 1 ==> line[0] in l.gone)
  }

  /** The list without the summary in front. */
  function Unsummarized(ms: seq<Message>): seq<Message> {
    if ms != [] && ms[0].role == Summary then ms[1..] else ms
  }

  /** The walk shows exactly what lies on the chain. */
  lemma ChainShows(h: History, line: seq<Id>, n: nat)
    requires Chain(h, line, n) && (line == [] ==> h.messages == [])
    ensures CurrentBranch(h) == Shown(h, line, n)
  {
    if line == [] {
    } else {
      assert h.cursor.Some? && h.cursor.value == line[|line| - 1] != "";
      WalkStops(h, h, line, n, |line|, {});
      assert line[n..|line|] == line[n..];
    }
  }

  lemma NothingListed(ms: seq<Message>)
    requires Listing(ms, [])
    ensures ms == []
  {
  }

  lemma OffTheLine(l: Life, line: seq<Id>, n: nat, id: Id)
    requires Inv(l, line, n) && New(l, id)
    ensures id !in line
  {
    forall t | 0 <= t < |line| ensures line[t] != id {
      if t >= n {
        assert KnownAt(l.h, l.h, line, t);
        EntryIdsHold(l.h.entries, line[t]);
        hide EntryIds, FindEntry;
        assert line[t] in Nodes(l.h);
      }
    }
  }

  // ---------- Messages and entries ----------

  lemma FindGrows(entries: seq<Entry>, e: Entry, id: Id)
    ensures FindEntry(entries + [e], id) ==
            if FindEntry(entries, id).Some? then FindEntry(entries, id)
            else if e.id == id then Some(|entries|) else None
  {
    assert Front(entries + [e]) == entries && Last(entries + [e]) == e;
  }

  lemma ChainMessage(h: History, line: seq<Id>, n: nat, m: Message)
    requires Chain(h, line, n) && m.id !in line && m.id != "" && m.parent == h.cursor
    ensures Chain(AddMessage(h, m), line + [m.id], n)
    ensures Shown(AddMessage(h, m), line + [m.id], n) == Shown(h, line, n) + [m]
  {
    var g, new' := AddMessage(h, m), line + [m.id];
    forall t | n <= t < |new'| ensures KnownAt(g, g, new', t) {
      if t < |line| {
        assert KnownAt(h, h, line, t) && new'[t] == line[t] != m.id;
      }
    }
    assert new'[n..] == line[n..] + [m.id];
    AlongMessage(h.index, line[n..], m);
    hide FindEntry, Along;
  }

  lemma ChainEntry(h: History, line: seq<Id>, n: nat, g: History, e: Entry)
    requires Chain(h, line, n) && e.id !in line && e.id != "" && e.parent == h.cursor && e.id !in h.index
    requires FindEntry(h.entries, e.id).None?
    requires g.index == h.index && g.entries == h.entries + [e] && g.cursor == Some(e.id)
    ensures Chain(g, line + [e.id], n) && Shown(g, line + [e.id], n) == Shown(h, line, n)
  {
    var new' := line + [e.id];
    FindGrows(h.entries, e, e.id);
    forall t | n <= t < |new'| ensures KnownAt(g, g, new', t) {
      if t < |line| {
        assert KnownAt(h, h, line, t) && new'[t] == line[t];
        FindGrows(h.entries, e, line[t]);
      }
    }
    if n > 0 {
      FindGrows(h.entries, e, line[n - 1]);
    }
    assert new'[n..] == line[n..] + [e.id];
    AlongEntry(h.index, line[n..], e.id);
    hide FindEntry, Along;
  }

  /** The chain up to some node, after an entry was hung elsewhere. */
  lemma ChainPart(h: History, line: seq<Id>, n: nat, g: History, e: Entry, end: nat)
    requires Chain(h, line, n) && e.id !in line && n < end <= |line|
    requires g.index == h.index && g.entries == h.entries + [e] && g.cursor == Some(line[end - 1])
    ensures Chain(g, line[..end], n)
  {
    forall t | n <= t < end ensures KnownAt(g, g, line[..end], t) {
      assert KnownAt(h, h, line, t);
      FindGrows(h.entries, e, line[t]);
    }
    if n > 0 {
      FindGrows(h.entries, e, line[n - 1]);
    }
    hide FindEntry;
  }

  lemma ListingGrows(ms: seq<Message>, full: seq<Message>, m: Message)
    requires Listing(ms, full)
    ensures Listing(ms + [m], full + [m])
  {
    if ms != full {
      var k: nat :| Behind(ms, full, k);
      assert (ms + [m])[1..] == ms[1..] + [m] && (full + [m])[k..] == full[k..] + [m];
      assert Behind(ms + [m], full + [m], k);
    }
  }

  lemma TidyMessage(l: Life, line: seq<Id>, m: Message)
    requires Tidy(l.h, line) && New(l, m.id) && m.role != Summary
    ensures Tidy(AddMessage(l.h, m), line + [m.id])
  {
    NotListed(l.h.messages, m.id);
    hide EntryIds, Ids;
  }

  lemma LiveMessage(l: Life, line: seq<Id>, n: nat, m: Message)
    requires Inv(l, line, n) && New(l, m.id) && m.parent == l.h.cursor && m.role != Summary
    ensures Inv(l.(h := AddMessage(l.h, m)), line + [m.id], n)
    ensures Shown(AddMessage(l.h, m), line + [m.id], n) == Shown(l.h, line, n) + [m]
  {
    OffTheLine(l, line, n, m.id);
    FreshIsNoMessage(l.h, m.id);
    ChainMessage(l.h, line, n, m);
    TidyMessage(l, line, m);
    ListingGrows(l.h.messages, Shown(l.h, line, n), m);
    hide Chain, Tidy, Listing, ForkFree, Shown, New;
  }

  lemma LiveFailures(l: Life, line: seq<Id>, n: nat, g: History)
    requires Inv(l, line, n) && g == l.h.(failures := g.failures)
    ensures Inv(l.(h := g), line, n) && Shown(g, line, n) == Shown(l.h, line, n)
    ensures forall id :: New(l, id) ==> New(l.(h := g), id)
  {
    assert KnownFrom(l.h, l.h, line, n);
    forall t | n <= t < |line| ensures KnownAt(g, g, line, t) {
      assert KnownAt(l.h, l.h, line, t);
    }
    hide Listing, ForkFree, Along, Ids, EntryIds;
  }

  lemma TidyEntry(l: Life, line: seq<Id>, g: History, e: Entry)
    requires Tidy(l.h, line) && New(l, e.id)
    requires g.messages == l.h.messages && g.index == l.h.index && g.entries == l.h.entries + [e]
    ensures Tidy(g, line + [e.id])
  {
    EntryIdsGrow(l.h.entries, e);
    NotListed(l.h.messages, e.id);
    hide EntryIds, Ids;
  }

  lemma LiveEntry(l: Life, line: seq<Id>, n: nat, g: History, e: Entry)
    requires Inv(l, line, n) && New(l, e.id) && e.parent == l.h.cursor && ForkFree([e])
    requires g.messages == l.h.messages && g.index == l.h.index && g.entries == l.h.entries + [e]
    requires g.cursor == Some(e.id)
    ensures Inv(l.(h := g), line + [e.id], n) && Shown(g, line + [e.id], n) == Shown(l.h, line, n)
  {
    OffTheLine(l, line, n, e.id);
    FreshIsNoMessage(l.h, e.id);
    NewIsNoEntry(l, e.id);
    ChainEntry(l.h, line, n, g, e);
    TidyEntry(l, line, g, e);
    ForkFreeGrows(l.h.entries, e);
    hide Chain, Tidy, Listing, ForkFree, Shown, New;
  }

  lemma NewIsNoEntry(l: Life, id: Id)
    requires New(l, id)
    ensures FindEntry(l.h.entries, id).None?
  {
    EntryIdsHold(l.h.entries, id);
    hide EntryIds, FindEntry;
  }

  // ---------- Turns ----------

  lemma StaysNew(l: Life, m: Message, id: Id)
    requires New(l, id) && id != m.id
    ensures New(l.(h := AddMessage(l.h, m)), id)
  {
    StaysFresh(l.h, m, id);
    AddedIds(l.h, m);
    hide Fresh, Ids;
  }

  lemma {:induction false} LiveResults(l: Life, line: seq<Id>, n: nat, e: Event, c: nat) returns (longer: seq<Id>)
    requires Inv(l, line, n) && e.Turn? && c <= |e.calls| == |e.resultIds| == |e.outputs| && Distinct(e.resultIds)
    requires l.h.cursor == Some(e.id) && forall i :: 0 <= i < |e.resultIds| ==> New(l, e.resultIds[i])
    ensures n <= |longer|
    ensures var g := AddResults(l.h, e.calls, e.resultIds, e.outputs, c);
            && Inv(l.(h := g), longer, n) && g.cursor == Some(if c == 0 then e.id else e.resultIds[c - 1])
            && Shown(g, longer, n)
               == Shown(l.h, line, n) + ResultMessages(e.id, e.calls, e.resultIds, e.outputs, c)
            && forall i :: c <= i < |e.resultIds| ==> New(l.(h := g), e.resultIds[i])
    decreases c
  {
    hide Inv, Shown, New, AddMessage;
    InvLength(l, line, n);
    if c == 0 {
      longer := line;
    } else {
      longer := LiveResults(l, line, n, e, c - 1);
      var g := AddResults(l.h, e.calls, e.resultIds, e.outputs, c - 1);
      var m := ResultMessages(e.id, e.calls, e.resultIds, e.outputs, c)[c - 1];
      ResultsSplit(m, e, c);
      LiveMessage(l.(h := g), longer, n, m);
      MovesTo(g, m);
      forall i | c <= i < |e.resultIds| ensures New(l.(h := AddMessage(g, m)), e.resultIds[i]) {
        StaysNew(l.(h := g), m, e.resultIds[i]);
      }
      Longer(Shown(l.h, line, n), ResultMessages(e.id, e.calls, e.resultIds, e.outputs, c - 1), m,
             ResultMessages(e.id, e.calls, e.resultIds, e.outputs, |e.outputs|));
      longer := longer + [m.id];
    }
  }

  lemma InvLength(l: Life, line: seq<Id>, n: nat)
    requires Inv(l, line, n)
    ensures n <= |line|
  {
    hide Tidy, Listing, ForkFree, Shown;
  }

  lemma LiveTurn(l: Life, line: seq<Id>, n: nat, e: Event) returns (longer: seq<Id>)
    requires Inv(l, line, n) && e.Turn? && Timely(l, Happens(e))
    ensures n <= |longer| && n <= |line| && Inv(l.(h := AddTurn(l.h, e)), longer, n)
    ensures Shown(AddTurn(l.h, e), longer, n) == Shown(l.h, line, n) + TurnMessages(l.h, e)
  {
    hide Inv, Shown, New, AddMessage, AssistantMessage, AddResults, ResultMessages, Fresh;
    InvLength(l, line, n);
    AssistantIs(l.h, e.id, e.content, e.calls, e.reasoning);
    var m := AssistantMessage(l.h, e.id, e.content, e.calls, e.reasoning);
    LiveMessage(l, line, n, m);
    MovesTo(l.h, m);
    forall i | 0 <= i < |e.resultIds| ensures New(l.(h := AddMessage(l.h, m)), e.resultIds[i]) {
      StaysNew(l, m, e.resultIds[i]);
    }
    longer := LiveResults(l.(h := AddMessage(l.h, m)), line + [m.id], n, e, |e.calls|);
    Regroup(Shown(l.h, line, n), [m], ResultMessages(e.id, e.calls, e.resultIds, e.outputs, |e.outputs|));
  }

  // ---------- Pruning ----------

  lemma ListingPruned(ms: seq<Message>, full: seq<Message>, ids: set<Id>)
    requires Listing(ms, full)
    ensures Listing(PruneIn(ms, ids), PruneIn(full, ids))
  {
    if ms != full {
      var k: nat :| Behind(ms, full, k);
      PrunedSuffix(ms, 1, ids);
      PrunedSuffix(full, k, ids);
      assert Behind(PruneIn(ms, ids), PruneIn(full, ids), k);
    }
  }

  lemma LivePrune(l: Life, line: seq<Id>, n: nat, keep: nat, threshold: nat)
    requires Inv(l, line, n)
    ensures var g, ids := Prune(l.h, l.h.messages, keep, threshold), Victims(l.h.messages, keep, threshold);
            n <= |line| && Inv(l.(h := g), line, n) && Shown(g, line, n) == PruneIn(Shown(l.h, line, n), ids)
  {
    var g, ids := Prune(l.h, l.h.messages, keep, threshold), Victims(l.h.messages, keep, threshold);
    PruneIs(l.h, l.h.messages, keep, threshold);
    hide Victims, Prune, Pruned, Along, FindEntry, EntryIds, ForkFree;
    AlongPruned(l.h.index, g.index, line[n..], ids);
    ListingPruned(l.h.messages, Shown(l.h, line, n), ids);
    hide Listing;
    assert g.messages == PruneIn(l.h.messages, ids);
    forall t | n <= t < |line| ensures KnownAt(g, g, line, t) {
      assert KnownAt(l.h, l.h, line, t);
    }
    PrunedTidy(l.h, g, line, ids);
    hide Tidy, KnownAt, PruneIn;
  }

  lemma PrunedTidy(h: History, g: History, line: seq<Id>, ids: set<Id>)
    requires Tidy(h, line) && g.messages == PruneIn(h.messages, ids) && g.entries == h.entries
    requires g.index.Keys == h.index.Keys && forall id :: id in h.index ==> g.index[id].id == h.index[id].id
    ensures Tidy(g, line)
  {
    hide EntryIds;
  }

  // ---------- Destructive compaction ----------

  lemma LastListed(ms: seq<Message>, full: seq<Message>)
    requires Listing(ms, full) && ms != []
    ensures full != [] && Last(full) == Last(ms)
  {
    if ms != full {
      var k: nat :| Behind(ms, full, k);
      assert ms[1..][|full| - k - 1] == full[k..][|full| - k - 1];
    }
  }

  lemma ListingCompacts(ms: seq<Message>, full: seq<Message>, from: nat, after: seq<Message>)
    requires Listing(ms, full) && 0 < from < |ms| && ms[from].role == User
    requires after != [] && after[0].role == Summary && after[1..] == ms[from..]
    ensures Listing(after, full)
  {
    if ms == full {
      assert Behind(after, full, from);
    } else {
      var k: nat :| Behind(ms, full, k);
      assert ms[from..] == ms[1..][from - 1..] == full[k..][from - 1..] == full[k + from - 1..];
      assert full[k + from - 1] == full[k..][from - 1] == ms[1..][from - 1] == ms[from];
      assert Behind(after, full, k + from - 1);
    }
  }

  lemma TidyCompact(l: Life, line: seq<Id>, g: History, e: Entry, from: nat, end: nat)
    requires Tidy(l.h, line) && New(l, e.id) && 0 < from < |l.h.messages| && end <= |line|
    requires g.messages != [] && g.messages[0].role == Summary && New(l, g.messages[0].id)
    requires g.messages[0].id != e.id && g.messages[0].id !in line
    requires g.messages[1..] == l.h.messages[from..] && g.index == l.h.index && g.entries == l.h.entries + [e]
    ensures Tidy(g, line[..end])
  {
    EntryIdsGrow(l.h.entries, e);
    NotListed(l.h.messages, g.messages[0].id);
    hide EntryIds, Ids;
    forall i, j | 0 <= i < j < |g.messages| ensures g.messages[i].id != g.messages[j].id {
      assert g.messages[j] == g.messages[1..][j - 1] == l.h.messages[from + j - 1];
      if i > 0 {
        assert g.messages[i] == g.messages[1..][i - 1] == l.h.messages[from + i - 1];
      }
    }
  }

  lemma LiveCompact(l: Life, line: seq<Id>, n: nat, e: Event) returns (end: nat)
    requires Inv(l, line, n) && e.Compacted? && Timely(l, Happens(e))
    ensures n <= end <= |line| && Inv(l.(h := After(l.h, e)), line[..end], n)
    ensures Shown(After(l.h, e), line[..end], n) == Shown(l.h, line, n)
  {
    hide CompactLinear, Inv, Shown, Fresh, RetainFrom, UserIndexes, New;
    InvLength(l, line, n);
    var c := e.config;
    end := |line|;
    assert line[..end] == line;
    LinearIs(l.h, c, e.summaryId, e.id, e.generated, e.digest, e.anchor, e.goal);
    var r := CompactLinear(l.h, c, e.summaryId, e.id, e.generated, e.digest, e.anchor, e.goal);
    if r.Ok? {
      LinearSummary(l.h, c, e.summaryId, e.id, e.generated, e.digest, e.anchor, e.goal);
      end := CompactedChain(l, line, n, r.value, Last(r.value.entries), RetainFrom(l.h.messages, c));
    } else {
      LiveFailures(l, line, n, r.error.0);
    }
  }

  lemma CompactedChain(l: Life, line: seq<Id>, n: nat, g: History, e: Entry, from: nat) returns (end: nat)
    requires Inv(l, line, n) && New(l, e.id) && 0 < from < |l.h.messages| && l.h.messages[from].role == User
    requires g.messages != [] && g.messages[0].role == Summary && New(l, g.messages[0].id)
    requires g.messages[0].id != e.id && g.messages[1..] == l.h.messages[from..] && ForkFree([e])
    requires g.index == l.h.index && g.entries == l.h.entries + [e] && g.cursor == Some(Last(l.h.messages).id)
    ensures n <= |line| && n <= end <= |line| && Inv(l.(h := g), line[..end], n)
    ensures Shown(g, line[..end], n) == Shown(l.h, line, n)
  {
    var full := Shown(l.h, line, n);
    LastListed(l.h.messages, full);
    var j := LastMessage(l.h.index, line[n..]);
    end := n + j + 1;
    assert line[..end][n..] == line[n..][..j + 1];
    assert line[end - 1] == line[n..][j];
    OffTheLine(l, line, n, e.id);
    OffTheLine(l, line, n, g.messages[0].id);
    hide Along, New, KnownFrom;
    ChainPart(l.h, line, n, g, e, end);
    TidyCompact(l, line, g, e, from, end);
    ListingCompacts(l.h.messages, full, from, g.messages);
    ForkFreeGrows(l.h.entries, e);
    hide Chain, Tidy, Listing, ForkFree;
  }

  // ---------- Restarting ----------

  /** From where a restored walk knows the chain: what it then leads over is the list without its summary. */
  ghost predicate Resumes(h: History, line: seq<Id>, n: nat, start: nat, m: nat) {
    && start + m <= |line| && Along(h.index, line[start + m..]) == Unsummarized(h.messages)
    && if m == 1 then start + 1 < |line| && ((start == 0 && n == 1) || line[start] in h.index)
       else m == 0 && start == 0 && n == 0
  }

  lemma WhereResumes(l: Life, line: seq<Id>, n: nat) returns (start: nat, m: nat)
    requires Inv(l, line, n) && n <= |line| && NoSummaries(Shown(l.h, line, n))
    ensures Resumes(l.h, line, n, start, m)
  {
    var ms, full := l.h.messages, Shown(l.h, line, n);
    start, m := 0, n;
    if ms != full {
      var k: nat :| Behind(ms, full, k);
      if k == 0 {
        assert full[0..] == full;
      } else {
        var j := FindCut(l.h.index, line[n..], k);
        start, m := n + j, 1;
        assert line[start + 1..] == line[n..][j + 1..];
        assert line[n..][j] == line[start];
        assert full[k..] != [];
      }
    }
    hide Tidy, KnownFrom, ForkFree, Along;
  }

  /** Listed messages are on the resumed chain, except a summary, which is nowhere on it. */
  lemma ListedOnLine(h: History, line: seq<Id>, n: nat, start: nat, m: nat, i: nat)
    requires Tidy(h, line) && Resumes(h, line, n, start, m) && i < |h.messages|
    ensures var x := h.messages[i].id;
            || (x in h.index && h.index[x] == h.messages[i] && x in line[start + m..])
            || (i == 0 && h.messages[0].role == Summary && x !in line && x !in EntryIds(h.entries))
  {
    hide EntryIds, DistinctIds;
    var rest := line[start + m..];
    if i > 0 || h.messages[0].role != Summary {
      var u := Unsummarized(h.messages);
      var at := if h.messages[0].role == Summary then i - 1 else i;
      assert u[at] == h.messages[i];
      AlongMembers(h.index, rest, at);
      var k :| 0 <= k < |rest| && rest[k] in h.index && h.index[rest[k]] == u[at];
    }
  }

  lemma NotListedAgain(h: History, line: seq<Id>, n: nat, start: nat, m: nat, id: Id)
    requires Tidy(h, line) && Resumes(h, line, n, start, m)
    requires id in line && (id !in h.index || id !in line[start + m..])
    ensures id !in Ids(h.messages)
  {
    hide EntryIds, DistinctIds, Resumes;
    forall i | 0 <= i < |h.messages| ensures h.messages[i].id != id {
      ListedOnLine(h, line, n, start, m, i);
    }
  }

  lemma ResumedAt(h: History, line: seq<Id>, n: nat, start: nat, m: nat, g: History, t: nat)
    requires Chain(h, line, n) && Tidy(h, line) && Resumes(h, line, n, start, m)
    requires IndexIs(g.index, h.messages) && g.entries == h.entries && start + m <= t < |line| && n <= t
    ensures (line[t] in g.index <==> line[t] in h.index)
    ensures (line[t] in g.index ==> g.index[line[t]] == h.index[line[t]])
    ensures ParentOf(g, line[t]) == ParentOf(h, line[t])
  {
    var rest := line[start + m..];
    assert rest[t - start - m] == line[t];
    if line[t] in h.index {
      var i := AlongHolds(h.index, rest, t - start - m);
      hide Along, Chain, Distinct, DistinctIds, EntryIds;
      var u := Unsummarized(h.messages);
      assert u[i] == h.messages[if u == h.messages then i else i + 1];
    } else {
      NotListedAgain(h, line, n, start, m, line[t]);
    }
  }

  lemma ResumedChain(h: History, line: seq<Id>, n: nat, start: nat, m: nat, g: History)
    requires Chain(h, line, n) && Tidy(h, line) && Resumes(h, line, n, start, m)
    requires IndexIs(g.index, h.messages) && g.entries == h.entries && g.cursor == h.cursor
    ensures Chain(g, line[start..], m) && Shown(g, line[start..], m) == Unsummarized(h.messages)
    ensures m == 1 ==> line[start] !in g.index && FindEntry(g.entries, line[start]).None?
  {
    hide Along, FindEntry, Tidy, KnownAt, IndexIs;
    var rest := line[start..];
    forall t | m <= t < |rest| ensures KnownAt(g, g, rest, t) {
      ResumedNode(h, line, n, start, m, g, t);
    }
    if m == 1 {
      DroppedHead(h, line, n, start, g);
    }
    ResumedAlong(h, line, n, start, m, g);
    assert rest[m..] == line[start + m..];
  }

  lemma ResumedNode(h: History, line: seq<Id>, n: nat, start: nat, m: nat, g: History, t: nat)
    requires Chain(h, line, n) && Tidy(h, line) && Resumes(h, line, n, start, m)
    requires IndexIs(g.index, h.messages) && g.entries == h.entries && m <= t < |line| - start
    ensures KnownAt(g, g, line[start..], t)
  {
    FirstKnown(h, line, n, start, m);
    assert KnownAt(h, h, line, start + t);
    ResumedAt(h, line, n, start, m, g, start + t);
    hide Tidy, Resumes, IndexIs, Chain;
    assert line[start..][t] == line[start + t];
    assert Before(line[start..], t) == Before(line, start + t) by {
      if t > 0 {
        assert line[start..][t - 1] == line[start + t - 1];
      } else {
        assert m == 0;
        StartsAtRoot(h, line, n, start);
      }
    }
  }

  lemma StartsAtRoot(h: History, line: seq<Id>, n: nat, start: nat)
    requires Resumes(h, line, n, start, 0)
    ensures start == 0
  {
    hide Along;
  }

  lemma FirstKnown(h: History, line: seq<Id>, n: nat, start: nat, m: nat)
    requires Chain(h, line, n) && Resumes(h, line, n, start, m)
    ensures n <= start + m && m <= 1
  {
    if m == 1 && start == 0 && n == 1 {
    } else if m == 1 {
      assert n <= 1;
    }
    hide Along, KnownFrom;
  }

  /** The node before what is resumed is unknown after a restart. */
  lemma DroppedHead(h: History, line: seq<Id>, n: nat, start: nat, g: History)
    requires Chain(h, line, n) && Tidy(h, line) && Resumes(h, line, n, start, 1)
    requires IndexIs(g.index, h.messages) && g.entries == h.entries
    ensures line[start] !in g.index && FindEntry(g.entries, line[start]).None?
  {
    forall t | start + 1 <= t < |line| ensures line[t] != line[start] {}
    assert line[start] !in line[start + 1..];
    NotListedAgain(h, line, n, start, 1, line[start]);
    EntryIdsHold(h.entries, line[start]);
    hide Along, EntryIds, FindEntry;
  }

  lemma ResumedAlong(h: History, line: seq<Id>, n: nat, start: nat, m: nat, g: History)
    requires Chain(h, line, n) && Tidy(h, line) && Resumes(h, line, n, start, m)
    requires IndexIs(g.index, h.messages) && g.entries == h.entries
    ensures Along(g.index, line[start + m..]) == Unsummarized(h.messages)
  {
    var rest := line[start + m..];
    FirstKnown(h, line, n, start, m);
    forall k | 0 <= k < |rest|
      ensures (rest[k] in g.index <==> rest[k] in h.index)
      ensures (rest[k] in g.index ==> g.index[rest[k]] == h.index[rest[k]])
    {
      ResumedAt(h, line, n, start, m, g, start + m + k);
    }
    hide Chain, Tidy, IndexIs, Along;
    AlongSame(g.index, h.index, rest);
  }

  lemma RestoredCursor(l: Life, line: seq<Id>, n: nat, start: nat, m: nat)
    requires Inv(l, line, n) && Resumes(l.h, line, n, start, m)
    ensures Restored(l.h).cursor == l.h.cursor && Restored(l.h).messages == l.h.messages
    ensures Restored(l.h).entries == l.h.entries && IndexIs(Restored(l.h).index, l.h.messages)
  {
    var h := l.h;
    Reopened(h);
    if line == [] {
      assert h.messages == [] && h.entries == [];
      LoadedEntries([], []);
      assert Serialize(h) == SavedMessages([]) + SavedEntries([]);
    } else {
      var t := |line| - 1;
      FirstKnown(h, line, n, start, m);
      CursorIsKnown(h, line, n);
      hide Restored, Along, Listing, ForkFree;
      assert n <= t && start + m <= t;
      assert KnownAt(h, h, line, t);
      ResumedAt(h, line, n, start, m, Restored(h), t);
    }
  }

  lemma CursorIsKnown(h: History, line: seq<Id>, n: nat)
    requires Chain(h, line, n) && line != []
    ensures n < |line| && h.cursor == Some(line[|line| - 1])
  {
    hide KnownFrom;
  }

  lemma LiveRestart(l: Life, line: seq<Id>, n: nat) returns (rest: seq<Id>, m: nat)
    requires Inv(l, line, n) && n <= |line| && NoSummaries(Shown(l.h, line, n))
    ensures m <= |rest| && Inv(Live(l, Restart), rest, m)
    ensures Shown(Restored(l.h), rest, m) == Unsummarized(l.h.messages) && Restored(l.h).messages == l.h.messages
  {
    var start;
    start, m := WhereResumes(l, line, n);
    rest := line[start..];
    var h, g := l.h, Restored(l.h);
    RestoredCursor(l, line, n, start, m);
    hide Restored;
    ResumedChain(h, line, n, start, m, g);
    RestartTidy(h, line, n, start, m, g);
    RestartListing(l, line, n);
    if m == 1 {
      HeadIsGone(l, line, n, start);
    }
    hide Chain, Tidy, Resumes, Listing, ForkFree, Shown, IndexIs, Nodes;
  }

  lemma HeadIsGone(l: Life, line: seq<Id>, n: nat, start: nat)
    requires Inv(l, line, n) && Resumes(l.h, line, n, start, 1)
    requires line[start] !in Restored(l.h).index && FindEntry(Restored(l.h).entries, line[start]).None?
    ensures line[start] in Live(l, Restart).gone
  {
    EntryIdsHold(Restored(l.h).entries, line[start]);
    hide Along, Restored, FindEntry, EntryIds, Chain, Tidy, Listing, ForkFree;
  }

  lemma RestartTidy(h: History, line: seq<Id>, n: nat, start: nat, m: nat, g: History)
    requires Tidy(h, line) && Resumes(h, line, n, start, m)
    requires IndexIs(g.index, h.messages) && g.entries == h.entries && g.messages == h.messages
    ensures Tidy(g, line[start..])
  {
    hide EntryIds, DistinctIds, Along;
    forall id | id in g.index ensures g.index[id].id == id && id !in EntryIds(g.entries) {
      var i :| 0 <= i < |h.messages| && h.messages[i].id == id;
      ListedOnLine(h, line, n, start, m, i);
    }
  }

  lemma RestartListing(l: Life, line: seq<Id>, n: nat)
    requires Inv(l, line, n) && n <= |line| && NoSummaries(Shown(l.h, line, n))
    ensures Listing(l.h.messages, Unsummarized(l.h.messages))
  {
    var ms, full := l.h.messages, Shown(l.h, line, n);
    hide Chain, Tidy, Shown, ForkFree;
    if ms != full {
      var k: nat :| Behind(ms, full, k);
      assert Behind(ms, ms[1..], 0);
    }
  }

  // ---------- Every run ----------

  lemma LiveStep(l: Life, line: seq<Id>, n: nat, e: Event) returns (next: seq<Id>)
    requires Inv(l, line, n) && n <= |line| && Timely(l, Happens(e))
    ensures n <= |next| && Inv(l.(h := After(l.h, e)), next, n)
    ensures Shown(After(l.h, e), next, n) ==
            if e.Pruning? then PruneIn(Shown(l.h, line, n), Victims(l.h.messages, e.keep, e.threshold))
            else Shown(l.h, line, n) + Added(l.h, e)
  {
    hide Inv, Shown, AssistantMessage, CompactLinear, Prune, TurnMessages, AddTurn, Victims, SetLabel, New, Fresh;
    match e
    case Request(id, content) =>
      var g := l.h.(failures := 0);
      LiveFailures(l, line, n, g);
      LiveMessage(l.(h := g), line, n, Message(id, l.h.cursor, User, content, PLAIN));
      next := line + [id];
    case Final(id, content, reasoning) =>
      AssistantIs(l.h, id, content, [], reasoning);
      LiveMessage(l, line, n, AssistantMessage(l.h, id, content, [], reasoning));
      next := line + [id];
    case Turn(_, _, _, _, _, _) => next := LiveTurn(l, line, n, e);
    case ModelChanged(id, provider, model) => next := LiveRecord(l, line, n, e);
    case ThinkingChanged(id, level) => next := LiveRecord(l, line, n, e);
    case Labelled(id, target, name) => next := LiveRecord(l, line, n, e);
    case Compacted(_, _, _, _, _, _, _) =>
      var end := LiveCompact(l, line, n, e);
      next := line[..end];
      assert Shown(l.h, line, n) + [] == Shown(l.h, line, n);
    case Pruning(keep, threshold) =>
      LivePrune(l, line, n, keep, threshold);
      next := line;
  }

  lemma LiveRecord(l: Life, line: seq<Id>, n: nat, e: Event) returns (next: seq<Id>)
    requires Inv(l, line, n) && n <= |line| && Timely(l, Happens(e))
    requires e.ModelChanged? || e.ThinkingChanged? || e.Labelled?
    ensures n <= |next| && Inv(l.(h := After(l.h, e)), next, n)
    ensures Shown(After(l.h, e), next, n) == Shown(l.h, line, n) + Added(l.h, e)
  {
    hide Inv, Shown, SetLabel, New, Fresh;
    next := line + [e.id];
    var kind := match e
      case ModelChanged(_, provider, model) => ModelChange(provider, model)
      case ThinkingChanged(_, level) => ThinkingChange(level)
      case Labelled(_, target, name) => Label(target, name)
      case _ => Leaf("");
    assert ForkFree([Entry(e.id, l.h.cursor, kind)]);
    LiveEntry(l, line, n, After(l.h, e), Entry(e.id, l.h.cursor, kind));
    assert Shown(l.h, line, n) + [] == Shown(l.h, line, n);
  }

  /** What is shown, on the list or on the branch, is made of complete blocks. */
  lemma UnsummarizedIsComplete(ms: seq<Message>, full: seq<Message>)
    requires Listing(ms, full) && Complete(full) && NoSummaries(full)
    ensures Complete(Unsummarized(ms)) && NoSummaries(Unsummarized(ms)) && Complete(ms)
    ensures exists k: nat :: k <= |full| && Unsummarized(ms) == full[k..]
  {
    hide Complete;
    if ms == full {
      assert full[0..] == full;
      assert Unsummarized(ms) == full;
    } else {
      var k: nat :| Behind(ms, full, k);
      CutIsComplete(full, k);
      SummaryIsComplete(ms[0]);
      CompleteConcat([ms[0]], full[k..]);
      assert ms == [ms[0]] + ms[1..];
    }
  }

  lemma {:induction false} LifeGoesOn(acts: seq<Act>) returns (line: seq<Id>, n: nat)
    requires AllTimely(acts)
    ensures var l := LifeOf(acts);
            Inv(l, line, n) && n <= |line| && Complete(Shown(l.h, line, n)) && NoSummaries(Shown(l.h, line, n))
  {
    hide Inv, Shown, Complete, NoSummaries, After, Added, Victims, Fits, Restored;
    if acts == [] {
      line, n := [], 0;
      StartOfLife();
    } else {
      var l, a := LifeOf(Front(acts)), Last(acts);
      line, n := LifeGoesOn(Front(acts));
      match a {
        case Restart =>
          InvListing(l, line, n);
          UnsummarizedIsComplete(l.h.messages, Shown(l.h, line, n));
          line, n := LiveRestart(l, line, n);
        case Happens(e) =>
          var full := Shown(l.h, line, n);
          line := LiveStep(l, line, n, e);
          if e.Pruning? {
            PruneKeepsCalls(full, Victims(l.h.messages, e.keep, e.threshold));
            CompleteByCalls(full, PruneIn(full, Victims(l.h.messages, e.keep, e.threshold)));
            PrunedNoSummaries(full, Victims(l.h.messages, e.keep, e.threshold));
          } else {
            AddedIsComplete(l.h, e);
            CompleteConcat(full, Added(l.h, e));
            NoSummariesConcat(full, Added(l.h, e));
          }
      }
    }
  }

  lemma StartOfLife()
    ensures Inv(Life(NEW, {}), [], 0) && Complete(Shown(NEW, [], 0)) && NoSummaries(Shown(NEW, [], 0))
  {
  }

  lemma InvListing(l: Life, line: seq<Id>, n: nat)
    requires Inv(l, line, n) && n <= |line|
    ensures Listing(l.h.messages, Shown(l.h, line, n)) && ForkFree(l.h.entries)
    ensures CurrentBranch(l.h) == Shown(l.h, line, n)
  {
    hide Tidy, ForkFree, CurrentBranch;
    assert line[n..] == [] ==> Shown(l.h, line, n) == [];
    if line == [] {
      NothingListed(l.h.messages);
    }
    hide KnownFrom, Listing;
    ChainShows(l.h, line, n);
  }

  lemma PrunedNoSummaries(ms: seq<Message>, ids: set<Id>)
    requires NoSummaries(ms)
    ensures NoSummaries(PruneIn(ms, ids))
  {
  }

  lemma NoSummariesConcat(a: seq<Message>, b: seq<Message>)
    requires NoSummaries(a) && NoSummaries(b)
    ensures NoSummaries(a + b)
  {
  }

  lemma NoOverlays(h: History)
    requires ForkFree(h.entries)
    ensures ContextBranch(h) == CurrentBranch(h)
  {
    SelectedApplies(h.entries, Ids(CurrentBranch(h)));
    hide CurrentBranch, Selected, Ids;
  }

  /**
   In every fork-free run with destructive compactions and restarts in any order, both the message list and the branch
   context are sent with every call answered at once and no result alone, and the list is the end of the branch,
   perhaps behind a summary.
   */
  lemma InOrderAcrossRestarts(acts: seq<Act>)
    requires AllTimely(acts)
    ensures var h := LifeOf(acts).h;
            && Answered(Emit(h.messages)) && Answered(Emit(ContextBranch(h)))
            && exists k: nat :: k <= |CurrentBranch(h)| && Unsummarized(h.messages) == CurrentBranch(h)[k..]
  {
    hide AllTimely, LifeOf, Inv, Shown, Complete, NoSummaries, Answered, CurrentBranch, ContextBranch, Emit, Listing;
    var line, n := LifeGoesOn(acts);
    var l := LifeOf(acts);
    InvListing(l, line, n);
    NoOverlays(l.h);
    UnsummarizedIsComplete(l.h.messages, Shown(l.h, line, n));
    CompleteIsAnswered(l.h.messages);
    CompleteIsAnswered(Shown(l.h, line, n));
  }

  /**
   At any point of such a run, a restart keeps the message list and makes the branch exactly the list behind its
   summary; so it shows the same branch if and only if every message of the branch is still listed.
   */
  lemma RestartShowsTheList(acts: seq<Act>)
    requires AllTimely(acts)
    ensures var h, g := LifeOf(acts).h, LifeOf(acts + [Restart]).h;
            && AllTimely(acts + [Restart]) && g == Restored(h) && g.messages == h.messages
            && CurrentBranch(g) == Unsummarized(h.messages)
            && (CurrentBranch(g) == CurrentBranch(h) <==>
                  forall m :: m in CurrentBranch(h) ==> m in h.messages)
  {
    assert Front(acts + [Restart]) == acts && Last(acts + [Restart]) == Restart;
    hide Inv, Shown, Complete, NoSummaries, CurrentBranch, Listing, Restored;
    var line, n := LifeGoesOn(acts);
    var l := LifeOf(acts);
    var rest, m := LiveRestart(l, line, n);
    InvListing(l, line, n);
    InvListing(Live(l, Restart), rest, m);
    BranchIsDistinctHere(l, line, n);
    AllListed(l.h.messages, Shown(l.h, line, n));
  }

  lemma BranchIsDistinctHere(l: Life, line: seq<Id>, n: nat)
    requires Inv(l, line, n) && n <= |line|
    ensures DistinctIds(Shown(l.h, line, n))
  {
    hide KnownFrom, Listing, ForkFree, EntryIds, DistinctIds;
    assert Distinct(line[n..]);
    AlongDistinct(l.h.index, line[n..]);
  }

  lemma AllListed(ms: seq<Message>, full: seq<Message>)
    requires Listing(ms, full) && DistinctIds(full) && NoSummaries(full)
    ensures Unsummarized(ms) == full <==> forall m :: m in full ==> m in ms
  {
    if ms != full {
      var k: nat :| Behind(ms, full, k);
      if k > 0 {
        assert full[0] in full;
        forall i | 0 <= i < |ms| ensures ms[i] != full[0] {
          assert i > 0 ==> ms[i] == ms[1..][i - 1] == full[k..][i - 1] == full[k + i - 1];
        }
      } else {
        assert full[0..] == full;
        forall m | m in full ensures m in ms {
          assert m in ms[1..];
        }
      }
    }
  }
}
