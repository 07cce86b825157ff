/** What saving and restoring makes of a history that was compacted destructively. */
module HistoryReload {
  import opened Common
  import opened History
  import opened HistoryTree
  import opened HistoryOverlay
  import opened HistoryWire
  import opened HistoryLinear
  import opened HistoryRoundTrip

  /** No generated id is used twice, not even for a summary. */
  ghost predicate Apart(h: History, e: Event) {
    match e
    case Turn(id, _, _, _, ids, _) =>
      id !in Ids(h.messages) && forall i :: 0 <= i < |ids| ==> ids[i] !in Ids(h.messages)
    case Compacted(_, summaryId, id, _, _, _, _) => id !in Ids(h.messages) && Fresh(h, summaryId) && summaryId != id
    case Pruning(_, _) => true
    case _ => e.id !in Ids(h.messages)
  }

  ghost predicate AllApart(events: seq<Event>) {
    events != [] ==> AllApart(Front(events)) && Apart(Run(Front(events)), Last(events))
  }

  /** Messages and entries have different ids; a summary at the front is in neither index nor entries. */
  ghost predicate Separate(h: History) {
    && EntryIds(h.entries) !! h.index.Keys
    && (forall i :: 0 < i < |h.messages| ==> h.messages[i].id in h.index)
    && (h.messages != [] ==> if h.messages[0].role == Summary then h.messages[0].id !in Nodes(h)
                             else h.messages[0].id in h.index)
    && forall i, j :: 0 <= i < j < |h.messages| ==> h.messages[i].id != h.messages[j].id
  }

  // ---------- The walk stops at a dropped message ----------

  lemma SliceFront<T>(s: seq<T>, n: nat)
    requires n < |s|
    ensures s[n..] == Front(s)[n..] + [Last(s)] && Front(s)[..n] == s[..n]
  {
  }

  lemma {:induction false} FindCut(index: map<Id, Message>, path: seq<Id>, k: nat) returns (j: nat)
    requires 0 < k <= |Along(index, path)|
    ensures j < |path| && path[j] in index && index[path[j]] == Along(index, path)[k - 1]
    ensures Along(index, path[..j + 1]) == Along(index, path)[..k]
    ensures Along(index, path[j + 1..]) == Along(index, path)[k..]
  {
    if k <= |Along(index, Front(path))| {
      j := FindCut(index, Front(path), k);
      SliceFront(path, j + 1);
      AlongConcat(index, Front(path)[j + 1..], [Last(path)]);
      AlongConcat(index, Front(path), [Last(path)]);
      assert path == Front(path) + [Last(path)];
    } else {
      j := |path| - 1;
      assert path[..j + 1] == path && path[j + 1..] == [];
    }
  }

  /** From position `n` on the path is known to `g`, with the links of `h`; the node before, if any, is not. */
  ghost predicate KnownFrom(h: History, g: History, path: seq<Id>, n: nat) {
    && n <= |path| && (n > 0 ==> path[n - 1] !in g.index && FindEntry(g.entries, path[n - 1]).None?)
    && forall t :: n <= t < |path| ==> KnownAt(h, g, path, t)
  }

  ghost predicate KnownAt(h: History, g: History, path: seq<Id>, t: nat)
    requires t < |path|
  {
    && ParentOf(h, path[t]) == Before(path, t) && ParentOf(g, path[t]) == Before(path, t)
    && (path[t] in g.index || FindEntry(g.entries, path[t]).Some?)
    && (path[t] in g.index <==> path[t] in h.index) && (path[t] in g.index ==> g.index[path[t]] == h.index[path[t]])
  }

  function Before(path: seq<Id>, m: nat): Option<Id>
    requires m <= |path|
  {
    if m == 0 then None else Some(path[m - 1])
  }

  /** The walk goes up to the first node it does not know. */
  lemma {:induction false} WalkStops(h: History, g: History, path: seq<Id>, n: nat, m: nat, seen: set<Id>)
    requires KnownFrom(h, g, path, n) && n <= m <= |path| && Distinct(path)
    requires forall t :: 0 <= t < m ==> path[t] !in seen
    ensures Walk(g, Before(path, m), seen) == Along(h.index, path[n..m])
    decreases m
  {
    if m == n {
      assert path[n..m] == [];
    } else {
      var id := path[m - 1];
      forall t | 0 <= t < m - 1 ensures path[t] !in seen + {id} {
        assert path[t] != path[m - 1];
      }
      assert KnownAt(h, g, path, m - 1);
      WalkStops(h, g, path, n, m - 1, seen + {id});
      assert path[n..m] == path[n..m - 1] + [id];
      assert Front(path[n..m]) == path[n..m - 1] && Last(path[n..m]) == id;
    }
  }

  // ---------- Every run keeps ids apart ----------

  lemma SeparateMessage(h: History, m: Message)
    requires Separate(h) && Fresh(h, m.id) && m.id !in Ids(h.messages) && m.role != Summary
    ensures Separate(AddMessage(h, m))
  {
    hide EntryIds;
    var g := AddMessage(h, m);
    NotListed(h.messages, m.id);
    forall i, j | 0 <= i < j < |g.messages| ensures g.messages[i].id != g.messages[j].id {
    }
  }

  lemma NotListed(ms: seq<Message>, id: Id)
    requires id !in Ids(ms)
    ensures forall i :: 0 <= i < |ms| ==> ms[i].id != id
  {
  }

  lemma SeparateEntry(h: History, g: History, e: Entry)
    requires Separate(h) && Fresh(h, e.id) && e.id !in Ids(h.messages)
    requires g.messages == h.messages && g.index == h.index && g.entries == h.entries + [e]
    ensures Separate(g)
  {
    EntryIdsGrow(h.entries, e);
    NotListed(h.messages, e.id);
    hide EntryIds;
  }

  lemma SeparateCompact(h: History, g: History, e: Entry, s: Message, from: nat)
    requires Separate(h) && Fresh(h, e.id) && Fresh(h, s.id) && s.id != e.id && s.role == Summary
    requires e.id !in Ids(h.messages) && 0 < from < |h.messages|
    requires g.messages == [s] + h.messages[from..] && g.index == h.index && g.entries == h.entries + [e]
    ensures Separate(g)
  {
    EntryIdsGrow(h.entries, e);
    hide EntryIds;
    forall i | 0 < i < |g.messages| ensures g.messages[i].id in g.index && g.messages[i] == h.messages[from + i - 1] {
    }
  }

  lemma SeparateResults(h: History, e: Event, n: nat)
    requires Separate(h) && e.Turn? && n <= |e.calls| == |e.resultIds| == |e.outputs| && Distinct(e.resultIds)
    requires forall i :: 0 <= i < |e.resultIds| ==> Fresh(h, e.resultIds[i]) && e.resultIds[i] !in Ids(h.messages)
    ensures var g := AddResults(h, e.calls, e.resultIds, e.outputs, n);
            && Separate(g)
            && forall i :: n <= i < |e.resultIds| ==> Fresh(g, e.resultIds[i]) && e.resultIds[i] !in Ids(g.messages)
  {
    hide Separate, Fresh, Ids, AddMessage;
    if n == 0 {
    } else {
      SeparateResults(h, e, n - 1);
      var g := AddResults(h, e.calls, e.resultIds, e.outputs, n - 1);
      var m := Message(e.resultIds[n - 1], g.cursor, Tool, e.outputs[n - 1],
                       PLAIN.(callId := e.calls[n - 1].id, toolName := NameOf(e.calls[n - 1])));
      SeparateMessage(g, m);
      forall i | n <= i < |e.resultIds|
        ensures Fresh(AddMessage(g, m), e.resultIds[i]) && e.resultIds[i] !in Ids(AddMessage(g, m).messages)
      {
        StaysFresh(g, m, e.resultIds[i]);
        AddedIds(g, m);
      }
    }
  }

  lemma AddedIds(h: History, m: Message)
    ensures Ids(AddMessage(h, m).messages) == Ids(h.messages) + {m.id}
  {
    IdsGrow(h.messages, m);
  }

  lemma SeparateTurn(h: History, e: Event)
    requires Separate(h) && e.Turn? && Fits(h, e) && Apart(h, e)
    ensures Separate(AddTurn(h, e))
  {
    hide Separate, Fresh, Ids, AssistantMessage, AddMessage;
    AssistantIs(h, e.id, e.content, e.calls, e.reasoning);
    var m := AssistantMessage(h, e.id, e.content, e.calls, e.reasoning);
    SeparateMessage(h, m);
    AddedIds(h, m);
    forall i | 0 <= i < |e.resultIds| ensures Fresh(AddMessage(h, m), e.resultIds[i]) {
      StaysFresh(h, m, e.resultIds[i]);
    }
    SeparateResults(AddMessage(h, m), e, |e.calls|);
  }

  lemma SeparatePrune(h: History, keep: nat, threshold: nat)
    requires Separate(h)
    ensures Separate(Prune(h, h.messages, keep, threshold))
  {
    PruneIs(h, h.messages, keep, threshold);
    hide Prune, Victims, EntryIds;
  }

  lemma SeparateStep(h: History, e: Event)
    requires Separate(h) && Fits(h, e) && Apart(h, e)
    ensures Separate(After(h, e))
  {
    hide Separate, AssistantMessage, CompactLinear, Prune, AddTurn, Ids, Nodes, RetainFrom, SetLabel;
    match e
    case Request(id, content) =>
      SameSeparate(h, h.(failures := 0));
      SeparateMessage(h.(failures := 0), Message(id, h.cursor, User, content, PLAIN));
    case Final(id, content, reasoning) =>
      AssistantIs(h, id, content, [], reasoning);
      SeparateMessage(h, AssistantMessage(h, id, content, [], reasoning));
    case Turn(_, _, _, _, _, _) => SeparateTurn(h, e);
    case ModelChanged(id, provider, model) =>
      SeparateEntry(h, After(h, e), Entry(id, h.cursor, ModelChange(provider, model)));
    case ThinkingChanged(id, level) => SeparateEntry(h, After(h, e), Entry(id, h.cursor, ThinkingChange(level)));
    case Labelled(id, target, name) => SeparateEntry(h, After(h, e), Entry(id, h.cursor, Label(target, name)));
    case Compacted(c, s, id, g, digest, anchor, goal) =>
      LinearIs(h, c, s, id, g, digest, anchor, goal);
      var r := CompactLinear(h, c, s, id, g, digest, anchor, goal);
      if r.Ok? {
        LinearSummary(h, c, s, id, g, digest, anchor, goal);
        var from := RetainFrom(h.messages, c);
        assert r.value.messages == [r.value.messages[0]] + h.messages[from..];
        SeparateCompact(h, r.value, Last(r.value.entries), r.value.messages[0], from);
      } else {
        SameSeparate(h, r.error.0);
      }
    case Pruning(keep, threshold) => SeparatePrune(h, keep, threshold);
  }

  lemma LinearSummary(h: History, c: Config, s: Id, id: Id, g: Generated, digest: string, anchor: string, goal: string)
    requires CompactLinear(h, c, s, id, g, digest, anchor, goal).Ok?
    ensures var r := CompactLinear(h, c, s, id, g, digest, anchor, goal).value;
            r.messages != [] && r.messages[0].id == s
  {
    hide WithAnchor, WithDigest, SelectSummaries, UserIndexes;
  }

  lemma SameSeparate(h: History, g: History)
    requires Separate(h) && g == h.(failures := g.failures)
    ensures Separate(g) && Ids(g.messages) == Ids(h.messages) && Nodes(g) == Nodes(h)
  {
  }

  lemma {:induction false} RunIsSeparate(events: seq<Event>)
    requires Runs(events) && AllApart(events)
    ensures Separate(Run(events))
  {
    if events != [] {
      RunIsSeparate(Front(events));
      hide Separate, After, Fits, Apart;
      SeparateStep(Run(Front(events)), Last(events));
    } else {
      assert Nodes(NEW) == {};
    }
  }

  // ---------- The restored branch ----------

  lemma OnPath(p: map<Id, seq<Id>>, at: Option<Id>, t: nat)
    requires Closed(p) && t < |PathTo(p, at)|
    ensures PathTo(p, at)[t] in p && p[PathTo(p, at)[t]] == PathTo(p, at)[..t + 1]
  {
  }

  lemma LastOnPath(p: map<Id, seq<Id>>, at: Option<Id>)
    requires Closed(p) && PathTo(p, at) != []
    ensures at == Some(Last(PathTo(p, at)))
  {
  }

  lemma PathStep(h: History, p: Paths, t: nat)
    requires Tree(h, p) && t < |PathTo(p.of, p.cursor)|
    ensures var path := PathTo(p.of, p.cursor);
            ParentOf(h, path[t]) == Before(path, t) && (path[t] in h.index || FindEntry(h.entries, path[t]).Some?)
            && path[t] in p.of && path[t] in Nodes(h)
  {
    hide Links, EntryIds;
    var path := PathTo(p.of, p.cursor);
    var id := path[t];
    TreeNodes(h, p);
    OnPath(p.of, p.cursor, t);
    NodeIsPlaced(h, p.of, id);
    LinkedNodes(h, p.of);
    var parent := ParentOf(h, id);
    var up := PathTo(p.of, parent);
    assert path[..t + 1] == path[..t] + [id];
    assert up == path[..t];
    PathIsNotEmpty(p.of, parent);
    hide Tree;
    if t > 0 {
      LastOnPath(p.of, parent);
    }
  }

  lemma PathIsNotEmpty(p: map<Id, seq<Id>>, at: Option<Id>)
    requires Closed(p) && (at.Some? ==> at.value in p)
    ensures at.Some? ==> PathTo(p, at) != []
  {
  }

  /** What the restored history knows of the path: the retained messages and every entry, but no dropped message. */
  lemma RestoredKnows(h: History, p: Paths, g: History, k: nat, j: nat)
    requires Tree(h, p) && Separate(h) && CutAt(h.messages, Full(h, p), k) && h.messages[0].id !in Nodes(h)
    requires IndexIs(g.index, h.messages) && g.entries == h.entries
    requires var path := PathTo(p.of, p.cursor);
             && j < |path| && path[j] in h.index && h.index[path[j]] == Full(h, p)[k - 1]
             && Along(h.index, path[j + 1..]) == Full(h, p)[k..]
    ensures KnownFrom(h, g, PathTo(p.of, p.cursor), j + 1)
  {
    var path, full := PathTo(p.of, p.cursor), Full(h, p);
    TreeIds(h, p);
    Dropped(h, p, g, k, j);
    forall t | j + 1 <= t < |path| ensures KnownAt(h, g, path, t) {
      PathStep(h, p, t);
      if path[t] in h.index {
        Retained(h, p, g, k, j, t);
      } else {
        NotRetained(h, g, path[t]);
      }
    }
  }

  lemma TreeIds(h: History, p: Paths)
    requires Tree(h, p)
    ensures Distinct(PathTo(p.of, p.cursor)) && DistinctIds(Full(h, p))
    ensures forall id :: id in h.index ==> h.index[id].id == id
  {
    hide EntriesPlaced, Placed, EntryIds, DistinctIds;
    AlongDistinct(h.index, PathTo(p.of, p.cursor));
  }

  lemma Dropped(h: History, p: Paths, g: History, k: nat, j: nat)
    requires Tree(h, p) && Separate(h) && CutAt(h.messages, Full(h, p), k) && h.messages[0].id !in Nodes(h)
    requires IndexIs(g.index, h.messages) && g.entries == h.entries
    requires var path := PathTo(p.of, p.cursor);
             j < |path| && path[j] in h.index && h.index[path[j]] == Full(h, p)[k - 1]
    ensures PathTo(p.of, p.cursor)[j] !in g.index && FindEntry(g.entries, PathTo(p.of, p.cursor)[j]).None?
  {
    var id, full := PathTo(p.of, p.cursor)[j], Full(h, p);
    TreeIds(h, p);
    EntryIdsHold(h.entries, id);
    hide Tree, Full, PathTo, EntryIds;
    assert full[k - 1].id == id;
    forall i | 0 <= i < |h.messages| ensures h.messages[i].id != id {
      if i > 0 {
        assert h.messages[i] == h.messages[1..][i - 1] == full[k..][i - 1] == full[k + i - 1];
      }
    }
  }

  lemma Retained(h: History, p: Paths, g: History, k: nat, j: nat, t: nat)
    requires Tree(h, p) && CutAt(h.messages, Full(h, p), k) && IndexIs(g.index, h.messages)
    requires var path := PathTo(p.of, p.cursor);
             && j < t < |path| && path[t] in h.index && Along(h.index, path[j + 1..]) == Full(h, p)[k..]
    ensures var id := PathTo(p.of, p.cursor)[t];
            id in g.index && g.index[id] == h.index[id]
  {
    hide Tree, Full, PathTo, Along, DistinctIds, Distinct, IndexIs;
    var path, full := PathTo(p.of, p.cursor), Full(h, p);
    TreeIds(h, p);
    var i := AlongHolds(h.index, path[j + 1..], t - j - 1);
    assert path[j + 1..][t - j - 1] == path[t];
    RetainedAt(h.messages, full, k, g.index, i);
  }

  lemma RetainedAt(ms: seq<Message>, full: seq<Message>, k: nat, index: map<Id, Message>, i: nat)
    requires CutAt(ms, full, k) && IndexIs(index, ms) && i < |full[k..]|
    ensures full[k..][i].id in index && index[full[k..][i].id] == full[k..][i]
  {
    assert ms[1 + i] == ms[1..][i] == full[k..][i];
  }

  lemma {:induction false} AlongHolds(index: map<Id, Message>, path: seq<Id>, t: nat) returns (i: nat)
    requires t < |path| && path[t] in index
    ensures i < |Along(index, path)| && Along(index, path)[i] == index[path[t]]
  {
    if t == |path| - 1 {
      i := |Along(index, path)| - 1;
    } else {
      i := AlongHolds(index, Front(path), t);
    }
  }

  lemma NotRetained(h: History, g: History, id: Id)
    requires Separate(h) && h.messages != [] && h.messages[0].id !in Nodes(h) && IndexIs(g.index, h.messages)
    requires id !in h.index && id in Nodes(h)
    ensures id !in g.index
  {
    hide EntryIds;
  }

  lemma Reopened(h: History)
    requires DistinctIds(h.messages)
    ensures var g := Restored(h);
            g.messages == h.messages && IndexIs(g.index, h.messages) && g.entries == h.entries
    ensures h.cursor.Some? && (h.cursor.value in Restored(h).index || FindEntry(h.entries, h.cursor.value).Some?) ==>
              Restored(h).cursor == h.cursor
  {
    LoadedEntries(h.messages, h.entries);
    assert Serialize(h) == SavedMessages(h.messages) + SavedEntries(h.entries);
    hide Load, Serialize, IndexIs, DistinctIds;
  }

  /**
   After a destructive compaction, a saved and restored session walks only the retained rounds: the messages from
   before are gone, as intended, but the summary that stands for them is not on the branch either.
   */
  lemma ReloadLosesTheSummary(events: seq<Event>)
    requires Runs(events) && AllApart(events) && Run(events).messages != CurrentBranch(Run(events))
    ensures var h := Run(events);
            && h.messages != [] && h.messages[0].role == Summary && Restored(h).messages == h.messages
            && CurrentBranch(Restored(h)) == h.messages[1..]
  {
    hide Run, Runs, AllApart, CurrentBranch, Tree, Separate, Full, Shape, Restored;
    var p := RunShape(events);
    RunIsSeparate(events);
    var k := ShapeCut(Run(events).messages, Full(Run(events), p));
    ReloadWalks(Run(events), p, k);
  }

  lemma RunShape(events: seq<Event>) returns (p: Paths)
    requires Runs(events)
    ensures var h := Run(events);
            Tree(h, p) && Shape(h.messages, Full(h, p)) && CurrentBranch(h) == Full(h, p)
  {
    p := RunBase(events);
    hide Tree, Full, Shape, CurrentBranch, Run;
    TreeBranch(Run(events), p);
  }

  lemma ShapeCut(ms: seq<Message>, full: seq<Message>) returns (k: nat)
    requires Shape(ms, full) && ms != full
    ensures CutAt(ms, full, k)
  {
    k :| CutAt(ms, full, k);
  }

  lemma ReloadWalks(h: History, p: Paths, k: nat)
    requires Tree(h, p) && Separate(h) && CutAt(h.messages, Full(h, p), k)
    ensures Restored(h).messages == h.messages && CurrentBranch(Restored(h)) == h.messages[1..]
  {
    var path, full, g := PathTo(p.of, p.cursor), Full(h, p), Restored(h);
    Reopened(h);
    assert h.messages[0].id !in Nodes(h);
    var j := FindCut(h.index, path, k);
    RestoredKnows(h, p, g, k, j);
    TreeIds(h, p);
    TreeCursor(h, p);
    hide Tree, Full, PathTo, Separate, IndexIs, Restored;
    assert Along(h.index, path[j + 1..]) == full[k..] != [];
    assert j + 1 < |path|;
    WalkStops(h, g, path, j + 1, |path|, {});
    assert path[j + 1..|path|] == path[j + 1..];
  }

  lemma TreeCursor(h: History, p: Paths)
    requires Tree(h, p)
    ensures PathTo(p.of, p.cursor) != [] ==>
        h.cursor == Some(Last(PathTo(p.of, p.cursor))) && Last(PathTo(p.of, p.cursor)) != ""
  {
    hide Links;
  }

  // ---------- Exactly when the branch comes back ----------

  lemma {:induction false} WalkNothing(g: History, at: Option<Id>, seen: set<Id>)
    requires g.index.Keys == {}
    ensures Walk(g, at, seen) == []
    decreases (g.index.Keys + EntryIds(g.entries)) - seen
  {
    if at.Some? && at.value !in seen && FindEntry(g.entries, at.value).Some? {
      EntryIdsHold(g.entries, at.value);
      WalkNothing(g, ParentOf(g, at.value), seen + {at.value});
    } else {
    }
  }

  lemma WholeIsKnownAt(h: History, p: Paths, g: History, t: nat)
    requires Tree(h, p) && h.messages == Full(h, p) && IndexIs(g.index, h.messages) && g.entries == h.entries
    requires t < |PathTo(p.of, p.cursor)|
    ensures KnownAt(h, g, PathTo(p.of, p.cursor), t)
  {
    var path := PathTo(p.of, p.cursor);
    TreeIds(h, p);
    PathStep(h, p, t);
    FullByPath(h, p);
    hide Tree, Full, PathTo, Along, Nodes, EntryIds, DistinctIds, Distinct;
    if path[t] in h.index {
      var i := AlongHolds(h.index, path, t);
      assert h.messages[i].id == path[t];
    } else {
      forall i | 0 <= i < |h.messages| ensures h.messages[i].id != path[t] {
        AlongMembers(h.index, path, i);
      }
    }
  }

  /** While nothing was dropped, the restored walk goes all the way. */
  lemma WholeWalks(h: History, p: Paths)
    requires Tree(h, p) && h.messages == Full(h, p)
    ensures CurrentBranch(Restored(h)) == h.messages
  {
    var path, g := PathTo(p.of, p.cursor), Restored(h);
    TreeIds(h, p);
    Reopened(h);
    TreeCursor(h, p);
    FullByPath(h, p);
    if path == [] {
      assert g.index.Keys == {};
      hide Restored, Tree;
      WalkNothing(g, g.cursor, {});
    } else {
      WholeCursor(h, p, g);
      forall t | 0 <= t < |path| ensures KnownAt(h, g, path, t) {
        WholeIsKnownAt(h, p, g, t);
      }
      hide Restored, Tree, IndexIs, KnownAt, PathTo;
      WalkStops(h, g, path, 0, |path|, {});
      assert path[0..|path|] == path;
    }
  }

  lemma WholeCursor(h: History, p: Paths, g: History)
    requires Tree(h, p) && h.messages == Full(h, p) && IndexIs(g.index, h.messages) && g.entries == h.entries
    requires PathTo(p.of, p.cursor) != []
    ensures h.cursor == Some(Last(PathTo(p.of, p.cursor)))
    ensures h.cursor.value in g.index || FindEntry(h.entries, h.cursor.value).Some?
  {
    TreeCursor(h, p);
    WholeIsKnownAt(h, p, g, |PathTo(p.of, p.cursor)| - 1);
  }

  /**
   For every fork-free run, a restored session shows the same branch if and only if no message was dropped from the
   list.
   */
  lemma ReloadIsExact(events: seq<Event>)
    requires Runs(events) && AllApart(events)
    ensures var h := Run(events);
            CurrentBranch(Restored(h)) == CurrentBranch(h) <==> h.messages == CurrentBranch(h)
  {
    hide Run, Runs, AllApart, CurrentBranch, Tree, Full, Shape, Restored;
    var h := Run(events);
    var p := RunShape(events);
    if h.messages == CurrentBranch(h) {
      WholeWalks(h, p);
    } else {
      ReloadLosesTheSummary(events);
      var k := ShapeCut(h.messages, Full(h, p));
    }
  }

  // ---------- A run in which it happens ----------

  const TWO_REQUESTS := [Request("a", "first"), Request("b", "second")]
  const COMPACTION := Compacted(KEEP_ONE, "s", "e", Text("summary"), "", "", "")

  lemma TwoRequests()
    ensures Runs(TWO_REQUESTS) && AllApart(TWO_REQUESTS)
    ensures var h := Run(TWO_REQUESTS);
            && |h.messages| == 2 && h.messages[0] == Message("a", None, User, "first", PLAIN)
            && h.messages[1] == Message("b", Some("a"), User, "second", PLAIN)
            && h.index.Keys == {"a", "b"} && h.entries == [] && h.failures == 0
  {
    var one := [Request("a", "first")];
    assert Front(TWO_REQUESTS) == one && Front(one) == [];
    assert Run(one) == AppendUser(NEW, "a", "first");
    assert Run(TWO_REQUESTS) == AppendUser(Run(one), "b", "second");
  }

  lemma TwoUsers(ms: seq<Message>)
    requires |ms| == 2 && ms[0].role == User && ms[1].role == User
    ensures UserIndexes(ms) == [0, 1] && SelectSummaries(ms[..1], false) == [ms[0]]
  {
    assert Front(ms) == [ms[0]] && Front([ms[0]]) == [];
    assert UserIndexes([ms[0]]) == [0];
    assert ms[..1] == [ms[0]];
  }

  lemma ExampleCompacts(h: History)
    requires |h.messages| == 2 && h.messages[0].role == User && h.messages[1].role == User && h.failures == 0
    ensures var r := CompactLinear(h, KEEP_ONE, "s", "e", Text("summary"), "", "", "");
            r.Ok? && |r.value.messages| == 2 && r.value.messages[0].role == Summary
            && r.value.messages[1] == h.messages[1]
  {
    TwoUsers(h.messages);
    hide UserIndexes, SelectSummaries;
  }

  /** Two requests and a compaction: the model is shown both before saving, and only the second after restoring. */
  lemma ReloadExample()
    ensures var events := TWO_REQUESTS + [COMPACTION];
            var h := Run(events);
            && Runs(events) && AllApart(events)
            && |CurrentBranch(h)| == 2 && CurrentBranch(h)[0].content == "first"
            && |CurrentBranch(Restored(h))| == 1 && CurrentBranch(Restored(h))[0].content == "second"
  {
    var events := TWO_REQUESTS + [COMPACTION];
    var g := Run(TWO_REQUESTS);
    TwoRequests();
    assert Front(events) == TWO_REQUESTS && Last(events) == COMPACTION;
    ExampleIsNew(g);
    ExampleCompacts(g);
    var h := Run(events);
    assert h == After(g, COMPACTION);
    hide Run, Runs, AllApart, CompactLinear, After, Fits, Apart;
    CompactionKeepsBranch(TWO_REQUESTS, COMPACTION);
    ExampleBranch(TWO_REQUESTS);
    ReloadLosesTheSummary(events);
  }

  lemma ExampleIsNew(h: History)
    requires |h.messages| == 2 && h.messages[0].id == "a" && h.messages[1].id == "b"
    requires h.index.Keys == {"a", "b"} && h.entries == []
    ensures Fits(h, COMPACTION) && Apart(h, COMPACTION)
  {
    assert EntryIds(h.entries) == {};
    assert Ids(h.messages) <= {"a", "b"};
  }

  /** Without compaction the list is the branch. */
  lemma ExampleBranch(events: seq<Event>)
    requires Runs(events) && NoSummaries(Run(events).messages)
    ensures CurrentBranch(Run(events)) == Run(events).messages
  {
    ListIsBranchOrSuffix(events);
  }
}
