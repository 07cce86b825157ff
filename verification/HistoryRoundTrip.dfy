/** Saving a conversation tree and loading it back gives the same tree, branch and context. */
module HistoryRoundTrip {
  import opened Common
  import opened History
  import opened HistoryTree
  import opened HistoryOverlay

  function SavedMessages(ms: seq<Message>): seq<Saved> {
    seq(|ms|, i requires 0 <= i < |ms| => SavedMessage(ms[i]))
  }

  function SavedEntries(es: seq<Entry>): seq<Saved> {
    seq(|es|, i requires 0 <= i < |es| => SavedEntry(es[i]))
  }

  /** The model selected by the last change among the entries. */
  function ModelOf(es: seq<Entry>): Option<(string, string)> {
    if es == [] then None
    else if Last(es).kind.ModelChange? then Some((Last(es).kind.provider, Last(es).kind.model))
    else ModelOf(Front(es))
  }

  function ThinkingOf(es: seq<Entry>): string {
    if es == [] then "off"
    else if Last(es).kind.ThinkingChange? then Last(es).kind.level
    else ThinkingOf(Front(es))
  }

  /** Where loading leaves the cursor: the last node serialized, but never on a compaction. */
  function LoadedCursor(ms: seq<Message>, es: seq<Entry>): Option<Id> {
    if es == [] then if ms == [] then None else Some(Last(ms).id)
    else if Last(es).kind.Compaction? then LoadedCursor(ms, Front(es))
    else Some(Last(es).id)
  }

  ghost predicate IndexIs(index: map<Id, Message>, ms: seq<Message>) {
    index.Keys == Ids(ms) && forall i :: 0 <= i < |ms| ==> ms[i].id in index && index[ms[i].id] == ms[i]
  }

  lemma {:induction false} LoadedMessages(ms: seq<Message>)
    requires DistinctIds(ms)
    ensures var g := Load(SavedMessages(ms));
            && g == NEW.(messages := ms, index := g.index, cursor := g.cursor)
            && IndexIs(g.index, ms) && g.cursor == LoadedCursor(ms, [])
  {
    if ms == [] {
    } else {
      assert Front(SavedMessages(ms)) == SavedMessages(Front(ms));
      assert Last(SavedMessages(ms)) == SavedMessage(Last(ms));
      assert Front(ms) + [Last(ms)] == ms;
      hide SavedMessages, IndexIs;
      LoadedMessages(Front(ms));
      LoadedMessage(Load(SavedMessages(Front(ms))), ms);
    }
  }

  lemma LoadedMessage(g: History, ms: seq<Message>)
    requires ms != [] && DistinctIds(ms) && g == NEW.(messages := Front(ms), index := g.index, cursor := g.cursor)
    requires IndexIs(g.index, Front(ms))
    ensures var h := AddMessage(g, Last(ms));
            && h == NEW.(messages := ms, index := h.index, cursor := h.cursor)
            && IndexIs(h.index, ms) && h.cursor == Some(Last(ms).id)
  {
    assert Front(ms) + [Last(ms)] == ms;
    IdsGrow(Front(ms), Last(ms));
    hide Ids;
  }

  lemma {:induction false} LoadedEntries(ms: seq<Message>, es: seq<Entry>)
    requires DistinctIds(ms)
    ensures var g := Load(SavedMessages(ms) + SavedEntries(es));
            && g.messages == ms && IndexIs(g.index, ms) && g.entries == es
            && g.model == ModelOf(es) && g.thinking == ThinkingOf(es) && g.failures == 0
            && g.cursor == LoadedCursor(ms, es)
    decreases |es|
  {
    hide IndexIs, LoadOne, DistinctIds;
    var all := SavedMessages(ms) + SavedEntries(es);
    if es == [] {
      LoadedMessages(ms);
      assert all == SavedMessages(ms);
    } else {
      LoadedEntries(ms, Front(es));
      assert Front(all) == SavedMessages(ms) + SavedEntries(Front(es));
      assert Last(all) == SavedEntry(Last(es));
      LoadedEntry(Load(Front(all)), Last(es));
      assert Front(es) + [Last(es)] == es;
    }
  }

  lemma LoadedEntry(g: History, e: Entry)
    ensures var h := LoadOne(g, SavedEntry(e));
            && h.messages == g.messages && h.index == g.index && h.entries == g.entries + [e]
            && h.failures == g.failures
            && h.model == (if e.kind.ModelChange? then Some((e.kind.provider, e.kind.model)) else g.model)
            && h.thinking == (if e.kind.ThinkingChange? then e.kind.level else g.thinking)
            && h.cursor == (if e.kind.Compaction? then g.cursor else Some(e.id))
  {
    hide SetLabel;
  }

  // ---------- What every run keeps of model and thinking level ----------

  ghost predicate Settled(h: History) {
    h.model == ModelOf(h.entries) && h.thinking == ThinkingOf(h.entries)
  }

  lemma Settles(h: History, e: Entry)
    ensures var es := h.entries + [e];
            && ModelOf(es) == (if e.kind.ModelChange? then Some((e.kind.provider, e.kind.model))
                               else ModelOf(h.entries))
            && ThinkingOf(es) == (if e.kind.ThinkingChange? then e.kind.level else ThinkingOf(h.entries))
  {
    assert Front(h.entries + [e]) == h.entries && Last(h.entries + [e]) == e;
  }

  lemma StepKeepsSettled(h: History, op: Op)
    requires Settled(h)
    ensures Settled(Apply(h, op))
  {
    hide CompactBranch, HasForks, AssistantMessage, ModelOf, ThinkingOf, Victims, SetLabel;
    match op
    case PutModel(id, provider, model) => Settles(h, Entry(id, h.cursor, ModelChange(provider, model)));
    case PutThinking(id, level) => Settles(h, Entry(id, h.cursor, ThinkingChange(level)));
    case PutLabel(id, target, name) => Settles(h, Entry(id, h.cursor, Label(target, name)));
    case ForkTo(id, target) => Settles(h, Entry(id, h.cursor, Leaf(target)));
    case Navigate(id, target, summaryId, summary) =>
      var f := h.(entries := h.entries + [Entry(id, h.cursor, Leaf(target))]);
      Settles(h, Entry(id, h.cursor, Leaf(target)));
      if summary.Some? {
        Settles(f, Entry(summaryId, Some(target), BranchSummary(summary.value, h.cursor)));
      }
    case Compact(id, c, g, anchor) =>
      CompactAdds(h, c, id, g, anchor);
      var r := CompactBranch(h, c, id, g, anchor);
      if r.Ok? {
        Settles(h, Last(r.value.entries));
      }
    case _ =>
  }

  lemma {:induction false} RunKeepsSettled(ops: seq<Op>)
    ensures Settled(Exec(NEW, ops))
  {
    if ops == [] {
    } else {
      RunKeepsSettled(Front(ops));
      StepKeepsSettled(Exec(NEW, Front(ops)), Last(ops));
    }
  }

  // ---------- The round trip ----------

  function Restored(h: History): History {
    RestoreTreeState(Load(Serialize(h)), h.cursor, h.labels)
  }

  lemma IndexIsUnique(a: map<Id, Message>, h: History)
    requires Listed(h) && IndexIs(a, h.messages)
    ensures a == h.index
  {
    forall id | id in h.index ensures id in a && a[id] == h.index[id] {
      var i :| 0 <= i < |h.messages| && h.messages[i].id == id;
    }
    forall id | id in a ensures id in h.index {
      var i :| 0 <= i < |h.messages| && h.messages[i].id == id;
    }
  }

  lemma NothingIsEmpty(h: History)
    requires Listed(h) && Nodes(h) == {}
    ensures h.messages == [] && h.entries == []
  {
    MessagesAreNodes(h);
    EntriesAreNodes(h);
  }

  lemma EntriesAreNodes(h: History)
    ensures h.entries != [] ==> Nodes(h) != {}
  {
    if h.entries != [] {
      assert h.entries[0].id in Nodes(h);
    }
  }

  lemma RestoredIs(h: History, p: Paths)
    requires Rep(h, p) && Settled(h)
    ensures Restored(h) == h.(failures := 0)
  {
    hide Links, Closed, Listed;
    assert Serialize(h) == SavedMessages(h.messages) + SavedEntries(h.entries);
    ListedIsDistinct(h);
    LoadedEntries(h.messages, h.entries);
    var g := Load(Serialize(h));
    IndexIsUnique(g.index, h);
    if h.cursor.Some? {
      LinkedNodes(h, p.of);
      EntryIdsHold(h.entries, h.cursor.value);
    } else {
      NothingIsEmpty(h);
    }
    hide Load, Serialize;
  }

  lemma ListedIsDistinct(h: History)
    requires Listed(h)
    ensures DistinctIds(h.messages)
  {
  }

  /**
   For every run without destructive compaction,
       a snapshot restored with its cursor and labels is the history it was taken from, although
   serialization puts all messages before all other entries. Only the compaction failure count is not saved.
   */
  lemma SnapshotRoundTrip(ops: seq<Op>)
    requires Feasible(NEW, ops)
    ensures Restored(Exec(NEW, ops)) == Exec(NEW, ops).(failures := 0)
  {
    RunKeepsRep(ops);
    RunKeepsSettled(ops);
    RestoredIs(Exec(NEW, ops), Trace(NEW, ROOT, ops));
  }

  /** So the restored tree shows the same branch and the same context. */
  lemma SnapshotKeepsContext(ops: seq<Op>)
    requires Feasible(NEW, ops)
    ensures CurrentBranch(Restored(Exec(NEW, ops))) == CurrentBranch(Exec(NEW, ops))
    ensures ContextBranch(Restored(Exec(NEW, ops))) == ContextBranch(Exec(NEW, ops))
  {
    var h, p := Exec(NEW, ops), Trace(NEW, ROOT, ops);
    RunKeepsRep(ops);
    SnapshotRoundTrip(ops);
    hide Restored, CurrentBranch, Exec, Feasible, Trace;
    FailuresDoNotShow(h, p);
  }

  lemma FailuresDoNotShow(h: History, p: Paths)
    requires Rep(h, p)
    ensures var g := h.(failures := 0);
            Rep(g, p) && CurrentBranch(g) == CurrentBranch(h) && ContextBranch(g) == ContextBranch(h)
  {
    hide Links, Listed, Closed, CurrentBranch;
    var g := h.(failures := 0);
    FailuresOnly(h, g, p.of);
    BranchIsPath(h, p);
    BranchIsPath(g, p);
  }

  // ---------- Loading without restoring the cursor ----------

  /** The last message on a path. */
  function Nearest(index: map<Id, Message>, path: seq<Id>): Option<Id> {
    if path == [] then None
    else if Last(path) in index then Some(Last(path))
    else Nearest(index, Front(path))
  }

  lemma {:induction false} NearestEnds(index: map<Id, Message>, path: seq<Id>)
    requires forall id :: id in index ==> index[id].id == id
    ensures Nearest(index, path).None? <==> Along(index, path) == []
    ensures Nearest(index, path).Some? ==> Some(Last(Along(index, path)).id) == Nearest(index, path)
  {
    if path == [] {
    } else {
      NearestEnds(index, Front(path));
    }
  }

  /** Which messages a path leads over depends on its last message only. */
  lemma NearestDecides(h: History, p: map<Id, seq<Id>>, a: Option<Id>, b: Option<Id>)
    requires Closed(p) && forall id :: id in h.index ==> h.index[id].id == id
    ensures Along(h.index, PathTo(p, a)) == Along(h.index, PathTo(p, b))
       <==> Nearest(h.index, PathTo(p, a)) == Nearest(h.index, PathTo(p, b))
  {
    NearestEnds(h.index, PathTo(p, a));
    NearestEnds(h.index, PathTo(p, b));
    NearestPath(h, p, a);
    NearestPath(h, p, b);
  }

  lemma NearestPath(h: History, p: map<Id, seq<Id>>, at: Option<Id>)
    requires Closed(p) && forall id :: id in h.index ==> h.index[id].id == id
    ensures var z := Nearest(h.index, PathTo(p, at));
            z.Some? ==> z.value in p && Along(h.index, p[z.value]) == Along(h.index, PathTo(p, at))
  {
    var path := PathTo(p, at);
    if Nearest(h.index, path).Some? {
      NearestEnds(h.index, path);
      var j := LastMessage(h.index, path);
      assert p[path[j]] == path[..j + 1];
    }
  }

  lemma {:induction false} LoadedCursorIsNode(h: History)
    ensures var c := LoadedCursor(h.messages, h.entries);
            c.Some? ==> c.value in Ids(h.messages) || c.value in EntryIds(h.entries)
    decreases |h.entries|
  {
    if h.entries == [] {
    } else {
      EntryIdsGrow(Front(h.entries), Last(h.entries));
      assert Front(h.entries) + [Last(h.entries)] == h.entries;
      LoadedCursorIsNode(h.(entries := Front(h.entries)));
    }
  }

  lemma {:induction false} LoadedNowhere(ms: seq<Message>, es: seq<Entry>)
    requires LoadedCursor(ms, es).None?
    ensures ms == []
    decreases |es|
  {
    if es == [] {
    } else {
      LoadedNowhere(ms, Front(es));
    }
  }

  /** A tree with another cursor shows what lies on the way to that cursor. */
  lemma MovedBranch(h: History, p: Paths, g: History, at: Option<Id>)
    requires Rep(h, p) && g.messages == h.messages && g.index == h.index && g.entries == h.entries && g.cursor == at
    requires if at.Some? then at.value in p.of else h.messages == []
    ensures CurrentBranch(g) == Along(h.index, PathTo(p.of, at))
  {
    hide Listed, Closed, EntryIds;
    if at.Some? {
      SameTreeLinks(h, g, p.of);
      hide Links;
      assert Closed(p.of) && Links(g, p.of);
      NotEmpty(p.of, at.value);
      WalkIsPath(g, p.of, at, {});
    }
  }

  lemma NotEmpty(p: map<Id, seq<Id>>, id: Id)
    requires Closed(p) && id in p
    ensures id != ""
  {
  }

  lemma SameTreeLinks(h: History, g: History, p: map<Id, seq<Id>>)
    requires Links(h, p) && g.index == h.index && g.entries == h.entries
    ensures Links(g, p)
  {
  }

  /**
   For every run, loading without restoring the cursor shows the same branch if and only if the last message above the
   node serialized last is the last message above the cursor.
   */
  lemma LoadAloneIsExact(ops: seq<Op>)
    requires Feasible(NEW, ops)
    ensures var h, p := Exec(NEW, ops), Trace(NEW, ROOT, ops);
            var loaded := LoadedCursor(h.messages, h.entries);
            (CurrentBranch(Load(Serialize(h))) == CurrentBranch(h) <==>
             Nearest(h.index, PathTo(p.of, loaded)) == Nearest(h.index, PathTo(p.of, h.cursor)))
  {
    hide Rep, Exec, Trace, CurrentBranch, Feasible;
    RunKeepsRep(ops);
    LoadAlone(Exec(NEW, ops), Trace(NEW, ROOT, ops));
  }

  lemma LoadAlone(h: History, p: Paths)
    requires Rep(h, p)
    ensures var loaded := LoadedCursor(h.messages, h.entries);
            (CurrentBranch(Load(Serialize(h))) == CurrentBranch(h) <==>
             Nearest(h.index, PathTo(p.of, loaded)) == Nearest(h.index, PathTo(p.of, h.cursor)))
  {
    hide Load, Serialize, CurrentBranch, LoadedCursor, Closed;
    var g, at := Load(Serialize(h)), LoadedCursor(h.messages, h.entries);
    BranchIsPath(h, p);
    LoadsAll(h, p);
    LoadedCursorIsNode(h);
    CursorIsPlaced(h, p, at);
    if at.None? {
      LoadedNowhere(h.messages, h.entries);
    }
    MovedBranch(h, p, g, at);
    PathFacts(h, p);
    hide Rep;
    NearestDecides(h, p.of, at, h.cursor);
  }

  lemma CursorIsPlaced(h: History, p: Paths, at: Option<Id>)
    requires Rep(h, p) && (at.Some? ==> at.value in Ids(h.messages) || at.value in EntryIds(h.entries))
    ensures at.Some? ==> at.value in p.of
    ensures h.cursor == p.cursor && Closed(p.of)
  {
    hide Closed, EntryIds;
  }

  lemma LoadsAll(h: History, p: Paths)
    requires Rep(h, p)
    ensures var g := Load(Serialize(h));
            && g.messages == h.messages && g.index == h.index && g.entries == h.entries
            && g.cursor == LoadedCursor(h.messages, h.entries)
  {
    hide Links, Closed, Listed;
    assert Serialize(h) == SavedMessages(h.messages) + SavedEntries(h.entries);
    ListedIsDistinct(h);
    LoadedEntries(h.messages, h.entries);
    IndexIsUnique(Load(Serialize(h)).index, h);
  }

  /** Such a run: after a fork loading leaves the cursor on the leaf marker, and the old branch comes back. */
  lemma LoadAloneForgetsTheFork()
    ensures var ops := [PutUser("a", ""), PutUser("b", ""), ForkTo("c", "a")];
            && Feasible(NEW, ops)
            && |CurrentBranch(Exec(NEW, ops))| == 1 && |CurrentBranch(Load(Serialize(Exec(NEW, ops))))| == 2
  {
    var h1 := AppendUser(NEW, "a", "");
    var h2 := AppendUser(h1, "b", "");
    var h3 := Fork(h2, "c", "a").value;
    var ops := [PutUser("a", ""), PutUser("b", ""), ForkTo("c", "a")];
    assert Front(ops) == [PutUser("a", ""), PutUser("b", "")];
    assert Front(Front(ops)) == [PutUser("a", "")];
    assert Front(Front(Front(ops))) == [];
    ForkExampleBranches(h1, h2, h3);
    hide CurrentBranch, Load, Serialize;
    assert Exec(NEW, Front(Front(ops))) == h1;
    assert Exec(NEW, Front(ops)) == h2;
    assert Exec(NEW, ops) == h3;
    assert Feasible(NEW, ops);
  }

  /** What loading makes of the two messages and the leaf marker. */
  lemma ForkExampleLoads(h3: History)
    requires h3 == Fork(AppendUser(AppendUser(NEW, "a", ""), "b", ""), "c", "a").value
    ensures var g := Load(Serialize(h3));
            && g.index == h3.index && g.entries == h3.entries == [Entry("c", Some("b"), Leaf("a"))]
            && g.cursor == Some("c")
    ensures h3.index.Keys == {"a", "b"} && h3.index["a"].parent == None && h3.index["b"].parent == Some("a")
    ensures h3.cursor == Some("a")
  {
    var ms, es := h3.messages, h3.entries;
    assert Serialize(h3) == SavedMessages(ms) + SavedEntries(es);
    assert |ms| == 2 && ms[0] == h3.index["a"] && ms[1] == h3.index["b"] && ms[0].id == "a" && ms[1].id == "b";
    assert h3.index.Keys == {"a", "b"} == Ids(ms) by {
      assert Ids(ms) == {ms[0].id, ms[1].id};
    }
    hide Load, Serialize, SavedMessages, SavedEntries;
    LoadedEntries(ms, es);
    var g := Load(Serialize(h3));
    assert g.index["a"] == ms[0] && g.index["b"] == ms[1];
  }

  lemma ForkExampleBranches(h1: History, h2: History, h3: History)
    requires h1 == AppendUser(NEW, "a", "") && h2 == AppendUser(h1, "b", "") && Fork(h2, "c", "a") == Ok(h3)
    ensures |CurrentBranch(h3)| == 1 && |CurrentBranch(Load(Serialize(h3)))| == 2
  {
    ForkExampleLoads(h3);
    hide AppendUser, Fork;
    var g := Load(Serialize(h3));
    assert FindEntry(g.entries, "c") == Some(0) by {
      assert Front(g.entries) == [];
    }
    hide Load, Serialize, Walk, FindEntry;
    WalkUp(h3, "a", {});
    WalkUp(g, "c", {});
    WalkUp(g, "b", {"c"});
    WalkUp(g, "a", {"c"} + {"b"});
    WalkRoot(h3, {"a"});
    WalkRoot(g, {"c"} + {"b"} + {"a"});
  }

  lemma WalkUp(h: History, id: Id, seen: set<Id>)
    requires id !in seen && (id in h.index || FindEntry(h.entries, id).Some?)
    ensures |Walk(h, Some(id), seen)| ==
            |Walk(h, ParentOf(h, id), seen + {id})| + if id in h.index then 1 else 0
    ensures {} + {id} == {id}
  {
  }

  lemma WalkRoot(h: History, seen: set<Id>)
    ensures Walk(h, None, seen) == []
  {
  }
}
