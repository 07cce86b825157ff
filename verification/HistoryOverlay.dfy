/** Branch compaction is a projection: it changes what the model sees of a branch and nothing else. */
module HistoryOverlay {
  import opened Common
  import opened History
  import opened HistoryTree

  // ---------- The branch lists each message once ----------

  ghost predicate DistinctIds(ms: seq<Message>) {
    forall i, j :: 0 <= i < j < |ms| ==> ms[i].id != ms[j].id
  }

  lemma {:induction false} AlongDistinct(index: map<Id, Message>, path: seq<Id>)
    requires Distinct(path) && forall id :: id in index ==> index[id].id == id
    ensures DistinctIds(Along(index, path))
  {
    if path == [] {
    } else {
      AlongDistinct(index, Front(path));
      forall i | 0 <= i < |Along(index, Front(path))| ensures Along(index, Front(path))[i].id != Last(path) {
        AlongMembers(index, Front(path), i);
        var k :| 0 <= k < |Front(path)| && Front(path)[k] in index
               && index[Front(path)[k]] == Along(index, Front(path))[i];
        assert path[k] != path[|path| - 1];
      }
    }
  }

  lemma AlongEntry(index: map<Id, Message>, up: seq<Id>, id: Id)
    requires id !in index
    ensures Along(index, up + [id]) == Along(index, up)
  {
    assert Front(up + [id]) == up && Last(up + [id]) == id;
  }

  lemma {:induction false} LastMessage(index: map<Id, Message>, path: seq<Id>) returns (j: nat)
    requires Along(index, path) != []
    ensures j < |path| && path[j] in index && index[path[j]] == Last(Along(index, path))
    ensures Along(index, path[..j + 1]) == Along(index, path)
  {
    if Last(path) in index {
      j := |path| - 1;
      assert path[..j + 1] == path;
    } else {
      j := LastMessage(index, Front(path));
      assert Front(path)[..j + 1] == path[..j + 1];
    }
  }

  lemma PathFacts(h: History, p: Paths)
    requires Rep(h, p)
    ensures var path := PathTo(p.of, p.cursor);
            && Distinct(path) && (h.cursor.Some? ==> path != [] && Last(path) == h.cursor.value)
            && forall id :: id in h.index ==> h.index[id].id == id
  {
    hide Listed, EntriesPlaced, Placed, EntryIds;
  }

  lemma BranchIsDistinct(h: History, p: Paths)
    requires Rep(h, p)
    ensures DistinctIds(CurrentBranch(h))
    ensures Ids(CurrentBranch(h)) <= h.index.Keys
    ensures h.cursor.Some? ==> (h.cursor.value in Ids(CurrentBranch(h)) <==> h.cursor.value in h.index)
  {
    hide Rep, CurrentBranch, DistinctIds;
    BranchIsPath(h, p);
    PathFacts(h, p);
    var path := PathTo(p.of, p.cursor);
    hide PathTo;
    AlongDistinct(h.index, path);
    var branch := Along(h.index, path);
    forall i | 0 <= i < |branch| ensures branch[i].id in h.index {
      AlongMembers(h.index, path, i);
    }
    if h.cursor.Some? && h.cursor.value in h.index {
      assert branch[|branch| - 1].id == h.cursor.value;
    }
  }

  lemma {:induction false} PositionIs(ms: seq<Message>, i: nat)
    requires DistinctIds(ms) && i < |ms|
    ensures Position(ms, ms[i].id) == i
  {
    if i == 0 {
    } else {
      assert ms[1..][i - 1] == ms[i];
      PositionIs(ms[1..], i - 1);
    }
  }

  // ---------- Rounds of a suffix ----------

  lemma {:induction false} UsersOfPrefix(ms: seq<Message>, k: nat)
    requires k <= |ms|
    ensures UserIndexes(ms[..k]) <= UserIndexes(ms)
  {
    if k < |ms| {
      UsersOfPrefix(Front(ms), k);
      assert Front(ms)[..k] == ms[..k];
    } else {
      assert ms[..k] == ms;
    }
  }

  lemma UsersBefore(ms: seq<Message>, j: nat)
    requires j < |UserIndexes(ms)|
    ensures |UserIndexes(ms[..UserIndexes(ms)[j]])| == j
  {
    var users := UserIndexes(ms);
    var before := UserIndexes(ms[..users[j]]);
    UsersOfPrefix(ms, users[j]);
    if j > 0 {
      assert users[j - 1] < users[j] && ms[..users[j]][users[j - 1]] == ms[users[j - 1]];
      assert users[j - 1] in before;
      var k :| 0 <= k < |before| && before[k] == users[j - 1];
      assert users[k] == before[k];
    }
  }

  lemma {:induction false} UsersConcat(a: seq<Message>, b: seq<Message>)
    ensures |UserIndexes(a + b)| == |UserIndexes(a)| + |UserIndexes(b)|
    decreases |b|
  {
    if b == [] {
      assert a + b == a;
    } else {
      assert Front(a + b) == a + Front(b) && Last(a + b) == Last(b);
      UsersConcat(a, Front(b));
    }
  }

  /** What is retained starts with a user message and holds exactly `minRetain` rounds. */
  lemma RetainedRounds(ms: seq<Message>, c: Config)
    requires 1 <= c.minRetain < |UserIndexes(ms)|
    ensures var n := RetainFrom(ms, c);
            && |UserIndexes(ms[n..])| == c.minRetain && ms[n].role == User
            && |UserIndexes(ms[..n])| == |UserIndexes(ms)| - c.minRetain
            && (ms[0].role != User ==> n >= 2)
  {
    hide UserIndexes;
    var users := UserIndexes(ms);
    var n := users[|users| - c.minRetain];
    assert n == RetainFrom(ms, c);
    SplitRounds(ms, |users| - c.minRetain);
    assert users[0] < n;
  }

  lemma SplitRounds(ms: seq<Message>, j: nat)
    requires j < |UserIndexes(ms)|
    ensures var n := UserIndexes(ms)[j];
            |UserIndexes(ms[..n])| == j && |UserIndexes(ms[n..])| == |UserIndexes(ms)| - j
  {
    hide UserIndexes;
    var n := UserIndexes(ms)[j];
    UsersBefore(ms, j);
    UsersConcat(ms[..n], ms[n..]);
    assert ms[..n] + ms[n..] == ms;
  }

  // ---------- The overlay of one compaction ----------

  lemma SelectedLast(entries: seq<Entry>, e: Entry, ids: set<Id>)
    ensures Selected(entries + [e], ids) == if Applies(e, ids) then Some(e) else Selected(entries, ids)
  {
    assert Front(entries + [e]) == entries && Last(entries + [e]) == e;
  }

  lemma {:induction false} SelectedApplies(entries: seq<Entry>, ids: set<Id>)
    ensures Selected(entries, ids).Some? ==>
        Selected(entries, ids).value in entries && Applies(Selected(entries, ids).value, ids)
    ensures Selected(entries, ids).None? ==> forall i :: 0 <= i < |entries| ==> !Applies(entries[i], ids)
  {
    if entries == [] {
    } else {
      SelectedApplies(Front(entries), ids);
    }
  }

  /** The model's context is the branch, or one summary in front of a suffix of the branch. */
  lemma ContextShape(h: History)
    ensures var branch, context := CurrentBranch(h), ContextBranch(h);
            || context == branch
            || exists text: string, k: nat :: k < |branch| && context == [Overlay(text)] + branch[k..]
  {
    var branch := CurrentBranch(h);
    var o := Selected(h.entries, Ids(branch));
    SelectedApplies(h.entries, Ids(branch));
    hide CurrentBranch, Selected, Ids;
    if o.Some? {
      var k := Position(branch, o.value.kind.firstKept.value);
      assert ContextBranch(h) == [Overlay(o.value.kind.text)] + branch[k..];
    }
  }

  /** A user message of the context is a message of the branch, and so is all that follows it. */
  lemma KeptIsSuffix(h: History, n: nat) returns (j: nat)
    requires n < |ContextBranch(h)| && ContextBranch(h)[n].role == User
    ensures j < |CurrentBranch(h)| && ContextBranch(h)[n..] == CurrentBranch(h)[j..]
  {
    ContextShape(h);
    var branch, context := CurrentBranch(h), ContextBranch(h);
    hide CurrentBranch, ContextBranch;
    if context == branch {
      j := n;
    } else {
      var text: string, k: nat :| k < |branch| && context == [Overlay(text)] + branch[k..];
      assert context[0].role == Summary;
      j := k + n - 1;
      assert context[n..] == branch[j..];
    }
  }

  /** What a successful branch compaction records. */
  lemma CompactRecords(h: History, c: Config, id: Id, g: Generated, anchor: string)
    requires CompactBranch(h, c, id, g, anchor).Ok?
    ensures var before := ContextBranch(h);
            && g.Text? && 1 <= c.minRetain < |UserIndexes(before)|
            && CompactBranch(h, c, id, g, anchor).value == h.(failures := 0,
                 entries := h.entries + [Entry(id, h.cursor,
                   Compaction(WithAnchor(g.text, anchor), Some(before[RetainFrom(before, c)].id), true))])
  {
    hide ContextBranch, WithAnchor;
  }

  /**
   A successful branch compaction touches no message, link or cursor. If the cursor is a message, the
   context becomes one summary and the last `minRetain` rounds, a suffix of the branch; if the cursor is
   another entry (a label or model change made last), the overlay does not apply and the context stays.
   */
  lemma CompactionProjects(h: History, p: Paths, c: Config, id: Id, g: Generated, anchor: string)
    requires Rep(h, p) && Possible(h, Compact(id, c, g, anchor))
    requires CompactBranch(h, c, id, g, anchor).Ok?
    ensures var after := CompactBranch(h, c, id, g, anchor).value;
            var before := ContextBranch(h);
            var kept := before[RetainFrom(before, c)..];
            var projected := [Overlay(WithAnchor(g.text, anchor))] + kept;
            && after.messages == h.messages && after.index == h.index && after.cursor == h.cursor
            && h.entries <= after.entries && CurrentBranch(after) == CurrentBranch(h)
            && |UserIndexes(kept)| == c.minRetain && kept[0].role == User
            && (exists j :: 0 <= j < |CurrentBranch(h)| && kept == CurrentBranch(h)[j..])
            && h.cursor.Some?
            && (ContextBranch(after) == projected <==> h.cursor.value in h.index)
            && (h.cursor.value !in h.index ==> ContextBranch(after) == before)
  {
    hide CompactBranch, RetainFrom, WithAnchor, Rep, Possible, Apply, CurrentBranch;
    hide ContextBranch, UserIndexes, Selected, Ids;
    CompactRecords(h, c, id, g, anchor);
    var op := Compact(id, c, g, anchor);
    var after := CompactBranch(h, c, id, g, anchor).value;
    CompactIs(h, op);
    var before, branch := ContextBranch(h), CurrentBranch(h);
    var n := RetainFrom(before, c);
    var text := WithAnchor(g.text, anchor);
    RetainedRounds(before, c);
    var j := KeptIsSuffix(h, n);
    BranchIsDistinct(h, p);
    SameBranch(h, p, op);
    assert before[n] == before[n..][0] == branch[j];
    ContextAfter(h, after, id, text, n, j);
  }

  lemma CompactIs(h: History, op: Op)
    requires op.Compact?
    ensures var r := CompactBranch(h, op.config, op.id, op.generated, op.anchor);
            Apply(h, op) == if r.Ok? then r.value else r.error.0
  {
    hide CompactBranch;
  }

  /** A projection that drops one message and is still the same context starts with the same message. */
  lemma Shorter(before: seq<Message>, projected: seq<Message>, n: nat)
    requires n <= |before| && |projected| == 1 + |before| - n && projected != []
    ensures before == projected ==> n == 1 && before[0] == projected[0]
  {
  }

  /** The context after an overlay that keeps the branch from `j` on was added. */
  lemma ContextAfter(h: History, after: History, id: Id, text: string, n: nat, j: nat)
    requires h.cursor.Some? && j < |CurrentBranch(h)| && n < |ContextBranch(h)|
    requires DistinctIds(CurrentBranch(h)) && CurrentBranch(after) == CurrentBranch(h)
    requires ContextBranch(h)[n..] == CurrentBranch(h)[j..]
    requires after.entries == h.entries + [Entry(id, h.cursor, Compaction(text, Some(CurrentBranch(h)[j].id), true))]
    requires h.cursor.value in Ids(CurrentBranch(h)) <==> h.cursor.value in h.index
    requires n > 0 && (n == 1 ==> ContextBranch(h)[0].role == User)
    ensures var projected := [Overlay(text)] + ContextBranch(h)[n..];
            && (ContextBranch(after) == projected <==> h.cursor.value in h.index)
            && (h.cursor.value !in h.index ==> ContextBranch(after) == ContextBranch(h))
  {
    var branch, before := CurrentBranch(h), ContextBranch(h);
    var e := Last(after.entries);
    PositionIs(branch, j);
    SelectedLast(h.entries, e, Ids(branch));
    assert branch[j].id in Ids(branch);
    hide CurrentBranch, Selected;
    if h.cursor.value in h.index {
      assert Applies(e, Ids(branch));
    } else {
      assert !Applies(e, Ids(branch));
      assert ContextBranch(after) == before;
      Shorter(before, [Overlay(text)] + before[n..], n);
    }
  }

  /** A compaction entry hangs below the cursor, not above it, so the branch stays. */
  lemma SameBranch(h: History, p: Paths, op: Op)
    requires Rep(h, p) && op.Compact? && Possible(h, op)
    ensures CurrentBranch(Apply(h, op)) == CurrentBranch(h)
    ensures h.cursor.Some?
  {
    hide Listed, Links, Closed, CompactBranch, HasForks, Nodes, CurrentBranch;
    ForksAreNodes(h);
    CompactKeepsRep(h, p, op);
    BranchIsPath(h, p);
    BranchIsPath(Apply(h, op), Follow(p, h, op));
    LinkedNodes(h, p.of);
    CompactAdds(h, op.config, op.id, op.generated, op.anchor);
  }

  // ---------- Overlays and forks ----------

  /** An overlay is only seen where its compaction point lies on the path to the cursor. */
  lemma SelectedIsOnPath(h: History, p: Paths)
    requires Rep(h, p)
    ensures var o := Selected(h.entries, Ids(CurrentBranch(h)));
            o.Some? ==>
              && o.value in h.entries && o.value.parent.Some? && o.value.parent.value in p.of
              && p.of[o.value.parent.value] <= PathTo(p.of, p.cursor)
  {
    var branch := CurrentBranch(h);
    SelectedApplies(h.entries, Ids(branch));
    var o := Selected(h.entries, Ids(branch));
    if o.Some? {
      var i :| 0 <= i < |branch| && branch[i].id == o.value.parent.value;
      OnBranchIsAncestor(h, p, i);
    }
  }

  lemma OnBranchIsAncestor(h: History, p: Paths, i: nat)
    requires Rep(h, p) && i < |CurrentBranch(h)|
    ensures CurrentBranch(h)[i].id in p.of && p.of[CurrentBranch(h)[i].id] <= PathTo(p.of, p.cursor)
  {
    hide CurrentBranch, Listed, EntriesPlaced, Placed;
    BranchIsPath(h, p);
    var path := PathTo(p.of, p.cursor);
    AlongMembers(h.index, path, i);
    var k :| 0 <= k < |path| && path[k] in h.index && h.index[path[k]] == CurrentBranch(h)[i];
    assert p.of[path[k]] == path[..k + 1];
  }

  /** A fork to a proper ancestor of a compaction point does not see that compaction's overlay. */
  lemma ForkHidesOverlay(h: History, p: Paths, leafId: Id, target: Id, e: Entry)
    requires Rep(h, p) && target in h.index && Fresh(h, leafId)
    requires e in h.entries && e.parent.Some? && e.parent.value in p.of
    requires target in p.of && p.of[target] < p.of[e.parent.value]
    ensures var f := Apply(h, ForkTo(leafId, target));
            Selected(f.entries, Ids(CurrentBranch(f))) != Some(e)
  {
    hide Rep, CurrentBranch, Selected, Ids, Nodes, CompactBranch, Prune;
    hide NavigateTo, AddMessage, AssistantMessage, HasForks;
    var op := ForkTo(leafId, target);
    ForkIs(h, p, leafId, target);
    StepKeepsRep(h, p, op);
    var f, q := Apply(h, op), Follow(p, h, op);
    FollowForkKeepsPaths(h, p, op, e.parent.value);
    hide Apply, Follow, PathTo, Fresh;
    SelectedIsOnPath(f, q);
  }

  lemma FollowForkKeepsPaths(h: History, p: Paths, op: Op, id: Id)
    requires op.ForkTo? && id in p.of && op.id !in p.of
    ensures id in Follow(p, h, op).of && Follow(p, h, op).of[id] == p.of[id]
  {
  }

  // ---------- Over whole runs ----------

  /**
   In every run, however often it compacted, what the model sees is a suffix of the branch behind at most one overlay.
   */
  lemma OneOverlayInEveryRun(ops: seq<Op>)
    requires Feasible(NEW, ops)
    ensures var h, p := Exec(NEW, ops), Trace(NEW, ROOT, ops);
            var branch, context := Along(h.index, PathTo(p.of, p.cursor)), ContextBranch(h);
            || context == branch
            || exists text: string, k: nat :: k < |branch| && context == [Overlay(text)] + branch[k..]
  {
    BranchRefinesPaths(ops);
    ContextShape(Exec(NEW, ops));
  }

  /** No step of a run but pruning changes a stored message, and none drops one: compaction is non-destructive. */
  lemma {:induction false} MessagesAreKept(h: History, ops: seq<Op>)
    requires Feasible(h, ops)
    requires forall i :: 0 <= i < |ops| ==> !ops[i].PruneOutputs?
    ensures h.messages <= Exec(h, ops).messages && h.entries <= Exec(h, ops).entries
  {
    if ops == [] {
    } else {
      MessagesAreKept(h, Front(ops));
      StepKeepsMessages(Exec(h, Front(ops)), Last(ops));
    }
  }

  lemma StepKeepsMessages(h: History, op: Op)
    requires Possible(h, op) && !op.PruneOutputs?
    ensures h.messages <= Apply(h, op).messages && h.entries <= Apply(h, op).entries
    ensures op.Compact? ==>
        Apply(h, op).messages == h.messages && Apply(h, op).index == h.index && Apply(h, op).cursor == h.cursor
  {
    hide CompactBranch, HasForks, AssistantMessage;
    if op.Compact? {
      CompactAdds(h, op.config, op.id, op.generated, op.anchor);
    }
  }

  // ---------- A run in which it happens ----------

  const KEEP_ONE := Config(1, 3, 100)

  function Two(): History {
    AppendUser(AppendUser(NEW, "a", "first"), "b", "second")
  }

  lemma NewIsRep()
    ensures Rep(NEW, ROOT)
  {
    RunKeepsRep([]);
    hide Rep;
  }

  /** What a user message does to history and paths. */
  lemma UserStep(h: History, p: Paths, id: Id, content: string)
    ensures Apply(h, PutUser(id, content)) == AppendUser(h, id, content)
    ensures Follow(p, h, PutUser(id, content)) == Grow(p, id)
    ensures Possible(h, PutUser(id, content)) <==> Fresh(h, id)
  {
  }

  lemma OneIsRep()
    ensures var h := AppendUser(NEW, "a", "first");
            && Rep(h, Paths(map["a" := ["a"]], Some("a"))) && Nodes(h) == {"a"}
            && h.index == map["a" := Message("a", None, User, "first", PLAIN)] && h.entries == [] && h.failures == 0
            && h.cursor == Some("a")
  {
    hide Rep, Apply, Follow, Possible;
    var h, op := AppendUser(NEW, "a", "first"), PutUser("a", "first");
    NewIsRep();
    assert Nodes(NEW) == {};
    UserStep(NEW, ROOT, "a", "first");
    StepKeepsRep(NEW, ROOT, op);
    assert [] + ["a"] == ["a"];
    assert EntryIds(h.entries) == {};
  }

  lemma TwoIsRep()
    ensures Rep(Two(), Paths(map["a" := ["a"], "b" := ["a", "b"]], Some("b")))
    ensures Two().index["b"] == Message("b", Some("a"), User, "second", PLAIN)
    ensures Two().index["a"] == Message("a", None, User, "first", PLAIN)
    ensures Two().index.Keys == {"a", "b"} && Two().entries == [] && Two().failures == 0
  {
    OneIsRep();
    var h, p, op := AppendUser(NEW, "a", "first"), Paths(map["a" := ["a"]], Some("a")), PutUser("b", "second");
    hide Rep, Nodes, Apply, Follow, Possible;
    UserStep(h, p, "b", "second");
    StepKeepsRep(h, p, op);
    assert ["a"] + ["b"] == ["a", "b"];
  }

  /**
   Two requests, a fork to the second and a compaction: the first is summarized away from the context, but stays in the
   tree.
   */
  lemma OverlayExample()
    ensures var f := Apply(Two(), ForkTo("l", "b"));
            var r := CompactBranch(f, KEEP_ONE, "e", Text("summary"), "");
            && r.Ok? && r.value.messages == Two().messages
            && |CurrentBranch(r.value)| == 2 && ContextBranch(r.value) == [Overlay("summary"), Two().index["b"]]
  {
    hide Rep, CurrentBranch, CompactBranch, ContextBranch, Nodes, Apply, Follow, PathTo;
    TwoIsRep();
    var p := Paths(map["a" := ["a"], "b" := ["a", "b"]], Some("b"));
    var h, op := Two(), ForkTo("l", "b");
    TwoNodes(h);
    ForkIs(h, p, "l", "b");
    StepKeepsRep(h, p, op);
    BranchIsPath(Apply(h, op), Follow(p, h, op));
    TwoAlong(h.index);
    ForkedState(h, op);
    ForkedContext(Apply(h, op), h, Follow(p, h, op));
  }

  lemma TwoNodes(h: History)
    requires h.index.Keys == {"a", "b"} && h.entries == []
    ensures Nodes(h) == {"a", "b"}
  {
    assert EntryIds(h.entries) == {};
  }

  lemma ForkedState(h: History, op: Op)
    requires op.ForkTo? && op.target in h.index
    ensures var f := Apply(h, op);
            f == h.(entries := h.entries + [Entry(op.id, h.cursor, Leaf(op.target))], cursor := Some(op.target))
  {
  }

  lemma TwoAlong(index: map<Id, Message>)
    requires index.Keys == {"a", "b"}
    ensures Along(index, ["a", "b"]) == [index["a"], index["b"]]
  {
    assert Front(["a", "b"]) == ["a"] && Front(["a"]) == [] && Last(["a", "b"]) == "b" && Last(["a"]) == "a";
    assert "a" in index && "b" in index;
    assert Along(index, ["a"]) == [index["a"]];
  }

  lemma ForkedContext(f: History, h: History, q: Paths)
    requires h == Two() && Rep(f, q) && f.index == h.index
    requires f.messages == h.messages && f.failures == 0 && f.cursor == Some("b")
    requires f.entries == [Entry("l", Some("b"), Leaf("b"))]
    requires CurrentBranch(f) == [h.index["a"], h.index["b"]]
    ensures var r := CompactBranch(f, KEEP_ONE, "e", Text("summary"), "");
            && r.Ok? && r.value.messages == h.messages
            && |CurrentBranch(r.value)| == 2 && ContextBranch(r.value) == [Overlay("summary"), h.index["b"]]
  {
    hide Rep, CurrentBranch, ContextBranch, CompactBranch, RetainFrom, UserIndexes, Possible;
    TwoIsRep();
    TwoCompacts(f, h);
    ForkedPossible(f);
    CompactionProjects(f, q, KEEP_ONE, "e", Text("summary"), "");
  }

  lemma ForkedPossible(f: History)
    requires f.index.Keys == {"a", "b"} && f.entries == [Entry("l", Some("b"), Leaf("b"))]
    ensures Possible(f, Compact("e", KEEP_ONE, Text("summary"), ""))
  {
    assert f.entries[0].kind.Leaf?;
    assert EntryIds(f.entries) == {"l"};
  }

  lemma TwoCompacts(f: History, h: History)
    requires "a" in h.index && "b" in h.index && h.index["a"].role == User
    requires h.index["b"].role == User && f.failures == 0
    requires CurrentBranch(f) == [h.index["a"], h.index["b"]]
    requires forall i :: 0 <= i < |f.entries| ==> !f.entries[i].kind.Compaction?
    ensures ContextBranch(f) == CurrentBranch(f) && CompactBranch(f, KEEP_ONE, "e", Text("summary"), "").Ok?
    ensures 1 < |UserIndexes(ContextBranch(f))|
    ensures ContextBranch(f)[RetainFrom(ContextBranch(f), KEEP_ONE)..] == [h.index["b"]]
  {
    var branch := CurrentBranch(f);
    SelectedApplies(f.entries, Ids(branch));
    hide CurrentBranch, Selected;
    assert Selected(f.entries, Ids(branch)) == None;
    assert Front(branch) == [branch[0]] && Front([branch[0]]) == [] && Last(branch) == branch[1];
    assert UserIndexes([branch[0]]) == [0];
    assert UserIndexes(branch) == [0, 1];
  }

  /** The run so far of both examples, and the same with a label set as the last thing before the compaction. */
  const FORKED := [PutUser("a", "first"), PutUser("b", "second"), ForkTo("l", "b")]
  const LABELLED := FORKED + [PutLabel("x", "b", Some("here"))]

  lemma OneRun()
    ensures var ops := [PutUser("a", "first")];
            Feasible(NEW, ops) && Exec(NEW, ops) == AppendUser(NEW, "a", "first")
  {
    var a := PutUser("a", "first");
    assert Exec(NEW, []) == NEW && Feasible(NEW, []);
    assert Nodes(NEW) == {};
    hide Apply, Follow, Exec, Feasible, AppendUser;
    UserStep(NEW, ROOT, "a", "first");
    Extended([], a);
    assert [] + [a] == [a];
  }

  lemma TwoRun()
    ensures var ops := [PutUser("a", "first"), PutUser("b", "second")];
            Feasible(NEW, ops) && Exec(NEW, ops) == Two()
  {
    var a, b := PutUser("a", "first"), PutUser("b", "second");
    hide Apply, Follow, Exec, Feasible, AppendUser, Rep, Nodes;
    OneRun();
    OneIsRep();
    UserStep(AppendUser(NEW, "a", "first"), ROOT, "b", "second");
    Extended([a], b);
    assert [a] + [b] == [a, b];
  }

  lemma ForkedRun()
    ensures Feasible(NEW, FORKED) && Exec(NEW, FORKED) == Apply(Two(), ForkTo("l", "b"))
  {
    hide Apply, Follow, Exec, Feasible, Two, Rep, Nodes;
    TwoRun();
    TwoIsRep();
    TwoNodes(Two());
    var two := [PutUser("a", "first"), PutUser("b", "second")];
    Extended(two, ForkTo("l", "b"));
    assert two + [ForkTo("l", "b")] == FORKED;
  }

  lemma LabelledState(f: History)
    requires f.index.Keys == {"a", "b"} && f.entries == [Entry("l", Some("b"), Leaf("b"))] && f.cursor == Some("b")
    ensures var g := Apply(f, PutLabel("x", "b", Some("here")));
            && g == f.(entries := f.entries + [Entry("x", Some("b"), Label("b", Some("here")))], cursor := Some("x"),
                       labels := f.labels["b" := "here"])
            && Possible(f, PutLabel("x", "b", Some("here")))
            && Possible(g, Compact("e", KEEP_ONE, Text("summary"), ""))
  {
    var g := Apply(f, PutLabel("x", "b", Some("here")));
    assert g.entries[0].kind.Leaf?;
    assert EntryIds(f.entries) == {"l"};
    EntryIdsGrow(f.entries, Last(g.entries));
  }

  /**
   A run in which the compaction succeeds and changes nothing the model sees: a label was set after the fork, so the
   overlay hangs below a node that is no message.
   */
  lemma LabelledExample()
    ensures var ops := LABELLED + [Compact("e", KEEP_ONE, Text("summary"), "")];
            var h := Exec(NEW, LABELLED);
            && Feasible(NEW, ops) && CompactBranch(h, KEEP_ONE, "e", Text("summary"), "").Ok?
            && |ContextBranch(h)| == 2 && ContextBranch(Exec(NEW, ops)) == ContextBranch(h)
  {
    hide Rep, CurrentBranch, CompactBranch, ContextBranch, Nodes, Apply, Follow, PathTo, Possible, Exec, Feasible;
    TwoIsRep();
    var f, op := Apply(Two(), ForkTo("l", "b")), PutLabel("x", "b", Some("here"));
    ForkedRun();
    ForkedState(Two(), ForkTo("l", "b"));
    LabelledState(f);
    var g := Apply(f, op);
    assert Front(LABELLED) == FORKED && Last(LABELLED) == op;
    Extended(FORKED, op);
    var compact := Compact("e", KEEP_ONE, Text("summary"), "");
    Extended(LABELLED, compact);
    RunKeepsRep(LABELLED);
    var q := Trace(NEW, ROOT, LABELLED);
    LabelledBranch(f, g, q);
    TwoCompacts(g, Two());
    CompactionProjects(g, q, KEEP_ONE, "e", Text("summary"), "");
    CompactIs(g, compact);
  }

  lemma Extended(ops: seq<Op>, op: Op)
    requires Feasible(NEW, ops) && Possible(Exec(NEW, ops), op)
    ensures Feasible(NEW, ops + [op]) && Exec(NEW, ops + [op]) == Apply(Exec(NEW, ops), op)
  {
    assert Front(ops + [op]) == ops && Last(ops + [op]) == op;
    hide Apply, Possible;
  }

  lemma LabelledPath(g: History, q: map<Id, seq<Id>>)
    requires Links(g, q) && g.index.Keys == {"a", "b"} && |g.entries| == 2
    requires g.index["b"].parent == Some("a") && g.index["a"].parent == None
    requires g.entries[1].id == "x" && g.entries[1].parent == Some("b")
    ensures "x" in q && q["x"] == ["a", "b", "x"]
  {
    hide EntryIds;
    assert Placed(q, "x", Some("b")) && Placed(q, "b", Some("a")) && Placed(q, "a", None);
    assert [] + ["a"] == ["a"] && ["a"] + ["b"] == ["a", "b"];
  }

  /** The label is on the path, but only messages show. */
  lemma LabelledBranch(f: History, g: History, q: Paths)
    requires Rep(g, q) && f.index.Keys == {"a", "b"}
    requires f.index["b"].parent == Some("a") && f.index["a"].parent == None
    requires g.index == f.index && g.cursor == Some("x")
    requires g.entries == [Entry("l", Some("b"), Leaf("b")), Entry("x", Some("b"), Label("b", Some("here")))]
    ensures CurrentBranch(g) == [f.index["a"], f.index["b"]]
  {
    hide Listed, Closed, Links, CurrentBranch, Along;
    BranchIsPath(g, q);
    LabelledPath(g, q.of);
    TwoAlong(g.index);
    AlongEntry(g.index, ["a", "b"], "x");
    assert ["a", "b"] + ["x"] == ["a", "b", "x"];
  }
}
