/** Following parents in the session file: when the walk to the root ends, over every run. */
module JsonlWalks {
  import opened Common
  import opened JsonlStore

  // ---------- Walks ----------

  /** The walk from `at` ends within `n` steps: at a root, or at an id that names no entry. */
  ghost predicate Ends(byId: map<string, Line>, at: Option<string>, n: nat)
    decreases n
  {
    at.None? || at.value !in byId || (n > 0 && Ends(byId, byId[at.value].parent, n - 1))
  }

  ghost predicate Finite(byId: map<string, Line>, at: Option<string>) {
    exists n: nat :: Ends(byId, at, n)
  }

  ghost predicate AllFinite(byId: map<string, Line>) {
    forall id :: Finite(byId, Some(id))
  }

  /** The ids met in the first `n` steps from `at`, a missing one at the end included. */
  function Chain(byId: map<string, Line>, at: Option<string>, n: nat): seq<string>
    decreases n
  {
    if at.None? then []
    else if at.value !in byId || n == 0 then [at.value]
    else [at.value] + Chain(byId, byId[at.value].parent, n - 1)
  }

  /** Following parents from `at` meets `id`. */
  ghost predicate OnChain(byId: map<string, Line>, at: Option<string>, id: string) {
    exists n: nat :: id in Chain(byId, at, n)
  }

  lemma {:induction false} EndsLater(byId: map<string, Line>, at: Option<string>, n: nat, m: nat)
    requires Ends(byId, at, n) && n <= m
    ensures Ends(byId, at, m)
    decreases n
  {
    if at.None? || at.value !in byId {
    } else {
      EndsLater(byId, byId[at.value].parent, n - 1, m - 1);
    }
  }

  /** A walk that does not meet `id` is not changed by an entry with that id. */
  lemma {:induction false} OtherWalkStays(byId: map<string, Line>, line: Line, at: Option<string>, n: nat)
    requires Ends(byId, at, n) && line.id !in Chain(byId, at, n)
    ensures Ends(byId[line.id := line], at, n)
    decreases n
  {
    if at.None? || at.value !in byId {
    } else {
      OtherWalkStays(byId, line, byId[at.value].parent, n - 1);
    }
  }

  /** With the new entry's parent walk finite, every walk that was finite still is. */
  lemma {:induction false} WalkStaysFinite(byId: map<string, Line>, line: Line, at: Option<string>, n: nat)
    requires Ends(byId, at, n) && Finite(byId[line.id := line], line.parent)
    ensures Finite(byId[line.id := line], at)
    decreases n
  {
    var next := byId[line.id := line];
    if at == Some(line.id) {
      var m: nat :| Ends(next, line.parent, m);
      assert Ends(next, at, m + 1);
    } else if at.Some? && at.value in byId {
      WalkStaysFinite(byId, line, byId[at.value].parent, n - 1);
      var m: nat :| Ends(next, byId[at.value].parent, m);
      assert Ends(next, at, m + 1);
    } else {
      assert Ends(next, at, 0);
    }
  }

  /** A walk that met `id` before meets it with the new entry in place, and has no more steps left than before. */
  lemma {:induction false} MeetsNewEntry(byId: map<string, Line>, line: Line, at: Option<string>, n: nat, m: nat)
    returns (k: nat)
    requires line.id in Chain(byId, at, n) && Ends(byId[line.id := line], at, m)
    ensures k <= m && Ends(byId[line.id := line], Some(line.id), k)
    decreases n
  {
    if at == Some(line.id) {
      k := m;
    } else {
      k := MeetsNewEntry(byId, line, byId[at.value].parent, n - 1, m - 1);
    }
  }

  /** An entry whose parent's walk leads back to it has no finite walk. */
  lemma {:induction false} LoopNeverEnds(byId: map<string, Line>, line: Line, n: nat, m: nat)
    requires line.id in Chain(byId, line.parent, n)
    ensures !Ends(byId[line.id := line], Some(line.id), m)
    decreases m
  {
    if Ends(byId[line.id := line], Some(line.id), m) {
      var k := MeetsNewEntry(byId, line, line.parent, n, m - 1);
      LoopNeverEnds(byId, line, n, k);
    }
  }

  lemma ParentIsFinite(byId: map<string, Line>, at: Option<string>)
    requires AllFinite(byId)
    ensures Finite(byId, at)
  {
    if at.None? {
      assert Ends(byId, at, 0);
    }
  }

  /**
   An append keeps every walk finite if and only if the new id is not met on the walk from its parent, counting
   the parent itself and a missing id at the walk's end.
   */
  lemma AppendKeepsWalksFinite(byId: map<string, Line>, line: Line)
    requires AllFinite(byId)
    ensures AllFinite(byId[line.id := line]) <==> !OnChain(byId, line.parent, line.id)
  {
    var next := byId[line.id := line];
    if OnChain(byId, line.parent, line.id) {
      var n: nat :| line.id in Chain(byId, line.parent, n);
      forall m: nat ensures !Ends(next, Some(line.id), m) {
        LoopNeverEnds(byId, line, n, m);
      }
      assert !Finite(next, Some(line.id));
    } else {
      ParentIsFinite(byId, line.parent);
      var n: nat :| Ends(byId, line.parent, n);
      assert line.id !in Chain(byId, line.parent, n);
      OtherWalkStays(byId, line, line.parent, n);
      assert Finite(next, line.parent);
      forall id ensures Finite(next, Some(id)) {
        var m: nat :| Ends(byId, Some(id), m);
        WalkStaysFinite(byId, line, Some(id), m);
      }
    }
  }

  // ---------- Runs ----------

  /** The line an operation appends does not close a loop. */
  ghost predicate Unlooped(s: Store, op: Op) {
    match op
    case Put(d, generated) => !OnChain(s.byId, Filled(s, d, generated).parent, Filled(s, d, generated).id)
    case MoveLeaf(target, generated) => SetLeaf(s, target, generated).Ok? ==> !OnChain(s.byId, s.leaf, generated)
  }

  ghost predicate NeverLoops(ops: seq<Op>) {
    ops != [] ==> NeverLoops(Front(ops)) && Unlooped(Run(Front(ops)), Last(ops))
  }

  /** At every point of a run, every walk ends. */
  ghost predicate WalksAlwaysEnd(ops: seq<Op>) {
    AllFinite(Run(ops).byId) && (ops != [] ==> WalksAlwaysEnd(Front(ops)))
  }

  lemma StepKeepsWalks(s: Store, op: Op)
    requires AllFinite(s.byId)
    ensures AllFinite(Apply(s, op).byId) <==> Unlooped(s, op)
  {
    hide AllFinite, OnChain;
    match op
    case Put(d, generated) => AppendKeepsWalksFinite(s.byId, Filled(s, d, generated));
    case MoveLeaf(target, generated) =>
      AppendKeepsWalksFinite(s.byId, Line(generated, s.leaf, Leaf(target), ""));
  }

  /** In every run of appends and leaf moves, all walks end at every point if and only if no append closes a loop. */
  lemma {:induction false} WalksEndExactly(ops: seq<Op>)
    ensures WalksAlwaysEnd(ops) <==> NeverLoops(ops)
  {
    if ops == [] {
      forall id ensures Finite(EMPTY.byId, Some(id)) {
        assert Ends(EMPTY.byId, Some(id), 0);
      }
    } else {
      WalksEndExactly(Front(ops));
      var s := Run(Front(ops));
      hide AllFinite, Unlooped, Apply;
      AlwaysEndsNow(Front(ops));
      if AllFinite(s.byId) {
        StepKeepsWalks(s, Last(ops));
      }
    }
  }

  lemma AlwaysEndsNow(ops: seq<Op>)
    ensures WalksAlwaysEnd(ops) ==> AllFinite(Run(ops).byId)
  {
  }

  // ---------- The path to the root ----------

  /** Each entry is the indexed one, and hangs below the one before. */
  ghost predicate Linked(byId: map<string, Line>, path: seq<Line>) {
    && (forall k :: 0 <= k < |path| ==> path[k].id in byId && byId[path[k].id] == path[k])
    && (forall k :: 0 < k < |path| ==> path[k].parent == Some(path[k - 1].id))
  }

  /** Where a path starts: at an entry without a parent, or with one that names no entry. */
  ghost predicate Topmost(byId: map<string, Line>, parent: Option<string>) {
    parent.None? || parent.value !in byId
  }

  /** The entries met from `from` up, topmost first. */
  ghost predicate IsPath(byId: map<string, Line>, path: seq<Line>, from: Option<string>) {
    if path == [] then Topmost(byId, from)
    else from == Some(Last(path).id) && Topmost(byId, path[0].parent) && Linked(byId, path)
  }

  /** Every entry is stored under its own id. */
  ghost predicate Keyed(byId: map<string, Line>) {
    forall id :: id in byId ==> byId[id].id == id
  }

  lemma {:induction false} RunsAreKeyed(ops: seq<Op>)
    ensures Keyed(Run(ops).byId)
  {
    if ops == [] {
    } else {
      RunsAreKeyed(Front(ops));
      hide Relabel;
    }
  }

  lemma LinkedShrinks(byId: map<string, Line>, path: seq<Line>)
    requires Linked(byId, path) && |path| > 1
    ensures Linked(byId, Front(path)) && path[|path| - 1].parent == Some(Last(Front(path)).id)
  {
    assert path[|path| - 1].parent == Some(path[|path| - 2].id);
  }

  lemma EmptyPath(byId: map<string, Line>, path: seq<Line>, from: Option<string>)
    requires IsPath(byId, path, from)
    ensures path == [] <==> Topmost(byId, from)
  {
    if path != [] {
      assert path[|path| - 1].id in byId;
    }
  }

  lemma {:induction false} PathIsUnique(byId: map<string, Line>, a: seq<Line>, b: seq<Line>, from: Option<string>)
    requires IsPath(byId, a, from) && IsPath(byId, b, from)
    ensures a == b
    decreases |a|
  {
    EmptyPath(byId, a, from);
    EmptyPath(byId, b, from);
    if a == [] {
    } else {
      assert a[|a| - 1] == b[|b| - 1];
      var parent := Last(a).parent;
      AboveIsPath(byId, a, from);
      AboveIsPath(byId, b, from);
      PathIsUnique(byId, Front(a), Front(b), parent);
      assert a == Front(a) + [Last(a)] && b == Front(b) + [Last(b)];
    }
  }

  lemma AboveIsPath(byId: map<string, Line>, path: seq<Line>, from: Option<string>)
    requires IsPath(byId, path, from) && path != []
    ensures IsPath(byId, Front(path), Last(path).parent)
  {
    if |path| > 1 {
      LinkedShrinks(byId, path);
    }
  }

  /** The id is that of an entry on the path, or names the missing parent at its top. */
  predicate Shows(path: seq<Line>, from: Option<string>, id: string) {
    || (exists k | 0 <= k < |path| :: path[k].id == id)
    || Some(id) == if path == [] then from else path[0].parent
  }

  /** The path a store gives shows exactly the ids met on the walk: a caller can check for a loop before an append. */
  lemma {:induction false} PathShowsChain(byId: map<string, Line>, path: seq<Line>, from: Option<string>, id: string)
    requires IsPath(byId, path, from)
    ensures Shows(path, from, id) <==> OnChain(byId, from, id)
    decreases |path|
  {
    if path == [] {
      assert from.Some? ==> forall n: nat :: Chain(byId, from, n) == [from.value];
      if Shows(path, from, id) {
        assert id in Chain(byId, from, 0);
      }
    } else {
      var last, above := Last(path), Front(path);
      AboveIsPath(byId, path, from);
      PathShowsChain(byId, above, last.parent, id);
      assert path[|path| - 1] == last && last.id in byId && byId[last.id] == last;
      ShowsAbove(path, from, id);
      ChainAbove(byId, from, last, id);
    }
  }

  lemma ShowsAbove(path: seq<Line>, from: Option<string>, id: string)
    requires path != [] && from == Some(Last(path).id) && (|path| > 1 ==> Last(path).parent.Some?)
    ensures Shows(path, from, id) <==> id == Last(path).id || Shows(Front(path), Last(path).parent, id)
  {
    var above := Front(path);
    if Shows(path, from, id) && id != Last(path).id {
      if k :| 0 <= k < |path| && path[k].id == id {
        assert above[k].id == id;
      }
    }
    if k :| 0 <= k < |above| && above[k].id == id {
      assert path[k].id == id;
    }
    if id == Last(path).id {
      assert path[|path| - 1].id == id;
    }
  }

  lemma ChainAbove(byId: map<string, Line>, from: Option<string>, last: Line, id: string)
    requires from == Some(last.id) && last.id in byId && byId[last.id] == last
    ensures OnChain(byId, from, id) <==> id == last.id || OnChain(byId, last.parent, id)
  {
    if n: nat :| id in Chain(byId, from, n) {
      assert id != last.id ==> id in Chain(byId, last.parent, n - 1);
    }
    if id == last.id {
      assert id in Chain(byId, from, 0);
    }
    if n: nat :| id in Chain(byId, last.parent, n) {
      assert id in Chain(byId, from, n + 1);
    }
  }

  /** An id used twice without a parent of its own makes an entry its own parent: the walk from it never ends. */
  lemma ReusedIdIsItsOwnParent(id: string, generated: string)
    ensures var d := Draft(Some(id), None, Plain, "");
            var s := Run([Put(d, generated), Put(d, generated)]);
            id in s.byId && s.byId[id].parent == Some(id) && !Finite(s.byId, Some(id))
  {
    var d := Draft(Some(id), None, Plain, "");
    var ops := [Put(d, generated), Put(d, generated)];
    assert Front(ops) == [Put(d, generated)] && Front(Front(ops)) == [];
    var one := Append(EMPTY, Filled(EMPTY, d, generated));
    assert Run(Front(ops)) == one;
    var line := Filled(one, d, generated);
    assert Run(ops) == Append(one, line);
    assert id in Chain(one.byId, line.parent, 0);
    forall m: nat ensures !Ends(Run(ops).byId, Some(id), m) {
      LoopNeverEnds(one.byId, line, 0, m);
    }
  }

  // ---------- Runs that leave ids and parents to the store ----------

  ghost predicate HasEntry(entries: seq<Line>, id: string) {
    exists i :: 0 <= i < |entries| && entries[i].id == id
  }

  /** The index holds exactly the entries, each id once. */
  ghost predicate Indexed(entries: seq<Line>, byId: map<string, Line>) {
    && (forall i :: 0 <= i < |entries| ==> entries[i].id in byId && byId[entries[i].id] == entries[i])
    && (forall i, j :: 0 <= i < j < |entries| ==> entries[i].id != entries[j].id)
    && (forall id :: id in byId ==> HasEntry(entries, id))
  }

  ghost predicate ParentsEarlier(entries: seq<Line>) {
    forall i :: 0 <= i < |entries| && entries[i].parent.Some? ==> HasEntry(entries[..i], entries[i].parent.value)
  }

  /** Every parent is an earlier entry, and the leaf is an entry. */
  ghost predicate Ordered(s: Store) {
    Indexed(s.entries, s.byId) && ParentsEarlier(s.entries) && (s.leaf.Some? ==> s.leaf.value in s.byId)
  }

  lemma HasEntryGrows(entries: seq<Line>, line: Line, id: string)
    requires HasEntry(entries, id) || id == line.id
    ensures HasEntry(entries + [line], id)
  {
    var both := entries + [line];
    if id == line.id {
      assert both[|entries|].id == id;
    } else {
      var i :| 0 <= i < |entries| && entries[i].id == id;
      assert both[i].id == id;
    }
  }

  lemma IndexedGrows(entries: seq<Line>, byId: map<string, Line>, line: Line)
    requires Indexed(entries, byId) && line.id !in byId
    ensures Indexed(entries + [line], byId[line.id := line])
  {
    forall id | id in byId[line.id := line] ensures HasEntry(entries + [line], id) {
      HasEntryGrows(entries, line, id);
    }
    hide HasEntry;
  }

  lemma ParentsEarlierGrows(entries: seq<Line>, line: Line)
    requires ParentsEarlier(entries) && (line.parent.Some? ==> HasEntry(entries, line.parent.value))
    ensures ParentsEarlier(entries + [line])
  {
    hide HasEntry;
    var both := entries + [line];
    forall i | 0 <= i < |both| && both[i].parent.Some? ensures HasEntry(both[..i], both[i].parent.value) {
      if i < |entries| {
        assert both[..i] == entries[..i];
      } else {
        assert both[..i] == entries;
      }
    }
  }

  lemma AppendKeepsOrdered(s: Store, line: Line)
    requires Ordered(s) && line.id !in s.byId && (line.parent.Some? ==> line.parent.value in s.byId)
    ensures Ordered(Append(s, line))
  {
    hide HasEntry, ParentsEarlier;
    IndexedGrows(s.entries, s.byId, line);
    ParentsEarlierGrows(s.entries, line);
  }

  lemma {:induction false} DefaultRunIsOrdered(ops: seq<Op>)
    requires DefaultRun(ops)
    ensures Ordered(Run(ops)) && NoEmptyIds(Run(ops)) && Settled(Run(ops)) && Generates(ops)
  {
    if ops == [] {
    } else {
      DefaultRunIsOrdered(Front(ops));
      hide Ordered, NoEmptyIds;
      StepKeepsOrdered(Run(Front(ops)), Last(ops));
    }
  }

  lemma StepKeepsOrdered(s: Store, op: Op)
    requires Ordered(s) && NoEmptyIds(s) && Settled(s) && Defaults(s, op)
    ensures Ordered(Apply(s, op)) && NoEmptyIds(Apply(s, op)) && Settled(Apply(s, op))
  {
    hide Ordered, NoEmptyIds, Relabel;
    OrderedLeaf(s);
    match op
    case Put(d, generated) =>
      var line := Filled(s, d, generated);
      AppendKeepsOrdered(s, line);
      NoEmptyIdsGrows(s, Append(s, line), line);
    case MoveLeaf(target, generated) =>
      var line := Line(generated, s.leaf, Leaf(target), "");
      AppendKeepsOrdered(s, line);
      NoEmptyIdsGrows(s, Append(s, line).(leaf := target), line);
      if SetLeaf(s, target, generated).Ok? {
        OtherLeaf(Append(s, line), target);
      }
  }

  lemma OrderedLeaf(s: Store)
    requires Ordered(s)
    ensures s.leaf.Some? ==> s.leaf.value in s.byId
  {
  }

  lemma OtherLeaf(s: Store, leaf: Option<string>)
    requires Ordered(s) && (leaf.Some? ==> leaf.value in s.byId)
    ensures Ordered(s.(leaf := leaf))
  {
  }

  /** So every run that leaves ids and parents to the store is replayed exactly. */
  lemma DefaultRunReopens(ops: seq<Op>)
    requires DefaultRun(ops)
    ensures Replay(Run(ops).entries) == Run(ops)
  {
    DefaultRunIsOrdered(ops);
    ReopenEqualsLive(ops);
  }

  /** An entry's walk has at most as many steps as there are entries up to it. */
  lemma {:induction false} OrderedEnds(s: Store, i: nat)
    requires Ordered(s) && i < |s.entries|
    ensures Ends(s.byId, Some(s.entries[i].id), i + 1)
    decreases i
  {
    var e := s.entries[i];
    if e.parent.None? {
    } else {
      var j :| 0 <= j < i && s.entries[..i][j].id == e.parent.value;
      OrderedEnds(s, j);
      EndsLater(s.byId, e.parent, j + 1, i);
    }
  }

  /** In such a run every walk ends, and at an entry without a parent. */
  lemma DefaultWalksEnd(ops: seq<Op>)
    requires DefaultRun(ops)
    ensures AllFinite(Run(ops).byId)
    ensures forall path: seq<Line>, from :: IsPath(Run(ops).byId, path, from) && path != [] ==> path[0].parent.None?
  {
    DefaultRunIsOrdered(ops);
    var s := Run(ops);
    forall id ensures Finite(s.byId, Some(id)) {
      if id in s.byId {
        var i :| 0 <= i < |s.entries| && s.entries[i].id == id;
        OrderedEnds(s, i);
      } else {
        assert Ends(s.byId, Some(id), 0);
      }
    }
    forall path: seq<Line>, from | IsPath(s.byId, path, from) && path != [] ensures path[0].parent.None? {
      ParentIsEntry(s, path[0]);
    }
  }

  lemma ParentIsEntry(s: Store, e: Line)
    requires Ordered(s) && e.id in s.byId && s.byId[e.id] == e
    ensures e.parent.Some? ==> e.parent.value in s.byId
  {
    if e.parent.Some? {
      var i :| 0 <= i < |s.entries| && s.entries[i].id == e.id;
      assert HasEntry(s.entries[..i], e.parent.value);
      var j :| 0 <= j < i && s.entries[..i][j].id == e.parent.value;
      assert s.entries[j].id in s.byId;
    }
  }
}
