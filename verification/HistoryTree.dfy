/** The parent-pointer tree refines a model in which every node simply knows its path from the root. */
module HistoryTree {
  import opened Common
  import opened History

  // ---------- Runs of tree operations ----------

  datatype Op =
    | PutUser(id: Id, content: string)
    | PutAssistant(id: Id, content: string, calls: seq<Call>, reasoning: string)
    | PutTool(id: Id, toolName: string, callId: string, content: string)
    | PutSummary(id: Id, content: string)
    | PutModel(id: Id, provider: string, model: string)
    | PutThinking(id: Id, level: string)
    | PutLabel(id: Id, target: Id, name: Option<string>)
    | ForkTo(id: Id, target: Id)
    | Navigate(id: Id, target: Id, summaryId: Id, summary: Option<string>)
    | Compact(id: Id, config: Config, generated: Generated, anchor: string)
    | PruneOutputs(keep: nat, threshold: nat)

  /** A refused fork or compaction leaves the history as the operation left it. */
  function Apply(h: History, op: Op): History {
    match op
    case PutUser(id, content) => AppendUser(h, id, content)
    case PutAssistant(id, content, calls, reasoning) => AppendAssistant(h, id, content, calls, reasoning)
    case PutTool(id, toolName, callId, content) => AppendTool(h, id, toolName, callId, content)
    case PutSummary(id, content) => AppendSummary(h, id, content)
    case PutModel(id, provider, model) => AppendModelChange(h, id, provider, model)
    case PutThinking(id, level) => AppendThinkingChange(h, id, level)
    case PutLabel(id, target, name) => AppendLabel(h, id, target, name)
    case ForkTo(id, target) => var r := Fork(h, id, target); if r.Ok? then r.value else h
    case Navigate(id, target, summaryId, summary) =>
      var r := NavigateTo(h, id, target, summaryId, summary); if r.Ok? then r.value else h
    case Compact(id, c, g, anchor) =>
      var r := CompactBranch(h, c, id, g, anchor); if r.Ok? then r.value else r.error.0
    case PruneOutputs(keep, threshold) =>
      Prune(h, if HasForks(h) then ContextBranch(h) else h.messages, keep, threshold)
  }

  function Nodes(h: History): set<Id> {
    h.index.Keys + EntryIds(h.entries)
  }

  predicate Fresh(h: History, id: Id) {
    id != "" && id !in Nodes(h)
  }

  /** Generated ids are new; without forks compaction is the destructive one, which this run excludes. */
  predicate Possible(h: History, op: Op) {
    && (op.PruneOutputs? || Fresh(h, op.id))
    && (op.Navigate? ==> Fresh(h, op.summaryId) && op.summaryId != op.id)
    && (op.Compact? ==> HasForks(h))
  }

  function Exec(h: History, ops: seq<Op>): History {
    if ops == [] then h else Apply(Exec(h, Front(ops)), Last(ops))
  }

  ghost predicate Feasible(h: History, ops: seq<Op>) {
    ops != [] ==> Feasible(h, Front(ops)) && Possible(Exec(h, Front(ops)), Last(ops))
  }

  // ---------- The path model ----------

  /** Every node's path from the root, and the current node. */
  datatype Paths = Paths(of: map<Id, seq<Id>>, cursor: Option<Id>)

  function PathTo(p: map<Id, seq<Id>>, at: Option<Id>): seq<Id> {
    if at.Some? && at.value in p then p[at.value] else []
  }

  function Hang(p: map<Id, seq<Id>>, parent: Option<Id>, id: Id): map<Id, seq<Id>> {
    p[id := PathTo(p, parent) + [id]]
  }

  function Grow(p: Paths, id: Id): Paths {
    Paths(Hang(p.of, p.cursor, id), Some(id))
  }

  /** What an operation does to the paths; of the history only its refusals matter. */
  function Follow(p: Paths, h: History, op: Op): Paths {
    match op
    case ForkTo(id, target) =>
      if Fork(h, id, target).Err? then p else Paths(Hang(p.of, p.cursor, id), Some(target))
    case Navigate(id, target, summaryId, summary) =>
      if Fork(h, id, target).Err? then p
      else
        var q := Paths(Hang(p.of, p.cursor, id), Some(target));
        if summary.None? || summary.value == "" || p.cursor.None? then q else Grow(q, summaryId)
    case Compact(id, c, g, anchor) =>
      if CompactBranch(h, c, id, g, anchor).Err? then p else p.(of := Hang(p.of, p.cursor, id))
    case PruneOutputs(_, _) => p
    case _ => Grow(p, op.id)
  }

  function Trace(h: History, p: Paths, ops: seq<Op>): Paths {
    if ops == [] then p else Follow(Trace(h, p, Front(ops)), Exec(h, Front(ops)), Last(ops))
  }

  /** The messages among the nodes of a path, in path order. */
  function Along(index: map<Id, Message>, path: seq<Id>): seq<Message> {
    if path == [] then []
    else Along(index, Front(path)) + if Last(path) in index then [index[Last(path)]] else []
  }

  // ---------- Representation ----------

  /** A node's path is its parent's path and itself; the parent is a node. */
  ghost predicate Placed(p: map<Id, seq<Id>>, id: Id, parent: Option<Id>) {
    && id in p && (parent.Some? ==> parent.value in p)
    && p[id] == PathTo(p, parent) + [id]
  }

  /** Paths have no repetition and every first part of a path is the path of its last node. */
  ghost predicate Closed(p: map<Id, seq<Id>>) {
    forall id :: id in p ==>
      && id != "" && Distinct(p[id]) && p[id] != [] && Last(p[id]) == id
      && forall k :: 0 <= k < |p[id]| ==> p[id][k] in p && p[p[id][k]] == p[id][..k + 1]
  }

  ghost predicate MessagesPlaced(index: map<Id, Message>, p: map<Id, seq<Id>>) {
    forall id :: id in index ==> index[id].id == id && Placed(p, id, index[id].parent)
  }

  ghost predicate EntriesPlaced(entries: seq<Entry>, p: map<Id, seq<Id>>) {
    forall i :: 0 <= i < |entries| ==> Placed(p, entries[i].id, entries[i].parent)
  }

  ghost predicate Links(h: History, p: map<Id, seq<Id>>) {
    p.Keys == Nodes(h) && MessagesPlaced(h.index, p) && EntriesPlaced(h.entries, p)
  }

  /** The list and the index hold the same messages, each once. */
  ghost predicate Listed(h: History) {
    && (forall i :: 0 <= i < |h.messages| ==> h.messages[i].id in h.index && h.index[h.messages[i].id] == h.messages[i])
    && (forall i, j :: 0 <= i < j < |h.messages| ==> h.messages[i].id != h.messages[j].id)
    && h.index.Keys <= Ids(h.messages)
  }

  ghost predicate Rep(h: History, p: Paths) {
    && Listed(h) && Links(h, p.of) && Closed(p.of)
    && h.cursor == p.cursor
    && (h.cursor.Some? ==> h.cursor.value in p.of)
    && (h.cursor.None? ==> Nodes(h) == {})
  }

  // ---------- The walk reads off the path ----------

  lemma {:induction false} AlongConcat(index: map<Id, Message>, a: seq<Id>, b: seq<Id>)
    ensures Along(index, a + b) == Along(index, a) + Along(index, b)
    decreases |b|
  {
    if b == [] {
      assert a + b == a;
    } else {
      assert Front(a + b) == a + Front(b) && Last(a + b) == Last(b);
      AlongConcat(index, a, Front(b));
    }
  }

  lemma EntryIdsHold(entries: seq<Entry>, id: Id)
    ensures id in EntryIds(entries) <==> FindEntry(entries, id).Some?
  {
    if FindEntry(entries, id).Some? {
      assert entries[FindEntry(entries, id).value].id == id;
    }
  }

  /** The parent link a node stores, as a message or as an entry. */
  function ParentOf(h: History, id: Id): Option<Id> {
    if id in h.index then h.index[id].parent
    else if FindEntry(h.entries, id).Some? then h.entries[FindEntry(h.entries, id).value].parent
    else None
  }

  lemma NodeIsPlaced(h: History, p: map<Id, seq<Id>>, id: Id)
    requires Links(h, p) && Closed(p) && id in p
    ensures Placed(p, id, ParentOf(h, id)) && Distinct(p[id])
    ensures id !in h.index ==> FindEntry(h.entries, id).Some?
  {
    EntryIdsHold(h.entries, id);
    assert id in Nodes(h);
  }

  lemma {:induction false} WalkIsPath(h: History, p: map<Id, seq<Id>>, at: Option<Id>, seen: set<Id>)
    requires Links(h, p) && Closed(p)
    requires at.Some? ==> at.value in p
    requires forall k :: 0 <= k < |PathTo(p, at)| ==> PathTo(p, at)[k] !in seen
    ensures Walk(h, at, seen) == Along(h.index, PathTo(p, at))
    decreases |PathTo(p, at)|
  {
    hide Links, Closed;
    if at.None? {
    } else {
      var id := at.value;
      var parent := ParentOf(h, id);
      NodeIsPlaced(h, p, id);
      var up := PathTo(p, parent);
      assert p[id][|up|] == id;
      forall k | 0 <= k < |up| ensures up[k] !in seen + {id} {
        assert PathTo(p, at)[k] !in seen;
        assert p[id][k] == up[k] && p[id][k] != p[id][|up|];
      }
      WalkIsPath(h, p, parent, seen + {id});
      assert Front(up + [id]) == up && Last(up + [id]) == id;
    }
  }

  lemma MessagesAreNodes(h: History)
    requires Listed(h)
    ensures h.messages != [] ==> Nodes(h) != {}
  {
    if h.messages != [] {
      assert h.messages[0].id in h.index.Keys;
      assert h.messages[0].id in Nodes(h);
    }
  }

  /** The current branch is exactly the messages on the root-to-cursor path. */
  lemma BranchIsPath(h: History, p: Paths)
    requires Rep(h, p)
    ensures CurrentBranch(h) == Along(h.index, PathTo(p.of, p.cursor))
  {
    hide Links, Listed;
    if h.cursor.Some? {
      assert h.cursor.value != "";
      WalkIsPath(h, p.of, h.cursor, {});
    } else {
      MessagesAreNodes(h);
    }
  }

  // ---------- Every operation keeps the representation ----------

  lemma HangKeepsClosed(p: map<Id, seq<Id>>, parent: Option<Id>, id: Id)
    requires Closed(p) && id !in p && id != "" && (parent.Some? ==> parent.value in p)
    ensures Closed(Hang(p, parent, id))
  {
    var up := PathTo(p, parent);
    var q := Hang(p, parent, id);
    forall k | 0 <= k < |up| ensures up[k] in p && up[k] != id && p[up[k]] == up[..k + 1] {}
    forall k | 0 <= k < |q[id]| ensures q[id][k] in q && q[q[id][k]] == q[id][..k + 1] {
      if k < |up| {
        assert (up + [id])[..k + 1] == up[..k + 1];
      } else {
        assert (up + [id])[..k + 1] == up + [id];
      }
    }
    forall x | x in q && x != id
      ensures q[x] == p[x] && forall k :: 0 <= k < |q[x]| ==> q[x][k] in q && q[q[x][k]] == q[x][..k + 1]
    {
      forall k | 0 <= k < |p[x]| ensures p[x][k] != id && p[p[x][k]] == p[x][..k + 1] {}
    }
  }

  lemma HangKeepsPlaced(p: map<Id, seq<Id>>, parent: Option<Id>, id: Id, x: Id, up: Option<Id>)
    requires Placed(p, x, up) && id !in p
    ensures Placed(Hang(p, parent, id), x, up)
  {
  }

  lemma HangPlaces(p: map<Id, seq<Id>>, parent: Option<Id>, id: Id)
    requires id !in p && (parent.Some? ==> parent.value in p)
    ensures Placed(Hang(p, parent, id), id, parent)
  {
  }

  lemma EntryIdsGrow(entries: seq<Entry>, e: Entry)
    ensures EntryIds(entries + [e]) == EntryIds(entries) + {e.id}
  {
    var both := entries + [e];
    forall id | id in EntryIds(entries) + {e.id} ensures id in EntryIds(both) {
      if id == e.id {
        assert both[|entries|].id == id;
      } else {
        var i :| 0 <= i < |entries| && entries[i].id == id;
        assert both[i].id == id;
      }
    }
  }

  /** Links to the old nodes hold with one more node hung somewhere. */
  lemma HangKeepsLinks(index: map<Id, Message>, entries: seq<Entry>, p: map<Id, seq<Id>>, parent: Option<Id>, id: Id)
    requires MessagesPlaced(index, p) && EntriesPlaced(entries, p) && id !in p
    ensures MessagesPlaced(index, Hang(p, parent, id)) && EntriesPlaced(entries, Hang(p, parent, id))
  {
    hide Placed, Hang;
    forall x | x in index ensures Placed(Hang(p, parent, id), x, index[x].parent) {
      HangKeepsPlaced(p, parent, id, x, index[x].parent);
    }
    forall i | 0 <= i < |entries| ensures Placed(Hang(p, parent, id), entries[i].id, entries[i].parent) {
      HangKeepsPlaced(p, parent, id, entries[i].id, entries[i].parent);
    }
  }

  lemma HangKeys(p: map<Id, seq<Id>>, parent: Option<Id>, id: Id)
    ensures Hang(p, parent, id).Keys == p.Keys + {id}
  {
  }

  lemma AddMessageKeepsLinks(h: History, p: map<Id, seq<Id>>, m: Message)
    requires Links(h, p) && Closed(p) && Fresh(h, m.id) && (m.parent.Some? ==> m.parent.value in p)
    ensures Links(AddMessage(h, m), Hang(p, m.parent, m.id)) && Closed(Hang(p, m.parent, m.id))
  {
    hide Closed, Placed, Hang, EntryIds;
    HangKeepsClosed(p, m.parent, m.id);
    HangPlaces(p, m.parent, m.id);
    HangKeepsLinks(h.index, h.entries, p, m.parent, m.id);
    HangKeys(p, m.parent, m.id);
    assert Nodes(AddMessage(h, m)) == Nodes(h) + {m.id};
  }

  /** A message hung below a node. */
  lemma AddMessageKeeps(h: History, p: map<Id, seq<Id>>, m: Message)
    requires Listed(h) && Links(h, p) && Closed(p) && Fresh(h, m.id) && (m.parent.Some? ==> m.parent.value in p)
    ensures var g := AddMessage(h, m);
            Listed(g) && Links(g, Hang(p, m.parent, m.id)) && Closed(Hang(p, m.parent, m.id))
  {
    hide Listed, Closed, Links, Hang, EntryIds;
    AddMessageKeepsLinks(h, p, m);
    AddMessageKeepsListed(h, m);
  }

  lemma IdsGrow(ms: seq<Message>, m: Message)
    ensures Ids(ms + [m]) == Ids(ms) + {m.id}
  {
    var both := ms + [m];
    forall id | id in Ids(ms) + {m.id} ensures id in Ids(both) {
      if id == m.id {
        assert both[|ms|].id == id;
      } else {
        var i :| 0 <= i < |ms| && ms[i].id == id;
        assert both[i].id == id;
      }
    }
  }

  lemma AddMessageKeepsListed(h: History, m: Message)
    requires Listed(h) && m.id !in h.index
    ensures Listed(AddMessage(h, m))
  {
    IdsGrow(h.messages, m);
    hide Ids;
  }

  lemma EntryAddsNode(h: History, g: History, e: Entry)
    requires g.index == h.index && g.entries == h.entries + [e]
    ensures Nodes(g) == Nodes(h) + {e.id}
  {
    hide EntryIds;
    EntryIdsGrow(h.entries, e);
  }

  lemma EntryKeepsLinks(h: History, p: map<Id, seq<Id>>, g: History, e: Entry)
    requires Links(h, p) && e.id !in p && (e.parent.Some? ==> e.parent.value in p)
    requires g.index == h.index && g.entries == h.entries + [e]
    ensures Links(g, Hang(p, e.parent, e.id))
  {
    HangKeepsLinks(h.index, h.entries, p, e.parent, e.id);
    HangPlaces(p, e.parent, e.id);
    HangKeys(p, e.parent, e.id);
    EntryAddsNode(h, g, e);
    hide Placed, Hang, Nodes, MessagesPlaced, EntriesPlaced;
    OneMorePlaced(h.entries, Hang(p, e.parent, e.id), e);
  }

  lemma OneMorePlaced(entries: seq<Entry>, p: map<Id, seq<Id>>, e: Entry)
    requires EntriesPlaced(entries, p) && Placed(p, e.id, e.parent)
    ensures EntriesPlaced(entries + [e], p)
  {
    hide Placed;
  }

  /** An entry hung below a node, whatever becomes of cursor and labels. */
  lemma AddEntryKeeps(h: History, p: map<Id, seq<Id>>, g: History, e: Entry)
    requires Listed(h) && Links(h, p) && Closed(p) && Fresh(h, e.id) && (e.parent.Some? ==> e.parent.value in p)
    requires g.messages == h.messages && g.index == h.index && g.entries == h.entries + [e]
    ensures Listed(g) && Links(g, Hang(p, e.parent, e.id)) && Closed(Hang(p, e.parent, e.id))
    ensures Nodes(g) == Nodes(h) + {e.id}
  {
    LinkedNodes(h, p);
    hide Listed, Closed, Links, Hang, Nodes;
    SameListed(h, g);
    HangKeepsClosed(p, e.parent, e.id);
    EntryKeepsLinks(h, p, g, e);
    EntryAddsNode(h, g, e);
  }

  lemma SameListed(h: History, g: History)
    requires Listed(h) && g.messages == h.messages && g.index == h.index
    ensures Listed(g)
  {
  }

  /** A branch summary is the same node twice: once as an entry, once as a message. */
  lemma AddSummaryKeeps(h: History, p: map<Id, seq<Id>>, m: Message, kind: Kind, g: History)
    requires Listed(h) && Links(h, p) && Closed(p) && Fresh(h, m.id) && (m.parent.Some? ==> m.parent.value in p)
    requires g == h.(entries := h.entries + [Entry(m.id, m.parent, kind)], messages := h.messages + [m],
                     index := h.index[m.id := m], cursor := Some(m.id))
    ensures Listed(g) && Links(g, Hang(p, m.parent, m.id)) && Closed(Hang(p, m.parent, m.id))
  {
    hide Listed, Closed, Links, Hang, Nodes, Placed;
    var a, q, e := AddMessage(h, m), Hang(p, m.parent, m.id), Entry(m.id, m.parent, kind);
    LinkedNodes(h, p);
    AddMessageKeeps(h, p, m);
    HangPlaces(p, m.parent, m.id);
    SameListed(a, g);
    SameNodeTwice(a, q, g, e);
  }

  lemma SameNodeTwice(a: History, q: map<Id, seq<Id>>, g: History, e: Entry)
    requires Links(a, q) && Placed(q, e.id, e.parent) && e.id in a.index
    requires g.index == a.index && g.entries == a.entries + [e]
    ensures Links(g, q)
  {
    hide Placed, MessagesPlaced, EntriesPlaced, EntryIds;
    OneMorePlaced(a.entries, q, e);
    EntryIdsGrow(a.entries, e);
    assert Nodes(g) == Nodes(a);
  }

  /** What pruning leaves alone: ids, parents, roles, order and the index's agreement with the list. */
  lemma PruneIs(h: History, context: seq<Message>, keep: nat, threshold: nat)
    ensures var g, ids := Prune(h, context, keep, threshold), Victims(context, keep, threshold);
            && g == h.(messages := g.messages, index := g.index)
            && |g.messages| == |h.messages| && g.index.Keys == h.index.Keys
            && (forall i :: 0 <= i < |h.messages| ==>
                  && g.messages[i] == (if h.messages[i].id in ids then Pruned(h.messages[i]) else h.messages[i])
                  && g.messages[i].id == h.messages[i].id)
            && (forall id :: id in h.index ==>
                  && g.index[id] == (if h.index[id].id in ids then Pruned(h.index[id]) else h.index[id])
                  && g.index[id].id == h.index[id].id && g.index[id].parent == h.index[id].parent)
  {
    hide Victims;
  }

  lemma PruneKeepsListed(h: History, context: seq<Message>, keep: nat, threshold: nat)
    requires Listed(h)
    ensures Listed(Prune(h, context, keep, threshold))
  {
    PruneIs(h, context, keep, threshold);
    hide Victims, Pruned, Prune;
    var g := Prune(h, context, keep, threshold);
    forall i | 0 <= i < |g.messages| ensures g.messages[i].id in g.index && g.index[g.messages[i].id] == g.messages[i] {
      assert h.index[h.messages[i].id] == h.messages[i];
    }
    forall id | id in g.index ensures id in Ids(g.messages) {
      var i :| 0 <= i < |h.messages| && h.messages[i].id == id;
      assert g.messages[i].id == id;
    }
  }

  lemma PruneKeepsLinks(h: History, p: map<Id, seq<Id>>, context: seq<Message>, keep: nat, threshold: nat)
    requires Links(h, p)
    ensures Links(Prune(h, context, keep, threshold), p)
  {
    PruneIs(h, context, keep, threshold);
    hide Victims, Pruned, Prune, Placed, EntryIds, EntriesPlaced;
    var g := Prune(h, context, keep, threshold);
    assert Nodes(g) == Nodes(h);
    forall id | id in g.index ensures g.index[id].id == id && Placed(p, id, g.index[id].parent) {
      assert Placed(p, id, h.index[id].parent);
    }
  }

  lemma PruneKeepsRep(h: History, p: Paths, context: seq<Message>, keep: nat, threshold: nat)
    requires Rep(h, p)
    ensures Rep(Prune(h, context, keep, threshold), p)
  {
    PruneIs(h, context, keep, threshold);
    PruneKeepsListed(h, context, keep, threshold);
    PruneKeepsLinks(h, p.of, context, keep, threshold);
    hide Victims, Pruned, Listed, Links, Closed, Prune, EntryIds;
    assert Nodes(Prune(h, context, keep, threshold)) == Nodes(h);
  }

  lemma NavigateKeepsRep(h: History, p: Paths, op: Op)
    requires Rep(h, p) && op.Navigate? && Possible(h, op)
    ensures Rep(Apply(h, op), Follow(p, h, op))
  {
    hide Listed, Links, Closed, Hang;
    if Fork(h, op.id, op.target).Ok? {
      var f := Fork(h, op.id, op.target).value;
      AddEntryKeeps(h, p.of, f, Entry(op.id, h.cursor, Leaf(op.target)));
      var q := Hang(p.of, p.cursor, op.id);
      LinkedNodes(h, p.of);
      LinkedNodes(f, q);
      if op.summary.Some? && op.summary.value != "" && h.cursor.Some? {
        var m := Message(op.summaryId, Some(op.target), Summary, op.summary.value, PLAIN);
        AddSummaryKeeps(f, q, m, BranchSummary(op.summary.value, h.cursor), Apply(h, op));
        LinkedNodes(Apply(h, op), Hang(q, Some(op.target), op.summaryId));
      }
    }
  }

  lemma LinkedNodes(h: History, p: map<Id, seq<Id>>)
    requires Links(h, p)
    ensures forall id :: id in p <==> id in Nodes(h)
    ensures forall id :: id in h.index ==> id in p
  {
  }

  lemma StepKeepsRep(h: History, p: Paths, op: Op)
    requires Rep(h, p) && Possible(h, op)
    ensures Rep(Apply(h, op), Follow(p, h, op))
  {
    hide Listed, Links, Closed, CompactBranch, AssistantMessage;
    LinkedNodes(h, p.of);
    match op
    case PutUser(id, content) =>
      FailuresOnly(h, h.(failures := 0), p.of);
      AddMessageKeeps(h.(failures := 0), p.of, Message(id, h.cursor, User, content, PLAIN));
    case PutAssistant(id, content, calls, reasoning) =>
      AssistantIs(h, id, content, calls, reasoning);
      AddMessageKeeps(h, p.of, AssistantMessage(h, id, content, calls, reasoning));
    case PutTool(id, toolName, callId, content) =>
      AddMessageKeeps(h, p.of, Message(id, h.cursor, Tool, content, PLAIN.(callId := callId, toolName := toolName)));
    case PutSummary(id, content) => AddMessageKeeps(h, p.of, Message(id, h.cursor, Summary, content, PLAIN));
    case PutModel(id, provider, model) =>
      AddEntryKeeps(h, p.of, Apply(h, op), Entry(id, h.cursor, ModelChange(provider, model)));
    case PutThinking(id, level) => AddEntryKeeps(h, p.of, Apply(h, op), Entry(id, h.cursor, ThinkingChange(level)));
    case PutLabel(id, target, name) => AddEntryKeeps(h, p.of, Apply(h, op), Entry(id, h.cursor, Label(target, name)));
    case ForkTo(id, target) =>
      if target in h.index {
        AddEntryKeeps(h, p.of, Apply(h, op), Entry(id, h.cursor, Leaf(target)));
      }
    case Navigate(_, _, _, _) => NavigateKeepsRep(h, p, op);
    case Compact(id, c, g, anchor) => CompactKeepsRep(h, p, op);
    case PruneOutputs(keep, threshold) =>
      PruneKeepsRep(h, p, if HasForks(h) then ContextBranch(h) else h.messages, keep, threshold);
  }

  lemma AssistantIs(h: History, id: Id, content: string, calls: seq<Call>, reasoning: string)
    ensures var m := AssistantMessage(h, id, content, calls, reasoning);
            m.id == id && m.parent == h.cursor && m.role == Assistant && m.meta.calls == calls
  {
  }

  /** All a branch compaction adds is one entry below the cursor; a refused one adds nothing. */
  lemma CompactAdds(h: History, c: Config, id: Id, g: Generated, anchor: string)
    ensures var r := CompactBranch(h, c, id, g, anchor);
            && (r.Err? ==> r.error.0 == h.(failures := r.error.0.failures))
            && (r.Ok? ==>
                  && |r.value.entries| == |h.entries| + 1
                  && Last(r.value.entries).id == id && Last(r.value.entries).parent == h.cursor
                  && Last(r.value.entries).kind.Compaction? && Last(r.value.entries).kind.branchScoped
                  && r.value == h.(entries := h.entries + [Last(r.value.entries)], failures := 0))
  {
  }

  lemma ForksAreNodes(h: History)
    requires HasForks(h)
    ensures Nodes(h) != {}
  {
    var i :| 0 <= i < |h.entries| && h.entries[i].kind.Leaf?;
    assert h.entries[i].id in Nodes(h);
  }

  lemma CompactKeepsRep(h: History, p: Paths, op: Op)
    requires Rep(h, p) && op.Compact? && Possible(h, op)
    ensures Rep(Apply(h, op), Follow(p, h, op))
  {
    ForksAreNodes(h);
    hide Listed, Links, Closed, CompactBranch, HasForks, Hang, Nodes;
    CompactAdds(h, op.config, op.id, op.generated, op.anchor);
    var r := CompactBranch(h, op.config, op.id, op.generated, op.anchor);
    if r.Ok? {
      AddEntryKeeps(h, p.of, r.value, Last(r.value.entries));
      HangKeys(p.of, p.cursor, op.id);
    } else {
      FailuresOnly(h, r.error.0, p.of);
    }
  }

  lemma FailuresOnly(h: History, g: History, p: map<Id, seq<Id>>)
    requires Listed(h) && Links(h, p) && g == h.(failures := g.failures)
    ensures Listed(g) && Links(g, p) && Nodes(g) == Nodes(h)
  {
  }

  const ROOT := Paths(map[], None)

  lemma {:induction false} RunKeepsRep(ops: seq<Op>)
    requires Feasible(NEW, ops)
    ensures Rep(Exec(NEW, ops), Trace(NEW, ROOT, ops))
  {
    if ops == [] {
      assert Nodes(NEW) == {};
    } else {
      RunKeepsRep(Front(ops));
      StepKeepsRep(Exec(NEW, Front(ops)), Trace(NEW, ROOT, Front(ops)), Last(ops));
    }
  }

  // ---------- The theorems ----------

  /** In every run the walk returns the messages of the root-to-cursor path, in order. */
  lemma BranchRefinesPaths(ops: seq<Op>)
    requires Feasible(NEW, ops)
    ensures var h, p := Exec(NEW, ops), Trace(NEW, ROOT, ops);
            CurrentBranch(h) == Along(h.index, PathTo(p.of, p.cursor))
  {
    RunKeepsRep(ops);
    BranchIsPath(Exec(NEW, ops), Trace(NEW, ROOT, ops));
  }

  lemma {:induction false} AlongMembers(index: map<Id, Message>, path: seq<Id>, i: nat)
    requires i < |Along(index, path)|
    ensures exists k :: 0 <= k < |path| && path[k] in index && index[path[k]] == Along(index, path)[i]
  {
    if i < |Along(index, Front(path))| {
      AlongMembers(index, Front(path), i);
      var k :| 0 <= k < |Front(path)| && Front(path)[k] in index
             && index[Front(path)[k]] == Along(index, Front(path))[i];
      assert path[k] == Front(path)[k];
    } else {
      assert path[|path| - 1] == Last(path);
    }
  }

  /**
   A message on the current branch is an ancestor of the cursor: its own path begins the cursor's.
   So nothing appended on a branch that was left can appear.
   */
  lemma NoAbandonedSibling(ops: seq<Op>, i: nat)
    requires Feasible(NEW, ops) && i < |CurrentBranch(Exec(NEW, ops))|
    ensures var h, p := Exec(NEW, ops), Trace(NEW, ROOT, ops);
            var m := CurrentBranch(h)[i];
            m.id in h.index && h.index[m.id] == m && m.id in p.of && p.of[m.id] <= PathTo(p.of, p.cursor)
  {
    RunKeepsRep(ops);
    var h, p := Exec(NEW, ops), Trace(NEW, ROOT, ops);
    BranchIsPath(h, p);
    var path := PathTo(p.of, p.cursor);
    AlongMembers(h.index, path, i);
    var k :| 0 <= k < |path| && path[k] in h.index && h.index[path[k]] == CurrentBranch(h)[i];
    assert p.of[path[k]] == path[..k + 1];
  }

  /** Appending after a fork continues the branch as it was at the fork's target. */
  lemma ForkThenAppend(h: History, p: Paths, leafId: Id, target: Id, id: Id, content: string)
    requires Rep(h, p) && target in h.index && Fresh(h, leafId) && Fresh(h, id) && id != leafId
    ensures var f := Apply(h, ForkTo(leafId, target));
            var g := Apply(f, PutUser(id, content));
            && CurrentBranch(f) == Along(h.index, p.of[target])
            && CurrentBranch(g) == Along(h.index, p.of[target]) + [Message(id, Some(target), User, content, PLAIN)]
  {
    hide Rep, Nodes, CompactBranch, Prune, NavigateTo, AddMessage, AssistantMessage, HasForks, Along, CurrentBranch;
    var fork, put := ForkTo(leafId, target), PutUser(id, content);
    var f, q := Apply(h, fork), Follow(p, h, fork);
    ForkIs(h, p, leafId, target);
    StepKeepsRep(h, p, fork);
    EntryAddsNode(h, f, Entry(leafId, h.cursor, Leaf(target)));
    hide Apply, Follow, PathTo;
    BranchIsPath(f, q);
    StepKeepsRep(f, q, put);
    PutOnPath(f, q, put, h.index, p.of[target]);
  }

  lemma ForkIs(h: History, p: Paths, leafId: Id, target: Id)
    requires Rep(h, p) && target in h.index && Fresh(h, leafId)
    ensures var f, q := Apply(h, ForkTo(leafId, target)), Follow(p, h, ForkTo(leafId, target));
            && f.index == h.index && target in p.of && leafId !in p.of && PathTo(q.of, q.cursor) == p.of[target]
            && f.entries == h.entries + [Entry(leafId, h.cursor, Leaf(target))] && f.cursor == Some(target)
  {
    hide Listed, Links, Closed, CompactBranch, Prune, NavigateTo, AddMessage, AssistantMessage, HasForks, EntryIds;
    LinkedNodes(h, p.of);
  }

  lemma PutOnPath(f: History, q: Paths, put: Op, index: map<Id, Message>, up: seq<Id>)
    requires Rep(f, q) && put.PutUser? && Possible(f, put) && f.index == index
    requires PathTo(q.of, q.cursor) == up && Rep(Apply(f, put), Follow(q, f, put))
    ensures CurrentBranch(Apply(f, put)) == Along(index, up) + [Message(put.id, f.cursor, User, put.content, PLAIN)]
  {
    var g, r := Apply(f, put), Follow(q, f, put);
    hide CompactBranch, Prune, NavigateTo, AssistantMessage, HasForks, CurrentBranch;
    hide Listed, EntryIds, MessagesPlaced, EntriesPlaced;
    BranchIsPath(g, r);
    PathsAvoidFresh(f, q, put.id);
    hide Rep;
    assert PathTo(r.of, r.cursor) == up + [put.id];
    AlongSame(f.index, g.index, up);
    assert Front(up + [put.id]) == up && Last(up + [put.id]) == put.id;
  }

  lemma PathsAvoidFresh(h: History, p: Paths, id: Id)
    requires Rep(h, p) && Fresh(h, id)
    ensures id !in p.of && id !in PathTo(p.of, p.cursor)
  {
    hide Listed, Placed, EntryIds;
    var up := PathTo(p.of, p.cursor);
    forall k | 0 <= k < |up| ensures up[k] in p.of {}
  }

  lemma {:induction false} AlongSame(a: map<Id, Message>, b: map<Id, Message>, path: seq<Id>)
    requires forall k :: 0 <= k < |path| ==>
        (path[k] in a <==> path[k] in b) && (path[k] in a ==> a[path[k]] == b[path[k]])
    ensures Along(a, path) == Along(b, path)
  {
    if path == [] {
    } else {
      AlongSame(a, b, Front(path));
    }
  }
}
