/**
 Runs of one agent without forks: requests, answers, tool turns, metadata, pruning and destructive
 compaction. The message list is compacted; the tree below it, and what walking it gives, is not.
 */
module HistoryLinear {
  import opened Common
  import opened History
  import opened HistoryTree
  import opened HistoryOverlay
  import opened HistoryWire

  // ---------- Runs ----------

  datatype Event =
    | Request(id: Id, content: string)
    | Final(id: Id, content: string, reasoning: string)
    /** An assistant message that calls tools and, in call order, one result each. */
    | Turn(id: Id, content: string, reasoning: string, calls: seq<Call>, resultIds: seq<Id>, outputs: seq<string>)
    | ModelChanged(id: Id, provider: string, model: string)
    | ThinkingChanged(id: Id, level: string)
    | Labelled(id: Id, target: Id, name: Option<string>)
    | Compacted(config: Config, summaryId: Id, id: Id, generated: Generated, digest: string, anchor: string,
                goal: string)
    | Pruning(keep: nat, threshold: nat)

  function NameOf(c: Call): string {
    if c.name == "" then "unknown_tool" else c.name
  }

  /** The history after the first `n` results of a turn. */
  function AddResults(h: History, calls: seq<Call>, ids: seq<Id>, outputs: seq<string>, n: nat): History
    requires n <= |calls| && n <= |ids| && n <= |outputs|
  {
    if n == 0 then h
    else AppendTool(AddResults(h, calls, ids, outputs, n - 1), ids[n - 1], NameOf(calls[n - 1]), calls[n - 1].id,
                    outputs[n - 1])
  }

  function AddTurn(h: History, e: Event): History
    requires e.Turn? && |e.resultIds| == |e.outputs| == |e.calls|
  {
    AddResults(AppendAssistant(h, e.id, e.content, e.calls, e.reasoning), e.calls, e.resultIds, e.outputs, |e.calls|)
  }

  function After(h: History, e: Event): History {
    match e
    case Request(id, content) => AppendUser(h, id, content)
    case Final(id, content, reasoning) => AppendAssistant(h, id, content, [], reasoning)
    case Turn(_, _, _, calls, ids, outputs) => if |ids| == |outputs| == |calls| then AddTurn(h, e) else h
    case ModelChanged(id, provider, model) => AppendModelChange(h, id, provider, model)
    case ThinkingChanged(id, level) => AppendThinkingChange(h, id, level)
    case Labelled(id, target, name) => AppendLabel(h, id, target, name)
    case Compacted(c, summaryId, id, g, digest, anchor, goal) =>
      var r := CompactLinear(h, c, summaryId, id, g, digest, anchor, goal); if r.Ok? then r.value else r.error.0
    case Pruning(keep, threshold) => Prune(h, h.messages, keep, threshold)
  }

  /** Generated ids are new, and every announced call has an id and one result. */
  ghost predicate Fits(h: History, e: Event) {
    match e
    case Turn(id, _, _, calls, ids, outputs) =>
      && Fresh(h, id) && |ids| == |outputs| == |calls| && Distinct(ids)
      && (forall i :: 0 <= i < |calls| ==> calls[i].id != "" && Fresh(h, ids[i]) && ids[i] != id)
    case Pruning(_, _) => true
    case _ => Fresh(h, e.id)
  }

  /** An event is an operation on the tree, or for a turn several: the assistant message, then its results in order. */
  lemma EventIsOperation(h: History, e: Event)
    ensures match e
            case Request(id, content) => After(h, e) == Apply(h, PutUser(id, content))
            case Final(id, content, reasoning) => After(h, e) == Apply(h, PutAssistant(id, content, [], reasoning))
            case ModelChanged(id, provider, model) => After(h, e) == Apply(h, PutModel(id, provider, model))
            case ThinkingChanged(id, level) => After(h, e) == Apply(h, PutThinking(id, level))
            case Labelled(id, target, name) => After(h, e) == Apply(h, PutLabel(id, target, name))
            case Pruning(keep, threshold) => !HasForks(h) ==> After(h, e) == Apply(h, PruneOutputs(keep, threshold))
            case Compacted(_, _, _, _, _, _, _) => true
            case Turn(id, content, reasoning, calls, ids, outputs) =>
              |ids| == |outputs| == |calls| ==>
                After(h, e) == Exec(Apply(h, PutAssistant(id, content, calls, reasoning)), ResultOps(e, |calls|))
  {
    if e.Turn? && |e.resultIds| == |e.outputs| == |e.calls| {
      ResultsAreOperations(AppendAssistant(h, e.id, e.content, e.calls, e.reasoning), e, |e.calls|);
    }
  }

  /** The first `n` results of a turn as operations. */
  function ResultOps(e: Event, n: nat): seq<Op>
    requires e.Turn? && n <= |e.resultIds| == |e.outputs| == |e.calls|
  {
    seq(n, i requires 0 <= i < n =>
      PutTool(e.resultIds[i], if e.calls[i].name == "" then "unknown_tool" else e.calls[i].name, e.calls[i].id,
              e.outputs[i]))
  }

  lemma {:induction false} ResultsAreOperations(h: History, e: Event, n: nat)
    requires e.Turn? && n <= |e.resultIds| == |e.outputs| == |e.calls|
    ensures AddResults(h, e.calls, e.resultIds, e.outputs, n) == Exec(h, ResultOps(e, n))
    decreases n
  {
    hide AppendTool;
    if n == 0 {
    } else {
      ResultsAreOperations(h, e, n - 1);
      assert Front(ResultOps(e, n)) == ResultOps(e, n - 1);
    }
  }

  function Run(events: seq<Event>): History {
    if events == [] then NEW else After(Run(Front(events)), Last(events))
  }

  ghost predicate Runs(events: seq<Event>) {
    events != [] ==> Runs(Front(events)) && Fits(Run(Front(events)), Last(events))
  }

  // ---------- The message list and the tree ----------

  /** All messages on the path to the cursor. */
  function Full(h: History, p: Paths): seq<Message> {
    Along(h.index, PathTo(p.of, p.cursor))
  }

  /** One summary in front of what follows a user message. */
  ghost predicate CutAt(ms: seq<Message>, full: seq<Message>, k: nat) {
    0 < k < |full| && full[k].role == User && ms != [] && ms[0].role == Summary && ms[1..] == full[k..]
  }

  ghost predicate Shape(ms: seq<Message>, full: seq<Message>) {
    ms == full || exists k: nat :: CutAt(ms, full, k)
  }

  ghost predicate ForkFree(entries: seq<Entry>) {
    forall i :: 0 <= i < |entries| ==>
      !entries[i].kind.Leaf? && (entries[i].kind.Compaction? ==> !entries[i].kind.branchScoped)
  }

  ghost predicate Tree(h: History, p: Paths) {
    && Links(h, p.of) && Closed(p.of) && h.cursor == p.cursor
    && (h.cursor.Some? ==> h.cursor.value in p.of)
    && (h.cursor.None? ==> h.messages == [])
  }

  ghost predicate Base(h: History, p: Paths) {
    Tree(h, p) && Shape(h.messages, Full(h, p)) && ForkFree(h.entries)
  }

  lemma TreeBranch(h: History, p: Paths)
    requires Tree(h, p)
    ensures CurrentBranch(h) == Full(h, p)
  {
    hide Links;
    if h.cursor.Some? {
      assert h.cursor.value != "";
      WalkIsPath(h, p.of, h.cursor, {});
    }
  }

  lemma AvoidsFresh(h: History, p: Paths, id: Id)
    requires Tree(h, p) && Fresh(h, id)
    ensures id !in p.of && id !in PathTo(p.of, p.cursor)
  {
    hide MessagesPlaced, EntriesPlaced, EntryIds;
    var up := PathTo(p.of, p.cursor);
    forall k | 0 <= k < |up| ensures up[k] in p.of {}
  }

  lemma GrownPath(p: Paths, id: Id)
    ensures var q := Grow(p, id);
            && q.cursor == Some(id) && q.of == Hang(p.of, p.cursor, id) && id in q.of
            && PathTo(q.of, q.cursor) == PathTo(p.of, p.cursor) + [id]
  {
  }

  lemma AlongMessage(index: map<Id, Message>, up: seq<Id>, m: Message)
    requires m.id !in up
    ensures Along(index[m.id := m], up + [m.id]) == Along(index, up) + [m]
  {
    AlongSame(index, index[m.id := m], up);
    assert Front(up + [m.id]) == up && Last(up + [m.id]) == m.id;
  }

  lemma TreeNodes(h: History, p: Paths)
    requires Tree(h, p)
    ensures h.cursor == p.cursor && (h.cursor.Some? ==> h.cursor.value in p.of)
    ensures Links(h, p.of) && Closed(p.of)
  {
  }

  lemma MessageGrowsTree(h: History, p: Paths, m: Message)
    requires Tree(h, p) && Fresh(h, m.id) && m.parent == h.cursor
    ensures Tree(AddMessage(h, m), Grow(p, m.id))
    ensures Full(AddMessage(h, m), Grow(p, m.id)) == Full(h, p) + [m]
  {
    TreeNodes(h, p);
    AvoidsFresh(h, p, m.id);
    hide Links, Closed, Fresh, Grow, Along, PathTo;
    AddMessageKeepsLinks(h, p.of, m);
    GrownPath(p, m.id);
    AlongMessage(h.index, PathTo(p.of, p.cursor), m);
  }

  lemma EntryGrowsTree(h: History, p: Paths, g: History, e: Entry)
    requires Tree(h, p) && Fresh(h, e.id) && e.parent == h.cursor
    requires g.messages == h.messages && g.index == h.index && g.entries == h.entries + [e] && g.cursor == Some(e.id)
    ensures Tree(g, Grow(p, e.id)) && Full(g, Grow(p, e.id)) == Full(h, p)
  {
    TreeNodes(h, p);
    AvoidsFresh(h, p, e.id);
    FreshIsNoMessage(h, e.id);
    hide Links, Closed, Fresh, Grow, Along, PathTo;
    EntryKeepsLinks(h, p.of, g, e);
    HangKeepsClosed(p.of, p.cursor, e.id);
    GrownPath(p, e.id);
    AlongEntry(h.index, PathTo(p.of, p.cursor), e.id);
  }

  lemma FreshIsNoMessage(h: History, id: Id)
    requires Fresh(h, id)
    ensures id !in h.index && id != ""
  {
  }

  lemma ShapeGrows(ms: seq<Message>, full: seq<Message>, m: Message)
    requires Shape(ms, full)
    ensures Shape(ms + [m], full + [m])
  {
    if ms != full {
      var k: nat :| CutAt(ms, full, k);
      assert (ms + [m])[1..] == ms[1..] + [m];
      assert (full + [m])[k..] == full[k..] + [m];
      assert CutAt(ms + [m], full + [m], k);
    }
  }

  lemma BaseAppend(h: History, p: Paths, m: Message)
    requires Base(h, p) && Fresh(h, m.id) && m.parent == h.cursor
    ensures Base(AddMessage(h, m), Grow(p, m.id))
    ensures Full(AddMessage(h, m), Grow(p, m.id)) == Full(h, p) + [m]
  {
    hide Tree, Full, Shape, Fresh;
    MessageGrowsTree(h, p, m);
    ShapeGrows(h.messages, Full(h, p), m);
  }

  lemma BaseEntry(h: History, p: Paths, g: History, e: Entry)
    requires Base(h, p) && Fresh(h, e.id) && e.parent == h.cursor && ForkFree([e])
    requires g.messages == h.messages && g.index == h.index && g.entries == h.entries + [e] && g.cursor == Some(e.id)
    ensures Base(g, Grow(p, e.id)) && Full(g, Grow(p, e.id)) == Full(h, p)
  {
    hide Tree, Full, Shape, Fresh;
    EntryGrowsTree(h, p, g, e);
    ForkFreeGrows(h.entries, e);
  }

  lemma ForkFreeGrows(entries: seq<Entry>, e: Entry)
    requires ForkFree(entries) && ForkFree([e])
    ensures ForkFree(entries + [e])
  {
    assert [e][0] == e;
  }

  // ---------- Tool turns ----------

  /** The result messages of a turn: each hangs below the one before. */
  function ResultMessages(parent: Id, calls: seq<Call>, ids: seq<Id>, outputs: seq<string>, n: nat): (r: seq<Message>)
    requires n <= |calls| && n <= |ids| && n <= |outputs|
    ensures |r| == n
    ensures forall i :: 0 <= i < n ==>
        r[i] == Message(ids[i], Some(if i == 0 then parent else ids[i - 1]), Tool, outputs[i],
                                                       PLAIN.(callId := calls[i].id, toolName := NameOf(calls[i])))
  {
    seq(n, i requires 0 <= i < n => Message(ids[i], Some(if i == 0 then parent else ids[i - 1]), Tool, outputs[i],
                                            PLAIN.(callId := calls[i].id, toolName := NameOf(calls[i]))))
  }

  /** The block of messages a turn appends. */
  function TurnMessages(h: History, e: Event): seq<Message>
    requires e.Turn? && |e.resultIds| == |e.outputs| == |e.calls|
  {
    [AssistantMessage(h, e.id, e.content, e.calls, e.reasoning)]
    + ResultMessages(e.id, e.calls, e.resultIds, e.outputs, |e.calls|)
  }

  lemma StaysFresh(h: History, m: Message, id: Id)
    requires Fresh(h, id) && id != m.id
    ensures Fresh(AddMessage(h, m), id)
  {
    hide EntryIds;
  }

  lemma ResultsSplit(m: Message, e: Event, n: nat)
    requires e.Turn? && 0 < n <= |e.resultIds| == |e.outputs| <= |e.calls|
    requires m == ResultMessages(e.id, e.calls, e.resultIds, e.outputs, n)[n - 1]
    ensures var before := ResultMessages(e.id, e.calls, e.resultIds, e.outputs, n - 1);
            && ResultMessages(e.id, e.calls, e.resultIds, e.outputs, n) == before + [m]
            && before + [m] <= ResultMessages(e.id, e.calls, e.resultIds, e.outputs, |e.outputs|)
            && m.role == Tool && m.meta.callId == e.calls[n - 1].id
  {
  }

  lemma ResultAdds(g: History, e: Event, n: nat)
    requires e.Turn? && 0 < n <= |e.resultIds| == |e.outputs| <= |e.calls|
    requires g.cursor == Some(if n == 1 then e.id else e.resultIds[n - 2])
    ensures AppendTool(g, e.resultIds[n - 1], NameOf(e.calls[n - 1]), e.calls[n - 1].id, e.outputs[n - 1])
         == AddMessage(g, ResultMessages(e.id, e.calls, e.resultIds, e.outputs, n)[n - 1])
  {
  }

  lemma Longer<T>(a: seq<T>, b: seq<T>, x: T, c: seq<T>)
    requires b + [x] <= c
    ensures a + b + [x] == a + (b + [x]) <= a + c
  {
  }

  lemma {:induction false} ResultsGrow(h: History, p: Paths, e: Event, n: nat) returns (q: Paths)
    requires Base(h, p) && e.Turn? && n <= |e.resultIds| == |e.outputs| <= |e.calls| && Distinct(e.resultIds)
    requires h.cursor == Some(e.id) && forall i :: 0 <= i < |e.resultIds| ==> Fresh(h, e.resultIds[i])
    ensures var g := AddResults(h, e.calls, e.resultIds, e.outputs, n);
            && Base(g, q) && g.cursor == Some(if n == 0 then e.id else e.resultIds[n - 1])
            && Full(g, q) == Full(h, p) + ResultMessages(e.id, e.calls, e.resultIds, e.outputs, n)
            && forall i :: n <= i < |e.resultIds| ==> Fresh(g, e.resultIds[i])
    decreases n
  {
    hide Base, Full, Fresh, Grow, AddMessage, AppendTool, NameOf, ResultMessages;
    if n == 0 {
      q := p;
    } else {
      var r := ResultsGrow(h, p, e, n - 1);
      var g := AddResults(h, e.calls, e.resultIds, e.outputs, n - 1);
      var m := ResultMessages(e.id, e.calls, e.resultIds, e.outputs, n)[n - 1];
      ResultsSplit(m, e, n);
      ResultAdds(g, e, n);
      BaseAppend(g, r, m);
      MovesTo(g, m);
      forall i | n <= i < |e.resultIds| ensures Fresh(AddMessage(g, m), e.resultIds[i]) {
        StaysFresh(g, m, e.resultIds[i]);
      }
      q := Grow(r, m.id);
      Longer(Full(h, p), ResultMessages(e.id, e.calls, e.resultIds, e.outputs, n - 1), m,
             ResultMessages(e.id, e.calls, e.resultIds, e.outputs, |e.outputs|));
    }
  }

  /** The assistant message and the first results of a turn, on the path. */
  lemma PartGrows(h: History, p: Paths, e: Event) returns (q: Paths)
    requires Base(h, p) && e.Turn? && Fresh(h, e.id) && |e.resultIds| == |e.outputs| <= |e.calls|
    requires Distinct(e.resultIds)
    requires forall i :: 0 <= i < |e.resultIds| ==> Fresh(h, e.resultIds[i]) && e.resultIds[i] != e.id
    ensures var a := AppendAssistant(h, e.id, e.content, e.calls, e.reasoning);
            var g := AddResults(a, e.calls, e.resultIds, e.outputs, |e.outputs|);
            && Base(g, q)
            && Full(g, q) == Full(h, p) + [AssistantMessage(h, e.id, e.content, e.calls, e.reasoning)]
                             + ResultMessages(e.id, e.calls, e.resultIds, e.outputs, |e.outputs|)
  {
    hide Base, Full, Fresh, AssistantMessage, AddResults, ResultMessages, AddMessage, Grow;
    AssistantIs(h, e.id, e.content, e.calls, e.reasoning);
    var m := AssistantMessage(h, e.id, e.content, e.calls, e.reasoning);
    BaseAppend(h, p, m);
    MovesTo(h, m);
    forall i | 0 <= i < |e.resultIds| ensures Fresh(AddMessage(h, m), e.resultIds[i]) {
      StaysFresh(h, m, e.resultIds[i]);
    }
    q := ResultsGrow(AddMessage(h, m), Grow(p, m.id), e, |e.outputs|);
  }

  lemma TurnGrows(h: History, p: Paths, e: Event) returns (q: Paths)
    requires Base(h, p) && e.Turn? && Fits(h, e)
    ensures Base(AddTurn(h, e), q) && Full(AddTurn(h, e), q) == Full(h, p) + TurnMessages(h, e)
  {
    hide Base, Full, AssistantMessage, AddResults, ResultMessages, Fresh, AppendAssistant;
    q := PartGrows(h, p, e);
    Regroup(Full(h, p), [AssistantMessage(h, e.id, e.content, e.calls, e.reasoning)],
            ResultMessages(e.id, e.calls, e.resultIds, e.outputs, |e.outputs|));
  }

  lemma Regroup<T>(a: seq<T>, b: seq<T>, c: seq<T>)
    ensures a + b + c == a + (b + c)
  {
  }

  lemma MovesTo(h: History, m: Message)
    ensures AddMessage(h, m).cursor == Some(m.id)
  {
  }

  /** Whatever the observations are, a turn is a complete block. */
  lemma TurnIsComplete(h: History, e: Event)
    requires e.Turn? && Fits(h, e)
    ensures Complete(TurnMessages(h, e))
  {
    hide Fresh, AssistantMessage;
    AssistantIs(h, e.id, e.content, e.calls, e.reasoning);
    var block := TurnMessages(h, e);
    assert CallsOf(block[0]) == e.calls;
    forall t | 1 <= t < 1 + |e.calls| ensures block[t].role == Tool && block[t].meta.callId == e.calls[t - 1].id {
      assert block[t] == ResultMessages(e.id, e.calls, e.resultIds, e.outputs, |e.calls|)[t - 1];
    }
    assert block[1 + |e.calls|..] == [];
  }

  // ---------- Pruning ----------

  lemma {:induction false} AlongPruned(a: map<Id, Message>, b: map<Id, Message>, path: seq<Id>, ids: set<Id>)
    requires a.Keys == b.Keys
    requires forall id :: id in a ==> b[id] == if a[id].id in ids then Pruned(a[id]) else a[id]
    ensures Along(b, path) == PruneIn(Along(a, path), ids)
  {
    if path == [] {
    } else {
      AlongPruned(a, b, Front(path), ids);
    }
  }

  lemma PrunedSuffix(ms: seq<Message>, k: nat, ids: set<Id>)
    requires k <= |ms|
    ensures PruneIn(ms, ids)[k..] == PruneIn(ms[k..], ids)
  {
    hide Pruned;
  }

  lemma ShapePruned(ms: seq<Message>, full: seq<Message>, ids: set<Id>)
    requires Shape(ms, full)
    ensures Shape(PruneIn(ms, ids), PruneIn(full, ids))
  {
    if ms != full {
      var k: nat :| CutAt(ms, full, k);
      PrunedSuffix(ms, 1, ids);
      PrunedSuffix(full, k, ids);
      assert CutAt(PruneIn(ms, ids), PruneIn(full, ids), k);
    }
  }

  lemma BasePrune(h: History, p: Paths, keep: nat, threshold: nat)
    requires Base(h, p)
    ensures var g, ids := Prune(h, h.messages, keep, threshold), Victims(h.messages, keep, threshold);
            Base(g, p) && Full(g, p) == PruneIn(Full(h, p), ids)
  {
    hide Victims, Links, Closed, Shape, ForkFree, Prune, Pruned;
    var g, ids := Prune(h, h.messages, keep, threshold), Victims(h.messages, keep, threshold);
    PruneIs(h, h.messages, keep, threshold);
    PruneKeepsLinks(h, p.of, h.messages, keep, threshold);
    AlongPruned(h.index, g.index, PathTo(p.of, p.cursor), ids);
    ShapePruned(h.messages, Full(h, p), ids);
    assert g.messages == PruneIn(h.messages, ids);
  }

  // ---------- Destructive compaction ----------

  /** What a linear compaction does to the history: on failure only the failure count moves. */
  lemma LinearIs(h: History, c: Config, s: Id, id: Id, g: Generated, digest: string, anchor: string, goal: string)
    ensures var r := CompactLinear(h, c, s, id, g, digest, anchor, goal);
            && (r.Err? ==> r.error.0 == h.(failures := r.error.0.failures))
            && (r.Ok? ==>
                  && 1 <= c.minRetain < |UserIndexes(h.messages)| && r.value.entries != []
                  && r.value.messages != [] && r.value.messages[0].role == Summary
                  && r.value.messages[0].meta.calls == []
                  && r.value.messages[1..] == h.messages[RetainFrom(h.messages, c)..]
                  && Last(r.value.entries).id == id && Last(r.value.entries).parent == h.cursor
                  && Last(r.value.entries).kind.Compaction? && !Last(r.value.entries).kind.branchScoped
                  && r.value == h.(messages := r.value.messages, entries := h.entries + [Last(r.value.entries)],
                                   failures := 0, cursor := Some(Last(h.messages).id)))
  {
    hide WithAnchor, WithDigest, SelectSummaries, UserIndexes;
  }

  /**
   The kept rounds are exactly the last `minRetain`, unchanged, behind one summary; a second compaction finds too few.
   */
  lemma LinearKeepsLastRounds(h: History, c: Config, s: Id, id: Id, g: Generated, digest: string, anchor: string,
                              goal: string)
    requires CompactLinear(h, c, s, id, g, digest, anchor, goal).Ok?
    ensures var after := CompactLinear(h, c, s, id, g, digest, anchor, goal).value;
            var kept := after.messages[1..];
            && after.messages[0].role == Summary
            && kept == h.messages[|h.messages| - |kept|..] && kept[0].role == User && |kept| < |h.messages|
            && |UserIndexes(kept)| == c.minRetain
            && forall s2, id2, g2, digest2, anchor2, goal2 ::
                 CompactLinear(after, c, s2, id2, g2, digest2, anchor2, goal2) == Err((after, TooFewRounds))
  {
    LinearIs(h, c, s, id, g, digest, anchor, goal);
    var after := CompactLinear(h, c, s, id, g, digest, anchor, goal).value;
    hide WithAnchor, WithDigest, SelectSummaries, RetainFrom;
    RetainedRounds(h.messages, c);
    var m, kept := after.messages[0], after.messages[1..];
    assert after.messages == [m] + kept;
    UsersConcat([m], kept);
    assert UserIndexes([m]) == [] by {
      assert Front([m]) == [] && Last([m]) == m;
    }
    hide UserIndexes;
  }

  lemma LastOfShape(ms: seq<Message>, full: seq<Message>)
    requires Shape(ms, full) && ms != []
    ensures full != [] && Last(full) == Last(ms)
  {
    if ms != full {
      var k: nat :| CutAt(ms, full, k);
      assert ms[1..][|full| - k - 1] == full[k..][|full| - k - 1];
    }
  }

  lemma ShapeCompacts(ms: seq<Message>, full: seq<Message>, from: nat, after: seq<Message>)
    requires Shape(ms, full) && 0 < from < |ms| && ms[from].role == User
    requires after != [] && after[0].role == Summary && after[1..] == ms[from..]
    ensures Shape(after, full)
  {
    if ms == full {
      assert CutAt(after, full, from);
    } else {
      var k: nat :| CutAt(ms, full, k);
      assert ms[from..] == ms[1..][from - 1..] == full[k..][from - 1..] == full[k + from - 1..];
      assert full[k + from - 1] == full[k..][from - 1] == ms[1..][from - 1] == ms[from];
      assert CutAt(after, full, k + from - 1);
    }
  }

  /** The path to the last message leads over the same messages as the path to the cursor. */
  lemma PathToLastMessage(h: History, p: Paths)
    requires Tree(h, p) && Full(h, p) != []
    ensures var z := Last(Full(h, p)).id;
            z in p.of && Along(h.index, p.of[z]) == Full(h, p)
  {
    var path := PathTo(p.of, p.cursor);
    var j := LastMessage(h.index, path);
    hide EntriesPlaced, Placed, Along;
    assert p.of[path[j]] == path[..j + 1];
  }

  lemma MovedCursor(h: History, p: Paths, g: History, e: Entry, z: Id)
    requires Tree(h, p) && Fresh(h, e.id) && e.parent == h.cursor && z in p.of
    requires g.index == h.index && g.entries == h.entries + [e] && g.cursor == Some(z)
    ensures var q := Paths(Hang(p.of, p.cursor, e.id), Some(z));
            Tree(g, q) && Full(g, q) == Along(h.index, p.of[z])
  {
    TreeNodes(h, p);
    AvoidsFresh(h, p, e.id);
    FreshIsNoMessage(h, e.id);
    hide Links, Closed, Fresh, Along, Hang;
    HangKeepsPaths(p.of, p.cursor, e.id);
    EntryKeepsLinks(h, p.of, g, e);
    HangKeepsClosed(p.of, p.cursor, e.id);
  }

  /** A destructive compaction changes the list, not what lies on the path to the cursor. */
  lemma BaseCompact(h: History, p: Paths, e: Event) returns (q: Paths)
    requires Base(h, p) && e.Compacted? && Fresh(h, e.id)
    ensures Base(After(h, e), q) && Full(After(h, e), q) == Full(h, p)
    ensures After(h, e).index == h.index && forall t :: t in p.of ==> t in q.of && q.of[t] == p.of[t]
  {
    TreeAvoids(h, p, e.id);
    hide CompactLinear, Tree, Shape, ForkFree, Fresh, RetainFrom, UserIndexes, Hang;
    HangKeepsPaths(p.of, p.cursor, e.id);
    q := p;
    var c := e.config;
    LinearIs(h, c, e.summaryId, e.id, e.generated, e.digest, e.anchor, e.goal);
    var r := CompactLinear(h, c, e.summaryId, e.id, e.generated, e.digest, e.anchor, e.goal);
    if r.Ok? {
      var from := RetainFrom(h.messages, c);
      LastOfShape(h.messages, Full(h, p));
      hide Full;
      PathToLastMessage(h, p);
      MovedCursor(h, p, r.value, Last(r.value.entries), Last(h.messages).id);
      ShapeCompacts(h.messages, Full(h, p), from, r.value.messages);
      LinearEntryIsForkFree(h.entries, Last(r.value.entries));
      q := Paths(Hang(p.of, p.cursor, e.id), Some(Last(h.messages).id));
      FullByPath(h, p);
    } else {
      SameTree(h, r.error.0, p);
    }
  }

  lemma HangKeepsPaths(p: map<Id, seq<Id>>, parent: Option<Id>, id: Id)
    requires id !in p
    ensures var q := Hang(p, parent, id);
            forall t :: t in p ==> t in q && q[t] == p[t]
  {
  }

  lemma TreeAvoids(h: History, p: Paths, id: Id)
    requires Base(h, p) && Fresh(h, id)
    ensures id !in p.of
  {
    hide Shape, ForkFree, Links;
    AvoidsFresh(h, p, id);
  }

  lemma FullByPath(h: History, p: Paths)
    ensures Full(h, p) == Along(h.index, PathTo(p.of, p.cursor))
  {
  }

  lemma LinearEntryIsForkFree(entries: seq<Entry>, e: Entry)
    requires ForkFree(entries) && !e.kind.Leaf? && (e.kind.Compaction? ==> !e.kind.branchScoped)
    ensures ForkFree(entries + [e])
  {
    ForkFreeGrows(entries, e);
  }

  lemma SameTree(h: History, g: History, p: Paths)
    requires g.messages == h.messages && g.index == h.index
    requires g.entries == h.entries && g.cursor == h.cursor && Tree(h, p)
    ensures Tree(g, p)
  {
  }

  // ---------- Every run ----------

  /** The messages an event adds at the end of the path. */
  function Added(h: History, e: Event): seq<Message> {
    match e
    case Request(id, content) => [Message(id, h.cursor, User, content, PLAIN)]
    case Final(id, content, reasoning) => [AssistantMessage(h, id, content, [], reasoning)]
    case Turn(_, _, _, calls, ids, outputs) => if |ids| == |outputs| == |calls| then TurnMessages(h, e) else []
    case _ => []
  }

  lemma StepBase(h: History, p: Paths, e: Event) returns (q: Paths)
    requires Base(h, p) && Fits(h, e)
    ensures Base(After(h, e), q)
    ensures Full(After(h, e), q) ==
            if e.Pruning? then PruneIn(Full(h, p), Victims(h.messages, e.keep, e.threshold))
            else Full(h, p) + Added(h, e)
  {
    hide Base, Full, AssistantMessage, CompactLinear, Prune, TurnMessages, AddTurn, Victims, SetLabel;
    match e
    case Request(id, content) =>
      var g := h.(failures := 0);
      SameBase(h, g, p);
      BaseAppend(g, p, Message(id, h.cursor, User, content, PLAIN));
      q := Grow(p, id);
    case Final(id, content, reasoning) =>
      AssistantIs(h, id, content, [], reasoning);
      BaseAppend(h, p, AssistantMessage(h, id, content, [], reasoning));
      q := Grow(p, id);
    case Turn(_, _, _, _, _, _) => q := TurnGrows(h, p, e);
    case ModelChanged(id, provider, model) =>
      q := Grow(p, id);
      PlainEntry(h, p, After(h, e), Entry(id, h.cursor, ModelChange(provider, model)));
    case ThinkingChanged(id, level) =>
      q := Grow(p, id);
      PlainEntry(h, p, After(h, e), Entry(id, h.cursor, ThinkingChange(level)));
    case Labelled(id, target, name) =>
      q := Grow(p, id);
      PlainEntry(h, p, After(h, e), Entry(id, h.cursor, Label(target, name)));
    case Compacted(_, _, _, _, _, _, _) => q := BaseCompact(h, p, e);
    case Pruning(keep, threshold) =>
      BasePrune(h, p, keep, threshold);
      q := p;
  }

  lemma PlainEntry(h: History, p: Paths, g: History, e: Entry)
    requires Base(h, p) && Fresh(h, e.id) && e.parent == h.cursor && !e.kind.Leaf? && !e.kind.Compaction?
    requires g.messages == h.messages && g.index == h.index && g.entries == h.entries + [e] && g.cursor == Some(e.id)
    ensures Base(g, Grow(p, e.id)) && Full(g, Grow(p, e.id)) == Full(h, p)
  {
    assert ForkFree([e]);
    hide Base, Full, Fresh, Grow, ForkFree;
    BaseEntry(h, p, g, e);
  }

  lemma SameBase(h: History, g: History, p: Paths)
    requires g == h.(failures := g.failures) && Base(h, p)
    ensures Base(g, p) && Full(g, p) == Full(h, p)
  {
    hide Shape, ForkFree, Closed, Links;
    SameLinks(h, g, p.of);
  }

  lemma SameLinks(h: History, g: History, p: map<Id, seq<Id>>)
    requires g == h.(failures := g.failures) && Links(h, p)
    ensures Links(g, p)
  {
  }

  ghost predicate NoSummaries(ms: seq<Message>) {
    forall i :: 0 <= i < |ms| ==> ms[i].role != Summary
  }

  lemma AddedIsComplete(h: History, e: Event)
    requires Fits(h, e)
    ensures Complete(Added(h, e)) && NoSummaries(Added(h, e))
  {
    if e.Turn? {
      TurnIsComplete(h, e);
    }
  }

  lemma PruneKeepsCalls(ms: seq<Message>, ids: set<Id>)
    ensures SameCalls(ms, PruneIn(ms, ids))
  {
  }

  lemma {:induction false} RunBase(events: seq<Event>) returns (p: Paths)
    requires Runs(events)
    ensures Base(Run(events), p) && Complete(Full(Run(events), p)) && NoSummaries(Full(Run(events), p))
  {
    hide Base, Full, Complete, After, Added, Victims, Fits;
    if events == [] {
      p := ROOT;
      StartIsBase();
    } else {
      var h, e := Run(Front(events)), Last(events);
      var q := RunBase(Front(events));
      p := StepBase(h, q, e);
      if e.Pruning? {
        var ids := Victims(h.messages, e.keep, e.threshold);
        PruneKeepsCalls(Full(h, q), ids);
        CompleteByCalls(Full(h, q), PruneIn(Full(h, q), ids));
      } else {
        AddedIsComplete(h, e);
        CompleteConcat(Full(h, q), Added(h, e));
      }
    }
  }

  lemma StartIsBase()
    ensures Base(NEW, ROOT) && Complete(Full(NEW, ROOT)) && NoSummaries(Full(NEW, ROOT))
  {
    assert Nodes(NEW) == {};
  }

  // ---------- The theorems ----------

  /**
   In every fork-free run, with any number of destructive compactions, the message list is the whole branch
   or one summary in front of the branch from some user message on.
   */
  lemma ListIsBranchOrSuffix(events: seq<Event>)
    requires Runs(events)
    ensures Shape(Run(events).messages, CurrentBranch(Run(events)))
  {
    var p := RunBase(events);
    TreeBranch(Run(events), p);
  }

  /** At most one summary, and it comes first. */
  lemma OneSummaryFirst(events: seq<Event>, i: nat)
    requires Runs(events) && i < |Run(events).messages| && Run(events).messages[i].role == Summary
    ensures i == 0
  {
    var p := RunBase(events);
    hide Full, Tree;
    LaterAreNoSummaries(Run(events).messages, Full(Run(events), p));
  }

  lemma LaterAreNoSummaries(ms: seq<Message>, full: seq<Message>)
    requires Shape(ms, full) && NoSummaries(full)
    ensures forall i :: 0 < i < |ms| ==> ms[i].role != Summary
  {
    if ms != full {
      var k: nat :| CutAt(ms, full, k);
      forall i | 0 < i < |ms| ensures ms[i].role != Summary {
        assert ms[i] == ms[1..][i - 1] == full[k..][i - 1] == full[k + i - 1];
      }
    }
  }

  /** Destructive compaction does not reach what walking the tree gives: the branch and its context stay whole. */
  lemma CompactionKeepsBranch(events: seq<Event>, e: Event)
    requires Runs(events) && e.Compacted? && Fits(Run(events), e)
    ensures CurrentBranch(After(Run(events), e)) == CurrentBranch(Run(events))
    ensures ContextBranch(After(Run(events), e)) == CurrentBranch(Run(events))
  {
    hide After, Fits;
    var p := RunBase(events);
    var h, g := Run(events), After(Run(events), e);
    var q := StepBase(h, p, e);
    AddedByCompaction(h, e);
    TreeBranch(h, p);
    TreeBranch(g, q);
    NoOverlay(g, q);
  }

  lemma AddedByCompaction(h: History, e: Event)
    requires e.Compacted?
    ensures forall full: seq<Message> :: full + Added(h, e) == full
  {
  }

  lemma NoOverlay(h: History, p: Paths)
    requires Base(h, p)
    ensures ContextBranch(h) == CurrentBranch(h)
  {
    SelectedApplies(h.entries, Ids(CurrentBranch(h)));
    hide CurrentBranch, Selected, Ids, Tree, Shape;
  }

  /**
   In every fork-free run, both the message list and the branch context are sent to the model with every
   announced tool call answered at once, in order, and no result on its own.
   */
  lemma EveryCallIsAnswered(events: seq<Event>)
    requires Runs(events)
    ensures Answered(Emit(Run(events).messages))
    ensures Answered(Emit(ContextBranch(Run(events))))
  {
    var p := RunBase(events);
    var h := Run(events);
    var full := Full(h, p);
    TreeBranch(h, p);
    NoOverlay(h, p);
    CompleteIsAnswered(full);
    hide Answered, Tree, CurrentBranch, ContextBranch, Full;
    ShapeIsComplete(h.messages, full);
    CompleteIsAnswered(h.messages);
  }

  lemma ShapeIsComplete(ms: seq<Message>, full: seq<Message>)
    requires Complete(full) && Shape(ms, full)
    ensures Complete(ms)
  {
    if ms != full {
      var k: nat :| CutAt(ms, full, k);
      CutIsComplete(full, k);
      SummaryIsComplete(ms[0]);
      hide Complete;
      CompleteConcat([ms[0]], full[k..]);
      assert ms == [ms[0]] + ms[1..];
    }
  }

  lemma SummaryIsComplete(m: Message)
    requires m.role == Summary
    ensures Complete([m])
  {
  }
}
