/**
 Runs with forks, overlays, pruning and, before the first fork, destructive compaction: exactly when what
 is sent to the model keeps every announced tool call next to its results.
 */
module HistoryForked {
  import opened Common
  import opened History
  import opened HistoryTree
  import opened HistoryOverlay
  import opened HistoryWire
  import opened HistoryLinear

  // ---------- Runs ----------

  datatype Step = Do(event: Event) | Branch(op: Op)

  function Advance(h: History, s: Step): History {
    match s
    case Do(e) => After(h, e)
    case Branch(op) => Apply(h, op)
  }

  /** Compaction is destructive before the first fork and an overlay after it; pruning looks at what is shown. */
  ghost predicate Allowed(h: History, s: Step) {
    match s
    case Do(e) => Fits(h, e) && (e.Compacted? || e.Pruning? ==> !HasForks(h))
    case Branch(op) =>
      && Possible(h, op)
      && (op.PutSummary? || op.ForkTo? || op.Navigate? || op.Compact? || (op.PruneOutputs? && HasForks(h)))
  }

  function RunAll(steps: seq<Step>): History {
    if steps == [] then NEW else Advance(RunAll(Front(steps)), Last(steps))
  }

  ghost predicate AllAllowed(steps: seq<Step>) {
    steps != [] ==> AllAllowed(Front(steps)) && Allowed(RunAll(Front(steps)), Last(steps))
  }

  /** A tool result hangs below the message. */
  ghost predicate HasResult(index: map<Id, Message>, id: Id) {
    exists r :: r in index && index[r].role == Tool && index[r].parent == Some(id)
  }

  /** The step moves the cursor to a message with a tool result below it. */
  ghost predicate Splits(h: History, s: Step) {
    s.Branch? && (s.op.ForkTo? || s.op.Navigate?) && s.op.target in h.index && HasResult(h.index, s.op.target)
  }

  ghost predicate NeverSplits(steps: seq<Step>) {
    steps != [] ==> NeverSplits(Front(steps)) && !Splits(RunAll(Front(steps)), Last(steps))
  }

  /** What would be sent now has every announced call answered at once, and no result alone. */
  ghost predicate InOrder(h: History) {
    Answered(Emit(ContextBranch(h)))
  }

  /** After every step of the run, what would be sent is in order. */
  ghost predicate AlwaysInOrder(steps: seq<Step>) {
    && InOrder(RunAll(steps))
    && (steps != [] ==> AlwaysInOrder(Front(steps)))
  }

  // ---------- Answered means complete ----------

  ghost predicate Identified(ms: seq<Message>) {
    forall i :: 0 <= i < |ms| && ms[i].role == Tool ==> ms[i].meta.callId != ""
  }

  ghost predicate AnsweredAt(ws: seq<Wire>, i: nat)
    requires i < |ws|
  {
    && (ws[i].WireAssistant? ==>
          && i + |ws[i].calls| < |ws|
          && forall t :: i < t <= i + |ws[i].calls| ==> ws[t].WireTool? && ws[t].callId == ws[i].calls[t - i - 1].id)
    && (ws[i].WireTool? ==> exists j :: 0 <= j < i && ws[j].WireAssistant? && i - j <= |ws[j].calls|)
  }

  lemma AnsweredHere(ws: seq<Wire>)
    ensures Answered(ws) <==> forall i :: 0 <= i < |ws| ==> AnsweredAt(ws, i)
  {
    if forall i :: 0 <= i < |ws| ==> AnsweredAt(ws, i) {
      forall i | 0 <= i < |ws| && ws[i].WireAssistant?
        ensures i + |ws[i].calls| < |ws|
        ensures forall t :: i < t <= i + |ws[i].calls| ==> ws[t].WireTool? && ws[t].callId == ws[i].calls[t - i - 1].id
      {
        assert AnsweredAt(ws, i);
      }
      forall i | 0 <= i < |ws| && ws[i].WireTool?
        ensures exists j :: 0 <= j < i && ws[j].WireAssistant? && i - j <= |ws[j].calls|
      {
        assert AnsweredAt(ws, i);
      }
    }
  }

  lemma AnsweredRestAt(ws: seq<Wire>, n: nat, i: nat)
    requires Answered(ws) && 1 <= n && n + i < |ws|
    requires if ws[0].WireAssistant? then n == 1 + |ws[0].calls| else n == 1
    ensures AnsweredAt(ws[n..], i)
  {
    var rest := ws[n..];
    AnsweredHere(ws);
    assert AnsweredAt(ws, n + i);
    if rest[i].WireTool? {
      var j :| 0 <= j < n + i && ws[j].WireAssistant? && n + i - j <= |ws[j].calls|;
      AfterFirst(ws, n, i, j);
      assert rest[j - n] == ws[j];
    }
    hide Answered;
    if rest[i].WireAssistant? {
      forall t | i < t <= i + |rest[i].calls|
        ensures rest[t].WireTool? && rest[t].callId == rest[i].calls[t - i - 1].id
      {
        assert rest[t] == ws[n + t];
      }
    }
  }

  /** The assistant message that announced a later result is not in the first block. */
  lemma AfterFirst(ws: seq<Wire>, n: nat, i: nat, j: nat)
    requires Answered(ws) && 1 <= n && n + i < |ws| && j < n + i && ws[j].WireAssistant? && n + i - j <= |ws[j].calls|
    requires if ws[0].WireAssistant? then n == 1 + |ws[0].calls| else n == 1
    ensures j >= n
  {
  }

  lemma AnsweredRest(ws: seq<Wire>, n: nat)
    requires Answered(ws) && 1 <= n <= |ws|
    requires if ws[0].WireAssistant? then n == 1 + |ws[0].calls| else n == 1
    ensures Answered(ws[n..])
  {
    hide Answered, AnsweredAt;
    AnsweredHere(ws[n..]);
    forall i | 0 <= i < |ws[n..]| ensures AnsweredAt(ws[n..], i) {
      AnsweredRestAt(ws, n, i);
    }
  }

  lemma AnsweredFirst(ms: seq<Message>)
    requires Identified(ms) && ms != [] && Answered(Emit(ms))
    ensures ms[0].role != Tool && Results(ms, 1, CallsOf(ms[0]))
    ensures var ws := Emit(ms);
            if ws[0].WireAssistant? then |CallsOf(ms[0])| == |ws[0].calls| else CallsOf(ms[0]) == []
  {
    var ws, calls := Emit(ms), CallsOf(ms[0]);
    assert ws[0] == EmitOne(ms[0]);
    if calls != [] {
      forall t | 1 <= t < 1 + |calls|
        ensures ms[t].role == Tool && ms[t].meta.callId != "" && ms[t].meta.callId == calls[t - 1].id
      {
        assert ws[t] == EmitOne(ms[t]);
      }
    }
  }

  /** Messages whose results all name their call are sent in order exactly when they are complete. */
  lemma {:induction false} CompleteIffAnswered(ms: seq<Message>)
    requires Identified(ms)
    ensures Complete(ms) <==> Answered(Emit(ms))
  {
    hide EmitOne, Answered, Results, Emit, CallsOf;
    if Complete(ms) {
      CompleteIsAnswered(ms);
    }
    if Answered(Emit(ms)) {
      if ms == [] {
      } else {
        AnsweredFirst(ms);
        var n := 1 + |CallsOf(ms[0])|;
        FitsInside(ms);
        AnsweredRest(Emit(ms), n);
        EmitSuffix(ms, n);
        CompleteIffAnswered(ms[n..]);
      }
    }
  }

  lemma FitsInside(ms: seq<Message>)
    requires ms != [] && Results(ms, 1, CallsOf(ms[0]))
    ensures 1 + |CallsOf(ms[0])| <= |ms|
  {
  }

  // ---------- What every step keeps ----------

  /** Every overlay keeps the branch from a user message on. */
  ghost predicate KeptUsers(h: History) {
    forall i :: 0 <= i < |h.entries| && h.entries[i].kind.Compaction? && h.entries[i].kind.branchScoped ==>
      && h.entries[i].kind.firstKept.Some? && h.entries[i].kind.firstKept.value in h.index
      && h.index[h.entries[i].kind.firstKept.value].role == User
  }

  ghost predicate NamedResults(index: map<Id, Message>) {
    forall id :: id in index && index[id].role == Tool ==> index[id].meta.callId != ""
  }

  ghost predicate Standing(h: History, p: Paths) {
    Tree(h, p) && (HasForks(h) || Base(h, p)) && KeptUsers(h) && NamedResults(h.index)
  }

  lemma FullIsNamed(h: History, p: Paths)
    requires NamedResults(h.index)
    ensures Identified(Full(h, p))
  {
    forall i | 0 <= i < |Full(h, p)| && Full(h, p)[i].role == Tool ensures Full(h, p)[i].meta.callId != "" {
      AlongMembers(h.index, PathTo(p.of, p.cursor), i);
    }
  }

  lemma SameForks(h: History, g: History)
    requires g.entries == h.entries
    ensures HasForks(g) == HasForks(h)
  {
  }

  lemma ForksGrow(h: History, g: History, e: Entry)
    requires g.entries == h.entries + [e]
    ensures HasForks(g) <==> HasForks(h) || e.kind.Leaf?
  {
    if HasForks(h) {
      var i :| 0 <= i < |h.entries| && h.entries[i].kind.Leaf?;
      assert g.entries[i].kind.Leaf?;
    }
    if e.kind.Leaf? {
      assert g.entries[|h.entries|].kind.Leaf?;
    }
  }

  lemma KeptMessage(h: History, m: Message)
    requires KeptUsers(h) && NamedResults(h.index) && m.id !in h.index && (m.role == Tool ==> m.meta.callId != "")
    ensures KeptUsers(AddMessage(h, m)) && NamedResults(AddMessage(h, m).index)
  {
  }

  ghost predicate KeepsUser(h: History, e: Entry) {
    e.kind.Compaction? && e.kind.branchScoped ==>
      e.kind.firstKept.Some? && e.kind.firstKept.value in h.index && h.index[e.kind.firstKept.value].role == User
  }

  lemma KeptEntry(h: History, g: History, e: Entry)
    requires KeptUsers(h) && g.index == h.index && g.entries == h.entries + [e] && KeepsUser(h, e)
    ensures KeptUsers(g)
  {
  }

  lemma StandMessage(h: History, p: Paths, m: Message)
    requires Standing(h, p) && Fresh(h, m.id) && m.parent == h.cursor && (m.role == Tool ==> m.meta.callId != "")
    ensures Standing(AddMessage(h, m), Grow(p, m.id)) && Full(AddMessage(h, m), Grow(p, m.id)) == Full(h, p) + [m]
  {
    SameForks(h, AddMessage(h, m));
    FreshIsNoMessage(h, m.id);
    hide Base, Tree, Full, HasForks, Fresh, KeptUsers, NamedResults, AddMessage, Grow;
    MessageGrowsTree(h, p, m);
    KeptMessage(h, m);
    if !HasForks(h) {
      BaseAppend(h, p, m);
    }
  }

  lemma StandFailures(h: History, p: Paths, g: History)
    requires Standing(h, p) && g == h.(failures := g.failures)
    ensures Standing(g, p) && Full(g, p) == Full(h, p)
  {
    SameForks(h, g);
    hide Base, Tree, HasForks;
    SameTree(h, g, p);
    if !HasForks(h) {
      SameBase(h, g, p);
    }
  }

  lemma StandEntry(h: History, p: Paths, g: History, e: Entry)
    requires Standing(h, p) && Fresh(h, e.id) && e.parent == h.cursor && !e.kind.Leaf? && !e.kind.Compaction?
    requires g.messages == h.messages && g.index == h.index && g.entries == h.entries + [e] && g.cursor == Some(e.id)
    ensures Standing(g, Grow(p, e.id)) && Full(g, Grow(p, e.id)) == Full(h, p)
  {
    hide Base, Tree, Full, HasForks, Fresh, KeptUsers, NamedResults, Grow;
    EntryGrowsTree(h, p, g, e);
    ForksGrow(h, g, e);
    KeptEntry(h, g, e);
    if !HasForks(h) {
      PlainEntry(h, p, g, e);
    }
  }

  ghost predicate Extends(p: Paths, q: Paths) {
    forall t :: t in p.of ==> t in q.of && q.of[t] == p.of[t]
  }

  lemma HangExtends(p: Paths, id: Id, at: Option<Id>)
    requires id !in p.of
    ensures Extends(p, Paths(Hang(p.of, p.cursor, id), at))
  {
  }

  /** A record is hung below the cursor, and the cursor moves to a node that was there before. */
  lemma StandMove(h: History, p: Paths, g: History, e: Entry, z: Id) returns (q: Paths)
    requires Standing(h, p) && Fresh(h, e.id) && e.parent == h.cursor && z in p.of && KeepsUser(h, e)
    requires g.index == h.index && g.entries == h.entries + [e] && g.cursor == Some(z) && HasForks(g)
    ensures Standing(g, q) && Extends(p, q) && Full(g, q) == Along(h.index, p.of[z])
  {
    hide Base, Full, HasForks, Fresh, KeptUsers, NamedResults, Hang, Along, Links, Closed;
    AvoidsFresh(h, p, e.id);
    MovedCursor(h, p, g, e, z);
    KeptEntry(h, g, e);
    HangExtends(p, e.id, Some(z));
    q := Paths(Hang(p.of, p.cursor, e.id), Some(z));
    hide Tree;
  }

  /** The cursor moves to a message; the record of the move hangs where the cursor was. */
  lemma StandFork(h: History, p: Paths, id: Id, target: Id) returns (q: Paths)
    requires Standing(h, p) && Fresh(h, id) && target in h.index
    ensures var g := Apply(h, ForkTo(id, target));
            && Standing(g, q) && g.index == h.index && g.cursor == Some(target) && Extends(p, q) && target in p.of
            && Full(g, q) == Along(h.index, p.of[target])
            && g.entries == h.entries + [Entry(id, h.cursor, Leaf(target))]
  {
    hide Base, Full, HasForks, Fresh, KeptUsers, NamedResults, Along, Links, Closed, Apply;
    ForkedState(h, ForkTo(id, target));
    TreeHolds(h, p, target);
    var e := Entry(id, h.cursor, Leaf(target));
    ForksGrow(h, Apply(h, ForkTo(id, target)), e);
    q := StandMove(h, p, Apply(h, ForkTo(id, target)), e, target);
  }

  lemma TreeHolds(h: History, p: Paths, id: Id)
    requires Tree(h, p)
    ensures id in h.index ==> id in p.of
    ensures h.cursor == p.cursor && (h.cursor.Some? ==> h.cursor.value in p.of)
  {
    hide Closed;
    LinkedNodes(h, p.of);
  }

  lemma StandCompact(h: History, p: Paths, op: Op) returns (q: Paths)
    requires Standing(h, p) && op.Compact? && Possible(h, op)
    ensures var g := Apply(h, op);
            Standing(g, q) && g.index == h.index && Extends(p, q) && Full(g, q) == Full(h, p)
  {
    hide Standing, Full, CompactBranch, HasForks, Fresh;
    q := p;
    CompactAdds(h, op.config, op.id, op.generated, op.anchor);
    var r := CompactBranch(h, op.config, op.id, op.generated, op.anchor);
    if r.Ok? {
      q := StandOverlay(h, p, op);
    } else {
      StandFailures(h, p, r.error.0);
    }
  }

  /** The message an overlay keeps first is a user message on the branch. */
  lemma OverlayKeepsUser(h: History, p: Paths, op: Op)
    requires Standing(h, p) && op.Compact?
    requires CompactBranch(h, op.config, op.id, op.generated, op.anchor).Ok?
    ensures var g := CompactBranch(h, op.config, op.id, op.generated, op.anchor).value;
            && g.entries != [] && KeepsUser(h, Last(g.entries)) && h.cursor.Some?
  {
    hide Base, HasForks, CompactBranch, ContextBranch, CurrentBranch, Full, KeptUsers, NamedResults, RetainFrom;
    CompactRecords(h, op.config, op.id, op.generated, op.anchor);
    var before := ContextBranch(h);
    var n := RetainFrom(before, op.config);
    var j := KeptIsSuffix(h, n);
    assert before[n] == before[n..][0] == CurrentBranch(h)[j];
    TreeBranch(h, p);
    FullMember(h, p, j);
  }

  lemma FullMember(h: History, p: Paths, j: nat)
    requires Tree(h, p) && j < |Full(h, p)|
    ensures var m := Full(h, p)[j];
            m.id in h.index && h.index[m.id] == m && h.cursor.Some?
  {
    hide Closed, EntriesPlaced, Placed;
    AlongMembers(h.index, PathTo(p.of, p.cursor), j);
  }

  lemma StandOverlay(h: History, p: Paths, op: Op) returns (q: Paths)
    requires Standing(h, p) && op.Compact? && Possible(h, op)
    requires CompactBranch(h, op.config, op.id, op.generated, op.anchor).Ok?
    ensures var g := CompactBranch(h, op.config, op.id, op.generated, op.anchor).value;
            Standing(g, q) && g.index == h.index && Extends(p, q) && Full(g, q) == Full(h, p)
  {
    hide Base, HasForks, CompactBranch, Full, KeptUsers, NamedResults, Tree, Fresh;
    var g := CompactBranch(h, op.config, op.id, op.generated, op.anchor).value;
    CompactAdds(h, op.config, op.id, op.generated, op.anchor);
    OverlayKeepsUser(h, p, op);
    ForksGrow(h, g, Last(g.entries));
    TreeHolds(h, p, op.id);
    q := StandMove(h, p, g, Last(g.entries), h.cursor.value);
    FullByPath(h, p);
  }

  lemma StandLinear(h: History, p: Paths, e: Event) returns (q: Paths)
    requires Standing(h, p) && e.Compacted? && Fresh(h, e.id) && !HasForks(h)
    ensures var g := After(h, e);
            Standing(g, q) && g.index == h.index && Extends(p, q) && Full(g, q) == Full(h, p)
  {
    hide Base, HasForks, Full, Fresh, KeptUsers, NamedResults, Tree, CompactLinear;
    q := BaseCompact(h, p, e);
    BaseIsTree(After(h, e), q);
    LinearIs(h, e.config, e.summaryId, e.id, e.generated, e.digest, e.anchor, e.goal);
    var r := CompactLinear(h, e.config, e.summaryId, e.id, e.generated, e.digest, e.anchor, e.goal);
    if r.Ok? {
      KeptEntry(h, r.value, Last(r.value.entries));
    } else {
      KeptSame(h, r.error.0);
    }
  }

  lemma BaseIsTree(h: History, p: Paths)
    requires Base(h, p)
    ensures Tree(h, p)
  {
  }

  lemma KeptSame(h: History, g: History)
    requires KeptUsers(h) && g.index == h.index && g.entries == h.entries
    ensures KeptUsers(g)
  {
  }

  /** What pruning leaves of a message. */
  lemma PruneKeepsUsers(h: History, context: seq<Message>, keep: nat, threshold: nat)
    requires KeptUsers(h) && NamedResults(h.index)
    ensures KeptUsers(Prune(h, context, keep, threshold)) && NamedResults(Prune(h, context, keep, threshold).index)
  {
    PruneIs(h, context, keep, threshold);
    hide Prune, Victims;
  }

  lemma TreePrune(h: History, p: Paths, context: seq<Message>, keep: nat, threshold: nat)
    requires Tree(h, p)
    ensures var g, ids := Prune(h, context, keep, threshold), Victims(context, keep, threshold);
            Tree(g, p) && Full(g, p) == PruneIn(Full(h, p), ids) && g.entries == h.entries
  {
    hide Victims, Links, Closed, Prune, Pruned;
    var g, ids := Prune(h, context, keep, threshold), Victims(context, keep, threshold);
    PruneIs(h, context, keep, threshold);
    PruneKeepsLinks(h, p.of, context, keep, threshold);
    AlongPruned(h.index, g.index, PathTo(p.of, p.cursor), ids);
  }

  lemma StandPrune(h: History, p: Paths, context: seq<Message>, keep: nat, threshold: nat)
    requires Standing(h, p) && (HasForks(h) || context == h.messages)
    ensures var g, ids := Prune(h, context, keep, threshold), Victims(context, keep, threshold);
            Standing(g, p) && Full(g, p) == PruneIn(Full(h, p), ids)
  {
    hide Base, HasForks, Full, KeptUsers, NamedResults, Tree, Prune, Victims;
    TreePrune(h, p, context, keep, threshold);
    PruneKeepsUsers(h, context, keep, threshold);
    SameForks(h, Prune(h, context, keep, threshold));
    if !HasForks(h) {
      BasePrune(h, p, keep, threshold);
    }
  }

  // ---------- Every message lies on a complete list ----------

  /** `ms` begins a complete list, and a result follows it there exactly if it is open. */
  ghost predicate Covers(w: seq<Message>, ms: seq<Message>, open: bool) {
    Complete(w) && ms <= w && (open <==> |ms| < |w| && w[|ms|].role == Tool)
  }

  ghost predicate Covered(index: map<Id, Message>, p: map<Id, seq<Id>>, id: Id) {
    exists w :: Covers(w, Along(index, PathTo(p, Some(id))), HasResult(index, id))
  }

  ghost predicate AllCovered(index: map<Id, Message>, p: map<Id, seq<Id>>) {
    forall id :: id in index ==> Covered(index, p, id)
  }

  lemma CoversIs(w: seq<Message>, ms: seq<Message>, open: bool)
    requires Covers(w, ms, open)
    ensures Complete(ms) <==> !open
  {
    CutIsComplete(w, |ms|);
    assert ms == w[..|ms|];
  }

  /** Up to a message everything is complete unless a result hangs below it. */
  lemma CoveredIs(index: map<Id, Message>, p: map<Id, seq<Id>>, id: Id)
    requires Covered(index, p, id)
    ensures Complete(Along(index, PathTo(p, Some(id)))) <==> !HasResult(index, id)
  {
    var w :| Covers(w, Along(index, PathTo(p, Some(id))), HasResult(index, id));
    CoversIs(w, Along(index, PathTo(p, Some(id))), HasResult(index, id));
  }

  lemma Coverer(index: map<Id, Message>, p: map<Id, seq<Id>>, id: Id) returns (w: seq<Message>)
    requires Covered(index, p, id) && id in p
    ensures Complete(w) && Along(index, p[id]) <= w
    ensures Complete(Along(index, p[id])) <==> !HasResult(index, id)
  {
    CoveredIs(index, p, id);
    hide Complete, HasResult, Along;
    w :| Covers(w, Along(index, PathTo(p, Some(id))), HasResult(index, id));
  }

  lemma ExtendsCovered(index: map<Id, Message>, p: Paths, q: Paths)
    requires AllCovered(index, p.of) && Extends(p, q) && forall id :: id in index ==> id in p.of
    ensures AllCovered(index, q.of)
  {
    forall id | id in index ensures Covered(index, q.of, id) {
      assert PathTo(q.of, Some(id)) == PathTo(p.of, Some(id));
      assert Covered(index, p.of, id);
      hide Along, HasResult;
    }
  }

  /** A new message below the cursor changes nothing for the others, unless it is a result of the one at the cursor. */
  lemma OldMessage(h: History, p: Paths, m: Message, id: Id)
    requires Tree(h, p) && Fresh(h, m.id) && m.parent == h.cursor && id in h.index
    ensures var g, q := AddMessage(h, m), Grow(p, m.id);
            && Along(g.index, PathTo(q.of, Some(id))) == Along(h.index, PathTo(p.of, Some(id)))
            && (HasResult(g.index, id) <==> HasResult(h.index, id) || (m.role == Tool && h.cursor == Some(id)))
  {
    var g, q := AddMessage(h, m), Grow(p, m.id);
    OldPath(h, p, m, id);
    OldResult(h, m, id);
    hide Tree, Fresh, HasResult, Along;
  }

  lemma OldPath(h: History, p: Paths, m: Message, id: Id)
    requires Tree(h, p) && Fresh(h, m.id) && id in h.index
    ensures Along(h.index[m.id := m], PathTo(Grow(p, m.id).of, Some(id))) == Along(h.index, PathTo(p.of, Some(id)))
  {
    AvoidsFresh(h, p, m.id);
    TreeHolds(h, p, id);
    hide Links, Fresh, Along, Closed, Hang, PathTo;
    HangKeepsPath(p.of, p.cursor, m.id, id);
    AlongSame(h.index, h.index[m.id := m], PathTo(p.of, Some(id)));
  }

  lemma HangKeepsPath(p: map<Id, seq<Id>>, parent: Option<Id>, id: Id, t: Id)
    requires Closed(p) && id !in p && t in p
    ensures PathTo(Hang(p, parent, id), Some(t)) == PathTo(p, Some(t)) && id !in PathTo(p, Some(t))
  {
    var up := p[t];
    forall k | 0 <= k < |up| ensures up[k] in p {}
  }

  lemma OldResult(h: History, m: Message, id: Id)
    requires m.id !in h.index
    ensures HasResult(h.index[m.id := m], id) <==> HasResult(h.index, id) || (m.role == Tool && m.parent == Some(id))
  {
    var index := h.index[m.id := m];
    if HasResult(h.index, id) {
      var r :| r in h.index && h.index[r].role == Tool && h.index[r].parent == Some(id);
      assert index[r] == h.index[r];
    }
    if m.role == Tool && m.parent == Some(id) {
      assert index[m.id].role == Tool;
    }
  }

  lemma NoResultYet(h: History, p: Paths, m: Message)
    requires Tree(h, p) && Fresh(h, m.id) && m.parent == h.cursor
    ensures !HasResult(h.index[m.id := m], m.id)
  {
    AvoidsFresh(h, p, m.id);
    TreeHolds(h, p, m.id);
    hide Closed, EntriesPlaced;
    assert MessagesPlaced(h.index, p.of);
  }

  // ---------- Blocks ----------

  ghost predicate Good(h: History, p: Paths) {
    Standing(h, p) && Complete(Full(h, p)) && AllCovered(h.index, p.of)
  }

  /** Inside a block: the path to the cursor begins `w`, and only the message at the cursor may lack a result. */
  ghost predicate Inside(h: History, p: Paths, w: seq<Message>) {
    && Standing(h, p) && Complete(w) && Full(h, p) <= w
    && h.cursor.Some? && h.cursor.value in h.index && !HasResult(h.index, h.cursor.value)
    && forall id :: id in h.index && id != h.cursor.value ==> Covered(h.index, p.of, id)
  }

  lemma InsideStands(h: History, p: Paths, w: seq<Message>)
    requires Inside(h, p, w)
    ensures Standing(h, p) && Complete(w) && Full(h, p) <= w && h.cursor.Some?
    ensures h.cursor.value in h.index && !HasResult(h.index, h.cursor.value)
    ensures forall id :: id in h.index && id != h.cursor.value ==> Covered(h.index, p.of, id)
  {
    hide Standing, Complete, Full, HasResult, Covered;
  }

  lemma AddedMessage(h: History, m: Message)
    ensures var g := AddMessage(h, m);
            g.index == h.index[m.id := m] && g.cursor == Some(m.id) && g.entries == h.entries
  {
  }

  lemma StandingIsTree(h: History, p: Paths)
    requires Standing(h, p)
    ensures Tree(h, p)
    ensures Full(h, p) == Along(h.index, PathTo(p.of, h.cursor))
  {
    hide Base, Links, Closed;
  }

  lemma StillCovered(h: History, p: Paths, m: Message, id: Id)
    requires Standing(h, p) && Fresh(h, m.id) && m.parent == h.cursor && id in h.index && Covered(h.index, p.of, id)
    requires m.role == Tool ==> h.cursor != Some(id)
    ensures Covered(AddMessage(h, m).index, Grow(p, m.id).of, id)
  {
    StandingIsTree(h, p);
    hide Standing, Along, HasResult, Grow, AddMessage, Tree, Fresh;
    OldMessage(h, p, m, id);
  }

  lemma Opens(h: History, p: Paths, m: Message, w: seq<Message>)
    requires Good(h, p) && Fresh(h, m.id) && m.parent == h.cursor && m.role != Tool
    requires Complete(w) && Full(h, p) + [m] <= w
    ensures Inside(AddMessage(h, m), Grow(p, m.id), w)
  {
    hide Standing, Full, Covered, Complete, HasResult, Grow, AddMessage;
    StandMessage(h, p, m);
    StandingIsTree(h, p);
    hide Tree;
    AddedMessage(h, m);
    NoResultYet(h, p, m);
    forall id | id in h.index ensures Covered(AddMessage(h, m).index, Grow(p, m.id).of, id) {
      StillCovered(h, p, m, id);
    }
  }

  lemma Continues(h: History, p: Paths, m: Message, w: seq<Message>)
    requires Inside(h, p, w) && Fresh(h, m.id) && m.parent == h.cursor && m.role == Tool && m.meta.callId != ""
    requires Full(h, p) + [m] <= w
    ensures Inside(AddMessage(h, m), Grow(p, m.id), w)
  {
    InsideStands(h, p, w);
    AddedMessage(h, m);
    StandingIsTree(h, p);
    hide *;
    StandMessage(h, p, m);
    NoResultYet(h, p, m);
    var g, q := AddMessage(h, m), Grow(p, m.id);
    forall id | id in h.index ensures Covered(g.index, q.of, id) {
      if Some(id) == h.cursor {
        OldMessage(h, p, m, id);
        NowOpen(g.index, q.of, id, Full(h, p), w, m);
      } else {
        StillCovered(h, p, m, id);
      }
    }
    IsInside(g, q, w, m.id);
  }

  lemma IsInside(h: History, p: Paths, w: seq<Message>, id: Id)
    requires Standing(h, p) && Complete(w) && Full(h, p) <= w
    requires h.cursor == Some(id) && id in h.index && !HasResult(h.index, id)
    requires forall t :: t in h.index && t != id ==> Covered(h.index, p.of, t)
    ensures Inside(h, p, w)
  {
    hide Standing, Complete, Full, HasResult, Covered;
  }

  lemma NowOpen(index: map<Id, Message>, p: map<Id, seq<Id>>, id: Id, ms: seq<Message>, w: seq<Message>, m: Message)
    requires Along(index, PathTo(p, Some(id))) == ms && HasResult(index, id)
    requires Complete(w) && ms + [m] <= w && m.role == Tool
    ensures Covered(index, p, id)
  {
    assert (ms + [m])[|ms|] == w[|ms|];
    assert Covers(w, ms, true);
    hide Along, HasResult, Complete;
  }

  lemma Closes(h: History, p: Paths, w: seq<Message>)
    requires Inside(h, p, w) && Full(h, p) == w
    ensures Good(h, p)
  {
    StandingIsTree(h, p);
    hide Standing, Full, HasResult, Along, Complete;
    assert Covers(w, w, false);
    assert Covered(h.index, p.of, h.cursor.value);
  }

  lemma PlainIsComplete(m: Message)
    requires m.role != Tool && CallsOf(m) == []
    ensures Complete([m])
  {
    assert [m][1..] == [];
  }

  /** A message that announces nothing and answers nothing is a block of its own. */
  lemma GoodMessage(h: History, p: Paths, m: Message)
    requires Good(h, p) && Fresh(h, m.id) && m.parent == h.cursor && m.role != Tool && CallsOf(m) == []
    ensures Good(AddMessage(h, m), Grow(p, m.id))
  {
    hide Standing, Full, Covered, Complete, HasResult, Grow, AddMessage, AllCovered, Inside;
    var w := Full(h, p) + [m];
    PlainIsComplete(m);
    CompleteConcat(Full(h, p), [m]);
    Opens(h, p, m, w);
    StandMessage(h, p, m);
    Closes(AddMessage(h, m), Grow(p, m.id), w);
  }

  lemma {:induction false} InsideResults(h: History, p: Paths, e: Event, w: seq<Message>, n: nat) returns (q: Paths)
    requires Inside(h, p, w) && e.Turn? && n <= |e.calls| == |e.resultIds| == |e.outputs| && Distinct(e.resultIds)
    requires h.cursor == Some(e.id)
    requires forall i :: 0 <= i < |e.calls| ==> Fresh(h, e.resultIds[i]) && e.calls[i].id != ""
    requires w == Full(h, p) + ResultMessages(e.id, e.calls, e.resultIds, e.outputs, |e.calls|)
    ensures var g := AddResults(h, e.calls, e.resultIds, e.outputs, n);
            && Inside(g, q, w) && g.cursor == Some(if n == 0 then e.id else e.resultIds[n - 1])
            && Full(g, q) == Full(h, p) + ResultMessages(e.id, e.calls, e.resultIds, e.outputs, n)
            && forall i :: n <= i < |e.calls| ==> Fresh(g, e.resultIds[i])
    decreases n
  {
    hide Inside, Full, Fresh, Grow, AddMessage;
    if n == 0 {
      q := p;
    } else {
      var r := InsideResults(h, p, e, w, n - 1);
      var g := AddResults(h, e.calls, e.resultIds, e.outputs, n - 1);
      var m := ResultMessages(e.id, e.calls, e.resultIds, e.outputs, n)[n - 1];
      q := Grow(r, m.id);
      ResultsSplit(m, e, n);
      Longer(Full(h, p), ResultMessages(e.id, e.calls, e.resultIds, e.outputs, n - 1), m,
             ResultMessages(e.id, e.calls, e.resultIds, e.outputs, |e.outputs|));
      ResultStep(g, r, m, w, Full(g, r));
      forall i | n <= i < |e.calls| ensures Fresh(AddMessage(g, m), e.resultIds[i]) {
        StaysFresh(g, m, e.resultIds[i]);
      }
    }
  }

  lemma ResultStep(g: History, r: Paths, m: Message, w: seq<Message>, before: seq<Message>)
    requires Inside(g, r, w) && m.parent == g.cursor && Fresh(g, m.id) && m.role == Tool && m.meta.callId != ""
    requires Full(g, r) == before && before + [m] <= w
    ensures Inside(AddMessage(g, m), Grow(r, m.id), w) && AddMessage(g, m).cursor == Some(m.id)
    ensures Full(AddMessage(g, m), Grow(r, m.id)) == before + [m]
  {
    MovesTo(g, m);
    InsideStands(g, r, w);
    hide Inside, Full, Fresh, Grow, AddMessage, Standing;
    StandMessage(g, r, m);
    Continues(g, r, m, w);
  }

  lemma GoodTurn(h: History, p: Paths, e: Event) returns (q: Paths)
    requires Good(h, p) && e.Turn? && Fits(h, e)
    ensures Good(AddTurn(h, e), q)
  {
    hide Good, Full, Fresh, AssistantMessage, AddResults, ResultMessages, AddMessage, Grow, Inside;
    var m := AssistantMessage(h, e.id, e.content, e.calls, e.reasoning);
    AssistantIs(h, e.id, e.content, e.calls, e.reasoning);
    var w := Full(h, p) + TurnMessages(h, e);
    OpensTurn(h, p, e);
    MovesTo(h, m);
    forall i | 0 <= i < |e.calls| ensures Fresh(AddMessage(h, m), e.resultIds[i]) {
      StaysFresh(h, m, e.resultIds[i]);
    }
    assert w == Full(h, p) + [m] + ResultMessages(e.id, e.calls, e.resultIds, e.outputs, |e.calls|);
    q := InsideResults(AddMessage(h, m), Grow(p, m.id), e, w, |e.calls|);
    Closes(AddTurn(h, e), q, w);
  }

  lemma OpensTurn(h: History, p: Paths, e: Event)
    requires Good(h, p) && e.Turn? && Fits(h, e)
    ensures var m := AssistantMessage(h, e.id, e.content, e.calls, e.reasoning);
            && Inside(AddMessage(h, m), Grow(p, m.id), Full(h, p) + TurnMessages(h, e))
            && Full(AddMessage(h, m), Grow(p, m.id)) == Full(h, p) + [m]
  {
    hide Standing, Full, Fresh, AssistantMessage, ResultMessages, AddMessage, Grow, Complete, AllCovered, Inside;
    TurnIsComplete(h, e);
    AssistantIs(h, e.id, e.content, e.calls, e.reasoning);
    var m := AssistantMessage(h, e.id, e.content, e.calls, e.reasoning);
    CompleteConcat(Full(h, p), TurnMessages(h, e));
    StandMessage(h, p, m);
    Opens(h, p, m, Full(h, p) + TurnMessages(h, e));
  }

  // ---------- The other steps ----------

  /** Paths grew and the cursor shows the same messages. */
  lemma GoodSame(h: History, p: Paths, g: History, q: Paths)
    requires Good(h, p) && Standing(g, q) && g.index == h.index && Extends(p, q) && Full(g, q) == Full(h, p)
    ensures Good(g, q)
  {
    StandingIsTree(h, p);
    hide Standing, Full, AllCovered, Complete, Extends;
    TreeHoldsAll(h, p);
    ExtendsCovered(h.index, p, q);
  }

  lemma TreeHoldsAll(h: History, p: Paths)
    requires Tree(h, p)
    ensures forall id :: id in h.index ==> id in p.of
  {
    hide Closed;
    LinkedNodes(h, p.of);
  }

  lemma GoodEntry(h: History, p: Paths, g: History, e: Entry)
    requires Good(h, p) && Fresh(h, e.id) && e.parent == h.cursor && !e.kind.Leaf? && !e.kind.Compaction?
    requires g.messages == h.messages && g.index == h.index && g.entries == h.entries + [e] && g.cursor == Some(e.id)
    ensures Good(g, Grow(p, e.id))
  {
    StandingIsTree(h, p);
    AvoidsFresh(h, p, e.id);
    HangExtends(p, e.id, Some(e.id));
    GoodStands(h, p);
    hide Good, Full, Fresh, Standing, Extends;
    StandEntry(h, p, g, e);
    GoodSame(h, p, g, Grow(p, e.id));
  }

  lemma GoodStands(h: History, p: Paths)
    requires Good(h, p)
    ensures Standing(h, p) && Complete(Full(h, p))
    ensures forall id :: id in h.index ==> Covered(h.index, p.of, id)
  {
  }

  lemma {:induction false} PrefixPruned(a: seq<Message>, w: seq<Message>, ids: set<Id>)
    requires a <= w
    ensures PruneIn(a, ids) <= PruneIn(w, ids)
    ensures |a| < |w| ==> (PruneIn(w, ids)[|a|].role == Tool <==> w[|a|].role == Tool)
  {
    hide Pruned;
    RolesPruned(w, ids);
  }

  lemma RolesPruned(w: seq<Message>, ids: set<Id>)
    ensures forall i :: 0 <= i < |w| ==> PruneIn(w, ids)[i].role == w[i].role
  {
  }

  lemma CoversPruned(w: seq<Message>, ms: seq<Message>, open: bool, ids: set<Id>)
    requires Covers(w, ms, open)
    ensures Covers(PruneIn(w, ids), PruneIn(ms, ids), open)
  {
    hide Complete;
    PruneKeepsCalls(w, ids);
    CompleteByCalls(w, PruneIn(w, ids));
    PrefixPruned(ms, w, ids);
  }

  ghost predicate PrunedIndex(a: map<Id, Message>, b: map<Id, Message>, ids: set<Id>) {
    a.Keys == b.Keys && forall id :: id in a ==> b[id] == if a[id].id in ids then Pruned(a[id]) else a[id]
  }

  lemma ResultPruned(a: map<Id, Message>, b: map<Id, Message>, ids: set<Id>, id: Id)
    requires PrunedIndex(a, b, ids)
    ensures HasResult(a, id) <==> HasResult(b, id)
  {
    if HasResult(a, id) {
      var r :| r in a && a[r].role == Tool && a[r].parent == Some(id);
      assert b[r].role == Tool && b[r].parent == Some(id);
    }
    if HasResult(b, id) {
      var r :| r in b && b[r].role == Tool && b[r].parent == Some(id);
      assert a[r].role == Tool && a[r].parent == Some(id);
    }
  }

  lemma CoveredPruned(a: map<Id, Message>, b: map<Id, Message>, p: map<Id, seq<Id>>, ids: set<Id>, id: Id)
    requires PrunedIndex(a, b, ids) && Covered(a, p, id)
    ensures Covered(b, p, id)
  {
    var path := PathTo(p, Some(id));
    AlongPruned(a, b, path, ids);
    ResultPruned(a, b, ids, id);
    hide HasResult, Along, PathTo, PruneIn, Covers;
    var w :| Covers(w, Along(a, path), HasResult(a, id));
    CoversPruned(w, Along(a, path), HasResult(a, id), ids);
  }

  lemma GoodPrune(h: History, p: Paths, context: seq<Message>, keep: nat, threshold: nat)
    requires Good(h, p) && (HasForks(h) || context == h.messages)
    ensures Good(Prune(h, context, keep, threshold), p)
  {
    var g, ids := Prune(h, context, keep, threshold), Victims(context, keep, threshold);
    PruneIs(h, context, keep, threshold);
    hide Prune, Victims, Standing, Full, HasForks, Complete, Covered;
    StandPrune(h, p, context, keep, threshold);
    PruneKeepsCalls(Full(h, p), ids);
    CompleteByCalls(Full(h, p), PruneIn(Full(h, p), ids));
    assert PrunedIndex(h.index, g.index, ids);
    forall id | id in g.index ensures Covered(g.index, p.of, id) {
      CoveredPruned(h.index, g.index, p.of, ids, id);
    }
  }

  // ---------- What is sent ----------

  lemma OverlayIsBlock(text: string, ms: seq<Message>)
    ensures Complete([Overlay(text)] + ms) <==> Complete(ms)
  {
    var all := [Overlay(text)] + ms;
    assert all[1..] == ms;
    assert CallsOf(all[0]) == [];
    assert Results(all, 1, []);
    hide Results;
  }

  lemma OneMore(ms: seq<Message>, tail: seq<Message>)
    requires |tail| <= 1 && (|tail| == 1 ==> tail[0].role == Summary)
    ensures Complete(ms + tail) <==> Complete(ms)
  {
    if tail == [] {
      assert ms + tail == ms;
    } else {
      var m := tail[0];
      SummaryIsComplete(m);
      if Complete(ms) {
        CompleteConcat(ms, tail);
      }
      if Complete(ms + tail) {
        CutIsComplete(ms + tail, |ms|);
        assert (ms + tail)[..|ms|] == ms;
      }
      hide Complete;
    }
  }

  /** The part from a user message on is complete exactly if the whole is. */
  lemma SuffixComplete(w: seq<Message>, pre: seq<Message>, k: nat)
    requires Complete(w) && pre <= w && k < |pre| && pre[k].role == User
    ensures Complete(pre[k..]) <==> Complete(pre)
  {
    hide Complete;
    CutIsComplete(w, |pre|);
    assert w[..|pre|] == pre;
    CutIsComplete(w, k);
    CutIsComplete(w[k..], |pre| - k);
    assert w[k..][..|pre| - k] == pre[k..];
  }

  lemma UserIsBefore(pre: seq<Message>, tail: seq<Message>, k: nat)
    requires k < |pre + tail| && (pre + tail)[k].role == User
    requires |tail| <= 1 && (|tail| == 1 ==> tail[0].role == Summary)
    ensures k < |pre| && (pre + tail)[k] == pre[k]
  {
  }

  /** Whatever overlay applies, what is sent is in order exactly if the branch is complete. */
  lemma ContextIff(h: History, p: Paths, w: seq<Message>, pre: seq<Message>, tail: seq<Message>)
    requires Standing(h, p) && Complete(w) && pre <= w && Full(h, p) == pre + tail
    requires |tail| <= 1 && (|tail| == 1 ==> tail[0].role == Summary)
    ensures InOrder(h) <==> Complete(pre)
  {
    hide Complete, Answered, Standing, Full, Emit, ContextBranch;
    var full := Full(h, p);
    StandingNames(h, p);
    OneMore(pre, tail);
    var k, text := ContextParts(h, p);
    if k.None? {
      CompleteIffAnswered(full);
    } else {
      var rest := full[k.value..];
      UserIsBefore(pre, tail, k.value);
      assert rest == pre[k.value..] + tail;
      OneMore(pre[k.value..], tail);
      SuffixComplete(w, pre, k.value);
      OverlayIsBlock(text, rest);
      IdentifiedRest(full, k.value, text);
      CompleteIffAnswered([Overlay(text)] + rest);
    }
  }

  lemma IdentifiedRest(ms: seq<Message>, k: nat, text: string)
    requires Identified(ms) && k <= |ms|
    ensures Identified([Overlay(text)] + ms[k..])
  {
    var all := [Overlay(text)] + ms[k..];
    forall i | 0 <= i < |all| && all[i].role == Tool ensures all[i].meta.callId != "" {
      assert all[i] == ms[k + i - 1];
    }
  }

  lemma StandingNames(h: History, p: Paths)
    requires Standing(h, p)
    ensures Identified(Full(h, p)) && Tree(h, p) && KeptUsers(h) && NamedResults(h.index)
  {
    hide Base, Tree, Full, KeptUsers;
    FullIsNamed(h, p);
  }

  /** The context is the branch, or an overlay in front of the branch from a user message on. */
  lemma ContextParts(h: History, p: Paths) returns (k: Option<nat>, text: string)
    requires Standing(h, p)
    ensures k.None? ==> ContextBranch(h) == Full(h, p)
    ensures k.Some? ==> k.value < |Full(h, p)| && Full(h, p)[k.value].role == User
                        && ContextBranch(h) == [Overlay(text)] + Full(h, p)[k.value..]
  {
    StandingNames(h, p);
    hide Standing;
    TreeBranch(h, p);
    var branch := CurrentBranch(h);
    var o := Selected(h.entries, Ids(branch));
    SelectedApplies(h.entries, Ids(branch));
    hide CurrentBranch, Full, Tree, Selected;
    k, text := None, "";
    if o.Some? {
      assert KeepsUser(h, o.value);
      var n := Position(branch, o.value.kind.firstKept.value);
      FullMember(h, p, n);
      k, text := Some(n), o.value.kind.text;
    }
  }

  // ---------- Every run ----------

  lemma GoodIsInOrder(h: History, p: Paths)
    requires Good(h, p)
    ensures InOrder(h)
  {
    GoodStands(h, p);
    hide *;
    assert Full(h, p) + [] == Full(h, p);
    ContextIff(h, p, Full(h, p), Full(h, p), []);
  }

  /** A fork leaves everything in order exactly if no result hangs below its target. */
  lemma ForkInOrder(h: History, p: Paths, id: Id, target: Id) returns (q: Paths)
    requires Good(h, p) && Fresh(h, id) && target in h.index
    ensures var g := Apply(h, ForkTo(id, target));
            && (InOrder(g) <==> !HasResult(h.index, target)) && (!HasResult(h.index, target) ==> Good(g, q))
            && Standing(g, q) && Extends(p, q) && target in p.of && Full(g, q) == Along(h.index, p.of[target])
  {
    hide *;
    GoodStands(h, p);
    q := StandFork(h, p, id, target);
    var g := Apply(h, ForkTo(id, target));
    var w := Coverer(h.index, p.of, target);
    assert Full(g, q) + [] == Full(g, q);
    ContextIff(g, q, w, Full(g, q), []);
    if !HasResult(h.index, target) {
      ForkedGood(h, p, g, q);
    }
  }

  lemma ForkedGood(h: History, p: Paths, g: History, q: Paths)
    requires Good(h, p) && Standing(g, q) && g.index == h.index && Extends(p, q) && Complete(Full(g, q))
    ensures Good(g, q)
  {
    StandingIsTree(h, p);
    hide Standing, Full, AllCovered, Complete, Extends;
    TreeHoldsAll(h, p);
    ExtendsCovered(h.index, p, q);
  }

  /** A branch summary is added as an entry and as a message with the same id. */
  lemma StandTwice(a: History, q: Paths, g: History, e: Entry)
    requires Standing(a, q) && a.cursor == Some(e.id) && e.id in a.index && e.parent == a.index[e.id].parent
    requires !e.kind.Leaf? && !e.kind.Compaction? && HasForks(a)
    requires g == a.(entries := a.entries + [e])
    ensures Standing(g, q) && Full(g, q) == Full(a, q)
  {
    hide Base, HasForks, KeptUsers, NamedResults, Full;
    ForksGrow(a, g, e);
    KeptEntry(a, g, e);
    TreeTwice(a, q, g, e);
    FullByPath(a, q);
    FullByPath(g, q);
    hide Tree;
  }

  lemma TreeTwice(a: History, q: Paths, g: History, e: Entry)
    requires Tree(a, q) && e.id in a.index && e.parent == a.index[e.id].parent
    requires g == a.(entries := a.entries + [e])
    ensures Tree(g, q)
  {
    hide Closed, Placed, EntriesPlaced;
    assert Placed(q.of, e.id, e.parent);
    SameNodeTwice(a, q.of, g, e);
  }

  lemma NavigateIs(h: History, op: Op)
    requires op.Navigate? && op.target in h.index
    ensures var f, g := Apply(h, ForkTo(op.id, op.target)), Apply(h, op);
            if op.summary.None? || op.summary.value == "" || h.cursor.None? then g == f
            else
              var m := Message(op.summaryId, Some(op.target), Summary, op.summary.value, PLAIN);
              var e := Entry(op.summaryId, Some(op.target), BranchSummary(op.summary.value, h.cursor));
              g == AddMessage(f, m).(entries := f.entries + [e])
  {
  }

  /** The same for a fork that also adds a summary of the branch left behind. */
  lemma NavigateInOrder(h: History, p: Paths, op: Op) returns (q: Paths)
    requires Good(h, p) && op.Navigate? && Possible(h, op) && op.target in h.index
    ensures var g := Apply(h, op);
            (InOrder(g) <==> !HasResult(h.index, op.target)) && (!HasResult(h.index, op.target) ==> Good(g, q))
  {
    var f := Apply(h, ForkTo(op.id, op.target));
    NavigateIs(h, op);
    ForkedState(h, ForkTo(op.id, op.target));
    PossibleIs(h, op);
    hide *;
    q := ForkInOrder(h, p, op.id, op.target);
    if op.summary.Some? && op.summary.value != "" && h.cursor.Some? {
      var m := Message(op.summaryId, Some(op.target), Summary, op.summary.value, PLAIN);
      var e := Entry(op.summaryId, Some(op.target), BranchSummary(op.summary.value, h.cursor));
      ForkAddsLeaf(h, f, op);
      SummaryInOrder(h, p, f, q, Apply(h, op), m, e, op.target);
      if !HasResult(h.index, op.target) {
        SummaryGood(f, q, Apply(h, op), m, e);
      }
      q := Grow(q, m.id);
    }
  }

  lemma PossibleIs(h: History, op: Op)
    requires op.Navigate? && Possible(h, op)
    ensures Fresh(h, op.id)
  {
  }

  lemma ForkAddsLeaf(h: History, f: History, op: Op)
    requires op.Navigate? && Possible(h, op)
    requires f.entries == h.entries + [Entry(op.id, h.cursor, Leaf(op.target))] && f.index == h.index
    ensures Fresh(f, op.summaryId) && HasForks(f)
  {
    EntryAddsNode(h, f, Last(f.entries));
    ForksGrow(h, f, Last(f.entries));
    hide Nodes, HasForks;
  }

  lemma SummaryStands(f: History, q: Paths, g: History, m: Message, e: Entry)
    requires Standing(f, q) && HasForks(f) && m.role == Summary && Fresh(f, m.id) && m.parent == f.cursor == e.parent
    requires e.id == m.id && e.kind.BranchSummary? && g == AddMessage(f, m).(entries := f.entries + [e])
    ensures Standing(AddMessage(f, m), Grow(q, m.id)) && Standing(g, Grow(q, m.id)) && g.index == AddMessage(f, m).index
    ensures Full(g, Grow(q, m.id)) == Full(AddMessage(f, m), Grow(q, m.id)) == Full(f, q) + [m]
  {
    SameForks(f, AddMessage(f, m));
    AddedMessage(f, m);
    hide *;
    StandMessage(f, q, m);
    StandTwice(AddMessage(f, m), Grow(q, m.id), g, e);
  }

  lemma SummaryInOrder(h: History, p: Paths, f: History, q: Paths, g: History, m: Message, e: Entry, target: Id)
    requires Good(h, p) && Standing(f, q) && f.index == h.index && m.role == Summary && HasForks(f)
    requires Fresh(f, m.id) && m.parent == f.cursor == e.parent && e.id == m.id && e.kind.BranchSummary?
    requires f.cursor == Some(target) && target in h.index && target in p.of
    requires Full(f, q) == Along(h.index, p.of[target])
    requires g == AddMessage(f, m).(entries := f.entries + [e])
    ensures InOrder(g) <==> !HasResult(h.index, target)
  {
    GoodStands(h, p);
    hide *;
    SummaryStands(f, q, g, m, e);
    var w := Coverer(h.index, p.of, target);
    ContextIff(g, Grow(q, m.id), w, Full(f, q), [m]);
  }

  lemma SummaryGood(f: History, q: Paths, g: History, m: Message, e: Entry)
    requires Good(f, q) && m.role == Summary && HasForks(f)
    requires Fresh(f, m.id) && m.parent == f.cursor == e.parent && e.id == m.id && e.kind.BranchSummary?
    requires g == AddMessage(f, m).(entries := f.entries + [e])
    ensures Good(g, Grow(q, m.id))
  {
    GoodStands(f, q);
    assert CallsOf(m) == [];
    hide *;
    SummaryStands(f, q, g, m, e);
    GoodMessage(f, q, m);
    GoodTwice(AddMessage(f, m), Grow(q, m.id), g);
  }

  lemma GoodTwice(a: History, q: Paths, g: History)
    requires Good(a, q) && Standing(g, q) && g.index == a.index && Full(g, q) == Full(a, q)
    ensures Good(g, q)
  {
    hide Standing, Full, Complete, AllCovered;
  }

  lemma RecordInOrder(h: History, p: Paths, e: Event) returns (q: Paths)
    requires Good(h, p) && Fits(h, e) && (e.ModelChanged? || e.ThinkingChanged? || e.Labelled?)
    ensures Good(After(h, e), q)
  {
    hide Good, Fresh, SetLabel, Grow;
    q := Grow(p, e.id);
    match e
    case ModelChanged(id, provider, model) =>
      GoodEntry(h, p, After(h, e), Entry(id, h.cursor, ModelChange(provider, model)));
    case ThinkingChanged(id, level) =>
      GoodEntry(h, p, After(h, e), Entry(id, h.cursor, ThinkingChange(level)));
    case Labelled(id, target, name) =>
      GoodEntry(h, p, After(h, e), Entry(id, h.cursor, Label(target, name)));
  }

  lemma EventInOrder(h: History, p: Paths, e: Event) returns (q: Paths)
    requires Good(h, p) && Allowed(h, Do(e))
    ensures Good(After(h, e), q)
  {
    GoodStands(h, p);
    hide Good, Standing, Full, Covered, Complete, Fresh, HasForks, AssistantMessage;
    hide CompactLinear, Prune, AddTurn, SetLabel, AddMessage;
    match e
    case Request(id, content) =>
      var g := h.(failures := 0);
      GoodFailures(h, p, g);
      FreshToo(h, g, id);
      GoodMessage(g, p, Message(id, h.cursor, User, content, PLAIN));
      q := Grow(p, id);
    case Final(id, content, reasoning) =>
      AssistantIs(h, id, content, [], reasoning);
      GoodMessage(h, p, AssistantMessage(h, id, content, [], reasoning));
      q := Grow(p, id);
    case Turn(_, _, _, _, _, _) => q := GoodTurn(h, p, e);
    case ModelChanged(_, _, _) => q := RecordInOrder(h, p, e);
    case ThinkingChanged(_, _) => q := RecordInOrder(h, p, e);
    case Labelled(_, _, _) => q := RecordInOrder(h, p, e);
    case Compacted(_, _, _, _, _, _, _) =>
      q := StandLinear(h, p, e);
      GoodSame(h, p, After(h, e), q);
    case Pruning(keep, threshold) =>
      GoodPrune(h, p, h.messages, keep, threshold);
      q := p;
  }

  lemma GoodFailures(h: History, p: Paths, g: History)
    requires Good(h, p) && g == h.(failures := g.failures)
    ensures Good(g, p)
  {
    hide Standing, Full, AllCovered, Complete;
    StandFailures(h, p, g);
  }

  lemma FreshToo(h: History, g: History, id: Id)
    requires Fresh(h, id) && g == h.(failures := g.failures)
    ensures Fresh(g, id)
  {
  }

  lemma OpInOrder(h: History, p: Paths, op: Op) returns (q: Paths)
    requires Good(h, p) && Allowed(h, Branch(op))
    ensures InOrder(Apply(h, op)) <==> !Splits(h, Branch(op))
    ensures !Splits(h, Branch(op)) ==> Good(Apply(h, op), q)
  {
    GoodStands(h, p);
    hide Good, Standing, Full, Covered, Complete, Fresh, HasForks, CompactBranch, Prune, AddMessage, InOrder, HasResult,
      ContextBranch, NavigateTo, Nodes, Grow;
    q := p;
    if op.ForkTo? && op.target in h.index {
      q := ForkInOrder(h, p, op.id, op.target);
    } else if op.Navigate? && op.target in h.index {
      q := NavigateInOrder(h, p, op);
    } else {
      q := QuietInOrder(h, p, op);
      GoodIsInOrder(Apply(h, op), q);
    }
  }

  /** Everything but a successful move. */
  lemma QuietInOrder(h: History, p: Paths, op: Op) returns (q: Paths)
    requires Good(h, p) && Allowed(h, Branch(op)) && ((op.ForkTo? || op.Navigate?) ==> op.target !in h.index)
    ensures Good(Apply(h, op), q)
  {
    q := p;
    match op
    case PutSummary(id, content) =>
      assert CallsOf(Message(id, h.cursor, Summary, content, PLAIN)) == [];
      assert Apply(h, op) == AddMessage(h, Message(id, h.cursor, Summary, content, PLAIN));
      hide Good, Fresh, Grow, AddMessage, Apply;
      GoodMessage(h, p, Message(id, h.cursor, Summary, content, PLAIN));
      q := Grow(p, id);
    case Compact(_, _, _, _) =>
      GoodStands(h, p);
      hide Good, Standing, Full, Apply, Covered, Complete, Fresh, HasForks;
      q := StandCompact(h, p, op);
      GoodSame(h, p, Apply(h, op), q);
    case PruneOutputs(keep, threshold) =>
      hide Good, Prune, HasForks, ContextBranch;
      GoodPrune(h, p, ContextBranch(h), keep, threshold);
    case _ =>
      hide Good;
  }

  lemma StartIsGood()
    ensures Good(NEW, ROOT)
  {
    StartIsBase();
  }

  /**
   In every run of requests, answers, tool turns, forks, navigation, overlays, pruning and destructive compaction,
   what would be sent is in order after every step if and only if no step ever moves the cursor to a message with a
   tool result below it.
   */
  lemma {:induction false} InOrderUnlessSplit(steps: seq<Step>) returns (p: Paths)
    requires AllAllowed(steps)
    ensures AlwaysInOrder(steps) <==> NeverSplits(steps)
    ensures NeverSplits(steps) ==> Good(RunAll(steps), p)
  {
    hide Good, InOrder, Allowed, Advance, Splits;
    if steps == [] {
      p := ROOT;
      StartIsGood();
      GoodIsInOrder(NEW, ROOT);
    } else {
      var h, s := RunAll(Front(steps)), Last(steps);
      p := InOrderUnlessSplit(Front(steps));
      if NeverSplits(Front(steps)) {
        p := StepInOrder(h, p, s);
      }
    }
  }

  lemma StepInOrder(h: History, p: Paths, s: Step) returns (q: Paths)
    requires Good(h, p) && Allowed(h, s)
    ensures InOrder(Advance(h, s)) <==> !Splits(h, s)
    ensures !Splits(h, s) ==> Good(Advance(h, s), q)
  {
    hide Good, InOrder, Allowed, After, Apply;
    match s
    case Do(e) =>
      q := EventInOrder(h, p, e);
      GoodIsInOrder(After(h, e), q);
    case Branch(op) => q := OpInOrder(h, p, op);
  }

  // ---------- From any history in order ----------

  /** A history that some run reaches in which no step splits a call from its results. */
  ghost predicate Fine(h: History) {
    exists p :: Good(h, p)
  }

  lemma FineAt(h: History, p: Paths)
    requires Good(h, p)
    ensures Fine(h)
  {
  }

  lemma RunsAreFine(steps: seq<Step>)
    requires AllAllowed(steps) && NeverSplits(steps)
    ensures Fine(RunAll(steps))
  {
    hide Good, RunAll;
    var p := InOrderUnlessSplit(steps);
    FineAt(RunAll(steps), p);
  }

  lemma FineStep(h: History, s: Step)
    requires Fine(h) && Allowed(h, s) && !Splits(h, s)
    ensures Fine(Advance(h, s))
  {
    hide Good, Allowed, Splits, Advance, InOrder;
    var p :| Good(h, p);
    var q := StepInOrder(h, p, s);
    FineAt(Advance(h, s), q);
  }

  /** The context is in order, and so is the message list as long as it is what is compacted. */
  lemma FineIsInOrder(h: History)
    requires Fine(h)
    ensures InOrder(h) && (!HasForks(h) ==> Answered(Emit(h.messages)))
  {
    hide Good, InOrder, HasForks, Answered;
    var p :| Good(h, p);
    GoodIsInOrder(h, p);
    if !HasForks(h) {
      ListInOrder(h, p);
    }
  }

  lemma ListInOrder(h: History, p: Paths)
    requires Good(h, p) && !HasForks(h)
    ensures Answered(Emit(h.messages))
  {
    hide HasForks, Complete, Answered, AllCovered, Full, Tree, Shape, ForkFree, Emit;
    ShapeIsComplete(h.messages, Full(h, p));
    CompleteIsAnswered(h.messages);
  }

  /** What some steps make of a history. */
  function AdvanceAll(h: History, steps: seq<Step>): History {
    if steps == [] then h else Advance(AdvanceAll(h, Front(steps)), Last(steps))
  }

  /** Every step is possible where it is made, and none splits. */
  ghost predicate AllowedFrom(h: History, steps: seq<Step>) {
    steps != [] ==>
      var before := AdvanceAll(h, Front(steps));
      AllowedFrom(h, Front(steps)) && Allowed(before, Last(steps)) && !Splits(before, Last(steps))
  }

  lemma AdvanceMore(h: History, steps: seq<Step>, s: Step)
    ensures AdvanceAll(h, steps + [s]) == Advance(AdvanceAll(h, steps), s)
    ensures AllowedFrom(h, steps + [s]) <==>
              && AllowedFrom(h, steps) && Allowed(AdvanceAll(h, steps), s) && !Splits(AdvanceAll(h, steps), s)
  {
    assert Front(steps + [s]) == steps && Last(steps + [s]) == s;
    hide Advance, Allowed, Splits;
  }

  // ---------- A turn that was not finished ----------

  lemma {:induction false} StandResults(h: History, p: Paths, e: Event, n: nat) returns (q: Paths)
    requires Standing(h, p) && e.Turn? && n <= |e.resultIds| == |e.outputs| <= |e.calls| && Distinct(e.resultIds)
    requires h.cursor == Some(e.id)
    requires forall i :: 0 <= i < |e.resultIds| ==> Fresh(h, e.resultIds[i]) && e.calls[i].id != ""
    ensures var g := AddResults(h, e.calls, e.resultIds, e.outputs, n);
            && Standing(g, q) && g.cursor == Some(if n == 0 then e.id else e.resultIds[n - 1])
            && Full(g, q) == Full(h, p) + ResultMessages(e.id, e.calls, e.resultIds, e.outputs, n)
            && forall i :: n <= i < |e.resultIds| ==> Fresh(g, e.resultIds[i])
    decreases n
  {
    hide Standing, Full, Fresh, Grow, AddMessage;
    if n == 0 {
      q := p;
    } else {
      var r := StandResults(h, p, e, n - 1);
      var g := AddResults(h, e.calls, e.resultIds, e.outputs, n - 1);
      var m := ResultMessages(e.id, e.calls, e.resultIds, e.outputs, n)[n - 1];
      ResultsSplit(m, e, n);
      StandMessage(g, r, m);
      MovesTo(g, m);
      forall i | n <= i < |e.resultIds| ensures Fresh(AddMessage(g, m), e.resultIds[i]) {
        StaysFresh(g, m, e.resultIds[i]);
      }
      q := Grow(r, m.id);
      Longer(Full(h, p), ResultMessages(e.id, e.calls, e.resultIds, e.outputs, n - 1), m,
             ResultMessages(e.id, e.calls, e.resultIds, e.outputs, |e.outputs|));
    }
  }

  /** An assistant message and the first of its results, on any standing history. */
  lemma StandPart(h: History, p: Paths, e: Event) returns (q: Paths)
    requires Standing(h, p) && e.Turn? && Fresh(h, e.id) && |e.resultIds| == |e.outputs| <= |e.calls|
    requires Distinct(e.resultIds)
    requires forall i :: 0 <= i < |e.resultIds| ==>
               Fresh(h, e.resultIds[i]) && e.resultIds[i] != e.id && e.calls[i].id != ""
    ensures var a := AppendAssistant(h, e.id, e.content, e.calls, e.reasoning);
            var g := AddResults(a, e.calls, e.resultIds, e.outputs, |e.outputs|);
            && Standing(g, q)
            && Full(g, q) == Full(h, p) + [AssistantMessage(h, e.id, e.content, e.calls, e.reasoning)]
                             + ResultMessages(e.id, e.calls, e.resultIds, e.outputs, |e.outputs|)
  {
    hide Standing, Full, Fresh, AssistantMessage, AddResults, ResultMessages, AddMessage, Grow;
    AssistantIs(h, e.id, e.content, e.calls, e.reasoning);
    var m := AssistantMessage(h, e.id, e.content, e.calls, e.reasoning);
    StandMessage(h, p, m);
    MovesTo(h, m);
    forall i | 0 <= i < |e.resultIds| ensures Fresh(AddMessage(h, m), e.resultIds[i]) {
      StaysFresh(h, m, e.resultIds[i]);
    }
    q := StandResults(AddMessage(h, m), Grow(p, m.id), e, |e.outputs|);
  }

  /** An assistant message with more calls than there are messages after it. */
  lemma Unanswered(ms: seq<Message>, i: nat)
    requires i < |ms| <= i + |ms[i].meta.calls| && ms[i].role == Assistant
    ensures !Answered(Emit(ms))
  {
    assert Emit(ms)[i] == EmitOne(ms[i]);
    assert Emit(ms)[i].WireAssistant? && |Emit(ms)[i].calls| == |ms[i].meta.calls|;
  }

  /** Such a turn is not answered in the context, whichever overlay applies. */
  lemma PartNotInOrder(h: History, p: Paths, e: Event)
    requires Standing(h, p) && e.Turn? && Fresh(h, e.id) && |e.resultIds| == |e.outputs| < |e.calls|
    requires Distinct(e.resultIds)
    requires forall i :: 0 <= i < |e.resultIds| ==>
               Fresh(h, e.resultIds[i]) && e.resultIds[i] != e.id && e.calls[i].id != ""
    ensures var a := AppendAssistant(h, e.id, e.content, e.calls, e.reasoning);
            !InOrder(AddResults(a, e.calls, e.resultIds, e.outputs, |e.outputs|))
  {
    hide Standing, Full, Fresh, AssistantMessage, AddResults, ResultMessages, AppendAssistant, Answered, Emit;
    hide ContextBranch;
    var q := StandPart(h, p, e);
    var g := AddResults(AppendAssistant(h, e.id, e.content, e.calls, e.reasoning), e.calls, e.resultIds, e.outputs,
                        |e.outputs|);
    var m := AssistantMessage(h, e.id, e.content, e.calls, e.reasoning);
    AssistantIs(h, e.id, e.content, e.calls, e.reasoning);
    var k, text := ContextParts(g, q);
    var results := ResultMessages(e.id, e.calls, e.resultIds, e.outputs, |e.outputs|);
    ResultsAreTools(e);
    CutBefore(Full(h, p), m, results, k, text);
    Unanswered(ContextBranch(g), if k.None? then |Full(h, p)| else 1 + |Full(h, p)| - k.value);
  }

  lemma ResultsAreTools(e: Event)
    requires e.Turn? && |e.resultIds| == |e.outputs| <= |e.calls|
    ensures forall r :: r in ResultMessages(e.id, e.calls, e.resultIds, e.outputs, |e.outputs|) ==> r.role == Tool
  {
  }

  lemma CutBefore(full: seq<Message>, m: Message, results: seq<Message>, k: Option<nat>, text: string)
    requires m.role == Assistant && forall r :: r in results ==> r.role == Tool
    requires k.Some? ==>
               k.value < |full + [m] + results| && (full + [m] + results)[k.value].role == User
    ensures k.None? ==> (full + [m] + results)[|full|] == m
    ensures k.Some? ==>
              && k.value < |full|
              && ([Overlay(text)] + (full + [m] + results)[k.value..])[1 + |full| - k.value] == m
  {
    var all := full + [m] + results;
    assert forall i :: |full| < i < |all| ==> all[i] in results;
    assert all[|full|] == m;
  }

  // ---------- A run in which it fails ----------

  const ASKED := [Do(Request("u", "list files")), Do(Turn("t", "", "", [Call("1", "LS", "{}")], ["r"], ["files"]))]
  const SPLIT := ASKED + [Branch(ForkTo("l", "t"))]

  /**
   A fork to an assistant message that called a tool: its result is on the branch that was left, so its call stands
   alone.
   */
  lemma ForkIntoTurn()
    ensures AllAllowed(SPLIT) && AlwaysInOrder(ASKED) && !AlwaysInOrder(SPLIT)
  {
    AskedRun();
    hide AllAllowed, RunAll, AlwaysInOrder, NeverSplits;
    var h := RunAll(ASKED);
    assert Front(SPLIT) == ASKED && Last(SPLIT) == Branch(ForkTo("l", "t"));
    assert h.index["r"].role == Tool && h.index["r"].parent == Some("t");
    assert HasResult(h.index, "t");
    assert EntryIds(h.entries) == {};
    RunsOn(ASKED, Branch(ForkTo("l", "t")));
    var p := InOrderUnlessSplit(ASKED);
    var q := InOrderUnlessSplit(SPLIT);
  }

  lemma RunsOn(steps: seq<Step>, s: Step)
    requires AllAllowed(steps) && Allowed(RunAll(steps), s)
    ensures AllAllowed(steps + [s]) && (NeverSplits(steps + [s]) <==> NeverSplits(steps) && !Splits(RunAll(steps), s))
    ensures RunAll(steps + [s]) == Advance(RunAll(steps), s)
  {
    assert Front(steps + [s]) == steps && Last(steps + [s]) == s;
    hide Allowed, Advance, Splits;
  }

  lemma AskedRun()
    ensures AllAllowed(ASKED) && NeverSplits(ASKED)
    ensures var h := RunAll(ASKED);
            && h.index.Keys == {"u", "t", "r"} && h.entries == []
            && h.index["r"].role == Tool && h.index["r"].parent == Some("t")
  {
    var s, t := ASKED[0], ASKED[1];
    assert AllAllowed([]) && NeverSplits([]) && RunAll([]) == NEW;
    assert Nodes(NEW) == {};
    RunsOn([], s);
    assert [] + [s] == [s] && [s] + [t] == ASKED;
    var h := RunAll([s]);
    assert h == AppendUser(NEW, "u", "list files");
    assert EntryIds(h.entries) == {};
    TurnFits(h);
    RunsOn([s], t);
    hide AllAllowed, NeverSplits, RunAll;
  }

  lemma TurnFits(h: History)
    requires h.index.Keys == {"u"} && h.entries == []
    ensures var e := ASKED[1].event;
            && Fits(h, e) && After(h, e).index.Keys == {"u", "t", "r"} && After(h, e).entries == []
            && After(h, e).index["r"].role == Tool && After(h, e).index["r"].parent == Some("t")
  {
    assert EntryIds(h.entries) == {};
    var g := AppendAssistant(h, "t", "", [Call("1", "LS", "{}")], "");
    var e := ASKED[1].event;
    assert AddResults(g, e.calls, e.resultIds, e.outputs, 0) == g;
    assert AddTurn(h, e) == AppendTool(g, "r", "LS", "1", "files");
  }
}
