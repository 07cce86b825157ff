/** The history manager itself: fields updated in place, loops over parent links, rounds and entries. */
module HistoryManagers {
  import opened Common
  import opened History
  import opened HistoryAnswers
  import opened HistoryTree
  import opened HistoryWire

  class HistoryManager {
    var messages: seq<Message>
    var index: map<Id, Message>
    var entries: seq<Entry>
    var cursor: Option<Id>
    var labels: map<Id, string>
    var model: Option<(string, string)>
    var thinking: string
    var failures: nat
    const config: Config

    /** The manager's state as a value. */
    ghost function View(): History
      reads this
    {
      History(messages, index, entries, cursor, labels, model, thinking, failures)
    }

    constructor (config: Config)
      ensures View() == NEW && this.config == config
    {
      this.config := config;
      messages, index, entries, cursor := [], map[], [], None;
      labels, model, thinking, failures := map[], None, "off", 0;
    }

    /** A generated identifier is taken to be one that no message or entry has. */
    method GenerateId() returns (id: Id)
      ensures Fresh(View(), id)
    {
      var used := index.Keys + set e | e in entries :: e.id;
      assert used == Nodes(View()) by {
        assert forall e :: e in entries ==> exists i :: 0 <= i < |entries| && entries[i] == e;
      }
      var rest, n := used, 1;
      while rest != {}
        invariant n >= 1 && rest <= used && forall x :: x in used && x !in rest ==> |x| < n
        decreases rest
      {
        var x :| x in rest;
        if |x| >= n {
          n := |x| + 1;
        }
        rest := rest - {x};
      }
      id := seq(n, _ => 'x');
    }

    // ---------- Appending ----------

    method Add(m: Message)
      modifies this
      ensures View() == AddMessage(old(View()), m)
    {
      messages := messages + [m];
      index := index[m.id := m];
      cursor := Some(m.id);
    }

    method AddUser(id: Id, content: string)
      modifies this
      ensures View() == Apply(old(View()), PutUser(id, content)) == AppendUser(old(View()), id, content)
      ensures Appends(old(View()), View(), Message(id, old(cursor), User, content, PLAIN)) && failures == 0
    {
      failures := 0;
      Add(Message(id, cursor, User, content, PLAIN));
    }

    method AddAssistant(id: Id, content: string, calls: seq<Call>, reasoning: string)
      modifies this
      ensures View() == AppendAssistant(old(View()), id, content, calls, reasoning)
      ensures View() == Apply(old(View()), PutAssistant(id, content, calls, reasoning))
      ensures var (provider, name) := if model.Some? then model.value else ("", "");
              Appends(old(View()), View(), Message(id, old(cursor), Assistant, content,
                                                   Meta(calls, "", "", false, 0, "", reasoning, name, provider)))
      ensures failures == old(failures)
    {
      var meta := PLAIN.(calls := calls, reasoning := reasoning);
      if model.Some? {
        meta := meta.(model := model.value.1, provider := model.value.0);
      }
      Add(Message(id, cursor, Assistant, content, meta));
    }

    method AddTool(id: Id, toolName: string, callId: string, content: string)
      modifies this
      ensures View() == AppendTool(old(View()), id, toolName, callId, content)
      ensures View() == Apply(old(View()), PutTool(id, toolName, callId, content))
      ensures Appends(old(View()), View(), Message(id, old(cursor), Role.Tool, content,
                                                   Meta([], callId, toolName, false, 0, "", "", "", "")))
      ensures failures == old(failures)
    {
      Add(Message(id, cursor, Tool, content, PLAIN.(callId := callId, toolName := toolName)));
    }

    method AddSummary(id: Id, content: string)
      modifies this
      ensures View() == Apply(old(View()), PutSummary(id, content)) == AppendSummary(old(View()), id, content)
      ensures Appends(old(View()), View(), Message(id, old(cursor), Summary, content, PLAIN))
      ensures failures == old(failures)
    {
      Add(Message(id, cursor, Summary, content, PLAIN));
    }

    method AddModelChange(id: Id, provider: string, name: string)
      modifies this
      ensures View() == AppendModelChange(old(View()), id, provider, name)
      ensures View() == Apply(old(View()), PutModel(id, provider, name))
      ensures Records(old(View()), View(), Entry(id, old(cursor), ModelChange(provider, name)))
      ensures model == Some((provider, name)) && thinking == old(thinking) && labels == old(labels)
    {
      model := Some((provider, name));
      entries := entries + [Entry(id, cursor, ModelChange(provider, name))];
      cursor := Some(id);
    }

    method AddThinkingChange(id: Id, level: string)
      modifies this
      ensures View() == Apply(old(View()), PutThinking(id, level)) == AppendThinkingChange(old(View()), id, level)
      ensures Records(old(View()), View(), Entry(id, old(cursor), ThinkingChange(level)))
      ensures thinking == level && model == old(model) && labels == old(labels)
    {
      thinking := level;
      entries := entries + [Entry(id, cursor, ThinkingChange(level))];
      cursor := Some(id);
    }

    method AddLabel(id: Id, target: Id, name: Option<string>)
      modifies this
      ensures View() == Apply(old(View()), PutLabel(id, target, name)) == AppendLabel(old(View()), id, target, name)
      ensures Records(old(View()), View(), Entry(id, old(cursor), Label(target, name)))
      ensures labels == if name.Some? && name.value != "" then old(labels)[target := name.value]
                        else old(labels) - {target}
      ensures model == old(model) && thinking == old(thinking)
    {
      if name.Some? && name.value != "" {
        labels := labels[target := name.value];
      } else if target in labels {
        labels := labels - {target};
      } else {
        assert labels - {target} == labels;
      }
      entries := entries + [Entry(id, cursor, Label(target, name))];
      cursor := Some(id);
    }

    // ---------- Moving ----------

    method ForkAt(leafId: Id, target: Id) returns (ok: bool)
      modifies this
      ensures ok <==> target in old(index)
      ensures ok ==> View() == old(View()).(entries := old(entries) + [Entry(leafId, old(cursor), Leaf(target))],
                                            cursor := Some(target))
      ensures ok == Fork(old(View()), leafId, target).Ok?
      ensures View() == if ok then Fork(old(View()), leafId, target).value else old(View())
      ensures View() == Apply(old(View()), ForkTo(leafId, target))
    {
      if target !in index {
        return false;
      }
      entries := entries + [Entry(leafId, cursor, Leaf(target))];
      cursor := Some(target);
      return true;
    }

    method Navigate(leafId: Id, target: Id, summaryId: Id, summary: Option<string>) returns (ok: bool)
      modifies this
      ensures ok <==> target in old(index)
      ensures ok ==>
                var leaf := Entry(leafId, old(cursor), Leaf(target));
                if summary in {None, Some("")} || old(cursor).None? then
                  View() == old(View()).(entries := old(entries) + [leaf], cursor := Some(target))
                else
                  var m := Message(summaryId, Some(target), Summary, summary.value, PLAIN);
                  var left := Entry(summaryId, Some(target), BranchSummary(summary.value, old(cursor)));
                  View() == old(View()).(entries := old(entries) + [leaf] + [left], messages := old(messages) + [m],
                                         index := old(index)[summaryId := m], cursor := Some(summaryId))
      ensures ok == NavigateTo(old(View()), leafId, target, summaryId, summary).Ok?
      ensures View() == if ok then NavigateTo(old(View()), leafId, target, summaryId, summary).value else old(View())
      ensures View() == Apply(old(View()), Op.Navigate(leafId, target, summaryId, summary))
    {
      var from := cursor;
      ok := ForkAt(leafId, target);
      if ok && summary.Some? && summary.value != "" && from.Some? {
        var m := Message(summaryId, Some(target), Summary, summary.value, PLAIN);
        entries := entries + [Entry(summaryId, Some(target), BranchSummary(summary.value, from))];
        index := index[summaryId := m];
        messages := messages + [m];
        cursor := Some(summaryId);
      }
    }

    method Find(id: Id) returns (e: Option<Entry>)
      ensures var f := FindEntry(entries, id); e == if f.Some? then Some(entries[f.value]) else None
    {
      for i := 0 to |entries|
        invariant FindEntry(entries[..i], id).None?
      {
        assert Front(entries[..i + 1]) == entries[..i];
        if entries[i].id == id {
          FoundInPrefix(entries, i + 1, id);
          return Some(entries[i]);
        }
      }
      assert entries[..|entries|] == entries;
      return None;
    }

    /** Walks up from the cursor, collecting messages, and turns the list round. */
    method GetCurrentBranch() returns (branch: seq<Message>)
      ensures branch == CurrentBranch(View())
      ensures cursor in {None, Some("")} ==> branch == messages
    {
      if cursor.None? || cursor.value == "" {
        return messages;
      }
      ghost var nodes := index.Keys + EntryIds(entries);
      var chain: seq<Message> := [];
      var at, seen := cursor, {};
      while at.Some? && at.value !in seen
        invariant Walk(View(), cursor, {}) == Walk(View(), at, seen) + Backwards(chain)
        decreases nodes - seen, at.Some?
      {
        WalkStep(View(), at.value, seen);
        if at.value in index {
          var m := index[at.value];
          seen := seen + {at.value};
          chain := chain + [m];
          at := m.parent;
        } else {
          EntryIdsHold(entries, at.value);
          var e := Find(at.value);
          seen := seen + {at.value};
          if e.None? {
            break;
          }
          at := e.value.parent;
        }
      }
      branch := Reverse(chain);
    }

    // ---------- Rounds and pruning ----------

    /** First and last position of each round. */
    static method IdentifyRounds(ms: seq<Message>) returns (rounds: seq<(nat, nat)>)
      ensures |rounds| == |UserIndexes(ms)| && RoundsOf(rounds, UserIndexes(ms), |ms|)
    {
      hide UserIndexes, RoundsOf, RoundsSoFar;
      rounds := [];
      var start: Option<nat> := None;
      assert ms[..0] == [];
      NoUsers();
      for i := 0 to |ms|
        invariant RoundsSoFar(rounds, start, UserIndexes(ms[..i]), i)
      {
        RoundsNext(rounds, start, ms, i);
        if ms[i].role == User {
          if start.Some? {
            rounds := rounds + [(start.value, i - 1)];
          }
          start := Some(i);
        }
      }
      assert ms[..|ms|] == ms;
      RoundsEnd(rounds, start, UserIndexes(ms), |ms|);
      if start.Some? {
        rounds := rounds + [(start.value, |ms| - 1)];
      }
    }

    method AnyForks() returns (b: bool)
      ensures b == HasForks(View()) && (b <==> exists e :: e in entries && e.kind.Leaf?)
    {
      for i := 0 to |entries|
        invariant forall k :: 0 <= k < i ==> !entries[k].kind.Leaf?
      {
        if entries[i].kind.Leaf? {
          return true;
        }
      }
      return false;
    }

    /** Shrinks one message object, which the list and the index share. */
    method PruneObject(id: Id)
      modifies `messages, `index
      ensures messages == PruneIn(old(messages), {id})
      ensures index == map x | x in old(index) ::
          if old(index)[x].id == id then Pruned(old(index)[x]) else old(index)[x]
    {
      messages := PruneIn(messages, {id});
      index := map x | x in index :: if index[x].id == id then Pruned(index[x]) else index[x];
    }

    // ---------- Context ----------

    method SelectedCompaction(branch: seq<Message>) returns (o: Option<Entry>)
      ensures o == Selected(entries, Ids(branch)) && NewestOverlay(o, entries, branch)
    {
      SelectedIsNewest(entries, branch);
      var ids := set m | m in branch :: m.id;
      assert ids == Ids(branch) by {
        assert forall m :: m in branch ==> exists i :: 0 <= i < |branch| && branch[i] == m;
      }
      var i := |entries|;
      assert entries[..i] == entries;
      while i > 0
        invariant i <= |entries| && Selected(entries, Ids(branch)) == Selected(entries[..i], Ids(branch))
      {
        assert Front(entries[..i]) == entries[..i - 1];
        i := i - 1;
        if Applies(entries[i], ids) {
          return Some(entries[i]);
        }
      }
      return None;
    }

    method ContextBranchMessages() returns (context: seq<Message>)
      ensures context == ContextBranch(View())
      ensures exists o ::
                NewestOverlay(o, entries, CurrentBranch(View())) && ShowsBranch(context, CurrentBranch(View()), o)
    {
      ContextShows(View());
      hide NewestOverlay, ShowsBranch;
      var branch := GetCurrentBranch();
      var o := SelectedCompaction(branch);
      if o.None? || !o.value.kind.Compaction? || o.value.kind.firstKept.None? {
        return branch;
      }
      var i := PositionOf(branch, o.value.kind.firstKept.value);
      return [Overlay(o.value.kind.text)] + branch[i..];
    }

    static method PositionOf(ms: seq<Message>, id: Id) returns (i: nat)
      ensures i == Position(ms, id)
    {
      i := 0;
      while i < |ms| && ms[i].id != id
        invariant i <= |ms| && Position(ms, id) == i + Position(ms[i..], id)
      {
        assert ms[i..][1..] == ms[i + 1..];
        i := i + 1;
      }
    }

    /** Bulky results before the last `keepRounds` rounds shrink to a stub; at least one round is kept whole. */
    method PruneToolOutputs(keepRounds: int, minChars: int) returns (pruned: nat)
      modifies this
      ensures var keep: nat := if keepRounds < 1 then 1 else keepRounds;
              var threshold: nat := if minChars < 0 then 0 else minChars;
              var context := if old(HasForks(View())) then old(ContextBranch(View())) else old(messages);
              && View() == Prune(old(View()), context, keep, threshold)
              && pruned == |Victims(context, keep, threshold)|
              && View() == Apply(old(View()), PruneOutputs(keep, threshold))
              && ShrinksBulky(old(View()), View(), context, keep, threshold)
    {
      var keep: nat, threshold: nat := if keepRounds < 1 then 1 else keepRounds, if minChars < 0 then 0 else minChars;
      PruneIsOperation(View(), keep, threshold);
      hide Prune, Victims, HasForks, ContextBranch, ShrinksBulky, Apply;
      var forks := AnyForks();
      var context := messages;
      if forks {
        context := ContextBranchMessages();
      }
      PruneShrinks(View(), context, keep, threshold);
      pruned := PruneContext(context, keep, threshold);
    }

    method PruneContext(context: seq<Message>, keep: nat, threshold: nat) returns (pruned: nat)
      requires keep >= 1
      modifies `messages, `index
      ensures View() == Prune(old(View()), context, keep, threshold) && pruned == |Victims(context, keep, threshold)|
    {
      var rounds := IdentifyRounds(context);
      hide UserIndexes, Pruned, Prunable;
      if |rounds| <= keep {
        assert PruneIn(messages, {}) == messages;
        return 0;
      }
      var cutoff := rounds[|rounds| - keep].0;
      assert cutoff == UserIndexes(context)[|UserIndexes(context)| - keep];
      hide RoundsOf;
      var done := PrunePrefix(context, cutoff, threshold);
      assert done == Victims(context, keep, threshold);
      return |done|;
    }

    method PrunePrefix(context: seq<Message>, cutoff: nat, threshold: nat) returns (done: set<Id>)
      requires cutoff <= |context|
      modifies `messages, `index
      ensures done == set k | 0 <= k < cutoff && Prunable(context[k], threshold) :: context[k].id
      ensures messages == PruneIn(old(messages), done)
      ensures index == map x | x in old(index) ::
          if old(index)[x].id in done then Pruned(old(index)[x]) else old(index)[x]
    {
      done := {};
      assert PruneIn(messages, {}) == messages;
      hide Pruned;
      for i := 0 to cutoff
        invariant done == set k | 0 <= k < i && Prunable(context[k], threshold) :: context[k].id
        invariant messages == PruneIn(old(messages), done)
        invariant index == map x | x in old(index) ::
            if old(index)[x].id in done then Pruned(old(index)[x]) else old(index)[x]
      {
        if Prunable(context[i], threshold) && context[i].id !in done {
          PrunedOneMore(old(messages), done, context[i].id);
          PrunedIndexOneMore(old(index), done, context[i].id);
          PruneObject(context[i].id);
          done := done + {context[i].id};
        }
      }
    }

    /**
     `generated`, `digest`, `anchor` and `goal` are what the generator and the text helpers give for the dropped part.
     Retaining no round is refused after a fork and an index error before the first one.
     */
    method Compact(id: Id, summaryId: Id, generated: Generated, digest: string, anchor: string, goal: string)
      returns (compressed: bool, raised: bool)
      modifies this
      ensures old(HasForks(View())) ==>
                var r := CompactBranch(old(View()), config, id, generated, anchor);
                compressed == r.Ok? && !raised && View() == if r.Ok? then r.value else r.error.0
      ensures (exists e :: e in old(entries) && e.kind.Leaf?) ==>
                && !raised && CompactsBranch(old(View()), View(), config, id, generated, anchor, compressed)
                && View() == Apply(old(View()), Op.Compact(id, config, generated, anchor))
      ensures (forall e :: e in old(entries) ==> !e.kind.Leaf?) ==>
                CompactsList(old(View()), View(), config, summaryId, id, generated, digest, anchor, goal, compressed,
                             raised)
      ensures !old(HasForks(View())) ==>
                var r := CompactLinear(old(View()), config, summaryId, id, generated, digest, anchor, goal);
                compressed == r.Ok? && raised == (r.Err? && r.error.1.OutOfRange?)
                && View() == if r.Ok? then r.value else r.error.0
    {
      BranchCompaction(View(), config, id, generated, anchor);
      ListCompaction(View(), config, summaryId, id, generated, digest, anchor, goal);
      hide CompactBranch, CompactLinear, CompactsBranch, CompactsList;
      var forks := AnyForks();
      raised := false;
      if forks {
        compressed := CompactSelectedBranch(id, generated, anchor);
      } else {
        compressed, raised := CompactMessages(id, summaryId, generated, digest, anchor, goal);
      }
    }

    method CompactSelectedBranch(id: Id, generated: Generated, anchor: string) returns (compressed: bool)
      modifies this
      ensures var r := CompactBranch(old(View()), config, id, generated, anchor);
              compressed == r.Ok? && View() == if r.Ok? then r.value else r.error.0
    {
      hide UserIndexes, WithAnchor, ContextBranch, CurrentBranch, NewestOverlay, ShowsBranch;
      if failures >= Limit(config) {
        return false;
      }
      var current := ContextBranchMessages();
      var rounds := IdentifyRounds(current);
      if |rounds| <= config.minRetain {
        return false;
      }
      var firstKeep := if config.minRetain > 0 then rounds[|rounds| - config.minRetain].0 else |current|;
      var kept := current[firstKeep..];
      if kept == [] || generated.Unavailable? {
        return false;
      }
      if generated.Failed? || generated.text == "" {
        failures := failures + 1;
        return false;
      }
      var text := WithAnchor(generated.text, anchor);
      if |text| > config.maxSummary {
        failures := failures + 1;
        return false;
      }
      entries := entries + [Entry(id, cursor, Compaction(text, Some(kept[0].id), true))];
      failures := 0;
      return true;
    }

    method CompactMessages(id: Id, summaryId: Id, generated: Generated, digest: string, anchor: string, goal: string)
      returns (compressed: bool, raised: bool)
      modifies this
      ensures var r := CompactLinear(old(View()), config, summaryId, id, generated, digest, anchor, goal);
              compressed == r.Ok? && raised == (r.Err? && r.error.1.OutOfRange?)
              && View() == if r.Ok? then r.value else r.error.0
    {
      hide UserIndexes, WithAnchor, WithDigest, SelectSummaries;
      if failures >= Limit(config) {
        return false, false;
      }
      var rounds := IdentifyRounds(messages);
      if |rounds| <= config.minRetain {
        return false, false;
      }
      if |rounds| - config.minRetain >= |rounds| {
        return false, true;
      }
      var from := rounds[|rounds| - config.minRetain].0;
      var toCompress := SelectSummaries(messages[..from], false);
      if toCompress == [] {
        return false, false;
      }
      if generated.Unavailable? {
        return false, false;
      }
      if generated.Failed? || generated.text == "" {
        failures := failures + 1;
        return false, false;
      }
      var text := WithAnchor(WithDigest(config, generated.text, digest), anchor);
      if |text| > config.maxSummary {
        failures := failures + 1;
        return false, false;
      }
      ReplacePrefix(id, from, text, Message(summaryId, cursor, Summary, text, PLAIN.(goal := goal)));
      return true, false;
    }

    /** One summary in place of the first `from` messages, and an entry that says so. */
    method ReplacePrefix(id: Id, from: nat, text: string, summary: Message)
      requires from < |messages|
      modifies this
      ensures var h := old(View());
              var ms := [summary] + h.messages[from..];
              View() == h.(messages := ms, failures := 0, cursor := Some(ms[|ms| - 1].id),
                           entries := h.entries + [Entry(id, h.cursor, Compaction(text, Some(ms[1].id), false))])
    {
      failures := 0;
      messages := [summary] + messages[from..];
      entries := entries + [Entry(id, cursor, Compaction(text, Some(messages[1].id), false))];
      cursor := Some(messages[|messages| - 1].id);
    }

    /** What is sent to the model, message by message. */
    static method MessagesToWire(ms: seq<Message>) returns (ws: seq<Wire>)
      ensures ws == Emit(ms)
      ensures |ws| == |ms| && forall i :: 0 <= i < |ms| ==> Sends(ws[i], ms[i])
    {
      ws := [];
      for i := 0 to |ms|
        invariant |ws| == i && forall k :: 0 <= k < i ==> ws[k] == EmitOne(ms[k])
      {
        var m := ms[i];
        match m.role
        case User => ws := ws + [WireUser(m.content)];
        case Assistant => ws := ws + [WireAssistant(m.content, m.meta.reasoning, EmitCalls(m.meta.calls))];
        case Tool =>
          if m.meta.callId != "" {
            ws := ws + [WireTool(m.meta.callId, m.content)];
          } else {
            ws := ws + [WireUser(Frame("unpaired tool output (" + m.meta.toolName + ")", m.content))];
          }
        case Summary => ws := ws + [WireUser(Frame("compacted conversation summary", m.content))];
      }
      hide EmitOne, Sends;
      forall i | 0 <= i < |ms| ensures Sends(ws[i], ms[i]) {
        EmitSends(ms[i]);
      }
    }

    // ---------- Persistence ----------

    method SerializeEntries() returns (saved: seq<Saved>)
      ensures saved == Serialize(View())
    {
      saved := [];
      for i := 0 to |messages|
        invariant |saved| == i && forall k :: 0 <= k < i ==> saved[k] == SavedMessage(messages[k])
      {
        saved := saved + [SavedMessage(messages[i])];
      }
      for i := 0 to |entries|
        invariant |saved| == |messages| + i
        invariant forall k :: 0 <= k < |messages| ==> saved[k] == SavedMessage(messages[k])
        invariant forall k :: |messages| <= k < |messages| + i ==> saved[k] == SavedEntry(entries[k - |messages|])
      {
        saved := saved + [SavedEntry(entries[i])];
      }
    }

    /** Loading replaces everything but the failure count. */
    method LoadEntries(saved: seq<Saved>)
      modifies this
      ensures View() == Load(saved).(failures := old(failures))
      ensures forall id :: LastLabel(saved, labels, id)
    {
      forall id ensures LastLabel(saved, Load(saved).labels, id) {
        LoadedLabels(saved, id);
      }
      hide LoadOne, LastLabel;
      messages, index, entries, cursor := [], map[], [], None;
      labels, model, thinking := map[], None, "off";
      for i := 0 to |saved|
        invariant failures == old(failures) && View() == Load(saved[..i]).(failures := failures)
      {
        assert Front(saved[..i + 1]) == saved[..i] && Last(saved[..i + 1]) == saved[i];
        LoadOneKeepsFailures(Load(saved[..i]), failures, saved[i]);
        LoadSaved(saved[i]);
      }
      assert saved[..|saved|] == saved;
    }

    method LoadSaved(s: Saved)
      modifies this
      ensures View() == LoadOne(old(View()), s)
    {
      match s
      case SavedMessage(m) => Add(m);
      case SavedEntry(e) => LoadEntry(e);
    }

    method LoadEntry(e: Entry)
      modifies this
      ensures View() == LoadOne(old(View()), SavedEntry(e))
    {
      entries := entries + [e];
      if !e.kind.Compaction? {
        cursor := Some(e.id);
      }
      match e.kind
      case ModelChange(provider, name) => model := Some((provider, name));
      case ThinkingChange(level) => thinking := level;
      case Label(target, name) =>
        if target != "" {
          if name.Some? && name.value != "" {
            labels := labels[target := name.value];
          } else {
            labels := labels - {target};
          }
        }
      case _ =>
    }

    method RestoreTree(at: Option<Id>, saved: map<Id, string>)
      modifies this
      ensures View() == RestoreTreeState(old(View()), at, saved)
      ensures labels == saved
      ensures var known := at.Some? && (at.value in index || exists e :: e in entries && e.id == at.value);
              cursor == if known then at else old(cursor)
    {
      if at.Some? {
        var e := Find(at.value);
        if at.value in index || e.Some? {
          cursor := at;
        }
      }
      labels := saved;
    }
  }

  lemma PruneIsOperation(h: History, keep: nat, threshold: nat)
    ensures Apply(h, PruneOutputs(keep, threshold))
         == Prune(h, if HasForks(h) then ContextBranch(h) else h.messages, keep, threshold)
  {
    hide Prune, HasForks, ContextBranch;
  }

  // ---------- About the loops ----------

  /** Each round begins at a user message and ends before the next, or at the end. */
  ghost predicate RoundsOf(rounds: seq<(nat, nat)>, users: seq<nat>, n: nat) {
    && |rounds| <= |users|
    && forall k :: 0 <= k < |rounds| ==>
         rounds[k].0 == users[k] && rounds[k].1 + 1 == if k + 1 < |users| then users[k + 1] else n
  }

  lemma NextUser(ms: seq<Message>, i: nat)
    requires i < |ms|
    ensures UserIndexes(ms[..i + 1]) == if ms[i].role == User then UserIndexes(ms[..i]) + [i] else UserIndexes(ms[..i])
  {
    assert Front(ms[..i + 1]) == ms[..i] && Last(ms[..i + 1]) == ms[i];
  }

  /** A message that is no user message lengthens the open round; a user message closes it and opens the next. */
  lemma RoundsGrow(rounds: seq<(nat, nat)>, users: seq<nat>, i: nat)
    requires RoundsOf(rounds, users, i) && |users| <= |rounds| + 1
    requires forall k :: 0 <= k < |users| ==> users[k] < i
    ensures |rounds| < |users| || users == [] ==> RoundsOf(rounds, users, i + 1)
    ensures users == [] ==> RoundsOf(rounds, users + [i], i + 1)
    ensures |rounds| < |users| ==> 0 < i && RoundsOf(rounds + [(Last(users), i - 1)], users + [i], i + 1)
  {
    if |rounds| < |users| {
      assert users[|users| - 1] < i;
    }
  }

  /** The rounds that are closed, and where the open one starts, if there is one. */
  ghost predicate RoundsSoFar(rounds: seq<(nat, nat)>, start: Option<nat>, users: seq<nat>, i: nat) {
    && (start.None? ==> users == [] && rounds == [])
    && (start.Some? ==> |users| == |rounds| + 1 && Last(users) == start.value && start.value < i)
    && RoundsOf(rounds, users, i)
  }

  lemma RoundsNext(rounds: seq<(nat, nat)>, start: Option<nat>, ms: seq<Message>, i: nat)
    requires i < |ms| && RoundsSoFar(rounds, start, UserIndexes(ms[..i]), i)
    ensures start.Some? ==> i > 0
    ensures ms[i].role == User ==>
              RoundsSoFar(if start.Some? then rounds + [(start.value, i - 1)] else rounds, Some(i),
                          UserIndexes(ms[..i + 1]), i + 1)
    ensures ms[i].role != User ==> RoundsSoFar(rounds, start, UserIndexes(ms[..i + 1]), i + 1)
  {
    hide UserIndexes, RoundsOf;
    NextUser(ms, i);
    RoundsGrow(rounds, UserIndexes(ms[..i]), i);
  }

  lemma RoundsClose(rounds: seq<(nat, nat)>, users: seq<nat>, n: nat)
    requires RoundsOf(rounds, users, n) && |users| == |rounds| + 1 && Last(users) < n
    ensures RoundsOf(rounds + [(Last(users), n - 1)], users, n)
  {
  }

  lemma RoundsEnd(rounds: seq<(nat, nat)>, start: Option<nat>, users: seq<nat>, n: nat)
    requires RoundsSoFar(rounds, start, users, n)
    ensures start.None? ==> |rounds| == |users| && RoundsOf(rounds, users, n)
    ensures start.Some? ==>
              && n > 0 && |rounds| + 1 == |users|
              && RoundsOf(rounds + [(start.value, n - 1)], users, n)
  {
    if start.Some? {
      RoundsClose(rounds, users, n);
    }
  }

  lemma NoUsers()
    ensures UserIndexes([]) == [] && RoundsSoFar([], None, [], 0)
  {
  }

  lemma FoundInPrefix(entries: seq<Entry>, n: nat, id: Id)
    requires n <= |entries| && FindEntry(entries[..n], id).Some?
    ensures FindEntry(entries, id) == FindEntry(entries[..n], id)
    decreases |entries|
  {
    if n == |entries| {
      assert entries[..n] == entries;
    } else {
      assert Front(entries)[..n] == entries[..n];
      FoundInPrefix(Front(entries), n, id);
    }
  }

  lemma LoadOneKeepsFailures(h: History, failures: nat, s: Saved)
    ensures LoadOne(h.(failures := failures), s) == LoadOne(h, s).(failures := failures)
  {
    hide SetLabel;
  }

  lemma PrunedOneMore(ms: seq<Message>, ids: set<Id>, id: Id)
    requires id !in ids
    ensures PruneIn(PruneIn(ms, ids), {id}) == PruneIn(ms, ids + {id})
  {
  }

  lemma PrunedIndexOneMore(a: map<Id, Message>, ids: set<Id>, id: Id)
    requires id !in ids
    ensures var b := map x | x in a :: if a[x].id in ids then Pruned(a[x]) else a[x];
            (map x | x in b :: if b[x].id == id then Pruned(b[x]) else b[x])
            == map x | x in a :: if a[x].id in ids + {id} then Pruned(a[x]) else a[x]
  {
  }

  function Backwards<T>(s: seq<T>): (r: seq<T>)
    ensures |r| == |s| && forall i :: 0 <= i < |s| ==> r[i] == s[|s| - 1 - i]
  {
    seq(|s|, i requires 0 <= i < |s| => s[|s| - 1 - i])
  }

  method Reverse<T>(s: seq<T>) returns (r: seq<T>)
    ensures r == Backwards(s)
  {
    r := [];
    for i := 0 to |s|
      invariant |r| == i && forall k :: 0 <= k < i ==> r[k] == s[i - 1 - k]
    {
      r := [s[i]] + r;
    }
  }

  lemma WalkStep(h: History, id: Id, seen: set<Id>)
    requires id !in seen
    ensures var f := FindEntry(h.entries, id);
            Walk(h, Some(id), seen) ==
              if id in h.index then Walk(h, h.index[id].parent, seen + {id}) + [h.index[id]]
              else if f.Some? then Walk(h, h.entries[f.value].parent, seen + {id})
              else []
  {
  }
}
