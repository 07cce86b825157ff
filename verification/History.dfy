/**
 The conversation history of core/context_engine/history_manager.py: messages linked by parent ids,
 entries that record what is not a message, and a cursor on which the next one is appended.
 */
module History {
  import opened Common

  /** Generated identifiers; the empty one marks a message built on the fly and stored nowhere. */
  type Id = string

  datatype Role = User | Assistant | Tool | Summary

  datatype Call = Call(id: string, name: string, arguments: string)

  /** The metadata this model reads or writes: tool calls of an assistant, call and name of a result. */
  datatype Meta = Meta(calls: seq<Call>, callId: string, toolName: string, pruned: bool, originalChars: nat,
                       goal: string, reasoning: string, model: string, provider: string)

  const PLAIN := Meta([], "", "", false, 0, "", "", "", "")

  datatype Message = Message(id: Id, parent: Option<Id>, role: Role, content: string, meta: Meta)

  datatype Kind =
    | ModelChange(provider: string, model: string)
    | ThinkingChange(level: string)
    | Label(target: Id, name: Option<string>)
    | Leaf(target: Id)
    | BranchSummary(text: string, from: Option<Id>)
    | Compaction(text: string, firstKept: Option<Id>, branchScoped: bool)

  datatype Entry = Entry(id: Id, parent: Option<Id>, kind: Kind)

  datatype History = History(
    messages: seq<Message>, index: map<Id, Message>, entries: seq<Entry>, cursor: Option<Id>,
    labels: map<Id, string>, model: Option<(string, string)>, thinking: string, failures: nat)

  const NEW := History([], map[], [], None, map[], None, "off", 0)

  // ---------- Appending ----------

  function AddMessage(h: History, m: Message): History {
    h.(messages := h.messages + [m], index := h.index[m.id := m], cursor := Some(m.id))
  }

  function AppendUser(h: History, id: Id, content: string): History {
    AddMessage(h.(failures := 0), Message(id, h.cursor, User, content, PLAIN))
  }

  /** Assistant messages carry the model that was last selected. */
  function AssistantMessage(h: History, id: Id, content: string, calls: seq<Call>, reasoning: string): Message {
    var model := if h.model.Some? then h.model.value.1 else "";
    var provider := if h.model.Some? then h.model.value.0 else "";
    Message(id, h.cursor, Assistant, content, PLAIN.(calls := calls, reasoning := reasoning, model := model,
                                                     provider := provider))
  }

  function AppendAssistant(h: History, id: Id, content: string, calls: seq<Call>, reasoning: string): History {
    AddMessage(h, AssistantMessage(h, id, content, calls, reasoning))
  }

  /** `content` is the tool's observation after truncation. */
  function AppendTool(h: History, id: Id, toolName: string, callId: string, content: string): History {
    AddMessage(h, Message(id, h.cursor, Tool, content, PLAIN.(callId := callId, toolName := toolName)))
  }

  function AppendSummary(h: History, id: Id, content: string): History {
    AddMessage(h, Message(id, h.cursor, Summary, content, PLAIN))
  }

  /** Entries hang below the cursor and become the cursor. */
  function AddEntry(h: History, id: Id, kind: Kind): History {
    h.(entries := h.entries + [Entry(id, h.cursor, kind)], cursor := Some(id))
  }

  function AppendModelChange(h: History, id: Id, provider: string, model: string): History {
    AddEntry(h.(model := Some((provider, model))), id, ModelChange(provider, model))
  }

  function AppendThinkingChange(h: History, id: Id, level: string): History {
    AddEntry(h.(thinking := level), id, ThinkingChange(level))
  }

  function SetLabel(labels: map<Id, string>, target: Id, name: Option<string>): map<Id, string> {
    if name.Some? && name.value != "" then labels[target := name.value] else labels - {target}
  }

  function AppendLabel(h: History, id: Id, target: Id, name: Option<string>): History {
    AddEntry(h.(labels := SetLabel(h.labels, target, name)), id, Label(target, name))
  }

  // ---------- Moving ----------

  /** Only messages can be forked from; the leaf entry records the move but is never the cursor. */
  function Fork(h: History, leafId: Id, target: Id): Result<History, ()> {
    if target !in h.index then Err(())
    else Ok(h.(entries := h.entries + [Entry(leafId, h.cursor, Leaf(target))], cursor := Some(target)))
  }

  /** A fork, then perhaps a summary of the branch left behind, stored as an entry and as a message. */
  function NavigateTo(h: History, leafId: Id, target: Id, summaryId: Id, summary: Option<string>): Result<History, ()> {
    var f := Fork(h, leafId, target);
    if f.Err? || summary.None? || summary.value == "" || h.cursor.None? then f
    else
      var m := Message(summaryId, Some(target), Summary, summary.value, PLAIN);
      Ok(f.value.(entries := f.value.entries + [Entry(summaryId, Some(target), BranchSummary(summary.value, h.cursor))],
                  messages := f.value.messages + [m],
                  index := f.value.index[summaryId := m],
                  cursor := Some(summaryId)))
  }

  /** The position of the first entry with an id. */
  function FindEntry(entries: seq<Entry>, id: Id): Option<nat>
    ensures FindEntry(entries, id).Some? ==>
              FindEntry(entries, id).value < |entries| && entries[FindEntry(entries, id).value].id == id
    ensures FindEntry(entries, id).None? ==> forall i :: 0 <= i < |entries| ==> entries[i].id != id
  {
    if entries == [] then None
    else
      var f := FindEntry(Front(entries), id);
      if f.Some? then f
      else if Last(entries).id == id then Some(|entries| - 1)
      else None
  }

  function EntryIds(entries: seq<Entry>): set<Id> {
    set i | 0 <= i < |entries| :: entries[i].id
  }

  /** Follows parent ids until the root, an unknown id, or an id seen before. */
  function Walk(h: History, at: Option<Id>, seen: set<Id>): seq<Message>
    decreases (h.index.Keys + EntryIds(h.entries)) - seen
  {
    if at.None? || at.value in seen then []
    else if at.value in h.index then
      Walk(h, h.index[at.value].parent, seen + {at.value}) + [h.index[at.value]]
    else
      var e := FindEntry(h.entries, at.value);
      if e.Some? then Walk(h, h.entries[e.value].parent, seen + {at.value}) else []
  }

  function CurrentBranch(h: History): seq<Message> {
    if h.cursor.None? || h.cursor.value == "" then h.messages else Walk(h, h.cursor, {})
  }

  // ---------- Rounds and pruning ----------

  /** Where the user messages are: each starts a round that ends before the next. */
  function UserIndexes(ms: seq<Message>): (r: seq<nat>)
    ensures forall i :: 0 <= i < |r| ==> r[i] < |ms| && ms[r[i]].role == User
    ensures forall i, j :: 0 <= i < j < |r| ==> r[i] < r[j]
    ensures forall k :: 0 <= k < |ms| && ms[k].role == User ==> k in r
  {
    if ms == [] then []
    else
      var r := UserIndexes(Front(ms));
      if Last(ms).role == User then r + [|ms| - 1] else r
  }

  predicate HasForks(h: History) {
    exists i | 0 <= i < |h.entries| :: h.entries[i].kind.Leaf?
  }

  function Digits(n: nat): string {
    if n < 10 then [('0' as int + n) as char] else Digits(n / 10) + [('0' as int + n % 10) as char]
  }

  function Pruned(m: Message): Message {
    m.(content := "[tool output omitted: " + Digits(|m.content|) + " chars; re-run the tool if needed]",
       meta := m.meta.(pruned := true, originalChars := |m.content|))
  }

  predicate Prunable(m: Message, threshold: nat) {
    m.role == Tool && !m.meta.pruned && |m.content| > threshold
  }

  function PruneIn(ms: seq<Message>, ids: set<Id>): (r: seq<Message>)
    ensures |r| == |ms| && forall i :: 0 <= i < |ms| ==> r[i] == if ms[i].id in ids then Pruned(ms[i]) else ms[i]
  {
    seq(|ms|, i requires 0 <= i < |ms| => if ms[i].id in ids then Pruned(ms[i]) else ms[i])
  }

  /** The bulky tool results of the rounds before the last `keep`. */
  function Victims(ms: seq<Message>, keep: nat, threshold: nat): set<Id> {
    var users := UserIndexes(ms);
    if keep == 0 || |users| <= keep then {}
    else set i | 0 <= i < users[|users| - keep] && Prunable(ms[i], threshold) :: ms[i].id
  }

  /** Message objects are shared between the list and the index, so a pruned one changes in both. */
  function Prune(h: History, context: seq<Message>, keep: nat, threshold: nat): History {
    var ids := Victims(context, keep, threshold);
    h.(messages := PruneIn(h.messages, ids),
       index := map id | id in h.index :: if h.index[id].id in ids then Pruned(h.index[id]) else h.index[id])
  }

  // ---------- Branch-scoped overlays ----------

  function Ids(ms: seq<Message>): set<Id> {
    set i | 0 <= i < |ms| :: ms[i].id
  }

  predicate Applies(e: Entry, ids: set<Id>) {
    && e.kind.Compaction? && e.kind.branchScoped
    && e.parent.Some? && e.parent.value in ids
    && e.kind.firstKept.Some? && e.kind.firstKept.value in ids
  }

  /** The newest overlay that applies to a branch. */
  function Selected(entries: seq<Entry>, ids: set<Id>): Option<Entry> {
    if entries == [] then None
    else if Applies(Last(entries), ids) then Some(Last(entries))
    else Selected(Front(entries), ids)
  }

  function Position(ms: seq<Message>, id: Id): nat
    ensures Position(ms, id) <= |ms|
    ensures id in Ids(ms) ==> Position(ms, id) < |ms| && ms[Position(ms, id)].id == id
  {
    if ms == [] then 0
    else if ms[0].id == id then 0
    else
      assert id in Ids(ms) ==> id in Ids(ms[1..]) by {
        if i :| 0 <= i < |ms| && ms[i].id == id {
          assert ms[1..][i - 1] == ms[i];
        }
      }
      1 + Position(ms[1..], id)
  }

  function Overlay(text: string): Message {
    Message("", None, Summary, text, PLAIN)
  }

  /** The branch, or one summary in front of what its overlay kept. */
  function ContextBranch(h: History): seq<Message> {
    var branch := CurrentBranch(h);
    var o := Selected(h.entries, Ids(branch));
    if o.None? || !o.value.kind.Compaction? || o.value.kind.firstKept.None? then branch
    else [Overlay(o.value.kind.text)] + branch[Position(branch, o.value.kind.firstKept.value)..]
  }

  // ---------- Compaction ----------

  datatype Config = Config(minRetain: nat, maxFailures: nat, maxSummary: nat)

  /** What the summary generator gives: nothing to call, an error or blank text, or text, stripped. */
  datatype Generated = Unavailable | Failed | Text(text: string)

  datatype Skip =
    | FailureLimit
    | TooFewRounds
    | NothingToCompress
    | NoGenerator
    | GenerationFailed
    | OverBudget
    | OutOfRange

  function WithAnchor(text: string, anchor: string): string {
    if anchor == "" then text else text + "\n\n<task_continuity>\n" + anchor + "\n</task_continuity>"
  }

  function Limit(c: Config): nat {
    if c.maxFailures < 1 then 1 else c.maxFailures
  }

  /** Where the last `minRetain` rounds of a context begin. */
  function RetainFrom(ms: seq<Message>, c: Config): (n: nat)
    requires 1 <= c.minRetain < |UserIndexes(ms)|
    ensures 0 < n < |ms| && ms[n].role == User
  {
    var users := UserIndexes(ms);
    assert users[0] < users[|users| - c.minRetain];
    users[|users| - c.minRetain]
  }

  /**
   Adds an overlay for the current branch; messages, index and cursor stay. Nothing is kept back if no round is
   retained.
   */
  function CompactBranch(h: History, c: Config, id: Id, g: Generated, anchor: string): Result<History, (History, Skip)>
  {
    if h.failures >= Limit(c) then Err((h, FailureLimit))
    else
      var current := ContextBranch(h);
      if |UserIndexes(current)| <= c.minRetain then Err((h, TooFewRounds))
      else if g.Unavailable? then Err((h, NoGenerator))
      else if c.minRetain == 0 then Err((h, NothingToCompress))
      else if g.Failed? || g.text == "" then Err((h.(failures := h.failures + 1), GenerationFailed))
      else
        var text := WithAnchor(g.text, anchor);
        if |text| > c.maxSummary then Err((h.(failures := h.failures + 1), OverBudget))
        else
          var kept := current[RetainFrom(current, c)..];
          Ok(h.(entries := h.entries + [Entry(id, h.cursor, Compaction(text, Some(kept[0].id), true))], failures := 0))
  }

  function SelectSummaries(ms: seq<Message>, summaries: bool): seq<Message> {
    if ms == [] then []
    else SelectSummaries(Front(ms), summaries) + if (Last(ms).role == Summary) == summaries then [Last(ms)] else []
  }

  /** `digest` lists touched files and is added if it still fits. */
  function WithDigest(c: Config, text: string, digest: string): string {
    if |text| + |digest| <= c.maxSummary then text + digest else text
  }

  /** Replaces everything before the retained rounds by one summary message; retaining none is an index error. */
  function CompactLinear(h: History, c: Config, id: Id, entryId: Id, g: Generated, digest: string, anchor: string,
                         goal: string)
    : Result<History, (History, Skip)>
  {
    if h.failures >= Limit(c) then Err((h, FailureLimit))
    else if |UserIndexes(h.messages)| <= c.minRetain then Err((h, TooFewRounds))
    else if c.minRetain == 0 then Err((h, OutOfRange))
    else
      var from := RetainFrom(h.messages, c);
      if SelectSummaries(h.messages[..from], false) == [] then Err((h, NothingToCompress))
      else if g.Unavailable? then Err((h, NoGenerator))
      else if g.Failed? || g.text == "" then Err((h.(failures := h.failures + 1), GenerationFailed))
      else
        var text := WithAnchor(WithDigest(c, g.text, digest), anchor);
        if |text| > c.maxSummary then Err((h.(failures := h.failures + 1), OverBudget))
        else
          var s := Message(id, h.cursor, Summary, text, PLAIN.(goal := goal));
          var ms := [s] + h.messages[from..];
          Ok(h.(messages := ms, failures := 0,
                entries := h.entries + [Entry(entryId, h.cursor, Compaction(text, Some(ms[1].id), false))],
                cursor := Some(ms[|ms| - 1].id)))
  }

  // ---------- Persistence ----------

  datatype Saved = SavedMessage(message: Message) | SavedEntry(entry: Entry)

  function Serialize(h: History): seq<Saved> {
    seq(|h.messages|, i requires 0 <= i < |h.messages| => SavedMessage(h.messages[i]))
    + seq(|h.entries|, i requires 0 <= i < |h.entries| => SavedEntry(h.entries[i]))
  }

  function LoadOne(h: History, s: Saved): History {
    match s
    case SavedMessage(m) => AddMessage(h, m)
    case SavedEntry(e) =>
      var g := h.(entries := h.entries + [e], cursor := if e.kind.Compaction? then h.cursor else Some(e.id));
      match e.kind
      case ModelChange(provider, model) => g.(model := Some((provider, model)))
      case ThinkingChange(level) => g.(thinking := level)
      case Label(target, name) => if target == "" then g else g.(labels := SetLabel(g.labels, target, name))
      case _ => g
  }

  function Load(saved: seq<Saved>): History {
    if saved == [] then NEW else LoadOne(Load(Front(saved)), Last(saved))
  }

  function RestoreTreeState(h: History, cursor: Option<Id>, labels: map<Id, string>): History {
    h.(cursor := if cursor.Some? && (cursor.value in h.index || FindEntry(h.entries, cursor.value).Some?) then cursor
                 else h.cursor,
       labels := labels)
  }
}
