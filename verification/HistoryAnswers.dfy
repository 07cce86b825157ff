/** What each operation on the conversation history answers and leaves behind, said field by field. */
module HistoryAnswers {
  import opened Common
  import opened History
  import opened HistoryOverlay

  // ---------- Appending ----------

  /** `m` is the newest message, found by its id, and the next one goes below it. */
  ghost predicate Appends(h: History, after: History, m: Message) {
    && after.messages == h.messages + [m] && after.index == h.index[m.id := m] && after.cursor == Some(m.id)
    && after == h.(messages := after.messages, index := after.index, cursor := after.cursor,
                   failures := after.failures)
  }

  /** `e` is the newest entry and the cursor; messages stay. */
  ghost predicate Records(h: History, after: History, e: Entry) {
    && after.entries == h.entries + [e] && after.cursor == Some(e.id)
    && (after.messages, after.index, after.failures) == (h.messages, h.index, h.failures)
  }

  // ---------- The overlay of a branch ----------

  /** The overlay was made on this branch, and what it kept is on it. */
  ghost predicate FitsBranch(e: Entry, branch: seq<Message>) {
    && e.kind.Compaction? && e.kind.branchScoped && e.parent.Some? && e.kind.firstKept.Some?
    && (exists i :: 0 <= i < |branch| && branch[i].id == e.parent.value)
    && exists i :: 0 <= i < |branch| && branch[i].id == e.kind.firstKept.value
  }

  /** The last entry that fits, none only if none does. */
  ghost predicate NewestOverlay(o: Option<Entry>, entries: seq<Entry>, branch: seq<Message>) {
    && (o.None? ==> forall k :: 0 <= k < |entries| ==> !FitsBranch(entries[k], branch))
    && (o.Some? ==>
          exists n :: 0 <= n < |entries| && entries[n] == o.value && FitsBranch(entries[n], branch)
                      && forall k :: n < k < |entries| ==> !FitsBranch(entries[k], branch))
  }

  /** Without an overlay the whole branch; with one its text, then the branch from what it kept on. */
  ghost predicate ShowsBranch(context: seq<Message>, branch: seq<Message>, o: Option<Entry>) {
    match o
    case None => context == branch
    case Some(e) =>
      && e.kind.Compaction? && e.kind.firstKept.Some?
      && exists n ::
           && 0 <= n < |branch| && branch[n].id == e.kind.firstKept.value
           && (forall k :: 0 <= k < n ==> branch[k].id != e.kind.firstKept.value)
           && context == [Message("", None, Summary, e.kind.text, PLAIN)] + branch[n..]
  }

  lemma InIds(ms: seq<Message>, id: Id)
    ensures id in Ids(ms) <==> exists i :: 0 <= i < |ms| && ms[i].id == id
  {
  }

  lemma AppliesFits(e: Entry, branch: seq<Message>)
    ensures Applies(e, Ids(branch)) <==> FitsBranch(e, branch)
  {
    if e.parent.Some? {
      InIds(branch, e.parent.value);
    }
    if e.kind.Compaction? && e.kind.firstKept.Some? {
      InIds(branch, e.kind.firstKept.value);
    }
  }

  lemma {:induction false} SelectedIsNewest(entries: seq<Entry>, branch: seq<Message>)
    ensures NewestOverlay(Selected(entries, Ids(branch)), entries, branch)
  {
    if entries == [] {
    } else {
      SelectedIsNewest(Front(entries), branch);
      AppliesFits(Last(entries), branch);
      hide FitsBranch, Applies, Ids;
      forall k | 0 <= k < |entries| ensures entries[k] == if k < |entries| - 1 then Front(entries)[k] else Last(entries)
      {}
    }
  }

  lemma {:induction false} PositionIsFirst(ms: seq<Message>, id: Id)
    ensures forall k :: 0 <= k < Position(ms, id) ==> ms[k].id != id
  {
    if ms == [] || ms[0].id == id {
    } else {
      PositionIsFirst(ms[1..], id);
    }
  }

  lemma ContextShows(h: History)
    ensures ShowsBranch(ContextBranch(h), CurrentBranch(h), Selected(h.entries, Ids(CurrentBranch(h))))
    ensures NewestOverlay(Selected(h.entries, Ids(CurrentBranch(h))), h.entries, CurrentBranch(h))
  {
    var branch := CurrentBranch(h);
    SelectedIsNewest(h.entries, branch);
    var o := Selected(h.entries, Ids(branch));
    if o.Some? {
      var id := o.value.kind.firstKept.value;
      InIds(branch, id);
      PositionIsFirst(branch, id);
    }
  }

  // ---------- Pruning ----------

  /** What a decimal number stands for. */
  function Value(digits: string): int {
    if digits == "" then 0 else Value(Front(digits)) * 10 + (Last(digits) as int - '0' as int)
  }

  ghost predicate Decimal(digits: string, n: nat) {
    && Value(digits) == n && digits != "" && (digits[0] == '0' ==> digits == "0")
    && forall i :: 0 <= i < |digits| ==> '0' <= digits[i] <= '9'
  }

  lemma {:induction false} DigitsAreDecimal(n: nat)
    ensures Decimal(Digits(n), n)
  {
    if n < 10 {
      assert Front(Digits(n)) == "";
    } else {
      DigitsAreDecimal(n / 10);
      var d := Digits(n / 10);
      assert Front(Digits(n)) == d && Last(Digits(n)) == ('0' as int + n % 10) as char;
      ZeroIsZero();
    }
  }

  lemma ZeroIsZero()
    ensures Value("0") == 0
  {
    assert Front("0") == "";
  }

  /** A shrunk result: a stub that says how much was left out; everything but content and that mark stays. */
  ghost predicate Shrunk(m: Message, was: Message) {
    && (exists number ::
          && Decimal(number, |was.content|)
          && m.content == "[tool output omitted: " + number + " chars; re-run the tool if needed]")
    && m == was.(content := m.content, meta := was.meta.(pruned := true, originalChars := |was.content|))
  }

  /** A bulky result of the context that at least `keep` of more than `keep` user messages come after. */
  ghost predicate Bulky(context: seq<Message>, k: nat, keep: nat, threshold: nat)
    requires k < |context|
  {
    && context[k].role == Tool && !context[k].meta.pruned && |context[k].content| > threshold
    && keep >= 1 && |UserIndexes(context)| > keep && |UserIndexes(context[k..])| >= keep
  }

  ghost predicate BulkyId(context: seq<Message>, id: Id, keep: nat, threshold: nat) {
    exists k :: 0 <= k < |context| && context[k].id == id && Bulky(context, k, keep, threshold)
  }

  /** Exactly the bulky results shrink, in the list and in the index. */
  ghost predicate ShrinksBulky(h: History, after: History, context: seq<Message>, keep: nat, threshold: nat) {
    && |after.messages| == |h.messages| && after.index.Keys == h.index.Keys
    && (forall i :: 0 <= i < |h.messages| ==>
          if BulkyId(context, h.messages[i].id, keep, threshold) then Shrunk(after.messages[i], h.messages[i])
          else after.messages[i] == h.messages[i])
    && (forall id :: id in h.index ==>
          if BulkyId(context, h.index[id].id, keep, threshold) then Shrunk(after.index[id], h.index[id])
          else after.index[id] == h.index[id])
    && after == h.(messages := after.messages, index := after.index)
  }

  lemma PrunedIsShrunk(m: Message)
    ensures Shrunk(Pruned(m), m)
  {
    DigitsAreDecimal(|m.content|);
  }

  /** A place lies before the last `keep` rounds exactly if that many user messages come from there on. */
  lemma BeforeLastRounds(ms: seq<Message>, k: nat, keep: nat)
    requires k < |ms| && ms[k].role != User && 1 <= keep < |UserIndexes(ms)|
    ensures k < UserIndexes(ms)[|UserIndexes(ms)| - keep] <==> |UserIndexes(ms[k..])| >= keep
  {
    hide UserIndexes;
    var users := UserIndexes(ms);
    var n := users[|users| - keep];
    SplitRounds(ms, |users| - keep);
    if k < n {
      UsersFrom(ms, k, n);
    } else {
      UsersFrom(ms, n, k);
    }
  }

  /** Going back over a user message there is one more. */
  lemma UsersFrom(ms: seq<Message>, k: nat, n: nat)
    requires k <= n <= |ms|
    ensures |UserIndexes(ms[k..])| >= |UserIndexes(ms[n..])| + if k < n && ms[k].role == User then 1 else 0
  {
    hide UserIndexes;
    UsersConcat(ms[k..n], ms[n..]);
    assert ms[k..] == ms[k..n] + ms[n..];
    if k < n && ms[k].role == User {
      assert ms[k..n][0] == ms[k];
      HasUser(ms[k..n]);
    }
  }

  lemma HasUser(ms: seq<Message>)
    requires ms != [] && ms[0].role == User
    ensures |UserIndexes(ms)| >= 1
  {
    assert 0 in UserIndexes(ms);
  }

  lemma VictimsAreBulky(context: seq<Message>, keep: nat, threshold: nat, id: Id)
    ensures id in Victims(context, keep, threshold) <==> BulkyId(context, id, keep, threshold)
  {
    var users := UserIndexes(context);
    hide UserIndexes;
    if 1 <= keep < |users| {
      forall k: nat | k < |context| && context[k].role == Tool
        ensures k < users[|users| - keep] <==> |UserIndexes(context[k..])| >= keep
      {
        BeforeLastRounds(context, k, keep);
      }
    }
  }

  lemma PruneShrinks(h: History, context: seq<Message>, keep: nat, threshold: nat)
    ensures ShrinksBulky(h, Prune(h, context, keep, threshold), context, keep, threshold)
  {
    hide BulkyId, Shrunk, Victims, Pruned;
    forall id ensures id in Victims(context, keep, threshold) <==> BulkyId(context, id, keep, threshold) {
      VictimsAreBulky(context, keep, threshold, id);
    }
    forall m: Message ensures Shrunk(Pruned(m), m) {
      PrunedIsShrunk(m);
    }
  }

  // ---------- Compaction ----------

  /** A summary's text: what was generated, then the goal to be kept, if there is one. */
  predicate Says(text: string, summary: string, anchor: string) {
    if anchor == "" then text == summary
    else text == summary + "\n\n<task_continuity>\n" + anchor + "\n</task_continuity>"
  }

  /** So many characters the goal adds. */
  function AnchorSize(anchor: string): nat {
    if anchor == "" then 0 else |anchor| + 39
  }

  predicate MayCompact(failures: nat, c: Config, rounds: nat) {
    (failures < c.maxFailures || failures == 0) && 1 <= c.minRetain < rounds
  }

  /** Where the last `minRetain` rounds begin. */
  ghost predicate RetainsFrom(ms: seq<Message>, n: nat, c: Config) {
    n < |ms| && ms[n].role == User && |UserIndexes(ms[n..])| == c.minRetain
  }

  /**
   After a fork a compaction succeeds exactly if it may be tried, there is text, and it fits. Then an overlay is added
   and the failures are forgotten; if it was tried in vain a failure is counted, and otherwise nothing changes.
   */
  ghost predicate CompactsBranch(h: History, after: History, c: Config, id: Id, g: Generated, anchor: string,
                                 ok: bool)
  {
    var context := ContextBranch(h);
    var may := MayCompact(h.failures, c, |UserIndexes(context)|);
    && (ok <==> may && g.Text? && g.text != "" && |g.text| + AnchorSize(anchor) <= c.maxSummary)
    && (!ok ==> after == h.(failures := if may && !g.Unavailable? then h.failures + 1 else h.failures))
    && (ok ==>
          exists n: nat, text ::
            && RetainsFrom(context, n, c) && Says(text, g.text, anchor)
            && after == h.(failures := 0,
                           entries := h.entries
                                      + [Entry(id, h.cursor, Compaction(text, Some(context[n].id), true))]))
  }

  /** Before the first fork: the same conditions, and one summary takes the place of all but the last rounds. */
  ghost predicate CompactsList(h: History, after: History, c: Config, s: Id, id: Id, g: Generated, digest: string,
                               anchor: string, goal: string, ok: bool, raised: bool)
  {
    var may := MayCompact(h.failures, c, |UserIndexes(h.messages)|);
    && (raised <==>
          (h.failures < c.maxFailures || h.failures == 0) && c.minRetain == 0 && UserIndexes(h.messages) != [])
    && (ok <==>
          && may && g.Text? && g.text != ""
          && |g.text| + (if |g.text| + |digest| <= c.maxSummary then |digest| else 0) + AnchorSize(anchor)
             <= c.maxSummary)
    && (!ok ==> after == h.(failures := if may && !g.Unavailable? then h.failures + 1 else h.failures))
    && (ok ==>
          exists n: nat, text ::
            && RetainsFrom(h.messages, n, c)
            && Says(text, if |g.text| + |digest| <= c.maxSummary then g.text + digest else g.text, anchor)
            && after == h.(failures := 0, cursor := Some(h.messages[|h.messages| - 1].id),
                           messages := [Message(s, h.cursor, Summary, text, PLAIN.(goal := goal))] + h.messages[n..],
                           entries := h.entries
                                      + [Entry(id, h.cursor, Compaction(text, Some(h.messages[n].id), false))]))
  }

  lemma AnchorIs(text: string, anchor: string)
    ensures Says(WithAnchor(text, anchor), text, anchor)
    ensures |WithAnchor(text, anchor)| == |text| + AnchorSize(anchor)
  {
    assert |"\n\n<task_continuity>\n"| == 20 && |"\n</task_continuity>"| == 19;
  }

  lemma RetainIs(ms: seq<Message>, c: Config)
    requires 1 <= c.minRetain < |UserIndexes(ms)|
    ensures RetainsFrom(ms, RetainFrom(ms, c), c)
  {
    RetainedRounds(ms, c);
  }

  lemma BranchCompaction(h: History, c: Config, id: Id, g: Generated, anchor: string)
    ensures var r := CompactBranch(h, c, id, g, anchor);
            CompactsBranch(h, if r.Ok? then r.value else r.error.0, c, id, g, anchor, r.Ok?)
  {
    var context := ContextBranch(h);
    hide ContextBranch, UserIndexes, WithAnchor, RetainFrom, Says, RetainsFrom, AnchorSize;
    if 1 <= c.minRetain < |UserIndexes(context)| {
      RetainIs(context, c);
    }
    if g.Text? {
      AnchorIs(g.text, anchor);
    }
  }

  lemma {:induction false} UserIsKept(ms: seq<Message>, k: nat)
    requires k < |ms| && ms[k].role == User
    ensures SelectSummaries(ms, false) != []
  {
    if k < |ms| - 1 {
      UserIsKept(Front(ms), k);
    }
  }

  lemma ListCompaction(h: History, c: Config, s: Id, id: Id, g: Generated, digest: string, anchor: string, goal: string)
    ensures var r := CompactLinear(h, c, s, id, g, digest, anchor, goal);
            CompactsList(h, if r.Ok? then r.value else r.error.0, c, s, id, g, digest, anchor, goal, r.Ok?,
                         r.Err? && r.error.1.OutOfRange?)
  {
    hide UserIndexes, WithAnchor, RetainFrom, Says, RetainsFrom, AnchorSize, SelectSummaries, WithDigest;
    if 1 <= c.minRetain < |UserIndexes(h.messages)| {
      RetainIs(h.messages, c);
      SomethingToCompress(h.messages, c);
      var from := RetainFrom(h.messages, c);
      assert ([Message(s, h.cursor, Summary, "", PLAIN)] + h.messages[from..])[1] == h.messages[from];
    }
    if g.Text? {
      DigestIs(c, g.text, digest);
      AnchorIs(WithDigest(c, g.text, digest), anchor);
    }
  }

  lemma DigestIs(c: Config, text: string, digest: string)
    ensures WithDigest(c, text, digest) == if |text| + |digest| <= c.maxSummary then text + digest else text
  {
  }

  /** Whoever has more rounds than are retained has a user message to drop. */
  lemma SomethingToCompress(ms: seq<Message>, c: Config)
    requires 1 <= c.minRetain < |UserIndexes(ms)|
    ensures SelectSummaries(ms[..RetainFrom(ms, c)], false) != []
  {
    var first, n := UserIndexes(ms)[0], RetainFrom(ms, c);
    assert n == UserIndexes(ms)[|UserIndexes(ms)| - c.minRetain];
    hide UserIndexes, RetainFrom;
    assert ms[..n][first] == ms[first];
    UserIsKept(ms[..n], first);
  }

  // ---------- Loading ----------

  /** The saved item sets or clears the label of `id`. */
  predicate Labels(item: Saved, id: Id) {
    item.SavedEntry? && item.entry.kind.Label? && item.entry.kind.target == id && id != ""
  }

  /** A message's label is the one last set and not cleared since. */
  ghost predicate LastLabel(saved: seq<Saved>, labels: map<Id, string>, id: Id) {
    && ((forall k :: 0 <= k < |saved| ==> !Labels(saved[k], id)) ==> id !in labels)
    && forall k :: 0 <= k < |saved| && Labels(saved[k], id)
                   && (forall n :: k < n < |saved| ==> !Labels(saved[n], id)) ==>
         var name := saved[k].entry.kind.name;
         if name.Some? && name.value != "" then id in labels && labels[id] == name.value else id !in labels
  }

  lemma {:induction false} LoadedLabels(saved: seq<Saved>, id: Id)
    ensures LastLabel(saved, Load(saved).labels, id)
  {
    if saved == [] {
    } else {
      LoadedLabels(Front(saved), id);
      LoadLabel(Load(Front(saved)), Last(saved), id);
      hide LoadOne;
      forall k | 0 <= k < |saved| ensures saved[k] == if k < |saved| - 1 then Front(saved)[k] else Last(saved) {}
    }
  }

  lemma LoadLabel(h: History, item: Saved, id: Id)
    ensures !Labels(item, id) ==> (id in LoadOne(h, item).labels <==> id in h.labels)
    ensures !Labels(item, id) && id in h.labels ==> LoadOne(h, item).labels[id] == h.labels[id]
    ensures Labels(item, id) ==>
              var name, labels := item.entry.kind.name, LoadOne(h, item).labels;
              if name.Some? && name.value != "" then id in labels && labels[id] == name.value else id !in labels
  {
  }
}
