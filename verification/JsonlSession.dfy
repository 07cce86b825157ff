/** The session store itself, changing file and memory in place. */
module JsonlSession {
  import opened Common
  import opened JsonlStore
  import opened JsonlWalks

  // ---------- The store ----------

  datatype OpenError = EmptyFile | BadHeader | BadLine(number: nat)

  /** What opening a file gives. */
  function Opened(file: seq<Raw>): Result<seq<Line>, OpenError> {
    if file == [] then Err(EmptyFile)
    else if !file[0].Header? then Err(BadHeader)
    else LinesOf(file, |file|)
  }

  /** The entries among the first `n` lines, or the first line that is none. */
  function LinesOf(file: seq<Raw>, n: nat): Result<seq<Line>, OpenError>
    requires n <= |file|
  {
    if n <= 1 then Ok([])
    else
      var r := LinesOf(file, n - 1);
      if r.Err? then r
      else if file[n - 1].Entry? then Ok(r.value + [file[n - 1].line])
      else Err(BadLine(n))
  }

  // ---------- What memory holds of the lines ----------

  /** The last label line for a target decides: a name sets its label, none or an empty one clears it. */
  ghost predicate LabelHolds(lines: seq<Line>, labels: map<Option<string>, string>, target: Option<string>) {
    && ((forall k :: 0 <= k < |lines| ==> !LabelsTarget(lines[k], target)) ==> target !in labels)
    && forall k :: 0 <= k < |lines| && LabelsTarget(lines[k], target)
                   && (forall n :: k < n < |lines| ==> !LabelsTarget(lines[n], target)) ==>
         var name := lines[k].kind.name;
         if name.Some? && name.value != "" then target in labels && labels[target] == name.value
         else target !in labels
  }

  predicate LabelsTarget(line: Line, target: Option<string>) {
    line.kind.Label? && line.kind.target == target
  }

  /** An id stands for the last line that has it; the empty id for none. */
  ghost predicate IndexHolds(lines: seq<Line>, byId: map<string, Line>, id: string) {
    && (id == "" || (forall k :: 0 <= k < |lines| ==> lines[k].id != id) ==> id !in byId)
    && forall k :: 0 <= k < |lines| && id != "" && lines[k].id == id
                   && (forall n :: k < n < |lines| ==> lines[n].id != id) ==>
         id in byId && byId[id] == lines[k]
  }

  /** The last line that is a leaf marker or has an id decides where the next one hangs. */
  ghost predicate LeafHolds(lines: seq<Line>, leaf: Option<string>) {
    && ((forall k :: 0 <= k < |lines| ==> !MovesLeaf(lines[k])) ==> leaf == None)
    && forall k :: 0 <= k < |lines| && MovesLeaf(lines[k]) && (forall n :: k < n < |lines| ==> !MovesLeaf(lines[n])) ==>
         leaf == if lines[k].kind.Leaf? then lines[k].kind.target else Some(lines[k].id)
  }

  predicate MovesLeaf(line: Line) {
    line.kind.Leaf? || line.id != ""
  }

  lemma {:induction false} ReplayLabels(lines: seq<Line>, target: Option<string>)
    ensures LabelHolds(lines, Replay(lines).labels, target)
  {
    if lines == [] {
    } else {
      ReplayLabels(Front(lines), target);
      forall k | 0 <= k < |lines| ensures lines[k] == if k < |lines| - 1 then Front(lines)[k] else Last(lines) {}
    }
  }

  lemma {:induction false} ReplayIndex(lines: seq<Line>, id: string)
    ensures IndexHolds(lines, Replay(lines).byId, id)
  {
    hide Relabel;
    if lines == [] {
    } else {
      ReplayIndex(Front(lines), id);
      forall k | 0 <= k < |lines| ensures lines[k] == if k < |lines| - 1 then Front(lines)[k] else Last(lines) {}
    }
  }

  lemma {:induction false} ReplayLeaf(lines: seq<Line>)
    ensures LeafHolds(lines, Replay(lines).leaf)
  {
    hide Relabel;
    if lines == [] {
    } else {
      ReplayLeaf(Front(lines));
      forall k | 0 <= k < |lines| ensures lines[k] == if k < |lines| - 1 then Front(lines)[k] else Last(lines) {}
    }
  }

  /** The lines after the header, all of them entries. */
  ghost predicate ReadsAs(content: seq<Raw>, lines: seq<Line>) {
    && content != [] && content[0].Header? && |lines| == |content| - 1
    && forall i :: 0 <= i < |lines| ==> content[i + 1] == Entry(lines[i])
  }

  /** What is wrong with a file: nothing there, no header first, or the first later line that is no entry. */
  ghost predicate IsWrong(content: seq<Raw>, e: OpenError) {
    match e
    case EmptyFile => content == []
    case BadHeader => content != [] && !content[0].Header?
    case BadLine(n) =>
      && content != [] && content[0].Header? && 2 <= n <= |content| && !content[n - 1].Entry?
      && forall i :: 1 <= i < n - 1 ==> content[i].Entry?
  }

  lemma {:induction false} LinesAreRead(content: seq<Raw>, n: nat)
    requires content != [] && content[0].Header? && 1 <= n <= |content|
    ensures var r := LinesOf(content, n);
            && (r.Ok? ==> ReadsAs(content[..n], r.value))
            && (r.Err? ==> IsWrong(content, r.error))
  {
    if n == 1 {
    } else {
      LinesAreRead(content, n - 1);
      var r := LinesOf(content, n - 1);
      if r.Ok? {
        forall i | 1 <= i < n - 1 ensures content[i].Entry? {
          assert content[..n - 1][i - 1 + 1] == Entry(r.value[i - 1]);
        }
      }
    }
  }

  lemma OpenedIs(content: seq<Raw>)
    ensures Opened(content).Ok? ==> ReadsAs(content, Opened(content).value)
    ensures Opened(content).Err? ==> IsWrong(content, Opened(content).error)
  {
    if content != [] && content[0].Header? {
      LinesAreRead(content, |content|);
      assert content[..|content|] == content;
    }
  }

  class JsonlSessionStore {
    var file: seq<Raw>
    var entries: seq<Line>
    var byId: map<string, Line>
    var leaf: Option<string>
    var labels: map<Option<string>, string>

    ghost function View(): Store
      reads this
    {
      Store(entries, byId, leaf, labels)
    }

    /** The file holds the header and the live entries, and the index keeps them under their ids. */
    ghost predicate OnFile()
      reads this
    {
      Opened(file) == Ok(entries) && Keyed(byId)
    }

    constructor Create(session: string)
      ensures View() == EMPTY && OnFile()
    {
      file, entries, byId, leaf, labels := [Header(session)], [], map[], None, map[];
    }

    /** Replays a file line by line; on an error nothing is loaded. */
    method Open(content: seq<Raw>) returns (error: Option<OpenError>)
      modifies this
      ensures var o := Opened(content);
              if o.Err? then error == Some(o.error) && View() == old(View()) && file == old(file)
              else error == None && View() == Replay(o.value) && file == content && OnFile()
      ensures error.Some? ==> IsWrong(content, error.value)
      ensures error.None? ==> ReadsAs(content, entries) && LeafHolds(entries, leaf)
      ensures error.None? ==> forall id :: IndexHolds(entries, byId, id)
      ensures error.None? ==> forall target :: LabelHolds(entries, labels, target)
    {
      OpenedIs(content);
      hide IsWrong, ReadsAs, IndexHolds, LabelHolds, LeafHolds;
      if content == [] {
        return Some(EmptyFile);
      }
      if !content[0].Header? {
        return Some(BadHeader);
      }
      var r := ReadLines(content);
      if r.Err? {
        return Some(r.error);
      }
      ReplayHolds(Opened(content).value);
      ReplayIsKeyed(Opened(content).value);
      forall id, target
        ensures IndexHolds(r.value.entries, r.value.byId, id) && LabelHolds(r.value.entries, r.value.labels, target)
        ensures LeafHolds(r.value.entries, r.value.leaf)
      {
        ReplayIndex(Opened(content).value, id);
        ReplayLabels(Opened(content).value, target);
        ReplayLeaf(Opened(content).value);
      }
      assert IndexHolds(r.value.entries, r.value.byId, "") && LabelHolds(r.value.entries, r.value.labels, None);
      file, entries, byId, leaf, labels := content, r.value.entries, r.value.byId, r.value.leaf, r.value.labels;
      return None;
    }

    /** Rebuilds entries, index, leaf and labels, line by line. */
    static method ReadLines(content: seq<Raw>) returns (r: Result<Store, OpenError>)
      requires content != []
      ensures var lines := LinesOf(content, |content|);
              r == if lines.Ok? then Ok(Replay(lines.value)) else Err(lines.error)
    {
      hide Replay, Relabel;
      var es: seq<Line>, ids: map<string, Line>, at: Option<string>, names: map<Option<string>, string> := [], map[],
          None, map[];
      NothingReplayed();
      for i := 1 to |content|
        invariant LinesOf(content, i) == Ok(es) && Store(es, ids, at, names) == Replay(es)
      {
        if !content[i].Entry? {
          BadLineStays(content, i + 1, |content|);
          return Err(BadLine(i + 1));
        }
        var line := content[i].line;
        ReplayNext(es, line);
        es := es + [line];
        if line.id != "" {
          ids := ids[line.id := line];
        }
        if line.kind.Leaf? {
          at := line.kind.target;
        } else if line.id != "" {
          at := Some(line.id);
        }
        names := Relabel(names, line.kind);
      }
      return Ok(Store(es, ids, at, names));
    }

    /** One line is appended to the file, then the memory follows. */
    method AppendEntry(d: Draft, generated: string) returns (id: string)
      requires OnFile()
      modifies this
      ensures OnFile() && View() == Append(old(View()), Filled(old(View()), d, generated)) && leaf == Some(id)
      ensures id == if d.id.Some? then d.id.value else generated
      ensures var line := Line(id, if d.parent.Some? then d.parent.value else old(leaf), d.kind, d.payload);
              && file == old(file) + [Entry(line)] && entries == old(entries) + [line]
              && byId == old(byId)[id := line]
      ensures labels == match d.kind
                        case Label(target, Some(name)) =>
                          if name != "" then old(labels)[target := name] else old(labels) - {target}
                        case Label(target, None) => old(labels) - {target}
                        case _ => old(labels)
    {
      var line := Line(if d.id.Some? then d.id.value else generated,
                       if d.parent.Some? then d.parent.value else leaf, d.kind, d.payload);
      LinesGrow(file, line);
      file := file + [Entry(line)];
      entries := entries + [line];
      byId := byId[line.id := line];
      leaf := Some(line.id);
      labels := Relabel(labels, line.kind);
      return line.id;
    }

    method MoveTo(target: Option<string>, generated: string) returns (ok: bool)
      requires OnFile()
      modifies this
      ensures ok <==> target.None? || target.value in old(byId)
      ensures if !ok then View() == old(View()) && file == old(file)
              else
                var line := Line(generated, old(leaf), Leaf(target), "");
                && file == old(file) + [Entry(line)] && entries == old(entries) + [line]
                && byId == old(byId)[generated := line] && leaf == target && labels == old(labels)
      ensures OnFile() && ok == SetLeaf(old(View()), target, generated).Ok?
      ensures View() == if ok then SetLeaf(old(View()), target, generated).value else old(View())
    {
      if target.Some? && target.value !in byId {
        return false;
      }
      var id := AppendEntry(Draft(Some(generated), None, Leaf(target), ""), generated);
      leaf := target;
      return true;
    }

    /** Follows parents as long as they name entries, which is to say for ever if the walk is not finite. */
    method GetPathToRoot(from: Option<string>) returns (path: seq<Line>)
      requires OnFile() && Finite(byId, from)
      ensures IsPath(byId, path, from)
    {
      path := [];
      var current := from;
      ghost var n: nat :| Ends(byId, from, n);
      while current.Some?
        invariant Ends(byId, current, n) && Climbing(byId, path, current, from)
        decreases n, path == []
      {
        if current.value !in byId {
          break;
        }
        var entry := byId[current.value];
        LinkedGrows(byId, path, entry);
        path := [entry] + path;
        current := entry.parent;
        n := n - 1;
      }
    }
  }

  /** The part of a path below `current`. */
  ghost predicate Climbing(byId: map<string, Line>, path: seq<Line>, current: Option<string>, from: Option<string>) {
    && (path == [] ==> current == from)
    && (path != [] ==> path[0].parent == current && Some(Last(path).id) == from)
    && Linked(byId, path)
  }

  lemma LinkedGrows(byId: map<string, Line>, path: seq<Line>, entry: Line)
    requires Linked(byId, path) && entry.id in byId && byId[entry.id] == entry
    requires path != [] ==> path[0].parent == Some(entry.id)
    ensures Linked(byId, [entry] + path)
  {
    var longer := [entry] + path;
    forall k | 0 <= k < |longer| ensures longer[k].id in byId && byId[longer[k].id] == longer[k] {
      assert k > 0 ==> longer[k] == path[k - 1];
    }
    forall k | 0 < k < |longer| ensures longer[k].parent == Some(longer[k - 1].id) {
      assert longer[k] == path[k - 1];
    }
  }

  lemma {:induction false} BadLineStays(file: seq<Raw>, n: nat, m: nat)
    requires 1 <= n <= m <= |file| && LinesOf(file, n).Err?
    ensures LinesOf(file, m) == LinesOf(file, n)
  {
    if n == m {
    } else {
      BadLineStays(file, n, m - 1);
    }
  }

  lemma {:induction false} LinesOfPrefix(file: seq<Raw>, more: seq<Raw>, n: nat)
    requires n <= |file|
    ensures LinesOf(file + more, n) == LinesOf(file, n)
  {
    if n <= 1 {
    } else {
      LinesOfPrefix(file, more, n - 1);
    }
  }

  lemma LinesGrow(file: seq<Raw>, line: Line)
    requires Opened(file).Ok?
    ensures Opened(file + [Entry(line)]) == Ok(Opened(file).value + [line])
  {
    LinesOfPrefix(file, [Entry(line)], |file|);
  }

  lemma {:induction false} ReplayIsKeyed(lines: seq<Line>)
    ensures Keyed(Replay(lines).byId)
  {
    hide Relabel;
    if lines == [] {
    } else {
      ReplayIsKeyed(Front(lines));
    }
  }
}
