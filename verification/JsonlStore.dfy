/** The JSONL session file: every change is one appended line, and replaying the lines gives the store back. */
module JsonlStore {
  import opened Common

  datatype Kind =
    | Plain
    | Leaf(target: Option<string>)
    | Label(target: Option<string>, name: Option<string>)

  datatype Line = Line(id: string, parent: Option<string>, kind: Kind, payload: string)

  /** What a caller hands over: the id and the parent may be missing. */
  datatype Draft = Draft(id: Option<string>, parent: Option<Option<string>>, kind: Kind, payload: string)

  /** A line of the file as it is read. */
  datatype Raw = Header(session: string) | Entry(line: Line) | Garbage

  datatype Store = Store(entries: seq<Line>, byId: map<string, Line>, leaf: Option<string>, labels: map<Option<string>,
                         string>)

  const EMPTY := Store([], map[], None, map[])

  function Relabel(labels: map<Option<string>, string>, kind: Kind): map<Option<string>, string> {
    if !kind.Label? then labels
    else if kind.name.Some? && kind.name.value != "" then labels[kind.target := kind.name.value]
    else labels - {kind.target}
  }

  // ---------- Writing ----------

  /** Defaults: a generated id, and the leaf as parent. */
  function Filled(s: Store, d: Draft, generated: string): Line {
    Line(if d.id.Some? then d.id.value else generated, if d.parent.Some? then d.parent.value
                                                       else s.leaf, d.kind, d.payload)
  }

  function Append(s: Store, line: Line): Store {
    Store(s.entries + [line], s.byId[line.id := line], Some(line.id), Relabel(s.labels, line.kind))
  }

  /** The appended marker names the target; the live leaf becomes the target, not the marker. */
  function SetLeaf(s: Store, target: Option<string>, generated: string): Result<Store, ()> {
    if target.Some? && target.value !in s.byId then Err(())
    else Ok(Append(s, Line(generated, s.leaf, Leaf(target), "")).(leaf := target))
  }

  // ---------- Reading back ----------

  function ReplayOne(s: Store, line: Line): Store {
    Store(s.entries + [line],
          if line.id != "" then s.byId[line.id := line] else s.byId,
          if line.kind.Leaf? then line.kind.target else if line.id != "" then Some(line.id) else s.leaf,
          Relabel(s.labels, line.kind))
  }

  function Replay(lines: seq<Line>): Store {
    if lines == [] then EMPTY else ReplayOne(Replay(Front(lines)), Last(lines))
  }

  // ---------- Runs ----------

  datatype Op = Put(draft: Draft, generated: string) | MoveLeaf(target: Option<string>, generated: string)

  function Apply(s: Store, op: Op): Store {
    match op
    case Put(d, generated) => Append(s, Filled(s, d, generated))
    case MoveLeaf(target, generated) => var r := SetLeaf(s, target, generated); if r.Ok? then r.value else s
  }

  function Run(ops: seq<Op>): Store {
    if ops == [] then EMPTY else Apply(Run(Front(ops)), Last(ops))
  }

  /** Generated ids are not empty. */
  ghost predicate Generates(ops: seq<Op>) {
    forall i :: 0 <= i < |ops| ==> ops[i].generated != ""
  }

  ghost predicate NoEmptyIds(s: Store) {
    forall i :: 0 <= i < |s.entries| ==> s.entries[i].id != ""
  }

  /** The last line is not a leaf marker put in by hand that names another entry as the leaf. */
  predicate Settled(s: Store) {
    s.entries == [] || !Last(s.entries).kind.Leaf? || Last(s.entries).kind.target == s.leaf
  }

  /** What a replay always gets right: entries and labels, and the index but for empty ids. */
  ghost predicate Tracks(s: Store) {
    var r := Replay(s.entries);
    && r.entries == s.entries && r.labels == s.labels
    && r.byId == s.byId - {""} && ("" in s.byId <==> !NoEmptyIds(s))
  }

  ghost predicate LeafTracks(s: Store) {
    var r := Replay(s.entries);
    if s.entries == [] then s.leaf == r.leaf == None
    else if Last(s.entries).kind.Leaf? then r.leaf == Last(s.entries).kind.target
    else Last(s.entries).id != "" ==> r.leaf == s.leaf
  }

  lemma NoEmptyIdsGrows(s: Store, t: Store, line: Line)
    requires t.entries == s.entries + [line]
    ensures NoEmptyIds(t) <==> NoEmptyIds(s) && line.id != ""
  {
    assert t.entries[|s.entries|] == line;
    assert forall i :: 0 <= i < |s.entries| ==> t.entries[i] == s.entries[i];
  }

  lemma NothingReplayed()
    ensures Replay([]) == EMPTY
  {
  }

  lemma ReplayNext(lines: seq<Line>, line: Line)
    ensures Replay(lines + [line]) == ReplayOne(Replay(lines), line)
  {
    assert Front(lines + [line]) == lines && Last(lines + [line]) == line;
  }

  lemma {:induction false} ReplayHolds(lines: seq<Line>)
    ensures Replay(lines).entries == lines
  {
    hide Relabel, Replay;
    if lines == [] {
      NothingReplayed();
    } else {
      ReplayHolds(Front(lines));
      assert lines == Front(lines) + [Last(lines)];
      ReplayNext(Front(lines), Last(lines));
    }
  }

  lemma WithoutEmpty(byId: map<string, Line>, line: Line)
    ensures byId[line.id := line] - {""} == if line.id == "" then byId - {""} else (byId - {""})[line.id := line]
  {
  }

  lemma AppendTracks(s: Store, line: Line, leaf: Option<string>)
    requires Tracks(s) && (leaf == Some(line.id) || line.kind.Leaf?)
    ensures var t := Append(s, line).(leaf := leaf); Tracks(t) && LeafTracks(t)
  {
    hide NoEmptyIds, Replay, Relabel;
    var t := Append(s, line).(leaf := leaf);
    ReplayNext(s.entries, line);
    NoEmptyIdsGrows(s, t, line);
    WithoutEmpty(s.byId, line);
  }

  lemma {:induction false} ReplayedParts(ops: seq<Op>)
    requires Generates(ops)
    ensures Tracks(Run(ops)) && LeafTracks(Run(ops))
  {
    if ops == [] {
    } else {
      ReplayedParts(Front(ops));
      hide Tracks, LeafTracks;
      var s, op := Run(Front(ops)), Last(ops);
      match op
      case Put(d, generated) =>
        var line := Filled(s, d, generated);
        AppendTracks(s, line, Some(line.id));
      case MoveLeaf(target, generated) =>
        AppendTracks(s, Line(generated, s.leaf, Leaf(target), ""), target);
    }
  }

  /**
   Reopening the file gives exactly the live store if and only if no entry has an empty id and the last line is
   not a leaf marker appended by hand for another target.
   */
  lemma ReopenEqualsLive(ops: seq<Op>)
    requires Generates(ops)
    ensures Replay(Run(ops).entries) == Run(ops) <==> NoEmptyIds(Run(ops)) && Settled(Run(ops))
  {
    ReplayedParts(ops);
    var s := Run(ops);
    hide Run, Replay;
    if NoEmptyIds(s) {
      assert s.byId - {""} == s.byId;
      assert s.entries != [] ==> s.entries[|s.entries| - 1].id != "";
    } else {
      assert "" !in s.byId - {""};
    }
  }

  /** Runs that leave ids and parents to the store. */
  ghost predicate Defaults(s: Store, op: Op) {
    && op.generated != "" && op.generated !in s.byId
    && (op.Put? ==> op.draft.parent.None? && !op.draft.kind.Leaf?
                    && (op.draft.id.Some? ==> op.draft.id.value != "" && op.draft.id.value !in s.byId))
  }

  ghost predicate DefaultRun(ops: seq<Op>) {
    ops != [] ==> DefaultRun(Front(ops)) && Defaults(Run(Front(ops)), Last(ops))
  }
}
