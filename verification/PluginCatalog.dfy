/** Updating and rolling back an installed plugin: several renames and one state write, undone if one of them fails. */
module PluginCatalog {
  import opened Common

  /** The files of a plugin. */
  datatype Files = Files(name: string, version: string, content: string)

  /** An unpacked plugin, with the checksum of the archive it came from, which nothing on disk but the state records. */
  datatype Tree = Tree(files: Files, origin: string)

  datatype Slot = Installed | Backup | Older | Staged | Rolling

  datatype Flags = Flags(enabled: bool, trusted: bool, checksum: Option<string>, pinned: bool,
                         previousVersion: Option<string>, previousChecksum: Option<string>)

  const UNKNOWN := Flags(false, false, None, false, None, None)

  /** Directories and the state file, for one plugin. */
  datatype Disk = Disk(trees: map<Slot, Tree>, state: map<string, Flags>)

  datatype Refusal = BadChecksum | NotInstalled | Pinned | BadArchive | OtherName | SameVersion | NoPrevious

  datatype Outcome = Done | Refused(reason: Refusal) | Raised

  function FlagsOf(state: map<string, Flags>, name: string): Flags {
    if name in state then state[name] else UNKNOWN
  }

  // ---------- What should happen ----------

  /** The archive as it arrives: its checksum, whether it is the expected one, and its files, if it is valid. */
  datatype Archive = Archive(checksum: string, expected: bool, files: Option<Files>)

  function Unpacked(a: Archive): Tree
    requires a.files.Some?
  {
    Tree(a.files.value, a.checksum)
  }

  function UpdateRefusal(d: Disk, name: string, a: Archive): Option<Refusal> {
    if !a.expected then Some(BadChecksum)
    else if Installed !in d.trees then Some(NotInstalled)
    else if FlagsOf(d.state, name).pinned then Some(Pinned)
    else if a.files.None? then Some(BadArchive)
    else if a.files.value.name != name then Some(OtherName)
    else if a.files.value.version == d.trees[Installed].files.version then Some(SameVersion)
    else None
  }

  /** The new tree in place, the old one in the backup slot, trust revoked. */
  function Updated(d: Disk, name: string, a: Archive): Disk
    requires Installed in d.trees && a.files.Some?
  {
    var flags := Flags(false, false, Some(a.checksum), false, Some(d.trees[Installed].files.version),
                       FlagsOf(d.state, name).checksum);
    Disk((d.trees - {Older})[Installed := Unpacked(a)][Backup := d.trees[Installed]], d.state[name := flags])
  }

  function RollbackRefusal(d: Disk): Option<Refusal> {
    if Installed !in d.trees then Some(NotInstalled) else if Backup !in d.trees then Some(NoPrevious) else None
  }

  /** Both trees exchanged, and both checksums. */
  function RolledBack(d: Disk, name: string): Disk
    requires Installed in d.trees && Backup in d.trees
  {
    var was := FlagsOf(d.state, name);
    var flags := Flags(false, false, was.previousChecksum, false, Some(d.trees[Installed].files.version), was.checksum);
    Disk((d.trees - {Rolling})[Installed := d.trees[Backup]][Backup := d.trees[Installed]], d.state[name := flags])
  }

  /** Installed tree, backup slot and state file are the same. */
  ghost predicate Unchanged(a: Disk, b: Disk) {
    SameAt(a.trees, b.trees, Installed) && SameAt(a.trees, b.trees, Backup) && a.state == b.state
  }

  ghost predicate SameAt(a: map<Slot, Tree>, b: map<Slot, Tree>, s: Slot) {
    (s in a <==> s in b) && (s in a ==> a[s] == b[s])
  }

  lemma SameEverywhere(a: map<Slot, Tree>, b: map<Slot, Tree>)
    requires SameAt(a, b, Installed) && SameAt(a, b, Backup) && SameAt(a, b, Older)
    requires SameAt(a, b, Staged) && SameAt(a, b, Rolling)
    ensures a == b
  {
    forall s: Slot ensures (s in a <==> s in b) && (s in a ==> a[s] == b[s]) {
      assert s.Installed? || s.Backup? || s.Older? || s.Staged? || s.Rolling?;
      assert SameAt(a, b, s);
    }
  }

  /** What was the backup is now in the older slot, if there was one. */
  ghost predicate SameMoved(a: map<Slot, Tree>, b: map<Slot, Tree>) {
    (Backup in a <==> Older in b) && (Backup in a ==> a[Backup] == b[Older])
  }

  function One(b: bool): nat {
    if b then 1 else 0
  }

  /** How many file operations an undisturbed update does. */
  function UpdateOperations(d: Disk): nat {
    One(Older in d.trees) + 2 * One(Backup in d.trees) + 3
  }

  function RollbackOperations(d: Disk): nat {
    One(Rolling in d.trees) + 4
  }

  /**
   A refused update does nothing. Otherwise it is done unless one of its file operations fails; then installed
   tree, backup slot and state are as before, except that a failure of the final cleanup leaves the update standing.
   */
  ghost predicate UpdateStep(d: Disk, name: string, a: Archive, fault: Option<nat>, outcome: Outcome, e: Disk) {
    var refusal := UpdateRefusal(d, name, a);
    if refusal.Some? then outcome == Refused(refusal.value) && e == d
    else if fault.None? || fault.value >= UpdateOperations(d) then outcome == Done && e == Updated(d, name, a)
    else
      outcome == Raised
      && Unchanged(e, if Backup in d.trees && fault.value == UpdateOperations(d) - 1 then Updated(d, name, a) else d)
  }

  /**
   A refused rollback does nothing. Otherwise trees and checksums are exchanged unless a file operation fails;
   then both trees are back. The state is back too, unless it was the last rename that failed: the state that
   was already written stays.
   */
  ghost predicate RollbackStep(d: Disk, name: string, fault: Option<nat>, outcome: Outcome, e: Disk) {
    var refusal := RollbackRefusal(d);
    if refusal.Some? then outcome == Refused(refusal.value) && e == d
    else if fault.None? || fault.value >= RollbackOperations(d) then outcome == Done && e == RolledBack(d, name)
    else
      outcome == Raised
      && SameAt(e.trees, d.trees, Installed) && SameAt(e.trees, d.trees, Backup)
      && e.state == if LastRename(d, fault) then RolledBack(d, name).state else d.state
  }

  predicate LastRename(d: Disk, fault: Option<nat>) {
    fault.Some? && fault.value == RollbackOperations(d) - 1
  }

  /** Why an update is refused: the first thing that is wrong with it. */
  ghost predicate RefusesUpdate(d: Disk, name: string, a: Archive, r: Refusal) {
    var pinned := name in d.state && d.state[name].pinned;
    match r
    case BadChecksum => !a.expected
    case NotInstalled => a.expected && Installed !in d.trees
    case Pinned => a.expected && Installed in d.trees && pinned
    case BadArchive => a.expected && Installed in d.trees && !pinned && a.files.None?
    case OtherName => a.expected && Installed in d.trees && !pinned && a.files.Some? && a.files.value.name != name
    case SameVersion =>
      && a.expected && Installed in d.trees && !pinned && a.files.Some? && a.files.value.name == name
      && a.files.value.version == d.trees[Installed].files.version
    case NoPrevious => false
  }

  /**
   An update that went through: the archive's files are installed, disabled, untrusted and unpinned, under its checksum;
   what was installed is the backup, with its version and checksum; no other plugin's state moved.
   */
  ghost predicate IsUpdated(d: Disk, e: Disk, name: string, a: Archive) {
    && Installed in d.trees && a.files.Some?
    && Installed in e.trees && e.trees[Installed].files == a.files.value && e.trees[Installed].origin == a.checksum
    && Backup in e.trees && e.trees[Backup] == d.trees[Installed] && Older !in e.trees
    && name in e.state
    && e.state[name] == Flags(false, false, Some(a.checksum), false, Some(d.trees[Installed].files.version),
                              if name in d.state then d.state[name].checksum else None)
    && SameOthers(d, e, name)
  }

  /** A rollback that went through: the trees and their checksums have changed places; nothing is enabled or trusted. */
  ghost predicate IsRolledBack(d: Disk, e: Disk, name: string) {
    && Installed in d.trees && Backup in d.trees
    && Installed in e.trees && e.trees[Installed] == d.trees[Backup]
    && Backup in e.trees && e.trees[Backup] == d.trees[Installed] && Rolling !in e.trees
    && name in e.state
    && e.state[name] == Flags(false, false, if name in d.state then d.state[name].previousChecksum else None, false,
                              Some(d.trees[Installed].files.version),
                              if name in d.state then d.state[name].checksum else None)
    && SameOthers(d, e, name)
  }

  ghost predicate SameOthers(d: Disk, e: Disk, name: string) {
    forall other :: other != name ==>
      (other in e.state <==> other in d.state) && (other in d.state ==> e.state[other] == d.state[other])
  }

  // ---------- The catalog ----------

  /** At most one file operation fails, the `fault`-th, and then does nothing; undoing is not disturbed again. */
  class Catalog {
    var trees: map<Slot, Tree>
    var state: map<string, Flags>
    var operations: nat
    var fault: Option<nat>

    ghost function View(): Disk
      reads this
    {
      Disk(trees, state)
    }

    constructor (trees: map<Slot, Tree>, state: map<string, Flags>, fault: Option<nat>)
      ensures View() == Disk(trees, state) && operations == 0 && this.fault == fault
    {
      this.trees, this.state, this.operations, this.fault := trees, state, 0, fault;
    }

    /** Moves a directory to a free place. */
    method Rename(from: Slot, to: Slot) returns (ok: bool)
      modifies `trees, `operations
      ensures operations == old(operations) + 1
      ensures ok <==> fault != Some(old(operations)) && from in old(trees) && to !in old(trees)
      ensures trees == if ok then (old(trees) - {from})[to := old(trees)[from]] else old(trees)
    {
      ok := fault != Some(operations) && from in trees && to !in trees;
      operations := operations + 1;
      if ok {
        trees := (trees - {from})[to := trees[from]];
      }
    }

    /** Removes a directory; a failure may leave some of it. */
    method RemoveTree(slot: Slot, damaged: Tree) returns (ok: bool)
      requires slot in trees
      modifies `trees, `operations
      ensures operations == old(operations) + 1 && ok == (fault != Some(old(operations)))
      ensures trees == if ok then old(trees) - {slot} else old(trees)[slot := damaged]
    {
      ok := fault != Some(operations);
      operations := operations + 1;
      trees := if ok then trees - {slot} else trees[slot := damaged];
    }

    /** The state file is replaced as a whole. */
    method WriteState(next: map<string, Flags>) returns (ok: bool)
      modifies `state, `operations
      ensures operations == old(operations) + 1 && ok == (fault != Some(old(operations)))
      ensures state == if ok then next else old(state)
    {
      ok := fault != Some(operations);
      operations := operations + 1;
      if ok {
        state := next;
      }
    }

    /** The tests before any file is touched, then the file operations. */
    method UpdateZip(name: string, a: Archive, damaged: Tree) returns (outcome: Outcome)
      requires Staged !in trees && operations == 0
      modifies `trees, `state, `operations
      ensures UpdateStep(old(View()), name, a, fault, outcome, View())
      ensures forall r :: outcome == Refused(r) <==> RefusesUpdate(old(View()), name, a, r)
      ensures outcome.Refused? ==> View() == old(View())
      ensures outcome.Done? ==> IsUpdated(old(View()), View(), name, a)
      ensures fault.None? ==> !outcome.Raised?
    {
      if !a.expected {
        return Refused(BadChecksum);
      }
      if Installed !in trees {
        return Refused(NotInstalled);
      }
      var flags := FlagsOf(state, name);
      if flags.pinned {
        return Refused(Pinned);
      }
      if a.files.None? {
        return Refused(BadArchive);
      }
      if a.files.value.name != name {
        return Refused(OtherName);
      }
      var version := trees[Installed].files.version;
      if a.files.value.version == version {
        return Refused(SameVersion);
      }
      var next := state[name := Flags(false, false, Some(a.checksum), false, Some(version), flags.checksum)];
      trees := trees[Staged := Unpacked(a)];
      var ok := Replace(next, damaged);
      // The staging directory is temporary.
      trees := trees - {Staged};
      return if ok then Done else Raised;
    }

    /** Moves the backup out of the way. */
    method MakeRoom(damaged: Tree) returns (ok: bool)
      requires operations == 0
      modifies `trees, `operations
      ensures var d := old(View());
              var n := One(Older in d.trees) + One(Backup in d.trees);
              && ok == (fault.None? || fault.value >= n) && (ok ==> operations == n)
              && (ok ==>
                    && Backup !in trees && SameMoved(d.trees, trees) && SameAt(trees, d.trees, Installed)
                    && SameAt(trees, d.trees, Staged) && SameAt(trees, d.trees, Rolling))
              && (!ok ==> Unchanged(View(), d))
    {
      ok := true;
      if Older in trees {
        ok := RemoveTree(Older, damaged);
        if !ok {
          return;
        }
      }
      if Backup in trees {
        ok := Rename(Backup, Older);
      }
    }

    /** The protected renames and the state write, with their handlers. */
    method Swap(next: map<string, Flags>, damaged: Tree) returns (ok: bool)
      requires Staged in trees && Installed in trees && Backup !in trees
      requires fault.Some? ==> fault.value >= operations
      modifies `trees, `state, `operations
      ensures ok == (fault.None? || fault.value >= old(operations) + 3) && (ok ==> operations == old(operations) + 3)
      ensures ok ==>
          View() == Disk((old(trees) - {Staged})[Installed := old(trees)[Staged]]
                         [Backup := old(trees)[Installed]], next)
      ensures !ok ==> SameAt(trees, old(trees), Installed) && SameMoved(trees, old(trees)) && state == old(state)
    {
      ok := Rename(Installed, Backup);
      if ok {
        ok := Rename(Staged, Installed);
        if ok {
          ok := WriteState(next);
        }
        if !ok {
          if Installed in trees {
            var removed := RemoveTree(Installed, damaged);
          }
          var back := Rename(Backup, Installed);
        }
      }
      if !ok {
        if Older in trees {
          var back := Rename(Older, Backup);
        }
      }
    }

    /** The file operations of an update. */
    method Replace(next: map<string, Flags>, damaged: Tree) returns (ok: bool)
      requires Staged in trees && Installed in trees && operations == 0
      modifies `trees, `state, `operations
      ensures var d := old(View());
              var trees' := (d.trees - {Older, Staged})[Installed := d.trees[Staged]][Backup := d.trees[Installed]];
              var updated := Disk(trees', next);
              && ok == (fault.None? || fault.value >= UpdateOperations(d))
              && (ok ==> View() == updated)
              && (!ok ==> Unchanged(View(), if Backup in d.trees && fault.value == UpdateOperations(d) - 1 then updated
                                            else d))
    {
      ok := MakeRoom(damaged);
      if !ok {
        return;
      }
      ok := Swap(next, damaged);
      if ok && Older in trees {
        ok := RemoveTree(Older, damaged);
      }
      ghost var was := old(trees);
      ghost var now := (was - {Older, Staged})[Installed := was[Staged]][Backup := was[Installed]];
      if ok {
        assert SameAt(trees, now, Installed) && SameAt(trees, now, Backup) && SameAt(trees, now, Older)
            && SameAt(trees, now, Staged) && SameAt(trees, now, Rolling);
        SameEverywhere(trees, now);
      }
    }

    /**
     Both trees change places by way of a third slot, with the state written before the last rename; a failure puts
     them back.
     */
    method Exchange(next: map<string, Flags>) returns (ok: bool)
      requires Installed in trees && Backup in trees && Rolling !in trees
      requires fault.Some? ==> fault.value >= operations
      modifies `trees, `state, `operations
      ensures ok == (fault.None? || fault.value >= old(operations) + 4)
      ensures ok ==> trees == old(trees)[Installed := old(trees)[Backup]][Backup := old(trees)[Installed]]
      ensures !ok ==> SameAt(trees, old(trees), Installed) && SameAt(trees, old(trees), Backup)
      ensures state == if ok || fault.value == old(operations) + 3 then next else old(state)
    {
      ok := Rename(Installed, Rolling);
      if !ok {
        return;
      }
      ok := Rename(Backup, Installed);
      if ok {
        ok := WriteState(next);
        if ok {
          ok := Rename(Rolling, Backup);
        }
      }
      if !ok {
        if Installed in trees {
          var back := Rename(Installed, Backup);
        }
        var back := Rename(Rolling, Installed);
      }
      ghost var was := old(trees);
      ghost var now := was[Installed := was[Backup]][Backup := was[Installed]];
      if ok {
        assert SameAt(trees, now, Installed) && SameAt(trees, now, Backup) && SameAt(trees, now, Older)
            && SameAt(trees, now, Staged) && SameAt(trees, now, Rolling);
        SameEverywhere(trees, now);
      }
    }

    /** The tests, what an earlier rollback left behind, and the exchange. */
    method Rollback(name: string, damaged: Tree) returns (outcome: Outcome)
      requires operations == 0
      modifies `trees, `state, `operations
      ensures RollbackStep(old(View()), name, fault, outcome, View())
      ensures outcome == Refused(NotInstalled) <==> Installed !in old(trees)
      ensures outcome == Refused(NoPrevious) <==> Installed in old(trees) && Backup !in old(trees)
      ensures outcome.Refused? ==> outcome.reason in {NotInstalled, NoPrevious} && View() == old(View())
      ensures outcome.Done? ==> IsRolledBack(old(View()), View(), name)
      ensures fault.None? ==> !outcome.Raised?
    {
      if Installed !in trees {
        return Refused(NotInstalled);
      }
      if Backup !in trees {
        return Refused(NoPrevious);
      }
      var version := trees[Installed].files.version;
      var flags := FlagsOf(state, name);
      if Rolling in trees {
        var removed := RemoveTree(Rolling, damaged);
        if !removed {
          return Raised;
        }
      }
      var next := Flags(false, false, flags.previousChecksum, false, Some(version), flags.checksum);
      var ok := Exchange(state[name := next]);
      return if ok then Done else Raised;
    }
  }

  // ---------- What follows ----------

  /** Two rollbacks restore both trees and both checksums; the plugin stays disabled and untrusted. */
  lemma TwoRollbacksRestore(d: Disk, name: string)
    requires Installed in d.trees && Backup in d.trees
    ensures var e := RolledBack(d, name);
            RollbackRefusal(e).None? &&
            (var f := RolledBack(e, name);
             && SameAt(f.trees, d.trees, Installed) && SameAt(f.trees, d.trees, Backup)
             && FlagsOf(f.state, name).checksum == FlagsOf(d.state, name).checksum
             && FlagsOf(f.state, name).previousChecksum == FlagsOf(d.state, name).previousChecksum
             && !FlagsOf(f.state, name).enabled && !FlagsOf(f.state, name).trusted
             && forall other :: other != name ==> FlagsOf(f.state, other) == FlagsOf(d.state, other))
  {
  }

  /**
   A rollback after an update brings back the tree and the checksum from before it, and keeps the update as the backup.
   */
  lemma RollbackUndoesUpdate(d: Disk, name: string, a: Archive)
    requires UpdateRefusal(d, name, a).None?
    ensures var u := Updated(d, name, a);
            RollbackRefusal(u).None? &&
            (var r := RolledBack(u, name);
             && SameAt(r.trees, d.trees, Installed) && Backup in r.trees && r.trees[Backup] == Unpacked(a)
             && FlagsOf(r.state, name).checksum == FlagsOf(d.state, name).checksum
             && FlagsOf(r.state, name).previousChecksum == Some(a.checksum))
  {
  }

  /** After a failed update the same update can be tried again, and gives what it would have given. */
  lemma RetryIsTheSame(failed: Disk, d: Disk, name: string, a: Archive)
    requires Unchanged(failed, d)
    ensures UpdateRefusal(failed, name, a) == UpdateRefusal(d, name, a)
    ensures UpdateRefusal(d, name, a).None? ==> Unchanged(Updated(failed, name, a), Updated(d, name, a))
  {
  }

  // ---------- Records over whole runs ----------

  /** One call for the plugin, and which of its file operations fails. */
  datatype Call = Update(archive: Archive, fault: Option<nat>) | Back(fault: Option<nat>)

  ghost predicate Step(d: Disk, name: string, call: Call, e: Disk) {
    match call
    case Update(a, fault) => exists outcome :: UpdateStep(d, name, a, fault, outcome, e)
    case Back(fault) => exists outcome :: RollbackStep(d, name, fault, outcome, e)
  }

  /** The disks before, between and after the calls. */
  ghost predicate Runs(disks: seq<Disk>, name: string, calls: seq<Call>) {
    |disks| == |calls| + 1 && forall i :: 0 <= i < |calls| ==> Step(disks[i], name, calls[i], disks[i + 1])
  }

  /** Each recorded checksum is that of the archive from which the tree in its place came. */
  ghost predicate Recorded(d: Disk, name: string) {
    && (Installed in d.trees ==> FlagsOf(d.state, name).checksum == Some(d.trees[Installed].origin))
    && (Backup in d.trees ==> FlagsOf(d.state, name).previousChecksum == Some(d.trees[Backup].origin))
  }

  /** A rollback that is not refused, of two trees from different archives, of which the last rename fails. */
  predicate Loses(d: Disk, call: Call) {
    && call.Back? && RollbackRefusal(d).None? && LastRename(d, call.fault)
    && d.trees[Installed].origin != d.trees[Backup].origin
  }

  /**
   If only the last rename of a rollback fails, trees and records part: the record names the other tree's
   checksum, and they agree only if both trees have the same one.
   */
  lemma LastRenameLosesTheRecord(d: Disk, name: string)
    requires Installed in d.trees && Backup in d.trees && Recorded(d, name)
    ensures Recorded(RolledBack(d, name), name)
    ensures Recorded(d.(state := RolledBack(d, name).state), name)
       <==> d.trees[Installed].origin == d.trees[Backup].origin
  {
  }

  /** Records that match stay so in every call but that one, and there they never do. */
  lemma StepRecorded(d: Disk, name: string, call: Call, e: Disk)
    requires Step(d, name, call, e) && Recorded(d, name)
    ensures Recorded(e, name) <==> !Loses(d, call)
  {
    match call
    case Update(a, fault) => var outcome :| UpdateStep(d, name, a, fault, outcome, e);
    case Back(fault) => var outcome :| RollbackStep(d, name, fault, outcome, e);
  }

  /** The records are right on the first `n` disks. */
  ghost predicate RightUntil(disks: seq<Disk>, name: string, n: nat)
    requires n <= |disks|
  {
    forall i :: 0 <= i < n ==> Recorded(disks[i], name)
  }

  ghost predicate NeverLoses(disks: seq<Disk>, calls: seq<Call>, n: nat)
    requires n <= |calls| && n <= |disks|
  {
    forall i :: 0 <= i < n ==> !Loses(disks[i], calls[i])
  }

  /**
   Over any run of updates and rollbacks, each with a failure of any one file operation or none, the records match the
   trees after every call if and only if no rollback of trees from different archives failed in its last rename.
   */
  lemma {:induction false} RecordedUntilLastRename(disks: seq<Disk>, name: string, calls: seq<Call>, n: nat)
    requires Runs(disks, name, calls) && n <= |calls| && Recorded(disks[0], name)
    ensures RightUntil(disks, name, n + 1) <==> NeverLoses(disks, calls, n)
  {
    if n == 0 {
    } else {
      RecordedUntilLastRename(disks, name, calls, n - 1);
      hide Step, Recorded, Loses;
      if RightUntil(disks, name, n) {
        assert Recorded(disks[n - 1], name) && Step(disks[n - 1], name, calls[n - 1], disks[n]);
        StepRecorded(disks[n - 1], name, calls[n - 1], disks[n]);
      }
    }
  }

  /** Two updates that go through make the records right again, whatever they were. */
  lemma TwoUpdatesRestore(d: Disk, name: string, a: Archive, b: Archive)
    requires UpdateRefusal(d, name, a).None? && UpdateRefusal(Updated(d, name, a), name, b).None?
    ensures Recorded(Updated(Updated(d, name, a), name, b), name)
  {
    var mid := Updated(d, name, a);
    assert mid.trees[Installed] == Unpacked(a) && FlagsOf(mid.state, name).checksum == Some(a.checksum);
  }

  // ---------- A run in which the record is lost ----------

  const FIRST := Tree(Files("p", "1", "first"), "aa")
  const SECOND := Tree(Files("p", "2", "second"), "bb")
  const ONE_INSTALLED := Disk(map[Installed := FIRST], map["p" := Flags(true, true, Some("aa"), false, None, None)])
  const TWO_CALLS := [Update(Archive("bb", true, Some(SECOND.files)), None), Back(Some(3))]

  /**
   An update, and a rollback whose last rename fails: the second version is still installed, recorded as the first.
   */
  lemma RecordIsLost(disks: seq<Disk>)
    requires Runs(disks, "p", TWO_CALLS) && disks[0] == ONE_INSTALLED
    ensures disks[1] == Updated(ONE_INSTALLED, "p", TWO_CALLS[0].archive) && Recorded(disks[1], "p")
    ensures var e := disks[2];
            && Installed in e.trees && e.trees[Installed] == SECOND && FlagsOf(e.state, "p").checksum == Some("aa")
            && Backup in e.trees && e.trees[Backup] == FIRST && FlagsOf(e.state, "p").previousChecksum == Some("bb")
  {
    assert Step(disks[0], "p", TWO_CALLS[0], disks[1]) && Step(disks[1], "p", TWO_CALLS[1], disks[2]);
    var a := TWO_CALLS[0].archive;
    var first :| UpdateStep(disks[0], "p", a, None, first, disks[1]);
    var second :| RollbackStep(disks[1], "p", Some(3), second, disks[2]);
  }

  /** There is such a run. */
  lemma LossIsPossible() returns (disks: seq<Disk>)
    ensures Runs(disks, "p", TWO_CALLS) && disks[0] == ONE_INSTALLED
  {
    var a := TWO_CALLS[0].archive;
    var d := Updated(ONE_INSTALLED, "p", a);
    var e := Disk(d.trees, RolledBack(d, "p").state);
    disks := [ONE_INSTALLED, d, e];
    assert UpdateStep(ONE_INSTALLED, "p", a, None, Done, d);
    assert RollbackStep(d, "p", Some(3), Raised, e);
    forall i | 0 <= i < |TWO_CALLS| ensures Step(disks[i], "p", TWO_CALLS[i], disks[i + 1]) {
      assert i == 0 || i == 1;
    }
  }
}
