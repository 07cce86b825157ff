/** Who may bind a tool name: registrations, replacements and removals with their refusals. */
module ToolOwnership {
  import opened Common

  /** A tool object: its identity is what `is` compares; its schema is None when it cannot be built. */
  datatype Adapter = Adapter(name: string, identity: nat, schema: Option<string>, parentOnly: bool)

  datatype Registry = Registry(
    tools: map<string, Adapter>,
    functions: map<string, nat>,
    owners: map<string, string>,
    sandbox: Option<set<string>>,
    discovery: bool)

  const BLANK := Registry(map[], map[], map[], None, false)

  const SEARCH := "ToolSearch"

  datatype Refusal = BadOwner | OtherOwner | Sandboxed | NameTaken | ActiveSearch | BadInventory | AlreadySet | NoSearch

  function OnlySpaces(s: string): bool {
    forall i :: 0 <= i < |s| ==> s[i] == ' ' || s[i] == '\t' || s[i] == '\n' || s[i] == '\r'
  }

  predicate ValidOwner(owner: string) {
    1 <= |owner| <= 128 && !OnlySpaces(owner)
  }

  predicate Foreign(r: Registry, name: string, owner: string) {
    name in r.owners && r.owners[name] != owner
  }

  predicate Guarded(r: Registry, name: string) {
    r.sandbox.Some? && name in r.sandbox.value
  }

  /** The one handoff: built-in tools may take over what the host injected, before discovery is on. */
  predicate Handoff(r: Registry, name: string, owner: string, boot: bool) {
    boot && owner == "builtin" && name in r.owners && r.owners[name] == "legacy" && !r.discovery
  }

  function RegisterTool(r: Registry, tool: Adapter, owner: string, boot: bool): Result<Registry, Refusal> {
    if !ValidOwner(owner) then Err(BadOwner)
    else if Foreign(r, tool.name, owner) && !Handoff(r, tool.name, owner, boot) then Err(OtherOwner)
    else if Guarded(r, tool.name) then Err(Sandboxed)
    else if tool.name in r.functions then Err(NameTaken)
    else if tool.name in r.tools && tool.name == SEARCH && r.discovery then Err(ActiveSearch)
    else Ok(r.(tools := r.tools[tool.name := tool], owners := r.owners[tool.name := owner]))
  }

  function RegisterFunction(r: Registry, name: string, func: nat, owner: string): Result<Registry, Refusal> {
    if !ValidOwner(owner) then Err(BadOwner)
    else if Foreign(r, name, owner) then Err(OtherOwner)
    else if Guarded(r, name) then Err(Sandboxed)
    else if name in r.tools then Err(NameTaken)
    else Ok(r.(functions := r.functions[name := func], owners := r.owners[name := owner]))
  }

  function Unregister(r: Registry, name: string, owner: string): Result<Registry, Refusal> {
    if !ValidOwner(owner) then Err(BadOwner)
    else if Foreign(r, name, owner) then Err(OtherOwner)
    else if name == SEARCH && r.discovery then Err(ActiveSearch)
    else if Guarded(r, name) then Err(Sandboxed)
    else if name in r.tools then Ok(r.(tools := r.tools - {name}, owners := r.owners - {name}))
    else if name in r.functions then Ok(r.(functions := r.functions - {name}, owners := r.owners - {name}))
    else Ok(r)
  }

  function OwnedBy(r: Registry, owner: string): set<string> {
    set name | name in r.owners && r.owners[name] == owner
  }

  function Names(tools: seq<Adapter>): set<string> {
    set i | 0 <= i < |tools| :: tools[i].name
  }

  predicate GoodInventory(tools: seq<Adapter>) {
    && (forall i :: 0 <= i < |tools| ==> tools[i].name != "")
    && forall i, j :: 0 <= i < j < |tools| ==> tools[i].name != tools[j].name
  }

  function Bound(tools: map<string, Adapter>, added: seq<Adapter>): map<string, Adapter> {
    if added == [] then tools else Bound(tools, Front(added))[Last(added).name := Last(added)]
  }

  function OwnedAs(owners: map<string, string>, added: seq<Adapter>, owner: string): map<string, string> {
    if added == [] then owners else OwnedAs(owners, Front(added), owner)[Last(added).name := owner]
  }

  /** The first name of an inventory that may not be taken over, and why. */
  function NameRefusal(r: Registry, owner: string, tools: seq<Adapter>): Option<Refusal> {
    if tools == [] then None
    else
      var earlier := NameRefusal(r, owner, Front(tools));
      if earlier.Some? then earlier
      else if Foreign(r, Last(tools).name, owner) then Some(OtherOwner)
      else if Last(tools).name == SEARCH && r.discovery then Some(ActiveSearch)
      else None
  }

  lemma {:induction false} NamesAreFree(r: Registry, owner: string, tools: seq<Adapter>)
    ensures NameRefusal(r, owner, tools).None? <==>
              forall i :: 0 <= i < |tools| ==>
                !Foreign(r, tools[i].name, owner) && !(tools[i].name == SEARCH && r.discovery)
  {
    if tools == [] {
    } else {
      NamesAreFree(r, owner, Front(tools));
      assert Last(tools) == tools[|tools| - 1];
      assert forall i :: 0 <= i < |tools| - 1 ==> Front(tools)[i] == tools[i];
    }
  }

  /** One owner's whole inventory at once. */
  function ReplaceOwned(r: Registry, owner: string, tools: seq<Adapter>): Result<Registry, Refusal> {
    if !ValidOwner(owner) then Err(BadOwner)
    else if !GoodInventory(tools) then Err(BadInventory)
    else if r.sandbox.Some? then Err(Sandboxed)
    else if NameRefusal(r, owner, tools).Some? then Err(NameRefusal(r, owner, tools).value)
    else if r.discovery && SEARCH in OwnedBy(r, owner) then Err(ActiveSearch)
    else
      var gone := OwnedBy(r, owner);
      Ok(r.(tools := Bound(r.tools - gone, tools), functions := r.functions - gone,
            owners := OwnedAs(r.owners - gone, tools, owner)))
  }

  function Clear(r: Registry): Result<Registry, Refusal> {
    if r.sandbox.Some? then Err(Sandboxed) else Ok(r.(tools := map[], functions := map[], owners := map[]))
  }

  function Restrict(r: Registry, allowed: set<string>): Result<Registry, Refusal> {
    if r.sandbox.Some? then Err(AlreadySet) else Ok(r.(sandbox := Some(allowed)))
  }

  function EnableDiscovery(r: Registry): Result<Registry, Refusal> {
    if r.discovery then Err(AlreadySet)
    else if r.sandbox.Some? then Err(Sandboxed)
    else if SEARCH !in r.tools then Err(NoSearch)
    else Ok(r.(discovery := true))
  }

  // ---------- Runs ----------

  datatype Op =
    | PutTool(tool: Adapter, owner: string, boot: bool)
    | PutFunction(name: string, func: nat, owner: string)
    | Remove(name: string, owner: string)
    | Replace(owner: string, tools: seq<Adapter>)
    | ClearAll
    | Sandbox(allowed: set<string>)
    | Discover

  function Try(r: Registry, op: Op): Result<Registry, Refusal> {
    match op
    case PutTool(tool, owner, boot) => RegisterTool(r, tool, owner, boot)
    case PutFunction(name, func, owner) => RegisterFunction(r, name, func, owner)
    case Remove(name, owner) => Unregister(r, name, owner)
    case Replace(owner, tools) => ReplaceOwned(r, owner, tools)
    case ClearAll => Clear(r)
    case Sandbox(allowed) => Restrict(r, allowed)
    case Discover => EnableDiscovery(r)
  }

  /** A refusal changes nothing. */
  function Apply(r: Registry, op: Op): Registry {
    var t := Try(r, op);
    if t.Ok? then t.value else r
  }

  function Run(r: Registry, ops: seq<Op>): Registry {
    if ops == [] then r else Apply(Run(r, Front(ops)), Last(ops))
  }

  // ---------- Ownership ----------

  /** Every name is bound once, by an owner, under its tool's own name. */
  ghost predicate Owned(r: Registry) {
    && r.tools.Keys !! r.functions.Keys && r.owners.Keys == r.tools.Keys + r.functions.Keys
    && forall name :: name in r.tools ==> r.tools[name].name == name
  }

  lemma {:induction false} BoundAt(tools: map<string, Adapter>, owners: map<string, string>, added: seq<Adapter>,
                                   owner: string, name: string)
    ensures name in Bound(tools, added) <==> name in tools || name in Names(added)
    ensures name in OwnedAs(owners, added, owner) <==> name in owners || name in Names(added)
    ensures name in tools && name !in Names(added) ==> Bound(tools, added)[name] == tools[name]
    ensures name in owners && name !in Names(added) ==> OwnedAs(owners, added, owner)[name] == owners[name]
    ensures name in Names(added) ==>
        OwnedAs(owners, added, owner)[name] == owner && Bound(tools, added)[name].name == name
  {
    if added == [] {
    } else {
      BoundAt(tools, owners, Front(added), owner, name);
      NamesGrow(Front(added), Last(added));
      assert Front(added) + [Last(added)] == added;
      hide Names;
    }
  }

  lemma {:induction false} BoundTo(tools: map<string, Adapter>, added: seq<Adapter>, i: nat)
    requires GoodInventory(added) && i < |added|
    ensures added[i].name in Bound(tools, added) && Bound(tools, added)[added[i].name] == added[i]
  {
    if i == |added| - 1 {
    } else {
      assert added[i].name != added[|added| - 1].name;
      BoundTo(tools, Front(added), i);
    }
  }

  lemma NamesGrow(tools: seq<Adapter>, t: Adapter)
    ensures Names(tools + [t]) == Names(tools) + {t.name}
  {
    var both := tools + [t];
    forall name | name in Names(tools) + {t.name} ensures name in Names(both) {
      if name == t.name {
        assert both[|tools|].name == name;
      } else {
        var i :| 0 <= i < |tools| && tools[i].name == name;
        assert both[i].name == name;
      }
    }
  }

  /**
   A successful replacement makes the owner's inventory exactly the new list, bound to the new objects, and
   leaves every other binding, owner and function as it was.
   */
  lemma ReplaceIsExact(r: Registry, owner: string, tools: seq<Adapter>)
    requires Owned(r) && ReplaceOwned(r, owner, tools).Ok?
    ensures var t := ReplaceOwned(r, owner, tools).value;
            && Owned(t) && OwnedBy(t, owner) == Names(tools)
            && (forall i :: 0 <= i < |tools| ==> tools[i].name in t.tools && t.tools[tools[i].name] == tools[i])
            && (forall name :: Foreign(r, name, owner) ==> SameBinding(r, t, name))
            && t.sandbox == r.sandbox && t.discovery == r.discovery
  {
    var t := ReplaceOwned(r, owner, tools).value;
    forall name ensures ReplacedAt(r, t, owner, tools, name) {
      ReplaceAt(r, owner, tools, name);
    }
    forall i | 0 <= i < |tools| ensures tools[i].name in t.tools && t.tools[tools[i].name] == tools[i] {
      BoundTo(r.tools - OwnedBy(r, owner), tools, i);
    }
    hide ReplaceOwned;
    ReplacedIsOwned(r, t, owner, tools);
  }

  /** What becomes of one name: newly bound, untouched, or gone with the owner's old inventory. */
  ghost predicate ReplacedAt(r: Registry, t: Registry, owner: string, tools: seq<Adapter>, name: string) {
    if name in Names(tools) then
      !Foreign(r, name, owner) && name in t.tools && t.tools[name].name == name && name !in t.functions
      && name in t.owners && t.owners[name] == owner
    else if name in r.owners && r.owners[name] == owner then name !in t.tools && name !in t.functions
    && name !in t.owners
    else SameBinding(r, t, name)
  }

  lemma ReplaceAt(r: Registry, owner: string, tools: seq<Adapter>, name: string)
    requires Owned(r) && ReplaceOwned(r, owner, tools).Ok?
    ensures ReplacedAt(r, ReplaceOwned(r, owner, tools).value, owner, tools, name)
  {
    ReplacedNames(r, owner, tools);
    BoundAt(r.tools - OwnedBy(r, owner), r.owners - OwnedBy(r, owner), tools, owner, name);
    hide Bound, OwnedAs, GoodInventory, ValidOwner, Names;
    NameIsOwned(r, name);
  }

  lemma NameIsOwned(r: Registry, name: string)
    requires Owned(r)
    ensures name in r.owners <==> name in r.tools || name in r.functions
    ensures !(name in r.tools && name in r.functions)
  {
  }

  lemma ReplacedIsOwned(r: Registry, t: Registry, owner: string, tools: seq<Adapter>)
    requires Owned(r) && forall name :: ReplacedAt(r, t, owner, tools, name)
    ensures Owned(t) && OwnedBy(t, owner) == Names(tools)
    ensures forall name :: Foreign(r, name, owner) ==> SameBinding(r, t, name)
  {
    hide Names;
    forall name ensures (name in t.owners <==> name in t.tools || name in t.functions)
                     && !(name in t.tools && name in t.functions) && (name in t.tools ==> t.tools[name].name == name)
                     && (name in OwnedBy(t, owner) <==> name in Names(tools))
                     && (Foreign(r, name, owner) ==> SameBinding(r, t, name)) {
      assert ReplacedAt(r, t, owner, tools, name);
      NameIsOwned(r, name);
    }
  }

  /** No new name belongs to anybody else. */
  lemma ReplacedNames(r: Registry, owner: string, tools: seq<Adapter>)
    requires ReplaceOwned(r, owner, tools).Ok?
    ensures forall name :: name in Names(tools) ==> !Foreign(r, name, owner)
    ensures GoodInventory(tools)
  {
    NamesAreFree(r, owner, tools);
  }

  lemma StepKeepsOwned(r: Registry, op: Op)
    requires Owned(r)
    ensures Owned(Apply(r, op))
  {
    hide ReplaceOwned, ValidOwner;
    if op.Replace? && Try(r, op).Ok? {
      ReplaceIsExact(r, op.owner, op.tools);
    }
  }

  /** In every run tools and functions are disjoint and the owner map covers exactly their union. */
  lemma {:induction false} RunKeepsOwned(ops: seq<Op>)
    ensures Owned(Run(BLANK, ops))
  {
    if ops == [] {
    } else {
      RunKeepsOwned(Front(ops));
      StepKeepsOwned(Run(BLANK, Front(ops)), Last(ops));
    }
  }

  /** An unregistered owner is left with nothing, and nobody else loses anything. */
  lemma UnregisterOwnerIsExact(r: Registry, owner: string)
    requires Owned(r) && ReplaceOwned(r, owner, []).Ok?
    ensures var t := ReplaceOwned(r, owner, []).value;
            OwnedBy(t, owner) == {} && t.owners == r.owners - OwnedBy(r, owner)
  {
    ReplaceIsExact(r, owner, []);
    hide ReplaceOwned;
    var t := ReplaceOwned(r, owner, []).value;
    assert Names([]) == {};
    forall name | name in t.owners
      ensures name in r.owners && r.owners[name] == t.owners[name] && r.owners[name] != owner
    {
      assert name !in OwnedBy(t, owner);
      KeptNames(r, owner, name);
    }
    forall name | name in r.owners && r.owners[name] != owner
      ensures name in t.owners && t.owners[name] == r.owners[name]
    {
      assert Foreign(r, name, owner);
    }
  }

  lemma KeptNames(r: Registry, owner: string, name: string)
    requires ReplaceOwned(r, owner, []).Ok? && name in ReplaceOwned(r, owner, []).value.owners
    ensures name in r.owners && ReplaceOwned(r, owner, []).value.owners[name] == r.owners[name]
    ensures r.owners[name] != owner
  {
    assert OwnedAs(r.owners - OwnedBy(r, owner), [], owner) == r.owners - OwnedBy(r, owner);
  }

  // ---------- Bindings of others ----------

  /** The operation is `owner`'s own, a clearing, or the boot handoff of a name. */
  predicate MayTouch(op: Op, owner: string) {
    match op
    case PutTool(_, o, boot) => o == owner || (boot && o == "builtin" && owner == "legacy")
    case PutFunction(_, _, o) => o == owner
    case Remove(_, o) => o == owner
    case Replace(o, _) => o == owner
    case ClearAll => true
    case Sandbox(_) => false
    case Discover => false
  }

  ghost predicate SameBinding(a: Registry, b: Registry, name: string) {
    && (name in a.owners <==> name in b.owners) && (name in a.owners ==> a.owners[name] == b.owners[name])
    && (name in a.tools <==> name in b.tools) && (name in a.tools ==> a.tools[name] == b.tools[name])
    && (name in a.functions <==> name in b.functions)
    && (name in a.functions ==> a.functions[name] == b.functions[name])
  }

  lemma StepKeepsForeign(r: Registry, op: Op, name: string)
    requires Owned(r) && name in r.owners && !MayTouch(op, r.owners[name])
    ensures SameBinding(r, Apply(r, op), name)
  {
    hide ReplaceOwned, ValidOwner;
    if op.Replace? && Try(r, op).Ok? {
      ReplaceIsExact(r, op.owner, op.tools);
      assert Foreign(r, name, op.owner);
    }
  }

  /**
   Whatever the others do, an owner's binding stays until the owner touches it, everything is cleared, or boot hands it
   over.
   */
  lemma {:induction false} ForeignRunsKeepBindings(ops: seq<Op>, r: Registry, name: string)
    requires Owned(r) && name in r.owners
    requires forall i :: 0 <= i < |ops| ==> !MayTouch(ops[i], r.owners[name])
    ensures Owned(Run(r, ops)) && SameBinding(r, Run(r, ops), name)
  {
    if ops == [] {
    } else {
      ForeignRunsKeepBindings(Front(ops), r, name);
      StepKeepsForeign(Run(r, Front(ops)), Last(ops), name);
      StepKeepsOwned(Run(r, Front(ops)), Last(ops));
    }
  }

  // ---------- Pinned bindings ----------

  lemma StepKeepsSandbox(r: Registry, op: Op, name: string)
    requires Owned(r) && Guarded(r, name)
    ensures Apply(r, op).sandbox == r.sandbox && SameBinding(r, Apply(r, op), name)
  {
    hide ValidOwner, Bound, OwnedAs;
  }

  /** Once a sandbox is set, the approved names stay bound as they are, or unbound, through every run. */
  lemma {:induction false} SandboxIsPinned(ops: seq<Op>, r: Registry, name: string)
    requires Owned(r) && Guarded(r, name)
    ensures Owned(Run(r, ops)) && Run(r, ops).sandbox == r.sandbox && SameBinding(r, Run(r, ops), name)
  {
    if ops == [] {
    } else {
      SandboxIsPinned(Front(ops), r, name);
      StepKeepsSandbox(Run(r, Front(ops)), Last(ops), name);
      StepKeepsOwned(Run(r, Front(ops)), Last(ops));
    }
  }

  lemma StepKeepsSearch(r: Registry, op: Op)
    requires Owned(r) && r.discovery && SEARCH in r.tools && !op.ClearAll?
    ensures Apply(r, op).discovery && SameBinding(r, Apply(r, op), SEARCH)
  {
    hide ReplaceOwned, ValidOwner;
    if op.Replace? && Try(r, op).Ok? {
      ReplaceIsExact(r, op.owner, op.tools);
      SearchIsForeign(r, op.owner, op.tools);
    }
  }

  lemma SearchIsForeign(r: Registry, owner: string, tools: seq<Adapter>)
    requires Owned(r) && r.discovery && SEARCH in r.tools && ReplaceOwned(r, owner, tools).Ok?
    ensures Foreign(r, SEARCH, owner)
  {
    assert SEARCH in r.owners;
  }

  /** While discovery is on, the search tool stays bound as it is: only clearing the registry removes it. */
  lemma {:induction false} SearchIsPinned(ops: seq<Op>, r: Registry)
    requires Owned(r) && r.discovery && SEARCH in r.tools
    requires forall i :: 0 <= i < |ops| ==> !ops[i].ClearAll?
    ensures Owned(Run(r, ops)) && Run(r, ops).discovery && SameBinding(r, Run(r, ops), SEARCH)
  {
    if ops == [] {
    } else {
      SearchIsPinned(Front(ops), r);
      StepKeepsSearch(Run(r, Front(ops)), Last(ops));
      StepKeepsOwned(Run(r, Front(ops)), Last(ops));
    }
  }

  /** Clearing does not ask whether discovery is on: the search tool goes, unless a sandbox forbids clearing. */
  lemma ClearUnpinsSearch(r: Registry)
    requires r.discovery && SEARCH in r.tools
    ensures SEARCH in Apply(r, ClearAll).tools <==> r.sandbox.Some?
  {
  }

  const SEARCH_TOOL := Adapter(SEARCH, 1, Some("{}"), true)
  const SEARCH_LOST := [PutTool(SEARCH_TOOL, "builtin", false), Discover, ClearAll]

  /** Such a run: discovery stays on without the tool it is for, and cannot be enabled again. */
  lemma SearchIsLost()
    ensures SEARCH in Run(BLANK, SEARCH_LOST[..2]).tools && Run(BLANK, SEARCH_LOST[..2]).discovery
    ensures var r := Run(BLANK, SEARCH_LOST);
            SEARCH !in r.tools && r.discovery && EnableDiscovery(r) == Err(AlreadySet)
  {
    var one, two := SEARCH_LOST[..1], SEARCH_LOST[..2];
    assert Front(SEARCH_LOST) == two && Front(two) == one && Front(one) == [];
    assert "builtin"[0] == 'b';
    assert ValidOwner("builtin");
    assert Run(BLANK, one) == BLANK.(tools := map[SEARCH := SEARCH_TOOL], owners := map[SEARCH := "builtin"]);
  }
}
