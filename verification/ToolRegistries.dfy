/** Registries derived from one another for workers, and the seal on what one model step may execute. */
module ToolRegistries {
  import opened Common
  import opened ToolOwnership

  // ---------- A family of registries ----------

  /** A registry with what ties it to its parent and the live policies it is checked against. */
  datatype Node = Node(
    reg: Registry,
    parent: Option<nat>,
    sources: map<string, Adapter>,
    adapters: map<string, Adapter>,
    hashes: map<string, string>,
    hosted: Option<set<string>>,
    broken: set<string>,
    sharedDenied: set<string>,
    localDenied: set<string>,
    visible: Option<set<string>>)

  type Family = seq<Node>

  /** Registries are numbered as they are made, so a parent comes first. */
  ghost predicate Born(w: Family) {
    forall i :: 0 <= i < |w| && w[i].parent.Some? ==> w[i].parent.value < i
  }

  ghost predicate HostedAllowed(w: Family, i: nat, name: string)
    requires Born(w) && i < |w|
    decreases i
  {
    && (w[i].hosted.None? || name in w[i].hosted.value)
    && (w[i].parent.None? || HostedAllowed(w, w[i].parent.value, name))
  }

  /** The same object is bound under the name in both maps. */
  predicate SameObject(a: map<string, Adapter>, b: map<string, Adapter>, name: string) {
    name in a && name in b && a[name].identity == b[name].identity
  }

  /**
   A derived tool is current while both bindings are the recorded objects and the parent still offers it unchanged.
   */
  ghost predicate SourceCurrent(w: Family, i: nat, name: string)
    requires Born(w) && i < |w|
    decreases i, 0
  {
    w[i].parent.None? ||
    (var p := w[i].parent.value;
     && SameObject(w[i].reg.tools, w[i].adapters, name) && SameObject(w[p].reg.tools, w[i].sources, name)
     && ToolAllowed(w, p, name) && name !in w[p].broken
     && name in w[i].hashes && w[p].reg.tools[name].schema == Some(w[i].hashes[name]))
  }

  ghost predicate ToolAllowed(w: Family, i: nat, name: string)
    requires Born(w) && i < |w|
    decreases i, 1
  {
    && (w[i].reg.sandbox.None? || name in w[i].reg.sandbox.value)
    && HostedAllowed(w, i, name) && SourceCurrent(w, i, name)
  }

  ghost predicate ModeAllowed(w: Family, i: nat, name: string, forWorker: bool)
    requires Born(w) && i < |w|
    decreases i
  {
    && (w[i].parent.None? || ModeAllowed(w, w[i].parent.value, name, true))
    && name !in w[i].sharedDenied && (forWorker || name !in w[i].localDenied)
  }

  ghost predicate Visible(w: Family, i: nat, name: string)
    requires Born(w) && i < |w|
    decreases i
  {
    && (w[i].visible.None? || name in w[i].visible.value)
    && (w[i].parent.None? || Visible(w, w[i].parent.value, name))
  }

  // ---------- Every depth ----------

  /** The k-th ancestor of a registry, if there are that many. */
  ghost function Ancestor(w: Family, i: nat, k: nat): (r: Option<nat>)
    requires Born(w) && i < |w|
    ensures r.Some? ==> r.value <= i
    decreases k
  {
    if k == 0 then Some(i)
    else if w[i].parent.None? then None
    else Ancestor(w, w[i].parent.value, k - 1)
  }

  /**
   A name allowed in a worker is allowed at every ancestor, and at every step of the chain it is bound in the
   parent to the very object the child was derived from, with the schema it had then.
   */
  lemma {:induction false} AllowedAtEveryDepth(w: Family, i: nat, name: string, k: nat)
    requires Born(w) && i < |w| && ToolAllowed(w, i, name) && Ancestor(w, i, k).Some?
    ensures var a := Ancestor(w, i, k).value;
            && ToolAllowed(w, a, name) && (w[a].reg.sandbox.Some? ==> name in w[a].reg.sandbox.value)
            && (w[a].hosted.Some? ==> name in w[a].hosted.value)
            && (w[a].parent.Some? ==>
                  var p := w[a].parent.value;
                  && SameObject(w[p].reg.tools, w[a].sources, name) && SameObject(w[a].reg.tools, w[a].adapters, name)
                  && name !in w[p].broken && name in w[a].hashes
                  && w[p].reg.tools[name].schema == Some(w[a].hashes[name]))
    decreases k
  {
    if k == 0 {
    } else {
      AllowedAtEveryDepth(w, w[i].parent.value, name, k - 1);
    }
  }

  /** The policies of a registry that bind it and every worker below it. */
  predicate Permits(n: Node, name: string) {
    && (n.reg.sandbox.Some? ==> name in n.reg.sandbox.value)
    && (n.hosted.Some? ==> name in n.hosted.value)
    && (n.visible.Some? ==> name in n.visible.value)
    && name !in n.sharedDenied
  }

  /** Nothing but a name's binding, here and in the parent, may have changed since a worker was derived. */
  ghost predicate StillDerived(w: Family, i: nat, name: string)
    requires Born(w) && i < |w|
  {
    w[i].parent.Some? ==>
      var p := w[i].parent.value;
      && name in w[i].reg.tools && name in w[i].adapters
      && w[i].reg.tools[name].identity == w[i].adapters[name].identity
      && name in w[p].reg.tools && name in w[i].sources
      && w[p].reg.tools[name].identity == w[i].sources[name].identity
      && name in w[i].hashes && w[p].reg.tools[name].schema == Some(w[i].hashes[name]) && name !in w[p].broken
  }

  /** What a worker below finds of its parent's policies. */
  ghost predicate Inherits(w: Family, i: nat, name: string)
    requires Born(w) && i < |w|
  {
    ToolAllowed(w, i, name) && ModeAllowed(w, i, name, true) && Visible(w, i, name)
  }

  /** The registry and every one above it permit the name, and no link has come loose. */
  ghost predicate HoldsUpwards(w: Family, i: nat, name: string)
    requires Born(w) && i < |w|
  {
    forall k: nat :: Ancestor(w, i, k).Some? ==>
      Permits(w[Ancestor(w, i, k).value], name) && StillDerived(w, Ancestor(w, i, k).value, name)
  }

  lemma HoldsFromParent(w: Family, i: nat, name: string)
    requires Born(w) && i < |w|
    ensures HoldsUpwards(w, i, name) <==>
              && Permits(w[i], name) && StillDerived(w, i, name)
              && (w[i].parent.Some? ==> HoldsUpwards(w, w[i].parent.value, name))
  {
    hide Permits, StillDerived;
    assert Ancestor(w, i, 0) == Some(i);
    if w[i].parent.Some? {
      var p := w[i].parent.value;
      if HoldsUpwards(w, i, name) {
        forall k: nat | Ancestor(w, p, k).Some?
          ensures Permits(w[Ancestor(w, p, k).value], name) && StillDerived(w, Ancestor(w, p, k).value, name)
        {
          assert Ancestor(w, i, k + 1) == Ancestor(w, p, k);
        }
      }
      if HoldsUpwards(w, p, name) && Permits(w[i], name) && StillDerived(w, i, name) {
        forall k: nat | Ancestor(w, i, k).Some?
          ensures Permits(w[Ancestor(w, i, k).value], name) && StillDerived(w, Ancestor(w, i, k).value, name)
        {
          assert k > 0 ==> Ancestor(w, i, k) == Ancestor(w, p, k - 1);
        }
      }
    }
  }

  lemma {:induction false} InheritsAtEveryDepth(w: Family, i: nat, name: string)
    requires Born(w) && i < |w|
    ensures Inherits(w, i, name) <==> HoldsUpwards(w, i, name)
    decreases i
  {
    InheritsFromParent(w, i, name);
    HoldsFromParent(w, i, name);
    hide Inherits, HoldsUpwards, Permits, StillDerived;
    if w[i].parent.None? {
    } else {
      InheritsAtEveryDepth(w, w[i].parent.value, name);
    }
  }

  lemma InheritsFromParent(w: Family, i: nat, name: string)
    requires Born(w) && i < |w|
    ensures Inherits(w, i, name) <==>
              && Permits(w[i], name) && StillDerived(w, i, name)
              && (w[i].parent.Some? ==> Inherits(w, w[i].parent.value, name))
  {
    SourceIs(w, i, name);
    if w[i].parent.Some? {
      AllowedIsHostedIf(w, w[i].parent.value, name);
    }
    hide SourceCurrent, StillDerived;
  }

  lemma SourceIs(w: Family, i: nat, name: string)
    requires Born(w) && i < |w|
    ensures SourceCurrent(w, i, name) <==>
              StillDerived(w, i, name) && (w[i].parent.Some? ==> ToolAllowed(w, w[i].parent.value, name))
  {
    hide ToolAllowed;
  }

  /**
   A name may be used exactly if the registry and every registry above it permit it, and no link of the chain has come
   loose since it was derived; a local denial concerns only the registry that has it.
   */
  lemma OfferedAtEveryDepth(w: Family, i: nat, name: string)
    requires Born(w) && i < |w|
    ensures Offered(w, i, name) <==>
              name !in w[i].broken && name !in w[i].localDenied && HoldsUpwards(w, i, name)
  {
    InheritsAtEveryDepth(w, i, name);
    hide HoldsUpwards, ToolAllowed, Visible;
  }

  /** So a binding replaced, removed or reshaped anywhere up the chain is revoked in every worker below. */
  lemma RevokedBelow(w: Family, i: nat, name: string, k: nat)
    requires Born(w) && i < |w| && Ancestor(w, i, k).Some? && w[Ancestor(w, i, k).value].parent.Some?
    requires var a := Ancestor(w, i, k).value;
             var p := w[a].parent.value;
             || !SameObject(w[p].reg.tools, w[a].sources, name)
             || (name in w[a].hashes && w[p].reg.tools[name].schema != Some(w[a].hashes[name]))
             || name in w[p].broken
    ensures !ToolAllowed(w, i, name)
  {
    if ToolAllowed(w, i, name) {
      AllowedAtEveryDepth(w, i, name, k);
    }
  }

  // ---------- Derivation ----------

  const PARENT_ONLY := {
    "Task", "AskUser", "EnterPlanMode", "ExitPlanMode", "EnterWorktree", "ExitWorktree", "ToolSearch", "SendMessage",
    "TeamApprovePlan", "TeamCreate", "TeamDelete", "TeamCleanup", "TeamFanout", "TeamRetry" }

  predicate Derivable(r: Registry, allowed: Option<set<string>>, denied: set<string>, name: string) {
    && name in r.tools && name !in denied && name !in PARENT_ONLY && !r.tools[name].parentOnly
    && (allowed.None? || name in allowed.value) && r.tools[name].schema.Some?
  }

  /** Tools that steer the parent itself are never handed down, whoever allows them. */
  lemma NeverHandedDown(r: Registry, allowed: Option<set<string>>, denied: set<string>, name: string)
    ensures Derivable(r, allowed, denied, name) ==>
              && name !in {"Task", "AskUser", "EnterPlanMode", "ExitPlanMode", "EnterWorktree", "ExitWorktree",
                           "ToolSearch", "SendMessage"}
              && name !in {"TeamApprovePlan", "TeamCreate", "TeamDelete", "TeamCleanup", "TeamFanout", "TeamRetry"}
              && name !in denied && (allowed.Some? ==> name in allowed.value)
              && name in r.tools && !r.tools[name].parentOnly
  {
  }

  /** A worker's registry: private copies of the derivable tools, under the parent's owners and fences. */
  function Child(w: Family, i: nat, allowed: Option<set<string>>, denied: set<string>, copies: string -> nat): Node
    requires i < |w|
    requires w[i].reg.tools.Keys <= w[i].reg.owners.Keys
  {
    var r := w[i].reg;
    var tools := map name | name in r.tools && Derivable(r, allowed, denied,
                                                         name) :: r.tools[name].(identity := copies(name));
    Node(Registry(tools, map[], map name | name in tools :: r.owners[name], r.sandbox, false), Some(i),
         map name | name in tools :: r.tools[name], tools, map name | name in tools :: r.tools[name].schema.value,
         w[i].hosted, {}, {}, {}, None)
  }

  /** A worker of registry `i`: its own copies of what may be handed down, bound to where they came from. */
  ghost predicate IsWorkerOf(n: Node, w: Family, i: nat, allowed: Option<set<string>>, denied: set<string>,
                             copies: string -> nat)
    requires i < |w|
  {
    var r := w[i].reg;
    && n.parent == Some(i) && n.hosted == w[i].hosted && n.visible == None
    && n.broken == n.sharedDenied == n.localDenied == {}
    && n.reg.sandbox == r.sandbox && n.reg.functions == map[] && !n.reg.discovery
    && n.adapters == n.reg.tools && n.reg.owners.Keys == n.sources.Keys == n.hashes.Keys == n.reg.tools.Keys
    && (forall name :: name in n.reg.tools <==>
          && name in r.tools && !r.tools[name].parentOnly && r.tools[name].schema.Some?
          && name !in denied && (allowed.Some? ==> name in allowed.value)
          && name !in {"Task", "AskUser", "EnterPlanMode", "ExitPlanMode", "EnterWorktree", "ExitWorktree",
                       "ToolSearch", "SendMessage", "TeamApprovePlan", "TeamCreate", "TeamDelete", "TeamCleanup",
                       "TeamFanout", "TeamRetry"})
    && forall name :: name in n.reg.tools ==>
         && n.reg.tools[name] == r.tools[name].(identity := copies(name))
         && n.sources[name] == r.tools[name] && Some(n.hashes[name]) == r.tools[name].schema
         && name in r.owners && n.reg.owners[name] == r.owners[name]
  }

  lemma ChildIsWorker(w: Family, i: nat, allowed: Option<set<string>>, denied: set<string>, copies: string -> nat)
    requires i < |w| && w[i].reg.tools.Keys <= w[i].reg.owners.Keys
    ensures IsWorkerOf(Child(w, i, allowed, denied, copies), w, i, allowed, denied, copies)
  {
  }

  /** What the copying has recorded for the names not left in `rest`. */
  ghost predicate Copied(r: Registry, allowed: Option<set<string>>, denied: set<string>, copies: string -> nat,
                         rest: set<string>,
                         tools: map<string, Adapter>, sources: map<string, Adapter>, owners: map<string, string>,
                             hashes: map<string, string>)
  {
    && sources.Keys == tools.Keys && owners.Keys == tools.Keys && hashes.Keys == tools.Keys
    && (forall name :: name in tools <==> name in r.tools && name !in rest && Derivable(r, allowed, denied, name))
    && forall name :: name in tools ==>
         && tools[name] == r.tools[name].(identity := copies(name)) && sources[name] == r.tools[name]
         && name in r.owners && owners[name] == r.owners[name] && Some(hashes[name]) == r.tools[name].schema
  }

  lemma CopyOne(r: Registry, allowed: Option<set<string>>, denied: set<string>, copies: string -> nat,
                rest: set<string>, name: string,
                tools: map<string, Adapter>, sources: map<string, Adapter>, owners: map<string, string>,
                    hashes: map<string, string>)
    requires Copied(r, allowed, denied, copies, rest, tools, sources, owners, hashes)
    requires name in rest && name in r.tools && name in r.owners
    ensures Derivable(r, allowed, denied, name) ==> r.tools[name].schema.Some?
    ensures Derivable(r, allowed, denied, name) ==>
              Copied(r, allowed, denied, copies, rest - {name}, tools[name := r.tools[name].(identity := copies(name))],
                     sources[name := r.tools[name]], owners[name := r.owners[name]],
                         hashes[name := r.tools[name].schema.value])
    ensures !Derivable(r, allowed, denied, name) ==>
        Copied(r, allowed, denied, copies, rest - {name}, tools, sources, owners, hashes)
  {
    DerivableIsTool(r, allowed, denied);
    hide Derivable;
  }

  lemma CopiedAll(w: Family, i: nat, allowed: Option<set<string>>, denied: set<string>, copies: string -> nat,
                  tools: map<string, Adapter>, sources: map<string, Adapter>, owners: map<string, string>,
                      hashes: map<string, string>)
    requires i < |w| && w[i].reg.tools.Keys <= w[i].reg.owners.Keys
    requires Copied(w[i].reg, allowed, denied, copies, {}, tools, sources, owners, hashes)
    ensures var c := Child(w, i, allowed, denied, copies);
            tools == c.adapters && sources == c.sources && owners == c.reg.owners && hashes == c.hashes
  {
    DerivableIsTool(w[i].reg, allowed, denied);
    hide Derivable;
  }

  /** A tool that would be handed down cannot be copied, or its permission gate cannot be narrowed. */
  predicate Blocked(r: Registry, allowed: Option<set<string>>, denied: set<string>, stuck: set<string>) {
    exists name | name in r.tools :: Derivable(r, allowed, denied, name) && name in stuck
  }

  /** Copies the derivable tools one by one; the first that cannot be isolated ends it without a worker. */
  method DeriveWorkerRegistry(w: Family, i: nat, allowed: Option<set<string>>, denied: set<string>,
                              copies: string -> nat,
                              stuck: set<string>)
    returns (child: Result<Node, ()>)
    requires i < |w| && w[i].reg.tools.Keys <= w[i].reg.owners.Keys
    ensures child == if Blocked(w[i].reg, allowed, denied, stuck) then Err(())
                     else Ok(Child(w, i, allowed, denied, copies))
    ensures child.Ok? ==> IsWorkerOf(child.value, w, i, allowed, denied, copies)
  {
    ChildIsWorker(w, i, allowed, denied, copies);
    hide IsWorkerOf;
    var r := w[i].reg;
    var tools: map<string, Adapter>, sources: map<string, Adapter>, owners: map<string, string>, hashes: map<string,
        string>
      := map[], map[], map[], map[];
    var rest := r.tools.Keys;
    while rest != {}
      invariant rest <= r.tools.Keys && Copied(r, allowed, denied, copies, rest, tools, sources, owners, hashes)
      invariant forall name :: name in r.tools && name !in rest ==>
          !(Derivable(r, allowed, denied, name) && name in stuck)
      decreases rest
    {
      hide Copied, Derivable;
      var name :| name in rest;
      CopyOne(r, allowed, denied, copies, rest, name, tools, sources, owners, hashes);
      if Derivable(r, allowed, denied, name) {
        if name in stuck {
          return Err(());
        }
        tools := tools[name := r.tools[name].(identity := copies(name))];
        owners := owners[name := r.owners[name]];
        sources := sources[name := r.tools[name]];
        hashes := hashes[name := r.tools[name].schema.value];
      }
      rest := rest - {name};
    }
    CopiedAll(w, i, allowed, denied, copies, tools, sources, owners, hashes);
    return Ok(Node(Registry(tools, map[], owners, r.sandbox, false), Some(i), sources, tools, hashes, w[i].hosted, {},
                   {}, {}, None));
  }

  lemma DerivableIsTool(r: Registry, allowed: Option<set<string>>, denied: set<string>)
    ensures forall name :: Derivable(r, allowed, denied, name) ==> name in r.tools && r.tools[name].schema.Some?
  {
  }

  lemma {:induction false} PrefixHosted(w: Family, n: Node, i: nat, name: string)
    requires Born(w) && Born(w + [n]) && i < |w|
    ensures HostedAllowed(w + [n], i, name) == HostedAllowed(w, i, name)
    decreases i
  {
    assert (w + [n])[i] == w[i];
    if w[i].parent.None? {
    } else {
      PrefixHosted(w, n, w[i].parent.value, name);
    }
  }

  /** A new registry changes nothing for the others. */
  lemma {:induction false} PrefixAllowed(w: Family, n: Node, i: nat, name: string)
    requires Born(w) && Born(w + [n]) && i < |w|
    ensures ToolAllowed(w + [n], i, name) == ToolAllowed(w, i, name)
    decreases i
  {
    assert (w + [n])[i] == w[i];
    PrefixHosted(w, n, i, name);
    if w[i].parent.None? {
    } else {
      assert (w + [n])[w[i].parent.value] == w[w[i].parent.value];
      PrefixAllowed(w, n, w[i].parent.value, name);
    }
  }

  lemma {:induction false} AllowedIsHosted(w: Family, i: nat, name: string)
    requires Born(w) && i < |w| && ToolAllowed(w, i, name)
    ensures HostedAllowed(w, i, name)
  {
  }

  /** A fresh worker is allowed exactly the derivable tools its parent is allowed and has in working order. */
  lemma DerivedIsExact(w: Family, i: nat, allowed: Option<set<string>>, denied: set<string>, copies: string -> nat,
                       name: string)
    requires Born(w) && i < |w| && Owned(w[i].reg)
    ensures var v := w + [Child(w, i, allowed, denied, copies)];
            && Born(v) && Owned(v[|w|].reg)
            && (ToolAllowed(v, |w|, name) <==>
                  Derivable(w[i].reg, allowed, denied, name) && ToolAllowed(w, i, name) && name !in w[i].broken)
  {
    var c := Child(w, i, allowed, denied, copies);
    var v := w + [c];
    assert forall j :: 0 <= j < |w| ==> v[j] == w[j];
    assert v[|w|] == c;
    PrefixAllowed(w, c, i, name);
    PrefixHosted(w, c, i, name);
    hide ToolAllowed, HostedAllowed, Derivable;
    ChildAllowed(w, i, allowed, denied, copies, name);
  }

  lemma ChildAllowed(w: Family, i: nat, allowed: Option<set<string>>, denied: set<string>, copies: string -> nat,
                     name: string)
    requires Born(w) && i < |w| && Owned(w[i].reg)
    requires Born(w + [Child(w, i, allowed, denied, copies)])
    requires var v := w + [Child(w, i, allowed, denied, copies)];
             && ToolAllowed(v, i, name) == ToolAllowed(w, i, name)
             && HostedAllowed(v, i, name) == HostedAllowed(w, i, name)
    ensures ToolAllowed(w + [Child(w, i, allowed, denied, copies)], |w|, name) <==>
              Derivable(w[i].reg, allowed, denied, name) && ToolAllowed(w, i, name) && name !in w[i].broken
  {
    hide Derivable;
    DerivableIsTool(w[i].reg, allowed, denied);
    var c := Child(w, i, allowed, denied, copies);
    var v := w + [c];
    assert v[|w|] == c && v[i] == w[i];
    if ToolAllowed(w, i, name) {
      AllowedIsHosted(w, i, name);
    }
  }

  // ---------- The seal of a model step ----------

  datatype Ref = ToolRef(identity: nat) | FunctionRef(identity: nat)

  datatype Binding = Binding(ref: Ref, schema: string)

  datatype Snapshot = Snapshot(registry: nat, bindings: map<string, Binding>)

  const FUNCTION_SCHEMA := "{input: string}"

  /** What a name is bound to right now, and how it would be shown to the model. */
  function BindingOf(r: Registry, name: string): Option<Binding> {
    if name in r.tools then
      (if r.tools[name].schema.None? then None
       else Some(Binding(ToolRef(r.tools[name].identity), r.tools[name].schema.value)))
    else if name in r.functions then Some(Binding(FunctionRef(r.functions[name]), FUNCTION_SCHEMA))
    else None
  }

  /** The same tool with the same schema, or the same function, is bound to the name. */
  predicate SameOffer(a: Registry, b: Registry, name: string) {
    if name in a.tools then
      && name in b.tools && a.tools[name].identity == b.tools[name].identity
      && a.tools[name].schema.Some? && a.tools[name].schema == b.tools[name].schema
    else name in a.functions && name !in b.tools && name in b.functions && a.functions[name] == b.functions[name]
  }

  /** Allowed by every policy, in working order, and shown. */
  ghost predicate Offered(w: Family, i: nat, name: string)
    requires Born(w) && i < |w|
  {
    ToolAllowed(w, i, name) && name !in w[i].broken && ModeAllowed(w, i, name, false) && Visible(w, i, name)
  }

  ghost function Capture(w: Family, i: nat, agreed: set<string>): Snapshot
    requires Born(w) && i < |w|
  {
    var names := (w[i].reg.tools.Keys + w[i].reg.functions.Keys) * agreed;
    Snapshot(i, map name | name in names && Offered(w, i, name)
             && BindingOf(w[i].reg, name).Some? :: BindingOf(w[i].reg, name).value)
  }

  datatype Verdict =
    | HostedDenied
    | SandboxDenied
    | ModeDenied
    | NeedsDiscovery
    | Stale
    | Unavailable
    | NotFound
    | Executes(ref: Ref)

  /** The checks before an execution, in order. */
  ghost function Dispatch(w: Family, i: nat, name: string, seal: Option<Snapshot>): Verdict
    requires Born(w) && i < |w|
  {
    var r := w[i].reg;
    if !HostedAllowed(w, i, name) then HostedDenied
    else if !ToolAllowed(w, i, name) then SandboxDenied
    else if !ModeAllowed(w, i, name, false) then ModeDenied
    else if !Visible(w, i, name) then NeedsDiscovery
    else if seal.Some? && !SealHolds(w, i, name, seal.value) then Stale
    else if name in w[i].broken then Unavailable
    else if name in r.tools then Executes(ToolRef(r.tools[name].identity))
    else if name in r.functions then Executes(FunctionRef(r.functions[name]))
    else NotFound
  }

  ghost predicate SealHolds(w: Family, i: nat, name: string, seal: Snapshot)
    requires Born(w) && i < |w|
  {
    && seal.registry == i && name in seal.bindings
    && Offered(w, i, name) && BindingOf(w[i].reg, name) == Some(seal.bindings[name])
  }

  /**
   Whatever happened between the model step and the call, a sealed call executes exactly when the name was sealed
   in this registry, is still offered, and is still bound to the same object with the same schema; and then it
   executes that object.
   */
  lemma SealedExecution(earlier: Family, now: Family, i: nat, name: string, agreed: set<string>)
    requires Born(earlier) && Born(now) && i < |earlier| && i < |now|
    ensures var seal := Capture(earlier, i, agreed);
            var verdict := Dispatch(now, i, name, Some(seal));
            && (verdict.Executes? <==>
                  && name in agreed && Offered(earlier, i, name) && Offered(now, i, name)
                  && BindingOf(earlier[i].reg, name).Some?
                  && BindingOf(now[i].reg, name) == BindingOf(earlier[i].reg, name))
            && (verdict.Executes? ==> verdict.ref == seal.bindings[name].ref)
            && (verdict.Executes? <==>
                  && name in agreed && Offered(earlier, i, name) && Offered(now, i, name)
                  && SameOffer(earlier[i].reg, now[i].reg, name))
            && (verdict.Executes? ==>
                  verdict.ref == if name in now[i].reg.tools then ToolRef(now[i].reg.tools[name].identity)
                                 else FunctionRef(now[i].reg.functions[name]))
  {
    hide ModeAllowed, Visible;
    AllowedIsHostedIf(now, i, name);
    hide ToolAllowed, HostedAllowed;
  }

  /** Without a seal a call executes exactly what an offered name is bound to. */
  lemma UnsealedExecution(w: Family, i: nat, name: string)
    requires Born(w) && i < |w|
    ensures var r, verdict := w[i].reg, Dispatch(w, i, name, None);
            && (verdict.Executes? <==> Offered(w, i, name) && (name in r.tools || name in r.functions))
            && (verdict.Executes? ==>
                  verdict.ref == if name in r.tools then ToolRef(r.tools[name].identity)
                                 else FunctionRef(r.functions[name]))
  {
    AllowedIsHostedIf(w, i, name);
    hide ToolAllowed, HostedAllowed, ModeAllowed, Visible;
  }

  lemma AllowedIsHostedIf(w: Family, i: nat, name: string)
    requires Born(w) && i < |w|
    ensures ToolAllowed(w, i, name) ==> HostedAllowed(w, i, name)
  {
  }

  // ---------- The registry itself ----------

  /** 1 to 128 characters, not all of them blank. */
  predicate NamesOwner(owner: string) {
    1 <= |owner| <= 128 && exists i :: 0 <= i < |owner| && owner[i] !in " \t\n\r"
  }

  /** Distinct names of no other owner's, in no sandbox, and not the search tool while it is in use. */
  ghost predicate MayReplace(r: Registry, owner: string, inventory: seq<Adapter>) {
    && NamesOwner(owner) && r.sandbox.None?
    && (forall i :: 0 <= i < |inventory| ==> inventory[i].name != "")
    && (forall i, j :: 0 <= i < j < |inventory| ==> inventory[i].name != inventory[j].name)
    && (forall i :: 0 <= i < |inventory| && inventory[i].name in r.owners ==> r.owners[inventory[i].name] == owner)
    && (r.discovery ==>
          && (forall i :: 0 <= i < |inventory| ==> inventory[i].name != "ToolSearch")
          && ("ToolSearch" in r.owners ==> r.owners["ToolSearch"] != owner))
  }

  /** The owner has exactly these tools, and nobody else's binding changed. */
  ghost predicate Replaced(r: Registry, t: Registry, owner: string, inventory: seq<Adapter>) {
    && Owned(t) && t.sandbox == r.sandbox && t.discovery == r.discovery
    && (forall i :: 0 <= i < |inventory| ==>
          && inventory[i].name in t.tools && t.tools[inventory[i].name] == inventory[i]
          && inventory[i].name in t.owners && t.owners[inventory[i].name] == owner)
    && (forall name :: name in t.owners && t.owners[name] == owner ==>
          exists i :: 0 <= i < |inventory| && inventory[i].name == name)
    && forall name :: name in r.owners && r.owners[name] != owner ==> SameBinding(r, t, name)
  }

  lemma ReplaceAnswers(r: Registry, owner: string, inventory: seq<Adapter>)
    ensures ReplaceOwned(r, owner, inventory).Ok? <==> MayReplace(r, owner, inventory)
    ensures MayReplace(r, owner, inventory) && Owned(r) ==>
              Replaced(r, ReplaceOwned(r, owner, inventory).value, owner, inventory)
  {
    OwnerIsNamed(owner);
    NamesAreFree(r, owner, inventory);
    hide Bound, OwnedAs, NamesOwner, ValidOwner, NameRefusal;
    if MayReplace(r, owner, inventory) && Owned(r) {
      ReplaceIsExact(r, owner, inventory);
      hide ReplaceOwned, Owned, MayReplace;
      var t := ReplaceOwned(r, owner, inventory).value;
      forall i | 0 <= i < |inventory| ensures inventory[i].name in t.owners && t.owners[inventory[i].name] == owner {
        assert inventory[i].name in Names(inventory) && inventory[i].name in OwnedBy(t, owner);
      }
      forall name | name in t.owners && t.owners[name] == owner
        ensures exists i :: 0 <= i < |inventory| && inventory[i].name == name
      {
        assert name in OwnedBy(t, owner) && name in Names(inventory);
      }
      forall name | name in r.owners && r.owners[name] != owner ensures SameBinding(r, t, name) {
        assert Foreign(r, name, owner);
      }
    }
  }

  lemma OwnerIsNamed(owner: string)
    ensures NamesOwner(owner) <==> ValidOwner(owner)
  {
  }

  class ToolRegistry {
    var tools: map<string, Adapter>
    var functions: map<string, nat>
    var owners: map<string, string>
    var sandbox: Option<set<string>>
    var discovery: bool

    ghost function View(): Registry
      reads this
    {
      Registry(tools, functions, owners, sandbox, discovery)
    }

    constructor ()
      ensures View() == BLANK
    {
      tools, functions, owners, sandbox, discovery := map[], map[], map[], None, false;
    }

    /** A name nobody else owns, or one that boot hands over, is bound to this tool and owned by its registrant. */
    method Register(tool: Adapter, owner: string, boot: bool) returns (refusal: Option<Refusal>)
      modifies this
      ensures var r, name := old(View()), tool.name;
              && (refusal.None? <==>
                    && NamesOwner(owner)
                    && (name in r.owners && r.owners[name] != owner ==>
                          boot && owner == "builtin" && r.owners[name] == "legacy" && !r.discovery)
                    && (r.sandbox.Some? ==> name !in r.sandbox.value)
                    && name !in r.functions
                    && !(name == "ToolSearch" && name in r.tools && r.discovery))
              && View() == if refusal.Some? then r
                           else r.(tools := r.tools[name := tool], owners := r.owners[name := owner])
      ensures var r := RegisterTool(old(View()), tool, owner, boot);
              refusal == (if r.Err? then Some(r.error) else None) && View() == if r.Ok? then r.value else old(View())
    {
      OwnerIsNamed(owner);
      if !ValidOwner(owner) {
        return Some(BadOwner);
      }
      if tool.name in owners && owners[tool.name] != owner {
        if !(boot && owner == "builtin" && owners[tool.name] == "legacy" && !discovery) {
          return Some(OtherOwner);
        }
      }
      if sandbox.Some? && tool.name in sandbox.value {
        return Some(Sandboxed);
      }
      if tool.name in functions {
        return Some(NameTaken);
      }
      if tool.name in tools && tool.name == SEARCH && discovery {
        return Some(ActiveSearch);
      }
      tools := tools[tool.name := tool];
      owners := owners[tool.name := owner];
      return None;
    }

    method RegisterAsFunction(name: string, func: nat, owner: string) returns (refusal: Option<Refusal>)
      modifies this
      ensures var r := old(View());
              && (refusal.None? <==>
                    && NamesOwner(owner) && (name in r.owners ==> r.owners[name] == owner)
                    && (r.sandbox.Some? ==> name !in r.sandbox.value) && name !in r.tools)
              && View() == if refusal.Some? then r
                           else r.(functions := r.functions[name := func], owners := r.owners[name := owner])
      ensures var r := RegisterFunction(old(View()), name, func, owner);
              refusal == (if r.Err? then Some(r.error) else None) && View() == if r.Ok? then r.value else old(View())
    {
      OwnerIsNamed(owner);
      if !ValidOwner(owner) {
        return Some(BadOwner);
      }
      if name in owners && owners[name] != owner {
        return Some(OtherOwner);
      }
      if sandbox.Some? && name in sandbox.value {
        return Some(Sandboxed);
      }
      if name in tools {
        return Some(NameTaken);
      }
      functions := functions[name := func];
      owners := owners[name := owner];
      return None;
    }

    /** The owner's own binding goes, tool or function, and its owner entry with it; every other name stays bound. */
    method Remove(name: string, owner: string) returns (refusal: Option<Refusal>)
      modifies this
      ensures var r := old(View());
              && (refusal.None? <==>
                    && NamesOwner(owner) && (name in r.owners ==> r.owners[name] == owner)
                    && (r.sandbox.Some? ==> name !in r.sandbox.value) && !(name == "ToolSearch" && r.discovery))
              && (refusal.Some? ==> View() == r)
              && (refusal.None? && Owned(r) ==> name !in tools && name !in functions && name !in owners)
              && (forall other :: other != name ==> SameBinding(r, View(), other))
              && sandbox == r.sandbox && discovery == r.discovery
      ensures var r := Unregister(old(View()), name, owner);
              refusal == (if r.Err? then Some(r.error) else None) && View() == if r.Ok? then r.value else old(View())
    {
      OwnerIsNamed(owner);
      if !ValidOwner(owner) {
        return Some(BadOwner);
      }
      if name in owners && owners[name] != owner {
        return Some(OtherOwner);
      }
      if name == SEARCH && discovery {
        return Some(ActiveSearch);
      }
      if sandbox.Some? && name in sandbox.value {
        return Some(Sandboxed);
      }
      if name in tools {
        owners, tools := owners - {name}, tools - {name};
      } else if name in functions {
        owners, functions := owners - {name}, functions - {name};
      }
      return None;
    }

    /**
     Everything is checked before anything changes; then the old inventory goes and the new one comes, tool by tool.
     */
    method ReplaceOwnedTools(owner: string, inventory: seq<Adapter>) returns (refusal: Option<Refusal>)
      modifies this
      ensures refusal.None? <==> MayReplace(old(View()), owner, inventory)
      ensures refusal.Some? ==> View() == old(View())
      ensures refusal.None? && Owned(old(View())) ==> Replaced(old(View()), View(), owner, inventory)
      ensures var r := ReplaceOwned(old(View()), owner, inventory);
              refusal == (if r.Err? then Some(r.error) else None) && View() == if r.Ok? then r.value else old(View())
    {
      ReplaceAnswers(View(), owner, inventory);
      hide Owned, Replaced, MayReplace, Bound, OwnedAs, ValidOwner;
      if !ValidOwner(owner) {
        return Some(BadOwner);
      }
      var seen: set<string> := {};
      var good := true;
      for i := 0 to |inventory|
        invariant View() == old(View()) && seen == Names(inventory[..i]) && good == GoodInventory(inventory[..i])
      {
        assert inventory[..i + 1] == inventory[..i] + [inventory[i]];
        NamesGrow(inventory[..i], inventory[i]);
        GoodGrows(inventory[..i], inventory[i]);
        good := good && inventory[i].name != "" && inventory[i].name !in seen;
        seen := seen + {inventory[i].name};
      }
      assert inventory[..|inventory|] == inventory;
      if !good {
        return Some(BadInventory);
      }
      if sandbox.Some? {
        return Some(Sandboxed);
      }
      for i := 0 to |inventory|
        invariant View() == old(View()) && NameRefusal(View(), owner, inventory[..i]).None?
      {
        assert Front(inventory[..i + 1]) == inventory[..i] && Last(inventory[..i + 1]) == inventory[i];
        RefusalStays(View(), owner, inventory, i + 1);
        if inventory[i].name in owners && owners[inventory[i].name] != owner {
          return Some(OtherOwner);
        }
        if inventory[i].name == SEARCH && discovery {
          return Some(ActiveSearch);
        }
      }
      var gone := set name | name in owners && owners[name] == owner;
      if discovery && SEARCH in gone {
        return Some(ActiveSearch);
      }
      tools, functions, owners := tools - gone, functions - gone, owners - gone;
      BindAll(owner, inventory);
      return None;
    }

    method BindAll(owner: string, inventory: seq<Adapter>)
      modifies `tools, `owners
      ensures tools == Bound(old(tools), inventory) && owners == OwnedAs(old(owners), inventory, owner)
    {
      for i := 0 to |inventory|
        invariant tools == Bound(old(tools), inventory[..i]) && owners == OwnedAs(old(owners), inventory[..i], owner)
      {
        assert Front(inventory[..i + 1]) == inventory[..i] && Last(inventory[..i + 1]) == inventory[i];
        tools := tools[inventory[i].name := inventory[i]];
        owners := owners[inventory[i].name := owner];
      }
      assert inventory[..|inventory|] == inventory;
    }

    method ClearAllTools() returns (refusal: Option<Refusal>)
      modifies this
      ensures refusal.None? <==> old(sandbox).None?
      ensures View() == if refusal.None? then Registry(map[], map[], map[], None, old(discovery)) else old(View())
      ensures var r := Clear(old(View()));
              refusal == (if r.Err? then Some(r.error) else None) && View() == if r.Ok? then r.value else old(View())
    {
      if sandbox.Some? {
        return Some(Sandboxed);
      }
      tools, functions, owners := map[], map[], map[];
      return None;
    }
  }

  lemma {:induction false} RefusalStays(r: Registry, owner: string, tools: seq<Adapter>, n: nat)
    requires n <= |tools|
    ensures NameRefusal(r, owner, tools[..n]).Some? ==>
              NameRefusal(r, owner, tools) == NameRefusal(r, owner, tools[..n])
  {
    if n == |tools| {
      assert tools[..n] == tools;
    } else {
      assert Front(tools)[..n] == tools[..n];
      RefusalStays(r, owner, Front(tools), n);
    }
  }

  lemma GoodGrows(tools: seq<Adapter>, t: Adapter)
    ensures GoodInventory(tools + [t]) <==> GoodInventory(tools) && t.name != "" && t.name !in Names(tools)
  {
    var both := tools + [t];
    if GoodInventory(both) {
      assert both[|tools|] == t;
      assert forall i :: 0 <= i < |tools| ==> both[i] == tools[i];
    }
    if GoodInventory(tools) && t.name != "" && t.name !in Names(tools) {
      forall i, j | 0 <= i < j < |both| ensures both[i].name != both[j].name {
        assert i < |tools| && both[i] == tools[i] && tools[i].name in Names(tools);
      }
    }
  }
}
