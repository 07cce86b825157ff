/** A family of registries over time: whatever happens to any of them, a worker keeps to what it was derived with. */
module ToolFamilies {
  import opened Common
  import opened ToolOwnership
  import opened ToolRegistries

  /**
   What may happen: an operation on one registry, a derivation, a tool that describes itself anew, new live policies.
   */
  datatype Change =
    | On(i: nat, op: Op)
    | Derive(i: nat, allowed: Option<set<string>>, denied: set<string>, copies: string -> nat)
    | Reshape(i: nat, name: string, schema: Option<string>)
    | Rule(i: nat, hosted: Option<set<string>>, broken: set<string>, sharedDenied: set<string>,
           localDenied: set<string>,
           visible: Option<set<string>>)

  function Reshaped(r: Registry, name: string, schema: Option<string>): Registry {
    if name in r.tools then r.(tools := r.tools[name := r.tools[name].(schema := schema)]) else r
  }

  /** A change of a registry that does not exist changes nothing. */
  function Changed(w: Family, c: Change): Family {
    if c.i >= |w| then w
    else match c
      case On(i, op) => w[i := w[i].(reg := Apply(w[i].reg, op))]
      case Derive(i, allowed, denied, copies) =>
        if w[i].reg.tools.Keys <= w[i].reg.owners.Keys then w + [Child(w, i, allowed, denied, copies)] else w
      case Reshape(i, name, schema) => w[i := w[i].(reg := Reshaped(w[i].reg, name, schema))]
      case Rule(i, hosted, broken, sharedDenied, localDenied, visible) =>
        w[i := w[i].(hosted := hosted, broken := broken, sharedDenied := sharedDenied, localDenied := localDenied,
                     visible := visible)]
  }

  function Later(w: Family, changes: seq<Change>): Family {
    if changes == [] then w else Changed(Later(w, Front(changes)), Last(changes))
  }

  // ---------- What every change keeps ----------

  ghost predicate AllOwned(w: Family) {
    forall i :: 0 <= i < |w| ==> Owned(w[i].reg)
  }

  /** Every registry is still there and still hangs where it was derived from, with the same record of it. */
  ghost predicate Rooted(w: Family, u: Family) {
    |w| <= |u| && forall i :: 0 <= i < |w| ==>
      && u[i].parent == w[i].parent && u[i].sources == w[i].sources && u[i].adapters == w[i].adapters
      && u[i].hashes == w[i].hashes
  }

  lemma ReshapedIsOwned(r: Registry, name: string, schema: Option<string>)
    requires Owned(r)
    ensures Owned(Reshaped(r, name, schema))
  {
  }

  lemma ChildIsOwned(w: Family, i: nat, allowed: Option<set<string>>, denied: set<string>, copies: string -> nat)
    requires i < |w| && Owned(w[i].reg)
    ensures w[i].reg.tools.Keys <= w[i].reg.owners.Keys
    ensures var c := Child(w, i, allowed, denied, copies);
            Owned(c.reg) && c.parent == Some(i)
  {
    hide Derivable;
  }

  lemma ChangeKeeps(w: Family, c: Change)
    requires Born(w) && AllOwned(w)
    ensures Born(Changed(w, c)) && AllOwned(Changed(w, c)) && Rooted(w, Changed(w, c))
  {
    hide Apply, Owned, Child;
    if c.i < |w| {
      assert Owned(w[c.i].reg);
      match c
      case On(i, op) => StepKeepsOwned(w[i].reg, op);
      case Derive(i, allowed, denied, copies) => ChildIsOwned(w, i, allowed, denied, copies);
      case Reshape(i, name, schema) => ReshapedIsOwned(w[i].reg, name, schema);
      case Rule(_, _, _, _, _, _) =>
    }
  }

  lemma RootedTrans(w: Family, v: Family, u: Family)
    requires Rooted(w, v) && Rooted(v, u)
    ensures Rooted(w, u)
  {
  }

  lemma {:induction false} LaterKeeps(w: Family, changes: seq<Change>)
    requires Born(w) && AllOwned(w)
    ensures var u := Later(w, changes);
            Born(u) && AllOwned(u) && Rooted(w, u)
  {
    if changes == [] {
    } else {
      LaterKeeps(w, Front(changes));
      hide Born, AllOwned, Rooted, Changed;
      var v := Later(w, Front(changes));
      ChangeKeeps(v, Last(changes));
      RootedTrans(w, v, Changed(v, Last(changes)));
    }
  }

  // ---------- What a worker may use ----------

  /** The binding of a name in the parent is the object it was, with the schema it had. */
  predicate StillOffered(was: Registry, now: Registry, name: string) {
    && name in was.tools && name in now.tools
    && now.tools[name].identity == was.tools[name].identity && now.tools[name].schema == was.tools[name].schema
  }

  /** The name is bound in the worker to its own copy. */
  predicate OwnCopy(now: Registry, copies: string -> nat, name: string) {
    name in now.tools && now.tools[name].identity == copies(name)
  }

  lemma DerivedIsRooted(w: Family, i: nat, allowed: Option<set<string>>, denied: set<string>, copies: string -> nat)
    requires Born(w) && AllOwned(w) && i < |w| && w[i].reg.tools.Keys <= w[i].reg.owners.Keys
    ensures var v := w + [Child(w, i, allowed, denied, copies)];
            Born(v) && AllOwned(v)
  {
    hide Owned;
    ChildIsOwned(w, i, allowed, denied, copies);
  }

  /**
   However a worker was derived and whatever happens afterwards to any registry, the worker included: it may use a name
   exactly if the name was derivable then, the parent still offers that very object unchanged and in working order and
   may use it itself, the worker still has its own copy, and its own sandbox and host agree.
   */
  lemma WorkerNeverExceeds(w: Family, i: nat, allowed: Option<set<string>>, denied: set<string>, copies: string -> nat,
                           changes: seq<Change>, name: string)
    requires Born(w) && AllOwned(w) && i < |w| && w[i].reg.tools.Keys <= w[i].reg.owners.Keys
    ensures var u := Later(w + [Child(w, i, allowed, denied, copies)], changes);
            && Born(u) && |w| < |u|
            && (ToolAllowed(u, |w|, name) <==>
                  && Derivable(w[i].reg, allowed, denied, name) && StillOffered(w[i].reg, u[i].reg, name)
                  && OwnCopy(u[|w|].reg, copies, name) && name !in u[i].broken && ToolAllowed(u, i, name)
                  && (u[|w|].reg.sandbox.Some? ==> name in u[|w|].reg.sandbox.value) && HostedAllowed(u, |w|, name))
  {
    hide Born, AllOwned, Owned, Later;
    DerivedIsRooted(w, i, allowed, denied, copies);
    var c := Child(w, i, allowed, denied, copies);
    var v := w + [c];
    LaterKeeps(v, changes);
    var u := Later(v, changes);
    assert v[|w|] == c;
    assert |v| <= |u| && u[|w|].parent == c.parent && u[|w|].sources == c.sources && u[|w|].adapters == c.adapters
        && u[|w|].hashes == c.hashes;
    hide Rooted, Later;
    AllowedIs(w, i, allowed, denied, copies, u, name);
  }

  lemma AllowedIs(w: Family, i: nat, allowed: Option<set<string>>, denied: set<string>, copies: string -> nat,
                  u: Family, name: string)
    requires i < |w| < |u| && w[i].reg.tools.Keys <= w[i].reg.owners.Keys && Born(u)
    requires var c := Child(w, i, allowed, denied, copies);
             var k := |w|;
             u[k].parent == c.parent && u[k].sources == c.sources && u[k].adapters == c.adapters
             && u[k].hashes == c.hashes
    ensures ToolAllowed(u, |w|, name) <==>
              && Derivable(w[i].reg, allowed, denied, name) && StillOffered(w[i].reg, u[i].reg, name)
              && OwnCopy(u[|w|].reg, copies, name) && name !in u[i].broken && ToolAllowed(u, i, name)
              && (u[|w|].reg.sandbox.Some? ==> name in u[|w|].reg.sandbox.value) && HostedAllowed(u, |w|, name)
  {
    var c := Child(w, i, allowed, denied, copies);
    DerivableIsTool(w[i].reg, allowed, denied);
    hide Derivable;
    assert name in c.adapters <==> name in w[i].reg.tools && Derivable(w[i].reg, allowed, denied, name);
  }

  /**
   So a worker of a worker, however deep, can never use a name that was not derivable when its own registry was made.
   */
  lemma NeverGained(w: Family, i: nat, allowed: Option<set<string>>, denied: set<string>, copies: string -> nat,
                    changes: seq<Change>, d: nat, k: nat, name: string)
    requires Born(w) && AllOwned(w) && i < |w| && w[i].reg.tools.Keys <= w[i].reg.owners.Keys
    requires !Derivable(w[i].reg, allowed, denied, name)
    requires var u := Later(w + [Child(w, i, allowed, denied, copies)], changes);
             Born(u) && d < |u| && Ancestor(u, d, k) == Some(|w|)
    ensures !ToolAllowed(Later(w + [Child(w, i, allowed, denied, copies)], changes), d, name)
  {
    var u := Later(w + [Child(w, i, allowed, denied, copies)], changes);
    hide Born, AllOwned, Later, Derivable, ToolAllowed, Ancestor;
    WorkerNeverExceeds(w, i, allowed, denied, copies, changes, name);
    if ToolAllowed(u, d, name) {
      AllowedAtEveryDepth(u, d, name, k);
    }
  }
}
