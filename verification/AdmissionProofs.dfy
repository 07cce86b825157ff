/** What every interleaving of the admission scripts keeps. */
module AdmissionProofs {
  import opened Common
  import opened Admission

  /** A stored member belongs under its key, and the key outlives it by a full ttl. */
  ghost predicate FiledWell(w: World, ttl: nat, k: Key, x: Token, score: int, expireAt: int) {
    && x in w.owner && Of(k, w.owner[x])
    && score <= w.store.clock + ttl
    && score + ttl <= expireAt
  }

  ghost predicate Filed(w: World, ttl: nat) {
    forall k, x {:trigger x in w.store.sets[k].scores} {:trigger w.store.sets[k].scores[x]} ::
      k in w.store.sets && x in w.store.sets[k].scores ==>
        FiledWell(w, ttl, k, x, w.store.sets[k].scores[x], w.store.sets[k].expireAt)
  }

  ghost predicate Bounded(s: Store, l: Limits) {
    forall k :: k in s.sets ==> |s.sets[k].scores| <= Limit(l, k)
  }

  /** A token is live in a set of its scope just when it is live globally, with the same score. */
  ghost predicate Agrees(w: World, x: Token, k: Key)
    requires x in w.owner
  {
    && (IsLive(w.store, k, x) <==> IsLive(w.store, Global, x))
    && (IsLive(w.store, k, x) ==> Members(w.store, k)[x] == Members(w.store, Global)[x])
  }

  ghost predicate InStep(w: World) {
    forall x, k :: x in w.owner && Of(k, w.owner[x]) ==> Agrees(w, x, k)
  }

  ghost predicate Inv(w: World, l: Limits, ttl: nat) {
    Filed(w, ttl) && Bounded(w.store, l) && InStep(w)
  }

  lemma {:induction false} SubsetSize<T>(a: set<T>, b: set<T>)
    requires a <= b
    ensures |a| <= |b|
  {
    if a == {} {
    } else {
      var x :| x in a;
      SubsetSize(a - {x}, b - {x});
    }
  }

  lemma ScopeKeys(sc: Scope)
    ensures Distinct(Keys(sc)) && |Keys(sc)| == 4 && Keys(sc)[0] == Global
    ensures forall k :: k in Keys(sc) <==> Of(k, sc)
  {
    assert Keys(sc)[0] == Global && Keys(sc)[1] == Tenant(sc.tenant);
    assert Keys(sc)[2] == User(sc.tenant, sc.user) && Keys(sc)[3] == Project(sc.tenant, sc.project);
  }

  // ---------- Effect of each command on what is live ----------

  /** The same tokens are live in the same sets with the same scores. */
  ghost predicate SameLive(a: Store, b: Store) {
    && a.clock == b.clock
    && forall q, x {:trigger IsLive(a, q, x)} {:trigger IsLive(b, q, x)} ::
         IsLive(a, q, x) == IsLive(b, q, x) && (IsLive(a, q, x) ==> Members(a, q)[x] == Members(b, q)[x])
  }

  lemma PurgeKeepsLive(s: Store, k: Key)
    ensures SameLive(s, Purge(s, k))
  {
  }

  lemma SameLiveSets(a: Store, b: Store, k: Key)
    requires SameLive(a, b)
    ensures Live(a, k) == Live(b, k)
  {
    forall x ensures x in Live(a, k) <==> x in Live(b, k) {
      assert IsLive(a, k, x) == IsLive(b, k, x);
    }
  }

  lemma PurgeKeepsFiled(w: World, l: Limits, ttl: nat, k: Key)
    requires Filed(w, ttl) && Bounded(w.store, l)
    ensures Filed(w.(store := Purge(w.store, k)), ttl) && Bounded(Purge(w.store, k), l)
  {
    var p := Purge(w.store, k);
    if k in p.sets {
      SubsetSize(p.sets[k].scores.Keys, w.store.sets[k].scores.Keys);
    }
  }

  /** The live tokens of a set. */
  function Live(s: Store, k: Key): set<Token> {
    set x | x in Members(s, k) && Members(s, k)[x] > s.clock
  }

  lemma PurgeLeavesLive(s: Store, k: Key)
    ensures Members(Purge(s, k), k).Keys == Live(s, k)
  {
  }

  /** Every set had room, as counted in live tokens. */
  ghost predicate AllHaveRoom(s: Store, l: Limits, keys: seq<Key>) {
    forall k :: k in keys ==> |Live(s, k)| < Limit(l, k)
  }

  /** The purging loop stops exactly at a set that is full of live tokens, and changes no live token. */
  lemma {:induction false} RoomIsExact(w: World, l: Limits, ttl: nat, keys: seq<Key>)
    requires Filed(w, ttl) && Bounded(w.store, l) && Distinct(keys)
    ensures var (p, ok) := Room(w.store, l, keys);
            && Filed(w.(store := p), ttl) && Bounded(p, l) && SameLive(w.store, p)
            && (forall q :: q !in keys ==> Members(p, q) == Members(w.store, q))
            && (ok <==> AllHaveRoom(w.store, l, keys))
            && (ok ==> forall k :: k in keys ==> Members(p, k).Keys == Live(w.store, k))
    decreases |keys|
  {
    hide Filed, SameLive, Purge, Limit, IsLive, Members, Live;
    if keys == [] {
      PurgeKeepsLive(w.store, Global);
      SameLiveReflexive(w.store);
    } else {
      var k, rest := keys[0], keys[1..];
      var p := Purge(w.store, k);
      assert keys == [k] + rest && k !in rest;
      PurgeKeepsFiled(w, l, ttl, k);
      PurgeLeavesLive(w.store, k);
      PurgeKeepsLive(w.store, k);
      PurgeLocal(w.store, k);
      RoomIsExact(w.(store := p), l, ttl, rest);
      forall q ensures Live(p, q) == Live(w.store, q) {
        SameLiveSets(w.store, p, q);
      }
      SameLiveTransitive(w.store, p, Room(p, l, rest).0);
    }
  }

  lemma SameLiveReflexive(a: Store)
    ensures SameLive(a, a)
  {
  }

  lemma SameLiveTransitive(a: Store, b: Store, c: Store)
    requires SameLive(a, b) && SameLive(b, c)
    ensures SameLive(a, c)
  {
  }

  lemma PurgeLocal(s: Store, k: Key)
    ensures forall q :: q != k ==> Members(Purge(s, k), q) == Members(s, q)
    ensures Purge(s, k).clock == s.clock
    ensures |Members(Purge(s, k), k)| == |Members(Purge(s, k), k).Keys|
  {
  }

  lemma {:induction false} AddAllEffect(s: Store, keys: seq<Key>, x: Token, score: int, expireAt: int)
    requires Distinct(keys)
    ensures var r := AddAll(s, keys, x, score, expireAt);
            && r.clock == s.clock
            && (forall k :: k in keys ==> k in r.sets && r.sets[k] == Zset(Members(s, k)[x := score], expireAt))
            && (forall k :: k !in keys ==> (k in r.sets <==> k in s.sets) && (k in s.sets ==> r.sets[k] == s.sets[k]))
    decreases |keys|
  {
    if keys == [] {
    } else {
      assert keys == [keys[0]] + keys[1..] && keys[0] !in keys[1..];
      AddAllEffect(Add(s, keys[0], x, score, expireAt), keys[1..], x, score, expireAt);
    }
  }

  lemma {:induction false} RemoveAllEffect(s: Store, keys: seq<Key>, x: Token)
    requires Distinct(keys)
    ensures var r := RemoveAll(s, keys, x);
            && r.clock == s.clock
            && (forall k :: k in keys ==> Members(r, k) == Members(s, k) - {x})
            && (forall k :: k in keys && k in r.sets ==>
                  k in s.sets && r.sets[k] == Zset(Members(s, k) - {x}, s.sets[k].expireAt))
            && (forall k :: k !in keys ==> (k in r.sets <==> k in s.sets) && (k in s.sets ==> r.sets[k] == s.sets[k]))
    decreases |keys|
  {
    if keys == [] {
    } else {
      assert keys == [keys[0]] + keys[1..] && keys[0] !in keys[1..];
      RemoveAllEffect(Remove(s, keys[0], x), keys[1..], x);
    }
  }

  // ---------- The invariant ----------

  lemma TickKeepsInv(w: World, l: Limits, ttl: nat, now: int)
    requires Inv(w, l, ttl) && w.store.clock <= now
    ensures Inv(w.(store := w.store.(clock := now)), l, ttl)
    ensures forall k, x :: IsLive(w.store.(clock := now), k, x) ==> IsLive(w.store, k, x)
  {
    var d := w.(store := w.store.(clock := now));
    forall x, k | x in d.owner && Of(k, d.owner[x]) ensures Agrees(d, x, k) {
      assert Agrees(w, x, k);
    }
  }

  lemma MapCard(m: map<Token, int>, x: Token, v: int)
    ensures |m[x := v]| == if x in m then |m| else |m| + 1
  {
    assert m[x := v].Keys == m.Keys + {x};
    assert |m[x := v]| == |m[x := v].Keys| && |m| == |m.Keys|;
  }

  /** What adding a token to the four sets of its scope makes of each key. */
  lemma AddAllAt(s: Store, sc: Scope, x: Token, score: int, expireAt: int, k: Key)
    ensures var r := AddAll(s, Keys(sc), x, score, expireAt);
            && r.clock == s.clock
            && (Of(k, sc) ==> k in r.sets && r.sets[k] == Zset(Members(s, k)[x := score], expireAt))
            && (!Of(k, sc) ==> (k in r.sets <==> k in s.sets) && (k in s.sets ==> r.sets[k] == s.sets[k]))
  {
    hide AddAll, Members, Keys, Of, Distinct;
    ScopeKeys(sc);
    AddAllEffect(s, Keys(sc), x, score, expireAt);
  }

  /** The token becomes live in all four sets of its scope; nothing else changes. */
  lemma AddAllLive(s: Store, sc: Scope, x: Token, ttl: nat, k: Key, y: Token)
    requires ttl > 0
    ensures var r := AddAll(s, Keys(sc), x, s.clock + ttl, s.clock + 2 * ttl);
            && r.clock == s.clock
            && (y == x && Of(k, sc) ==> IsLive(r, k, x) && Members(r, k)[x] == s.clock + ttl)
            && (!(y == x && Of(k, sc)) ==>
                  && IsLive(r, k, y) == IsLive(s, k, y)
                  && (IsLive(s, k, y) ==> Members(r, k)[y] == Members(s, k)[y]))
  {
    hide AddAll, Keys, Of;
    AddAllAt(s, sc, x, s.clock + ttl, s.clock + 2 * ttl, k);
  }

  lemma AddKeepsFiled(w: World, ttl: nat, x: Token)
    requires Filed(w, ttl) && x in w.owner
    ensures Filed(w.(store := AddAll(w.store, Keys(w.owner[x]), x, w.store.clock + ttl, w.store.clock + 2 * ttl)), ttl)
  {
    hide AddAll, Keys, Of;
    var s := w.store;
    var r := AddAll(s, Keys(w.owner[x]), x, s.clock + ttl, s.clock + 2 * ttl);
    forall k, y | k in r.sets && y in r.sets[k].scores
      ensures FiledWell(w.(store := r), ttl, k, y, r.sets[k].scores[y], r.sets[k].expireAt)
    {
      AddAllAt(s, w.owner[x], x, s.clock + ttl, s.clock + 2 * ttl, k);
      if !(y == x && Of(k, w.owner[x])) {
        assert y in s.sets[k].scores;
        assert FiledWell(w, ttl, k, y, s.sets[k].scores[y], s.sets[k].expireAt);
      }
    }
  }

  lemma AddKeepsBounded(w: World, l: Limits, ttl: nat, x: Token)
    requires Bounded(w.store, l) && x in w.owner
    requires forall k :: Of(k, w.owner[x]) ==> x in Members(w.store, k) || |Members(w.store, k)| < Limit(l, k)
    ensures Bounded(AddAll(w.store, Keys(w.owner[x]), x, w.store.clock + ttl, w.store.clock + 2 * ttl), l)
  {
    hide AddAll, Keys, Of, Limit;
    var s := w.store;
    var r := AddAll(s, Keys(w.owner[x]), x, s.clock + ttl, s.clock + 2 * ttl);
    forall k | k in r.sets ensures |r.sets[k].scores| <= Limit(l, k) {
      AddAllAt(s, w.owner[x], x, s.clock + ttl, s.clock + 2 * ttl, k);
      MapCard(Members(s, k), x, s.clock + ttl);
    }
  }

  /** Adding a token to all four sets of its scope, when each has room or already holds it. */
  lemma AddKeepsInv(w: World, l: Limits, ttl: nat, x: Token)
    requires Inv(w, l, ttl) && x in w.owner && ttl > 0
    requires forall k :: Of(k, w.owner[x]) ==> x in Members(w.store, k) || |Members(w.store, k)| < Limit(l, k)
    ensures Inv(w.(store := AddAll(w.store, Keys(w.owner[x]), x, w.store.clock + ttl, w.store.clock + 2 * ttl)), l, ttl)
  {
    hide AddAll, Keys, Limit, Filed, Bounded, IsLive, Members;
    var d := w.(store := AddAll(w.store, Keys(w.owner[x]), x, w.store.clock + ttl, w.store.clock + 2 * ttl));
    AddKeepsFiled(w, ttl, x);
    AddKeepsBounded(w, l, ttl, x);
    forall y, k | y in d.owner && Of(k, d.owner[y]) ensures Agrees(d, y, k) {
      AddAllLive(w.store, w.owner[x], x, ttl, k, y);
      AddAllLive(w.store, w.owner[x], x, ttl, Global, y);
      assert Agrees(w, y, k);
    }
  }

  /** A fresh token changes nothing for the tokens already issued. */
  lemma NewTokenKeepsInv(w: World, p: Store, l: Limits, ttl: nat, sc: Scope, x: Token)
    requires Inv(w, l, ttl) && x !in w.owner
    requires Filed(w.(store := p), ttl) && Bounded(p, l) && SameLive(w.store, p)
    ensures Inv(World(p, w.owner[x := sc]), l, ttl)
    ensures forall k :: x !in Members(p, k)
  {
    hide Of, Limit, IsLive;
    var d := World(p, w.owner[x := sc]);
    forall k, y | k in p.sets && y in p.sets[k].scores
      ensures y != x && FiledWell(d, ttl, k, y, p.sets[k].scores[y], p.sets[k].expireAt)
    {
      assert FiledWell(w.(store := p), ttl, k, y, p.sets[k].scores[y], p.sets[k].expireAt);
    }
    forall y, k | y in d.owner && Of(k, d.owner[y]) ensures Agrees(d, y, k) {
      assert IsLive(p, k, y) == IsLive(w.store, k, y) && IsLive(p, Global, y) == IsLive(w.store, Global, y);
      if y in w.owner {
        assert Agrees(w, y, k);
      } else {
        NeverLive(p, k, x);
        NeverLive(p, Global, x);
      }
    }
  }

  lemma NeverLive(s: Store, k: Key, x: Token)
    requires x !in Members(s, k)
    ensures !IsLive(s, k, x)
  {
  }

  lemma AcquireKeepsInv(w: World, l: Limits, ttl: nat, sc: Scope, x: Token)
    requires Inv(w, l, ttl) && x !in w.owner && ttl > 0
    ensures Inv(World(AcquireScript(w.store, l, ttl, Keys(sc), x).0, w.owner[x := sc]), l, ttl)
  {
    hide Of, Keys, Limit, IsLive, Members, SameLive, Room, AddAll, Live, Agrees, InStep, Filed, Bounded, Distinct;
    ScopeKeys(sc);
    RoomIsExact(w, l, ttl, Keys(sc));
    var (p, ok) := Room(w.store, l, Keys(sc));
    NewTokenKeepsInv(w, p, l, ttl, sc, x);
    if ok {
      forall k | Of(k, sc) ensures |Members(p, k)| < Limit(l, k) {
        RoomLeft(w, p, l, sc, k);
      }
      SameClock(w.store, p);
      AddKeepsInv(World(p, w.owner[x := sc]), l, ttl, x);
    }
  }

  lemma SameClock(a: Store, b: Store)
    requires SameLive(a, b)
    ensures a.clock == b.clock
  {
  }

  lemma RoomLeft(w: World, p: Store, l: Limits, sc: Scope, k: Key)
    requires AllHaveRoom(w.store, l, Keys(sc)) && k in Keys(sc) && Members(p, k).Keys == Live(w.store, k)
    ensures |Members(p, k)| < Limit(l, k)
  {
    assert |Members(p, k)| == |Members(p, k).Keys|;
  }

  lemma RemoveAllLive(s: Store, sc: Scope, x: Token, k: Key, y: Token)
    ensures var r := RemoveAll(s, Keys(sc), x);
            && r.clock == s.clock
            && (y == x && Of(k, sc) ==> !IsLive(r, k, x))
            && (!(y == x && Of(k, sc)) ==>
                  && IsLive(r, k, y) == IsLive(s, k, y)
                  && (IsLive(s, k, y) ==> Members(r, k)[y] == Members(s, k)[y]))
  {
    ScopeKeys(sc);
    RemoveAllEffect(s, Keys(sc), x);
  }

  lemma ReleaseKeepsFiled(w: World, l: Limits, ttl: nat, x: Token)
    requires Filed(w, ttl) && Bounded(w.store, l) && x in w.owner
    ensures Filed(w.(store := RemoveAll(w.store, Keys(w.owner[x]), x)), ttl)
    ensures Bounded(RemoveAll(w.store, Keys(w.owner[x]), x), l)
  {
    hide Of, Keys, Limit, RemoveAll, Distinct;
    var s, keys := w.store, Keys(w.owner[x]);
    var r := RemoveAll(s, keys, x);
    ScopeKeys(w.owner[x]);
    RemoveAllEffect(s, keys, x);
    forall k, y | k in r.sets && y in r.sets[k].scores
      ensures FiledWell(w.(store := r), ttl, k, y, r.sets[k].scores[y], r.sets[k].expireAt)
    {
      assert y in s.sets[k].scores;
      assert FiledWell(w, ttl, k, y, s.sets[k].scores[y], s.sets[k].expireAt);
    }
    forall k | k in r.sets ensures |r.sets[k].scores| <= Limit(l, k) {
      SubsetSize(r.sets[k].scores.Keys, s.sets[k].scores.Keys);
    }
  }

  lemma ReleaseKeepsInv(w: World, l: Limits, ttl: nat, x: Token)
    requires Inv(w, l, ttl) && x in w.owner
    ensures Inv(w.(store := RemoveAll(w.store, Keys(w.owner[x]), x)), l, ttl)
  {
    hide Keys, Limit, IsLive, RemoveAll, Filed, Bounded, Members;
    var d := w.(store := RemoveAll(w.store, Keys(w.owner[x]), x));
    ReleaseKeepsFiled(w, l, ttl, x);
    forall y, k | y in d.owner && Of(k, d.owner[y]) ensures Agrees(d, y, k) {
      RemoveAllLive(w.store, w.owner[x], x, k, y);
      RemoveAllLive(w.store, w.owner[x], x, Global, y);
      assert Agrees(w, y, k);
    }
  }

  /** The renew script's test, scope key by scope key, is the test of the global set alone. */
  lemma RenewTest(w: World, ttl: nat, x: Token)
    requires InStep(w) && x in w.owner
    ensures RenewScript(w.store, ttl, Keys(w.owner[x]), x).1 <==> IsLive(w.store, Global, x)
    ensures IsLive(w.store, Global, x) ==> forall k :: Of(k, w.owner[x]) ==> x in Members(w.store, k)
  {
    var keys := Keys(w.owner[x]);
    ScopeKeys(w.owner[x]);
    forall k | Of(k, w.owner[x]) ensures IsLive(w.store, k, x) <==> IsLive(w.store, Global, x) {
      assert Agrees(w, x, k);
    }
    forall i | 0 <= i < |keys| ensures IsLive(w.store, keys[i], x) <==> IsLive(w.store, Global, x) {
      assert keys[i] in keys;
    }
  }

  lemma InvInStep(w: World, l: Limits, ttl: nat)
    requires Inv(w, l, ttl)
    ensures InStep(w) && Filed(w, ttl) && Bounded(w.store, l)
  {
  }

  lemma StepKeepsInv(w: World, l: Limits, ttl: nat, op: Op)
    requires Inv(w, l, ttl) && Possible(w, op) && ttl > 0
    ensures Inv(Step(w, l, ttl, op).0, l, ttl)
  {
    hide Inv, Keys, Limit, IsLive, Members, AddAll, RemoveAll, AcquireScript;
    var t := w.(store := w.store.(clock := op.now));
    TickKeepsInv(w, l, ttl, op.now);
    match op
    case Tick(_) =>
    case Acquire(_, sc, x) => AcquireKeepsInv(t, l, ttl, sc, x);
    case Renew(_, x) =>
      InvInStep(t, l, ttl);
      RenewTest(t, ttl, x);
      if IsLive(t.store, Global, x) {
        AddKeepsInv(t, l, ttl, x);
      }
    case Release(_, x) => ReleaseKeepsInv(t, l, ttl, x);
  }

  lemma FeasibleFront(w: World, l: Limits, ttl: nat, ops: seq<Op>)
    requires Feasible(w, l, ttl, ops) && ops != []
    ensures Feasible(w, l, ttl, Front(ops)) && Possible(Exec(w, l, ttl, Front(ops)), Last(ops))
  {
    var front := Front(ops);
    forall i | 0 <= i < |front| ensures Possible(Exec(w, l, ttl, front[..i]), front[i]) {
      assert front[..i] == ops[..i];
    }
    assert ops[..|ops| - 1] == front;
  }

  lemma {:induction false} RunKeepsInv(w: World, l: Limits, ttl: nat, ops: seq<Op>)
    requires Inv(w, l, ttl) && Feasible(w, l, ttl, ops) && ttl > 0
    ensures Inv(Exec(w, l, ttl, ops), l, ttl)
  {
    if ops == [] {
    } else {
      FeasibleFront(w, l, ttl, ops);
      RunKeepsInv(w, l, ttl, Front(ops));
      StepKeepsInv(Exec(w, l, ttl, Front(ops)), l, ttl, Last(ops));
    }
  }

  // ---------- What callers rely on, in any reachable state ----------

  /** A world some run of scripts leads to from an empty store. */
  ghost predicate Reachable(w: World, l: Limits, ttl: nat) {
    ttl > 0 && exists ops :: Feasible(START, l, ttl, ops) && w == Exec(START, l, ttl, ops)
  }

  lemma ReachableInv(w: World, l: Limits, ttl: nat)
    requires Reachable(w, l, ttl)
    ensures Inv(w, l, ttl) && ttl > 0
  {
    var ops :| Feasible(START, l, ttl, ops) && w == Exec(START, l, ttl, ops);
    RunKeepsInv(START, l, ttl, ops);
  }

  /** No set ever holds more members, live or dead, than its limit. */
  lemma NeverOverCapacity(w: World, l: Limits, ttl: nat, k: Key)
    requires Reachable(w, l, ttl)
    ensures |Live(w.store, k)| <= |Members(w.store, k)| <= Limit(l, k)
    ensures |Members(w.store, k)| <= match k
                                     case Global => l.all
                                     case Tenant(_) => l.tenant
                                     case User(_, _) => l.user
                                     case Project(_, _) => l.project
  {
    ReachableInv(w, l, ttl);
    SubsetSize(Live(w.store, k), Members(w.store, k).Keys);
    assert |Members(w.store, k)| == |Members(w.store, k).Keys|;
  }

  /** A token live anywhere is live in exactly the four sets of its scope, with one expiry. */
  lemma LiveInAllFourSets(w: World, l: Limits, ttl: nat, k: Key, x: Token, q: Key)
    requires Reachable(w, l, ttl) && IsLive(w.store, k, x)
    ensures x in w.owner && (IsLive(w.store, q, x) <==> q in Keys(w.owner[x]))
    ensures q in Keys(w.owner[x]) ==> Members(w.store, q)[x] == Members(w.store, k)[x]
  {
    ReachableInv(w, l, ttl);
    ScopeKeys(w.owner[x]);
    assert Agrees(w, x, k);
    if Of(q, w.owner[x]) {
      assert Agrees(w, x, q);
    }
  }

  /** The live global tokens are the disjoint union of the tenants' live tokens. */
  lemma GlobalIsDisjointUnionOfTenants(w: World, l: Limits, ttl: nat, x: Token)
    requires Reachable(w, l, ttl)
    ensures x in Live(w.store, Global) <==> exists t :: x in Live(w.store, Tenant(t))
    ensures forall a, b :: x in Live(w.store, Tenant(a)) && x in Live(w.store, Tenant(b)) ==> a == b
  {
    ReachableInv(w, l, ttl);
    forall k ensures IsLive(w.store, k, x) <==> x in Live(w.store, k) {}
    if x in w.owner {
      assert Agrees(w, x, Tenant(w.owner[x].tenant));
      forall t | IsLive(w.store, Tenant(t), x) ensures t == w.owner[x].tenant {}
    }
  }

  /** A stored score that has not run out is still visible: whole-key expiry drops dead leases only. */
  lemma KeyExpiryDropsNoLiveLease(w: World, l: Limits, ttl: nat, k: Key, x: Token)
    requires Reachable(w, l, ttl)
    requires k in w.store.sets && x in w.store.sets[k].scores && w.store.sets[k].scores[x] > w.store.clock
    ensures IsLive(w.store, k, x)
  {
    ReachableInv(w, l, ttl);
  }

  /** Fewer live leases than allowed, of everybody, of the tenant, of the user and of the project. */
  predicate FourHaveRoom(s: Store, l: Limits, sc: Scope) {
    && |Live(s, Global)| < l.all && |Live(s, Tenant(sc.tenant))| < l.tenant
    && |Live(s, User(sc.tenant, sc.user))| < l.user && |Live(s, Project(sc.tenant, sc.project))| < l.project
  }

  lemma KeyByKey(s: Store, l: Limits, sc: Scope)
    ensures FourHaveRoom(s, l, sc) <==> forall q :: q in Keys(sc) ==> |Live(s, q)| < Limit(l, q)
  {
    ScopeKeys(sc);
    hide Live, Keys;
    assert Of(Global, sc) && Of(Tenant(sc.tenant), sc);
    assert Of(User(sc.tenant, sc.user), sc) && Of(Project(sc.tenant, sc.project), sc);
  }

  /** A lease is granted exactly when every set of the scope holds fewer live tokens than its limit. */
  lemma AcquireIsExact(w: World, l: Limits, ttl: nat, op: Op, k: Key, y: Token)
    requires Reachable(w, l, ttl) && op.Acquire? && Possible(w, op)
    ensures var now, d, ok := w.store.(clock := op.now), Step(w, l, ttl, op).0.store, Step(w, l, ttl, op).1;
            && (ok <==> forall q :: q in Keys(op.scope) ==> |Live(now, q)| < Limit(l, q))
            && (ok <==> FourHaveRoom(now, l, op.scope))
            && (y == op.token ==> (IsLive(d, k, y) <==> ok && k in Keys(op.scope)))
            && (y == op.token && IsLive(d, k, y) ==> Members(d, k)[y] == op.now + ttl)
            && (y != op.token ==> IsLive(d, k, y) == IsLive(now, k, y))
            && (y != op.token && IsLive(d, k, y) ==> Members(d, k)[y] == Members(now, k)[y])
  {
    hide Reachable, Inv, Of, Keys, Limit, Members, Room, AddAll, Live, Filed, Bounded, Distinct;
    ReachableInv(w, l, ttl);
    TickKeepsInv(w, l, ttl, op.now);
    var t := w.(store := w.store.(clock := op.now));
    InvInStep(t, l, ttl);
    ScopeKeys(op.scope);
    RoomIsExact(t, l, ttl, Keys(op.scope));
    KeyByKey(t.store, l, op.scope);
    hide FourHaveRoom;
    var (p, ok) := Room(t.store, l, Keys(op.scope));
    NewTokenKeepsInv(t, p, l, ttl, op.scope, op.token);
    assert IsLive(p, k, y) == IsLive(t.store, k, y);
    AddAllLive(p, op.scope, op.token, ttl, k, y);
  }

  /** A renewal succeeds exactly for a live lease and then moves its expiry in all four sets, and only its. */
  lemma RenewIsExact(w: World, l: Limits, ttl: nat, op: Op, k: Key, y: Token)
    requires Reachable(w, l, ttl) && op.Renew? && Possible(w, op)
    ensures var now, d, ok := w.store.(clock := op.now), Step(w, l, ttl, op).0.store, Step(w, l, ttl, op).1;
            && (ok <==> IsLive(now, Global, op.token))
            && (!ok ==> d == now)
            && (ok && y == op.token && k in Keys(w.owner[y]) ==> IsLive(d, k, y) && Members(d, k)[y] == op.now + ttl)
            && (y != op.token ==> IsLive(d, k, y) == IsLive(now, k, y))
            && (y != op.token && IsLive(d, k, y) ==> Members(d, k)[y] == Members(now, k)[y])
  {
    hide Reachable, Inv, Of, Keys, Members, AddAll, IsLive, Distinct;
    ReachableInv(w, l, ttl);
    TickKeepsInv(w, l, ttl, op.now);
    var t := w.(store := w.store.(clock := op.now));
    InvInStep(t, l, ttl);
    RenewTest(t, ttl, op.token);
    ScopeKeys(w.owner[op.token]);
    AddAllLive(t.store, w.owner[op.token], op.token, ttl, k, y);
  }

  ghost predicate Dead(w: World, x: Token) {
    x in w.owner && forall k :: !IsLive(w.store, k, x)
  }

  lemma StepLeavesDead(w: World, l: Limits, ttl: nat, op: Op, x: Token)
    requires Inv(w, l, ttl) && Possible(w, op) && ttl > 0 && Dead(w, x)
    ensures Dead(Step(w, l, ttl, op).0, x)
  {
    forall k ensures !IsLive(Step(w, l, ttl, op).0.store, k, x) {
      StepLeavesDeadAt(w, l, ttl, op, x, k);
    }
  }

  lemma StepLeavesDeadAt(w: World, l: Limits, ttl: nat, op: Op, x: Token, k: Key)
    requires Inv(w, l, ttl) && Possible(w, op) && ttl > 0 && Dead(w, x)
    ensures !IsLive(Step(w, l, ttl, op).0.store, k, x)
  {
    hide Inv, Of, Keys, Members, AddAll, RemoveAll, Room, Filed, Bounded, InStep, Live, Limit, Distinct, AllHaveRoom;
    var t := w.(store := w.store.(clock := op.now));
    TickKeepsInv(w, l, ttl, op.now);
    InvInStep(t, l, ttl);
    assert !IsLive(t.store, k, x) && !IsLive(t.store, Global, x);
    match op
    case Tick(_) =>
    case Acquire(_, sc, y) =>
      ScopeKeys(sc);
      RoomIsExact(t, l, ttl, Keys(sc));
      AddAllLive(Room(t.store, l, Keys(sc)).0, sc, y, ttl, k, x);
    case Renew(_, y) =>
      RenewTest(t, ttl, y);
      AddAllLive(t.store, t.owner[y], y, ttl, k, x);
    case Release(_, y) => RemoveAllLive(t.store, t.owner[y], y, k, x);
  }

  /** A lease that expired or was released never comes back: no later renewal of it succeeds. */
  lemma {:induction false} DeadStaysDead(w: World, l: Limits, ttl: nat, ops: seq<Op>, x: Token)
    requires Inv(w, l, ttl) && Feasible(w, l, ttl, ops) && ttl > 0 && Dead(w, x)
    ensures Dead(Exec(w, l, ttl, ops), x)
    ensures forall now :: Possible(Exec(w, l, ttl, ops), Renew(now, x)) ==>
              !Step(Exec(w, l, ttl, ops), l, ttl, Renew(now, x)).1
  {
    if ops == [] {
    } else {
      FeasibleFront(w, l, ttl, ops);
      DeadStaysDead(w, l, ttl, Front(ops), x);
      RunKeepsInv(w, l, ttl, Front(ops));
      StepLeavesDead(Exec(w, l, ttl, Front(ops)), l, ttl, Last(ops), x);
    }
    RunKeepsInv(w, l, ttl, ops);
    var d := Exec(w, l, ttl, ops);
    forall now | Possible(d, Renew(now, x)) ensures !Step(d, l, ttl, Renew(now, x)).1 {
      TickKeepsInv(d, l, ttl, now);
      RenewTest(d.(store := d.store.(clock := now)), ttl, x);
      assert !IsLive(d.store, Global, x);
    }
  }

  /** A release ends its own lease and no other. */
  lemma ReleaseIsExact(w: World, l: Limits, ttl: nat, op: Op)
    requires Reachable(w, l, ttl) && op.Release? && Possible(w, op)
    ensures Dead(Step(w, l, ttl, op).0, op.token)
    ensures forall k, y :: y != op.token ==>
              IsLive(Step(w, l, ttl, op).0.store, k, y) == IsLive(w.store.(clock := op.now), k, y)
  {
    ReachableInv(w, l, ttl);
    TickKeepsInv(w, l, ttl, op.now);
    var s := w.store.(clock := op.now);
    forall k, y ensures (y == op.token ==> !IsLive(Step(w, l, ttl, op).0.store, k, y))
                     && (y != op.token ==> IsLive(Step(w, l, ttl, op).0.store, k, y) == IsLive(s, k, y))
    {
      RemoveAllLive(s, w.owner[op.token], op.token, k, y);
    }
  }
}
