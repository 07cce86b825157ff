/**
 Distributed admission leases (core/runtime/distributed_admission.py): three scripts over four
 sorted sets kept by one Redis server, whose clock stamps every script.
 */
module Admission {
  import opened Common

  datatype Scope = Scope(tenant: string, project: string, user: string)

  /** The digests keep different scopes apart, so a key is its scope. */
  datatype Key =
    | Global
    | Tenant(tenant: string)
    | User(tenant: string, user: string)
    | Project(tenant: string, project: string)

  type Token = nat

  /** A sorted set and the time at which the whole key expires. */
  datatype Zset = Zset(scores: map<Token, int>, expireAt: int)

  datatype Store = Store(clock: int, sets: map<Key, Zset>)

  datatype Limits = Limits(all: nat, tenant: nat, user: nat, project: nat)

  function Keys(sc: Scope): seq<Key> {
    [Global, Tenant(sc.tenant), User(sc.tenant, sc.user), Project(sc.tenant, sc.project)]
  }

  /** Whether a key is one of the four of a scope. */
  predicate Of(k: Key, sc: Scope) {
    match k
    case Global => true
    case Tenant(t) => t == sc.tenant
    case User(t, u) => t == sc.tenant && u == sc.user
    case Project(t, p) => t == sc.tenant && p == sc.project
  }

  function Limit(l: Limits, k: Key): nat {
    match k
    case Global => l.all
    case Tenant(_) => l.tenant
    case User(_, _) => l.user
    case Project(_, _) => l.project
  }

  // ---------- Redis commands ----------

  /** What a command sees under a key: nothing once the key has expired. */
  function Members(s: Store, k: Key): map<Token, int> {
    if k in s.sets && s.clock < s.sets[k].expireAt then s.sets[k].scores else map[]
  }

  /** ZREMRANGEBYSCORE -inf now; a set left empty loses its key. */
  function Purge(s: Store, k: Key): Store {
    var kept := map x | x in Members(s, k) && Members(s, k)[x] > s.clock :: Members(s, k)[x];
    if kept == map[] then s.(sets := s.sets - {k}) else s.(sets := s.sets[k := Zset(kept, s.sets[k].expireAt)])
  }

  /** ZADD followed by PEXPIRE. */
  function Add(s: Store, k: Key, x: Token, score: int, expireAt: int): Store {
    s.(sets := s.sets[k := Zset(Members(s, k)[x := score], expireAt)])
  }

  /** ZREM: the key's own expiry is not touched. */
  function Remove(s: Store, k: Key, x: Token): Store {
    var left := Members(s, k) - {x};
    if left == map[] then s.(sets := s.sets - {k}) else s.(sets := s.sets[k := Zset(left, s.sets[k].expireAt)])
  }

  // ---------- Scripts ----------

  /** The first loop of the acquire script: purge each set in turn, stop at the first full one. */
  function Room(s: Store, l: Limits, keys: seq<Key>): (Store, bool)
    decreases |keys|
  {
    if keys == [] then (s, true)
    else
      var p := Purge(s, keys[0]);
      if |Members(p, keys[0])| >= Limit(l, keys[0]) then (p, false) else Room(p, l, keys[1..])
  }

  function AddAll(s: Store, keys: seq<Key>, x: Token, score: int, expireAt: int): Store
    decreases |keys|
  {
    if keys == [] then s else AddAll(Add(s, keys[0], x, score, expireAt), keys[1..], x, score, expireAt)
  }

  function RemoveAll(s: Store, keys: seq<Key>, x: Token): Store
    decreases |keys|
  {
    if keys == [] then s else RemoveAll(Remove(s, keys[0], x), keys[1..], x)
  }

  function AcquireScript(s: Store, l: Limits, ttl: nat, keys: seq<Key>, x: Token): (Store, bool) {
    var (p, ok) := Room(s, l, keys);
    if ok then (AddAll(p, keys, x, s.clock + ttl, s.clock + 2 * ttl), true) else (p, false)
  }

  predicate IsLive(s: Store, k: Key, x: Token) {
    x in Members(s, k) && Members(s, k)[x] > s.clock
  }

  function RenewScript(s: Store, ttl: nat, keys: seq<Key>, x: Token): (Store, bool) {
    if exists i | 0 <= i < |keys| :: !IsLive(s, keys[i], x) then (s, false)
    else (AddAll(s, keys, x, s.clock + ttl, s.clock + 2 * ttl), true)
  }

  // ---------- Runs ----------

  /** Every script the server may execute; holders may renew and release as late as they like. */
  datatype Op =
    | Tick(now: int)
    | Acquire(now: int, scope: Scope, token: Token)
    | Renew(now: int, token: Token)
    | Release(now: int, token: Token)

  /** `owner` records for which scope a token was generated. */
  datatype World = World(store: Store, owner: map<Token, Scope>)

  /** The server clock never goes back, tokens are fresh, and only holders of a token use it. */
  predicate Possible(w: World, op: Op) {
    && w.store.clock <= op.now
    && match op
       case Tick(_) => true
       case Acquire(_, _, x) => x !in w.owner
       case Renew(_, x) => x in w.owner
       case Release(_, x) => x in w.owner
  }

  function Step(w: World, l: Limits, ttl: nat, op: Op): (World, bool) {
    var s := w.store.(clock := op.now);
    match op
    case Tick(_) => (w.(store := s), true)
    case Acquire(_, sc, x) =>
      var (s', ok) := AcquireScript(s, l, ttl, Keys(sc), x);
      (World(s', w.owner[x := sc]), ok)
    case Renew(_, x) =>
      if x !in w.owner then (w.(store := s), false)
      else var (s', ok) := RenewScript(s, ttl, Keys(w.owner[x]), x); (w.(store := s'), ok)
    case Release(_, x) =>
      if x !in w.owner then (w.(store := s), true) else (w.(store := RemoveAll(s, Keys(w.owner[x]), x)), true)
  }

  const START := World(Store(0, map[]), map[])

  function Exec(w: World, l: Limits, ttl: nat, ops: seq<Op>): World {
    if ops == [] then w else Step(Exec(w, l, ttl, Front(ops)), l, ttl, Last(ops)).0
  }

  ghost predicate Feasible(w: World, l: Limits, ttl: nat, ops: seq<Op>) {
    forall i :: 0 <= i < |ops| ==> Possible(Exec(w, l, ttl, ops[..i]), ops[i])
  }
}
