/** The admission server, the admission front end and the permits it hands out, updated in place. */
module TurnAdmission {
  import opened Common
  import opened Admission
  import opened AdmissionProofs

  /** What became of a remote call: it ran and answered, it never ran, or it ran and the answer was lost. */
  datatype Delivery = Delivered | RequestLost | ReplyLost

  datatype Error = Unavailable | CapacityExceeded

  predicate ValidConfig(l: Limits, ttl: nat) {
    && 1 <= l.all <= 10000 && 1 <= l.tenant <= 10000 && 1 <= l.user <= 10000 && 1 <= l.project <= 10000
    && l.tenant <= l.all && l.user <= l.tenant && l.project <= l.tenant
    && 5000 <= ttl <= 120000
  }

  class Server {
    var store: Store

    constructor ()
      ensures store == START.store
    {
      store := Store(0, map[]);
    }

    /** Purge and test each set in turn, then add the token to all of them. */
    method Acquire(now: int, l: Limits, ttl: nat, keys: seq<Key>, x: Token) returns (reply: int)
      modifies this
      ensures reply == if AcquireScript(old(store).(clock := now), l, ttl, keys, x).1 then 1 else 0
      ensures store == AcquireScript(old(store).(clock := now), l, ttl, keys, x).0
    {
      store := store.(clock := now);
      ghost var start := store;
      for i := 0 to |keys|
        invariant Room(start, l, keys) == Room(store, l, keys[i..])
        invariant store.clock == now
      {
        assert keys[i..][0] == keys[i] && keys[i..][1..] == keys[i + 1..];
        store := Purge(store, keys[i]);
        if |Members(store, keys[i])| >= Limit(l, keys[i]) {
          return 0;
        }
      }
      ghost var purged := store;
      for i := 0 to |keys|
        invariant AddAll(purged, keys, x, now + ttl, now + 2 * ttl)
               == AddAll(store, keys[i..], x, now + ttl, now + 2 * ttl)
      {
        assert keys[i..][0] == keys[i] && keys[i..][1..] == keys[i + 1..];
        store := Add(store, keys[i], x, now + ttl, now + 2 * ttl);
      }
      return 1;
    }

    /** Test the score in every set before touching any of them. */
    method Renew(now: int, ttl: nat, keys: seq<Key>, x: Token) returns (reply: int)
      modifies this
      ensures reply == if RenewScript(old(store).(clock := now), ttl, keys, x).1 then 1 else 0
      ensures store == RenewScript(old(store).(clock := now), ttl, keys, x).0
    {
      store := store.(clock := now);
      ghost var start := store;
      for i := 0 to |keys|
        invariant store == start && forall j :: 0 <= j < i ==> IsLive(start, keys[j], x)
      {
        if !IsLive(store, keys[i], x) {
          return 0;
        }
      }
      for i := 0 to |keys|
        invariant AddAll(start, keys, x, now + ttl, now + 2 * ttl)
               == AddAll(store, keys[i..], x, now + ttl, now + 2 * ttl)
      {
        assert keys[i..][0] == keys[i] && keys[i..][1..] == keys[i + 1..];
        store := Add(store, keys[i], x, now + ttl, now + 2 * ttl);
      }
      return 1;
    }

    method Release(now: int, keys: seq<Key>, x: Token)
      modifies this
      ensures store == RemoveAll(old(store).(clock := now), keys, x)
    {
      store := store.(clock := now);
      ghost var start := store;
      for i := 0 to |keys|
        invariant RemoveAll(start, keys, x) == RemoveAll(store, keys[i..], x)
      {
        assert keys[i..][0] == keys[i] && keys[i..][1..] == keys[i + 1..];
        store := Remove(store, keys[i], x);
      }
    }
  }

  class Permit {
    const server: Server
    const ttl: nat
    const scope: Scope
    const token: Token
    var released: bool

    constructor (server: Server, ttl: nat, scope: Scope, token: Token)
      ensures this.server == server && this.ttl == ttl && this.scope == scope && this.token == token && !released
    {
      this.server, this.ttl, this.scope, this.token, released := server, ttl, scope, token, false;
    }

    /** A released permit answers false without calling the server. */
    method Renew(now: int, delivery: Delivery) returns (r: Result<bool, Error>)
      modifies server
      ensures released ==> r == Ok(false) && server.store == old(server.store)
      ensures !released ==>
                var (s, ok) := RenewScript(old(server.store).(clock := now), ttl, Keys(scope), token);
                && server.store == (if delivery == RequestLost then old(server.store) else s)
                && r == (if delivery == Delivered then Ok(ok) else Err(Unavailable))
    {
      if released {
        return Ok(false);
      }
      if delivery == RequestLost {
        return Err(Unavailable);
      }
      var reply := server.Renew(now, ttl, Keys(scope), token);
      return if delivery == Delivered then Ok(reply == 1) else Err(Unavailable);
    }

    /** Marks the permit released only once the server has answered; a failed call may be repeated. */
    method Release(now: int, delivery: Delivery) returns (r: Result<(), Error>)
      modifies this, server
      ensures old(released) ==> released && r == Ok(()) && server.store == old(server.store)
      ensures !old(released) ==>
                && server.store == (if delivery == RequestLost then old(server.store)
                                    else RemoveAll(old(server.store).(clock := now), Keys(scope), token))
                && (released <==> delivery == Delivered)
                && r == (if delivery == Delivered then Ok(()) else Err(Unavailable))
    {
      if released {
        return Ok(());
      }
      if delivery == RequestLost {
        return Err(Unavailable);
      }
      server.Release(now, Keys(scope), token);
      if delivery == ReplyLost {
        return Err(Unavailable);
      }
      released := true;
      return Ok(());
    }
  }

  class TurnAdmission {
    const server: Server
    const limits: Limits
    const ttl: nat

    constructor (server: Server, limits: Limits, ttl: nat)
      requires ValidConfig(limits, ttl)
      ensures this.server == server && this.limits == limits && this.ttl == ttl
    {
      this.server, this.limits, this.ttl := server, limits, ttl;
    }

    /** A permit exists only for a granted and answered request; an unanswered one may still hold a lease. */
    method Acquire(now: int, scope: Scope, token: Token, delivery: Delivery) returns (r: Result<Permit, Error>)
      modifies server
      ensures var (s, ok) := AcquireScript(old(server.store).(clock := now), limits, ttl, Keys(scope), token);
              && server.store == (if delivery == RequestLost then old(server.store) else s)
              && (r.Ok? <==> delivery == Delivered && ok)
              && (r.Err? ==> r.error == if delivery == Delivered then CapacityExceeded else Unavailable)
      ensures r.Ok? ==> fresh(r.value) && !r.value.released && r.value.server == server
                        && (r.value.ttl, r.value.scope, r.value.token) == (ttl, scope, token)
    {
      if delivery == RequestLost {
        return Err(Unavailable);
      }
      var reply := server.Acquire(now, limits, ttl, Keys(scope), token);
      if delivery == ReplyLost {
        return Err(Unavailable);
      }
      if reply != 1 {
        return Err(CapacityExceeded);
      }
      var permit := new Permit(server, ttl, scope, token);
      return Ok(permit);
    }
  }
}
