/**
 The tenant connection pool: the critical sections of the manager as functions on its
 state, and a class whose methods run them in place.
 */
module TenantPool {
  import opened Wrappers

  type Handle = nat
  type Caller = nat

  const PREFIX := "saas_tenant_"

  predicate ValidName(name: string) {
    && |name| > |PREFIX|
    && name[..|PREFIX|] == PREFIX
    && forall i :: |PREFIX| <= i < |name| ==>
         'a' <= name[i] <= 'z' || '0' <= name[i] <= '9' || name[i] == '_'
  }

  datatype Entry = Entry(db: Handle, lastUsed: int, inUse: int)

  /** `closed` counts the calls of closeDB on each handle. */
  datatype Manager = Manager(pools: map<string, Entry>, maxPools: int, closed: multiset<Handle>)

  predicate Idle(pools: map<string, Entry>, name: string) {
    name in pools && pools[name].inUse <= 0
  }

  /** `v` is an entry the LRU eviction may choose: none only if every entry is in use. */
  ghost predicate LruChoice(pools: map<string, Entry>, v: Option<string>) {
    match v
    case None => forall n :: n in pools ==> !Idle(pools, n)
    case Some(name) =>
      && Idle(pools, name)
      && forall n :: Idle(pools, n) ==> pools[name].lastUsed <= pools[n].lastUsed
  }

  // ---- the critical sections, as functions ----

  function Use(m: Manager, name: string, now: int): Manager
    requires name in m.pools
  {
    var e := m.pools[name];
    m.(pools := m.pools[name := e.(lastUsed := now, inUse := e.inUse + 1)])
  }

  function Evict(m: Manager, name: string): Manager
    requires name in m.pools
  {
    m.(pools := m.pools - {name}, closed := m.closed + multiset{m.pools[name].db})
  }

  predicate AtCapacity(m: Manager) {
    m.maxPools > 0 && |m.pools| >= m.maxPools
  }

  function MakeRoom(m: Manager, v: Option<string>): Manager
    requires v.Some? ==> v.value in m.pools
  {
    if AtCapacity(m) && v.Some? then Evict(m, v.value) else m
  }

  /** The second critical section of acquire, after the flight ended. */
  function Land(m: Manager, name: string, db: Handle, shared: bool, now: int, v: Option<string>): Manager
    requires v.Some? ==> v.value in m.pools
  {
    if name in m.pools then
      Use(if shared then m else m.(closed := m.closed + multiset{db}), name, now)
    else
      var r := MakeRoom(m, v);
      r.(pools := r.pools[name := Entry(db, now, 1)])
  }

  function Released(m: Manager, name: string): Manager {
    if name in m.pools && m.pools[name].inUse > 0 then
      var e := m.pools[name];
      m.(pools := m.pools[name := e.(inUse := e.inUse - 1)])
    else m
  }

  /** Entries the idle evictor drops. */
  function Expired(pools: map<string, Entry>, cutoff: int): set<string> {
    set n | n in pools && Stale(pools[n], cutoff)
  }

  predicate Stale(e: Entry, cutoff: int) {
    e.inUse <= 0 && e.lastUsed < cutoff
  }

  ghost function HandlesOf(pools: map<string, Entry>, names: set<string>): multiset<Handle>
    requires names <= pools.Keys
  {
    if names == {} then multiset{} else
      var n :| n in names;
      HandlesOf(pools, names - {n}) + multiset{pools[n].db}
  }

  ghost function IdleEvicted(m: Manager, cutoff: int): Manager {
    var x := Expired(m.pools, cutoff);
    m.(pools := m.pools - x, closed := m.closed + HandlesOf(m.pools, x))
  }

  lemma {:induction false} HandlesOfRemove(pools: map<string, Entry>, names: set<string>, n: string)
    requires names <= pools.Keys && n in names
    ensures HandlesOf(pools, names) == HandlesOf(pools, names - {n}) + multiset{pools[n].db}
    decreases names
  {
    var k :| k in names && HandlesOf(pools, names) == HandlesOf(pools, names - {k}) + multiset{pools[k].db};
    if k != n {
      HandlesOfRemove(pools, names - {k}, n);
      HandlesOfRemove(pools, names - {n}, k);
      assert names - {k} - {n} == names - {n} - {k};
    }
  }

  /** One entry more is dropped, and its handle is closed on top of `before`. */
  lemma DropOne(pools: map<string, Entry>, gone: set<string>, n: string, before: multiset<Handle>)
    requires gone <= pools.Keys && n in pools && n !in gone
    ensures (pools - gone) - {n} == pools - (gone + {n})
    ensures before + HandlesOf(pools, gone) + multiset{pools[n].db} == before + HandlesOf(pools, gone + {n})
  {
    HandlesOfRemove(pools, gone + {n}, n);
    assert gone + {n} - {n} == gone;
    hide HandlesOf;
    var more := multiset{pools[n].db};
    assert before + HandlesOf(pools, gone) + more == before + (HandlesOf(pools, gone) + more);
  }

  lemma {:induction false} HandlesOfMember(pools: map<string, Entry>, names: set<string>, h: Handle)
    requires names <= pools.Keys && h in HandlesOf(pools, names)
    ensures exists n :: n in names && pools[n].db == h
    decreases names
  {
    var n :| n in names && HandlesOf(pools, names) == HandlesOf(pools, names - {n}) + multiset{pools[n].db};
    if pools[n].db != h {
      HandlesOfMember(pools, names - {n}, h);
    }
  }

  // ---- the manager object ----

  class TenantDBManager {
    var pools: map<string, Entry>
    var closed: multiset<Handle>
    const maxPools: int

    constructor (maxPools: int)
      ensures State() == Manager(map[], maxPools, multiset{})
    {
      this.maxPools := maxPools;
      pools := map[];
      closed := multiset{};
    }

    function State(): Manager
      reads this
    {
      Manager(pools, maxPools, closed)
    }

    /** First critical section of acquire: the pool hit. */
    method AcquireHit(name: string, now: int) returns (h: Option<Handle>)
      modifies this
      ensures h.Some? <==> ValidName(name) && name in old(pools)
      ensures h.Some? ==> h.value == old(pools)[name].db && State() == Use(old(State()), name, now)
      ensures h.None? ==> State() == old(State())
    {
      if !ValidName(name) {
        return None;
      }
      if name in pools {
        var e := pools[name];
        pools := pools[name := e.(lastUsed := now, inUse := e.inUse + 1)];
        return Some(e.db);
      }
      return None;
    }

    /** Second critical section of acquire. */
    method AcquireLand(name: string, db: Handle, shared: bool, now: int) returns (h: Handle)
      requires "" !in pools
      modifies this
      ensures exists v :: LruChoice(old(pools), v) && State() == Land(old(State()), name, db, shared, now, v)
      ensures h == if name in old(pools) then old(pools)[name].db else db
      ensures name in pools && pools[name].db == h && pools[name].lastUsed == now
      ensures pools[name].inUse == if name in old(pools) then old(pools)[name].inUse + 1 else 1
    {
      ghost var v: Option<string> := LruExists(pools);
      if name in pools {
        if !shared {
          closed := closed + multiset{db};
        }
        var e := pools[name];
        pools := pools[name := e.(lastUsed := now, inUse := e.inUse + 1)];
        assert State() == Land(old(State()), name, db, shared, now, v);
        return e.db;
      }
      if maxPools > 0 && |pools| >= maxPools {
        v := EvictLRULocked();
      }
      pools := pools[name := Entry(db, now, 1)];
      assert State() == Land(old(State()), name, db, shared, now, v);
      return db;
    }

    /** Scans the entries in some order; the empty name means that no idle entry was seen yet. */
    method EvictLRULocked() returns (victim: Option<string>)
      requires "" !in pools
      modifies this
      ensures LruChoice(old(pools), victim)
      ensures State() == if victim.Some? then Evict(old(State()), victim.value) else old(State())
    {
      var oldestName, oldest := "", 0;
      var rest := pools.Keys;
      while rest != {}
        invariant rest <= pools.Keys && State() == old(State())
        invariant oldestName == "" ==> forall n :: n in pools.Keys - rest ==> !Idle(pools, n)
        invariant oldestName != "" ==>
          && Idle(pools, oldestName)
          && oldest == pools[oldestName].lastUsed
          && forall n :: n in pools.Keys - rest && Idle(pools, n) ==> oldest <= pools[n].lastUsed
        decreases rest
      {
        var name :| name in rest;
        rest := rest - {name};
        if pools[name].inUse > 0 {
          continue;
        }
        if oldestName == "" || pools[name].lastUsed < oldest {
          oldestName, oldest := name, pools[name].lastUsed;
        }
      }
      if oldestName == "" {
        return None;
      }
      closed := closed + multiset{pools[oldestName].db};
      pools := pools - {oldestName};
      return Some(oldestName);
    }

    method Release(name: string)
      modifies this
      ensures State() == Released(old(State()), name)
    {
      if name !in pools {
        return;
      }
      var cur := pools[name].inUse;
      if cur <= 0 {
        return;
      }
      pools := pools[name := pools[name].(inUse := cur - 1)];
    }

    /** One round of Remove's waiting loop; `done` ends the loop. */
    method TryRemove(name: string) returns (done: bool)
      modifies this
      ensures done <==> name !in old(pools) || old(pools)[name].inUse == 0
      ensures State() == if done && name in old(pools) then Evict(old(State()), name) else old(State())
    {
      if name !in pools {
        return true;
      }
      if pools[name].inUse == 0 {
        closed := closed + multiset{pools[name].db};
        pools := pools - {name};
        return true;
      }
      return false;
    }

    /** Walks the map in some order, deleting while it walks. */
    method EvictIdle(cutoff: int)
      modifies this
      ensures State() == IdleEvicted(old(State()), cutoff)
    {
      ghost var all := pools;
      ghost var gone: set<string> := {};
      assert HandlesOf(all, gone) == multiset{};
      hide HandlesOf, Stale;
      var rest := pools.Keys;
      while rest != {}
        invariant rest <= all.Keys && gone <= all.Keys && gone !! rest
        invariant forall n :: n in all.Keys - rest ==> (n in gone <==> Stale(all[n], cutoff))
        invariant pools == all - gone
        invariant closed == old(closed) + HandlesOf(all, gone)
        decreases rest
      {
        var name :| name in rest;
        var e := pools[name];
        if Stale(e, cutoff) {
          DropOne(all, gone, name, old(closed));
          closed := closed + multiset{e.db};
          pools := pools - {name};
          gone := gone + {name};
        }
        rest := rest - {name};
      }
      assert gone == Expired(all, cutoff);
    }
  }

  /** Some choice always exists. */
  lemma {:induction false} LruExists(pools: map<string, Entry>) returns (v: Option<string>)
    ensures LruChoice(pools, v)
    decreases |pools|
  {
    if n :| n in pools {
      var w := LruExists(pools - {n});
      var p := pools - {n};
      assert forall k :: Idle(pools, k) <==> (k == n && Idle(pools, n)) || Idle(p, k);
      if w.None? {
        v := if Idle(pools, n) then Some(n) else None;
      } else {
        v := if Idle(pools, n) && pools[n].lastUsed < pools[w.value].lastUsed then Some(n) else w;
      }
    } else {
      v := None;
    }
  }
}
