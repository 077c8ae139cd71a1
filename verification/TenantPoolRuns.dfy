/**
 Callers, flights and evictors interleaved over one manager. A step is one critical
 section of the manager, or the end of a flight.
 */
module TenantPoolRuns {
  import opened Wrappers
  import opened TenantPool

  /** Where a caller of acquire is; a caller that is not in the map is outside. */
  datatype Pc =
    | Missed(name: string, now: int)
    | Flying(name: string, now: int)
    | Landed(name: string, now: int, db: Handle, shared: bool)
    | Holding(name: string, db: Handle)

  /** How a handle came to be: the name it was opened for and whether its flight was shared. */
  datatype Origin = Origin(name: string, shared: bool)

  datatype Sys = Sys(
    m: Manager,
    callers: map<Caller, Pc>,
    origin: map<Handle, Origin>,
    peak: nat)

  datatype Action =
    | Start(c: Caller, name: string, now: int)
    | Join(c: Caller)
    | FlightLands(name: string, db: Handle)
    | FlightFails(name: string)
    | Insert(c: Caller, v: Option<string>)
    | Release(c: Caller)
    | IdleTick(cutoff: int)
    | Remove(name: string)

  function Passengers(callers: map<Caller, Pc>, name: string): set<Caller> {
    set c | c in callers && callers[c].Flying? && callers[c].name == name
  }

  function Holders(callers: map<Caller, Pc>, name: string): set<Caller> {
    set c | c in callers && callers[c].Holding? && callers[c].name == name
  }

  function Busy(pools: map<string, Entry>): set<string> {
    set n | n in pools && pools[n].inUse > 0
  }

  ghost predicate Enabled(s: Sys, a: Action) {
    match a
    case Start(c, name, _) => c !in s.callers && ValidName(name)
    case Join(c) => c in s.callers && s.callers[c].Missed?
    case FlightLands(name, db) => Passengers(s.callers, name) != {} && db !in s.origin
    case FlightFails(name) => Passengers(s.callers, name) != {}
    case Insert(c, v) => c in s.callers && s.callers[c].Landed? && LruChoice(s.m.pools, v)
    case Release(c) => c in s.callers && s.callers[c].Holding?
    case IdleTick(_) => true
    case Remove(name) => name in s.m.pools && s.m.pools[name].inUse == 0
  }

  function Boarded(callers: map<Caller, Pc>, name: string, db: Handle): map<Caller, Pc> {
    var aboard := Passengers(callers, name);
    map c | c in callers ::
      if c in aboard then Landed(name, callers[c].now, db, |aboard| > 1) else callers[c]
  }

  function To(s: Sys, m: Manager, callers: map<Caller, Pc>): Sys {
    Sys(m, callers, s.origin, Max(s.peak, |Busy(m.pools)|))
  }

  ghost function Next(s: Sys, a: Action): Sys
    requires Enabled(s, a)
  {
    match a
    case Start(c, name, now) =>
      if name in s.m.pools
      then To(s, Use(s.m, name, now), s.callers[c := Holding(name, s.m.pools[name].db)])
      else To(s, s.m, s.callers[c := Missed(name, now)])
    case Join(c) => s.(callers := s.callers[c := Flying(s.callers[c].name, s.callers[c].now)])
    case FlightLands(name, db) =>
      var shared := |Passengers(s.callers, name)| > 1;
      s.(callers := Boarded(s.callers, name, db), origin := s.origin[db := Origin(name, shared)])
    case FlightFails(name) =>
      s.(callers := s.callers - Passengers(s.callers, name))
    case Insert(c, v) =>
      var pc := s.callers[c];
      var m := Land(s.m, pc.name, pc.db, pc.shared, pc.now, v);
      To(s, m, s.callers[c := Holding(pc.name, m.pools[pc.name].db)])
    case Release(c) =>
      To(s, Released(s.m, s.callers[c].name), s.callers - {c})
    case IdleTick(cutoff) =>
      To(s, IdleEvicted(s.m, cutoff), s.callers)
    case Remove(name) =>
      To(s, Evict(s.m, name), s.callers)
  }

  ghost predicate Reaches(s: Sys, actions: seq<Action>, t: Sys)
    decreases |actions|
  {
    if actions == [] then s == t
    else Enabled(s, actions[0]) && Reaches(Next(s, actions[0]), actions[1..], t)
  }

  function Init(maxPools: int): Sys {
    Sys(Manager(map[], maxPools, multiset{}), map[], map[], 0)
  }

  // ---- what every reachable state satisfies ----

  /** Every entry counts the holders of its name and keeps a handle opened for it. */
  ghost predicate PoolsCounted(pools: map<string, Entry>, callers: map<Caller, Pc>, origin: map<Handle, Origin>) {
    forall n :: n in pools ==>
      && ValidName(n)
      && pools[n].inUse == |Holders(callers, n)|
      && pools[n].db in origin
      && origin[pools[n].db].name == n
  }

  ghost predicate Placed(pools: map<string, Entry>, pc: Pc, origin: map<Handle, Origin>) {
    match pc
    case Missed(n, _) => ValidName(n)
    case Flying(n, _) => ValidName(n)
    case Landed(n, _, h, sh) => ValidName(n) && h in origin && origin[h] == Origin(n, sh)
    case Holding(n, h) => n in pools && pools[n].db == h
  }

  ghost predicate Counted(s: Sys) {
    && PoolsCounted(s.m.pools, s.callers, s.origin)
    && (forall c :: c in s.callers ==> Placed(s.m.pools, s.callers[c], s.origin))
    && (forall h :: h in s.m.closed ==> h in s.origin)
  }

  predicate InPool(s: Sys, h: Handle) {
    exists n :: n in s.m.pools && s.m.pools[n].db == h
  }

  predicate Carries(s: Sys, c: Caller, h: Handle) {
    c in s.callers && s.callers[c].Landed? && s.callers[c].db == h
  }

  /** Exactly one of: in the pool, owned by one caller, closed once. */
  ghost predicate OwnedOnce(s: Sys, h: Handle) {
    || (InPool(s, h) && s.m.closed[h] == 0 && forall c :: !Carries(s, c, h))
    || (!InPool(s, h) && s.m.closed[h] == 1 && forall c :: !Carries(s, c, h))
    || (!InPool(s, h) && s.m.closed[h] == 0 &&
        exists c :: Carries(s, c, h) && forall d :: Carries(s, d, h) ==> d == c)
  }

  ghost predicate Owned(s: Sys) {
    forall h :: h in s.origin && !s.origin[h].shared ==> OwnedOnce(s, h)
  }

  predicate Bounded(s: Sys) {
    && |Busy(s.m.pools)| <= s.peak
    && (s.m.maxPools > 0 ==> |s.m.pools| <= Max(s.m.maxPools, s.peak))
  }

  lemma HolderJoins(callers: map<Caller, Pc>, c: Caller, n: string, db: Handle, k: string)
    requires c in callers ==> !callers[c].Holding?
    ensures |Holders(callers[c := Holding(n, db)], k)| == |Holders(callers, k)| + if k == n then 1 else 0
  {
    assert c !in Holders(callers, k);
    assert Holders(callers[c := Holding(n, db)], k) == Holders(callers, k) + if k == n then {c} else {};
  }

  lemma JoinCounted(p: map<string, Entry>, q: map<string, Entry>, callers: map<Caller, Pc>,
                    origin: map<Handle, Origin>, c: Caller, n: string)
    requires PoolsCounted(p, callers, origin)
    requires c in callers ==> !callers[c].Holding?
    requires n in q && q == p[n := q[n]] && ValidName(n)
    requires n in p ==> q[n].db == p[n].db && q[n].inUse == p[n].inUse + 1
    requires n !in p ==> q[n].inUse == 1 && q[n].db in origin && origin[q[n].db].name == n && Holders(callers, n) == {}
    ensures PoolsCounted(q, callers[c := Holding(n, q[n].db)], origin)
  {
    forall k | k in q
      ensures q[k].inUse == |Holders(callers[c := Holding(n, q[n].db)], k)|
    {
      HolderJoins(callers, c, n, q[n].db, k);
    }
  }

  lemma CountedStart(s: Sys, c: Caller, name: string, now: int)
    requires Counted(s) && Enabled(s, Start(c, name, now))
    ensures Counted(Next(s, Start(c, name, now)))
  {
    var t := Next(s, Start(c, name, now));
    if name in s.m.pools {
      JoinCounted(s.m.pools, t.m.pools, s.callers, s.origin, c, name);
    } else {
      forall n | n in t.m.pools
        ensures Holders(t.callers, n) == Holders(s.callers, n)
      {}
    }
  }

  lemma CountedFlight(s: Sys, a: Action)
    requires Counted(s) && (a.Join? || a.FlightLands? || a.FlightFails?) && Enabled(s, a)
    ensures Counted(Next(s, a))
  {
    var t := Next(s, a);
    forall n | n in t.m.pools
      ensures Holders(t.callers, n) == Holders(s.callers, n)
    {}
  }

  /** Dropping idle entries keeps the counts, and no holder loses its entry. */
  lemma DropCounted(p: map<string, Entry>, callers: map<Caller, Pc>, origin: map<Handle, Origin>, gone: set<string>)
    requires PoolsCounted(p, callers, origin)
    requires forall c :: c in callers ==> Placed(p, callers[c], origin)
    requires forall n :: n in gone ==> Idle(p, n)
    ensures PoolsCounted(p - gone, callers, origin)
    ensures forall c :: c in callers ==> Placed(p - gone, callers[c], origin)
    ensures forall n, c :: n in gone && c in callers && callers[c].Holding? ==>
              n in p && callers[c].name != n && callers[c].db != p[n].db
  {
    forall n, c | n in gone && c in callers && callers[c].Holding?
      ensures n in p && callers[c].name != n && callers[c].db != p[n].db
    {
      assert Holders(callers, n) == {};
      assert c !in Holders(callers, n);
    }
  }

  lemma CountedInsertHit(s: Sys, c: Caller, v: Option<string>)
    requires Counted(s) && Enabled(s, Insert(c, v)) && s.callers[c].name in s.m.pools
    ensures Counted(Next(s, Insert(c, v)))
  {
    hide ValidName, Busy, Holders, LruChoice;
    var t := Next(s, Insert(c, v));
    assert Placed(s.m.pools, s.callers[c], s.origin);
    JoinCounted(s.m.pools, t.m.pools, s.callers, s.origin, c, s.callers[c].name);
    hide PoolsCounted;
  }

  lemma RoomCounted(s: Sys, v: Option<string>)
    requires Counted(s) && LruChoice(s.m.pools, v)
    ensures var m := MakeRoom(s.m, v);
            && PoolsCounted(m.pools, s.callers, s.origin)
            && (forall c :: c in s.callers ==> Placed(m.pools, s.callers[c], s.origin))
            && (forall h :: h in m.closed ==> h in s.origin)
  {
    hide ValidName, Holders;
    if v.Some? {
      DropCounted(s.m.pools, s.callers, s.origin, {v.value});
    }
  }

  lemma CountedInsertMiss(s: Sys, c: Caller, v: Option<string>)
    requires Counted(s) && Enabled(s, Insert(c, v)) && s.callers[c].name !in s.m.pools
    ensures Counted(Next(s, Insert(c, v)))
  {
    hide ValidName, Busy;
    assert v.Some? ==> v.value in s.m.pools;
    hide LruChoice;
    var t := Next(s, Insert(c, v));
    var pc := s.callers[c];
    assert Placed(s.m.pools, pc, s.origin);
    assert Holders(s.callers, pc.name) == {};
    RoomCounted(s, v);
    hide Holders, MakeRoom, PoolsCounted;
    JoinCounted(MakeRoom(s.m, v).pools, t.m.pools, s.callers, s.origin, c, pc.name);
  }

  lemma CountedInsert(s: Sys, c: Caller, v: Option<string>)
    requires Counted(s) && Enabled(s, Insert(c, v))
    ensures Counted(Next(s, Insert(c, v)))
  {
    hide Counted, Next;
    if s.callers[c].name in s.m.pools {
      CountedInsertHit(s, c, v);
    } else {
      CountedInsertMiss(s, c, v);
    }
  }

  lemma HolderLeaves(callers: map<Caller, Pc>, c: Caller, k: string)
    requires c in callers && callers[c].Holding?
    ensures |Holders(callers - {c}, k)| == |Holders(callers, k)| - if k == callers[c].name then 1 else 0
    ensures |Holders(callers, callers[c].name)| > 0
  {
    assert c in Holders(callers, callers[c].name);
    assert Holders(callers - {c}, k) == Holders(callers, k) - {c};
  }

  lemma CountedRelease(s: Sys, c: Caller)
    requires Counted(s) && Enabled(s, Release(c))
    ensures Counted(Next(s, Release(c)))
    ensures s.callers[c].name in s.m.pools && s.m.pools[s.callers[c].name].inUse > 0
  {
    hide ValidName, Busy, Holders;
    var t := Next(s, Release(c));
    assert Placed(s.m.pools, s.callers[c], s.origin);
    HolderLeaves(s.callers, c, s.callers[c].name);
    forall n | n in t.m.pools
      ensures t.m.pools[n].inUse == |Holders(t.callers, n)|
    {
      HolderLeaves(s.callers, c, n);
    }
  }

  lemma CountedEvict(s: Sys, a: Action)
    requires Counted(s) && (a.IdleTick? || a.Remove?) && Enabled(s, a)
    ensures Counted(Next(s, a))
  {
    var gone := if a.Remove? then {a.name} else Expired(s.m.pools, a.cutoff);
    DropCounted(s.m.pools, s.callers, s.origin, gone);
    forall h | h in Next(s, a).m.closed
      ensures h in s.origin
    {
      if h !in s.m.closed && a.IdleTick? {
        HandlesOfMember(s.m.pools, gone, h);
      }
    }
  }

  lemma CountedStep(s: Sys, a: Action)
    requires Counted(s) && Enabled(s, a)
    ensures Counted(Next(s, a))
  {
    match a
    case Start(c, name, now) => CountedStart(s, c, name, now);
    case Join(_) => CountedFlight(s, a);
    case FlightLands(_, _) => CountedFlight(s, a);
    case FlightFails(_) => CountedFlight(s, a);
    case Insert(c, v) => CountedInsert(s, c, v);
    case Release(c) => CountedRelease(s, c);
    case IdleTick(_) => CountedEvict(s, a);
    case Remove(_) => CountedEvict(s, a);
  }

  // ---- ownership of handles ----

  lemma InPoolByName(s: Sys, h: Handle)
    requires Counted(s) && h in s.origin
    ensures InPool(s, h) <==> s.origin[h].name in s.m.pools && s.m.pools[s.origin[h].name].db == h
  {}

  /** The handles closed by dropping entries, one close for each entry. */
  lemma {:induction false} DroppedOnce(s: Sys, gone: set<string>, h: Handle)
    requires PoolsCounted(s.m.pools, s.callers, s.origin) && gone <= s.m.pools.Keys
    ensures HandlesOf(s.m.pools, gone)[h] ==
            if h in s.origin && s.origin[h].name in gone && s.m.pools[s.origin[h].name].db == h then 1 else 0
    decreases gone
  {
    if gone != {} {
      var n :| n in gone;
      HandlesOfRemove(s.m.pools, gone, n);
      DroppedOnce(s, gone - {n}, h);
    }
  }

  lemma OwnedEvict(s: Sys, a: Action, h: Handle)
    requires Counted(s) && h in s.origin && OwnedOnce(s, h)
    requires (a.IdleTick? || a.Remove?) && Enabled(s, a) && Counted(Next(s, a))
    ensures OwnedOnce(Next(s, a), h)
  {
    var t := Next(s, a);
    var gone := if a.Remove? then {a.name} else Expired(s.m.pools, a.cutoff);
    DroppedOnce(s, gone, h);
    InPoolByName(s, h);
    InPoolByName(t, h);
    assert forall c :: Carries(t, c, h) <==> Carries(s, c, h);
  }

  lemma OwnedFlight(s: Sys, a: Action, h: Handle)
    requires Counted(s) && Owned(s) && (a.FlightLands? || a.FlightFails?) && Enabled(s, a)
    requires h in Next(s, a).origin && !Next(s, a).origin[h].shared
    ensures OwnedOnce(Next(s, a), h)
  {
    var t := Next(s, a);
    assert InPool(t, h) <==> InPool(s, h);
    if h in s.origin {
      assert forall c :: Carries(t, c, h) <==> Carries(s, c, h);
    } else {
      var aboard := Passengers(s.callers, a.name);
      assert forall c :: Carries(t, c, h) <==> c in aboard;
      var c :| c in aboard;
      assert |aboard - {c}| == 0;
      assert aboard == {c};
      assert Carries(t, c, h);
    }
  }

  lemma OwnedInsertHit(s: Sys, c: Caller, v: Option<string>, h: Handle)
    requires Counted(s) && Enabled(s, Insert(c, v)) && s.callers[c].name in s.m.pools
    requires h in s.origin && !s.origin[h].shared && OwnedOnce(s, h)
    ensures OwnedOnce(Next(s, Insert(c, v)), h)
  {
    var t := Next(s, Insert(c, v));
    assert InPool(t, h) <==> InPool(s, h) by {
      assert forall n :: n in t.m.pools <==> n in s.m.pools;
      assert forall n :: n in t.m.pools ==> t.m.pools[n].db == s.m.pools[n].db;
    }
    assert forall d :: Carries(t, d, h) <==> Carries(s, d, h) && d != c;
    if s.callers[c].db == h {
      assert Carries(s, c, h);
    }
  }

  lemma OwnedInsertMiss(s: Sys, c: Caller, v: Option<string>, h: Handle)
    requires Counted(s) && Enabled(s, Insert(c, v)) && s.callers[c].name !in s.m.pools
    requires h in s.origin && !s.origin[h].shared && OwnedOnce(s, h)
    ensures OwnedOnce(Next(s, Insert(c, v)), h)
  {
    hide ValidName, Busy, Holders;
    var t := Next(s, Insert(c, v));
    var pc := s.callers[c];
    var n := s.origin[h].name;
    var evicts := AtCapacity(s.m) && v.Some?;
    assert t.m.closed[h] == s.m.closed[h] + if evicts && s.m.pools[v.value].db == h then 1 else 0;
    assert InPool(s, h) <==> n in s.m.pools && s.m.pools[n].db == h;
    assert Placed(s.m.pools, pc, s.origin);
    assert t.m.pools == (if evicts then s.m.pools - {v.value} else s.m.pools)[pc.name := Entry(pc.db, pc.now, 1)];
    assert InPool(t, h) <==> (n in t.m.pools && t.m.pools[n].db == h);
    assert forall d :: Carries(t, d, h) <==> Carries(s, d, h) && d != c;
    if pc.db == h {
      assert Carries(s, c, h);
      assert forall d :: !Carries(t, d, h);
    } else if evicts && s.m.pools[v.value].db == h {
      assert v.value == n && !InPool(t, h);
    }
  }

  lemma OwnedQuiet(s: Sys, a: Action, h: Handle)
    requires Counted(s) && Enabled(s, a) && (a.Start? || a.Join? || a.Release?)
    requires h in s.origin && OwnedOnce(s, h)
    ensures OwnedOnce(Next(s, a), h)
  {
    var t := Next(s, a);
    assert forall n :: n in t.m.pools <==> n in s.m.pools;
    assert forall n :: n in t.m.pools ==> t.m.pools[n].db == s.m.pools[n].db;
    assert InPool(t, h) <==> InPool(s, h);
    assert forall c :: Carries(t, c, h) <==> Carries(s, c, h);
  }

  lemma SameOrigin(s: Sys, a: Action)
    requires Enabled(s, a) && !a.FlightLands?
    ensures Next(s, a).origin == s.origin
  {}

  lemma OwnedStep(s: Sys, a: Action)
    requires Counted(s) && Owned(s) && Enabled(s, a)
    ensures Owned(Next(s, a))
  {
    hide Next, Counted, OwnedOnce;
    CountedStep(s, a);
    forall h | h in Next(s, a).origin && !Next(s, a).origin[h].shared
      ensures OwnedOnce(Next(s, a), h)
    {
      if a.FlightLands? || a.FlightFails? {
        OwnedFlight(s, a, h);
      } else {
        SameOrigin(s, a);
        match a
        case Insert(c, v) =>
          if s.callers[c].name in s.m.pools {
            OwnedInsertHit(s, c, v, h);
          } else {
            OwnedInsertMiss(s, c, v, h);
          }
        case Start(_, _, _) => OwnedQuiet(s, a, h);
        case Join(_) => OwnedQuiet(s, a, h);
        case Release(_) => OwnedQuiet(s, a, h);
        case _ => OwnedEvict(s, a, h);
      }
    }
  }

  // ---- the number of open pools ----

  lemma SubsetSize<T>(a: set<T>, b: set<T>)
    requires a <= b
    ensures |a| <= |b|
  {
    assert |b - a| == |b| - |a|;
  }

  /** A pool that grows beyond the limit has no idle entry. */
  lemma RoomBounded(m: Manager, n: string, e: Entry, v: Option<string>, peak: nat)
    requires n !in m.pools && LruChoice(m.pools, v) && e.inUse > 0
    requires m.maxPools > 0 ==> |m.pools| <= Max(m.maxPools, peak)
    ensures var p := MakeRoom(m, v).pools[n := e];
            m.maxPools > 0 ==> |p| <= Max(m.maxPools, Max(peak, |Busy(p)|))
  {
    var p := MakeRoom(m, v).pools[n := e];
    if AtCapacity(m) && v.None? {
      assert Busy(p) == p.Keys;
    } else if AtCapacity(m) {
      assert p.Keys == m.pools.Keys - {v.value} + {n};
    } else {
      assert p.Keys == m.pools.Keys + {n};
    }
  }

  lemma BoundedStep(s: Sys, a: Action)
    requires Bounded(s) && Enabled(s, a)
    ensures Bounded(Next(s, a))
  {
    var t := Next(s, a);
    match a
    case Insert(c, v) =>
      var pc := s.callers[c];
      if pc.name in s.m.pools {
        assert t.m.pools.Keys == s.m.pools.Keys;
        assert |t.m.pools| == |s.m.pools|;
      } else {
        RoomBounded(s.m, pc.name, Entry(pc.db, pc.now, 1), v, s.peak);
      }
    case _ =>
      SubsetSize(t.m.pools.Keys, s.m.pools.Keys);
      assert |t.m.pools| <= |s.m.pools|;
  }

  lemma SameLimit(s: Sys, a: Action)
    requires Enabled(s, a)
    ensures Next(s, a).m.maxPools == s.m.maxPools
  {}

  ghost predicate Inv(s: Sys) {
    Counted(s) && Owned(s) && Bounded(s)
  }

  lemma {:induction false} RunsKeepInv(s: Sys, actions: seq<Action>, t: Sys)
    requires Inv(s) && Reaches(s, actions, t)
    ensures Inv(t)
    ensures t.m.maxPools == s.m.maxPools
    decreases |actions|
  {
    hide Next, Enabled, Counted, Owned, Bounded;
    if actions != [] {
      CountedStep(s, actions[0]);
      OwnedStep(s, actions[0]);
      BoundedStep(s, actions[0]);
      SameLimit(s, actions[0]);
      RunsKeepInv(Next(s, actions[0]), actions[1..], t);
    }
  }

  lemma InvAtStart(maxPools: int)
    ensures Inv(Init(maxPools))
  {}

  // ---- main results, over every run ----

  /** The counter of an entry is the number of its current holders, and they hold its handle. */
  lemma RefCountIsHolders(maxPools: int, run: seq<Action>, t: Sys, name: string)
    requires Reaches(Init(maxPools), run, t)
    ensures name in t.m.pools ==> t.m.pools[name].inUse == |Holders(t.callers, name)|
    ensures forall c :: c in Holders(t.callers, name) ==>
              name in t.m.pools && t.callers[c].db == t.m.pools[name].db
  {
    RunsKeepInv(Init(maxPools), run, t);
  }

  /** A release finds its entry with a positive counter, so neither early return is taken. */
  lemma ReleaseFindsItsEntry(maxPools: int, run: seq<Action>, t: Sys, c: Caller)
    requires Reaches(Init(maxPools), run, t) && Enabled(t, Release(c))
    ensures t.callers[c].name in t.m.pools && t.m.pools[t.callers[c].name].inUse > 0
  {
    RunsKeepInv(Init(maxPools), run, t);
    CountedRelease(t, c);
  }

  /** Neither before nor after the step does a caller hold `h`. */
  ghost predicate Spared(s: Sys, a: Action, h: Handle)
    requires Enabled(s, a)
  {
    && (forall c :: c in s.callers && s.callers[c].Holding? ==> s.callers[c].db != h)
    && (forall c :: c in Next(s, a).callers && Next(s, a).callers[c].Holding? ==> Next(s, a).callers[c].db != h)
  }

  lemma InsertSparesHeld(s: Sys, c: Caller, v: Option<string>, h: Handle)
    requires Counted(s) && Owned(s) && Enabled(s, Insert(c, v))
    requires Next(s, Insert(c, v)).m.closed[h] > s.m.closed[h]
    ensures Spared(s, Insert(c, v), h)
  {
    hide ValidName, Holders, Busy;
    var pc := s.callers[c];
    assert Placed(s.m.pools, pc, s.origin);
    if pc.name in s.m.pools {
      assert Carries(s, c, h) && OwnedOnce(s, h);
    } else {
      DropCounted(s.m.pools, s.callers, s.origin, {v.value});
    }
  }

  lemma EvictSparesHeld(s: Sys, a: Action, h: Handle)
    requires Counted(s) && (a.IdleTick? || a.Remove?) && Enabled(s, a)
    requires Next(s, a).m.closed[h] > s.m.closed[h]
    ensures Spared(s, a, h)
  {
    hide ValidName, Holders, Busy;
    var gone := if a.Remove? then {a.name} else Expired(s.m.pools, a.cutoff);
    DropCounted(s.m.pools, s.callers, s.origin, gone);
    if a.IdleTick? {
      assert h in HandlesOf(s.m.pools, gone);
      HandlesOfMember(s.m.pools, gone, h);
    }
  }

  lemma OthersCloseNothing(s: Sys, a: Action)
    requires Enabled(s, a) && !a.Insert? && !a.IdleTick? && !a.Remove?
    ensures Next(s, a).m.closed == s.m.closed
  {}

  /** No step closes a handle that a caller holds before or after it. */
  lemma StepSparesHeldHandles(maxPools: int, run: seq<Action>, s: Sys, a: Action, h: Handle)
    requires Reaches(Init(maxPools), run, s) && Enabled(s, a)
    requires Next(s, a).m.closed[h] > s.m.closed[h]
    ensures forall c :: c in s.callers && s.callers[c].Holding? ==> s.callers[c].db != h
    ensures forall c :: c in Next(s, a).callers && Next(s, a).callers[c].Holding? ==> Next(s, a).callers[c].db != h
  {
    hide Reaches, Next, Enabled, Counted, Owned, Bounded;
    InvAtStart(maxPools);
    RunsKeepInv(Init(maxPools), run, s);
    match a
    case Insert(c, v) => InsertSparesHeld(s, c, v, h);
    case IdleTick(_) => EvictSparesHeld(s, a, h);
    case Remove(_) => EvictSparesHeld(s, a, h);
    case _ => OthersCloseNothing(s, a);
  }

  /** A handle opened by an unshared flight is in one place only, whatever the other flights do. */
  lemma UnsharedHandleOwnedOnce(maxPools: int, run: seq<Action>, t: Sys, h: Handle)
    requires Reaches(Init(maxPools), run, t) && h in t.origin && !t.origin[h].shared
    ensures OwnedOnce(t, h)
  {
    RunsKeepInv(Init(maxPools), run, t);
  }

  /** A closed handle that the pool still offers or a caller still holds came from a shared flight. */
  lemma ClosedAndUsedIsShared(maxPools: int, run: seq<Action>, t: Sys, h: Handle)
    requires Reaches(Init(maxPools), run, t) && t.m.closed[h] > 0
    requires InPool(t, h) || exists c :: c in t.callers && t.callers[c].Holding? && t.callers[c].db == h
    ensures h in t.origin && t.origin[h].shared
  {
    RunsKeepInv(Init(maxPools), run, t);
    assert InPool(t, h);
    assert OwnedOnce(t, h) || t.origin[h].shared;
  }

  lemma {:induction false} ReachesAppend(s: Sys, run: seq<Action>, t: Sys, a: Action)
    requires Reaches(s, run, t) && Enabled(t, a)
    ensures Reaches(s, run + [a], Next(t, a))
    decreases |run|
  {
    hide Next, Enabled;
    if run == [] {
      assert run + [a] == [a] && [a][1..] == [];
      assert Reaches(Next(t, a), [], Next(t, a));
    } else {
      ReachesAppend(Next(s, run[0]), run[1..], t, a);
      assert (run + [a])[0] == run[0] && (run + [a])[1..] == run[1..] + [a];
    }
  }

  /** One more step, keeping what holds of every reachable state. */
  lemma Then(s: Sys, run: seq<Action>, t: Sys, a: Action) returns (more: seq<Action>, u: Sys)
    requires Reaches(s, run, t) && Enabled(t, a) && Counted(t)
    ensures u == Next(t, a) && Reaches(s, more, u) && Counted(u)
  {
    hide Next, Enabled, Counted, Reaches;
    more, u := run + [a], Next(t, a);
    ReachesAppend(s, run, t, a);
    CountedStep(t, a);
  }

  /** `c` and `d` have yet to insert the same handle. */
  predicate BothLanded(s: Sys, c: Caller, d: Caller, name: string, db: Handle) {
    c != d && Lands(s, c, name, db) && Lands(s, d, name, db)
  }

  predicate Lands(s: Sys, c: Caller, name: string, db: Handle) {
    c in s.callers && s.callers[c].Landed? && s.callers[c].name == name && s.callers[c].db == db
  }

  lemma HolderReleases(t: Sys, h: Caller, name: string)
    requires Counted(t) && h in Holders(t.callers, name)
    ensures Enabled(t, Release(h))
    ensures var u := Next(t, Release(h));
            && Holders(u.callers, name) == Holders(t.callers, name) - {h}
            && forall x, n, db :: Lands(t, x, n, db) ==> Lands(u, x, n, db)
  {
    hide Counted;
  }

  /** The holders of a name release it one after the other. */
  lemma {:induction false} HoldersDrain(s: Sys, run: seq<Action>, t: Sys, c: Caller, d: Caller, name: string, db: Handle)
    returns (more: seq<Action>, u: Sys)
    requires Reaches(s, run, t) && Counted(t) && BothLanded(t, c, d, name, db)
    ensures Reaches(s, more, u) && Counted(u) && BothLanded(u, c, d, name, db) && Holders(u.callers, name) == {}
    decreases |Holders(t.callers, name)|
  {
    hide Reaches, Counted, Next, Enabled, Holders;
    if h :| h in Holders(t.callers, name) {
      HolderReleases(t, h, name);
      more, u := Then(s, run, t, Release(h));
      more, u := HoldersDrain(s, more, u, c, d, name, db);
    } else {
      more, u := run, t;
    }
  }

  lemma IdleEntryGoes(t: Sys, name: string)
    requires Counted(t) && Holders(t.callers, name) == {} && name in t.m.pools
    ensures Enabled(t, Remove(name))
    ensures var u := Next(t, Remove(name));
            && u.callers == t.callers && name !in u.m.pools
            && u.m.closed[t.m.pools[name].db] > 0 && forall h :: t.m.closed[h] > 0 ==> u.m.closed[h] > 0
  {}

  lemma MissInserts(t: Sys, c: Caller, v: Option<string>)
    requires Enabled(t, Insert(c, v)) && t.callers[c].name !in t.m.pools && Holders(t.callers, t.callers[c].name) == {}
    ensures var u := Next(t, Insert(c, v)); var pc := t.callers[c];
            && u.callers == t.callers[c := Holding(pc.name, pc.db)]
            && Holders(u.callers, pc.name) == {c}
            && pc.name in u.m.pools && u.m.pools[pc.name].db == pc.db
            && forall h :: t.m.closed[h] > 0 ==> u.m.closed[h] > 0
  {}

  /** The name's entry is gone, and the two callers still have to insert. */
  lemma EntryGoes(s: Sys, run: seq<Action>, t: Sys, c: Caller, d: Caller, name: string, db: Handle)
    returns (more: seq<Action>, u: Sys)
    requires Reaches(s, run, t) && Counted(t) && BothLanded(t, c, d, name, db)
    ensures Reaches(s, more, u) && Counted(u) && BothLanded(u, c, d, name, db)
    ensures Holders(u.callers, name) == {} && name !in u.m.pools
  {
    more, u := HoldersDrain(s, run, t, c, d, name, db);
    hide Reaches, Counted, Next, Enabled, Holders;
    if name in u.m.pools {
      IdleEntryGoes(u, name);
      more, u := Then(s, more, u, Remove(name));
    }
  }

  /** One waiter inserts the handle, releases it and is evicted: the handle is closed. */
  lemma FirstWaiterComesAndGoes(s: Sys, run: seq<Action>, t: Sys, c: Caller, d: Caller, name: string, db: Handle)
    returns (more: seq<Action>, u: Sys)
    requires Reaches(s, run, t) && Counted(t) && BothLanded(t, c, d, name, db)
    requires Holders(t.callers, name) == {} && name !in t.m.pools
    ensures Reaches(s, more, u) && Counted(u) && Lands(u, d, name, db)
    ensures Holders(u.callers, name) == {} && name !in u.m.pools && u.m.closed[db] > 0
  {
    hide Reaches, Counted, Next, Holders, LruChoice;
    var v := LruExists(t.m.pools);
    MissInserts(t, c, v);
    more, u := Then(s, run, t, Insert(c, v));
    assert Lands(u, d, name, db);
    ReleaseKeepsHandles(u, c);
    HolderReleases(u, c, name);
    more, u := Then(s, more, u, Release(c));
    assert Lands(u, d, name, db);
    IdleEntryGoes(u, name);
    more, u := Then(s, more, u, Remove(name));
  }

  lemma ReleaseKeepsHandles(t: Sys, c: Caller)
    requires Enabled(t, Release(c))
    ensures var u := Next(t, Release(c));
            u.m.pools.Keys == t.m.pools.Keys && forall n :: n in t.m.pools ==> u.m.pools[n].db == t.m.pools[n].db
  {}

  /** Every shared flight can go wrong: while two of its waiters have yet to insert, a run hands one a closed handle. */
  lemma SharedFlightCanReturnClosedHandle(maxPools: int, run: seq<Action>, s: Sys, c: Caller, d: Caller,
                                          name: string, db: Handle)
    requires Reaches(Init(maxPools), run, s) && BothLanded(s, c, d, name, db)
    ensures exists more, t :: Reaches(s, more, t) && d in t.callers && t.callers[d] == Holding(name, db)
                              && t.m.closed[db] > 0
  {
    hide Counted, Owned, Bounded, Next, LruChoice, Holders;
    InvAtStart(maxPools);
    RunsKeepInv(Init(maxPools), run, s);
    assert Reaches(s, [], s);
    hide Reaches;
    var more, t := EntryGoes(s, [], s, c, d, name, db);
    more, t := FirstWaiterComesAndGoes(s, more, t, c, d, name, db);
    var w := LruExists(t.m.pools);
    MissInserts(t, d, w);
    more, t := Then(s, more, t, Insert(d, w));
  }

  /** Pools over the limit are only pools that were in use at the same time. */
  lemma PoolsNeverExceedPeak(maxPools: int, run: seq<Action>, t: Sys)
    requires maxPools > 0 && Reaches(Init(maxPools), run, t)
    ensures |t.m.pools| <= Max(maxPools, t.peak)
  {
    RunsKeepInv(Init(maxPools), run, t);
  }
}
