/** When a pool was last used: over any run, by the times at which callers entered acquire. */
module TenantPoolClock {
  import opened Wrappers
  import opened TenantPool
  import opened TenantPoolRuns

  datatype Entrance = Entrance(name: string, now: int)

  /** What each caller asked for and when it entered, and when the last caller to get each pool had entered. */
  datatype Clock = Clock(entered: map<Caller, Entrance>, used: map<string, int>)

  /** A caller gets a pool by finding it on entering, or by inserting after its flight. */
  ghost function Noted(k: Clock, s: Sys, a: Action): Clock
    requires Enabled(s, a)
  {
    match a
    case Start(c, name, now) =>
      Clock(k.entered[c := Entrance(name, now)], if name in s.m.pools then k.used[name := now] else k.used)
    case Insert(c, _) =>
      if c in k.entered then k.(used := k.used[k.entered[c].name := k.entered[c].now]) else k
    case _ => k
  }

  ghost function ClockAfter(k: Clock, s: Sys, run: seq<Action>): Clock
    decreases |run|
  {
    if run == [] || !Enabled(s, run[0]) then k else ClockAfter(Noted(k, s, run[0]), Next(s, run[0]), run[1..])
  }

  const UNUSED: Clock := Clock(map[], map[])

  /** For each pool, the time at which the last caller to get it had entered. */
  ghost function LastUses(maxPools: int, run: seq<Action>): map<string, int> {
    ClockAfter(UNUSED, Init(maxPools), run).used
  }

  ghost predicate EntriesDated(s: Sys, k: Clock) {
    forall n :: n in s.m.pools ==> n in k.used && s.m.pools[n].lastUsed == k.used[n]
  }

  ghost predicate CallersDated(s: Sys, k: Clock) {
    forall c :: c in s.callers && !s.callers[c].Holding? ==>
      c in k.entered && k.entered[c] == Entrance(s.callers[c].name, s.callers[c].now)
  }

  lemma EntriesStayDated(s: Sys, a: Action, k: Clock)
    requires EntriesDated(s, k) && CallersDated(s, k) && Enabled(s, a)
    ensures EntriesDated(Next(s, a), Noted(k, s, a))
  {
    hide ValidName, Busy, Passengers;
  }

  lemma CallersStayDated(s: Sys, a: Action, k: Clock)
    requires CallersDated(s, k) && Enabled(s, a)
    ensures CallersDated(Next(s, a), Noted(k, s, a))
  {}

  lemma {:induction false} RunsAreDated(s: Sys, run: seq<Action>, t: Sys, k: Clock)
    requires EntriesDated(s, k) && CallersDated(s, k) && Reaches(s, run, t)
    ensures EntriesDated(t, ClockAfter(k, s, run))
    decreases |run|
  {
    hide Next, Enabled, Noted, EntriesDated, CallersDated;
    if run != [] {
      EntriesStayDated(s, run[0], k);
      CallersStayDated(s, run[0], k);
      RunsAreDated(Next(s, run[0]), run[1..], t, Noted(k, s, run[0]));
    }
  }

  // ---- main results, over every run ----

  /** The use time of an entry is the time at which the last caller to find or insert it had entered. */
  lemma LastUsedIsLastEntrance(maxPools: int, run: seq<Action>, t: Sys, name: string)
    requires Reaches(Init(maxPools), run, t) && name in t.m.pools
    ensures name in LastUses(maxPools, run) && t.m.pools[name].lastUsed == LastUses(maxPools, run)[name]
  {
    RunsAreDated(Init(maxPools), run, t, UNUSED);
  }

  /** The step drops `name`: a removal, an idle tick after its last use, or an eviction to make room. */
  ghost predicate Drops(t: Sys, a: Action, name: string, lastUse: int)
    requires Enabled(t, a)
  {
    match a
    case Remove(n) => n == name
    case IdleTick(cutoff) => lastUse < cutoff
    case Insert(c, v) => t.callers[c].name !in t.m.pools && 0 < t.m.maxPools <= |t.m.pools| && v == Some(name)
    case _ => false
  }

  /** Exactly when a step drops a pool: nobody holds it, and the step removes it, finds it idle too long, or evicts it. */
  lemma PoolDropsIff(maxPools: int, run: seq<Action>, t: Sys, a: Action, name: string)
    requires Reaches(Init(maxPools), run, t) && Enabled(t, a) && name in t.m.pools
    ensures name in LastUses(maxPools, run)
    ensures name !in Next(t, a).m.pools <==>
            Holders(t.callers, name) == {} && Drops(t, a, name, LastUses(maxPools, run)[name])
  {
    LastUsedIsLastEntrance(maxPools, run, t, name);
    RunsKeepInv(Init(maxPools), run, t);
    assert Holders(t.callers, name) == {} <==> t.m.pools[name].inUse == 0;
    hide Reaches, Inv, Next, Holders, LastUses;
    if a.Insert? {
      InsertDropsIff(t, a.c, a.v, name);
    } else {
      OtherStepDropsIff(t, a, name);
    }
  }

  lemma InsertDropsIff(t: Sys, c: Caller, v: Option<string>, name: string)
    requires Enabled(t, Insert(c, v)) && name in t.m.pools
    ensures name !in Next(t, Insert(c, v)).m.pools <==>
            t.m.pools[name].inUse <= 0 && Drops(t, Insert(c, v), name, t.m.pools[name].lastUsed)
  {
    hide Busy;
  }

  lemma OtherStepDropsIff(t: Sys, a: Action, name: string)
    requires Enabled(t, a) && !a.Insert? && name in t.m.pools
    ensures name !in Next(t, a).m.pools <==> t.m.pools[name].inUse <= 0 && Drops(t, a, name, t.m.pools[name].lastUsed)
  {
    hide Busy, ValidName, HandlesOf;
  }

  /**
   The eviction to make room takes the pool that was used longest ago among those nobody holds, whether they were
   last found or inserted; it takes none exactly if all are held.
   */
  lemma EvictsLeastRecentlyUsed(maxPools: int, run: seq<Action>, t: Sys, v: Option<string>)
    requires Reaches(Init(maxPools), run, t) && LruChoice(t.m.pools, v)
    ensures v.None? <==> forall n :: n in t.m.pools ==> Holders(t.callers, n) != {}
    ensures v.Some? ==>
              && v.value in t.m.pools && v.value in LastUses(maxPools, run) && Holders(t.callers, v.value) == {}
              && forall n :: n in t.m.pools && Holders(t.callers, n) == {} ==>
                   n in LastUses(maxPools, run) && LastUses(maxPools, run)[v.value] <= LastUses(maxPools, run)[n]
  {
    forall n | n in t.m.pools
      ensures n in LastUses(maxPools, run) && t.m.pools[n].lastUsed == LastUses(maxPools, run)[n]
    {
      LastUsedIsLastEntrance(maxPools, run, t, n);
    }
    RunsKeepInv(Init(maxPools), run, t);
    assert forall n :: n in t.m.pools ==> (Holders(t.callers, n) == {} <==> Idle(t.m.pools, n));
    hide Reaches, Counted, Owned, Bounded, Holders, LastUses;
  }

  /** The pool used last, by a hit or an insertion, outlives idle ticks up to its use and is evicted only if nothing else is idle. */
  lemma RecentUseSurvives(maxPools: int, run: seq<Action>, t: Sys, name: string, cutoff: int, v: Option<string>)
    requires Reaches(Init(maxPools), run, t) && name in t.m.pools && LruChoice(t.m.pools, v)
    requires var used := LastUses(maxPools, run);
             name in used && forall n :: n in t.m.pools && n != name && n in used ==> used[n] < used[name]
    ensures cutoff <= LastUses(maxPools, run)[name] ==> name in Next(t, IdleTick(cutoff)).m.pools
    ensures v == Some(name) ==> forall n :: n in t.m.pools && n != name ==> Holders(t.callers, n) != {}
  {
    hide Reaches, Next, Holders, LastUses, LruChoice;
    PoolDropsIff(maxPools, run, t, IdleTick(cutoff), name);
    EvictsLeastRecentlyUsed(maxPools, run, t, v);
  }

  /** Every pool is named by the prefix and at least one more character, all of them lower-case letters, digits or '_'. */
  lemma PoolNamesAreSafe(maxPools: int, run: seq<Action>, t: Sys, name: string)
    requires Reaches(Init(maxPools), run, t) && name in t.m.pools
    ensures "saas_tenant_" < name
    ensures forall i :: 0 <= i < |name| ==> name[i] in "abcdefghijklmnopqrstuvwxyz0123456789_"
  {
    RunsKeepInv(Init(maxPools), run, t);
    assert ValidName(name);
    hide Reaches, Inv;
    SafeCharacters(name);
  }

  lemma SafeCharacters(name: string)
    requires ValidName(name)
    ensures forall i :: 0 <= i < |name| ==> name[i] in "abcdefghijklmnopqrstuvwxyz0123456789_"
  {
    forall i | 0 <= i < |name|
      ensures name[i] in "abcdefghijklmnopqrstuvwxyz0123456789_"
    {
      if i < |PREFIX| {
        assert name[i] == PREFIX[i];
      } else if 'a' <= name[i] <= 'z' {
        LetterAt(name[i]);
      }
    }
  }

  lemma LetterAt(c: char)
    requires 'a' <= c <= 'z'
    ensures c in "abcdefghijklmnopqrstuvwxyz0123456789_"
  {
    var k := c as int - 'a' as int;
    assert "abcdefghijklmnopqrstuvwxyz0123456789_"[k] == c;
  }
}
