/**
 Migration workers interleaved, one statement on the registry a step: what a worker does between its lease and its
 last update, drift reconciliations, administrators, and migrations that take no lease.
 */
module FleetRuns {
  import opened Wrappers
  import opened FleetLease

  /**
   Where a worker of MigrateFleetOne is: migrating under its lease; synced and about to release; released after an
   error, or refused the lease, and about to record the failure; or with the attempt count already read.
   */
  datatype Worker =
    | Working(tenant: nat, until: int)
    | Marked(tenant: nat)
    | Failed(tenant: nat)
    | Counting(tenant: nat, attempts: int, at: int)

  datatype Sys = Sys(rows: map<nat, Row>, live: map<nat, Worker>, now: int)

  datatype Action =
    | Acquire(p: nat, t: nat, worker: string, lease: nat)
    | Sync(p: nat, proven: int, target: int)
    | Release(p: nat, failed: bool)
    | Count(p: nat)
    | Fail(p: nat)
    | Crash(p: nat)
    | Reconcile(t: nat, proven: int, target: int, drift: bool)
    | Bump(target: int)
    | Recover
    | Override(t: nat, pause: bool, retry: bool)
    | FailUnleased(t: nat)
    | SyncUnleased(t: nat, proven: int, target: int)
    | Tick(d: nat)

  predicate At(s: Sys, p: nat) {
    p in s.live && s.live[p].tenant in s.rows
  }

  predicate Works(s: Sys, p: nat) {
    At(s, p) && s.live[p].Working?
  }

  predicate Enabled(s: Sys, a: Action) {
    match a
    case Acquire(p, t, _, _) => p !in s.live && t in s.rows
    case Sync(p, _, _) => Works(s, p)
    case Release(p, failed) => At(s, p) && (s.live[p].Working? || (s.live[p].Marked? && !failed))
    case Count(p) => At(s, p) && s.live[p].Failed?
    case Fail(p) => At(s, p) && s.live[p].Counting?
    case Crash(p) => p in s.live
    case Reconcile(t, _, _, _) => t in s.rows
    case Override(t, _, _) => t in s.rows
    case FailUnleased(t) => t in s.rows
    case SyncUnleased(t, _, _) => t in s.rows
    case _ => true
  }

  function Next(s: Sys, a: Action): Sys
    requires Enabled(s, a)
  {
    match a
    case Acquire(p, t, worker, lease) =>
      if LockFree(s.rows[t], s.now) then
        s.(rows := s.rows[t := Leased(s.rows[t], worker, s.now + lease)], live := s.live[p := Working(t, s.now + lease)])
      else s.(live := s.live[p := Worker.Failed(t)])
    case Sync(p, proven, target) =>
      var t := s.live[p].tenant;
      s.(rows := s.rows[t := Synced(s.rows[t], proven, ProvenStatus(proven, target))], live := s.live[p := Marked(t)])
    case Release(p, failed) =>
      var t := s.live[p].tenant;
      s.(rows := s.rows[t := Released(s.rows[t])], live := if failed then s.live[p := Worker.Failed(t)] else s.live - {p})
    case Count(p) =>
      var t := s.live[p].tenant;
      s.(live := s.live[p := Counting(t, s.rows[t].attempts, s.now)])
    case Fail(p) =>
      var x := s.live[p];
      s.(rows := s.rows[x.tenant := MarkedFailed(s.rows[x.tenant], x.attempts + 1, x.at)], live := s.live - {p})
    case Crash(p) => s.(live := s.live - {p})
    case Reconcile(t, proven, target, drift) => s.(rows := s.rows[t := Reconciled(s.rows[t], proven, target, drift)])
    case Bump(target) => s.(rows := map t | t in s.rows :: Bumped(s.rows[t], target))
    case Recover => s.(rows := map t | t in s.rows :: Recovered(s.rows[t], s.now))
    case Override(t, pause, retry) =>
      s.(rows := s.rows[t := Overridden(s.rows[t], if pause then Paused else Pending, retry)])
    case FailUnleased(t) => s.(rows := s.rows[t := MarkedFailed(s.rows[t], s.rows[t].attempts + 1, s.now)])
    case SyncUnleased(t, proven, target) =>
      s.(rows := s.rows[t := Synced(s.rows[t], proven, ProvenStatus(proven, target))])
    case Tick(d) => s.(now := s.now + d)
  }

  ghost predicate Reaches(s: Sys, run: seq<Action>, t: Sys)
    decreases |run|
  {
    if run == [] then s == t else Enabled(s, run[0]) && Reaches(Next(s, run[0]), run[1..], t)
  }

  // ---- one worker per tenant ----

  /** Some running worker's tenant is open to another worker. */
  predicate Open(s: Sys, p: nat) {
    Works(s, p) && LockFree(s.rows[s.live[p].tenant], s.now)
  }

  predicate Closed(s: Sys) {
    forall p :: p in s.live ==> !Open(s, p)
  }

  /** The step is an update of `t` that clears its lock, and not one of worker `p`. */
  predicate Clears(s: Sys, a: Action, t: nat, p: nat)
    requires Enabled(s, a)
  {
    match a
    case Sync(q, proven, target) => q != p && s.live[q].tenant == t && proven >= target
    case Release(q, _) => q != p && s.live[q].tenant == t
    case Fail(q) => s.live[q].tenant == t
    case Override(u, _, _) => u == t
    case FailUnleased(u) => u == t
    case SyncUnleased(u, proven, target) => u == t && proven >= target
    case _ => false
  }

  /** Another's update clears the lock of a tenant that `p` migrates, or the clock passes the end of its lease. */
  predicate Foul(s: Sys, a: Action, p: nat)
    requires Enabled(s, a)
  {
    && Works(s, p)
    && (Clears(s, a, s.live[p].tenant, p) || (a.Tick? && s.live[p].until < s.now + a.d))
  }

  /** Every running worker's lease stands in its tenant's row, and no tenant has two of them. */
  predicate Guarded(s: Sys) {
    && (forall p :: p in s.live ==> s.live[p].tenant in s.rows)
    && (forall p :: p in s.live && s.live[p].Working? ==> Leases(s, p))
    && (forall p, q :: p in s.live && q in s.live && p != q && s.live[p].Working? && s.live[q].Working? ==>
          s.live[p].tenant != s.live[q].tenant)
  }

  predicate Leases(s: Sys, p: nat)
    requires p in s.live && s.live[p].Working? && s.live[p].tenant in s.rows
  {
    var r := s.rows[s.live[p].tenant];
    r.lock.Some? && r.expires == Some(s.live[p].until) && s.now <= s.live[p].until
  }

  predicate Marks(a: Action) {
    a.Sync? || a.Release? || a.Fail? || a.Override? || a.FailUnleased? || a.SyncUnleased?
  }

  lemma CleanMarkGuards(s: Sys, a: Action)
    requires Guarded(s) && Enabled(s, a) && Marks(a) && forall p :: p in s.live ==> !Foul(s, a, p)
    ensures Guarded(Next(s, a))
  {}

  lemma TableStepGuards(s: Sys, a: Action)
    requires Guarded(s) && Enabled(s, a) && (a.Bump? || a.Recover? || a.Reconcile?)
    ensures Guarded(Next(s, a))
  {}

  lemma CleanStepGuards(s: Sys, a: Action)
    requires Guarded(s) && Enabled(s, a) && forall p :: p in s.live ==> !Foul(s, a, p)
    ensures Guarded(Next(s, a))
  {
    if Marks(a) {
      hide Guarded, Next;
      CleanMarkGuards(s, a);
    } else if a.Bump? || a.Recover? || a.Reconcile? {
      hide Guarded, Next;
      TableStepGuards(s, a);
    }
  }

  /** Whoever is running when a foul happens is open to a second worker afterwards. */
  lemma FoulOpens(s: Sys, a: Action, p: nat)
    requires Guarded(s) && Enabled(s, a) && Foul(s, a, p)
    ensures Open(Next(s, a), p)
  {}

  ghost predicate NoFoul(s: Sys, run: seq<Action>)
    decreases |run|
  {
    run == [] ||
    (Enabled(s, run[0]) && (forall p :: p in s.live ==> !Foul(s, run[0], p)) && NoFoul(Next(s, run[0]), run[1..]))
  }

  /** In no state of the run could one more acquisition give a running worker's tenant to a second one. */
  ghost predicate StaysClosed(s: Sys, run: seq<Action>)
    decreases |run|
  {
    Closed(s) && (run == [] || (Enabled(s, run[0]) && StaysClosed(Next(s, run[0]), run[1..])))
  }

  lemma {:induction false} ClosedRunsHaveNoFoul(s: Sys, run: seq<Action>, t: Sys)
    requires Guarded(s) && Reaches(s, run, t)
    ensures StaysClosed(s, run) <==> NoFoul(s, run)
    ensures NoFoul(s, run) ==> Guarded(t)
    decreases |run|
  {
    hide Next, Enabled, Guarded, Foul, Open;
    assert Closed(s) by { GuardedIsClosed(s); }
    if run != [] {
      if p :| p in s.live && Foul(s, run[0], p) {
        FoulOpens(s, run[0], p);
        OpenWorkerLives(Next(s, run[0]), p);
      } else {
        CleanStepGuards(s, run[0]);
        ClosedRunsHaveNoFoul(Next(s, run[0]), run[1..], t);
      }
    }
  }

  lemma GuardedIsClosed(s: Sys)
    requires Guarded(s)
    ensures Closed(s)
  {}

  lemma OpenWorkerLives(s: Sys, p: nat)
    requires Open(s, p)
    ensures p in s.live
  {}

  predicate NoLocks(rows: map<nat, Row>) {
    forall t :: t in rows ==> rows[t].lock.None?
  }

  /**
   The exact condition: from an unlocked registry, no state of a run lets a second worker in if and only if no step
   of the run is a foul, and then no tenant has two running workers.
   */
  lemma OneWorkerIffNoFoul(rows: map<nat, Row>, now: int, run: seq<Action>, s: Sys)
    requires NoLocks(rows) && Reaches(Sys(rows, map[], now), run, s)
    ensures StaysClosed(Sys(rows, map[], now), run) <==> NoFoul(Sys(rows, map[], now), run)
    ensures NoFoul(Sys(rows, map[], now), run) ==>
              forall p, q :: Works(s, p) && Works(s, q) && s.live[p].tenant == s.live[q].tenant ==> p == q
  {
    ClosedRunsHaveNoFoul(Sys(rows, map[], now), run, s);
    hide Reaches, NoFoul, StaysClosed;
  }

  /** What being open means: any idle worker that asks now works beside the first. */
  lemma OpenIffSecondGetsIn(s: Sys, p: nat, q: nat, worker: string, lease: nat)
    requires Works(s, p) && q !in s.live
    ensures var t := s.live[p].tenant; var u := Next(s, Acquire(q, t, worker, lease));
            Open(s, p) <==> Works(u, p) && Works(u, q) && u.live[p].tenant == u.live[q].tenant
  {}

  /** A lease undisturbed lets no second worker in until it is over, and then any. */
  lemma LeaseLastsItsTime(s: Sys, p: nat, t: nat, worker: string, lease: nat, d: nat)
    requires p !in s.live && t in s.rows && LockFree(s.rows[t], s.now)
    ensures var u := Next(Next(s, Acquire(p, t, worker, lease)), Tick(d)); Works(u, p) && (Open(u, p) <==> d > lease)
  {}

  // ---- the fouls of well-behaved workers ----

  lemma Before(s: Sys, a: Action, more: seq<Action>, t: Sys) returns (run: seq<Action>)
    requires Enabled(s, a) && Reaches(Next(s, a), more, t)
    ensures Reaches(s, run, t) && run == [a] + more
  {
    run := [a] + more;
    assert run[1..] == more;
  }

  predicate TwoAtWork(s: Sys, p: nat, q: nat, t: nat) {
    p != q && Works(s, p) && Works(s, q) && s.live[p].tenant == t && s.live[q].tenant == t
  }

  /** `a` leaves `p` working on an unlocked `t`, and `r` takes it. */
  lemma FoulAdmitsSecond(s: Sys, a: Action, p: nat, r: nat, t: nat, id: string, lease: nat)
    returns (run: seq<Action>, u: Sys)
    requires Guarded(s) && Enabled(s, a) && Foul(s, a, p) && s.live[p].tenant == t
    requires r !in s.live && !a.Acquire?
    ensures Reaches(s, run, u) && TwoAtWork(u, p, r, t) && run == [a, Acquire(r, t, id, lease)]
    ensures !a.Tick? ==> u.now == s.now
  {
    FoulOpens(s, a, p);
    var m := Next(s, a);
    assert r !in m.live;
    u := Next(m, Acquire(r, t, id, lease));
    assert Reaches(u, [], u);
    run := Before(m, Acquire(r, t, id, lease), [], u);
    run := Before(s, a, run, u);
  }

  /** A free tenant and three idle workers. */
  predicate Ready(s: Sys, t: nat, o: nat, p: nat, r: nat) {
    && Guarded(s) && t in s.rows && LockFree(s.rows[t], s.now)
    && o !in s.live && p !in s.live && r !in s.live && o != p && p != r && o != r
  }

  lemma Taken(s: Sys, t: nat, p: nat, id: string, lease: nat) returns (u: Sys)
    requires Guarded(s) && t in s.rows && LockFree(s.rows[t], s.now) && p !in s.live
    ensures u == Next(s, Acquire(p, t, id, lease))
    ensures Guarded(u) && Works(u, p) && u.live == s.live[p := Working(t, s.now + lease)] && u.now == s.now
    ensures !LockFree(u.rows[t], u.now)
  {
    u := Next(s, Acquire(p, t, id, lease));
    CleanStepGuards(s, Acquire(p, t, id, lease));
  }

  /** The release deferred until after the mark: the next worker's lock is cleared by the one before. */
  lemma DeferredReleaseAdmitsSecond(s: Sys, t: nat, o: nat, p: nat, r: nat, version: int, id: string, lease: nat)
    returns (run: seq<Action>, u: Sys)
    requires Ready(s, t, o, p, r)
    ensures Reaches(s, run, u) && TwoAtWork(u, p, r, t) && u.now == s.now
    ensures run == [Acquire(o, t, id, lease), Sync(o, version, version), Acquire(p, t, id, lease),
                    Release(o, false), Acquire(r, t, id, lease)]
  {
    hide Guarded, Reaches;
    var s1 := Taken(s, t, o, id, lease);
    var s2 := Next(s1, Sync(o, version, version));
    assert forall q :: q in s1.live && q != o && Works(s1, q) ==> s1.live[q].tenant != t by { OnlyWorker(s1, o); }
    CleanStepGuards(s1, Sync(o, version, version));
    var s3 := Taken(s2, t, p, id, lease);
    run, u := FoulAdmitsSecond(s3, Release(o, false), p, r, t, id, lease);
    run := Before(s2, Acquire(p, t, id, lease), run, u);
    run := Before(s1, Sync(o, version, version), run, u);
    run := Before(s, Acquire(o, t, id, lease), run, u);
  }

  lemma OnlyWorker(s: Sys, p: nat)
    requires Guarded(s) && Works(s, p)
    ensures forall q :: q in s.live && q != p && Works(s, q) ==> s.live[q].tenant != s.live[p].tenant
  {}

  /** A worker that fails releases first and records the failure afterwards, when the next one may be running. */
  lemma LateFailureAdmitsSecond(s: Sys, t: nat, o: nat, p: nat, r: nat, id: string, lease: nat)
    returns (run: seq<Action>, u: Sys)
    requires Ready(s, t, o, p, r)
    ensures Reaches(s, run, u) && TwoAtWork(u, p, r, t) && u.now == s.now
    ensures run == [Acquire(o, t, id, lease), Release(o, true), Acquire(p, t, id, lease), Count(o), Fail(o),
                    Acquire(r, t, id, lease)]
  {
    hide Guarded, Reaches;
    var s1 := Taken(s, t, o, id, lease);
    var s2 := Next(s1, Release(o, true));
    OnlyWorker(s1, o);
    CleanStepGuards(s1, Release(o, true));
    var s3 := Taken(s2, t, p, id, lease);
    var s4 := Next(s3, Count(o));
    CleanStepGuards(s3, Count(o));
    run, u := FoulAdmitsSecond(s4, Fail(o), p, r, t, id, lease);
    run := Before(s3, Count(o), run, u);
    run := Before(s2, Acquire(p, t, id, lease), run, u);
    run := Before(s1, Release(o, true), run, u);
    run := Before(s, Acquire(o, t, id, lease), run, u);
  }

  /** A worker that was refused the lease records that as a failure, which clears the lock of the one that holds it. */
  lemma RefusedWorkerAdmitsSecond(s: Sys, t: nat, o: nat, p: nat, r: nat, id: string, lease: nat)
    returns (run: seq<Action>, u: Sys)
    requires Ready(s, t, o, p, r)
    ensures Reaches(s, run, u) && TwoAtWork(u, p, r, t) && u.now == s.now
    ensures run == [Acquire(p, t, id, lease), Acquire(o, t, id, lease), Count(o), Fail(o), Acquire(r, t, id, lease)]
  {
    hide Guarded, Reaches;
    var s1 := Taken(s, t, p, id, lease);
    var s2 := Next(s1, Acquire(o, t, id, lease));
    CleanStepGuards(s1, Acquire(o, t, id, lease));
    var s3 := Next(s2, Count(o));
    CleanStepGuards(s2, Count(o));
    run, u := FoulAdmitsSecond(s3, Fail(o), p, r, t, id, lease);
    run := Before(s2, Count(o), run, u);
    run := Before(s1, Acquire(o, t, id, lease), run, u);
    run := Before(s, Acquire(p, t, id, lease), run, u);
  }

  // ---- rows that come back ----

  /** A locked row has an expiry, and is neither failed nor paused. */
  predicate LockedRows(s: Sys) {
    forall t :: t in s.rows && s.rows[t].lock.Some? ==>
      && s.rows[t].expires.Some?
      && !s.rows[t].status.Failed? && !s.rows[t].status.Paused?
  }

  lemma LockedRowsStep(s: Sys, a: Action)
    requires LockedRows(s) && Enabled(s, a)
    ensures LockedRows(Next(s, a))
  {}

  lemma {:induction false} RunsKeepLockedRows(s: Sys, run: seq<Action>, t: Sys)
    requires LockedRows(s) && Reaches(s, run, t)
    ensures LockedRows(t)
    decreases |run|
  {
    hide Next, Enabled, LockedRows;
    if run != [] {
      LockedRowsStep(s, run[0]);
      RunsKeepLockedRows(Next(s, run[0]), run[1..], t);
    }
  }

  predicate PassesFilters(r: Row, now: int) {
    LockFree(r, now) && ListedStatus(r)
  }

  /**
   Whatever was left locked, in any run: after its lease, recovery makes it pass the list's lock and status filters
   exactly unless it was marked completed; without recovery it passes exactly if it is pending or drifted.
   */
  lemma ExpiredLeaseIsRecovered(rows: map<nat, Row>, now: int, run: seq<Action>, s: Sys, t: nat)
    requires NoLocks(rows) && Reaches(Sys(rows, map[], now), run, s)
    requires t in s.rows && s.rows[t].lock.Some?
    ensures s.rows[t].expires.Some?
    ensures s.rows[t].expires.value < s.now ==>
              && (PassesFilters(Next(s, Recover).rows[t], s.now) <==> !s.rows[t].status.Completed?)
              && (PassesFilters(s.rows[t], s.now) <==> s.rows[t].status.Pending? || s.rows[t].status.Drifted?)
  {
    RunsKeepLockedRows(Sys(rows, map[], now), run, s);
  }

  /** The registry after worker `p` crashed, its lease ran out and stale locks were recovered. */
  function AfterCrash(s: Sys, p: nat, d: nat): Sys
    requires p in s.live
  {
    Next(Next(Next(s, Crash(p)), Tick(d)), Recover)
  }

  /** What a worker holds under its lease is not marked completed below its target. */
  predicate WorkedRowCurrent(s: Sys, p: nat) {
    Works(s, p) && s.rows[s.live[p].tenant].status.Completed? ==>
      s.rows[s.live[p].tenant].current >= s.rows[s.live[p].tenant].target
  }

  predicate WorkedRowsCurrent(s: Sys) {
    forall p :: p in s.live ==> WorkedRowCurrent(s, p)
  }

  lemma WorkedRowMark(s: Sys, a: Action, p: nat)
    requires Guarded(s) && WorkedRowCurrent(s, p) && Enabled(s, a) && Marks(a) && !Foul(s, a, p) && p in s.live
    ensures WorkedRowCurrent(Next(s, a), p)
  {}

  lemma WorkedRowStep(s: Sys, a: Action, p: nat)
    requires Enabled(s, a) && !Marks(a) && p in Next(s, a).live && (p in s.live ==> WorkedRowCurrent(s, p))
    ensures WorkedRowCurrent(Next(s, a), p)
  {}

  lemma MarksBringNobody(s: Sys, a: Action)
    requires Enabled(s, a) && Marks(a)
    ensures Next(s, a).live.Keys <= s.live.Keys
  {}

  lemma WorkedRowsStep(s: Sys, a: Action)
    requires Guarded(s) && WorkedRowsCurrent(s) && Enabled(s, a) && forall p :: p in s.live ==> !Foul(s, a, p)
    ensures WorkedRowsCurrent(Next(s, a))
  {
    hide Next, Guarded, WorkedRowCurrent, Foul;
    forall p | p in Next(s, a).live
      ensures WorkedRowCurrent(Next(s, a), p)
    {
      if Marks(a) {
        MarksBringNobody(s, a);
        WorkedRowMark(s, a, p);
      } else {
        WorkedRowStep(s, a, p);
      }
    }
  }

  lemma {:induction false} CleanRunsKeepWorkedRows(s: Sys, run: seq<Action>, t: Sys)
    requires Guarded(s) && WorkedRowsCurrent(s) && Reaches(s, run, t) && NoFoul(s, run)
    ensures Guarded(t) && WorkedRowsCurrent(t)
    decreases |run|
  {
    hide Next, Enabled, Guarded, Foul, WorkedRowsCurrent;
    if run != [] {
      CleanStepGuards(s, run[0]);
      WorkedRowsStep(s, run[0]);
      CleanRunsKeepWorkedRows(Next(s, run[0]), run[1..], t);
    }
  }

  /**
   A worker crashes under its lease: once that has run out and stale locks are recovered, the tenant is listed exactly
   if it is behind its target and past its retry time, whatever was written to its row in the meantime.
   */
  lemma CrashedWorkersTenantComesBack(rows: map<nat, Row>, now: int, run: seq<Action>, s: Sys, p: nat, d: nat)
    requires NoLocks(rows) && Reaches(Sys(rows, map[], now), run, s) && NoFoul(Sys(rows, map[], now), run)
    requires Works(s, p) && s.live[p].until < s.now + d
    ensures var u := AfterCrash(s, p, d); var r := s.rows[s.live[p].tenant];
            Listed(u.rows[s.live[p].tenant], u.now) <==> r.current < r.target && FleetBackoffReady(r.nextRetry, u.now)
    ensures p !in AfterCrash(s, p, d).live
  {
    RunsKeepLockedRows(Sys(rows, map[], now), run, s);
    CleanRunsKeepWorkedRows(Sys(rows, map[], now), run, s);
    hide Reaches, NoFoul;
  }

  // ---- tenants hidden by a completion ----

  /** A row marked completed is up to its target. */
  predicate Current(s: Sys) {
    forall t :: t in s.rows && s.rows[t].status.Completed? ==> s.rows[t].current >= s.rows[t].target
  }

  /** Whoever marks a tenant completed has proved at least the target its row then has. */
  predicate ProvesTarget(s: Sys, a: Action)
    requires Enabled(s, a)
  {
    match a
    case Sync(p, proven, target) => proven >= target ==> proven >= s.rows[s.live[p].tenant].target
    case SyncUnleased(t, proven, target) => proven >= target ==> proven >= s.rows[t].target
    case _ => true
  }

  lemma CurrentIffProves(s: Sys, a: Action)
    requires Current(s) && Enabled(s, a)
    ensures Current(Next(s, a)) <==> ProvesTarget(s, a)
  {
    var t := Next(s, a);
    if a.Sync? && !ProvesTarget(s, a) {
      assert t.rows[s.live[a.p].tenant].status.Completed?;
    } else if a.SyncUnleased? && !ProvesTarget(s, a) {
      assert t.rows[a.t].status.Completed?;
    }
  }

  ghost predicate AllProve(s: Sys, run: seq<Action>)
    decreases |run|
  {
    run == [] || (Enabled(s, run[0]) && ProvesTarget(s, run[0]) && AllProve(Next(s, run[0]), run[1..]))
  }

  /** In no state of the run is a tenant marked completed while behind its target. */
  ghost predicate StaysCurrent(s: Sys, run: seq<Action>)
    decreases |run|
  {
    Current(s) && (run == [] || (Enabled(s, run[0]) && StaysCurrent(Next(s, run[0]), run[1..])))
  }

  /** A tenant gets hidden behind its target exactly if some completion proves less than the target its row then has. */
  lemma {:induction false} NoneHiddenIffAllProve(s: Sys, run: seq<Action>, t: Sys)
    requires Current(s) && Reaches(s, run, t)
    ensures StaysCurrent(s, run) <==> AllProve(s, run)
    decreases |run|
  {
    hide Next, Enabled, Current, ProvesTarget;
    if run != [] {
      CurrentIffProves(s, run[0]);
      if ProvesTarget(s, run[0]) {
        NoneHiddenIffAllProve(Next(s, run[0]), run[1..], t);
      }
    }
  }

  /**
   A completion that proves less than the target its row has got in the meantime hides the tenant: no recovery and no
   bump to that target lists it again, only a drift reconciliation whose own target it is behind.
   */
  lemma StaleCompletionHidesTenant(r: Row, proven: int, target: int, now: int, later: int, bump: int)
    requires target <= proven < r.target && bump <= r.target
    ensures var done := Synced(r, proven, ProvenStatus(proven, target));
            && done.current < done.target
            && !Listed(Recovered(Bumped(done, bump), now), later)
            && (forall t, drift :: Listed(Reconciled(done, proven, t, drift), later) <==> proven < t)
  {}

  predicate Hidden(s: Sys, t: nat) {
    t in s.rows && s.rows[t].status.Completed? && s.rows[t].current < s.rows[t].target
  }

  /** A reconciliation, an administrator, a raised target, or a worker's or unleased mark or acquisition of `t`. */
  predicate Reveals(s: Sys, a: Action, t: nat)
    requires Enabled(s, a) && t in s.rows
  {
    match a
    case Acquire(_, u, _, _) => u == t
    case Sync(p, _, _) => s.live[p].tenant == t
    case Fail(p) => s.live[p].tenant == t
    case Reconcile(u, _, _, _) => u == t
    case Bump(target) => target > s.rows[t].target
    case Override(u, _, _) => u == t
    case FailUnleased(u) => u == t
    case SyncUnleased(u, _, _) => u == t
    case _ => false
  }

  ghost predicate NoneReveals(s: Sys, run: seq<Action>, t: nat)
    decreases |run|
  {
    run == [] ||
    (Enabled(s, run[0]) && t in s.rows && !Reveals(s, run[0], t) && NoneReveals(Next(s, run[0]), run[1..], t))
  }

  lemma StepKeepsHidden(s: Sys, a: Action, t: nat)
    requires Hidden(s, t) && Enabled(s, a) && !Reveals(s, a, t)
    ensures Hidden(Next(s, a), t)
  {}

  /** A hidden tenant is not listed, through recoveries, crashes, releases and time, until one of those steps. */
  lemma {:induction false} HiddenUntilRevealed(s: Sys, run: seq<Action>, u: Sys, t: nat)
    requires Hidden(s, t) && Reaches(s, run, u) && NoneReveals(s, run, t)
    ensures Hidden(u, t) && !Listed(u.rows[t], u.now)
    decreases |run|
  {
    hide Next, Enabled, Reveals;
    if run != [] {
      hide Hidden;
      StepKeepsHidden(s, run[0], t);
      HiddenUntilRevealed(Next(s, run[0]), run[1..], u, t);
    }
  }

  /**
   A raised target reaches every tenant behind it: once leases and retry times of the moment are over, it is listed,
   whatever its status was and whoever was migrating it, unless its row is touched in between.
   */
  lemma RaisedTargetReachesAll(s: Sys, target: int, d: nat, t: nat)
    requires t in s.rows && s.rows[t].target < target
    requires s.rows[t].expires.Some? ==> s.rows[t].expires.value < s.now + d
    requires s.rows[t].nextRetry.Some? ==> s.rows[t].nextRetry.value <= s.now + d
    ensures var u := Next(Next(s, Bump(target)), Tick(d)); Listed(u.rows[t], u.now) <==> s.rows[t].current < target
  {}

  // ---- failures ----

  function Steps(s: Sys, a: Action, b: Action): Sys
    requires Enabled(s, a) && Enabled(Next(s, a), b)
  {
    Next(Next(s, a), b)
  }

  /** A failure recorded undisturbed: one attempt more and its backoff, from the moment it was counted. */
  lemma FailureIsMarked(s: Sys, p: nat)
    requires At(s, p) && s.live[p].Failed?
    ensures Enabled(s, Count(p)) && Enabled(Next(s, Count(p)), Fail(p))
    ensures var t := s.live[p].tenant;
            Steps(s, Count(p), Fail(p)) ==
            s.(rows := s.rows[t := MarkedFailed(s.rows[t], s.rows[t].attempts + 1, s.now)], live := s.live - {p})
  {}

  /** Two workers that read the attempts before either writes them count two failures as one. */
  lemma OverlappingFailuresCountOnce(s: Sys, p: nat, q: nat)
    requires At(s, p) && At(s, q) && s.live[p].Failed? && s.live[q].Failed? && p != q
    requires s.live[p].tenant == s.live[q].tenant
    ensures Enabled(s, Count(p)) && Enabled(Next(s, Count(p)), Count(q))
    ensures var m := Steps(s, Count(p), Count(q));
            && Enabled(m, Fail(p)) && Enabled(Next(m, Fail(p)), Fail(q))
            && Steps(m, Fail(p), Fail(q)).rows[s.live[p].tenant].attempts == s.rows[s.live[p].tenant].attempts + 1
  {}
}
