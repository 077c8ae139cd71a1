/** The central migration registry: leases on tenant rows, marks, target bumps, stale recovery, backoff. */
module FleetLease {
  import opened Wrappers

  datatype Status = Pending | Running | Completed | Failed | Paused | Drifted

  datatype Row = Row(
    current: int,
    target: int,
    status: Status,
    lock: Option<string>,
    expires: Option<int>,
    attempts: int,
    nextRetry: Option<int>)

  const MINUTE: int := 60_000_000_000
  const DELAYS: seq<int> := [MINUTE, 5 * MINUTE, 15 * MINUTE, 60 * MINUTE]

  function FleetBackoffDelay(attempts: int): (d: int)
    ensures MINUTE <= d <= 60 * MINUTE
  {
    if attempts <= 0 then DELAYS[0]
    else if attempts - 1 >= |DELAYS| then DELAYS[|DELAYS| - 1]
    else DELAYS[attempts - 1]
  }

  predicate FleetBackoffReady(nextRetry: Option<int>, now: int) {
    nextRetry.None? || !(nextRetry.value > now)
  }

  /** `migration_lock IS NULL OR lock_expires_at IS NULL OR lock_expires_at < now` */
  predicate LockFree(r: Row, now: int) {
    r.lock.None? || r.expires.None? || r.expires.value < now
  }

  predicate ListedStatus(r: Row) {
    r.status.Pending? || r.status.Failed? || r.status.Drifted?
  }

  predicate Listed(r: Row, now: int) {
    && r.current < r.target
    && ListedStatus(r)
    && LockFree(r, now)
    && (r.nextRetry.None? || r.nextRetry.value <= now)
  }

  predicate Stale(r: Row, now: int) {
    r.lock.Some? && r.expires.Some? && r.expires.value < now && r.status.Running?
  }

  function Leased(r: Row, worker: string, until: int): Row {
    r.(lock := Some(worker), expires := Some(until), status := Running)
  }

  function MarkedCompleted(r: Row, version: int): Row {
    r.(current := version, status := Completed, lock := None, expires := None, nextRetry := None, attempts := 0)
  }

  /** `attempts` is the new count, after one failure more. */
  function MarkedFailed(r: Row, attempts: int, now: int): Row {
    r.(status := Failed, attempts := attempts, nextRetry := Some(now + FleetBackoffDelay(attempts)),
       lock := None, expires := None)
  }

  function Released(r: Row): Row {
    r.(lock := None, expires := None)
  }

  /** The status after a migration, by what the tenant's own history proves. */
  function ProvenStatus(proven: int, target: int): Status {
    if proven < target then Pending else Completed
  }

  /** Completion clears the lock and the retries; any other status leaves them. */
  function Synced(r: Row, proven: int, status: Status): Row {
    if status.Completed? then MarkedCompleted(r, proven) else r.(current := proven, status := status)
  }

  function DriftStatus(proven: int, target: int, drift: bool): Status {
    if drift || proven < target then Drifted else Completed
  }

  /** The central part of a drift reconciliation: it never looks at the lock. */
  function Reconciled(r: Row, proven: int, target: int, drift: bool): Row {
    r.(current := proven, target := target, status := DriftStatus(proven, target, drift))
  }

  /** An administrator pauses, resumes or retries a tenant. */
  function Overridden(r: Row, status: Status, retry: bool): Row {
    r.(status := status, lock := None, expires := None, nextRetry := if retry then None else r.nextRetry)
  }

  function Bumped(r: Row, target: int): Row {
    if r.target < target then r.(target := target, status := Pending) else r
  }

  function Recovered(r: Row, now: int): Row {
    if Stale(r, now) then r.(status := Pending, lock := None, expires := None) else r
  }

  // ---- the registry ----

  class Registry {
    var rows: map<nat, Row>

    constructor (rows: map<nat, Row>)
      ensures this.rows == rows
    {
      this.rows := rows;
    }

    method TryAcquireSchemaMigrationLock(t: nat, worker: string, now: int, lease: int) returns (ok: bool)
      modifies this
      ensures ok <==> t in old(rows) && LockFree(old(rows)[t], now)
      ensures rows == if ok then old(rows)[t := Leased(old(rows)[t], worker, now + lease)] else old(rows)
      ensures ok ==> rows[t] == old(rows)[t].(lock := Some(worker), expires := Some(now + lease), status := Running)
    {
      if t !in rows {
        return false;
      }
      var r := rows[t];
      ok := r.lock == None || r.expires == None || r.expires.value < now;
      if ok {
        rows := rows[t := r.(lock := Some(worker), expires := Some(now + lease), status := Running)];
      }
    }

    method MarkTenantSchemaCompleted(t: nat, version: int)
      modifies this
      ensures rows == if t in old(rows) then old(rows)[t := MarkedCompleted(old(rows)[t], version)] else old(rows)
      ensures t in rows ==> rows[t] == Row(version, old(rows)[t].target, Completed, None, None, 0, None)
    {
      if t in rows {
        rows := rows[t := rows[t].(current := version, status := Completed, lock := None, expires := None,
                                   nextRetry := None, attempts := 0)];
      }
    }

    method MarkTenantSchemaFailed(t: nat, now: int)
      modifies this
      ensures rows ==
              if t in old(rows) then old(rows)[t := MarkedFailed(old(rows)[t], old(rows)[t].attempts + 1, now)]
              else old(rows)
      ensures t in rows ==>
                && rows[t].status == Failed && rows[t].attempts == old(rows)[t].attempts + 1 && rows[t].lock == None
                && rows[t].current == old(rows)[t].current && rows[t].target == old(rows)[t].target
    {
      if t in rows {
        var attempts := rows[t].attempts + 1;
        var nextRetry := now + FleetBackoffDelay(attempts);
        rows := rows[t := rows[t].(status := Failed, attempts := attempts, nextRetry := Some(nextRetry),
                                   lock := None, expires := None)];
      }
    }

    /** Unconditional: whoever holds the lock loses it. */
    method ReleaseSchemaMigrationLock(t: nat)
      modifies this
      ensures rows == if t in old(rows) then old(rows)[t := Released(old(rows)[t])] else old(rows)
      ensures t in rows ==> rows[t] == old(rows)[t].(lock := None, expires := None)
    {
      if t in rows {
        rows := rows[t := rows[t].(lock := None, expires := None)];
      }
    }

    method SyncTenantSchemaCurrentVersion(t: nat, proven: int, status: Status)
      modifies this
      ensures rows == if t in old(rows) then old(rows)[t := Synced(old(rows)[t], proven, status)] else old(rows)
      ensures t in rows ==>
                && rows[t].current == proven && rows[t].status == status && rows[t].target == old(rows)[t].target
                && (status != Completed ==> rows[t] == old(rows)[t].(current := proven, status := status))
                && (status == Completed ==> rows[t].lock == None && rows[t].attempts == 0 && rows[t].nextRetry == None)
    {
      if t in rows {
        var r := rows[t].(current := proven, status := status);
        if status == Completed {
          r := r.(lock := None, expires := None, nextRetry := None, attempts := 0);
        }
        rows := rows[t := r];
      }
    }

    /** The end of ReconcileTenantSchemaDrift, with what it found in the tenant's database. */
    method ReconcileTenantSchemaDrift(t: nat, proven: int, target: int, drift: bool, dryRun: bool)
      modifies this
      ensures rows ==
              if t in old(rows) && !dryRun then old(rows)[t := Reconciled(old(rows)[t], proven, target, drift)]
              else old(rows)
      ensures t in rows && !dryRun ==>
                rows[t] == old(rows)[t].(current := proven, target := target,
                                         status := if !drift && proven >= target then Completed else Drifted)
    {
      if dryRun {
        return;
      }
      var status := Completed;
      if drift || proven < target {
        status := Drifted;
      }
      if t in rows {
        rows := rows[t := rows[t].(current := proven, target := target, status := status)];
      }
    }

    method BumpFleetTargetVersion(target: int) returns (affected: nat)
      modifies this
      ensures rows == map t | t in old(rows) :: Bumped(old(rows)[t], target)
      ensures affected == |set t | t in old(rows) && old(rows)[t].target < target|
    {
      var hit := set t | t in rows && rows[t].target < target;
      rows := map t | t in rows :: if t in hit then rows[t].(target := target, status := Pending) else rows[t];
      return |hit|;
    }

    method RecoverStaleMigrationLocks(now: int) returns (affected: nat)
      modifies this
      ensures rows == map t | t in old(rows) :: Recovered(old(rows)[t], now)
      ensures affected == |set t | t in old(rows) && Stale(old(rows)[t], now)|
    {
      var hit := set t | t in rows && Stale(rows[t], now);
      rows := map t | t in rows ::
        if t in hit then rows[t].(status := Pending, lock := None, expires := None) else rows[t];
      return |hit|;
    }

    /** The tenants the query joins and keeps; `tenants` maps those not deleted to whether they are active. */
    function Eligible(now: int, tenants: map<nat, bool>, activeOnly: bool): set<nat>
      reads this
    {
      set t | t in rows && t in tenants && Listed(rows[t], now) && (activeOnly ==> tenants[t])
    }

    /** By attempts, the fewest first; a limit of 0 or less is none. */
    method ListPendingSchemaTenants(now: int, circuitOpen: bool, tenants: map<nat, bool>, activeOnly: bool, limit: int)
      returns (list: seq<nat>)
      ensures circuitOpen ==> list == []
      ensures ByAttempts(rows, list) && Elements(list) <= Eligible(now, tenants, activeOnly)
      ensures var all := Eligible(now, tenants, activeOnly);
              !circuitOpen ==>
                && |list| == (if 0 < limit < |all| then limit else |all|)
                && NoneSkipped(rows, list, all - Elements(list))
    {
      if circuitOpen {
        hide Eligible;
        NothingPicked(rows, {});
        return [];
      }
      list := FirstByAttempts(rows, Eligible(now, tenants, activeOnly), limit);
    }
  }

  /** ORDER BY attempts LIMIT limit. */
  method FirstByAttempts(rows: map<nat, Row>, all: set<nat>, limit: int) returns (list: seq<nat>)
    requires all <= rows.Keys
    ensures ByAttempts(rows, list) && Elements(list) <= all
    ensures |list| == (if 0 < limit < |all| then limit else |all|)
    ensures NoneSkipped(rows, list, all - Elements(list))
  {
    NothingPicked(rows, all);
    hide ByAttempts, NoneSkipped, Elements;
    list := [];
    var rest := all;
    while rest != {} && (limit <= 0 || |list| < limit)
      invariant rest <= all && Elements(list) <= all && rest == all - Elements(list)
      invariant |list| + |rest| == |all| && (limit > 0 ==> |list| <= limit)
      invariant ByAttempts(rows, list) && NoneSkipped(rows, list, rest)
      decreases rest
    {
      var t := FewestAttempts(rows, rest);
      Picked(rows, list, rest, t);
      rest := rest - {t};
      list := list + [t];
    }
  }

  function Elements(list: seq<nat>): set<nat> {
    set t | t in list
  }

  /** No tenant twice, and none after one with more attempts. */
  predicate ByAttempts(rows: map<nat, Row>, list: seq<nat>) {
    && (forall i :: 0 <= i < |list| ==> list[i] in rows)
    && (forall i, j :: 0 <= i < j < |list| ==> list[i] != list[j] && rows[list[i]].attempts <= rows[list[j]].attempts)
  }

  /** None of the rest has fewer attempts than one in the list. */
  predicate NoneSkipped(rows: map<nat, Row>, list: seq<nat>, rest: set<nat>) {
    forall t, u :: t in list && u in rest ==> t in rows && u in rows && t != u && rows[t].attempts <= rows[u].attempts
  }

  lemma NothingPicked(rows: map<nat, Row>, rest: set<nat>)
    ensures ByAttempts(rows, []) && NoneSkipped(rows, [], rest) && Elements([]) == {}
  {}

  lemma Picked(rows: map<nat, Row>, list: seq<nat>, rest: set<nat>, t: nat)
    requires ByAttempts(rows, list) && NoneSkipped(rows, list, rest) && rest <= rows.Keys
    requires t in rest && forall u :: u in rest ==> rows[t].attempts <= rows[u].attempts
    ensures ByAttempts(rows, list + [t]) && NoneSkipped(rows, list + [t], rest - {t})
    ensures Elements(list + [t]) == Elements(list) + {t}
  {}

  method FewestAttempts(rows: map<nat, Row>, some: set<nat>) returns (best: nat)
    requires some != {} && some <= rows.Keys
    ensures best in some && forall u :: u in some ==> rows[best].attempts <= rows[u].attempts
  {
    best :| best in some;
    var rest := some - {best};
    while rest != {}
      invariant rest <= some && best in some
      invariant forall u :: u in some - rest ==> rows[best].attempts <= rows[u].attempts
      decreases rest
    {
      var t :| t in rest;
      rest := rest - {t};
      if rows[t].attempts < rows[best].attempts {
        best := t;
      }
    }
  }

  /** A failed tenant that is behind its target is listed again after 1, 5, 15, and from the fourth failure on 60 minutes. */
  lemma FailedTenantWaitsItsBackoff(r: Row, attempts: int, now: int, at: int)
    requires r.current < r.target
    ensures Listed(MarkedFailed(r, attempts, now), at) <==>
            at >= now + if attempts <= 1 then 60_000_000_000
                        else if attempts == 2 then 300_000_000_000
                        else if attempts == 3 then 900_000_000_000
                        else 3_600_000_000_000
    ensures Listed(MarkedFailed(r, attempts, now), at) <==> FleetBackoffReady(MarkedFailed(r, attempts, now).nextRetry, at)
  {}

  /** A raised target lists every tenant behind it that nobody migrates and that is past its retry time, completed or not. */
  lemma RaisedTargetListsTenants(r: Row, target: int, now: int)
    requires r.target < target
    ensures Listed(Bumped(r, target), now) <==>
            && r.current < target
            && (r.lock.None? || r.expires.None? || r.expires.value < now)
            && (r.nextRetry.None? || r.nextRetry.value <= now)
  {}

  /** An administrator's pause keeps a tenant off the list, whatever its row was; a retry puts it on it if it is behind. */
  lemma OverrideDecides(r: Row, now: int, retry: bool)
    ensures !Listed(Overridden(r, Paused, retry), now)
    ensures Listed(Overridden(r, Pending, true), now) <==> r.current < r.target
  {}
}
