/** Document correlatives: reservations under a row lock held until commit or abort. */
module DocSeries {
  datatype Error = SeriesNotFound | SeriesInactive
  datatype Reservation = Reserved(n: nat) | Refused(error: Error)

  datatype Series = Series(correlative: nat, active: bool)

  /** What a transaction reads: its own write if it has one. */
  function Current(rows: map<nat, Series>, writes: map<nat, nat>, id: nat): nat
    requires id in rows
  {
    if id in writes then writes[id] else rows[id].correlative
  }

  function Reserve(rows: map<nat, Series>, writes: map<nat, nat>, id: nat): Reservation {
    if id !in rows then Refused(SeriesNotFound)
    else if !rows[id].active then Refused(SeriesInactive)
    else Reserved(Current(rows, writes, id))
  }

  function Written(writes: map<nat, nat>, id: nat, r: Reservation): map<nat, nat> {
    if r.Reserved? then writes[id := r.n + 1] else writes
  }

  function Committed(rows: map<nat, Series>, writes: map<nat, nat>): map<nat, Series> {
    map id | id in rows :: if id in writes then rows[id].(correlative := writes[id]) else rows[id]
  }

  class Table {
    var rows: map<nat, Series>

    constructor (rows: map<nat, Series>)
      ensures this.rows == rows
    {
      this.rows := rows;
    }

    /** A transaction of its own: the next number, or no change. */
    method ReserveNextStandalone(id: nat) returns (r: Reservation)
      modifies this
      ensures r == if id !in old(rows) then Refused(SeriesNotFound)
                   else if !old(rows)[id].active then Refused(SeriesInactive)
                   else Reserved(old(rows)[id].correlative)
      ensures r.Refused? ==> rows == old(rows)
      ensures r.Reserved? ==>
                rows == old(rows)[id := old(rows)[id].(correlative := old(rows)[id].correlative + 1)]
    {
      var tx := new Transaction(this);
      r := tx.ReserveNext(id);
      if r.Reserved? {
        rows := Committed(rows, tx.writes);
      }
    }
  }

  class Transaction {
    const table: Table
    var writes: map<nat, nat>

    constructor (table: Table)
      ensures this.table == table && writes == map[]
    {
      this.table := table;
      writes := map[];
    }

    method ReserveNext(id: nat) returns (r: Reservation)
      modifies this
      ensures r == Reserve(table.rows, old(writes), id)
      ensures r.Reserved? <==> id in table.rows && table.rows[id].active
      ensures writes == Written(old(writes), id, r)
    {
      if id !in table.rows {
        return Refused(SeriesNotFound);
      }
      if !table.rows[id].active {
        return Refused(SeriesInactive);
      }
      var correlative := if id in writes then writes[id] else table.rows[id].correlative;
      writes := writes[id := correlative + 1];
      return Reserved(correlative);
    }
  }

  // ---- interleaved transactions ----

  datatype Tx = Tx(writes: map<nat, nat>, reserved: seq<(nat, nat)>)

  /** `locks` maps a row to its owner; `issued` lists the numbers of committed reservations per series. */
  datatype Sys = Sys(
    rows: map<nat, Series>,
    txs: map<nat, Tx>,
    locks: map<nat, nat>,
    issued: map<nat, seq<nat>>)

  datatype Action =
    | Begin(t: nat)
    | ReserveIn(t: nat, id: nat)
    | Commit(t: nat)
    | Abort(t: nat)
    | SetActive(id: nat, active: bool)

  /** SELECT FOR UPDATE waits while another transaction owns the row. */
  predicate Enabled(s: Sys, a: Action) {
    match a
    case Begin(t) => t !in s.txs
    case ReserveIn(t, id) => t in s.txs && (id in s.locks ==> s.locks[id] == t)
    case Commit(t) => t in s.txs
    case Abort(t) => t in s.txs
    case SetActive(id, _) => id in s.rows && id !in s.locks
  }

  /** The numbers a transaction reserved on one series, in order. */
  function Mine(reserved: seq<(nat, nat)>, id: nat): seq<nat> {
    if reserved == [] then []
    else
      var last := reserved[|reserved| - 1];
      Mine(reserved[..|reserved| - 1], id) + if last.0 == id then [last.1] else []
  }

  function Unlocked(locks: map<nat, nat>, t: nat): map<nat, nat> {
    map id | id in locks && locks[id] != t :: locks[id]
  }

  function Next(s: Sys, a: Action): Sys
    requires Enabled(s, a)
  {
    match a
    case Begin(t) => s.(txs := s.txs[t := Tx(map[], [])])
    case ReserveIn(t, id) =>
      var tx := s.txs[t];
      var r := Reserve(s.rows, tx.writes, id);
      var after := Tx(Written(tx.writes, id, r), if r.Reserved? then tx.reserved + [(id, r.n)] else tx.reserved);
      s.(txs := s.txs[t := after], locks := if id in s.rows then s.locks[id := t] else s.locks)
    case Commit(t) =>
      var tx := s.txs[t];
      Sys(Committed(s.rows, tx.writes), s.txs - {t}, Unlocked(s.locks, t),
          map id | id in s.issued :: s.issued[id] + Mine(tx.reserved, id))
    case Abort(t) => s.(txs := s.txs - {t}, locks := Unlocked(s.locks, t))
    case SetActive(id, active) => s.(rows := s.rows[id := s.rows[id].(active := active)])
  }

  ghost predicate Reaches(s: Sys, run: seq<Action>, t: Sys)
    decreases |run|
  {
    if run == [] then s == t else Enabled(s, run[0]) && Reaches(Next(s, run[0]), run[1..], t)
  }

  function Init(rows: map<nat, Series>): Sys {
    Sys(rows, map[], map[], map id | id in rows :: [])
  }

  predicate Counts(numbers: seq<nat>, start: nat) {
    forall i :: 0 <= i < |numbers| ==> numbers[i] == start + i
  }

  /** A series' row stands right after its last committed number; a writer counts on from there. */
  ghost predicate Inv(start: map<nat, Series>, s: Sys) {
    && s.rows.Keys == s.issued.Keys == start.Keys
    && (forall id :: id in s.rows ==>
          && Counts(s.issued[id], start[id].correlative)
          && s.rows[id].correlative == start[id].correlative + |s.issued[id]|)
    && (forall t, id :: t in s.txs && id in s.rows ==> TxInv(s, t, id))
    && (forall t, id :: t in s.txs && id in s.txs[t].writes ==> id in s.rows)
  }

  ghost predicate TxInv(s: Sys, t: nat, id: nat)
    requires t in s.txs && id in s.rows
  {
    var mine := Mine(s.txs[t].reserved, id);
    && Counts(mine, s.rows[id].correlative)
    && Current(s.rows, s.txs[t].writes, id) == s.rows[id].correlative + |mine|
    && (mine != [] ==> id in s.locks && s.locks[id] == t)
    && (id in s.txs[t].writes ==> id in s.locks && s.locks[id] == t)
  }

  lemma MineAppend(reserved: seq<(nat, nat)>, id: nat, n: nat, k: nat)
    ensures Mine(reserved + [(id, n)], k) == Mine(reserved, k) + if id == k then [n] else []
  {
    assert (reserved + [(id, n)])[..|reserved|] == reserved;
  }

  /** The reserving transaction counts one further on this series and stands still on the others. */
  lemma ReserveCountsOn(s: Sys, t: nat, id: nat, k: nat)
    requires Enabled(s, ReserveIn(t, id)) && k in s.rows && TxInv(s, t, k)
    ensures TxInv(Next(s, ReserveIn(t, id)), t, k)
  {
    hide Mine;
    var tx := s.txs[t];
    var r := Reserve(s.rows, tx.writes, id);
    if r.Reserved? {
      MineAppend(tx.reserved, id, r.n, k);
    }
  }

  lemma ReserveKeepsInv(start: map<nat, Series>, s: Sys, t: nat, id: nat)
    requires Inv(start, s) && Enabled(s, ReserveIn(t, id))
    ensures Inv(start, Next(s, ReserveIn(t, id)))
  {
    hide Mine, Counts;
    var u := Next(s, ReserveIn(t, id));
    forall v, k | v in u.txs && k in u.rows
      ensures TxInv(u, v, k)
    {
      assert TxInv(s, v, k);
      if v == t {
        ReserveCountsOn(s, t, id, k);
      }
    }
  }

  lemma CommitKeepsInv(start: map<nat, Series>, s: Sys, t: nat)
    requires Inv(start, s) && Enabled(s, Commit(t))
    ensures Inv(start, Next(s, Commit(t)))
  {
    var u := Next(s, Commit(t));
    forall id | id in u.rows
      ensures Counts(u.issued[id], start[id].correlative)
      ensures u.rows[id].correlative == start[id].correlative + |u.issued[id]|
    {
      assert TxInv(s, t, id);
    }
    forall v, k | v in u.txs && k in u.rows
      ensures TxInv(u, v, k)
    {
      assert TxInv(s, v, k) && TxInv(s, t, k);
      assert Mine(s.txs[v].reserved, k) == [] || Mine(s.txs[t].reserved, k) == [];
    }
  }

  lemma StepKeepsInv(start: map<nat, Series>, s: Sys, a: Action)
    requires Inv(start, s) && Enabled(s, a)
    ensures Inv(start, Next(s, a))
  {
    match a
    case ReserveIn(t, id) => ReserveKeepsInv(start, s, t, id);
    case Commit(t) => CommitKeepsInv(start, s, t);
    case _ =>
      var u := Next(s, a);
      forall v, k | v in u.txs && k in u.rows
        ensures TxInv(u, v, k)
      {
        if v in s.txs {
          assert TxInv(s, v, k);
        }
      }
  }

  lemma {:induction false} RunsKeepInv(start: map<nat, Series>, s: Sys, run: seq<Action>, t: Sys)
    requires Inv(start, s) && Reaches(s, run, t)
    ensures Inv(start, t)
    decreases |run|
  {
    hide Next, Enabled, Inv;
    if run != [] {
      StepKeepsInv(start, s, run[0]);
      RunsKeepInv(start, Next(s, run[0]), run[1..], t);
    }
  }

  // ---- main results ----

  /** The committed numbers of a series are start, start + 1, ... : no gap, no duplicate, whatever aborted. */
  lemma CommittedNumbersAreGapFree(rows: map<nat, Series>, run: seq<Action>, t: Sys, id: nat, i: nat)
    requires Reaches(Init(rows), run, t) && id in rows
    ensures id in t.issued
    ensures i < |t.issued[id]| ==> t.issued[id][i] == rows[id].correlative + i
  {
    RunsKeepInv(rows, Init(rows), run, t);
  }

  /** Two open transactions never hold numbers of the same series, and an open number is not committed yet. */
  lemma OpenNumbersAreNew(rows: map<nat, Series>, run: seq<Action>, t: Sys, id: nat, u: nat, v: nat)
    requires Reaches(Init(rows), run, t) && id in rows && u in t.txs && v in t.txs
    ensures id in t.issued
    ensures u != v ==> Mine(t.txs[u].reserved, id) == [] || Mine(t.txs[v].reserved, id) == []
    ensures forall n, m :: n in Mine(t.txs[u].reserved, id) && m in t.issued[id] ==> n != m
  {
    RunsKeepInv(rows, Init(rows), run, t);
    assert TxInv(t, u, id) && TxInv(t, v, id);
  }

  lemma ReserveGivesCurrent(s: Sys, t: nat, id: nat)
    requires Enabled(s, ReserveIn(t, id)) && id in s.rows && TxInv(s, t, id)
    ensures var before := Mine(s.txs[t].reserved, id);
            var after := Mine(Next(s, ReserveIn(t, id)).txs[t].reserved, id);
            && (s.rows[id].active ==> after == before + [s.rows[id].correlative + |before|])
            && (!s.rows[id].active ==> after == before)
  {
    hide Mine, Counts;
    MineAppend(s.txs[t].reserved, id, Current(s.rows, s.txs[t].writes, id), id);
  }

  lemma InvAtStart(rows: map<nat, Series>)
    ensures Inv(rows, Init(rows))
  {}

  lemma InvAt(start: map<nat, Series>, s: Sys, t: nat, id: nat)
    requires Inv(start, s) && id in start && t in s.txs
    ensures id in s.rows && id in s.issued && TxInv(s, t, id)
    ensures s.rows[id].correlative == start[id].correlative + |s.issued[id]|
  {
    hide Mine, Counts, TxInv;
  }

  lemma SameTransactions(s: Sys, t: nat, id: nat)
    requires Enabled(s, ReserveIn(t, id))
    ensures Next(s, ReserveIn(t, id)).txs.Keys == s.txs.Keys
  {}

  /**
   In every run, a transaction that gets the row lock of an active series reserves the number after all committed ones
   and its own; an inactive series gives it none.
   */
  lemma ActiveSeriesGivesNext(rows: map<nat, Series>, run: seq<Action>, s: Sys, t: nat, id: nat)
    requires Reaches(Init(rows), run, s) && id in rows && Enabled(s, ReserveIn(t, id))
    ensures id in s.rows && id in s.issued && t in Next(s, ReserveIn(t, id)).txs
    ensures var before, after := Mine(s.txs[t].reserved, id), Mine(Next(s, ReserveIn(t, id)).txs[t].reserved, id);
            && (s.rows[id].active ==> after == before + [rows[id].correlative + |s.issued[id]| + |before|])
            && (!s.rows[id].active ==> after == before)
  {
    InvAtStart(rows);
    hide Reaches, Inv, TxInv, Next, Mine;
    RunsKeepInv(rows, Init(rows), run, s);
    InvAt(rows, s, t, id);
    ReserveGivesCurrent(s, t, id);
    SameTransactions(s, t, id);
  }

  /** Exactly a commit issues numbers: all that its transaction reserved. */
  lemma CommitIssuesReserved(rows: map<nat, Series>, run: seq<Action>, s: Sys, a: Action, id: nat)
    requires Reaches(Init(rows), run, s) && id in rows && Enabled(s, a)
    ensures id in s.issued && id in Next(s, a).issued
    ensures Next(s, a).issued[id] == s.issued[id] + if a.Commit? then Mine(s.txs[a.t].reserved, id) else []
  {
    RunsKeepInv(rows, Init(rows), run, s);
    hide Reaches, Mine, Counts;
  }

  /** Every row lock belongs to an open transaction. */
  ghost predicate LocksOwned(s: Sys) {
    forall id :: id in s.locks ==> s.locks[id] in s.txs
  }

  lemma {:induction false} RunsKeepLocksOwned(s: Sys, run: seq<Action>, t: Sys)
    requires LocksOwned(s) && Reaches(s, run, t)
    ensures LocksOwned(t)
    decreases |run|
  {
    if run != [] {
      LocksOwnedStep(s, run[0]);
      hide Next, Enabled, LocksOwned;
      RunsKeepLocksOwned(Next(s, run[0]), run[1..], t);
    }
  }

  lemma LocksOwnedStep(s: Sys, a: Action)
    requires LocksOwned(s) && Enabled(s, a)
    ensures LocksOwned(Next(s, a))
  {}

  /**
   In every run a reservation waits only for an open transaction, and once that one commits or aborts the next gets
   the row.
   */
  lemma WaitingEndsWithTransaction(rows: map<nat, Series>, run: seq<Action>, s: Sys, t: nat, id: nat, end: Action)
    requires Reaches(Init(rows), run, s) && t in s.txs && !Enabled(s, ReserveIn(t, id))
    ensures id in s.locks && s.locks[id] in s.txs && s.locks[id] != t
    ensures end == Commit(s.locks[id]) || end == Abort(s.locks[id]) ==>
              Enabled(s, end) && Enabled(Next(s, end), ReserveIn(t, id))
  {
    RunsKeepLocksOwned(Init(rows), run, s);
    hide Reaches, Mine;
  }
}
