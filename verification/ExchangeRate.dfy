/**
 Exchange-rate lookups: cache, central table, provider and fallback chain, as functions on
 the store and as the service that runs them. Dates are ordered integers.
 */
module ExchangeRate {
  import opened Wrappers

  datatype Status = Confirmed | Fallback | Pending | Unavailable
  datatype Source = ApiPeru | FallbackPrevious | CacheCentral

  datatype Row = Row(
    sale: int, buy: int, status: Status, source: Source, effective: int,
    fetchedAt: Option<int>, lastAttempt: Option<int>, nextRetry: Option<int>, attempts: int, error: string)

  datatype Result = Result(
    success: bool, date: int, effective: int, sale: int, buy: int, source: Source, status: Status, fallback: bool)

  datatype Cached = Cached(res: Result, until: int)

  datatype Store = Store(table: map<int, Row>, cache: map<int, Cached>)

  /** The provider breaks, or answers with or without a rate. */
  datatype Reply = Broken(error: string) | Answered(ok: bool, effective: Option<int>, sale: int, buy: int, error: string)

  datatype Answer = Found(res: Result) | BadDate | ProviderError(error: string) | InProgress

  /**
   A lookup: the parsed date, the clock when it reads, when it fetches, at each look for a peer's result and when it
   writes a fallback, and how cache, lock and provider behave while it runs.
   */
  datatype Request = Request(
    date: Option<int>, force: bool, today: int, t0: int, t1: int, t2: int, polls: seq<int>,
    cacheUp: bool, lockFree: bool, reply: Reply)

  datatype Outcome = Outcome(st: Store, answer: Answer, called: bool)

  const MINUTE: int := 60_000_000_000
  const HOUR: int := 60 * MINUTE
  const COOLDOWN: int := HOUR

  function CacheTTL(date: int, today: int): int {
    if date == today then 48 * HOUR else 30 * 24 * HOUR
  }

  // ---- cache and table ----

  function CacheGet(st: Store, up: bool, d: int, now: int): Option<Result> {
    if up && d in st.cache && now < st.cache[d].until && st.cache[d].res.success then Some(st.cache[d].res) else None
  }

  /** What a lookup without the lock sees of its peer: the first result that some look finds. */
  function PeerResult(st: Store, up: bool, d: int, polls: seq<int>): Option<Result> {
    if polls == [] then None
    else if CacheGet(st, up, d, polls[0]).Some? then CacheGet(st, up, d, polls[0])
    else PeerResult(st, up, d, polls[1..])
  }

  function CacheSet(st: Store, up: bool, d: int, res: Result, until: int): Store {
    if up then st.(cache := st.cache[d := Cached(res, until)]) else st
  }

  predicate Own(row: Row, d: int) {
    row.status.Confirmed? && row.effective == d
  }

  /** The latest confirmed date before `d`. */
  predicate IsLast(table: map<int, Row>, d: int, k: int) {
    && k in table && k < d && table[k].status.Confirmed?
    && forall j :: j in table && j < d && table[j].status.Confirmed? ==> j <= k
  }

  ghost function LastConfirmed(table: map<int, Row>, d: int): (r: Option<int>)
    ensures r.Some? ==> IsLast(table, d, r.value)
  {
    if k :| IsLast(table, d, k) then Some(k) else None
  }

  function UpsertConfirmed(table: map<int, Row>, d: int, sale: int, buy: int, effective: int, at: int): map<int, Row> {
    var attempts := if d in table then table[d].attempts else 0;
    table[d := Row(sale, buy, Confirmed, ApiPeru, effective, Some(at), Some(at), None, attempts, "")]
  }

  /** Never overwrites a row confirmed for its own date; keeps when a row was fetched. */
  function UpsertFallback(table: map<int, Row>, d: int, row: Row): map<int, Row> {
    if d in table && Own(table[d], d) then table
    else table[d := row.(fetchedAt := if d in table then table[d].fetchedAt else None)]
  }

  function FailureRow(d: int, prev: Option<Row>, at: int, attempts: int, msg: string): Row {
    if prev.Some? then
      Row(prev.value.sale, prev.value.buy, Fallback, FallbackPrevious, prev.value.effective,
          None, Some(at), Some(at + COOLDOWN), attempts, msg)
    else
      Row(0, 0, Unavailable, ApiPeru, d, None, Some(at), Some(at + COOLDOWN), attempts, msg)
  }

  function BorrowedRow(prevDate: int, prev: Row, at: int, attempts: int): Row {
    Row(prev.sale, prev.buy, Fallback, FallbackPrevious, prevDate, None, Some(at), Some(at + COOLDOWN), attempts, "")
  }

  function BorrowedResult(d: int, prevDate: int, prev: Row): Result {
    Result(true, d, prevDate, prev.sale, prev.buy, CacheCentral, Fallback, true)
  }

  function RowToResult(d: int, row: Row): Result {
    var own := Own(row, d);
    Result(
      row.sale > 0 && !row.status.Unavailable?, d, row.effective, row.sale, row.buy,
      if own then ApiPeru else CacheCentral, row.status,
      !own && (row.status.Fallback? || row.status.Pending? || row.effective != d))
  }

  ghost function RowOf(table: map<int, Row>, k: Option<int>): Option<Row> {
    if k.Some? && k.value in table then Some(table[k.value]) else None
  }

  ghost function PersistFailure(table: map<int, Row>, d: int, at: int, attempts: int, msg: string): map<int, Row> {
    UpsertFallback(table, d, FailureRow(d, RowOf(table, LastConfirmed(table, d)), at, attempts, msg))
  }

  /** Table and answer of buildFallbackFromPrevious. */
  ghost function FromPrevious(table: map<int, Row>, d: int, current: Option<Row>, now: int)
    : (map<int, Row>, Option<Result>)
  {
    if current.Some? && current.value.sale > 0 && RowToResult(d, current.value).success then
      (table, Some(RowToResult(d, current.value)))
    else
      var k := LastConfirmed(table, d);
      if k.None? || table[k.value].sale <= 0 then (table, None)
      else
        var attempts := if current.Some? then current.value.attempts else 1;
        (UpsertFallback(table, d, BorrowedRow(k.value, table[k.value], now, attempts)),
         Some(BorrowedResult(d, k.value, table[k.value])))
  }

  ghost function FallbackResponse(table: map<int, Row>, d: int, row: Row, now: int): (map<int, Row>, Option<Result>) {
    if row.sale > 0 then (table, Some(RowToResult(d, row))) else FromPrevious(table, d, Some(row), now)
  }

  // ---- a lookup, in its stages ----

  function NoRate(d: int): Result {
    Result(false, d, d, 0, 0, CacheCentral, Unavailable, false)
  }

  predicate CoolsDown(row: Row, now: int) {
    row.nextRetry.Some? && now < row.nextRetry.value
  }

  predicate ShouldFetch(table: map<int, Row>, d: int, today: int, force: bool, now: int) {
    if force then true
    else if d in table && Own(table[d], d) then false
    else if d in table && CoolsDown(table[d], now) then false
    else if d < today then d !in table || !table[d].status.Confirmed?
    else true
  }

  function Confirms(reply: Reply): bool {
    reply.Answered? && reply.ok && reply.sale > 0
  }

  function EffectiveDate(reply: Reply, d: int): int
    requires reply.Answered?
  {
    if reply.effective.Some? then reply.effective.value else d
  }

  function FetchedResult(reply: Reply, d: int): Result
    requires reply.Answered?
  {
    var e := EffectiveDate(reply, d);
    Result(true, d, e, reply.sale, reply.buy, ApiPeru, Confirmed, e != d)
  }

  function ErrorOf(reply: Reply): string {
    if reply.Broken? then reply.error
    else if reply.error != "" then reply.error
    else "tipo de cambio no disponible para la fecha indicada"
  }

  /** The provider has no rate: the attempt is recorded and an earlier date's rate is offered. */
  ghost function AfterFailure(st: Store, r: Request, d: int): Outcome {
    var attempts := if d in st.table then st.table[d].attempts + 1 else 1;
    var table := PersistFailure(st.table, d, r.t1, attempts, ErrorOf(r.reply));
    var (after, out) := FromPrevious(table, d, None, r.t2);
    Outcome(st.(table := after),
            if out.Some? then Found(out.value)
            else if r.reply.Broken? then ProviderError(r.reply.error)
            else Found(NoRate(d)),
            true)
  }

  function AfterSuccess(st: Store, r: Request, d: int): Outcome
    requires r.reply.Answered?
  {
    var res := FetchedResult(r.reply, d);
    var stored := st.(table := UpsertConfirmed(st.table, d, r.reply.sale, r.reply.buy, EffectiveDate(r.reply, d), r.t1));
    Outcome(CacheSet(stored, r.cacheUp, d, res, r.t2 + CacheTTL(d, r.today)), Found(res), true)
  }

  ghost function FetchAndPersist(st: Store, r: Request, d: int): Outcome {
    var hit := CacheGet(st, r.cacheUp, d, r.t1);
    if !r.lockFree then
      var waited := PeerResult(st, r.cacheUp, d, r.polls);
      if waited.Some? then Outcome(st, Found(waited.value), false)
      else
        var (after, out) := FromPrevious(st.table, d, None, r.t2);
        Outcome(st.(table := after), if out.Some? then Found(out.value) else InProgress, false)
    else if hit.Some? && !r.force then Outcome(st, Found(hit.value), false)
    else if Confirms(r.reply) then AfterSuccess(st, r, d)
    else AfterFailure(st, r, d)
  }

  /** No fetch: what the table has, or an earlier date's rate, or nothing. */
  ghost function FromTable(st: Store, r: Request, d: int): Outcome {
    if d in st.table && RowToResult(d, st.table[d]).success then
      var out := RowToResult(d, st.table[d]);
      Outcome(CacheSet(st, r.cacheUp, d, out, r.t2 + CacheTTL(d, r.today)), Found(out), false)
    else
      var (after, out) := FromPrevious(st.table, d, None, r.t2);
      if out.Some? then
        Outcome(CacheSet(st.(table := after), r.cacheUp, d, out.value, r.t2 + 5 * MINUTE), Found(out.value), false)
      else Outcome(st.(table := after), Found(NoRate(d)), false)
  }

  ghost function Missed(st: Store, r: Request, d: int): Outcome {
    if ShouldFetch(st.table, d, r.today, r.force, r.t0) then FetchAndPersist(st, r, d) else FromTable(st, r, d)
  }

  ghost function Lookup(st: Store, r: Request): Outcome {
    if r.date.None? then Outcome(st, BadDate, false)
    else
      var d := r.date.value;
      var hit := CacheGet(st, r.cacheUp, d, r.t0);
      if hit.Some? then Outcome(st, Found(hit.value), false)
      else if d in st.table && Own(st.table[d], d) then
        var out := RowToResult(d, st.table[d]);
        Outcome(CacheSet(st, r.cacheUp, d, out, r.t2 + CacheTTL(d, r.today)), Found(out), false)
      else if d in st.table && !r.force && st.table[d].status.Pending? && CoolsDown(st.table[d], r.t0) then
        var (after, out) := FallbackResponse(st.table, d, st.table[d], r.t2);
        if out.Some? then
          Outcome(CacheSet(st.(table := after), r.cacheUp, d, out.value, r.t2 + 5 * MINUTE), Found(out.value), false)
        else Missed(st.(table := after), r, d)
      else Missed(st, r, d)
  }

  // ---- the service ----

  class CacheService {
    var table: map<int, Row>
    var cache: map<int, Cached>

    constructor ()
      ensures State() == Store(map[], map[])
    {
      table, cache := map[], map[];
    }

    function State(): Store
      reads this
    {
      Store(table, cache)
    }

    /** The query: the confirmed row of the greatest date before `d`. */
    method FindLastConfirmedBefore(d: int) returns (k: Option<int>)
      ensures k == LastConfirmed(table, d)
    {
      if j :| j in table && IsLast(table, d, j) {
        return Some(j);
      }
      return None;
    }

    method SaveFallback(d: int, row: Row)
      modifies this`table
      ensures table == UpsertFallback(old(table), d, row)
    {
      var fetchedAt: Option<int> := None;
      if d in table {
        if table[d].status == Confirmed && table[d].effective == d {
          return;
        }
        fetchedAt := table[d].fetchedAt;
      }
      table := table[d := row.(fetchedAt := fetchedAt)];
    }

    method RecordFailure(d: int, at: int, attempts: int, msg: string)
      modifies this`table
      ensures table == PersistFailure(old(table), d, at, attempts, msg)
    {
      var k := FindLastConfirmedBefore(d);
      var prev: Option<Row> := if k.Some? then Some(table[k.value]) else None;
      SaveFallback(d, FailureRow(d, prev, at, attempts, msg));
    }

    method BuildFallbackFromPrevious(d: int, current: Option<Row>, now: int) returns (out: Option<Result>)
      modifies this`table
      ensures (table, out) == FromPrevious(old(table), d, current, now)
    {
      if current.Some? && current.value.sale > 0 {
        var res := RowToResult(d, current.value);
        if res.success {
          return Some(res);
        }
      }
      var k := FindLastConfirmedBefore(d);
      if k.None? || table[k.value].sale <= 0 {
        return None;
      }
      var attempts := 1;
      if current.Some? {
        attempts := current.value.attempts;
      }
      var prev := table[k.value];
      SaveFallback(d, BorrowedRow(k.value, prev, now, attempts));
      return Some(BorrowedResult(d, k.value, prev));
    }

    method WaitForPeer(up: bool, d: int, polls: seq<int>) returns (waited: Option<Result>)
      ensures waited == PeerResult(State(), up, d, polls)
    {
      for i := 0 to |polls|
        invariant PeerResult(State(), up, d, polls) == PeerResult(State(), up, d, polls[i..])
      {
        waited := CacheGet(State(), up, d, polls[i]);
        if waited.Some? {
          return;
        }
      }
      return None;
    }

    method Fetch(r: Request, d: int) returns (a: Answer, called: bool)
      modifies this
      ensures Outcome(State(), a, called) == FetchAndPersist(old(State()), r, d)
    {
      hide FromPrevious, PersistFailure, UpsertFallback;
      if !r.lockFree {
        var waited := WaitForPeer(r.cacheUp, d, r.polls);
        if waited.Some? {
          return Found(waited.value), false;
        }
        var out := BuildFallbackFromPrevious(d, None, r.t2);
        return if out.Some? then Found(out.value) else InProgress, false;
      }
      var hit := CacheGet(State(), r.cacheUp, d, r.t1);
      if hit.Some? && !r.force {
        return Found(hit.value), false;
      }
      var attempts := 1;
      if d in table {
        attempts := table[d].attempts + 1;
      }
      if Confirms(r.reply) {
        var e := EffectiveDate(r.reply, d);
        var kept := if d in table then table[d].attempts else 0;
        table := table[d := Row(r.reply.sale, r.reply.buy, Confirmed, ApiPeru, e, Some(r.t1), Some(r.t1), None, kept, "")];
        var res := FetchedResult(r.reply, d);
        if r.cacheUp {
          cache := cache[d := Cached(res, r.t2 + CacheTTL(d, r.today))];
        }
        return Found(res), true;
      }
      RecordFailure(d, r.t1, attempts, ErrorOf(r.reply));
      var out := BuildFallbackFromPrevious(d, None, r.t2);
      if out.Some? {
        return Found(out.value), true;
      }
      return if r.reply.Broken? then ProviderError(r.reply.error) else Found(NoRate(d)), true;
    }

    /** The end of get, when no fetch is due. */
    method ReadTable(r: Request, d: int) returns (a: Answer)
      modifies this
      ensures Outcome(State(), a, false) == FromTable(old(State()), r, d)
    {
      hide FromPrevious;
      if d in table {
        var res := RowToResult(d, table[d]);
        if res.success {
          if r.cacheUp {
            cache := cache[d := Cached(res, r.t2 + CacheTTL(d, r.today))];
          }
          return Found(res);
        }
      }
      var out := BuildFallbackFromPrevious(d, None, r.t2);
      if out.Some? {
        if r.cacheUp {
          cache := cache[d := Cached(out.value, r.t2 + 5 * MINUTE)];
        }
        return Found(out.value);
      }
      return Found(NoRate(d));
    }

    method Get(r: Request) returns (a: Answer, called: bool)
      modifies this
      ensures Outcome(State(), a, called) == Lookup(old(State()), r)
    {
      hide FromPrevious, FetchAndPersist, FromTable;
      if r.date.None? {
        return BadDate, false;
      }
      var d := r.date.value;
      var hit := CacheGet(State(), r.cacheUp, d, r.t0);
      if hit.Some? {
        return Found(hit.value), false;
      }
      if d in table {
        var row := table[d];
        if row.status == Confirmed && row.effective == d {
          var out := RowToResult(d, row);
          if r.cacheUp {
            cache := cache[d := Cached(out, r.t2 + CacheTTL(d, r.today))];
          }
          return Found(out), false;
        }
        if !r.force && row.status == Pending && CoolsDown(row, r.t0) {
          var out: Option<Result>;
          if row.sale > 0 {
            out := Some(RowToResult(d, row));
          } else {
            out := BuildFallbackFromPrevious(d, Some(row), r.t2);
          }
          if out.Some? {
            if r.cacheUp {
              cache := cache[d := Cached(out.value, r.t2 + 5 * MINUTE)];
            }
            return Found(out.value), false;
          }
        }
      }
      if ShouldFetch(table, d, r.today, r.force, r.t0) {
        a, called := Fetch(r, d);
      } else {
        a := ReadTable(r, d);
        called := false;
      }
    }
  }
}
