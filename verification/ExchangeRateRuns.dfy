/** Lookups one after another: where rates come from, and when the provider is asked again. */
module ExchangeRateRuns {
  import opened Wrappers
  import opened ExchangeRate

  // ---- where rates come from ----

  /** A rate the provider gave when asked for `date`. */
  datatype Quote = Quote(date: int, sale: int, buy: int, effective: int)

  function QuoteOf(d: int, reply: Reply): Quote
    requires reply.Answered?
  {
    Quote(d, reply.sale, reply.buy, EffectiveDate(reply, d))
  }

  /** `q` stands behind these rates, shown as effective on its own date or on the date it was asked for. */
  predicate Backs(q: Quote, sale: int, buy: int, effective: int) {
    q.sale == sale && q.buy == buy && (effective == q.date || effective == q.effective)
  }

  ghost predicate Earlier(quotes: set<Quote>, d: int, sale: int, buy: int, effective: int) {
    exists q :: q in quotes && q.date < d && Backs(q, sale, buy, effective)
  }

  ghost predicate RowGood(quotes: set<Quote>, d: int, row: Row) {
    match row.status
    case Confirmed => row.sale > 0 && Quote(d, row.sale, row.buy, row.effective) in quotes
    case Fallback => row.sale > 0 && Earlier(quotes, d, row.sale, row.buy, row.effective)
    case Unavailable => row.sale == 0
    case Pending => false
  }

  /** A successful result unmarked as fallback is the provider's own reply for that very date. */
  ghost predicate ResultGood(quotes: set<Quote>, d: int, res: Result) {
    && res.date == d
    && (res.success ==>
          && res.sale > 0
          && if res.fallback then
               Quote(d, res.sale, res.buy, res.effective) in quotes || Earlier(quotes, d, res.sale, res.buy, res.effective)
             else Quote(d, res.sale, res.buy, d) in quotes && res.effective == d)
  }

  ghost predicate TableGood(quotes: set<Quote>, table: map<int, Row>) {
    forall d {:trigger RowGood(quotes, d, table[d])} {:trigger d in table} :: d in table ==> RowGood(quotes, d, table[d])
  }

  ghost predicate CacheGood(quotes: set<Quote>, cache: map<int, Cached>) {
    forall d {:trigger d in cache} :: d in cache ==> cache[d].res.success && ResultGood(quotes, d, cache[d].res)
  }

  ghost predicate Good(quotes: set<Quote>, st: Store) {
    TableGood(quotes, st.table) && CacheGood(quotes, st.cache)
  }

  lemma MoreQuotes(quotes: set<Quote>, more: set<Quote>, st: Store)
    requires Good(quotes, st) && quotes <= more
    ensures Good(more, st)
  {
    forall d | d in st.table ensures RowGood(more, d, st.table[d]) {
      assert RowGood(quotes, d, st.table[d]);
    }
    forall d | d in st.cache ensures st.cache[d].res.success && ResultGood(more, d, st.cache[d].res) {
      assert ResultGood(quotes, d, st.cache[d].res);
    }
  }

  lemma RowResultIsGood(quotes: set<Quote>, d: int, row: Row)
    requires RowGood(quotes, d, row)
    ensures ResultGood(quotes, d, RowToResult(d, row))
  {
  }

  /** What is borrowed from an earlier confirmed row is backed by that row's quote. */
  lemma BorrowIsGood(quotes: set<Quote>, d: int, k: int, prev: Row, at: int, attempts: int, msg: string)
    requires k < d && prev.status.Confirmed? && RowGood(quotes, k, prev)
    ensures RowGood(quotes, d, FailureRow(d, Some(prev), at, attempts, msg))
    ensures RowGood(quotes, d, BorrowedRow(k, prev, at, attempts))
    ensures ResultGood(quotes, d, BorrowedResult(d, k, prev))
  {
    var q := Quote(k, prev.sale, prev.buy, prev.effective);
    assert Backs(q, prev.sale, prev.buy, prev.effective) && Backs(q, prev.sale, prev.buy, k);
  }

  lemma FallbackKeepsTable(quotes: set<Quote>, table: map<int, Row>, d: int, row: Row)
    requires TableGood(quotes, table) && RowGood(quotes, d, row)
    ensures TableGood(quotes, UpsertFallback(table, d, row))
  {
    var after := UpsertFallback(table, d, row);
    forall k | k in after ensures RowGood(quotes, k, after[k]) {
      if k in table { assert RowGood(quotes, k, table[k]); }
    }
  }

  lemma FailureKeepsTable(quotes: set<Quote>, table: map<int, Row>, d: int, at: int, attempts: int, msg: string)
    requires TableGood(quotes, table)
    ensures TableGood(quotes, PersistFailure(table, d, at, attempts, msg))
  {
    var k := LastConfirmed(table, d);
    if k.Some? { BorrowIsGood(quotes, d, k.value, table[k.value], at, attempts, msg); }
    FallbackKeepsTable(quotes, table, d, FailureRow(d, RowOf(table, k), at, attempts, msg));
  }

  lemma PreviousKeepsTable(quotes: set<Quote>, table: map<int, Row>, d: int, now: int)
    requires TableGood(quotes, table)
    ensures TableGood(quotes, FromPrevious(table, d, None, now).0)
    ensures var out := FromPrevious(table, d, None, now).1;
            out.Some? ==> out.value.success && ResultGood(quotes, d, out.value)
  {
    var k := LastConfirmed(table, d);
    if k.Some? {
      BorrowIsGood(quotes, d, k.value, table[k.value], now, 1, "");
      FallbackKeepsTable(quotes, table, d, BorrowedRow(k.value, table[k.value], now, 1));
    }
  }

  lemma ConfirmKeepsTable(quotes: set<Quote>, table: map<int, Row>, d: int, reply: Reply, at: int)
    requires TableGood(quotes, table) && Confirms(reply) && QuoteOf(d, reply) in quotes
    ensures TableGood(quotes, UpsertConfirmed(table, d, reply.sale, reply.buy, EffectiveDate(reply, d), at))
    ensures ResultGood(quotes, d, FetchedResult(reply, d))
  {
    var after := UpsertConfirmed(table, d, reply.sale, reply.buy, EffectiveDate(reply, d), at);
    forall k | k in after ensures RowGood(quotes, k, after[k]) {
      if k in table { assert RowGood(quotes, k, table[k]); }
    }
  }

  lemma CacheSetKeepsGood(quotes: set<Quote>, st: Store, up: bool, d: int, res: Result, until: int)
    requires Good(quotes, st) && res.success && ResultGood(quotes, d, res)
    ensures Good(quotes, CacheSet(st, up, d, res, until))
  {
    hide RowGood, ResultGood;
  }

  /** What the provider has quoted once `r` is through. */
  ghost function Quoted(quotes: set<Quote>, st: Store, r: Request): set<Quote> {
    if r.date.Some? && Lookup(st, r).called && Confirms(r.reply) then quotes + {QuoteOf(r.date.value, r.reply)} else quotes
  }

  ghost predicate AnswerGood(quotes: set<Quote>, r: Request, a: Answer) {
    a.Found? ==> r.date.Some? && ResultGood(quotes, r.date.value, a.res)
  }

  ghost predicate OutcomeGood(quotes: set<Quote>, r: Request, o: Outcome) {
    Good(quotes, o.st) && AnswerGood(quotes, r, o.answer)
  }

  lemma FailureIsGood(quotes: set<Quote>, st: Store, r: Request, d: int)
    requires Good(quotes, st) && r.date == Some(d)
    ensures OutcomeGood(quotes, r, AfterFailure(st, r, d))
  {
    hide RowGood, PersistFailure, FromPrevious;
    var attempts := if d in st.table then st.table[d].attempts + 1 else 1;
    FailureKeepsTable(quotes, st.table, d, r.t1, attempts, ErrorOf(r.reply));
    PreviousKeepsTable(quotes, PersistFailure(st.table, d, r.t1, attempts, ErrorOf(r.reply)), d, r.t2);
  }

  lemma SuccessIsGood(quotes: set<Quote>, st: Store, r: Request, d: int)
    requires Good(quotes, st) && r.date == Some(d) && Confirms(r.reply)
    ensures OutcomeGood(quotes + {QuoteOf(d, r.reply)}, r, AfterSuccess(st, r, d))
  {
    hide RowGood, ResultGood, UpsertConfirmed;
    var more := quotes + {QuoteOf(d, r.reply)};
    MoreQuotes(quotes, more, st);
    ConfirmKeepsTable(more, st.table, d, r.reply, r.t1);
    var stored := st.(table := UpsertConfirmed(st.table, d, r.reply.sale, r.reply.buy, EffectiveDate(r.reply, d), r.t1));
    CacheSetKeepsGood(more, stored, r.cacheUp, d, FetchedResult(r.reply, d), r.t2 + CacheTTL(d, r.today));
  }

  lemma TableAnswerIsGood(quotes: set<Quote>, st: Store, r: Request, d: int)
    requires Good(quotes, st) && r.date == Some(d)
    ensures OutcomeGood(quotes, r, FromTable(st, r, d))
  {
    hide RowGood, FromPrevious, CacheSet;
    if d in st.table { RowResultIsGood(quotes, d, st.table[d]); }
    if d in st.table && RowToResult(d, st.table[d]).success {
      CacheSetKeepsGood(quotes, st, r.cacheUp, d, RowToResult(d, st.table[d]), r.t2 + CacheTTL(d, r.today));
    } else {
      PreviousKeepsTable(quotes, st.table, d, r.t2);
      var (after, out) := FromPrevious(st.table, d, None, r.t2);
      if out.Some? {
        CacheSetKeepsGood(quotes, st.(table := after), r.cacheUp, d, out.value, r.t2 + 5 * MINUTE);
      }
    }
  }

  lemma FetchIsGood(quotes: set<Quote>, st: Store, r: Request, d: int)
    requires Good(quotes, st) && r.date == Some(d)
    ensures var o := FetchAndPersist(st, r, d);
            OutcomeGood(if o.called && Confirms(r.reply) then quotes + {QuoteOf(d, r.reply)} else quotes, r, o)
  {
    hide RowGood, ResultGood, FromPrevious, AfterSuccess, AfterFailure;
    var hit := CacheGet(st, r.cacheUp, d, r.t1);
    if !r.lockFree {
      PeerResultWasCached(st, r.cacheUp, d, r.polls);
      PreviousKeepsTable(quotes, st.table, d, r.t2);
    } else if hit.None? || r.force {
      if Confirms(r.reply) {
        SuccessIsGood(quotes, st, r, d);
        assert AfterSuccess(st, r, d).called by { CallsAreMarked(st, r, d); }
      } else {
        FailureIsGood(quotes, st, r, d);
      }
    }
  }

  lemma {:induction false} PeerResultWasCached(st: Store, up: bool, d: int, polls: seq<int>)
    ensures var out := PeerResult(st, up, d, polls);
            out.Some? ==> exists now :: CacheGet(st, up, d, now) == out
  {
    hide CacheGet;
    if polls != [] {
      PeerResultWasCached(st, up, d, polls[1..]);
    }
  }

  lemma CallsAreMarked(st: Store, r: Request, d: int)
    ensures AfterFailure(st, r, d).called
    ensures r.reply.Answered? ==> AfterSuccess(st, r, d).called
  {
  }

  /** One lookup, any clock, any failure of cache, lock or provider. */
  lemma LookupKeepsProvenance(quotes: set<Quote>, st: Store, r: Request)
    requires Good(quotes, st)
    ensures OutcomeGood(Quoted(quotes, st, r), r, Lookup(st, r))
  {
    hide FetchAndPersist, FromTable, ShouldFetch, FallbackResponse, CacheSet, ResultGood;
    if r.date.Some? {
      var d := r.date.value;
      FetchIsGood(quotes, st, r, d);
      TableAnswerIsGood(quotes, st, r, d);
      TableIsNotFetched(st, r, d);
      if d in st.table {
        assert RowGood(quotes, d, st.table[d]);
        RowResultIsGood(quotes, d, st.table[d]);
        if Own(st.table[d], d) {
          CacheSetKeepsGood(quotes, st, r.cacheUp, d, RowToResult(d, st.table[d]), r.t2 + CacheTTL(d, r.today));
        }
      }
    }
  }

  lemma TableIsNotFetched(st: Store, r: Request, d: int)
    ensures !FromTable(st, r, d).called
  {
  }

  // ---- sequences of lookups ----

  ghost function StoreAfter(st: Store, rs: seq<Request>): Store
    decreases |rs|
  {
    if rs == [] then st else StoreAfter(Lookup(st, rs[0]).st, rs[1..])
  }

  ghost function QuotedIn(quotes: set<Quote>, st: Store, rs: seq<Request>): set<Quote>
    decreases |rs|
  {
    if rs == [] then quotes else QuotedIn(Quoted(quotes, st, rs[0]), Lookup(st, rs[0]).st, rs[1..])
  }

  lemma {:induction false} ProvenanceAlong(quotes: set<Quote>, st: Store, rs: seq<Request>)
    requires Good(quotes, st)
    ensures Good(QuotedIn(quotes, st, rs), StoreAfter(st, rs))
    decreases |rs|
  {
    hide Good, Quoted, Lookup, AnswerGood;
    if rs != [] {
      LookupKeepsProvenance(quotes, st, rs[0]);
      ProvenanceAlong(Quoted(quotes, st, rs[0]), Lookup(st, rs[0]).st, rs[1..]);
    }
  }

  const EMPTY: Store := Store(map[], map[])

  /** After any lookups, everything stored, and the next answer, was quoted by the provider for that date or earlier. */
  lemma RatesWereQuoted(rs: seq<Request>, next: Request)
    ensures var quotes := QuotedIn({}, EMPTY, rs); var st := StoreAfter(EMPTY, rs);
            && Good(quotes, st)
            && AnswerGood(Quoted(quotes, st, next), next, Lookup(st, next).answer)
            && (forall d :: d in st.table ==> !st.table[d].status.Pending?)
  {
    hide Lookup, Quoted, StoreAfter, QuotedIn;
    var quotes := QuotedIn({}, EMPTY, rs);
    var st := StoreAfter(EMPTY, rs);
    assert Good({}, EMPTY);
    ProvenanceAlong({}, EMPTY, rs);
    LookupKeepsProvenance(quotes, st, next);
    forall d | d in st.table ensures !st.table[d].status.Pending? {
      assert RowGood(quotes, d, st.table[d]);
    }
  }

  // ---- asking the provider again ----

  predicate Timely(r: Request) {
    r.t0 <= r.t1 <= r.t2
  }

  predicate InOrder(since: int, rs: seq<Request>)
    decreases |rs|
  {
    rs == [] || (since <= rs[0].t0 && Timely(rs[0]) && InOrder(rs[0].t2, rs[1..]))
  }

  lemma FetchKeepsOwnRow(st: Store, r: Request, d: int, e: int)
    requires e in st.table && Own(st.table[e], e) && d != e
    ensures var after := FetchAndPersist(st, r, d).st; e in after.table && after.table[e] == st.table[e]
  {
    hide LastConfirmed;
  }

  lemma TableKeepsOwnRow(st: Store, r: Request, d: int, e: int)
    requires e in st.table && Own(st.table[e], e)
    ensures var after := FromTable(st, r, d).st; e in after.table && after.table[e] == st.table[e]
  {
    hide LastConfirmed;
  }

  lemma OwnRowEndsLookup(st: Store, r: Request, d: int)
    requires d in st.table && Own(st.table[d], d)
    ensures var o := Lookup(st, r);
            && d in o.st.table && o.st.table[d] == st.table[d]
            && (r.date == Some(d) ==> !o.called)
  {
    hide FetchAndPersist, FromTable, LastConfirmed, RowToResult;
    if r.date.Some? && r.date.value != d {
      var e := r.date.value;
      FetchKeepsOwnRow(st, r, e, d);
      TableKeepsOwnRow(st, r, e, d);
      if e in st.table {
        var after := FallbackResponse(st.table, e, st.table[e], r.t2).0;
        assert d in after && after[d] == st.table[d];
        FetchKeepsOwnRow(st.(table := after), r, e, d);
        TableKeepsOwnRow(st.(table := after), r, e, d);
      }
    }
  }

  /** A rate confirmed for its own date is final: no lookup, forced or not, changes the row or asks for that date again. */
  lemma {:induction false} OwnRateIsFinal(st: Store, rs: seq<Request>, next: Request, d: int)
    requires d in st.table && Own(st.table[d], d)
    ensures var after := StoreAfter(st, rs);
            && d in after.table && after.table[d] == st.table[d]
            && (next.date == Some(d) ==> !Lookup(after, next).called)
    decreases |rs|
  {
    hide Lookup;
    if rs == [] {
      OwnRowEndsLookup(st, next, d);
    } else {
      OwnRowEndsLookup(st, rs[0], d);
      OwnRateIsFinal(Lookup(st, rs[0]).st, rs[1..], next, d);
    }
  }

  /** Unforced lookups for `d` leave the provider alone before `until`. */
  predicate Cooling(table: map<int, Row>, d: int, until: int) {
    d in table && (Own(table[d], d) || (table[d].nextRetry.Some? && until <= table[d].nextRetry.value))
  }

  lemma PreviousKeepsCooling(table: map<int, Row>, d: int, current: Option<Row>, now: int, e: int, until: int)
    requires Cooling(table, e, until) && until <= now + COOLDOWN
    ensures Cooling(FromPrevious(table, d, current, now).0, e, until)
  {
    hide LastConfirmed;
  }

  lemma FailureStartsCooling(st: Store, r: Request, d: int)
    requires Timely(r)
    ensures Cooling(AfterFailure(st, r, d).st.table, d, r.t1 + COOLDOWN)
  {
    hide FromPrevious, LastConfirmed;
    var attempts := if d in st.table then st.table[d].attempts + 1 else 1;
    PreviousKeepsCooling(PersistFailure(st.table, d, r.t1, attempts, ErrorOf(r.reply)), d, None, r.t2, d, r.t1 + COOLDOWN);
  }

  lemma FailureKeepsCooling(st: Store, r: Request, d: int, e: int, until: int)
    requires Timely(r) && Cooling(st.table, e, until) && until <= r.t1 + COOLDOWN
    ensures Cooling(AfterFailure(st, r, d).st.table, e, until)
  {
    hide FromPrevious, LastConfirmed;
    var attempts := if d in st.table then st.table[d].attempts + 1 else 1;
    PreviousKeepsCooling(PersistFailure(st.table, d, r.t1, attempts, ErrorOf(r.reply)), d, None, r.t2, e, until);
  }

  /** A forced lookup for `d` that got a rate. */
  ghost predicate Refresh(st: Store, r: Request, d: int) {
    r.date == Some(d) && r.force && Lookup(st, r).called && Confirms(r.reply)
  }

  ghost predicate Refreshed(st: Store, rs: seq<Request>, d: int)
    decreases |rs|
  {
    rs != [] && (Refresh(st, rs[0], d) || Refreshed(Lookup(st, rs[0]).st, rs[1..], d))
  }

  lemma FetchKeepsCooling(st: Store, r: Request, d: int, e: int, until: int)
    requires Timely(r) && Cooling(st.table, e, until) && until <= r.t0 + COOLDOWN
    ensures var o := FetchAndPersist(st, r, d);
            Cooling(o.st.table, e, until) || (d == e && o.called && Confirms(r.reply))
  {
    hide FromPrevious, AfterFailure;
    PreviousKeepsCooling(st.table, d, None, r.t2, e, until);
    FailureKeepsCooling(st, r, d, e, until);
  }

  /** Until the cooldown is over, an unforced lookup does not ask, and only a refresh can end it. */
  lemma LookupKeepsCooling(st: Store, r: Request, d: int, until: int)
    requires Timely(r) && Cooling(st.table, d, until) && r.t0 < until <= r.t0 + COOLDOWN
    ensures r.date == Some(d) && !r.force ==> !Lookup(st, r).called
    ensures Cooling(Lookup(st, r).st.table, d, until) || Refresh(st, r, d)
  {
    hide FetchAndPersist, FromPrevious, RowToResult;
    if r.date.Some? {
      var e := r.date.value;
      PreviousKeepsCooling(st.table, e, None, r.t2, d, until);
      FetchKeepsCooling(st, r, e, d, until);
      if e in st.table {
        PreviousKeepsCooling(st.table, e, Some(st.table[e]), r.t2, d, until);
        var after := FallbackResponse(st.table, e, st.table[e], r.t2).0;
        PreviousKeepsCooling(after, e, None, r.t2, d, until);
        FetchKeepsCooling(st.(table := after), r, e, d, until);
      }
    }
  }

  lemma {:induction false} CoolingLasts(st: Store, rs: seq<Request>, since: int, next: Request, d: int, until: int)
    requires Cooling(st.table, d, until) && until <= since + COOLDOWN
    requires InOrder(since, rs + [next]) && next.t0 < until && next.date == Some(d) && !next.force
    requires !Refreshed(st, rs, d)
    ensures !Lookup(StoreAfter(st, rs), next).called
    decreases |rs|
  {
    hide Lookup, Cooling;
    if rs == [] {
      assert rs + [next] == [next];
      LookupKeepsCooling(st, next, d, until);
    } else {
      assert (rs + [next])[0] == rs[0] && (rs + [next])[1..] == rs[1..] + [next];
      InOrderReaches(rs[0].t2, rs[1..], next);
      LookupKeepsCooling(st, rs[0], d, until);
      CoolingLasts(Lookup(st, rs[0]).st, rs[1..], rs[0].t2, next, d, until);
    }
  }

  lemma {:induction false} InOrderReaches(since: int, rs: seq<Request>, next: Request)
    requires InOrder(since, rs + [next])
    ensures since <= next.t0
    decreases |rs|
  {
    if rs == [] {
      assert rs + [next] == [next];
    } else {
      assert (rs + [next])[0] == rs[0] && (rs + [next])[1..] == rs[1..] + [next];
      InOrderReaches(rs[0].t2, rs[1..], next);
    }
  }

  lemma CalledInVainIsFailure(st: Store, r: Request, d: int)
    requires r.date == Some(d) && Lookup(st, r).called && !Confirms(r.reply)
    ensures exists was :: Lookup(st, r) == AfterFailure(was, r, d)
  {
    hide AfterFailure, FromPrevious;
    if d in st.table && !r.force && st.table[d].status.Pending? && CoolsDown(st.table[d], r.t0) {
      var was := st.(table := FallbackResponse(st.table, d, st.table[d], r.t2).0);
      assert Lookup(st, r) == AfterFailure(was, r, d);
    } else {
      assert Lookup(st, r) == AfterFailure(st, r, d);
    }
  }

  /** After a failed attempt no unforced lookup for that date asks within the hour, unless a refresh got a rate. */
  lemma FailedAttemptIsNotRepeated(st: Store, r: Request, rs: seq<Request>, next: Request, d: int)
    requires r.date == Some(d) && Timely(r) && Lookup(st, r).called && !Confirms(r.reply)
    requires InOrder(r.t2, rs + [next])
    requires next.date == Some(d) && !next.force && next.t0 < r.t1 + 3_600_000_000_000
    requires !Refreshed(Lookup(st, r).st, rs, d)
    ensures !Lookup(StoreAfter(Lookup(st, r).st, rs), next).called
  {
    hide Lookup, AfterFailure, Cooling;
    CalledInVainIsFailure(st, r, d);
    var was :| Lookup(st, r) == AfterFailure(was, r, d);
    FailureStartsCooling(was, r, d);
    CoolingLasts(Lookup(st, r).st, rs, r.t2, next, d, r.t1 + COOLDOWN);
  }

  /** A refresh skips the cooldown, but not the cache and not a row confirmed for its own date. */
  lemma ForcedAsksIff(st: Store, r: Request, d: int)
    requires r.date == Some(d) && r.force
    ensures Lookup(st, r).called <==>
            && !(r.cacheUp && d in st.cache && r.t0 < st.cache[d].until && st.cache[d].res.success)
            && !(d in st.table && st.table[d].status == Confirmed && st.table[d].effective == d)
            && r.lockFree
  {
    CallsAreMarked(st, r, d);
  }

  /** A failed attempt counts up only while there is no earlier rate to borrow; borrowing one resets the count to 1. */
  lemma AttemptsAfterFailure(quotes: set<Quote>, st: Store, r: Request, d: int)
    requires Good(quotes, st) && !(d in st.table && Own(st.table[d], d))
    ensures var o := AfterFailure(st, r, d).st.table;
            d in o && o[d].attempts == if LastConfirmed(st.table, d).Some? then 1
                                       else if d in st.table then st.table[d].attempts + 1 else 1
  {
    hide RowGood, ResultGood;
    var attempts := if d in st.table then st.table[d].attempts + 1 else 1;
    var table := PersistFailure(st.table, d, r.t1, attempts, ErrorOf(r.reply));
    LastLooksBack(st.table, table, d);
    var k := LastConfirmed(st.table, d);
    if k.Some? {
      ConfirmedIsPositive(quotes, k.value, st.table[k.value]);
    }
  }

  /** The date borrowed from depends on earlier rows only. */
  lemma LastLooksBack(table: map<int, Row>, other: map<int, Row>, d: int)
    requires forall j :: j < d ==> (j in table <==> j in other) && (j in table ==> table[j] == other[j])
    ensures LastConfirmed(table, d) == LastConfirmed(other, d)
  {
    assert forall k :: IsLast(table, d, k) <==> IsLast(other, d, k);
  }

  lemma ConfirmedIsPositive(quotes: set<Quote>, d: int, row: Row)
    requires RowGood(quotes, d, row) && row.status.Confirmed?
    ensures row.sale > 0
  {
  }
}
