/** When a lookup asks the provider, and what it answers, by what the store and the request hold. */
module ExchangeRateAnswers {
  import opened Wrappers
  import opened ExchangeRate
  import opened ExchangeRateRuns

  /** Redis answers at this time with a rate cached for the date. */
  predicate Live(st: Store, r: Request, d: int, at: int) {
    r.cacheUp && d in st.cache && st.cache[d].res.success && at < st.cache[d].until
  }

  predicate HasStatus(st: Store, d: int, status: Status) {
    d in st.table && st.table[d].status == status
  }

  /** The date's own rate is confirmed. */
  predicate Settled(st: Store, d: int) {
    HasStatus(st, d, Confirmed) && st.table[d].effective == d
  }

  predicate RetryPending(st: Store, d: int, at: int) {
    d in st.table && st.table[d].nextRetry.Some? && at < st.table[d].nextRetry.value
  }

  /** The provider answers with a rate. */
  predicate Quotes(reply: Reply) {
    reply.Answered? && reply.ok && reply.sale > 0
  }

  /** A fetch is wanted: forced, or after the cooldown for today, later, or a date without a confirmed row. */
  predicate Wanted(st: Store, r: Request, d: int) {
    r.force || (!RetryPending(st, d, r.t0) && (r.today <= d || !HasStatus(st, d, Confirmed)))
  }

  predicate EarlierRate(st: Store, d: int) {
    exists k :: k in st.table && k < d && st.table[k].status.Confirmed?
  }

  /** Nothing changes when a pending row in its cooldown yields no answer. */
  lemma PendingWithoutAnswer(st: Store, r: Request, d: int)
    requires d in st.table && FallbackResponse(st.table, d, st.table[d], r.t2).1.None?
    ensures FallbackResponse(st.table, d, st.table[d], r.t2).0 == st.table
  {}

  lemma PendingIsAnswered(st: Store, r: Request, d: int)
    requires r.date == Some(d) && CacheGet(st, r.cacheUp, d, r.t0).None? && d in st.table && !r.force
    requires st.table[d].status.Pending? && CoolsDown(st.table[d], r.t0)
    ensures !Lookup(st, r).called
  {
    hide FromPrevious, FetchAndPersist;
    if FallbackResponse(st.table, d, st.table[d], r.t2).1.None? {
      PendingWithoutAnswer(st, r, d);
    }
  }

  /**
   The exact condition for asking: no live cache entry when the lookup starts or, unforced, fetches; the date not
   settled; a fetch wanted; and the lock free.
   */
  lemma LookupAsksIff(st: Store, r: Request, d: int)
    requires r.date == Some(d)
    ensures Lookup(st, r).called <==>
            && !Live(st, r, d, r.t0) && (r.force || !Live(st, r, d, r.t1))
            && !Settled(st, d)
            && Wanted(st, r, d)
            && r.lockFree
  {
    hide AfterFailure, AfterSuccess, FromTable, FallbackResponse;
    TableIsNotFetched(st, r, d);
    CallsAreMarked(st, r, d);
    if !r.force && d in st.table && st.table[d].status.Pending? && CoolsDown(st.table[d], r.t0)
       && CacheGet(st, r.cacheUp, d, r.t0).None? {
      PendingIsAnswered(st, r, d);
    }
  }

  /** A lookup that asks does what follows a missed cache, on the store as it found it. */
  lemma AskingGoesOn(st: Store, r: Request, d: int)
    requires r.date == Some(d) && Lookup(st, r).called
    ensures Lookup(st, r) == if Quotes(r.reply) then AfterSuccess(st, r, d) else AfterFailure(st, r, d)
  {
    hide AfterFailure, AfterSuccess, FromTable, FallbackResponse;
    LookupAsksIff(st, r, d);
  }

  /** The rate that the provider gives is the answer and goes to the date's row, and no other row changes. */
  lemma AskedRateIsAnswered(st: Store, r: Request, d: int)
    requires r.date == Some(d) && Lookup(st, r).called && Quotes(r.reply)
    ensures var o := Lookup(st, r); var e := if r.reply.effective.Some? then r.reply.effective.value else d;
            && o.answer.Found? && o.answer.res.success && o.answer.res.date == d && o.answer.res.effective == e
            && o.answer.res.sale == r.reply.sale && o.answer.res.buy == r.reply.buy && (o.answer.res.fallback <==> e != d)
            && var attempts := if d in st.table then st.table[d].attempts else 0;
               o.st.table == st.table[d := Row(r.reply.sale, r.reply.buy, Confirmed, ApiPeru, e, Some(r.t1), Some(r.t1),
                                               None, attempts, "")]
  {
    hide Lookup;
    AskingGoesOn(st, r, d);
  }

  /** Then the cache serves that rate for two days if it is today's and for thirty days if it is not. */
  lemma CachedRateServes(st: Store, r: Request, d: int, next: Request)
    requires r.date == Some(d) && Lookup(st, r).called && Quotes(r.reply) && r.cacheUp
    requires next.date == Some(d) && next.cacheUp
    requires next.t0 < r.t2 + if d == r.today then 172_800_000_000_000 else 2_592_000_000_000_000
    ensures var o := Lookup(st, r); Lookup(o.st, next) == Outcome(o.st, o.answer, false)
  {
    hide Lookup;
    AskingGoesOn(st, r, d);
    var o := AfterSuccess(st, r, d);
    HitEndsLookup(o.st, next, d);
  }

  lemma HitEndsLookup(st: Store, r: Request, d: int)
    requires r.date == Some(d) && Live(st, r, d, r.t0)
    ensures Lookup(st, r) == Outcome(st, Found(st.cache[d].res), false)
  {}

  /** After a failed attempt the latest earlier confirmed rate is offered, marked as what it is. */
  lemma FailedLookupBorrowsLatest(quotes: set<Quote>, st: Store, r: Request, d: int) returns (k: int)
    requires Good(quotes, st) && r.date == Some(d) && Lookup(st, r).called && !Quotes(r.reply) && EarlierRate(st, d)
    ensures k in st.table && k < d && st.table[k].status.Confirmed?
    ensures forall j :: j in st.table && j < d && st.table[j].status.Confirmed? ==> j <= k
    ensures Lookup(st, r).answer ==
            Found(Result(true, d, k, st.table[k].sale, st.table[k].buy, CacheCentral, Fallback, true))
  {
    hide Lookup, RowGood;
    AskingGoesOn(st, r, d);
    SomeLast(st.table, d);
    k := LastConfirmed(st.table, d).value;
    ConfirmedIsPositive(quotes, k, st.table[k]);
    FailureAnswers(st, r, d);
  }

  predicate Offers(table: map<int, Row>, d: int, k: int) {
    k in table && k < d && table[k].status.Confirmed?
  }

  lemma {:induction false} LastExists(table: map<int, Row>, d: int, dates: set<int>) returns (k: int)
    requires exists j :: j in dates && Offers(table, d, j)
    ensures k in dates && Offers(table, d, k) && forall j :: j in dates && Offers(table, d, j) ==> j <= k
    decreases |dates|
  {
    k :| k in dates && Offers(table, d, k);
    hide Offers;
    if j :| j in dates - {k} && Offers(table, d, j) {
      var best := LastExists(table, d, dates - {k});
      k := if best > k then best else k;
    }
  }

  lemma SomeLast(table: map<int, Row>, d: int)
    requires exists k :: k in table && k < d && table[k].status.Confirmed?
    ensures LastConfirmed(table, d).Some?
  {
    var j :| Offers(table, d, j) && j in table.Keys;
    var k := LastExists(table, d, table.Keys);
    assert IsLast(table, d, k) by {
      assert forall j :: j in table && j < d && table[j].status.Confirmed? ==> Offers(table, d, j) && j in table.Keys;
    }
  }

  /** Borrowing reads the dates before `d` only, which the record of the failure leaves alone. */
  lemma FailureAnswers(st: Store, r: Request, d: int)
    ensures var k := LastConfirmed(st.table, d); var a := AfterFailure(st, r, d).answer;
            if k.Some? && st.table[k.value].sale > 0 then
              a == Found(BorrowedResult(d, k.value, st.table[k.value]))
            else a == if r.reply.Broken? then ProviderError(r.reply.error) else Found(NoRate(d))
  {
    var attempts := if d in st.table then st.table[d].attempts + 1 else 1;
    var table := PersistFailure(st.table, d, r.t1, attempts, ErrorOf(r.reply));
    LastLooksBack(st.table, table, d);
  }

  predicate GivesRate(a: Answer) {
    a.Found? && a.res.success
  }

  lemma EarlierIff(quotes: set<Quote>, st: Store, d: int)
    requires Good(quotes, st)
    ensures var k := LastConfirmed(st.table, d); EarlierRate(st, d) <==> k.Some? && st.table[k.value].sale > 0
  {
    hide RowGood, CacheGood;
    if EarlierRate(st, d) {
      SomeLast(st.table, d);
    }
    var k := LastConfirmed(st.table, d);
    if k.Some? {
      ConfirmedIsPositive(quotes, k.value, st.table[k.value]);
    }
  }

  lemma {:induction false} PeerIff(st: Store, r: Request, d: int, polls: seq<int>)
    ensures PeerResult(st, r.cacheUp, d, polls).Some? <==> exists i :: 0 <= i < |polls| && Live(st, r, d, polls[i])
    ensures var p := PeerResult(st, r.cacheUp, d, polls); p.Some? ==> p.value.success
  {
    if polls != [] {
      PeerIff(st, r, d, polls[1..]);
      assert polls[0] == polls[..][0];
      if i :| 0 <= i < |polls[1..]| && Live(st, r, d, polls[1..][i]) {
        assert Live(st, r, d, polls[i + 1]);
      }
      if i :| 0 <= i < |polls| && Live(st, r, d, polls[i]) && i > 0 {
        assert Live(st, r, d, polls[1..][i - 1]);
      }
    }
  }

  /** What a lookup that wants a fetch ends with. */
  lemma FetchAnswersIff(quotes: set<Quote>, st: Store, r: Request, d: int)
    requires Good(quotes, st)
    ensures GivesRate(FetchAndPersist(st, r, d).answer) <==>
            || EarlierRate(st, d)
            || (if r.lockFree then (!r.force && Live(st, r, d, r.t1)) || Quotes(r.reply)
                else exists i :: 0 <= i < |r.polls| && Live(st, r, d, r.polls[i]))
  {
    hide Good, AfterFailure, LastConfirmed;
    EarlierIff(quotes, st, d);
    PeerIff(st, r, d, r.polls);
    FailureAnswers(st, r, d);
    hide EarlierRate;
  }

  lemma UsableRow(quotes: set<Quote>, st: Store, d: int)
    requires Good(quotes, st) && d in st.table
    ensures RowToResult(d, st.table[d]).success <==> !st.table[d].status.Unavailable?
    ensures !st.table[d].status.Pending?
  {
    assert RowGood(quotes, d, st.table[d]);
  }

  lemma TableAnswersIff(quotes: set<Quote>, st: Store, r: Request, d: int)
    requires Good(quotes, st)
    ensures GivesRate(FromTable(st, r, d).answer) <==>
            EarlierRate(st, d) || (d in st.table && !HasStatus(st, d, Unavailable))
  {
    EarlierIff(quotes, st, d);
    if d in st.table {
      UsableRow(quotes, st, d);
    }
    hide Good, LastConfirmed, EarlierRate;
  }

  /**
   The exact condition for an answer with a rate, in every store that lookups can produce: the rate is cached or
   settled, an earlier date has a confirmed one, the wanted fetch or the peer that does it gives one, or no fetch is
   wanted and the row has one.
   */
  lemma LookupAnswersIff(quotes: set<Quote>, st: Store, r: Request, d: int)
    requires Good(quotes, st) && r.date == Some(d)
    ensures GivesRate(Lookup(st, r).answer) <==>
            || Live(st, r, d, r.t0)
            || Settled(st, d)
            || EarlierRate(st, d)
            || (if !Wanted(st, r, d) then d in st.table && !HasStatus(st, d, Unavailable)
                else if r.lockFree then (!r.force && Live(st, r, d, r.t1)) || Quotes(r.reply)
                else exists i :: 0 <= i < |r.polls| && Live(st, r, d, r.polls[i]))
  {
    FetchAnswersIff(quotes, st, r, d);
    TableAnswersIff(quotes, st, r, d);
    if d in st.table {
      UsableRow(quotes, st, d);
    }
    hide Good, FetchAndPersist, FromTable, FallbackResponse, EarlierRate;
  }

  /** Without a fetch a usable row is answered as it is, marked as a fallback exactly if it is not the date's own rate. */
  lemma RowIsAnswered(quotes: set<Quote>, st: Store, r: Request, d: int)
    requires Good(quotes, st) && r.date == Some(d) && !Live(st, r, d, r.t0)
    requires d in st.table && !st.table[d].status.Unavailable? && (Settled(st, d) || !Wanted(st, r, d))
    ensures var row := st.table[d];
            Lookup(st, r).answer ==
            Found(Result(true, d, row.effective, row.sale, row.buy, if Settled(st, d) then ApiPeru else CacheCentral,
                         row.status, !Settled(st, d)))
    ensures Lookup(st, r).st.table == st.table
  {
    UsableRow(quotes, st, d);
    hide Good, FetchAndPersist, FromPrevious, FallbackResponse, CacheSet;
    CacheSetKeepsTable();
  }

  lemma CacheSetKeepsTable()
    ensures forall st, up, d, res, until :: CacheSet(st, up, d, res, until).table == st.table
  {}

  lemma FetchRefusal(quotes: set<Quote>, st: Store, r: Request, d: int)
    requires Good(quotes, st) && !GivesRate(FetchAndPersist(st, r, d).answer)
    ensures FetchAndPersist(st, r, d).answer ==
            if !r.lockFree then InProgress
            else if r.reply.Broken? then ProviderError(r.reply.error)
            else Found(Result(false, d, d, 0, 0, CacheCentral, Unavailable, false))
  {
    FailureAnswers(st, r, d);
    PeerIff(st, r, d, r.polls);
    hide Good, AfterFailure, LastConfirmed;
  }

  lemma TableRefusal(st: Store, r: Request, d: int)
    requires !GivesRate(FromTable(st, r, d).answer)
    ensures FromTable(st, r, d).answer == Found(Result(false, d, d, 0, 0, CacheCentral, Unavailable, false))
  {
    hide LastConfirmed, UpsertFallback;
  }

  /** What an answer without a rate says. */
  lemma RefusalSaysWhy(quotes: set<Quote>, st: Store, r: Request, d: int)
    requires Good(quotes, st) && r.date == Some(d) && !GivesRate(Lookup(st, r).answer)
    ensures Lookup(st, r).answer ==
            if Wanted(st, r, d) && !r.lockFree then InProgress
            else if Wanted(st, r, d) && r.reply.Broken? then ProviderError(r.reply.error)
            else Found(Result(false, d, d, 0, 0, CacheCentral, Unavailable, false))
  {
    if d in st.table {
      UsableRow(quotes, st, d);
    }
    hide FetchAndPersist, FromTable, FallbackResponse;
    if !GivesRate(FetchAndPersist(st, r, d).answer) {
      FetchRefusal(quotes, st, r, d);
    }
    if !GivesRate(FromTable(st, r, d).answer) {
      TableRefusal(st, r, d);
    }
    hide Good;
  }

  /** A rate borrowed because no fetch was due is cached for five minutes. */
  lemma BorrowedIsCachedBriefly(quotes: set<Quote>, st: Store, r: Request, d: int, at: int)
    requires Good(quotes, st) && r.date == Some(d) && r.cacheUp && !Live(st, r, d, r.t0)
    requires !Wanted(st, r, d) && (d !in st.table || HasStatus(st, d, Unavailable)) && EarlierRate(st, d)
    ensures var o := Lookup(st, r);
            && o.answer.Found? && Live(o.st, r, d, at) == (at < r.t2 + 300_000_000_000)
            && d in o.st.cache && o.st.cache[d].res == o.answer.res
  {
    EarlierIff(quotes, st, d);
    if d in st.table {
      UsableRow(quotes, st, d);
    }
    hide Good, FetchAndPersist, LastConfirmed, FallbackResponse;
  }

  /** A usable row is not enough: if no earlier date has a confirmed rate, a failed attempt replaces it by none. */
  lemma FailedAttemptLosesRate(quotes: set<Quote>, st: Store, r: Request, d: int)
    requires Good(quotes, st) && r.date == Some(d) && !EarlierRate(st, d)
    requires Lookup(st, r).called && !Quotes(r.reply)
    ensures !GivesRate(Lookup(st, r).answer)
    ensures HasStatus(Lookup(st, r).st, d, Unavailable)
  {
    hide Lookup, Good;
    AskingGoesOn(st, r, d);
    LookupAsksIff(st, r, d);
    EarlierIff(quotes, st, d);
    FailureAnswers(st, r, d);
    NothingToBorrow(st, r, d);
  }

  lemma NothingToBorrow(st: Store, r: Request, d: int)
    requires !Settled(st, d) && !EarlierRate(st, d)
    ensures HasStatus(AfterFailure(st, r, d).st, d, Unavailable)
  {
    assert LastConfirmed(st.table, d).None?;
    var attempts := if d in st.table then st.table[d].attempts + 1 else 1;
    LastLooksBack(st.table, PersistFailure(st.table, d, r.t1, attempts, ErrorOf(r.reply)), d);
  }

  /** It happens from scratch: the provider gives another day's rate for today, and fails when it is asked once more. */
  lemma TodaysRateIsLost(d: int, e: int, sale: int, buy: int, now: int, later: int)
    requires e != d && sale > 0
    ensures var first := Request(Some(d), false, d, now, now, now, [], false, true, Answered(true, Some(e), sale, buy, ""));
            var second := Request(Some(d), false, d, later, later, later, [], false, true, Broken(""));
            var o := Lookup(EMPTY, first);
            && GivesRate(o.answer) && o.answer.res.sale == sale
            && Lookup(o.st, second).answer == ProviderError("")
            && HasStatus(Lookup(o.st, second).st, d, Unavailable)
  {
    var first := Request(Some(d), false, d, now, now, now, [], false, true, Answered(true, Some(e), sale, buy, ""));
    var second := Request(Some(d), false, d, later, later, later, [], false, true, Broken(""));
    hide Lookup, AfterFailure;
    LookupAsksIff(EMPTY, first, d);
    AskedRateIsAnswered(EMPTY, first, d);
    var st := Lookup(EMPTY, first).st;
    LookupAsksIff(st, second, d);
    assert !EarlierRate(st, d);
    AskingGoesOn(st, second, d);
    FailureAnswers(st, second, d);
    NothingToBorrow(st, second, d);
  }

  /** The row that a failed attempt leaves: borrowed from the latest earlier rate, or unavailable with one attempt more. */
  lemma FailedAttemptIsRecorded(quotes: set<Quote>, st: Store, r: Request, d: int)
    requires Good(quotes, st) && r.date == Some(d) && Lookup(st, r).called && !Quotes(r.reply)
    ensures var o := Lookup(st, r).st; var k := LastConfirmed(st.table, d);
            var fetched := if d in st.table then st.table[d].fetchedAt else None;
            && (k.Some? <==> EarlierRate(st, d))
            && o.cache == st.cache
            && o.table == st.table[d :=
                 if k.Some? then
                   Row(st.table[k.value].sale, st.table[k.value].buy, Fallback, FallbackPrevious, k.value,
                       fetched, Some(r.t2), Some(r.t2 + 3_600_000_000_000), 1, "")
                 else
                   Row(0, 0, Unavailable, ApiPeru, d, fetched, Some(r.t1), Some(r.t1 + 3_600_000_000_000),
                       if d in st.table then st.table[d].attempts + 1 else 1,
                       if r.reply.Broken? then r.reply.error
                       else if r.reply.error != "" then r.reply.error
                       else "tipo de cambio no disponible para la fecha indicada")]
  {
    hide Lookup, Good;
    AskingGoesOn(st, r, d);
    LookupAsksIff(st, r, d);
    EarlierIff(quotes, st, d);
    RecordedFailure(st, r, d);
  }

  lemma RecordedFailure(st: Store, r: Request, d: int)
    requires !Settled(st, d)
    requires var k := LastConfirmed(st.table, d); k.Some? ==> st.table[k.value].sale > 0
    ensures var o := AfterFailure(st, r, d).st; var k := LastConfirmed(st.table, d);
            var fetched := if d in st.table then st.table[d].fetchedAt else None;
            && o.cache == st.cache
            && o.table == st.table[d :=
                 if k.Some? then BorrowedRow(k.value, st.table[k.value], r.t2, 1).(fetchedAt := fetched)
                 else FailureRow(d, None, r.t1, if d in st.table then st.table[d].attempts + 1 else 1, ErrorOf(r.reply))
                      .(fetchedAt := fetched)]
  {
    var attempts := if d in st.table then st.table[d].attempts + 1 else 1;
    LastLooksBack(st.table, PersistFailure(st.table, d, r.t1, attempts, ErrorOf(r.reply)), d);
  }

  /** The partner of the cooldown: an hour after a failed attempt, a lookup of today or later asks again. */
  lemma CooldownEnds(st: Store, r: Request, d: int, next: Request)
    requires r.date == Some(d) && Timely(r) && Lookup(st, r).called && !Quotes(r.reply)
    requires next.date == Some(d) && next.t0 >= r.t2 + 3_600_000_000_000 && next.today <= d && next.lockFree
    requires !Live(Lookup(st, r).st, next, d, next.t0) && !Live(Lookup(st, r).st, next, d, next.t1)
    ensures Lookup(Lookup(st, r).st, next).called
  {
    hide Lookup, AfterFailure;
    LookupAsksIff(st, r, d);
    AskingGoesOn(st, r, d);
    LookupAsksIff(Lookup(st, r).st, next, d);
    FailedRow(st, r, d);
  }

  lemma FailedRow(st: Store, r: Request, d: int)
    requires Timely(r) && !Settled(st, d)
    ensures var o := AfterFailure(st, r, d).st;
            && !Settled(o, d) && !HasStatus(o, d, Confirmed)
            && d in o.table && o.table[d].nextRetry.Some? && o.table[d].nextRetry.value <= r.t2 + 3_600_000_000_000
  {
    hide LastConfirmed;
  }

  // ---- when a rate was fetched ----

  /** When the provider last gave a rate for each date. */
  ghost function FetchTimes(times: map<int, int>, st: Store, rs: seq<Request>): map<int, int>
    decreases |rs|
  {
    if rs == [] then times else FetchTimes(Timed(times, st, rs[0]), Lookup(st, rs[0]).st, rs[1..])
  }

  ghost function Timed(times: map<int, int>, st: Store, r: Request): map<int, int> {
    if r.date.Some? && Lookup(st, r).called && Quotes(r.reply) then times[r.date.value := r.t1] else times
  }

  /** A row carries the time its date was last fetched, whatever it holds now. */
  ghost predicate TimesKept(times: map<int, int>, table: map<int, Row>) {
    && (forall d :: d in table ==> table[d].fetchedAt == if d in times then Some(times[d]) else None)
    && (forall d :: d in times ==> d in table)
  }

  lemma FallbackKeepsTimes(times: map<int, int>, table: map<int, Row>, d: int, row: Row)
    requires TimesKept(times, table)
    ensures TimesKept(times, UpsertFallback(table, d, row))
  {}

  lemma PreviousKeepsTimes(times: map<int, int>, table: map<int, Row>, d: int, current: Option<Row>, now: int)
    requires TimesKept(times, table)
    ensures TimesKept(times, FromPrevious(table, d, current, now).0)
  {
    hide TimesKept, UpsertFallback, RowToResult;
    var k := LastConfirmed(table, d);
    if k.Some? {
      var attempts := if current.Some? then current.value.attempts else 1;
      FallbackKeepsTimes(times, table, d, BorrowedRow(k.value, table[k.value], now, attempts));
    }
  }

  lemma SuccessKeepsTimes(times: map<int, int>, st: Store, r: Request, d: int)
    requires TimesKept(times, st.table) && r.reply.Answered?
    ensures TimesKept(times[d := r.t1], AfterSuccess(st, r, d).st.table)
  {
    hide CacheTTL, FetchedResult;
  }

  lemma FailureKeepsTimes(times: map<int, int>, st: Store, r: Request, d: int)
    requires TimesKept(times, st.table)
    ensures TimesKept(times, AfterFailure(st, r, d).st.table)
  {
    hide TimesKept, UpsertFallback, FromPrevious, FailureRow, LastConfirmed;
    var attempts := if d in st.table then st.table[d].attempts + 1 else 1;
    FallbackKeepsTimes(times, st.table, d,
                       FailureRow(d, RowOf(st.table, LastConfirmed(st.table, d)), r.t1, attempts, ErrorOf(r.reply)));
    PreviousKeepsTimes(times, PersistFailure(st.table, d, r.t1, attempts, ErrorOf(r.reply)), d, None, r.t2);
  }

  lemma AskingKeepsTimes(times: map<int, int>, st: Store, r: Request, d: int)
    requires TimesKept(times, st.table) && r.date == Some(d) && Lookup(st, r).called
    ensures TimesKept(Timed(times, st, r), Lookup(st, r).st.table)
  {
    hide Lookup, TimesKept, AfterSuccess, AfterFailure;
    AskingGoesOn(st, r, d);
    if Quotes(r.reply) {
      SuccessKeepsTimes(times, st, r, d);
    } else {
      FailureKeepsTimes(times, st, r, d);
    }
  }

  /** Without asking, a lookup changes the table only by borrowing. */
  lemma NotAskingKeepsTimes(times: map<int, int>, st: Store, r: Request)
    requires TimesKept(times, st.table) && !Lookup(st, r).called
    ensures TimesKept(times, Lookup(st, r).st.table)
  {
    hide TimesKept, FromPrevious, RowToResult, LastConfirmed, AfterSuccess, AfterFailure;
    if r.date.Some? {
      var d := r.date.value;
      CallsAreMarked(st, r, d);
      PreviousKeepsTimes(times, st.table, d, None, r.t2);
      if d in st.table {
        PreviousKeepsTimes(times, st.table, d, Some(st.table[d]), r.t2);
        if FallbackResponse(st.table, d, st.table[d], r.t2).1.None? {
          PendingWithoutAnswer(st, r, d);
        }
      }
    }
  }

  lemma {:induction false} LookupsKeepTimes(times: map<int, int>, st: Store, rs: seq<Request>)
    requires TimesKept(times, st.table)
    ensures TimesKept(FetchTimes(times, st, rs), StoreAfter(st, rs).table)
    decreases |rs|
  {
    hide TimesKept, Lookup;
    if rs != [] {
      if Lookup(st, rs[0]).called {
        OnlyDatesAreAsked(st, rs[0]);
        AskingKeepsTimes(times, st, rs[0], rs[0].date.value);
      } else {
        NotAskingKeepsTimes(times, st, rs[0]);
      }
      LookupsKeepTimes(Timed(times, st, rs[0]), Lookup(st, rs[0]).st, rs[1..]);
    }
  }

  lemma OnlyDatesAreAsked(st: Store, r: Request)
    ensures Lookup(st, r).called ==> r.date.Some?
  {
    hide Missed, FallbackResponse;
  }

  /** After any lookups a row's fetch time is that of the last rate the provider gave for its date, also after borrowing. */
  lemma FetchTimeIsLastFetch(rs: seq<Request>, d: int)
    ensures var table := StoreAfter(EMPTY, rs).table; var times := FetchTimes(map[], EMPTY, rs);
            && (d in table ==> table[d].fetchedAt == if d in times then Some(times[d]) else None)
            && (d in times ==> d in table)
  {
    LookupsKeepTimes(map[], EMPTY, rs);
  }
}
