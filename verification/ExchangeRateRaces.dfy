/**
 Lookups by many workers at once, one read, provider call or write at a time. An upsert gets the columns it is to
 write, finds the row and then, as the worker's next step, saves. Otherwise a worker may take any step whose data it
 holds, in any order and any number of times; the steps of a lookup are one such order.
 */
module ExchangeRateRaces {
  import opened Wrappers
  import opened ExchangeRate
  import opened ExchangeRateRuns

  datatype Prior = Prior(date: int, row: Row)

  /** An upsert between its halves: the row it found, the columns to write, and the result to return after it. */
  datatype Upsert =
    | NoUpsert
    | ToConfirm(found: Option<Row>, row: Row, next: Option<Result>)
    | ToFallBack(found: Option<Row>, row: Row, next: Option<Result>)

  /** What a worker has read so far for its date. */
  datatype Worker = Worker(
    date: int, row: Option<Row>, prior: Option<Prior>, reply: Option<Reply>, upsert: Upsert, out: Option<Result>)

  datatype Sys = Sys(st: Store, quotes: set<Quote>, workers: map<int, Worker>)

  datatype Action =
    | Begin(w: int, d: int)
    | ReadCache(w: int, now: int)
    | ReadRow(w: int)
    | ReadPrior(w: int)
    | Ask(w: int, reply: Reply)
    | FindToConfirm(w: int, at: int)
    | FindToFail(w: int, at: int, attempts: int)
    | FindToBorrow(w: int, at: int, attempts: int)
    | Save(w: int)
    | UseRow(w: int)
    | WriteCache(w: int, until: int)

  predicate Enabled(s: Sys, a: Action) {
    a.Begin? || (a.w in s.workers && EnabledFor(s, s.workers[a.w], a))
  }

  predicate EnabledFor(s: Sys, x: Worker, a: Action) {
    && (x.upsert.NoUpsert? <==> !a.Save?)
    && match a
       case Begin(_, _) => true
       case ReadCache(_, now) => CacheGet(s.st, true, x.date, now).Some?
       case ReadRow(_) => true
       case ReadPrior(_) => true
       case Ask(_, _) => true
       case FindToConfirm(_, _) => x.reply.Some? && Confirms(x.reply.value)
       case FindToFail(_, _, _) => x.reply.Some? && !Confirms(x.reply.value)
       case FindToBorrow(_, _, _) => x.prior.Some? && x.prior.value.row.sale > 0
       case Save(_) => true
       case UseRow(_) => x.row.Some? && RowToResult(x.date, x.row.value).success
       case WriteCache(_, _) => x.out.Some?
  }

  ghost function PriorOf(table: map<int, Row>, d: int): Option<Prior> {
    var k := LastConfirmed(table, d);
    if k.Some? then Some(Prior(k.value, table[k.value])) else None
  }

  function Fresh(d: int): Worker {
    Worker(d, None, None, None, NoUpsert, None)
  }

  function RowAt(table: map<int, Row>, d: int): Option<Row> {
    if d in table then Some(table[d]) else None
  }

  /** What the worker remembers after the step. */
  ghost function Remembers(s: Sys, x: Worker, a: Action): Worker
    requires EnabledFor(s, x, a)
  {
    match a
    case Begin(_, d) => Fresh(d)
    case ReadCache(_, now) => x.(out := CacheGet(s.st, true, x.date, now))
    case ReadRow(_) => x.(row := RowAt(s.st.table, x.date))
    case ReadPrior(_) => x.(prior := PriorOf(s.st.table, x.date))
    case Ask(_, reply) => x.(reply := Some(reply))
    case FindToConfirm(_, at) =>
      x.(upsert := ToConfirm(RowAt(s.st.table, x.date), ConfirmedRow(x.date, x.reply.value, at),
                             Some(FetchedResult(x.reply.value, x.date))))
    case FindToFail(_, at, attempts) =>
      x.(upsert := ToFallBack(RowAt(s.st.table, x.date),
                              FailureRow(x.date, RowOfPrior(x.prior), at, attempts, ErrorOf(x.reply.value)), None))
    case FindToBorrow(_, at, attempts) =>
      var prior := x.prior.value;
      x.(upsert := ToFallBack(RowAt(s.st.table, x.date), BorrowedRow(prior.date, prior.row, at, attempts),
                              Some(BorrowedResult(x.date, prior.date, prior.row))))
    case Save(_) => x.(upsert := NoUpsert, out := if x.upsert.next.Some? then x.upsert.next else x.out)
    case UseRow(_) => x.(out := Some(RowToResult(x.date, x.row.value)))
    case WriteCache(_, _) => x
  }

  function RowOfPrior(prior: Option<Prior>): Option<Row> {
    if prior.Some? then Some(prior.value.row) else None
  }

  /** The columns a confirmation writes; the attempts stay as found. */
  function ConfirmedRow(d: int, reply: Reply, at: int): Row
    requires reply.Answered?
  {
    Row(reply.sale, reply.buy, Confirmed, ApiPeru, EffectiveDate(reply, d), Some(at), Some(at), None, 0, "")
  }

  /** The second half of the confirming upsert. */
  function SaveConfirmedOver(found: Option<Row>, table: map<int, Row>, d: int, row: Row): map<int, Row> {
    table[d := row.(attempts := if found.Some? then found.value.attempts else 0)]
  }

  /** The second half of the fallback upsert: nothing if the row found was own, else it is saved over. */
  function SaveOver(found: Option<Row>, table: map<int, Row>, d: int, row: Row): map<int, Row> {
    if found.Some? && Own(found.value, d) then table
    else table[d := row.(fetchedAt := if found.Some? then found.value.fetchedAt else None)]
  }

  /** With nothing in between, the two halves are the upserts of a lookup on its own. */
  lemma HalvesAreFallback(table: map<int, Row>, d: int, row: Row)
    ensures SaveOver(RowAt(table, d), table, d, row) == UpsertFallback(table, d, row)
  {}

  lemma HalvesAreConfirmed(table: map<int, Row>, d: int, reply: Reply, at: int)
    requires reply.Answered?
    ensures SaveConfirmedOver(RowAt(table, d), table, d, ConfirmedRow(d, reply, at))
         == UpsertConfirmed(table, d, reply.sale, reply.buy, EffectiveDate(reply, d), at)
  {}

  /** The step's effect on the table. */
  function TableAfter(s: Sys, x: Worker, a: Action): map<int, Row>
    requires EnabledFor(s, x, a)
  {
    if !a.Save? then s.st.table
    else if x.upsert.ToConfirm? then SaveConfirmedOver(x.upsert.found, s.st.table, x.date, x.upsert.row)
    else SaveOver(x.upsert.found, s.st.table, x.date, x.upsert.row)
  }

  function CacheAfter(s: Sys, x: Worker, a: Action): map<int, Cached>
    requires EnabledFor(s, x, a)
  {
    match a
    case WriteCache(_, until) => s.st.cache[x.date := Cached(x.out.value, until)]
    case _ => s.st.cache
  }

  function QuotesAfter(s: Sys, x: Worker, a: Action): set<Quote> {
    if a.Ask? && Confirms(a.reply) then s.quotes + {QuoteOf(x.date, a.reply)} else s.quotes
  }

  ghost function Next(s: Sys, a: Action): Sys
    requires Enabled(s, a)
  {
    if a.Begin? then s.(workers := s.workers[a.w := Fresh(a.d)])
    else
      var x := s.workers[a.w];
      Sys(Store(TableAfter(s, x, a), CacheAfter(s, x, a)), QuotesAfter(s, x, a), s.workers[a.w := Remembers(s, x, a)])
  }

  ghost predicate Reaches(s: Sys, run: seq<Action>, t: Sys)
    decreases |run|
  {
    if run == [] then s == t else Enabled(s, run[0]) && Reaches(Next(s, run[0]), run[1..], t)
  }

  // ---- provenance in every interleaving ----

  ghost predicate WorkerGood(quotes: set<Quote>, x: Worker) {
    && (x.row.Some? ==> RowGood(quotes, x.date, x.row.value))
    && (x.prior.Some? ==>
          && x.prior.value.date < x.date && x.prior.value.row.status.Confirmed?
          && RowGood(quotes, x.prior.value.date, x.prior.value.row))
    && (x.reply.Some? && Confirms(x.reply.value) ==> QuoteOf(x.date, x.reply.value) in quotes)
    && UpsertGood(quotes, x)
    && (x.out.Some? ==> x.out.value.success && ResultGood(quotes, x.date, x.out.value))
  }

  ghost predicate UpsertGood(quotes: set<Quote>, x: Worker) {
    && (!x.upsert.NoUpsert? ==> RowGood(quotes, x.date, x.upsert.row))
    && (x.upsert.ToFallBack? ==> !x.upsert.row.status.Confirmed?)
    && (!x.upsert.NoUpsert? && x.upsert.next.Some? ==>
          x.upsert.next.value.success && ResultGood(quotes, x.date, x.upsert.next.value))
  }

  ghost predicate Inv(s: Sys) {
    && Good(s.quotes, s.st)
    && (forall w {:trigger s.workers[w]} :: w in s.workers ==> WorkerGood(s.quotes, s.workers[w]))
  }

  lemma WorkerMoreQuotes(quotes: set<Quote>, more: set<Quote>, x: Worker)
    requires WorkerGood(quotes, x) && quotes <= more
    ensures WorkerGood(more, x)
  {
  }

  lemma SaveKeepsTable(quotes: set<Quote>, found: Option<Row>, table: map<int, Row>, d: int, row: Row)
    requires TableGood(quotes, table) && RowGood(quotes, d, row)
    ensures TableGood(quotes, SaveOver(found, table, d, row))
  {
    var after := SaveOver(found, table, d, row);
    forall k | k in after
      ensures RowGood(quotes, k, after[k])
    {
      if k in table { assert RowGood(quotes, k, table[k]); }
    }
  }

  lemma SaveConfirmedKeepsTable(quotes: set<Quote>, found: Option<Row>, table: map<int, Row>, d: int, row: Row)
    requires TableGood(quotes, table) && RowGood(quotes, d, row)
    ensures TableGood(quotes, SaveConfirmedOver(found, table, d, row))
  {
    var after := SaveConfirmedOver(found, table, d, row);
    forall k | k in after
      ensures RowGood(quotes, k, after[k])
    {
      if k in table { assert RowGood(quotes, k, table[k]); }
    }
  }

  lemma TableStaysGood(s: Sys, x: Worker, a: Action)
    requires TableGood(s.quotes, s.st.table) && WorkerGood(s.quotes, x) && EnabledFor(s, x, a)
    ensures TableGood(s.quotes, TableAfter(s, x, a))
  {
    hide SaveConfirmedOver, SaveOver, RowGood, ResultGood;
    if a.Save? {
      if x.upsert.ToConfirm? {
        SaveConfirmedKeepsTable(s.quotes, x.upsert.found, s.st.table, x.date, x.upsert.row);
      } else {
        SaveKeepsTable(s.quotes, x.upsert.found, s.st.table, x.date, x.upsert.row);
      }
    }
  }

  lemma NothingToBorrowIsGood(quotes: set<Quote>, d: int, at: int, attempts: int, msg: string)
    ensures RowGood(quotes, d, FailureRow(d, None, at, attempts, msg))
  {
  }

  lemma ConfirmedRowIsGood(quotes: set<Quote>, d: int, reply: Reply, at: int)
    requires Confirms(reply) && QuoteOf(d, reply) in quotes
    ensures RowGood(quotes, d, ConfirmedRow(d, reply, at))
    ensures FetchedResult(reply, d).success && ResultGood(quotes, d, FetchedResult(reply, d))
  {}

  lemma FailureRowIsGood(quotes: set<Quote>, x: Worker, at: int, attempts: int, msg: string)
    requires WorkerGood(quotes, x)
    ensures var row := FailureRow(x.date, RowOfPrior(x.prior), at, attempts, msg);
            RowGood(quotes, x.date, row) && !row.status.Confirmed?
  {
    if x.prior.Some? {
      BorrowIsGood(quotes, x.date, x.prior.value.date, x.prior.value.row, at, attempts, msg);
    } else {
      NothingToBorrowIsGood(quotes, x.date, at, attempts, msg);
    }
    hide RowGood, ResultGood;
  }

  lemma WorkerStaysGood(s: Sys, x: Worker, a: Action)
    requires Good(s.quotes, s.st) && WorkerGood(s.quotes, x) && EnabledFor(s, x, a) && !a.Ask?
    ensures WorkerGood(s.quotes, Remembers(s, x, a))
  {
    hide RowGood, ResultGood, RowToResult, FetchedResult, BorrowedResult, ConfirmedRow, FailureRow;
    match a
    case FindToConfirm(_, at) => ConfirmedRowIsGood(s.quotes, x.date, x.reply.value, at);
    case FindToFail(_, at, attempts) => FailureRowIsGood(s.quotes, x, at, attempts, ErrorOf(x.reply.value));
    case FindToBorrow(_, at, attempts) =>
      BorrowIsGood(s.quotes, x.date, x.prior.value.date, x.prior.value.row, at, attempts, "");
      BorrowedSucceeds(x.date, x.prior.value.date, x.prior.value.row);
    case UseRow(_) => RowResultIsGood(s.quotes, x.date, x.row.value);
    case _ =>
  }

  lemma BorrowedSucceeds(d: int, k: int, prev: Row)
    ensures BorrowedResult(d, k, prev).success
  {
  }

  lemma StepKeepsInv(s: Sys, a: Action)
    requires Inv(s) && Enabled(s, a)
    ensures Inv(Next(s, a))
  {
    hide WorkerGood, TableGood, ResultGood, TableAfter, Remembers;
    var t := Next(s, a);
    forall w | w in s.workers ensures WorkerGood(t.quotes, s.workers[w]) {
      WorkerMoreQuotes(s.quotes, t.quotes, s.workers[w]);
    }
    MoreQuotes(s.quotes, t.quotes, s.st);
    if a.Begin? {
      assert WorkerGood(t.quotes, Fresh(a.d)) by { FreshWorkerIsGood(t.quotes, a.d); }
    } else {
      var x := s.workers[a.w];
      if a.Ask? {
        AskedWorkerIsGood(s, x, a);
        assert t.st == s.st by { AskLeavesStore(s, x, a); }
      } else {
        TableStaysGood(s, x, a);
        WorkerStaysGood(s, x, a);
        if a.WriteCache? {
          OutIsGood(s.quotes, x);
        }
      }
    }
  }

  lemma FreshWorkerIsGood(quotes: set<Quote>, d: int)
    ensures WorkerGood(quotes, Fresh(d))
  {
  }

  lemma AskedWorkerIsGood(s: Sys, x: Worker, a: Action)
    requires WorkerGood(s.quotes, x) && EnabledFor(s, x, a) && a.Ask?
    ensures WorkerGood(QuotesAfter(s, x, a), Remembers(s, x, a))
  {
    WorkerMoreQuotes(s.quotes, QuotesAfter(s, x, a), x);
    hide RowGood, ResultGood;
  }

  lemma AskLeavesStore(s: Sys, x: Worker, a: Action)
    requires EnabledFor(s, x, a) && a.Ask?
    ensures TableAfter(s, x, a) == s.st.table
  {
  }

  lemma OutIsGood(quotes: set<Quote>, x: Worker)
    requires WorkerGood(quotes, x) && x.out.Some?
    ensures x.out.value.success && ResultGood(quotes, x.date, x.out.value)
  {
  }

  lemma {:induction false} RunKeepsInv(s: Sys, run: seq<Action>, t: Sys)
    requires Inv(s) && Reaches(s, run, t)
    ensures Inv(t)
    decreases |run|
  {
    hide Inv, Next, Enabled;
    if run != [] {
      StepKeepsInv(s, run[0]);
      RunKeepsInv(Next(s, run[0]), run[1..], t);
    }
  }

  const START: Sys := Sys(EMPTY, {}, map[])

  /**
   In every interleaving: a confirmed row carries what the provider replied for that date, a fallback row what it replied
   for an earlier one, no row is pending, and so does every successful result cached or about to be returned.
   */
  lemma RatesWereQuotedInAnyOrder(run: seq<Action>, t: Sys)
    requires Reaches(START, run, t)
    ensures Good(t.quotes, t.st)
    ensures forall d :: d in t.st.table ==> !t.st.table[d].status.Pending?
    ensures forall w :: w in t.workers && t.workers[w].out.Some? ==>
              ResultGood(t.quotes, t.workers[w].date, t.workers[w].out.value)
  {
    assert Inv(START);
    RunKeepsInv(START, run, t);
    hide ResultGood;
    forall d | d in t.st.table ensures !t.st.table[d].status.Pending? {
      assert RowGood(t.quotes, d, t.st.table[d]);
    }
  }

  // ---- when a confirmed rate survives ----

  predicate OwnAt(table: map<int, Row>, d: int) {
    d in table && Own(table[d], d)
  }

  /** The provider's rate for `d` is being stored. */
  predicate Confirming(s: Sys, a: Action, d: int) {
    a.Save? && a.w in s.workers && s.workers[a.w].date == d && s.workers[a.w].upsert.ToConfirm?
  }

  /** Between the halves of a fallback upsert for `d`, having found a row that was not own. */
  predicate StaleFind(s: Sys, w: int, d: int) {
    && w in s.workers && s.workers[w].date == d && s.workers[w].upsert.ToFallBack?
    && !(s.workers[w].upsert.found.Some? && Own(s.workers[w].upsert.found.value, d))
  }

  ghost predicate NoStaleFind(s: Sys, d: int) {
    forall w :: w in s.workers ==> !StaleFind(s, w, d)
  }

  lemma StepKeepsOwnRow(s: Sys, a: Action, d: int)
    requires Enabled(s, a) && OwnAt(s.st.table, d) && NoStaleFind(s, d) && !Confirming(s, a, d)
    ensures var t := Next(s, a); d in t.st.table && t.st.table[d] == s.st.table[d] && NoStaleFind(t, d)
  {}

  /** A run in which no rate for `d` is stored. */
  ghost predicate Fallbacks(s: Sys, run: seq<Action>, d: int)
    decreases |run|
  {
    run == [] || (Enabled(s, run[0]) && !Confirming(s, run[0], d) && Fallbacks(Next(s, run[0]), run[1..], d))
  }

  lemma {:induction false} RunKeepsOwnRow(s: Sys, run: seq<Action>, t: Sys, d: int)
    requires Reaches(s, run, t) && OwnAt(s.st.table, d) && NoStaleFind(s, d) && Fallbacks(s, run, d)
    ensures d in t.st.table && t.st.table[d] == s.st.table[d]
    decreases |run|
  {
    hide Next, Enabled, Confirming, NoStaleFind;
    if run != [] {
      StepKeepsOwnRow(s, run[0], d);
      RunKeepsOwnRow(Next(s, run[0]), run[1..], t, d);
    }
  }

  /** No failed attempt and no fallback, in whatever order, changes the row confirmed for `d`. */
  ghost predicate Survives(s: Sys, d: int)
    requires d in s.st.table
  {
    forall run, t :: Reaches(s, run, t) && Fallbacks(s, run, d) ==> d in t.st.table && t.st.table[d] == s.st.table[d]
  }

  /** The save of such a worker, its next step, overwrites the row. */
  lemma StaleFindOverwrites(s: Sys, w: int, d: int)
    requires Inv(s) && StaleFind(s, w, d) && OwnAt(s.st.table, d)
    ensures Enabled(s, Save(w)) && !Confirming(s, Save(w), d)
    ensures var t := Next(s, Save(w)); d in t.st.table && !Own(t.st.table[d], d)
    ensures Reaches(s, [Save(w)], Next(s, Save(w))) && Fallbacks(s, [Save(w)], d)
  {
    assert WorkerGood(s.quotes, s.workers[w]);
    hide Good, RowGood, ResultGood;
    var t := Next(s, Save(w));
    assert [Save(w)][1..] == [] && Reaches(t, [], t) && Fallbacks(t, [], d);
  }

  /**
   The exact condition: in any reachable state, a rate confirmed for its own date survives every failed attempt and
   fallback write, in any interleaving, if and only if no fallback upsert for that date has found an older row there
   and not yet saved.
   */
  lemma OwnRowSurvivesIff(run: seq<Action>, s: Sys, d: int)
    requires Reaches(START, run, s) && OwnAt(s.st.table, d)
    ensures Survives(s, d) <==> NoStaleFind(s, d)
  {
    assert Inv(START);
    RunKeepsInv(START, run, s);
    hide Reaches, Fallbacks, StaleFind, Inv, Next, Enabled;
    if w :| w in s.workers && StaleFind(s, w, d) {
      StaleFindOverwrites(s, w, d);
      assert !Survives(s, d);
    } else {
      forall run, t | Reaches(s, run, t) && Fallbacks(s, run, d)
        ensures d in t.st.table && t.st.table[d] == s.st.table[d]
      {
        RunKeepsOwnRow(s, run, t, d);
      }
    }
  }

  // ---- a lookup is one of the runs ----

  lemma {:induction false} Compose(s: Sys, first: seq<Action>, m: Sys, second: seq<Action>, t: Sys)
    requires Reaches(s, first, m) && Reaches(m, second, t)
    ensures Reaches(s, first + second, t)
    decreases |first|
  {
    hide Next, Enabled;
    if first == [] {
      assert first + second == second;
    } else {
      assert (first + second)[0] == first[0] && (first + second)[1..] == first[1..] + second;
      Compose(Next(s, first[0]), first[1..], m, second, t);
    }
  }

  lemma Then(s: Sys, run: seq<Action>, m: Sys, a: Action) returns (more: seq<Action>, t: Sys)
    requires Reaches(s, run, m) && Enabled(m, a)
    ensures t == Next(m, a) && Reaches(s, more, t)
  {
    hide Next, Enabled;
    more, t := run + [a], Next(m, a);
    assert Reaches(m, [a], t) by {
      assert [a][1..] == [];
      assert Reaches(t, [], t);
    }
    Compose(s, run, m, [a], t);
  }

  /** Worker `w`, back from a lookup for `d` that left `st` and `quotes`, holding `out`. */
  ghost predicate Back(m: Sys, w: int, d: int, st: Store, quotes: set<Quote>, out: Option<Result>) {
    && w in m.workers && m.workers[w].date == d && m.workers[w].upsert.NoUpsert? && m.workers[w].out == out
    && m.st == st && m.quotes == quotes
  }

  lemma Caching(s: Sys, run: seq<Action>, m: Sys, w: int, d: int, up: bool, res: Result, until: int)
    returns (more: seq<Action>, t: Sys)
    requires Reaches(s, run, m) && Back(m, w, d, m.st, m.quotes, Some(res))
    ensures Reaches(s, more, t) && Back(t, w, d, CacheSet(m.st, up, d, res, until), m.quotes, Some(res))
  {
    hide Reaches;
    if up {
      more, t := Then(s, run, m, WriteCache(w, until));
    } else {
      more, t := run, m;
    }
  }

  lemma Borrowing(s: Sys, run: seq<Action>, m: Sys, w: int, d: int, current: Option<Row>, now: int)
    returns (more: seq<Action>, t: Sys)
    requires Reaches(s, run, m) && Back(m, w, d, m.st, m.quotes, None)
    requires current.Some? ==> current.value.sale <= 0
    ensures var o := FromPrevious(m.st.table, d, current, now);
            Reaches(s, more, t) && Back(t, w, d, m.st.(table := o.0), m.quotes, o.1)
  {
    hide Reaches, LastConfirmed, UpsertFallback, SaveOver;
    more, t := Then(s, run, m, ReadPrior(w));
    if t.workers[w].prior.Some? && t.workers[w].prior.value.row.sale > 0 {
      var prior := t.workers[w].prior.value;
      var attempts := if current.Some? then current.value.attempts else 1;
      more, t := Then(s, more, t, FindToBorrow(w, now, attempts));
      HalvesAreFallback(m.st.table, d, BorrowedRow(prior.date, prior.row, now, attempts));
      more, t := Then(s, more, t, Save(w));
    }
  }

  /** The rate an answer carries, if any. */
  function Given(a: Answer): Option<Result> {
    if a.Found? && a.res.success then Some(a.res) else None
  }

  lemma FailureRun(s: Sys, run: seq<Action>, m: Sys, w: int, r: Request, d: int) returns (more: seq<Action>, t: Sys)
    requires Reaches(s, run, m) && Back(m, w, d, m.st, m.quotes, None) && !Confirms(r.reply)
    ensures var o := AfterFailure(m.st, r, d); Reaches(s, more, t) && Back(t, w, d, o.st, m.quotes, Given(o.answer))
  {
    hide Reaches, LastConfirmed, UpsertFallback, FailureRow, SaveOver;
    var attempts := if d in m.st.table then m.st.table[d].attempts + 1 else 1;
    more, t := Then(s, run, m, Ask(w, r.reply));
    more, t := Then(s, more, t, ReadPrior(w));
    var row := FailureRow(d, RowOfPrior(t.workers[w].prior), r.t1, attempts, ErrorOf(r.reply));
    more, t := Then(s, more, t, FindToFail(w, r.t1, attempts));
    HalvesAreFallback(m.st.table, d, row);
    more, t := Then(s, more, t, Save(w));
    assert t.st.table == PersistFailure(m.st.table, d, r.t1, attempts, ErrorOf(r.reply));
    more, t := Borrowing(s, more, t, w, d, None, r.t2);
  }

  lemma SuccessRun(s: Sys, run: seq<Action>, m: Sys, w: int, r: Request, d: int) returns (more: seq<Action>, t: Sys)
    requires Reaches(s, run, m) && Back(m, w, d, m.st, m.quotes, None) && Confirms(r.reply)
    ensures var o := AfterSuccess(m.st, r, d);
            Reaches(s, more, t) && Back(t, w, d, o.st, m.quotes + {QuoteOf(d, r.reply)}, Given(o.answer))
  {
    hide Reaches, UpsertConfirmed, SaveConfirmedOver, ConfirmedRow;
    more, t := Then(s, run, m, Ask(w, r.reply));
    more, t := Then(s, more, t, FindToConfirm(w, r.t1));
    HalvesAreConfirmed(m.st.table, d, r.reply, r.t1);
    more, t := Then(s, more, t, Save(w));
    more, t := Caching(s, more, t, w, d, r.cacheUp, FetchedResult(r.reply, d), r.t2 + CacheTTL(d, r.today));
  }

  /** The quotes once the lookup is through. */
  function QuotesWith(quotes: set<Quote>, o: Outcome, r: Request, d: int): set<Quote> {
    if o.called && Confirms(r.reply) then quotes + {QuoteOf(d, r.reply)} else quotes
  }

  lemma FetchRun(s: Sys, run: seq<Action>, m: Sys, w: int, r: Request, d: int) returns (more: seq<Action>, t: Sys)
    requires Reaches(s, run, m) && Back(m, w, d, m.st, m.quotes, None)
    ensures var o := FetchAndPersist(m.st, r, d);
            && Reaches(s, more, t)
            && Back(t, w, d, o.st, QuotesWith(m.quotes, o, r, d), Given(o.answer))
  {
    hide Reaches, AfterFailure, AfterSuccess, LastConfirmed, UpsertFallback;
    CallsAreMarked(m.st, r, d);
    var hit := CacheGet(m.st, r.cacheUp, d, r.t1);
    var waited := PeerResult(m.st, r.cacheUp, d, r.polls);
    if !r.lockFree && waited.Some? {
      PeerResultWasCached(m.st, r.cacheUp, d, r.polls);
      var seen :| CacheGet(m.st, r.cacheUp, d, seen) == waited;
      more, t := Then(s, run, m, ReadCache(w, seen));
    } else if r.lockFree && hit.Some? && !r.force {
      more, t := Then(s, run, m, ReadCache(w, r.t1));
    } else if !r.lockFree {
      more, t := Borrowing(s, run, m, w, d, None, r.t2);
    } else if Confirms(r.reply) {
      more, t := SuccessRun(s, run, m, w, r, d);
    } else {
      more, t := FailureRun(s, run, m, w, r, d);
    }
  }

  lemma RowRun(s: Sys, run: seq<Action>, m: Sys, w: int, d: int, up: bool, until: int) returns (more: seq<Action>, t: Sys)
    requires Reaches(s, run, m) && Back(m, w, d, m.st, m.quotes, None)
    requires d in m.st.table && RowToResult(d, m.st.table[d]).success
    ensures var out := RowToResult(d, m.st.table[d]);
            Reaches(s, more, t) && Back(t, w, d, CacheSet(m.st, up, d, out, until), m.quotes, Some(out))
  {
    hide Reaches, RowToResult;
    more, t := Then(s, run, m, ReadRow(w));
    more, t := Then(s, more, t, UseRow(w));
    more, t := Caching(s, more, t, w, d, up, RowToResult(d, m.st.table[d]), until);
  }

  lemma TableRun(s: Sys, run: seq<Action>, m: Sys, w: int, r: Request, d: int) returns (more: seq<Action>, t: Sys)
    requires Reaches(s, run, m) && Back(m, w, d, m.st, m.quotes, None)
    ensures var o := FromTable(m.st, r, d); Reaches(s, more, t) && Back(t, w, d, o.st, m.quotes, Given(o.answer))
  {
    hide Reaches, LastConfirmed, UpsertFallback, CacheSet;
    if d in m.st.table && RowToResult(d, m.st.table[d]).success {
      more, t := RowRun(s, run, m, w, d, r.cacheUp, r.t2 + CacheTTL(d, r.today));
    } else {
      more, t := Borrowing(s, run, m, w, d, None, r.t2);
      var out := FromPrevious(m.st.table, d, None, r.t2).1;
      if out.Some? {
        more, t := Caching(s, more, t, w, d, r.cacheUp, out.value, r.t2 + 5 * MINUTE);
      }
    }
  }

  lemma MissedRun(s: Sys, run: seq<Action>, m: Sys, w: int, r: Request, d: int) returns (more: seq<Action>, t: Sys)
    requires Reaches(s, run, m) && Back(m, w, d, m.st, m.quotes, None)
    ensures var o := Missed(m.st, r, d);
            && Reaches(s, more, t)
            && Back(t, w, d, o.st, QuotesWith(m.quotes, o, r, d), Given(o.answer))
  {
    hide Reaches, FetchAndPersist, FromTable, Back, Given;
    TableIsNotFetched(m.st, r, d);
    if ShouldFetch(m.st.table, d, r.today, r.force, r.t0) {
      more, t := FetchRun(s, run, m, w, r, d);
    } else {
      more, t := TableRun(s, run, m, w, r, d);
    }
  }

  /**
   A lookup is one of the runs: some order of one worker's steps leaves the same store and the same quotes, and the
   worker with the rate the lookup answers, or without one.
   */
  lemma LookupIsARun(st: Store, quotes: set<Quote>, r: Request, w: int) returns (run: seq<Action>, t: Sys)
    requires Good(quotes, st) && r.date.Some?
    ensures var o := Lookup(st, r);
            && Reaches(Sys(st, quotes, map[]), run, t)
            && Back(t, w, r.date.value, o.st, Quoted(quotes, st, r), Given(o.answer))
  {
    hide Missed, ShouldFetch, LastConfirmed, UpsertFallback, CacheSet, FromPrevious;
    var d := r.date.value;
    var s := Sys(st, quotes, map[]);
    var hit := CacheGet(st, r.cacheUp, d, r.t0);
    assert Reaches(s, [], s);
    run, t := Then(s, [], s, Begin(w, d));
    if hit.Some? {
      run, t := Then(s, run, t, ReadCache(w, r.t0));
    } else {
      if d in st.table {
        assert RowGood(quotes, d, st.table[d]);
      }
      if d in st.table && Own(st.table[d], d) {
        run, t := RowRun(s, run, t, w, d, r.cacheUp, r.t2 + CacheTTL(d, r.today));
      } else {
        run, t := MissedRun(s, run, t, w, r, d);
      }
    }
  }

  // ---- the race that loses a confirmed rate ----

  /** One worker has the provider's rate and is about to store it. */
  lemma AboutToConfirm(s: Sys, d: int, w: int, reply: Reply, at: int) returns (run: seq<Action>, t: Sys)
    requires Confirms(reply)
    ensures Reaches(s, run, t) && t.st == s.st && w in t.workers
    ensures forall v :: v in s.workers && v != w ==> v in t.workers && t.workers[v] == s.workers[v]
    ensures t.workers[w].date == d
    ensures t.workers[w].upsert == ToConfirm(RowAt(s.st.table, d), ConfirmedRow(d, reply, at), Some(FetchedResult(reply, d)))
  {
    assert Reaches(s, [], s);
    hide Reaches, ConfirmedRow;
    run, t := Then(s, [], s, Begin(w, d));
    run, t := Then(s, run, t, Ask(w, reply));
    run, t := Then(s, run, t, FindToConfirm(w, at));
  }

  /** Another, without the lock, has read the earlier rate and found the row it is about to overwrite. */
  lemma AboutToBorrow(s: Sys, run: seq<Action>, m: Sys, d: int, w: int, prior: Prior, at: int)
    returns (more: seq<Action>, t: Sys)
    requires Reaches(s, run, m) && PriorOf(m.st.table, d) == Some(prior) && prior.row.sale > 0
    ensures Reaches(s, more, t) && t.st == m.st && w in t.workers
    ensures forall v :: v in m.workers && v != w ==> v in t.workers && t.workers[v] == m.workers[v]
    ensures t.workers[w].date == d && t.workers[w].upsert.ToFallBack?
    ensures t.workers[w].upsert.found == RowAt(m.st.table, d)
    ensures t.workers[w].upsert.row == BorrowedRow(prior.date, prior.row, at, 1)
  {
    hide Reaches, PriorOf, BorrowedRow;
    more, t := Then(s, run, m, Begin(w, d));
    more, t := Then(s, more, t, ReadPrior(w));
    more, t := Then(s, more, t, FindToBorrow(w, at, 1));
  }

  /**
   Whenever an earlier rate can be borrowed: one worker gets the provider's rate for `d`, another borrows for `d`
   because the lock is taken, its find comes before the confirmation and its save after, and the rate is gone.
   */
  lemma LateFallbackOverwrites(s: Sys, d: int, a: int, b: int, reply: Reply, at: int)
    returns (run: seq<Action>, m: Sys, t: Sys)
    requires Good(s.quotes, s.st) && a != b && !OwnAt(s.st.table, d) && LastConfirmed(s.st.table, d).Some?
    requires Confirms(reply) && EffectiveDate(reply, d) == d
    ensures Reaches(s, run, m) && OwnAt(m.st.table, d) && m.st.table[d].sale == reply.sale
    ensures Enabled(m, Save(b)) && t == Next(m, Save(b))
    ensures d in t.st.table && t.st.table[d].status.Fallback?
  {
    var k := LastConfirmed(s.st.table, d).value;
    ConfirmedIsPositive(s.quotes, k, s.st.table[k]);
    var prior := Prior(k, s.st.table[k]);
    assert PriorOf(s.st.table, d) == Some(prior);
    hide Reaches, LastConfirmed, PriorOf, Good;
    run, m := AboutToConfirm(s, d, a, reply, at);
    run, m := AboutToBorrow(s, run, m, d, b, prior, at);
    run, m := Then(s, run, m, Save(a));
    t := Next(m, Save(b));
  }
}
