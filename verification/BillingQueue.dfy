/**
 The billing queue: Redis lists, locks and retry timers as an object whose operations
 update them, with the backoff arithmetic in 64-bit nanoseconds.
 */
module BillingQueue {
  import opened Wrappers

  datatype Job = Job(tenantDB: string, saleID: nat, key: string, attempt: nat)

  /** A list element: the text of a job (a job has several spellings), a text that is no job, or "". */
  datatype Payload = Blank | Garbage(text: string) | Encoded(job: Job, spelling: nat)

  /** json.Marshal gives every job one spelling. */
  function Marshal(job: Job): Payload {
    Encoded(job, 0)
  }

  function Decimal(n: nat): string {
    (if n < 10 then "" else Decimal(n / 10)) + [('0' as int + n % 10) as char]
  }

  function WithKey(job: Job): Job {
    if job.key == "" then job.(key := job.tenantDB + ":" + Decimal(job.saleID)) else job
  }

  lemma {:induction false} DecimalDigits(n: nat)
    ensures Decimal(n) != "" && forall i :: 0 <= i < |Decimal(n)| ==> '0' <= Decimal(n)[i] <= '9'
  {
    if n >= 10 {
      DecimalDigits(n / 10);
    }
  }

  lemma {:induction false} DecimalIsInjective(m: nat, n: nat)
    requires Decimal(m) == Decimal(n)
    ensures m == n
  {
    var x, y := Decimal(m), Decimal(n);
    assert x[|x| - 1] == y[|y| - 1] && x[..|x| - 1] == y[..|y| - 1];
    DecimalDigits(m / 10);
    DecimalDigits(n / 10);
    if m >= 10 && n >= 10 {
      DecimalIsInjective(m / 10, n / 10);
    }
  }

  /** A text that ends in a colon and digits can be split there in one way only. */
  lemma LastColonSplits(s: string, t: string, d: string, e: string)
    requires s + ":" + d == t + ":" + e
    requires forall i :: 0 <= i < |d| ==> d[i] != ':'
    requires forall i :: 0 <= i < |e| ==> e[i] != ':'
    ensures s == t && d == e
  {
    var x, y := s + ":" + d, t + ":" + e;
    assert x[|s|] == ':' && y[|t|] == ':';
    assert |s| == |t|;
    assert s == x[..|s|] && t == y[..|t|] && d == x[|s| + 1..] && e == y[|t| + 1..];
  }

  /** Keys made for jobs without one are equal exactly for the same sale of the same tenant. */
  lemma KeyIdentifiesSale(a: Job, b: Job)
    requires a.key == b.key == ""
    ensures WithKey(a).key == WithKey(b).key <==> a.tenantDB == b.tenantDB && a.saleID == b.saleID
  {
    DecimalDigits(a.saleID);
    DecimalDigits(b.saleID);
    if WithKey(a).key == WithKey(b).key {
      LastColonSplits(a.tenantDB, b.tenantDB, Decimal(a.saleID), Decimal(b.saleID));
      DecimalIsInjective(a.saleID, b.saleID);
    }
  }

  /** LREM key 1 p. */
  function RemoveFirst<T(==)>(s: seq<T>, p: T): seq<T> {
    if s == [] then [] else if s[0] == p then s[1..] else [s[0]] + RemoveFirst(s[1..], p)
  }

  lemma {:induction false} RemovedOnce<T>(s: seq<T>, p: T)
    ensures multiset(RemoveFirst(s, p)) == multiset(s) - multiset{p}
  {
    if s != [] {
      assert s == [s[0]] + s[1..];
      if s[0] != p {
        RemovedOnce(s[1..], p);
      }
    }
  }

  function NonBlank(s: seq<Payload>): seq<Payload> {
    if s == [] then []
    else (if s[0] == Blank then [] else [s[0]]) + NonBlank(s[1..])
  }

  lemma {:induction false} NonBlankIsIdentity(s: seq<Payload>)
    requires Blank !in s
    ensures NonBlank(s) == s
  {
    if s != [] {
      NonBlankIsIdentity(s[1..]);
    }
  }

  // ---- backoff ----

  const CAP: int := 30 * 60 * 1_000_000_000
  const TWO63: int := 0x8000_0000_0000_0000

  function Pow2(k: nat): (p: int)
    ensures p >= 1
  {
    if k == 0 then 1 else 2 * Pow2(k - 1)
  }

  /** Two's complement reading of the low 64 bits. */
  function Wrap64(x: int): int {
    (x + TWO63) % (2 * TWO63) - TWO63
  }

  /** `base << attempt` on int64, then the cap. */
  function Delay(base: int, attempt: nat): int {
    var d := Wrap64(base * Pow2(attempt));
    if d > CAP then CAP else d
  }

  lemma {:induction false} Pow2Monotone(j: nat, k: nat)
    requires j <= k
    ensures Pow2(j) <= Pow2(k)
    decreases k
  {
    if j < k {
      Pow2Monotone(j, k - 1);
    }
  }

  lemma ScaledMonotone(base: nat, j: nat, k: nat)
    requires j <= k
    ensures base * Pow2(j) <= base * Pow2(k)
  {
    Pow2Monotone(j, k);
  }

  lemma WrapIsIdentity(x: int)
    requires 0 <= x < TWO63
    ensures Wrap64(x) == x
  {}

  /** While the shifted delay fits, it is the doubled base up to the cap, and it never shrinks. */
  lemma DelayDoublesUpToCap(base: nat, j: nat, k: nat)
    requires j <= k && base * Pow2(k) < TWO63
    ensures Delay(base, k) == Doubled(base, k)
    ensures 0 <= Delay(base, j) <= Delay(base, k) <= CAP
  {
    hide Wrap64, Pow2;
    ScaledMonotone(base, j, k);
    ScaledPositive(base, j);
    WrapIsIdentity(base * Pow2(j));
    WrapIsIdentity(base * Pow2(k));
  }

  lemma ScaledPositive(base: nat, j: nat)
    ensures base * Pow2(j) >= 0
  {}

  /** The doubled base, up to the cap. */
  function Doubled(base: nat, attempt: nat): int {
    if base * Pow2(attempt) > CAP then CAP else base * Pow2(attempt)
  }

  lemma WrapIsNegative(x: int)
    requires TWO63 <= x < 2 * TWO63
    ensures Wrap64(x) == x - 2 * TWO63 < 0
  {}

  /** The first shift that does not fit is not twice as large as what fits, so it reads as a negative number. */
  lemma {:induction false} FirstOverflow(base: nat, k: nat) returns (j: nat)
    requires base < TWO63 <= base * Pow2(k)
    ensures j <= k && TWO63 <= base * Pow2(j) < 2 * TWO63
    decreases k
  {
    if k > 0 && base * Pow2(k - 1) >= TWO63 {
      j := FirstOverflow(base, k - 1);
    } else {
      j := k;
      if k > 0 {
        assert base * Pow2(k) == 2 * (base * Pow2(k - 1));
      }
    }
  }

  /** Exactly when the delays up to attempt `k` are the doubled base up to the cap: the last shift fits in 63 bits. */
  lemma DelayDoublesIff(base: nat, k: nat)
    requires base < TWO63
    ensures (forall j :: 0 <= j <= k ==> Delay(base, j) == Doubled(base, j)) <==> base * Pow2(k) < TWO63
  {
    hide Pow2, Wrap64;
    if base * Pow2(k) < TWO63 {
      forall j | 0 <= j <= k
        ensures Delay(base, j) == Doubled(base, j)
      {
        ScaledMonotone(base, j, k);
        DelayDoublesUpToCap(base, j, j);
      }
    } else {
      var j := FirstOverflow(base, k);
      WrapIsNegative(base * Pow2(j));
      ScaledPositive(base, j);
      assert Delay(base, j) < 0 <= Doubled(base, j);
    }
  }

  lemma LargePowers()
    ensures Pow2(28) == 268_435_456 && Pow2(29) == 536_870_912
  {
    assert Pow2(4) == 16;
    Pow2Add(4, 4);
    Pow2Add(8, 8);
    Pow2Add(16, 8);
    Pow2Add(24, 4);
    assert Pow2(29) == 2 * Pow2(28);
    hide Pow2;
  }

  /** With the default base of 30 s: a minute after the first failure, half an hour at most, and at attempt 29 at once. */
  lemma DelayWraps()
    ensures Delay(30_000_000_000, 1) == 60_000_000_000
    ensures Delay(30_000_000_000, 29) < 0 < Delay(30_000_000_000, 28) == 1_800_000_000_000
  {
    assert Pow2(1) == 2;
    hide Pow2;
    LargePowers();
  }

  lemma {:induction false} Pow2Add(j: nat, k: nat)
    ensures Pow2(j + k) == Pow2(j) * Pow2(k)
  {
    if k > 0 {
      Pow2Add(j, k - 1);
      assert Pow2(j) * (2 * Pow2(k - 1)) == 2 * (Pow2(j) * Pow2(k - 1));
    }
  }

  // ---- the Redis side ----

  /** What one processor call reports. */
  datatype Outcome = Success | Failure

  datatype Fate = Done | Buried(job: Job) | Retried(job: Job)

  function FateOf(job: Job, outcome: Outcome, maxRetries: int): Fate {
    var next := job.(attempt := job.attempt + 1);
    if outcome.Success? then Done
    else if next.attempt >= maxRetries then Buried(next)
    else Retried(next)
  }

  /** SETNX on the key would fail. */
  predicate Busy(locks: map<string, int>, key: string, now: int) {
    key in locks && locks[key] > now
  }

  /** What Redis and the timers hold; the order of timers says nothing. */
  datatype Lists = Lists(
    queue: seq<Payload>, processing: seq<Payload>, dead: seq<Payload>, locks: map<string, int>, timers: seq<Payload>)

  /** One claimed job, nobody interfering: it leaves processing and goes to exactly one place, or it is finished. */
  function Processed(l: Lists, job: Job, raw: Payload, outcome: Outcome, maxRetries: int, now: int): Lists {
    var acked := l.(processing := RemoveFirst(l.processing, raw));
    if Busy(l.locks, job.key, now) then acked.(queue := [raw] + l.queue)
    else
      var unlocked := acked.(locks := l.locks - {job.key});
      match FateOf(job, outcome, maxRetries)
      case Done => unlocked
      case Buried(next) => unlocked.(dead := [Marshal(next)] + l.dead)
      case Retried(next) => unlocked.(timers := [Marshal(next)] + l.timers)
  }

  function Waiting(timers: seq<(Payload, int)>): (p: seq<Payload>)
    ensures |p| == |timers| && forall i :: 0 <= i < |p| ==> p[i] == timers[i].0
  {
    seq(|timers|, i requires 0 <= i < |timers| => timers[i].0)
  }

  lemma WaitingCons(timer: (Payload, int), timers: seq<(Payload, int)>)
    ensures Waiting([timer] + timers) == [timer.0] + Waiting(timers)
  {}

  class Redis {
    var queue: seq<Payload>
    var processing: seq<Payload>
    var dead: seq<Payload>
    var locks: map<string, int>
    var timers: seq<(Payload, int)>

    constructor ()
      ensures queue == processing == dead == [] && locks == map[] && timers == []
    {
      queue, processing, dead, locks, timers := [], [], [], map[], [];
    }

    function State(): Lists
      reads this
    {
      Lists(queue, processing, dead, locks, Waiting(timers))
    }

    method Enqueue(job: Job)
      modifies this`queue
      ensures queue == [Marshal(WithKey(job))] + old(queue)
    {
      var j := job;
      if j.key == "" {
        j := j.(key := j.tenantDB + ":" + Decimal(j.saleID));
      }
      queue := [Marshal(j)] + queue;
    }

    /** BRPOPLPUSH queue processing. */
    method Claim() returns (p: Option<Payload>)
      modifies this`queue, this`processing
      ensures p.None? <==> old(queue) == []
      ensures p.None? ==> queue == old(queue) && processing == old(processing)
      ensures p.Some? ==> queue + [p.value] == old(queue) && processing == [p.value] + old(processing)
    {
      if queue == [] {
        return None;
      }
      var last := queue[|queue| - 1];
      queue, processing := queue[..|queue| - 1], [last] + processing;
      return Some(last);
    }

    method Ack(raw: Payload)
      modifies this`processing
      ensures processing == RemoveFirst(old(processing), raw)
    {
      processing := RemoveFirst(processing, raw);
    }

    /** SET key NX with an expiry; an expired key counts as absent. */
    method TryLock(key: string, now: int, ttl: int) returns (ok: bool)
      modifies this`locks
      ensures ok <==> !Busy(old(locks), key, now)
      ensures locks == if ok then old(locks)[key := now + ttl] else old(locks)
    {
      ok := key !in locks || locks[key] <= now;
      if ok {
        locks := locks[key := now + ttl];
      }
    }

    method ScheduleRetry(job: Job, raw: Payload, base: int)
      modifies this`processing, this`timers
      ensures processing == RemoveFirst(old(processing), raw)
      ensures timers == [(Marshal(job), Delay(base, job.attempt))] + old(timers)
    {
      Ack(raw);
      var delay := Wrap64(base * Pow2(job.attempt));
      if delay > CAP {
        delay := CAP;
      }
      timers := [(Marshal(job), delay)] + timers;
    }

    method ProcessOne(job: Job, raw: Payload, outcome: Outcome, maxRetries: int, base: int, now: int, ttl: int)
      modifies this
      ensures State() == Processed(old(State()), job, raw, outcome, maxRetries, now)
      ensures var next := job.(attempt := job.attempt + 1); var failed := !Busy(old(locks), job.key, now) && outcome.Failure?;
              && timers == (if failed && next.attempt < maxRetries
                            then [(Marshal(next), Delay(base, next.attempt))] + old(timers) else old(timers))
              && dead == (if failed && next.attempt >= maxRetries then [Marshal(next)] + old(dead) else old(dead))
    {
      hide Delay, Wrap64, RemoveFirst, Pow2, Waiting;
      var ok := TryLock(job.key, now, ttl);
      if !ok {
        Ack(raw);
        queue := [raw] + queue;
        return;
      }
      if outcome.Failure? {
        var next := job.(attempt := job.attempt + 1);
        if next.attempt >= maxRetries {
          dead := [Marshal(next)] + dead;
          Ack(raw);
        } else {
          ScheduleRetry(next, raw, base);
          WaitingCons(timers[0], old(timers));
        }
      } else {
        Ack(raw);
      }
      assert locks - {job.key} == old(locks) - {job.key};
      locks := locks - {job.key};
    }

    /** On start: what a crash left in processing goes back to the queue, in its order. */
    method RecoverStuckProcessing()
      modifies this`queue, this`processing
      ensures processing == []
      ensures queue == NonBlank(old(processing)) + old(queue)
    {
      ghost var moved: seq<Payload> := [];
      while processing != []
        invariant processing + moved == old(processing)
        invariant queue == NonBlank(moved) + old(queue)
        decreases |processing|
      {
        var payload := processing[|processing| - 1];
        processing := processing[..|processing| - 1];
        moved := [payload] + moved;
        if payload == Blank {
          continue;
        }
        queue := [payload] + queue;
      }
      assert moved == old(processing);
    }
  }
}
