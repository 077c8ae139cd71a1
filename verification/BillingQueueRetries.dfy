/** How often a job is run, and when it is given up. */
module BillingQueueRetries {
  import opened Wrappers
  import opened BillingQueue
  import opened BillingQueueRuns

  /** How many failures bury a job enqueued with this payload. */
  function Limit(c: Config, origin: Payload): (n: int)
    ensures n >= 1
  {
    if origin.Encoded? then Max(1, c.maxRetries - origin.job.attempt) else 1
  }

  /** The item is the job that was enqueued under its ticket, whatever its attempt. */
  predicate Genuine(log: seq<Payload>, it: Item) {
    && 0 <= it.ticket < |log|
    && it.origin == log[it.ticket]
    && (it.payload.Encoded? ==>
          it.origin.Encoded? && it.payload.job.(attempt := it.origin.job.attempt) == it.origin.job)
    && (!it.payload.Encoded? ==> it.payload == it.origin && it.runs == 0)
  }

  /** Between runs: each past run has failed and left the job below the limit. */
  predicate Rests(c: Config, log: seq<Payload>, it: Item) {
    && Genuine(log, it)
    && (it.payload.Encoded? ==>
          && it.payload.job.attempt == it.origin.job.attempt + it.runs
          && (it.runs > 0 ==> it.payload.job.attempt < c.maxRetries))
  }

  /** During or after a run whose outcome the attempt does not count yet. */
  predicate Works(c: Config, log: seq<Payload>, it: Item) {
    && Genuine(log, it) && it.payload.Encoded?
    && it.runs >= 1
    && it.payload.job.attempt + 1 == it.origin.job.attempt + it.runs
    && (it.runs > 1 ==> it.payload.job.attempt < c.maxRetries)
  }

  /** A given-up job had exactly as many failures as the limit allows; other texts were never run. */
  predicate GivenUp(c: Config, log: seq<Payload>, it: Item) {
    && Genuine(log, it)
    && (it.payload.Encoded? ==>
          && it.payload.job.attempt == it.origin.job.attempt + it.runs
          && it.payload.job.attempt >= c.maxRetries
          && it.runs == Limit(c, it.origin))
  }

  predicate WorkerOk(c: Config, log: seq<Payload>, pc: Pc) {
    match pc
    case Idle => true
    case Claimed(it) => Rests(c, log, it)
    case Rejected(it) => true
    case Refused(it) => Rests(c, log, it)
    case Handover(it) => Rests(c, log, it)
    case Locked(ph, it, _, _) =>
      match ph
      case Delayed => Rests(c, log, it) && it.payload.Encoded? && it.payload.job.attempt < c.maxRetries
      case Exhausted => Works(c, log, it) && it.payload.job.attempt + 1 >= c.maxRetries
      case Failing => Works(c, log, it) && it.payload.job.attempt + 1 < c.maxRetries
      case Unlocking => true
      case _ => Works(c, log, it)
  }

  ghost predicate Attempts(c: Config, s: Sys) {
    && (forall it :: it in s.queue ==> Rests(c, s.log, it))
    && (forall it :: it in s.timers ==>
          Rests(c, s.log, it) && it.payload.Encoded? && it.payload.job.attempt < c.maxRetries)
    && (forall it :: it in s.dead ==> GivenUp(c, s.log, it))
    && (forall it :: it in s.done ==> Works(c, s.log, it))
    && (forall w :: 0 <= w < |s.workers| ==> WorkerOk(c, s.log, s.workers[w]))
  }

  lemma AttemptsPush(c: Config, s: Sys, p: Payload)
    requires Attempts(c, s) && Enabled(s, Push(p))
    ensures Attempts(c, Next(c, s, Push(p)))
  {}

  lemma AttemptsTake(c: Config, s: Sys, a: Action)
    requires Attempts(c, s) && Enabled(s, a) && (a.Claim? || a.Fire? || a.Tick? || a.Unlock?)
    ensures Attempts(c, Next(c, s, a))
  {
    hide Rests, GivenUp, Works, RemoveFirst;
  }

  lemma AttemptsWork(c: Config, s: Sys, a: Action)
    requires Attempts(c, s) && Enabled(s, a) && (a.TryLock? || a.End?)
    ensures Attempts(c, Next(c, s, a))
  {
    hide RemoveFirst, Busy;
    assert WorkerOk(c, s.log, s.workers[a.w]);
    assert WorkerOk(c, s.log, Next(c, s, a).workers[a.w]);
  }

  lemma AttemptsBury(c: Config, s: Sys, w: nat)
    requires Attempts(c, s) && Enabled(s, PushDead(w))
    ensures Attempts(c, Next(c, s, PushDead(w)))
  {
    var t := Next(c, s, PushDead(w));
    assert WorkerOk(c, s.log, s.workers[w]);
    assert GivenUp(c, s.log, t.dead[0]);
    hide GivenUp, Rests, Works, Bumped;
    assert forall it :: it in t.dead ==> it == t.dead[0] || it in s.dead;
  }

  lemma AttemptsAck(c: Config, s: Sys, w: nat)
    requires Attempts(c, s) && Enabled(s, Ack(w))
    ensures Attempts(c, Next(c, s, Ack(w)))
  {
    hide RemoveFirst;
    assert WorkerOk(c, s.log, s.workers[w]);
    assert WorkerOk(c, s.log, AfterAck(s.workers[w]));
    hide AfterAck, Rests, Works, GivenUp;
  }

  lemma AttemptsReturn(c: Config, s: Sys, a: Action)
    requires Attempts(c, s) && Enabled(s, a) && (a.Requeue? || a.Arm?)
    ensures Attempts(c, Next(c, s, a))
  {
    assert WorkerOk(c, s.log, s.workers[a.w]);
    var it := s.workers[a.w].it;
    assert Rests(c, s.log, it) ==> Rests(c, s.log, Armed(c, it, s.now)) && Armed(c, it, s.now).payload == it.payload;
    hide GivenUp, Rests, Works, Armed;
  }

  lemma AttemptsStep(c: Config, s: Sys, a: Action)
    requires Attempts(c, s) && Enabled(s, a)
    ensures Attempts(c, Next(c, s, a))
  {
    hide Next, Attempts, Enabled;
    match a
    case Push(p) => AttemptsPush(c, s, p);
    case TryLock(_) => AttemptsWork(c, s, a);
    case End(_, _) => AttemptsWork(c, s, a);
    case PushDead(w) => AttemptsBury(c, s, w);
    case Ack(w) => AttemptsAck(c, s, w);
    case Requeue(_) => AttemptsReturn(c, s, a);
    case Arm(_) => AttemptsReturn(c, s, a);
    case _ => AttemptsTake(c, s, a);
  }

  lemma {:induction false} RunsCountAttempts(c: Config, s: Sys, run: seq<Action>, t: Sys)
    requires Attempts(c, s) && Reaches(c, s, run, t)
    ensures Attempts(c, t)
    decreases |run|
  {
    hide Next, Enabled, Attempts;
    if run != [] {
      AttemptsStep(c, s, run[0]);
      RunsCountAttempts(c, Next(c, s, run[0]), run[1..], t);
    }
  }

  /** The item is somewhere in the system. */
  predicate Somewhere(s: Sys, it: Item) {
    || it in s.queue || it in s.timers || it in s.dead || it in s.done
    || exists w :: 0 <= w < |s.workers| && !s.workers[w].Idle? && InCustody(s.workers[w]) && s.workers[w].it == it
  }

  /** A job enqueued at attempt 0 is run at most max(1, BillingMaxRetries) times, in every run. */
  lemma ProcessorRunsAreBounded(c: Config, workers: nat, now: int, run: seq<Action>, t: Sys, it: Item)
    requires Reaches(c, Init(workers, now), run, t) && Somewhere(t, it)
    ensures it.runs <= Limit(c, it.origin)
    ensures it.origin.Encoded? && it.origin.job.attempt == 0 ==> it.runs <= Max(1, c.maxRetries)
  {
    RunsCountAttempts(c, Init(workers, now), run, t);
    if w :| 0 <= w < |t.workers| && !t.workers[w].Idle? && InCustody(t.workers[w]) && t.workers[w].it == it {
      assert WorkerOk(c, t.log, t.workers[w]);
    }
  }

  /**
   Whatever waits in queue or timer was enqueued under its ticket, and its attempt is below the limit exactly if it was
   enqueued below the limit; in a timer it always is.
   */
  lemma WaitingJobsAreBelowLimit(c: Config, workers: nat, now: int, run: seq<Action>, t: Sys, it: Item)
    requires Reaches(c, Init(workers, now), run, t) && (it in t.queue || it in t.timers)
    ensures 0 <= it.ticket < |t.log| && t.log[it.ticket] == it.origin
    ensures it.payload.Encoded? ==>
              it.origin.Encoded? && (it.payload.job.attempt < c.maxRetries <==> it.origin.job.attempt < c.maxRetries)
    ensures it in t.timers ==> it.payload.Encoded? && it.payload.job.attempt < c.maxRetries
  {
    RunsCountAttempts(c, Init(workers, now), run, t);
  }

  /** A job in the dead list failed exactly as often as its limit allows. */
  lemma DeadAfterExactlyTheLimit(c: Config, workers: nat, now: int, run: seq<Action>, t: Sys, it: Item)
    requires Reaches(c, Init(workers, now), run, t) && it in t.dead && it.payload.Encoded?
    ensures it.runs == Limit(c, it.origin)
    ensures it.origin.Encoded? && it.payload.job.attempt == it.origin.job.attempt + it.runs
  {
    RunsCountAttempts(c, Init(workers, now), run, t);
  }

  // ---- the wait between two runs ----

  /** A job that was run before has been armed for its delay after the last start. */
  predicate Spaced(c: Config, it: Item) {
    it.payload.Encoded? && it.runs > 0 ==> it.since + Delay(c.base, it.payload.job.attempt) <= it.due
  }

  /** And its timer has fired. */
  predicate Waited(c: Config, it: Item, now: int) {
    it.payload.Encoded? && it.runs > 0 ==> it.since + Delay(c.base, it.payload.job.attempt) <= it.due <= now
  }

  predicate PacedWorker(c: Config, pc: Pc, now: int) {
    match pc
    case Idle => true
    case Rejected(_) => true
    case Claimed(it) => Waited(c, it, now)
    case Refused(it) => Waited(c, it, now)
    case Handover(it) => Waited(c, it, now)
    case Locked(_, it, _, _) => it.since <= now
  }

  ghost predicate Paced(c: Config, s: Sys) {
    && (forall it :: it in s.queue ==> Waited(c, it, s.now))
    && (forall it :: it in s.timers ==> Spaced(c, it))
    && (forall w :: 0 <= w < |s.workers| ==> PacedWorker(c, s.workers[w], s.now))
  }

  lemma PacedListSteps(c: Config, s: Sys, a: Action)
    requires Paced(c, s) && Enabled(s, a) && (a.Push? || a.Claim? || a.Requeue? || a.Tick?)
    ensures Paced(c, Next(c, s, a))
  {
    hide Delay;
    if a.Requeue? {
      assert PacedWorker(c, s.workers[a.w], s.now);
    }
  }

  lemma PacedFire(c: Config, s: Sys, i: nat)
    requires Paced(c, s) && Enabled(s, Fire(i))
    ensures Paced(c, Next(c, s, Fire(i)))
  {
    hide Delay;
    assert s.timers[i] in s.timers && Waited(c, s.timers[i], s.now);
  }

  lemma PacedArm(c: Config, s: Sys, w: nat)
    requires Paced(c, s) && Enabled(s, Arm(w))
    ensures Paced(c, Next(c, s, Arm(w)))
  {
    hide Delay;
    assert PacedWorker(c, s.workers[w], s.now);
    assert Spaced(c, Armed(c, s.workers[w].it, s.now));
    hide Spaced, Waited, Armed;
  }

  lemma PacedHands(c: Config, s: Sys, a: Action)
    requires Paced(c, s) && Enabled(s, a)
    requires a.TryLock? || a.End? || a.PushDead? || a.Ack? || a.Unlock?
    ensures Paced(c, Next(c, s, a))
  {
    hide Delay, RemoveFirst, Busy;
    assert PacedWorker(c, s.workers[a.w], s.now);
    assert PacedWorker(c, Next(c, s, a).workers[a.w], s.now);
    hide Waited, Spaced, PacedWorker;
  }

  lemma {:induction false} RunsArePaced(c: Config, s: Sys, run: seq<Action>, t: Sys)
    requires Paced(c, s) && Reaches(c, s, run, t)
    ensures Paced(c, t)
    decreases |run|
  {
    hide Next, Enabled, Paced;
    if run != [] {
      match run[0] {
        case Arm(w) => PacedArm(c, s, w);
        case Push(_) => PacedListSteps(c, s, run[0]);
        case Claim(_) => PacedListSteps(c, s, run[0]);
        case Requeue(_) => PacedListSteps(c, s, run[0]);
        case Fire(i) => PacedFire(c, s, i);
        case Tick(_) => PacedListSteps(c, s, run[0]);
        case _ => PacedHands(c, s, run[0]);
      }
      RunsArePaced(c, Next(c, s, run[0]), run[1..], t);
    }
  }

  /** When a worker that claimed a job can start it again, the delay of its attempt has passed since the last start. */
  lemma BackoffSeparatesRuns(c: Config, workers: nat, now: int, run: seq<Action>, t: Sys, w: nat)
    requires Reaches(c, Init(workers, now), run, t) && Enabled(t, TryLock(w)) && t.workers[w].it.runs > 0
    ensures var it := t.workers[w].it; t.now - it.since >= Delay(c.base, it.payload.job.attempt)
  {
    RunsArePaced(c, Init(workers, now), run, t);
    assert PacedWorker(c, t.workers[w], t.now);
  }

  /** In full, if the longest shift fits in 63 bits: at least base * 2^attempt, up to the cap, with the runs so far. */
  lemma BackoffDoubles(c: Config, workers: nat, now: int, run: seq<Action>, t: Sys, w: nat)
    requires c.base >= 0 && c.maxRetries >= 1 && c.base * Pow2(c.maxRetries - 1) < TWO63
    requires Reaches(c, Init(workers, now), run, t) && Enabled(t, TryLock(w)) && t.workers[w].it.runs > 0
    ensures var it := t.workers[w].it;
            && it.origin.Encoded? && it.payload.job.attempt == it.origin.job.attempt + it.runs
            && t.now - it.since >= Doubled(c.base, it.payload.job.attempt)
  {
    BackoffSeparatesRuns(c, workers, now, run, t, w);
    RunsCountAttempts(c, Init(workers, now), run, t);
    assert WorkerOk(c, t.log, t.workers[w]);
    var k := t.workers[w].it.payload.job.attempt;
    hide Delay, Pow2, Attempts, Reaches;
    ScaledMonotone(c.base, k, c.maxRetries - 1);
    DelayDoublesUpToCap(c.base, k, k);
  }
}
