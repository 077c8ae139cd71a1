/** The per-key lock around the processor, whose release deletes the key whoever holds it. */
module BillingQueueLocks {
  import opened BillingQueue
  import opened BillingQueueRuns

  predicate RunsFor(pc: Pc, key: string) {
    pc.Locked? && pc.phase.Running? && pc.key == key
  }

  /** The clock passes no deadline of a worker that is still between SETNX and DEL. */
  predicate SectionsFit(s: Sys, a: Action) {
    a.Tick? ==> forall w :: 0 <= w < |s.workers| && s.workers[w].Locked? ==> s.now + a.d < s.workers[w].deadline
  }

  /** The clock passes no deadline of a worker that is inside the processor call. */
  predicate ProcessorsFit(s: Sys, a: Action) {
    a.Tick? ==> forall w :: 0 <= w < |s.workers| && s.workers[w].Locked? && s.workers[w].phase.Running? ==>
                              s.now + a.d < s.workers[w].deadline
  }

  ghost predicate Fitting(c: Config, s: Sys, run: seq<Action>, t: Sys, sections: bool)
    decreases |run|
  {
    if run == [] then s == t
    else
      && Enabled(s, run[0])
      && (if sections then SectionsFit(s, run[0]) else ProcessorsFit(s, run[0]))
      && Fitting(c, Next(c, s, run[0]), run[1..], t, sections)
  }

  /** Every owner's lock is stored with its deadline, still ahead, and owners have different keys. */
  predicate Exclusive(s: Sys) {
    && (forall w :: 0 <= w < |s.workers| && s.workers[w].Locked? ==>
          && s.workers[w].key in s.locks
          && s.locks[s.workers[w].key] == s.workers[w].deadline > s.now)
    && (forall v, w :: 0 <= v < w < |s.workers| && s.workers[v].Locked? && s.workers[w].Locked? ==>
          s.workers[v].key != s.workers[w].key)
  }

  lemma ExclusiveTryLock(c: Config, s: Sys, w: nat)
    requires c.ttl > 0 && Exclusive(s) && Enabled(s, TryLock(w))
    ensures Exclusive(Next(c, s, TryLock(w)))
  {}

  lemma ExclusiveUnlock(c: Config, s: Sys, w: nat)
    requires Exclusive(s) && Enabled(s, Unlock(w))
    ensures Exclusive(Next(c, s, Unlock(w)))
  {}

  /** Steps that leave locks, clock and ownership as they are. */
  lemma ExclusiveKept(c: Config, s: Sys, a: Action)
    requires Exclusive(s) && Enabled(s, a) && !a.TryLock? && !a.Unlock? && SectionsFit(s, a)
    ensures Exclusive(Next(c, s, a))
  {
    hide RemoveFirst, Bumped;
    var t := Next(c, s, a);
    assert t.locks == s.locks && |t.workers| == |s.workers|;
    assert forall w :: 0 <= w < |t.workers| ==>
      (t.workers[w].Locked? <==> s.workers[w].Locked?) &&
      (t.workers[w].Locked? ==> t.workers[w].key == s.workers[w].key && t.workers[w].deadline == s.workers[w].deadline);
  }

  lemma {:induction false} FittingRunsAreExclusive(c: Config, s: Sys, run: seq<Action>, t: Sys)
    requires c.ttl > 0 && Exclusive(s) && Fitting(c, s, run, t, true)
    ensures Exclusive(t)
    decreases |run|
  {
    hide Next, Enabled, Exclusive, SectionsFit;
    if run != [] {
      match run[0] {
        case TryLock(w) => ExclusiveTryLock(c, s, w);
        case Unlock(w) => ExclusiveUnlock(c, s, w);
        case _ => ExclusiveKept(c, s, run[0]);
      }
      FittingRunsAreExclusive(c, Next(c, s, run[0]), run[1..], t);
    }
  }

  /** No two workers run the processor for one key, if no section from SETNX to DEL outlives the TTL. */
  lemma OneProcessorPerKey(c: Config, workers: nat, now: int, run: seq<Action>, t: Sys, v: nat, w: nat, key: string)
    requires c.ttl > 0 && Fitting(c, Init(workers, now), run, t, true)
    requires v < |t.workers| && w < |t.workers| && RunsFor(t.workers[v], key) && RunsFor(t.workers[w], key)
    ensures v == w
  {
    FittingRunsAreExclusive(c, Init(workers, now), run, t);
  }

  // ---- the exact condition ----

  /** A worker runs the processor for a key that another could lock now. */
  predicate Open(s: Sys, w: nat) {
    w < |s.workers| && s.workers[w].Locked? && s.workers[w].phase.Running? && !Busy(s.locks, s.workers[w].key, s.now)
  }

  /** The clock reaches the deadline of a running worker, or another's DEL removes its lock. */
  predicate Foul(s: Sys, a: Action, w: nat)
    requires Enabled(s, a)
  {
    && w < |s.workers| && s.workers[w].Locked? && s.workers[w].phase.Running?
    && match a
       case Tick(d) => s.workers[w].deadline <= s.now + d
       case Unlock(v) => v != w && s.workers[v].key == s.workers[w].key
       case _ => false
  }

  /** Every running worker's lock is stored with its deadline, still ahead. */
  predicate OwnsKey(s: Sys, w: nat)
    requires w < |s.workers|
  {
    s.workers[w].Locked? && s.workers[w].phase.Running? ==>
      && s.workers[w].key in s.locks
      && s.locks[s.workers[w].key] == s.workers[w].deadline > s.now
  }

  predicate Guarded(s: Sys) {
    && (forall w :: 0 <= w < |s.workers| ==> OwnsKey(s, w))
    && (forall v, w :: 0 <= v < w < |s.workers| && s.workers[v].Locked? && s.workers[w].Locked?
                       && s.workers[v].phase.Running? && s.workers[w].phase.Running? ==>
          s.workers[v].key != s.workers[w].key)
  }

  lemma GuardedTryLock(c: Config, s: Sys, w: nat)
    requires c.ttl > 0 && Guarded(s) && Enabled(s, TryLock(w))
    ensures Guarded(Next(c, s, TryLock(w)))
  {
    var t := Next(c, s, TryLock(w));
    forall v | 0 <= v < |s.workers| && s.workers[v].Locked? && s.workers[v].phase.Running?
      ensures Busy(s.locks, s.workers[v].key, s.now)
    {
      assert OwnsKey(s, v);
    }
    forall v | 0 <= v < |t.workers|
      ensures OwnsKey(t, v)
    {
      assert OwnsKey(s, v);
    }
  }

  lemma GuardedUnlock(c: Config, s: Sys, w: nat)
    requires Guarded(s) && Enabled(s, Unlock(w)) && forall v :: 0 <= v < |s.workers| ==> !Foul(s, Unlock(w), v)
    ensures Guarded(Next(c, s, Unlock(w)))
  {
    var t := Next(c, s, Unlock(w));
    forall v | 0 <= v < |t.workers|
      ensures OwnsKey(t, v)
    {
      assert OwnsKey(s, v) && !Foul(s, Unlock(w), v);
    }
  }

  lemma GuardedTick(c: Config, s: Sys, d: nat)
    requires Guarded(s) && forall v :: 0 <= v < |s.workers| ==> !Foul(s, Tick(d), v)
    ensures Guarded(Next(c, s, Tick(d)))
  {
    var t := Next(c, s, Tick(d));
    forall v | 0 <= v < |t.workers|
      ensures OwnsKey(t, v)
    {
      assert OwnsKey(s, v) && !Foul(s, Tick(d), v);
    }
  }

  /** Any other step leaves locks and clock as they are, and brings no worker to the processor. */
  lemma OthersStartNothing(c: Config, s: Sys, a: Action)
    requires Enabled(s, a) && !a.TryLock? && !a.Unlock? && !a.Tick?
    ensures var t := Next(c, s, a);
            && t.locks == s.locks && t.now == s.now && |t.workers| == |s.workers|
            && forall w :: 0 <= w < |t.workers| && t.workers[w].Locked? && t.workers[w].phase.Running? ==>
                 t.workers[w] == s.workers[w]
  {
    hide RemoveFirst, Bumped, Armed;
  }

  lemma CleanStepGuards(c: Config, s: Sys, a: Action)
    requires c.ttl > 0 && Guarded(s) && Enabled(s, a) && forall w :: 0 <= w < |s.workers| ==> !Foul(s, a, w)
    ensures Guarded(Next(c, s, a))
  {
    match a
    case TryLock(w) => hide Next, Guarded, Foul; GuardedTryLock(c, s, w);
    case Unlock(w) => hide Next, Guarded, Foul; GuardedUnlock(c, s, w);
    case Tick(d) => hide Next, Guarded, Foul; GuardedTick(c, s, d);
    case _ =>
      OthersStartNothing(c, s, a);
      hide Next, Foul;
      var t := Next(c, s, a);
      forall w | 0 <= w < |t.workers|
        ensures OwnsKey(t, w)
      {
        assert OwnsKey(s, w);
      }
  }

  lemma FoulOpens(c: Config, s: Sys, a: Action, w: nat)
    requires Guarded(s) && Enabled(s, a) && Foul(s, a, w)
    ensures Open(Next(c, s, a), w)
  {
    assert OwnsKey(s, w);
  }

  ghost predicate NoFoul(c: Config, s: Sys, run: seq<Action>)
    decreases |run|
  {
    run == [] ||
    (&& Enabled(s, run[0])
     && (forall w :: 0 <= w < |s.workers| ==> !Foul(s, run[0], w))
     && NoFoul(c, Next(c, s, run[0]), run[1..]))
  }

  predicate Closed(s: Sys) {
    forall w :: 0 <= w < |s.workers| ==> !Open(s, w)
  }

  /** In no state of the run could another worker lock the key of one that is running. */
  ghost predicate StaysClosed(c: Config, s: Sys, run: seq<Action>)
    decreases |run|
  {
    Closed(s) && (run == [] || (Enabled(s, run[0]) && StaysClosed(c, Next(c, s, run[0]), run[1..])))
  }

  lemma GuardedIsClosed(s: Sys)
    requires Guarded(s)
    ensures Closed(s)
  {
    forall w | 0 <= w < |s.workers|
      ensures !Open(s, w)
    {
      assert OwnsKey(s, w);
    }
  }

  lemma {:induction false} ClosedRunsHaveNoFoul(c: Config, s: Sys, run: seq<Action>, t: Sys)
    requires c.ttl > 0 && Guarded(s) && Reaches(c, s, run, t)
    ensures StaysClosed(c, s, run) <==> NoFoul(c, s, run)
    ensures NoFoul(c, s, run) ==> Guarded(t)
    decreases |run|
  {
    hide Next, Enabled, Guarded, Foul, Open;
    GuardedIsClosed(s);
    if run != [] {
      if w :| 0 <= w < |s.workers| && Foul(s, run[0], w) {
        FoulOpens(c, s, run[0], w);
        OpenIsThere(Next(c, s, run[0]), w);
      } else {
        CleanStepGuards(c, s, run[0]);
        ClosedRunsHaveNoFoul(c, Next(c, s, run[0]), run[1..], t);
      }
    }
  }

  lemma OpenIsThere(s: Sys, w: nat)
    requires Open(s, w)
    ensures w < |s.workers|
  {}

  /**
   The exact condition: no state of a run lets a second worker lock the key of one that is running if and only if no
   step reaches a running worker's deadline or deletes its lock for it, and then no two workers run one key.
   */
  lemma OneProcessorIffNoFoul(c: Config, workers: nat, now: int, run: seq<Action>, t: Sys)
    requires c.ttl > 0 && Reaches(c, Init(workers, now), run, t)
    ensures StaysClosed(c, Init(workers, now), run) <==> NoFoul(c, Init(workers, now), run)
    ensures NoFoul(c, Init(workers, now), run) ==>
              forall v, w, key :: 0 <= v < |t.workers| && 0 <= w < |t.workers| && v != w ==>
                !(RunsFor(t.workers[v], key) && RunsFor(t.workers[w], key))
  {
    assert Guarded(Init(workers, now));
    hide Init, Next, Enabled;
    ClosedRunsHaveNoFoul(c, Init(workers, now), run, t);
    hide Reaches, NoFoul, StaysClosed, OwnsKey;
  }

  /** What being open means: a worker that has claimed a job with that key and tries now runs beside the first. */
  lemma OpenIffSecondRuns(c: Config, s: Sys, w: nat, v: nat)
    requires w < |s.workers| && v < |s.workers| && v != w && s.workers[w].Locked? && s.workers[w].phase.Running?
    requires HasClaimed(s, v, s.workers[w].key)
    ensures Open(s, w) <==> BothRun(Next(c, s, TryLock(v)), v, w, s.workers[w].key)
  {}

  // ---- bounding the processor call alone is not enough ----

  lemma FittingStep(c: Config, s: Sys, a: Action, more: seq<Action>, t: Sys)
    requires Enabled(s, a) && ProcessorsFit(s, a) && Fitting(c, Next(c, s, a), more, t, false)
    ensures Fitting(c, s, [a] + more, t, false)
  {
    assert ([a] + more)[1..] == more;
  }

  lemma {:induction false} FittingThen(c: Config, s: Sys, run: seq<Action>, t: Sys, more: seq<Action>, u: Sys)
    requires Fitting(c, s, run, t, false) && Fitting(c, t, more, u, false)
    ensures Fitting(c, s, run + more, u, false)
    decreases |run|
  {
    hide Next, Enabled, ProcessorsFit;
    if run == [] {
      assert run + more == more;
    } else {
      assert (run + more)[1..] == run[1..] + more;
      FittingThen(c, Next(c, s, run[0]), run[1..], t, more, u);
    }
  }

  lemma Take(c: Config, s: Sys, run: seq<Action>, t: Sys, a: Action)
    requires Fitting(c, s, run, t, false) && Enabled(t, a) && ProcessorsFit(t, a)
    ensures Fitting(c, s, run + [a], Next(c, t, a), false)
  {
    var u := Next(c, t, a);
    hide Next, ProcessorsFit;
    assert Fitting(c, u, [], u, false);
    FittingStep(c, t, a, [], u);
    assert [a] + [] == [a];
    FittingThen(c, s, run, t, [a], u);
  }

  /** The step by which an owner of a lock gets on. */
  function Onward(w: nat, phase: Phase): Action {
    match phase
    case Running => End(w, Success)
    case Exhausted => PushDead(w)
    case Delayed => Arm(w)
    case Unlocking => Unlock(w)
    case _ => Ack(w)
  }

  function StepsLeft(phase: Phase): nat {
    match phase
    case Running => 3
    case Exhausted => 3
    case Failing => 3
    case Unlocking => 1
    case _ => 2
  }

  lemma OwnerCanGoOn(s: Sys, w: nat)
    requires w < |s.workers| && s.workers[w].Locked?
    ensures Enabled(s, Onward(w, s.workers[w].phase)) && ProcessorsFit(s, Onward(w, s.workers[w].phase))
  {}

  lemma OwnerGetsOn(c: Config, s: Sys, w: nat)
    requires w < |s.workers| && s.workers[w].Locked?
    ensures var a := Onward(w, s.workers[w].phase);
            && Enabled(s, a) && ProcessorsFit(s, a)
            && var t := Next(c, s, a);
               && t.now == s.now && t.workers == s.workers[w := t.workers[w]]
               && if s.workers[w].phase.Unlocking? then t.workers[w] == Idle && t.locks == s.locks - {s.workers[w].key}
                  else && t.locks == s.locks && t.workers[w].Locked? && t.workers[w].key == s.workers[w].key
                       && StepsLeft(t.workers[w].phase) < StepsLeft(s.workers[w].phase)
  {
    hide RemoveFirst, Bumped, Armed;
    OwnerCanGoOn(s, w);
    hide Enabled, ProcessorsFit;
  }

  /** An owner, wherever it is, comes to its DEL without the clock moving. */
  lemma {:induction false} OwnerDeletes(c: Config, s: Sys, run: seq<Action>, m: Sys, w: nat)
    returns (more: seq<Action>, t: Sys)
    requires Fitting(c, s, run, m, false) && w < |m.workers| && m.workers[w].Locked?
    ensures Fitting(c, s, more, t, false)
    ensures t.now == m.now && t.workers == m.workers[w := Idle] && t.locks == m.locks - {m.workers[w].key}
    decreases StepsLeft(m.workers[w].phase)
  {
    hide Fitting, Next, Enabled, ProcessorsFit;
    OwnerGetsOn(c, m, w);
    var a := Onward(w, m.workers[w].phase);
    Take(c, s, run, m, a);
    more, t := run + [a], Next(c, m, a);
    if !m.workers[w].phase.Unlocking? {
      more, t := OwnerDeletes(c, s, more, t, w);
    }
  }

  predicate HasClaimed(s: Sys, w: nat, key: string) {
    w < |s.workers| && s.workers[w].Claimed? && s.workers[w].it.payload.Encoded? && s.workers[w].it.payload.job.key == key
  }

  predicate BothRun(s: Sys, v: nat, w: nat, key: string) {
    v < |s.workers| && w < |s.workers| && v != w && RunsFor(s.workers[v], key) && RunsFor(s.workers[w], key)
  }

  lemma Locks(c: Config, s: Sys, run: seq<Action>, m: Sys, w: nat, key: string) returns (more: seq<Action>, t: Sys)
    requires Fitting(c, s, run, m, false) && HasClaimed(m, w, key) && !Busy(m.locks, key, m.now)
    ensures Fitting(c, s, more, t, false) && t.now == m.now
    ensures w < |t.workers| && t.workers == m.workers[w := t.workers[w]] && RunsFor(t.workers[w], key)
  {
    hide Fitting;
    t := Next(c, m, TryLock(w));
    Take(c, s, run, m, TryLock(w));
    more := run + [TryLock(w)];
  }

  /**
   An owner that is past its deadline, wherever between SETNX and DEL it is, lets a second worker in and then deletes
   the second worker's lock: the third runs beside it. No step of this moves the clock.
   */
  lemma LateDeleteAdmitsTwo(c: Config, s: Sys, late: nat, second: nat, third: nat)
    requires late < |s.workers| && late != second && second != third && late != third
    requires s.workers[late].Locked? && s.workers[late].deadline <= s.now
    requires Busy(s.locks, s.workers[late].key, s.now) ==> s.locks[s.workers[late].key] == s.workers[late].deadline
    requires HasClaimed(s, second, s.workers[late].key) && HasClaimed(s, third, s.workers[late].key)
    ensures exists run, t :: Fitting(c, s, run, t, false) && BothRun(t, second, third, s.workers[late].key)
  {
    NoRun(c, s);
    hide Fitting, Next;
    var key := s.workers[late].key;
    var run, t := Locks(c, s, [], s, second, key);
    run, t := OwnerDeletes(c, s, run, t, late);
    run, t := Locks(c, s, run, t, third, key);
  }

  lemma ThreeCopies(c: Config, job: Job, now: int) returns (run: seq<Action>, t: Sys)
    ensures Fitting(c, Init(3, now), run, t, false)
    ensures t.workers == [Idle, Idle, Idle] && t.now == now && t.locks == map[] && t.processing == []
    ensures |t.queue| == 3 && forall i :: 0 <= i < 3 ==> t.queue[i].payload == Marshal(job)
  {
    hide Fitting;
    var p := Marshal(job);
    var s0 := Init(3, now);
    NoRun(c, s0);
    var s1 := Next(c, s0, Push(p));
    Take(c, s0, [], s0, Push(p));
    var s2 := Next(c, s1, Push(p));
    Take(c, s0, [] + [Push(p)], s1, Push(p));
    t := Next(c, s2, Push(p));
    run := [] + [Push(p)] + [Push(p)];
    Take(c, s0, run, s2, Push(p));
    run := run + [Push(p)];
  }

  /** The first worker claims a copy and gets the lock. */
  lemma FirstRuns(c: Config, job: Job, now: int) returns (run: seq<Action>, t: Sys)
    requires c.ttl > 0
    ensures Fitting(c, Init(3, now), run, t, false)
    ensures t.now == now && |t.workers| == 3 && t.workers[1].Idle? && t.workers[2].Idle?
    ensures t.workers[0].Locked? && t.workers[0].phase.Running? && t.workers[0].it.payload == Marshal(job)
            && t.workers[0].key == job.key && t.workers[0].deadline == now + c.ttl
    ensures t.locks == map[job.key := now + c.ttl]
    ensures |t.queue| == 2 && t.queue[0].payload == t.queue[1].payload == Marshal(job)
  {
    hide Fitting;
    var r, s3 := ThreeCopies(c, job, now);
    var s4 := Next(c, s3, Claim(0));
    Take(c, Init(3, now), r, s3, Claim(0));
    t := Next(c, s4, TryLock(0));
    Take(c, Init(3, now), r + [Claim(0)], s4, TryLock(0));
    run := r + [Claim(0)] + [TryLock(0)];
  }

  /** Its processor ends in time, but its ack takes until the lock has expired. */
  lemma SlowAck(c: Config, job: Job, now: int) returns (run: seq<Action>, t: Sys)
    requires c.ttl > 0
    ensures Fitting(c, Init(3, now), run, t, false)
    ensures t.now == now + c.ttl && |t.workers| == 3 && t.workers[1].Idle? && t.workers[2].Idle?
    ensures t.workers[0].Locked? && t.workers[0].phase.Unlocking?
            && t.workers[0].key == job.key && t.workers[0].deadline == now + c.ttl
    ensures t.locks == map[job.key := now + c.ttl]
    ensures |t.queue| == 2 && t.queue[0].payload == t.queue[1].payload == Marshal(job)
  {
    hide Fitting, RemoveFirst, Init;
    var r, s5 := FirstRuns(c, job, now);
    var s6 := Next(c, s5, End(0, Success));
    Take(c, Init(3, now), r, s5, End(0, Success));
    var s7 := Next(c, s6, Ack(0));
    Take(c, Init(3, now), r + [End(0, Success)], s6, Ack(0));
    t := Next(c, s7, Tick(c.ttl));
    Take(c, Init(3, now), r + [End(0, Success)] + [Ack(0)], s7, Tick(c.ttl));
    run := r + [End(0, Success)] + [Ack(0)] + [Tick(c.ttl)];
  }

  lemma NoRun(c: Config, s: Sys)
    ensures Fitting(c, s, [], s, false)
  {}

  /** So a bound on the processor call alone does not exclude two processors on one key. */
  lemma ProcessorBoundIsNotEnough(c: Config, job: Job, now: int)
    requires c.ttl > 0
    ensures exists run, t :: Fitting(c, Init(3, now), run, t, false) && BothRun(t, 1, 2, job.key)
  {
    hide Fitting, Init, BothRun;
    var run, s := SlowAck(c, job, now);
    var s1 := Next(c, s, Claim(1));
    Take(c, Init(3, now), run, s, Claim(1));
    var s2 := Next(c, s1, Claim(2));
    Take(c, Init(3, now), run + [Claim(1)], s1, Claim(2));
    LateDeleteAdmitsTwo(c, s2, 0, 1, 2);
    var more, t :| Fitting(c, s2, more, t, false) && BothRun(t, 1, 2, job.key);
    FittingThen(c, Init(3, now), run + [Claim(1)] + [Claim(2)], s2, more, t);
  }
}
