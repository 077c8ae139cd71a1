/** One worker left alone: its steps add up to what processOne does. */
module BillingQueueSteps {
  import opened BillingQueue
  import opened BillingQueueRuns

  function View(s: Sys): Lists {
    Lists(Texts(s.queue), s.processing, Texts(s.dead), s.locks, Texts(s.timers))
  }

  lemma TextsCons(it: Item, items: seq<Item>)
    ensures Texts([it] + items) == [it.payload] + Texts(items)
  {
    assert ([it] + items)[1..] == items;
  }

  /** `more` leads from the state after `first` to `t`. */
  lemma Before(c: Config, s: Sys, first: Action, more: seq<Action>, t: Sys) returns (run: seq<Action>)
    requires Enabled(s, first) && Reaches(c, Next(c, s, first), more, t)
    ensures Reaches(c, s, run, t)
  {
    hide Next, Enabled;
    run := [first] + more;
    assert run[0] == first && run[1..] == more;
  }

  lemma NoSteps(c: Config, s: Sys)
    ensures Reaches(c, s, [], s)
  {}

  /** The worker is idle again and the others are where they were. */
  ghost predicate Back(s: Sys, t: Sys, w: nat) {
    w < |s.workers| && t.workers == s.workers[w := Idle]
  }

  lemma RefusedRun(c: Config, s: Sys, w: nat, outcome: Outcome) returns (run: seq<Action>, t: Sys)
    requires Enabled(s, TryLock(w)) && Busy(s.locks, s.workers[w].it.payload.job.key, s.now)
    ensures Reaches(c, s, run, t) && Back(s, t, w)
    ensures var raw := s.workers[w].it.payload; View(t) == Processed(View(s), raw.job, raw, outcome, c.maxRetries, s.now)
  {
    hide Reaches, RemoveFirst, Texts;
    var s1 := Next(c, s, TryLock(w));
    var s2 := Next(c, s1, Ack(w));
    t := Next(c, s2, Requeue(w));
    TextsCons(s.workers[w].it, s.queue);
    NoSteps(c, t);
    run := Before(c, s2, Requeue(w), [], t);
    run := Before(c, s1, Ack(w), run, t);
    run := Before(c, s, TryLock(w), run, t);
  }

  /** The lock is taken and the processor has ended. */
  lemma Ran(c: Config, s: Sys, w: nat, outcome: Outcome) returns (m: Sys)
    requires Enabled(s, TryLock(w)) && !Busy(s.locks, s.workers[w].it.payload.job.key, s.now)
    ensures Enabled(Next(c, s, TryLock(w)), End(w, outcome)) && m == Next(c, Next(c, s, TryLock(w)), End(w, outcome))
    ensures |m.workers| == |s.workers| && m.workers == s.workers[w := m.workers[w]]
    ensures var job := s.workers[w].it.payload.job;
            && m.workers[w].Locked? && m.workers[w].key == job.key && m.workers[w].it.payload == s.workers[w].it.payload
            && (m.workers[w].phase == match FateOf(job, outcome, c.maxRetries)
                                      case Done => Succeeded
                                      case Buried(_) => Exhausted
                                      case Retried(_) => Failing)
            && View(m) == View(s).(locks := s.locks[job.key := s.now + c.ttl])
  {
    m := Next(c, Next(c, s, TryLock(w)), End(w, outcome));
  }

  /** From the claim to `t` by way of the processor's end. */
  lemma FromClaim(c: Config, s: Sys, w: nat, outcome: Outcome, more: seq<Action>, t: Sys) returns (run: seq<Action>)
    requires Enabled(s, TryLock(w)) && Enabled(Next(c, s, TryLock(w)), End(w, outcome))
    requires Reaches(c, Next(c, Next(c, s, TryLock(w)), End(w, outcome)), more, t)
    ensures Reaches(c, s, run, t)
  {
    hide Next, Enabled, Reaches;
    run := Before(c, Next(c, s, TryLock(w)), End(w, outcome), more, t);
    run := Before(c, s, TryLock(w), run, t);
  }

  lemma AckAndUnlock(c: Config, s: Sys, w: nat) returns (run: seq<Action>, t: Sys)
    requires w < |s.workers| && s.workers[w].Locked? && (s.workers[w].phase.Succeeded? || s.workers[w].phase.Buried?)
    ensures Reaches(c, s, run, t) && Back(s, t, w)
    ensures View(t) == View(s).(processing := RemoveFirst(s.processing, s.workers[w].it.payload),
                                locks := s.locks - {s.workers[w].key})
  {
    hide Reaches, RemoveFirst, Texts;
    var s1 := Next(c, s, Ack(w));
    t := Next(c, s1, Unlock(w));
    NoSteps(c, t);
    run := Before(c, s1, Unlock(w), [], t);
    run := Before(c, s, Ack(w), run, t);
  }

  lemma BuryAndUnlock(c: Config, s: Sys, w: nat) returns (run: seq<Action>, t: Sys)
    requires w < |s.workers| && s.workers[w].Locked? && s.workers[w].phase.Exhausted?
    ensures Reaches(c, s, run, t) && Back(s, t, w)
    ensures View(t) == View(s).(processing := RemoveFirst(s.processing, s.workers[w].it.payload),
                                locks := s.locks - {s.workers[w].key},
                                dead := [Bumped(s.workers[w].it).payload] + View(s).dead)
  {
    hide Reaches, RemoveFirst, Texts;
    var s1 := Next(c, s, PushDead(w));
    TextsCons(s1.dead[0], s.dead);
    run, t := AckAndUnlock(c, s1, w);
    run := Before(c, s, PushDead(w), run, t);
  }

  lemma DelayAndUnlock(c: Config, s: Sys, w: nat) returns (run: seq<Action>, t: Sys)
    requires w < |s.workers| && s.workers[w].Locked? && s.workers[w].phase.Failing?
    ensures Reaches(c, s, run, t) && Back(s, t, w)
    ensures View(t) == View(s).(processing := RemoveFirst(s.processing, s.workers[w].it.payload),
                                locks := s.locks - {s.workers[w].key},
                                timers := [Bumped(s.workers[w].it).payload] + View(s).timers)
  {
    hide Reaches, RemoveFirst, Texts, Bumped;
    var s1 := Next(c, s, Ack(w));
    var s2 := Next(c, s1, Arm(w));
    TextsCons(s2.timers[0], s.timers);
    t := Next(c, s2, Unlock(w));
    NoSteps(c, t);
    run := Before(c, s2, Unlock(w), [], t);
    run := Before(c, s1, Arm(w), run, t);
    run := Before(c, s, Ack(w), run, t);
  }

  lemma LockedRun(c: Config, s: Sys, w: nat, outcome: Outcome) returns (run: seq<Action>, t: Sys)
    requires Enabled(s, TryLock(w)) && !Busy(s.locks, s.workers[w].it.payload.job.key, s.now)
    ensures Reaches(c, s, run, t) && Back(s, t, w)
    ensures var raw := s.workers[w].it.payload; View(t) == Processed(View(s), raw.job, raw, outcome, c.maxRetries, s.now)
  {
    hide Reaches, RemoveFirst, Texts, Next;
    var m := Ran(c, s, w, outcome);
    assert m.locks == View(m).locks && m.processing == View(m).processing;
    match FateOf(s.workers[w].it.payload.job, outcome, c.maxRetries) {
      case Done => run, t := AckAndUnlock(c, m, w);
      case Buried(_) => run, t := BuryAndUnlock(c, m, w);
      case Retried(_) => run, t := DelayAndUnlock(c, m, w);
    }
    run := FromClaim(c, s, w, outcome, run, t);
    assert t.locks == View(t).locks == s.locks - {s.workers[w].it.payload.job.key};
  }

  /** Whatever the outcome, one worker's steps from a claimed job on can do exactly what processOne does in one go. */
  lemma ProcessOneIsARun(c: Config, s: Sys, w: nat, outcome: Outcome) returns (run: seq<Action>, t: Sys)
    requires Enabled(s, TryLock(w))
    ensures Reaches(c, s, run, t) && Back(s, t, w)
    ensures var raw := s.workers[w].it.payload;
            View(t) == Processed(View(s), raw.job, raw, outcome, c.maxRetries, s.now)
  {
    hide Reaches, View, Processed, Back, Next;
    if Busy(s.locks, s.workers[w].it.payload.job.key, s.now) {
      run, t := RefusedRun(c, s, w, outcome);
    } else {
      run, t := LockedRun(c, s, w, outcome);
    }
  }
}
