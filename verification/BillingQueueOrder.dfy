/** In which order jobs are claimed, and when a retry is back in the queue. */
module BillingQueueOrder {
  import opened BillingQueue
  import opened BillingQueueRuns

  /** The tickets of jobs put back into the queue by a worker without the lock or by a timer. */
  ghost function PutBack(c: Config, s: Sys, run: seq<Action>, back: set<int>): set<int>
    decreases |run|
  {
    if run == [] || !Enabled(s, run[0]) then back
    else PutBack(c, Next(c, s, run[0]), run[1..], back + ReturnedBy(s, run[0]))
  }

  function ReturnedBy(s: Sys, a: Action): set<int>
    requires Enabled(s, a)
  {
    match a
    case Requeue(w) => {s.workers[w].it.ticket}
    case Fire(i) => {s.timers[i].ticket}
    case _ => {}
  }

  /** A job that never left the queue is younger than all that are to be claimed before it. */
  ghost predicate Ordered(s: Sys, back: set<int>) {
    && (forall i, j :: 0 <= i < j < |s.queue| && s.queue[i].ticket !in back ==> s.queue[j].ticket < s.queue[i].ticket)
    && (forall it :: it in s.queue ==> it.ticket < |s.log|)
    && (forall it :: it in s.timers ==> it.ticket < |s.log|)
    && (forall w :: 0 <= w < |s.workers| && !s.workers[w].Idle? ==> s.workers[w].it.ticket < |s.log|)
  }

  lemma OrderedQueue(c: Config, s: Sys, a: Action, back: set<int>)
    requires Ordered(s, back) && Enabled(s, a)
    requires a.Push? || a.Claim? || a.Requeue? || a.Fire?
    ensures Ordered(Next(c, s, a), back + ReturnedBy(s, a))
  {}

  lemma OrderedHands(c: Config, s: Sys, a: Action, back: set<int>)
    requires Ordered(s, back) && Enabled(s, a)
    requires !a.Push? && !a.Claim? && !a.Requeue? && !a.Fire?
    ensures Ordered(Next(c, s, a), back + ReturnedBy(s, a))
  {
    hide RemoveFirst, Busy;
  }

  lemma {:induction false} RunsStayOrdered(c: Config, s: Sys, run: seq<Action>, t: Sys, back: set<int>)
    requires Ordered(s, back) && Reaches(c, s, run, t)
    ensures Ordered(t, PutBack(c, s, run, back))
    decreases |run|
  {
    hide Next, Enabled, Ordered, ReturnedBy;
    if run != [] {
      if run[0].Push? || run[0].Claim? || run[0].Requeue? || run[0].Fire? {
        OrderedQueue(c, s, run[0], back);
      } else {
        OrderedHands(c, s, run[0], back);
      }
      RunsStayOrdered(c, Next(c, s, run[0]), run[1..], t, back + ReturnedBy(s, run[0]));
    }
  }

  /** First in, first out: whatever is left in the queue when a job is claimed, and never left it, was enqueued later. */
  lemma FirstInFirstOut(c: Config, workers: nat, now: int, run: seq<Action>, t: Sys, w: nat, left: Item)
    requires Reaches(c, Init(workers, now), run, t) && Enabled(t, Claim(w))
    requires left in Next(c, t, Claim(w)).queue
    requires left.ticket !in PutBack(c, Init(workers, now), run, {})
    ensures Next(c, t, Claim(w)).workers[w].it.ticket < left.ticket
  {
    RunsStayOrdered(c, Init(workers, now), run, t, {});
    hide Reaches, PutBack;
    var n := |t.queue| - 1;
    var i :| 0 <= i < n && t.queue[..n][i] == left;
    assert t.queue[i] == left;
  }

  /** A retry can go back to the queue from the end of its delay on, and not before. */
  lemma RetryFiresAfterDelay(c: Config, s: Sys, w: nat, d: nat)
    requires Enabled(s, Arm(w)) && s.workers[w].it.payload.Encoded?
    ensures var u := Next(c, Next(c, s, Arm(w)), Tick(d));
            Enabled(u, Fire(0)) <==> d >= Delay(c.base, s.workers[w].it.payload.job.attempt)
  {
    hide Delay;
  }
}
