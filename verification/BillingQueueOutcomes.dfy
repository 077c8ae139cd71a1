/** Where a job ends up, by what its processor reported. */
module BillingQueueOutcomes {
  import opened Wrappers
  import opened BillingQueue
  import opened BillingQueueRuns
  import opened BillingQueueRetries

  predicate OnlyFailures(outcomes: seq<Outcome>) {
    forall i :: 0 <= i < |outcomes| ==> outcomes[i] == Failure
  }

  predicate FailedThenSucceeded(outcomes: seq<Outcome>) {
    outcomes != [] && outcomes[|outcomes| - 1] == Success && OnlyFailures(outcomes[..|outcomes| - 1])
  }

  /** Every run so far has ended in a failure. */
  predicate FailedSoFar(it: Item) {
    OnlyFailures(it.outcomes) && |it.outcomes| == it.runs
  }

  predicate WorkerTold(pc: Pc) {
    match pc
    case Idle => true
    case Claimed(it) => FailedSoFar(it)
    case Rejected(_) => true
    case Refused(it) => FailedSoFar(it)
    case Handover(it) => FailedSoFar(it)
    case Locked(ph, it, _, _) =>
      match ph
      case Running => OnlyFailures(it.outcomes) && |it.outcomes| + 1 == it.runs
      case Succeeded => FailedThenSucceeded(it.outcomes)
      case Exhausted => FailedSoFar(it) && it.runs > 0
      case Failing => FailedSoFar(it) && it.runs > 0
      case Delayed => FailedSoFar(it) && it.runs > 0
      case _ => true
  }

  ghost predicate Told(s: Sys) {
    && (forall it :: it in s.queue ==> FailedSoFar(it))
    && (forall it :: it in s.timers ==> FailedSoFar(it) && it.runs > 0)
    && (forall it :: it in s.dead ==> FailedSoFar(it))
    && (forall it :: it in s.done ==> FailedThenSucceeded(it.outcomes))
    && (forall w :: 0 <= w < |s.workers| ==> WorkerTold(s.workers[w]))
  }

  lemma ToldLists(c: Config, s: Sys, a: Action)
    requires Told(s) && Enabled(s, a) && (a.Push? || a.Claim? || a.Fire? || a.Tick? || a.Unlock? || a.TryLock?)
    ensures Told(Next(c, s, a))
  {
    hide RemoveFirst, Busy, FailedThenSucceeded;
    if a.TryLock? {
      assert WorkerTold(s.workers[a.w]);
    }
  }

  lemma ToldEnd(c: Config, s: Sys, w: nat, outcome: Outcome)
    requires Told(s) && Enabled(s, End(w, outcome))
    ensures Told(Next(c, s, End(w, outcome)))
  {
    assert WorkerTold(s.workers[w]);
    var was := s.workers[w].it.outcomes;
    assert (was + [outcome])[..|was|] == was;
    assert WorkerTold(Next(c, s, End(w, outcome)).workers[w]);
    hide FailedSoFar, FailedThenSucceeded, WorkerTold;
  }

  lemma ToldAck(c: Config, s: Sys, w: nat)
    requires Told(s) && Enabled(s, Ack(w))
    ensures Told(Next(c, s, Ack(w)))
  {
    hide RemoveFirst, OnlyFailures, FailedThenSucceeded;
    assert WorkerTold(s.workers[w]);
    assert WorkerTold(AfterAck(s.workers[w]));
    hide AfterAck;
  }

  /** Giving up happens only on a job that was run or a text that is no job. */
  lemma ToldHandOver(c: Config, s: Sys, a: Action)
    requires Told(s) && Enabled(s, a) && (a.PushDead? || a.Requeue? || a.Arm?)
    ensures Told(Next(c, s, a))
  {
    hide OnlyFailures, FailedThenSucceeded;
    assert WorkerTold(s.workers[a.w]);
  }

  lemma ToldStep(c: Config, s: Sys, a: Action)
    requires Told(s) && Enabled(s, a)
    ensures Told(Next(c, s, a))
  {
    hide Next, Told, Enabled;
    match a
    case End(w, outcome) => ToldEnd(c, s, w, outcome);
    case Ack(w) => ToldAck(c, s, w);
    case PushDead(_) => ToldHandOver(c, s, a);
    case Requeue(_) => ToldHandOver(c, s, a);
    case Arm(_) => ToldHandOver(c, s, a);
    case _ => ToldLists(c, s, a);
  }

  lemma {:induction false} RunsAreTold(c: Config, s: Sys, run: seq<Action>, t: Sys)
    requires Told(s) && Reaches(c, s, run, t)
    ensures Told(t)
    decreases |run|
  {
    hide Next, Enabled, Told;
    if run != [] {
      ToldStep(c, s, run[0]);
      RunsAreTold(c, Next(c, s, run[0]), run[1..], t);
    }
  }

  // ---- main results ----

  /** A worker has the job and is in this phase with it. */
  predicate InPhase(s: Sys, it: Item, phase: Phase) {
    exists w :: 0 <= w < |s.workers| && s.workers[w].Locked? && s.workers[w].phase == phase && s.workers[w].it == it
  }

  /** A worker has the job and has neither succeeded nor given up with it. */
  predicate AtWork(s: Sys, it: Item) {
    exists w :: 0 <= w < |s.workers| && !s.workers[w].Idle? && InCustody(s.workers[w]) && s.workers[w].it == it
                && !(s.workers[w].Locked? && (s.workers[w].phase.Succeeded? || s.workers[w].phase.Exhausted?))
  }

  /** The job has had its failures: as many as bring its attempt to the limit, and at least one. */
  predicate UsedUp(c: Config, it: Item)
    requires it.origin.Encoded?
  {
    OnlyFailures(it.outcomes) && it.outcomes != [] && it.origin.job.attempt + |it.outcomes| >= c.maxRetries
  }

  predicate StillToRun(c: Config, it: Item)
    requires it.origin.Encoded?
  {
    OnlyFailures(it.outcomes) && (it.outcomes == [] || it.origin.job.attempt + |it.outcomes| < c.maxRetries)
  }

  /** The place of a job is decided by its outcomes. */
  ghost predicate PlacedByOutcomes(c: Config, s: Sys, it: Item)
    requires it.origin.Encoded?
  {
    && (FailedThenSucceeded(it.outcomes) <==> it in s.done || InPhase(s, it, Succeeded))
    && (UsedUp(c, it) <==> it in s.dead || InPhase(s, it, Exhausted))
    && (StillToRun(c, it) <==> it in s.queue || it in s.timers || AtWork(s, it))
  }

  lemma WorkerPlaces(c: Config, s: Sys, w: nat)
    requires Told(s) && Attempts(c, s) && w < |s.workers|
    requires !s.workers[w].Idle? && InCustody(s.workers[w]) && s.workers[w].it.origin.Encoded?
    ensures var pc := s.workers[w];
            if pc.Locked? && pc.phase.Succeeded? then FailedThenSucceeded(pc.it.outcomes)
            else if pc.Locked? && pc.phase.Exhausted? then UsedUp(c, pc.it)
            else StillToRun(c, pc.it)
  {
    assert WorkerTold(s.workers[w]) && WorkerOk(c, s.log, s.workers[w]);
  }

  lemma ListPlaces(c: Config, s: Sys, it: Item)
    requires Told(s) && Attempts(c, s) && it.origin.Encoded?
    ensures it in s.queue || it in s.timers ==> StillToRun(c, it)
    ensures it in s.dead ==> UsedUp(c, it)
    ensures it in s.done ==> FailedThenSucceeded(it.outcomes)
  {}

  lemma OutcomesExclude(c: Config, it: Item)
    requires it.origin.Encoded?
    ensures !(FailedThenSucceeded(it.outcomes) && OnlyFailures(it.outcomes))
    ensures !(UsedUp(c, it) && StillToRun(c, it))
  {}

  lemma OutcomesDecidePlace(c: Config, s: Sys, it: Item)
    requires Told(s) && Attempts(c, s) && Somewhere(s, it) && it.origin.Encoded?
    ensures PlacedByOutcomes(c, s, it)
  {
    ListPlaces(c, s, it);
    OutcomesExclude(c, it);
    forall w | 0 <= w < |s.workers| && !s.workers[w].Idle? && InCustody(s.workers[w]) && s.workers[w].it == it
      ensures var pc := s.workers[w];
              if pc.Locked? && pc.phase.Succeeded? then FailedThenSucceeded(it.outcomes)
              else if pc.Locked? && pc.phase.Exhausted? then UsedUp(c, it)
              else StillToRun(c, it)
    {
      WorkerPlaces(c, s, w);
    }
    hide Told, Attempts, OnlyFailures, FailedThenSucceeded;
  }

  lemma {:induction false} ListedTicket(items: seq<Item>, ticket: int)
    ensures TicketsOf(items)[ticket] > 0 ==> exists it :: it in items && it.ticket == ticket
  {
    if items != [] {
      ListedTicket(items[1..], ticket);
      if it :| it in items[1..] && it.ticket == ticket {
        assert it in items;
      } else {
        assert items[0] in items;
      }
    }
  }

  lemma {:induction false} HeldTicket(ws: seq<Pc>, ticket: int)
    ensures Sum(ws, Custody)[ticket] > 0 ==>
              exists w :: 0 <= w < |ws| && !ws[w].Idle? && InCustody(ws[w]) && ws[w].it.ticket == ticket
  {
    if ws != [] && Sum(ws, Custody)[ticket] > 0 {
      HeldTicket(ws[1..], ticket);
      if w :| 0 <= w < |ws[1..]| && !ws[1..][w].Idle? && InCustody(ws[1..][w]) && ws[1..][w].it.ticket == ticket {
        assert ws[w + 1] == ws[1..][w];
      } else {
        assert Custody(ws[0])[ticket] > 0;
      }
    }
  }

  /** Nothing enqueued is ever missing. */
  lemma TicketIsSomewhere(c: Config, workers: nat, now: int, run: seq<Action>, t: Sys, ticket: int) returns (it: Item)
    requires Reaches(c, Init(workers, now), run, t) && 0 <= ticket < |t.log|
    ensures Somewhere(t, it) && it.ticket == ticket
  {
    EveryPayloadInOnePlace(c, workers, now, run, t, ticket);
    ListedTicket(t.queue, ticket);
    ListedTicket(t.dead, ticket);
    ListedTicket(t.timers, ticket);
    ListedTicket(t.done, ticket);
    HeldTicket(t.workers, ticket);
    hide Reaches, Sum, TicketsOf, InCustody;
    if x :| x in t.queue && x.ticket == ticket {
      it := x;
    } else if x :| x in t.dead && x.ticket == ticket {
      it := x;
    } else if x :| x in t.timers && x.ticket == ticket {
      it := x;
    } else if x :| x in t.done && x.ticket == ticket {
      it := x;
    } else {
      var w :| 0 <= w < |t.workers| && !t.workers[w].Idle? && InCustody(t.workers[w]) && t.workers[w].it.ticket == ticket;
      it := t.workers[w].it;
    }
  }

  /**
   Every job ever enqueued, in every run: done exactly after failures and one success; dead exactly when its failures
   have used up the limit; otherwise in the queue, in a timer or with a worker, to be run again.
   */
  lemma JobsGoWhereOutcomesSay(c: Config, workers: nat, now: int, run: seq<Action>, t: Sys, ticket: int)
    returns (it: Item)
    requires Reaches(c, Init(workers, now), run, t) && 0 <= ticket < |t.log| && t.log[ticket].Encoded?
    ensures Somewhere(t, it) && it.ticket == ticket && it.origin == t.log[ticket]
    ensures PlacedByOutcomes(c, t, it)
    ensures OnlyFailures(it.outcomes) || FailedThenSucceeded(it.outcomes)
  {
    it := TicketIsSomewhere(c, workers, now, run, t, ticket);
    RunsAreTold(c, Init(workers, now), run, t);
    RunsCountAttempts(c, Init(workers, now), run, t);
    hide Reaches;
    SomewhereIsGenuine(c, t, it);
    OutcomesDecidePlace(c, t, it);
  }

  lemma SomewhereIsGenuine(c: Config, s: Sys, it: Item)
    requires Attempts(c, s) && Somewhere(s, it)
    ensures Genuine(s.log, it)
  {
    if w :| 0 <= w < |s.workers| && !s.workers[w].Idle? && InCustody(s.workers[w]) && s.workers[w].it == it {
      assert WorkerOk(c, s.log, s.workers[w]);
    }
  }

  // ---- the lock's time to live ----

  /** An owner's deadline is the TTL after its processor was started, and its key is the job's. */
  predicate Dated(c: Config, pc: Pc) {
    pc.Locked? ==>
      pc.deadline == pc.it.since + c.ttl && pc.it.payload.Encoded? && pc.key == pc.it.payload.job.key
  }

  ghost predicate AllDated(c: Config, s: Sys) {
    forall w :: 0 <= w < |s.workers| ==> Dated(c, s.workers[w])
  }

  lemma DatedStep(c: Config, s: Sys, a: Action)
    requires AllDated(c, s) && Enabled(s, a)
    ensures AllDated(c, Next(c, s, a))
  {
    hide RemoveFirst, Busy;
    assert a.Claim? || a.TryLock? || a.End? || a.PushDead? || a.Ack? || a.Requeue? || a.Arm? || a.Unlock? ==>
      Dated(c, s.workers[a.w]);
  }

  lemma {:induction false} RunsAreDated(c: Config, s: Sys, run: seq<Action>, t: Sys)
    requires AllDated(c, s) && Reaches(c, s, run, t)
    ensures AllDated(c, t)
    decreases |run|
  {
    hide Next, Enabled, AllDated;
    if run != [] {
      DatedStep(c, s, run[0]);
      RunsAreDated(c, Next(c, s, run[0]), run[1..], t);
    }
  }

  /** In every run an owner's lock lasts the TTL from the start of its processor, under its job's own key. */
  lemma LockLastsTTL(c: Config, workers: nat, now: int, run: seq<Action>, t: Sys, w: nat)
    requires Reaches(c, Init(workers, now), run, t) && w < |t.workers| && t.workers[w].Locked?
    ensures t.workers[w].deadline == t.workers[w].it.since + c.ttl
    ensures t.workers[w].it.payload.Encoded? && t.workers[w].key == t.workers[w].it.payload.job.key
  {
    RunsAreDated(c, Init(workers, now), run, t);
    assert Dated(c, t.workers[w]);
  }
}
