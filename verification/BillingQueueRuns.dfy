/**
 Any number of workers over the Redis lists, one Redis command or one processor event a
 step. Every enqueued payload gets a ticket, so that equal payloads stay distinguishable
 although Redis itself removes elements by value.
 */
module BillingQueueRuns {
  import opened BillingQueue

  /**
   `origin` is the payload as enqueued, `runs` how often the processor was started on it, `outcomes` what it reported
   so far, `since` when it was last started, and `due` when the last timer armed for it may fire.
   */
  datatype Item = Item(
    payload: Payload, ticket: int, origin: Payload, runs: nat, outcomes: seq<Outcome>, since: int, due: int)

  /** What a worker that owns the lock has done so far. */
  datatype Phase = Running | Succeeded | Exhausted | Buried | Failing | Delayed | Unlocking

  datatype Pc =
    | Idle
    | Claimed(it: Item)
    | Rejected(it: Item)
    | Refused(it: Item)
    | Handover(it: Item)
    | Locked(phase: Phase, it: Item, key: string, deadline: int)

  datatype Config = Config(maxRetries: int, ttl: int, base: int)

  datatype Sys = Sys(
    queue: seq<Item>,
    processing: seq<Payload>,
    dead: seq<Item>,
    timers: seq<Item>,
    done: seq<Item>,
    workers: seq<Pc>,
    locks: map<string, int>,
    now: int,
    log: seq<Payload>)

  datatype Action =
    | Push(p: Payload)
    | Claim(w: nat)
    | TryLock(w: nat)
    | End(w: nat, outcome: Outcome)
    | PushDead(w: nat)
    | Ack(w: nat)
    | Requeue(w: nat)
    | Arm(w: nat)
    | Unlock(w: nat)
    | Fire(i: nat)
    | Tick(d: nat)

  predicate CanAck(pc: Pc) {
    pc.Rejected? || pc.Refused? ||
    (pc.Locked? && (pc.phase.Succeeded? || pc.phase.Buried? || pc.phase.Failing?))
  }

  predicate Enabled(s: Sys, a: Action) {
    match a
    case Push(p) => p != Blank
    case Claim(w) => w < |s.workers| && s.workers[w].Idle? && s.queue != []
    case TryLock(w) => w < |s.workers| && s.workers[w].Claimed? && s.workers[w].it.payload.Encoded?
    case End(w, _) => w < |s.workers| && s.workers[w].Locked? && s.workers[w].phase.Running?
    case PushDead(w) =>
      w < |s.workers| &&
      ((s.workers[w].Claimed? && s.workers[w].it.payload.Garbage?) ||
       (s.workers[w].Locked? && s.workers[w].phase.Exhausted?))
    case Ack(w) => w < |s.workers| && CanAck(s.workers[w])
    case Requeue(w) => w < |s.workers| && s.workers[w].Handover?
    case Arm(w) => w < |s.workers| && s.workers[w].Locked? && s.workers[w].phase.Delayed?
    case Unlock(w) => w < |s.workers| && s.workers[w].Locked? && s.workers[w].phase.Unlocking?
    case Fire(i) => i < |s.timers| && s.timers[i].due <= s.now
    case Tick(_) => true
  }

  /** The item after `job.Attempt++`, re-marshalled. */
  function Bumped(it: Item): Item {
    if it.payload.Encoded? then
      it.(payload := Marshal(it.payload.job.(attempt := it.payload.job.attempt + 1)))
    else it
  }

  /** The item in its timer: the delay starts when the timer is armed. */
  function Armed(c: Config, it: Item, now: int): Item {
    if it.payload.Encoded? then it.(due := now + Delay(c.base, it.payload.job.attempt)) else it
  }

  function At(s: Sys, w: nat, pc: Pc): Sys
    requires w < |s.workers|
  {
    s.(workers := s.workers[w := pc])
  }

  function AfterAck(pc: Pc): Pc {
    if pc.Rejected? then Idle
    else if pc.Refused? then Handover(pc.it)
    else if pc.Locked? && pc.phase.Failing? then pc.(phase := Delayed, it := Bumped(pc.it))
    else if pc.Locked? then pc.(phase := Unlocking)
    else pc
  }

  /** The processor's report is noted with the job. */
  function Reported(pc: Pc, outcome: Outcome): Pc
    requires pc.Locked?
  {
    pc.(it := pc.it.(outcomes := pc.it.outcomes + [outcome]))
  }

  function AfterRun(c: Config, pc: Pc, outcome: Outcome): Pc
    requires pc.Locked?
  {
    if outcome.Success? then pc.(phase := Succeeded)
    else if pc.it.payload.Encoded? && pc.it.payload.job.attempt + 1 >= c.maxRetries then pc.(phase := Exhausted)
    else pc.(phase := Failing)
  }

  function Next(c: Config, s: Sys, a: Action): Sys
    requires Enabled(s, a)
  {
    match a
    case Push(p) =>
      s.(queue := [Item(p, |s.log|, p, 0, [], s.now, s.now)] + s.queue, log := s.log + [p])
    case Claim(w) =>
      var it := s.queue[|s.queue| - 1];
      At(s, w, Claimed(it)).(queue := s.queue[..|s.queue| - 1], processing := [it.payload] + s.processing)
    case TryLock(w) =>
      var it := s.workers[w].it;
      var key := it.payload.job.key;
      if Busy(s.locks, key, s.now) then At(s, w, Refused(it))
      else At(s, w, Locked(Running, it.(runs := it.runs + 1, since := s.now), key, s.now + c.ttl))
           .(locks := s.locks[key := s.now + c.ttl])
    case End(w, outcome) => At(s, w, AfterRun(c, Reported(s.workers[w], outcome), outcome))
    case PushDead(w) =>
      var pc := s.workers[w];
      At(s, w, if pc.Locked? then pc.(phase := Phase.Buried) else Rejected(pc.it))
      .(dead := [if pc.Locked? then Bumped(pc.it) else pc.it] + s.dead)
    case Ack(w) =>
      var pc := s.workers[w];
      At(s, w, AfterAck(pc)).(
      processing := RemoveFirst(s.processing, pc.it.payload),
      done := if pc.Locked? && pc.phase.Succeeded? then [pc.it] + s.done else s.done)
    case Requeue(w) => At(s, w, Idle).(queue := [s.workers[w].it] + s.queue)
    case Arm(w) => At(s, w, s.workers[w].(phase := Unlocking)).(timers := [Armed(c, s.workers[w].it, s.now)] + s.timers)
    case Unlock(w) => At(s, w, Idle).(locks := s.locks - {s.workers[w].key})
    case Fire(i) => s.(timers := s.timers[..i] + s.timers[i + 1..], queue := [s.timers[i]] + s.queue)
    case Tick(d) => s.(now := s.now + d)
  }

  function Init(workers: nat, now: int): Sys {
    Sys([], [], [], [], [], seq(workers, _ => Idle), map[], now, [])
  }

  ghost predicate Reaches(c: Config, s: Sys, actions: seq<Action>, t: Sys)
    decreases |actions|
  {
    if actions == [] then s == t
    else Enabled(s, actions[0]) && Reaches(c, Next(c, s, actions[0]), actions[1..], t)
  }

  // ---- where things are ----

  function TicketsOf(items: seq<Item>): multiset<int> {
    if items == [] then multiset{} else multiset{items[0].ticket} + TicketsOf(items[1..])
  }

  function PayloadsOf(items: seq<Item>): multiset<Payload> {
    if items == [] then multiset{} else multiset{items[0].payload} + PayloadsOf(items[1..])
  }

  function Sum<T>(ws: seq<Pc>, f: Pc -> multiset<T>): multiset<T> {
    if ws == [] then multiset{} else f(ws[0]) + Sum(ws[1..], f)
  }

  /** The worker is the only one to have the job. */
  predicate InCustody(pc: Pc) {
    match pc
    case Claimed(_) => true
    case Refused(_) => true
    case Handover(_) => true
    case Locked(ph, _, _, _) => !ph.Buried? && !ph.Unlocking?
    case _ => false
  }

  /** The worker has claimed and not yet acked. */
  predicate InProcessing(pc: Pc) {
    match pc
    case Claimed(_) => true
    case Rejected(_) => true
    case Refused(_) => true
    case Locked(ph, _, _, _) => !ph.Delayed? && !ph.Unlocking?
    case _ => false
  }

  function Custody(pc: Pc): multiset<int> {
    if !pc.Idle? && InCustody(pc) then multiset{pc.it.ticket} else multiset{}
  }

  function Unacked(pc: Pc): multiset<Payload> {
    if !pc.Idle? && InProcessing(pc) then multiset{pc.it.payload} else multiset{}
  }

  /** Acked and not yet in the queue or in a timer. */
  function BetweenLists(pc: Pc): multiset<Payload> {
    if !pc.Idle? && InCustody(pc) && !InProcessing(pc) then multiset{pc.it.payload} else multiset{}
  }

  /** Already in the dead list and still un-acked. */
  function DeadAndUnacked(pc: Pc): multiset<Payload> {
    if !pc.Idle? && InProcessing(pc) && !InCustody(pc) then multiset{pc.it.payload} else multiset{}
  }

  function CustodyPayload(pc: Pc): multiset<Payload> {
    if !pc.Idle? && InCustody(pc) then multiset{pc.it.payload} else multiset{}
  }

  function Tickets(s: Sys): multiset<int> {
    TicketsOf(s.queue) + TicketsOf(s.dead) + TicketsOf(s.timers) + TicketsOf(s.done) + Sum(s.workers, Custody)
  }

  lemma {:induction false} TicketsAppend(a: seq<Item>, b: seq<Item>)
    ensures TicketsOf(a + b) == TicketsOf(a) + TicketsOf(b)
  {
    if a == [] {
      assert a + b == b;
    } else {
      assert (a + b)[1..] == a[1..] + b;
      TicketsAppend(a[1..], b);
    }
  }

  lemma TicketsCons(it: Item, items: seq<Item>)
    ensures TicketsOf([it] + items) == multiset{it.ticket} + TicketsOf(items)
  {}

  lemma TicketsCut(a: seq<Item>, i: nat)
    requires i < |a|
    ensures TicketsOf(a) == TicketsOf(a[..i] + a[i + 1..]) + multiset{a[i].ticket}
  {
    hide TicketsOf;
    var first, it, rest := a[..i], a[i], a[i + 1..];
    assert a == first + ([it] + rest);
    TicketsAppend(first, [it] + rest);
    TicketsCons(it, rest);
    TicketsAppend(first, rest);
  }

  lemma {:induction false} SumUpdate<T>(ws: seq<Pc>, w: nat, pc: Pc, f: Pc -> multiset<T>)
    requires w < |ws|
    ensures forall x :: Sum(ws[w := pc], f)[x] + f(ws[w])[x] == Sum(ws, f)[x] + f(pc)[x]
  {
    var vs := ws[w := pc];
    if w == 0 {
      assert vs[1..] == ws[1..];
    } else {
      assert vs[1..] == ws[1..][w - 1 := pc];
      SumUpdate(ws[1..], w - 1, pc, f);
    }
    assert forall x :: Sum(vs, f)[x] == f(vs[0])[x] + Sum(vs[1..], f)[x];
    assert forall x :: Sum(ws, f)[x] == f(ws[0])[x] + Sum(ws[1..], f)[x];
  }

  lemma {:induction false} SumOfIdle<T>(ws: seq<Pc>, f: Pc -> multiset<T>)
    requires (forall w :: 0 <= w < |ws| ==> ws[w] == Idle) && f(Idle) == multiset{}
    ensures Sum(ws, f) == multiset{}
  {
    if ws != [] {
      SumOfIdle(ws[1..], f);
    }
  }

  // ---- conservation ----

  /**
   Every ticket is in one place, but for those lost or present twice; the processing list is what the workers hold
   un-acked.
   */
  ghost predicate Balanced(s: Sys, lost: multiset<int>, twice: multiset<int>) {
    && (forall t :: Tickets(s)[t] + lost[t] == (if 0 <= t < |s.log| then 1 else 0) + twice[t])
    && multiset(s.processing) == Sum(s.workers, Unacked)
  }

  function ListTickets(s: Sys): multiset<int> {
    TicketsOf(s.queue) + TicketsOf(s.dead) + TicketsOf(s.timers) + TicketsOf(s.done)
  }

  /** What a worker's step takes from its hands it puts in a list, and the other way round. */
  ghost predicate HandsOver(s: Sys, t: Sys, w: nat) {
    && w < |s.workers| == |t.workers|
    && t.workers == s.workers[w := t.workers[w]]
    && ListTickets(t) + Custody(t.workers[w]) == ListTickets(s) + Custody(s.workers[w])
    && multiset(t.processing) + Unacked(s.workers[w]) == multiset(s.processing) + Unacked(t.workers[w])
    && t.log == s.log
  }

  lemma ClaimingHands(it: Item)
    ensures Custody(Idle) == multiset{} && Custody(Claimed(it)) == multiset{it.ticket}
    ensures Unacked(Idle) == multiset{} && Unacked(Claimed(it)) == multiset{it.payload}
  {}

  lemma PickedUp(s: Sys, t: Sys, w: nat, it: Item)
    requires w < |s.workers| && s.workers[w] == Idle && t.workers == s.workers[w := Claimed(it)] && t.log == s.log
    requires TicketsOf(s.queue) == TicketsOf(t.queue) + multiset{it.ticket}
    requires t.dead == s.dead && t.timers == s.timers && t.done == s.done
    requires t.processing == [it.payload] + s.processing
    ensures HandsOver(s, t, w)
  {
    ClaimingHands(it);
    hide TicketsOf, Custody, Unacked;
  }

  lemma ClaimHandsOver(c: Config, s: Sys, w: nat)
    requires Enabled(s, Claim(w))
    ensures HandsOver(s, Next(c, s, Claim(w)), w)
  {
    hide RemoveFirst, TicketsOf, HandsOver;
    var n := |s.queue| - 1;
    var t, it := Next(c, s, Claim(w)), s.queue[n];
    TicketsCut(s.queue, n);
    assert s.queue[..n] + s.queue[n + 1..] == s.queue[..n];
    ClaimingHands(it);
    hide Custody, Unacked;
    PickedUp(s, t, w, it);
  }

  lemma SameHands(s: Sys, t: Sys, w: nat)
    requires w < |s.workers| == |t.workers| && t.workers == s.workers[w := t.workers[w]] && t.log == s.log
    requires t.queue == s.queue && t.dead == s.dead && t.timers == s.timers && t.done == s.done
    requires t.processing == s.processing
    requires Custody(t.workers[w]) == Custody(s.workers[w]) && Unacked(t.workers[w]) == Unacked(s.workers[w])
    ensures HandsOver(s, t, w)
  {}

  lemma TryLockHandsOver(c: Config, s: Sys, w: nat)
    requires Enabled(s, TryLock(w))
    ensures HandsOver(s, Next(c, s, TryLock(w)), w)
  {
    hide TicketsOf, RemoveFirst;
    var t := Next(c, s, TryLock(w));
    assert t.workers[w].it.ticket == s.workers[w].it.ticket && t.workers[w].it.payload == s.workers[w].it.payload;
    SameHands(s, t, w);
  }

  lemma RunKeepsHands(c: Config, pc: Pc, outcome: Outcome)
    requires pc.Locked? && pc.phase.Running?
    ensures var q := AfterRun(c, Reported(pc, outcome), outcome); Custody(q) == Custody(pc) && Unacked(q) == Unacked(pc)
  {
    StillInHand(c, pc, outcome);
    hide AfterRun, Reported, InCustody, InProcessing;
  }

  lemma StillInHand(c: Config, pc: Pc, outcome: Outcome)
    requires pc.Locked? && pc.phase.Running?
    ensures InCustody(pc) && InProcessing(pc)
    ensures var q := AfterRun(c, Reported(pc, outcome), outcome);
            && !q.Idle? && q.it.ticket == pc.it.ticket && q.it.payload == pc.it.payload && InCustody(q) && InProcessing(q)
  {}

  lemma EndHandsOver(c: Config, s: Sys, w: nat, outcome: Outcome)
    requires Enabled(s, End(w, outcome))
    ensures HandsOver(s, Next(c, s, End(w, outcome)), w)
  {
    hide TicketsOf, RemoveFirst, Custody, Unacked, AfterRun, Reported, HandsOver;
    RunKeepsHands(c, s.workers[w], outcome);
    SameHands(s, Next(c, s, End(w, outcome)), w);
  }

  /** The worker lets go of its ticket, which shows up in a list. */
  lemma PutDown(s: Sys, t: Sys, w: nat, lists: multiset<int>, acked: multiset<Payload>)
    requires w < |s.workers| == |t.workers| && t.workers == s.workers[w := t.workers[w]] && t.log == s.log
    requires ListTickets(t) == ListTickets(s) + lists
    requires Custody(s.workers[w]) == Custody(t.workers[w]) + lists
    requires multiset(s.processing) == multiset(t.processing) + acked
    requires Unacked(s.workers[w]) == Unacked(t.workers[w]) + acked
    ensures HandsOver(s, t, w)
  {
    hide ListTickets, Custody, Unacked;
  }

  lemma BuryingHands(pc: Pc)
    requires pc.Claimed? || (pc.Locked? && pc.phase.Exhausted?)
    ensures var q := if pc.Locked? then pc.(phase := Phase.Buried) else Rejected(pc.it);
            && InCustody(pc) && InProcessing(pc) && !InCustody(q) && InProcessing(q) && !q.Idle? && q.it == pc.it
  {}

  lemma PushDeadHandsOver(c: Config, s: Sys, w: nat)
    requires Enabled(s, PushDead(w))
    ensures HandsOver(s, Next(c, s, PushDead(w)), w)
  {
    hide TicketsOf, HandsOver, InCustody, InProcessing;
    var t := Next(c, s, PushDead(w));
    var pc := s.workers[w];
    BuryingHands(pc);
    assert Custody(pc) == multiset{pc.it.ticket} && Custody(t.workers[w]) == multiset{};
    assert Unacked(t.workers[w]) == Unacked(pc);
    hide Custody, Unacked;
    TicketsCons(t.dead[0], s.dead);
    assert ListTickets(t) == ListTickets(s) + multiset{pc.it.ticket};
    PutDown(s, t, w, multiset{pc.it.ticket}, multiset{});
  }

  lemma AckedHands(pc: Pc)
    requires CanAck(pc)
    ensures !pc.Idle? && InProcessing(pc)
    ensures AfterAck(pc).Idle? || !InProcessing(AfterAck(pc))
    ensures var kept := !AfterAck(pc).Idle? && InCustody(AfterAck(pc));
            && (InCustody(pc) <==> kept || (pc.Locked? && pc.phase.Succeeded?))
            && (kept ==> AfterAck(pc).it.ticket == pc.it.ticket && !(pc.Locked? && pc.phase.Succeeded?))
  {}

  lemma AckEmptiesHands(pc: Pc)
    requires CanAck(pc)
    ensures Custody(pc) == Custody(AfterAck(pc)) +
                           if pc.Locked? && pc.phase.Succeeded? then multiset{pc.it.ticket} else multiset{}
    ensures Unacked(pc) == multiset{pc.it.payload}
    ensures Unacked(AfterAck(pc)) == multiset{}
  {
    hide AfterAck, InCustody, InProcessing, CanAck;
    AckedHands(pc);
  }

  lemma AckHandsOver(c: Config, s: Sys, w: nat)
    requires Enabled(s, Ack(w)) && s.workers[w].it.payload in s.processing
    ensures HandsOver(s, Next(c, s, Ack(w)), w)
  {
    hide TicketsOf, HandsOver, AfterAck, Custody, Unacked, RemoveFirst;
    var t := Next(c, s, Ack(w));
    var pc := s.workers[w];
    var put := if pc.Locked? && pc.phase.Succeeded? then multiset{pc.it.ticket} else multiset{};
    AckEmptiesHands(pc);
    RemovedOnce(s.processing, pc.it.payload);
    TicketsCons(pc.it, s.done);
    assert ListTickets(t) == ListTickets(s) + put;
    assert multiset(s.processing) == multiset(t.processing) + multiset{pc.it.payload};
    PutDown(s, t, w, put, multiset{pc.it.payload});
  }

  lemma ReturningHands(pc: Pc, after: Pc)
    requires (pc.Handover? && after == Idle) || (pc.Locked? && pc.phase.Delayed? && after == pc.(phase := Unlocking))
    ensures Custody(pc) == multiset{pc.it.ticket} && Custody(after) == multiset{}
    ensures Unacked(pc) == multiset{} && Unacked(after) == multiset{}
  {}

  lemma RequeueHandsOver(c: Config, s: Sys, w: nat)
    requires Enabled(s, Requeue(w))
    ensures HandsOver(s, Next(c, s, Requeue(w)), w)
  {
    hide TicketsOf, HandsOver, Custody, Unacked;
    var t := Next(c, s, Requeue(w));
    ReturningHands(s.workers[w], t.workers[w]);
    TicketsCons(t.queue[0], s.queue);
    assert ListTickets(t) == ListTickets(s) + multiset{s.workers[w].it.ticket};
    PutDown(s, t, w, multiset{s.workers[w].it.ticket}, multiset{});
  }

  lemma ArmHandsOver(c: Config, s: Sys, w: nat)
    requires Enabled(s, Arm(w))
    ensures HandsOver(s, Next(c, s, Arm(w)), w)
  {
    hide TicketsOf, HandsOver, Custody, Unacked;
    var t := Next(c, s, Arm(w));
    ReturningHands(s.workers[w], t.workers[w]);
    TicketsCons(t.timers[0], s.timers);
    assert ListTickets(t) == ListTickets(s) + multiset{s.workers[w].it.ticket};
    PutDown(s, t, w, multiset{s.workers[w].it.ticket}, multiset{});
  }

  lemma UnlockHandsOver(c: Config, s: Sys, w: nat)
    requires Enabled(s, Unlock(w))
    ensures HandsOver(s, Next(c, s, Unlock(w)), w)
  {
    hide TicketsOf, RemoveFirst, HandsOver;
    EmptyHands(s.workers[w]);
    hide Custody, Unacked;
    SameHands(s, Next(c, s, Unlock(w)), w);
  }

  lemma EmptyHands(pc: Pc)
    requires pc.Locked? && pc.phase.Unlocking?
    ensures Custody(pc) == Custody(Idle) && Unacked(pc) == Unacked(Idle)
  {}

  lemma HandOverConserves(s: Sys, t: Sys, w: nat, lost: multiset<int>, twice: multiset<int>)
    requires Balanced(s, lost, twice) && HandsOver(s, t, w)
    ensures Balanced(t, lost, twice)
  {
    hide TicketsOf, Sum, Custody, Unacked;
    var pc, pc' := s.workers[w], t.workers[w];
    SumUpdate(s.workers, w, pc', Custody);
    SumUpdate(s.workers, w, pc', Unacked);
    forall x
      ensures Tickets(t)[x] == Tickets(s)[x]
    {
      assert (ListTickets(t) + Custody(pc'))[x] == (ListTickets(s) + Custody(pc))[x];
    }
    forall p
      ensures multiset(t.processing)[p] == Sum(t.workers, Unacked)[p]
    {
      assert (multiset(t.processing) + Unacked(pc))[p] == (multiset(s.processing) + Unacked(pc'))[p];
    }
  }

  /** What a worker has claimed and not acked is in the processing list. */
  lemma HeldIsListed(s: Sys, w: nat)
    requires w < |s.workers| && multiset(s.processing) == Sum(s.workers, Unacked)
    requires s.workers[w] != Idle && InProcessing(s.workers[w])
    ensures s.workers[w].it.payload in s.processing
  {
    var p := s.workers[w].it.payload;
    SumUpdate(s.workers, w, Idle, Unacked);
    assert Sum(s.workers, Unacked)[p] > 0;
    assert multiset(s.processing)[p] > 0;
  }

  lemma PushTickets(c: Config, s: Sys, p: Payload, x: int)
    requires Enabled(s, Push(p))
    ensures Tickets(Next(c, s, Push(p)))[x] == Tickets(s)[x] + if x == |s.log| then 1 else 0
  {
    hide Sum, TicketsOf;
    var t := Next(c, s, Push(p));
    TicketsCons(t.queue[0], s.queue);
    assert TicketsOf(t.queue)[x] == TicketsOf(s.queue)[x] + if x == |s.log| then 1 else 0;
  }

  lemma PushConserves(c: Config, s: Sys, p: Payload, lost: multiset<int>, twice: multiset<int>)
    requires Balanced(s, lost, twice) && Enabled(s, Push(p))
    ensures Balanced(Next(c, s, Push(p)), lost, twice)
  {
    hide Sum, Tickets;
    forall x
      ensures Tickets(Next(c, s, Push(p)))[x] == Tickets(s)[x] + if x == |s.log| then 1 else 0
    {
      PushTickets(c, s, p, x);
    }
  }

  lemma FireConserves(c: Config, s: Sys, i: nat, lost: multiset<int>, twice: multiset<int>)
    requires Balanced(s, lost, twice) && Enabled(s, Fire(i))
    ensures Balanced(Next(c, s, Fire(i)), lost, twice)
  {
    hide Sum, TicketsOf;
    var t := Next(c, s, Fire(i));
    TicketsCut(s.timers, i);
    TicketsCons(s.timers[i], s.queue);
    forall x
      ensures Tickets(t)[x] == Tickets(s)[x]
    {
      assert (TicketsOf(t.queue) + TicketsOf(t.timers))[x] == (TicketsOf(s.queue) + TicketsOf(s.timers))[x];
    }
    hide Tickets;
  }

  lemma TickConserves(c: Config, s: Sys, d: nat, lost: multiset<int>, twice: multiset<int>)
    requires Balanced(s, lost, twice)
    ensures Balanced(Next(c, s, Tick(d)), lost, twice)
  {
    hide Sum, TicketsOf;
    assert Tickets(Next(c, s, Tick(d))) == Tickets(s);
    hide Tickets;
  }

  lemma ConservedStep(c: Config, s: Sys, a: Action, lost: multiset<int>, twice: multiset<int>)
    requires Balanced(s, lost, twice) && Enabled(s, a)
    ensures Balanced(Next(c, s, a), lost, twice)
  {
    match a
    case Push(p) =>
      hide Balanced, Next;
      PushConserves(c, s, p, lost, twice);
    case Fire(i) =>
      hide Balanced, Next;
      FireConserves(c, s, i, lost, twice);
    case Tick(d) =>
      hide Balanced, Next;
      TickConserves(c, s, d, lost, twice);
    case _ =>
      hide Balanced, Next;
      HandingStep(c, s, a, lost, twice);
  }

  lemma HandingStep(c: Config, s: Sys, a: Action, lost: multiset<int>, twice: multiset<int>)
    requires Balanced(s, lost, twice) && Enabled(s, a) && !a.Push? && !a.Tick? && !a.Fire?
    ensures Balanced(Next(c, s, a), lost, twice)
  {
    hide Next, HandsOver, Sum, Tickets;
    match a {
      case Claim(w) => ClaimHandsOver(c, s, w);
      case TryLock(w) => TryLockHandsOver(c, s, w);
      case End(w, outcome) => EndHandsOver(c, s, w, outcome);
      case PushDead(w) => PushDeadHandsOver(c, s, w);
      case Ack(w) => HeldIsListed(s, w); AckHandsOver(c, s, w);
      case Requeue(w) => RequeueHandsOver(c, s, w);
      case Arm(w) => ArmHandsOver(c, s, w);
      case Unlock(w) => UnlockHandsOver(c, s, w);
      case _ =>
    }
    HandOverConserves(s, Next(c, s, a), a.w, lost, twice);
  }

  lemma {:induction false} RunsConserve(c: Config, s: Sys, run: seq<Action>, t: Sys)
    requires Balanced(s, multiset{}, multiset{}) && Reaches(c, s, run, t)
    ensures Balanced(t, multiset{}, multiset{})
    decreases |run|
  {
    hide Next, Enabled, Balanced;
    if run != [] {
      ConservedStep(c, s, run[0], multiset{}, multiset{});
      RunsConserve(c, Next(c, s, run[0]), run[1..], t);
    }
  }

  lemma InitConserved(workers: nat, now: int)
    ensures Balanced(Init(workers, now), multiset{}, multiset{})
  {
    SumOfIdle(Init(workers, now).workers, Custody);
    SumOfIdle(Init(workers, now).workers, Unacked);
  }

  // ---- main results ----

  /** Every payload ever enqueued has its ticket in exactly one place, and no other ticket exists. */
  lemma EveryPayloadInOnePlace(c: Config, workers: nat, now: int, run: seq<Action>, t: Sys, ticket: int)
    requires Reaches(c, Init(workers, now), run, t)
    ensures Tickets(t)[ticket] == if 0 <= ticket < |t.log| then 1 else 0
  {
    InitConserved(workers, now);
    RunsConserve(c, Init(workers, now), run, t);
  }

  /** The processing list is what the workers hold un-acked, counted with repetitions. */
  lemma ProcessingIsWhatWorkersHold(c: Config, workers: nat, now: int, run: seq<Action>, t: Sys)
    requires Reaches(c, Init(workers, now), run, t)
    ensures multiset(t.processing) == Sum(t.workers, Unacked)
  {
    InitConserved(workers, now);
    RunsConserve(c, Init(workers, now), run, t);
  }

  // ---- crash and recovery ----

  function Texts(items: seq<Item>): seq<Payload> {
    if items == [] then [] else [items[0].payload] + Texts(items[1..])
  }

  lemma {:induction false} TextsOfItems(items: seq<Item>)
    ensures multiset(Texts(items)) == PayloadsOf(items)
  {
    if items != [] {
      TextsOfItems(items[1..]);
    }
  }

  /** The queue after a crash of all workers and recoverStuckProcessing. */
  function Recovered(s: Sys): seq<Payload> {
    NonBlank(s.processing) + Texts(s.queue)
  }

  /** Everything not yet finished: queued, waiting for a retry, or with a worker. */
  function Pending(s: Sys): multiset<Payload> {
    PayloadsOf(s.queue) + PayloadsOf(s.timers) + Sum(s.workers, CustodyPayload)
  }

  lemma HandsSplit(pc: Pc, p: Payload)
    ensures Unacked(pc)[p] + BetweenLists(pc)[p] == CustodyPayload(pc)[p] + DeadAndUnacked(pc)[p]
  {
    hide InCustody, InProcessing;
  }

  lemma {:induction false} CustodySplits(ws: seq<Pc>, p: Payload)
    ensures Sum(ws, Unacked)[p] + Sum(ws, BetweenLists)[p] == Sum(ws, CustodyPayload)[p] + Sum(ws, DeadAndUnacked)[p]
  {
    hide Unacked, BetweenLists, CustodyPayload, DeadAndUnacked;
    if ws != [] {
      CustodySplits(ws[1..], p);
      HandsSplit(ws[0], p);
    }
  }

  ghost predicate NoBlanks(s: Sys) {
    && (forall it :: it in s.queue ==> it.payload != Blank)
    && (forall it :: it in s.timers ==> it.payload != Blank)
    && (forall p :: p in s.processing ==> p != Blank)
    && (forall w :: 0 <= w < |s.workers| && s.workers[w] != Idle ==> s.workers[w].it.payload != Blank)
  }

  lemma {:induction false} RemovedWasThere(s: seq<Payload>, raw: Payload)
    ensures forall p :: p in RemoveFirst(s, raw) ==> p in s
  {
    if s != [] {
      RemovedWasThere(s[1..], raw);
    }
  }

  lemma NoBlanksAck(c: Config, s: Sys, w: nat)
    requires NoBlanks(s) && Enabled(s, Ack(w))
    ensures NoBlanks(Next(c, s, Ack(w)))
  {
    hide RemoveFirst;
    RemovedWasThere(s.processing, s.workers[w].it.payload);
  }

  lemma NoBlanksStep(c: Config, s: Sys, a: Action)
    requires NoBlanks(s) && Enabled(s, a)
    ensures NoBlanks(Next(c, s, a))
  {
    hide RemoveFirst;
    if a.Ack? {
      hide NoBlanks, Next;
      NoBlanksAck(c, s, a.w);
    }
  }

  lemma {:induction false} RunsHaveNoBlanks(c: Config, s: Sys, run: seq<Action>, t: Sys)
    requires NoBlanks(s) && Reaches(c, s, run, t)
    ensures NoBlanks(t)
    decreases |run|
  {
    hide Next, Enabled, NoBlanks;
    if run != [] {
      NoBlanksStep(c, s, run[0]);
      RunsHaveNoBlanks(c, Next(c, s, run[0]), run[1..], t);
    }
  }

  /** A crash in any state loses the timers and the handovers and nothing else; what was dead and un-acked comes twice. */
  lemma CrashLosesTimersAndHandovers(c: Config, workers: nat, now: int, run: seq<Action>, s: Sys)
    requires Reaches(c, Init(workers, now), run, s)
    ensures Recovered(s) == s.processing + Texts(s.queue)
    ensures multiset(Recovered(s)) + Sum(s.workers, BetweenLists) + PayloadsOf(s.timers)
         == Pending(s) + Sum(s.workers, DeadAndUnacked)
  {
    hide Sum, PayloadsOf, Reaches, NonBlank, Texts;
    ProcessingIsWhatWorkersHold(c, workers, now, run, s);
    RunsHaveNoBlanks(c, Init(workers, now), run, s);
    NonBlankIsIdentity(s.processing);
    TextsOfItems(s.queue);
    forall p
      ensures (multiset(Recovered(s)) + Sum(s.workers, BetweenLists) + PayloadsOf(s.timers))[p]
           == (Pending(s) + Sum(s.workers, DeadAndUnacked))[p]
    {
      assert multiset(Recovered(s))[p] == multiset(s.processing)[p] + PayloadsOf(s.queue)[p];
      CustodySplits(s.workers, p);
    }
  }
}
