/**
 Crashes and recoveries as steps of a run, one Redis command a step: what recovery restores, what is lost and what comes
 twice, over any number of them, crashes during recovery included.
 */
module BillingQueueCrashes {
  import opened Wrappers
  import opened BillingQueue
  import opened BillingQueueRuns

  /** Workers are up, or recovery is popping what is `left` of processing, with one payload in hand or none. */
  datatype Mode = Up | Recovering(left: seq<Item>, hand: Option<Item>)

  /** The queue system with the tickets lost, and those that came to be in two places, in all crashes so far. */
  datatype World = World(s: Sys, mode: Mode, lost: multiset<int>, twice: multiset<int>)

  /** `held` are the un-acked items in the order of the processing list, which alone Redis has. */
  datatype Event = Work(a: Action) | Crash(held: seq<Item>) | Pop | PushBack | Start

  function UnackedTicket(pc: Pc): multiset<int> {
    if !pc.Idle? && InProcessing(pc) then multiset{pc.it.ticket} else multiset{}
  }

  /** Acked and not yet in the queue or in a timer. */
  function BetweenTicket(pc: Pc): multiset<int> {
    if !pc.Idle? && InCustody(pc) && !InProcessing(pc) then multiset{pc.it.ticket} else multiset{}
  }

  /** Already in the dead list and still un-acked. */
  function SettledTicket(pc: Pc): multiset<int> {
    if !pc.Idle? && InProcessing(pc) && !InCustody(pc) then multiset{pc.it.ticket} else multiset{}
  }

  function HandTicket(hand: Option<Item>): multiset<int> {
    if hand.Some? then multiset{hand.value.ticket} else multiset{}
  }

  /** During recovery jobs can be enqueued and time passes, but no worker runs. */
  ghost predicate Occurs(x: World, e: Event) {
    match e
    case Work(a) => Enabled(x.s, a) && (x.mode.Up? || a.Push? || a.Tick?)
    case Crash(held) =>
      if x.mode.Up? then Texts(held) == x.s.processing && TicketsOf(held) == Sum(x.s.workers, UnackedTicket)
      else held == x.mode.left
    case Pop => x.mode.Recovering? && x.mode.hand.None? && x.mode.left != [] && x.s.processing != []
    case PushBack => x.mode.Recovering? && x.mode.hand.Some?
    case Start => x.mode.Recovering? && x.mode.hand.None? && x.mode.left == []
  }

  /** All workers and timers are gone. */
  function Crashed(s: Sys): Sys {
    s.(timers := [], workers := seq(|s.workers|, _ => Idle))
  }

  ghost function After(c: Config, x: World, e: Event): World
    requires Occurs(x, e)
  {
    match e
    case Work(a) => x.(s := Next(c, x.s, a))
    case Crash(held) =>
      World(Crashed(x.s), Recovering(held, None),
            if x.mode.Up? then x.lost + TicketsOf(x.s.timers) + Sum(x.s.workers, BetweenTicket)
            else x.lost + HandTicket(x.mode.hand),
            if x.mode.Up? then x.twice + Sum(x.s.workers, SettledTicket) else x.twice)
    case Pop =>
      var n, k := |x.mode.left| - 1, |x.s.processing| - 1;
      var it := x.mode.left[n];
      World(x.s.(processing := x.s.processing[..k]),
            Recovering(x.mode.left[..n], if it.payload == Blank then None else Some(it)),
            if it.payload == Blank then x.lost + multiset{it.ticket} else x.lost, x.twice)
    case PushBack => x.(s := x.s.(queue := [x.mode.hand.value] + x.s.queue), mode := Recovering(x.mode.left, None))
    case Start => x.(mode := Up)
  }

  ghost predicate Leads(c: Config, x: World, run: seq<Event>, y: World)
    decreases |run|
  {
    if run == [] then x == y else Occurs(x, run[0]) && Leads(c, After(c, x, run[0]), run[1..], y)
  }

  /** The tickets of everything that exists: in the lists, with workers, or on the way back to the queue. */
  function Places(x: World): multiset<int> {
    Tickets(x.s) + if x.mode.Up? then multiset{} else TicketsOf(x.mode.left) + HandTicket(x.mode.hand)
  }

  ghost predicate Counted(x: World, k: int) {
    Places(x)[k] + x.lost[k] == (if 0 <= k < |x.s.log| then 1 else 0) + x.twice[k]
  }

  /** What the processing list is, and that nobody works during recovery. */
  ghost predicate Shaped(x: World) {
    if x.mode.Up? then multiset(x.s.processing) == Sum(x.s.workers, Unacked)
    else
      && Texts(x.mode.left) == x.s.processing && x.s.timers == []
      && forall w :: 0 <= w < |x.s.workers| ==> x.s.workers[w] == Idle
  }

  ghost predicate Accounted(x: World) {
    (forall k :: Counted(x, k)) && Shaped(x)
  }

  // ---- the steps ----

  lemma HandsSplit(pc: Pc, x: int)
    ensures UnackedTicket(pc)[x] + BetweenTicket(pc)[x] == Custody(pc)[x] + SettledTicket(pc)[x]
  {
    hide InCustody, InProcessing;
  }

  lemma {:induction false} TicketsSplit(ws: seq<Pc>, x: int)
    ensures Sum(ws, UnackedTicket)[x] + Sum(ws, BetweenTicket)[x] == Sum(ws, Custody)[x] + Sum(ws, SettledTicket)[x]
  {
    hide UnackedTicket, BetweenTicket, Custody, SettledTicket;
    if ws != [] {
      TicketsSplit(ws[1..], x);
      HandsSplit(ws[0], x);
    }
  }

  lemma CrashedTickets(s: Sys, k: int)
    ensures Tickets(Crashed(s))[k] + TicketsOf(s.timers)[k] + Sum(s.workers, Custody)[k] == Tickets(s)[k]
  {
    SumOfIdle(Crashed(s).workers, Custody);
    assert TicketsOf([]) == multiset{};
    hide TicketsOf, Sum;
  }

  lemma CrashCounts(c: Config, x: World, held: seq<Item>, k: int)
    requires x.mode.Up? && Occurs(x, Crash(held)) && Counted(x, k)
    ensures Counted(After(c, x, Crash(held)), k)
  {
    TicketsSplit(x.s.workers, k);
    CrashedTickets(x.s, k);
    assert Crashed(x.s).log == x.s.log;
    hide TicketsOf, Sum, Tickets, Crashed, Texts;
  }

  lemma CrashShapes(c: Config, x: World, held: seq<Item>)
    requires x.mode.Up? && Occurs(x, Crash(held))
    ensures Shaped(After(c, x, Crash(held)))
  {
    hide TicketsOf, Sum, Texts;
  }

  /** A crash in the middle of recovery loses what was popped and not yet pushed back. */
  lemma CrashAgain(c: Config, x: World, held: seq<Item>)
    requires Shaped(x) && !x.mode.Up? && Occurs(x, Crash(held))
    ensures After(c, x, Crash(held)) == x.(mode := Recovering(x.mode.left, None), lost := x.lost + HandTicket(x.mode.hand))
  {
    assert Crashed(x.s).workers == x.s.workers;
    hide TicketsOf, Texts, Sum;
    assert Crashed(x.s) == x.s;
  }

  lemma CrashAgainCounts(c: Config, x: World, held: seq<Item>, k: int)
    requires Shaped(x) && !x.mode.Up? && Occurs(x, Crash(held)) && Counted(x, k)
    ensures Counted(After(c, x, Crash(held)), k)
  {
    CrashAgain(c, x, held);
    hide TicketsOf, Tickets, Texts, Crashed, After, Occurs, Sum, Shaped;
  }

  lemma CrashAgainShapes(c: Config, x: World, held: seq<Item>)
    requires Shaped(x) && !x.mode.Up? && Occurs(x, Crash(held))
    ensures Shaped(After(c, x, Crash(held)))
  {
    CrashAgain(c, x, held);
    hide Texts, Crashed, After, Occurs, Sum;
  }

  lemma TextsCut(items: seq<Item>, n: nat)
    requires n + 1 == |items|
    ensures |Texts(items)| == n + 1 && Texts(items[..n]) == Texts(items)[..n]
    decreases n
  {
    if n > 0 {
      assert items[1..][..n - 1] == items[..n][1..];
      TextsCut(items[1..], n - 1);
    }
  }

  lemma PopCounts(c: Config, x: World, k: int)
    requires Occurs(x, Pop) && Counted(x, k)
    ensures Counted(After(c, x, Pop), k)
  {
    hide TicketsOf, Sum, Texts;
    var n := |x.mode.left| - 1;
    TicketsCut(x.mode.left, n);
    assert x.mode.left[..n] + x.mode.left[n + 1..] == x.mode.left[..n];
    assert Tickets(After(c, x, Pop).s) == Tickets(x.s);
    hide Tickets;
  }

  lemma PopShapes(c: Config, x: World)
    requires Shaped(x) && Occurs(x, Pop)
    ensures Shaped(After(c, x, Pop))
  {
    hide TicketsOf, Sum, Texts;
    TextsCut(x.mode.left, |x.mode.left| - 1);
  }

  lemma PushBackCounts(c: Config, x: World, k: int)
    requires Occurs(x, PushBack) && Counted(x, k)
    ensures Counted(After(c, x, PushBack), k)
  {
    hide TicketsOf, Sum, Texts;
    TicketsCons(x.mode.hand.value, x.s.queue);
  }

  lemma StartCounts(c: Config, x: World, k: int)
    requires Occurs(x, Start) && Counted(x, k)
    ensures Counted(After(c, x, Start), k)
  {
    hide TicketsOf, Sum, Texts, Tickets;
    NoTickets(x.mode.left);
    assert HandTicket(x.mode.hand) == multiset{};
  }

  lemma NoTickets(items: seq<Item>)
    requires items == []
    ensures TicketsOf(items) == multiset{}
  {}

  lemma StartShapes(c: Config, x: World)
    requires Shaped(x) && Occurs(x, Start)
    ensures Shaped(After(c, x, Start))
  {
    NoTexts(x.mode.left);
    SumOfIdle(x.s.workers, Unacked);
    hide Sum, Texts, TicketsOf;
  }

  lemma NoTexts(items: seq<Item>)
    requires items == []
    ensures Texts(items) == []
  {}

  lemma UpIsBalanced(x: World)
    requires x.mode.Up?
    ensures Accounted(x) <==> Balanced(x.s, x.lost, x.twice)
  {
    hide Tickets, Sum, Texts, TicketsOf;
    assert Places(x) == Tickets(x.s);
    hide Places;
    if Accounted(x) {
      forall k
        ensures Tickets(x.s)[k] + x.lost[k] == (if 0 <= k < |x.s.log| then 1 else 0) + x.twice[k]
      {
        assert Counted(x, k);
      }
    }
  }

  lemma LateWorkState(c: Config, x: World, a: Action)
    requires !x.mode.Up? && Occurs(x, Work(a))
    ensures var y := After(c, x, Work(a));
            && y.mode == x.mode && y.lost == x.lost && y.twice == x.twice
            && y.s.processing == x.s.processing && y.s.timers == x.s.timers && y.s.workers == x.s.workers
            && |y.s.log| == |x.s.log| + if a.Push? then 1 else 0
  {}

  lemma LateWorkTickets(c: Config, x: World, a: Action, k: int)
    requires !x.mode.Up? && Occurs(x, Work(a))
    ensures Tickets(After(c, x, Work(a)).s)[k] == Tickets(x.s)[k] + if a.Push? && k == |x.s.log| then 1 else 0
  {
    hide TicketsOf, Sum, Texts;
    if a.Push? {
      PushTickets(c, x.s, a.p, k);
      hide Tickets;
    }
  }

  /** Enqueuing while recovery runs. */
  lemma LateWorkCounts(c: Config, x: World, a: Action, k: int)
    requires !x.mode.Up? && Occurs(x, Work(a)) && Counted(x, k)
    ensures Counted(After(c, x, Work(a)), k)
  {
    LateWorkState(c, x, a);
    LateWorkTickets(c, x, a, k);
    hide Tickets, TicketsOf, Sum, Texts, After, Occurs;
  }

  lemma LateWorkShapes(c: Config, x: World, a: Action)
    requires Shaped(x) && !x.mode.Up? && Occurs(x, Work(a))
    ensures Shaped(After(c, x, Work(a)))
  {
    LateWorkState(c, x, a);
    hide Sum, Texts, After, Occurs;
  }

  lemma RecoveryCounts(c: Config, x: World, e: Event, k: int)
    requires Shaped(x) && Counted(x, k) && Occurs(x, e) && !(e.Work? && x.mode.Up?)
    ensures Counted(After(c, x, e), k)
  {
    hide Counted, Shaped, After, Occurs;
    match e
    case Work(a) => LateWorkCounts(c, x, a, k);
    case Crash(held) =>
      if x.mode.Up? {
        CrashCounts(c, x, held, k);
      } else {
        CrashAgainCounts(c, x, held, k);
      }
    case Pop => PopCounts(c, x, k);
    case PushBack => PushBackCounts(c, x, k);
    case Start => StartCounts(c, x, k);
  }

  lemma PushBackShapes(c: Config, x: World)
    requires Shaped(x) && Occurs(x, PushBack)
    ensures Shaped(After(c, x, PushBack))
  {
    hide Sum, Texts, TicketsOf;
  }

  lemma RecoveryShapes(c: Config, x: World, e: Event)
    requires Shaped(x) && Occurs(x, e) && !(e.Work? && x.mode.Up?)
    ensures Shaped(After(c, x, e))
  {
    hide Shaped, After, Occurs;
    match e
    case Work(a) => LateWorkShapes(c, x, a);
    case Crash(held) =>
      if x.mode.Up? {
        CrashShapes(c, x, held);
      } else {
        CrashAgainShapes(c, x, held);
      }
    case Pop => PopShapes(c, x);
    case PushBack => PushBackShapes(c, x);
    case Start => StartShapes(c, x);
  }

  lemma EventAccounts(c: Config, x: World, e: Event)
    requires Accounted(x) && Occurs(x, e)
    ensures Accounted(After(c, x, e))
  {
    hide Counted, Shaped, After, Balanced, Occurs;
    if e.Work? && x.mode.Up? {
      hide Accounted;
      UpIsBalanced(x);
      WorkIsNext(c, x, e.a);
      ConservedStep(c, x.s, e.a, x.lost, x.twice);
      UpIsBalanced(After(c, x, e));
    } else {
      RecoveryShapes(c, x, e);
      forall k
        ensures Counted(After(c, x, e), k)
      {
        RecoveryCounts(c, x, e, k);
      }
    }
  }

  lemma WorkIsNext(c: Config, x: World, a: Action)
    requires Occurs(x, Work(a))
    ensures Enabled(x.s, a) && After(c, x, Work(a)) == x.(s := Next(c, x.s, a))
  {}

  lemma {:induction false} RunsAccount(c: Config, x: World, run: seq<Event>, y: World)
    requires Accounted(x) && Leads(c, x, run, y)
    ensures Accounted(y)
    decreases |run|
  {
    hide Occurs, Accounted, After;
    if run != [] {
      EventAccounts(c, x, run[0]);
      RunsAccount(c, After(c, x, run[0]), run[1..], y);
    }
  }

  function Boot(workers: nat, now: int): World {
    World(Init(workers, now), Up, multiset{}, multiset{})
  }

  /**
   Over any run with any number of crashes, also of recoveries: a ticket is in as many places as it was enqueued and came
   twice, less what was lost. So a job that no crash met in a timer, a handover, the dead list or the hands of a recovery
   is in exactly one place.
   */
  lemma CrashesAreAccounted(c: Config, workers: nat, now: int, run: seq<Event>, y: World, ticket: int)
    requires Leads(c, Boot(workers, now), run, y)
    ensures Places(y)[ticket] + y.lost[ticket] == (if 0 <= ticket < |y.s.log| then 1 else 0) + y.twice[ticket]
    ensures y.mode.Up? ==> multiset(y.s.processing) == Sum(y.s.workers, Unacked)
  {
    InitConserved(workers, now);
    UpIsBalanced(Boot(workers, now));
    RunsAccount(c, Boot(workers, now), run, y);
    hide Leads, Places, Sum;
    assert Counted(y, ticket);
  }

  // ---- recovery is always possible, and restores ----

  /** The items that the workers hold un-acked. */
  function HeldItems(ws: seq<Pc>): seq<Item> {
    if ws == [] then []
    else (if !ws[0].Idle? && InProcessing(ws[0]) then [ws[0].it] else []) + HeldItems(ws[1..])
  }

  lemma {:induction false} HeldCounts(ws: seq<Pc>)
    ensures TicketsOf(HeldItems(ws)) == Sum(ws, UnackedTicket)
    ensures PayloadsOf(HeldItems(ws)) == Sum(ws, Unacked)
  {
    if ws != [] {
      HeldCounts(ws[1..]);
      hide InProcessing;
      if !ws[0].Idle? && InProcessing(ws[0]) {
        assert ([ws[0].it] + HeldItems(ws[1..]))[1..] == HeldItems(ws[1..]);
      } else {
        assert [] + HeldItems(ws[1..]) == HeldItems(ws[1..]);
      }
    }
  }

  lemma {:induction false} PayloadsAppend(a: seq<Item>, b: seq<Item>)
    ensures PayloadsOf(a + b) == PayloadsOf(a) + PayloadsOf(b)
  {
    if a == [] {
      assert a + b == b;
    } else {
      assert (a + b)[1..] == a[1..] + b;
      PayloadsAppend(a[1..], b);
    }
  }

  lemma {:induction false} FindPayload(items: seq<Item>, p: Payload) returns (i: nat)
    requires p in PayloadsOf(items)
    ensures i < |items| && items[i].payload == p
  {
    if items[0].payload == p {
      i := 0;
    } else {
      i := FindPayload(items[1..], p);
      i := i + 1;
    }
  }

  lemma PayloadsCons(it: Item, items: seq<Item>)
    ensures PayloadsOf([it] + items) == multiset{it.payload} + PayloadsOf(items)
  {}

  lemma PayloadsCut(items: seq<Item>, i: nat)
    requires i < |items|
    ensures PayloadsOf(items) == PayloadsOf(items[..i] + items[i + 1..]) + multiset{items[i].payload}
  {
    hide PayloadsOf;
    var first, it, rest := items[..i], items[i], items[i + 1..];
    assert items == first + ([it] + rest);
    PayloadsAppend(first, [it] + rest);
    PayloadsCons(it, rest);
    PayloadsAppend(first, rest);
  }

  lemma NoPayloads(items: seq<Item>)
    requires PayloadsOf(items) == multiset{}
    ensures items == []
  {
    if items != [] {
      assert false;
    }
  }

  lemma Cancels(a: multiset<Payload>, b: multiset<Payload>, p: Payload)
    requires a + multiset{p} == b + multiset{p}
    ensures a == b
  {
    forall q
      ensures a[q] == b[q]
    {
      assert (a + multiset{p})[q] == (b + multiset{p})[q];
    }
  }

  /** The items can be put in the order of any list of the same payloads. */
  lemma {:induction false} Arranged(items: seq<Item>, payloads: seq<Payload>) returns (held: seq<Item>)
    requires PayloadsOf(items) == multiset(payloads)
    ensures Texts(held) == payloads && TicketsOf(held) == TicketsOf(items)
    decreases |payloads|
  {
    if payloads == [] {
      held := [];
      NoPayloads(items);
    } else {
      var p, rest := payloads[0], payloads[1..];
      assert payloads == [p] + rest;
      var i := FindPayload(items, p);
      var fewer := items[..i] + items[i + 1..];
      TicketsCut(items, i);
      PayloadsCut(items, i);
      hide PayloadsOf, TicketsOf;
      assert multiset(payloads) == multiset(rest) + multiset{p};
      Cancels(PayloadsOf(fewer), multiset(rest), p);
      var tail := Arranged(fewer, rest);
      held := [items[i]] + tail;
      TicketsCons(items[i], tail);
      assert held[1..] == tail;
    }
  }

  /** In every state that a run reaches the workers can crash: what they held can be put in the list's order. */
  lemma CrashIsPossible(c: Config, workers: nat, now: int, run: seq<Event>, y: World) returns (held: seq<Item>)
    requires Leads(c, Boot(workers, now), run, y)
    ensures Occurs(y, Crash(held))
  {
    if y.mode.Up? {
      CrashesAreAccounted(c, workers, now, run, y, 0);
      HeldCounts(y.s.workers);
      hide TicketsOf, PayloadsOf, Sum, Leads, Texts;
      held := Arranged(HeldItems(y.s.workers), y.s.processing);
    } else {
      held := y.mode.left;
    }
  }

  lemma {:induction false} LeadsAppend(c: Config, x: World, run: seq<Event>, y: World, e: Event)
    requires Leads(c, x, run, y) && Occurs(y, e)
    ensures Leads(c, x, run + [e], After(c, y, e))
    decreases |run|
  {
    hide Occurs, After;
    if run == [] {
      assert run + [e] == [e] && [e][1..] == [];
      assert Leads(c, After(c, y, e), [], After(c, y, e));
    } else {
      assert (run + [e])[0] == run[0] && (run + [e])[1..] == run[1..] + [e];
      LeadsAppend(c, After(c, x, run[0]), run[1..], y, e);
    }
  }

  lemma PopAndPushBack(c: Config, x: World, run: seq<Event>, y: World) returns (more: seq<Event>, z: World)
    requires Leads(c, x, run, y) && y.mode.Recovering? && y.mode.hand.None? && y.mode.left != []
    requires Texts(y.mode.left) == y.s.processing && y.mode.left[|y.mode.left| - 1].payload != Blank
    ensures var n := |y.mode.left| - 1;
            && Leads(c, x, more, z) && z.mode == Recovering(y.mode.left[..n], None)
            && Texts(z.mode.left) == z.s.processing
            && z.s == y.s.(processing := z.s.processing, queue := [y.mode.left[n]] + y.s.queue)
            && z.lost == y.lost && z.twice == y.twice
  {
    TextsCut(y.mode.left, |y.mode.left| - 1);
    hide Leads, Texts;
    LeadsAppend(c, x, run, y, Pop);
    var m := After(c, y, Pop);
    LeadsAppend(c, x, run + [Pop], m, PushBack);
    more, z := run + [Pop] + [PushBack], After(c, m, PushBack);
  }

  /** A recovery that no crash meets puts what was in processing before the queue, in its order, and loses nothing. */
  lemma {:induction false} RecoveryRestores(c: Config, x: World, run: seq<Event>, y: World)
    returns (more: seq<Event>, z: World)
    requires Leads(c, x, run, y) && y.mode.Recovering? && y.mode.hand.None? && Texts(y.mode.left) == y.s.processing
    requires forall it :: it in y.mode.left ==> it.payload != Blank
    ensures Leads(c, x, more, z) && z.mode.Up? && z.s == y.s.(processing := [], queue := y.mode.left + y.s.queue)
    ensures z.lost == y.lost && z.twice == y.twice
    decreases |y.mode.left|
  {
    hide Leads, Texts;
    if y.mode.left == [] {
      LeadsAppend(c, x, run, y, Start);
      more, z := run + [Start], After(c, y, Start);
      assert y.s.processing == [] by { NoTexts(y.mode.left); }
      assert [] + y.s.queue == y.s.queue;
    } else {
      var n := |y.mode.left| - 1;
      var mid;
      more, mid := PopAndPushBack(c, x, run, y);
      more, z := RecoveryRestores(c, x, more, mid);
      assert y.mode.left[..n] + ([y.mode.left[n]] + y.s.queue) == y.mode.left + y.s.queue;
    }
  }

  ghost predicate NoneBlank(x: World) {
    NoBlanks(x.s) && (x.mode.Recovering? && x.mode.hand.Some? ==> x.mode.hand.value.payload != Blank)
  }

  lemma CrashBringsNoBlank(c: Config, x: World, held: seq<Item>)
    requires NoneBlank(x) && Occurs(x, Crash(held))
    ensures NoneBlank(After(c, x, Crash(held)))
  {
    hide Texts, TicketsOf, Sum;
  }

  lemma PopBringsNoBlank(c: Config, x: World)
    requires NoneBlank(x) && Occurs(x, Pop)
    ensures NoneBlank(After(c, x, Pop))
  {
    hide Texts, TicketsOf, Sum;
    var y := After(c, x, Pop);
    assert forall p :: p in y.s.processing ==> p in x.s.processing;
  }

  lemma PushBackBringsNoBlank(c: Config, x: World)
    requires NoneBlank(x) && Occurs(x, PushBack)
    ensures NoneBlank(After(c, x, PushBack))
  {
    hide Texts, TicketsOf, Sum;
  }

  lemma RecoveryBringsNoBlank(c: Config, x: World, e: Event)
    requires NoneBlank(x) && Occurs(x, e) && !e.Work?
    ensures NoneBlank(After(c, x, e))
  {
    match e
    case Crash(held) => CrashBringsNoBlank(c, x, held);
    case Pop => PopBringsNoBlank(c, x);
    case PushBack => PushBackBringsNoBlank(c, x);
    case Start => hide NoBlanks;
  }

  lemma EventBringsNoBlank(c: Config, x: World, e: Event)
    requires NoneBlank(x) && Occurs(x, e)
    ensures NoneBlank(After(c, x, e))
  {
    if e.Work? {
      NoBlanksStep(c, x.s, e.a);
      WorkIsNext(c, x, e.a);
      hide NoBlanks, Next, Enabled, After, Occurs;
    } else {
      hide NoneBlank, After;
      RecoveryBringsNoBlank(c, x, e);
    }
  }

  lemma {:induction false} RunsBringNoBlank(c: Config, x: World, run: seq<Event>, y: World)
    requires NoneBlank(x) && Leads(c, x, run, y)
    ensures NoneBlank(y)
    decreases |run|
  {
    hide Occurs, NoneBlank, After;
    if run != [] {
      EventBringsNoBlank(c, x, run[0]);
      RunsBringNoBlank(c, After(c, x, run[0]), run[1..], y);
    }
  }

  lemma {:induction false} TextsHave(items: seq<Item>, it: Item)
    requires it in items
    ensures it.payload in Texts(items)
  {
    if items[0] != it {
      TextsHave(items[1..], it);
    }
  }

  /** After a crash in any state a run reaches, recovery left alone ends with the held items before the queue. */
  lemma CrashIsRecovered(c: Config, workers: nat, now: int, run: seq<Event>, y: World, held: seq<Item>)
    returns (more: seq<Event>, z: World)
    requires Leads(c, Boot(workers, now), run, y) && Occurs(y, Crash(held))
    ensures Leads(c, After(c, y, Crash(held)), more, z) && z.mode.Up?
    ensures z.s.queue == held + y.s.queue && z.s.processing == [] && z.lost == After(c, y, Crash(held)).lost
  {
    hide Places, Sum, Texts, Boot, TicketsOf;
    var x := After(c, y, Crash(held));
    LeadsAppend(c, Boot(workers, now), run, y, Crash(held));
    ReachableIsGood(c, workers, now, run + [Crash(held)], x);
    assert Leads(c, x, [], x);
    hide Leads;
    forall it | it in held
      ensures it.payload != Blank
    {
      TextsHave(held, it);
    }
    more, z := RecoveryRestores(c, x, [], x);
  }

  lemma ReachableIsGood(c: Config, workers: nat, now: int, run: seq<Event>, y: World)
    requires Leads(c, Boot(workers, now), run, y)
    ensures Accounted(y) && NoneBlank(y)
  {
    InitConserved(workers, now);
    UpIsBalanced(Boot(workers, now));
    assert NoneBlank(Boot(workers, now));
    hide Leads, Accounted, NoneBlank, Boot;
    RunsAccount(c, Boot(workers, now), run, y);
    RunsBringNoBlank(c, Boot(workers, now), run, y);
  }
}
