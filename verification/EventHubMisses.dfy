/** Which messages a client misses, and when it misses none. */
module EventHubMisses {
  import opened EventHub
  import opened EventHubRuns

  lemma TargetIff(s: Sys, fan: nat, ch: nat)
    requires Structured(s.h) && fan in s.h.fanouts && ch in s.h.subs
    ensures ch in Targets(s.h.fanouts[fan]) <==> s.h.subs[ch].active && s.h.subs[ch].fan == fan
  {
    assert FanoutOk(s.h, fan) && SubOk(s.h, ch);
  }

  /** A delivery reaches exactly the subscribed clients of its fan-out that have fewer than 16 messages waiting. */
  lemma DeliveryReachesClientsWithRoom(run: seq<Action>, s: Sys, fan: nat, k: nat, ch: nat)
    requires Reaches(EMPTY, run, s) && Enabled(s, Deliver(fan, k)) && ch in s.h.subs
    ensures var u := Next(s, Deliver(fan, k));
            && ch in s.h.chans && ch in u.h.chans
            && Stream(u.h.chans[ch]) == Stream(s.h.chans[ch]) +
                 if s.h.subs[ch].active && s.h.subs[ch].fan == fan && |s.h.chans[ch].buf| < 16
                 then [LogOf(s, s.h.fanouts[fan].tenant)[k]] else []
  {
    RunsKeepInvariants(EMPTY, run, s);
    TargetIff(s, fan, ch);
    DeliveredTo(s, fan, k, ch);
    hide Structured, Streamed, Reaches, Targets, Stream;
  }

  // ---- nothing missed ----

  /** The delivery skips a message of the client's loop, or finds the client without room. */
  predicate Misses(s: Sys, a: Action, ch: nat)
    requires Enabled(s, a)
  {
    && a.Deliver? && ch in s.h.subs && ch in s.h.chans
    && s.h.subs[ch].fan == a.fan
    && (s.cursor[a.fan] < a.k || |s.h.chans[ch].buf| >= 16)
  }

  ghost predicate NeverMisses(s: Sys, run: seq<Action>, ch: nat)
    decreases |run|
  {
    run == [] || (Enabled(s, run[0]) && !Misses(s, run[0], ch) && NeverMisses(Next(s, run[0]), run[1..], ch))
  }

  ghost predicate Ok(s: Sys) {
    Structured(s.h) && Streamed(s)
  }

  /** How many messages the client's loop has passed since its subscription that were not sent to it. */
  function Gap(s: Sys, ch: nat): int
    requires ch in s.h.subs && ch in s.marks && s.h.subs[ch].fan in s.cursor
  {
    s.cursor[s.h.subs[ch].fan] - s.marks[ch].since - |s.marks[ch].at|
  }

  predicate Known(s: Sys, ch: nat) {
    && ch in s.h.subs && ch in s.marks && ch in s.h.chans && s.h.subs[ch].fan in s.cursor
    && s.h.subs[ch].fan in s.h.fanouts
  }

  lemma OkKnows(s: Sys, ch: nat)
    requires Ok(s) && ch in s.h.subs
    ensures Known(s, ch) && StreamOk(s, ch)
  {
    assert StreamOk(s, ch) && SubOk(s.h, ch);
  }

  lemma {:induction false} PositionsFill(at: seq<nat>, lo: nat, hi: nat, i: nat)
    requires forall j :: 0 <= j < |at| ==> lo <= at[j] < hi
    requires forall j, k :: 0 <= j < k < |at| ==> at[j] < at[k]
    requires i < |at|
    ensures lo + i <= at[i] <= hi - (|at| - i)
    decreases |at|
  {
    if |at| > 1 {
      var last := |at| - 1;
      if i < last {
        PositionsFill(at[..last], lo, at[last], i);
        assert at[..last][i] == at[i];
      } else {
        PositionsFill(at[..last], lo, at[last], last - 1);
        assert at[..last][last - 1] == at[last - 1];
      }
    }
  }

  /** No gap means that the stream is the log from the subscription on. */
  lemma NoGapIff(s: Sys, ch: nat)
    requires Known(s, ch) && StreamOk(s, ch)
    ensures Gap(s, ch) >= 0
    ensures Gap(s, ch) == 0 <==>
            Stream(s.h.chans[ch]) ==
            LogOf(s, s.h.subs[ch].tenant)[s.marks[ch].since..s.cursor[s.h.subs[ch].fan]]
  {
    var at, lo, hi := s.marks[ch].at, s.marks[ch].since, s.cursor[s.h.subs[ch].fan];
    var log, stream := LogOf(s, s.h.subs[ch].tenant), Stream(s.h.chans[ch]);
    hide LogOf, Stream;
    forall i | 0 <= i < |at|
      ensures lo + i <= at[i] <= hi - (|at| - i)
    {
      PositionsFill(at, lo, hi, i);
    }
    if at != [] {
      assert lo + 0 <= at[0] <= hi - (|at| - 0);
    }
    if |at| == hi - lo {
      assert forall i :: 0 <= i < |at| ==> at[i] == lo + i;
      assert stream == log[lo..hi];
    }
  }

  lemma GapOfDelivery(s: Sys, fan: nat, k: nat, ch: nat)
    requires Ok(s) && Enabled(s, Deliver(fan, k)) && Known(s, ch)
    ensures var a, u := Deliver(fan, k), Next(s, Deliver(fan, k));
            && Known(u, ch) && u.h.subs[ch] == s.h.subs[ch]
            && (s.h.subs[ch].active ==>
                  if Misses(s, a, ch) then Gap(u, ch) > Gap(s, ch) else Gap(u, ch) == Gap(s, ch))
  {
    TargetIff(s, fan, ch);
    DeliveredTo(s, fan, k, ch);
    hide Structured, Streamed, Targets, Stream, LogOf;
  }

  lemma GapOfQuiet(s: Sys, u: Sys, ch: nat)
    requires Quiet(s, u) && Known(s, ch)
    ensures Known(u, ch) && Gap(u, ch) == Gap(s, ch)
  {
    hide LogOf, Stream;
  }

  lemma QuietLeavesActive(s: Sys, a: Action, ch: nat)
    requires Enabled(s, a) && (a.Unsubscribe? || a.Publish? || a.Read?) && ch in s.h.subs && ch in Next(s, a).h.subs
    ensures Next(s, a).h.subs[ch].active ==> s.h.subs[ch].active
  {}

  /** Only deliveries change a gap, by what they miss; a client that is subscribed afterwards was subscribed before. */
  lemma GapStep(s: Sys, a: Action, ch: nat)
    requires Ok(s) && Enabled(s, a) && ch in s.h.subs
    ensures Known(s, ch) && Known(Next(s, a), ch)
    ensures Next(s, a).h.subs[ch].active ==> s.h.subs[ch].active
    ensures Next(s, a).h.subs[ch].active ==>
              if Misses(s, a, ch) then Gap(Next(s, a), ch) > Gap(s, ch) else Gap(Next(s, a), ch) == Gap(s, ch)
  {
    hide Structured, Streamed, StreamOk, Next, Quiet;
    OkKnows(s, ch);
    match a
    case Deliver(fan, k) => GapOfDelivery(s, fan, k, ch);
    case Subscribe(_, _, _) => SameMarks(s, a, ch);
    case _ =>
      QuietSteps(s, a);
      GapOfQuiet(s, Next(s, a), ch);
      QuietLeavesActive(s, a, ch);
  }

  lemma SameMarks(s: Sys, a: Action, ch: nat)
    requires Ok(s) && Enabled(s, a) && a.Subscribe? && Known(s, ch)
    ensures Known(Next(s, a), ch)
    ensures Next(s, a).marks[ch] == s.marks[ch] && Next(s, a).h.subs[ch] == s.h.subs[ch]
    ensures Next(s, a).cursor[s.h.subs[ch].fan] == s.cursor[s.h.subs[ch].fan]
  {
    hide SubOk, FanoutOk, DistinctIds, StreamOk;
  }

  lemma OkStep(s: Sys, a: Action)
    requires Ok(s) && Enabled(s, a)
    ensures Ok(Next(s, a))
  {
    StructuredStep(s, a);
    StreamedStep(s, a);
  }

  lemma {:induction false} GapAlong(s: Sys, run: seq<Action>, t: Sys, ch: nat)
    requires Ok(s) && Reaches(s, run, t) && ch in s.h.subs
    ensures Ok(t) && Known(s, ch) && Known(t, ch)
    ensures t.h.subs[ch].active ==> s.h.subs[ch].active && Gap(t, ch) >= Gap(s, ch)
    ensures t.h.subs[ch].active ==> (Gap(t, ch) == Gap(s, ch) <==> NeverMisses(s, run, ch))
    decreases |run|
  {
    hide Next, Enabled, Ok, Misses, Gap;
    OkKnows(s, ch);
    if run != [] {
      GapStep(s, run[0], ch);
      OkStep(s, run[0]);
      GapAlong(Next(s, run[0]), run[1..], t, ch);
    }
  }

  lemma NewClientHasNoGap(s: Sys, t: nat, ch: nat, f: nat)
    requires Ok(s) && Enabled(s, Subscribe(t, ch, f))
    ensures var m := Next(s, Subscribe(t, ch, f));
            Known(m, ch) && Gap(m, ch) == 0 && m.h.subs[ch].tenant == t && m.h.subs[ch].active
  {
    hide SubOk, FanoutOk, DistinctIds, StreamOk;
  }

  /** What a client keeps for as long as it exists. */
  lemma {:induction false} SameSubscription(s: Sys, run: seq<Action>, t: Sys, ch: nat)
    requires Ok(s) && Reaches(s, run, t) && Known(s, ch)
    ensures Known(t, ch) && t.h.subs[ch].tenant == s.h.subs[ch].tenant
    decreases |run|
  {
    hide Next, Enabled, Ok;
    if run != [] {
      OkStep(s, run[0]);
      GapStep(s, run[0], ch);
      SameTenantStep(s, run[0], ch);
      SameSubscription(Next(s, run[0]), run[1..], t, ch);
    }
  }

  lemma SameTenantStep(s: Sys, a: Action, ch: nat)
    requires Ok(s) && Enabled(s, a) && Known(s, ch) && ch in Next(s, a).h.subs
    ensures Next(s, a).h.subs[ch].tenant == s.h.subs[ch].tenant
  {
    hide SubOk, FanoutOk, DistinctIds, StreamOk;
  }

  /**
   The exact condition for a complete stream: a client still subscribed has got everything that its loop has read since
   the subscription, each message once and in order, if and only if no delivery skipped a message or found it with 16
   messages waiting.
   */
  lemma StreamIsCompleteIff(run: seq<Action>, s: Sys, t: nat, ch: nat, f: nat, more: seq<Action>, u: Sys)
    requires Reaches(EMPTY, run, s) && Enabled(s, Subscribe(t, ch, f))
    requires Reaches(Next(s, Subscribe(t, ch, f)), more, u) && ch in u.h.subs && u.h.subs[ch].active
    ensures Known(u, ch) && u.marks[ch].since <= u.cursor[u.h.subs[ch].fan] <= |LogOf(u, t)|
    ensures Stream(u.h.chans[ch]) == LogOf(u, t)[u.marks[ch].since..u.cursor[u.h.subs[ch].fan]] <==>
            NeverMisses(Next(s, Subscribe(t, ch, f)), more, ch)
  {
    RunsKeepInvariants(EMPTY, run, s);
    var m := Next(s, Subscribe(t, ch, f));
    hide Structured, Streamed, Reaches, Next, Enabled, NeverMisses, Stream, Gap;
    assert Ok(s);
    NewClientHasNoGap(s, t, ch, f);
    OkStep(s, Subscribe(t, ch, f));
    GapAlong(m, more, u, ch);
    SameSubscription(m, more, u, ch);
    OkKnows(u, ch);
    NoGapIff(u, ch);
  }
}
