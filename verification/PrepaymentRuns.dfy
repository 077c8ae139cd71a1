/**
 Reversals interleaved with everything else. A reversal reads the sale's applications before it locks a voucher, so
 others can commit in between. What follows its first lock takes effect at its commit: each voucher it touches is locked
 until then. All other transactions lock a voucher before they read it and so are one step, at their commit.
 */
module PrepaymentRuns {
  import opened PrepaymentLedger

  /** A reversal that has read the applications, as they were. */
  datatype Pending = Pending(consumer: nat, read: seq<Application>)

  datatype Sys = Sys(l: Ledger, pending: map<int, Pending>)

  datatype Step =
    | Do(a: Action)
    | Read(t: int, consumer: nat)
    | Commit(t: int)

  /** The applications read as due are marked, whatever they are by now. */
  function MarkedAs(apps: seq<Application>, p: Pending): (r: seq<Application>)
    requires |p.read| <= |apps|
    ensures |r| == |apps|
    ensures forall i :: 0 <= i < |r| ==>
              r[i] == apps[i].(reversed := apps[i].reversed || (i < |p.read| && Due(p.read[i], p.consumer)))
  {
    seq(|apps|, i requires 0 <= i < |apps| =>
      if i < |p.read| && Due(p.read[i], p.consumer) then apps[i].(reversed := true) else apps[i])
  }

  function Committed(l: Ledger, p: Pending): Ledger
    requires |p.read| <= |l.apps|
  {
    Ledger(AllRefunded(l.vouchers, p.read, p.consumer), MarkedAs(l.apps, p))
  }

  predicate Enabled(s: Sys, a: Step) {
    match a
    case Do(d) => Allowed(s.l, d)
    case Read(_, _) => true
    case Commit(t) => t in s.pending && |s.pending[t].read| <= |s.l.apps|
  }

  function After(s: Sys, a: Step): Sys
    requires Enabled(s, a)
  {
    match a
    case Do(d) => s.(l := Next(s.l, d))
    case Read(t, consumer) => s.(pending := s.pending[t := Pending(consumer, s.l.apps)])
    case Commit(t) => Sys(Committed(s.l, s.pending[t]), s.pending - {t})
  }

  ghost predicate Leads(s: Sys, run: seq<Step>, t: Sys)
    decreases |run|
  {
    if run == [] then s == t else Enabled(s, run[0]) && Leads(After(s, run[0]), run[1..], t)
  }

  /** The applications are those read, some of them reversed by now, and more. */
  ghost predicate Since(read: seq<Application>, apps: seq<Application>) {
    && |read| <= |apps|
    && forall i :: 0 <= i < |read| ==>
         apps[i].(reversed := read[i].reversed) == read[i] && (read[i].reversed ==> apps[i].reversed)
  }

  // ---- what a commit refunds and what it marks ----

  /** Of what was read as due from a voucher, the part that nobody has reversed since. */
  function Fresh(p: Pending, apps: seq<Application>, source: nat): int
    requires |p.read| <= |apps|
    decreases |p.read|
  {
    if p.read == [] then 0
    else
      var n := |p.read| - 1;
      Fresh(p.(read := p.read[..n]), apps, source) +
      if Due(p.read[n], p.consumer) && p.read[n].source == source && !apps[n].reversed then p.read[n].total else 0
  }

  lemma {:induction false} FreshOfPrefix(p: Pending, apps: seq<Application>, m: nat, source: nat)
    requires |p.read| <= m <= |apps|
    ensures Fresh(p, apps[..m], source) == Fresh(p, apps, source)
    decreases |p.read|
  {
    if p.read != [] {
      FreshOfPrefix(p.(read := p.read[..|p.read| - 1]), apps, m, source);
    }
  }

  lemma {:induction false} FreshWithinRead(p: Pending, apps: seq<Application>, source: nat)
    requires |p.read| <= |apps| && NonNegative(p.read)
    ensures 0 <= Fresh(p, apps, source) <= OutstandingOf(p.read, p.consumer, source)
    decreases |p.read|
  {
    if p.read != [] {
      FreshWithinRead(p.(read := p.read[..|p.read| - 1]), apps, source);
    }
  }

  lemma LastOutstanding(apps: seq<Application>, source: nat)
    requires apps != []
    ensures var n := |apps| - 1;
            Outstanding(apps, source) ==
            Outstanding(apps[..n], source) + if apps[n].source == source && !apps[n].reversed then apps[n].total else 0
  {}

  /** With as many applications as were read, the last one of each. */
  lemma LastFresh(p: Pending, apps: seq<Application>, source: nat)
    requires |p.read| == |apps| > 0
    ensures var n := |apps| - 1;
            Fresh(p, apps, source) ==
            Fresh(p.(read := p.read[..n]), apps[..n], source) +
            if Due(p.read[n], p.consumer) && p.read[n].source == source && !apps[n].reversed then p.read[n].total else 0
  {
    FreshOfPrefix(p.(read := p.read[..|apps| - 1]), apps, |apps| - 1, source);
  }

  lemma MarkedAsPrefix(p: Pending, apps: seq<Application>)
    requires apps != [] && |p.read| <= |apps|
    ensures var n := |apps| - 1; var q := if |p.read| <= n then p else p.(read := p.read[..n]);
            MarkedAs(apps, p)[..n] == MarkedAs(apps[..n], q)
  {}

  lemma SincePrefix(read: seq<Application>, apps: seq<Application>)
    requires Since(read, apps) && apps != []
    ensures var n := |apps| - 1; Since(if |read| <= n then read else read[..n], apps[..n])
  {}

  /** Marking lowers what is outstanding by the fresh part alone. */
  lemma {:induction false} MarkedAsOutstanding(p: Pending, apps: seq<Application>, source: nat)
    requires Since(p.read, apps)
    ensures Outstanding(MarkedAs(apps, p), source) == Outstanding(apps, source) - Fresh(p, apps, source)
    decreases |apps|
  {
    if apps != [] {
      var n := |apps| - 1;
      SincePrefix(p.read, apps);
      MarkedAsPrefix(p, apps);
      assert |p.read| == n + 1 ==> apps[n].(reversed := p.read[n].reversed) == p.read[n];
      hide Outstanding, Fresh, Since;
      LastOutstanding(apps, source);
      LastOutstanding(MarkedAs(apps, p), source);
      if |p.read| <= n {
        MarkedAsOutstanding(p, apps[..n], source);
        FreshOfPrefix(p, apps, n, source);
      } else {
        MarkedAsOutstanding(p.(read := p.read[..n]), apps[..n], source);
        LastFresh(p, apps, source);
      }
    }
  }

  lemma {:induction false} OutstandingNonNegative(apps: seq<Application>, source: nat)
    requires NonNegative(apps)
    ensures Outstanding(apps, source) >= 0
  {
    if apps != [] {
      OutstandingNonNegative(apps[..|apps| - 1], source);
    }
  }

  function Min(a: int, b: int): int {
    if a <= b then a else b
  }

  /** Refunding one application after the other, each clamped, is refunding their sum, clamped. */
  lemma {:induction false} RefundsClamp(vouchers: map<nat, Voucher>, apps: seq<Application>, consumer: nat, v: nat)
    requires v in vouchers && vouchers[v].balance <= vouchers[v].original && NonNegative(apps)
    ensures var r := AllRefunded(vouchers, apps, consumer);
            && r.Keys == vouchers.Keys && OutstandingOf(apps, consumer, v) >= 0
            && r[v] == vouchers[v].(balance :=
                 Min(vouchers[v].original, vouchers[v].balance + OutstandingOf(apps, consumer, v)))
  {
    if apps != [] {
      RefundsClamp(vouchers, apps[..|apps| - 1], consumer, v);
    }
  }

  // ---- the exact condition ----

  /** Some of what is refunded was reversed by another since, and something else still consumes that voucher. */
  predicate Harms(l: Ledger, p: Pending, v: nat)
    requires |p.read| <= |l.apps|
  {
    && v in l.vouchers
    && Fresh(p, l.apps, v) < OutstandingOf(p.read, p.consumer, v)
    && Fresh(p, l.apps, v) < Outstanding(l.apps, v)
  }

  predicate Conserved(l: Ledger, v: nat) {
    v in l.vouchers ==>
      l.vouchers[v].balance >= 0 && l.vouchers[v].balance + Outstanding(l.apps, v) == l.vouchers[v].original
  }

  lemma CommitConservesIff(l: Ledger, p: Pending, v: nat)
    requires Inv(l) && Since(p.read, l.apps) && v in l.vouchers
    ensures v in Committed(l, p).vouchers
    ensures Conserved(Committed(l, p), v) <==> !Harms(l, p, v)
  {
    assert NonNegative(p.read) by {
      assert forall i :: 0 <= i < |p.read| ==> p.read[i].total == l.apps[i].total;
    }
    BalanceWithinOriginal(l, v);
    RefundsClamp(l.vouchers, p.read, p.consumer, v);
    MarkedAsOutstanding(p, l.apps, v);
    FreshWithinRead(p, l.apps, v);
    assert NonNegative(MarkedAs(l.apps, p));
    OutstandingNonNegative(MarkedAs(l.apps, p), v);
    hide Fresh, Outstanding, OutstandingOf, AllRefunded, Since;
  }

  ghost predicate Harmful(l: Ledger, p: Pending)
    requires |p.read| <= |l.apps|
  {
    exists v :: v in l.vouchers && Harms(l, p, v)
  }

  lemma CommitKeepsLedgerIff(l: Ledger, p: Pending)
    requires Inv(l) && Since(p.read, l.apps)
    ensures Inv(Committed(l, p)) <==> !Harmful(l, p)
  {
    var m := Committed(l, p);
    assert NonNegative(m.apps);
    RefundedKeys(l.vouchers, p.read, p.consumer);
    forall v | v in l.vouchers
      ensures Conserved(m, v) <==> !Harms(l, p, v)
    {
      CommitConservesIff(l, p, v);
    }
    hide Harms, Committed, Since;
    assert Inv(m) <==> forall v :: v in l.vouchers ==> Conserved(m, v);
    hide Conserved;
  }

  lemma {:induction false} RefundedKeys(vouchers: map<nat, Voucher>, apps: seq<Application>, consumer: nat)
    ensures AllRefunded(vouchers, apps, consumer).Keys == vouchers.Keys
  {
    if apps != [] {
      RefundedKeys(vouchers, apps[..|apps| - 1], consumer);
    }
  }

  // ---- over runs ----

  ghost predicate AllSince(s: Sys) {
    forall t :: t in s.pending ==> Since(s.pending[t].read, s.l.apps)
  }

  lemma {:induction false} AppliedGrows(l: Ledger, consumer: nat, ds: seq<Deduction>)
    requires AllApplied(l, consumer, ds).Some?
    ensures l.apps <= AllApplied(l, consumer, ds).value.apps
  {
    if ds != [] {
      AppliedGrows(l, consumer, ds[..|ds| - 1]);
    }
  }

  lemma LedgerGrows(s: Sys, a: Step)
    requires AllSince(s) && Enabled(s, a)
    ensures Since(s.l.apps, After(s, a).l.apps)
  {
    if a.Do? && a.a.Apply? && AllApplied(s.l, a.a.consumer, a.a.ds).Some? {
      AppliedGrows(s.l, a.a.consumer, a.a.ds);
    }
    hide AllRefunded, AllApplied;
  }

  lemma SinceIsTransitive(a: seq<Application>, b: seq<Application>, c: seq<Application>)
    requires Since(a, b) && Since(b, c)
    ensures Since(a, c)
  {
    forall i | 0 <= i < |a|
      ensures c[i].(reversed := a[i].reversed) == a[i] && (a[i].reversed ==> c[i].reversed)
    {
      assert b[i].(reversed := a[i].reversed) == a[i] && c[i].(reversed := b[i].reversed) == b[i];
    }
  }

  lemma StepKeepsSince(s: Sys, a: Step)
    requires AllSince(s) && Enabled(s, a)
    ensures AllSince(After(s, a))
  {
    LedgerGrows(s, a);
    var t := After(s, a);
    forall k | k in t.pending
      ensures Since(t.pending[k].read, t.l.apps)
    {
      if a.Read? && k == a.t {
        assert t.pending[k].read == s.l.apps && t.l == s.l;
      } else {
        SinceIsTransitive(s.pending[k].read, s.l.apps, t.l.apps);
      }
    }
  }

  /** The step commits a reversal that was overtaken and is not hidden by the clamp. */
  ghost predicate Breaks(s: Sys, a: Step)
    requires Enabled(s, a)
  {
    a.Commit? && Harmful(s.l, s.pending[a.t])
  }

  lemma StepKeepsLedgerIff(s: Sys, a: Step)
    requires Inv(s.l) && AllSince(s) && Enabled(s, a)
    ensures Inv(After(s, a).l) <==> !Breaks(s, a)
  {
    match a
    case Do(d) => StepKeepsInv(s.l, d);
    case Read(_, _) =>
    case Commit(t) =>
      hide Inv, Committed, Harmful, Since;
      CommitKeepsLedgerIff(s.l, s.pending[t]);
  }

  ghost predicate StaysConserved(s: Sys, run: seq<Step>)
    decreases |run|
  {
    Inv(s.l) && (run == [] || (Enabled(s, run[0]) && StaysConserved(After(s, run[0]), run[1..])))
  }

  ghost predicate NoneBreaks(s: Sys, run: seq<Step>)
    decreases |run|
  {
    run == [] || (Enabled(s, run[0]) && !Breaks(s, run[0]) && NoneBreaks(After(s, run[0]), run[1..]))
  }

  lemma {:induction false} RunConservesIff(s: Sys, run: seq<Step>, t: Sys)
    requires Inv(s.l) && AllSince(s) && Leads(s, run, t)
    ensures StaysConserved(s, run) <==> NoneBreaks(s, run)
    decreases |run|
  {
    hide Inv, AllSince, After, Enabled, Breaks;
    if run != [] {
      StepKeepsLedgerIff(s, run[0]);
      StepKeepsSince(s, run[0]);
      if !Breaks(s, run[0]) {
        RunConservesIff(After(s, run[0]), run[1..], t);
      }
    }
  }

  const NOTHING: Sys := Sys(Ledger(map[], []), map[])

  /**
   The exact condition: in every state of a run, balance plus un-reversed applications is the original amount and no
   balance is negative, if and only if no reversal commits after another reversed what it had read as due from a voucher
   that something else still consumes.
   */
  lemma LedgerSurvivesIff(run: seq<Step>, t: Sys)
    requires Leads(NOTHING, run, t)
    ensures StaysConserved(NOTHING, run) <==> NoneBreaks(NOTHING, run)
  {
    RunConservesIff(NOTHING, run, t);
  }

  // ---- two reversals of one sale ----

  lemma {:induction false} NoneFresh(p: Pending, apps: seq<Application>, source: nat)
    requires |p.read| <= |apps| && forall i :: 0 <= i < |p.read| && Due(p.read[i], p.consumer) ==> apps[i].reversed
    ensures Fresh(p, apps, source) == 0
    decreases |p.read|
  {
    if p.read != [] {
      NoneFresh(p.(read := p.read[..|p.read| - 1]), apps, source);
    }
  }

  /** A reversal that nobody overtakes is the reversal on its own. */
  lemma UndisturbedIsReversed(l: Ledger, consumer: nat)
    ensures Committed(l, Pending(consumer, l.apps)) == Reversed(l, consumer)
  {
    assert MarkedAs(l.apps, Pending(consumer, l.apps)) == Marked(l.apps, consumer);
  }

  /**
   Whenever a sale and another consume one voucher: two reversals of the sale that both read before one commits refund
   it twice, and the ledger is broken.
   */
  lemma DoubleReversalBreaks(s: Sys, a: int, b: int, consumer: nat, v: nat)
    requires Inv(s.l) && a != b && v in s.l.vouchers
    requires 0 < OutstandingOf(s.l.apps, consumer, v) < Outstanding(s.l.apps, v)
    ensures var m := After(After(After(s, Read(a, consumer)), Read(b, consumer)), Commit(a));
            && Inv(m.l) && Enabled(m, Commit(b)) && !Inv(After(m, Commit(b)).l)
  {
    var p := Pending(consumer, s.l.apps);
    var m := After(After(After(s, Read(a, consumer)), Read(b, consumer)), Commit(a));
    UndisturbedIsReversed(s.l, consumer);
    ReversedKeepsInv(s.l, consumer);
    assert m.l == Reversed(s.l, consumer) && m.pending[b] == p;
    MarkedOutstanding(s.l.apps, consumer, v);
    NoneFresh(p, m.l.apps, v);
    assert Since(p.read, m.l.apps);
    hide Inv, Since, Outstanding, OutstandingOf, Fresh, Reversed, Committed;
    assert Harms(m.l, p, v);
    CommitKeepsLedgerIff(m.l, p);
  }
}
