/** Reconciles of one sale interleaved: each reads the status and the invoice, and writes later, unconditionally. */
module BillingStatusRuns {
  import opened Wrappers
  import opened BillingState
  import opened BillingStatus

  /** What a reconcile has read, and so what it is about to write. */
  datatype Pending = Pending(read: string, inv: Option<Invoice>)

  /** `seen` are the invoices of the reconciles that have ended, in the order of their writes. */
  datatype Sys = Sys(stored: string, pending: map<int, Pending>, seen: seq<Option<Invoice>>)

  datatype Action = Read(w: int, inv: Option<Invoice>) | Write(w: int)

  /** What the reconcile computed from its reads. */
  function Planned(p: Pending): Billing {
    EffectiveBillingStatus(Some(p.read), p.inv)
  }

  predicate Enabled(s: Sys, a: Action) {
    a.Write? ==> a.w in s.pending
  }

  function Next(s: Sys, a: Action): Sys
    requires Enabled(s, a)
  {
    match a
    case Read(w, inv) => s.(pending := s.pending[w := Pending(s.stored, inv)])
    case Write(w) =>
      var p := s.pending[w];
      Sys(if Label(Planned(p)) != p.read then Label(Planned(p)) else s.stored, s.pending - {w}, s.seen + [p.inv])
  }

  ghost predicate Reaches(s: Sys, run: seq<Action>, t: Sys)
    decreases |run|
  {
    if run == [] then s == t else Enabled(s, run[0]) && Reaches(Next(s, run[0]), run[1..], t)
  }

  function Level(s: Sys): Billing {
    NormalizeBillingStatus(s.stored)
  }

  // ---- the exact condition ----

  /** The reconcile of `w` has read and, when it goes on, writes. */
  predicate MustWrite(s: Sys, w: int) {
    w in s.pending && Label(Planned(s.pending[w])) != s.pending[w].read
  }

  predicate Writes(run: seq<Action>) {
    forall a :: a in run ==> a.Write?
  }

  /** Some step of the run lowers the status. */
  ghost predicate Lowers(s: Sys, run: seq<Action>)
    decreases |run|
  {
    && run != [] && Enabled(s, run[0])
    && (Rank(Level(Next(s, run[0]))) < Rank(Level(s)) || Lowers(Next(s, run[0]), run[1..]))
  }

  /** Some order of the outstanding writes lowers the status. */
  ghost predicate CanLower(s: Sys) {
    exists run :: Writes(run) && Lowers(s, run)
  }

  /** An outstanding write stores less than the status, or less than another outstanding write. */
  predicate Threatens(s: Sys, w: int) {
    && MustWrite(s, w)
    && (Rank(Planned(s.pending[w])) < Rank(Level(s))
        || exists v :: v in s.pending && MustWrite(s, v) && Rank(Planned(s.pending[w])) < Rank(Planned(s.pending[v])))
  }

  predicate Threatened(s: Sys) {
    exists w :: w in s.pending && Threatens(s, w)
  }

  lemma AfterWrite(s: Sys, w: int)
    requires w in s.pending
    ensures var t := Next(s, Write(w));
            && Level(t) == (if MustWrite(s, w) then Planned(s.pending[w]) else Level(s))
            && t.pending == s.pending - {w}
  {
    hide NormalizeBillingStatus, EffectiveBillingStatus, Label;
    LabelIsStable(Planned(s.pending[w]));
  }

  lemma SafeWrite(s: Sys, w: int)
    requires w in s.pending && !Threatened(s)
    ensures var t := Next(s, Write(w)); Rank(Level(t)) >= Rank(Level(s)) && !Threatened(t)
  {
    AfterWrite(s, w);
    hide Level, Planned, Rank, Label;
    var t := Next(s, Write(w));
    assert !Threatens(s, w);
    forall u | u in t.pending
      ensures !Threatens(t, u)
    {
      assert !Threatens(s, u);
    }
  }

  lemma {:induction false} SafeWritesNeverLower(s: Sys, run: seq<Action>)
    requires Writes(run) && !Threatened(s)
    ensures !Lowers(s, run)
    decreases |run|
  {
    hide Next, Threatened, Level, Rank;
    if run != [] && Enabled(s, run[0]) {
      assert run[0].Write?;
      SafeWrite(s, run[0].w);
      SafeWritesNeverLower(Next(s, run[0]), run[1..]);
    }
  }

  lemma ThreatLowers(s: Sys, w: int) returns (run: seq<Action>)
    requires w in s.pending && Threatens(s, w)
    ensures Writes(run) && Lowers(s, run)
  {
    hide Level, Planned, Rank, Label;
    AfterWrite(s, w);
    if Rank(Planned(s.pending[w])) < Rank(Level(s)) {
      run := [Write(w)];
    } else {
      var v :| v in s.pending && MustWrite(s, v) && Rank(Planned(s.pending[w])) < Rank(Planned(s.pending[v]));
      AfterWrite(s, v);
      var m := Next(s, Write(v));
      AfterWrite(m, w);
      run := [Write(v), Write(w)];
      assert run[1..] == [Write(w)];
      assert Lowers(m, [Write(w)]);
    }
  }

  /**
   What can be told from the outstanding reads: some order of their writes lowers the status if and only if one of
   them stores less than the status, or less than another.
   */
  lemma OutstandingWritesLowerIff(s: Sys)
    ensures CanLower(s) <==> Threatened(s)
  {
    hide Lowers, Threatens;
    if w :| w in s.pending && Threatens(s, w) {
      var run := ThreatLowers(s, w);
    } else {
      forall run | Writes(run)
        ensures !Lowers(s, run)
      {
        SafeWritesNeverLower(s, run);
      }
    }
  }

  /** Whenever two reconciles overlap and the slower saw the lower status, the higher one is stored and then lost. */
  lemma OverlapDegrades(s: Sys, slow: int, fast: int, low: Option<Invoice>, high: Option<Invoice>)
    requires slow != fast && Label(Planned(Pending(s.stored, low))) != s.stored
    requires Rank(Planned(Pending(s.stored, low))) < Rank(FromInvoice(high))
    ensures var m := Next(Next(Next(s, Read(slow, low)), Read(fast, high)), Write(fast));
            && Level(m) == FromInvoice(high)
            && Enabled(m, Write(slow)) && Rank(Level(Next(m, Write(slow)))) < Rank(Level(m))
  {
    hide NormalizeBillingStatus, FromInvoice, Label;
    var m := Next(Next(s, Read(slow, low)), Read(fast, high));
    assert Planned(m.pending[fast]) == FromInvoice(high);
    hide EffectiveBillingStatus;
    AfterWrite(m, fast);
    FastStores(m, fast);
    AfterWrite(Next(m, Write(fast)), slow);
  }

  /** A reconcile undisturbed since its read leaves its effective status, written or already there. */
  lemma FastStores(s: Sys, w: int)
    requires w in s.pending && s.pending[w].read == s.stored
    ensures Level(Next(s, Write(w))) == Planned(s.pending[w])
  {
    hide NormalizeBillingStatus, EffectiveBillingStatus, Label;
    LabelIsStable(Planned(s.pending[w]));
  }

  // ---- undisturbed reconciles ----

  /** Nothing was written between the read and the write. */
  predicate Undisturbed(s: Sys, a: Action) {
    a.Write? && a.w in s.pending ==> s.pending[a.w].read == s.stored
  }

  ghost predicate AllUndisturbed(s: Sys, run: seq<Action>)
    decreases |run|
  {
    run == [] || (Enabled(s, run[0]) && Undisturbed(s, run[0]) && AllUndisturbed(Next(s, run[0]), run[1..]))
  }

  predicate AtHighest(initial: string, s: Sys) {
    Level(s) == HighestSeen(NormalizeBillingStatus(initial), s.seen)
  }

  lemma UndisturbedStep(initial: string, s: Sys, a: Action)
    requires AtHighest(initial, s) && Enabled(s, a) && Undisturbed(s, a)
    ensures AtHighest(initial, Next(s, a))
  {
    hide NormalizeBillingStatus, FromInvoice, Label;
    if a.Write? {
      var p := s.pending[a.w];
      LabelIsStable(Planned(p));
      assert (s.seen + [p.inv])[..|s.seen|] == s.seen;
    }
  }

  lemma {:induction false} RunKeepsHighest(initial: string, s: Sys, run: seq<Action>, t: Sys)
    requires AtHighest(initial, s) && Reaches(s, run, t) && AllUndisturbed(s, run)
    ensures AtHighest(initial, t)
    decreases |run|
  {
    hide Next, Enabled, AtHighest, Undisturbed;
    if run != [] {
      UndisturbedStep(initial, s, run[0]);
      RunKeepsHighest(initial, Next(s, run[0]), run[1..], t);
    }
  }

  /** If no reconcile writes over another's write, the status is the highest of all seen, as when they take turns. */
  lemma UndisturbedReachHighest(initial: string, run: seq<Action>, t: Sys)
    requires var s := Sys(initial, map[], []); Reaches(s, run, t) && AllUndisturbed(s, run)
    ensures Level(t) == HighestSeen(NormalizeBillingStatus(initial), t.seen)
  {
    RunKeepsHighest(initial, Sys(initial, map[], []), run, t);
  }
}
