/**
 Prepayment vouchers and the applications that consume them, in cents: applying
 deductions inside a transaction, and giving them back when the consuming sale is annulled.
 */
module PrepaymentLedger {
  import opened Wrappers
  import opened Text

  datatype Status = PendingAcceptance | Open

  datatype Voucher = Voucher(original: int, balance: int, status: Status)

  datatype Application = Application(consumer: nat, source: nat, total: int, reversed: bool)

  datatype Deduction = Deduction(source: nat, total: int)

  datatype Ledger = Ledger(vouchers: map<nat, Voucher>, apps: seq<Application>)

  // ---- the operations as functions ----

  /** One deduction; None is the error that rolls the transaction back. */
  function Applied(l: Ledger, consumer: nat, d: Deduction): Option<Ledger> {
    if d.source !in l.vouchers then None
    else
      var v := l.vouchers[d.source];
      if v.balance < d.total then None
      else
        Some(Ledger(l.vouchers[d.source := v.(balance := Max(0, v.balance - d.total))],
                    l.apps + [Application(consumer, d.source, d.total, false)]))
  }

  function AllApplied(l: Ledger, consumer: nat, ds: seq<Deduction>): Option<Ledger> {
    if ds == [] then Some(l)
    else
      var before := AllApplied(l, consumer, ds[..|ds| - 1]);
      if before.None? then None else Applied(before.value, consumer, ds[|ds| - 1])
  }

  predicate Due(a: Application, consumer: nat) {
    a.consumer == consumer && !a.reversed
  }

  function Refunded(vouchers: map<nat, Voucher>, a: Application): map<nat, Voucher> {
    if a.source !in vouchers then vouchers
    else
      var v := vouchers[a.source];
      var sum := v.balance + a.total;
      vouchers[a.source := v.(balance := if sum > v.original then v.original else sum)]
  }

  function AllRefunded(vouchers: map<nat, Voucher>, apps: seq<Application>, consumer: nat): map<nat, Voucher> {
    if apps == [] then vouchers
    else
      var before := AllRefunded(vouchers, apps[..|apps| - 1], consumer);
      var a := apps[|apps| - 1];
      if Due(a, consumer) then Refunded(before, a) else before
  }

  function Marked(apps: seq<Application>, consumer: nat): (r: seq<Application>)
    ensures |r| == |apps|
    ensures forall i :: 0 <= i < |r| ==> r[i] == if Due(apps[i], consumer) then apps[i].(reversed := true) else apps[i]
  {
    seq(|apps|, i requires 0 <= i < |apps| =>
      if Due(apps[i], consumer) then apps[i].(reversed := true) else apps[i])
  }

  function Reversed(l: Ledger, consumer: nat): Ledger {
    Ledger(AllRefunded(l.vouchers, l.apps, consumer), Marked(l.apps, consumer))
  }

  /** Save on the sale's primary key: creates the voucher or overwrites it. */
  function Emitted(l: Ledger, sale: nat, total: int): Ledger {
    l.(vouchers := l.vouchers[sale := Voucher(total, total, PendingAcceptance)])
  }

  function Accepted(l: Ledger, sale: nat): Ledger {
    if sale in l.vouchers then l.(vouchers := l.vouchers[sale := l.vouchers[sale].(status := Open)]) else l
  }

  // ---- the service ----

  class Service {
    var vouchers: map<nat, Voucher>
    var apps: seq<Application>

    constructor ()
      ensures State() == Ledger(map[], [])
    {
      vouchers, apps := map[], [];
    }

    function State(): Ledger
      reads this
    {
      Ledger(vouchers, apps)
    }

    /** `groupOk` is the verdict of the affectation-group check, which is not part of this model. */
    method Persist(sale: nat, docCode: string, groupOk: bool, total: int) returns (ok: bool)
      modifies this
      ensures ok <==> groupOk && (TrimSpace(docCode) == "01" || TrimSpace(docCode) == "03")
      ensures State() == if ok then Emitted(old(State()), sale, total) else old(State())
      ensures ok ==> vouchers == old(vouchers)[sale := Voucher(total, total, PendingAcceptance)]
    {
      if !groupOk {
        return false;
      }
      var code := TrimSpace(docCode);
      if code != "01" && code != "03" {
        return false;
      }
      ok := true;
      vouchers := vouchers[sale := Voucher(total, total, PendingAcceptance)];
    }

    method OnFiscalAccept(sale: nat)
      modifies this
      ensures State() == Accepted(old(State()), sale)
    {
      if sale in vouchers && vouchers[sale].status != Open {
        vouchers := vouchers[sale := vouchers[sale].(status := Open)];
      }
      assert vouchers == Accepted(old(State()), sale).vouchers;
    }

    /** The loop inside its transaction; an error undoes what the loop has written. */
    method PersistApplicationsTx(consumer: nat, resolved: seq<Deduction>) returns (ok: bool)
      modifies this
      ensures ok <==> AllApplied(old(State()), consumer, resolved).Some?
      ensures State() == if ok then AllApplied(old(State()), consumer, resolved).value else old(State())
    {
      var savedVouchers, savedApps := vouchers, apps;
      for i := 0 to |resolved|
        invariant AllApplied(old(State()), consumer, resolved[..i]) == Some(State())
      {
        var d := resolved[i];
        assert resolved[..i + 1][..i] == resolved[..i];
        if d.source !in vouchers || vouchers[d.source].balance < d.total {
          assert AllApplied(old(State()), consumer, resolved[..i + 1]).None?;
          AllAppliedPrefix(old(State()), consumer, resolved, i + 1);
          vouchers, apps := savedVouchers, savedApps;
          return false;
        }
        var v := vouchers[d.source];
        apps := apps + [Application(consumer, d.source, d.total, false)];
        var newBalance := v.balance - d.total;
        if newBalance < 0 {
          newBalance := 0;
        }
        vouchers := vouchers[d.source := v.(balance := newBalance)];
      }
      assert resolved[..|resolved|] == resolved;
      return true;
    }

    method ReverseApplicationsForConsumerSaleTx(consumer: nat)
      modifies this
      ensures State() == Reversed(old(State()), consumer)
    {
      for i := 0 to |apps|
        invariant apps == old(apps)
        invariant vouchers == AllRefunded(old(vouchers), apps[..i], consumer)
      {
        var a := apps[i];
        assert apps[..i + 1][..i] == apps[..i];
        if a.consumer == consumer && !a.reversed && a.source in vouchers {
          var v := vouchers[a.source];
          var newBalance := v.balance + a.total;
          if newBalance > v.original {
            newBalance := v.original;
          }
          vouchers := vouchers[a.source := v.(balance := newBalance)];
        }
      }
      assert apps[..|apps|] == apps;
      for i := 0 to |apps|
        invariant |apps| == |old(apps)| && vouchers == AllRefunded(old(vouchers), old(apps), consumer)
        invariant forall k :: 0 <= k < |apps| ==> apps[k] == if k < i then Marked(old(apps), consumer)[k] else old(apps)[k]
      {
        if apps[i].consumer == consumer && !apps[i].reversed {
          apps := apps[i := apps[i].(reversed := true)];
        }
      }
      assert apps == Marked(old(apps), consumer);
    }
  }

  lemma {:induction false} AllAppliedPrefix(l: Ledger, consumer: nat, ds: seq<Deduction>, n: nat)
    requires n <= |ds| && AllApplied(l, consumer, ds[..n]).None?
    ensures AllApplied(l, consumer, ds).None?
    decreases |ds|
  {
    if n == |ds| {
      assert ds[..n] == ds;
    } else {
      assert ds[..|ds| - 1][..n] == ds[..n];
      AllAppliedPrefix(l, consumer, ds[..|ds| - 1], n);
    }
  }

  // ---- sums ----

  /** What the un-reversed applications of one consumer, or of all, take from a voucher. */
  function Outstanding(apps: seq<Application>, source: nat): int {
    if apps == [] then 0
    else
      var a := apps[|apps| - 1];
      Outstanding(apps[..|apps| - 1], source) + if a.source == source && !a.reversed then a.total else 0
  }

  function OutstandingOf(apps: seq<Application>, consumer: nat, source: nat): int {
    if apps == [] then 0
    else
      var a := apps[|apps| - 1];
      OutstandingOf(apps[..|apps| - 1], consumer, source) + if Due(a, consumer) && a.source == source then a.total else 0
  }

  function Requested(ds: seq<Deduction>, source: nat): int {
    if ds == [] then 0
    else
      var d := ds[|ds| - 1];
      Requested(ds[..|ds| - 1], source) + if d.source == source then d.total else 0
  }

  predicate NonNegative(apps: seq<Application>) {
    forall i :: 0 <= i < |apps| ==> apps[i].total >= 0
  }

  predicate NonNegativeTotals(ds: seq<Deduction>) {
    forall i :: 0 <= i < |ds| ==> ds[i].total >= 0
  }

  lemma OutstandingAppend(apps: seq<Application>, a: Application, source: nat)
    ensures Outstanding(apps + [a], source) ==
            Outstanding(apps, source) + if a.source == source && !a.reversed then a.total else 0
  {
    assert (apps + [a])[..|apps|] == apps;
  }

  lemma OutstandingOfAppend(apps: seq<Application>, a: Application, consumer: nat, source: nat)
    ensures OutstandingOf(apps + [a], consumer, source) ==
            OutstandingOf(apps, consumer, source) + if Due(a, consumer) && a.source == source then a.total else 0
  {
    assert (apps + [a])[..|apps|] == apps;
  }

  lemma {:induction false} PartOfOutstanding(apps: seq<Application>, n: nat, consumer: nat, source: nat)
    requires n <= |apps| && NonNegative(apps)
    ensures 0 <= OutstandingOf(apps[..n], consumer, source) <= Outstanding(apps, source)
    decreases |apps|, n
  {
    if apps == [] {
    } else if n < |apps| {
      assert apps[..|apps| - 1][..n] == apps[..n];
      PartOfOutstanding(apps[..|apps| - 1], n, consumer, source);
    } else {
      assert apps[..n] == apps && apps[..n - 1][..n - 1] == apps[..n - 1];
      PartOfOutstanding(apps[..n - 1], n - 1, consumer, source);
    }
  }

  lemma {:induction false} MarkedOutstanding(apps: seq<Application>, consumer: nat, source: nat)
    ensures Outstanding(Marked(apps, consumer), source) == Outstanding(apps, source) - OutstandingOf(apps, consumer, source)
  {
    if apps != [] {
      var n := |apps| - 1;
      MarkedOutstanding(apps[..n], consumer, source);
      assert Marked(apps, consumer)[..n] == Marked(apps[..n], consumer);
    }
  }

  // ---- conservation ----

  /** Balance plus un-reversed applications is the original amount, and nothing is negative. */
  ghost predicate Inv(l: Ledger) {
    && NonNegative(l.apps)
    && (forall v :: v in l.vouchers ==>
          && l.vouchers[v].balance >= 0
          && l.vouchers[v].balance + Outstanding(l.apps, v) == l.vouchers[v].original)
  }

  lemma BalanceWithinOriginal(l: Ledger, v: nat)
    requires Inv(l) && v in l.vouchers
    ensures 0 <= l.vouchers[v].balance <= l.vouchers[v].original
  {
    PartOfOutstanding(l.apps, 0, 0, v);
  }

  lemma AppliedKeepsInv(l: Ledger, consumer: nat, d: Deduction)
    requires Inv(l) && d.total >= 0 && Applied(l, consumer, d).Some?
    ensures Inv(Applied(l, consumer, d).value)
  {
    hide Outstanding;
    var a := Application(consumer, d.source, d.total, false);
    forall v
      ensures Outstanding(l.apps + [a], v) == Outstanding(l.apps, v) + if v == d.source then d.total else 0
    {
      OutstandingAppend(l.apps, a, v);
    }
    assert NonNegative(l.apps + [a]);
  }

  /** Every source exists, and what is requested from it in all fits its balance. */
  ghost predicate Covered(l: Ledger, ds: seq<Deduction>) {
    && (forall d :: d in ds ==> d.source in l.vouchers)
    && (forall v :: v in l.vouchers ==> Requested(ds, v) <= l.vouchers[v].balance)
  }

  lemma CoveredStep(l: Ledger, ds: seq<Deduction>, d: Deduction)
    requires d.total >= 0
    ensures Covered(l, ds + [d]) <==>
            Covered(l, ds) && d.source in l.vouchers
            && Requested(ds, d.source) + d.total <= l.vouchers[d.source].balance
    ensures forall v :: Requested(ds + [d], v) == Requested(ds, v) + if v == d.source then d.total else 0
  {
    assert (ds + [d])[..|ds|] == ds;
    assert forall e :: e in ds + [d] <==> e in ds || e == d;
    assert forall v :: Requested(ds + [d], v) == Requested(ds, v) + if v == d.source then d.total else 0;
  }

  lemma NoneCovered(l: Ledger)
    ensures forall v :: v in l.vouchers && l.vouchers[v].balance >= 0 ==> Requested([], v) <= l.vouchers[v].balance
  {}

  /** The vouchers after the requests are taken from their balances. */
  ghost predicate Charged(l: Ledger, ds: seq<Deduction>, m: Ledger) {
    && m.vouchers.Keys == l.vouchers.Keys
    && (forall v :: v in l.vouchers ==>
          m.vouchers[v] == l.vouchers[v].(balance := l.vouchers[v].balance - Requested(ds, v)))
  }

  lemma ChargedStep(l: Ledger, ds: seq<Deduction>, m: Ledger, consumer: nat, d: Deduction)
    requires Charged(l, ds, m) && d.total >= 0
    ensures Applied(m, consumer, d).Some? <==>
            d.source in l.vouchers && Requested(ds, d.source) + d.total <= l.vouchers[d.source].balance
    ensures Applied(m, consumer, d).Some? ==> Charged(l, ds + [d], Applied(m, consumer, d).value)
  {
    CoveredStep(l, ds, d);
    hide Requested, Covered;
  }

  /** A transaction commits exactly if its requests are covered; repeated sources add up. */
  lemma {:induction false} AppliedExactlyIfCovered(l: Ledger, consumer: nat, ds: seq<Deduction>)
    requires Inv(l) && NonNegativeTotals(ds)
    ensures AllApplied(l, consumer, ds).Some? <==> Covered(l, ds)
    ensures AllApplied(l, consumer, ds).Some? ==>
              var m := AllApplied(l, consumer, ds).value;
              Inv(m) && Charged(l, ds, m) && m.apps == l.apps + NewApplications(consumer, ds)
  {
    if ds == [] {
      NoneCovered(l);
    } else {
      var n := |ds| - 1;
      assert ds == ds[..n] + [ds[n]];
      AppliedExactlyIfCovered(l, consumer, ds[..n]);
      CoveredStep(l, ds[..n], ds[n]);
      var before := AllApplied(l, consumer, ds[..n]);
      hide Inv, Covered, Charged, Applied, Requested;
      if before.Some? {
        ChargedStep(l, ds[..n], before.value, consumer, ds[n]);
        if Applied(before.value, consumer, ds[n]).Some? {
          AppliedKeepsInv(before.value, consumer, ds[n]);
          AppliedApps(before.value, consumer, ds[n]);
        }
      }
    }
  }

  lemma AppliedApps(l: Ledger, consumer: nat, d: Deduction)
    requires Applied(l, consumer, d).Some?
    ensures Applied(l, consumer, d).value.apps == l.apps + [Application(consumer, d.source, d.total, false)]
  {}

  function NewApplications(consumer: nat, ds: seq<Deduction>): (r: seq<Application>)
    ensures |r| == |ds|
  {
    seq(|ds|, i requires 0 <= i < |ds| => Application(consumer, ds[i].source, ds[i].total, false))
  }

  /** Neither clamp is ever taken: each refund adds its full total. */
  lemma {:induction false} RefundsAddUp(l: Ledger, consumer: nat, n: nat)
    requires Inv(l) && n <= |l.apps|
    ensures var r := AllRefunded(l.vouchers, l.apps[..n], consumer);
            && r.Keys == l.vouchers.Keys
            && forall v :: v in r ==>
                 r[v] == l.vouchers[v].(balance := l.vouchers[v].balance + OutstandingOf(l.apps[..n], consumer, v))
  {
    if n > 0 {
      var a := l.apps[n - 1];
      assert l.apps[..n][..n - 1] == l.apps[..n - 1];
      RefundsAddUp(l, consumer, n - 1);
      PartOfOutstanding(l.apps, n, consumer, a.source);
    }
  }

  lemma ReversedKeepsInv(l: Ledger, consumer: nat)
    requires Inv(l)
    ensures Inv(Reversed(l, consumer))
    ensures Reversed(l, consumer).vouchers.Keys == l.vouchers.Keys
    ensures forall v :: v in l.vouchers ==>
              Reversed(l, consumer).vouchers[v] ==
              l.vouchers[v].(balance := l.vouchers[v].balance + OutstandingOf(l.apps, consumer, v))
  {
    assert l.apps[..|l.apps|] == l.apps;
    RefundsAddUp(l, consumer, |l.apps|);
    var m := Reversed(l, consumer);
    forall v | v in m.vouchers
      ensures m.vouchers[v].balance >= 0
      ensures m.vouchers[v].balance + Outstanding(m.apps, v) == m.vouchers[v].original
    {
      MarkedOutstanding(l.apps, consumer, v);
      PartOfOutstanding(l.apps, |l.apps|, consumer, v);
    }
  }

  // ---- every sequence of operations ----

  datatype Action =
    | Emit(sale: nat, total: int)
    | Accept(sale: nat)
    | Apply(consumer: nat, ds: seq<Deduction>)
    | Reverse(consumer: nat)

  /** Amounts are not negative, and a voucher is not emitted anew while applications consume it. */
  predicate Allowed(l: Ledger, a: Action) {
    match a
    case Emit(sale, total) => total >= 0 && Outstanding(l.apps, sale) == 0
    case Apply(_, ds) => NonNegativeTotals(ds)
    case _ => true
  }

  function Next(l: Ledger, a: Action): Ledger {
    match a
    case Emit(sale, total) => Emitted(l, sale, total)
    case Accept(sale) => Accepted(l, sale)
    case Apply(consumer, ds) =>
      var r := AllApplied(l, consumer, ds);
      if r.Some? then r.value else l
    case Reverse(consumer) => Reversed(l, consumer)
  }

  ghost predicate Reaches(l: Ledger, run: seq<Action>, m: Ledger)
    decreases |run|
  {
    if run == [] then l == m else Allowed(l, run[0]) && Reaches(Next(l, run[0]), run[1..], m)
  }

  lemma StepKeepsInv(l: Ledger, a: Action)
    requires Inv(l) && Allowed(l, a)
    ensures Inv(Next(l, a))
  {
    match a
    case Apply(consumer, ds) => AppliedExactlyIfCovered(l, consumer, ds);
    case Reverse(consumer) => ReversedKeepsInv(l, consumer);
    case _ =>
  }

  lemma {:induction false} RunsKeepInv(l: Ledger, run: seq<Action>, m: Ledger)
    requires Inv(l) && Reaches(l, run, m)
    ensures Inv(m)
    decreases |run|
  {
    hide Inv, Next, Allowed;
    if run != [] {
      StepKeepsInv(l, run[0]);
      RunsKeepInv(Next(l, run[0]), run[1..], m);
    }
  }

  // ---- main results ----

  /** What a sale last issued a voucher for, and whether it was accepted since. */
  datatype Issue = Issue(total: int, accepted: bool)

  function Noted(issues: map<nat, Issue>, a: Action): map<nat, Issue> {
    match a
    case Emit(sale, total) => issues[sale := Issue(total, false)]
    case Accept(sale) => if sale in issues then issues[sale := issues[sale].(accepted := true)] else issues
    case _ => issues
  }

  function IssuesAfter(issues: map<nat, Issue>, run: seq<Action>): map<nat, Issue>
    decreases |run|
  {
    if run == [] then issues else IssuesAfter(Noted(issues, run[0]), run[1..])
  }

  /** The vouchers are those issued, at the amount paid, and open exactly if accepted. */
  ghost predicate Backed(l: Ledger, issues: map<nat, Issue>) {
    && l.vouchers.Keys == issues.Keys
    && (forall v :: v in issues ==>
          l.vouchers[v].original == issues[v].total && (l.vouchers[v].status == Open <==> issues[v].accepted))
  }

  lemma StepKeepsBacked(l: Ledger, issues: map<nat, Issue>, a: Action)
    requires Inv(l) && Allowed(l, a) && Backed(l, issues)
    ensures Backed(Next(l, a), Noted(issues, a))
  {
    match a
    case Apply(consumer, ds) => AppliedExactlyIfCovered(l, consumer, ds);
    case Reverse(consumer) => ReversedKeepsInv(l, consumer);
    case _ =>
  }

  lemma {:induction false} RunsKeepBacked(l: Ledger, issues: map<nat, Issue>, run: seq<Action>, m: Ledger)
    requires Inv(l) && Backed(l, issues) && Reaches(l, run, m)
    ensures Inv(m) && Backed(m, IssuesAfter(issues, run))
    decreases |run|
  {
    hide Inv, Next, Allowed, Backed, Noted;
    if run != [] {
      StepKeepsInv(l, run[0]);
      StepKeepsBacked(l, issues, run[0]);
      RunsKeepBacked(Next(l, run[0]), Noted(issues, run[0]), run[1..], m);
    }
  }

  const EMPTY: Ledger := Ledger(map[], [])

  /** After any operations the vouchers are those issued, and one is open exactly if its sale was accepted since. */
  lemma VouchersAreThoseIssued(run: seq<Action>, l: Ledger, v: nat)
    requires Reaches(EMPTY, run, l)
    ensures v in l.vouchers <==> v in IssuesAfter(map[], run)
    ensures v in l.vouchers ==> (l.vouchers[v].status == Open <==> IssuesAfter(map[], run)[v].accepted)
  {
    RunsKeepBacked(EMPTY, map[], run, l);
  }

  /**
   After any operations: balance + un-reversed applications = the total the sale was last issued for, and neither is
   negative, so what is deducted never exceeds what was paid in advance.
   */
  lemma LedgerIsConserved(run: seq<Action>, l: Ledger, v: nat)
    requires Reaches(EMPTY, run, l) && v in l.vouchers
    ensures v in IssuesAfter(map[], run)
    ensures l.vouchers[v].balance + Outstanding(l.apps, v) == IssuesAfter(map[], run)[v].total
    ensures 0 <= l.vouchers[v].balance <= IssuesAfter(map[], run)[v].total
    ensures 0 <= Outstanding(l.apps, v) <= IssuesAfter(map[], run)[v].total
  {
    RunsKeepBacked(EMPTY, map[], run, l);
    PartOfOutstanding(l.apps, 0, 0, v);
  }

  /** A sale's deductions are accepted exactly if, with all un-reversed ones, they fit what their sources were issued for. */
  lemma DeductionsFitWhatWasPaid(run: seq<Action>, l: Ledger, consumer: nat, ds: seq<Deduction>)
    requires Reaches(EMPTY, run, l) && NonNegativeTotals(ds)
    ensures AllApplied(l, consumer, ds).Some? <==>
            && (forall d :: d in ds ==> d.source in IssuesAfter(map[], run))
            && (forall v :: v in IssuesAfter(map[], run) ==>
                  Outstanding(l.apps, v) + Requested(ds, v) <= IssuesAfter(map[], run)[v].total)
  {
    RunsKeepBacked(EMPTY, map[], run, l);
    AppliedExactlyIfCovered(l, consumer, ds);
    hide Reaches, IssuesAfter, Outstanding, Requested, AllApplied;
  }

  /** Both clamps are unreachable: what a step adds to or takes from a balance is the exact total. */
  lemma ClampsAreNeverTaken(run: seq<Action>, l: Ledger, consumer: nat, d: Deduction, n: nat)
    requires Reaches(EMPTY, run, l) && d.source in l.vouchers && n < |l.apps|
    ensures Applied(l, consumer, d).Some? ==> l.vouchers[d.source].balance - d.total >= 0
    ensures Due(l.apps[n], consumer) ==>
              var before := AllRefunded(l.vouchers, l.apps[..n], consumer);
              l.apps[n].source in before ==>
                before[l.apps[n].source].balance + l.apps[n].total <= before[l.apps[n].source].original
  {
    RunsKeepInv(EMPTY, run, l);
    RefundsAddUp(l, consumer, n);
    PartOfOutstanding(l.apps, n + 1, consumer, l.apps[n].source);
    assert l.apps[..n + 1][..n] == l.apps[..n];
  }

  lemma {:induction false} NewOutstanding(apps: seq<Application>, consumer: nat, ds: seq<Deduction>, source: nat)
    ensures OutstandingOf(apps + NewApplications(consumer, ds), consumer, source) ==
            OutstandingOf(apps, consumer, source) + Requested(ds, source)
  {
    var all := apps + NewApplications(consumer, ds);
    if ds == [] {
      assert all == apps;
    } else {
      var n := |ds| - 1;
      NewOutstanding(apps, consumer, ds[..n], source);
      assert all == (apps + NewApplications(consumer, ds[..n])) + [Application(consumer, ds[n].source, ds[n].total, false)];
      OutstandingOfAppend(apps + NewApplications(consumer, ds[..n]),
                          Application(consumer, ds[n].source, ds[n].total, false), consumer, source);
    }
  }

  /** Annulling the sale undoes its transaction: every voucher is as before. */
  lemma ReversalUndoesPersist(run: seq<Action>, l: Ledger, consumer: nat, ds: seq<Deduction>)
    requires Reaches(EMPTY, run, l) && NonNegativeTotals(ds)
    requires AllApplied(l, consumer, ds).Some?
    requires forall v :: OutstandingOf(l.apps, consumer, v) == 0
    ensures Reversed(AllApplied(l, consumer, ds).value, consumer).vouchers == l.vouchers
  {
    RunsKeepInv(EMPTY, run, l);
    AppliedExactlyIfCovered(l, consumer, ds);
    var m := AllApplied(l, consumer, ds).value;
    ReversedKeepsInv(m, consumer);
    forall v | v in l.vouchers
      ensures Reversed(m, consumer).vouchers[v] == l.vouchers[v]
    {
      NewOutstanding(l.apps, consumer, ds, v);
    }
  }

  lemma {:induction false} NothingDue(vouchers: map<nat, Voucher>, apps: seq<Application>, consumer: nat)
    requires forall i :: 0 <= i < |apps| ==> !Due(apps[i], consumer)
    ensures AllRefunded(vouchers, apps, consumer) == vouchers
  {
    if apps != [] {
      NothingDue(vouchers, apps[..|apps| - 1], consumer);
    }
  }

  /** A second reversal of the same sale changes nothing. */
  lemma SecondReversalIsNoOp(l: Ledger, consumer: nat)
    ensures Reversed(Reversed(l, consumer), consumer) == Reversed(l, consumer)
  {
    var m := Reversed(l, consumer);
    NothingDue(m.vouchers, m.apps, consumer);
    assert Marked(m.apps, consumer) == m.apps;
  }

  /** Emitting a voucher again keeps the ledger right exactly if nothing un-reversed consumes it. */
  lemma EmitKeepsLedgerIffUnconsumed(l: Ledger, sale: nat, total: int)
    requires Inv(l) && total >= 0
    ensures Inv(Emitted(l, sale, total)) <==> Outstanding(l.apps, sale) == 0
  {
    var m := Emitted(l, sale, total);
    assert m.vouchers[sale].balance == m.vouchers[sale].original;
  }
}
