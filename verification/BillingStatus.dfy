/** The sale's billing status, reconciled with its invoice without ever degrading. */
module BillingStatus {
  import opened Wrappers
  import opened Text
  import opened BillingState

  datatype Billing = BPending | BSent | BError | BRejected | BAccepted

  function Label(b: Billing): string {
    match b
    case BPending => "pending"
    case BSent => "sent"
    case BError => "error"
    case BRejected => "rejected"
    case BAccepted => "accepted"
  }

  function Rank(b: Billing): int {
    match b
    case BPending => 0
    case BSent => 1
    case BError => 2
    case BRejected => 3
    case BAccepted => 4
  }

  function ParseBilling(s: string): Billing {
    if s == "accepted" then BAccepted
    else if s == "rejected" then BRejected
    else if s == "error" then BError
    else if s == "sent" then BSent
    else BPending
  }

  function NormalizeBillingStatus(raw: string): Billing {
    ParseBilling(ToLower(TrimSpace(raw)))
  }

  lemma LabelsAreLowly(b: Billing)
    ensures Lowly(Label(b))
  {}

  lemma ParseLabel(b: Billing)
    ensures ParseBilling(Label(b)) == b
  {}

  lemma LabelIsStable(b: Billing)
    ensures NormalizeBillingStatus(Label(b)) == b
  {
    hide ParseBilling, ToLower, TrimSpace, Label, Lowly;
    LabelsAreLowly(b);
    LowlyIsClean(Label(b));
    ParseLabel(b);
  }

  function LegacyBillingStatus(p: Pipeline): Billing {
    match p
    case SunatAccepted => BAccepted
    case Observed => BAccepted
    case SunatRejected => BRejected
    case Failed => BError
    case DeadLetter => BError
    case SendingToFacturador => BSent
    case FacturadorReceived => BSent
    case SendingToSunat => BSent
    case Processing => BSent
    case PendingFiscal => BSent
    case PendingQueue => BSent
    case Retrying => BSent
    case _ => BPending
  }

  /** Old rows have no pipeline: it is read off the other columns. */
  function InferPipelineFromLegacy(inv: Invoice): Pipeline {
    if HasAcceptanceEvidence(inv) then
      if inv.sunatStatus == "observed" then Observed else SunatAccepted
    else if inv.sunatStatus == "accepted" then Unknown
    else if inv.sunatStatus == "rejected" then SunatRejected
    else if inv.sunatStatus == "error" then Failed
    else if inv.sunatStatus == "pending" then
      if inv.jobStatus == "processing" || inv.jobStatus == "retrying" then Processing
      else if inv.jobStatus == "sent" then Unknown
      else PendingQueue
    else Draft
  }

  /** Inference never claims acceptance without evidence. */
  lemma InferredAcceptanceHasEvidence(inv: Invoice)
    ensures LegacyBillingStatus(InferPipelineFromLegacy(inv)).BAccepted? <==> HasAcceptanceEvidence(inv)
  {
    hide HasAcceptanceEvidence;
  }

  function FromInvoice(inv: Option<Invoice>): Billing {
    if inv.None? then BPending
    else
      var p := StateOf(inv.value);
      LegacyBillingStatus(if p.Draft? && inv.value.id > 0 then InferPipelineFromLegacy(inv.value) else p)
  }

  function EffectiveBillingStatus(sale: Option<string>, inv: Option<Invoice>): Billing {
    var fromSale := if sale.Some? then NormalizeBillingStatus(sale.value) else BPending;
    var fromInv := FromInvoice(inv);
    if Rank(fromInv) >= Rank(fromSale) then fromInv else fromSale
  }

  // ---- the tables ----

  datatype Sale = Sale(id: nat, status: string)
  datatype Outcome = Status(b: Billing) | NotFound

  /** First by primary key: the table lists the invoices by id. */
  function FirstOf(invoices: seq<Invoice>, saleID: nat): Option<Invoice> {
    if invoices == [] then None
    else if invoices[0].saleID == saleID then Some(invoices[0])
    else FirstOf(invoices[1..], saleID)
  }

  /** What a map filled in order keeps: the last one. */
  function LastOf(invoices: seq<Invoice>, saleID: nat): Option<Invoice> {
    if invoices == [] then None
    else
      var last := invoices[|invoices| - 1];
      if last.saleID == saleID then Some(last) else LastOf(invoices[..|invoices| - 1], saleID)
  }

  /** The unique index on sale_id. */
  predicate OnePerSale(invoices: seq<Invoice>) {
    forall i, j :: 0 <= i < j < |invoices| ==> invoices[i].saleID != invoices[j].saleID
  }

  lemma {:induction false} FirstFound(invoices: seq<Invoice>, i: nat)
    requires OnePerSale(invoices) && i < |invoices|
    ensures FirstOf(invoices, invoices[i].saleID) == Some(invoices[i])
  {
    if i > 0 {
      assert invoices[0].saleID != invoices[i].saleID;
      FirstFound(invoices[1..], i - 1);
    }
  }

  lemma {:induction false} FirstAbsent(invoices: seq<Invoice>, saleID: nat)
    requires forall i :: 0 <= i < |invoices| ==> invoices[i].saleID != saleID
    ensures FirstOf(invoices, saleID) == None
  {
    if invoices != [] {
      FirstAbsent(invoices[1..], saleID);
    }
  }

  lemma {:induction false} LastIsFirst(invoices: seq<Invoice>, n: nat, saleID: nat)
    requires OnePerSale(invoices) && n <= |invoices|
    requires forall i :: n <= i < |invoices| ==> invoices[i].saleID != saleID
    ensures LastOf(invoices[..n], saleID) == FirstOf(invoices, saleID)
    decreases n
  {
    if n == 0 {
      FirstAbsent(invoices, saleID);
    } else {
      assert invoices[..n][..n - 1] == invoices[..n - 1];
      if invoices[n - 1].saleID == saleID {
        FirstFound(invoices, n - 1);
      } else {
        LastIsFirst(invoices, n - 1, saleID);
      }
    }
  }

  function Reconciled(sales: map<nat, string>, invoices: seq<Invoice>, id: nat): map<nat, string> {
    if id == 0 || id !in sales then sales
    else sales[id := Label(EffectiveBillingStatus(Some(sales[id]), FirstOf(invoices, id)))]
  }

  function AllReconciled(sales: map<nat, string>, invoices: seq<Invoice>, ids: seq<nat>): map<nat, string> {
    if ids == [] then sales
    else Reconciled(AllReconciled(sales, invoices, ids[..|ids| - 1]), invoices, ids[|ids| - 1])
  }

  function EffectiveOf(s: Sale, invoices: seq<Invoice>): string {
    Label(EffectiveBillingStatus(Some(s.status), LastOf(invoices, s.id)))
  }

  /** The updates of the batch form: written only where the listed status differs. */
  function Enriched(sales: map<nat, string>, invoices: seq<Invoice>, list: seq<Sale>): map<nat, string> {
    if list == [] then sales
    else
      var before := Enriched(sales, invoices, list[..|list| - 1]);
      var s := list[|list| - 1];
      if s.id in sales && EffectiveOf(s, invoices) != s.status then before[s.id := EffectiveOf(s, invoices)] else before
  }

  class Tables {
    var sales: map<nat, string>
    var invoices: seq<Invoice>

    constructor (sales: map<nat, string>, invoices: seq<Invoice>)
      ensures this.sales == sales && this.invoices == invoices
    {
      this.sales, this.invoices := sales, invoices;
    }

    method ReconcileSaleBillingStatus(id: nat) returns (r: Outcome)
      modifies this`sales
      ensures sales == Reconciled(old(sales), invoices, id)
      ensures id != 0 && id in old(sales) ==> sales[id] == StoredAfter(old(sales)[id], [FirstOf(invoices, id)])
      ensures r == if id == 0 then Status(BPending)
                   else if id !in old(sales) then NotFound
                   else Status(EffectiveBillingStatus(Some(old(sales)[id]), FirstOf(invoices, id)))
    {
      if id == 0 {
        return Status(BPending);
      }
      if id !in sales {
        return NotFound;
      }
      var effective := EffectiveBillingStatus(Some(sales[id]), FirstOf(invoices, id));
      if Label(effective) != sales[id] {
        sales := sales[id := Label(effective)];
      }
      return Status(effective);
    }

    /** The invoices by sale, a later one replacing an earlier one. */
    method IndexBySale() returns (bySale: map<nat, Invoice>)
      ensures forall id :: if id in bySale then LastOf(invoices, id) == Some(bySale[id]) else LastOf(invoices, id) == None
    {
      bySale := map[];
      for i := 0 to |invoices|
        invariant forall id :: if id in bySale then LastOf(invoices[..i], id) == Some(bySale[id])
                               else LastOf(invoices[..i], id) == None
      {
        assert invoices[..i + 1][..i] == invoices[..i];
        bySale := bySale[invoices[i].saleID := invoices[i]];
      }
      assert invoices[..|invoices|] == invoices;
    }

    /** Fetches the invoices once, indexes them, and corrects list and table. */
    method EnrichSalesBillingStatus(list: array<Sale>)
      modifies this`sales, list
      ensures sales == Enriched(old(sales), invoices, old(list[..]))
      ensures forall i :: 0 <= i < list.Length ==>
                list[i] == old(list[i]).(status := EffectiveOf(old(list[i]), invoices))
    {
      var bySale := IndexBySale();
      hide LastOf, EffectiveBillingStatus, Label;
      ghost var was := list[..];
      for i := 0 to list.Length
        invariant sales == Enriched(old(sales), invoices, was[..i]) && sales.Keys == old(sales).Keys
        invariant forall k :: 0 <= k < i ==> list[k] == was[k].(status := EffectiveOf(was[k], invoices))
        invariant forall k :: i <= k < list.Length ==> list[k] == was[k]
      {
        var s := list[i];
        var inv := if s.id in bySale then Some(bySale[s.id]) else None;
        var effective := Label(EffectiveBillingStatus(Some(s.status), inv));
        assert effective == EffectiveOf(s, invoices);
        assert was[..i + 1][..i] == was[..i];
        if effective != s.status {
          list[i] := s.(status := effective);
          if s.id in sales {
            sales := sales[s.id := effective];
          }
        }
      }
      assert was[..list.Length] == was;
    }
  }

  // ---- main results ----

  /** Which of the two statuses ranks higher. */
  function Higher(a: Billing, b: Billing): (h: Billing)
    ensures (h == a || h == b) && Rank(h) >= Rank(a) && Rank(h) >= Rank(b)
  {
    if Rank(b) >= Rank(a) then b else a
  }

  /** The stored status after reconciling with each of the invoice states seen in turn. */
  function StoredAfter(initial: string, seen: seq<Option<Invoice>>): string {
    if seen == [] then initial
    else Label(EffectiveBillingStatus(Some(StoredAfter(initial, seen[..|seen| - 1])), seen[|seen| - 1]))
  }

  lemma RanksAreDistinct(a: Billing, b: Billing)
    ensures Rank(a) == Rank(b) ==> a == b
  {}

  /** The rank-maximum of a first status and the invoice statuses seen. */
  function HighestSeen(first: Billing, seen: seq<Option<Invoice>>): Billing {
    if seen == [] then first
    else Higher(HighestSeen(first, seen[..|seen| - 1]), FromInvoice(seen[|seen| - 1]))
  }

  /** `b` is the first status or one of the invoices' and ranks at least as high as all of them. */
  ghost predicate IsMaximum(b: Billing, first: Billing, seen: seq<Option<Invoice>>) {
    && Rank(b) >= Rank(first)
    && (forall inv :: inv in seen ==> Rank(b) >= Rank(FromInvoice(inv)))
    && (b == first || exists inv :: inv in seen && b == FromInvoice(inv))
  }

  lemma {:induction false} HighestIsMaximum(first: Billing, seen: seq<Option<Invoice>>)
    ensures IsMaximum(HighestSeen(first, seen), first, seen)
  {
    hide FromInvoice;
    if seen != [] {
      var n := |seen| - 1;
      HighestIsMaximum(first, seen[..n]);
      assert forall inv :: inv in seen <==> inv in seen[..n] || inv == seen[n];
    }
  }

  /** There is one such status, and it is the one computed. */
  lemma HighestSeenIsTheMaximum(b: Billing, first: Billing, seen: seq<Option<Invoice>>)
    ensures IsMaximum(b, first, seen) <==> b == HighestSeen(first, seen)
  {
    hide FromInvoice, HighestSeen;
    HighestIsMaximum(first, seen);
    RanksAreDistinct(b, HighestSeen(first, seen));
  }

  /** After any reconciliations the stored status is the rank-maximum of the initial one and every invoice status seen. */
  lemma {:induction false} StatusNeverDegrades(initial: string, seen: seq<Option<Invoice>>)
    ensures NormalizeBillingStatus(StoredAfter(initial, seen)) == HighestSeen(NormalizeBillingStatus(initial), seen)
    ensures seen != [] ==> StoredAfter(initial, seen) == Label(HighestSeen(NormalizeBillingStatus(initial), seen))
  {
    if seen != [] {
      var n := |seen| - 1;
      StatusNeverDegrades(initial, seen[..n]);
      LabelIsStable(EffectiveBillingStatus(Some(StoredAfter(initial, seen[..n])), seen[n]));
      hide NormalizeBillingStatus, FromInvoice, Label;
    }
  }

  /** A second reconcile with the same invoice changes nothing. */
  lemma ReconcileIsIdempotent(sales: map<nat, string>, invoices: seq<Invoice>, id: nat)
    ensures Reconciled(Reconciled(sales, invoices, id), invoices, id) == Reconciled(sales, invoices, id)
  {
    if id != 0 && id in sales {
      LabelIsStable(EffectiveBillingStatus(Some(sales[id]), FirstOf(invoices, id)));
      hide NormalizeBillingStatus, FromInvoice, Label, FirstOf;
    }
  }

  /** Every listed sale has its effective status, every other its old one. */
  ghost predicate Corrected(old': map<nat, string>, new': map<nat, string>, invoices: seq<Invoice>, ids: seq<nat>) {
    && new'.Keys == old'.Keys
    && forall id :: id in old' ==>
         new'[id] == if id in ids then Label(EffectiveBillingStatus(Some(old'[id]), FirstOf(invoices, id))) else old'[id]
  }

  /** One more correction, or a repeated one. */
  lemma CorrectedStep(sales: map<nat, string>, before: map<nat, string>, after: map<nat, string>,
                      invoices: seq<Invoice>, ids: seq<nat>, id: nat)
    requires Corrected(sales, before, invoices, ids)
    requires if id !in sales then after == before
             else after == before[id := Label(EffectiveBillingStatus(Some(sales[id]), FirstOf(invoices, id)))]
    ensures Corrected(sales, after, invoices, ids + [id])
  {
    hide EffectiveBillingStatus, Label, FirstOf;
  }

  /** Correcting a status that was already corrected gives the same one. */
  lemma EffectiveTwice(status: string, inv: Option<Invoice>)
    ensures EffectiveBillingStatus(Some(Label(EffectiveBillingStatus(Some(status), inv))), inv)
         == EffectiveBillingStatus(Some(status), inv)
  {
    LabelIsStable(EffectiveBillingStatus(Some(status), inv));
    hide NormalizeBillingStatus, FromInvoice, Label;
  }

  lemma OneMoreReconciled(sales: map<nat, string>, before: map<nat, string>, invoices: seq<Invoice>, ids: seq<nat>, id: nat)
    requires Corrected(sales, before, invoices, ids) && id != 0
    ensures Corrected(sales, Reconciled(before, invoices, id), invoices, ids + [id])
  {
    hide EffectiveBillingStatus, Label, FirstOf;
    if id in sales {
      EffectiveTwice(sales[id], FirstOf(invoices, id));
    }
    CorrectedStep(sales, before, Reconciled(before, invoices, id), invoices, ids, id);
  }

  lemma {:induction false} AllReconciledCorrects(sales: map<nat, string>, invoices: seq<Invoice>, ids: seq<nat>)
    requires 0 !in ids
    ensures Corrected(sales, AllReconciled(sales, invoices, ids), invoices, ids)
  {
    hide EffectiveBillingStatus, Label, FirstOf, Reconciled;
    if ids != [] {
      hide Corrected;
      var n := |ids| - 1;
      AllReconciledCorrects(sales, invoices, ids[..n]);
      OneMoreReconciled(sales, AllReconciled(sales, invoices, ids[..n]), invoices, ids[..n], ids[n]);
      assert ids[..n] + [ids[n]] == ids;
    }
  }

  function Ids(list: seq<Sale>): (ids: seq<nat>)
    ensures |ids| == |list| && forall i :: 0 <= i < |ids| ==> ids[i] == list[i].id
  {
    seq(|list|, i requires 0 <= i < |list| => list[i].id)
  }

  /** The listed statuses are those of the table, as just read. */
  ghost predicate JustRead(sales: map<nat, string>, list: seq<Sale>) {
    forall s :: s in list ==> s.id != 0 && s.id in sales && sales[s.id] == s.status
  }

  /** Writing only where the status differs is as good as writing always. */
  lemma WriteIfDifferent(sales: map<nat, string>, before: map<nat, string>, invoices: seq<Invoice>, ids: seq<nat>,
                         id: nat, text: string)
    requires Corrected(sales, before, invoices, ids) && id in sales
    requires text == Label(EffectiveBillingStatus(Some(sales[id]), FirstOf(invoices, id)))
    ensures Corrected(sales, if text != sales[id] then before[id := text] else before, invoices, ids + [id])
  {
    hide EffectiveBillingStatus, Label, FirstOf;
    CorrectedStep(sales, before, before[id := text], invoices, ids, id);
    if text == sales[id] {
      assert before[id := text] == before;
    }
  }

  /** What the batch form finds for a listed sale is what the per-sale form finds. */
  lemma EffectiveOfListed(sales: map<nat, string>, invoices: seq<Invoice>, list: seq<Sale>, s: Sale)
    requires OnePerSale(invoices) && JustRead(sales, list) && s in list
    ensures s.id in sales && sales[s.id] == s.status
    ensures EffectiveOf(s, invoices) == Label(EffectiveBillingStatus(Some(sales[s.id]), FirstOf(invoices, s.id)))
  {
    hide EffectiveBillingStatus, Label, FirstOf, LastOf, OnePerSale;
    LastIsFirst(invoices, |invoices|, s.id);
    assert invoices[..|invoices|] == invoices;
  }

  lemma IdsGrow(list: seq<Sale>)
    requires list != []
    ensures Ids(list) == Ids(list[..|list| - 1]) + [list[|list| - 1].id]
  {}

  lemma {:induction false} EnrichedCorrects(sales: map<nat, string>, invoices: seq<Invoice>, list: seq<Sale>)
    requires OnePerSale(invoices) && JustRead(sales, list)
    ensures Corrected(sales, Enriched(sales, invoices, list), invoices, Ids(list))
  {
    hide EffectiveBillingStatus, Label, FirstOf, OnePerSale, EffectiveOf;
    if list != [] {
      hide Corrected, Ids;
      var n, s := |list| - 1, list[|list| - 1];
      assert JustRead(sales, list[..n]);
      hide JustRead;
      EnrichedCorrects(sales, invoices, list[..n]);
      EffectiveOfListed(sales, invoices, list, s);
      WriteIfDifferent(sales, Enriched(sales, invoices, list[..n]), invoices, Ids(list[..n]), s.id,
                       EffectiveOf(s, invoices));
      IdsGrow(list);
    }
  }

  /** With at most one invoice per sale, the batch over a list just read equals reconciling sale by sale. */
  lemma BatchEqualsPerSale(sales: map<nat, string>, invoices: seq<Invoice>, list: seq<Sale>)
    requires OnePerSale(invoices) && JustRead(sales, list)
    ensures Enriched(sales, invoices, list) == AllReconciled(sales, invoices, Ids(list))
  {
    EnrichedCorrects(sales, invoices, list);
    AllReconciledCorrects(sales, invoices, Ids(list));
  }
}
