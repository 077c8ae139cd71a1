/** What the sale's status says, in its own texts: which one is stored, and how it agrees with the invoice's columns. */
module BillingStatusMeaning {
  import opened Wrappers
  import opened Text
  import opened BillingState
  import opened BillingStatus
  import opened BillingLifecycle

  /** The sale started with this status, or an invoice seen had it. */
  ghost predicate Saw(initial: string, seen: seq<Option<Invoice>>, b: Billing) {
    NormalizeBillingStatus(initial) == b || exists inv :: inv in seen && FromInvoice(inv) == b
  }

  /** The highest seen, without ranks: accepted before rejected before error before sent before pending. */
  lemma HighestByName(initial: string, seen: seq<Option<Invoice>>)
    ensures HighestSeen(NormalizeBillingStatus(initial), seen) ==
            if Saw(initial, seen, BAccepted) then BAccepted
            else if Saw(initial, seen, BRejected) then BRejected
            else if Saw(initial, seen, BError) then BError
            else if Saw(initial, seen, BSent) then BSent
            else BPending
  {
    HighestIsMaximum(NormalizeBillingStatus(initial), seen);
    hide FromInvoice, NormalizeBillingStatus, HighestSeen;
  }

  lemma LabelTexts()
    ensures Label(BAccepted) == "accepted" && Label(BRejected) == "rejected" && Label(BError) == "error"
    ensures Label(BSent) == "sent" && Label(BPending) == "pending"
  {}

  /**
   After any reconciliations: accepted once that was seen, or else rejected, or else error, or else sent; pending only
   if nothing but pending was ever seen.
   */
  lemma StoredIsTheBestSeen(initial: string, seen: seq<Option<Invoice>>)
    requires seen != []
    ensures StoredAfter(initial, seen) ==
            if Saw(initial, seen, BAccepted) then "accepted"
            else if Saw(initial, seen, BRejected) then "rejected"
            else if Saw(initial, seen, BError) then "error"
            else if Saw(initial, seen, BSent) then "sent"
            else "pending"
  {
    StatusNeverDegrades(initial, seen);
    HighestByName(initial, seen);
    LabelTexts();
    hide Saw, Label, StoredAfter, HighestSeen, NormalizeBillingStatus;
  }

  /** The texts of a sale's status column; any other text counts as pending. */
  lemma SaleTexts(text: string)
    ensures var b, clean := NormalizeBillingStatus(text), ToLower(TrimSpace(text));
            && (b.BAccepted? <==> clean == "accepted") && (b.BRejected? <==> clean == "rejected")
            && (b.BError? <==> clean == "error") && (b.BSent? <==> clean == "sent")
  {
    hide ToLower, TrimSpace;
  }

  // ---- agreement with the invoice ----

  lemma StatusOfState(p: Pipeline)
    ensures LegacyBillingStatus(p).BAccepted? <==> p.SunatAccepted? || p.Observed?
    ensures LegacyBillingStatus(p).BRejected? <==> p.SunatRejected?
    ensures LegacyBillingStatus(p).BError? <==> p.Failed? || p.DeadLetter?
    ensures LegacyBillingStatus(p).BSent? <==> p in STAGES && p != Draft
  {}

  /** After any update but to DRAFT, sale status and columns agree. */
  lemma StatusAgreesWithColumns(inv: Invoice, pipeline: string, msg: string)
    requires !StateOf(Updated(inv, pipeline, msg)).Draft?
    ensures var u := Updated(inv, pipeline, msg); var b := FromInvoice(Some(u));
            && (b.BAccepted? <==> u.sunatStatus == "accepted" || u.sunatStatus == "observed")
            && (b.BAccepted? <==> u.jobStatus == "sent")
            && (b.BRejected? <==> u.sunatStatus == "rejected")
            && (b.BError? <==> u.sunatStatus == "error")
            && (b.BSent? <==> StateOf(u) in STAGES)
  {
    ColumnsSayState(inv, pipeline, msg);
    StatusOfState(StateOf(Updated(inv, pipeline, msg)));
    hide Updated, StateOf, LegacyBillingStatus, STAGES;
  }

  /** An invoice in DRAFT that is stored is judged by its columns; without an invoice a sale is pending. */
  lemma DraftIsInferred(inv: Invoice)
    requires StateOf(inv).Draft?
    ensures FromInvoice(Some(inv)) == if inv.id > 0 then LegacyBillingStatus(InferPipelineFromLegacy(inv)) else BPending
    ensures FromInvoice(None) == BPending
  {
    hide StateOf, InferPipelineFromLegacy;
  }

  /** The state that is inferred, by the columns. */
  lemma InferredState(inv: Invoice)
    ensures var p := InferPipelineFromLegacy(inv);
            if HasAcceptanceEvidence(inv) then p == if inv.sunatStatus == "observed" then Observed else SunatAccepted
            else
              && (p == SunatRejected <==> inv.sunatStatus == "rejected")
              && (p == Failed <==> inv.sunatStatus == "error")
              && (p == Processing <==> inv.sunatStatus == "pending" && inv.jobStatus in {"processing", "retrying"})
              && (p == PendingQueue <==>
                  inv.sunatStatus == "pending" && inv.jobStatus !in {"processing", "retrying", "sent"})
              && (p == Unknown <==>
                  inv.sunatStatus == "accepted" || (inv.sunatStatus == "pending" && inv.jobStatus == "sent"))
              && (p == Draft <==> inv.sunatStatus !in {"rejected", "error", "pending", "accepted"})
  {
    hide HasAcceptanceEvidence;
  }

  /** What is inferred from raw columns without evidence. */
  lemma InferredFromColumns(inv: Invoice)
    requires !HasAcceptanceEvidence(inv)
    ensures var b := LegacyBillingStatus(InferPipelineFromLegacy(inv));
            && (b.BRejected? <==> inv.sunatStatus == "rejected")
            && (b.BError? <==> inv.sunatStatus == "error")
            && (b.BSent? <==> inv.sunatStatus == "pending" && inv.jobStatus != "sent")
            && !b.BAccepted?
  {
    hide HasAcceptanceEvidence;
  }

  /** The four ways a status is told from the others. */
  lemma SameStatus(a: Billing, b: Billing)
    ensures a == b <==>
            && (a.BAccepted? <==> b.BAccepted?) && (a.BRejected? <==> b.BRejected?)
            && (a.BError? <==> b.BError?) && (a.BSent? <==> b.BSent?)
  {}

  /** Without evidence, what is inferred after an update, by its state. */
  lemma InferredAfterUpdate(inv: Invoice, pipeline: string, msg: string)
    requires !HasAcceptanceEvidence(Updated(inv, pipeline, msg))
    ensures var u := Updated(inv, pipeline, msg); var p := StateOf(u);
            var b := LegacyBillingStatus(InferPipelineFromLegacy(u));
            && (b.BRejected? <==> p.SunatRejected?) && (b.BError? <==> p.Failed? || p.DeadLetter?)
            && (b.BSent? <==> p !in ENDS) && !b.BAccepted?
  {
    hide Updated, StateOf, LegacyBillingStatus, InferPipelineFromLegacy, HasAcceptanceEvidence;
    ColumnsSayState(inv, pipeline, msg);
    InferredFromColumns(Updated(inv, pipeline, msg));
  }

  /**
   An invoice whose pipeline text was lost: the sale status read off its columns is the right one if and only if the
   evidence matches the state and the state was a stage after DRAFT or an end.
   */
  lemma InferenceRecoversIff(inv: Invoice, pipeline: string, msg: string)
    ensures var u := Updated(inv, pipeline, msg); var p := StateOf(u);
            LegacyBillingStatus(InferPipelineFromLegacy(u)) == LegacyBillingStatus(p) <==>
            && (HasAcceptanceEvidence(u) <==> p.SunatAccepted? || p.Observed?)
            && (p in ENDS || (p in STAGES && p != Draft))
  {
    hide Updated, StateOf, LegacyBillingStatus, InferPipelineFromLegacy, HasAcceptanceEvidence;
    var u := Updated(inv, pipeline, msg);
    var p := StateOf(u);
    StatusOfState(p);
    InferredAcceptanceHasEvidence(u);
    if !HasAcceptanceEvidence(u) {
      InferredAfterUpdate(inv, pipeline, msg);
    }
    SameStatus(LegacyBillingStatus(InferPipelineFromLegacy(u)), LegacyBillingStatus(p));
  }

  /** The whole way: an invoice brought to a success state makes the sale accepted, whatever was reconciled before or after. */
  lemma AcceptanceIsFinal(initial: string, seen: seq<Option<Invoice>>, inv: Invoice, pipeline: string, msg: string)
    requires Some(Updated(inv, pipeline, msg)) in seen
    requires NormalizePipeline(pipeline).SunatAccepted? || NormalizePipeline(pipeline).Observed?
    ensures StoredAfter(initial, seen) == "accepted"
  {
    var u := Updated(inv, pipeline, msg);
    RequestsMoveAlongStages(inv, pipeline, msg);
    StatusOfState(StateOf(u));
    assert FromInvoice(Some(u)) == BAccepted by {
      hide Updated, StateOf;
    }
    hide FromInvoice, Updated, NormalizePipeline, StoredAfter;
    StoredIsTheBestSeen(initial, seen);
  }
}
