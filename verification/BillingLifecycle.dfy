/** The pipeline as a life cycle: which request leads where, what the columns then say, and how an answer is judged. */
module BillingLifecycle {
  import opened Wrappers
  import opened Text
  import opened BillingState

  // ---- texts ----

  /** The texts of the states up to the queue worker, once cleaned up: the names and the older ones. */
  lemma TextsOnTheWay(s: string)
    ensures var p, clean := NormalizePipeline(s), ToUpper(TrimSpace(s));
            && (p == Draft <==> clean == "" || clean == "DRAFT")
            && (p == PendingFiscal <==> clean == "PENDING_FISCAL")
            && (p == PendingQueue <==> clean == "PENDING_QUEUE" || clean == "PENDING")
            && (p == Processing <==> clean == "PROCESSING")
            && (p == Retrying <==> clean == "RETRYING")
            && (p == SendingToFacturador <==> clean == "SENDING_TO_FACTURADOR" || clean == "SENT")
            && (p == FacturadorReceived <==> clean == "FACTURADOR_RECEIVED")
  {
    hide ToUpper, TrimSpace;
  }

  lemma TextsOfSunat(s: string)
    ensures var p, clean := NormalizePipeline(s), ToUpper(TrimSpace(s));
            && (p == SendingToSunat <==> clean == "SENDING_TO_SUNAT")
            && (p == SunatAccepted <==> clean == "SUNAT_ACCEPTED" || clean == "ACCEPTED")
            && (p == SunatRejected <==> clean == "SUNAT_REJECTED" || clean == "REJECTED")
  {
    hide ToUpper, TrimSpace;
  }

  lemma TextsOutside(s: string)
    ensures var p, clean := NormalizePipeline(s), ToUpper(TrimSpace(s));
            && (p == Observed <==> clean == "OBSERVED")
            && (p == Failed <==> clean == "FAILED" || clean == "ERROR")
            && (p == DeadLetter <==> clean == "DEAD_LETTER")
            && (p == Unknown <==> clean == "UNKNOWN")
  {
    hide ToUpper, TrimSpace;
  }

  /** Any other text stays what it is, cleaned up. */
  lemma OtherTextsStay(s: string)
    ensures NormalizePipeline(s).Other? ==> NormalizePipeline(s).text == ToUpper(TrimSpace(s))
  {
    hide ToUpper, TrimSpace;
  }

  // ---- transitions ----

  /** The stages of an invoice on its way, in order. */
  const STAGES: seq<Pipeline> :=
    [Draft, PendingFiscal, PendingQueue, Processing, Retrying, SendingToFacturador, FacturadorReceived, SendingToSunat]

  const ENDS: set<Pipeline> := {SunatAccepted, SunatRejected, Observed, Failed, DeadLetter}

  const RESTARTS: set<Pipeline> := {PendingQueue, Processing, Retrying}

  /** The state after asking for `q` in state `p`: the one asked for, or UNKNOWN. */
  lemma GrantedOnTheWay(i: nat, j: nat)
    requires i < |STAGES| && j < |STAGES|
    ensures Granted(STAGES[i], STAGES[j]) == if i <= j then STAGES[j] else Unknown
    ensures Granted(Unknown, STAGES[j]) == if j > 0 then STAGES[j] else Unknown
  {
    assert STAGES[0] == Draft && STAGES[1] == PendingFiscal && STAGES[2] == PendingQueue && STAGES[3] == Processing;
    assert STAGES[4] == Retrying && STAGES[5] == SendingToFacturador && STAGES[6] == FacturadorReceived;
    assert STAGES[7] == SendingToSunat;
  }

  lemma GrantedAtTheEnds(p: Pipeline, q: Pipeline)
    ensures q in ENDS ==> Granted(p, q) == q
    ensures p in ENDS && q !in ENDS ==> Granted(p, q) == if q in RESTARTS then q else Unknown
    ensures p !in ENDS && q !in ENDS && (p.Other? || q.Other?) ==> Granted(p, q) == if p == q then q else Unknown
    ensures Granted(p, Unknown) == Unknown
  {}

  /**
   Every request, whatever the state: an end is always granted; from an end only a restart is; on the way, and from
   UNKNOWN as from before the queue, a stage is granted exactly if it is not an earlier one.
   */
  lemma RequestsMoveAlongStages(inv: Invoice, pipeline: string, msg: string)
    ensures var p, q, u := StateOf(inv), NormalizePipeline(pipeline), StateOf(Updated(inv, pipeline, msg));
            && (q in ENDS ==> u == q)
            && (p in ENDS && q !in ENDS ==> u == if q in RESTARTS then q else Unknown)
            && (forall i, j :: 0 <= i < |STAGES| && 0 <= j < |STAGES| && p == STAGES[i] && q == STAGES[j] ==>
                  u == if i <= j then q else Unknown)
            && (forall j :: 0 <= j < |STAGES| && p == Unknown && q == STAGES[j] ==> u == if j > 0 then q else Unknown)
            && (p !in ENDS && q !in ENDS && (p.Other? || q.Other?) ==> u == if p == q then q else Unknown)
            && (q == Unknown ==> u == Unknown)
  {
    UpdateKeepsColumnsDerived(inv, pipeline, msg);
    hide NormalizePipeline, Updated, Granted;
    var p, q := StateOf(inv), NormalizePipeline(pipeline);
    GrantedAtTheEnds(p, q);
    forall i, j | 0 <= i < |STAGES| && 0 <= j < |STAGES|
      ensures Granted(STAGES[i], STAGES[j]) == if i <= j then STAGES[j] else Unknown
      ensures Granted(Unknown, STAGES[j]) == if j > 0 then STAGES[j] else Unknown
    {
      GrantedOnTheWay(i, j);
    }
    hide STAGES, ENDS, RESTARTS;
  }

  // ---- columns ----

  lemma SunatColumn(p: Pipeline)
    ensures LegacySunatStatus(p) == "accepted" <==> p.SunatAccepted?
    ensures LegacySunatStatus(p) == "observed" <==> p.Observed?
    ensures LegacySunatStatus(p) == "rejected" <==> p.SunatRejected?
    ensures LegacySunatStatus(p) == "error" <==> p.Failed? || p.DeadLetter?
    ensures LegacySunatStatus(p) == "pending" <==> p !in ENDS
  {}

  lemma JobColumn(p: Pipeline)
    ensures JobStatusFromPipeline(p) == "sent" <==> p.SunatAccepted? || p.Observed?
    ensures JobStatusFromPipeline(p) == "failed" <==> p.SunatRejected? || p.Failed?
    ensures JobStatusFromPipeline(p) == "dead_letter" <==> p.DeadLetter?
    ensures JobStatusFromPipeline(p) == "retrying" <==> p.Retrying?
    ensures JobStatusFromPipeline(p) == "processing" <==>
            p.Processing? || p.SendingToFacturador? || p.FacturadorReceived? || p.SendingToSunat?
    ensures JobStatusFromPipeline(p) == "pending" <==> p.Draft? || p.PendingFiscal? || p.PendingQueue? || p.Unknown? || p.Other?
  {}

  /** What the two columns say after any update, both ways. */
  lemma ColumnsSayState(inv: Invoice, pipeline: string, msg: string)
    ensures var u := Updated(inv, pipeline, msg); var p := StateOf(u);
            && (u.sunatStatus == "accepted" <==> p.SunatAccepted?)
            && (u.sunatStatus == "observed" <==> p.Observed?)
            && (u.sunatStatus == "rejected" <==> p.SunatRejected?)
            && (u.sunatStatus == "error" <==> p.Failed? || p.DeadLetter?)
            && (u.sunatStatus == "pending" <==> p !in ENDS)
            && (u.jobStatus == "sent" <==> p.SunatAccepted? || p.Observed?)
            && (u.jobStatus == "failed" <==> p.SunatRejected? || p.Failed?)
            && (u.jobStatus == "dead_letter" <==> p.DeadLetter?)
            && (u.jobStatus == "retrying" <==> p.Retrying?)
            && (u.jobStatus == "processing" <==>
                p.Processing? || p.SendingToFacturador? || p.FacturadorReceived? || p.SendingToSunat?)
  {
    UpdateKeepsColumnsDerived(inv, pipeline, msg);
    hide Updated, StateOf;
    var p := StateOf(Updated(inv, pipeline, msg));
    SunatColumn(p);
    JobColumn(p);
    hide LegacySunatStatus, JobStatusFromPipeline;
  }

  lemma GrantedText(inv: Invoice, pipeline: string)
    ensures var p := Granted(StateOf(inv), NormalizePipeline(pipeline));
            Name(p) == "SUNAT_ACCEPTED" || Name(p) == "OBSERVED" <==> p.SunatAccepted? || p.Observed?
  {
    hide NormalizePipeline, Granted, StateOf, Name;
    ParsedGranted(inv, pipeline);
    KnownNameParses(SunatAccepted);
    KnownNameParses(Observed);
    SuccessNames();
  }

  lemma SuccessNames()
    ensures Name(SunatAccepted) == "SUNAT_ACCEPTED" && Name(Observed) == "OBSERVED"
  {}

  /** An update writes its message, and to the error column when it fails; success clears that; all else stays. */
  lemma UpdateWritesNothingElse(inv: Invoice, pipeline: string, msg: string)
    ensures var u := Updated(inv, pipeline, msg); var p := StateOf(u);
            u == inv.(pipelineStatus := u.pipelineStatus, sunatStatus := u.sunatStatus, jobStatus := u.jobStatus,
                      sunatMessage := if msg != "" then msg else inv.sunatMessage,
                      jobLastError :=
                        if p.SunatAccepted? || p.Observed? then ""
                        else if msg != "" && (p.Failed? || p.SunatRejected? || p.DeadLetter?) then msg
                        else inv.jobLastError)
  {
    UpdateKeepsColumnsDerived(inv, pipeline, msg);
    GrantedText(inv, pipeline);
    hide NormalizePipeline, Granted, Name, LegacySunatStatus, JobStatusFromPipeline, StateOf;
  }

  /** Where the repair leads: UNKNOWN without evidence, and with it the success state that the columns remember. */
  lemma RepairLeadsTo(inv: Invoice)
    ensures ReconcileInconsistent(inv).Consistent? ==> Repaired(inv) == inv
    ensures ReconcileInconsistent(inv).Inconsistent? ==>
              StateOf(Repaired(inv)) == if !HasAcceptanceEvidence(inv) then Unknown
                                        else if inv.sunatStatus == "observed" then Observed
                                        else SunatAccepted
  {
    hide StateOf, Updated, HasAcceptanceEvidence, ReconcileInconsistent, Name;
    var f := ReconcileInconsistent(inv);
    if f.Inconsistent? {
      RepairedIsUpdated(inv);
      hide Repaired;
      FindingsMatchEvidence(inv);
      if HasAcceptanceEvidence(inv) {
        FixRemembers(inv);
      }
      FixIsGranted(inv, f.fix);
    }
  }

  lemma FixRemembers(inv: Invoice)
    requires ReconcileInconsistent(inv).Inconsistent? && HasAcceptanceEvidence(inv)
    ensures ReconcileInconsistent(inv).fix == if inv.sunatStatus == "observed" then Observed else SunatAccepted
  {
    hide HasAcceptanceEvidence, StateOf;
  }

  // ---- the provider's answer ----

  /** The answer carries an error that ends the attempt: a text, or any error without success. */
  predicate Breaks(resp: Response) {
    && resp.inner.Some? && resp.inner.value.error.Some?
    && (resp.inner.value.error.value != "" || !resp.inner.value.success)
  }

  /** The verdict on every answer, by what it contains: each state, both ways. */
  lemma VerdictFollowsAnswer(resp: Response, xmlURL: string, cdrURL: string)
    ensures var v := EvaluateLycet(Some(resp), xmlURL, cdrURL);
            var success := resp.inner.Some? && resp.inner.value.success;
            var cdr := if resp.inner.Some? then resp.inner.value.cdr else None;
            var code := if cdr.Some? then TrimSpace(cdr.value.code) else "";
            var accepted := cdr.Some? && cdr.value.accepted;
            var signed := TrimSpace(resp.xml) != "" || TrimSpace(xmlURL) != "";
            var stored := (resp.inner.Some? && TrimSpace(resp.inner.value.cdrZip) != "") || TrimSpace(cdrURL) != "";
            var proof := code == "0" && accepted && signed && stored && success;
            && (v == Failed <==> Breaks(resp) || (!success && !signed && (code == "" || code == "0")))
            && (v == SunatRejected <==>
                !Breaks(resp) && ((code != "" && code != "0") || (success && stored && !accepted && code == "")))
            && (v == FacturadorReceived <==> !Breaks(resp) && success && signed && !stored && code == "")
            && (v == Observed <==> !Breaks(resp) && proof && cdr.value.notes != [])
            && (v == SunatAccepted <==> !Breaks(resp) && proof && cdr.value.notes == [])
            && (v in {Failed, SunatRejected, FacturadorReceived, Observed, SunatAccepted, SendingToSunat})
    ensures EvaluateLycet(None, xmlURL, cdrURL) == Failed
  {
    hide TrimSpace;
  }
}
