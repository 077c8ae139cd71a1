/**
 The fiscal state machine of an invoice: transitions of the pipeline column, the columns
 derived from it, the evidence that SUNAT accepted, and the repair of inconsistent rows.
 */
module BillingState {
  import opened Wrappers
  import opened Text

  /** The pipeline states; `Other` is any other cleaned-up text. */
  datatype Pipeline =
    | Draft | PendingFiscal | PendingQueue | Processing | SendingToFacturador | FacturadorReceived
    | SendingToSunat | SunatAccepted | SunatRejected | Observed | Failed | Retrying | DeadLetter | Unknown
    | Other(text: string)

  function Name(p: Pipeline): string {
    match p
    case Draft => "DRAFT"
    case PendingFiscal => "PENDING_FISCAL"
    case PendingQueue => "PENDING_QUEUE"
    case Processing => "PROCESSING"
    case SendingToFacturador => "SENDING_TO_FACTURADOR"
    case FacturadorReceived => "FACTURADOR_RECEIVED"
    case SendingToSunat => "SENDING_TO_SUNAT"
    case SunatAccepted => "SUNAT_ACCEPTED"
    case SunatRejected => "SUNAT_REJECTED"
    case Observed => "OBSERVED"
    case Failed => "FAILED"
    case Retrying => "RETRYING"
    case DeadLetter => "DEAD_LETTER"
    case Unknown => "UNKNOWN"
    case Other(text) => text
  }

  /** Reads a text that is already upper case and trimmed. */
  function Parse(s: string): Pipeline {
    if s == "" || s == "DRAFT" then Draft
    else if s == "PENDING" || s == "PENDING_QUEUE" then PendingQueue
    else if s == "PENDING_FISCAL" then PendingFiscal
    else if s == "PROCESSING" then Processing
    else if s == "RETRYING" then Retrying
    else if s == "SENT" || s == "SENDING_TO_FACTURADOR" then SendingToFacturador
    else if s == "FACTURADOR_RECEIVED" then FacturadorReceived
    else if s == "SENDING_TO_SUNAT" then SendingToSunat
    else if s == "ACCEPTED" || s == "SUNAT_ACCEPTED" then SunatAccepted
    else if s == "REJECTED" || s == "SUNAT_REJECTED" then SunatRejected
    else if s == "OBSERVED" then Observed
    else if s == "FAILED" || s == "ERROR" then Failed
    else if s == "DEAD_LETTER" then DeadLetter
    else if s == "UNKNOWN" then Unknown
    else Other(s)
  }

  function NormalizePipeline(s: string): Pipeline {
    Parse(ToUpper(TrimSpace(s)))
  }

  predicate Waiting(p: Pipeline) {
    p.Draft? || p.PendingFiscal? || p.PendingQueue? || p.Processing? || p.SendingToFacturador? || p.Retrying?
  }

  lemma ParseWaitingName(p: Pipeline)
    requires Waiting(p)
    ensures Parse(Name(p)) == p
  {}

  lemma ParseStoppedName(p: Pipeline)
    requires p.Observed? || p.Failed? || p.DeadLetter? || p.Unknown?
    ensures Parse(Name(p)) == p
  {}

  lemma ParseSunatName(p: Pipeline)
    requires p.FacturadorReceived? || p.SendingToSunat? || p.SunatAccepted? || p.SunatRejected?
    ensures Parse(Name(p)) == p
  {}

  lemma ParseName(p: Pipeline)
    requires !p.Other?
    ensures Parse(Name(p)) == p
  {
    hide Parse, Name;
    if Waiting(p) {
      ParseWaitingName(p);
    } else if p.Observed? || p.Failed? || p.DeadLetter? || p.Unknown? {
      ParseStoppedName(p);
    } else {
      ParseSunatName(p);
    }
  }

  lemma NamesAreTrimmed(p: Pipeline)
    requires !p.Other?
    ensures Trimmed(Name(p))
  {}

  lemma NamesAreUpright(p: Pipeline)
    requires !p.Other?
    ensures Upright(Name(p))
  {
    NamesAreTrimmed(p);
    hide Trimmed;
  }

  lemma ParsedOther(s: string)
    ensures Parse(s).Other? ==> Name(Parse(s)) == s
  {}

  /** Normalizing what was normalized and written back gives the same state. */
  lemma NormalizeIsStable(s: string)
    ensures NormalizePipeline(Name(NormalizePipeline(s))) == NormalizePipeline(s)
  {
    hide Parse, Name, TrimSpace, ToUpper, Upright;
    var p := NormalizePipeline(s);
    UpperTrimTwice(s);
    ParsedOther(ToUpper(TrimSpace(s)));
    if !p.Other? {
      ParseName(p);
      NamesAreUpright(p);
      UprightIsClean(Name(p));
    }
  }

  // ---- transitions ----

  predicate Terminal(p: Pipeline) {
    p.SunatAccepted? || p.SunatRejected? || p.Observed? || p.Failed? || p.DeadLetter?
  }

  function StageRank(p: Pipeline): Option<int> {
    match p
    case Draft => Some(0)
    case PendingFiscal => Some(5)
    case PendingQueue => Some(10)
    case Processing => Some(20)
    case Retrying => Some(25)
    case SendingToFacturador => Some(30)
    case FacturadorReceived => Some(40)
    case SendingToSunat => Some(50)
    case Observed => Some(60)
    case SunatAccepted => Some(70)
    case SunatRejected => Some(70)
    case Failed => Some(80)
    case DeadLetter => Some(90)
    case Unknown => Some(5)
    case Other(_) => None
  }

  predicate CanTransition(from: Pipeline, to: Pipeline) {
    if from == to then true
    else if Terminal(to) then true
    else if Terminal(from) then to.PendingQueue? || to.Processing? || to.Retrying?
    else StageRank(from).Some? && StageRank(to).Some? && StageRank(to).value >= StageRank(from).value
  }

  function LegacySunatStatus(p: Pipeline): string {
    match p
    case SunatAccepted => "accepted"
    case Observed => "observed"
    case SunatRejected => "rejected"
    case Failed => "error"
    case DeadLetter => "error"
    case _ => "pending"
  }

  function JobStatusFromPipeline(p: Pipeline): string {
    match p
    case SunatAccepted => "sent"
    case Observed => "sent"
    case SunatRejected => "failed"
    case Failed => "failed"
    case DeadLetter => "dead_letter"
    case Retrying => "retrying"
    case Processing => "processing"
    case SendingToFacturador => "processing"
    case FacturadorReceived => "processing"
    case SendingToSunat => "processing"
    case _ => "pending"
  }

  /** The columns of tenant_invoices that the state machine reads or writes. */
  datatype Invoice = Invoice(
    id: nat,
    saleID: nat,
    pipelineStatus: string,
    sunatStatus: string,
    sunatMessage: string,
    cdrCode: string,
    cdrNotes: string,
    hash: string,
    xmlURL: string,
    cdrURL: string,
    jobStatus: string,
    jobLastError: string)

  datatype Patch = Patch(
    pipelineStatus: string,
    sunatStatus: string,
    sunatMessage: string,
    cdrCode: string,
    cdrNotes: string,
    hash: string,
    xmlURL: string,
    cdrURL: string,
    jobStatus: string,
    jobLastError: string)

  function StateOf(inv: Invoice): Pipeline {
    NormalizePipeline(inv.pipelineStatus)
  }

  /** The state a patch asks for: a refused transition becomes UNKNOWN. */
  function Granted(from: Pipeline, to: Pipeline): Pipeline {
    if CanTransition(from, to) then to else Unknown
  }

  function BuildPatch(pipeline: string, inv: Invoice, msg: string): Patch {
    var p := Granted(StateOf(inv), NormalizePipeline(pipeline));
    Patch(Name(p), LegacySunatStatus(p), msg, inv.cdrCode, inv.cdrNotes, inv.hash, inv.xmlURL, inv.cdrURL,
          JobStatusFromPipeline(p),
          if p.Failed? || p.SunatRejected? || p.DeadLetter? then msg else "")
  }

  function Pick(old': string, new': string): string {
    if new' != "" then new' else old'
  }

  predicate ClearsError(patch: Patch) {
    patch.pipelineStatus == "SUNAT_ACCEPTED" || patch.pipelineStatus == "OBSERVED"
  }

  function ApplyToInvoice(inv: Invoice, patch: Patch): Invoice {
    inv.(
    pipelineStatus := patch.pipelineStatus,
    sunatStatus := patch.sunatStatus,
    sunatMessage := Pick(inv.sunatMessage, patch.sunatMessage),
    cdrCode := Pick(inv.cdrCode, patch.cdrCode),
    cdrNotes := Pick(inv.cdrNotes, patch.cdrNotes),
    hash := Pick(inv.hash, patch.hash),
    xmlURL := Pick(inv.xmlURL, patch.xmlURL),
    cdrURL := Pick(inv.cdrURL, patch.cdrURL),
    jobStatus := Pick(inv.jobStatus, patch.jobStatus),
    jobLastError :=
      if patch.jobLastError != "" then patch.jobLastError
      else if ClearsError(patch) then ""
      else inv.jobLastError)
  }

  /** The invoice record, updated in place. */
  class InvoiceRecord {
    var v: Invoice

    constructor (inv: Invoice)
      ensures v == inv
    {
      v := inv;
    }

    method Apply(patch: Patch)
      modifies this
      ensures v == ApplyToInvoice(old(v), patch)
    {
      hide ClearsError;
      v := v.(pipelineStatus := patch.pipelineStatus, sunatStatus := patch.sunatStatus);
      if patch.sunatMessage != "" {
        v := v.(sunatMessage := patch.sunatMessage);
      }
      if patch.cdrCode != "" {
        v := v.(cdrCode := patch.cdrCode);
      }
      if patch.cdrNotes != "" {
        v := v.(cdrNotes := patch.cdrNotes);
      }
      if patch.hash != "" {
        v := v.(hash := patch.hash);
      }
      if patch.xmlURL != "" {
        v := v.(xmlURL := patch.xmlURL);
      }
      if patch.cdrURL != "" {
        v := v.(cdrURL := patch.cdrURL);
      }
      if patch.jobStatus != "" {
        v := v.(jobStatus := patch.jobStatus);
      }
      if patch.jobLastError != "" {
        v := v.(jobLastError := patch.jobLastError);
      } else if ClearsError(patch) {
        v := v.(jobLastError := "");
      }
    }
  }

  /** Column by column: a text in the patch replaces the old one, none keeps it, and success clears the last error. */
  lemma PatchRule(inv: Invoice, patch: Patch)
    ensures var v := ApplyToInvoice(inv, patch);
            && v.id == inv.id && v.saleID == inv.saleID
            && v.pipelineStatus == patch.pipelineStatus && v.sunatStatus == patch.sunatStatus
            && v.sunatMessage == (if patch.sunatMessage == "" then inv.sunatMessage else patch.sunatMessage)
            && v.cdrCode == (if patch.cdrCode == "" then inv.cdrCode else patch.cdrCode)
            && v.cdrNotes == (if patch.cdrNotes == "" then inv.cdrNotes else patch.cdrNotes)
            && v.hash == (if patch.hash == "" then inv.hash else patch.hash)
            && v.xmlURL == (if patch.xmlURL == "" then inv.xmlURL else patch.xmlURL)
            && v.cdrURL == (if patch.cdrURL == "" then inv.cdrURL else patch.cdrURL)
            && v.jobStatus == (if patch.jobStatus == "" then inv.jobStatus else patch.jobStatus)
            && v.jobLastError == (if patch.jobLastError != "" then patch.jobLastError
                                  else if patch.pipelineStatus in {"SUNAT_ACCEPTED", "OBSERVED"} then ""
                                  else inv.jobLastError)
  {}

  // ---- evidence ----

  datatype Evidence = Evidence(
    hasSignedXML: bool, hasCDR: bool, hasHash: bool, cdrCode: string, sunatSuccess: bool, cdrAccepted: bool)

  predicate IsAcceptanceEvidence(ev: Evidence) {
    ev.cdrCode == "0" && ev.cdrAccepted && ev.hasSignedXML && ev.hasCDR && ev.sunatSuccess
  }

  function EvidenceOf(inv: Invoice): Evidence {
    Evidence(
      !Blank(inv.xmlURL) || !Blank(inv.hash),
      !Blank(inv.cdrURL) && inv.cdrURL != "(CDR recibido)",
      !Blank(inv.hash),
      TrimSpace(inv.cdrCode),
      TrimSpace(inv.sunatStatus) == "accepted" || inv.cdrCode == "0",
      inv.cdrCode == "0")
  }

  predicate HasAcceptanceEvidence(inv: Invoice) {
    IsAcceptanceEvidence(EvidenceOf(inv))
  }

  /** Evidence does not depend on any status column: only on the CDR code and the stored files. */
  lemma EvidenceIsFiles(inv: Invoice)
    ensures HasAcceptanceEvidence(inv) <==>
            && inv.cdrCode == "0"
            && (!Blank(inv.xmlURL) || !Blank(inv.hash))
            && !Blank(inv.cdrURL) && inv.cdrURL != "(CDR recibido)"
  {
    if inv.cdrCode == "0" {
      TrimKeepsTrimmed("0");
    }
  }

  /** The provider's answer, as far as it is evaluated. */
  datatype Cdr = Cdr(code: string, accepted: bool, notes: seq<string>)
  datatype Inner = Inner(success: bool, cdrZip: string, error: Option<string>, cdr: Option<Cdr>)
  datatype Response = Response(xml: string, hash: string, inner: Option<Inner>)

  function EvidenceIn(resp: Response, xmlURL: string, cdrURL: string): Evidence {
    var inner := resp.inner;
    var cdr := if inner.Some? then inner.value.cdr else None;
    Evidence(
      !Blank(resp.xml) || !Blank(xmlURL),
      (inner.Some? && !Blank(inner.value.cdrZip)) || !Blank(cdrURL),
      !Blank(resp.hash),
      if cdr.Some? then TrimSpace(cdr.value.code) else "",
      inner.Some? && inner.value.success,
      cdr.Some? && cdr.value.accepted)
  }

  function ConnectionError(resp: Response): string {
    if resp.inner.Some? && resp.inner.value.error.Some? then resp.inner.value.error.value else ""
  }

  function EvaluateLycet(answer: Option<Response>, xmlURL: string, cdrURL: string): Pipeline {
    if answer.None? then Failed
    else
      var resp := answer.value;
      var ev := EvidenceIn(resp, xmlURL, cdrURL);
      if ConnectionError(resp) != "" then Failed
      else if !ev.sunatSuccess && resp.inner.Some? && resp.inner.value.error.Some? then Failed
      else if ev.sunatSuccess && ev.cdrCode == "" && !ev.hasCDR then
        if ev.hasSignedXML then FacturadorReceived else SendingToSunat
      else if IsAcceptanceEvidence(ev) then
        if resp.inner.Some? && resp.inner.value.cdr.Some? && |resp.inner.value.cdr.value.notes| > 0 && ev.cdrCode == "0"
        then Observed else SunatAccepted
      else if ev.cdrCode != "" && ev.cdrCode != "0" then SunatRejected
      else if ev.sunatSuccess && !ev.cdrAccepted && ev.cdrCode != "0" then SunatRejected
      else if ev.hasSignedXML || ev.sunatSuccess then SendingToSunat
      else Failed
  }

  /** The golden rule: success exactly on CDR code 0, accepted, signed XML, stored CDR, SUNAT success, no error text. */
  lemma AcceptedExactlyOnEvidence(answer: Option<Response>, xmlURL: string, cdrURL: string)
    ensures EvaluateLycet(answer, xmlURL, cdrURL).SunatAccepted? || EvaluateLycet(answer, xmlURL, cdrURL).Observed?
       <==> answer.Some? && ConnectionError(answer.value) == ""
            && IsAcceptanceEvidence(EvidenceIn(answer.value, xmlURL, cdrURL))
  {
    hide Blank, TrimSpace, EvidenceIn, ConnectionError;
  }

  // ---- repair ----

  datatype Finding = Consistent | Inconsistent(fix: Pipeline, reason: string)

  function ReconcileInconsistent(inv: Invoice): Finding {
    var p := StateOf(inv);
    var claimsAccepted := p.SunatAccepted? || inv.sunatStatus == "accepted" || inv.jobStatus == "sent";
    var hasEvidence := HasAcceptanceEvidence(inv);
    if claimsAccepted && !hasEvidence then
      Inconsistent(Unknown, "marcado aceptado/enviado sin CDR+XML evidencia")
    else if inv.jobStatus == "sent" && !hasEvidence then
      Inconsistent(Failed, "job_status=sent sin evidencia SUNAT")
    else if hasEvidence && !p.SunatAccepted? && !p.Observed? then
      Inconsistent(if inv.sunatStatus == "observed" then Observed else SunatAccepted, "evidencia ok, pipeline desalineado")
    else Consistent
  }

  /** What the repair tool does with a finding. */
  function Repaired(inv: Invoice): Invoice {
    var f := ReconcileInconsistent(inv);
    if f.Consistent? then inv else ApplyToInvoice(inv, BuildPatch(Name(f.fix), inv, f.reason))
  }

  // ---- one update ----

  function Updated(inv: Invoice, pipeline: string, msg: string): Invoice {
    ApplyToInvoice(inv, BuildPatch(pipeline, inv, msg))
  }

  lemma ParsedGranted(inv: Invoice, pipeline: string)
    ensures var p := Granted(StateOf(inv), NormalizePipeline(pipeline)); NormalizePipeline(Name(p)) == p
  {
    NormalizeIsStable(pipeline);
    KnownNameParses(Unknown);
  }

  lemma KnownNameParses(p: Pipeline)
    requires !p.Other?
    ensures NormalizePipeline(Name(p)) == p
  {
    hide Parse, Name, TrimSpace, ToUpper, Upright;
    ParseName(p);
    NamesAreUpright(p);
    UprightIsClean(Name(p));
  }

  /** After any update: the state is the granted one and the two status columns are its functions. */
  lemma UpdateKeepsColumnsDerived(inv: Invoice, pipeline: string, msg: string)
    ensures var u := Updated(inv, pipeline, msg);
            && StateOf(u) == Granted(StateOf(inv), NormalizePipeline(pipeline))
            && u.sunatStatus == LegacySunatStatus(StateOf(u))
            && u.jobStatus == JobStatusFromPipeline(StateOf(u))
  {
    hide Parse, TrimSpace, ToUpper, NormalizePipeline, Name, CanTransition;
    ParsedGranted(inv, pipeline);
    var p := Granted(StateOf(inv), NormalizePipeline(pipeline));
    assert JobStatusFromPipeline(p) != "";
  }

  /** No update gains or loses acceptance evidence. */
  lemma UpdateKeepsEvidence(inv: Invoice, pipeline: string, msg: string)
    ensures HasAcceptanceEvidence(Updated(inv, pipeline, msg)) <==> HasAcceptanceEvidence(inv)
  {
    EvidenceIsFiles(inv);
    EvidenceIsFiles(Updated(inv, pipeline, msg));
    hide NormalizePipeline, Name, Granted, LegacySunatStatus, JobStatusFromPipeline, Blank, HasAcceptanceEvidence;
  }

  /** A terminal state is left only for the queue, processing, retrying or UNKNOWN; else stages do not go back. */
  lemma UpdateMovesForward(inv: Invoice, pipeline: string, msg: string)
    ensures var p, q := StateOf(inv), StateOf(Updated(inv, pipeline, msg));
            if Terminal(p) then Terminal(q) || q.PendingQueue? || q.Processing? || q.Retrying? || q.Unknown?
            else p == q || Terminal(q) || q.Unknown?
                 || (StageRank(p).Some? && StageRank(q).Some? && StageRank(p).value <= StageRank(q).value)
  {
    UpdateKeepsColumnsDerived(inv, pipeline, msg);
    hide NormalizePipeline, Updated;
  }

  /** But a refused request for any stage other than DRAFT is granted the second time, by way of UNKNOWN. */
  lemma AskingTwiceIsEnough(inv: Invoice, pipeline: string, msg: string)
    requires !NormalizePipeline(pipeline).Draft? && !NormalizePipeline(pipeline).Other?
    ensures StateOf(Updated(Updated(inv, pipeline, msg), pipeline, msg)) == NormalizePipeline(pipeline)
  {
    UpdateKeepsColumnsDerived(inv, pipeline, msg);
    UpdateKeepsColumnsDerived(Updated(inv, pipeline, msg), pipeline, msg);
    hide NormalizePipeline, Updated;
  }

  // ---- main results ----

  datatype Request = Request(pipeline: string, msg: string)

  function AllUpdated(inv: Invoice, run: seq<Request>): Invoice {
    if run == [] then inv
    else Updated(AllUpdated(inv, run[..|run| - 1]), run[|run| - 1].pipeline, run[|run| - 1].msg)
  }

  /** Along any run of updates: evidence stays what it was, and the derived columns follow the pipeline. */
  lemma {:induction false} RunsKeepEvidenceAndColumns(inv: Invoice, run: seq<Request>)
    ensures HasAcceptanceEvidence(AllUpdated(inv, run)) <==> HasAcceptanceEvidence(inv)
    ensures run != [] ==>
              var u := AllUpdated(inv, run);
              && u.sunatStatus == LegacySunatStatus(StateOf(u))
              && u.jobStatus == JobStatusFromPipeline(StateOf(u))
  {
    if run != [] {
      var n := |run| - 1;
      RunsKeepEvidenceAndColumns(inv, run[..n]);
      UpdateKeepsEvidence(AllUpdated(inv, run[..n]), run[n].pipeline, run[n].msg);
      UpdateKeepsColumnsDerived(AllUpdated(inv, run[..n]), run[n].pipeline, run[n].msg);
      hide HasAcceptanceEvidence, StateOf, LegacySunatStatus, JobStatusFromPipeline, Updated;
    }
  }

  /** What the detector accepts: success is claimed only with evidence, and evidence has a success state. */
  lemma ConsistentMeans(inv: Invoice)
    ensures ReconcileInconsistent(inv).Consistent? <==>
            if HasAcceptanceEvidence(inv) then StateOf(inv).SunatAccepted? || StateOf(inv).Observed?
            else !StateOf(inv).SunatAccepted? && inv.sunatStatus != "accepted" && inv.jobStatus != "sent"
    ensures ReconcileInconsistent(inv) != Inconsistent(Failed, "job_status=sent sin evidencia SUNAT")
  {
    hide HasAcceptanceEvidence, StateOf;
  }

  lemma FixIsGranted(inv: Invoice, p: Pipeline)
    requires p.Unknown? || p.SunatAccepted? || p.Observed?
    ensures forall msg :: StateOf(Updated(inv, Name(p), msg)) == p
  {
    forall msg
      ensures StateOf(Updated(inv, Name(p), msg)) == p
    {
      UpdateKeepsColumnsDerived(inv, Name(p), msg);
      KnownNameParses(p);
      hide NormalizePipeline, Name, Updated;
    }
  }

  /** The detector's findings: UNKNOWN without evidence, a success state with it. */
  lemma FindingsMatchEvidence(inv: Invoice)
    ensures var f := ReconcileInconsistent(inv);
            f.Inconsistent? ==>
              if HasAcceptanceEvidence(inv) then f.fix.SunatAccepted? || f.fix.Observed? else f.fix.Unknown?
  {
    hide HasAcceptanceEvidence, StateOf;
  }

  lemma SettledColumns(p: Pipeline)
    requires p.Unknown?
    ensures LegacySunatStatus(p) != "accepted" && JobStatusFromPipeline(p) != "sent"
  {}

  /** Repair reaches a fixpoint in one step, for every invoice. */
  lemma RepairReachesFixpoint(inv: Invoice)
    ensures ReconcileInconsistent(Repaired(inv)).Consistent?
    ensures HasAcceptanceEvidence(Repaired(inv)) <==> HasAcceptanceEvidence(inv)
  {
    hide Name, HasAcceptanceEvidence, StateOf, Updated, ReconcileInconsistent, LegacySunatStatus, JobStatusFromPipeline;
    var f := ReconcileInconsistent(inv);
    FindingsMatchEvidence(inv);
    if f.Inconsistent? {
      RepairedIsUpdated(inv);
      hide Repaired;
      var u := Updated(inv, Name(f.fix), f.reason);
      FixIsGranted(inv, f.fix);
      UpdateKeepsEvidence(inv, Name(f.fix), f.reason);
      UpdateKeepsColumnsDerived(inv, Name(f.fix), f.reason);
      ConsistentMeans(u);
      SettledColumns(Unknown);
    }
  }

  lemma RepairedIsUpdated(inv: Invoice)
    requires ReconcileInconsistent(inv).Inconsistent?
    ensures var f := ReconcileInconsistent(inv); Repaired(inv) == Updated(inv, Name(f.fix), f.reason)
  {
    hide Name, ReconcileInconsistent, BuildPatch, ApplyToInvoice;
  }
}
