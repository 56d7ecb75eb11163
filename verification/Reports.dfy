/**
 The report aggregate: one current revision, its confirmation and freeze marks, and the
 forward-only signing state machine draft -> pending signature -> signed -> completed.
 */
module Reports {
  import opened Wrappers
  import opened WorkflowRuns

  datatype Status = Draft | PendingSignature | Signed | CompletedReport

  datatype Source = Human | Ai

  datatype ReportError = NotDraft | RevisionFrozen | NotConfirmed | NotPendingSignature | NotFrozen | NotSigned

  datatype Material = Material(desc: string, qty: string)

  /** The repository loads a revision's materials without an order, so they form a multiset. */
  datatype Content = Content(work: string, amountCents: Option<int>, currency: string, materials: multiset<Material>)

  datatype Signature = Signature(id: nat, signerName: string, signedAt: Time, mediaAssetId: AssetId)

  datatype ReportRow = ReportRow(
    status: Status,
    content: Content,
    source: Source,
    aiConfidence: Option<string>,
    comparison: Option<string>,
    confirmedAt: Option<Time>,
    amountConfirmedAt: Option<Time>,
    frozenAt: Option<Time>,
    signatures: seq<Signature>,
    signedAt: Option<Time>,
    completedAt: Option<Time>)

  function NewDraft(currency: string): ReportRow {
    ReportRow(Draft, Content("", None, currency, multiset{}), Human, None, None, None, None, None, [], None, None)
  }

  /** The check every edit starts with. */
  function Editable(row: ReportRow): Outcome<ReportError> {
    if row.status != Draft then Fail(NotDraft)
    else if row.frozenAt.Some? then Fail(RevisionFrozen)
    else Pass
  }

  function ApplyAi(row: ReportRow, work: string, materials: multiset<Material>, amountCents: Option<int>,
                   confidence: string, comparison: Option<string>): Result<ReportRow, ReportError>
  {
    if Editable(row).Fail? then Failure(Editable(row).error)
    else Success(row.(source := Ai, content := Content(work, amountCents, row.content.currency, materials),
                 aiConfidence := Some(confidence), comparison := comparison))
  }

  function UpdateRevision(row: ReportRow, work: string, amountCents: Option<int>, currency: Option<string>,
                          materials: Option<multiset<Material>>): Result<ReportRow, ReportError>
  {
    if Editable(row).Fail? then Failure(Editable(row).error)
    else
      var currency' := if currency.Some? then currency.value else row.content.currency;
      var materials' := if materials.Some? then materials.value else row.content.materials;
      Success(row.(source := Human, content := Content(work, amountCents, currency', materials'),
              confirmedAt := None, amountConfirmedAt := None))
  }

  function Confirm(row: ReportRow, now: Time): Result<ReportRow, ReportError> {
    if Editable(row).Fail? then Failure(Editable(row).error)
    else Success(row.(confirmedAt := Some(now), amountConfirmedAt := Some(now)))
  }

  function MarkReady(row: ReportRow, now: Time): Result<ReportRow, ReportError> {
    if Editable(row).Fail? then Failure(Editable(row).error)
    else if row.confirmedAt.None? || row.amountConfirmedAt.None? then Failure(NotConfirmed)
    else Success(row.(frozenAt := Some(now), status := PendingSignature))
  }

  function Sign(row: ReportRow, signature: Signature): Result<ReportRow, ReportError> {
    if row.status != PendingSignature then Failure(NotPendingSignature)
    else if row.frozenAt.None? then Failure(NotFrozen)
    else Success(row.(signatures := row.signatures + [signature], status := Signed,
                 signedAt := Some(signature.signedAt)))
  }

  function Complete(row: ReportRow, now: Time): Result<ReportRow, ReportError> {
    if row.status != Signed then Failure(NotSigned)
    else Success(row.(status := CompletedReport, completedAt := Some(now)))
  }

  /** Each refusal names its cause: a report that left draft, a frozen revision, a missing mark or step. */
  lemma RefusalsNameTheirCause(row: ReportRow, now: Time, signature: Signature)
    ensures Editable(row) == Pass <==> row.status == Draft && row.frozenAt.None?
    ensures Editable(row) == Fail(NotDraft) <==> row.status != Draft
    ensures Editable(row) == Fail(RevisionFrozen) <==> row.status == Draft && row.frozenAt.Some?
    ensures MarkReady(row, now) == Failure(NotConfirmed) <==>
            row.status == Draft && row.frozenAt.None? && (row.confirmedAt.None? || row.amountConfirmedAt.None?)
    ensures Sign(row, signature) == Failure(NotPendingSignature) <==> row.status != PendingSignature
    ensures Sign(row, signature) == Failure(NotFrozen) <==> row.status == PendingSignature && row.frozenAt.None?
    ensures Complete(row, now) == Failure(NotSigned) <==> row.status != Signed
  {
  }

  class Report {
    var status: Status
    var content: Content
    var source: Source
    var aiConfidence: Option<string>
    var comparison: Option<string>
    var confirmedAt: Option<Time>
    var amountConfirmedAt: Option<Time>
    var frozenAt: Option<Time>
    var signatures: seq<Signature>
    var signedAt: Option<Time>
    var completedAt: Option<Time>

    function Row(): ReportRow
      reads this
    {
      ReportRow(status, content, source, aiConfidence, comparison, confirmedAt, amountConfirmedAt, frozenAt,
                signatures, signedAt, completedAt)
    }

    constructor CreateDraft(currency: string)
      ensures Row() == NewDraft(currency)
    {
      status, content, source := Draft, Content("", None, currency, multiset{}), Human;
      aiConfidence, comparison, confirmedAt, amountConfirmedAt, frozenAt := None, None, None, None, None;
      signatures, signedAt, completedAt := [], None, None;
    }

    constructor Load(row: ReportRow)
      ensures Row() == row
    {
      status, content, source := row.status, row.content, row.source;
      aiConfidence, comparison := row.aiConfidence, row.comparison;
      confirmedAt, amountConfirmedAt, frozenAt := row.confirmedAt, row.amountConfirmedAt, row.frozenAt;
      signatures, signedAt, completedAt := row.signatures, row.signedAt, row.completedAt;
    }

    method EnsureEditable() returns (r: Outcome<ReportError>)
      ensures r == Editable(Row())
    {
      if status != Draft {
        return Fail(NotDraft);
      }
      if frozenAt.Some? {
        return Fail(RevisionFrozen);
      }
      return Pass;
    }

    method ApplyAiUnifiedResult(work: string, materials: multiset<Material>, amountCents: Option<int>,
                                confidence: string, visualComparison: Option<string>)
      returns (r: Outcome<ReportError>)
      modifies this
      ensures ApplyAi(old(Row()), work, materials, amountCents, confidence, visualComparison)
           == if r.Pass? then Success(Row()) else Failure(r.error)
      ensures r.Fail? ==> Row() == old(Row())
    {
      r := EnsureEditable();
      if r.Pass? {
        source := Ai;
        content := content.(work := work, materials := materials, amountCents := amountCents);
        aiConfidence := Some(confidence);
        comparison := visualComparison;
      }
    }

    method Update(work: string, amountCents: Option<int>, currency: Option<string>,
                  materials: Option<multiset<Material>>)
      returns (r: Outcome<ReportError>)
      modifies this
      ensures UpdateRevision(old(Row()), work, amountCents, currency, materials)
           == if r.Pass? then Success(Row()) else Failure(r.error)
      ensures r.Fail? ==> Row() == old(Row())
    {
      r := EnsureEditable();
      if r.Pass? {
        source := Human;
        content := content.(work := work, amountCents := amountCents);
        if currency.Some? {
          content := content.(currency := currency.value);
        }
        if materials.Some? {
          content := content.(materials := materials.value);
        }
        confirmedAt := None;
        amountConfirmedAt := None;
      }
    }

    method ConfirmRevision(now: Time) returns (r: Outcome<ReportError>)
      modifies this
      ensures Confirm(old(Row()), now) == if r.Pass? then Success(Row()) else Failure(r.error)
      ensures r.Fail? ==> Row() == old(Row())
    {
      r := EnsureEditable();
      if r.Pass? {
        confirmedAt := Some(now);
        amountConfirmedAt := Some(now);
      }
    }

    method FreezeRevision(now: Time) returns (r: Outcome<ReportError>)
      modifies this`frozenAt
      ensures r == Editable(old(Row()))
      ensures Row() == if r.Pass? then old(Row()).(frozenAt := Some(now)) else old(Row())
    {
      r := EnsureEditable();
      if r.Pass? {
        frozenAt := Some(now);
      }
    }

    method MarkReadyForSignature(now: Time) returns (r: Outcome<ReportError>)
      modifies this
      ensures MarkReady(old(Row()), now) == if r.Pass? then Success(Row()) else Failure(r.error)
      ensures r.Fail? ==> Row() == old(Row())
    {
      r := EnsureEditable();
      if r.Pass? {
        if confirmedAt.None? || amountConfirmedAt.None? {
          return Fail(NotConfirmed);
        }
        r := FreezeRevision(now);
        status := PendingSignature;
      }
    }

    method SignWith(signature: Signature) returns (r: Outcome<ReportError>)
      modifies this
      ensures Sign(old(Row()), signature) == if r.Pass? then Success(Row()) else Failure(r.error)
      ensures r.Fail? ==> Row() == old(Row())
    {
      if status != PendingSignature {
        return Fail(NotPendingSignature);
      }
      if frozenAt.None? {
        return Fail(NotFrozen);
      }
      signatures := signatures + [signature];
      status := Signed;
      signedAt := Some(signature.signedAt);
      return Pass;
    }

    method MarkCompleted(now: Time) returns (r: Outcome<ReportError>)
      modifies this
      ensures Complete(old(Row()), now) == if r.Pass? then Success(Row()) else Failure(r.error)
      ensures r.Fail? ==> Row() == old(Row())
    {
      if status != Signed {
        return Fail(NotSigned);
      }
      status := CompletedReport;
      completedAt := Some(now);
      return Pass;
    }
  }
}
