/**
 The handlers and activity transactions as the program runs them: load, change aggregates
 in place, save with the loaded version, register, commit. Each is proved to do exactly what
 `Attempt` says.

 `loaded` is what the transaction's SELECTs returned; the database may have moved on since,
 so it is unrelated to `db.tables`, the rows that the writes meet.
 */
module Handlers {
  import opened Wrappers
  import opened States
  import opened WorkflowRuns
  import opened Reports
  import opened VisualAudits
  import opened Pricing
  import opened Transactions
  import opened UnitsOfWork
  import opened Visits
  import Protocol

  /** The tables after an attempt that ended with `r`. */
  function Left(t: Tables, r: TxResult): Tables {
    if r.Committed? then r.tables else t
  }

  /** `RecordingRefused`: the recording is not attached audio of this visit and organization. */
  datatype CreateError = OneInputSource | EvidenceIncomplete(missing: seq<Requirement>) | RecordingRefused

  /** Insert a new report and run, and drain the run's events into the outbox of the same commit. */
  method InsertAndCommit(run: WorkflowRun, report: Report) returns (t: Tables)
    modifies run`events
    ensures t == Tables(old(run.Row()), report.Row(), AddEvents(map[], old(run.events)), [], [])
  {
    hide Undrained, AddEvents;
    var db := new Database(Tables(run.Row(), report.Row(), map[], [], []));
    var uow := new UnitOfWork.Begin(db);
    uow.Register(run);
    assert uow.registered == [run];
    UndrainedOne(run);
    uow.Commit();
    return db.tables;
  }

  /** What the visit lacks, and typed notes that are blank. */
  function AllMissing(evidence: Evidence, rawNotes: Option<string>): seq<Requirement> {
    Unmet(evidence, REPORTED) + if rawNotes.Some? && Blank(rawNotes.value) then [RawNotes] else []
  }

  /** Exactly one input source, complete evidence, and a usable recording if there is one. */
  predicate Creatable(rawNotes: Option<string>, audio: Option<AssetId>, evidence: Evidence, usable: bool) {
    && (rawNotes.Some? <==> audio.None?)
    && evidence.hasCustomer && evidence.hasGeolocation && evidence.before >= 1 && evidence.after == evidence.before
    && (rawNotes.Some? ==> !Blank(rawNotes.value))
    && (audio.Some? ==> usable)
  }

  function InputOf(rawNotes: Option<string>, audio: Option<AssetId>): Protocol.ReportInput
    requires rawNotes.Some? <==> audio.None?
  {
    if audio.Some? then Protocol.Audio(audio.value) else Protocol.Notes(rawNotes.value)
  }

  /** The new run in its initial state, with its dispatch requested. */
  method BeginRun(input: Protocol.ReportInput) returns (run: WorkflowRun)
    ensures fresh(run) && run.Row() == Protocol.InitialRun(input)
    ensures run.events == [DispatchEvent(0, run.state, if input.Audio? then Some(input.asset) else None, None)]
  {
    var state := if input.Audio? then TranscriptionPending else DraftingPending;
    var inputData := if input.Audio? then InputData(Some(TranscriptionInput(Some(input.asset), None)), None)
                     else InputData(None, Some(input.text));
    run := new WorkflowRun.Begin(state, inputData);
    var requested := run.RequestDispatch();
  }

  /** The rows hold the typed notes or the recording, and an empty draft in the creator's currency. */
  predicate Carries(t: Tables, rawNotes: Option<string>, audio: Option<AssetId>, currency: string) {
    && t.report.status == Draft && t.report.content == Content("", None, currency, multiset{}) && t.report.confirmedAt.None?
    && (rawNotes.Some? ==> t.run.state == DraftingPending && t.run.input == InputData(None, rawNotes))
    && (audio.Some? ==>
          t.run.state == TranscriptionPending && t.run.input == InputData(Some(TranscriptionInput(audio, None)), None))
  }

  lemma CreationCarries(rawNotes: Option<string>, audio: Option<AssetId>, currency: string)
    requires rawNotes.Some? <==> audio.None?
    ensures Carries(Protocol.Created(InputOf(rawNotes, audio), currency), rawNotes, audio, currency)
  {
  }

  /** The new report's rows, with the first dispatch event in the same commit, or the first refusal. */
  method CreateReport(rawNotes: Option<string>, audio: Option<AssetId>, evidence: Evidence, usable: bool, currency: string)
    returns (r: Result<Tables, CreateError>)
    ensures r.Success? <==> Creatable(rawNotes, audio, evidence, usable)
    ensures r.Success? ==> r.value == Protocol.Created(InputOf(rawNotes, audio), currency)
    ensures r.Success? ==> Carries(r.value, rawNotes, audio, currency)
    ensures r == Failure(OneInputSource) <==> (rawNotes.Some? <==> audio.Some?)
    ensures r.Failure? && r.error.EvidenceIncomplete? ==> r.error.missing == AllMissing(evidence, rawNotes) != []
    ensures r == Failure(RecordingRefused) ==> audio.Some? && !usable && AllMissing(evidence, rawNotes) == []
  {
    hide Protocol.InitialRun, Blank, Unmet, Carries;
    if rawNotes.None? == audio.None? {
      return Failure(OneInputSource);
    }
    CreationCarries(rawNotes, audio, currency);
    var missing := MissingRequirements(evidence);
    if rawNotes.Some? && Blank(rawNotes.value) {
      missing := missing + [RawNotes];
    }
    if missing != [] {
      return Failure(EvidenceIncomplete(missing));
    }
    if audio.Some? && !usable {
      return Failure(RecordingRefused);
    }
    var report := new Report.CreateDraft(currency);
    var run := BeginRun(InputOf(rawNotes, audio));
    assert run.events[..0] == [];
    assert AddEvents(map[], run.events) == map[0 := OutboxRow(run.events[0], false)];
    var tables := InsertAndCommit(run, report);
    return Success(tables);
  }

  /** Save the run if its version is still the loaded one, and commit together with what was written. */
  method SaveAndCommit(uow: UnitOfWork, run: WorkflowRun, expectedVersion: nat) returns (r: TxResult)
    requires uow.registered == []
    modifies uow, run, uow.db
    ensures uow.db.tables == Left(old(uow.db.tables), r)
    ensures r == if old(uow.work.run.stateVersion) != expectedVersion then Lost
                 else Committed(old(uow.work).(run := old(run.Row()), outbox := AddEvents(old(uow.work.outbox), old(run.events))))
  {
    hide Undrained, AddEvents;
    var saved := uow.SaveRun(run, expectedVersion);
    if !saved {
      return Lost;
    }
    uow.Register(run);
    assert uow.registered == [run];
    UndrainedOne(run);
    uow.Commit();
    return Committed(uow.db.tables);
  }

  method UpdateReportRevision(db: Database, loaded: Snapshot, edit: Content, now: Time) returns (r: TxResult)
    modifies db
    ensures r == Attempt(old(db.tables), UpdateTx(edit), loaded, now)
    ensures db.tables == Left(old(db.tables), r)
  {
    var uow := new UnitOfWork.Begin(db);
    var report := new Report.Load(loaded.report);
    var edited := report.Update(edit.work, edit.amountCents, Some(edit.currency), Some(edit.materials));
    if edited.Fail? {
      return Refused(Raised(ReportFault(edited.error)));
    }
    uow.SaveReport(report);
    var run := new WorkflowRun.Load(loaded.run);
    if run.state == ManualInputRequired {
      var expectedVersion := run.stateVersion;
      var resumed := run.ResumeTo(ReviewPending);
      r := SaveAndCommit(uow, run, expectedVersion);
    } else {
      uow.Commit();
      return Committed(db.tables);
    }
  }

  method ConfirmReport(db: Database, loaded: Snapshot, now: Time) returns (r: TxResult)
    modifies db
    ensures r == Attempt(old(db.tables), ConfirmTx, loaded, now)
    ensures db.tables == Left(old(db.tables), r)
  {
    var uow := new UnitOfWork.Begin(db);
    var report := new Report.Load(loaded.report);
    var confirmed := report.ConfirmRevision(now);
    if confirmed.Fail? {
      return Refused(Raised(ReportFault(confirmed.error)));
    }
    uow.SaveReport(report);
    uow.Commit();
    return Committed(db.tables);
  }

  method ReadyForSignature(db: Database, loaded: Snapshot, now: Time) returns (r: TxResult)
    modifies db
    ensures r == Attempt(old(db.tables), ReadyTx, loaded, now)
    ensures db.tables == Left(old(db.tables), r)
  {
    var uow := new UnitOfWork.Begin(db);
    var report := new Report.Load(loaded.report);
    var run := new WorkflowRun.Load(loaded.run);
    var ready := report.MarkReadyForSignature(now);
    if ready.Fail? {
      return Refused(Raised(ReportFault(ready.error)));
    }
    uow.SaveReport(report);
    var expectedVersion := run.stateVersion;
    var moved := run.TransitionTo(SignaturePending);
    if moved.Fail? {
      return Refused(Raised(RunError(moved.error)));
    }
    r := SaveAndCommit(uow, run, expectedVersion);
  }

  /** Two transitions and a dispatch; the state between them is never stored. */
  method FinalizeForPdf(run: WorkflowRun) returns (r: Outcome<WorkflowError>)
    requires run.events == []
    modifies run
    ensures r.Pass? <==> old(run.state) == SignaturePending
    ensures r.Fail? ==> r.error == InvalidTransition(old(run.state), FinalizationPending)
    ensures r.Pass? ==>
              && run.Row() == Entered(Entered(old(run.Row()), FinalizationPending), PdfPending)
              && run.events == [DispatchEvent(run.stateVersion, PdfPending, None, None)]
  {
    r := run.TransitionTo(FinalizationPending);
    if r.Pass? {
      r := run.TransitionTo(PdfPending);
      var requested := run.RequestDispatch();
    }
  }

  method SignTheReport(db: Database, loaded: Snapshot, signerName: string, asset: AssetId, signatureId: nat, now: Time)
    returns (r: TxResult)
    modifies db
    ensures r == Attempt(old(db.tables), SignTx(signerName, asset, signatureId), loaded, now)
    ensures db.tables == Left(old(db.tables), r)
  {
    hide AddEvents, Undrained, Update, Ready, Retry, ManualNotes, ClaimDraft, Persist, Generate, Park;
    var uow := new UnitOfWork.Begin(db);
    var report := new Report.Load(loaded.report);
    var signed := report.SignWith(Signature(signatureId, signerName, now, asset));
    if signed.Fail? {
      return Refused(Raised(ReportFault(signed.error)));
    }
    uow.SaveReport(report);
    var run := new WorkflowRun.Load(loaded.run);
    var expectedVersion := run.stateVersion;
    var moved := FinalizeForPdf(run);
    if moved.Fail? {
      return Refused(Raised(RunError(moved.error)));
    }
    r := SaveAndCommit(uow, run, expectedVersion);
  }

  method RetryReport(db: Database, loaded: Snapshot, now: Time) returns (r: TxResult)
    modifies db
    ensures r == Attempt(old(db.tables), RetryTx, loaded, now)
    ensures db.tables == Left(old(db.tables), r)
  {
    hide AddEvents, Undrained;
    var uow := new UnitOfWork.Begin(db);
    var run := new WorkflowRun.Load(loaded.run);
    if run.state != ManualInputRequired && run.state != Failed {
      return Refused(Raised(NothingToRetry));
    }
    var target;
    if loaded.report.status == Draft {
      target := if run.input.transcription.Some? then TranscriptionPending else DraftingPending;
    } else if loaded.report.status == Signed {
      target := PdfPending;
    } else {
      return Refused(Raised(NothingToRetry));
    }
    var expectedVersion := run.stateVersion;
    var resumed := run.ResumeTo(target);
    var requested := run.RequestDispatch();
    if requested.Fail? {
      return Refused(Raised(RunError(requested.error)));
    }
    assert run.events == [Dispatch(run.Row()).value];
    r := SaveAndCommit(uow, run, expectedVersion);
  }

  method ManualTranscription(db: Database, loaded: Snapshot, notes: string, now: Time) returns (r: TxResult)
    modifies db
    ensures r == Attempt(old(db.tables), ManualNotesTx(notes), loaded, now)
    ensures db.tables == Left(old(db.tables), r)
  {
    hide AddEvents, Undrained;
    var uow := new UnitOfWork.Begin(db);
    var run := new WorkflowRun.Load(loaded.run);
    if run.state != ManualInputRequired {
      return Refused(Raised(NotParked));
    }
    var expectedVersion := run.stateVersion;
    run.input := run.input.(drafting := Some(notes));
    var resumed := run.ResumeTo(DraftingPending);
    var requested := run.RequestDispatch();
    assert run.events == [Dispatch(run.Row()).value];
    r := SaveAndCommit(uow, run, expectedVersion);
  }

  // ----- Activities -----

  method ClaimForAnalysis(db: Database, loaded: Snapshot, now: Time) returns (r: TxResult)
    modifies db
    ensures r == Attempt(old(db.tables), ClaimDraftTx, loaded, now)
    ensures db.tables == Left(old(db.tables), r)
  {
    hide AddEvents, Undrained;
    var uow := new UnitOfWork.Begin(db);
    var run := new WorkflowRun.Load(loaded.run);
    if run.state != DraftingPending || run.claimedAt.Some? {
      return Refused(Declined);
    }
    var claimedVersion := run.stateVersion;
    run.ClaimAttempt(now);
    r := SaveAndCommit(uow, run, claimedVersion);
  }

  /** The audit of a unified result: requested, started and succeeded in the persisting transaction. */
  method RecordAudit(uow: UnitOfWork, analysis: Analysis, amountCents: Option<int>, currency: string)
    returns (r: Outcome<Refusal>)
    requires analysis.Analysed?
    modifies uow`work
    ensures StoredAudit(analysis, amountCents, currency).Success? <==> r.Pass?
    ensures uow.work == if r.Fail? then old(uow.work)
                        else old(uow.work).(audits := old(uow.work.audits) + [StoredAudit(analysis, amountCents, currency).value])
    ensures r.Fail? ==> StoredAudit(analysis, amountCents, currency) == Failure(r.error)
  {
    hide Distinct, Blank, ProvidedPriceUsd;
    var price := ProvidedPriceUsd(amountCents, currency, analysis.rate);
    var requested := Request(analysis.pairs, analysis.draft.work, amountCents, currency, price);
    if requested.Failure? {
      return Fail(Raised(AuditFault(requested.error)));
    }
    var attempt := new VisualAuditAttempt.Load(requested.value);
    var started := attempt.Start();
    var succeeded := attempt.Succeed(analysis.comparison);
    uow.AddAudit(attempt);
    return Pass;
  }

  method PersistOutcome(db: Database, loaded: Snapshot, analysis: Analysis, now: Time) returns (r: TxResult)
    modifies db
    ensures r == Attempt(old(db.tables), PersistTx(analysis), loaded, now)
    ensures db.tables == Left(old(db.tables), r)
  {
    hide AddEvents, Undrained, StoredAudit, ConvertUsdCents, SuggestedAmountCents;
    var uow := new UnitOfWork.Begin(db);
    var report := new Report.Load(loaded.report);
    var currency := report.content.currency;
    var drafted := if analysis.Analysed? then analysis.draft else Fallback();
    var amount: Option<int> := None;
    var comparison: Option<string> := None;
    if analysis.Analysed? {
      var converted := ConvertUsdCents(SuggestedAmountCents(drafted.workUnits), currency, analysis.rate);
      if converted.Failure? {
        return Refused(Raised(CurrencyFault(converted.error)));
      }
      amount, comparison := converted.value, Some(analysis.comparison);
    }
    var applied := report.ApplyAiUnifiedResult(drafted.work, drafted.materials, amount, drafted.confidence, comparison);
    if applied.Fail? {
      return Refused(Raised(ReportFault(applied.error)));
    }
    uow.SaveReport(report);
    if analysis.Analysed? {
      var audited := RecordAudit(uow, analysis, amount, currency);
      if audited.Fail? {
        return Refused(audited.error);
      }
    }
    var run := new WorkflowRun.Load(loaded.run);
    var expectedVersion := run.stateVersion;
    if analysis.Analysed? {
      run.RecordStepSuccess();
      var moved := run.TransitionTo(ReviewPending);
      if moved.Fail? {
        return Refused(Raised(RunError(moved.error)));
      }
    } else {
      run.FailStep(analysis.code);
    }
    r := SaveAndCommit(uow, run, expectedVersion);
  }

  method GeneratePdf(db: Database, loaded: Snapshot, pdf: AssetId, now: Time) returns (r: TxResult)
    modifies db
    ensures r == Attempt(old(db.tables), GenerateTx(pdf), loaded, now)
    ensures db.tables == Left(old(db.tables), r)
  {
    hide AddEvents, Undrained;
    var uow := new UnitOfWork.Begin(db);
    var report := new Report.Load(loaded.report);
    if report.status != Signed || report.signatures == [] {
      return Refused(Raised(NotReadyForPdf));
    }
    var run := new WorkflowRun.Load(loaded.run);
    if run.state != PdfPending {
      return Refused(Raised(NotReadyForPdf));
    }
    uow.AttachPdf(pdf);
    var completed := report.MarkCompleted(now);
    uow.SaveReport(report);
    var expectedVersion := run.stateVersion;
    run.RecordStepSuccess();
    var moved := run.TransitionTo(Completed);
    r := SaveAndCommit(uow, run, expectedVersion);
  }

  method ParkPdf(db: Database, loaded: Snapshot, error: string, startedAt: Time, now: Time) returns (r: TxResult)
    modifies db
    ensures r == Attempt(old(db.tables), ParkTx(error, startedAt), loaded, now)
    ensures db.tables == Left(old(db.tables), r)
  {
    hide AddEvents, Undrained;
    var uow := new UnitOfWork.Begin(db);
    var run := new WorkflowRun.Load(loaded.run);
    if run.state != PdfPending {
      return Refused(Declined);
    }
    var expectedVersion := run.stateVersion;
    run.RecordFailure(error, startedAt, 1);
    r := SaveAndCommit(uow, run, expectedVersion);
  }

  /** The claim is saved first; a missing recording rolls it back. */
  method ClaimTranscription(db: Database, loaded: Snapshot, started: Time, now: Time) returns (r: TxResult)
    modifies db
    ensures r == Attempt(old(db.tables), ClaimAudioTx(started), loaded, now)
    ensures db.tables == Left(old(db.tables), r)
  {
    hide AddEvents;
    var uow := new UnitOfWork.Begin(db);
    var run := new WorkflowRun.Load(loaded.run);
    if || run.state != TranscriptionPending
       || (run.nextRetryAt.Some? && run.nextRetryAt.value > started)
       || !CanClaim(run.Row(), started, CLAIM_LEASE_SECONDS)
    {
      return Refused(Declined);
    }
    var expectedVersion := run.stateVersion;
    run.ClaimAttempt(started);
    var saved := uow.SaveRun(run, expectedVersion);
    if !saved {
      return Lost;
    }
    if run.input.transcription.None? || run.input.transcription.value.mediaAssetId.None? {
      return Refused(Raised(AudioInvalid));
    }
    uow.Commit();
    return Committed(db.tables);
  }

  method CompleteTranscription(db: Database, loaded: Snapshot, transcript: string, now: Time) returns (r: TxResult)
    modifies db
    ensures r == Attempt(old(db.tables), CompleteAudioTx(transcript), loaded, now)
    ensures db.tables == Left(old(db.tables), r)
  {
    hide AddEvents, Undrained;
    var uow := new UnitOfWork.Begin(db);
    var run := new WorkflowRun.Load(loaded.run);
    if run.state != TranscriptionPending || run.claimedAt.None? {
      return Refused(Raised(AudioInvalid));
    }
    var expectedVersion := run.stateVersion;
    run.input := Transcribed(run.input, transcript);
    run.RecordStepSuccess();
    var moved := run.TransitionTo(DraftingPending);
    var requested := run.RequestDispatch();
    assert run.events == [Dispatch(run.Row()).value];
    r := SaveAndCommit(uow, run, expectedVersion);
  }

  method FailTranscription(db: Database, loaded: Snapshot, code: string, finishedAt: Time, now: Time) returns (r: TxResult)
    modifies db
    ensures r == Attempt(old(db.tables), FailAudioTx(code, finishedAt), loaded, now)
    ensures db.tables == Left(old(db.tables), r)
  {
    hide AddEvents, Undrained;
    var uow := new UnitOfWork.Begin(db);
    var run := new WorkflowRun.Load(loaded.run);
    if run.state != TranscriptionPending {
      return Refused(Declined);
    }
    var expectedVersion := run.stateVersion;
    run.RecordFailure(code, finishedAt, 3);
    if run.state == TranscriptionPending {
      var requested := run.RequestDispatch();
      if requested.Fail? {
        return Refused(Raised(RunError(requested.error)));
      }
      assert run.events == [Dispatch(run.Row()).value];
    }
    r := SaveAndCommit(uow, run, expectedVersion);
  }

  /** Extends the lease, whoever holds it. */
  method HeartbeatTranscription(db: Database, loaded: Snapshot, at: Time, now: Time) returns (r: TxResult)
    modifies db
    ensures r == Attempt(old(db.tables), HeartbeatTx(at), loaded, now)
    ensures db.tables == Left(old(db.tables), r)
  {
    hide AddEvents, Undrained;
    var uow := new UnitOfWork.Begin(db);
    var run := new WorkflowRun.Load(loaded.run);
    if run.state != TranscriptionPending || run.claimedAt.None? {
      return Refused(Declined);
    }
    var expectedVersion := run.stateVersion;
    run.claimedAt := Some(at);
    run.stateVersion := run.stateVersion + 1;
    r := SaveAndCommit(uow, run, expectedVersion);
  }
}
