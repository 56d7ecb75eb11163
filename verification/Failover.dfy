/** Failure codes of the analysis and transcription steps, and the provider failover loop. */
module Failover {
  import opened Wrappers

  const AI_ANALYSIS_TIMEOUT := "AI_ANALYSIS_TIMEOUT"
  const AI_PROVIDERS_UNAVAILABLE := "AI_PROVIDERS_UNAVAILABLE"
  const AUDIO_INVALID := "AUDIO_INVALID"
  const AUDIO_TOO_LARGE := "AUDIO_TOO_LARGE"
  const AUDIO_TOO_LONG := "AUDIO_TOO_LONG"
  const TRANSCRIPTION_EMPTY := "TRANSCRIPTION_EMPTY"
  const TRANSCRIPTION_UNAVAILABLE := "TRANSCRIPTION_UNAVAILABLE"

  datatype WorkflowFailure = WorkflowFailure(code: string, httpStatus: int, message: string, retryable: bool)

  datatype ProviderError = Timeout | OtherError

  function ClassifyAnalysisFailures(errors: seq<ProviderError>): WorkflowFailure {
    if errors != [] && forall e <- errors :: e == Timeout then
      WorkflowFailure(AI_ANALYSIS_TIMEOUT, 504, "The AI analysis timed out. Please try again.", true)
    else
      WorkflowFailure(AI_PROVIDERS_UNAVAILABLE, 502,
                      "The AI analysis could not be completed. Please try again.", true)
  }

  function FailureFromCode(code: string): Option<WorkflowFailure> {
    if code == AI_ANALYSIS_TIMEOUT then Some(ClassifyAnalysisFailures([Timeout]))
    else if code == AI_PROVIDERS_UNAVAILABLE then Some(ClassifyAnalysisFailures([OtherError]))
    else if code == AUDIO_INVALID then
      Some(WorkflowFailure(code, 422, "The recording is not valid WebM/Opus or MP4/AAC audio.", false))
    else if code == AUDIO_TOO_LARGE then
      Some(WorkflowFailure(code, 413, "The recording exceeds the 25 MiB limit.", false))
    else if code == AUDIO_TOO_LONG then
      Some(WorkflowFailure(code, 422, "The recording exceeds the 10 minute limit.", false))
    else if code == TRANSCRIPTION_EMPTY then
      Some(WorkflowFailure(code, 422, "No speech could be transcribed from the recording.", true))
    else if code == TRANSCRIPTION_UNAVAILABLE then
      Some(WorkflowFailure(code, 503, "Transcription is temporarily unavailable. Please try again.", true))
    else None
  }

  /** The code stored on the run is enough to rebuild the whole classified failure. */
  lemma ClassifiedFailureRecovered(errors: seq<ProviderError>)
    ensures FailureFromCode(ClassifyAnalysisFailures(errors).code) == Some(ClassifyAnalysisFailures(errors))
    ensures ClassifyAnalysisFailures(errors).code == AI_ANALYSIS_TIMEOUT
            <==> errors != [] && forall e <- errors :: e == Timeout
  {
    assert AI_ANALYSIS_TIMEOUT[3] == 'A' && AI_PROVIDERS_UNAVAILABLE[3] == 'P';
    assert ClassifyAnalysisFailures([Timeout]).code == AI_ANALYSIS_TIMEOUT;
    assert OtherError in [OtherError];
    assert ClassifyAnalysisFailures([OtherError]).code == AI_PROVIDERS_UNAVAILABLE;
  }

  /** The code leads to a failure response with this HTTP status, on which trying again does or does not make sense. */
  predicate Responds(code: string, httpStatus: int, retryable: bool) {
    var failure := FailureFromCode(code);
    failure.Some? && failure.value.code == code && failure.value.httpStatus == httpStatus && failure.value.retryable == retryable
  }

  lemma ResponsesToAnalysisFailures()
    ensures Responds("AI_ANALYSIS_TIMEOUT", 504, true) && Responds("AI_PROVIDERS_UNAVAILABLE", 502, true)
  {
    ClassifiedFailureRecovered([Timeout]);
    ClassifiedFailureRecovered([OtherError]);
    assert OtherError in [OtherError];
  }

  lemma ResponsesToRecordings()
    ensures Responds("AUDIO_INVALID", 422, false) && Responds("AUDIO_TOO_LARGE", 413, false)
    ensures Responds("AUDIO_TOO_LONG", 422, false)
  {
    hide ClassifyAnalysisFailures;
  }

  lemma ResponsesToTranscription()
    ensures Responds("TRANSCRIPTION_EMPTY", 422, true) && Responds("TRANSCRIPTION_UNAVAILABLE", 503, true)
  {
    hide ClassifyAnalysisFailures;
    assert TRANSCRIPTION_EMPTY[0] == 'T' && AI_ANALYSIS_TIMEOUT[0] == 'A';
  }

  /** What one provider would answer if asked to draft, and then to compare the photos. */
  datatype Provider<D, A> = Provider(draft: Result<D, ProviderError>, audit: Result<A, ProviderError>)

  datatype Call = DraftCall(provider: nat) | AuditCall(provider: nat)

  datatype AnalysisOutcome<D, A> =
    | Analysed(provider: nat, draft: D, audit: A)
    | GaveUp(failure: WorkflowFailure)

  /** One complete analysis on one provider; without photo pairs the comparison cannot be asked for. */
  function TryProvider<D, A>(p: Provider<D, A>, havePairs: bool): Result<(D, A), ProviderError> {
    if p.draft.Failure? then Failure(p.draft.error)
    else if !havePairs then Failure(OtherError)
    else if p.audit.Failure? then Failure(p.audit.error)
    else Success((p.draft.value, p.audit.value))
  }

  /** The provider calls of the first `upTo` attempts, in order. */
  function CallsMade<D, A>(providers: seq<Provider<D, A>>, upTo: nat, havePairs: bool): seq<Call>
    requires upTo <= |providers|
  {
    if upTo == 0 then []
    else
      CallsMade(providers, upTo - 1, havePairs) + [DraftCall(upTo - 1)]
      + (if providers[upTo - 1].draft.Success? && havePairs then [AuditCall(upTo - 1)] else [])
  }

  lemma {:induction false} CallsBounded<D, A>(providers: seq<Provider<D, A>>, upTo: nat, havePairs: bool)
    requires upTo <= |providers|
    ensures forall c <- CallsMade(providers, upTo, havePairs) :: c.provider < upTo
  {
    if upTo > 0 {
      CallsBounded(providers, upTo - 1, havePairs);
    }
  }

  predicate AllFail<D(!new), A(!new)>(providers: seq<Provider<D, A>>, upTo: nat, havePairs: bool)
    requires upTo <= |providers|
  {
    forall j :: 0 <= j < upTo ==> TryProvider(providers[j], havePairs).Failure?
  }

  /**
   The failover loop refines "the first provider whose draft and comparison both succeed":
   both results come from that provider, and no later provider is called.
   */
  method RunAiSteps<D(!new), A(!new)>(providers: seq<Provider<D, A>>, havePairs: bool)
    returns (outcome: AnalysisOutcome<D, A>, calls: seq<Call>)
    ensures outcome.GaveUp? <==> AllFail(providers, |providers|, havePairs)
    ensures outcome.Analysed? ==>
              && outcome.provider < |providers|
              && AllFail(providers, outcome.provider, havePairs)
              && providers[outcome.provider].draft == Success(outcome.draft)
              && providers[outcome.provider].audit == Success(outcome.audit)
              && havePairs
              && calls == CallsMade(providers, outcome.provider + 1, havePairs)
    ensures outcome.GaveUp? ==>
              && calls == CallsMade(providers, |providers|, havePairs)
              && FailureFromCode(outcome.failure.code) == Some(outcome.failure)
              && (outcome.failure.code == AI_ANALYSIS_TIMEOUT <==>
                  |providers| > 0 && forall p <- providers :: TryProvider(p, havePairs) == Failure(Timeout))
  {
    var errors: seq<ProviderError> := [];
    calls := [];
    for i := 0 to |providers|
      invariant AllFail(providers, i, havePairs)
      invariant |errors| == i
      invariant forall j :: 0 <= j < i ==> TryProvider(providers[j], havePairs) == Failure(errors[j])
      invariant calls == CallsMade(providers, i, havePairs)
    {
      var p := providers[i];
      calls := calls + [DraftCall(i)];
      if p.draft.Failure? {
        errors := errors + [p.draft.error];
        continue;
      }
      if !havePairs {
        errors := errors + [OtherError];
        continue;
      }
      calls := calls + [AuditCall(i)];
      if p.audit.Failure? {
        errors := errors + [p.audit.error];
        continue;
      }
      return Analysed(i, p.draft.value, p.audit.value), calls;
    }
    ClassifiedFailureRecovered(errors);
    if forall e <- errors :: e == Timeout {
      forall p <- providers ensures TryProvider(p, havePairs) == Failure(Timeout) {
        var j :| 0 <= j < |providers| && providers[j] == p;
        assert errors[j] in errors;
      }
    } else {
      var k :| 0 <= k < |errors| && errors[k] != Timeout;
      assert providers[k] in providers;
    }
    outcome := GaveUp(ClassifyAnalysisFailures(errors));
  }
}
