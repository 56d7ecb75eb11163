/**
 The durable state machine behind one report's fulfilment.

 `RunRow` is a row of the runs table; the functions say what each method of the
 aggregate does to a row, and the class performs them by field assignment.
 */
module WorkflowRuns {
  import opened Wrappers
  import opened States

  /** Microseconds since an arbitrary epoch. */
  type Time = int

  type AssetId = nat

  const SECOND: Time := 1_000_000
  const CLAIM_LEASE_SECONDS: int := 120

  datatype WorkflowError =
    | InvalidTransition(source: WorkflowState, target: WorkflowState)
    | CannotResume(source: WorkflowState)
    | NoAudioAsset

  datatype TranscriptionInput = TranscriptionInput(mediaAssetId: Option<AssetId>, transcript: Option<string>)

  datatype InputData = InputData(transcription: Option<TranscriptionInput>, drafting: Option<string>)

  datatype RunRow = RunRow(
    state: WorkflowState,
    attempt: nat,
    nextRetryAt: Option<Time>,
    lastError: Option<string>,
    stateVersion: nat,
    claimedAt: Option<Time>,
    input: InputData)

  /**
   A request to execute the run's current step. Event identifiers are unique; the
   model names an event by the state_version of the row it is committed with.
   */
  datatype DispatchEvent = DispatchEvent(
    id: nat,
    state: WorkflowState,
    mediaAssetId: Option<AssetId>,
    notBefore: Option<Time>)

  function Pow2(n: nat): nat {
    if n == 0 then 1 else 2 * Pow2(n - 1)
  }

  function Start(state: WorkflowState, input: InputData): RunRow {
    RunRow(state, 0, None, None, 0, None, input)
  }

  /** The row after entering `state`: bookkeeping cleared, version bumped. */
  function Entered(row: RunRow, state: WorkflowState): RunRow {
    row.(state := state, attempt := 0, nextRetryAt := None, lastError := None, claimedAt := None,
    stateVersion := row.stateVersion + 1)
  }

  function Transition(row: RunRow, target: WorkflowState): Result<RunRow, WorkflowError> {
    if target !in AllowedTransitions(row.state) then Failure(InvalidTransition(row.state, target))
    else Success(Entered(row, target))
  }

  function Resume(row: RunRow, target: WorkflowState): Result<RunRow, WorkflowError> {
    if row.state != ManualInputRequired && row.state != Failed then Failure(CannotResume(row.state))
    else Success(Entered(row, target))
  }

  function Claim(row: RunRow, now: Time): RunRow {
    row.(claimedAt := Some(now), stateVersion := row.stateVersion + 1)
  }

  predicate CanClaim(row: RunRow, now: Time, leaseSeconds: int) {
    row.claimedAt.None? || row.claimedAt.value + leaseSeconds * SECOND <= now
  }

  function Dispatch(row: RunRow): Result<DispatchEvent, WorkflowError> {
    if row.state != TranscriptionPending then
      Success(DispatchEvent(row.stateVersion, row.state, None, None))
    else if row.input.transcription.None? || row.input.transcription.value.mediaAssetId.None? then
      Failure(NoAudioAsset)
    else
      Success(DispatchEvent(row.stateVersion, row.state, row.input.transcription.value.mediaAssetId, row.nextRetryAt))
  }

  function FailWith(row: RunRow, code: string): RunRow {
    row.(state := Failed, attempt := row.attempt + 1, nextRetryAt := None, lastError := Some(code),
    stateVersion := row.stateVersion + 1)
  }

  function StepSucceeded(row: RunRow): RunRow {
    row.(attempt := 0, nextRetryAt := None, lastError := None, stateVersion := row.stateVersion + 1)
  }

  function FailureRecorded(row: RunRow, error: string, now: Time, maxAttempts: nat): RunRow {
    var attempt := row.attempt + 1;
    var parked := attempt >= maxAttempts;
    row.(attempt := attempt, lastError := Some(error), claimedAt := None,
    state := if parked then ManualInputRequired else row.state,
    nextRetryAt := if parked then None else Some(now + SECOND * Pow2(attempt)),
    stateVersion := row.stateVersion + 1)
  }

  /** The aggregate: a loaded row, its pending events, and the methods that change them in place. */
  class WorkflowRun {
    var state: WorkflowState
    var attempt: nat
    var nextRetryAt: Option<Time>
    var lastError: Option<string>
    var stateVersion: nat
    var claimedAt: Option<Time>
    var input: InputData
    var events: seq<DispatchEvent>

    function Row(): RunRow
      reads this
    {
      RunRow(state, attempt, nextRetryAt, lastError, stateVersion, claimedAt, input)
    }

    constructor Begin(initialState: WorkflowState, inputData: InputData)
      ensures Row() == Start(initialState, inputData) && events == []
    {
      state, attempt, nextRetryAt, lastError := initialState, 0, None, None;
      stateVersion, claimedAt, input := 0, None, inputData;
      events := [];
    }

    constructor Load(row: RunRow)
      ensures Row() == row && events == []
    {
      state, attempt, nextRetryAt, lastError := row.state, row.attempt, row.nextRetryAt, row.lastError;
      stateVersion, claimedAt, input := row.stateVersion, row.claimedAt, row.input;
      events := [];
    }

    method TransitionTo(newState: WorkflowState) returns (r: Outcome<WorkflowError>)
      modifies this
      ensures Transition(old(Row()), newState) == if r.Pass? then Success(Row()) else Failure(r.error)
      ensures r.Fail? ==> Row() == old(Row())
      ensures events == old(events)
    {
      if newState !in AllowedTransitions(state) {
        return Fail(InvalidTransition(state, newState));
      }
      state := newState;
      attempt := 0;
      nextRetryAt := None;
      lastError := None;
      claimedAt := None;
      stateVersion := stateVersion + 1;
      return Pass;
    }

    method ClaimAttempt(now: Time)
      modifies this
      ensures Row() == Claim(old(Row()), now)
      ensures events == old(events)
    {
      claimedAt := Some(now);
      stateVersion := stateVersion + 1;
    }

    method RequestDispatch() returns (r: Outcome<WorkflowError>)
      modifies this`events
      ensures match Dispatch(Row())
              case Success(event) => r == Pass && events == old(events) + [event]
              case Failure(error) => r == Fail(error) && events == old(events)
    {
      var media: Option<AssetId> := None;
      var notBefore: Option<Time> := None;
      if state == TranscriptionPending {
        if input.transcription.Some? {
          media := input.transcription.value.mediaAssetId;
        }
        if media.None? {
          return Fail(NoAudioAsset);
        }
        notBefore := nextRetryAt;
      }
      events := events + [DispatchEvent(stateVersion, state, media, notBefore)];
      return Pass;
    }

    method ResumeTo(target: WorkflowState) returns (r: Outcome<WorkflowError>)
      modifies this
      ensures Resume(old(Row()), target) == if r.Pass? then Success(Row()) else Failure(r.error)
      ensures r.Fail? ==> Row() == old(Row())
      ensures events == old(events)
    {
      if state != ManualInputRequired && state != Failed {
        return Fail(CannotResume(state));
      }
      state := target;
      attempt := 0;
      nextRetryAt := None;
      lastError := None;
      claimedAt := None;
      stateVersion := stateVersion + 1;
      return Pass;
    }

    method FailStep(code: string)
      modifies this
      ensures Row() == FailWith(old(Row()), code)
      ensures events == old(events)
    {
      state := Failed;
      attempt := attempt + 1;
      nextRetryAt := None;
      lastError := Some(code);
      stateVersion := stateVersion + 1;
    }

    method RecordStepSuccess()
      modifies this
      ensures Row() == StepSucceeded(old(Row()))
      ensures events == old(events)
    {
      attempt := 0;
      nextRetryAt := None;
      lastError := None;
      stateVersion := stateVersion + 1;
    }

    method RecordFailure(error: string, now: Time, maxAttempts: nat)
      modifies this
      ensures Row() == FailureRecorded(old(Row()), error, now, maxAttempts)
      ensures events == old(events)
    {
      attempt := attempt + 1;
      lastError := Some(error);
      claimedAt := None;
      if attempt >= maxAttempts {
        state := ManualInputRequired;
        nextRetryAt := None;
      } else {
        nextRetryAt := Some(now + SECOND * Pow2(attempt));
      }
      stateVersion := stateVersion + 1;
    }

    /** Draining is a side effect: a second call with nothing recorded between returns nothing. */
    method PullEvents() returns (pulled: seq<DispatchEvent>)
      modifies this`events
      ensures pulled == old(events) && events == []
    {
      pulled := events;
      events := [];
    }
  }
}
