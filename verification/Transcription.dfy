/** The transcription activity: which store calls one run of it makes, for every way its collaborators can answer. */
module Transcription {
  import opened Wrappers
  import opened Failover
  import opened VisualAudits
  import Transactions

  const MAX_AUDIO_BYTES: nat := 25 * 1024 * 1024
  const MIN_TRANSCRIPT_CHARS: nat := 20
  const MAX_TRANSCRIPT_CHARS: nat := 20_000

  /** What storage, the inspector, the transcriber or the store itself may raise. */
  datatype External = TooLong | Invalid | Unavailable | OtherException

  datatype ClaimAnswer = NotClaimed | ClaimInvalid | ClaimRaised | Claimed(byteSize: nat)

  /** How the collaborators answer: bytes received, inspection, heartbeats sent while waiting, text. */
  datatype Answers = Answers(
    download: Result<nat, External>,
    inspection: Outcome<External>,
    heartbeats: nat,
    lastHeartbeat: Outcome<External>,
    transcription: Result<string, External>,
    completion: Outcome<External>)

  /** The store calls of one run, in this order: heartbeats, a completion, a failure. */
  datatype StoreCalls = StoreCalls(heartbeats: nat, completed: Option<string>, failed: Option<string>)

  function CodeOf(e: External): string {
    match e
    case TooLong => AUDIO_TOO_LONG
    case Invalid => AUDIO_INVALID
    case Unavailable => TRANSCRIPTION_UNAVAILABLE
    case OtherException => TRANSCRIPTION_UNAVAILABLE
  }

  function StripLeft(s: string): (r: string)
    ensures r != "" ==> !IsSpace(r[0])
    ensures |r| <= |s| && r == s[|s| - |r|..] && Blank(s[..|s| - |r|])
  {
    if s != "" && IsSpace(s[0]) then
      var r := StripLeft(s[1..]);
      assert s[..|s| - |r|] == [s[0]] + s[1..][..|s| - 1 - |r|];
      r
    else s
  }

  function StripRight(s: string): (r: string)
    ensures r != "" ==> !IsSpace(r[|r| - 1])
    ensures |r| <= |s| && r == s[..|r|] && Blank(s[|r|..])
  {
    if s != "" && IsSpace(s[|s| - 1]) then
      var r := StripRight(s[..|s| - 1]);
      assert s[|r|..] == s[..|s| - 1][|r|..] + [s[|s| - 1]];
      r
    else s
  }

  /** The text without the blank characters around it. */
  function Strip(s: string): string {
    StripRight(StripLeft(s))
  }

  /** `r` is `s` between position `i` and `j`, and everything outside is blank. */
  predicate Inside(s: string, r: string, i: nat, j: nat) {
    i <= j <= |s| && r == s[i..j] && Blank(s[..i]) && Blank(s[j..])
  }

  lemma Slices(s: string, i: nat, n: nat)
    requires i + n <= |s|
    ensures s[i..][..n] == s[i..i + n] && s[i..][n..] == s[i + n..]
  {
  }

  lemma StripInside(s: string)
    ensures Inside(s, Strip(s), |s| - |StripLeft(s)|, |s| - |StripLeft(s)| + |Strip(s)|)
  {
    hide IsSpace, Blank, StripLeft, StripRight;
    Slices(s, |s| - |StripLeft(s)|, |Strip(s)|);
  }

  /** Stripping removes blanks at both ends and nothing else. */
  lemma StripTrims(s: string)
    ensures var r := Strip(s);
            && (r != "" ==> !IsSpace(r[0]) && !IsSpace(r[|r| - 1]))
            && (r == "" <==> Blank(s))
            && exists i, j :: Inside(s, r, i, j)
  {
    hide IsSpace, StripLeft, StripRight;
    var left, r := StripLeft(s), Strip(s);
    StripInside(s);
    var i, j := |s| - |left|, |s| - |left| + |r|;
    if r == "" {
      assert s == s[..i] + s[j..];
      assert Blank(s);
    } else {
      assert r[0] == left[0] && r[0] == s[i];
      assert !Blank(s);
    }
  }

  /** Everything needed for a transcript to be stored. */
  predicate Transcribable(byteSize: nat, a: Answers) {
    && 0 < byteSize <= MAX_AUDIO_BYTES
    && a.download == Success(byteSize)
    && a.inspection.Pass? && (a.heartbeats > 0 ==> a.lastHeartbeat.Pass?)
    && a.transcription.Success?
    && MIN_TRANSCRIPT_CHARS <= |Strip(a.transcription.value)| <= MAX_TRANSCRIPT_CHARS
  }

  /** A code the API can turn back into a failure shown to the user. */
  predicate Explained(code: string) {
    FailureFromCode(code).Some?
  }

  lemma RecordedCodesExplained(e: External)
    ensures Explained(CodeOf(e)) && Explained(AUDIO_INVALID) && Explained(AUDIO_TOO_LARGE) && Explained(TRANSCRIPTION_EMPTY)
  {
  }

  /** The first thing that goes wrong, in the order in which the work is done. */
  datatype Problem = NoProblem | TooBig | Damaged | Raising(e: External) | Unusable

  function FirstProblem(byteSize: nat, a: Answers): Problem {
    if byteSize > MAX_AUDIO_BYTES then TooBig
    else if a.download.Failure? then Raising(a.download.error)
    else if a.download.value != byteSize || byteSize == 0 then Damaged
    else if a.inspection.Fail? then Raising(a.inspection.error)
    else if a.heartbeats > 0 && a.lastHeartbeat.Fail? then Raising(a.lastHeartbeat.error)
    else if a.transcription.Failure? then Raising(a.transcription.error)
    else if !(MIN_TRANSCRIPT_CHARS <= |Strip(a.transcription.value)| <= MAX_TRANSCRIPT_CHARS) then Unusable
    else if a.completion.Fail? then Raising(a.completion.error)
    else NoProblem
  }

  /** Nothing went wrong before the completion was sent exactly when the recording is transcribable. */
  lemma TranscribableIff(byteSize: nat, a: Answers)
    ensures Transcribable(byteSize, a) <==>
            FirstProblem(byteSize, a.(completion := Pass)) == NoProblem
    ensures FirstProblem(byteSize, a) == NoProblem <==> Transcribable(byteSize, a) && a.completion.Pass?
  {
    hide Strip;
  }

  /** The code that names a problem to the user. */
  predicate Names(code: string, problem: Problem) {
    match problem
    case NoProblem => false
    case TooBig => code == "AUDIO_TOO_LARGE"
    case Damaged => code == "AUDIO_INVALID"
    case Raising(TooLong) => code == "AUDIO_TOO_LONG"
    case Raising(Invalid) => code == "AUDIO_INVALID"
    case Raising(Unavailable) => code == "TRANSCRIPTION_UNAVAILABLE"
    case Raising(OtherException) => code == "TRANSCRIPTION_UNAVAILABLE"
    case Unusable => code == "TRANSCRIPTION_EMPTY"
  }

  lemma CodeNamesException(e: External)
    ensures Names(CodeOf(e), Raising(e))
  {
  }

  /** The work under a claim: the store calls made, ending with a failure unless a transcript was stored. */
  method TryTranscribing(byteSize: nat, a: Answers) returns (calls: StoreCalls)
    ensures calls.completed == if Transcribable(byteSize, a) then Some(Strip(a.transcription.value)) else None
    ensures calls.failed.None? <==> FirstProblem(byteSize, a) == NoProblem
    ensures calls.failed.Some? ==> Names(calls.failed.value, FirstProblem(byteSize, a)) && Explained(calls.failed.value)
    ensures byteSize > MAX_AUDIO_BYTES ==> calls.heartbeats == 0
    ensures Transcribable(byteSize, a) ==> calls.heartbeats == a.heartbeats
  {
    hide Explained, Strip, CodeOf;
    RecordedCodesExplained(Invalid);
    if byteSize > MAX_AUDIO_BYTES {
      return StoreCalls(0, None, Some(AUDIO_TOO_LARGE));
    }
    if a.download.Failure? {
      RecordedCodesExplained(a.download.error);
      CodeNamesException(a.download.error);
      return StoreCalls(0, None, Some(CodeOf(a.download.error)));
    }
    if a.download.value == 0 || a.download.value != byteSize {
      return StoreCalls(0, None, Some(AUDIO_INVALID));
    }
    if a.inspection.Fail? {
      RecordedCodesExplained(a.inspection.error);
      CodeNamesException(a.inspection.error);
      return StoreCalls(0, None, Some(CodeOf(a.inspection.error)));
    }
    if a.heartbeats > 0 && a.lastHeartbeat.Fail? {
      RecordedCodesExplained(a.lastHeartbeat.error);
      CodeNamesException(a.lastHeartbeat.error);
      return StoreCalls(a.heartbeats, None, Some(CodeOf(a.lastHeartbeat.error)));
    }
    if a.transcription.Failure? {
      RecordedCodesExplained(a.transcription.error);
      CodeNamesException(a.transcription.error);
      return StoreCalls(a.heartbeats, None, Some(CodeOf(a.transcription.error)));
    }
    var transcript := Strip(a.transcription.value);
    if |transcript| < MIN_TRANSCRIPT_CHARS || |transcript| > MAX_TRANSCRIPT_CHARS {
      return StoreCalls(a.heartbeats, None, Some(TRANSCRIPTION_EMPTY));
    }
    if a.completion.Fail? {
      RecordedCodesExplained(a.completion.error);
      CodeNamesException(a.completion.error);
      return StoreCalls(a.heartbeats, Some(transcript), Some(CodeOf(a.completion.error)));
    }
    return StoreCalls(a.heartbeats, Some(transcript), None);
  }

  /**
   A claimed run stores a transcript exactly when everything went well, and otherwise records
   exactly one failure; a stored transcript is valid, and a recorded code can be explained.
   `None` is an exception left to the worker's retry loop.
   */
  method TranscribeAudio(claim: ClaimAnswer, a: Answers) returns (r: Option<StoreCalls>)
    ensures r.None? <==> claim.ClaimRaised?
    ensures claim.NotClaimed? ==> r == Some(StoreCalls(0, None, None))
    ensures claim.ClaimInvalid? ==> r == Some(StoreCalls(0, None, Some(AUDIO_INVALID)))
    ensures claim.Claimed? ==>
              && (r.value.completed.Some? <==> Transcribable(claim.byteSize, a))
              && (r.value.failed.None? <==> Transcribable(claim.byteSize, a) && a.completion.Pass?)
              && (r.value.failed.Some? ==> Names(r.value.failed.value, FirstProblem(claim.byteSize, a)))
    ensures r.Some? && r.value.completed.Some? ==>
              && r.value.completed.value == Strip(a.transcription.value)
              && Transactions.Validated(Transactions.CompleteAudioTx(r.value.completed.value))
              && 20 <= |r.value.completed.value| <= 20_000
    ensures r.Some? && r.value.failed.Some? ==> Explained(r.value.failed.value)
  {
    hide Explained, Strip, CodeOf;
    RecordedCodesExplained(Invalid);
    match claim
    case ClaimRaised => return None;
    case NotClaimed => return Some(StoreCalls(0, None, None));
    case ClaimInvalid => return Some(StoreCalls(0, None, Some(AUDIO_INVALID)));
    case Claimed(byteSize) =>
      TranscribableIff(byteSize, a);
      var calls := TryTranscribing(byteSize, a);
      return Some(calls);
  }
}
