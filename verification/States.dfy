/** Workflow states and the forward-only transition table. */
module States {

  datatype WorkflowState =
    | CollectingEvidence
    | TranscriptionPending
    | DraftingPending
    | ReviewPending
    | SignaturePending
    | FinalizationPending
    | PdfPending
    | Completed
    | ManualInputRequired
    | Failed

  function AllowedTransitions(s: WorkflowState): set<WorkflowState> {
    match s
    case CollectingEvidence => {DraftingPending, ManualInputRequired}
    case TranscriptionPending => {DraftingPending, ManualInputRequired}
    case DraftingPending => {ReviewPending, ManualInputRequired, Failed}
    case ReviewPending => {SignaturePending, ManualInputRequired}
    case SignaturePending => {FinalizationPending, ManualInputRequired}
    case FinalizationPending => {PdfPending, ManualInputRequired}
    case PdfPending => {Completed, ManualInputRequired}
    case Completed => {}
    case ManualInputRequired => {}
    case Failed => {}
  }

  /** The states a background worker has to act on. */
  predicate WorkerDriven(s: WorkflowState) {
    s == TranscriptionPending || s == DraftingPending || s == PdfPending
  }

  /** How far along a state is; parking and failing come last. */
  function Stage(s: WorkflowState): nat {
    match s
    case CollectingEvidence => 0
    case TranscriptionPending => 0
    case DraftingPending => 1
    case ReviewPending => 2
    case SignaturePending => 3
    case FinalizationPending => 4
    case PdfPending => 5
    case Completed => 6
    case ManualInputRequired => 7
    case Failed => 7
  }

  /** Forward only: a transition never repeats a stage, and apart from parking and failing skips none. */
  lemma ForwardOnly(s: WorkflowState, t: WorkflowState)
    ensures t in AllowedTransitions(s) ==> Stage(s) < Stage(t)
    ensures t in AllowedTransitions(s) && Stage(t) < 7 <==> Stage(t) == Stage(s) + 1 && Stage(t) < 7
    ensures ManualInputRequired in AllowedTransitions(s) <==> Stage(s) < 6
    ensures Failed in AllowedTransitions(s) <==> s == DraftingPending
  {
  }

  predicate Path(p: seq<WorkflowState>) {
    forall i :: 0 <= i < |p| - 1 ==> p[i + 1] in AllowedTransitions(p[i])
  }

  /** A path of transitions to completion goes through every later stage, one step each. */
  lemma {:induction false} EveryStageBeforeCompletion(p: seq<WorkflowState>, i: nat)
    requires Path(p) && i < |p| && p[|p| - 1] == Completed
    ensures Stage(p[i]) == 6 - (|p| - 1 - i)
    decreases |p| - i
  {
    if i < |p| - 1 {
      EveryStageBeforeCompletion(p, i + 1);
      ForwardOnly(p[i], p[i + 1]);
    }
  }
}
