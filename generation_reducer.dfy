/** The progress state of the CV-generation modal and its reducer
    (`modalReducer` in lib/hooks/useCVGeneration.ts, with the types of
    types/cvGeneration.ts): three steps, each with a status, plus the text
    shown while the AI works and the outcome of the run. */
module GenerationReducer {
  import opened Wrappers
  import opened Text

  datatype StepId = Validation | AiImprovement | PdfGeneration

  /** The string an id is written as; `SET_STEP_STATUS` compares with it. */
  function StepName(id: StepId): (r: String)
    ensures |r| > 0
  {
    match id
    case Validation => "validation"
    case AiImprovement => "ai-improvement"
    case PdfGeneration => "pdf-generation"
  }

  lemma StepNameInjective(a: StepId, b: StepId)
    ensures StepName(a) == StepName(b) <==> a == b
  {
  }

  datatype StepStatus = Pending | Running | Completed | Error

  /** A step; the optional icon is display-only and not modelled. */
  datatype Step = Step(id: StepId, name: String, status: StepStatus, details: Option<String>)

  /** `CVGenerationError`; its optional timestamp is a clock value and is
      not modelled. */
  datatype GenError = GenError(message: String, code: Option<String>, step: Option<StepId>, details: Option<String>)

  datatype State = State(
    steps: seq<Step>,
    aiResponse: String,
    currentAiStep: String,
    isGenerating: bool,
    error: Option<GenError>,
    resumeId: Option<String>,
    isCompleted: bool)

  /** `CVGenerationAction`, plus `Unknown` for any other `type`, which the
      `default` branch handles. */
  datatype Action =
    | ProcessSuccess(resumeId: Option<String>, completed: bool, successStep: StepId,
                     successStatus: StepStatus, successDetails: String, successContent: String)
    | Reset
    | ProcessStart(startStep: StepId, startStatus: StepStatus, stepContent: String)
    | SetStepStatus(stepId: String, status: StepStatus, details: Option<String>)
    | SetError(newError: Option<GenError>)
    | SetIsGenerating(generating: bool)
    | SetAiResponse(response: String)
    | Unknown(kind: String)

  const InitialSteps := [
    Step(Validation, "Validation des données", Pending, None),
    Step(AiImprovement, "Amélioration par IA", Pending, None),
    Step(PdfGeneration, "Génération PDF", Pending, None)
  ]

  const InitialState := State(InitialSteps, "", "", false, None, None, false)

  /** `steps.map(step => step.id === target ? {...step, status, details} : step)`. */
  function UpdateSteps(steps: seq<Step>, target: String, status: StepStatus, details: Option<String>): (r: seq<Step>)
    ensures |r| == |steps|
    ensures forall i :: 0 <= i < |r| ==> r[i].id == steps[i].id && r[i].name == steps[i].name
    ensures forall i :: 0 <= i < |r| && StepName(steps[i].id) != target ==> r[i] == steps[i]
    ensures forall i :: 0 <= i < |r| && StepName(steps[i].id) == target ==>
      r[i].status == status && r[i].details == details
  {
    seq(|steps|, i requires 0 <= i < |steps| =>
      if StepName(steps[i].id) == target then steps[i].(status := status, details := details) else steps[i])
  }

  /** `action.payload.resumeId || null`. */
  function ResumeIdOf(id: Option<String>): (r: Option<String>)
    ensures r.Some? <==> id.Some? && id.value != ""
    ensures r.Some? ==> r == id
  {
    if id.Some? && id.value != "" then id else None
  }

  function Reduce(s: State, a: Action): State {
    match a
    case ProcessSuccess(id, completed, step, status, details, _) =>
      s.(resumeId := ResumeIdOf(id), isCompleted := completed,
         currentAiStep := if completed then "" else s.currentAiStep,
         steps := UpdateSteps(s.steps, StepName(step), status, Some(details)))
    case Reset => InitialState
    case ProcessStart(step, status, content) =>
      s.(currentAiStep := content, steps := UpdateSteps(s.steps, StepName(step), status, Some("")))
    case SetStepStatus(target, status, details) =>
      s.(steps := UpdateSteps(s.steps, target, status, details))
    case SetError(e) => s.(error := e)
    case SetIsGenerating(g) => s.(isGenerating := g)
    case SetAiResponse(r) => s.(aiResponse := r)
    case Unknown(_) => s
  }

  /** The ids of the steps, in order. */
  function Ids(steps: seq<Step>): (r: seq<StepId>)
    ensures |r| == |steps|
  {
    seq(|steps|, i requires 0 <= i < |steps| => steps[i].id)
  }

  /** The states the modal can be in: the three steps in their fixed order
      with their fixed names. */
  predicate Valid(s: State) {
    |s.steps| == 3 &&
    forall i :: 0 <= i < 3 ==> s.steps[i].id == InitialSteps[i].id && s.steps[i].name == InitialSteps[i].name
  }

  /** RESET gives three pending steps in the fixed order, empty texts, not
      generating, no error, no resume id and not completed. */
  lemma ResetInitial(s: State)
    ensures Reduce(s, Reset) == InitialState
    ensures Ids(InitialState.steps) == [Validation, AiImprovement, PdfGeneration]
    ensures forall i :: 0 <= i < 3 ==> InitialState.steps[i].status == Pending
    ensures InitialState.aiResponse == "" && InitialState.currentAiStep == ""
    ensures !InitialState.isGenerating && InitialState.error.None? && InitialState.resumeId.None? && !InitialState.isCompleted
    ensures Valid(InitialState)
  {
  }

  /** Every action keeps the step count and every step's id and name (its label). */
  lemma ReduceValid(s: State, a: Action)
    requires Valid(s)
    ensures Valid(Reduce(s, a))
    ensures Ids(Reduce(s, a).steps) == Ids(s.steps)
  {
  }

  /** Only a step whose id is the target changes. */
  lemma OnlyTargetChanges(s: State, a: Action, i: nat)
    requires i < |s.steps|
    requires a.ProcessSuccess? || a.ProcessStart? || a.SetStepStatus?
    requires StepName(s.steps[i].id) != (match a
      case ProcessSuccess(_, _, step, _, _, _) => StepName(step)
      case ProcessStart(step, _, _) => StepName(step)
      case SetStepStatus(target, _, _) => target
      case _ => "")
    ensures |Reduce(s, a).steps| == |s.steps| && Reduce(s, a).steps[i] == s.steps[i]
  {
  }

  /** A step status update naming no step leaves the steps as they are. */
  lemma UnknownStepUnchanged(s: State, target: String, status: StepStatus, details: Option<String>)
    requires forall i :: 0 <= i < |s.steps| ==> StepName(s.steps[i].id) != target
    ensures Reduce(s, SetStepStatus(target, status, details)) == s
  {
    assert Reduce(s, SetStepStatus(target, status, details)).steps == s.steps;
  }

  /** PROCESS_START shows its content and puts the target step in the given
      status with empty details; nothing else changes. */
  lemma ProcessStartEffect(s: State, step: StepId, status: StepStatus, content: String)
    ensures var r := Reduce(s, ProcessStart(step, status, content));
      r.currentAiStep == content &&
      (forall i :: 0 <= i < |s.steps| && s.steps[i].id == step ==>
        r.steps[i].status == status && r.steps[i].details == Some("")) &&
      (forall i :: 0 <= i < |s.steps| && s.steps[i].id != step ==> r.steps[i] == s.steps[i]) &&
      r.(currentAiStep := s.currentAiStep, steps := s.steps) == s
  {
    forall i | 0 <= i < |s.steps| ensures (s.steps[i].id == step) == (StepName(s.steps[i].id) == StepName(step)) {
      StepNameInjective(s.steps[i].id, step);
    }
  }

  /** PROCESS_SUCCESS records a non-empty resume id (else none) and the
      completion flag; the AI text is cleared exactly when completed. */
  lemma ProcessSuccessEffect(s: State, a: Action)
    requires a.ProcessSuccess?
    ensures var r := Reduce(s, a);
      (r.resumeId.Some? <==> a.resumeId.Some? && a.resumeId.value != "") &&
      (r.resumeId.Some? ==> r.resumeId == a.resumeId) &&
      r.isCompleted == a.completed &&
      (a.completed ==> r.currentAiStep == "") &&
      (!a.completed ==> r.currentAiStep == s.currentAiStep) &&
      r.aiResponse == s.aiResponse && r.isGenerating == s.isGenerating && r.error == s.error
  {
  }

  /** SET_ERROR, SET_IS_GENERATING and SET_AI_RESPONSE each change only their
      own field; an unknown action changes nothing. */
  lemma SettersOwnField(s: State, e: Option<GenError>, g: bool, text: String, kind: String)
    ensures Reduce(s, SetError(e)).error == e && Reduce(s, SetError(e)).(error := s.error) == s
    ensures Reduce(s, SetIsGenerating(g)).isGenerating == g && Reduce(s, SetIsGenerating(g)).(isGenerating := s.isGenerating) == s
    ensures Reduce(s, SetAiResponse(text)).aiResponse == text && Reduce(s, SetAiResponse(text)).(aiResponse := s.aiResponse) == s
    ensures Reduce(s, Unknown(kind)) == s
  {
  }

  /** Dispatching the same action twice is the same as dispatching it once. */
  lemma ReduceIdempotent(s: State, a: Action)
    ensures Reduce(Reduce(s, a), a) == Reduce(s, a)
  {
    match a
    case ProcessSuccess(id, completed, step, status, details, _) =>
      var t := Reduce(s, a);
      assert UpdateSteps(t.steps, StepName(step), status, Some(details)) == t.steps;
    case ProcessStart(step, status, _) =>
      var t := Reduce(s, a);
      assert UpdateSteps(t.steps, StepName(step), status, Some("")) == t.steps;
    case SetStepStatus(target, status, details) =>
      var t := Reduce(s, a);
      assert UpdateSteps(t.steps, target, status, details) == t.steps;
    case _ =>
  }
}
