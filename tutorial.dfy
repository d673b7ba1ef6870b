/**
 * The tutorial engine of src/stores/tutorialStore.ts: which step is shown, in
 * which phase, which steps are done, and how answers, commands and clicks move
 * the learner on. Each store action is a function from the step table and the
 * old state to the new state; `TutorialStore` holds the same fields, with the
 * table it was built over, and updates them in place.
 */
module Tutorial {
  import opened Wrappers
  import opened Strings
  import opened TutorialSteps

  /** `TutorialPhase`. */
  datatype Phase = IntroPhase | ActionPhase | QcmPhase | TerminalPhase | ExplanationPhase | CompletedPhase

  /** `TutorialState` without its two dates. */
  datatype TState = TState(isActive: bool, currentStepId: int, phase: Phase, completedSteps: seq<int>,
                           qcmAnswered: bool, commandExecuted: bool, showExplanation: bool,
                           wrongAnswerCount: nat, totalSteps: nat)

  /** `initialState` over a step table. */
  function InitialState(steps: seq<Step>): TState {
    TState(false, 1, IntroPhase, [], false, false, false, 0, |steps|)
  }

  predicate Distinct(xs: seq<int>) {
    forall i, j :: 0 <= i < j < |xs| ==> xs[i] != xs[j]
  }

  /**
   * What every state the store reaches satisfies: the step shown is one of
   * the table's, and the completed steps are distinct ids of the table.
   */
  predicate Inv(steps: seq<Step>, s: TState) {
    s.totalSteps == |steps| && 1 <= s.currentStepId <= s.totalSteps
    && Distinct(s.completedSteps)
    && forall k :: 0 <= k < |s.completedSteps| ==> 1 <= s.completedSteps[k] <= s.totalSteps
  }

  /** `getCurrentStep`. */
  function CurrentStep(steps: seq<Step>, s: TState): Option<Step> {
    Find(steps, s.currentStepId)
  }

  /** `startTutorial`: back to the first step, active; the step count is kept. */
  function StartStep(s: TState): TState {
    TState(true, 1, IntroPhase, [], false, false, false, 0, s.totalSteps)
  }

  /** `stopTutorial`. */
  function StopStep(s: TState): TState {
    s.(isActive := false)
  }

  /** `incrementWrongAnswer`. */
  function WrongStep(s: TState): TState {
    s.(wrongAnswerCount := s.wrongAnswerCount + 1)
  }

  /** `answerQcm`: whether option `optionIndex` of the current quiz is the right one, and the new state. */
  function AnswerStep(steps: seq<Step>, s: TState, optionIndex: int): (bool, TState) {
    var step := CurrentStep(steps, s);
    if step.None? || step.value.qcm.None? then (false, s)
    else
      var options := step.value.qcm.value;
      if 0 <= optionIndex < |options| && options[optionIndex].isCorrect
      then (true, s.(qcmAnswered := true, phase := TerminalPhase))
      else (false, WrongStep(s))
  }

  /** The string branch of `validateCommand`'s test, on the trimmed, lower-cased input. */
  predicate Matches(command: string, expected: string) {
    var normalized := ToLower(Trim(command));
    normalized == ToLower(expected) || StartsWith(normalized, ToLower(expected))
  }

  /** `validateCommand`. */
  function CommandStep(steps: seq<Step>, s: TState, command: string): (bool, TState) {
    var step := CurrentStep(steps, s);
    if step.None? || step.value.expectedCommand.None? then (false, s)
    else if Matches(command, step.value.expectedCommand.value)
    then (true, s.(commandExecuted := true, showExplanation := true, phase := ExplanationPhase))
    else (false, s)
  }

  /** The phase `nextStep` enters a step in. */
  function NextPhase(step: Option<Step>): Phase {
    if step.None? then IntroPhase
    else match step.value.kind
      case QcmType => QcmPhase
      case ActionType => ActionPhase
      case ExploreType => IntroPhase
      case CompletionType => CompletedPhase
      case _ => IntroPhase
  }

  /** `nextStep`: mark the current step done, then move on, or finish after the last one. */
  function AdvanceStep(steps: seq<Step>, s: TState): TState {
    var done := if s.currentStepId in s.completedSteps then s.completedSteps
                else s.completedSteps + [s.currentStepId];
    var nextId := s.currentStepId + 1;
    if nextId > s.totalSteps then s.(completedSteps := done, phase := CompletedPhase)
    else s.(currentStepId := nextId, phase := NextPhase(Find(steps, nextId)), completedSteps := done,
            qcmAnswered := false, commandExecuted := false, showExplanation := false, wrongAnswerCount := 0)
  }

  /** `validateAction`; the half-second delay before `nextStep` is not modelled. */
  function ActionStep(steps: seq<Step>, s: TState, target: Target): (bool, TState) {
    var step := CurrentStep(steps, s);
    if step.None? || step.value.action.None? then (false, s)
    else if step.value.action.value.target == Some(target) then (true, AdvanceStep(steps, s))
    else (false, s)
  }

  /** `previousStep`: back one step, with the wrong-answer count and the completed steps kept. */
  function RetreatStep(steps: seq<Step>, s: TState): TState {
    if s.currentStepId <= 1 then s
    else
      var prevId := s.currentStepId - 1;
      s.(currentStepId := prevId, phase := PreviousPhase(Find(steps, prevId)), qcmAnswered := false,
         commandExecuted := false, showExplanation := false)
  }

  /** The phase `previousStep` enters a step in: `qcm` for a quiz, `intro` for anything else. */
  function PreviousPhase(step: Option<Step>): Phase {
    if step.Some? && step.value.kind == QcmType then QcmPhase else IntroPhase
  }

  /** The phase `goToStep` enters a step in: unlike `nextStep`, an action step starts in `intro`. */
  function GoToPhase(kind: StepType): Phase {
    match kind
    case QcmType => QcmPhase
    case CompletionType => CompletedPhase
    case _ => IntroPhase
  }

  /** `goToStep`: jump to a step of the table; an unknown id changes nothing. */
  function JumpStep(steps: seq<Step>, s: TState, stepId: int): TState {
    var step := Find(steps, stepId);
    if step.None? then s
    else s.(currentStepId := stepId, phase := GoToPhase(step.value.kind), qcmAnswered := false,
            commandExecuted := false, showExplanation := false)
  }

  /**
   * `getProgress`: `Math.round(completed / total * 100)`, with the quotient
   * taken exactly. A total of zero gives no finite number.
   */
  function Progress(s: TState): (r: Option<int>)
    ensures r.None? <==> s.totalSteps == 0
    ensures r.Some? ==>
      2 * s.totalSteps * r.value <= 200 * |s.completedSteps| + s.totalSteps < 2 * s.totalSteps * (r.value + 1)
  {
    if s.totalSteps == 0 then None
    else Some((200 * |s.completedSteps| + s.totalSteps) / (2 * s.totalSteps))
  }

  /** `isStepCompleted`. */
  predicate IsStepCompleted(s: TState, stepId: int) {
    stepId in s.completedSteps
  }

  /** `getHighlightTarget`: the current action's selector when it is a non-empty string. */
  function HighlightTarget(steps: seq<Step>, s: TState): Option<string> {
    var step := CurrentStep(steps, s);
    if step.Some? && step.value.action.Some? && step.value.action.value.highlightSelector.Some?
       && step.value.action.value.highlightSelector.value != ""
    then step.value.action.value.highlightSelector
    else None
  }

  // ---------------------------------------------------------------------
  // The invariant is kept

  lemma InitialInv(steps: seq<Step>)
    requires |steps| > 0
    ensures Inv(steps, InitialState(steps))
  {
  }

  /** `nextStep` keeps the invariant: it adds the current id only when it is not there yet. */
  lemma NextKeeps(steps: seq<Step>, s: TState)
    requires Inv(steps, s)
    ensures Inv(steps, AdvanceStep(steps, s))
  {
    var done := AdvanceStep(steps, s).completedSteps;
    if s.currentStepId !in s.completedSteps {
      assert done == s.completedSteps + [s.currentStepId];
      assert forall i :: 0 <= i < |s.completedSteps| ==> done[i] == s.completedSteps[i];
    }
  }

  /** `goToStep` only lands on ids of the table. */
  lemma GoToKeeps(steps: seq<Step>, s: TState, stepId: int)
    requires Numbered(steps) && Inv(steps, s)
    ensures Inv(steps, JumpStep(steps, s, stepId))
  {
    FindNumbered(steps, stepId);
  }

  /** The store over the step table `steps`. */
  class TutorialStore {
    const steps: seq<Step>
    var isActive: bool
    var currentStepId: int
    var phase: Phase
    var completedSteps: seq<int>
    var qcmAnswered: bool
    var commandExecuted: bool
    var showExplanation: bool
    var wrongAnswerCount: nat
    var totalSteps: nat

    function St(): TState
      reads this
    {
      TState(isActive, currentStepId, phase, completedSteps, qcmAnswered, commandExecuted, showExplanation,
             wrongAnswerCount, totalSteps)
    }

    predicate Valid()
      reads this
    {
      Numbered(steps) && Inv(steps, St())
    }

    /** The store over the shipped table, in its initial state. */
    constructor ()
      ensures steps == Steps && St() == InitialState(Steps) && Valid()
    {
      steps := Steps;
      isActive := false;
      currentStepId := 1;
      phase := IntroPhase;
      completedSteps := [];
      qcmAnswered := false;
      commandExecuted := false;
      showExplanation := false;
      wrongAnswerCount := 0;
      totalSteps := |Steps|;
      new;
      StepTableIds();
    }

    method StartTutorial()
      requires Valid()
      modifies this
      ensures St() == StartStep(old(St())) && Valid()
    {
      isActive := true;
      currentStepId := 1;
      phase := IntroPhase;
      completedSteps := [];
      qcmAnswered := false;
      commandExecuted := false;
      showExplanation := false;
      wrongAnswerCount := 0;
    }

    method StopTutorial()
      requires Valid()
      modifies this
      ensures St() == StopStep(old(St())) && Valid()
    {
      isActive := false;
    }

    method ResetTutorial()
      requires Valid()
      modifies this
      ensures St() == InitialState(steps) && Valid()
    {
      isActive := false;
      currentStepId := 1;
      phase := IntroPhase;
      completedSteps := [];
      qcmAnswered := false;
      commandExecuted := false;
      showExplanation := false;
      wrongAnswerCount := 0;
      totalSteps := |steps|;
    }

    method AnswerQcm(optionIndex: int) returns (ok: bool)
      requires Valid()
      modifies this
      ensures (ok, St()) == AnswerStep(steps, old(St()), optionIndex) && Valid()
    {
      var step := Find(steps, currentStepId);
      if step.None? || step.value.qcm.None? {
        return false;
      }
      var options := step.value.qcm.value;
      ok := 0 <= optionIndex < |options| && options[optionIndex].isCorrect;
      if ok {
        qcmAnswered := true;
        phase := TerminalPhase;
      } else {
        IncrementWrongAnswer();
      }
    }

    method IncrementWrongAnswer()
      requires Valid()
      modifies this
      ensures St() == WrongStep(old(St())) && Valid()
    {
      wrongAnswerCount := wrongAnswerCount + 1;
    }

    method ValidateCommand(command: string) returns (ok: bool)
      requires Valid()
      modifies this
      ensures (ok, St()) == CommandStep(steps, old(St()), command) && Valid()
    {
      var step := Find(steps, currentStepId);
      if step.None? || step.value.expectedCommand.None? {
        return false;
      }
      ok := Matches(command, step.value.expectedCommand.value);
      if ok {
        commandExecuted := true;
        showExplanation := true;
        phase := ExplanationPhase;
      }
    }

    method ValidateAction(target: Target) returns (ok: bool)
      requires Valid()
      modifies this
      ensures (ok, St()) == ActionStep(steps, old(St()), target) && Valid()
    {
      var step := Find(steps, currentStepId);
      if step.None? || step.value.action.None? {
        return false;
      }
      ok := step.value.action.value.target == Some(target);
      if ok {
        NextStep();
      }
    }

    method SetPhase(p: Phase)
      requires Valid()
      modifies this
      ensures St() == old(St()).(phase := p) && Valid()
    {
      phase := p;
    }

    method ShowExplanationPopup()
      requires Valid()
      modifies this
      ensures St() == old(St()).(showExplanation := true) && Valid()
    {
      showExplanation := true;
    }

    method HideExplanationPopup()
      requires Valid()
      modifies this
      ensures St() == old(St()).(showExplanation := false) && Valid()
    {
      showExplanation := false;
    }

    method NextStep()
      requires Valid()
      modifies this
      ensures St() == AdvanceStep(steps, old(St())) && Valid()
    {
      NextKeeps(steps, St());
      if currentStepId !in completedSteps {
        completedSteps := completedSteps + [currentStepId];
      }
      var nextId := currentStepId + 1;
      if nextId > totalSteps {
        phase := CompletedPhase;
        return;
      }
      var next := Find(steps, nextId);
      currentStepId := nextId;
      phase := NextPhase(next);
      qcmAnswered := false;
      commandExecuted := false;
      showExplanation := false;
      wrongAnswerCount := 0;
    }

    method PreviousStep()
      requires Valid()
      modifies this
      ensures St() == RetreatStep(steps, old(St())) && Valid()
    {
      if currentStepId <= 1 {
        return;
      }
      var prevId := currentStepId - 1;
      var prev := Find(steps, prevId);
      currentStepId := prevId;
      phase := PreviousPhase(prev);
      qcmAnswered := false;
      commandExecuted := false;
      showExplanation := false;
    }

    method GoToStep(stepId: int)
      requires Valid()
      modifies this
      ensures St() == JumpStep(steps, old(St()), stepId) && Valid()
    {
      GoToKeeps(steps, St(), stepId);
      var step := Find(steps, stepId);
      if step.None? {
        return;
      }
      currentStepId := stepId;
      phase := GoToPhase(step.value.kind);
      qcmAnswered := false;
      commandExecuted := false;
      showExplanation := false;
    }
  }
}
