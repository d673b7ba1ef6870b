/**
 * What the tutorial engine guarantees: the shipped table is well formed, every
 * action keeps the completed steps distinct ids of the table, progress stays
 * between 0 and 100, and the moves between steps do what their names say.
 */
module TutorialFacts {
  import opened Wrappers
  import opened Strings
  import opened TutorialSteps
  import opened Tutorial

  // ---------------------------------------------------------------------
  // The shipped table

  /** The first step is the introduction and the last one the completion. */
  lemma FirstAndLast()
    ensures Steps[0].kind == IntroType && Steps[|Steps| - 1].kind == CompletionType
  {
  }

  /** Exactly the quiz steps carry options: one of them right, with an expected command and an explanation. */
  lemma QuizzesWellFormed()
    ensures forall i :: 0 <= i < |Steps| ==> (Steps[i].qcm.Some? <==> Steps[i].kind == QcmType)
    ensures forall i :: 0 <= i < |Steps| && Steps[i].kind == QcmType ==>
      CorrectCount(Steps[i].qcm.value) == 1 && Steps[i].expectedCommand.Some? && Steps[i].explanation.Some?
  {
  }

  /** Exactly the action steps carry an action, with a target and a non-empty selector. */
  lemma ActionsWellFormed()
    ensures forall i :: 0 <= i < |Steps| ==> (Steps[i].action.Some? <==> Steps[i].kind == ActionType)
    ensures forall i :: 0 <= i < |Steps| && Steps[i].kind == ActionType ==>
      Steps[i].action.value.target.Some? && Steps[i].action.value.highlightSelector.Some?
      && Steps[i].action.value.highlightSelector.value != ""
  {
  }

  /** The string test accepts exactly the inputs whose normal form starts with the expected command. */
  lemma MatchesIsPrefix(command: string, expected: string)
    ensures Matches(command, expected) <==> StartsWith(ToLower(Trim(command)), ToLower(expected))
  {
    var n := ToLower(Trim(command));
    if n == ToLower(expected) {
      assert n[..|n|] == n;
    }
  }

  /** An answer made of `expected` and a tail, with no white space around it, passes. */
  lemma MatchesCommandWithTail(command: string, expected: string, tail: string)
    requires command == expected + tail && Trim(command) == command
    ensures Matches(command, expected)
  {
    var n := ToLower(command);
    assert n[..|expected|] == ToLower(expected);
  }

  /** The step's right option, typed as a command, passes the step's check. */
  predicate RightAnswerPasses(step: Step) {
    step.qcm.Some? && step.expectedCommand.Some? && CorrectLabel(step.qcm.value).Some?
    && Matches(CorrectLabel(step.qcm.value).value, step.expectedCommand.value)
  }

  /** The quizzes of the shipped table. */
  const Quizzes: seq<Step> := [QuizPwd, QuizLs, QuizCd, QuizCdUp, QuizCat, QuizMkdir, QuizHelp, QuizWriter]

  /** The quiz steps of the table are the eight quizzes. */
  lemma QuizAt(i: nat)
    requires i < |Steps| && Steps[i].kind == QcmType
    ensures Steps[i] in Quizzes
  {
    assert i in {4, 5, 6, 7, 10, 11, 14, 18};
  }

  // In the shipped table the right option of every quiz, typed as a command,
  // passes the check of its step: `cd Documents` against `cd documents`,
  // `libreoffice --writer` against `libreoffice`, and the six exact answers.

  lemma QuizPwdPasses()
    ensures RightAnswerPasses(QuizPwd)
  {
    OptionPasses(QuizPwd);
  }

  lemma QuizLsPasses()
    ensures RightAnswerPasses(QuizLs)
  {
    OptionPasses(QuizLs);
  }

  lemma QuizCdPasses()
    ensures RightAnswerPasses(QuizCd)
  {
    OptionPasses(QuizCd);
  }

  lemma QuizCdUpPasses()
    ensures RightAnswerPasses(QuizCdUp)
  {
    OptionPasses(QuizCdUp);
  }

  lemma QuizCatPasses()
    ensures RightAnswerPasses(QuizCat)
  {
    OptionPasses(QuizCat);
  }

  lemma QuizMkdirPasses()
    ensures RightAnswerPasses(QuizMkdir)
  {
    OptionPasses(QuizMkdir);
  }

  lemma QuizHelpPasses()
    ensures RightAnswerPasses(QuizHelp)
  {
    OptionPasses(QuizHelp);
  }

  lemma QuizWriterPasses()
    ensures RightAnswerPasses(QuizWriter)
  {
    OptionPasses(QuizWriter);
  }

  /** A quiz whose right answer is its own trim and starts with the expected command, up to case. */
  lemma OptionPasses(step: Step)
    requires step.qcm.Some? && step.expectedCommand.Some? && CorrectLabel(step.qcm.value).Some?
    requires var answer := CorrectLabel(step.qcm.value).value;
      |answer| > 0 && !IsWhitespace(answer[0]) && !IsWhitespace(answer[|answer| - 1])
      && |step.expectedCommand.value| <= |answer|
      && forall k :: 0 <= k < |step.expectedCommand.value| ==>
           LowerChar(answer[k]) == LowerChar(step.expectedCommand.value[k])
    ensures RightAnswerPasses(step)
  {
    var answer := CorrectLabel(step.qcm.value).value;
    TrimPlain(answer);
    PrefixUpToCase(answer, step.expectedCommand.value);
  }

  /** An input that is its own trim and starts with the expected command, up to case, passes. */
  lemma PrefixUpToCase(command: string, expected: string)
    requires Trim(command) == command && |expected| <= |command|
    requires forall k :: 0 <= k < |expected| ==> LowerChar(command[k]) == LowerChar(expected[k])
    ensures Matches(command, expected)
  {
    assert ToLower(command)[..|expected|] == ToLower(expected);
  }

  // ---------------------------------------------------------------------
  // Answers, commands and clicks

  /**
   * `answerQcm`: without a quiz it answers false and changes nothing; an index
   * outside the options counts as a wrong answer; a right answer moves to the
   * terminal phase; a wrong one only counts, and the step never changes.
   */
  lemma AnswerOutcome(steps: seq<Step>, s: TState, optionIndex: int)
    ensures var step := CurrentStep(steps, s);
      var (ok, s2) := AnswerStep(steps, s, optionIndex);
      (step.None? || step.value.qcm.None? ==> !ok && s2 == s)
      && (step.Some? && step.value.qcm.Some? ==>
            (ok <==> 0 <= optionIndex < |step.value.qcm.value| && step.value.qcm.value[optionIndex].isCorrect)
            && (!ok ==> s2 == s.(wrongAnswerCount := s.wrongAnswerCount + 1)))
      && (ok ==> s2 == s.(qcmAnswered := true, phase := TerminalPhase))
  {
  }

  /** `validateCommand`: acceptance moves to the explanation with its popup shown; rejection changes nothing. */
  lemma CommandOutcome(steps: seq<Step>, s: TState, command: string)
    ensures var step := CurrentStep(steps, s);
      var (ok, s2) := CommandStep(steps, s, command);
      (ok <==> step.Some? && step.value.expectedCommand.Some?
               && StartsWith(ToLower(Trim(command)), ToLower(step.value.expectedCommand.value)))
      && (ok ==> s2 == s.(commandExecuted := true, showExplanation := true, phase := ExplanationPhase))
      && (!ok ==> s2 == s)
  {
    var step := CurrentStep(steps, s);
    if step.Some? && step.value.expectedCommand.Some? {
      MatchesIsPrefix(command, step.value.expectedCommand.value);
    }
  }

  /** `validateAction`: only the target of the current action step is accepted, and it moves to the next step. */
  lemma ActionOutcome(steps: seq<Step>, s: TState, target: Target)
    ensures var step := CurrentStep(steps, s);
      var (ok, s2) := ActionStep(steps, s, target);
      (ok <==> step.Some? && step.value.action.Some? && step.value.action.value.target == Some(target))
      && s2 == (if ok then AdvanceStep(steps, s) else s)
  {
  }

  // ---------------------------------------------------------------------
  // Moving between steps

  /**
   * Before the last step `nextStep` marks the step done and enters the next
   * one in the phase its type calls for, with flags and count reset.
   */
  lemma NextMoves(steps: seq<Step>, s: TState)
    requires Numbered(steps) && Inv(steps, s) && s.currentStepId < |steps|
    ensures var s2 := AdvanceStep(steps, s);
      s2.currentStepId == s.currentStepId + 1
      && s2.phase == NextPhase(Some(steps[s.currentStepId]))
      && IsStepCompleted(s2, s.currentStepId)
      && (forall id :: IsStepCompleted(s, id) ==> IsStepCompleted(s2, id))
      && !s2.qcmAnswered && !s2.commandExecuted && !s2.showExplanation && s2.wrongAnswerCount == 0
  {
    FindNumbered(steps, s.currentStepId + 1);
  }

  /** At the last step `nextStep` finishes: the step stays, marked done, in the completed phase; a second call changes nothing. */
  lemma NextAtEnd(steps: seq<Step>, s: TState)
    requires Inv(steps, s) && s.currentStepId == |steps|
    ensures var s2 := AdvanceStep(steps, s);
      s2.currentStepId == s.currentStepId && s2.phase == CompletedPhase
      && IsStepCompleted(s2, s.currentStepId)
      && s2.wrongAnswerCount == s.wrongAnswerCount
      && AdvanceStep(steps, s2) == s2
  {
  }

  /** `previousStep` does nothing at the first step. */
  lemma PreviousAtStart(steps: seq<Step>, s: TState)
    requires s.currentStepId <= 1
    ensures RetreatStep(steps, s) == s
  {
  }

  /**
   * Elsewhere it goes back one step, in the quiz phase for a quiz and the
   * introduction otherwise, keeping the completed steps and the count of
   * wrong answers; `nextStep` then returns to the step left.
   */
  lemma PreviousMoves(steps: seq<Step>, s: TState)
    requires Numbered(steps) && Inv(steps, s) && s.currentStepId > 1
    ensures var s2 := RetreatStep(steps, s);
      s2.currentStepId == s.currentStepId - 1
      && s2.phase == (if steps[s2.currentStepId - 1].kind == QcmType then QcmPhase else IntroPhase)
      && s2.completedSteps == s.completedSteps && s2.wrongAnswerCount == s.wrongAnswerCount
      && AdvanceStep(steps, s2).currentStepId == s.currentStepId
  {
    FindNumbered(steps, s.currentStepId - 1);
  }

  /** `goToStep` with an id outside the table changes nothing. */
  lemma GoToUnknown(steps: seq<Step>, s: TState, stepId: int)
    requires Numbered(steps) && !(1 <= stepId <= |steps|)
    ensures JumpStep(steps, s, stepId) == s
  {
    FindNumbered(steps, stepId);
  }

  /** With an id of the table it shows that step, keeping the completed steps and the count. */
  lemma GoToKnown(steps: seq<Step>, s: TState, stepId: int)
    requires Numbered(steps) && 1 <= stepId <= |steps|
    ensures var s2 := JumpStep(steps, s, stepId);
      s2.currentStepId == stepId && s2.phase == GoToPhase(steps[stepId - 1].kind)
      && s2.completedSteps == s.completedSteps && s2.wrongAnswerCount == s.wrongAnswerCount
  {
    FindNumbered(steps, stepId);
  }

  /**
   * Entering an action step by `goToStep` gives the introduction phase,
   * where `nextStep` gives the action phase.
   */
  lemma GoToActionDiffers(steps: seq<Step>, s: TState)
    requires Numbered(steps) && Inv(steps, s) && s.currentStepId < |steps|
    requires steps[s.currentStepId].kind == ActionType
    ensures JumpStep(steps, s, s.currentStepId + 1).phase == IntroPhase
    ensures AdvanceStep(steps, s).phase == ActionPhase
  {
    FindNumbered(steps, s.currentStepId + 1);
  }

  /** The selector to highlight is there exactly on the action steps of the shipped table. */
  lemma HighlightOnActions(s: TState)
    requires Inv(Steps, s)
    ensures HighlightTarget(Steps, s).Some? <==> Steps[s.currentStepId - 1].kind == ActionType
  {
    StepTableIds();
    FindNumbered(Steps, s.currentStepId);
    ActionsWellFormed();
  }

  // ---------------------------------------------------------------------
  // Every run keeps the invariant, so progress stays between 0 and 100

  /** The store's actions, with their arguments. */
  datatype Op =
    | Start | Stop | Reset | Answer(optionIndex: int) | WrongAnswer | Command(command: string)
    | Act(target: Target) | SetPhaseTo(phase: Phase) | ShowPopup | HidePopup
    | Next | Previous | GoTo(stepId: int)

  function Apply(steps: seq<Step>, s: TState, op: Op): TState {
    match op
    case Start => StartStep(s)
    case Stop => StopStep(s)
    case Reset => InitialState(steps)
    case Answer(i) => AnswerStep(steps, s, i).1
    case WrongAnswer => WrongStep(s)
    case Command(c) => CommandStep(steps, s, c).1
    case Act(t) => ActionStep(steps, s, t).1
    case SetPhaseTo(p) => s.(phase := p)
    case ShowPopup => s.(showExplanation := true)
    case HidePopup => s.(showExplanation := false)
    case Next => AdvanceStep(steps, s)
    case Previous => RetreatStep(steps, s)
    case GoTo(id) => JumpStep(steps, s, id)
  }

  /** The state after the actions `ops`, in order. */
  function Run(steps: seq<Step>, s: TState, ops: seq<Op>): TState
    decreases |ops|
  {
    if |ops| == 0 then s else Run(steps, Apply(steps, s, ops[0]), ops[1..])
  }

  /** Every action keeps the invariant. */
  lemma ApplyKeeps(steps: seq<Step>, s: TState, op: Op)
    requires Numbered(steps) && Inv(steps, s)
    ensures Inv(steps, Apply(steps, s, op))
  {
    match op
    case Next => NextKeeps(steps, s);
    case Act(t) => NextKeeps(steps, s);
    case GoTo(id) => GoToKeeps(steps, s, id);
    case _ =>
  }

  /** So does every sequence of actions. */
  lemma {:induction false} RunKeeps(steps: seq<Step>, s: TState, ops: seq<Op>)
    requires Numbered(steps) && Inv(steps, s)
    ensures Inv(steps, Run(steps, s, ops))
    decreases |ops|
  {
    if |ops| > 0 {
      ApplyKeeps(steps, s, ops[0]);
      RunKeeps(steps, Apply(steps, s, ops[0]), ops[1..]);
    }
  }

  /** Distinct ids between 1 and `n` are at most `n`. */
  lemma DistinctBound(xs: seq<int>, n: nat)
    requires Distinct(xs) && forall k :: 0 <= k < |xs| ==> 1 <= xs[k] <= n
    ensures |xs| <= n
  {
    DistinctCard(xs);
    DistinctCard(Upto(n));
    var seen := set x | x in xs;
    var ids := set x | x in Upto(n);
    forall x | x in seen
      ensures x in ids
    {
      assert Upto(n)[x - 1] == x;
    }
    SubsetCard(seen, ids);
  }

  lemma {:induction false} DistinctCard(xs: seq<int>)
    requires Distinct(xs)
    ensures |set x | x in xs| == |xs|
  {
    if |xs| > 0 {
      DistinctCard(xs[1..]);
      assert (set x | x in xs) == {xs[0]} + set x | x in xs[1..];
      assert xs[0] !in set x | x in xs[1..];
    }
  }

  lemma SubsetCard(a: set<int>, b: set<int>)
    requires a <= b
    ensures |a| <= |b|
  {
    assert b == a + (b - a);
    assert a * (b - a) == {};
  }

  /** In every state the store keeps, `getProgress` is a whole number from 0 to 100. */
  lemma ProgressBounds(steps: seq<Step>, s: TState)
    requires Inv(steps, s) && |steps| > 0
    ensures Progress(s).Some? && 0 <= Progress(s).value <= 100
  {
    DistinctBound(s.completedSteps, s.totalSteps);
    var t := s.totalSteps;
    var p := Progress(s).value;
    if p > 100 {
      assert 2 * t * p >= 2 * t * 101 by {
        MulMono(2 * t, 101, p);
      }
    }
  }

  lemma MulMono(a: nat, x: int, y: int)
    requires x <= y
    ensures a * x <= a * y
  {
  }

  /** Whatever the learner does from a fresh store, progress is a whole number from 0 to 100. */
  lemma ReachedProgress(ops: seq<Op>)
    ensures var s := Run(Steps, InitialState(Steps), ops);
      Progress(s).Some? && 0 <= Progress(s).value <= 100
  {
    StepTableIds();
    InitialInv(Steps);
    RunKeeps(Steps, InitialState(Steps), ops);
    ProgressBounds(Steps, Run(Steps, InitialState(Steps), ops));
  }

  /** On the shipped table progress is 100 exactly when all 21 steps are done, and 0 exactly when none is. */
  lemma ProgressEnds(s: TState)
    requires Inv(Steps, s)
    ensures Progress(s) == Some(100) <==> |s.completedSteps| == 21
    ensures Progress(s) == Some(0) <==> s.completedSteps == []
  {
    StepTableIds();
    DistinctBound(s.completedSteps, s.totalSteps);
  }

  // ---------------------------------------------------------------------
  // Walking through the tutorial

  /** `nextStep` called `k` times. */
  function Nexts(steps: seq<Step>, s: TState, k: nat): TState {
    if k == 0 then s else AdvanceStep(steps, Nexts(steps, s, k - 1))
  }

  /** The ids 1 to `k`. */
  function Upto(k: nat): (r: seq<int>)
    ensures |r| == k && forall i :: 0 <= i < k ==> r[i] == i + 1
  {
    seq(k, i => i + 1)
  }

  /**
   * Where `k` calls of `nextStep` after a start lead: before the end, steps 1
   * to `k` are done and step `k + 1` is shown; from the end on, every step is
   * done, in order, and the last one is shown in the completed phase.
   */
  predicate Walked(steps: seq<Step>, w: TState, k: nat) {
    w.totalSteps == |steps|
    && (k < |steps| ==> w.currentStepId == k + 1 && w.completedSteps == Upto(k))
    && (k >= |steps| ==> w.currentStepId == |steps| && w.completedSteps == Upto(|steps|) && w.phase == CompletedPhase)
  }

  lemma {:induction false} WalkThrough(steps: seq<Step>, s: TState, k: nat)
    requires |steps| > 0 && s.totalSteps == |steps|
    ensures Walked(steps, Nexts(steps, StartStep(s), k), k)
  {
    if k > 0 {
      WalkThrough(steps, s, k - 1);
      WalkStep(steps, Nexts(steps, StartStep(s), k - 1), k - 1);
    }
  }

  lemma WalkStep(steps: seq<Step>, w: TState, k: nat)
    requires |steps| > 0 && Walked(steps, w, k)
    ensures Walked(steps, AdvanceStep(steps, w), k + 1)
  {
    if k < |steps| {
      assert w.currentStepId !in w.completedSteps;
      assert w.completedSteps + [k + 1] == Upto(k + 1);
    } else {
      assert w.completedSteps[|steps| - 1] == w.currentStepId;
    }
  }

  /** Twenty-one clicks on "next" from a start finish the shipped tutorial with a progress of 100. */
  lemma FinishTutorial(s: TState)
    requires s.totalSteps == |Steps|
    ensures var w := Nexts(Steps, StartStep(s), 21);
      w.phase == CompletedPhase && w.currentStepId == 21 && w.completedSteps == Upto(21) && Progress(w) == Some(100)
  {
    StepTableIds();
    WalkThrough(Steps, s, 21);
  }
}
