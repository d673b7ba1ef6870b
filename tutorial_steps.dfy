/**
 * The step table of ndi-app/src/lib/tutorialSteps.ts, kept to the fields the
 * tutorial engine reads: the id, the type, the action (its kind, target and
 * highlight selector), the quiz options, the expected command and the
 * explanation, the last named by the command it explains. Titles, texts and
 * mascot messages are display text and are not part of this model.
 */
module TutorialSteps {
  import opened Wrappers

  datatype StepType = IntroType | ActionType | QcmType | TerminalType | ExploreType | CompletionType

  datatype ActionKind = DoubleClickIcon | ClickTaskbar | CloseWindow | OpenApp | ClickButton | Wait

  /** `TargetElement`. */
  datatype Target =
    | DesktopIconTerminal | DesktopIconFiles | DesktopIconSettings | DesktopIconTrash
    | DesktopIconBrowser | DesktopIconWriter | DesktopIconCalc | DesktopIconImpress
    | TaskbarActivities | WindowClose | WindowTerminal | WindowFiles | WindowSettings | WindowWriter

  datatype QcmOption = QcmOption(text: string, isCorrect: bool)

  datatype Action = Action(kind: ActionKind, target: Option<Target>, highlightSelector: Option<string>)

  datatype Step = Step(id: int, kind: StepType, action: Option<Action>, qcm: Option<seq<QcmOption>>,
                       expectedCommand: Option<string>, explanation: Option<string>)

  /** A step that only shows text: the introduction, the exploration steps and the final one. */
  function Show(id: int, kind: StepType): Step {
    Step(id, kind, None, None, None, None)
  }

  /** A step asking for a double-click on a desktop icon. */
  function Click(id: int, target: Target, selector: string): Step {
    Step(id, ActionType, Some(Action(DoubleClickIcon, Some(target), Some(selector))), None, None, None)
  }

  /** A quiz step with its expected command and the command its explanation explains. */
  function Quiz(id: int, options: seq<QcmOption>, expected: string, explained: string): Step {
    Step(id, QcmType, None, Some(options), Some(expected), Some(explained))
  }

  function Right(text: string): QcmOption { QcmOption(text, true) }
  function Wrong(text: string): QcmOption { QcmOption(text, false) }

  /** The quiz steps, by the command they teach. */
  const QuizPwd: Step := Quiz(5, [Right("pwd"), Wrong("ls"), Wrong("cd"), Wrong("where")],
    "pwd", "pwd")
  const QuizLs: Step := Quiz(6, [Wrong("show"), Right("ls"), Wrong("list"), Wrong("dir")],
    "ls", "ls")
  const QuizCd: Step := Quiz(7, [Wrong("open Documents"), Wrong("goto Documents"), Right("cd Documents"), Wrong("enter Documents")],
    "cd documents", "cd")
  const QuizCdUp: Step := Quiz(8, [Wrong("cd back"), Right("cd .."), Wrong("back"), Wrong("cd up")],
    "cd ..", "cd ..")
  const QuizCat: Step := Quiz(11, [Wrong("read notes.txt"), Wrong("open notes.txt"), Right("cat notes.txt"), Wrong("show notes.txt")],
    "cat notes.txt", "cat")
  const QuizMkdir: Step := Quiz(12, [Wrong("create projets"), Right("mkdir projets"), Wrong("newfolder projets"), Wrong("md projets")],
    "mkdir", "mkdir")
  const QuizHelp: Step := Quiz(15, [Wrong("?"), Right("help"), Wrong("commands"), Wrong("list")],
    "help", "help")
  const QuizWriter: Step := Quiz(19, [Wrong("open writer"), Right("libreoffice --writer"), Wrong("start writer"), Wrong("run libreoffice")],
    "libreoffice", "libreoffice --writer")

  /** `tutorialSteps`. */
  const Steps: seq<Step> := [
    Show(1, IntroType),
    Show(2, ExploreType),
    Click(3, DesktopIconTerminal, "[data-app=\"terminal\"]"),
    Show(4, ExploreType),
    QuizPwd,
    QuizLs,
    QuizCd,
    QuizCdUp,
    Click(9, DesktopIconFiles, "[data-app=\"file-manager\"]"),
    Show(10, ExploreType),
    QuizCat,
    QuizMkdir,
    Click(13, DesktopIconSettings, "[data-app=\"settings\"]"),
    Show(14, ExploreType),
    QuizHelp,
    Show(16, ExploreType),
    Click(17, DesktopIconWriter, "[data-app=\"writer\"]"),
    Show(18, ExploreType),
    QuizWriter,
    Show(20, ExploreType),
    Show(21, CompletionType)
  ]

  /** `getTotalSteps`. */
  function TotalSteps(): nat {
    |Steps|
  }

  /** `steps.find((s) => s.id === id)`: the first step carrying `id`. */
  function Find(steps: seq<Step>, id: int): (r: Option<Step>)
    ensures r.Some? ==> r.value in steps && r.value.id == id
    ensures r.None? ==> forall i :: 0 <= i < |steps| ==> steps[i].id != id
  {
    if |steps| == 0 then None
    else if steps[0].id == id then Some(steps[0])
    else Find(steps[1..], id)
  }

  /** `getStepById`. */
  function StepById(id: int): Option<Step> {
    Find(Steps, id)
  }

  /** The number of options marked correct. */
  function CorrectCount(options: seq<QcmOption>): nat {
    if |options| == 0 then 0
    else (if options[0].isCorrect then 1 else 0) + CorrectCount(options[1..])
  }

  /** The label of the first option marked correct, if any. */
  function CorrectLabel(options: seq<QcmOption>): Option<string> {
    if |options| == 0 then None
    else if options[0].isCorrect then Some(options[0].text)
    else CorrectLabel(options[1..])
  }

  // ---------------------------------------------------------------------
  // Facts about the table

  /** The ids of a table are 1, 2, ... in array order. */
  predicate Numbered(steps: seq<Step>) {
    forall i :: 0 <= i < |steps| ==> steps[i].id == i + 1
  }

  /** The shipped table is numbered 1 to 21, so `getTotalSteps()` is 21. */
  lemma StepTableIds()
    ensures TotalSteps() == 21 && Numbered(Steps)
  {
  }

  /** In a run of consecutive ids starting at `base`, `find` returns the element at `id - base`, and nothing outside the run. */
  lemma {:induction false} FindConsecutive(steps: seq<Step>, base: int, id: int)
    requires forall i :: 0 <= i < |steps| ==> steps[i].id == base + i
    ensures Find(steps, id) == if base <= id < base + |steps| then Some(steps[id - base]) else None
  {
    if |steps| > 0 && id != base {
      FindConsecutive(steps[1..], base + 1, id);
    }
  }

  /** In a numbered table, `find` returns the step at position `id - 1` for the ids 1 to the length, and nothing otherwise. */
  lemma FindNumbered(steps: seq<Step>, id: int)
    requires Numbered(steps)
    ensures Find(steps, id) == if 1 <= id <= |steps| then Some(steps[id - 1]) else None
  {
    FindConsecutive(steps, 1, id);
  }

  /** `getStepById(id)` is step `id` of the shipped table for the ids 1 to 21, and undefined otherwise. */
  lemma StepByIdIndex(id: int)
    ensures StepById(id) == if 1 <= id <= 21 then Some(Steps[id - 1]) else None
  {
    StepTableIds();
    FindNumbered(Steps, id);
  }
}
