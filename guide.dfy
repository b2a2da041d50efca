/** The onboarding guide: a three-step wizard (discover a path, choose a
    solution, get started) whose state is the current step, the chosen
    path and solution, the submission dialog and its form. The handlers
    are specified by `Handle` on `GuideState`; `Wizard` holds the same
    state in fields and updates it in place. The submission is posted to
    the contact endpoint, always in English. */
module Guide {
  import opened Optional
  import Js
  import Text
  import LanguageProvider
  import Contact

  datatype SubmitStatus = Idle | Succeeded | Failed

  /** The dialog's form. `subject` is never edited; the subject sent is
      composed from the chosen solution. */
  datatype GuideForm = GuideForm(name: string, email: string, subject: string, message: string,
                                 projectDetails: string, url: string)

  const EmptyForm: GuideForm := GuideForm("", "", "", "", "", "")

  /** The inputs of the dialog, by their `name` attribute. */
  datatype Field = NameField | EmailField | MessageField | DetailsField | UrlField

  function WithField(f: GuideForm, field: Field, value: string): (r: GuideForm)
    ensures field == NameField ==> r == f.(name := value)
    ensures field == EmailField ==> r == f.(email := value)
    ensures field == MessageField ==> r == f.(message := value)
    ensures field == DetailsField ==> r == f.(projectDetails := value)
    ensures field == UrlField ==> r == f.(url := value)
  {
    match field
    case NameField => f.(name := value)
    case EmailField => f.(email := value)
    case MessageField => f.(message := value)
    case DetailsField => f.(projectDetails := value)
    case UrlField => f.(url := value)
  }

  datatype GuideState = GuideState(
    currentStep: int, selectedPath: Option<string>, selectedSolution: Option<string>,
    isModalOpen: bool, form: GuideForm, isSubmitting: bool, submitStatus: SubmitStatus)

  /** How a submission ended: a 2xx response, another response, or a
      thrown `fetch`. */
  datatype Outcome = ResponseOk | ResponseNotOk | FetchThrew

  datatype Event =
    | StartJourney
    | SelectPath(path: string)
    | SelectSolution(solution: string)
    | StepClick(stepIndex: int)
    | StartOver
    | SetModalOpen(open: bool)
    | ChangeField(field: Field, value: string)
    | Submit
    | SubmitFinished(outcome: Outcome)
    | SuccessTimerElapsed

  /** The first render: step 0, nothing chosen, the dialog closed. */
  function Initial(): GuideState {
    GuideState(0, None, None, false, EmptyForm, false, Idle)
  }

  /** The submit button is disabled while a submission runs and while a
      required field is empty. */
  predicate SubmitEnabled(s: GuideState) {
    !s.isSubmitting && s.form.name != "" && s.form.email != "" && s.form.message != ""
  }

  /** The handlers. */
  function Handle(s: GuideState, e: Event): GuideState {
    match e
    case StartJourney => s.(currentStep := 1)
    case SelectPath(p) => s.(selectedPath := Some(p), currentStep := 2)
    case SelectSolution(x) => s.(selectedSolution := Some(x), currentStep := 3)
    case StepClick(i) => if i <= s.currentStep then s.(currentStep := i) else s
    case StartOver => s.(currentStep := 0, selectedPath := None, selectedSolution := None)
    case SetModalOpen(b) => s.(isModalOpen := b)
    case ChangeField(f, v) => s.(form := WithField(s.form, f, v))
    case Submit => if SubmitEnabled(s) then s.(isSubmitting := true, submitStatus := Idle) else s
    case SubmitFinished(o) =>
      if o == ResponseOk then s.(submitStatus := Succeeded, form := EmptyForm, isSubmitting := false)
      else s.(submitStatus := Failed, isSubmitting := false)
    case SuccessTimerElapsed => s.(isModalOpen := false, submitStatus := Idle)
  }

  const Paths: seq<string> := ["startup", "scale"]

  /** The solution cards step 2 shows for a path: the startup ones for
      "startup", the scale-up ones otherwise. */
  function PathSolutions(path: Option<string>): seq<string> {
    if path == Some("startup") then ["mvp", "validation", "website", "other"]
    else ["marketing", "ai", "process", "other"]
  }

  /** What the page lets a visitor do: each step's cards are shown only
      from that step on, the stepper's circles are numbered 1 to 3, the
      dialog is opened from step 3, and while it is open the page behind
      it takes no clicks. The dialog's own events are always possible. */
  predicate Enabled(s: GuideState, e: Event) {
    match e
    case StartJourney => !s.isModalOpen
    case SelectPath(p) => !s.isModalOpen && s.currentStep >= 1 && p in Paths
    case SelectSolution(x) => !s.isModalOpen && s.currentStep >= 2 && x in PathSolutions(s.selectedPath)
    case StepClick(i) => !s.isModalOpen && 1 <= i <= 3
    case StartOver => !s.isModalOpen && s.currentStep >= 3
    case SetModalOpen(b) => b ==> s.currentStep >= 3
    case _ => true
  }

  /** What the enabled events keep: the step is 0 to 3, from step 2 on a
      path is chosen, at step 3 a solution of that path is chosen, and the
      dialog is only open at step 3. */
  predicate Inv(s: GuideState) {
    && 0 <= s.currentStep <= 3
    && (s.currentStep >= 2 ==> s.selectedPath.Some? && s.selectedPath.value in Paths)
    && (s.currentStep >= 3 ==> s.selectedSolution.Some? && s.selectedSolution.value in PathSolutions(s.selectedPath))
    && (s.isModalOpen ==> s.currentStep == 3)
  }

  // ---- labels ----

  const NotSelectedKey: string := "guide.solution.notSelected"

  const KnownSolutions: seq<string> := ["mvp", "validation", "website", "marketing", "ai", "process", "other"]

  function PathLabelKey(path: Option<string>): (k: string)
    ensures path == Some("startup") ==> k == "guide.path.startup.label"
    ensures path != Some("startup") ==> k == "guide.path.scale.label"
  {
    if path == Some("startup") then "guide.path.startup.label" else "guide.path.scale.label"
  }

  /** `getSelectedPathLabel`. */
  function PathLabel(tables: LanguageProvider.Translations, l: LanguageProvider.Language, path: Option<string>): string {
    LanguageProvider.Translate(tables, l, PathLabelKey(path))
  }

  /** The key of a solution's label in `solutionLabels`; None for a
      solution the table does not list, and for none at all. */
  function SolutionLabelKey(solution: Option<string>): (k: Option<string>)
    ensures k.Some? <==> solution.Some? && solution.value in KnownSolutions
    ensures k.Some? ==> k.value == "guide.solution." + solution.value + ".label"
  {
    if solution.Some? && solution.value in KnownSolutions then Some("guide.solution." + solution.value + ".label")
    else None
  }

  /** `getSelectedSolutionLabel`: the solution's label, or the "not
      selected" text when the solution is unknown or its label is empty. */
  function SolutionLabel(tables: LanguageProvider.Translations, l: LanguageProvider.Language,
                         solution: Option<string>): (r: string)
    ensures SolutionLabelKey(solution).None? ==> r == LanguageProvider.Translate(tables, l, NotSelectedKey)
    ensures SolutionLabelKey(solution).Some? ==>
              (var caption := LanguageProvider.Translate(tables, l, SolutionLabelKey(solution).value);
               r == if caption != "" then caption else LanguageProvider.Translate(tables, l, NotSelectedKey))
  {
    match SolutionLabelKey(solution)
    case Some(k) =>
      var caption := LanguageProvider.Translate(tables, l, k);
      if caption != "" then caption else LanguageProvider.Translate(tables, l, NotSelectedKey)
    case None => LanguageProvider.Translate(tables, l, NotSelectedKey)
  }

  // ---- the submission ----

  const NoneProvided: string := "None provided"

  /** `${v || 'None provided'}` */
  function OrNoneProvided(v: string): (r: string)
    ensures v != "" ==> r == v
    ensures v == "" ==> r == NoneProvided
  {
    if v != "" then v else NoneProvided
  }

  /** The lines of the message sent, between the line breaks of the
      template. */
  function MessageLines(pathLabel: string, solutionLabel: string, f: GuideForm): (lines: seq<string>)
    ensures |lines| == 15
  {
    ["Guide Submission Details:", "",
     "Selected Path: " + pathLabel, "Selected Solution: " + solutionLabel, "",
     "Project Description:", f.message, "",
     "Additional Details:", OrNoneProvided(f.projectDetails), "",
     "Website URL:", OrNoneProvided(f.url), "",
     "Source: Guide Form"]
  }

  const SubjectPrefix: string := "Guide Request: "

  /** The JSON body posted to the contact endpoint: the visitor's name and
      e-mail, the subject and message composed from the current state, and
      the language fixed to English. */
  function Request(s: GuideState, tables: LanguageProvider.Translations, l: LanguageProvider.Language): (r: Contact.ContactBody)
    ensures r.ContactRequest?
    ensures r.name == Js.Str(s.form.name) && r.email == Js.Str(s.form.email)
    ensures r.language == Js.Str("en")
  {
    var solution := SolutionLabel(tables, l, s.selectedSolution);
    Contact.ContactRequest(
      Js.Str(s.form.name), Js.Str(s.form.email),
      Js.Str(SubjectPrefix + solution),
      Js.Str(Text.Join(MessageLines(PathLabel(tables, l, s.selectedPath), solution, s.form))),
      Js.Str("en"))
  }

  // ---- the stepper ----

  datatype Badge = Completed | Current | Upcoming

  /** The look of the stepper's circle at `index` (0 to 2, numbered
      `index + 1`). */
  function CircleBadge(s: GuideState, index: int): Badge {
    if s.currentStep > index then Completed
    else if s.currentStep == index then Current
    else Upcoming
  }

  /** A circle is clickable when its number is at most the current step. */
  predicate CircleClickable(s: GuideState, index: int) {
    index + 1 <= s.currentStep
  }

  /** The page's state, updated in place by its handlers. */
  class Wizard {
    var currentStep: int
    var selectedPath: Option<string>
    var selectedSolution: Option<string>
    var isModalOpen: bool
    var form: GuideForm
    var isSubmitting: bool
    var submitStatus: SubmitStatus

    function State(): GuideState
      reads this
    {
      GuideState(currentStep, selectedPath, selectedSolution, isModalOpen, form, isSubmitting, submitStatus)
    }

    constructor()
      ensures State() == Initial()
    {
      currentStep, selectedPath, selectedSolution := 0, None, None;
      isModalOpen, form, isSubmitting, submitStatus := false, EmptyForm, false, Idle;
    }

    /** `handleStartJourney`. */
    method StartJourney()
      modifies this
      ensures State() == Handle(old(State()), Event.StartJourney)
    {
      currentStep := 1;
    }

    /** `handlePathSelection`. */
    method SelectPath(path: string)
      modifies this
      ensures State() == Handle(old(State()), Event.SelectPath(path))
    {
      selectedPath := Some(path);
      currentStep := 2;
    }

    /** `handleSolutionSelection`. */
    method SelectSolution(solution: string)
      modifies this
      ensures State() == Handle(old(State()), Event.SelectSolution(solution))
    {
      selectedSolution := Some(solution);
      currentStep := 3;
    }

    /** `handleStepClick`: only back to an earlier step or the current one. */
    method StepClick(stepIndex: int)
      modifies this
      ensures State() == Handle(old(State()), Event.StepClick(stepIndex))
    {
      if stepIndex <= currentStep {
        currentStep := stepIndex;
      }
    }

    /** `handleStartOver`. */
    method StartOver()
      modifies this
      ensures State() == Handle(old(State()), Event.StartOver)
    {
      currentStep := 0;
      selectedPath := None;
      selectedSolution := None;
    }

    /** The step-3 button opens the dialog; its cancel button and its own
        close gesture close it. */
    method SetModalOpen(open: bool)
      modifies this
      ensures State() == Handle(old(State()), Event.SetModalOpen(open))
    {
      isModalOpen := open;
    }

    /** `handleFormChange`. */
    method ChangeField(field: Field, value: string)
      modifies this
      ensures State() == Handle(old(State()), Event.ChangeField(field, value))
    {
      form := WithField(form, field, value);
    }

    /** The start of `handleSubmit`: returns the body posted, or None when
        the submit button is disabled. */
    method Submit(tables: LanguageProvider.Translations, l: LanguageProvider.Language)
      returns (request: Option<Contact.ContactBody>)
      modifies this
      ensures request == if SubmitEnabled(old(State())) then Some(Request(old(State()), tables, l)) else None
      ensures State() == Handle(old(State()), Event.Submit)
    {
      if isSubmitting || form.name == "" || form.email == "" || form.message == "" {
        return None;
      }
      request := Some(Request(State(), tables, l));
      isSubmitting := true;
      submitStatus := Idle;
    }

    /** The end of `handleSubmit`. */
    method SubmitFinished(outcome: Outcome)
      modifies this
      ensures State() == Handle(old(State()), Event.SubmitFinished(outcome))
    {
      if outcome == ResponseOk {
        submitStatus := Succeeded;
        form := EmptyForm;
      } else {
        submitStatus := Failed;
      }
      isSubmitting := false;
    }

    /** The timer a success starts: two seconds later the dialog closes. */
    method SuccessTimerElapsed()
      modifies this
      ensures State() == Handle(old(State()), Event.SuccessTimerElapsed)
    {
      isModalOpen := false;
      submitStatus := Idle;
    }
  }

  // ---- properties ----

  lemma InitialKeepsInv()
    ensures Inv(Initial()) && Initial().currentStep == 0
  {
  }

  /** Every enabled event keeps the invariant. */
  lemma {:induction false} HandleKeepsInv(s: GuideState, e: Event)
    requires Inv(s) && Enabled(s, e)
    ensures Inv(Handle(s, e))
  {
    match e
    case SelectSolution(x) =>
      assert s.currentStep >= 2;
    case StepClick(i) =>
      assert 1 <= i;
    case _ =>
  }

  /** The stepper only goes back: a click on a step beyond the current one
      changes nothing, any other click moves to it, and neither touches
      the choices. */
  lemma StepClickOnlyBack(s: GuideState, i: int)
    ensures Handle(s, StepClick(i)).currentStep == (if i <= s.currentStep then i else s.currentStep)
    ensures Handle(s, StepClick(i)).currentStep <= s.currentStep
    ensures Handle(s, StepClick(i)) == s <==> i >= s.currentStep
    ensures Handle(s, StepClick(i)).selectedPath == s.selectedPath
    ensures Handle(s, StepClick(i)).selectedSolution == s.selectedSolution
  {
  }

  /** A circle that is not clickable is ignored: clicks reach only the
      steps the stepper shows as clickable. */
  lemma ClickableCircles(s: GuideState, index: int)
    requires 0 <= index <= 2 && !CircleClickable(s, index)
    ensures Handle(s, StepClick(index + 1)) == s
  {
  }

  /** Only `handleStartOver` returns to step 0, and it forgets both choices;
      starting over twice is starting over once. */
  lemma StartOverResets(s: GuideState, e: Event)
    requires Inv(s) && Enabled(s, e) && e != StartOver
    ensures Handle(s, StartOver).currentStep == 0
    ensures Handle(s, StartOver).selectedPath.None? && Handle(s, StartOver).selectedSolution.None?
    ensures Handle(Handle(s, StartOver), StartOver) == Handle(s, StartOver)
    ensures Handle(s, e).currentStep == 0 ==> s.currentStep == 0
  {
  }

  /** Choosing a path or a solution moves to the next step; a solution
      chosen earlier survives a change of path. */
  lemma SelectionsAdvance(s: GuideState, p: string, x: string)
    ensures Handle(s, SelectPath(p)).currentStep == 2 && Handle(s, SelectPath(p)).selectedPath == Some(p)
    ensures Handle(s, SelectPath(p)).selectedSolution == s.selectedSolution
    ensures Handle(s, SelectSolution(x)).currentStep == 3 && Handle(s, SelectSolution(x)).selectedSolution == Some(x)
    ensures Handle(s, StartJourney).currentStep == 1
  {
  }

  /** The stepper's circles: those before the current step are completed,
      the one at it is current, and at step 3 all three are completed. */
  lemma CircleBadges(s: GuideState)
    requires Inv(s)
    ensures forall i :: 0 <= i <= 2 && i < s.currentStep ==> CircleBadge(s, i) == Completed
    ensures s.currentStep <= 2 ==> CircleBadge(s, s.currentStep) == Current
    ensures s.currentStep == 3 ==> CircleBadge(s, 0) == Completed && CircleBadge(s, 2) == Completed
    ensures forall i :: 0 <= i <= 2 ==> (CircleClickable(s, i) <==> CircleBadge(s, i) == Completed)
  {
  }

  /** Only "startup" gives the startup label; any other path, and none,
      gives the scale-up label. */
  lemma PathLabelOnlyStartup(tables: LanguageProvider.Translations, l: LanguageProvider.Language, path: Option<string>)
    requires path != Some("startup")
    ensures PathLabel(tables, l, path) == PathLabel(tables, l, None)
    ensures PathLabel(tables, l, path) == PathLabel(tables, l, Some("scale"))
  {
  }

  /** An unknown solution reads like no solution. */
  lemma UnknownSolutionNotSelected(tables: LanguageProvider.Translations, l: LanguageProvider.Language, x: string)
    requires x !in KnownSolutions
    ensures SolutionLabel(tables, l, Some(x)) == SolutionLabel(tables, l, None)
  {
  }

  /** The dialog is only open at step 3, where the chosen solution is one
      of the path's cards, so the subject sent never falls back to the
      "not selected" key for want of a known solution. */
  lemma {:induction false} DialogSolutionKnown(s: GuideState)
    requires Inv(s) && s.isModalOpen
    ensures SolutionLabelKey(s.selectedSolution).Some?
  {
    var x := s.selectedSolution.value;
    assert x in PathSolutions(s.selectedPath);
    assert x in KnownSolutions;
  }

  /** The submit button: a click while it is disabled changes nothing, and
      a submission in progress blocks a second one. */
  lemma SubmitGuard(s: GuideState)
    ensures Handle(s, Submit) == s <==> !SubmitEnabled(s)
    ensures SubmitEnabled(s) ==> Handle(s, Submit).isSubmitting && !SubmitEnabled(Handle(s, Submit))
  {
  }

  /** A success empties the form and shows the success text; a failed
      response or a thrown request keeps the form and shows the error.
      Either way the button is released. */
  lemma SubmitOutcome(s: GuideState, o: Outcome)
    ensures !Handle(s, SubmitFinished(o)).isSubmitting
    ensures o == ResponseOk ==> Handle(s, SubmitFinished(o)).form == EmptyForm &&
                                 Handle(s, SubmitFinished(o)).submitStatus == Succeeded
    ensures o != ResponseOk ==> Handle(s, SubmitFinished(o)).form == s.form &&
                                 Handle(s, SubmitFinished(o)).submitStatus == Failed
    ensures Handle(s, SubmitFinished(o)).currentStep == s.currentStep
  {
  }

  lemma MessageLiteralsSingleLine()
    ensures Text.NoNewline("Guide Submission Details:") && Text.NoNewline("Selected Path: ")
    ensures Text.NoNewline("Selected Solution: ") && Text.NoNewline("Project Description:")
    ensures Text.NoNewline("Additional Details:") && Text.NoNewline("Website URL:")
    ensures Text.NoNewline("Source: Guide Form") && Text.NoNewline(NoneProvided)
  {
    HeadingsSingleLine();
    CaptionsSingleLine();
    ClosingSingleLine();
  }

  lemma HeadingsSingleLine()
    ensures Text.NoNewline("Guide Submission Details:") && Text.NoNewline("Project Description:")
  {
  }

  lemma CaptionsSingleLine()
    ensures Text.NoNewline("Selected Path: ") && Text.NoNewline("Selected Solution: ")
    ensures Text.NoNewline("Additional Details:")
  {
  }

  lemma ClosingSingleLine()
    ensures Text.NoNewline("Website URL:") && Text.NoNewline("Source: Guide Form") && Text.NoNewline(NoneProvided)
  {
  }

  /** Read line by line, the message sent names the path and the solution
      on lines 2 and 3, quotes the description on line 6 and gives the
      details and the URL, or "None provided", on lines 9 and 12. */
  lemma MessageSections(pathLabel: string, solutionLabel: string, f: GuideForm)
    requires Text.NoNewline(pathLabel) && Text.NoNewline(solutionLabel)
    requires Text.NoNewline(f.message) && Text.NoNewline(f.projectDetails) && Text.NoNewline(f.url)
    ensures var lines := Text.SplitLines(Text.Join(MessageLines(pathLabel, solutionLabel, f)));
      && |lines| == 15
      && lines[2] == "Selected Path: " + pathLabel
      && lines[3] == "Selected Solution: " + solutionLabel
      && lines[6] == f.message
      && lines[9] == (if f.projectDetails == "" then NoneProvided else f.projectDetails)
      && lines[12] == (if f.url == "" then NoneProvided else f.url)
  {
    MessageLiteralsSingleLine();
    var lines := MessageLines(pathLabel, solutionLabel, f);
    assert forall i :: 0 <= i < |lines| ==> Text.NoNewline(lines[i]);
    Text.SplitJoin(lines);
  }

  /** The contact endpoint answers a guide submission in English whatever
      the page's language, under the subject
      "New Contact Form Submission: Guide Request: <solution label>". */
  lemma RequestIsEnglish(s: GuideState, tables: LanguageProvider.Translations, l: LanguageProvider.Language)
    ensures !Contact.IsDutch(Request(s, tables, l).language)
    ensures Contact.Subject(Request(s, tables, l), false) ==
            Contact.Words(false).title + ": " + SubjectPrefix + SolutionLabel(tables, l, s.selectedSolution)
  {
    var r := Request(s, tables, l);
    assert "en" != "nl" by { assert "en"[0] != "nl"[0]; }
    assert Js.Render(r.subject) == SubjectPrefix + SolutionLabel(tables, l, s.selectedSolution);
  }
}
