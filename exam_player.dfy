/**
 * The student's exam session (`src/pages/Student/ExamPlayer.jsx`): three
 * timed modules run in a fixed order, a one-second countdown that
 * auto-advances, violation counting from three browser signals, the
 * fullscreen gate in front of the content, the answer map and the final
 * submission.
 *
 * Every React state cell is a field of `ExamSession`; every event handler,
 * timer callback and network completion is one method. The outcomes of
 * the network calls (loading the exam, reporting a violation, submitting)
 * are parameters.
 */
module ExamPlayer {
  import opened Wrappers
  import opened JsValues
  import opened JsStrings

  datatype Module = Listening | Reading | Writing {
    /** The `module_type` string the questions of this module carry. */
    function Name(): string {
      match this
      case Listening => "listening"
      case Reading => "reading"
      case Writing => "writing"
    }
  }

  /** `MODULE_ORDER`. */
  const ModuleOrder: seq<Module> := [Listening, Reading, Writing]

  /** `MODULE_DURATIONS`, in minutes. */
  function DurationMinutes(m: Module): nat {
    match m
    case Listening => 30
    case Reading => 60
    case Writing => 60
  }

  /** The countdown a module starts with: its minutes times 60. */
  function ModuleSeconds(i: nat): nat
    requires i < |ModuleOrder|
  {
    DurationMinutes(ModuleOrder[i]) * 60
  }

  /** The fields of a question that the player reads. */
  datatype Question = Question(id: string, moduleType: string)

  /** The loaded exam, as far as the player reads it (a missing `questions` list is empty). */
  datatype Exam = Exam(questions: seq<Question>)

  /** `q => q.module_type === currentModule`. */
  function OfModule(m: Module): Question -> bool {
    (q: Question) => q.moduleType == m.Name()
  }

  /** Position `i` holds the first question of module `m`. */
  predicate FirstOfModule(questions: seq<Question>, m: Module, i: int) {
    && 0 <= i < |questions| && questions[i].moduleType == m.Name()
    && forall j :: 0 <= j < i ==> questions[j].moduleType != m.Name()
  }

  /**
   * `exam.questions?.filter(q => q.module_type === currentModule) || []`:
   * the module's questions in exam order, each exactly once, so the first
   * one is the module's first question in the exam.
   */
  function ModuleQuestions(exam: Exam, m: Module): (r: seq<Question>)
    ensures forall i :: 0 <= i < |r| ==> r[i] in exam.questions && r[i].moduleType == m.Name()
    ensures forall i :: 0 <= i < |exam.questions| && exam.questions[i].moduleType == m.Name() ==> exam.questions[i] in r
    ensures SubseqAt(r, exam.questions, KeptPositions(exam.questions, OfModule(m)))
    ensures forall i :: FirstOfModule(exam.questions, m, i) ==> |r| > 0 && r[0] == exam.questions[i]
  {
    FilterAtKeptPositions(exam.questions, OfModule(m));
    FilterFirst(exam.questions, OfModule(m));
    Filter(exam.questions, OfModule(m))
  }

  /** The violation types reported to the server. */
  datatype ViolationType = TabSwitch | WindowBlur | FullscreenExit {
    function Name(): string {
      match this
      case TabSwitch => "tab_switch"
      case WindowBlur => "window_blur"
      case FullscreenExit => "fullscreen_exit"
    }
  }

  /** The three browser signals the session listens to, with what the handler reads from the document. */
  datatype Signal =
    | VisibilityChanged(hidden: bool)      // `visibilitychange`, with `document.hidden`
    | Blurred                              // window `blur`
    | FullscreenChanged(entered: bool)     // `fullscreenchange`, with whether `document.fullscreenElement` is set

  /** The violation a signal reports, if any. */
  function Classify(sig: Signal): (r: Option<ViolationType>)
    ensures r.None? <==> (sig.VisibilityChanged? && !sig.hidden) || (sig.FullscreenChanged? && sig.entered)
    ensures r == Some(TabSwitch) <==> sig == VisibilityChanged(true)
    ensures r == Some(WindowBlur) <==> sig == Blurred
    ensures r == Some(FullscreenExit) <==> sig == FullscreenChanged(false)
  {
    match sig
    case VisibilityChanged(hidden) => if hidden then Some(TabSwitch) else None
    case Blurred => Some(WindowBlur)
    case FullscreenChanged(entered) => if entered then None else Some(FullscreenExit)
  }

  /** What the screen shows: the render function's early returns, then the module content. */
  datatype View = LoadingView | FullscreenPrompt | ModuleContent(shown: Module)

  /** The body sent to the submit endpoint. */
  datatype Submission = Submission(answers: map<string, string>, timeSpentByModule: map<string, nat>)

  const DashboardPath: string := "/student/dashboard"

  /** The `setTimeLeft` updater of the one-second interval: the value it returns. */
  function TickUpdate(prev: int): (r: int)
    ensures r >= 0
    ensures prev > 1 ==> r == prev - 1
    ensures prev <= 1 ==> r == 0
  {
    if prev <= 1 then 0 else prev - 1
  }

  /** `{ ...answers, [key]: value }`. */
  function RecordAnswer(answers: map<string, string>, key: string, value: string): (r: map<string, string>)
    ensures r.Keys == answers.Keys + {key}
    ensures r[key] == value
    ensures forall k :: k in answers && k != key ==> r[k] == answers[k]
  {
    answers[key := value]
  }

  /** Writing the same key twice keeps only the second value; the first write leaves no trace. */
  lemma OverwriteKeepsLast(answers: map<string, string>, key: string, v1: string, v2: string)
    ensures RecordAnswer(RecordAnswer(answers, key, v1), key, v2) == RecordAnswer(answers, key, v2)
  {
  }

  /** The key the essay box writes under: the first writing question's id, or `'writing_task'` when there is none or its id is empty. */
  function EssayKey(current: seq<Question>): (k: string)
    ensures k != ""
    ensures |current| > 0 && current[0].id != "" ==> k == current[0].id
    ensures (|current| == 0 || current[0].id == "") ==> k == "writing_task"
  {
    if |current| > 0 && current[0].id != "" then current[0].id else "writing_task"
  }

  /** The essay is stored under the id of the exam's first writing question, or `'writing_task'` when that id is empty or there is no writing question. */
  lemma EssayKeyOfExam(exam: Exam)
    ensures forall i :: FirstOfModule(exam.questions, Writing, i) ==>
      EssayKey(ModuleQuestions(exam, Writing)) == if exam.questions[i].id != "" then exam.questions[i].id else "writing_task"
    ensures (forall i :: 0 <= i < |exam.questions| ==> exam.questions[i].moduleType != "writing") ==>
      EssayKey(ModuleQuestions(exam, Writing)) == "writing_task"
  {
    var r := ModuleQuestions(exam, Writing);
    if |r| > 0 {
      assert r[0] in exam.questions;
    }
  }

  /** The clock in the top bar: `Math.floor(t / 60) + ":" + String(t % 60).padStart(2, "0")`. */
  function TimerText(t: nat): string {
    DecimalString(t / 60) + ":" + PadStart(DecimalString(t % 60), 2)
  }

  /** The clock shows minutes and exactly two digits of seconds below 60, and reads back as `t`. */
  lemma TimerTextReadsBack(t: nat)
    ensures var text := TimerText(t);
      && |text| >= 4 && text[|text| - 3] == ':' && ReadClock(text) == Some(t)
      && AllDigits(text[..|text| - 3]) && DigitsValue(text[..|text| - 3]) == t / 60
      && AllDigits(text[|text| - 2..]) && DigitsValue(text[|text| - 2..]) == t % 60 < 60
  {
    var m, s := t / 60, t % 60;
    assert 60 * m + s == t;
    var md := DecimalString(m);
    var padded := PadStart(DecimalString(s), 2);
    DecimalStringRoundTrip(m);
    PadTwoDigits(s);
    ClockOfParts(md, padded);
    assert TimerText(t) == md + ":" + padded;
  }

  /** `minutes + ":" + seconds` with two digits of seconds: where each part sits, and what the text reads back as. */
  lemma ClockOfParts(minutes: string, seconds: string)
    requires minutes != [] && AllDigits(minutes) && |seconds| == 2 && AllDigits(seconds)
    ensures var text := minutes + ":" + seconds;
      && |text| >= 4 && text[|text| - 3] == ':'
      && ReadClock(text) == Some(60 * DigitsValue(minutes) + DigitsValue(seconds))
      && text[..|text| - 3] == minutes && text[|text| - 2..] == seconds
  {
    var text := minutes + ":" + seconds;
    assert text[..|text| - 3] == minutes;
    assert text[|text| - 2..] == seconds;
    ReadClockOfParts(minutes, seconds);
  }

  /*
   * `requestFullScreen` as written: it calls the browser and sets the flag
   * only when `containerRef.current` is set. The ref is attached to the root
   * of the module content only, and the button that calls the handler sits
   * on the fullscreen prompt, when the content is not on screen.
   */

  /** Whether `containerRef.current` is set while `view` is on screen, as the component is written. */
  function ContainerRefSetAsWritten(view: View): bool {
    view.ModuleContent?
  }

  /** Whether `containerRef.current` is set while `view` is on screen once the prompt's root also carries the ref. */
  function ContainerRefSet(view: View): bool {
    view.FullscreenPrompt? || view.ModuleContent?
  }

  /** `isFullScreen` after `requestFullScreen` runs: set when the container ref is set, unchanged otherwise. */
  function FullScreenAfterRequest(refSet: bool, isFullScreen: bool): bool {
    if refSet then true else isFullScreen
  }

  /**
   * As written, the handler sets a cleared flag only from the module
   * content's view, so pressing "Enter Full Screen to Start" on the prompt
   * leaves the prompt on screen.
   */
  lemma PromptButtonDoesNothingAsWritten()
    ensures forall v :: FullScreenAfterRequest(ContainerRefSetAsWritten(v), false) <==> v.ModuleContent?
    ensures !FullScreenAfterRequest(ContainerRefSetAsWritten(FullscreenPrompt), false)
  {
  }

  /** With the ref on the prompt's root as well, the handler sets the flag from the prompt and the content alike. */
  lemma PromptButtonEntersFullScreen()
    ensures forall v :: FullScreenAfterRequest(ContainerRefSet(v), false) <==> !v.LoadingView?
    ensures FullScreenAfterRequest(ContainerRefSet(FullscreenPrompt), false)
  {
  }

  class ExamSession {
    var loading: bool
    var exam: Option<Exam>
    /** The position of `currentModule` in `ModuleOrder`. */
    var moduleIndex: nat
    var timeLeft: int
    var answers: map<string, string>
    var violationCount: nat
    var isFullScreen: bool
    /** Where the component navigated to; once set, it is unmounted and receives no further events. */
    var location: Option<string>
    /**
     * The answer map the running interval's callback closes over: the timer
     * effect re-runs only when `exam` or `timeLeft` changes, so this is the
     * map of the render in which one of them last changed.
     */
    var intervalAnswers: map<string, string>

    ghost predicate Valid()
      reads this
    {
      && moduleIndex < |ModuleOrder|
      && timeLeft >= 0
      && (exam.None? ==> moduleIndex == 0 && timeLeft == 0)
      && (loading ==> exam.None? && location.None?)
      && (!loading && location.None? ==> exam.Some?)
    }

    /** The page is still mounted: no navigation has happened. */
    predicate Mounted()
      reads this
    {
      location.None?
    }

    /** The interval exists only while the exam is loaded and `timeLeft` is positive. */
    predicate TimerRunning()
      reads this
    {
      exam.Some? && timeLeft > 0
    }

    function CurrentModule(): Module
      reads this
      requires Valid()
    {
      ModuleOrder[moduleIndex]
    }

    /** What the component renders: the loading text, else the fullscreen prompt until the flag is set, else the current module. */
    function Screen(): (v: View)
      reads this
      requires Valid()
      ensures v == LoadingView <==> loading
      ensures v == FullscreenPrompt <==> !loading && !isFullScreen
      ensures v.ModuleContent? <==> !loading && isFullScreen
      ensures v.ModuleContent? ==> v.shown == CurrentModule()
    {
      if loading then LoadingView
      else if !isFullScreen then FullscreenPrompt
      else ModuleContent(CurrentModule())
    }

    /** The questions of the current module, whose answer boxes are on screen. */
    function CurrentQuestions(): seq<Question>
      reads this
      requires Valid() && exam.Some?
    {
      ModuleQuestions(exam.value, CurrentModule())
    }

    /** Mounting: nothing loaded, listening, no time, no answers, no violations, not fullscreen. */
    constructor ()
      ensures Valid() && Mounted() && loading
      ensures exam.None? && moduleIndex == 0 && timeLeft == 0
      ensures answers == map[] && violationCount == 0 && !isFullScreen
      ensures intervalAnswers == map[]
    {
      loading := true;
      exam := None;
      moduleIndex := 0;
      timeLeft := 0;
      answers := map[];
      violationCount := 0;
      isFullScreen := false;
      location := None;
      intervalAnswers := map[];
    }

    /**
     * `fetchExam` completes: on success the exam is stored and the clock set
     * to the listening duration; on failure the page navigates back to the
     * dashboard.
     */
    method ExamLoaded(result: Option<Exam>)
      requires Valid() && loading
      modifies this
      ensures Valid() && !loading
      ensures result.Some? ==> exam == result && moduleIndex == 0 && timeLeft == 30 * 60 && Mounted()
      ensures result.None? ==> exam.None? && timeLeft == 0 && location == Some(DashboardPath)
      ensures answers == old(answers) && violationCount == old(violationCount) && isFullScreen == old(isFullScreen)
      ensures intervalAnswers == if result.Some? then answers else old(intervalAnswers)
    {
      if result.Some? {
        exam := result;
        timeLeft := ModuleSeconds(0);
        intervalAnswers := answers;
      } else {
        location := Some(DashboardPath);
      }
      loading := false;
    }

    /**
     * `handleSubmit` of the render whose answer map is `seen`: sends that
     * whole map with an empty `time_spent_by_module`; on success it leaves
     * for the dashboard, on failure nothing changes.
     */
    method Submit(ok: bool, seen: map<string, string>) returns (sent: Submission)
      requires Valid() && Mounted() && exam.Some?
      modifies this`location
      ensures Valid()
      ensures sent == Submission(seen, map[])
      ensures location == if ok then Some(DashboardPath) else None
    {
      sent := Submission(seen, map[]);
      if ok {
        location := Some(DashboardPath);
      }
    }

    /**
     * `handleModuleComplete` of the render whose answer map is `seen`: moves
     * to the next module of `ModuleOrder` and restarts the clock at that
     * module's duration; from writing it submits `seen` instead.
     */
    method CompleteModule(submitOk: bool, seen: map<string, string>) returns (sent: Option<Submission>)
      requires Valid() && Mounted() && exam.Some?
      modifies this
      ensures Valid()
      ensures old(moduleIndex) < |ModuleOrder| - 1 ==>
        && moduleIndex == old(moduleIndex) + 1
        && timeLeft == ModuleSeconds(moduleIndex)
        && sent.None? && Mounted()
      ensures old(moduleIndex) == |ModuleOrder| - 1 ==>
        && moduleIndex == old(moduleIndex)
        && timeLeft == old(timeLeft)
        && sent == Some(Submission(seen, map[]))
        && location == (if submitOk then Some(DashboardPath) else None)
      ensures moduleIndex >= old(moduleIndex)
      ensures exam == old(exam) && loading == old(loading)
      ensures answers == old(answers) && violationCount == old(violationCount) && isFullScreen == old(isFullScreen)
      ensures intervalAnswers == if timeLeft != old(timeLeft) then answers else old(intervalAnswers)
    {
      if moduleIndex < |ModuleOrder| - 1 {
        var before := timeLeft;
        moduleIndex := moduleIndex + 1;
        timeLeft := ModuleSeconds(moduleIndex);
        if timeLeft != before {
          intervalAnswers := answers;
        }
        sent := None;
      } else {
        var s := Submit(submitOk, seen);
        sent := Some(s);
      }
    }

    /**
     * One firing of the one-second interval, as written: the updater's value,
     * and when the clock had one second or less left, the module completion
     * it triggers in the same callback. That completion is the one of the
     * render the interval closes over, so a submission from writing sends
     * `intervalAnswers`, not the answers typed since the clock last changed.
     * (The module it completes is the current one: the module changes only
     * together with the clock, as no duration is one second.)
     */
    method TickAsWritten(submitOk: bool) returns (sent: Option<Submission>)
      requires Valid() && Mounted() && TimerRunning()
      modifies this
      ensures Valid()
      ensures old(timeLeft) > 1 ==>
        timeLeft == old(timeLeft) - 1 && moduleIndex == old(moduleIndex) && sent.None? && Mounted()
      ensures old(timeLeft) <= 1 && old(moduleIndex) < |ModuleOrder| - 1 ==>
        moduleIndex == old(moduleIndex) + 1 && timeLeft == ModuleSeconds(moduleIndex) && sent.None? && Mounted()
      ensures old(timeLeft) <= 1 && old(moduleIndex) == |ModuleOrder| - 1 ==>
        && moduleIndex == old(moduleIndex) && timeLeft == 0
        && sent == Some(Submission(old(intervalAnswers), map[]))
        && location == (if submitOk then Some(DashboardPath) else None)
      ensures moduleIndex >= old(moduleIndex)
      ensures exam == old(exam) && loading == old(loading)
      ensures answers == old(answers) && violationCount == old(violationCount) && isFullScreen == old(isFullScreen)
      ensures intervalAnswers == answers
    {
      var seen := intervalAnswers;
      var expired := timeLeft <= 1;
      timeLeft := TickUpdate(timeLeft);
      intervalAnswers := answers;
      sent := None;
      if expired {
        sent := CompleteModule(submitOk, seen);
      }
    }

    /**
     * One firing of the one-second interval with a callback that reads the
     * current answers: when writing's clock runs out, every answer typed so
     * far is submitted. This is the corrected interval (see
     * `LastSecondEditLostAsWritten`).
     */
    method Tick(submitOk: bool) returns (sent: Option<Submission>)
      requires Valid() && Mounted() && TimerRunning()
      modifies this
      ensures Valid()
      ensures old(timeLeft) > 1 ==>
        timeLeft == old(timeLeft) - 1 && moduleIndex == old(moduleIndex) && sent.None? && Mounted()
      ensures old(timeLeft) <= 1 && old(moduleIndex) < |ModuleOrder| - 1 ==>
        moduleIndex == old(moduleIndex) + 1 && timeLeft == ModuleSeconds(moduleIndex) && sent.None? && Mounted()
      ensures old(timeLeft) <= 1 && old(moduleIndex) == |ModuleOrder| - 1 ==>
        && moduleIndex == old(moduleIndex) && timeLeft == 0
        && sent == Some(Submission(old(answers), map[]))
        && location == (if submitOk then Some(DashboardPath) else None)
      ensures moduleIndex >= old(moduleIndex)
      ensures exam == old(exam) && loading == old(loading)
      ensures answers == old(answers) && violationCount == old(violationCount) && isFullScreen == old(isFullScreen)
      ensures intervalAnswers == answers
    {
      var expired := timeLeft <= 1;
      timeLeft := TickUpdate(timeLeft);
      intervalAnswers := answers;
      sent := None;
      if expired {
        sent := CompleteModule(submitOk, answers);
      }
    }

    /** "Next Section" / "Submit Exam" in the top bar, shown with the module content; its handler is the current render's. */
    method NextPressed(submitOk: bool) returns (sent: Option<Submission>)
      requires Valid() && Mounted() && Screen().ModuleContent?
      modifies this
      ensures Valid()
      ensures old(moduleIndex) < |ModuleOrder| - 1 ==>
        moduleIndex == old(moduleIndex) + 1 && timeLeft == ModuleSeconds(moduleIndex) && sent.None? && Mounted()
      ensures old(moduleIndex) == |ModuleOrder| - 1 ==>
        && moduleIndex == old(moduleIndex) && timeLeft == old(timeLeft)
        && sent == Some(Submission(old(answers), map[]))
        && location == (if submitOk then Some(DashboardPath) else None)
      ensures moduleIndex >= old(moduleIndex)
      ensures exam == old(exam) && loading == old(loading)
      ensures answers == old(answers) && violationCount == old(violationCount) && isFullScreen == old(isFullScreen)
      ensures intervalAnswers == if timeLeft != old(timeLeft) then answers else old(intervalAnswers)
    {
      sent := CompleteModule(submitOk, answers);
    }

    /**
     * `logViolation(type)`: the count goes up by one at once; the report's
     * outcome (`reportOk`) is only logged and changes nothing.
     */
    method LogViolation(kind: ViolationType, reportOk: bool) returns (reported: ViolationType)
      requires Valid() && Mounted()
      modifies this`violationCount
      ensures Valid()
      ensures violationCount == old(violationCount) + 1
      ensures reported == kind
    {
      violationCount := violationCount + 1;
      reported := kind;
    }

    /**
     * One browser signal, through the three listeners registered on mount:
     * a hidden document, a blur and a fullscreen exit each log one
     * violation; entering fullscreen only sets the flag.
     */
    method SignalReceived(sig: Signal, reportOk: bool) returns (reported: Option<ViolationType>)
      requires Valid() && Mounted()
      modifies this
      ensures Valid()
      ensures reported == Classify(sig)
      ensures violationCount == old(violationCount) + (if Classify(sig).Some? then 1 else 0)
      ensures isFullScreen == (if sig.FullscreenChanged? then sig.entered else old(isFullScreen))
      ensures loading == old(loading) && exam == old(exam) && moduleIndex == old(moduleIndex)
      ensures timeLeft == old(timeLeft) && answers == old(answers) && location == old(location)
      ensures intervalAnswers == old(intervalAnswers)
    {
      reported := None;
      match sig
      case VisibilityChanged(hidden) =>
        if hidden {
          var k := LogViolation(TabSwitch, reportOk);
          reported := Some(k);
        }
      case Blurred =>
        var k := LogViolation(WindowBlur, reportOk);
        reported := Some(k);
      case FullscreenChanged(entered) =>
        if !entered {
          isFullScreen := false;
          var k := LogViolation(FullscreenExit, reportOk);
          reported := Some(k);
        } else {
          isFullScreen := true;
        }
    }

    /**
     * "Enter Full Screen to Start" on the prompt as the component is written:
     * `containerRef.current` is null while the prompt is on screen, so the
     * handler does nothing and the prompt stays.
     */
    method RequestFullScreenAsWritten()
      requires Valid() && Mounted() && Screen() == FullscreenPrompt
      modifies this`isFullScreen
      ensures Valid()
      ensures !isFullScreen && Screen() == FullscreenPrompt
    {
      isFullScreen := FullScreenAfterRequest(ContainerRefSetAsWritten(Screen()), isFullScreen);
    }

    /**
     * "Enter Full Screen to Start" on the prompt: the flag is set at once,
     * whatever the browser's request later does. This is the corrected
     * handler (see `PromptButtonDoesNothingAsWritten`).
     */
    method RequestFullScreen()
      requires Valid() && Mounted() && Screen() == FullscreenPrompt
      modifies this`isFullScreen
      ensures Valid()
      ensures isFullScreen == FullScreenAfterRequest(ContainerRefSet(old(Screen())), old(isFullScreen))
      ensures isFullScreen && Screen().ModuleContent?
    {
      isFullScreen := FullScreenAfterRequest(ContainerRefSet(Screen()), isFullScreen);
    }

    /** Typing into the answer box of question `q` of the listening or reading content. */
    method AnswerChanged(q: Question, value: string)
      requires Valid() && Mounted() && Screen().ModuleContent? && CurrentModule() != Writing
      requires q in CurrentQuestions()
      modifies this`answers
      ensures Valid()
      ensures answers == RecordAnswer(old(answers), q.id, value)
    {
      answers := RecordAnswer(answers, q.id, value);
    }

    /** Typing into the essay box of the writing content. */
    method EssayChanged(value: string)
      requires Valid() && Mounted() && Screen() == ModuleContent(Writing)
      modifies this`answers
      ensures Valid()
      ensures answers == RecordAnswer(old(answers), EssayKey(CurrentQuestions()), value)
    {
      answers := RecordAnswer(answers, EssayKey(CurrentQuestions()), value);
    }
  }

  /**
   * As written, an essay typed in the last second of writing is missing
   * from what the expiring clock submits: the interval still holds the
   * answer map of the render in which the clock reached one second.
   */
  method LastSecondEditLostAsWritten(s: ExamSession, text: string, submitOk: bool) returns (sent: Option<Submission>)
    requires s.Valid() && s.Mounted() && s.Screen() == ModuleContent(Writing) && s.timeLeft == 1
    requires s.intervalAnswers == s.answers && EssayKey(s.CurrentQuestions()) !in s.answers
    modifies s
    ensures s.exam.Some?
    ensures var key := EssayKey(ModuleQuestions(s.exam.value, Writing));
      && key in s.answers && s.answers[key] == text
      && sent.Some? && key !in sent.value.answers
  {
    s.EssayChanged(text);
    sent := s.TickAsWritten(submitOk);
  }

  /** With the corrected interval, the same last-second essay is in the submission. */
  method LastSecondEditSent(s: ExamSession, text: string, submitOk: bool) returns (sent: Option<Submission>)
    requires s.Valid() && s.Mounted() && s.Screen() == ModuleContent(Writing) && s.timeLeft == 1
    requires s.intervalAnswers == s.answers && EssayKey(s.CurrentQuestions()) !in s.answers
    modifies s
    ensures s.exam.Some?
    ensures var key := EssayKey(ModuleQuestions(s.exam.value, Writing));
      && sent.Some? && key in sent.value.answers && sent.value.answers[key] == text
      && sent.value.answers == s.answers
  {
    s.EssayChanged(text);
    sent := s.Tick(submitOk);
  }

  /** Without fullscreen no module content is on screen, so no answer box can be typed into. */
  lemma GateHidesContent(s: ExamSession)
    requires s.Valid() && !s.isFullScreen
    ensures !s.Screen().ModuleContent?
  {
  }

  /** The three modules' countdowns: 30, 60 and 60 minutes. */
  lemma ModuleDurations()
    ensures ModuleSeconds(0) == 1800 && ModuleSeconds(1) == 3600 && ModuleSeconds(2) == 3600
  {
  }
}
