# IELTS exam front end — Dafny model

This project models the logic of the IELTS exam front end: the student's
timed exam session, the mock-test sequencer, the admin exam editor's store
and its overview and reading tabs, and the application's route guard.

- `exam_player.dfy` (`ExamPlayer`): the exam session as a class whose fields
  are the page's state cells (`loading`, the exam, the current module,
  `timeLeft`, the answer map, `violationCount`, `isFullScreen`, and where the
  page navigated). Listening, reading and writing run in that order with
  30, 60 and 60 minute countdowns. A tick at one second or less completes
  the module in the same callback. Three browser signals are classified
  into violations. The fullscreen flag gates the content, and the last
  module submits the whole answer map.
- `mock_test_player.dfy` (`MockTestPlayer`): the four-section sequencer
  (reading, listening, speaking, writing). `FetchSections` is the nested
  loading loop. The first-available and next-section searches skip empty
  sections and never go back. The player class keeps the assignment index
  inside a section and a countdown floored at zero.
- `exam_editor.dfy` (`ExamEditor`): the editor store as a class over the
  exam object, the section and question lists, the deleted-id list and the
  validation errors. Each store operation assigns a pure list transform:
  merge by id, append with a `temp_` id, delete with UUID tracking, and
  id remapping after a save. The two-mode validator is a loop method proved
  against a recursive specification.
- `overview_tab.dfy` (`OverviewTab`): the security-settings merge, the
  classroom toggle, and the per-module enable and duration edits, all
  applied through the store's `updateExam`.
- `reading_tab.dfy` (`ReadingTab`): the reading-section and per-passage
  question filters, the question badge, and the word count
  `content.trim().split(/\s+/).length` over an explicit model of `split`.
- `app_routes.dfy` (`AppRoutes`): `PrivateRoute` and the route table with
  its catch-all redirect to `/login`.
- `js_values.dfy` (`JsValues`) and `js_strings.dfy` (`JsStrings`): the
  JavaScript semantics the rest relies on. They cover values, truthiness,
  property reads, object spread, `filter`, `trim`, number-to-string,
  `padStart` and `parseInt`. `wrappers.dfy` holds `Option`.

Network calls are not modelled. Their outcomes are method parameters:
the loaded exam or its failure, the report and submit results, and the
mock test with a per-id assignment loader. `Date.now()` is also a
parameter.

## Model

| member | source | states |
|---|---|---|
| ExamPlayer.ModuleDurations | src/pages/Student/ExamPlayer.jsx:26-27 | the three modules' countdowns are 1800, 3600 and 3600 seconds |
| ExamPlayer.ModuleQuestions | src/pages/Student/ExamPlayer.jsx:150 | the shown questions are exactly the exam's questions of the current module, in exam order and each once (the subsequence at the module's positions); the first shown is the module's first question in the exam |
| ExamPlayer.TickUpdate | src/pages/Student/ExamPlayer.jsx:59-65 | the updater returns t - 1 for t > 1 and 0 for t <= 1, never a negative value |
| ExamPlayer.Classify | src/pages/Student/ExamPlayer.jsx:72-81 | a signal is a violation iff the document became hidden (tab_switch), the window blurred (window_blur) or fullscreen was left (fullscreen_exit); both directions |
| ExamPlayer.RecordAnswer | src/pages/Student/ExamPlayer.jsx:214 | writing an answer sets exactly that key; every other entry is kept and none is removed |
| ExamPlayer.OverwriteKeepsLast | src/pages/Student/ExamPlayer.jsx:263 | writing one key twice leaves only the second value |
| ExamPlayer.EssayKey | src/pages/Student/ExamPlayer.jsx:302 | the essay is stored under the first writing question's id, or under 'writing_task' when there is no question or its id is empty |
| ExamPlayer.EssayKeyOfExam | src/pages/Student/ExamPlayer.jsx:302 | the essay goes under the id of the exam's first writing question, or 'writing_task' when that id is empty or the exam has no writing question |
| ExamPlayer.TimerText | src/pages/Student/ExamPlayer.jsx:164 | defines the clock text, minutes then ':' then the seconds padded to two digits; its meaning is stated by `TimerTextReadsBack` |
| ExamPlayer.TimerTextReadsBack | src/pages/Student/ExamPlayer.jsx:164 | the clock text is minutes, ':' and two second digits; the minutes read t / 60, the seconds t % 60 < 60, and together they read back as t |
| ExamPlayer.PromptButtonDoesNothingAsWritten | src/pages/Student/ExamPlayer.jsx:128-153 | as written, the handler sets a cleared `isFullScreen` exactly when the module content is on screen, because the ref is only attached to the content root; so on the prompt the flag stays false |
| ExamPlayer.PromptButtonEntersFullScreen | src/pages/Student/ExamPlayer.jsx:94-101 | with the ref also on the prompt's root, the handler sets `isFullScreen` from every view but the loading text, the prompt included |
| ExamPlayer.GateHidesContent | src/pages/Student/ExamPlayer.jsx:126-146 | while `isFullScreen` is false no module content, and so no answer box, is on screen |
| ExamPlayer.ExamSession.Screen | src/pages/Student/ExamPlayer.jsx:126-153 | the loading text iff loading; the fullscreen prompt iff loaded and not fullscreen; otherwise the current module's content |
| ExamPlayer.ExamSession.constructor | src/pages/Student/ExamPlayer.jsx:11-19 | the page mounts loading, on listening, with no time, no answers, no violations and not fullscreen |
| ExamPlayer.ExamSession.ExamLoaded | src/pages/Student/ExamPlayer.jsx:38-53 | a loaded exam starts listening with 1800 seconds; a failed load navigates to the student dashboard; loading ends either way |
| ExamPlayer.ExamSession.Submit | src/pages/Student/ExamPlayer.jsx:115-124 | sends the whole answer map of the render whose handler runs, with an empty time-spent map; success navigates to the dashboard, failure changes nothing |
| ExamPlayer.ExamSession.CompleteModule | src/pages/Student/ExamPlayer.jsx:103-113 | moves to the next module of the order with its full time; from writing it submits the answer map its render sees instead; the module never moves back; the interval's captured answers are renewed iff the clock changed |
| ExamPlayer.ExamSession.TickAsWritten | src/pages/Student/ExamPlayer.jsx:56-68 | runs only while an exam is loaded and time is positive; above one second it decrements by one; otherwise in the same tick it completes the module (next module's full time, or a submission, with the clock at 0, of the answers captured when the clock last changed) |
| ExamPlayer.ExamSession.Tick | src/pages/Student/ExamPlayer.jsx:56-68 | as `TickAsWritten`, except that an expiring writing clock submits the current answers |
| ExamPlayer.ExamSession.NextPressed | src/pages/Student/ExamPlayer.jsx:166-172 | the top-bar button moves to the next module with its full time and stays on the page, or from writing submits the current answers and navigates to the dashboard iff the submission succeeds; the exam, loading state, answers and violations never change |
| ExamPlayer.ExamSession.LogViolation | src/pages/Student/ExamPlayer.jsx:29-36 | the count rises by exactly one whatever the report's outcome, and nothing else changes |
| ExamPlayer.ExamSession.SignalReceived | src/pages/Student/ExamPlayer.jsx:71-92 | each classified signal adds exactly one violation; fullscreen changes set the flag to the new state; module, time and answers are untouched |
| ExamPlayer.ExamSession.RequestFullScreenAsWritten | src/pages/Student/ExamPlayer.jsx:94-101 | as written, pressing the prompt's button leaves `isFullScreen` false and the prompt on screen |
| ExamPlayer.ExamSession.RequestFullScreen | src/pages/Student/ExamPlayer.jsx:94-101 | pressing the prompt's button sets `isFullScreen` at once, so the module content renders, whatever the browser later does |
| ExamPlayer.ExamSession.AnswerChanged | src/pages/Student/ExamPlayer.jsx:210-215 | typing into a shown question's box records the value under that question's id |
| ExamPlayer.LastSecondEditLostAsWritten | src/pages/Student/ExamPlayer.jsx:56-68 | as written, an essay typed after writing's clock reached one second is recorded but missing from what the expiring clock submits |
| ExamPlayer.LastSecondEditSent | src/pages/Student/ExamPlayer.jsx:56-68 | with the corrected interval the same essay is in the submission, which is exactly the current answer map |
| ExamPlayer.ExamSession.EssayChanged | src/pages/Student/ExamPlayer.jsx:296-305 | typing the essay records it under the essay key |
| MockTestPlayer.Index | src/pages/MockTestPlayerPage.js:96 | a section's position in the order holds that section |
| MockTestPlayer.IndexOfPosition | src/pages/MockTestPlayerPage.js:10 | position and section are inverse to each other |
| MockTestPlayer.EmptyDataHasEverySection | src/pages/MockTestPlayerPage.js:44 | the initial per-section data has every section |
| MockTestPlayer.FirstNonEmptyIndex | src/pages/MockTestPlayerPage.js:97-99 | `find` stops at the first section with assignments and skips only empty ones |
| MockTestPlayer.FirstAvailable | src/pages/MockTestPlayerPage.js:59-62 | the starting section is the first in order with assignments, or reading when every section is empty |
| MockTestPlayer.NextSection | src/pages/MockTestPlayerPage.js:95-99 | the next section is strictly later and has assignments, every section in between is empty, and there is none iff every later section is empty |
| MockTestPlayer.NoNextAfterWriting | src/pages/MockTestPlayerPage.js:95-106 | after writing there is never a next section |
| MockTestPlayer.FetchSections | src/pages/MockTestPlayerPage.js:44-54 | loading succeeds iff every id's fetch succeeds; then each section holds its assignments in the order of its id list |
| MockTestPlayer.TickUpdate | src/pages/MockTestPlayerPage.js:83 | the updater maps t > 0 to t - 1 and anything else to 0 |
| MockTestPlayer.ClockText | src/pages/MockTestPlayerPage.js:145-146 | defines the clock text, minutes and seconds each padded to two digits; its meaning is stated by `ClockTextReadsBack` |
| MockTestPlayer.Player.Clock | src/pages/MockTestPlayerPage.js:185-186 | the clock is five characters and reads back as the remaining seconds, which stay below 100 minutes in every state |
| MockTestPlayer.ClockTextReadsBack | src/pages/MockTestPlayerPage.js:185-186 | below 100 minutes the clock is five characters and reads back as t |
| JsStrings.PadTwoDigits | src/pages/MockTestPlayerPage.js:185-186 | a number below 100 padded to two characters is two digits denoting it |
| MockTestPlayer.Player.ActiveAssignment | src/pages/MockTestPlayerPage.js:88-93 | the active assignment is null exactly when the index is outside the current section's list |
| MockTestPlayer.Player.constructor | src/pages/MockTestPlayerPage.js:21-34 | the page mounts not loading, on reading with index 0 and empty sections; the effect on `activeSection` has set reading's time |
| MockTestPlayer.Player.Load | src/pages/MockTestPlayerPage.js:36-73 | success stores the test and the loaded sections, starts at the first available section with index 0 and that section's time; any failure sets only the error message, with a default text |
| MockTestPlayer.Player.Tick | src/pages/MockTestPlayerPage.js:80-86 | the interval runs only while time is non-zero and takes one second off; nothing else changes, even at 0 |
| MockTestPlayer.Player.CompleteSection | src/pages/MockTestPlayerPage.js:95-107 | the next later section with assignments becomes active with index 0 and its full time; with none, `onExit` is called once if given and the section stays |
| MockTestPlayer.Player.AssignmentFinished | src/pages/MockTestPlayerPage.js:109-116 | the index steps by one while assignments remain, otherwise the section completes (the next section with index 0 and its full time, or `onExit` with the section and clock kept); the loaded test, the error and the loading flag never change |
| MockTestPlayer.AuthValue | src/authContext.js:40 | the auth context carries `user` and `token`, and no `currentUser` |
| MockTestPlayer.Player.View | src/pages/MockTestPlayerPage.js:118-143 | the page refuses exactly the visitors who are not students; the test runs iff the visitor is a student, loading is over and a mock test is loaded |
| MockTestPlayer.Player.ScreenAsWritten | src/pages/MockTestPlayerPage.js:118-143 | as written, the page refuses exactly the visitors whose context `currentUser` is not a student |
| MockTestPlayer.Player.Screen | src/pages/MockTestPlayerPage.js:118-143 | reading the context's `user`, the page refuses exactly the non-students and runs the test iff the user is a student, loading is over and a mock test is loaded |
| MockTestPlayer.NobodyEntersAsWritten | src/pages/MockTestPlayerPage.js:20 | as written, the page reads `currentUser`, which the context never has, so it refuses every visitor, signed-in students included |
| MockTestPlayer.StudentEntersWhenCorrected | src/pages/MockTestPlayerPage.js:118-124 | reading the context's `user`, the page refuses exactly the non-students, and a signed-in student sees the test once it has loaded |
| ExamEditor.DefaultExam | src/pages/Admin/ExamEditor/ExamEditorContext.jsx:8-27 | defines the editor's default exam: empty title and code, academic, draft, every module enabled with 30/60/60 minutes, auto-submit on, fullscreen off, autosave every 300 seconds, visible to all, no classrooms, log-only security with at most 3 violations |
| ExamEditor.Seeds | src/pages/Admin/ExamEditor/ExamEditorContext.jsx:41-54 | a module's seeded sections belong to it and are numbered 1..n |
| ExamEditor.SeedIfEmpty | src/pages/Admin/ExamEditor/ExamEditorContext.jsx:38-57 | the structure is seeded only when there are no sections |
| ExamEditor.InitialListening | src/pages/Admin/ExamEditor/ExamEditorContext.jsx:42-46 | the seed has exactly 4 listening sections, in `section_order` 1..4 |
| ExamEditor.InitialReading | src/pages/Admin/ExamEditor/ExamEditorContext.jsx:47-50 | the seed has exactly 3 reading passages, in `section_order` 1..3 |
| ExamEditor.InitialWriting | src/pages/Admin/ExamEditor/ExamEditorContext.jsx:51-53 | the seed has exactly 2 writing tasks, in `section_order` 1 and 2 |
| ExamEditor.ApplyExamUpdate | src/pages/Admin/ExamEditor/ExamEditorContext.jsx:59 | the supplied keys take the new values and every other exam field is kept |
| ExamEditor.UpdateById | src/pages/Admin/ExamEditor/ExamEditorContext.jsx:61-63 | length and order are kept; items with the id are merged with the updates; every other item is unchanged |
| ExamEditor.UpdateMissingIdIsIdentity | src/pages/Admin/ExamEditor/ExamEditorContext.jsx:72-74 | an update for an id nobody has changes nothing |
| ExamEditor.NewQuestion | src/pages/Admin/ExamEditor/ExamEditorContext.jsx:68 | a new question gets the `temp_` id and the section id, unless the data supplies its own; every data key is kept |
| ExamEditor.AppendQuestion | src/pages/Admin/ExamEditor/ExamEditorContext.jsx:65-70 | exactly one question is added, at the end, and the existing ones are unchanged |
| ExamEditor.IsUuid | src/pages/Admin/ExamEditor/ExamEditorContext.jsx:78 | defines the UUID test: 36 characters, hyphens at positions 8, 13, 18 and 23, hexadecimal digits of either case elsewhere |
| ExamEditor.TempIdIsNotUuid | src/pages/Admin/ExamEditor/ExamEditorContext.jsx:78 | a `temp_` id never matches the UUID pattern, so it is never tracked |
| ExamEditor.TrackDeleted | src/pages/Admin/ExamEditor/ExamEditorContext.jsx:77-81 | the id is appended to the tracked list iff it is an 8-4-4-4-12 hex UUID, in any case |
| ExamEditor.RemoveById | src/pages/Admin/ExamEditor/ExamEditorContext.jsx:83 | every question with the id is removed; the others are kept in order, each once (the subsequence at the positions without that id) |
| ExamEditor.RemapField | src/pages/Admin/ExamEditor/ExamEditorContext.jsx:110-113 | only the named field changes, and only when the mapping gives a truthy new id |
| ExamEditor.RemapAll | src/pages/Admin/ExamEditor/ExamEditorContext.jsx:109-115 | length and order are kept and each item is remapped on its own |
| ExamEditor.RemapQuestions | src/pages/Admin/ExamEditor/ExamEditorContext.jsx:117-131 | each question's `section_id` goes through the section mapping first, then its `id` through the question mapping |
| ExamEditor.NewId | src/pages/Admin/ExamEditor/ExamEditorContext.jsx:94-115 | defines `mapping[x]`: the mapped value of a string key the mapping has, `undefined` otherwise |
| ExamEditor.RemapSections | src/pages/Admin/ExamEditor/ExamEditorContext.jsx:94-115 | same length; each section's id is remapped twice through a present section mapping, and kept as it is without one |
| ExamEditor.RemapTwiceIsOnce | src/pages/Admin/ExamEditor/ExamEditorContext.jsx:94-115 | when no new id leads on to another id, remapping twice equals remapping once |
| ExamEditor.RemapSectionsOnceWhenChainFree | src/pages/Admin/ExamEditor/ExamEditorContext.jsx:94-115 | in that case the doubly queued section remap gives the single remap |
| ExamEditor.DoubleRemapFollowsChains | src/pages/Admin/ExamEditor/ExamEditorContext.jsx:94-115 | with the chain a → b → c, the doubly queued remap carries a section on to c where one remap gives b |
| ExamEditor.PushSectionErrors | src/pages/Admin/ExamEditor/ExamEditorContext.jsx:142-152 | one pass of the listening loop pushes the question-count, audio and transcript errors of a listening section in strict mode, in that order, and nothing otherwise |
| ExamEditor.PushListeningErrors | src/pages/Admin/ExamEditor/ExamEditorContext.jsx:140-152 | the listening loop appends exactly the specified listening errors, in section order |
| ExamEditor.PushReadingErrors | src/pages/Admin/ExamEditor/ExamEditorContext.jsx:155-161 | the reading loop appends exactly the specified reading errors, in section order |
| ExamEditor.CollectErrors | src/pages/Admin/ExamEditor/ExamEditorContext.jsx:136-161 | the accumulated list equals the specified error list |
| ExamEditor.DraftChecksOnlyTitle | src/pages/Admin/ExamEditor/ExamEditorContext.jsx:135-165 | in draft mode the only possible error is a missing title |
| ExamEditor.StrictListeningErrorsEmpty | src/pages/Admin/ExamEditor/ExamEditorContext.jsx:140-152 | strict listening checks report nothing iff every listening section has exactly 10 questions, an audio URL and content |
| ExamEditor.StrictReadingErrorsEmpty | src/pages/Admin/ExamEditor/ExamEditorContext.jsx:155-161 | strict reading checks report nothing iff every reading section has content of length at least 50 |
| ExamEditor.TooShort | src/pages/Admin/ExamEditor/ExamEditorContext.jsx:159 | defines a too-short passage: missing content, or a string or array shorter than 50 |
| ExamEditor.AllListeningErrors | src/pages/Admin/ExamEditor/ExamEditorContext.jsx:140-152 | the listening errors, section by section in order; none is the title error |
| ExamEditor.AllReadingErrors | src/pages/Admin/ExamEditor/ExamEditorContext.jsx:155-161 | the reading errors, section by section in order; none is the title error |
| ExamEditor.ValidationErrors | src/pages/Admin/ExamEditor/ExamEditorContext.jsx:135-165 | the error list starts with the title error iff the title is missing |
| ExamEditor.StrictValidIff | src/pages/Admin/ExamEditor/ExamEditorContext.jsx:135-165 | strict validation passes iff the title is set and both section conditions hold |
| ExamEditor.EditorStore.constructor | src/pages/Admin/ExamEditor/ExamEditorContext.jsx:7-57 | the store starts with the given exam or the default one, the seeded sections and empty lists |
| ExamEditor.EditorStore.UpdateExam | src/pages/Admin/ExamEditor/ExamEditorContext.jsx:59 | the exam becomes the merge of the old exam and the updates |
| ExamEditor.EditorStore.UpdateSection | src/pages/Admin/ExamEditor/ExamEditorContext.jsx:61-63 | the sections become the merge-by-id of the old ones |
| ExamEditor.EditorStore.AddQuestion | src/pages/Admin/ExamEditor/ExamEditorContext.jsx:65-70 | the questions gain the new question at the end |
| ExamEditor.EditorStore.UpdateQuestion | src/pages/Admin/ExamEditor/ExamEditorContext.jsx:72-74 | the questions become the merge-by-id of the old ones |
| ExamEditor.EditorStore.DeleteQuestion | src/pages/Admin/ExamEditor/ExamEditorContext.jsx:76-84 | the question is removed and its id is tracked iff it is a UUID |
| ExamEditor.EditorStore.ClearDeletedQuestionIds | src/pages/Admin/ExamEditor/ExamEditorContext.jsx:86-88 | the tracked list is empty afterwards |
| ExamEditor.EditorStore.UpdateIds | src/pages/Admin/ExamEditor/ExamEditorContext.jsx:90-131 | a missing mapping changes nothing; otherwise the sections are remapped (twice when a section mapping is present) and the questions as above |
| ExamEditor.EditorStore.Validate | src/pages/Admin/ExamEditor/ExamEditorContext.jsx:135-165 | stores the error list of the mode (strict only for 'strict') and returns true iff it is empty |
| OverviewTab.AssignedClassrooms | src/pages/Admin/ExamEditor/tabs/OverviewTab.jsx:42 | a missing or falsy classroom list reads as the empty list |
| OverviewTab.SecurityUpdate | src/pages/Admin/ExamEditor/tabs/OverviewTab.jsx:32-39 | the update carries only `security_settings`: the old settings with the updates merged over them |
| OverviewTab.SecurityUpdatePreserves | src/pages/Admin/ExamEditor/tabs/OverviewTab.jsx:32-39 | afterwards the named security keys hold the new values; other security keys and other exam fields are unchanged |
| OverviewTab.ToggledList | src/pages/Admin/ExamEditor/tabs/OverviewTab.jsx:41-48 | an absent id is appended at the end; a present id loses every occurrence while the other entries stay |
| OverviewTab.ToggleFlipsCheckbox | src/pages/Admin/ExamEditor/tabs/OverviewTab.jsx:41-50 | a toggle flips that classroom's checkbox |
| OverviewTab.ToggleTwiceFromAbsent | src/pages/Admin/ExamEditor/tabs/OverviewTab.jsx:41-50 | toggling an absent id twice gives back the exact list |
| OverviewTab.ToggleTwiceFromPresent | src/pages/Admin/ExamEditor/tabs/OverviewTab.jsx:41-50 | toggling a present id twice keeps it, as a single occurrence at the end |
| OverviewTab.ModuleSettingUpdate | src/pages/Admin/ExamEditor/tabs/OverviewTab.jsx:164-168 | the update carries only `modules_config` |
| OverviewTab.ModuleSettingChangesOnlyThatKey | src/pages/Admin/ExamEditor/tabs/OverviewTab.jsx:163-183 | an enable or duration edit changes only that key of that module's entry; other modules and other exam fields are unchanged |
| OverviewTab.DurationEditStoresTypedNumber | src/pages/Admin/ExamEditor/tabs/OverviewTab.jsx:181 | typing a number stores that number as the duration |
| OverviewTab.UpdateSecurity | src/pages/Admin/ExamEditor/tabs/OverviewTab.jsx:32-39 | the store's exam becomes the merge with the security update |
| OverviewTab.ToggleClassroom | src/pages/Admin/ExamEditor/tabs/OverviewTab.jsx:41-50 | the store's exam becomes the merge with the toggled list |
| OverviewTab.SetModuleEnabled | src/pages/Admin/ExamEditor/tabs/OverviewTab.jsx:163-168 | the store's exam carries the new `enabled` flag for the module |
| OverviewTab.SetModuleDuration | src/pages/Admin/ExamEditor/tabs/OverviewTab.jsx:178-183 | the store's exam carries `parseInt` of the typed text as the module's duration |
| ReadingTab.ReadingSections | src/pages/Admin/ExamEditor/tabs/ReadingTab.jsx:137 | the tab lists exactly the reading sections |
| ReadingTab.SectionQuestions | src/pages/Admin/ExamEditor/tabs/ReadingTab.jsx:62 | a passage's questions are exactly those with its `section_id`, and there are as many as the validator counts |
| ReadingTab.SectionQuestionsOfAppend | src/pages/Admin/ExamEditor/tabs/ReadingTab.jsx:62 | the selection keeps the original order: questions added later come after earlier ones |
| ReadingTab.Badge | src/pages/Admin/ExamEditor/tabs/ReadingTab.jsx:75 | the badge is green iff some question belongs to the passage |
| ReadingTab.SplitCount | src/pages/Admin/ExamEditor/tabs/ReadingTab.jsx:96 | `split(/\s+/)` yields one piece more than the text has whitespace runs |
| ReadingTab.RunsAlternate | src/pages/Admin/ExamEditor/tabs/ReadingTab.jsx:96 | in a text that ends in a non-space, word runs and whitespace runs alternate |
| ReadingTab.WordsIgnoreTrailingSpace | src/pages/Admin/ExamEditor/tabs/ReadingTab.jsx:96 | trailing whitespace does not change the number of words |
| ReadingTab.WordsIgnoreTrim | src/pages/Admin/ExamEditor/tabs/ReadingTab.jsx:96 | leading and trailing whitespace do not change the number of words |
| ReadingTab.TrimEmptyIffAllSpace | src/pages/Admin/ExamEditor/tabs/ReadingTab.jsx:96 | `trim` leaves nothing iff the text is all whitespace |
| ReadingTab.WordCountOfWords | src/pages/Admin/ExamEditor/tabs/ReadingTab.jsx:96 | for text with a non-space, the count is its number of words |
| ReadingTab.WordCount | src/pages/Admin/ExamEditor/tabs/ReadingTab.jsx:96 | defines the word count, the number of pieces of the trimmed text split on whitespace runs, 0 for missing content; its meaning is stated by `WordCountMeaning` |
| ReadingTab.WordCountMeaning | src/pages/Admin/ExamEditor/tabs/ReadingTab.jsx:96 | the count is 0 for missing or empty content, 1 for whitespace-only content, and the number of maximal non-whitespace runs otherwise |
| AppRoutes.Guard | src/App.jsx:17-31 | children render iff there are a token and a user and no role is required or the user's role equals it; without a token or user the redirect is to /login; a wrong role goes to the admin dashboard for admins and the student dashboard otherwise |
| AppRoutes.AdminChild | src/App.jsx:49-59 | defines the children of /admin: the index redirects to the dashboard, each child path shows its page, anything else matches nothing |
| AppRoutes.Match | src/App.jsx:37-79 | a path requires the admin role iff it is an admin page, the student role iff it is the student dashboard or an exam's player; an unguarded path shows the login page for /login and redirects to /login otherwise |
| AppRoutes.Visit | src/App.jsx:37-79 | defines one visit: the matched route's target, behind the route's guard when it requires a role; its meaning is stated by the lemmas below |
| AppRoutes.SignedOutSeesOnlyLogin | src/App.jsx:20-22 | signed out, every path shows the login page or redirects to it |
| AppRoutes.UnmatchedGoesToLogin | src/App.jsx:79 | an unmatched path redirects to /login |
| AppRoutes.AdminPagesNeedAdmin | src/App.jsx:41-59 | only a signed-in admin is ever shown an admin page |
| AppRoutes.RedirectsSettle | src/App.jsx:17-79 | for visitors who are signed out, admins or students, every redirect reaches a page within two hops |
| AppRoutes.OtherRolesAreStuck | src/App.jsx:24-28 | a signed-in user with any other role is redirected from the student dashboard to itself |
| JsValues.KeptPositions | src/pages/Admin/ExamEditor/ExamEditorContext.jsx:83 | the kept positions are in range, in increasing order, and each holds an element that passes |
| JsValues.KeptPositionsComplete | src/pages/Admin/ExamEditor/ExamEditorContext.jsx:83 | every position whose element passes is kept |
| JsValues.FilterAtKeptPositions | src/pages/Admin/ExamEditor/ExamEditorContext.jsx:83 | `filter` returns the elements at the kept positions, in order, one for one |
| JsValues.FilterFirst | src/pages/Student/ExamPlayer.jsx:150 | the first element `filter` returns is the first one that passes |
| JsStrings.ParseInt | src/pages/Admin/ExamEditor/tabs/OverviewTab.jsx:181 | the result is a number or `NaN`; its meaning on number text is stated by `ParseIntRoundTrip` |
| JsStrings.ParseIntRoundTrip | src/pages/Admin/ExamEditor/tabs/OverviewTab.jsx:181 | `parseInt` of a number's decimal text, with or without a minus sign, gives that number |
| JsStrings.TrimStart | src/pages/Admin/ExamEditor/tabs/ReadingTab.jsx:96 | trimming removes exactly the leading whitespace |
| JsStrings.TrimEnd | src/pages/Admin/ExamEditor/tabs/ReadingTab.jsx:96 | trimming removes exactly the trailing whitespace |
| JsStrings.PadStart | src/pages/Student/ExamPlayer.jsx:164 | padding gives at least the width, zeros in front of the unchanged text |
| JsStrings.DecimalStringRoundTrip | src/pages/Student/ExamPlayer.jsx:164 | a number's decimal text is all digits and denotes the number |

## Left out

- Network calls (`src/api.js` and the loaders the mock-test page imports) are not modelled; their outcomes are parameters of `ExamLoaded`, `Submit`, `LogViolation` and `Load`.
- `setInterval` timing, listener registration and removal, `alert` and the router's navigation are not modelled; each event is one method call, and a navigation is the `location` field.
- `Date.now()` in `addQuestion` and the violation report's timestamp are not modelled; the first is a parameter, the second is not sent anywhere in the model.
- ExamPlayer.ExamSession.Submit: does not model `document.exitFullscreen()` after a successful submission, a browser call made just before the page navigates away.
- ExamPlayer.ExamSession.RequestFullScreen: does not model the browser's fullscreen request or its rejection alert. This corrected handler sets the flag whatever the browser answers. The source sets it only when the container ref is set, which never happens while the prompt is shown (see Findings).
- ExamPlayer.ExamSession.LogViolation: the report's payload is not modelled; its outcome is a parameter with no effect, as in the source.
- The exam player's rendering of sections, audio and the student's name is presentation only; only the fields the player reads (`id`, `module_type`) are in `Question`.
- The mock-test page's `SECTION_LABELS` (line 171) is undefined in the file, and rendering would fail there; the model does not render the label.
- The mock-test page's child `TestPlayerPage` is not part of this model; its completion is the `AssignmentFinished` call.
- MockTestPlayer.Player.Load: models the effect when a token and a mock-test id are present; otherwise it does nothing and is not modelled. A truthy non-array `<section>Ids` is not modelled.
- ExamEditor: `isSaving` is never changed by the store and is not modelled.
- ExamEditor.ValidationError: the messages are constructors carrying the section title and count, not formatted strings.
- ExamEditor.TooShort: `length` of a value that is neither a string nor an array is treated as absent. String length counts characters, not UTF-16 code units.
- ExamEditor.NewId: ids that are not strings (numbers used as keys) and inherited keys of the mapping object are not modelled.
- `src/pages/Admin/ExamEditor/index.jsx` (`handleSave`) only orchestrates network calls and is not part of this model.
- `src/pages/Admin/ExamEditor/tabs/ListeningTab.jsx` is rendering only; its 10-question cap is a disabled button and is not modelled.
- OverviewTab.SetModuleEnabled: the handler writes into the nested module object shared with the previous exam state; the model gives the store's new exam the same value, but not the aliasing into the old state.
- OverviewTab.SetModuleDuration: same aliasing as above. `parseInt` is modelled for optional leading whitespace, an optional sign and a run of decimal digits, ignoring whatever follows the digits; text without leading digits gives `NaN`. The hexadecimal reading of a "0x" prefix is not modelled, because a number input never yields such text.
- ReadingTab.WordCount: truthy content that is not a string (a number, an array, an object) makes the page's `trim` throw during rendering; the precondition excludes that case instead of modelling the error, and so does `ReadingTab.WordCountMeaning`'s.
- OverviewTab.ClassroomsWellFormed: a truthy non-array `assigned_classrooms` (a string would use substring `includes`) is excluded by precondition.
- OverviewTab.Security: a `security_settings` that is a primitive other than a missing value contributes no keys; a string would spread its characters.
- OverviewTab.ToggledList: ids compare structurally. `includes` and `!==` disagree on `NaN`, and objects compare by reference in JavaScript; classroom ids are strings or numbers.
- The overview tab's classroom fetch is I/O and is not modelled; the text and select fields are plain `updateExam`/`updateSecurity` calls, covered by `ApplyExamUpdate` and `SecurityUpdate`.
- The reading tab's expand/collapse state is presentation only and is not modelled.
- AppRoutes.Match: React Router's case-insensitive matching and trailing slashes are not modelled; a path is its list of segments.
- Numbers are mathematical integers; floating point is not modelled.
- `src/authContext.js`: only the context value is modelled (`AuthValue`); `localStorage` persistence and the `login`/`logout` actions are not. The CRUD screens and the modal are not part of this model.

## Findings

| source | as written | input that shows it | evidently intended | confidence | as-written member | corrected member |
|---|---|---|---|---|---|---|
| src/pages/Student/ExamPlayer.jsx:94-101 | `requestFullScreen` acts only when `containerRef.current` is set, but the ref is attached only to the content root (line 153), which is not rendered while the fullscreen prompt (lines 128-146) is shown | pressing "Enter Full Screen to Start" on the prompt: the ref is null, so neither the browser request nor `setIsFullScreen(true)` happens, and the prompt stays | the button enters fullscreen and sets `isFullScreen`, showing the module content | high, not executed | ExamPlayer.ExamSession.RequestFullScreenAsWritten | ExamPlayer.ExamSession.RequestFullScreen |
| src/pages/Student/ExamPlayer.jsx:56-68 | the timer effect depends only on `[exam, timeLeft]`, so its interval calls the `handleModuleComplete`, and through it the `handleSubmit` (lines 103-124), of the render in which the clock last changed, with that render's `answers` | on writing with one second left, the student types into the essay box; the interval then fires and submits the answers as they were when the clock reached one second, without the last edit | the expiring clock submits every answer typed so far | high, not executed | ExamPlayer.LastSecondEditLostAsWritten | ExamPlayer.LastSecondEditSent |
| src/pages/MockTestPlayerPage.js:20 | the page destructures `currentUser` from `useAuth()`, but the provider (src/authContext.js:40) supplies `user`, never `currentUser`, so the guard at line 118 always sees no user | a signed-in student opens a mock test: `currentUser` is undefined, so the page shows "Student access only." and no assignment runs, so its `onExit` (`AssignmentFinished`) can never fire | the page reads the signed-in user (`user`) and lets students in | high, not executed | MockTestPlayer.NobodyEntersAsWritten | MockTestPlayer.StudentEntersWhenCorrected |
