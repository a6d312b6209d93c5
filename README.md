# AegisCore client logic in Dafny

AegisCore is a web-based training tool for attacks and defenses. Its React client replays attack
walkthroughs, fires attacks at a deliberately vulnerable gateway, monitors the
resulting logs, raises alerts, runs a quiz and animates a dashboard. Most of the
client is markup and HTTP glue. This project models the small deterministic
pieces of logic inside it and proves what they promise:

- `Visualizer` (pages/AttackVisualizer.js): the four-stage script for each attack
  and the `Sequencer` class. Its `step` moves with Next/Previous/Restart and an
  autoplay tick, and stays in range across attack switches.
- `Education` (pages/EducationModule.js): quiz grading (a loop that counts correct
  answers and builds the per-question results), answer bookkeeping, the
  used-question-id logic of the per-category fetch loop (`QuizPage` class), and
  the playground's clamped step.
- `Logs` (pages/MonitoringLogs.js): the case-insensitive two-stage log filter, the
  icon, colour and status classifiers, and the 20-entry timeline.
- `Alerts` (pages/AlertsReports.js): the three threshold rules, alert dismissal, the
  colour maps, the zero-safe percentages, the frequency bars and the report file
  name.
- `Simulation` (pages/AttackSimulation.js): the notification list, the guard and the
  `attempts` rule of `executeAttack`, and the mapping from outcome to result panel
  and notification (`SimulationPage` class).
- `Dashboard` (pages/Dashboard.js): the 60-frame count-up animation
  (`DashboardPage` class), the success rates and the pie slices.
- `Api` (services/api.js): `handleApiError`.

The helper modules are:

- `Wrappers`: `Option`.
- `Seqs`: order-preserving `Filter`, subsequences and `slice(0, n)`.
- `Text`: ASCII `toLowerCase`, `includes`, replacing one character by another, and decimal rendering.
- `Rounding`: `Math.round(100 * a / b)` and `toFixed(1)` computed exactly on integers.

Inputs the program gets from outside become parameters:

- HTTP replies and errors (a reply value is `Some`, a failed request `None`, or an `Api.ApiError`);
- `Date.now()` and `new Date().toISOString()` (an integer or string `now`);
- each firing of a timer (a method call: `Sequencer.TimerFires`, `DashboardPage.Tick`).

Where the code and the intended behaviour disagree, the model follows the code:

- Changing the attack in the visualizer does not reset `step` (pages/AttackVisualizer.js:61). The index stays in range only because every script has four stages, and `Sequencer.Valid` relies on that.
- The autoplay interval is only floored at 300 ms, not clamped from above (pages/AttackVisualizer.js:42).

The percentage of an empty quiz is `NaN`. It is modelled as `None`.

## Model

| member | source | states |
|---|---|---|
| Api.HandleApiError | frontend/src/services/api.js:11-19 | a reply gives its truthy `error` text or 'Request failed' plus the reply's status; a request with no reply gives 'No response from server' and 0; anything else gives its truthy message or 'Unexpected error' and 0; the message is never empty |
| Api.ResponseTakesPrecedence | frontend/src/services/api.js:12-17 | when a reply is present, whether a request was also recorded does not change the result |
| Api.NonZeroStatusMeansReply | frontend/src/services/api.js:12-18 | a non-zero status only ever comes from a server reply, and it is that reply's status |
| Visualizer.StepsByAttack | frontend/src/pages/AttackVisualizer.js:3-22 | every attack has exactly four stages; the last one is the Defense/Defense/Lockout stage |
| Visualizer.NextStep | frontend/src/pages/AttackVisualizer.js:33 | advances by one, never past the last stage, and holds at the last stage |
| Visualizer.PrevStep | frontend/src/pages/AttackVisualizer.js:34 | goes back by one, never below 0, and holds at 0 |
| Visualizer.TickStep | frontend/src/pages/AttackVisualizer.js:41 | advances by one before the last stage and wraps to 0 from it |
| Visualizer.UpdatersStayInRange | frontend/src/pages/AttackVisualizer.js:33-41 | next, prev and the tick all keep a valid index valid |
| Visualizer.NextAgreesWithTickExceptAtEnd | frontend/src/pages/AttackVisualizer.js:33-41 | next and the tick agree except at the last stage, where next holds and the tick returns to 0 |
| Visualizer.TickCycles | frontend/src/pages/AttackVisualizer.js:38-44 | n ticks from stage 0 reach stage n, and `len` ticks come back to 0 |
| Visualizer.IntervalMs | frontend/src/pages/AttackVisualizer.js:42 | the period is `max(300, speedMs)`; it is never below 300 or below the speed |
| Visualizer.Sequencer.Steps | frontend/src/pages/AttackVisualizer.js:31 | the current script has four stages |
| Visualizer.Sequencer.constructor | frontend/src/pages/AttackVisualizer.js:25-29 | SQLi, stage 0, payload `' OR '1'='1`, autoplay on, 1200 ms |
| Visualizer.Sequencer.Next | frontend/src/pages/AttackVisualizer.js:33 | the new step is `NextStep` of the old one; a no-op at the last stage; the invariant holds |
| Visualizer.Sequencer.Prev | frontend/src/pages/AttackVisualizer.js:34 | the new step is `PrevStep` of the old one; a no-op at 0; the invariant holds |
| Visualizer.Sequencer.Restart | frontend/src/pages/AttackVisualizer.js:35 | step becomes 0 from any state |
| Visualizer.Sequencer.SetAttack | frontend/src/pages/AttackVisualizer.js:61 | the attack changes, the step does not, and the step stays within the four stages |
| Visualizer.Sequencer.SetPayload | frontend/src/pages/AttackVisualizer.js:73 | the payload becomes the typed text |
| Visualizer.Sequencer.ToggleAutoPlay | frontend/src/pages/AttackVisualizer.js:86 | autoplay flips |
| Visualizer.Sequencer.SetSpeed | frontend/src/pages/AttackVisualizer.js:98 | the speed becomes the slider value |
| Visualizer.Sequencer.TimerPeriod | frontend/src/pages/AttackVisualizer.js:38-44 | a timer exists exactly when autoplay is on, with period `IntervalMs(speedMs)` of at least 300 ms |
| Visualizer.Sequencer.TimerFires | frontend/src/pages/AttackVisualizer.js:39-41 | with autoplay off nothing moves; with it on the step is `TickStep` of the old one, wrapping to 0 at the end |
| Visualizer.Sequencer.ProgressPercent | frontend/src/pages/AttackVisualizer.js:46 | progress lies in (0, 100] and is 100 exactly at the last stage |
| Visualizer.Progress | frontend/src/pages/AttackVisualizer.js:46 | `(step+1)/len*100` lies in (0, 100] and equals 100 iff the step is the last one |
| Visualizer.ProgressBounds | frontend/src/pages/AttackVisualizer.js:46 | the bounds of the progress expression for every valid step and length |
| Education.UserAnswerText | frontend/src/pages/EducationModule.js:199-205 | an unanswered question, an out-of-range index or an empty option reads 'Not answered'; an answered question with a non-empty option shows that option, any other text is the chosen option, and the text is never empty |
| Education.ResultFor | frontend/src/pages/EducationModule.js:198-209 | `isCorrect` iff the recorded answer equals the correct index; unanswered means incorrect and 'Not answered'; carries the question text, the correct option and the answer text of `UserAnswerText` |
| Education.CountCorrect | frontend/src/pages/EducationModule.js:197-201 | the number of correctly answered questions is at most the number of questions |
| Education.CountCorrectExtremes | frontend/src/pages/EducationModule.js:197-201 | the count is the total iff every answer is correct, and 0 iff none is |
| Education.ResultsFor | frontend/src/pages/EducationModule.js:198-209 | one result per question, in question order |
| Education.ScoreMatchesMarks | frontend/src/pages/EducationModule.js:197-214 | the score equals the number of results marked correct |
| Education.Grade | frontend/src/pages/EducationModule.js:197-210 | the counting loop returns exactly `CountCorrect` and `ResultsFor`, so `0 <= correct <= total` |
| Education.ScorePercent | frontend/src/pages/EducationModule.js:215 | defined iff there are questions; it is `round(100*correct/total)` (half-up) and lies in [0, 100] |
| Education.ResetAnswers | frontend/src/pages/EducationModule.js:220-226 | the quiz's answers become empty and every other quiz's answers are unchanged |
| Education.SelectAnswer | frontend/src/pages/EducationModule.js:370-376 | only `answers[quizId][questionId]` changes, to the chosen option; all other answers are unchanged |
| Education.ResetScoresZero | frontend/src/pages/EducationModule.js:220-226 | after a reset every question is incorrect and the score is 0 |
| Education.SelectChangesOneMark | frontend/src/pages/EducationModule.js:370-376 | choosing an option changes the mark of that question only |
| Education.Ids | frontend/src/pages/EducationModule.js:158 | the ids of the fetched questions, in order |
| Education.FirstFailure | frontend/src/pages/EducationModule.js:142-168 | the index of the first failed request: all before it succeeded |
| Education.RequestsUpTo | frontend/src/pages/EducationModule.js:142-153 | one request per category in order, each asking for 3 questions and excluding the same ids |
| Education.PlaygroundRestart | frontend/src/pages/EducationModule.js:463 | step becomes 0 and nothing else changes |
| Education.PlaygroundPrev | frontend/src/pages/EducationModule.js:469 | step becomes `max(0, step-1)` and nothing else changes |
| Education.PlaygroundNext | frontend/src/pages/EducationModule.js:475 | step becomes `min(3, step+1)` and nothing else changes |
| Education.PlaygroundSetAttack | frontend/src/pages/EducationModule.js:442 | the attack changes, the step and input do not |
| Education.PlaygroundSetInput | frontend/src/pages/EducationModule.js:454 | the input becomes the typed text, the attack and step do not change |
| Education.PlaygroundMatchesSequencer | frontend/src/pages/EducationModule.js:463-475 | the playground step stays in [0, 3] and its buttons agree with the visualizer's next/prev on four stages |
| Education.QuizPage.constructor | frontend/src/pages/EducationModule.js:8-12 | no answers, no results, no questions, no used ids, not loading |
| Education.QuizPage.Select | frontend/src/pages/EducationModule.js:370-376 | the answers become `SelectAnswer` of the old ones |
| Education.QuizPage.Reset | frontend/src/pages/EducationModule.js:220-226 | the answers become `ResetAnswers` of the old ones and the results are cleared |
| Education.QuizPage.Submit | frontend/src/pages/EducationModule.js:193-218 | the results carry the quiz id, the question count, the score, the per-question results and the percentage |
| Education.QuizPage.FetchQuestions | frontend/src/pages/EducationModule.js:135-175 | requests go out category by category, with no exclusions when replacing and the used ids otherwise, up to the first failure. On success the questions are the batch, and the used ids become the batch's ids (replace) or the old ids followed by them. Replacing also clears answers and results. On failure nothing but the loading flag changes |
| Logs.RetainedLogsIsFilter | frontend/src/pages/MonitoringLogs.js:76-91 | the one-pass retention equals the two successive filters |
| Logs.RetainedLogsIsSubsequence | frontend/src/pages/MonitoringLogs.js:76-91 | the retained logs are an order-preserving subsequence of the logs |
| Logs.RetainedLogsMembership | frontend/src/pages/MonitoringLogs.js:79-89 | a log is retained iff each filter is 'all' or the lower-cased field contains the lower-cased filter |
| Logs.RetainedLogsAll | frontend/src/pages/MonitoringLogs.js:79-89 | with both filters 'all' every log is retained |
| Logs.FilterLogs | frontend/src/pages/MonitoringLogs.js:76-92 | the filtered list is an order-preserving subsequence holding exactly the matching logs, and all the logs when both filters are 'all' |
| Logs.LogIcon | frontend/src/pages/MonitoringLogs.js:94-98 | the attack icon iff the event contains 'Attack'; the shield iff not that but 'Defense'; the memo otherwise |
| Logs.LogColor | frontend/src/pages/MonitoringLogs.js:100-104 | red iff 'Attack', blue iff not that but 'Defense', gray otherwise |
| Logs.IconAgreesWithColour | frontend/src/pages/MonitoringLogs.js:94-104 | icon and colour always pick the same class |
| Logs.StatusLabel | frontend/src/pages/MonitoringLogs.js:310-312 | 'Success' iff the lower-cased details contain 'success', else 'Failed' iff 'failed', else 'Blocked' iff 'blocked', else 'Info' |
| Logs.StatusBadge | frontend/src/pages/MonitoringLogs.js:303-308 | the badge is green iff the label is Success, red iff it is Failed or Blocked, and gray iff it is Info |
| Logs.TimeSeries | frontend/src/pages/MonitoringLogs.js:112-116 | `min(20, logs.length)` points, each counting one event, typed 'Attack' iff its event contains 'Attack' and 'Defense' otherwise |
| Logs.TimelineIgnoresTail | frontend/src/pages/MonitoringLogs.js:112 | logs after the first 20 do not affect the timeline |
| Logs.TimelineAgreesWithColour | frontend/src/pages/MonitoringLogs.js:100-116 | a timeline point is an attack iff its log is coloured red |
| Alerts.AlertIds | frontend/src/pages/AlertsReports.js:102-103 | the ids of the alerts, in order |
| Alerts.FiringRules | frontend/src/pages/AlertsReports.js:36-67 | rule 1 fires iff some attack succeeded, rule 2 iff more than 5 attacks, rule 3 iff some defense succeeded; no other id fires; at most three, in increasing id order |
| Alerts.RuleAlert | frontend/src/pages/AlertsReports.js:37-66 | the alert of a firing rule carries that id, the current time and the kind critical/warning/success, and each rule's own title, icon and reported count (successful attacks, total attacks, successful defenses) |
| Alerts.AlertsForRules | frontend/src/pages/AlertsReports.js:34-69 | the generated alerts are exactly those of the firing rules, in id order |
| Alerts.GenerateAlerts | frontend/src/pages/AlertsReports.js:32-70 | the pushes produce the alerts of the firing rules in id order |
| Alerts.MountedAlertsAsWritten | frontend/src/pages/AlertsReports.js:18-21 | on mount the alerts come from the initial zero stats, so there are none |
| Alerts.MountedAlerts | frontend/src/pages/AlertsReports.js:18-70 | alerts generated from the fetched stats fire exactly the rules those stats meet |
| Alerts.MountMissesFetchedAlerts | frontend/src/pages/AlertsReports.js:18-21 | with fetched stats that meet all three rules, the page as written still shows no alert |
| Alerts.DismissAlert | frontend/src/pages/AlertsReports.js:102-104 | removes every copy of the alerts with that id, keeps every copy of the others (duplicates included) in order, and changes nothing when the id is absent |
| Alerts.ToneOf | frontend/src/pages/AlertsReports.js:106-122 | critical is red, warning yellow and success green; the gray default iff the kind is none of these |
| Alerts.AlertColor | frontend/src/pages/AlertsReports.js:106-113 | the border classes are those of the kind's tone, so unknown kinds get the gray default |
| Alerts.AlertTextColor | frontend/src/pages/AlertsReports.js:115-122 | the text classes are those of the kind's tone, so unknown kinds get the gray default |
| Alerts.GeneratedAlertsAreColoured | frontend/src/pages/AlertsReports.js:36-67 | no generated alert falls to the gray default |
| Alerts.AttackSuccessPercent | frontend/src/pages/AlertsReports.js:256 | 0 when there are no attacks, else `round(100*successful/total)`, in [0, 100] |
| Alerts.DefenseSuccessPercent | frontend/src/pages/AlertsReports.js:277 | 0 when there are no defenses, else `round(100*successful/total)`, in [0, 100] |
| Alerts.FrequencyData | frontend/src/pages/AlertsReports.js:132-136 | three bars `floor(0.3t)`, `floor(0.7t)`, `t`, non-decreasing for `t >= 0` |
| Alerts.ReportStamp | frontend/src/pages/AlertsReports.js:87 | the first 19 characters of the ISO time with every ':' turned into '-', so it holds no ':' |
| Alerts.ReportFileName | frontend/src/pages/AlertsReports.js:88 | `cyber_sim_report_` + stamp + '.' + format, with no ':' in the stamp part |
| Alerts.ReportNameOfIsoTime | frontend/src/pages/AlertsReports.js:87-88 | a concrete ISO time gives the expected file name |
| Simulation.AddNotification | frontend/src/pages/AttackSimulation.js:42-44 | appends at the end without altering the existing entries |
| Simulation.DismissNotification | frontend/src/pages/AttackSimulation.js:46 | removes every entry with that id, keeps every copy of the others (duplicates included) in order, and changes nothing when the id is absent |
| Simulation.AddThenExpire | frontend/src/pages/AttackSimulation.js:42-47 | adding a toast and letting it expire leaves what removing that id alone would leave |
| Simulation.Attempts | frontend/src/pages/AttackSimulation.js:79 | 3 attempts iff BruteForce, 1 otherwise |
| Simulation.ResultOf | frontend/src/pages/AttackSimulation.js:83-96 | a reply is shown as is; a failure as `{result: 'error', reason}` with the non-empty message of `handleApiError` |
| Simulation.NoticeFor | frontend/src/pages/AttackSimulation.js:85-101 | a successful attack gives an 'error' toast and any other reply a 'success' toast; a failure gives 'warning' on status 429 and 'error' otherwise |
| Simulation.WarningOnlyForRateLimit | frontend/src/pages/AttackSimulation.js:92-98 | the warning appears iff the request failed with a server reply of status 429 |
| Simulation.PanelHeading | frontend/src/pages/AttackSimulation.js:274 | 'Successful' iff the result is 'success', 'Blocked' iff 'failure', 'Failed' otherwise |
| Simulation.PanelAgreesWithNotice | frontend/src/pages/AttackSimulation.js:85-101 | the panel says 'Successful' iff the toast reports a compromise; a failed request always reads 'Failed' |
| Simulation.SimulationPage.constructor | frontend/src/pages/AttackSimulation.js:7-13 | nothing selected, empty payload, no result, idle, no toasts |
| Simulation.SimulationPage.SelectAttack | frontend/src/pages/AttackSimulation.js:50-55 | selects the attack, loads its example payload, clears the result and adds an 'info' toast |
| Simulation.SimulationPage.SetPayload | frontend/src/pages/AttackSimulation.js:166 | the payload becomes the typed text |
| Simulation.SimulationPage.StartAttack | frontend/src/pages/AttackSimulation.js:57-80 | with no attack or an empty payload nothing changes and no request is sent; otherwise the request carries the type, payload and attempts, both busy flags are set and the button is disabled while the request is pending |
| Simulation.SimulationPage.FinishAttack | frontend/src/pages/AttackSimulation.js:82-105 | the result panel shows the outcome, the toast for the outcome is added and both busy flags are cleared |
| Simulation.SimulationPage.ExecuteAttack | frontend/src/pages/AttackSimulation.js:57-107 | an uninterrupted run of the start and the finish: with no attack or an empty payload nothing changes and no request is sent; otherwise the request carries the type, payload and attempts, the result panel and the toast follow the outcome, and `loading` and `isExecuting` end false |
| Simulation.SimulationPage.PressExecute | frontend/src/pages/AttackSimulation.js:232-234 | a press while a request is pending or with an empty payload does nothing; an enabled press with a selected attack starts it, after which the button is disabled until the request finishes |
| Simulation.SimulationPage.CanPress | frontend/src/pages/AttackSimulation.js:234 | the button is enabled iff nothing is loading and the payload is not empty |
| Simulation.SimulationPage.Dismiss | frontend/src/pages/AttackSimulation.js:117 | closing a toast removes the entries with its id |
| Dashboard.FrameValue | frontend/src/pages/Dashboard.js:35-41 | frame k shows `floor(target*k/60)` |
| Dashboard.FrameBounds | frontend/src/pages/Dashboard.js:37-42 | for a non-negative target and `0 <= k <= 60` the frame lies between 0 and the target |
| Dashboard.FrameMonotone | frontend/src/pages/Dashboard.js:37-42 | for a non-negative target later frames never show less |
| Dashboard.FrameEnds | frontend/src/pages/Dashboard.js:33-46 | frame 0 shows 0 and frame 60 shows the target |
| Dashboard.DashboardPage.constructor | frontend/src/pages/Dashboard.js:6-19 | zero stats, loading, zero counters, no animation |
| Dashboard.DashboardPage.FetchStats | frontend/src/pages/Dashboard.js:51-66 | a reply replaces the stats and an error keeps them; loading ends false either way and the count-up starts from frame 0 |
| Dashboard.DashboardPage.Tick | frontend/src/pages/Dashboard.js:33-48 | each frame advances the step and shows `Frame(stats, step)`; the 60th frame shows the fetched counters and stops; a count-up runs only once loading has ended |
| Dashboard.DashboardPage.RunAnimation | frontend/src/pages/Dashboard.js:32-48 | a running count-up ends after frame 60 with the counters equal to the fetched stats |
| Dashboard.SuccessRateTenths | frontend/src/pages/Dashboard.js:75-76 | 0 when there are no attacks; otherwise `PercentTenths` of successes over attacks, i.e. `1000*successful/total` rounded half-up, in [0, 1000] |
| Dashboard.DefenseRateTenths | frontend/src/pages/Dashboard.js:78-79 | 0 when there are no defenses; otherwise `PercentTenths` of successful over total defenses, i.e. `1000*successful/total` rounded half-up, in [0, 1000] |
| Dashboard.PieSlices | frontend/src/pages/Dashboard.js:68-71 | one slice per attack type with its count; no slices iff there are no types |
| Text.Lower | frontend/src/pages/MonitoringLogs.js:81 | `toLowerCase` on ASCII: letters A-Z become a-z, every other character is kept |
| Text.LowerIdempotent | frontend/src/pages/MonitoringLogs.js:81-87 | lower-casing twice is lower-casing once |
| Text.ContainsIff | frontend/src/pages/MonitoringLogs.js:81 | `includes` holds iff the needle occurs at some position |
| Text.ReplaceAll | frontend/src/pages/AlertsReports.js:87 | `replace(/:/g, '-')` changes every occurrence and nothing else |
| Text.NatToStringRoundTrip | frontend/src/pages/AlertsReports.js:41 | the decimal text of an alert count reads back as that count |
| Seqs.Filter | frontend/src/pages/AlertsReports.js:103 | `Array.filter` keeps exactly the elements meeting the predicate |
| Seqs.FilterIsSubsequence | frontend/src/pages/MonitoringLogs.js:80 | `Array.filter` preserves order |
| Seqs.FilterMultiset | frontend/src/pages/AlertsReports.js:103 | `Array.filter` keeps every copy of an accepted element and no copy of a rejected one |
| Seqs.FilterTwice | frontend/src/pages/MonitoringLogs.js:79-89 | two successive filters are one filter by the conjunction |
| Seqs.Take | frontend/src/pages/MonitoringLogs.js:112 | `slice(0, n)` keeps the first `min(n, length)` elements |
| Rounding.Percent | frontend/src/pages/AlertsReports.js:256 | `Math.round(100*part/whole)`: the nearest integer to `100*part/whole`, half-way cases up; it lies in [0, 100] for `0 <= part <= whole`, is 100 for the whole and 0 for nothing |
| Rounding.PercentTenths | frontend/src/pages/Dashboard.js:76 | `(100*part/whole).toFixed(1)` in tenths: the nearest integer to `1000*part/whole`, half-way cases up; it lies in [0, 1000], is 1000 for the whole and 0 for nothing |

## Left out

- Canvas and SVG animations (hero, graphs, flow diagram, explainer cards): floating point, `Math.random`, `requestAnimationFrame`; no logic to state.
- The random progress bar of `executeAttack` (pages/AttackSimulation.js:65-73): its increments come from `Math.random()`.
- HTTP and WebSocket traffic, the report blob download and its DOM link (pages/AlertsReports.js:72-100), and the `alert()` pop-ups: I/O. Replies are inputs.
- `generateReport` itself, apart from the file name: it is I/O.
- The socket lifecycle of the log page (pages/MonitoringLogs.js:20-56): connection plumbing. Each event only re-fetches.
- The log page's own stat cards and attack-type bar data (pages/MonitoringLogs.js:107-110, 140-162): they repeat the dashboard's pie data and the alerts page's defense percentage.
- Dashboard.PieSlices: a set, so slice order (`Object.entries` insertion order) and the colour each slice gets by index (pages/Dashboard.js:162-163) are not modelled.
- Alerts.GenerateAlerts: all alerts of one run share one `now`; the source reads the clock once per alert (pages/AlertsReports.js:42,53,64), so its timestamps can differ by a few milliseconds.
- Real timers: a timer firing is a method call; wall-clock time, overlapping intervals of successive effects and their cleanup are not modelled.
- `Date.now()`, `toISOString()`, `toLocaleString()`, `toLocaleTimeString()`: supplied as parameters. A timeline point's `time` is the log's raw timestamp, not its locale formatting.
- Unicode case folding: `Text.Lower` folds ASCII letters only.
- Floating point: `progress`, `0.3 * t`, `k / 60` and the percentages are computed exactly. Results can differ from IEEE doubles where rounding of a binary fraction flips a floor.
- Dashboard.SuccessRateTenths: the rate is the tenths as an integer, not the string `toFixed(1)` produces. Its rounding of exact halves follows `Math.round`, not the binary value of the double.
- Alerts.RuleAlert: the message text is kept as the count it reports (`AlertMessage`). `AlertMessage.Text` renders it with the source's wording.
- The alert, log and simulation icons are the emoji the source shows. The visualizer's stage icons are stored in its source as mis-decoded text (UTF-8 bytes read as Mac Roman); `Visualizer.StepsByAttack` carries the emoji they decode to. Icons are carried as data and nothing is proved about them.
- `data.error` values that are not strings, and non-array question replies: values outside the modelled types.
- Education.QuizPage.Submit: requires the one quiz id the page defines. For any other id the source dereferences an undefined quiz.
- Education.QuizPage.FetchQuestions: the fetch is modelled as one atomic call. Interleaving with other state changes while requests are pending is not modelled.
- The opening of the quiz tab that triggers the first fetch (pages/EducationModule.js:178-183), and the tutorial tabs: view toggles.
- DefenseModule.js, App.js, Sidebar.js, HeroPlayer.js, Notification.js, LoadingSpinner.js, the explainer pages and tailwind.config.js: markup, routing and style maps.
- docker/vulnerable-app/vulnerable_app.py: the server side is not part of this model.

## Findings

| source | as written | input that shows it | evidently intended | confidence | as-written member | corrected member |
|---|---|---|---|---|---|---|
| frontend/src/pages/AlertsReports.js:18-21 | `generateAlerts()` runs in the mount effect right after `fetchStats()` starts. It reads the initial zero stats, and nothing re-runs it when the stats arrive, so the page always shows "No active security alerts" | `/api/stats` replies with 6 attacks, 2 successful attacks and 1 successful defense | alerts generated from the fetched stats: all three rules fire | not executed | Alerts.MountedAlertsAsWritten (shown by Alerts.MountMissesFetchedAlerts) | Alerts.MountedAlerts |
