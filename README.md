# CORE-PAGE in Dafny

CORE-PAGE is a front-end prototype of a developer-assessment platform: companies
publish coding tests and read candidates' results, developers take tests in a
browser IDE and follow their own results, achievements and learning paths. All
data are literals inside the components. The rules behind the screens are small
and scattered through component bodies, and this project models them:

- the countdown format of the IDE header (`formatTime`);
- the search boxes and drop-down filters of the candidate table, the company's
  test list, the developer's tests and results pages, the feedback tabs and the
  achievements page;
- the tech-stack editor of the company profile, the team-chat send handler, the
  add-test-case form and its counters;
- the simulated "run code" terminal of the IDE and test pages;
- the colour and label selectors (score bands, statuses, severities, levels),
  the action button of a test card and its `cn` class joiner;
- the code editor's active-file lookup, line gutter and explorer highlight;
- the request middleware's path classification;
- the structure of the skill radar chart (web, score polygon, markers, 3D side
  faces).

Each source file has one module. Pure computations are functions. React state
that handlers update becomes a class with `modifies` clauses: the profile
editor, the chat panel, the add-test-case form, the editor view, the two IDE
pages and the radar view mode. Loops the source writes out (the radar chart's
`for` loops) are methods with loop invariants. Each of them is proved equal to
a specification function, and the lemmas are stated over those functions.
`Strings` holds ASCII stand-ins for the JavaScript string built-ins
(`toLowerCase`, `includes`, `trim`, `split`, `join`, `padStart`, `toString`).
`Seqs` holds `Array.filter`, subsequence order and Set insertion order.

The loop at src/components/reports/SkillRadarChart.tsx:63 runs `i <= sides`,
so each radar ring has `sides + 1` commands: the last returns to the first
axis, and no "Z" is emitted. `SkillRadarChart.IsRing` states this shape.

## Model

| member | source | states |
|---|---|---|
| EditorHeader.Fields | src/components/ide/EditorHeader.tsx:27-29 | hours, minutes and seconds recombine to the input (`h*3600 + m*60 + s == total`), and minutes and seconds are below 60 |
| EditorHeader.FieldsUnique | src/components/ide/EditorHeader.tsx:27-29 | any decomposition with minutes and seconds below 60 is the one computed, so fields and count determine each other |
| EditorHeader.TwoDigits | src/components/ide/EditorHeader.tsx:31 | `padStart(2, "0")` of a number is all digits, at least two long, exactly two below 100, three or more from 100 |
| EditorHeader.TwoDigitsValue | src/components/ide/EditorHeader.tsx:31 | the padded field reads back as the number |
| EditorHeader.FormatTime | src/components/ide/EditorHeader.tsx:26-32 | the result is 8 characters below 360000 seconds and at least 9 from there on (hours uncapped); the separators sit 3 and 6 from the end |
| EditorHeader.HoursBelow100 | src/components/ide/EditorHeader.tsx:27 | fewer than 100 hours exactly when fewer than 360000 seconds |
| EditorHeader.FormatTimeRoundTrip | src/components/ide/EditorHeader.tsx:26-32 | reading the rendered `H:M:S` back gives the input: the format loses nothing |
| EditorHeader.FormatTimeFields | src/components/ide/EditorHeader.tsx:31 | the output is the three padded fields joined by ':' |
| EditorHeader.ParseThreeFields | src/components/ide/EditorHeader.tsx:31 | three digit strings joined by ':' read back as their weighted sum |
| EditorHeader.FormatTimeDefault | src/components/ide/EditorHeader.tsx:36 | the header's default of 3600 seconds shows "01:00:00" |
| CompanyProfile.WithField | src/components/company/CompanyProfile.tsx:71-79 | `{...company, [name]: value}` sets the named field to the typed text and keeps every other field, the tech stack and the flags |
| CompanyProfile.AddedTech | src/components/company/CompanyProfile.tsx:54-62 | the old stack is a prefix; one entry, the trimmed text, is added exactly when it is non-blank and new; no-duplicates is preserved |
| CompanyProfile.AddTechIdempotent | src/components/company/CompanyProfile.tsx:55 | adding the same text twice adds it once |
| CompanyProfile.RemovedTech | src/components/company/CompanyProfile.tsx:64-69 | every copy of the tech is removed and every other entry kept with its multiplicity, in order; an absent tech leaves the stack unchanged; no-duplicates is preserved |
| CompanyProfile.RemoveAfterAdd | src/components/company/CompanyProfile.tsx:54-69 | removing a tech just added restores the old stack |
| CompanyProfile.ProfileEditor.constructor | src/components/company/CompanyProfile.tsx:50-52 | starts with the given record, an empty input and edit mode off |
| CompanyProfile.ProfileEditor.AddTech | src/components/company/CompanyProfile.tsx:54-62 | only the tech stack changes, as `AddedTech` says; the input is cleared on acceptance and kept otherwise |
| CompanyProfile.ProfileEditor.RemoveTech | src/components/company/CompanyProfile.tsx:64-69 | only the tech stack changes, as `RemovedTech` says |
| CompanyProfile.ProfileEditor.SetNewTech | src/components/company/CompanyProfile.tsx:328 | only the input text changes |
| CompanyProfile.ProfileEditor.KeyDown | src/components/company/CompanyProfile.tsx:329-333 | Enter changes the record and the input exactly as `AddTech` does; any other key changes nothing |
| CompanyProfile.ProfileEditor.InputChange | src/components/company/CompanyProfile.tsx:71-79 | the record becomes `WithField` of the old one; input and mode are kept |
| CompanyProfile.ProfileEditor.Edit | src/components/company/CompanyProfile.tsx:92 | edit mode on, nothing else changes |
| CompanyProfile.ProfileEditor.Save | src/components/company/CompanyProfile.tsx:81-85 | edit mode off, the record keeps its edits |
| CompanyProfile.ProfileEditor.Cancel | src/components/company/CompanyProfile.tsx:95 | edit mode off without reverting the edits |
| CompanyProfile.CancelKeepsEdits | src/components/company/CompanyProfile.tsx:71-79 | an edit followed by Cancel is still in the record |
| CandidateResults.FilteredCandidates | src/components/company/CandidateResults.tsx:124-135 | the rows kept are exactly those matching the search in name, email or test title and admitted by both filters, as a subsequence in table order with each kept row as many times as in the table, so the footer shows n <= m |
| CandidateResults.NoFilterShowsAll | src/components/company/CandidateResults.tsx:124-135 | an empty search with falsy filters shows the whole table |
| CandidateResults.StatusFilterNarrows | src/components/company/CandidateResults.tsx:130 | choosing a status yields a subsequence of the rows shown without it |
| CandidateResults.SuitabilityFilterNarrows | src/components/company/CandidateResults.tsx:131-132 | choosing a suitability yields a subsequence of the rows shown without it |
| CandidateResults.FiltersCompose | src/components/company/CandidateResults.tsx:130-134 | both filters together are the status filter applied to the suitability-filtered rows |
| CandidateResults.ScoreCell | src/components/company/CandidateResults.tsx:294-296 | "-" exactly for "In Progress"; otherwise the score's digits followed by "%" |
| CandidateResults.StatusColor | src/components/company/CandidateResults.tsx:150-161 | "" exactly for a status outside the three |
| CandidateResults.StatusColorInjective | src/components/company/CandidateResults.tsx:150-161 | the three statuses get distinct badges |
| CandidateResults.SuitabilityColor | src/components/company/CandidateResults.tsx:176-187 | "" exactly for a verdict outside the three |
| CandidateResults.SuitabilityColorInjective | src/components/company/CandidateResults.tsx:176-187 | the three verdicts get distinct badges |
| TestManagement.FilteredTests | src/components/company/TestManagement.tsx:119-125 | tests kept are exactly those whose title contains the query and whose type passes the optional filter, in order and with their multiplicity; count <= total |
| TestManagement.TestTypes | src/components/company/TestManagement.tsx:128 | no duplicates, and a type is offered exactly when some test has it |
| TestManagement.TestTypesInFirstOccurrenceOrder | src/components/company/TestManagement.tsx:128 | the types appear in the order of their first occurrence (Set insertion order) |
| TestManagement.OfferedTypeSelectsSomething | src/components/company/TestManagement.tsx:119-128 | every offered type selects at least one test under an empty search |
| TestManagement.EmptySearchListsAll | src/components/company/TestManagement.tsx:119-125 | an empty search with no type filter lists every test |
| DeveloperTests.BucketMeaning | src/app/developer-dashboard/tests/page.tsx:91-96 | "all" admits every status, "active" exactly In Progress and Not Started, "completed" and "expired" their own; any other value nothing |
| DeveloperTests.FilteredTests | src/app/developer-dashboard/tests/page.tsx:83-99 | tests kept are exactly those matching title, company or a skill and in the tab's bucket, as an order-preserving subsequence keeping each one's multiplicity |
| DeveloperTests.EmptySearchListsAll | src/app/developer-dashboard/tests/page.tsx:84-89 | an empty search on "all" lists every test |
| DeveloperTests.UnknownTabListsNothing | src/app/developer-dashboard/tests/page.tsx:91-96 | a tab value other than the four lists nothing |
| DeveloperTests.TabNarrowsAll | src/app/developer-dashboard/tests/page.tsx:83-99 | each tab's list is the "all" list narrowed to its statuses |
| DeveloperTests.TabsPartitionAll | src/app/developer-dashboard/tests/page.tsx:91-96 | for one search the Active, Completed and Expired counts add up to the All count |
| ResultsPage.FilteredResults | src/app/developer-dashboard/results/page.tsx:73-81 | results kept are exactly those matching title, company or a skill name, in order and with their multiplicity |
| ResultsPage.EmptySearchKeepsAll | src/app/developer-dashboard/results/page.tsx:73-81 | an empty search keeps every result in order |
| ResultsPage.NoSkillsSearchesTitleAndCompany | src/app/developer-dashboard/results/page.tsx:77-79 | a result with no skills matches only through title or company |
| ResultsPage.ScoreColor | src/app/developer-dashboard/results/page.tsx:92-96 | green exactly from 90, amber exactly on 70..89, red exactly below 70 |
| ResultsPage.ScoreColorMonotone | src/app/developer-dashboard/results/page.tsx:92-96 | a higher score never gets a lower band |
| TestCaseRunner.CountsAddUp | src/components/collaborative/TestCaseRunner.tsx:112-120 | passed + failed + not-run equals the number of test cases (a missing status counts as not run); each count <= total |
| TestCaseRunner.CountsOfAppended | src/components/collaborative/TestCaseRunner.tsx:112-120 | one more test case raises exactly the counter of its status |
| TestCaseRunner.DefaultCounts | src/components/collaborative/TestCaseRunner.tsx:28-60 | the four default cases count two passed, one failed, one not run |
| TestCaseRunner.StatusColor | src/components/collaborative/TestCaseRunner.tsx:90-99 | green exactly for passed, red exactly for failed, gray exactly for not run or none |
| TestCaseRunner.ActualOutputShown | src/components/collaborative/TestCaseRunner.tsx:207 | the actual output is shown exactly for a failed test with a non-empty actual output, and it is that output |
| TestCaseRunner.TestCaseForm.constructor | src/components/collaborative/TestCaseRunner.tsx:67-71 | the form starts with three empty fields |
| TestCaseRunner.TestCaseForm.SetName | src/components/collaborative/TestCaseRunner.tsx:236-237 | only the name changes |
| TestCaseRunner.TestCaseForm.SetInput | src/components/collaborative/TestCaseRunner.tsx:248-249 | only the input changes |
| TestCaseRunner.TestCaseForm.SetExpectedOutput | src/components/collaborative/TestCaseRunner.tsx:262-267 | only the expected output changes |
| TestCaseRunner.TestCaseForm.AddTestCase | src/components/collaborative/TestCaseRunner.tsx:73-88 | the callback fires exactly when no field is empty, with exactly the three fields, and then the form is cleared; otherwise the form is unchanged |
| TestCaseRunner.WhitespaceNameAccepted | src/components/collaborative/TestCaseRunner.tsx:74 | a name of one space is accepted; a second press on the cleared form sends nothing |
| TeamChat.AfterSend | src/components/collaborative/VirtualTeamChat.tsx:105-120 | a non-blank draft appends exactly one message, from "You", of plain type, carrying the untrimmed draft, after the untouched history; a blank draft leaves the list as it is |
| TeamChat.SendKeepsHistory | src/components/collaborative/VirtualTeamChat.tsx:120 | no earlier message is lost or changed by a send |
| TeamChat.ChatPanel.constructor | src/components/collaborative/VirtualTeamChat.tsx:101-102 | starts with the initial messages and an empty draft |
| TeamChat.ChatPanel.SetNewMessage | src/components/collaborative/VirtualTeamChat.tsx:251 | only the draft changes |
| TeamChat.ChatPanel.SendMessage | src/components/collaborative/VirtualTeamChat.tsx:105-122 | the list becomes `AfterSend`; `onSendMessage` gets the untrimmed draft exactly when it is non-blank, and then the draft is cleared |
| TeamChat.ChatPanel.KeyDown | src/components/collaborative/VirtualTeamChat.tsx:155-160 | Enter without Shift sends: list, returned text and draft as `SendMessage` gives them; any other key or Shift+Enter changes nothing and sends nothing |
| TeamChat.BlankDraftIsKept | src/components/collaborative/VirtualTeamChat.tsx:106 | a draft of spaces is refused and stays in the box |
| TeamChat.MessageIcon | src/components/collaborative/VirtualTeamChat.tsx:166-177 | review gets ThumbsUp, suggestion AlertCircle, pr GitPullRequest, and the speech bubble exactly every other kind |
| CodeReview.BadgeCounts | src/components/collaborative/CodeReviewPanel.tsx:92-98 | errors + warnings <= issues; with only the three severities, errors + warnings + infos equals the issues |
| CodeReview.ThreeSeverities | src/components/collaborative/CodeReviewPanel.tsx:92-98 | with only error, warning and info, the three counts add up to the number of issues |
| CodeReview.SeverityColor | src/components/collaborative/CodeReviewPanel.tsx:55-66 | gray exactly for a severity outside the three |
| CodeReview.SeverityColorInjective | src/components/collaborative/CodeReviewPanel.tsx:55-66 | the three severities get distinct colours |
| CodeReview.SeverityLabels | src/components/collaborative/CodeReviewPanel.tsx:112-113 | the headings read "Error", "Warning" and "Info" |
| CodeReview.RuleBadge | src/components/collaborative/CodeReviewPanel.tsx:119-121 | a badge exactly for a defined, non-empty rule, showing that rule |
| CodeReview.RenderBody | src/components/collaborative/CodeReviewPanel.tsx:104-151 | the placeholder exactly for an empty list; otherwise one row per issue in order, headed by its capitalised severity, with a badge exactly when the rule is set |
| CodeAnalysis.ScoreColor | src/components/reports/CodeAnalysis.tsx:117-121 | green exactly from 90, amber exactly on 70..89, red exactly below 70 |
| CodeAnalysis.ScoreColorMonotone | src/components/reports/CodeAnalysis.tsx:117-121 | a higher score never gets a worse colour |
| CodeAnalysis.DefaultScoreColors | src/components/reports/CodeAnalysis.tsx:49-51 | the default scores 85, 78 and 92 are amber, amber and green |
| CodeAnalysis.SeverityVariant | src/components/reports/CodeAnalysis.tsx:104-115 | destructive exactly for error, secondary exactly for warning, default for everything else |
| Strings.Capitalize | src/components/reports/CodeAnalysis.tsx:207-208 | the first character upper-cased, the rest unchanged, the length kept |
| Feedback.PositiveTab | src/components/reports/FeedbackSection.tsx:133-139 | exactly the positive items, in order, each as many times as in the list |
| Feedback.NegativeTab | src/components/reports/FeedbackSection.tsx:141-147 | exactly the negative items, in order, each as many times as in the list |
| Feedback.TabCounts | src/components/reports/FeedbackSection.tsx:127-147 | positive + negative + neutral is the All count, so the two tabs never hold more than All, and exactly as many when nothing is neutral |
| Feedback.TypeLabel | src/components/reports/FeedbackSection.tsx:268-272 | "Positive", "Needs Improvement" and "Neutral" each for exactly its own type |
| Feedback.Initials | src/components/reports/FeedbackSection.tsx:255 | the first two characters (fewer for a shorter name), upper-cased |
| Feedback.InitialsOfReviewers | src/components/reports/FeedbackSection.tsx:49-77 | the mock reviewers show "SA", "MI" and "AL" |
| SkillRadarChart.CalculatePointScale | src/components/reports/SkillRadarChart.tsx:44-51 | score 0 lands on the centre, 100 on the outer ring, and the offset from the centre is proportional to the score |
| SkillRadarChart.MoveThenLines | src/components/reports/SkillRadarChart.tsx:63-73 | one command per point, a move for the first and lines for the rest |
| SkillRadarChart.RingPath | src/components/reports/SkillRadarChart.tsx:60-73 | the inner loop builds the path through axes 0..sides at the ring's radius |
| SkillRadarChart.GenerateGrid | src/components/reports/SkillRadarChart.tsx:54-128 | the two loops build exactly the web `Grid` |
| SkillRadarChart.RingsShape | src/components/reports/SkillRadarChart.tsx:59-85 | the ring loop yields rings 1..n in order |
| SkillRadarChart.RingShape | src/components/reports/SkillRadarChart.tsx:61-73 | ring k visits every axis and back to the first at `radius * k / 5`, a move then lines |
| SkillRadarChart.AxesShape | src/components/reports/SkillRadarChart.tsx:88-125 | each axis contributes its spoke, then its label |
| SkillRadarChart.GridShape | src/components/reports/SkillRadarChart.tsx:54-128 | 5 + 2*sides elements: five rings (the fifth at the full radius), then per axis a spoke from the centre to the outer ring and a label at 1.1 times the radius |
| SkillRadarChart.GenerateSkillPolygon | src/components/reports/SkillRadarChart.tsx:131-171 | the loop builds exactly the polygon path and the markers |
| SkillRadarChart.PolygonShape | src/components/reports/SkillRadarChart.tsx:135-157 | one command per skill then its only "Z", starting with a move; one marker per skill on that skill's vertex |
| SkillRadarChart.ScoreIndicators | src/components/reports/SkillRadarChart.tsx:231-251 | one score bubble per skill, on that skill's marker, showing its score |
| SkillRadarChart.Generate3DEffect | src/components/reports/SkillRadarChart.tsx:174-228 | nothing outside the 3D view; in it, exactly the side faces |
| SkillRadarChart.SideFacesShape | src/components/reports/SkillRadarChart.tsx:194-225 | one face per skill; face i joins vertex i to vertex i+1 (the last back to vertex 0) and their copies 20 below, and is filled with skill i's colour |
| SkillRadarChart.NextIndex | src/components/reports/SkillRadarChart.tsx:206 | `(i + 1) % sides` is the next index, wrapping to 0 after the last |
| SkillRadarChart.RadarChartView.constructor | src/components/reports/SkillRadarChart.tsx:36 | the view starts in 3D |
| SkillRadarChart.RadarChartView.SetViewMode | src/components/reports/SkillRadarChart.tsx:258-263 | the tab sets the view mode |
| SkillRadarChart.RadarChartView.Draw | src/components/reports/SkillRadarChart.tsx:286-289 | web, side faces in 3D only, polygon and markers, score bubbles |
| SkillRadarChart.DefaultChartShape | src/components/reports/SkillRadarChart.tsx:21-39 | the defaults have centre 250, radius 200, a web of 17 elements and 6 faces in 3D |
| CodeEditor.FindByPath | src/components/ide/CodeEditor.tsx:76-77 | the first file with the path, or none exactly when no file has it |
| CodeEditor.FindByPathUnique | src/components/ide/CodeEditor.tsx:76-77 | with distinct paths the file found is the one with that path |
| CodeEditor.ActiveFileContent | src/components/ide/CodeEditor.tsx:76-77 | the first file with the active path shows its content when non-empty and `code` when empty; `code` when no file matches |
| CodeEditor.EmptyActiveFileShowsCode | src/components/ide/CodeEditor.tsx:77 | an existing but empty active file shows the `code` prop (falsy `\|\|`) |
| CodeEditor.ActiveFileShown | src/components/ide/CodeEditor.tsx:76-77 | a non-empty active file is shown as it is |
| CodeEditor.ActiveFileName | src/components/ide/CodeEditor.tsx:100 | the matching file's name or the fallback; the fallback when no file matches |
| CodeEditor.HeaderAndTerminalAgree | src/components/ide/CodeEditor.tsx:237-238 | header and terminal show the same name, or "untitled" and "index.js" when there is none |
| CodeEditor.LineNumbers | src/components/ide/CodeEditor.tsx:213-216 | one number per newline plus one, numbered 1..n without gaps |
| CodeEditor.EntryClass | src/components/ide/CodeEditor.tsx:171-176 | highlighted exactly when the entry is the active file |
| CodeEditor.Highlighted | src/components/ide/CodeEditor.tsx:171-176 | the highlighted indices are exactly those of files with the active path |
| CodeEditor.HighlightMatchesHeader | src/components/ide/CodeEditor.tsx:171-176 | with distinct paths at most one entry is highlighted, and the header names it |
| CodeEditor.EditorView.constructor | src/components/ide/CodeEditor.tsx:72-73 | starts on the editor tab with the explorer open |
| CodeEditor.EditorView.ToggleFileTree | src/components/ide/CodeEditor.tsx:88 | flips the explorer, keeps the tab |
| CodeEditor.EditorView.SetCurrentTab | src/components/ide/CodeEditor.tsx:191 | sets the tab, keeps the explorer |
| CodeEditor.ToggleTwice | src/components/ide/CodeEditor.tsx:88 | two toggles restore the explorer state |
| CodeEditor.DefaultEditor | src/components/ide/CodeEditor.tsx:47-69 | with the default files "/index.js" shows index.js and highlights entry 0; an unknown path shows "untitled" and "index.js" |
| SimulatedRun.Started | src/app/ide/page.tsx:31 | the click shows the transcript plus the running line |
| SimulatedRun.Completed | src/app/ide/page.tsx:35-41 | the timer shows the captured transcript plus the four result lines |
| SimulatedRun.CompletedExtendsStarted | src/app/ide/page.tsx:31-41 | what the click showed is a prefix of what the timer shows |
| SimulatedRun.InitialOutputShape | src/app/ide/page.tsx:13-26 | twelve starting lines, none of them the running line |
| IdePage.Page.constructor | src/app/ide/page.tsx:11-27 | "/index.js", 3600 seconds, the twelve lines, not running |
| IdePage.Page.RunCode | src/app/ide/page.tsx:29-31 | running, the running line appended, the transcript captured for the timer |
| IdePage.Page.TimerFires | src/app/ide/page.tsx:34-43 | the oldest captured transcript plus the result lines replace the output, and running is off |
| IdePage.Page.SaveCode | src/app/ide/page.tsx:46-49 | no state changes |
| IdePage.Page.SubmitCode | src/app/ide/page.tsx:51-54 | no state changes |
| IdePage.Page.ClearTerminal | src/app/ide/page.tsx:56-58 | the output becomes empty, nothing else changes |
| IdePage.Page.FileSelect | src/app/ide/page.tsx:60-62 | only the active file changes |
| IdePage.RunToCompletion | src/app/ide/page.tsx:29-43 | a run from rest ends with the old transcript plus the result lines, not running |
| IdePage.ClearDuringRunIsUndone | src/app/ide/page.tsx:29-58 | a clear during a run is overwritten by the captured transcript |
| TestPage.Page.constructor | src/app/test/page.tsx:20-37 | "/index.js", 3600 seconds, the twelve lines, not running, the instructions tab |
| TestPage.Page.SetActiveRightTab | src/app/test/page.tsx:108-109 | only the right-hand tab changes |
| TestPage.Page.RunCode | src/app/test/page.tsx:39-41 | running, the running line appended, the transcript captured |
| TestPage.Page.TimerFires | src/app/test/page.tsx:44-53 | the captured transcript plus the result lines, running off |
| TestPage.Page.SaveCode | src/app/test/page.tsx:56-59 | no state changes |
| TestPage.Page.SubmitCode | src/app/test/page.tsx:61-64 | no state changes |
| TestPage.Page.ClearTerminal | src/app/test/page.tsx:66-68 | the output becomes empty, nothing else changes |
| TestPage.Page.FileSelect | src/app/test/page.tsx:70-72 | only the active file changes |
| TestPage.RunToCompletion | src/app/test/page.tsx:39-53 | a run from rest ends with the old transcript plus the result lines |
| TestPage.ClearDuringRunIsUndone | src/app/test/page.tsx:39-68 | a clear during a run is undone by the stale captured transcript |
| TestPage.DoubleRun | src/app/test/page.tsx:39-53 | two clicks before the timer leave the first click's running line before the result lines |
| TestCard.ActionButton | src/components/developer/TestCard.tsx:64-97 | each status gets its own button; every live button passes the test's id, and only an expired test has none |
| TestCard.ButtonLabelDeterminesStatus | src/components/developer/TestCard.tsx:64-97 | two cards have the same caption exactly when they have the same status |
| TestCard.DifficultyColor | src/components/developer/TestCard.tsx:38-49 | blue exactly for a difficulty outside Easy, Medium and Hard |
| TestCard.DifficultyColorInjective | src/components/developer/TestCard.tsx:38-49 | the three difficulties get distinct badges |
| TestCard.ScoreLine | src/components/developer/TestCard.tsx:145-149 | shown exactly for a completed test with a score, as "Score: " then the score's digits then "%" |
| TestCard.CnAllFalsy | src/components/developer/TestCard.tsx:169-171 | no truthy argument gives "" |
| TestCard.CnSplit | src/components/developer/TestCard.tsx:169-171 | splitting the result at spaces gives back the truthy class names in order |
| TestCard.StatusLineClasses | src/components/developer/TestCard.tsx:136-141 | the status line gets the base classes, plus a space and its status's colour for the three coloured statuses |
| TestCard.CnBaseAndOne | src/components/developer/TestCard.tsx:169-171 | a base class and three guarded classes with at most one present give the base, or the base, a space and that class |
| Achievements.Earned | src/app/developer-dashboard/achievements/page.tsx:94 | exactly the earned achievements, in order, each as many times as in the list |
| Achievements.InProgress | src/app/developer-dashboard/achievements/page.tsx:95 | exactly the unearned achievements, in order, each as many times as in the list |
| Achievements.EarnedInProgressPartition | src/app/developer-dashboard/achievements/page.tsx:94-95 | the two lists are disjoint and their lengths add up to the total, so earned <= total |
| Achievements.NextAchievement | src/app/developer-dashboard/achievements/page.tsx:196 | the title of the first unearned achievement, none exactly when all are earned |
| Achievements.FirstInProgress | src/app/developer-dashboard/achievements/page.tsx:196 | the head of the in-progress list is the first unearned achievement |
| Achievements.LevelColor | src/app/developer-dashboard/achievements/page.tsx:97-108 | blue exactly for no level or a level outside bronze, silver and gold |
| Achievements.LevelColorInjective | src/app/developer-dashboard/achievements/page.tsx:97-108 | the three medals get distinct colours |
| Learning.ProgressColor | src/app/developer-dashboard/learning/page.tsx:128-132 | green exactly from 75, blue exactly on 25..74, amber exactly below 25 |
| Learning.ProgressColorMonotone | src/app/developer-dashboard/learning/page.tsx:128-132 | more progress never gives a lower band |
| Learning.DifficultyColor | src/app/developer-dashboard/learning/page.tsx:115-126 | gray exactly for a level outside the three |
| Learning.DifficultyColorInjective | src/app/developer-dashboard/learning/page.tsx:115-126 | the three levels get distinct badges |
| Learning.CompletedCount | src/app/developer-dashboard/learning/page.tsx:218-219 | completed <= modules, equal exactly when every module is completed |
| Learning.ProgressNotDerived | src/app/developer-dashboard/learning/page.tsx:50-67 | the first path shows its stored 65% although half of its modules are completed |
| Middleware.AnyPrefixIff | src/middleware.ts:26-28 | `some(startsWith)` holds exactly when some route is a prefix |
| Middleware.IsProtectedRouteIff | src/middleware.ts:18-28 | protected exactly when the path starts with one of the four routes |
| Middleware.SkipsIff | src/middleware.ts:10-15 | skipped exactly for a "/api" prefix or a dot anywhere |
| Middleware.Handle | src/middleware.ts:10-34 | every path gets `next()`; the early return and the protection flag are as the two predicates say |
| Middleware.IdeasIsProtected | src/middleware.ts:26-28 | "/ideas" counts as protected |
| Middleware.DashboardsIsProtected | src/middleware.ts:26-28 | "/dashboards" counts as protected |
| Middleware.ApiaryIsSkipped | src/middleware.ts:11-12 | "/apiary" is skipped like an API route |
| Middleware.DottedProtectedPathIsSkipped | src/middleware.ts:11-12 | a dot skips even under a protected route |
| Middleware.LoginIsPublic | src/middleware.ts:10-34 | "/login" is neither skipped nor protected and still gets `next()` |
| Strings.ContainsIff | src/components/company/CandidateResults.tsx:126-128 | `includes` holds exactly when the query occurs at some index |
| Strings.TrimEmptyIff | src/components/collaborative/VirtualTeamChat.tsx:106 | a string trims to "" exactly when it is all whitespace |
| Strings.TrimIdempotent | src/components/company/CompanyProfile.tsx:55 | trimming twice is trimming once |
| Strings.SplitCount | src/components/ide/CodeEditor.tsx:213 | `split("\n")` yields one piece more than there are newlines |
| Strings.DecimalValuePadStart | src/components/ide/EditorHeader.tsx:31 | zero-padding keeps a digit string's value |
| Seqs.FilterIsSubsequence | src/components/company/CandidateResults.tsx:124 | `filter` keeps elements in their order |
| Seqs.FilterMultiset | src/components/company/CandidateResults.tsx:124 | `filter` keeps every copy of an admitted element and none of a rejected one |
| Seqs.FilterHead | src/app/developer-dashboard/achievements/page.tsx:196 | the first element `filter` keeps is the first one satisfying the predicate |
| Seqs.DistinctFirstOccurrenceOrder | src/components/company/TestManagement.tsx:128 | `Array.from(new Set(...))` lists values in first-occurrence order |

## Left out

- I/O and clocks: `console.log` in the save and submit handlers, `Date.now()` ids and `new Date()` timestamps. The chat's id and timestamp are parameters.
- Timers: the two-second completion of a run is an explicit `TimerFires` step. Pending runs are a FIFO queue; they all have the same delay.
- The delayed, random teammate reply of the chat (src/components/collaborative/VirtualTeamChat.tsx:124-152) is nondeterministic and not modelled.
- Authentication (src/lib/auth.ts, src/components/auth/AuthProvider.tsx) involves localStorage, JSON and promises and is not part of this model. The middleware `matcher` regex (src/middleware.ts:47) is configuration for the framework.
- SkillRadarChart.CalculatePointScale: `Math.cos` and `Math.sin` are parameters of the chart, so only the linear and combinatorial structure is proved. Float rounding is not modelled, and neither is rotation periodicity. Path commands are data, not formatted strings. `0.4`, `1.1` and `Math.PI` are exact reals.
- SkillRadarChart: every chart needs at least one skill, because with none `2π/0` is not finite.
- SkillRadarChart.Generate3DEffect: the top-face `pathData` (src/components/reports/SkillRadarChart.tsx:177-191) is computed and never used, so it is not returned.
- ResultsPage.ScoreColor, CodeAnalysis.ScoreColor, Learning.ProgressColor, CandidateResults.ScoreCell, TestCard.ScoreLine and the `progress` of Achievements.Achievement: scores and progress are TypeScript `number`s in the source but integers here, so a fractional score such as 85.5 cannot be expressed, and band thresholds are stated only for integer inputs.
- EditorHeader.FormatTime: a natural number of seconds only. Callers pass 3600; negative or fractional input is not modelled.
- Strings: `toLowerCase`, `toUpperCase` and `trim` are ASCII-only. Unicode case mapping and whitespace are not modelled.
- CodeEditor.DefaultEditor: the three sample file texts and the `code` default are parameters, not the literals. The lemma needs only that index.js is non-empty.
- Learning.ProgressNotDerived: only the first mock path's modules are written out. The other mock paths and all descriptions are not.
- Date and locale formatting (`formatDate`, `formatDeadline`, `formatTimestamp`, `toLocaleTimeString`) and `getDaysRemaining` depend on the clock and the locale.
- Presentation-only selectors: the icon pickers (`getStatusIcon`, `getSuitabilityIcon`, `getSeverityIcon`), the achievements category badge, the feedback form tab and the recharts wrappers render literals. SkillSummary's `getProgressColor` returns the same class in every branch. Landing, layout, sidebar and settings files only render or assign one field.
- Achievements: the progress bar shown when `progress` is defined (src/app/developer-dashboard/achievements/page.tsx:263) is not modelled. It is a direct test of one optional field.
- Learning: the "Recommended" badge shown when `isRecommended` (src/app/developer-dashboard/learning/page.tsx:184) is not modelled. It is a direct read of a boolean field.
- Text typed into the company profile's employee-count input is stored as text (`Entry.Str`), as in the source. No number parsing is modelled.
