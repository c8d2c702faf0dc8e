# Iris production-test sequencer, modelled in Dafny

Iris runs production tests on devices under test (DUTs) sitting in test
positions. This project models the core of the sequencer:

- the test runner (`test_runner/runner.py`): the default test control, the
  wait for serial numbers from the UI, the case loop over the positions, the
  end-of-run verdicts with the consecutive-failure warning, and its own
  progress message;
- the progress reporter, the test position, the DUT record and the two
  test-case base classes (`test_runner/test_case.py` and the older
  `test_case.py`);
- the HTTP listener's test-control endpoint, its request plumbing, the UI
  handler's path validation, and the user authentication;
- the report writer (`create_report`, `remove_tree`) and the MongoDB handler
  (statistics, clean-up, search and attachments) of the test definition
  template.

Modelling choices:

- A Python dict is an insertion-ordered sequence of key/value pairs with
  first-match lookup. `Put` replaces a value in place or appends a new key, so
  iteration order is Python's (`PyValue`).
- JSON-like data is the `Value` datatype. Python's truthiness is `Truthy`, and
  each Python exception the core can raise is a `PyError` carried in a
  `Result`.
- Objects whose fields the source assigns are classes with `modifies` clauses:
  the test control, the positions, the progress reporter, the HTTP handler,
  the database and the queues. Each method's `ensures` ties the new state to a
  specification function, and the properties are proved about those
  functions.
- Loops over dicts are methods with loop invariants, proved against
  recursive specification functions.
- Clocks become a parameter `now` in integer seconds. Queues hold `Value`s
  rather than their `json.dumps` text. The disk is a set of file paths, or a
  tree of `Node`s for `remove_tree`. `bcrypt.checkpw` and `json_decode` are
  function parameters.
- A DUT's `pass_fail_result` is `Verdict`: `'testing'`, `True` or `False`, the
  only values the repository assigns.

## Model

| member | source | states |
|---|---|---|
| Control.TestControl.constructor | test_runner/runner.py:18-33 | the run event starts cleared; the eleven default keys hold their default values, with the serial source and sequence list from the common definitions |
| Control.TestControl.SetEntry | test_runner/runner.py:104 | assigning a key other than 'run' changes that entry only and keeps the run event and the control valid |
| SerialInput.InitialSerials | test_runner/runner.py:41-43 | the serial map has exactly one key per configured position, without duplicates |
| SerialInput.InitialSerialsNone | test_runner/runner.py:41-43 | before any message every position's serial is None |
| SerialInput.Assigned | test_runner/runner.py:50-52 | the message loop never adds, removes or reorders a position key |
| SerialInput.AssignedGet | test_runner/runner.py:50-52 | a position named by the message takes the message's value for it; every other position keeps its serial |
| SerialInput.AssignSerials | test_runner/runner.py:50-52 | the loop over the message's keys computes `Assigned` |
| SerialInput.ApplyMessage | test_runner/runner.py:46-57 | one message keeps the position keys; a message that is not a dict changes nothing or raises TypeError, the only exception that escapes |
| SerialInput.DictMessage | test_runner/runner.py:50-54 | a dict message never raises; it assigns the positions it names and sets the sequence name from its 'sequence' entry when present |
| SerialInput.CheckAllReceived | test_runner/runner.py:59-66 | the `for ... else` check succeeds iff every position holds a truthy serial |
| SerialInput.GetSnFromUi | test_runner/runner.py:36-68 | the waiting loop over the queued messages computes `Collect` from all-None serials and no sequence name |
| SerialInput.CollectKeys | test_runner/runner.py:36-68 | the serials returned keep exactly the configured position keys |
| SerialInput.CollectReceived | test_runner/runner.py:59-66 | the wait returns only once every serial is truthy, after consuming at least one and at most all of the messages; a crash also consumes at least one message |
| SerialInput.MalformedSkipped | test_runner/runner.py:56-57 | a message that fails JSON decoding is consumed and changes nothing |
| SerialInput.SequenceLastWins | test_runner/runner.py:53-54 | the last message carrying 'sequence' decides the sequence name |
| SerialInput.SequenceUnset | test_runner/runner.py:39 | without a message carrying 'sequence' the name stays as it was, None at the start of the wait |
| SerialInput.CollectSequence | test_runner/runner.py:53-68 | the returned name is the name after exactly the messages consumed |
| SerialInput.EverySerialReceived | test_runner/runner.py:59-68 | on success each configured position has exactly one entry and its serial is truthy |
| RunnerProgress.DutsField | test_runner/runner.py:81-91 | the 'duts' field is None exactly when no positions are given |
| RunnerProgress.RunnerSnapshotFields | test_runner/runner.py:93-102 | the runner's message has distinct keys, its five fields with their values, 'overall_result' iff the result is truthy, and no statistics or instructions |
| RunnerProgress.ReporterExtendsRunner | test_runner/progress_reporter.py:42-55 | the reporter's message is the runner's message followed by statistics and operator instructions |
| RunnerProgress.ReportProgress | test_runner/runner.py:78-105 | the message is stored under 'progress' and exactly one copy is put on the progress queue; nothing else in the control changes |
| RunnerCases.ExecutedCases | test_runner/runner.py:179 | the filtered case list is never longer than TESTS |
| RunnerCases.ExecutedCasesMembers | test_runner/runner.py:179 | a case runs iff it is in TESTS and not in SKIP |
| RunnerCases.ExecutedCasesConcat | test_runner/runner.py:179 | filtering keeps the order of TESTS |
| RunnerCases.ExampleSequenceCases | test_definition_template/sequences/example_sequence/test_definition.py:7-9 | the example sequence runs Second_pre, First, Second and PoolTestCase, in that order |
| RunnerCases.LookupName | test_runner/runner.py:202 | removing '_pre' never lengthens a name |
| RunnerCases.PlainNameKept | test_runner/runner.py:202 | a name without '_pre' is looked up unchanged |
| RunnerCases.PreEntryName | test_runner/runner.py:202 | an entry made of a name without underscores and '_pre' (the example's 'Second_pre') is looked up under that name ('Second') |
| RunnerCases.NewInstance | test_runner/runner.py:204-227 | an instance exists iff the case is in the sequence or the pool; the sequence wins, and the instance gets the position's DUT |
| RunnerCases.PreEntryMissedAsWritten | test_runner/runner.py:202-239 | as written, an entry such as 'Second_pre' (a name without underscores plus '_pre') contains '_pre' yet never takes the pre-task branch |
| RunnerCases.StepPosition | test_runner/runner.py:189-282 | one case on one position never changes the DUT or the stop flag; a position without a DUT or told to stop is skipped; a missing case is reported by name |
| RunnerCases.StepPositionAsWritten | test_runner/runner.py:193-282 | as written, a position shows the name the loop variable holds; the '_pre' test looks at the stripped name; and the case ends the run with an error exactly when it is found, is no pre entry after stripping, and its pre test or test raises |
| RunnerCases.StepAsWrittenAgrees | test_runner/runner.py:193-282 | for a name without '_pre' whose case raises nothing, the body as written and the corrected body agree |
| RunnerCases.RaisingCaseEndsRunAsWritten | test_runner/runner.py:274-275 | as written, a case whose pre test or test raises ends the run, where the corrected body goes on |
| RunnerCases.StepShowsEntry | test_runner/runner.py:196-198 | while a position is busy with a case it shows the TESTS entry; once the case is done it is idle and shows no step |
| RunnerCases.InnerShowsEntry | test_runner/runner.py:189-282 | over the corrected loop every position is untouched or shows the TESTS entry (no step once idle) |
| RunnerCases.InnerAsWritten | test_runner/runner.py:189-282 | the loop as written keeps one state per position and hands the stripped name on from each position holding a DUT to the next |
| RunnerCases.InnerAsWrittenAgrees | test_runner/runner.py:189-282 | for an entry without '_pre' whose case raises nowhere, the loop as written equals the corrected loop and keeps the entry in the loop variable |
| RunnerCases.OverwrittenNameAsWritten | test_runner/runner.py:197-202 | as written, with 'Second_pre' and 'Second' cached on the first position only, the run ends on the second position showing 'Second'; the corrected loop shows 'Second_pre' |
| RunnerCases.StepCompleted | test_runner/runner.py:229-282 | a case that is found and raises nothing leaves the position with status 'idle', step None, test status 'Idle' and its instance cached |
| RunnerCases.PreEntryStartsTask | test_runner/runner.py:238-248 | with the corrected dispatch, a '_pre' entry records the position's pre task and leaves the test status alone |
| RunnerCases.Inner | test_runner/runner.py:189-282 | the loop over the positions keeps one state per position |
| RunnerCases.InnerNames | test_runner/runner.py:189 | the loop never renames or reorders positions |
| RunnerCases.Outer | test_runner/runner.py:185-282 | the loop over the case list keeps one state per position |
| RunnerCases.RunOnPosition | test_runner/runner.py:193-282 | the case body on a position object computes `StepPosition` |
| RunnerCases.RunAt | test_runner/runner.py:189-282 | the case body on the i-th position object computes `StepPosition` there and leaves every other position untouched |
| RunnerCases.RunEntry | test_runner/runner.py:189-282 | the inner loop over the position objects computes `Inner` |
| RunnerCases.RunCases | test_runner/runner.py:185-282 | the nested loops over the case list and the positions compute `Outer` |
| RunnerCases.InnerStops | test_runner/runner.py:223-226 | once a case is missing, the rest of the positions are skipped |
| RunnerCases.OuterStops | test_runner/runner.py:223-226 | once a case is missing, the rest of the case list is skipped |
| RunnerCases.StepCached | test_runner/runner.py:229-235 | one case caches at most that case's instance, created with the position's DUT |
| RunnerCases.CachedTrans | test_runner/runner.py:229-235 | the cache relation composes across steps |
| RunnerCases.InnerCached | test_runner/runner.py:229-235 | one pass over the positions caches only the entry's case |
| RunnerCases.RunCachesInstances | test_runner/runner.py:229-235 | over a whole run a position's cache only grows; each instance is created once per listed case name with the position's DUT |
| RunnerCases.InnerSkipped | test_runner/runner.py:193-194 | a position without a DUT or told to stop is untouched by one pass |
| RunnerCases.RunSkipsPosition | test_runner/runner.py:193-194 | such a position is untouched by the whole run |
| RunnerCases.InnerMissing | test_runner/runner.py:223-226 | one pass ends early only for a case found in neither the sequence nor the pool |
| RunnerCases.RunStopsOnlyOnMissingCase | test_runner/runner.py:223-226 | the run ends early only for a missing case; an exception raised by a case never ends it |
| RunnerFinalize.Tally | test_runner/runner.py:293-306 | a pass adds one to the pass count; a fail resets the pass count and counts repeats of the same failed steps |
| RunnerFinalize.CountersAcrossRuns | test_runner/runner.py:124-126 | the counters carry over between runs: two runs count as one run over both runs' DUTs |
| RunnerFinalize.VerdictMessageTellsVerdict | test_runner/runner.py:293-298 | a message starts with the DUT's serial number, is "sn: PASSED" exactly when the DUT passed, and a FAILED message ends with the failed steps joined by ", " |
| RunnerFinalize.VerdictMessagesConcat | test_runner/runner.py:293-298 | one message per DUT, in order: the messages of two groups of DUTs are the first group's followed by the second's |
| RunnerFinalize.MarkedOnlyStatus | test_runner/runner.py:293-299 | marking changes only the test status, a second marking changes nothing, and a position with a DUT is 'pass' exactly when the DUT passed and 'fail' otherwise |
| RunnerFinalize.DutsOfMembers | test_runner/runner.py:284-291 | a DUT is reported exactly when some position holds it |
| RunnerFinalize.DutsOfConcat | test_runner/runner.py:284-291 | the DUTs are taken position by position, in order |
| RunnerFinalize.MarkedUpTo | test_runner/runner.py:284-299 | marking keeps one state per position |
| RunnerFinalize.EmptyPositionCrashesAsWritten | test_runner/runner.py:286-291 | as written, any position without a DUT makes the end of the run raise |
| RunnerFinalize.DutsOfSkipsEmpty | test_runner/runner.py:290-291 | positions without a DUT contribute no verdict |
| RunnerFinalize.EmptyPositionsSkipped | test_runner/runner.py:290-291 | with the corrected order, empty positions change neither the counters nor the messages, and stay as they were |
| RunnerFinalize.RepeatedFails | test_runner/runner.py:301-306 | k identical failures leave a pass count of 0 and those steps as the history; the fail count grows by k when the history already matched, and is k-1 otherwise |
| RunnerFinalize.SixthIdenticalFailWarns | test_runner/runner.py:308-309 | from a fresh start the warning is due iff at least six consecutive identical failures were seen |
| RunnerFinalize.PassesAfterWarning | test_runner/runner.py:296-309 | passes only raise the pass count, so a warning stays due until the fifth pass |
| RunnerFinalize.MarkPosition | test_runner/runner.py:293-299 | the position object's new test status is `Marked` of its old state |
| RunnerFinalize.MarkedUpToNext | test_runner/runner.py:284-299 | marking one more position changes only that position |
| RunnerFinalize.TallyNext | test_runner/runner.py:284-306 | one more position adds its DUT's verdict to the counters and messages, or nothing if it has no DUT |
| RunnerFinalize.MarkAt | test_runner/runner.py:293-299 | marking the i-th position object leaves every other position untouched |
| RunnerFinalize.Finalize | test_runner/runner.py:284-309 | the end-of-run loop and warning check compute the corrected `Finalized` counters, messages and position states |
| RunnerFinalize.OverallResult | test_runner/runner.py:314 | the overall result is defined exactly when the last position holds a DUT, and is then a verdict value (True, False or 'testing') |
| RunnerFinalize.OverallResultIsLastPosition | test_runner/runner.py:286-314 | the overall result depends only on the last position: it is truthy exactly when that DUT passed, whatever the other DUTs did |
| RunnerFinalize.EndRun | test_runner/runner.py:284-316 | the end of a run computes `Finalized`, then stores and queues the 'finalize' message with the last position's verdict; an empty last position raises and sends no report |
| Progress.OptStr | test_runner/progress_reporter.py:55 | a str-or-None field is None in JSON exactly when it is None |
| Progress.PositionView | test_runner/progress_reporter.py:35-40 | a position's entry has keys step, status, sn and test_status; sn is None iff there is no DUT, otherwise the DUT's serial |
| Progress.DutsViewKeys | test_runner/progress_reporter.py:33-40 | the 'duts' map has exactly one key per position name |
| Progress.DutsViewGet | test_runner/progress_reporter.py:33-40 | each position's entry shows that position's own fields |
| Progress.States | test_runner/progress_reporter.py:34 | the positions' current fields, one per position in order |
| Progress.BuildDutsView | test_runner/progress_reporter.py:31-40 | the loop over the positions builds the 'duts' map of their current states |
| Progress.ReporterSnapshotFields | test_runner/progress_reporter.py:42-55 | the message has distinct keys; 'overall_result' iff the result is truthy; statistics and instructions always present; each field holds the reporter's value |
| Progress.Instructions | test_runner/progress_reporter.py:21-25 | the new instructions end with the message, and start with the old ones and a CRLF when appending to truthy instructions |
| Progress.AppendedAllJoins | test_runner/progress_reporter.py:21-25 | appending messages one after another shows them all, CRLF-separated, in order |
| Progress.ProgressReporter.constructor | test_runner/progress_reporter.py:5-13 | every reported field starts as None |
| Progress.ProgressReporter.ReportProgress | test_runner/progress_reporter.py:29-58 | the snapshot is stored under 'progress' and exactly one copy is put on the queue |
| Progress.ProgressReporter.SetProgress | test_runner/progress_reporter.py:15-19 | the fields given are stored, the others kept, then exactly one report is sent |
| Progress.ProgressReporter.ShowOperatorInstructions | test_runner/progress_reporter.py:21-27 | the message replaces the instructions, or is appended on a new line when appending to shown instructions; no other field changes; one report is sent |
| Positions.Prepared | test_runner/test_position.py:12-18 | step and DUT are cleared, status is 'wait', a falsy test status becomes 'Idle' and a truthy one is kept |
| Positions.PreparedIdempotent | test_runner/test_position.py:12-18 | preparing twice is preparing once |
| Positions.TestPosition.constructor | test_runner/test_position.py:2-10 | a new position has its name, no step, status, test status or DUT, no instances, and is not told to stop |
| Positions.TestPosition.PrepareForNewTestRun | test_runner/test_position.py:12-18 | the position's new state is `Prepared` of its old state |
| Positions.TestPosition.ToString | test_runner/test_position.py:20-21 | a position prints as its name |
| Duts.VerdictOf | test_runner/dut.py:9 | reading a verdict back from its value gives that value |
| Duts.NewDut | test_runner/dut.py:2-11 | a new DUT holds its arguments, no cases or failed or error steps, and the verdict 'testing', which is truthy |
| Duts.NewDutDefaults | test_runner/dut.py:2 | hw_id, order and additional_info default to None |
| Duts.DutDict | test_runner/dut.py:13-25 | the dict has the nine keys in source order, without duplicates |
| Duts.StrsOf | test_runner/dut.py:23-24 | reading a list of str back keeps its length |
| Duts.StrsRoundTrip | test_runner/dut.py:23-24 | a list of step names reads back unchanged |
| Duts.StrKeyedRoundTrip | test_runner/dut.py:21 | a str-keyed dict reads back unchanged |
| Duts.DutDictRoundTrip | test_runner/dut.py:13-25 | every field of the DUT can be read back from `get_dut_dict()` |
| TestCases.LimitRow | test_runner/test_case.py:31-35 | a row is written iff neither `inspect.getsource` nor the limit raises; it holds the source text, the measurement and the verdict, and otherwise the first exception is raised |
| TestCases.ApplyLimits | test_runner/test_case.py:30-36 | succeeds iff every measurement has a limit whose source and verdict can be computed; then one row per measurement, in order; otherwise the first failing measurement's KeyError or the limit's own exception |
| TestCases.TestCase.constructor | test_runner/test_case.py:11-13 | a new case has no results |
| TestCases.TestCase.NewResult | test_runner/test_case.py:19-21 | the measurement is stored under its name; other names keep theirs |
| TestCases.TestCase.ResultHandler | test_runner/test_case.py:23-40 | a truthy error gives a single 'Error' row; otherwise empty limits give a single 'Success' row and non-empty limits are applied to every measurement, a missing or raising limit raising |
| LegacyTestCases.TestCase.constructor | test_case.py:10-11 | a new case has no results |
| LegacyTestCases.TestCase.NewResult | test_case.py:17-18 | the measurement is stored under its name; other names keep theirs |
| LegacyTestCases.TestCase.ResultHandler | test_case.py:20-30 | no measurements give an empty table; succeeds iff every measurement has a limit that does not raise, one row per measurement with the limit applied; otherwise a failing measurement's exception |
| Auth.Authenticate | listener/auth.py:11-18 | the operator always gets in; any user other than the engineer and the operator never does |
| Auth.EngineerNeedsPassword | listener/auth.py:11-14 | the engineer gets in iff the password matches the stored hash |
| Auth.OnlyKnownUsers | listener/auth.py:11-18 | a successful login is the operator, or the engineer with the right password |
| Listener.LastValueIndex | listener/listener.py:106-115 | `LastValue` finds a value iff some item carries the key, and it is the value of the last such item |
| Listener.PostedKeys | listener/listener.py:113-115 | posting never adds or removes a control key |
| Listener.PostedEntry | listener/listener.py:113-115 | each control entry ends with the value posted last for it, or keeps its value when the body does not mention it |
| Listener.PostedRun | listener/listener.py:108-112 | the run event follows the truthiness of the body's 'run' value when it has one, and is otherwise unchanged |
| Listener.PostedIdempotent | listener/listener.py:106-115 | posting the same body twice is posting it once |
| Listener.DecodeBody | listener/listener.py:68-74 | a content type containing 'json' decodes the body as JSON, failing iff decoding fails; 'text/plain' gives the text; anything else gives None |
| Listener.PostKeepsKeySet | listener/listener.py:57-76 | a successful post never changes the control's key set |
| Listener.PlainTextPostFails | listener/listener.py:73-76 | a text/plain body has no `.items()`, so the post fails with AttributeError |
| Listener.TestRunnerHandler.constructor | listener/listener.py:17-26 | the handler starts with the three CORS headers, status 200 and nothing written |
| Listener.TestRunnerHandler.SirenResponse | listener/listener.py:36-44 | a response is written only when there is one; the siren content type is set in every case, other headers unchanged |
| Listener.TestRunnerHandler.Options | listener/listener.py:78-82 | a preflight request is answered 204 and finished, with nothing written |
| Listener.TestRunnerHandler.HandleGet | listener/listener.py:46-55 | a GET writes "Stay tuned" with the siren content type |
| Listener.TestRunnerHandler.HandlePost | listener/listener.py:103-115 | succeeds iff the data is a dict, and then the control becomes `Posted`; otherwise AttributeError and the control is unchanged |
| Listener.HeaderLookupFinds | listener/listener.py:69 | a request header is found under any capitalisation of its name, and the lookup fails only when no header has the name |
| Listener.SingleHeaderFound | listener/listener.py:69 | a single Content-Type header, however capitalised, gives its value |
| Listener.TestRunnerHandler.Post | listener/listener.py:57-76 | the control's new state and the reply follow `PostEffect` on the case-insensitively looked-up Content-Type: a missing content type, a body that fails to decode or a non-dict raises and leaves the reply untouched |
| Listener.NormalisedRoot | listener/listener.py:146-153 | the root ends with '/' and extends the given root by at most that separator |
| Listener.PathJoin | listener/listener.py:165 | joining an absolute component gives it; otherwise the result starts with the base and ends with the component |
| Listener.ValidateAbsolutePath | listener/listener.py:139-169 | a path outside the root is refused, always with 403; a directory without a trailing '/' is redirected permanently; a directory with a trailing '/' serves its default file when that is a file; a contained file is served; any other contained path serves the default file under the root; without a default file name a missing file raises |
| Listener.ContainedUnderRoot | listener/listener.py:156-157 | a path that passes the 403 test is the root itself or lies below it |
| Listener.JoinedUnderRoot | listener/listener.py:158-165 | the default file of a contained directory stays under the root |
| Listener.ServedUnderRoot | listener/listener.py:139-169 | every path served lies under the static root, given a relative default file name |
| ReportWriter.NameParts | test_definition_template/common/test_report_writer.py:26-32 | at most one name part per position |
| ReportWriter.NamePartsMembers | test_definition_template/common/test_report_writer.py:26-32 | a part is "position-serial" for a position holding a DUT, and every such position has its part |
| ReportWriter.NamePartsConcat | test_definition_template/common/test_report_writer.py:26-32 | the parts follow the position order |
| ReportWriter.EmptyPositionsUnnamed | test_definition_template/common/test_report_writer.py:30 | positions without a DUT give an empty file name |
| ReportWriter.RootItemsOf | test_definition_template/common/test_report_writer.py:44-48 | the root items have distinct keys |
| ReportWriter.RootItemsGet | test_definition_template/common/test_report_writer.py:44-48 | the root items are exactly the report's non-dict entries plus 'operator' and 'tester', with their values |
| ReportWriter.CollectRootItems | test_definition_template/common/test_report_writer.py:44-48 | the loop over the report computes `RootItemsOf` |
| ReportWriter.CasesWhere | test_definition_template/common/test_report_writer.py:73-80 | succeeds iff every case has a readable result; then the selected names are exactly the cases whose result the filter accepts |
| ReportWriter.ErrorCasesArePassed | test_definition_template/common/test_report_writer.py:73-80 | an 'error' case is also listed as passed, since 'error' is truthy |
| ReportWriter.MeasurementEntries | test_definition_template/common/test_report_writer.py:89-99 | succeeds iff every measurement has the four fields; one entry per measurement, in order |
| ReportWriter.CaseEntry | test_definition_template/common/test_report_writer.py:86-108 | an entry exists only for a dict case with a dict of measurements |
| ReportWriter.CaseEntryFields | test_definition_template/common/test_report_writer.py:100-108 | an entry holds the name, the measurements and the start time, end time and duration, '' for those missing |
| ReportWriter.NonLoop | test_definition_template/common/test_report_writer.py:87-88 | no item named 'loop' is kept |
| ReportWriter.NonLoopMembers | test_definition_template/common/test_report_writer.py:87-88 | exactly the 'loop' item is dropped, the others kept in order |
| ReportWriter.CaseEntries | test_definition_template/common/test_report_writer.py:84-108 | succeeds iff every non-loop case gives an entry; one entry per non-loop case, in order |
| ReportWriter.BaseRecordGet | test_definition_template/common/test_report_writer.py:58-82 | the record's own fields hold the serial, report path, loop cycle, position, verdict and case lists |
| ReportWriter.RecordFields | test_definition_template/common/test_report_writer.py:58-111 | root items override the record's fields with the report's values; the fields they do not name keep the DUT's values |
| ReportWriter.ReportPathIdentifiesDut | test_definition_template/common/test_report_writer.py:60 | the report path is empty unless this is the last result, and then never empty; two DUTs get the same path exactly when they have the same serial and the same verdict |
| ReportWriter.ReportedDuts | test_definition_template/common/test_report_writer.py:53-55 | at most one reported DUT per position |
| ReportWriter.SweptRecords | test_definition_template/common/test_report_writer.py:51-114 | without errors there is one record per reported position, in order, each that DUT's record |
| ReportWriter.SweptPaths | test_definition_template/common/test_report_writer.py:62-63 | the path map stays empty unless this is the last result; then each key is a reported DUT's position |
| ReportWriter.SweptPathsComplete | test_definition_template/common/test_report_writer.py:62-63 | for the last result, when no record raised, every reported DUT's position is a key of the path map |
| ReportWriter.ReportPositionStep | test_definition_template/common/test_report_writer.py:51-114 | one pass builds the position's record, inserts it when there is a database, and extends the path map for the last result |
| ReportWriter.CreateReport | test_definition_template/common/test_report_writer.py:10-116 | shows the take-away instructions when configured, queueing and storing exactly that one progress report; a non-dict report raises; otherwise every reported DUT's record is inserted in order and the path map is returned, or the first error; the attachments, the reporter's other fields and the control entries other than 'progress' are untouched |
| ReportWriter.InsertRecords | test_definition_template/common/test_report_writer.py:51-114 | the loop over the positions inserts exactly the records of `Swept`, stopping at the first error |
| ReportWriter.SweptStops | test_definition_template/common/test_report_writer.py:51-114 | once a record fails, the remaining positions change nothing |
| ReportWriter.Pruned | test_definition_template/common/test_report_writer.py:125-140 | a surviving entry keeps its kind (file or directory) |
| ReportWriter.PrunedEntry | test_definition_template/common/test_report_writer.py:130-136 | an entry disappears iff pruning removes it, and otherwise keeps its name |
| ReportWriter.PrunedChildren | test_definition_template/common/test_report_writer.py:130-136 | pruning never adds entries |
| ReportWriter.PrunedChildrenConcat | test_definition_template/common/test_report_writer.py:130-136 | pruning a directory's entries distributes over the list |
| ReportWriter.RemovedTree | test_definition_template/common/test_report_writer.py:126-127 | a timespan of zero or less changes nothing |
| ReportWriter.PruneTree | test_definition_template/common/test_report_writer.py:125-140 | the recursion with its loop over the children computes `Pruned` |
| ReportWriter.RemoveTree | test_definition_template/common/test_report_writer.py:125-140 | `remove_tree` computes `RemovedTree` |
| ReportWriter.PrunedClean | test_definition_template/common/test_report_writer.py:130-140 | after pruning no expired file and no empty directory is left |
| ReportWriter.PrunedChildrenClean | test_definition_template/common/test_report_writer.py:130-136 | the same for every surviving entry of a directory |
| ReportWriter.PrunedGone | test_definition_template/common/test_report_writer.py:130-140 | an entry disappears iff it holds no file younger than the timespan |
| ReportWriter.PrunedChildrenGone | test_definition_template/common/test_report_writer.py:130-140 | a directory's entries all disappear iff none holds a fresh file |
| ReportWriter.SurvivorFound | test_definition_template/common/test_report_writer.py:130-136 | a surviving entry is found under its own name afterwards |
| ReportWriter.FreshFileKept | test_definition_template/common/test_report_writer.py:131-134 | a file that has not expired stays at its path |
| MongoDb.Database.constructor | test_definition_template/common/mongodb_handler.py:8-11 | both collections start empty |
| MongoDb.Database.InsertReport | test_definition_template/common/test_report_writer.py:113-114 | one report is appended to `test_reports`; attachments unchanged |
| MongoDb.Database.StoreTestDataFile | test_definition_template/common/mongodb_handler.py:145-146 | the keyword arguments are appended as one attachment document; reports unchanged |
| MongoDb.Field | test_definition_template/common/mongodb_handler.py:14-16 | a field is found iff the document is a dict that has it |
| MongoDb.Where | test_definition_template/common/mongodb_handler.py:63 | `find` keeps exactly the matching documents, in collection order |
| MongoDb.WhereWeaker | test_definition_template/common/mongodb_handler.py:75-80 | filtering first by a weaker condition changes nothing |
| MongoDb.WhereConcat | test_definition_template/common/mongodb_handler.py:63 | filtering distributes over concatenated collections |
| MongoDb.GetYield | test_definition_template/common/mongodb_handler.py:24-47 | the yield is 0 iff no report started in the last four weeks; otherwise the pass count is at most the positive run count |
| MongoDb.GetUph | test_definition_template/common/mongodb_handler.py:49-56 | the count is at most the number of reports, and 0 iff none started in the last hour |
| MongoDb.StatisticsCounts | test_definition_template/common/mongodb_handler.py:24-56 | each count is the number of positions in the collection whose report matches its filter: passes and reports of the last four weeks for the yield, reports started in the last hour for the units per hour |
| MongoDb.WhereCountsMatches | test_definition_template/common/mongodb_handler.py:30-34 | `find(filter)` returns one document per matching position of the collection, so its length is what `.count()` gives |
| MongoDb.StatisticsCountNewReport | test_definition_template/common/mongodb_handler.py:24-56 | one more report adds one to exactly the counts whose filter it passes |
| MongoDb.GetStatistics | test_definition_template/common/mongodb_handler.py:18-22 | a zero yield implies zero units per hour |
| MongoDb.FilePath | test_definition_template/common/mongodb_handler.py:68 | a path is read iff the document has a str 'file_path' |
| MongoDb.UnlinkedRemovesFiles | test_definition_template/common/mongodb_handler.py:65-72 | when every stale attachment names its file, none of those files remains and every other file is untouched |
| MongoDb.UnlinkedQuietWhenPresent | test_definition_template/common/mongodb_handler.py:69-72 | no warning is logged when the stale attachments name distinct files that all exist |
| MongoDb.CleanDb | test_definition_template/common/mongodb_handler.py:58-80 | stale attachments lose their files and documents and stale reports are deleted; an error in the unlink loop leaves both collections unchanged |
| MongoDb.StopsAfterError | test_definition_template/common/mongodb_handler.py:66-72 | once an attachment has no usable path, the rest of the loop is skipped |
| MongoDb.CleanKeepsStatistics | test_definition_template/common/mongodb_handler.py:58-80 | cleaning never changes the yield or the units per hour |
| MongoDb.GetMediaFilePath | test_definition_template/common/mongodb_handler.py:13-16 | without an attachment of that name the lookup raises TypeError |
| MongoDb.StoredFileFound | test_definition_template/common/mongodb_handler.py:13-16 | a stored attachment is found by its name unless an earlier one has the same name |
| MongoDb.SearchBarNamesSearchKeys | test_definition_template/common/mongodb_handler.py:82-110 | the search bar offers one item per key the search reads, in order |
| MongoDb.HoursSpan | test_definition_template/common/mongodb_handler.py:120 | whole hours become seconds while the span stays within 999999999 days either way, and raise OverflowError beyond; booleans are 0 or 1 hour; anything else raises TypeError |
| MongoDb.Cutoff | test_definition_template/common/mongodb_handler.py:118-121 | the cutoff is now minus the span, and exists exactly when the span exists and the cutoff lies between years 1 and 9999; otherwise OverflowError |
| MongoDb.OversizedLimitOverflows | test_definition_template/common/mongodb_handler.py:115-121 | a limit of 10**8 hours makes the search raise OverflowError |
| MongoDb.SearchQuery | test_definition_template/common/mongodb_handler.py:112-134 | the search fails iff 'limit_hours' is given and its cutoff raises (not a number of hours, or out of the timedelta or datetime range), with that exception |
| MongoDb.SearchDb | test_definition_template/common/mongodb_handler.py:112-134 | building the filter by successive updates gives `SearchQuery` |
| MongoDb.SearchWithoutArguments | test_definition_template/common/mongodb_handler.py:114-131 | no arguments give an empty filter and a limit of 500 |
| MongoDb.SearchConditions | test_definition_template/common/mongodb_handler.py:115-134 | each key sets its own condition: hours bound the start time, the DUT identifier is the serial, only_fails asks for failed runs, limit_N replaces the limit |
| MongoDb.SearchReadsOnlySearchKeys | test_definition_template/common/mongodb_handler.py:112-134 | arguments that agree on the four search keys give the same search |

## Left out

- Threads: the background pre-test and post-test tasks (runner.py:238-272) run in sequence. An exception in a thread stays in that thread, as in Python, so the model never propagates one.
- Time: the wall clock and the monotonic clock are a parameter `now` in whole seconds. Several clock reads within one call share it.
- File I/O: writing the HTML report (`json2html`, `create_report_path`) and `remove_old_reports` are left out. The disk is a set of paths, or a tree of entries with modification times.
- `get_cookie_secret` (file and `os.urandom`) is left out. `bcrypt.checkpw` is a function parameter.
- Tornado plumbing is left out: `create_listener`, the websocket handlers, and `ApiRootHandler`, `DutsHandler` and `ProgressHandler`, which only return a constant or a control entry.
- MongoDB queries: executing `search_db`'s query is left out, including sorting, applying the limit and the `{'test_runs': ...}` wrapper. The model returns the filter and the limit. A `limit_N` of the wrong type fails only inside pymongo, which is not part of this model.
- MongoDb.GetYield: returns the pass and run counts rather than the floating-point percentage `pass / all * 100`.
- Floats: `Value` has no floating-point numbers, so float measurements, float limit results and float JSON numbers cannot be expressed.
- MongoDb.HoursSpan: since `Value` has no float, a fractional number of hours cannot be expressed. Whole hours and booleans are modelled; a str or other non-number raises TypeError.
- MongoDb.Cutoff: `now` is a whole number of seconds since 1970-01-01; the microseconds of `datetime.now()` are not modelled.
- Progress.ProgressReporter.SetProgress: `self.__dict__.update(kwargs)` stores any keyword as an attribute. The model accepts only the six progress fields; a keyword that rebinds `test_control` or `progess_queue`, or adds a new attribute, is not modelled (both are constant fields here).
- ReportWriter.CreateReport: `stop_reporting` and `set_report_paths` exist neither on the test position nor on the progress reporter. The positions are `ReportPosition` records carrying the flag, and the path map is returned instead of being handed to the reporter.
- Runner results: `results[dut.serial_number] = dut.results` (runner.py:288) reads an attribute `Dut` does not have. The results dict and its start, end and duration are not modelled.
- Runner set-up and tear-down: instrument initialisation, `boot_up`, `prepare_test`, `parse_dut_info`, `finalize_test`, `shutdown` and the call to `create_report` live in the per-sequence common definitions. They are not part of this model, and neither is the terminate/single-run outer loop around them.
- Missing-case exception: `exceptions.TestCaseNotFound` (runner.py:224) is not defined in `test_runner/exceptions.py`. Evaluating it raises AttributeError, which ends the run either way, and the model reports the missing case name.
- Runner case classes: neither TestCase base class takes the six constructor arguments the runner passes or defines `run_pre_test`, `run_test` and `run_post_test`. The model assumes case classes that supply them; a `Library` parameter says whether each step raises.
- RunnerCases.RunOnPosition: the `report_progress('testing', ...)` calls at runner.py:200, 258, 262 and 282 are not sent; only their effect on the positions' fields is modelled. The 'finalize' report is `RunnerFinalize.EndRun`; the 'Create test report' report (runner.py:337-341) belongs to the outer loop, which is left out.
- RunnerFinalize.OverallResult: a run without positions is not modelled. `dut` is then unbound, or still bound to an earlier run's DUT.
- RunnerFinalize.WarningMessage: a failed step is shown as `'step'`. Python's repr escapes `'` and `\` and may switch to double quotes, which is not modelled.
- Limits: what `inspect.getsource` gives for a limit and what the limit returns or raises for a measurement are given with the `Limit`, not computed.
- `test_definition_template/common/db_handler.py`, `statistics.py` and `clean_db.py` repeat the MongoDB handler and are not part of this model.
- Queue messages: `json.dumps(..., default=str)` is not modelled. The queues hold the `Value` that would be serialised.
- RunnerProgress.ReporterExtendsRunner: restates the field order of the two message shapes and holds no proof of its own.

## Findings

| source | as written | input that shows it | evidently intended | confidence | as-written member | corrected member |
|---|---|---|---|---|---|---|
| test_runner/runner.py:202-239 | '_pre' is removed from the case name before the `'_pre' in test_case_name` test | an entry made of a name without '_' followed by '_pre', such as the example sequence's "Second_pre", contains '_pre' yet is dispatched as the ordinary case "Second", which then runs twice | the test looks at the TESTS entry, so a '_pre' entry starts the case's pre task in the background | not executed | RunnerCases.PreEntryMissedAsWritten | RunnerCases.PreEntryStartsTask |
| test_runner/runner.py:197-202 | line 202 assigns the stripped name to the loop variable `test_case_name`, so every later position of the same entry shows, tests and looks up the stripped name | TESTS = ["Second_pre"], two positions with DUTs, "Second" cached on the first only and in neither the sequence nor the pool: the run ends on the second position showing step "Second" | every position shows and runs the TESTS entry | not executed | RunnerCases.OverwrittenNameAsWritten | RunnerCases.InnerShowsEntry |
| test_runner/runner.py:286-291 | `dut.serial_number` is read before the `if not test_position_instance.dut` check | a position for which `prepare_test` returns no DUT information (runner.py:155-162), so its `dut` is None, raises AttributeError at the end of the run | a position without a DUT is skipped before its DUT is read; line 314 still reads the last position's DUT, so a run whose last position is empty raises there, and the model keeps that line as written (RunnerFinalize.OverallResult) | not executed | RunnerFinalize.EmptyPositionCrashesAsWritten | RunnerFinalize.EmptyPositionsSkipped |
| test_runner/runner.py:274-275 | `result_handler(error=...)` omits the `limits` argument that both TestCase base classes require | a case class that supplies the runner's constructor and `run_*` methods, and whose test raises: the handler call itself raises TypeError and the exception leaves the runner | a failing case is recorded and the run goes on with the next position | plausible, not executed: as shipped, neither base class takes the runner's constructor arguments or defines `run_*`, so `new_test_instance` raises TypeError before any case runs | RunnerCases.RaisingCaseEndsRunAsWritten | RunnerCases.RunStopsOnlyOnMissingCase |
