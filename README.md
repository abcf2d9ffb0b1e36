# storm test engine, modelled in Dafny

storm is a Go framework for writing test suites made of *scenarios* and
*helpers*. Each scenario or helper registers named test cases. The engine
collects these registrations into an ordered, validated list. It then runs
the registrant's Setup hook and walks the test cases in order.

For each test case, the engine runs the body under panic recovery and
captures everything the body prints. Once a test case asks to bail, every
later test case is marked "not run". After the loop, the engine runs the
collected suite cleanups in reverse order and then the Cleanup hook. The
results become a JUnit report.

Around this engine sit some smaller pieces:
- entity-name validation;
- the suite's registry of scenarios and helpers;
- string and path filters;
- the Azure DevOps logging commands: log groups kept on a stack, artifact
  uploads and task progress.

The model has one module per package:

| file | module | models |
|---|---|---|
| common.dfy | `Common` | Option/Result, Go string helpers (`HasPrefix`, `Join`, `slices.Reverse`) and decimal rendering |
| stormerror.dfy | `StormError` | `PanicError`, the `%v` rendering of panic values, error values |
| core.dfy | `Core` | test bodies as data, registrants and hooks, `NAME_REGEX`, `ValidateEntityName`, `InvalidNameError` |
| collector.dfy | `Collector` | the registration accumulator and `CollectTestCases` |
| testmgr.dfy | `TestMgr` | the test-case status machine, the `TestCase` class, `StormTestManager` and `NewStormTestManager` |
| runner.dfy | `Runner` | `runCatchPanic`, `executeTestCase`, `captureOutput`, `executeTestCases`, and what a whole run promises |
| reporter.dfy | `Reporter` | the status-to-JUnit mapping of `ProduceJUnitXML` and `TestSummaryStatus` |
| devops.dfy | `Devops` | the log-group stack, `PublishArtifact` and `SetProgress` |
| filter.dfy | `Filter` | `StringFilter`, `PathFilter` and `pathIsBase` |
| suite.dfy | `Suite` | `CreateSuite`, `AddScenario`, `AddHelper`, `Scenario` and `Helper` |

Things that change in place are classes, following the source:
- the `TestCase` objects that the engine marks;
- the test-case accumulator;
- the `StormTestManager`;
- the suite;
- the filters;
- the global group stack;
- the real standard output, where DevOps commands are written.

Each of these methods is proved against a specification function:
- `Runner.ExecuteTestCases` against `Runner.Run`;
- `TestMgr.TestCase.Execute` against `TestMgr.ApplyActions`;
- `Devops.Group.Close` against `Devops.AfterClose`;
- `Suite.FindByName` against `Suite.Lookup`.

The lemmas state what the source promises about those functions.

Modelling choices:
- A test body is data. It is a list of actions taken through the test-case
  handle (Skip, Fail, register a cleanup, bail, print a line), followed by how
  it ends: a returned error or nil, a panic, or `runtime.Goexit`.
- What the environment decides is a parameter. This covers whether the
  capture pipes can be created, how the two draining goroutines interleave,
  how long a body runs, and the clock.
- Since Go 1.21, `panic(nil)` is recovered as `*runtime.PanicNilError`, so a
  recovered value is never nil (`Runner.Recovered`).

## Model

| member | source | states |
|---|---|---|
| StormError.NewPanicError | internal/stormerror/panic_test.go:7-37 | the panic value and the stack bytes are stored unchanged |
| StormError.PanicError.Error | internal/stormerror/panic_test.go:40-78 | the message is "panic occurred: " followed by exactly the `%v` rendering of the value |
| StormError.PanicErrorTextDeterminesRendering | internal/stormerror/panic_test.go:40-78 | two panic errors print the same message iff their values render alike |
| StormError.NilPanicMessage | internal/stormerror/panic_test.go:59-66 | a nil value prints as "panic occurred: <nil>" |
| StormError.StructPanicMessage | internal/stormerror/panic_test.go:68-78 | a struct with one string field prints as the field in braces |
| StormError.IntPanicExample | internal/stormerror/panic_test.go:50-57 | the integer 123 prints as "panic occurred: 123" |
| StormError.IntPanicMessage | internal/stormerror/panic_test.go:50-57 | an integer panic prints as the prefix followed by decimal digits that read back to the integer |
| Core.NameRegexIsValidName | pkg/storm/core/basic_test.go:189-221 | `^[A-Za-z0-9_-]+$` accepts exactly the non-empty names over letters, digits, '-' and '_' |
| Core.ValidateEntityName | pkg/storm/core/basic_test.go:7-153 | no error iff the name is non-empty and every character is a letter, digit, '-' or '_'; the error carries the given name and entity |
| Core.ForeignCharRejected | pkg/storm/core/basic_test.go:71-123 | one character outside the class, at any position, makes the name invalid |
| Core.ErrorMentionsNameAndEntity | pkg/storm/core/basic_test.go:169-186 | the error message contains both the name and the entity |
| Core.BadNameMessage | pkg/storm/core/basic_test.go:156-166 | the error for "bad-name!" as a test case reads exactly "Invalid name 'bad-name!' for test case, only alphanumeric characters, dashes and underscores are allowed" |
| Core.ErrorMessageExample | pkg/storm/core/basic_test.go:132-166 | ValidateEntityName rejects "bad-name!" with an error carrying that name and entity, whose message is the exact text above |
| Collector.TestCaseCollector.RegisterTestCase | internal/collector/collector_test.go:200-218 | each call appends one descriptor with that name and function, in call order |
| Collector.NoRejectionIsAcceptable | internal/collector/collector_test.go:102-170 | no registration is rejected iff every name is valid and no two names are equal |
| Collector.CollectTestCases | internal/collector/collector_test.go:29-198 | a callback error is wrapped and returned first; otherwise the result is the descriptors in registration order iff every name is valid and unique; otherwise the error is that of the first rejected registration (invalid name or not unique) |
| Collector.NotUniqueMessage | internal/collector/collector_test.go:102-126 | the duplicate error reads "test case name 'test1' is not unique" |
| TestMgr.Move | internal/runner/runner.go:142 | a status changes only along Pending→Running/NotRun and Running→verdict; a forbidden move leaves the test case as it was |
| TestMgr.FirstVerdict | internal/runner/runner.go:235-248 | the Skip or Fail call that no earlier Skip or Fail precedes, or none when the body calls neither |
| TestMgr.ActionsOnRunning | internal/runner/runner.go:235-248 | on a running test case the first Skip or Fail decides status and reason; cleanups are registered in order; the bail flag is set by any bail request; nothing else changes |
| TestMgr.ActionsDecideVerdict | internal/runner/runner.go:244-248 | the first verdict call wins and later ones are ignored |
| TestMgr.ActionsCollect | internal/runner/runner.go:178-182 | whatever the status, the body's cleanups are appended in order and the bail flag records any bail request |
| TestMgr.TerminalIsFinal | internal/runner/runner.go:244-248 | once a status is final, nothing a body does changes the status or the reason |
| TestMgr.TestCase.constructor | internal/testmgr/manager.go:38 | a new test case is pending, with no output, no cleanups and no bail request |
| TestMgr.TestCase.MarkNotRun | internal/runner/runner.go:142 | a pending test case becomes NotRun with the given reason; any other is unchanged |
| TestMgr.TestCase.MarkError | internal/runner/runner.go:244-245 | the reason becomes the error's message when the move to Error is allowed |
| TestMgr.TestCase.Pass | internal/runner/runner.go:246-247 | a running test case becomes Passed, keeping its reason |
| TestMgr.TestCase.SetCollectedOutput | internal/runner/runner.go:170 | the collected output is replaced, nothing else changes |
| TestMgr.TestCase.Execute | internal/runner/runner.go:235-237 | the test case is started, the body's actions are applied in order and the run time is recorded; the body's ending is returned |
| TestMgr.StormTestManager.TestCases | internal/testmgr/manager.go:49-51 | the stored list, unchanged |
| TestMgr.StormTestManager.Registrant | internal/testmgr/manager.go:53-55 | the stored registrant, unchanged |
| TestMgr.StormTestManager.Suite | internal/testmgr/manager.go:57-59 | the stored suite, unchanged |
| TestMgr.NewStormTestManager | internal/testmgr/manager.go:19-47 | a collection failure returns no manager and an error wrapping exactly the collector's error (the callback's error, else the first rejected registration's); otherwise one new pending test case per descriptor, in order, with the same name and function, each with its own new broker |
| Runner.Recovered | internal/runner/runner.go:255-260 | a recovered panic value is never nil, and a non-nil value is kept |
| Runner.RunCatchPanic | internal/runner/runner.go:255-263 | f's error, or nil, is returned unchanged when f returns; any panic becomes a PanicError with the panic's value and stack |
| Runner.ExecuteTestCase | internal/runner/runner.go:223-249 | the test case ends as `ExecutedCase` says: run, then marked Error on an error, or Passed when still running |
| Runner.ExecutedCaseOutcome | internal/runner/runner.go:223-249 | a pending test case ends in a final status; the first Skip or Fail decides; otherwise an error or panic gives Error with its message; otherwise (Goexit included) Passed; cleanups and bail request are kept |
| Runner.PanickingBodyErrors | internal/runner/runner.go:235-245 | a body that panics with any value, nil included, and gives no verdict ends in Error with a "panic occurred: " reason |
| Runner.GoexitPasses | internal/runner/runner.go:227-248 | a body that calls Goexit without a verdict is Passed |
| Runner.RunCatchPanicReturnExamples | internal/runner/runner_test.go:13-33 | nil and a returned error pass through unchanged |
| Runner.RunCatchPanicStringExample | internal/runner/runner_test.go:35-51 | a string panic reads "panic occurred: test panic" |
| Runner.RunCatchPanicIntExample | internal/runner/runner_test.go:53-69 | an integer panic reads "panic occurred: 42" |
| Runner.RunCatchPanicNilExample | internal/runner/runner_test.go:71-83 | panic(nil) is still caught and reported |
| Runner.MergeKeepsEachStream | internal/runner/runner.go:317-332 | whatever the interleaving, the combined output holds each stream's lines in that stream's order |
| Runner.SingleStreamCapturedInOrder | internal/runner/runner_test.go:102-213 | output written to one stream only is captured exactly, line for line, and nothing gives an empty capture |
| Runner.ForwardedMatchesCaptured | internal/runner/runner.go:158-164 | with live output on, each captured line is forwarded once to its own stream, in capture order (so in each stream's own order); otherwise nothing is printed |
| Runner.Drain | internal/runner/runner.go:317-339 | the lines read are appended to the combined output and forwarded in the order the schedule reads them |
| Runner.ReadNext | internal/runner/runner.go:320-325 | one line is read from the stream the schedule names, or from the other stream when that one is empty |
| Runner.CaptureOutput | internal/runner/runner.go:271-339 | when a pipe cannot be created, nothing runs and that error is returned; otherwise the test case is executed and its printed lines are captured and forwarded |
| Runner.RunStep | internal/runner/runner.go:141-182 | one turn of the loop leaves the test case and returns the cleanups, output and bail flag that `Step` gives |
| Runner.ReverseInPlace | internal/runner/runner.go:195 | the array holds its old contents reversed |
| Runner.RunCleanups | internal/runner/runner.go:194-201 | every collected cleanup runs, in exact reverse order, even when one panics |
| Runner.RunTestCases | internal/runner/runner.go:137-192 | the test cases, cleanups, output and failure are those of `RunCases` from the first test case with bail off |
| Runner.ExecuteTestCases | internal/runner/runner.go:116-213 | the test cases and the returned error, cleanups run and output are those of `Run` |
| Runner.StepMeetsSpec | internal/runner/runner.go:141-182 | each turn marks the case not run after a bail, stops on a capture failure, and otherwise brings a pending case to a final status and hands on its own cleanups and bail request |
| Runner.BailedRest | internal/runner/runner.go:141-144 | once bail is set, every remaining test case is marked NotRun("dependency failure"), and nothing is collected, printed or failed |
| Runner.BailPropagates | internal/runner/runner.go:137-182 | if an executed test case bailed, it is settled and every later case is marked not run |
| Runner.AbandonedHaveNoCleanups | internal/runner/runner.go:141-144 | test cases marked not run contribute no cleanups |
| Runner.CollectedCleanups | internal/runner/runner.go:178-179 | the cleanups collected are the test cases' own, concatenated in test-case order |
| Runner.CaptureFailureStops | internal/runner/runner.go:170-176 | a failed loop names a test case whose pipes could not be created; it has no output and every later case is untouched |
| Runner.EveryCaseSettles | internal/runner/runner.go:137-192 | when nothing fails, every test case ends in a final status |
| Runner.SetupFailureSkipsEverything | internal/runner/runner.go:126-131 | the report is skipped iff Setup fails or panics, and then no test case changes, nothing is printed and no cleanup runs |
| Runner.BailSkipsLaterCases | internal/runner/runner.go:137-144 | after a test case that bailed, every later case is marked not run, and the run ends with no error or only a cleanup error |
| Runner.CaptureFailureEndsRun | internal/runner/runner.go:170-176 | a capture error names the failing test case, leaves it without output and later cases untouched, and no cleanup runs |
| Runner.CompletedRun | internal/runner/runner.go:194-212 | a run not cut short settles every test case and runs their cleanups in exact reverse; it returns an error iff the Cleanup hook fails, and is still reported |
| Runner.CompletedRunReportsCleanly | internal/reporter/junit.go:50-62 | the report of a run not cut short has no "Pending", "Running" or "InvalidStatus" entries |
| Reporter.ToTestcase | internal/reporter/junit.go:35-89 | name and status are copied; time and output are set iff the status ran; skipped, failure and error are set exactly for their statuses, each with its message and type: the fixed texts for Pending, Running, NotRun and unknown statuses, the reason for Skipped (type "Skipped"), Failed and Error (no type); at most one is set |
| Reporter.ProduceJUnit | internal/reporter/junit.go:28-92 | one testcase per test case, in order, inside a suite named after the registrant |
| Reporter.SummaryStatusTable | internal/reporter/status_test.go:7-115 | Ok, Failed and Error are 0, 1 and 2, named "OK", "FAILED" and "ERROR"; any other value is "UNKNOWN" and plain when coloured; a coloured known value contains its name; a status is bad exactly when it is Failed or Error |
| Devops.FirstIndex | internal/devops/group.go:41 | the first stack position holding the group, by identity |
| Devops.SliceIndex | internal/devops/group.go:41-45 | -1 exactly when the group is not on the stack |
| Devops.CloseCutsAtGroup | internal/devops/group.go:41-56 | closing a group on a well-formed stack writes `len - index` endgroup lines, cuts the stack at the group's index and keeps it well formed |
| Devops.CloseTopOnly | internal/devops/group.go:48-56 | closing the top group removes only that group and writes one line |
| Devops.CloseIdempotent | internal/devops/group.go:41-56 | closing an already-closed group changes nothing and writes nothing |
| Devops.FoundByIdentity | internal/devops/group.go:32-41 | a group that is not on the stack closes nothing, even when its index names an occupied position |
| Devops.Group.Close | internal/devops/group.go:37-57 | the stack and the output become what `AfterClose` and `Closing` say, and the group is no longer on the stack |
| Devops.GroupStack.OpenGroup | internal/devops/group.go:14-26 | a fresh group indexed at the old length is pushed, and "##[group]name\n" is written |
| Devops.PublishArtifact | internal/devops/artifacts.go:27-60 | an empty name, then an empty source, is rejected with its message and nothing is written; otherwise one leading '/' is dropped and exactly one upload command is written, with the folder only when one is left |
| Devops.FolderLosesOneSlash | internal/devops/artifacts.go:36 | only one leading '/' is removed from the folder |
| Devops.Clamped | internal/devops/progress.go:21-25 | values below 0 become 0, above 100 become 100, others are kept |
| Devops.SetProgress | internal/devops/progress.go:17-27 | writes exactly the set-progress command for the clamped value |
| Devops.ProgressReadsBack | internal/devops/progress.go:27 | the emitted value reads back as the clamped percentage, always within [0, 100] |
| Filter.MembersCount | pkg/storm/utils/filter_test.go:23-38 | a filter holds at most as many values as given, and exactly as many when they are distinct |
| Filter.DuplicateCollapses | pkg/storm/utils/filter_test.go:33-38 | "item1", "item1", "item2" give a filter of two values |
| Filter.FillContents | pkg/storm/utils/filter_test.go:9-38 | the constructor's loop leaves exactly the set of the given values |
| Filter.StringFilter.FromSlice | pkg/storm/utils/filter_test.go:9-38 | the contents are the given values as a set and the filter starts lenient |
| Filter.StringFilter.SetStrict | pkg/storm/utils/filter_test.go:41-49 | emptyIsAny becomes false |
| Filter.AnyInIff | pkg/storm/utils/filter_test.go:111-130 | the search finds a member iff some element of the list is one |
| Filter.StringFilterMeaning | pkg/storm/utils/filter_test.go:51-130 | an empty filter matches all or nothing by strictness; a non-empty one matches exactly its members, case kept; a list matches iff some element matches |
| Filter.PathIsBaseIff | pkg/storm/utils/filter_test.go:289-340 | componentwise, base is a base of path iff path equals base or starts with base + "/" |
| Filter.BaseNoLongerThanPath | pkg/storm/utils/filter_test.go:290-339 | a base longer than the path never matches, and every path is its own base |
| Filter.PathFilter.FromSlice | pkg/storm/utils/filter_test.go:135-165 | the contents are the given paths as a set, the filter starts lenient, and it keeps the recursive flag |
| Filter.PathFilter.SetStrict | pkg/storm/utils/filter_test.go:167-175 | emptyIsAny becomes false |
| Filter.AnyMatchesIff | pkg/storm/utils/filter_test.go:265-284 | the search finds a match iff some path of the list matches |
| Filter.PathFilterMeaning | pkg/storm/utils/filter_test.go:177-284 | empty means all or nothing by strictness; non-recursive matches exact members; recursive matches a path iff it is a member or lies below one; a list matches iff some path matches |
| Filter.ChildPathExamples | pkg/storm/utils/filter_test.go:296-327 | "a/b/c" is a base of "a/b/c/d/e", and "a" is a base of "a/b/c" |
| Filter.CommonPrefixExample | pkg/storm/utils/filter_test.go:314-318 | "a/b/c" is not a base of "a/b/cd/e" |
| Suite.Lookup | pkg/storm/suite/suite.go:175-184 | finds a registrant iff one has the name, and what it finds has that name and is on the list |
| Suite.LookupUnique | pkg/storm/suite/suite.go:175-182 | with unique names, looking up a registrant's name finds that registrant |
| Suite.AppendThenLookup | pkg/storm/suite/suite.go:99 | appending a new name keeps names unique and makes it findable, and other lookups are unchanged |
| Suite.Admit | pkg/storm/suite/suite.go:79-94 | checks run in order: duplicate name, then ValidateEntityName, then test-case collection; it is admitted iff all pass |
| Suite.FindByName | pkg/storm/suite/suite.go:175-184 | the linear search returns what `Lookup` finds, or NotFound |
| Suite.StormSuite.Create | pkg/storm/suite/suite.go:29-57 | the name is "storm-" + name, and there are no scenarios and no helpers |
| Suite.StormSuite.AddScenario | pkg/storm/suite/suite.go:79-100 | a scenario that passes the checks is appended at the end; a fatal error leaves the list unchanged; names stay distinct |
| Suite.StormSuite.AddHelper | pkg/storm/suite/suite.go:103-122 | the same rules on the helper list |
| Suite.StormSuite.Scenario | pkg/storm/suite/suite.go:175-184 | returns the scenario registered under the name, and is fatal when there is none |
| Suite.StormSuite.Helper | pkg/storm/suite/suite.go:193-202 | returns the helper registered under the name, and is fatal when there is none |

## Left out

- The implementation files of the `TestCase` type, `collector.CollectTestCases`, `ValidateEntityName`, the filters and `RegistrantType.String` are not part of this model. Those pieces are modelled from how runner.go and junit.go use them and from what their tests assert.
  - The status set and `Ran()` come from internal/reporter/junit.go:42-89.
  - `Move` encodes the transitions that runner.go relies on (Pending → Running/NotRun, Running → verdict).
  - The entity words "scenario" and "helper" are assumed.
  - `pathIsBase` compares '/'-separated components. `PathIsBaseIff` shows this is the same as "equal, or a prefix followed by '/'".
- The capture plumbing is out:
  - `os.Pipe`;
  - swapping the global stdout and stderr;
  - the logrus reconfiguration;
  - the two draining goroutines and their mutex.
  - What remains is the contract: the lines written are the lines captured and forwarded, merged under a scheduler oracle.
- Runner.SingleStreamCapturedInOrder: a line a body writes stands for one line the `bufio.Scanner` at runner.go:317-320 reads. The model does not split a written string at '\n', drop a trailing '\r', or stop reading after a line longer than 64 KiB (the scanner's limit, after which later output is never drained). The lemmas hold for bodies whose lines contain no '\n' or '\r' and fit the limit.
- Runner.ForwardedMatchesCaptured: the model forwards each line together with appending it to the combined output. runner.go:322-325 forwards after releasing the mutex, so across the two streams the printed order can differ from the combined output; only each stream's own order is certain.
- The goroutine-leak warning is out, because `runtime.NumGoroutine` never affects a status. Logging calls are out too.
- `Runner.ExecuteTestCases` drops the cleanup-function panics, as the source does. A cleanup func is its identity plus whether it panics.
- Time is out. Run time and the manager's start time are clock readings passed in. `toSecondsStr` float formatting is out, so JUnit times are kept as durations.
- JUnit XML serialisation, the report file write, `PrintReport`, `SaveLogs` and `ExitError` are out, as is the rest of `RegisterAndRunTests`. That includes argument parsing and directory creation. The one decision it takes on the result of executeTestCases is kept as `Runner.ProducesReport`.
- `RemoveAllANSI` is an uninterpreted function parameter. Colour escape sequences are a parameter of `StringColor`.
- The float path of `SetProgress` (`math.Round`) is out.
- `LogError` and `LogWarning` are out; only their tests are available.
- The artifact manager and brokers are out: file copying, publishing and the log directory. A broker is modelled only by its identity.
- The CLI and its kong wiring are out, along with `StormSuite.Run`, the reflection-based `AddScriptSet` (and so the scripts list), the logger and the context in `CreateSuite`, and `storm.go`.
- Suite.StormSuite.AddScenario: `Log.Fatal` ends the process. Here it is a returned `Fatal` value that leaves the suite unchanged.
- Suite.StormSuite.Scenario: the same holds for `Scenario`, `Helper` and `AddHelper`.
- The group-stack mutex is out, because the model is sequential.
- internal/devops/group_test.go disagrees with group.go in two ways. The model follows group.go:
  - Lines 186-200 and 220-237 expect closing an outer group to close only one group. group.go:48-56 closes it and every group above it.
  - Lines 101, 128 and 158 expect "##[endgroup]" without a newline. group.go:29 prints it with `Fprintln`.
- Signatures disagree between some files; for example, runner.go:51 and testmgr/manager.go:19-26. Each component is modelled on its own terms.
