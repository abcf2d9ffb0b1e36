/**
 * Package runner: the test execution engine. It runs the Setup hook, walks the
 * test cases in order with a sticky bail flag, runs each body under panic
 * recovery while capturing its output, runs the collected suite cleanups in
 * reverse, and finally runs the Cleanup hook.
 */
module Runner {
  import opened Common
  import StormError
  import opened Core
  import opened TestMgr
  import Reporter

  /* ---------------------------------------------------------------------- */
  /* runCatchPanic and executeTestCase                                        */
  /* ---------------------------------------------------------------------- */

  /**
   * The value recover() yields for a panic value. Since Go 1.21, panic(nil) is
   * recovered as a *runtime.PanicNilError, so the result is never nil.
   */
  function Recovered(v: StormError.PanicValue): (r: StormError.PanicValue)
    ensures r != StormError.NilValue
    ensures v != StormError.NilValue ==> r == v
  {
    if v == StormError.NilValue then StormError.RuntimeNilPanic else v
  }

  /**
   * runCatchPanic(f): the error f returns, unchanged, when f returns; a
   * PanicError holding the recovered value and the stack when f panics.
   */
  function RunCatchPanic(o: Outcome): (r: Option<StormError.Error>)
    ensures o.Returned? ==> r == o.err
    ensures o.Panicked? ==> r.Some? && r.value.Panic? && r.value.p.stack == o.stack
    ensures o.Panicked? && o.value != StormError.NilValue ==> r.value.p.value == o.value
  {
    match o
    case Returned(e) => e
    case Panicked(v, stack) => Some(StormError.Panic(StormError.NewPanicError(Recovered(v), stack)))
  }

  /** The error executeTestCase sees: runtime.Goexit skips the assignment, so it stays nil. */
  function CaughtError(e: Ending): (r: Option<StormError.Error>)
  {
    match e
    case Finished(o) => RunCatchPanic(o)
    case Exited => None
  }

  /** How executeTestCase closes a test case once its body is over. */
  function CloseCase(v: CaseView, err: Option<StormError.Error>): (r: CaseView)
  {
    if err.Some? then Move(v, Error, err.value.Text())
    else if v.status.IsRunning() then Move(v, Passed, v.reason)
    else v
  }

  /** The test case after executeTestCase: started, its body run, then closed. */
  function ExecutedCase(v: CaseView, elapsed: nat): CaseView
  {
    var ran := ApplyActions(Move(v, Running, v.reason), v.f.actions).(runTime := elapsed);
    CloseCase(ran, CaughtError(v.f.ending))
  }

  /** executeTestCase(testCase) */
  method ExecuteTestCase(tc: TestCase, elapsed: nat)
    modifies tc
    ensures tc.View() == ExecutedCase(old(tc.View()), elapsed)
  {
    var ending := tc.Execute(elapsed);
    var err := CaughtError(ending);
    if err.Some? {
      tc.MarkError(err.value);
    } else if tc.status.IsRunning() {
      tc.Pass();
    }
  }

  /**
   * The outcome of executing a pending test case: the first Skip or Fail the
   * body makes decides the status and reason; otherwise an error or a panic
   * gives Error with the error's message, and a clean return or a Goexit
   * gives Passed. Cleanups and the bail request are kept either way, and the
   * status is final and counts as run.
   */
  lemma ExecutedCaseOutcome(v: CaseView, elapsed: nat)
    requires v.status == Pending
    ensures var r := ExecutedCase(v, elapsed);
            var acts := v.f.actions;
            var err := CaughtError(v.f.ending);
            && r.status.IsTerminal() && (r.status.Ran() <==> !r.status.Skipped?)
            && (FirstVerdict(acts).Some? ==>
                  r.status == VerdictStatus(FirstVerdict(acts).value) &&
                  r.reason == FirstVerdict(acts).value.reason)
            && (FirstVerdict(acts).None? && err.Some? ==>
                  r.status == Error && r.reason == err.value.Text())
            && (FirstVerdict(acts).None? && err.None? ==> r.status == Passed && r.reason == v.reason)
            && r.cleanups == v.cleanups + Registered(acts)
            && r.bail == (v.bail || RequestBail in acts)
            && r.runTime == elapsed
            && r.name == v.name && r.f == v.f && r.output == v.output
  {
    var started := Move(v, Running, v.reason);
    ActionsOnRunning(started, v.f.actions);
  }

  /** A body that panics (with any value, nil included) without a verdict ends in Error with the panic message. */
  lemma PanickingBodyErrors(v: CaseView, elapsed: nat, value: StormError.PanicValue, stack: seq<bv8>)
    requires v.status == Pending
    requires v.f.ending == Finished(Panicked(value, stack))
    requires FirstVerdict(v.f.actions).None?
    ensures ExecutedCase(v, elapsed).status == Error
    ensures StartsWith(ExecutedCase(v, elapsed).reason, StormError.PanicPrefix)
  {
    ExecutedCaseOutcome(v, elapsed);
  }

  /** A body that calls runtime.Goexit without a verdict leaves err nil and is passed. */
  lemma GoexitPasses(v: CaseView, elapsed: nat)
    requires v.status == Pending
    requires v.f.ending == Exited
    requires FirstVerdict(v.f.actions).None?
    ensures ExecutedCase(v, elapsed).status == Passed
  {
    ExecutedCaseOutcome(v, elapsed);
  }

  /** runCatchPanic passes a returned error, or nil, through unchanged (runner_test.go). */
  lemma RunCatchPanicReturnExamples()
    ensures RunCatchPanic(Returned(None)) == None
    ensures RunCatchPanic(Returned(Some(StormError.Plain("test error"))))
            == Some(StormError.Plain("test error"))
  {
  }

  /** A string panic is reported with its text (runner_test.go). */
  lemma RunCatchPanicStringExample(stack: seq<bv8>)
    ensures RunCatchPanic(Panicked(StormError.StringValue("test panic"), stack)).value.Text()
            == "panic occurred: test panic"
  {
  }

  /** An integer panic is reported in decimal (runner_test.go). */
  lemma RunCatchPanicIntExample(stack: seq<bv8>)
    ensures RunCatchPanic(Panicked(StormError.IntValue(42), stack)).value.Text() == "panic occurred: 42"
  {
    assert NatToString(4) == "4";
    assert NatToString(42) == "42";
  }

  /** panic(nil) is still caught, as the runtime's nil-panic error (runner_test.go). */
  lemma RunCatchPanicNilExample(stack: seq<bv8>)
    ensures var r := RunCatchPanic(Panicked(StormError.NilValue, stack));
            r.Some? && r.value.Panic? && r.value.p.value == StormError.RuntimeNilPanic
  {
  }

  /* ---------------------------------------------------------------------- */
  /* captureOutput                                                          */
  /* ---------------------------------------------------------------------- */

  /** One captured line and the stream it was read from. */
  datatype Captured = Captured(from: Stream, line: string)

  /** One line the forward callback writes to the console stream `to`. */
  datatype Printed = Printed(to: Stream, line: string)
  {
    /** What is written: the line after a tree branch, then a newline. */
    function Text(): string
    {
      ForwardPrefix + line + "\n"
    }
  }

  /** The rest of a schedule after one step. */
  function Rest(sched: seq<Stream>): (r: seq<Stream>)
    ensures |r| == if sched == [] then 0 else |sched| - 1
  {
    if sched == [] then [] else sched[1..]
  }

  /**
   * The order in which the two draining goroutines append their lines to the
   * combined output. The goroutine scheduler is an oracle `sched`: each step
   * takes the next line of the stream it names when that stream has one left,
   * and otherwise of the other stream.
   */
  function Merge(out: seq<string>, err: seq<string>, sched: seq<Stream>): (r: seq<Captured>)
    ensures |r| == |out| + |err|
    decreases |out| + |err|
  {
    if out == [] && err == [] then []
    else if TakesStdout(out, err, sched) then
      [Captured(Stdout, out[0])] + Merge(out[1..], err, Rest(sched))
    else
      [Captured(Stderr, err[0])] + Merge(out, err[1..], Rest(sched))
  }

  /** The next line read comes from stdout: stderr has none left, or the schedule picks stdout. */
  predicate TakesStdout(out: seq<string>, err: seq<string>, sched: seq<Stream>)
  {
    err == [] || (out != [] && (sched == [] || sched[0] == Stdout))
  }

  /** The lines of `ms` read from stream `s`, in order. */
  function From(ms: seq<Captured>, s: Stream): seq<string>
  {
    if ms == [] then [] else (if ms[0].from == s then [ms[0].line] else []) + From(ms[1..], s)
  }

  /** The combined output: the captured lines without their stream. */
  function Texts(ms: seq<Captured>): (r: seq<string>)
    ensures |r| == |ms|
  {
    if ms == [] then [] else [ms[0].line] + Texts(ms[1..])
  }

  /** The tree branch forward puts in front of every line it prints. */
  const ForwardPrefix: string := "  ├ "

  /** What the forward callback prints for the captured lines: everything when live, nothing otherwise. */
  function Forwarded(ms: seq<Captured>, live: bool): seq<Printed>
  {
    if live then Echo(ms) else []
  }

  /** Every captured line, decorated and sent back to the stream it came from. */
  function Echo(ms: seq<Captured>): seq<Printed>
  {
    if ms == [] then [] else [Printed(ms[0].from, ms[0].line)] + Echo(ms[1..])
  }

  /** Interleaving keeps every stream's lines, each stream in its own order, whatever the schedule. */
  lemma {:induction false} MergeKeepsEachStream(out: seq<string>, err: seq<string>, sched: seq<Stream>)
    ensures From(Merge(out, err, sched), Stdout) == out
    ensures From(Merge(out, err, sched), Stderr) == err
    decreases |out| + |err|
  {
    if out == [] && err == [] {
    } else if TakesStdout(out, err, sched) {
      var rest := Merge(out[1..], err, Rest(sched));
      MergeKeepsEachStream(out[1..], err, Rest(sched));
      FromCons(Captured(Stdout, out[0]), rest);
      assert out == [out[0]] + out[1..];
    } else {
      var rest := Merge(out, err[1..], Rest(sched));
      MergeKeepsEachStream(out, err[1..], Rest(sched));
      FromCons(Captured(Stderr, err[0]), rest);
      assert err == [err[0]] + err[1..];
    }
  }

  /** The lines of each stream in a capture that starts with `c`. */
  lemma FromCons(c: Captured, ms: seq<Captured>)
    ensures From([c] + ms, Stdout) == (if c.from == Stdout then [c.line] else []) + From(ms, Stdout)
    ensures From([c] + ms, Stderr) == (if c.from == Stderr then [c.line] else []) + From(ms, Stderr)
  {
    assert ([c] + ms)[1..] == ms;
  }

  /** Output written to one stream only is captured exactly, in order. */
  lemma {:induction false} SingleStreamCapturedInOrder(out: seq<string>, sched: seq<Stream>)
    ensures Texts(Merge(out, [], sched)) == out
    ensures Texts(Merge([], out, sched)) == out
    decreases |out|
  {
    if out != [] {
      SingleStreamCapturedInOrder(out[1..], Rest(sched));
      assert Merge(out, [], sched) == [Captured(Stdout, out[0])] + Merge(out[1..], [], Rest(sched));
      assert Merge([], out, sched) == [Captured(Stderr, out[0])] + Merge([], out[1..], Rest(sched));
      assert out == [out[0]] + out[1..];
    }
  }

  /**
   * In live mode every captured line is forwarded once, in capture order, to
   * the stream it came from and decorated; otherwise nothing is printed.
   */
  lemma {:induction false} ForwardedMatchesCaptured(ms: seq<Captured>, live: bool)
    ensures !live ==> Forwarded(ms, live) == []
    ensures live ==> |Forwarded(ms, live)| == |ms|
    ensures live ==> forall i :: 0 <= i < |ms| ==>
              Forwarded(ms, live)[i] == Printed(ms[i].from, ms[i].line)
  {
    if ms != [] && live {
      ForwardedMatchesCaptured(ms[1..], live);
      assert Forwarded(ms, live) == [Printed(ms[0].from, ms[0].line)] + Forwarded(ms[1..], live);
    }
  }

  /**
   * The goroutines draining the two capture pipes, as one loop that takes
   * the next line from whichever stream the schedule names; every line read
   * is appended to the combined output and passed to forward.
   */
  method Drain(out: seq<string>, err: seq<string>, sched: seq<Stream>, live: bool)
    returns (captured: seq<string>, printed: seq<Printed>)
    ensures captured == Texts(Merge(out, err, sched))
    ensures printed == Forwarded(Merge(out, err, sched), live)
  {
    ghost var consumed: seq<Captured> := [];
    var restOut, restErr, restSched := out, err, sched;
    captured, printed := [], [];
    while restOut != [] || restErr != []
      invariant Merge(out, err, sched) == consumed + Merge(restOut, restErr, restSched)
      invariant captured == Texts(consumed)
      invariant printed == Forwarded(consumed, live)
      decreases |restOut| + |restErr|
    {
      var next;
      next, restOut, restErr, restSched := ReadNext(restOut, restErr, restSched);
      assert consumed + ([next] + Merge(restOut, restErr, restSched))
          == (consumed + [next]) + Merge(restOut, restErr, restSched);
      CapturedSnoc(consumed, next);
      consumed := consumed + [next];
      captured := captured + [next.line];
      if live {
        printed := printed + [Printed(next.from, next.line)];
      }
    }
    assert consumed + [] == consumed;
  }

  /**
   * The next line one of the two draining goroutines appends, and what the
   * two pipes and the schedule hold after it.
   */
  method ReadNext(out: seq<string>, err: seq<string>, sched: seq<Stream>)
    returns (next: Captured, out2: seq<string>, err2: seq<string>, sched2: seq<Stream>)
    requires out != [] || err != []
    ensures |out2| + |err2| == |out| + |err| - 1
    ensures Merge(out, err, sched) == [next] + Merge(out2, err2, sched2)
  {
    if TakesStdout(out, err, sched) {
      next, out2, err2 := Captured(Stdout, out[0]), out[1..], err;
    } else {
      next, out2, err2 := Captured(Stderr, err[0]), out, err[1..];
    }
    sched2 := Rest(sched);
  }

  /** Appending one captured line appends its text and its forwarded line. */
  lemma {:induction false} CapturedSnoc(ms: seq<Captured>, m: Captured)
    ensures Texts(ms + [m]) == Texts(ms) + [m.line]
    ensures Echo(ms + [m]) == Echo(ms) + [Printed(m.from, m.line)]
  {
    if ms != [] {
      assert (ms + [m])[1..] == ms[1..] + [m];
      CapturedSnoc(ms[1..], m);
    }
  }

  /** Why the capture pipes could not be created; the cause comes from os.Pipe. */
  datatype CaptureFailure = StdoutPipe(cause: StormError.Error) | StderrPipe(cause: StormError.Error)
  {
    function Text(): string
    {
      match this
      case StdoutPipe(c) => "failed to create stdout capture pipe: " + c.Text()
      case StderrPipe(c) => "failed to create stderr capture pipe: " + c.Text()
    }
  }

  /**
   * What the environment does while one test case runs: whether creating the
   * pipes fails, how the goroutine scheduler interleaves the two streams, and
   * how long the body takes.
   */
  datatype CaptureEnv = CaptureEnv(pipeError: Option<CaptureFailure>, schedule: seq<Stream>, elapsed: nat)

  /** The captured lines of a test case's body under an environment. */
  function CapturedLines(v: CaseView, env: CaptureEnv): seq<Captured>
  {
    Merge(Lines(v.f.actions, Stdout), Lines(v.f.actions, Stderr), env.schedule)
  }

  /**
   * captureOutput(func() { executeTestCase(tc) }, forward): when the pipes
   * cannot be created nothing runs and nothing is captured; otherwise the
   * test case is executed and every line it prints is captured and forwarded.
   */
  method CaptureOutput(tc: TestCase, env: CaptureEnv, live: bool)
    returns (captured: seq<string>, printed: seq<Printed>, err: Option<CaptureFailure>)
    modifies tc
    ensures err == env.pipeError
    ensures err.Some? ==> captured == [] && printed == [] && tc.View() == old(tc.View())
    ensures err.None? ==>
              && tc.View() == ExecutedCase(old(tc.View()), env.elapsed)
              && captured == Texts(CapturedLines(old(tc.View()), env))
              && printed == Forwarded(CapturedLines(old(tc.View()), env), live)
  {
    if env.pipeError.Some? {
      return [], [], env.pipeError;
    }
    ExecuteTestCase(tc, env.elapsed);
    captured, printed := Drain(Lines(tc.f.actions, Stdout), Lines(tc.f.actions, Stderr), env.schedule, live);
    err := None;
  }

  /* ---------------------------------------------------------------------- */
  /* executeTestCases                                                       */
  /* ---------------------------------------------------------------------- */

  const DependencyFailure := "dependency failure"

  /** The errors executeTestCases returns. */
  datatype RunError =
    | SetupError(cause: StormError.Error)
    | CleanupError(cause: StormError.Error)
    | CaptureError(name: string, failure: CaptureFailure)
  {
    /** The message of the capture error; setup and cleanup errors wrap their cause. */
    function Text(): string
      requires CaptureError?
    {
      "failed to capture output for '" + name + "': " + failure.Text()
    }

    /** errors.Is: each error wraps its cause. */
    predicate Wraps(target: StormError.Error)
    {
      (SetupError? || CleanupError?) && cause == target
    }
  }

  /** The state of the test-case loop, summed over a stretch of test cases. */
  datatype Pass = Pass(
    cases: seq<CaseView>,
    cleanups: seq<Cleanup>,
    printed: seq<Printed>,
    failure: Option<RunError>)

  /** What one turn of the test-case loop does to one test case. */
  datatype StepResult = StepResult(
    v: CaseView,
    cleanups: seq<Cleanup>,
    printed: seq<Printed>,
    failure: Option<RunError>,
    bail: bool)

  /**
   * One turn of the loop: after a bail the case is marked not run; otherwise
   * it is run under captureOutput, and its cleanups and bail request are
   * collected, unless the capture cannot be set up.
   */
  function Step(v: CaseView, env: CaptureEnv, bail: bool, live: bool): StepResult
  {
    if bail then StepResult(Move(v, NotRun, DependencyFailure), [], [], None, true)
    else if env.pipeError.Some? then
      StepResult(v.(output := []), [], [], Some(CaptureError(v.name, env.pipeError.value)), false)
    else
      var ms := CapturedLines(v, env);
      var ran := ExecutedCase(v, env.elapsed).(output := Texts(ms));
      StepResult(ran, ran.cleanups, Forwarded(ms, live), None, ran.bail)
  }

  /** `p` with `done`, `cleanups` and `printed` in front of what it collected. */
  function Prefixed(done: seq<CaseView>, cleanups: seq<Cleanup>, printed: seq<Printed>, p: Pass): Pass
  {
    Pass(done + p.cases, cleanups + p.cleanups, printed + p.printed, p.failure)
  }

  /**
   * The test-case loop from test case `i` on, with the bail flag it has
   * reached there; a capture failure stops it, leaving the rest untouched.
   */
  function RunCases(cases: seq<CaseView>, envs: seq<CaptureEnv>, i: nat, bail: bool, step: StepFn): (r: Pass)
    requires |envs| == |cases| && i <= |cases|
    ensures |r.cases| == |cases| - i
    decreases |cases| - i
  {
    if i == |cases| then Pass([], [], [], None)
    else
      var s := step(cases[i], envs[i], bail);
      if s.failure.Some? then Pass([s.v] + cases[i + 1..], s.cleanups, s.printed, s.failure)
      else Prefixed([s.v], s.cleanups, s.printed, RunCases(cases, envs, i + 1, s.bail, step))
  }

  /** A turn of the loop as a function of the test case, its environment and the bail flag. */
  type StepFn = (CaseView, CaptureEnv, bool) -> StepResult

  /** The turn of the loop of executeTestCases, with live forwarding on or off. */
  function StepWith(live: bool): StepFn
  {
    (v, env, bail) => Step(v, env, bail, live)
  }

  /** `step` takes the same turns as Step; said only where a Step term is at hand. */
  ghost predicate Implements(step: StepFn, live: bool)
  {
    forall v, env, bail {:trigger Step(v, env, bail, live)} :: step(v, env, bail) == Step(v, env, bail, live)
  }

  lemma StepWithImplements(live: bool)
    ensures Implements(StepWith(live), live)
  {
  }

  /** One turn of the test-case loop of executeTestCases. */
  method RunStep(tc: TestCase, env: CaptureEnv, bail: bool, live: bool)
    returns (cleanups: seq<Cleanup>, printed: seq<Printed>, failure: Option<RunError>, bailAfter: bool)
    modifies tc
    ensures Step(old(tc.View()), env, bail, live) == StepResult(tc.View(), cleanups, printed, failure, bailAfter)
  {
    if bail {
      tc.MarkNotRun(DependencyFailure);
      return [], [], None, true;
    }
    var captured, lines, capErr := CaptureOutput(tc, env, live);
    tc.SetCollectedOutput(captured);
    if capErr.Some? {
      return [], [], Some(CaptureError(tc.name, capErr.value)), false;
    }
    return tc.cleanups, lines, None, tc.bail;
  }

  /** What executeTestCases leaves behind. */
  datatype RunResult = RunResult(
    cases: seq<CaseView>,
    cleanupsRun: seq<Cleanup>,
    printed: seq<Printed>,
    err: Option<RunError>)

  /** How running a cleanup func under runCatchPanic ends. */
  function CleanupOutcome(c: Cleanup): Outcome
  {
    match c.panicValue
    case None => Returned(None)
    case Some(v) => Panicked(v, [])
  }

  /** executeTestCases, as a function of the hooks, the test cases and the environment. */
  function Run(hooks: Option<Hooks>, cases: seq<CaseView>, envs: seq<CaptureEnv>, live: bool): (r: RunResult)
    requires |envs| == |cases|
    ensures |r.cases| == |cases|
  {
    if hooks.Some? && RunCatchPanic(hooks.value.setup).Some? then
      RunResult(cases, [], [], Some(SetupError(RunCatchPanic(hooks.value.setup).value)))
    else
      var p := RunCases(cases, envs, 0, false, StepWith(live));
      if p.failure.Some? then RunResult(p.cases, [], p.printed, p.failure)
      else
        var err := if hooks.Some? && RunCatchPanic(hooks.value.cleanup).Some?
                   then Some(CleanupError(RunCatchPanic(hooks.value.cleanup).value))
                   else None;
        RunResult(p.cases, Reverse(p.cleanups), p.printed, err)
  }

  /** The observable state of a list of test cases. */
  function Views(cs: seq<TestCase>): (r: seq<CaseView>)
    reads cs
    ensures |r| == |cs|
  {
    seq(|cs|, i requires 0 <= i < |cs| reads cs => cs[i].View())
  }

  /** slices.Reverse: reverses the array in place. */
  method ReverseInPlace(a: array<Cleanup>)
    modifies a
    ensures a[..] == Reverse(old(a[..]))
  {
    ghost var s := a[..];
    var n := a.Length;
    var i := 0;
    while i < n / 2
      invariant 0 <= i <= n / 2
      invariant a.Length == n == |s|
      invariant forall k :: 0 <= k < i || n - i <= k < n ==> a[k] == s[n - 1 - k]
      invariant forall k :: i <= k < n - i ==> a[k] == s[k]
    {
      a[i], a[n - 1 - i] := a[n - 1 - i], a[i];
      i := i + 1;
    }
    MirroredIsReverse(s, a[..]);
  }

  /** A sequence that holds `s` mirrored, element by element, is its reverse. */
  lemma MirroredIsReverse<T>(s: seq<T>, t: seq<T>)
    requires |t| == |s|
    requires forall k :: 0 <= k < |s| ==> t[k] == s[|s| - 1 - k]
    ensures t == Reverse(s)
  {
    ReverseLength(s);
    forall k | 0 <= k < |s|
      ensures t[k] == Reverse(s)[k]
    {
      ReverseAt(s, k);
    }
  }

  /**
   * executeTestCases(suite, runnable, testManager, watch): the forwarded
   * output is printed live when the suite runs in Azure DevOps or in watch
   * mode; `envs` gives each test case's capture environment.
   */
  method ExecuteTestCases(tm: StormTestManager, envs: seq<CaptureEnv>, watch: bool)
    returns (err: Option<RunError>, cleanupsRun: seq<Cleanup>, printed: seq<Printed>)
    requires tm.Valid()
    requires |envs| == |tm.testCases|
    modifies tm.testCases
    ensures var r := Run(tm.registrant.hooks, old(Views(tm.testCases)), envs, tm.suite.azureDevops || watch);
            && Views(tm.testCases) == r.cases
            && cleanupsRun == r.cleanupsRun
            && printed == r.printed
            && err == r.err
  {
    var live := tm.Suite().azureDevops || watch;
    var hooks := tm.Registrant().hooks;

    if hooks.Some? {
      var setupErr := RunCatchPanic(hooks.value.setup);
      if setupErr.Some? {
        return Some(SetupError(setupErr.value)), [], [];
      }
    }

    var cleanupFuncs, failure;
    StepWithImplements(live);
    ghost var views := Views(tm.testCases);
    cleanupFuncs, printed, failure := RunTestCases(tm.TestCases(), envs, live, StepWith(live), views);
    ViewsAre(tm.testCases, RunCases(views, envs, 0, false, StepWith(live)).cases);
    if failure.Some? {
      return failure, [], printed;
    }

    cleanupsRun := RunCleanups(cleanupFuncs);

    err := None;
    if hooks.Some? {
      var cleanupErr := RunCatchPanic(hooks.value.cleanup);
      if cleanupErr.Some? {
        err := Some(CleanupError(cleanupErr.value));
      }
    }
  }

  /**
   * The test-case loop of executeTestCases: every case in order, with the
   * sticky bail flag, collecting cleanups; a capture failure returns at once.
   */
  method RunTestCases(cases: seq<TestCase>, envs: seq<CaptureEnv>, live: bool,
                      ghost step: StepFn, ghost views: seq<CaseView>)
    returns (cleanupFuncs: seq<Cleanup>, printed: seq<Printed>, failure: Option<RunError>)
    requires forall a, b :: 0 <= a < b < |cases| ==> cases[a] != cases[b]
    requires |envs| == |cases|
    requires Implements(step, live)
    requires Shows(cases, views)
    modifies cases
    ensures Completes(cases, RunCases(views, envs, 0, false, step), cleanupFuncs, printed, failure)
  {
    ghost var whole := RunCases(views, envs, 0, false, step);
    cleanupFuncs, printed := [], [];
    var bail := false;
    ghost var done: seq<CaseView> := [];
    LoopStarts(cases, views, envs, step, whole);
    for i := 0 to |cases|
      invariant LoopInvariant(cases, views, envs, step, whole, i, done, bail, cleanupFuncs, printed)
    {
      var stepFailure;
      ghost var v: CaseView;
      cleanupFuncs, printed, stepFailure, bail, v :=
        Turn(cases, i, envs[i], bail, live, cleanupFuncs, printed, step, whole, views, envs, done);
      if stepFailure.Some? {
        return cleanupFuncs, printed, stepFailure;
      }
      done := done + [v];
    }
    LoopEnds(cases, views, envs, step, whole, done, bail, cleanupFuncs, printed);
    failure := None;
  }

  /**
   * The views of the test cases: test case `k` currently looks like `vs[k]`.
   */
  ghost predicate Shows(cs: seq<TestCase>, vs: seq<CaseView>)
    reads cs
  {
    |cs| == |vs| && forall k :: 0 <= k < |cs| ==> cs[k].View() == vs[k]
  }

  /** The test cases and the outputs of the loop are those of the whole pass. */
  ghost predicate Completes(cases: seq<TestCase>, whole: Pass, cleanups: seq<Cleanup>,
                           printed: seq<Printed>, failure: Option<RunError>)
    reads cases
  {
    Shows(cases, whole.cases) && cleanups == whole.cleanups && printed == whole.printed && failure == whole.failure
  }

  /**
   * The loop invariant of RunTestCases after `i` test cases: those have
   * become `done`, the rest are untouched, and what remains of the pass
   * completes the outputs so far to the whole pass.
   */
  ghost predicate LoopInvariant(cases: seq<TestCase>, views: seq<CaseView>, envs: seq<CaptureEnv>, step: StepFn,
                                whole: Pass, i: nat, done: seq<CaseView>, bail: bool,
                                cleanups: seq<Cleanup>, printed: seq<Printed>)
    reads cases
  {
    && |done| == i <= |views| == |envs|
    && Shows(cases, done + views[i..])
    && whole == Prefixed(done, cleanups, printed, RunCases(views, envs, i, bail, step))
  }

  lemma LoopStarts(cases: seq<TestCase>, views: seq<CaseView>, envs: seq<CaptureEnv>, step: StepFn, whole: Pass)
    requires |envs| == |views| && Shows(cases, views)
    requires whole == RunCases(views, envs, 0, false, step)
    ensures LoopInvariant(cases, views, envs, step, whole, 0, [], false, [], [])
  {
    assert [] + views[0..] == views;
    var p := whole;
    assert [] + p.cases == p.cases && [] + p.cleanups == p.cleanups && [] + p.printed == p.printed;
  }

  lemma LoopEnds(cases: seq<TestCase>, views: seq<CaseView>, envs: seq<CaptureEnv>, step: StepFn, whole: Pass,
                 done: seq<CaseView>, bail: bool, cleanups: seq<Cleanup>, printed: seq<Printed>)
    requires LoopInvariant(cases, views, envs, step, whole, |cases|, done, bail, cleanups, printed)
    ensures Completes(cases, whole, cleanups, printed, None)
  {
    assert done + [] == done && done + views[|cases|..] == done;
  }

  /**
   * One turn of the loop of RunTestCases on test case `i`, with the loop's
   * accumulators: it runs the step and carries the loop invariant across it.
   */
  method Turn(cases: seq<TestCase>, i: nat, env: CaptureEnv, bail: bool, live: bool,
              cleanups: seq<Cleanup>, printed: seq<Printed>, ghost step: StepFn,
              ghost whole: Pass, ghost views: seq<CaseView>, ghost envs: seq<CaptureEnv>,
              ghost done: seq<CaseView>)
    returns (cleanupsAfter: seq<Cleanup>, printedAfter: seq<Printed>, failure: Option<RunError>,
             bailAfter: bool, ghost v: CaseView)
    requires forall a, b :: 0 <= a < b < |cases| ==> cases[a] != cases[b]
    requires LoopInvariant(cases, views, envs, step, whole, i, done, bail, cleanups, printed)
    requires i < |cases| && envs[i] == env
    requires Implements(step, live)
    modifies cases[i]
    ensures failure.Some? ==> Completes(cases, whole, cleanupsAfter, printedAfter, failure)
    ensures failure.None? ==>
              LoopInvariant(cases, views, envs, step, whole, i + 1, done + [v], bailAfter, cleanupsAfter, printedAfter)
  {
    ghost var cur := done + views[i..];
    assert cur[i] == views[i];
    var stepCleanups, stepPrinted;
    stepCleanups, stepPrinted, failure, bailAfter, v := StepCase(cases, i, env, bail, live, step, cur);
    Spliced(done, v, views, i);
    LoopAdvance(whole, views, envs, i, bail, step, done, cleanups, printed,
                StepResult(v, stepCleanups, stepPrinted, failure, bailAfter));
    cleanupsAfter, printedAfter := cleanups + stepCleanups, printed + stepPrinted;
  }

  /** Runs the step on test case `i` of a list; no other test case changes. */
  method StepCase(cases: seq<TestCase>, i: nat, env: CaptureEnv, bail: bool, live: bool,
                  ghost step: StepFn, ghost cur: seq<CaseView>)
    returns (cleanups: seq<Cleanup>, printed: seq<Printed>, failure: Option<RunError>, bailAfter: bool,
             ghost v: CaseView)
    requires forall a, b :: 0 <= a < b < |cases| ==> cases[a] != cases[b]
    requires i < |cases|
    requires Implements(step, live)
    requires Shows(cases, cur)
    modifies cases[i]
    ensures Shows(cases, cur[i := v])
    ensures step(cur[i], env, bail) == StepResult(v, cleanups, printed, failure, bailAfter)
  {
    cleanups, printed, failure, bailAfter := RunStep(cases[i], env, bail, live);
    v := cases[i].View();
  }

  /** Replacing case `i` of `done + views[i..]` yields `done + [v] + views[i + 1..]`. */
  lemma Spliced(done: seq<CaseView>, v: CaseView, views: seq<CaseView>, i: nat)
    requires |done| == i < |views|
    ensures (done + views[i..])[i := v] == done + [v] + views[i + 1..]
  {
    var l := (done + views[i..])[i := v];
    var r := done + [v] + views[i + 1..];
    assert |l| == |r|;
    forall j | 0 <= j < |l|
      ensures l[j] == r[j]
    {
      if j > i {
        assert r[j] == views[j];
      }
    }
  }

  /** The loop invariant of RunTestCases, carried across one turn. */
  lemma LoopAdvance(whole: Pass, views: seq<CaseView>, envs: seq<CaptureEnv>, i: nat, bail: bool, step: StepFn,
                    done: seq<CaseView>, cleanups: seq<Cleanup>, printed: seq<Printed>, s: StepResult)
    requires i < |views| == |envs| && |done| == i
    requires whole == Prefixed(done, cleanups, printed, RunCases(views, envs, i, bail, step))
    requires s == step(views[i], envs[i], bail)
    ensures s.failure.Some? ==>
              whole == Pass(done + [s.v] + views[i + 1..], cleanups + s.cleanups, printed + s.printed, s.failure)
    ensures s.failure.None? ==>
              whole == Prefixed(done + [s.v], cleanups + s.cleanups, printed + s.printed,
                                RunCases(views, envs, i + 1, s.bail, step))
  {
    if s.failure.Some? {
      assert done + ([s.v] + views[i + 1..]) == done + [s.v] + views[i + 1..];
    } else {
      PrefixedTwice(done, cleanups, printed, [s.v], s.cleanups, s.printed, RunCases(views, envs, i + 1, s.bail, step));
    }
  }

  /** Two prefixes in a row are one longer prefix. */
  lemma PrefixedTwice(d1: seq<CaseView>, c1: seq<Cleanup>, p1: seq<Printed>,
                      d2: seq<CaseView>, c2: seq<Cleanup>, p2: seq<Printed>, p: Pass)
    ensures Prefixed(d1, c1, p1, Prefixed(d2, c2, p2, p)) == Prefixed(d1 + d2, c1 + c2, p1 + p2, p)
  {
    assert d1 + (d2 + p.cases) == (d1 + d2) + p.cases;
    assert c1 + (c2 + p.cleanups) == (c1 + c2) + p.cleanups;
    assert p1 + (p2 + p.printed) == (p1 + p2) + p.printed;
  }

  /**
   * The suite cleanups after the loop: reversed in place, then each run
   * under runCatchPanic; a cleanup that panics is recovered, its error is
   * dropped, and the rest still run. Returns the cleanups in the order run.
   */
  method RunCleanups(cleanupFuncs: seq<Cleanup>) returns (ran: seq<Cleanup>)
    ensures ran == Reverse(cleanupFuncs)
  {
    var funcs := new Cleanup[|cleanupFuncs|](k requires 0 <= k < |cleanupFuncs| => cleanupFuncs[k]);
    assert funcs[..] == cleanupFuncs;
    ReverseInPlace(funcs);
    ran := [];
    for k := 0 to funcs.Length
      invariant ran == funcs[..k]
    {
      var c := funcs[k];
      var dropped := RunCatchPanic(CleanupOutcome(c));
      ran := ran + [c];
    }
    assert funcs[..funcs.Length] == funcs[..];
  }

  /** Pins down the views of a list of test cases element by element. */
  lemma ViewsAre(cs: seq<TestCase>, vs: seq<CaseView>)
    requires |cs| == |vs|
    requires forall j :: 0 <= j < |cs| ==> cs[j].View() == vs[j]
    ensures Views(cs) == vs
  {
  }

  /* ---------------------------------------------------------------------- */
  /* What executeTestCases promises                                         */
  /* ---------------------------------------------------------------------- */

  /** Test cases as the manager creates them: pending, no cleanups, no bail request. */
  predicate AllFresh(cs: seq<CaseView>)
  {
    forall k :: 0 <= k < |cs| ==> cs[k].status == Pending && cs[k].cleanups == [] && !cs[k].bail
  }

  /** The test cases marked not run because an earlier test case bailed. */
  function Abandoned(cs: seq<CaseView>): (r: seq<CaseView>)
    ensures |r| == |cs|
    ensures forall k :: 0 <= k < |cs| ==> r[k] == Move(cs[k], NotRun, DependencyFailure)
  {
    seq(|cs|, k requires 0 <= k < |cs| => Move(cs[k], NotRun, DependencyFailure))
  }

  /** The cleanups the test cases registered, concatenated in test-case order. */
  function AllCleanups(cs: seq<CaseView>): seq<Cleanup>
  {
    if cs == [] then [] else cs[0].cleanups + AllCleanups(cs[1..])
  }

  /** RegisterAndRunTests goes on to the report unless executeTestCases failed in setup. */
  predicate ProducesReport(err: Option<RunError>)
  {
    err.None? || !err.value.SetupError?
  }

  /**
   * What one turn of the loop does, independently of how a body runs: after
   * a bail the case is marked not run and nothing else happens; a capture
   * failure stops the loop on the untouched case; otherwise a pending case
   * is executed to a final status, and its own cleanups and bail request
   * are handed on.
   */
  predicate StepSpec(v: CaseView, env: CaptureEnv, bail: bool, s: StepResult)
  {
    if bail then s == StepResult(Move(v, NotRun, DependencyFailure), [], [], None, true)
    else if env.pipeError.Some? then
      s == StepResult(v.(output := []), [], [], Some(CaptureError(v.name, env.pipeError.value)), false)
    else
      && s.failure.None?
      && s.v.name == v.name
      && (v.status == Pending ==>
        && s.v.status.IsTerminal() && !s.v.status.NotRun?
        && s.cleanups == s.v.cleanups == v.cleanups + Registered(v.f.actions)
        && s.bail == s.v.bail == (v.bail || RequestBail in v.f.actions))
  }

  /** `step` meets StepSpec on every input. */
  ghost predicate Behaves(step: StepFn)
  {
    forall v, env, bail :: StepSpec(v, env, bail, step(v, env, bail))
  }

  /** The turn of executeTestCases meets StepSpec, live forwarding or not. */
  lemma StepMeetsSpec(live: bool)
    ensures Behaves(StepWith(live))
  {
    forall v, env, bail
      ensures StepSpec(v, env, bail, StepWith(live)(v, env, bail))
    {
      if !bail && env.pipeError.None? {
        ActionsCollect(Move(v, Running, v.reason), v.f.actions);
        if v.status == Pending {
          ExecutedCaseOutcome(v, env.elapsed);
        }
      }
    }
  }

  /**
   * Once the bail flag is set, every remaining test case is marked not run
   * with "dependency failure" and none is executed: nothing is captured,
   * printed or collected, and nothing can fail.
   */
  lemma {:induction false} BailedRest(cases: seq<CaseView>, envs: seq<CaptureEnv>, i: nat, step: StepFn)
    requires |envs| == |cases| && i <= |cases|
    requires Behaves(step)
    ensures RunCases(cases, envs, i, true, step) == Pass(Abandoned(cases[i..]), [], [], None)
    decreases |cases| - i
  {
    if i < |cases| {
      var s := step(cases[i], envs[i], true);
      assert StepSpec(cases[i], envs[i], true, s);
      BailedRest(cases, envs, i + 1, step);
      assert Abandoned(cases[i..]) == [s.v] + Abandoned(cases[i + 1..]);
    }
  }

  /** A fresh test case that bailed has been executed; the rest are marked not run. */
  lemma {:induction false} BailPropagates(cases: seq<CaseView>, envs: seq<CaptureEnv>, i: nat, bail: bool,
                                          step: StepFn, k: nat)
    requires |envs| == |cases| && i <= k < |cases|
    requires AllFresh(cases) && Behaves(step)
    ensures var p := RunCases(cases, envs, i, bail, step);
            p.cases[k - i].bail ==>
              && p.cases[k - i].status.IsTerminal() && !p.cases[k - i].status.NotRun?
              && p.cases[k - i + 1..] == Abandoned(cases[k + 1..])
              && p.failure.None?
    decreases k - i
  {
    var p := RunCases(cases, envs, i, bail, step);
    var s := step(cases[i], envs[i], bail);
    assert StepSpec(cases[i], envs[i], bail, s);
    if bail {
      BailedRest(cases, envs, i, step);
      assert !p.cases[k - i].bail;
    } else if s.failure.Some? {
      assert p.cases[k - i] == if k == i then cases[i].(output := []) else cases[k];
      assert !p.cases[k - i].bail;
    } else if k == i {
      BailHere(cases, envs, i, step, s);
    } else {
      BailLater(cases, envs, i, step, k, s);
    }
  }

  /** The executed test case `i` that bailed is settled, and every later one is marked not run. */
  lemma BailHere(cases: seq<CaseView>, envs: seq<CaptureEnv>, i: nat, step: StepFn, s: StepResult)
    requires |envs| == |cases| && i < |cases|
    requires AllFresh(cases) && Behaves(step)
    requires s == step(cases[i], envs[i], false) && s.failure.None?
    ensures var p := RunCases(cases, envs, i, false, step);
            p.cases[0].bail ==>
              && p.cases[0].status.IsTerminal() && !p.cases[0].status.NotRun?
              && p.cases[1..] == Abandoned(cases[i + 1..])
              && p.failure.None?
  {
    assert StepSpec(cases[i], envs[i], false, s) && cases[i].status == Pending;
    if s.bail {
      var p := RunCases(cases, envs, i, false, step);
      var rest := RunCases(cases, envs, i + 1, true, step);
      assert p == Prefixed([s.v], s.cleanups, s.printed, rest);
      BailedRest(cases, envs, i + 1, step);
      assert p.cases[1..] == rest.cases;
    }
  }

  /** BailPropagates past an executed test case `i` that did not fail. */
  lemma {:induction false} BailLater(cases: seq<CaseView>, envs: seq<CaptureEnv>, i: nat,
                                     step: StepFn, k: nat, s: StepResult)
    requires |envs| == |cases| && i < k < |cases|
    requires AllFresh(cases) && Behaves(step)
    requires s == step(cases[i], envs[i], false) && s.failure.None?
    ensures var p := RunCases(cases, envs, i, false, step);
            p.cases[k - i].bail ==>
              && p.cases[k - i].status.IsTerminal() && !p.cases[k - i].status.NotRun?
              && p.cases[k - i + 1..] == Abandoned(cases[k + 1..])
              && p.failure.None?
    decreases k - i, 0
  {
    var p := RunCases(cases, envs, i, false, step);
    var rest := RunCases(cases, envs, i + 1, s.bail, step);
    assert p == Prefixed([s.v], s.cleanups, s.printed, rest);
    BailPropagates(cases, envs, i + 1, s.bail, step, k);
    ConsShift(s.v, rest.cases, k - (i + 1));
  }

  /** Indexing past the head of `[x] + xs` indexes `xs`. */
  lemma ConsShift<T>(x: T, xs: seq<T>, n: nat)
    requires n < |xs|
    ensures ([x] + xs)[n + 1] == xs[n]
    ensures ([x] + xs)[n + 2..] == xs[n + 1..]
  {
    assert ([x] + xs)[n + 2..] == xs[n + 1..];
  }

  /** The test cases the loop walks leave no cleanups behind when marked not run. */
  lemma {:induction false} AbandonedHaveNoCleanups(cs: seq<CaseView>)
    requires AllFresh(cs)
    ensures AllCleanups(Abandoned(cs)) == []
  {
    if cs != [] {
      assert Abandoned(cs)[1..] == Abandoned(cs[1..]);
      AbandonedHaveNoCleanups(cs[1..]);
    }
  }

  /**
   * The cleanups the loop collects are those of the test cases, concatenated
   * in test-case order; each executed test case holds the cleanups its body
   * registered.
   */
  lemma {:induction false} CollectedCleanups(cases: seq<CaseView>, envs: seq<CaptureEnv>, i: nat, bail: bool,
                                             step: StepFn)
    requires |envs| == |cases| && i <= |cases|
    requires AllFresh(cases) && Behaves(step)
    ensures var p := RunCases(cases, envs, i, bail, step);
            p.failure.None? ==> p.cleanups == AllCleanups(p.cases)
    decreases |cases| - i
  {
    if i < |cases| {
      var s := step(cases[i], envs[i], bail);
      assert StepSpec(cases[i], envs[i], bail, s);
      if bail {
        BailedRest(cases, envs, i, step);
        AbandonedHaveNoCleanups(cases[i..]);
      } else if s.failure.None? {
        var rest := RunCases(cases, envs, i + 1, s.bail, step);
        CollectedCleanups(cases, envs, i + 1, s.bail, step);
        assert ([s.v] + rest.cases)[1..] == rest.cases;
      }
    }
  }

  /**
   * When the loop stops on a capture failure, it names a test case `j`
   * whose pipes could not be created: that case was not run (its collected
   * output is empty) and every later one is untouched.
   */
  lemma {:induction false} CaptureFailureStops(cases: seq<CaseView>, envs: seq<CaptureEnv>, i: nat, bail: bool,
                                               step: StepFn)
    requires |envs| == |cases| && i <= |cases|
    requires Behaves(step)
    ensures StopsAtCapture(cases, envs, i, RunCases(cases, envs, i, bail, step))
    decreases |cases| - i
  {
    if i < |cases| {
      var p := RunCases(cases, envs, i, bail, step);
      var s := step(cases[i], envs[i], bail);
      assert StepSpec(cases[i], envs[i], bail, s);
      if bail {
        BailedRest(cases, envs, i, step);
      } else if s.failure.Some? {
        assert p.cases[1..] == cases[i + 1..];
        assert p.cases[i - i] == cases[i].(output := []);
        assert StoppedAt(cases, envs, i, p, i);
      } else {
        var rest := RunCases(cases, envs, i + 1, s.bail, step);
        CaptureFailureStops(cases, envs, i + 1, s.bail, step);
        StopsAtCaptureShifts(cases, envs, i, s, rest);
      }
    }
  }

  /** Some test case `j` at or after `i` is the one whose capture failed, as CaptureFailureStops says. */
  ghost predicate StopsAtCapture(cases: seq<CaseView>, envs: seq<CaptureEnv>, i: nat, p: Pass)
    requires |envs| == |cases| && i <= |cases| && |p.cases| == |cases| - i
  {
    p.failure.Some? ==> exists j :: i <= j < |cases| && StoppedAt(cases, envs, i, p, j)
  }

  /** The pass from `i` on stopped because the capture of test case `j` failed. */
  ghost predicate StoppedAt(cases: seq<CaseView>, envs: seq<CaptureEnv>, i: nat, p: Pass, j: nat)
    requires |envs| == |cases| && i <= j < |cases| && |p.cases| == |cases| - i
  {
    && envs[j].pipeError.Some?
    && p.failure == Some(CaptureError(cases[j].name, envs[j].pipeError.value))
    && p.cases[j - i] == cases[j].(output := [])
    && p.cases[j - i + 1..] == cases[j + 1..]
  }

  /** A capture failure found after test case `i` is still found once `i`'s turn is put in front. */
  lemma StopsAtCaptureShifts(cases: seq<CaseView>, envs: seq<CaptureEnv>, i: nat, s: StepResult, rest: Pass)
    requires |envs| == |cases| && i < |cases| && |rest.cases| == |cases| - (i + 1)
    requires StopsAtCapture(cases, envs, i + 1, rest)
    ensures StopsAtCapture(cases, envs, i, Prefixed([s.v], s.cleanups, s.printed, rest))
  {
    var p := Prefixed([s.v], s.cleanups, s.printed, rest);
    if p.failure.Some? {
      var j :| i + 1 <= j < |cases| && StoppedAt(cases, envs, i + 1, rest, j);
      ConsShift(s.v, rest.cases, j - (i + 1));
      assert StoppedAt(cases, envs, i, p, j);
    }
  }

  /** Every test case has reached a final status. */
  predicate AllSettled(cs: seq<CaseView>)
  {
    forall k :: 0 <= k < |cs| ==> cs[k].status.IsTerminal()
  }

  /** When nothing fails, every test case ends in a final status: run to a verdict, or not run. */
  lemma {:induction false} EveryCaseSettles(cases: seq<CaseView>, envs: seq<CaptureEnv>, i: nat, bail: bool,
                                            step: StepFn)
    requires |envs| == |cases| && i <= |cases|
    requires AllFresh(cases) && Behaves(step)
    ensures var p := RunCases(cases, envs, i, bail, step);
            p.failure.None? ==> AllSettled(p.cases)
    decreases |cases| - i
  {
    if i < |cases| {
      var s := step(cases[i], envs[i], bail);
      assert StepSpec(cases[i], envs[i], bail, s);
      if bail {
        BailedRest(cases, envs, i, step);
      } else if s.failure.None? {
        var rest := RunCases(cases, envs, i + 1, s.bail, step);
        EveryCaseSettles(cases, envs, i + 1, s.bail, step);
        assert cases[i].status == Pending;
        if rest.failure.None? {
          SettledCons(s.v, rest.cases);
        }
      }
    }
  }

  lemma SettledCons(v: CaseView, vs: seq<CaseView>)
    requires v.status.IsTerminal() && AllSettled(vs)
    ensures AllSettled([v] + vs)
  {
    forall k | 0 <= k < |[v] + vs|
      ensures ([v] + vs)[k].status.IsTerminal()
    {
      if k > 0 {
        assert ([v] + vs)[k] == vs[k - 1];
      }
    }
  }

  /** The Setup hook exists and fails or panics. */
  predicate SetupFails(hooks: Option<Hooks>)
  {
    hooks.Some? && RunCatchPanic(hooks.value.setup).Some?
  }

  /**
   * A failing Setup hook is the one way executeTestCases stops the report:
   * then no test case is executed or marked, nothing is printed and no
   * cleanup runs. Every other outcome is reported.
   */
  lemma SetupFailureSkipsEverything(hooks: Option<Hooks>, cases: seq<CaseView>, envs: seq<CaptureEnv>, live: bool)
    requires |envs| == |cases|
    ensures var r := Run(hooks, cases, envs, live);
            && (!ProducesReport(r.err) <==> SetupFails(hooks))
            && (SetupFails(hooks) ==> r.cases == cases && r.cleanupsRun == [] && r.printed == [])
  {
    StepMeetsSpec(live);
    CaptureFailureStops(cases, envs, 0, false, StepWith(live));
  }

  /**
   * Once an executed test case asks to bail, every later test case is marked
   * not run with "dependency failure", and the run goes on to the suite
   * cleanups and the Cleanup hook.
   */
  lemma BailSkipsLaterCases(hooks: Option<Hooks>, cases: seq<CaseView>, envs: seq<CaptureEnv>, live: bool, k: nat)
    requires |envs| == |cases| && k < |cases|
    requires AllFresh(cases)
    ensures var r := Run(hooks, cases, envs, live);
            r.cases[k].bail ==>
              && r.cases[k].status.IsTerminal() && !r.cases[k].status.NotRun?
              && r.cases[k + 1..] == Abandoned(cases[k + 1..])
              && (r.err.None? || r.err.value.CleanupError?)
  {
    var r := Run(hooks, cases, envs, live);
    if SetupFails(hooks) {
      assert r.cases[k] == cases[k];
    } else {
      var p := RunCases(cases, envs, 0, false, StepWith(live));
      assert r.cases == p.cases && (p.failure.None? ==> r.err.None? || r.err.value.CleanupError?);
      StepMeetsSpec(live);
      BailPropagates(cases, envs, 0, false, StepWith(live), k);
    }
  }

  /**
   * A capture failure on test case `j` ends the run at once: `j` is left
   * with no output, every later test case is untouched, and neither the
   * suite cleanups nor the Cleanup hook run.
   */
  lemma CaptureFailureEndsRun(hooks: Option<Hooks>, cases: seq<CaseView>, envs: seq<CaptureEnv>, live: bool)
    requires |envs| == |cases|
    ensures var r := Run(hooks, cases, envs, live);
            r.err.Some? && r.err.value.CaptureError? ==>
              && r.cleanupsRun == []
              && exists j :: 0 <= j < |cases| && envs[j].pipeError.Some?
                             && r.err == Some(CaptureError(cases[j].name, envs[j].pipeError.value))
                             && r.cases[j] == cases[j].(output := [])
                             && r.cases[j + 1..] == cases[j + 1..]
  {
    StepMeetsSpec(live);
    CaptureFailureStops(cases, envs, 0, false, StepWith(live));
    var r := Run(hooks, cases, envs, live);
    if r.err.Some? && r.err.value.CaptureError? {
      var p := RunCases(cases, envs, 0, false, StepWith(live));
      var j :| 0 <= j < |cases| && StoppedAt(cases, envs, 0, p, j);
      assert r.cases == p.cases;
    }
  }

  /**
   * When every capture succeeds and Setup passes, every test case ends in a
   * final status, and the suite cleanups run are those the test cases
   * registered, in exact reverse order; a failing Cleanup hook only adds
   * its error, and the results are still reported.
   */
  lemma CompletedRun(hooks: Option<Hooks>, cases: seq<CaseView>, envs: seq<CaptureEnv>, live: bool)
    requires |envs| == |cases|
    requires AllFresh(cases)
    ensures var r := Run(hooks, cases, envs, live);
            (r.err.None? || r.err.value.CleanupError?) ==>
              && ProducesReport(r.err)
              && AllSettled(r.cases)
              && r.cleanupsRun == Reverse(AllCleanups(r.cases))
              && (r.err.Some? <==> hooks.Some? && RunCatchPanic(hooks.value.cleanup).Some?)
  {
    StepMeetsSpec(live);
    EveryCaseSettles(cases, envs, 0, false, StepWith(live));
    CollectedCleanups(cases, envs, 0, false, StepWith(live));
    CaptureFailureStops(cases, envs, 0, false, StepWith(live));
  }

  /**
   * The JUnit report of a run that was not cut short names no test case as
   * still pending, still running or of an invalid status.
   */
  lemma CompletedRunReportsCleanly(hooks: Option<Hooks>, cases: seq<CaseView>, envs: seq<CaptureEnv>, live: bool,
                                   removeAnsi: string -> string)
    requires |envs| == |cases|
    requires AllFresh(cases)
    ensures var r := Run(hooks, cases, envs, live);
            (r.err.None? || r.err.value.CleanupError?) ==>
              forall k :: 0 <= k < |r.cases| ==> !Reporter.Unsettled(Reporter.ToTestcase(r.cases[k], removeAnsi))
  {
    CompletedRun(hooks, cases, envs, live);
  }
}
