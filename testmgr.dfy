/**
 * Package testmgr: the test-case entity with its status state machine, and the
 * test manager that owns the ordered list of test cases of one registrant.
 */
module TestMgr {
  import opened Common
  import StormError
  import opened Core
  import Collector

  /**
   * TestCaseStatus. Unknown stands for any other value of the underlying
   * integer enum, which the JUnit reporter has to handle.
   */
  datatype TestCaseStatus =
    | Pending | Running | NotRun | Skipped | Failed | Error | Passed
    | Unknown(code: int)
  {
    /** Status.Ran(): only these statuses come with a run time and captured output. */
    predicate Ran()
    {
      Running? || Passed? || Failed? || Error?
    }

    predicate IsRunning()
    {
      Running?
    }

    /** A final status: once reached it never changes. */
    predicate IsTerminal()
    {
      NotRun? || Skipped? || Failed? || Error? || Passed?
    }
  }

  /** The status moves the state machine allows: Pending -> Running | NotRun, Running -> a verdict. */
  predicate CanMove(from: TestCaseStatus, to: TestCaseStatus)
  {
    (from == Pending && (to == Running || to == NotRun)) ||
    (from == Running && (to == Passed || to == Failed || to == Error || to == Skipped))
  }

  /** The observable state of one test case. */
  datatype CaseView = CaseView(
    name: string,
    f: Body,
    status: TestCaseStatus,
    reason: string,
    output: seq<string>,
    runTime: nat,
    cleanups: seq<Cleanup>,
    bail: bool)

  /** A freshly created test case. */
  function NewCase(name: string, f: Body): (v: CaseView)
  {
    CaseView(name, f, Pending, "", [], 0, [], false)
  }

  /** A status change with its reason, ignored when the state machine forbids it. */
  function Move(v: CaseView, to: TestCaseStatus, reason: string): (r: CaseView)
    ensures r.status == v.status || CanMove(v.status, r.status)
    ensures r == v || r == v.(status := to, reason := reason)
    ensures CanMove(v.status, to) ==> r == v.(status := to, reason := reason)
    ensures !CanMove(v.status, to) ==> r == v
  {
    if CanMove(v.status, to) then v.(status := to, reason := reason) else v
  }

  /** The effect of one body action on the test case. Printed lines go to the capture, not here. */
  function ApplyAction(v: CaseView, a: Action): CaseView
  {
    match a
    case SkipTest(r) => Move(v, Skipped, r)
    case FailTest(r) => Move(v, Failed, r)
    case RegisterCleanup(c) => v.(cleanups := v.cleanups + [c])
    case RequestBail => v.(bail := true)
    case WriteLine(_, _) => v
  }

  /** The effect of a run of actions, taken in order. */
  function ApplyActions(v: CaseView, acts: seq<Action>): CaseView
    decreases |acts|
  {
    if acts == [] then v else ApplyAction(ApplyActions(v, acts[..|acts| - 1]), acts[|acts| - 1])
  }

  /** The cleanups a run of actions registers, in order. */
  function Registered(acts: seq<Action>): seq<Cleanup>
    decreases |acts|
  {
    if acts == [] then []
    else Registered(acts[..|acts| - 1]) + (if acts[|acts| - 1].RegisterCleanup? then [acts[|acts| - 1].c] else [])
  }

  /** The first Skip or Fail call among the actions, if any. */
  function FirstVerdict(acts: seq<Action>): (r: Option<Action>)
    ensures r.Some? ==> (r.value.SkipTest? || r.value.FailTest?) && r.value in acts
    ensures r.None? ==> forall a :: a in acts ==> !a.SkipTest? && !a.FailTest?
    ensures r.Some? ==> exists i :: 0 <= i < |acts| && acts[i] == r.value &&
                                    forall j :: 0 <= j < i ==> !acts[j].SkipTest? && !acts[j].FailTest?
  {
    if acts == [] then None
    else if acts[0].SkipTest? || acts[0].FailTest? then Some(acts[0])
    else FirstVerdict(acts[1..])
  }

  lemma {:induction false} FirstVerdictSnoc(acts: seq<Action>, a: Action)
    ensures FirstVerdict(acts + [a]) ==
            if FirstVerdict(acts).Some? then FirstVerdict(acts)
            else if a.SkipTest? || a.FailTest? then Some(a) else None
  {
    if acts != [] {
      assert (acts + [a])[1..] == acts[1..] + [a];
      FirstVerdictSnoc(acts[1..], a);
    }
  }

  /** The status a verdict call puts a running test case into. */
  function VerdictStatus(a: Action): TestCaseStatus
    requires a.SkipTest? || a.FailTest?
  {
    if a.SkipTest? then Skipped else Failed
  }

  /**
   * Running a body's actions on a running test case: the first Skip or Fail
   * decides the status and the reason, later ones are ignored; every cleanup
   * is registered in order, and the bail flag is set by any bail request.
   */
  lemma ActionsOnRunning(v: CaseView, acts: seq<Action>)
    requires v.status == Running
    ensures var r := ApplyActions(v, acts);
            && (FirstVerdict(acts).None? ==> r.status == Running && r.reason == v.reason)
            && (FirstVerdict(acts).Some? ==>
                  var a := FirstVerdict(acts).value;
                  r.status == VerdictStatus(a) && r.reason == a.reason)
            && r.cleanups == v.cleanups + Registered(acts)
            && r.bail == (v.bail || RequestBail in acts)
            && r.name == v.name && r.f == v.f && r.output == v.output && r.runTime == v.runTime
  {
    ActionsDecideVerdict(v, acts);
    ActionsCollect(v, acts);
  }

  /** On a running test case the first Skip or Fail call decides the status and the reason. */
  lemma {:induction false} ActionsDecideVerdict(v: CaseView, acts: seq<Action>)
    requires v.status == Running
    ensures var r := ApplyActions(v, acts);
            && (FirstVerdict(acts).None? ==> r.status == Running && r.reason == v.reason)
            && (FirstVerdict(acts).Some? ==>
                  r.status == VerdictStatus(FirstVerdict(acts).value) && r.reason == FirstVerdict(acts).value.reason)
    decreases |acts|
  {
    if acts != [] {
      var init, last := acts[..|acts| - 1], acts[|acts| - 1];
      assert acts == init + [last];
      ActionsDecideVerdict(v, init);
      FirstVerdictSnoc(init, last);
      var before := ApplyActions(v, init);
      assert ApplyActions(v, acts) == ApplyAction(before, last);
      if FirstVerdict(init).Some? {
        assert before.status.IsTerminal();
      } else {
        assert before.status == Running;
      }
    }
  }

  /** Whatever the status, the actions register their cleanups in order and set the bail flag. */
  lemma {:induction false} ActionsCollect(v: CaseView, acts: seq<Action>)
    ensures var r := ApplyActions(v, acts);
            && r.cleanups == v.cleanups + Registered(acts)
            && r.bail == (v.bail || RequestBail in acts)
            && r.name == v.name && r.f == v.f && r.output == v.output && r.runTime == v.runTime
    decreases |acts|
  {
    if acts != [] {
      var init, last := acts[..|acts| - 1], acts[|acts| - 1];
      assert acts == init + [last];
      ActionsCollect(v, init);
      assert RequestBail in acts <==> RequestBail in init || last == RequestBail;
    }
  }

  /** Once a test case has a final status, nothing its body does changes the status or reason. */
  lemma {:induction false} TerminalIsFinal(v: CaseView, acts: seq<Action>)
    requires v.status.IsTerminal()
    ensures ApplyActions(v, acts).status == v.status
    ensures ApplyActions(v, acts).reason == v.reason
    decreases |acts|
  {
    if acts != [] {
      TerminalIsFinal(v, acts[..|acts| - 1]);
    }
  }

  /** Artifact publishing is not modelled; a broker only has an identity and its manager. */
  class ArtifactManager {
    constructor ()
    {
    }

    /** NewBroker: a new broker attached to this manager. */
    method NewBroker() returns (b: ArtifactBroker)
      ensures fresh(b) && b.manager == this
    {
      b := new ArtifactBroker(this);
    }
  }

  class ArtifactBroker {
    const manager: ArtifactManager

    constructor (manager: ArtifactManager)
      ensures this.manager == manager
    {
      this.manager := manager;
    }
  }

  /** One test case, updated in place by the engine and by its own body. */
  class TestCase {
    const name: string
    const f: Body
    const broker: ArtifactBroker
    var status: TestCaseStatus
    var reason: string
    var output: seq<string>
    var runTime: nat
    var cleanups: seq<Cleanup>
    var bail: bool

    function View(): CaseView
      reads this
    {
      CaseView(name, f, status, reason, output, runTime, cleanups, bail)
    }

    /** newTestCase: a pending test case that has not printed, registered or bailed. */
    constructor (name: string, f: Body, broker: ArtifactBroker)
      ensures View() == NewCase(name, f) && this.broker == broker
    {
      this.name := name;
      this.f := f;
      this.broker := broker;
      status := Pending;
      reason := "";
      output := [];
      runTime := 0;
      cleanups := [];
      bail := false;
    }

    method MarkNotRun(why: string)
      modifies this
      ensures View() == Move(old(View()), NotRun, why)
    {
      if CanMove(status, NotRun) {
        status, reason := NotRun, why;
      }
    }

    method Skip(why: string)
      modifies this
      ensures View() == Move(old(View()), Skipped, why)
    {
      if CanMove(status, Skipped) {
        status, reason := Skipped, why;
      }
    }

    method Fail(why: string)
      modifies this
      ensures View() == Move(old(View()), Failed, why)
    {
      if CanMove(status, Failed) {
        status, reason := Failed, why;
      }
    }

    /** MarkError(err): the reason is the error's message. */
    method MarkError(err: StormError.Error)
      modifies this
      ensures View() == Move(old(View()), Error, err.Text())
    {
      if CanMove(status, Error) {
        status, reason := Error, err.Text();
      }
    }

    method Pass()
      modifies this
      ensures View() == Move(old(View()), Passed, old(reason))
    {
      if CanMove(status, Passed) {
        status := Passed;
      }
    }

    method SetCollectedOutput(lines: seq<string>)
      modifies this
      ensures View() == old(View()).(output := lines)
    {
      output := lines;
    }

    method SetRunTime(d: nat)
      modifies this
      ensures View() == old(View()).(runTime := d)
    {
      runTime := d;
    }

    /**
     * Execute: start the test case, run its body through this handle and record
     * how long it took; `elapsed` is that clock reading.
     */
    method Execute(elapsed: nat) returns (ending: Ending)
      modifies this
      ensures View() == ApplyActions(Move(old(View()), Running, old(reason)), f.actions).(runTime := elapsed)
      ensures ending == f.ending
    {
      if CanMove(status, Running) {
        status := Running;
      }
      ghost var started := View();
      var acts := f.actions;
      for k := 0 to |acts|
        invariant View() == ApplyActions(started, acts[..k])
      {
        assert acts[..k + 1][..k] == acts[..k];
        match acts[k]
        case SkipTest(r) => Skip(r);
        case FailTest(r) => Fail(r);
        case RegisterCleanup(c) => cleanups := cleanups + [c];
        case RequestBail => bail := true;
        case WriteLine(_, _) =>
      }
      assert acts[..|acts|] == acts;
      runTime := elapsed;
      ending := f.ending;
    }
  }

  /** The error NewStormTestManager returns when collection fails. */
  datatype ManagerError = CollectFailed(cause: Collector.CollectError)
  {
    function Text(): string
      requires !cause.RegistrationFailed?
    {
      "failed to collect test cases: " + cause.Text()
    }

    predicate Is(target: StormError.Error)
    {
      cause.Is(target)
    }
  }

  /** StormTestManager: the registrant, the suite, the start time and the test cases. */
  class StormTestManager {
    const registrant: Registrant
    const suite: SuiteContext
    const startTime: nat
    const testCases: seq<TestCase>

    /** Every test case is its own object. */
    ghost predicate Valid()
    {
      forall i, j :: 0 <= i < j < |testCases| ==> testCases[i] != testCases[j]
    }

    /** TestCases(): the stored list, in collection order. */
    function TestCases(): (r: seq<TestCase>)
      ensures r == testCases
    {
      testCases
    }

    /** Registrant(): the registrant the manager was built from. */
    function Registrant(): (r: Core.Registrant)
      ensures r == registrant
    {
      registrant
    }

    /** Suite(): the suite the manager was built for. */
    function Suite(): (r: SuiteContext)
      ensures r == suite
    {
      suite
    }

    constructor (registrant: Registrant, suite: SuiteContext, startTime: nat, testCases: seq<TestCase>)
      ensures this.registrant == registrant && this.suite == suite
      ensures this.startTime == startTime && this.testCases == testCases
    {
      this.registrant := registrant;
      this.suite := suite;
      this.startTime := startTime;
      this.testCases := testCases;
    }
  }

  /**
   * NewStormTestManager: collect the registrant's test cases, then create one
   * pending test case per descriptor, in order, each with its own new broker.
   * `now` is the clock reading taken as the start time.
   */
  method NewStormTestManager(suite: SuiteContext, registrant: Registrant, now: nat)
    returns (tm: StormTestManager?, err: Option<ManagerError>)
    ensures tm == null <==> err.Some?
    ensures tm == null <==>
              registrant.registerError.Some? || !Collector.Acceptable(registrant.registrations)
    ensures registrant.registerError.Some? ==>
              err == Some(CollectFailed(Collector.RegistrationFailed(registrant.registerError.value)))
    ensures registrant.registerError.None? && err.Some? ==>
              var regs := registrant.registrations;
              exists j :: 0 <= j < |regs| && Collector.Rejected(regs, j) &&
                (forall i :: 0 <= i < j ==> !Collector.Rejected(regs, i)) &&
                err == Some(CollectFailed(Collector.RejectionError(regs, j)))
    ensures tm != null ==>
              && fresh(tm) && tm.Valid()
              && tm.registrant == registrant && tm.suite == suite && tm.startTime == now
              && |tm.testCases| == |registrant.registrations|
              && (forall i :: 0 <= i < |tm.testCases| ==>
                    fresh(tm.testCases[i]) && fresh(tm.testCases[i].broker) &&
                    tm.testCases[i].View() ==
                      NewCase(registrant.registrations[i].name, registrant.registrations[i].f))
              && (forall i, j :: 0 <= i < j < |tm.testCases| ==>
                    tm.testCases[i].broker != tm.testCases[j].broker)
  {
    var collected := Collector.CollectTestCases(registrant);
    if collected.Err? {
      return null, Some(CollectFailed(collected.error));
    }
    var descriptors := collected.value;
    var artifactManager := new ArtifactManager();
    var testCases: seq<TestCase> := [];
    for i := 0 to |descriptors|
      invariant |testCases| == i
      invariant forall k :: 0 <= k < i ==>
                  fresh(testCases[k]) && fresh(testCases[k].broker) &&
                  testCases[k].View() == NewCase(descriptors[k].name, descriptors[k].f)
      invariant forall k, l :: 0 <= k < l < i ==>
                  testCases[k] != testCases[l] && testCases[k].broker != testCases[l].broker
    {
      var broker := artifactManager.NewBroker();
      var tc := new TestCase(descriptors[i].name, descriptors[i].f, broker);
      testCases := testCases + [tc];
    }
    tm := new StormTestManager(registrant, suite, now, testCases);
    err := None;
  }
}
