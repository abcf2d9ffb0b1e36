/**
 * Package collector: turns a registrant's registration callback into an
 * ordered, validated, duplicate-free list of test-case descriptors.
 */
module Collector {
  import opened Common
  import opened StormError
  import opened Core

  /** A collected test case: its name and its function (collector.TestCaseMetadata). */
  datatype TestCaseMetadata = TestCaseMetadata(name: string, f: Body)

  /** The entity kind a test-case name is validated as. */
  const TestCaseEntity := "test case"

  /** Why CollectTestCases failed. */
  datatype CollectError =
    | NotUnique(name: string)
    | InvalidName(e: InvalidNameError)
    | RegistrationFailed(cause: Error)
  {
    /** The message, for the two errors whose wording the collector fixes. */
    function Text(): string
      requires !RegistrationFailed?
    {
      match this
      case NotUnique(n) => "test case name '" + n + "' is not unique"
      case InvalidName(e) => e.Error()
    }

    /** errors.Is(err, target): the callback's error is kept inside the wrapper. */
    predicate Is(target: Error)
    {
      RegistrationFailed? && cause == target
    }
  }

  /** The accumulator the registration callback registers into (core.TestRegistrar). */
  class TestCaseCollector {
    var testCases: seq<TestCaseMetadata>

    constructor ()
      ensures testCases == []
    {
      testCases := [];
    }

    /** RegisterTestCase appends one descriptor, in call order. */
    method RegisterTestCase(name: string, f: Body)
      modifies this
      ensures testCases == old(testCases) + [TestCaseMetadata(name, f)]
    {
      testCases := testCases + [TestCaseMetadata(name, f)];
    }
  }

  /** What registering `regs` in order leaves in a fresh accumulator. */
  function Descriptors(regs: seq<Registration>): (r: seq<TestCaseMetadata>)
    ensures |r| == |regs|
    ensures forall k :: 0 <= k < |regs| ==> r[k] == TestCaseMetadata(regs[k].name, regs[k].f)
  {
    seq(|regs|, k requires 0 <= k < |regs| => TestCaseMetadata(regs[k].name, regs[k].f))
  }

  /** Registration `j` is rejected: its name is invalid or repeats an earlier one. */
  ghost predicate Rejected(regs: seq<Registration>, j: int)
    requires 0 <= j < |regs|
  {
    !ValidName(regs[j].name) || exists i :: 0 <= i < j && regs[i].name == regs[j].name
  }

  /** The error registration `j` is rejected with. */
  function RejectionError(regs: seq<Registration>, j: int): CollectError
    requires 0 <= j < |regs|
  {
    if !ValidName(regs[j].name) then InvalidName(InvalidNameError(regs[j].name, TestCaseEntity))
    else NotUnique(regs[j].name)
  }

  /** Every name is valid and no two registrations share a name. */
  ghost predicate Acceptable(regs: seq<Registration>)
  {
    (forall j :: 0 <= j < |regs| ==> ValidName(regs[j].name)) &&
    (forall i, j :: 0 <= i < j < |regs| ==> regs[i].name != regs[j].name)
  }

  /** No registration is rejected exactly when the list is acceptable. */
  lemma NoRejectionIsAcceptable(regs: seq<Registration>)
    ensures (forall j :: 0 <= j < |regs| ==> !Rejected(regs, j)) <==> Acceptable(regs)
  {
    if forall j :: 0 <= j < |regs| ==> !Rejected(regs, j) {
      forall i, j | 0 <= i < j < |regs|
        ensures regs[i].name != regs[j].name
      {
        assert !Rejected(regs, j);
      }
      forall j | 0 <= j < |regs|
        ensures ValidName(regs[j].name)
      {
        assert !Rejected(regs, j);
      }
    }
  }

  /**
   * CollectTestCases(registrant): the callback's error first, then every
   * registration in order; the first rejected one decides the error.
   */
  method CollectTestCases(registrant: Registrant) returns (res: Result<seq<TestCaseMetadata>, CollectError>)
    ensures registrant.registerError.Some? ==>
              res == Err(RegistrationFailed(registrant.registerError.value))
    ensures res.Ok? <==> registrant.registerError.None? && Acceptable(registrant.registrations)
    ensures res.Ok? ==> res.value == Descriptors(registrant.registrations)
    ensures res.Err? && registrant.registerError.None? ==>
              exists j :: 0 <= j < |registrant.registrations| &&
                Rejected(registrant.registrations, j) &&
                (forall i :: 0 <= i < j ==> !Rejected(registrant.registrations, i)) &&
                res.error == RejectionError(registrant.registrations, j)
  {
    var regs := registrant.registrations;
    var collector := new TestCaseCollector();
    for k := 0 to |regs|
      invariant collector.testCases == Descriptors(regs[..k])
    {
      collector.RegisterTestCase(regs[k].name, regs[k].f);
      assert regs[..k + 1] == regs[..k] + [regs[k]];
    }
    assert regs[..|regs|] == regs;
    if registrant.registerError.Some? {
      return Err(RegistrationFailed(registrant.registerError.value));
    }

    var testCases := collector.testCases;
    var seen: set<string> := {};
    var i := 0;
    while i < |testCases|
      invariant 0 <= i <= |testCases|
      invariant seen == set k | 0 <= k < i :: regs[k].name
      invariant forall k :: 0 <= k < i ==> !Rejected(regs, k)
    {
      var name := testCases[i].name;
      assert name == regs[i].name;
      if ValidateEntityName(name, TestCaseEntity).Some? {
        assert Rejected(regs, i) && RejectionError(regs, i) == InvalidName(InvalidNameError(name, TestCaseEntity));
        return Err(InvalidName(InvalidNameError(name, TestCaseEntity)));
      }
      if name in seen {
        var k :| 0 <= k < i && regs[k].name == name;
        assert Rejected(regs, i) && RejectionError(regs, i) == NotUnique(name);
        return Err(NotUnique(name));
      }
      seen := seen + {name};
      i := i + 1;
    }
    NoRejectionIsAcceptable(regs);
    return Ok(testCases);
  }

  /** The duplicate-name error carries the exact message of the collector. */
  lemma NotUniqueMessage()
    ensures NotUnique("test1").Text() == "test case name 'test1' is not unique"
  {
  }
}
