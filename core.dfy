/**
 * Package core: the shapes the engine consumes (test functions, registrants
 * and their hooks) and entity-name validation (NAME_REGEX, ValidateEntityName,
 * InvalidNameError). Scenario, helper and test-case names must be non-empty
 * and consist of ASCII letters, digits, dashes and underscores only.
 */
module Core {
  import opened Common
  import opened StormError

  /** The two process streams a test body can print to. */
  datatype Stream = Stdout | Stderr

  /**
   * A suite-cleanup callback (a func()) a test registers, told apart by `id`;
   * `panicValue` is the value it panics with, if it panics.
   */
  datatype Cleanup = Cleanup(id: nat, panicValue: Option<PanicValue>)

  /** One thing a test body does through its test-case handle, or one line it prints. */
  datatype Action =
    | SkipTest(reason: string)
    | FailTest(reason: string)
    | RegisterCleanup(c: Cleanup)
    | RequestBail
    | WriteLine(stream: Stream, line: string)

  /** How a function run under runCatchPanic ends: it returns an error or nil, or it panics. */
  datatype Outcome = Returned(err: Option<Error>) | Panicked(value: PanicValue, stack: seq<bv8>)

  /** How a test body ends: with an outcome, or by calling runtime.Goexit. */
  datatype Ending = Finished(outcome: Outcome) | Exited

  /**
   * A test-case function (core.TestCaseFunction), given by what it does: the
   * actions it takes in order, then how it ends.
   */
  datatype Body = Body(actions: seq<Action>, ending: Ending)

  /** The lines a body prints to one stream, in the order it prints them. */
  function Lines(actions: seq<Action>, s: Stream): (r: seq<string>)
    ensures |r| <= |actions|
    ensures forall l :: l in r ==> WriteLine(s, l) in actions
    ensures forall i :: 0 <= i < |actions| && actions[i].WriteLine? && actions[i].stream == s ==>
              actions[i].line in r
  {
    if actions == [] then []
    else
      var rest := Lines(actions[1..], s);
      match actions[0]
      case WriteLine(t, line) => if t == s then [line] + rest else rest
      case _ => rest
  }

  /** What the engine reads of the suite it runs in (core.SuiteContext). */
  datatype SuiteContext = SuiteContext(name: string, azureDevops: bool)

  /** One call to RegisterTestCase(name, f) made by a registrant's registration callback. */
  datatype Registration = Registration(name: string, f: Body)

  /** The outcomes of a registrant's Setup and Cleanup methods (core.SetupCleanup). */
  datatype Hooks = Hooks(setup: Outcome, cleanup: Outcome)

  /**
   * A scenario or helper (core.TestRegistrant): its name, the registrations its
   * RegisterTestCases callback makes and the error it then returns, and its
   * Setup/Cleanup hooks when it implements core.SetupCleanup.
   */
  datatype Registrant = Registrant(
    name: string,
    registrations: seq<Registration>,
    registerError: Option<Error>,
    hooks: Option<Hooks>)

  /** One character of the class [A-Za-z0-9_-]. */
  predicate IsNameChar(c: char)
  {
    ('A' <= c <= 'Z') || ('a' <= c <= 'z') || ('0' <= c <= '9') || c == '-' || c == '_'
  }

  /** The set of names the engine accepts, stated directly. */
  predicate ValidName(s: string)
  {
    |s| > 0 && forall i :: 0 <= i < |s| ==> IsNameChar(s[i])
  }

  /**
   * NAME_REGEX is ^[A-Za-z0-9_-]+$. Go's regexp (RE2) anchors $ at the very
   * end of the text, so it is the language of this three-state automaton.
   */
  datatype RegexState = Start | Accepting | Dead

  function RegexStep(q: RegexState, c: char): RegexState
  {
    if q == Dead || !IsNameChar(c) then Dead else Accepting
  }

  function RegexRun(q: RegexState, s: string): RegexState
    decreases |s|
  {
    if s == [] then q else RegexRun(RegexStep(q, s[0]), s[1..])
  }

  /** NAME_REGEX.MatchString(s) */
  function NameRegexMatches(s: string): bool
  {
    RegexRun(Start, s) == Accepting
  }

  lemma {:induction false} DeadStaysDead(s: string)
    ensures RegexRun(Dead, s) == Dead
  {
    if s != [] {
      DeadStaysDead(s[1..]);
    }
  }

  lemma {:induction false} RunFromLive(q: RegexState, s: string)
    requires q != Dead
    decreases |s|
    ensures RegexRun(q, s) != Dead <==> forall i :: 0 <= i < |s| ==> IsNameChar(s[i])
    ensures RegexRun(q, s) == Start <==> (q == Start && s == [])
  {
    if s != [] {
      var q' := RegexStep(q, s[0]);
      if q' == Dead {
        DeadStaysDead(s[1..]);
      } else {
        RunFromLive(q', s[1..]);
        assert forall i :: 1 <= i < |s| ==> s[i] == s[1..][i - 1];
      }
    }
  }

  /** NAME_REGEX accepts exactly the valid names. */
  lemma NameRegexIsValidName(s: string)
    ensures NameRegexMatches(s) <==> ValidName(s)
  {
    RunFromLive(Start, s);
  }

  /** The error ValidateEntityName returns, carrying the rejected name and the entity kind. */
  datatype InvalidNameError = InvalidNameError(name: string, entity: string)
  {
    /** InvalidNameError.Error() */
    function Error(): string
    {
      "Invalid name '" + name + "' for " + entity
      + ", only alphanumeric characters, dashes and underscores are allowed"
    }
  }

  /** ValidateEntityName(name, entity): nil for a valid name, otherwise an InvalidNameError. */
  function ValidateEntityName(name: string, entity: string): (r: Option<InvalidNameError>)
    ensures r.None? <==> ValidName(name)
    ensures r.Some? ==> r.value.name == name && r.value.entity == entity
  {
    NameRegexIsValidName(name);
    if NameRegexMatches(name) then None else Some(InvalidNameError(name, entity))
  }

  /** Any character outside [A-Za-z0-9_-], wherever it stands, makes the name invalid. */
  lemma ForeignCharRejected(name: string, entity: string, i: nat)
    requires i < |name| && !IsNameChar(name[i])
    ensures ValidateEntityName(name, entity) == Some(InvalidNameError(name, entity))
  {
  }

  /** The message names both the rejected name and the entity kind. */
  lemma ErrorMentionsNameAndEntity(e: InvalidNameError)
    ensures Contains(e.Error(), e.name) && Contains(e.Error(), e.entity)
  {
    var head := "Invalid name '";
    var mid := "' for ";
    var tail := ", only alphanumeric characters, dashes and underscores are allowed";
    var m := e.Error();
    assert m == head + e.name + (mid + e.entity + tail);
    ContainsMiddle(head, e.name, mid + e.entity + tail);
    assert m == (head + e.name + mid) + e.entity + tail;
    ContainsMiddle(head + e.name + mid, e.entity, tail);
  }

  /** The message basic_test.go expects for the name "bad-name!" of a test case. */
  lemma BadNameMessage()
    ensures InvalidNameError("bad-name!", "test case").Error() ==
            "Invalid name 'bad-name!' for test case, only alphanumeric characters, dashes and underscores are allowed"
  {
    var e := InvalidNameError("bad-name!", "test case");
    var head, t1, t2 := "Invalid name 'bad-name!' for test case", ", only alphanumeric characters, ", "dashes and underscores are allowed";
    assert e.Error() == ("Invalid name '" + "bad-name!" + "' for " + "test case") + ", only alphanumeric characters, dashes and underscores are allowed";
    BadNameHead();
    BadNameTail();
    assert e.Error() == head + (t1 + t2) == (head + t1) + t2;
    BadNameFront();
    BadNameJoin();
  }

  /** The part of the message up to the entity. */
  lemma BadNameHead()
    ensures "Invalid name '" + "bad-name!" + "' for " + "test case" == "Invalid name 'bad-name!' for test case"
  {
  }

  /** The fixed tail of the message, in two pieces. */
  lemma BadNameTail()
    ensures ", only alphanumeric characters, " + "dashes and underscores are allowed" == ", only alphanumeric characters, dashes and underscores are allowed"
  {
  }

  /** The head and the first piece of the tail. */
  lemma BadNameFront()
    ensures "Invalid name 'bad-name!' for test case" + ", only alphanumeric characters, " == "Invalid name 'bad-name!' for test case, only alphanumeric characters, "
  {
  }

  /** With the second piece of the tail, the whole message. */
  lemma BadNameJoin()
    ensures "Invalid name 'bad-name!' for test case, only alphanumeric characters, " + "dashes and underscores are allowed" == "Invalid name 'bad-name!' for test case, only alphanumeric characters, dashes and underscores are allowed"
  {
  }

  /** A name with a '!' in it is rejected with an error carrying that name, and this message. */
  lemma ErrorMessageExample()
    ensures ValidateEntityName("bad-name!", "test case") == Some(InvalidNameError("bad-name!", "test case"))
    ensures ValidateEntityName("bad-name!", "test case").value.Error() ==
            "Invalid name 'bad-name!' for test case, only alphanumeric characters, dashes and underscores are allowed"
  {
    ForeignCharRejected("bad-name!", "test case", 8);
    BadNameMessage();
  }
}
