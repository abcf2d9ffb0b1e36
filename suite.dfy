/**
 * Package suite: the registry of a storm suite, the scenarios and helpers it
 * offers, each list in registration order with pairwise distinct names.
 */
module Suite {
  import opened Common
  import opened Core
  import opened Collector

  /** The two kinds of registrant a suite holds (core.RegistrantType). */
  datatype Kind = ScenarioKind | HelperKind
  {
    /** The entity word given to ValidateEntityName. */
    function Entity(): string
    {
      if ScenarioKind? then "scenario" else "helper"
    }
  }

  /** Why a registration or a lookup ends the program with Log.Fatal. */
  datatype Fatal =
    | AlreadyExists(kind: Kind, name: string)
    | BadName(kind: Kind, e: InvalidNameError)
    | NotCollectable(kind: Kind, name: string, cause: CollectError)
    | NotFound(kind: Kind, name: string)

  /** No two registrants of the list share a name. */
  predicate UniqueNames(list: seq<Registrant>)
  {
    forall i, j :: 0 <= i < j < |list| ==> list[i].name != list[j].name
  }

  /** Some registrant of the list has the name (slices.ContainsFunc on names). */
  predicate HasName(list: seq<Registrant>, name: string)
  {
    exists k :: 0 <= k < |list| && list[k].name == name
  }

  /** The first registrant with the name, searched from the front. */
  function Lookup(list: seq<Registrant>, name: string): (r: Option<Registrant>)
    ensures r.Some? <==> HasName(list, name)
    ensures r.Some? ==> r.value.name == name && r.value in list
  {
    if list == [] then None
    else if list[0].name == name then Some(list[0])
    else
      assert HasName(list, name) <==> HasName(list[1..], name) by {
        if HasName(list, name) {
          var k :| 0 <= k < |list| && list[k].name == name;
          assert list[1..][k - 1] == list[k];
        }
        if HasName(list[1..], name) {
          var k :| 0 <= k < |list[1..]| && list[1..][k].name == name;
          assert list[k + 1] == list[1..][k];
        }
      }
      Lookup(list[1..], name)
  }

  /**
   * In a list with unique names, the registrant found under a name is the
   * one registered under it, wherever it stands.
   */
  lemma {:induction false} LookupUnique(list: seq<Registrant>, k: nat)
    requires UniqueNames(list) && k < |list|
    ensures Lookup(list, list[k].name) == Some(list[k])
  {
    if k > 0 {
      assert list[0].name != list[k].name;
      assert UniqueNames(list[1..]);
      LookupUnique(list[1..], k - 1);
    }
  }

  /**
   * After a registrant with a new name is appended, it is found under its
   * name, every other name finds what it found before, and names stay
   * unique.
   */
  lemma {:induction false} AppendThenLookup(list: seq<Registrant>, r: Registrant, name: string)
    requires UniqueNames(list) && !HasName(list, r.name)
    ensures UniqueNames(list + [r])
    ensures Lookup(list + [r], r.name) == Some(r)
    ensures name != r.name ==> Lookup(list + [r], name) == Lookup(list, name)
  {
    var l := list + [r];
    assert forall i :: 0 <= i < |list| ==> l[i] == list[i];
    assert UniqueNames(l);
    LookupUnique(l, |list|);
    if name != r.name {
      LookupPrefix(list, [r], name);
    }
  }

  /** Appending registrants without the name does not change what it finds. */
  lemma {:induction false} LookupPrefix(list: seq<Registrant>, more: seq<Registrant>, name: string)
    requires !HasName(more, name)
    ensures Lookup(list + more, name) == Lookup(list, name)
  {
    if list == [] {
      assert list + more == more;
    } else {
      assert (list + more)[1..] == list[1..] + more;
      if list[0].name != name {
        LookupPrefix(list[1..], more, name);
      }
    }
  }

  /**
   * The checks AddScenario and AddHelper make, in their order: a name
   * already on the list, then ValidateEntityName, then whether test cases
   * can be collected; the first that fails is the fatal error.
   */
  method Admit(list: seq<Registrant>, r: Registrant, kind: Kind) returns (fatal: Option<Fatal>)
    ensures HasName(list, r.name) ==> fatal == Some(AlreadyExists(kind, r.name))
    ensures !HasName(list, r.name) && !ValidName(r.name) ==>
              fatal == Some(BadName(kind, InvalidNameError(r.name, kind.Entity())))
    ensures !HasName(list, r.name) && ValidName(r.name) ==>
              (fatal.None? <==> r.registerError.None? && Acceptable(r.registrations))
    ensures fatal.Some? && fatal.value.NotCollectable? ==> fatal.value.name == r.name
    ensures fatal.None? <==> !HasName(list, r.name) && ValidName(r.name) &&
                             r.registerError.None? && Acceptable(r.registrations)
  {
    var found := false;
    for i := 0 to |list|
      invariant found <==> exists k :: 0 <= k < i && list[k].name == r.name
    {
      if list[i].name == r.name {
        found := true;
      }
    }
    if found {
      return Some(AlreadyExists(kind, r.name));
    }
    var err := ValidateEntityName(r.name, kind.Entity());
    if err.Some? {
      return Some(BadName(kind, err.value));
    }
    var collected := CollectTestCases(r);
    if collected.Err? {
      return Some(NotCollectable(kind, r.name, collected.error));
    }
    fatal := None;
  }

  /** Scenario and Helper: the first registrant with the name, or fatal when there is none. */
  method FindByName(list: seq<Registrant>, name: string, kind: Kind) returns (r: Result<Registrant, Fatal>)
    ensures r.Ok? <==> HasName(list, name)
    ensures r.Ok? ==> Some(r.value) == Lookup(list, name)
    ensures r.Err? ==> r.error == NotFound(kind, name)
  {
    for i := 0 to |list|
      invariant Lookup(list, name) == Lookup(list[i..], name)
    {
      if list[i].name == name {
        return Ok(list[i]);
      }
      assert list[i..][1..] == list[i + 1..];
    }
    return Err(NotFound(kind, name));
  }

  /** StormSuite: its name and its scenarios and helpers in registration order. */
  class StormSuite {
    const name: string
    var scenarios: seq<Registrant>
    var helpers: seq<Registrant>

    ghost predicate Valid()
      reads this
    {
      UniqueNames(scenarios) && UniqueNames(helpers)
    }

    /** CreateSuite: named "storm-" + name, with no scenarios and no helpers. */
    constructor Create(name: string)
      ensures this.name == "storm-" + name
      ensures scenarios == [] && helpers == []
      ensures Valid()
    {
      this.name := "storm-" + name;
      scenarios := [];
      helpers := [];
    }

    /**
     * AddScenario: appends the scenario when it passes the checks; a fatal
     * error leaves the list as it was.
     */
    method AddScenario(s: Registrant) returns (fatal: Option<Fatal>)
      requires Valid()
      modifies this
      ensures fatal.None? <==> !HasName(old(scenarios), s.name) && ValidName(s.name) &&
                               s.registerError.None? && Acceptable(s.registrations)
      ensures HasName(old(scenarios), s.name) ==> fatal == Some(AlreadyExists(ScenarioKind, s.name))
      ensures scenarios == if fatal.None? then old(scenarios) + [s] else old(scenarios)
      ensures helpers == old(helpers)
      ensures Valid()
    {
      fatal := Admit(scenarios, s, ScenarioKind);
      if fatal.None? {
        AppendThenLookup(scenarios, s, s.name);
        scenarios := scenarios + [s];
      }
    }

    /** AddHelper: the same rules on the helper list. */
    method AddHelper(h: Registrant) returns (fatal: Option<Fatal>)
      requires Valid()
      modifies this
      ensures fatal.None? <==> !HasName(old(helpers), h.name) && ValidName(h.name) &&
                               h.registerError.None? && Acceptable(h.registrations)
      ensures HasName(old(helpers), h.name) ==> fatal == Some(AlreadyExists(HelperKind, h.name))
      ensures helpers == if fatal.None? then old(helpers) + [h] else old(helpers)
      ensures scenarios == old(scenarios)
      ensures Valid()
    {
      fatal := Admit(helpers, h, HelperKind);
      if fatal.None? {
        AppendThenLookup(helpers, h, h.name);
        helpers := helpers + [h];
      }
    }

    /** Scenario(name): the scenario registered under the name, or fatal. */
    method Scenario(name: string) returns (r: Result<Registrant, Fatal>)
      requires Valid()
      ensures r.Ok? <==> HasName(scenarios, name)
      ensures r.Ok? ==> r.value.name == name && r.value in scenarios
      ensures r.Err? ==> r.error == NotFound(ScenarioKind, name)
      ensures forall k :: 0 <= k < |scenarios| && scenarios[k].name == name ==> r == Ok(scenarios[k])
    {
      r := FindByName(scenarios, name, ScenarioKind);
      forall k | 0 <= k < |scenarios| && scenarios[k].name == name
        ensures r == Ok(scenarios[k])
      {
        LookupUnique(scenarios, k);
      }
    }

    /** Helper(name): the helper registered under the name, or fatal. */
    method Helper(name: string) returns (r: Result<Registrant, Fatal>)
      requires Valid()
      ensures r.Ok? <==> HasName(helpers, name)
      ensures r.Ok? ==> r.value.name == name && r.value in helpers
      ensures r.Err? ==> r.error == NotFound(HelperKind, name)
      ensures forall k :: 0 <= k < |helpers| && helpers[k].name == name ==> r == Ok(helpers[k])
    {
      r := FindByName(helpers, name, HelperKind);
      forall k | 0 <= k < |helpers| && helpers[k].name == name
        ensures r == Ok(helpers[k])
      {
        LookupUnique(helpers, k);
      }
    }
  }
}
