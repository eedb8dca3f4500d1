/**
  The declarative case runner: given a function under test and a list of named cases, it
  checks its arguments, derives the shared top key, and registers one test per case, in order.
  A registered test, when the runner executes it, asserts the function's output for that
  case's inputs under `topKey` => the case's name.
 */
module ExpectationCases {
  import opened Errors
  import opened JsonValues
  import opened ExpectationKey

  /**
    One case. `inputs` and `input` are None when the property is absent from the case object
    (a property present with the value undefined counts as present).
   */
  datatype TestCase = TestCase(
    it: string,
    inputs: Option<seq<JsValue>>,
    input: Option<JsValue>,
    exclude: bool,
    force: bool)

  /** The second argument: the case list itself, or an options object. */
  datatype CasesArgument =
    | CaseList(cases: seq<TestCase>)
    | OptionsArgument(options: map<string, JsValue>)

  /** How a case is handed to the test runner: it, it.skip or it.only. */
  datatype Mode = Normal | Skip | Only

  /** One registered test: everything its body needs to assert the function's output. */
  datatype Registration = Registration(
    mode: Mode,
    topKey: string,
    subKey: string,
    inputs: seq<JsValue>,
    options: map<string, JsValue>)

  /** What the setup derives before anything is registered. */
  datatype Setup = Setup(topKey: string, forwarded: map<string, JsValue>, cases: seq<TestCase>)

  /** The `testKey` option when it is a string, "" when absent. */
  function TestKeyOption(options: map<string, JsValue>): string {
    if "testKey" in options && options["testKey"].Text? then options["testKey"].s else ""
  }

  /** The options forwarded to every assertion: all of them except `testKey`. */
  function ForwardedOptions(options: map<string, JsValue>): (r: map<string, JsValue>)
    ensures r.Keys == options.Keys - {"testKey"}
    ensures forall k :: k in r ==> r[k] == options[k]
  {
    map k | k in options && k != "testKey" :: options[k]
  }

  /**
    expectationCases before its loop: the arguments are told apart, an empty case list is
    refused, the top key is `testKey` or else the function's name, and `testKey` is dropped
    from the options passed on.
   */
  function CasesSetup(fn: Function, second: CasesArgument, third: Option<seq<TestCase>>): (r: Result<Setup>)
    // an array as second argument: no options, the array is the case list
    ensures second.CaseList? && second.cases != [] && fn.name != "" ==>
      r == Success(Setup(fn.name, map[], second.cases))
    // options followed by nothing: reading the length of the missing list throws
    ensures r == Failure(MissingCaseList) <==> second.OptionsArgument? && third.None?
    // an empty case list fails before the top key is looked at
    ensures r == Failure(NoCases) <==>
      (second.CaseList? && second.cases == []) || (second.OptionsArgument? && third == Some([]))
    ensures r.Failure? ==> r.error in {MissingCaseList, NoCases, MissingTestKey}
    ensures r.Success? ==>
      var options := if second.CaseList? then map[] else second.options;
      && r.value.cases == (if second.CaseList? then second.cases else third.value)
      && r.value.cases != []
      && r.value.topKey != ""
      && r.value.topKey == (if TestKeyOption(options) != "" then TestKeyOption(options) else fn.name)
      && r.value.forwarded == ForwardedOptions(options)
    // the top key is missing exactly when a non-empty case list comes with neither a testKey
    // nor a function name
    ensures r == Failure(MissingTestKey) <==>
      && !(second.OptionsArgument? && third.None?)
      && (if second.CaseList? then second.cases else third.value) != []
      && TestKeyOption(if second.CaseList? then map[] else second.options) == ""
      && fn.name == ""
  {
    var options := if second.CaseList? then map[] else second.options;
    if second.OptionsArgument? && third.None? then Failure(MissingCaseList)
    else
      var cases := if second.CaseList? then second.cases else third.value;
      if |cases| == 0 then Failure(NoCases)
      else
        var topKey := if TestKeyOption(options) != "" then TestKeyOption(options) else fn.name;
        if topKey == "" then Failure(MissingTestKey)
        else Success(Setup(topKey, ForwardedOptions(options), cases))
  }

  /** it.skip for an excluded case, it.only for a forced one, it otherwise. */
  function ModeOf(c: TestCase): Mode {
    if c.exclude then Skip else if c.force then Only else Normal
  }

  /** The function's inputs: `inputs`, else `[input]`, else none. */
  function InputsOf(c: TestCase): seq<JsValue> {
    if c.inputs.Some? then c.inputs.value
    else if c.input.Some? then [c.input.value]
    else []
  }

  function Register(setup: Setup, c: TestCase): Registration {
    Registration(ModeOf(c), setup.topKey, c.it, InputsOf(c), setup.forwarded)
  }

  /** The registrations the loop makes for `cases`, in order. */
  function Registrations(setup: Setup, cases: seq<TestCase>): seq<Registration> {
    if cases == [] then []
    else Registrations(setup, cases[..|cases| - 1]) + [Register(setup, cases[|cases| - 1])]
  }

  /**
    One registration per case, in list order: each under the shared top key with the case's
    name as sub key, its mode, its inputs, and the forwarded options.
   */
  lemma {:induction false} RegistrationsAt(setup: Setup, cases: seq<TestCase>)
    ensures |Registrations(setup, cases)| == |cases|
    ensures forall i :: 0 <= i < |cases| ==>
      var reg, c := Registrations(setup, cases)[i], cases[i];
      && reg.topKey == setup.topKey
      && reg.subKey == c.it
      && reg.mode == (if c.exclude then Skip else if c.force then Only else Normal)
      && reg.inputs == (if c.inputs.Some? then c.inputs.value else if c.input.Some? then [c.input.value] else [])
      && reg.options == setup.forwarded
  {
    if cases != [] {
      RegistrationsAt(setup, cases[..|cases| - 1]);
    }
  }

  /** `inputs` wins over `input` whatever both hold, and `input` wins over nothing. */
  lemma InputsPrecedence(it: string, inputs: seq<JsValue>, input: JsValue, exclude: bool, force: bool)
    ensures InputsOf(TestCase(it, Some(inputs), Some(input), exclude, force)) == inputs
    ensures InputsOf(TestCase(it, None, Some(input), exclude, force)) == [input]
    ensures InputsOf(TestCase(it, None, None, exclude, force)) == []
    ensures ModeOf(TestCase(it, Some(inputs), Some(input), true, true)) == Skip
  {
  }

  /** The test runner's list of registered tests. */
  class Registry {
    var entries: seq<Registration>

    constructor ()
      ensures entries == []
    {
      entries := [];
    }

    /**
      expectationCases: on a setup error nothing is registered; otherwise one entry per case
      is appended, in order.
     */
    method ExpectationCases(fn: Function, second: CasesArgument, third: Option<seq<TestCase>>)
      returns (outcome: Outcome)
      modifies this
      ensures CasesSetup(fn, second, third).Failure? ==>
        outcome == Fail(CasesSetup(fn, second, third).error) && entries == old(entries)
      ensures CasesSetup(fn, second, third).Success? ==>
        var setup := CasesSetup(fn, second, third).value;
        outcome == Pass && entries == old(entries) + Registrations(setup, setup.cases)
    {
      var setup := CasesSetup(fn, second, third);
      if setup.Failure? {
        return Fail(setup.error);
      }
      var cases := setup.value.cases;
      for i := 0 to |cases|
        invariant entries == old(entries) + Registrations(setup.value, cases[..i])
      {
        assert cases[..i + 1][..i] == cases[..i];
        entries := entries + [Register(setup.value, cases[i])];
      }
      assert cases[..|cases|] == cases;
      return Pass;
    }
  }
}
