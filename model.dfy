/** The running model the builder produces. */
module Model {
  import opened Wrappers

  /** The `type` of a keyword call: `'kw'`, `'setup'` or `'teardown'`. */
  datatype Role = Kw | Setup | Teardown

  datatype Step =
    | KeywordCall(name: string, args: seq<string>, assign: seq<string>, role: Role)
    | ForLoop(vars: seq<string>, items: seq<string>, range: bool, steps: seq<Step>)

  datatype Import = Import(kind: string, name: string, args: seq<string>, alias: Option<string>)

  /** A `$` variable stores one value, any other variable the whole list. */
  datatype VariableValue = Scalar(item: string) | List(items: seq<string>)

  datatype Variable = Variable(name: string, value: VariableValue)

  datatype UserKeyword = UserKeyword(
    name: string, args: seq<string>, doc: string, returnValues: seq<string>,
    timeout: seq<string>, teardown: seq<string>, keywords: seq<Step>)

  datatype TestCase = TestCase(
    name: string, doc: string, tags: seq<string>, continueOnFailure: bool,
    timeout: Option<(string, string)>, keywords: seq<Step>)

  datatype TestSuite = TestSuite(
    name: string, source: Option<string>, doc: string, metadata: seq<(string, string)>,
    imports: seq<Import>, keywords: seq<Step>, variables: seq<Variable>,
    userKeywords: seq<UserKeyword>, tests: seq<TestCase>, suites: seq<TestSuite>)

  /** The suite `TestSuite()` creates: nothing in it yet. */
  function EmptySuite(): (s: TestSuite)
    ensures s.metadata == [] && s.imports == [] && s.keywords == [] && s.variables == []
    ensures s.userKeywords == [] && s.tests == [] && s.suites == [] && s.source.None?
  {
    TestSuite("", None, "", [], [], [], [], [], [], [])
  }

  /** The `keywords` collection of a suite, test, user keyword or for loop,
      which the builder appends to in place. */
  class StepList {
    var steps: seq<Step>

    constructor ()
      ensures steps == []
    {
      steps := [];
    }

    /** `keywords.create(...)` / `keywords.append(...)`. */
    method Create(step: Step)
      modifies this
      ensures steps == old(steps) + [step]
    {
      steps := steps + [step];
    }
  }
}
