/** Suite assembly: `_build_suite` and the helpers that fill one suite
    (`_get_metadata`, `_create_import`, `_create_variable`,
    `_create_user_keyword`, `_create_test`, `_get_timeout`). */
module Suites {
  import opened Wrappers
  import opened Text
  import opened Parsing
  import opened Model
  import opened TestDefaults
  import opened Steps

  /** `get_test_values`, which is not part of this model, as a parameter. */
  type TestValuesFn = (Defaults, RawTest) -> TestValues

  // ---------------------------------------------------------------------------
  // What one record becomes

  /** `_get_metadata`: the `(name, value)` pairs, in source order. */
  function MetadataOf(settings: SettingTable): (r: seq<(string, string)>)
    ensures |r| == |settings.metadata|
    ensures forall i :: 0 <= i < |r| ==> r[i].0 == settings.metadata[i].name && r[i].1 == settings.metadata[i].value
  {
    seq(|settings.metadata|, i requires 0 <= i < |settings.metadata| =>
      (settings.metadata[i].name, settings.metadata[i].value))
  }

  function ImportOf(data: RawImport): Import {
    Import(data.kind, data.name, data.args, data.alias)
  }

  /** The variables `_create_variable` adds for one record: none for an empty record. */
  function VariableFor(data: ParsedVariable): seq<Variable> {
    match data
    case EmptyRecord => []
    case VariableRecord(name, value) =>
      [Variable(name, if IsScalarName(name) then Scalar(value[0]) else List(value))]
  }

  /** `_get_timeout`: a set timeout becomes its `(value, message)` pair. */
  function TimeoutOf(timeout: Option<Timeout>): (r: Option<(string, string)>)
    ensures r.None? <==> timeout.None?
    ensures r.Some? ==> timeout == Some(Timeout(r.value.0, r.value.1))
  {
    match timeout
    case None => None
    case Some(t) => Some((t.value, t.message))
  }

  function UserKeywordOf(data: RawUserKeyword): UserKeyword {
    UserKeyword(data.name, data.args, data.doc, data.returnValues, data.timeout, data.teardown,
      BodySteps(data.steps, None))
  }

  /** The keywords of a test: its setup, then its body rows under the
      template, then its teardown. */
  function TestKeywords(v: TestValues, rows: seq<RawStep>): seq<Step> {
    StepsFor(v.setup, Setup, None) + BodySteps(rows, v.template) + StepsFor(v.teardown, Teardown, None)
  }

  function TestOf(data: RawTest, defaults: Defaults, values: TestValuesFn): TestCase {
    var v := values(defaults, data);
    TestCase(data.name, data.doc, v.tags, TemplateActive(v.template), TimeoutOf(v.timeout),
      TestKeywords(v, data.steps))
  }

  // Whole tables, in source order.

  function ImportsOf(xs: seq<RawImport>): seq<Import> {
    if xs == [] then [] else ImportsOf(xs[..|xs| - 1]) + [ImportOf(xs[|xs| - 1])]
  }

  function VariablesOf(xs: seq<ParsedVariable>): seq<Variable> {
    if xs == [] then [] else VariablesOf(xs[..|xs| - 1]) + VariableFor(xs[|xs| - 1])
  }

  function UserKeywordsOf(xs: seq<RawUserKeyword>): seq<UserKeyword> {
    if xs == [] then [] else UserKeywordsOf(xs[..|xs| - 1]) + [UserKeywordOf(xs[|xs| - 1])]
  }

  function TestsOf(xs: seq<RawTest>, defaults: Defaults, values: TestValuesFn): seq<TestCase> {
    if xs == [] then [] else TestsOf(xs[..|xs| - 1], defaults, values) + [TestOf(xs[|xs| - 1], defaults, values)]
  }

  /** The suite `_build_suite(data, parent_defaults)` returns. */
  function SuiteOf(data: RawSuite, parent: Option<Defaults>, values: TestValuesFn): TestSuite
    decreases data, 1
  {
    var defaults := Defaults(data.settings, parent);
    TestSuite(data.name, Some(data.source), data.settings.doc, MetadataOf(data.settings),
      ImportsOf(data.settings.imports),
      StepsFor(data.settings.suiteSetup, Setup, None) + StepsFor(data.settings.suiteTeardown, Teardown, None),
      VariablesOf(data.variables), UserKeywordsOf(data.keywords),
      TestsOf(data.tests, defaults, values), ChildrenOf(data.children, defaults, values))
  }

  /** The child suites, each built with this suite's defaults as parent. */
  function ChildrenOf(xs: seq<RawSuite>, defaults: Defaults, values: TestValuesFn): seq<TestSuite>
    decreases xs, 0
  {
    if xs == [] then []
    else ChildrenOf(xs[..|xs| - 1], defaults, values) + [SuiteOf(xs[|xs| - 1], Some(defaults), values)]
  }

  // ---------------------------------------------------------------------------
  // The suite under construction

  /** A `TestSuite` while `_build_suite` fills it: its collections grow in place. */
  class SuiteBuild {
    const name: string
    const source: Option<string>
    const doc: string
    const metadata: seq<(string, string)>
    const keywords: StepList
    var imports: seq<Import>
    var variables: seq<Variable>
    var userKeywords: seq<UserKeyword>
    var tests: seq<TestCase>
    var suites: seq<TestSuite>

    /** The suite as it stands. */
    function Value(): TestSuite
      reads this, keywords
    {
      TestSuite(name, source, doc, metadata, imports, keywords.steps, variables, userKeywords, tests, suites)
    }

    constructor (name: string, source: Option<string>, doc: string, metadata: seq<(string, string)>)
      ensures Value() == TestSuite(name, source, doc, metadata, [], [], [], [], [], [])
      ensures fresh(keywords)
    {
      this.name, this.source, this.doc, this.metadata := name, source, doc, metadata;
      keywords := new StepList();
      imports, variables, userKeywords, tests, suites := [], [], [], [], [];
    }
  }

  /** `_create_import`. */
  method CreateImport(suite: SuiteBuild, data: RawImport)
    modifies suite
    ensures suite.Value() == old(suite.Value()).(imports := old(suite.imports) + [ImportOf(data)])
  {
    suite.imports := suite.imports + [ImportOf(data)];
  }

  /** `_create_variable`. */
  method CreateVariable(suite: SuiteBuild, data: ParsedVariable)
    modifies suite
    ensures suite.Value() == old(suite.Value()).(variables := old(suite.variables) + VariableFor(data))
  {
    if data.EmptyRecord? {
      return;
    }
    var value;
    if IsScalarName(data.name) {
      value := Scalar(data.value[0]);
    } else {
      value := List(data.value);
    }
    suite.variables := suite.variables + [Variable(data.name, value)];
  }

  /** `_create_user_keyword`: body rows get type `'kw'` and no template. */
  method CreateUserKeyword(suite: SuiteBuild, data: RawUserKeyword)
    modifies suite
    ensures suite.Value() == old(suite.Value()).(userKeywords := old(suite.userKeywords) + [UserKeywordOf(data)])
  {
    var body := new StepList();
    var i := 0;
    while i < |data.steps|
      invariant 0 <= i <= |data.steps|
      invariant body.steps == BodySteps(data.steps[..i], None)
      modifies body
    {
      assert data.steps[..i + 1][..i] == data.steps[..i];
      CreateStep(body, data.steps[i], Kw, None);
      i := i + 1;
    }
    assert data.steps[..i] == data.steps;
    suite.userKeywords := suite.userKeywords + [UserKeyword(data.name, data.args, data.doc,
      data.returnValues, data.timeout, data.teardown, body.steps)];
  }

  /** `_create_test`: setup, then the body rows under the resolved template, then teardown. */
  method CreateTest(suite: SuiteBuild, data: RawTest, defaults: Defaults, values: TestValuesFn)
    modifies suite
    ensures suite.Value() == old(suite.Value()).(tests := old(suite.tests) + [TestOf(data, defaults, values)])
  {
    var v := values(defaults, data);
    var body := new StepList();
    CreateStep(body, v.setup, Setup, None);
    var i := 0;
    while i < |data.steps|
      invariant 0 <= i <= |data.steps|
      invariant body.steps == StepsFor(v.setup, Setup, None) + BodySteps(data.steps[..i], v.template)
      modifies body
    {
      assert data.steps[..i + 1][..i] == data.steps[..i];
      CreateStep(body, data.steps[i], Kw, v.template);
      i := i + 1;
    }
    assert data.steps[..i] == data.steps;
    CreateStep(body, v.teardown, Teardown, None);
    suite.tests := suite.tests + [TestCase(data.name, data.doc, v.tags, TemplateActive(v.template),
      TimeoutOf(v.timeout), body.steps)];
  }

  // The loops of `_build_suite`, one table each.

  method CreateImports(suite: SuiteBuild, xs: seq<RawImport>)
    modifies suite
    ensures suite.Value() == old(suite.Value()).(imports := old(suite.imports) + ImportsOf(xs))
  {
    ghost var start := suite.Value();
    for i := 0 to |xs|
      invariant suite.Value() == start.(imports := start.imports + ImportsOf(xs[..i]))
    {
      assert xs[..i + 1][..i] == xs[..i];
      CreateImport(suite, xs[i]);
    }
    assert xs[..|xs|] == xs;
  }

  method CreateVariables(suite: SuiteBuild, xs: seq<ParsedVariable>)
    modifies suite
    ensures suite.Value() == old(suite.Value()).(variables := old(suite.variables) + VariablesOf(xs))
  {
    ghost var start := suite.Value();
    for i := 0 to |xs|
      invariant suite.Value() == start.(variables := start.variables + VariablesOf(xs[..i]))
    {
      assert xs[..i + 1][..i] == xs[..i];
      CreateVariable(suite, xs[i]);
    }
    assert xs[..|xs|] == xs;
  }

  method CreateUserKeywords(suite: SuiteBuild, xs: seq<RawUserKeyword>)
    modifies suite
    ensures suite.Value() == old(suite.Value()).(userKeywords := old(suite.userKeywords) + UserKeywordsOf(xs))
  {
    ghost var start := suite.Value();
    for i := 0 to |xs|
      invariant suite.Value() == start.(userKeywords := start.userKeywords + UserKeywordsOf(xs[..i]))
    {
      assert xs[..i + 1][..i] == xs[..i];
      CreateUserKeyword(suite, xs[i]);
    }
    assert xs[..|xs|] == xs;
  }

  method CreateTests(suite: SuiteBuild, xs: seq<RawTest>, defaults: Defaults, values: TestValuesFn)
    modifies suite
    ensures suite.Value() == old(suite.Value()).(tests := old(suite.tests) + TestsOf(xs, defaults, values))
  {
    ghost var start := suite.Value();
    for i := 0 to |xs|
      invariant suite.Value() == start.(tests := start.tests + TestsOf(xs[..i], defaults, values))
    {
      assert xs[..i + 1][..i] == xs[..i];
      CreateTest(suite, xs[i], defaults, values);
    }
    assert xs[..|xs|] == xs;
  }

  /** The last loop of `_build_suite`: each child is built with this suite's defaults. */
  method CreateChildren(suite: SuiteBuild, xs: seq<RawSuite>, defaults: Defaults, values: TestValuesFn)
    modifies suite
    ensures suite.Value() == old(suite.Value()).(suites := old(suite.suites) + ChildrenOf(xs, defaults, values))
    decreases xs, 0
  {
    ghost var start := suite.Value();
    for i := 0 to |xs|
      invariant suite.Value() == start.(suites := start.suites + ChildrenOf(xs[..i], defaults, values))
    {
      assert xs[..i + 1][..i] == xs[..i];
      var child := BuildSuite(xs[i], Some(defaults), values);
      suite.suites := suite.suites + [child];
    }
    assert xs[..|xs|] == xs;
  }

  /** `_build_suite`. */
  method BuildSuite(data: RawSuite, parent: Option<Defaults>, values: TestValuesFn) returns (r: TestSuite)
    ensures r == SuiteOf(data, parent, values)
    decreases data, 1
  {
    var defaults := Defaults(data.settings, parent);
    var suite := new SuiteBuild(data.name, Some(data.source), data.settings.doc, MetadataOf(data.settings));
    ghost var expected := SuiteOf(data, parent, values);
    CreateImports(suite, data.settings.imports);
    assert suite.imports == expected.imports;
    CreateStep(suite.keywords, data.settings.suiteSetup, Setup, None);
    CreateStep(suite.keywords, data.settings.suiteTeardown, Teardown, None);
    assert suite.keywords.steps == expected.keywords;
    CreateVariables(suite, data.variables);
    assert suite.variables == expected.variables;
    CreateUserKeywords(suite, data.keywords);
    assert suite.userKeywords == expected.userKeywords;
    CreateTests(suite, data.tests, defaults, values);
    assert suite.tests == expected.tests;
    CreateChildren(suite, data.children, defaults, values);
    r := suite.Value();
  }

  // ---------------------------------------------------------------------------
  // Properties of the assembly

  /** The non-empty variable records, in order (reference definition). */
  function Records(xs: seq<ParsedVariable>): seq<ParsedVariable> {
    if xs == [] then []
    else Records(xs[..|xs| - 1]) + (if xs[|xs| - 1].EmptyRecord? then [] else [xs[|xs| - 1]])
  }

  lemma {:induction false} ImportsInOrder(xs: seq<RawImport>)
    ensures |ImportsOf(xs)| == |xs|
    ensures forall i :: 0 <= i < |xs| ==> ImportsOf(xs)[i] == Import(xs[i].kind, xs[i].name, xs[i].args, xs[i].alias)
  {
    if xs != [] {
      ImportsInOrder(xs[..|xs| - 1]);
    }
  }

  /** Empty records are skipped; a `$` variable keeps its first value, any
      other variable its whole value list; order is kept. */
  lemma {:induction false} VariablesInOrder(xs: seq<ParsedVariable>)
    ensures |VariablesOf(xs)| == |Records(xs)|
    ensures forall i :: 0 <= i < |Records(xs)| ==>
      var v, rec := VariablesOf(xs)[i], Records(xs)[i];
      rec.VariableRecord? && v.name == rec.name &&
      v.value == (if IsScalarName(rec.name) then Scalar(rec.value[0]) else List(rec.value))
  {
    if xs != [] {
      VariablesInOrder(xs[..|xs| - 1]);
    }
  }

  lemma {:induction false} UserKeywordsInOrder(xs: seq<RawUserKeyword>)
    ensures |UserKeywordsOf(xs)| == |xs|
    ensures forall i :: 0 <= i < |xs| ==> UserKeywordsOf(xs)[i] == UserKeywordOf(xs[i])
  {
    if xs != [] {
      UserKeywordsInOrder(xs[..|xs| - 1]);
    }
  }

  lemma {:induction false} TestsInOrder(xs: seq<RawTest>, defaults: Defaults, values: TestValuesFn)
    ensures |TestsOf(xs, defaults, values)| == |xs|
    ensures forall i :: 0 <= i < |xs| ==> TestsOf(xs, defaults, values)[i] == TestOf(xs[i], defaults, values)
  {
    if xs != [] {
      TestsInOrder(xs[..|xs| - 1], defaults, values);
    }
  }

  lemma {:induction false} ChildrenInOrder(xs: seq<RawSuite>, defaults: Defaults, values: TestValuesFn)
    ensures |ChildrenOf(xs, defaults, values)| == |xs|
    ensures forall i :: 0 <= i < |xs| ==> ChildrenOf(xs, defaults, values)[i] == SuiteOf(xs[i], Some(defaults), values)
  {
    if xs != [] {
      var init, last := xs[..|xs| - 1], xs[|xs| - 1];
      ChildrenInOrder(init, defaults, values);
      var built := ChildrenOf(xs, defaults, values);
      assert built == ChildrenOf(init, defaults, values) + [SuiteOf(last, Some(defaults), values)];
      forall i | 0 <= i < |xs|
        ensures built[i] == SuiteOf(xs[i], Some(defaults), values)
      {
        if i < |init| {
          assert xs[i] == init[i];
        }
      }
    }
  }

  /** A built suite: its own name, source and documentation; every table
      copied in source order; the suite setup (type `'setup'`) before the
      suite teardown (type `'teardown'`), neither templated; its tests under
      the defaults made from its own setting table and its parent's
      defaults; and its children built with those same defaults as parent. */
  lemma SuiteLayout(data: RawSuite, parent: Option<Defaults>, values: TestValuesFn)
    ensures var s, defaults := SuiteOf(data, parent, values), Defaults(data.settings, parent);
      && s.name == data.name && s.source == Some(data.source) && s.doc == data.settings.doc
      && s.metadata == MetadataOf(data.settings)
      && |s.imports| == |data.settings.imports|
      && (forall i :: 0 <= i < |s.imports| ==> s.imports[i] == ImportOf(data.settings.imports[i]))
      && s.keywords == StepsFor(data.settings.suiteSetup, Setup, None) + StepsFor(data.settings.suiteTeardown, Teardown, None)
      && |s.variables| == |Records(data.variables)|
      && (forall i :: 0 <= i < |s.variables| ==>
            var v, rec := s.variables[i], Records(data.variables)[i];
            rec.VariableRecord? && v.name == rec.name &&
            v.value == (if IsScalarName(rec.name) then Scalar(rec.value[0]) else List(rec.value)))
      && |s.userKeywords| == |data.keywords|
      && (forall i :: 0 <= i < |s.userKeywords| ==> s.userKeywords[i] == UserKeywordOf(data.keywords[i]))
      && |s.tests| == |data.tests|
      && (forall i :: 0 <= i < |s.tests| ==> s.tests[i] == TestOf(data.tests[i], defaults, values))
      && |s.suites| == |data.children|
      && (forall i :: 0 <= i < |s.suites| ==> s.suites[i] == SuiteOf(data.children[i], Some(defaults), values))
  {
    var defaults := Defaults(data.settings, parent);
    ImportsInOrder(data.settings.imports);
    VariablesInOrder(data.variables);
    UserKeywordsInOrder(data.keywords);
    TestsInOrder(data.tests, defaults, values);
    ChildrenInOrder(data.children, defaults, values);
  }

  /** Number of steps one setup or teardown record adds. */
  function FixtureCount(data: RawStep): nat {
    if Dropped(data) then 0 else 1
  }

  /** A built test: its keywords are at most one setup call typed `'setup'`,
      then one step per non-comment body row in source order classified with
      the resolved template, then at most one teardown call typed
      `'teardown'`; setup and teardown ignore the template.  It continues on
      failure exactly when the template is set, not empty and not "NONE" in
      any case, and then every body call, inside loops too, calls the
      template. */
  lemma TestLayout(data: RawTest, defaults: Defaults, values: TestValuesFn)
    ensures var v, t := values(defaults, data), TestOf(data, defaults, values);
      var ns, rows := FixtureCount(v.setup), Kept(data.steps);
      && t.name == data.name && t.doc == data.doc && t.tags == v.tags
      && (t.timeout.None? <==> v.timeout.None?)
      && (t.timeout.Some? ==> v.timeout == Some(Timeout(t.timeout.value.0, t.timeout.value.1)))
      && |t.keywords| == ns + |rows| + FixtureCount(v.teardown)
      && (v.setup.CallRow? ==> t.keywords[0] == KeywordCall(v.setup.keyword, v.setup.args, v.setup.assign, Setup))
      && (forall i :: 0 <= i < |rows| ==> [t.keywords[ns + i]] == StepsFor(rows[i], Kw, v.template))
      && (v.teardown.CallRow? ==>
            t.keywords[|t.keywords| - 1] == KeywordCall(v.teardown.keyword, v.teardown.args, v.teardown.assign, Teardown))
      && (t.continueOnFailure <==>
            v.template.Some? && v.template.value != "" && !IsNoneIgnoringCase(v.template.value))
      && (t.continueOnFailure ==> forall i :: ns <= i < ns + |rows| ==> CallsOnly(t.keywords[i], v.template.value))
  {
    var v := values(defaults, data);
    var t := TestOf(data, defaults, values);
    var ns := FixtureCount(v.setup);
    var before, body, after := StepsFor(v.setup, Setup, None), BodySteps(data.steps, v.template), StepsFor(v.teardown, Teardown, None);
    assert t.keywords == before + body + after;
    BodyStepsInOrder(data.steps, v.template);
    Classify(v.setup, Setup, None);
    Classify(v.teardown, Teardown, None);
    if v.template.Some? {
      UpperIsNone(v.template.value);
    }
    if t.continueOnFailure {
      TemplateReachesLoops(data.steps, v.template);
      forall i | ns <= i < ns + |Kept(data.steps)|
        ensures CallsOnly(t.keywords[i], v.template.value)
      {
        assert t.keywords[i] == body[i - ns];
      }
    }
  }

  /** A user keyword's rows are never templated: a call row keeps its own
      keyword, args and assign, with type `'kw'`; its timeout and teardown
      are stored as given. */
  lemma UserKeywordLayout(data: RawUserKeyword)
    ensures var uk, rows := UserKeywordOf(data), Kept(data.steps);
      && uk.name == data.name && uk.args == data.args && uk.returnValues == data.returnValues
      && uk.timeout == data.timeout && uk.teardown == data.teardown
      && |uk.keywords| == |rows|
      && forall i :: 0 <= i < |rows| && rows[i].CallRow? ==>
           uk.keywords[i] == KeywordCall(rows[i].keyword, rows[i].args, rows[i].assign, Kw)
  {
    BodyStepsInOrder(data.steps, None);
  }
}
