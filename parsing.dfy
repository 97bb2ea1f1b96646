/** The parsed, source-faithful test data the builder consumes (the output of
    `TestData(source=path)`), as plain values.  The parser itself is not part
    of this model; these records carry the fields the builder reads. */
module Parsing {
  import opened Wrappers
  import opened Text

  /** One row of a test, user keyword or for-loop body, or a setup/teardown
      setting; `Unset` is a setting that is not set (false in a boolean context). */
  datatype RawStep =
    | Unset
    | CommentRow(text: string)
    | ForLoopRow(vars: seq<string>, items: seq<string>, range: bool, steps: seq<RawStep>)
    | CallRow(assign: seq<string>, keyword: string, args: seq<string>, comment: Option<string>)

  /** `data.as_list(include_comment=...)` of a call row: its cells in table order,
      the trailing comment last and only when asked for. */
  function AsList(row: RawStep, includeComment: bool): seq<string>
    requires row.CallRow?
  {
    row.assign + [row.keyword] + row.args
      + (if includeComment && row.comment.Some? then [row.comment.value] else [])
  }

  /** A `Library`, `Resource` or `Variables` setting. */
  datatype RawImport = RawImport(kind: string, name: string, args: seq<string>, alias: Option<string>)

  /** One `Metadata` setting. */
  datatype RawMetadata = RawMetadata(name: string, value: string)

  /** A row of the variable table; `EmptyRecord` is a record that is false in a boolean context. */
  datatype RawVariable = EmptyRecord | VariableRecord(name: string, value: seq<string>)

  /** The parser gives every `$` variable at least one value cell. */
  predicate ScalarHasValue(v: RawVariable) {
    v.VariableRecord? && IsScalarName(v.name) ==> |v.value| > 0
  }

  type ParsedVariable = v: RawVariable | ScalarHasValue(v) witness EmptyRecord

  /** A row of the keyword table. `timeout` and `teardown` are kept as raw cells. */
  datatype RawUserKeyword = RawUserKeyword(
    name: string, args: seq<string>, doc: string, returnValues: seq<string>,
    timeout: seq<string>, teardown: seq<string>, steps: seq<RawStep>)

  /** A test's own `[Tags]`, `[Template]`, `[Timeout]`, `[Setup]` and `[Teardown]`. */
  datatype TestSettings = TestSettings(
    tags: seq<string>, template: Option<string>, timeout: Option<string>,
    setup: RawStep, teardown: RawStep)

  /** A row of the test case table. */
  datatype RawTest = RawTest(name: string, doc: string, settings: TestSettings, steps: seq<RawStep>)

  /** The setting table of one suite file or directory. */
  datatype SettingTable = SettingTable(
    doc: string, metadata: seq<RawMetadata>, imports: seq<RawImport>,
    suiteSetup: RawStep, suiteTeardown: RawStep,
    forceTags: seq<string>, defaultTags: seq<string>, testTemplate: Option<string>,
    testTimeout: Option<string>, testSetup: RawStep, testTeardown: RawStep)

  /** One parsed suite: its tables and its child suites. */
  datatype RawSuite = RawSuite(
    name: string, source: string, settings: SettingTable,
    variables: seq<ParsedVariable>, keywords: seq<RawUserKeyword>,
    tests: seq<RawTest>, children: seq<RawSuite>)
}
