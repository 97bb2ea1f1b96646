# Robot Framework suite builder, modelled in Dafny

This project models `TestSuiteBuilder` from Robot Framework's
`robot.new_running` package. The builder turns already-parsed test data
into the running model. A parsed suite holds a setting table, a variable
table, a keyword table, a test case table and child suites. The builder
turns each of those into a `TestSuite` with imports, variables, user
keywords and tests, and then recurses into the children.

The heart of it is step classification. Each raw row of a test, user
keyword or for loop is one of four things:

- an unset setting or a comment row, which is dropped;
- a for loop, which is rebuilt recursively under the same template;
- a data row under an active template, which becomes a call of the template
  keyword with the row's cells as arguments;
- a plain keyword call with a type of `'kw'`, `'setup'` or `'teardown'`.

Modules:

- `Wrappers` (`wrappers.dfy`): `Option` and `Result`.
- `Text` (`text.dfy`): `upper()` and the case-insensitive `NONE` test.
- `Parsing` (`parsing.dfy`): the parsed records the builder reads. This
  includes `as_list(include_comment=False)` for a row.
- `Model` (`model.dfy`): the running model. `StepList` is a `keywords`
  collection and the builder appends to it in place.
- `TestDefaults` (`defaults.dfy`): `TestDefaults(setting_table,
  parent_defaults)` as a value, and the values resolved for one test.
- `Steps` (`steps.dfy`): `_create_step` and `_create_for_loop`. They are
  specified by the functions `StepsFor` and `BodySteps`, and the methods
  `CreateStep` and `CreateForLoop` append to a `StepList`.
- `Suites` (`suites.dfy`): `_build_suite` and its helpers. `SuiteBuild` is
  the suite under construction, and its sequences grow in place. The
  function `SuiteOf` says what `_build_suite` returns.
- `Build` (`build.dfy`): `build(*paths)` and `_parse`. The function
  `BuildResult` says what `build` returns or raises.

Two things the builder calls are not part of this model, so every builder
member takes them as parameters:

- `parse: string -> Result<RawSuite, string>` is the parser. It returns the
  parsed suite or the message of the parser's `DataError`.
- `values: (Defaults, RawTest) -> TestValues` is
  `TestDefaults.get_test_values`. It gives a test's tags, template, timeout,
  setup and teardown.

Some behaviours of the code that are easy to miss:

- `build()` with no paths returns an empty root suite. It does not require
  at least one path.
- A for loop ignores the type it is handed. Its rows are created with the
  default type `'kw'`.
- A templated row is created without a type, so it gets the default `'kw'`.
  It also gets no assign.
- A `$` variable stores `value[0]` whatever the length of the value list.

## Model

| member | source | states |
|---|---|---|
| `Steps.CreateStep` | src/robot/new_running/builder.py:107-119 | appends to the parent's keyword list, in place, exactly the steps `StepsFor` gives for the record, and changes nothing else |
| `Steps.CreateForLoop` | src/robot/new_running/builder.py:121-126 | appends one `ForLoop` whose body holds the loop's rows, classified in order with the caller's template |
| `Steps.Classify` | src/robot/new_running/builder.py:107-119 | an unset or comment record adds nothing. A loop record adds one `ForLoop` with its vars, items and range copied. With a template that is set, non-empty and not NONE in any case, a call row becomes one call of the template whose args are the row's assign, keyword and args without the comment, with no assign and type `'kw'`. Otherwise a call row becomes its own call with the given type |
| `Steps.TemplatedRowIgnoresRow` | src/robot/new_running/builder.py:112-114 | under an active template the result depends only on the row's cells in order, without the comment. How those cells split into assign, keyword and args, the comment and the requested type make no difference |
| `Steps.BodyStepsInOrder` | src/robot/new_running/builder.py:121-126 | a sequence of rows gives one step per kept row, in source order, and comment and unset rows are left out |
| `Steps.TemplateReachesLoops` | src/robot/new_running/builder.py:110-126 | with an active template, every keyword call in the body calls the template with type `'kw'`, including calls nested in loops at any depth |
| `Steps.InactiveTemplateIsNone` | src/robot/new_running/builder.py:112 | an empty template, or `NONE` in any case, classifies every row exactly as no template does, at every loop depth |
| `Text.UpperIsNone` | src/robot/new_running/builder.py:112 | `s.upper() == 'NONE'` holds exactly when `s` is the four letters n, o, n, e in any mix of cases |
| `Suites.MetadataOf` | src/robot/new_running/builder.py:61-63 | the metadata is one `(name, value)` pair per setting, in source order |
| `Suites.TimeoutOf` | src/robot/new_running/builder.py:83-84 | an unset timeout gives `None`, and a set one gives its `(value, message)` pair, from which the timeout can be recovered |
| `Suites.SuiteBuild.constructor` | src/robot/new_running/builder.py:43-46 | a new suite has its name, source, documentation and metadata, and all its collections are empty |
| `Suites.CreateImport` | src/robot/new_running/builder.py:65-69 | appends one import with type, name, args and alias copied, and changes nothing else |
| `Suites.CreateVariable` | src/robot/new_running/builder.py:98-105 | an empty record changes nothing. Otherwise it appends one variable: a `$` name stores its first value, and any other name stores the whole list |
| `Suites.CreateUserKeyword` | src/robot/new_running/builder.py:86-96 | appends one user keyword with its fields copied. Its body rows are classified with type `'kw'` and no template |
| `Suites.CreateTest` | src/robot/new_running/builder.py:71-81 | appends one test built from the resolved values. Its keywords are the setup, then the body under the template, then the teardown |
| `Suites.CreateImports` | src/robot/new_running/builder.py:47-48 | appends the imports of the table in order |
| `Suites.CreateVariables` | src/robot/new_running/builder.py:51-52 | appends the variables of the table in order |
| `Suites.CreateUserKeywords` | src/robot/new_running/builder.py:53-54 | appends the user keywords of the table in order |
| `Suites.CreateTests` | src/robot/new_running/builder.py:55-56 | appends the tests of the table in order, all under the same suite defaults |
| `Suites.CreateChildren` | src/robot/new_running/builder.py:57-58 | appends one built child per child data, in order, each built with this suite's defaults as parent |
| `Suites.BuildSuite` | src/robot/new_running/builder.py:41-59 | returns exactly the suite `SuiteOf` describes |
| `Suites.ImportsInOrder` | src/robot/new_running/builder.py:47-48 | import `i` of the suite is the copy of import record `i` |
| `Suites.VariablesInOrder` | src/robot/new_running/builder.py:51-52 | variable `i` of the suite comes from the `i`-th non-empty record. It keeps that record's name, and its first value if the name starts with `$`, otherwise the whole list |
| `Suites.UserKeywordsInOrder` | src/robot/new_running/builder.py:53-54 | user keyword `i` of the suite is built from keyword record `i` |
| `Suites.TestsInOrder` | src/robot/new_running/builder.py:55-56 | test `i` of the suite is built from test record `i` under the suite's defaults |
| `Suites.ChildrenInOrder` | src/robot/new_running/builder.py:57-58 | child `i` of the suite is built from child data `i`, with the suite's defaults as parent |
| `Suites.SuiteLayout` | src/robot/new_running/builder.py:41-59 | a built suite keeps its own name, source and documentation, and every table in source order. Its keywords are the suite setup (`'setup'`), then the suite teardown (`'teardown'`), neither templated. Its tests use the defaults made from its own table and its parent's defaults, and its children get those same defaults as parent |
| `Suites.TestLayout` | src/robot/new_running/builder.py:71-81 | a test's keywords are at most one `'setup'` call, then one step per non-comment body row in order under the template, then at most one `'teardown'` call. Setup and teardown ignore the template. `continue_on_failure` holds exactly when the template is set, non-empty and not NONE in any case, and then every body call, even inside loops, calls the template. Name, doc, tags and timeout are carried over |
| `Suites.UserKeywordLayout` | src/robot/new_running/builder.py:86-96 | a user keyword's call rows are never templated: each keeps its own keyword, args and assign, with type `'kw'`. Timeout and teardown are stored as given |
| `Build.ParseSource` | src/robot/new_running/builder.py:35-39 | a parse success passes through unchanged. A failure becomes the error `Parsing '<path>' failed: <message>`, which contains the path |
| `Build.BuildSuites` | src/robot/new_running/builder.py:27-33 | returns or fails exactly as `BuildResult` describes |
| `Build.TopSuitesStopAtError` | src/robot/new_running/builder.py:31-32 | once one path has failed to parse, the later paths do not change the outcome |
| `Build.TopSuitesInOrder` | src/robot/new_running/builder.py:30-32 | when every path parses, there is one top-level suite per path, in input order. Each is built from that path's data alone, with no parent defaults |
| `Build.TopSuitesFirstError` | src/robot/new_running/builder.py:31-39 | the first path that fails to parse decides the error, which is `Parsing '<path>' failed: <message>` |
| `Build.SuccessfulBuild` | src/robot/new_running/builder.py:27-33 | with one path, `build` returns that path's suite unwrapped. With any other number, it returns a root with no name, documentation, source or tables of its own, whose children are one suite per path, in input order, each built with no parent defaults, so no setting passes between siblings |
| `Build.FailedBuild` | src/robot/new_running/builder.py:35-39 | when a path fails to parse, `build` fails with that path's `DataError` message, which contains the path |

## Left out

- Reading and parsing files (`TestData(source=path)`) is not modelled. The parser is the parameter `parse`, and the model keeps only the error `_parse` builds from its failure.
- How `TestDefaults` resolves a test's values (`get_test_values`) is not part of this model. It is the parameter `values`. The model keeps only which defaults each suite makes and hands down: its own setting table plus its parent's defaults, or no parent at the top.
- `continue_on_failure=bool(values.template)`: the truth test of the resolved template setting lives in the defaults code, which is not part of this model. The model's rule is that a test continues on failure when its template is set, non-empty and not `NONE` in any case, the same test that decides whether body rows are rewritten.
- `Text.Upper`: does not model `str.upper()` beyond ASCII letters. No other character changes. No character outside ASCII upper-cases to `N`, `O` or `E`, so the `NONE` test is not affected.
- The parser's `is_comment()` and the truth test of a variable record are not part of this model. The constructors `CommentRow` and `EmptyRecord` stand for every row and record those tests reject. Any `CallRow` or `VariableRecord`, even one with empty cells, is taken to be a real call or variable.
- `Suites.CreateVariable`: with a `$` name and an empty value list, the source would raise `IndexError`. The parser never produces such a record, and the subset type `ParsedVariable` states that guarantee.
- The model's collection classes (`suites`, `tests`, `keywords`, `.create`) are ordered sequences here. The defaults that `create` fills in are taken to be an empty assign and type `'kw'`. So is the empty name, documentation and source of `TestSuite()`.
- `Steps.CreateForLoop`, `Suites.CreateUserKeyword`, `Suites.CreateTest`: the source appends the loop, keyword or test first and then fills its keyword list through the object it appended. The model fills a fresh list first and then appends the finished value. Nothing reads the object in between, so only that aliasing and the order of those two actions are not captured.
- A child suite is appended as a finished value. The source never changes a child after appending it.
- The five table loops of `_build_suite` are written as the helper methods `CreateImports`, `CreateVariables`, `CreateUserKeywords`, `CreateTests` and `CreateChildren`, so that the proof of `BuildSuite` stays small.
- `unicode(...)` conversion of documentation and error messages is not modelled: strings are copied as they are.
- User-keyword timeout and teardown are passed through as raw cells. The builder applies no logic to them.
