/** Build orchestration: `TestSuiteBuilder.build` and `_parse`.  Reading and
    parsing a file is not part of this model: the parser is the parameter
    `parse`, which gives the parsed suite or the message of its `DataError`. */
module Build {
  import opened Wrappers
  import opened Parsing
  import opened Model
  import opened Suites

  type ParseFn = string -> Result<RawSuite, string>

  /** The message of the `DataError` `_parse` raises when parsing fails. */
  function ParseFailure(path: string, message: string): string {
    "Parsing '" + path + "' failed: " + message
  }

  /** `_parse`: the parser's result, its error re-raised with the path in front. */
  function ParseSource(path: string, parse: ParseFn): (r: Result<RawSuite, string>)
    ensures parse(path).Ok? ==> r == Ok(parse(path).value)
    ensures parse(path).Err? ==> r.Err? && r.error == ParseFailure(path, parse(path).error)
    ensures r.Err? ==> |r.error| >= 9 + |path| && r.error[9..9 + |path|] == path
  {
    match parse(path)
    case Ok(data) => Ok(data)
    case Err(message) =>
      var m := ParseFailure(path, message);
      assert m == "Parsing '" + path + ("' failed: " + message);
      Err(m)
  }

  /** The top-level suites for `paths` in order, each built with no parent
      defaults; the first failing path's error otherwise. */
  function TopSuites(paths: seq<string>, parse: ParseFn, values: TestValuesFn): Result<seq<TestSuite>, string> {
    if paths == [] then Ok([])
    else
      match TopSuites(paths[..|paths| - 1], parse, values)
      case Err(e) => Err(e)
      case Ok(suites) =>
        match ParseSource(paths[|paths| - 1], parse)
        case Err(e) => Err(e)
        case Ok(data) => Ok(suites + [SuiteOf(data, None, values)])
  }

  /** What `build(*paths)` returns or raises. */
  function BuildResult(paths: seq<string>, parse: ParseFn, values: TestValuesFn): Result<TestSuite, string> {
    if |paths| == 1 then
      match ParseSource(paths[0], parse)
      case Err(e) => Err(e)
      case Ok(data) => Ok(SuiteOf(data, None, values))
    else
      match TopSuites(paths, parse, values)
      case Err(e) => Err(e)
      case Ok(suites) => Ok(EmptySuite().(suites := suites))
  }

  /** `build(*paths)`. */
  method BuildSuites(paths: seq<string>, parse: ParseFn, values: TestValuesFn) returns (r: Result<TestSuite, string>)
    ensures r == BuildResult(paths, parse, values)
  {
    if |paths| == 1 {
      var parsed := ParseSource(paths[0], parse);
      if parsed.Err? {
        return Err(parsed.error);
      }
      var suite := BuildSuite(parsed.value, None, values);
      return Ok(suite);
    }
    var root := new SuiteBuild("", None, "", []);
    ghost var empty := root.Value();
    for i := 0 to |paths|
      invariant TopSuites(paths[..i], parse, values).Ok?
      invariant root.Value() == empty.(suites := TopSuites(paths[..i], parse, values).value)
    {
      assert paths[..i + 1][..i] == paths[..i];
      var parsed := ParseSource(paths[i], parse);
      if parsed.Err? {
        assert TopSuites(paths[..i + 1], parse, values) == Err(parsed.error);
        TopSuitesStopAtError(paths, i + 1, parse, values);
        assert paths[..|paths|] == paths;
        return Err(parsed.error);
      }
      var suite := BuildSuite(parsed.value, None, values);
      root.suites := root.suites + [suite];
    }
    assert paths[..|paths|] == paths;
    r := Ok(root.Value());
  }

  // ---------------------------------------------------------------------------
  // Properties of the orchestration

  /** An error in the first `k` paths is the error of the whole list. */
  lemma {:induction false} TopSuitesStopAtError(paths: seq<string>, k: nat, parse: ParseFn, values: TestValuesFn)
    requires k <= |paths| && TopSuites(paths[..k], parse, values).Err?
    ensures TopSuites(paths, parse, values) == TopSuites(paths[..k], parse, values)
    decreases |paths|
  {
    if k < |paths| {
      var init := paths[..|paths| - 1];
      assert init[..k] == paths[..k];
      TopSuitesStopAtError(init, k, parse, values);
    } else {
      assert paths[..k] == paths;
    }
  }

  /** When every path parses, one suite per path, in input order, each built
      from its own data alone with no parent defaults. */
  lemma {:induction false} TopSuitesInOrder(paths: seq<string>, parse: ParseFn, values: TestValuesFn)
    requires forall i :: 0 <= i < |paths| ==> parse(paths[i]).Ok?
    ensures TopSuites(paths, parse, values).Ok?
    ensures |TopSuites(paths, parse, values).value| == |paths|
    ensures forall i :: 0 <= i < |paths| ==>
      TopSuites(paths, parse, values).value[i] == SuiteOf(parse(paths[i]).value, None, values)
  {
    if paths != [] {
      var init := paths[..|paths| - 1];
      assert forall i :: 0 <= i < |init| ==> init[i] == paths[i];
      TopSuitesInOrder(init, parse, values);
    }
  }

  /** The first path that fails to parse decides the error, whose message
      names that path. */
  lemma {:induction false} TopSuitesFirstError(paths: seq<string>, k: nat, parse: ParseFn, values: TestValuesFn)
    requires k < |paths| && parse(paths[k]).Err?
    requires forall i :: 0 <= i < k ==> parse(paths[i]).Ok?
    ensures TopSuites(paths, parse, values) == Err(ParseFailure(paths[k], parse(paths[k]).error))
  {
    var prefix := paths[..k + 1];
    assert prefix[..k] == paths[..k];
    assert forall i :: 0 <= i < k ==> paths[..k][i] == paths[i];
    TopSuitesInOrder(paths[..k], parse, values);
    assert TopSuites(prefix, parse, values) == Err(ParseFailure(paths[k], parse(paths[k]).error));
    TopSuitesStopAtError(paths, k + 1, parse, values);
  }

  /** A single path gives its own suite, not wrapped; any other number of
      paths gives a fresh root holding one suite per path in input order,
      none of which inherits defaults from another. */
  lemma SuccessfulBuild(paths: seq<string>, parse: ParseFn, values: TestValuesFn)
    requires forall i :: 0 <= i < |paths| ==> parse(paths[i]).Ok?
    ensures BuildResult(paths, parse, values).Ok?
    ensures |paths| == 1 ==> BuildResult(paths, parse, values).value == SuiteOf(parse(paths[0]).value, None, values)
    ensures |paths| != 1 ==>
      var root := BuildResult(paths, parse, values).value;
      root.name == "" && root.source.None? && root.doc == "" && root.metadata == [] && root.imports == [] && root.keywords == []
      && root.variables == [] && root.userKeywords == [] && root.tests == []
      && |root.suites| == |paths|
      && forall i :: 0 <= i < |paths| ==> root.suites[i] == SuiteOf(parse(paths[i]).value, None, values)
  {
    if |paths| != 1 {
      TopSuitesInOrder(paths, parse, values);
    }
  }

  /** A parse failure is the only error: the build fails with the first
      failing path's message, which contains that path. */
  lemma FailedBuild(paths: seq<string>, k: nat, parse: ParseFn, values: TestValuesFn)
    requires k < |paths| && parse(paths[k]).Err?
    requires forall i :: 0 <= i < k ==> parse(paths[i]).Ok?
    ensures BuildResult(paths, parse, values) == Err(ParseFailure(paths[k], parse(paths[k]).error))
    ensures BuildResult(paths, parse, values).error[9..9 + |paths[k]|] == paths[k]
  {
    if |paths| != 1 {
      TopSuitesFirstError(paths, k, parse, values);
    }
    var m := ParseFailure(paths[k], parse(paths[k]).error);
    assert m == "Parsing '" + paths[k] + ("' failed: " + parse(paths[k]).error);
    assert m[9..9 + |paths[k]|] == paths[k];
  }
}
