/** Step classification: `_create_step` and `_create_for_loop`.  The functions
    say which steps one raw record appends to its parent's keyword list; the
    methods append them to a `StepList` in place. */
module Steps {
  import opened Wrappers
  import opened Text
  import opened Parsing
  import opened Model

  /** `template and template.upper() != 'NONE'`. */
  predicate TemplateActive(template: Option<string>) {
    template.Some? && template.value != "" && Upper(template.value) != "NONE"
  }

  /** Records `_create_step` returns on without appending anything. */
  predicate Dropped(row: RawStep) {
    row.Unset? || row.CommentRow?
  }

  /** The steps `_create_step(parent, data, type, template)` appends to `parent.keywords`. */
  function StepsFor(data: RawStep, role: Role, template: Option<string>): seq<Step>
    decreases data, 1
  {
    match data
    case Unset => []
    case CommentRow(_) => []
    case ForLoopRow(vars, items, range, rows) =>
      [ForLoop(vars, items, range, BodySteps(rows, template))]
    case CallRow(assign, keyword, args, _) =>
      if TemplateActive(template) then [KeywordCall(template.value, AsList(data, false), [], Kw)]
      else [KeywordCall(keyword, args, assign, role)]
  }

  /** The steps appended for `rows`, one row after the other, each with type `'kw'`. */
  function BodySteps(rows: seq<RawStep>, template: Option<string>): seq<Step>
    decreases rows, 0
  {
    if rows == [] then []
    else BodySteps(rows[..|rows| - 1], template) + StepsFor(rows[|rows| - 1], Kw, template)
  }

  /** The rows of `rows` that are not dropped, in order (reference definition). */
  function Kept(rows: seq<RawStep>): seq<RawStep> {
    if rows == [] then []
    else Kept(rows[..|rows| - 1]) + (if Dropped(rows[|rows| - 1]) then [] else [rows[|rows| - 1]])
  }

  /** Every keyword call in `step`, at any loop depth, calls keyword `name` with type `'kw'`. */
  predicate CallsOnly(step: Step, name: string) {
    match step
    case KeywordCall(n, _, _, role) => n == name && role == Kw
    case ForLoop(_, _, _, body) => forall i :: 0 <= i < |body| ==> CallsOnly(body[i], name)
  }

  // ---------------------------------------------------------------------------
  // The imperative builder

  /** `_create_step`: appends to `parent` what `data` classifies as. */
  method CreateStep(parent: StepList, data: RawStep, role: Role, template: Option<string>)
    modifies parent
    ensures parent.steps == old(parent.steps) + StepsFor(data, role, template)
    decreases data, 1
  {
    if data.Unset? || data.CommentRow? {
      return;
    }
    if data.ForLoopRow? {
      CreateForLoop(parent, data, template);
    } else if TemplateActive(template) {
      parent.Create(KeywordCall(template.value, AsList(data, false), [], Kw));
    } else {
      parent.Create(KeywordCall(data.keyword, data.args, data.assign, role));
    }
  }

  /** `_create_for_loop`: appends one loop whose body holds the loop's rows,
      classified with the enclosing template. */
  method CreateForLoop(parent: StepList, data: RawStep, template: Option<string>)
    requires data.ForLoopRow?
    modifies parent
    ensures parent.steps == old(parent.steps) + StepsFor(data, Kw, template)
    decreases data, 0
  {
    var loop := new StepList();
    var i := 0;
    while i < |data.steps|
      invariant 0 <= i <= |data.steps|
      invariant loop.steps == BodySteps(data.steps[..i], template)
      invariant parent.steps == old(parent.steps)
    {
      assert data.steps[..i + 1][..i] == data.steps[..i];
      CreateStep(loop, data.steps[i], Kw, template);
      i := i + 1;
    }
    assert data.steps[..i] == data.steps;
    parent.Create(ForLoop(data.vars, data.items, data.range, loop.steps));
  }

  // ---------------------------------------------------------------------------
  // Properties of the classification

  /** What one record becomes: nothing when absent or a comment; one loop whose
      vars, items and range flag are copied; with an active template (not
      empty, not "NONE" in any case) one call of the template whose args are
      the row's cells without the comment, with no assign and type `'kw'`;
      otherwise the row's own call with the given type. */
  lemma Classify(data: RawStep, role: Role, template: Option<string>)
    ensures Dropped(data) ==> StepsFor(data, role, template) == []
    ensures data.ForLoopRow? ==>
      StepsFor(data, role, template) == [ForLoop(data.vars, data.items, data.range, BodySteps(data.steps, template))]
    ensures data.CallRow? && template.Some? && template.value != "" && !IsNoneIgnoringCase(template.value) ==>
      StepsFor(data, role, template) == [KeywordCall(template.value, data.assign + [data.keyword] + data.args, [], Kw)]
    ensures data.CallRow? && (template.None? || template.value == "" || IsNoneIgnoringCase(template.value)) ==>
      StepsFor(data, role, template) == [KeywordCall(data.keyword, data.args, data.assign, role)]
  {
    if template.Some? {
      UpperIsNone(template.value);
    }
    if data.CallRow? {
      var cells := data.assign + [data.keyword] + data.args;
      assert cells + [] == cells;
      assert AsList(data, false) == cells;
    }
  }

  /** Under an active template only the row's cells, in order, matter: how
      they split into assign, keyword and args, the comment and the requested
      type do not. */
  lemma TemplatedRowIgnoresRow(a: RawStep, b: RawStep, roleA: Role, roleB: Role, template: Option<string>)
    requires a.CallRow? && b.CallRow? && AsList(a, false) == AsList(b, false)
    requires TemplateActive(template)
    ensures StepsFor(a, roleA, template) == StepsFor(b, roleB, template)
  {
  }

  /** Body rows become steps one for one, comments and absent rows left out,
      in source order. */
  lemma {:induction false} BodyStepsInOrder(rows: seq<RawStep>, template: Option<string>)
    ensures |BodySteps(rows, template)| == |Kept(rows)|
    ensures forall i :: 0 <= i < |Kept(rows)| ==>
      [BodySteps(rows, template)[i]] == StepsFor(Kept(rows)[i], Kw, template)
  {
    if rows != [] {
      var init, last := rows[..|rows| - 1], rows[|rows| - 1];
      BodyStepsInOrder(init, template);
      if !Dropped(last) {
        assert |StepsFor(last, Kw, template)| == 1;
      }
    }
  }

  /** A template reaches through loops: with an active template every call
      in the body, at any depth, is a call of the template. */
  lemma {:induction false} TemplateReachesLoops(rows: seq<RawStep>, template: Option<string>)
    requires TemplateActive(template)
    ensures forall i :: 0 <= i < |BodySteps(rows, template)| ==>
      CallsOnly(BodySteps(rows, template)[i], template.value)
    decreases rows
  {
    if rows != [] {
      var init, last := rows[..|rows| - 1], rows[|rows| - 1];
      TemplateReachesLoops(init, template);
      if last.ForLoopRow? {
        TemplateReachesLoops(last.steps, template);
        assert CallsOnly(StepsFor(last, Kw, template)[0], template.value);
      }
    }
  }

  /** A template that is empty or "NONE" in any case is no template at all,
      at every loop depth. */
  lemma {:induction false} InactiveTemplateIsNone(rows: seq<RawStep>, template: Option<string>)
    requires template.Some? && (template.value == "" || IsNoneIgnoringCase(template.value))
    ensures BodySteps(rows, template) == BodySteps(rows, None)
    decreases rows
  {
    UpperIsNone(template.value);
    if rows != [] {
      var init, last := rows[..|rows| - 1], rows[|rows| - 1];
      InactiveTemplateIsNone(init, template);
      if last.ForLoopRow? {
        InactiveTemplateIsNone(last.steps, template);
      }
    }
  }
}
