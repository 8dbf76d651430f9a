/**
 * `validate_suite`: the checks a test suite loaded from YAML must pass before
 * any test runs. Every violated rule is reported; whether agent_dir exists and
 * is a directory is an input, `probe`.
 */
module SuiteValidation {
  import opened Wrappers
  import opened JsonValues

  /** What the filesystem says about a path. */
  datatype DirState = Absent | NotADirectory | Directory

  /** One entry of the returned error list. */
  datatype SuiteError =
    | MissingName
    | MissingAgentDir
    | AgentDirAbsent(path: string)
    | AgentDirNotADirectory(path: string)
    | MissingTests
    | TestNotObject(index: nat)
    | TestMissingId(index: nat)
    | DuplicateId(id: Json)
    | TestMissingPrompt(test: Json)  // the test's id when truthy, else its index

  /** `test.get("id")` */
  function TestId(test: Json): Json {
    if test.JObj? then Get(test.fields, "id", JNull) else JNull
  }

  /** `test_id or i`, as the missing-prompt message names a test. */
  function Label(i: nat, test: Json): Json {
    if Truthy(TestId(test)) then TestId(test) else JNum(i as real)
  }

  /** A test entry that passes every per-test rule. */
  predicate GoodTest(test: Json) {
    test.JObj? && Truthy(TestId(test)) && Hashable(TestId(test))
    && Truthy(Get(test.fields, "prompt", JNull))
  }

  /**
   * One pass of the loop over the tests: the errors for test `i` and the set of
   * ids seen afterwards. Ids are compared as Python compares them, through
   * `HashKey`; an unhashable id raises TypeError at the membership test.
   */
  function TestErrors(i: nat, test: Json, seen: set<Json>): (r: Result<(seq<SuiteError>, set<Json>), Fault>)
    ensures r.Ok? && r.value.0 == [] ==> GoodTest(test) && HashKey(TestId(test)) !in seen
                                         && r.value.1 == seen + {HashKey(TestId(test))}
    ensures r.Ok? && GoodTest(test) && HashKey(TestId(test)) !in seen ==> r.value.0 == []
    ensures r.Err? <==> test.JObj? && Truthy(TestId(test)) && !Hashable(TestId(test))
  {
    if !test.JObj? then Ok(([TestNotObject(i)], seen))
    else
      var id := TestId(test);
      var promptErrors :=
        if Truthy(Get(test.fields, "prompt", JNull)) then [] else [TestMissingPrompt(Label(i, test))];
      if !Truthy(id) then Ok(([TestMissingId(i)] + promptErrors, seen))
      else if !Hashable(id) then Err(Fault(TypeError, id))
      else if HashKey(id) in seen then Ok(([DuplicateId(id)] + promptErrors, seen))
      else Ok((promptErrors, seen + {HashKey(id)}))
  }

  /** The loop over `items`, numbered from `start`, with the ids already in `seen`. */
  function TestsErrors(items: seq<Json>, start: nat, seen: set<Json>): Result<seq<SuiteError>, Fault>
    decreases |items|
  {
    if items == [] then Ok([])
    else
      var step :- TestErrors(start, items[0], seen);
      var rest :- TestsErrors(items[1..], start + 1, step.1);
      Ok(step.0 + rest)
  }

  /** The checks of name and agent_dir, which come before the tests. */
  function HeaderErrors(d: Dict, probe: string -> DirState): Result<seq<SuiteError>, Fault> {
    var nameErrors := if Truthy(Get(d, "name", JNull)) then [] else [MissingName];
    var agentDir := Get(d, "agent_dir", JNull);
    if !Truthy(agentDir) then Ok(nameErrors + [MissingAgentDir])
    else if !agentDir.JStr? then Err(Fault(TypeError, agentDir))
    else
      match probe(agentDir.s)
      case Absent => Ok(nameErrors + [AgentDirAbsent(agentDir.s)])
      case NotADirectory => Ok(nameErrors + [AgentDirNotADirectory(agentDir.s)])
      case Directory => Ok(nameErrors)
  }

  /** The checks of the tests field and of each test. */
  function TestFieldErrors(tests: Json): Result<seq<SuiteError>, Fault> {
    if !Truthy(tests) then Ok([MissingTests])
    else
      var items :- Iterate(tests);
      TestsErrors(items, 0, {})
  }

  /** The result of `validate_suite(suite)`; `Err` is an exception it raises. */
  function Validate(suite: Json, probe: string -> DirState): Result<seq<SuiteError>, Fault> {
    if !suite.JObj? then Err(Fault(AttributeError, suite))
    else
      var header :- HeaderErrors(suite.fields, probe);
      var testErrors :- TestFieldErrors(Get(suite.fields, "tests", JNull));
      Ok(header + testErrors)
  }

  /** Errors found so far followed by those of the rest of the loop. */
  function Prepend(errors: seq<SuiteError>, rest: Result<seq<SuiteError>, Fault>): Result<seq<SuiteError>, Fault> {
    match rest
    case Ok(more) => Ok(errors + more)
    case Err(f) => Err(f)
  }

  /** One more pass of the loop moves that test's errors into the prefix. */
  lemma PrependStep(errors: seq<SuiteError>, items: seq<Json>, start: nat, seen: set<Json>)
    requires items != [] && TestErrors(start, items[0], seen).Ok?
    ensures var step := TestErrors(start, items[0], seen).value;
            Prepend(errors, TestsErrors(items, start, seen))
            == Prepend(errors + step.0, TestsErrors(items[1..], start + 1, step.1))
  {
    var step := TestErrors(start, items[0], seen).value;
    match TestsErrors(items[1..], start + 1, step.1)
    case Ok(more) => assert errors + (step.0 + more) == errors + step.0 + more;
    case Err(_) =>
  }

  /** `validate_suite`, with its loop over the tests. */
  method ValidateSuite(suite: Json, probe: string -> DirState) returns (r: Result<seq<SuiteError>, Fault>)
    ensures r == Validate(suite, probe)
  {
    if !suite.JObj? {
      return Err(Fault(AttributeError, suite));
    }
    var d := suite.fields;
    var errors: seq<SuiteError> := if Truthy(Get(d, "name", JNull)) then [] else [MissingName];
    var agentDir := Get(d, "agent_dir", JNull);
    if !Truthy(agentDir) {
      errors := errors + [MissingAgentDir];
    } else if !agentDir.JStr? {
      return Err(Fault(TypeError, agentDir));
    } else {
      var state := probe(agentDir.s);
      if state == Absent {
        errors := errors + [AgentDirAbsent(agentDir.s)];
      } else if state == NotADirectory {
        errors := errors + [AgentDirNotADirectory(agentDir.s)];
      }
    }
    assert HeaderErrors(d, probe) == Ok(errors);
    var tests := Get(d, "tests", JNull);
    if !Truthy(tests) {
      errors := errors + [MissingTests];
      return Ok(errors);
    }
    var iterated := Iterate(tests);
    if iterated.Err? {
      return Err(iterated.error);
    }
    var testErrors := CheckTests(iterated.value);
    match testErrors
    case Ok(more) => r := Ok(errors + more);
    case Err(f) => r := Err(f);
  }

  /** The loop of `validate_suite` over the tests. */
  method CheckTests(items: seq<Json>) returns (r: Result<seq<SuiteError>, Fault>)
    ensures r == TestsErrors(items, 0, {})
  {
    var errors: seq<SuiteError> := [];
    var seen: set<Json> := {};
    var i := 0;
    assert items[0..] == items;
    if TestsErrors(items, 0, {}).Ok? {
      assert [] + TestsErrors(items, 0, {}).value == TestsErrors(items, 0, {}).value;
    }
    while i < |items|
      invariant 0 <= i <= |items|
      invariant TestsErrors(items, 0, {}) == Prepend(errors, TestsErrors(items[i..], i, seen))
    {
      assert items[i..][0] == items[i] && items[i..][1..] == items[i + 1..];
      ghost var step := TestErrors(i, items[i], seen);
      ghost var was, seenBefore := errors, seen;
      var test := items[i];
      if !test.JObj? {
        errors := errors + [TestNotObject(i)];
      } else {
        var id := TestId(test);
        if !Truthy(id) {
          errors := errors + [TestMissingId(i)];
        } else if !Hashable(id) {
          return Err(Fault(TypeError, id));
        } else if HashKey(id) in seen {
          errors := errors + [DuplicateId(id)];
        } else {
          seen := seen + {HashKey(id)};
        }
        if !Truthy(Get(test.fields, "prompt", JNull)) {
          errors := errors + [TestMissingPrompt(Label(i, test))];
        }
      }
      assert step.Ok? && step.value.1 == seen && errors == was + step.value.0;
      PrependStep(was, items[i..], i, seenBefore);
      i := i + 1;
    }
    assert items[i..] == [] && errors + [] == errors;
    return Ok(errors);
  }

  /** The declarative rules: what a suite must look like for validation to report nothing. */
  predicate ValidSuite(suite: Json, probe: string -> DirState) {
    && suite.JObj?
    && Truthy(Get(suite.fields, "name", JNull))
    && (var agentDir := Get(suite.fields, "agent_dir", JNull);
        agentDir.JStr? && |agentDir.s| > 0 && probe(agentDir.s) == Directory)
    && (var tests := Get(suite.fields, "tests", JNull);
        Truthy(tests) && Iterate(tests).Ok? && ValidTests(Iterate(tests).value))
  }

  /** Every test passes the per-test rules and no two share an id. */
  predicate ValidTests(items: seq<Json>) {
    && (forall i :: 0 <= i < |items| ==> GoodTest(items[i]))
    && forall i, j :: 0 <= i < j < |items| ==> HashKey(TestId(items[i])) != HashKey(TestId(items[j]))
  }

  /** The ids of `items`, as the duplicate check compares them. */
  function IdSet(items: seq<Json>): set<Json> {
    set i | 0 <= i < |items| :: HashKey(TestId(items[i]))
  }

  lemma IdSetCons(items: seq<Json>)
    requires items != []
    ensures IdSet(items) == {HashKey(TestId(items[0]))} + IdSet(items[1..])
  {
    var rest := items[1..];
    forall x | x in IdSet(items) ensures x in {HashKey(TestId(items[0]))} + IdSet(rest) {
      var i :| 0 <= i < |items| && x == HashKey(TestId(items[i]));
      if i > 0 {
        assert items[i] == rest[i - 1];
      }
    }
    forall x | x in IdSet(rest) ensures x in IdSet(items) {
      var i :| 0 <= i < |rest| && x == HashKey(TestId(rest[i]));
      assert rest[i] == items[i + 1];
    }
  }

  lemma ValidTestsCons(items: seq<Json>)
    requires items != []
    ensures ValidTests(items) <==>
              GoodTest(items[0]) && HashKey(TestId(items[0])) !in IdSet(items[1..]) && ValidTests(items[1..])
  {
    var rest := items[1..];
    if ValidTests(items) {
      forall i, j | 0 <= i < j < |rest|
        ensures HashKey(TestId(rest[i])) != HashKey(TestId(rest[j]))
      {
        assert rest[i] == items[i + 1] && rest[j] == items[j + 1];
      }
      forall x | x in IdSet(rest) ensures x != HashKey(TestId(items[0])) {
        var i :| 0 <= i < |rest| && x == HashKey(TestId(rest[i]));
        assert rest[i] == items[i + 1];
      }
    }
    if GoodTest(items[0]) && HashKey(TestId(items[0])) !in IdSet(rest) && ValidTests(rest) {
      forall i | 0 <= i < |items| ensures GoodTest(items[i]) {
        if i > 0 { assert items[i] == rest[i - 1]; }
      }
      forall i, j | 0 <= i < j < |items|
        ensures HashKey(TestId(items[i])) != HashKey(TestId(items[j]))
      {
        assert items[j] == rest[j - 1];
        assert HashKey(TestId(rest[j - 1])) in IdSet(rest);
        if i > 0 { assert items[i] == rest[i - 1]; }
      }
    }
  }

  /** The loop reports nothing exactly for good tests with distinct ids none of which was seen. */
  lemma {:induction false} TestsErrorsEmpty(items: seq<Json>, start: nat, seen: set<Json>)
    ensures TestsErrors(items, start, seen) == Ok([]) <==>
              ValidTests(items) && IdSet(items) !! seen
    decreases |items|
  {
    if items != [] {
      var rest := items[1..];
      var step := TestErrors(start, items[0], seen);
      IdSetCons(items);
      ValidTestsCons(items);
      if step.Ok? && step.value.0 == [] {
        var id := HashKey(TestId(items[0]));
        var restResult := TestsErrors(rest, start + 1, step.value.1);
        assert TestsErrors(items, start, seen) == Prepend([], restResult);
        if restResult.Ok? {
          assert [] + restResult.value == restResult.value;
        }
        TestsErrorsEmpty(rest, start + 1, step.value.1);
        assert GoodTest(items[0]) && id !in seen && step.value.1 == seen + {id};
        assert (IdSet(rest) !! (seen + {id})) <==> (id !in IdSet(rest) && IdSet(rest) !! seen);
        assert (IdSet(items) !! seen) <==> (IdSet(rest) !! seen);
      }
    }
  }

  /** `validate_suite` returns the empty list exactly when the suite follows every rule. */
  lemma ValidateEmptyIffValid(suite: Json, probe: string -> DirState)
    ensures Validate(suite, probe) == Ok([]) <==> ValidSuite(suite, probe)
  {
    if suite.JObj? {
      var tests := Get(suite.fields, "tests", JNull);
      if Truthy(tests) && Iterate(tests).Ok? {
        TestsErrorsEmpty(Iterate(tests).value, 0, {});
      }
    }
  }

  /** The ids of the tests before position `k` that pass the missing-id rule. */
  function SeenIds(items: seq<Json>, k: nat): set<Json>
    requires k <= |items|
  {
    set j | 0 <= j < k && items[j].JObj? && Truthy(TestId(items[j])) :: HashKey(TestId(items[j]))
  }

  lemma SeenIdsShift(items: seq<Json>, k: nat)
    requires 0 < k <= |items|
    ensures SeenIds(items, k) == SeenIds(items[1..], k - 1)
                                 + (if items[0].JObj? && Truthy(TestId(items[0])) then {HashKey(TestId(items[0]))} else {})
  {
    var rest := items[1..];
    forall x | x in SeenIds(items, k)
      ensures x in SeenIds(rest, k - 1)
                   + (if items[0].JObj? && Truthy(TestId(items[0])) then {HashKey(TestId(items[0]))} else {})
    {
      var j :| 0 <= j < k && items[j].JObj? && Truthy(TestId(items[j])) && x == HashKey(TestId(items[j]));
      if j > 0 {
        assert items[j] == rest[j - 1];
      }
    }
    forall x | x in SeenIds(rest, k - 1) ensures x in SeenIds(items, k) {
      var j :| 0 <= j < k - 1 && rest[j].JObj? && Truthy(TestId(rest[j])) && x == HashKey(TestId(rest[j]));
      assert rest[j] == items[j + 1];
    }
  }

  /** Each entry that is not an object and each missing id is reported, under its index. */
  lemma {:induction false} ReportsShapeErrors(items: seq<Json>, start: nat, seen: set<Json>)
    requires TestsErrors(items, start, seen).Ok?
    ensures forall k :: 0 <= k < |items| && !items[k].JObj? ==>
              TestNotObject(start + k) in TestsErrors(items, start, seen).value
    ensures forall k :: 0 <= k < |items| && items[k].JObj? && !Truthy(TestId(items[k])) ==>
              TestMissingId(start + k) in TestsErrors(items, start, seen).value
    decreases |items|
  {
    if items != [] {
      var rest := items[1..];
      var step := TestErrors(start, items[0], seen).value;
      var more := TestsErrors(rest, start + 1, step.1).value;
      assert TestsErrors(items, start, seen).value == step.0 + more;
      ReportsShapeErrors(rest, start + 1, step.1);
      forall k | 0 < k < |items|
        ensures items[k] == rest[k - 1] && start + k == (start + 1) + (k - 1)
      {
      }
    }
  }

  /** Each missing prompt is reported, naming the test by its id or its index. */
  lemma {:induction false} ReportsMissingPrompts(items: seq<Json>, start: nat, seen: set<Json>)
    requires TestsErrors(items, start, seen).Ok?
    ensures forall k :: 0 <= k < |items| && items[k].JObj? && !Truthy(Get(items[k].fields, "prompt", JNull)) ==>
              TestMissingPrompt(Label(start + k, items[k])) in TestsErrors(items, start, seen).value
    decreases |items|
  {
    if items != [] {
      var rest := items[1..];
      var step := TestErrors(start, items[0], seen).value;
      var more := TestsErrors(rest, start + 1, step.1).value;
      assert TestsErrors(items, start, seen).value == step.0 + more;
      ReportsMissingPrompts(rest, start + 1, step.1);
      forall k | 0 < k < |items|
        ensures items[k] == rest[k - 1] && start + k == (start + 1) + (k - 1)
      {
      }
    }
  }

  /** Each id equal to one seen before it is reported as a duplicate. */
  lemma {:induction false} ReportsDuplicates(items: seq<Json>, start: nat, seen: set<Json>)
    requires TestsErrors(items, start, seen).Ok?
    ensures forall k :: 0 <= k < |items| && items[k].JObj? && Truthy(TestId(items[k]))
                        && HashKey(TestId(items[k])) in seen + SeenIds(items, k) ==>
              DuplicateId(TestId(items[k])) in TestsErrors(items, start, seen).value
    decreases |items|
  {
    if items != [] {
      var rest := items[1..];
      var step := TestErrors(start, items[0], seen).value;
      var more := TestsErrors(rest, start + 1, step.1).value;
      assert TestsErrors(items, start, seen).value == step.0 + more;
      ReportsDuplicates(rest, start + 1, step.1);
      assert step.1 == seen + (if items[0].JObj? && Truthy(TestId(items[0])) then {HashKey(TestId(items[0]))} else {});
      forall k | 0 < k < |items|
        ensures items[k] == rest[k - 1]
        ensures seen + SeenIds(items, k) == step.1 + SeenIds(rest, k - 1)
      {
        SeenIdsShift(items, k);
      }
      assert SeenIds(items, 0) == {};
    }
  }

  /**
   * The errors about agent_dir and name are reported exactly when those
   * fields fail their rules.
   */
  lemma HeaderReport(d: Dict, probe: string -> DirState)
    requires HeaderErrors(d, probe).Ok?
    ensures var errors := HeaderErrors(d, probe).value;
            var agentDir := Get(d, "agent_dir", JNull);
            && (MissingName in errors <==> !Truthy(Get(d, "name", JNull)))
            && (MissingAgentDir in errors <==> !Truthy(agentDir))
            && (agentDir.JStr? && |agentDir.s| > 0 ==>
                  && (probe(agentDir.s) == Absent <==> AgentDirAbsent(agentDir.s) in errors)
                  && (probe(agentDir.s) == NotADirectory <==> AgentDirNotADirectory(agentDir.s) in errors))
  {
  }
}
