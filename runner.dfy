/**
 * `run_single_test` and `run_test_suite`: each test is a task turn followed,
 * when the task turn returned a session id, by a reflection turn in the same
 * session; each test's record is written as soon as the test ends.
 *
 * The `claude` subprocess is the function `respond`, which gives the outcome
 * of the n-th call for a request; the clock is the function `clock`; the
 * results directory is the sequence of write events in `trace`.
 */
module Runner {
  import opened Wrappers
  import opened JsonValues
  import opened Text
  import opened Invoker

  const SchemaVersion: string := "1.0"
  const DefaultMaxTurns: Json := JNum(10.0)
  const ReflectionMaxTurns: Json := JNum(2.0)
  const NoSessionSuffix: string := " No session_id returned from Turn 1."
  const ReflectionPrompt: string :=
    "Now that you've completed the task, please reflect on your process:\n\n"
    + "1. **Process**: What steps did you take to answer this question?\n"
    + "2. **What Worked**: What aspects of the skill, data structure, or instructions helped you succeed?\n"
    + "3. **What Didn't Work**: What was confusing, inefficient, or required workarounds?\n"
    + "4. **Improvements**: How could the skill, data structure, or instructions be improved to make this easier?\n\n"
    + "Respond in JSON format with keys: process_steps, what_worked, what_didnt_work, "
    + "improvement_suggestions (all arrays of strings)."

  /** The "turn1" object of a record; `error == None` means the key is absent. */
  datatype TurnOneRecord = TurnOneRecord(result: Json, sessionId: Json, costUsd: real, numTurns: int, error: Option<string>)

  /** The "turn2_reflection" object of a record. */
  datatype ReflectionRecord = ReflectionRecord(result: Json, costUsd: real, error: Option<string>)

  /** The record of one test; `reflection == None` is the JSON null the record starts with. */
  datatype TestResult = TestResult(
    testId: Json,
    success: bool,
    turn1: TurnOneRecord,
    reflection: Option<ReflectionRecord>,
    totalCostUsd: real,
    durationSeconds: real,
    timestamp: string)

  /** What the clock says about a test: its rounded duration and its start time in ISO form. */
  datatype Timing = Timing(durationSeconds: real, timestamp: string)

  /**
   * Something the harness did outside itself: a `claude` call, or a record
   * written to disk (the file then holds `ToJson(record)`).
   */
  datatype Event = Invoked(request: Request) | Wrote(file: string, record: TestResult)

  /** `if turn.get("error"): record["error"] = turn["error"]` */
  function KeptError(error: Option<string>): (e: Option<string>)
    ensures e.Some? <==> error.Some? && error.value != ""
    ensures e.Some? ==> e == error
  {
    if error.Some? && error.value != "" then error else None
  }

  function ErrorField(error: Option<string>): Dict {
    match error
    case Some(e) => [("error", JStr(e))]
    case None => []
  }

  /** The record as `json.dump` writes it, keys in the order the source creates them. */
  function ToJson(r: TestResult): Json {
    JObj([
      ("schema_version", JStr(SchemaVersion)),
      ("test_id", r.testId),
      ("success", JBool(r.success)),
      ("turn1", JObj([
          ("result", r.turn1.result),
          ("session_id", r.turn1.sessionId),
          ("cost_usd", JNum(r.turn1.costUsd)),
          ("num_turns", JNum(r.turn1.numTurns as real))] + ErrorField(r.turn1.error))),
      ("turn2_reflection",
        match r.reflection
        case None => JNull
        case Some(t) => JObj([("result", t.result), ("cost_usd", JNum(t.costUsd))] + ErrorField(t.error))),
      ("total_cost_usd", JNum(r.totalCostUsd)),
      ("duration_seconds", JNum(r.durationSeconds)),
      ("timestamp", JStr(r.timestamp))])
  }

  /** `f"{test_id}.json"` */
  function FileName(rt: Runtime, testId: Json): string {
    Str(rt, testId) + ".json"
  }

  /** `suite["agent_dir"]` as `Path` accepts it. */
  function AgentDir(suite: Dict): Option<string> {
    match Lookup(suite, "agent_dir")
    case Some(JStr(s)) => Some(s)
    case _ => None
  }

  /** A test entry `run_single_test` can read: an object with an id and a prompt. */
  predicate RunnableTest(test: Json) {
    test.JObj? && Has(test.fields, "id") && Has(test.fields, "prompt")
  }

  /** What `run_test_suite` reads from the suite without checking. */
  predicate Runnable(suite: Json) {
    && suite.JObj? && AgentDir(suite.fields).Some?
    && Lookup(suite.fields, "tests").Some? && Lookup(suite.fields, "tests").value.JArr?
    && var tests := Lookup(suite.fields, "tests").value.items;
       forall i :: 0 <= i < |tests| ==> RunnableTest(tests[i])
  }

  /** `test[key]` for a test entry; `Runnable` guarantees the key is there. */
  function Field(test: Json, key: string): Json {
    if test.JObj? then Get(test.fields, key, JNull) else JNull
  }

  /** The task turn's call. */
  function TaskRequest(test: Json, suite: Dict, timeout: Option<int>): Request {
    Request(TaskPrompt(Field(test, "prompt")), AgentDir(suite).GetOr(""),
            Get(suite, "allowed_tools", JNull), Get(suite, "permission_mode", JNull),
            Get(suite, "max_turns", DefaultMaxTurns), JNull, timeout)
  }

  /** The reflection turn's call, resuming `session`. */
  function ReflectionRequest(agentDir: string, session: Json, timeout: Option<int>): Request {
    Request(ReflectionTurn, agentDir, JNull, JNull, ReflectionMaxTurns, session, timeout)
  }

  /** The text passed with `-p`. */
  function PromptText(p: Prompt): Json {
    match p
    case TaskPrompt(text) => text
    case ReflectionTurn => JStr(ReflectionPrompt)
  }

  /** A test's record together with the calls it made, in order. */
  datatype TestRun = TestRun(result: TestResult, requests: seq<Request>)

  /**
   * `run_single_test` when the calls it makes are numbered from `k`; `turn`
   * is `run_claude_command` for the n-th call of a request.
   */
  function SingleTest(turn: (nat, Request) -> TurnResult, clock: nat -> Timing, suite: Dict, timeout: Option<int>,
                      k: nat, test: Json): (run: TestRun)
    ensures 1 <= |run.requests| <= 2 && run.requests[0] == TaskRequest(test, suite, timeout)
    ensures run.result.testId == Field(test, "id")
  {
    var timing := clock(k);
    var taskRequest := TaskRequest(test, suite, timeout);
    var task := turn(k, taskRequest);
    var record := TurnOneRecord(task.result, task.sessionId, task.costUsd, task.numTurns, KeptError(task.error));
    if !Truthy(task.sessionId) then
      TestRun(
        TestResult(Field(test, "id"), false,
                   record.(error := Some(record.error.GetOr("") + NoSessionSuffix)),
                   None, task.costUsd, timing.durationSeconds, timing.timestamp),
        [taskRequest])
    else
      var reflectionRequest := ReflectionRequest(AgentDir(suite).GetOr(""), task.sessionId, timeout);
      var reflection := turn(k + 1, reflectionRequest);
      TestRun(
        TestResult(Field(test, "id"), task.success, record,
                   Some(ReflectionRecord(reflection.result, reflection.costUsd, KeptError(reflection.error))),
                   task.costUsd + reflection.costUsd, timing.durationSeconds, timing.timestamp),
        [taskRequest, reflectionRequest])
  }

  /**
   * The reflection turn runs exactly when the task turn returned a session
   * id; without one the test fails with the no-session note appended to the
   * task turn's error, and with one it succeeds exactly when the task turn
   * did, and both turns' costs are added.
   */
  lemma SessionGatesReflection(turn: (nat, Request) -> TurnResult, clock: nat -> Timing, suite: Dict,
                               timeout: Option<int>, k: nat, test: Json)
    ensures var run := SingleTest(turn, clock, suite, timeout, k, test);
            var task := turn(k, run.requests[0]);
            && (!Truthy(task.sessionId) ==>
                  && |run.requests| == 1
                  && !run.result.success
                  && run.result.reflection.None?
                  && run.result.totalCostUsd == task.costUsd
                  && run.result.turn1.error == Some(KeptError(task.error).GetOr("") + NoSessionSuffix))
            && (Truthy(task.sessionId) ==>
                  && |run.requests| == 2
                  && run.requests[1] == ReflectionRequest(AgentDir(suite).GetOr(""), task.sessionId, timeout)
                  && run.result.success == task.success
                  && run.result.reflection.Some?
                  && var reflection := turn(k + 1, run.requests[1]);
                     run.result.totalCostUsd == task.costUsd + reflection.costUsd
                     && run.result.turn1.error == KeptError(task.error))
  {
  }

  function Invocations(requests: seq<Request>): (events: seq<Event>)
    ensures |events| == |requests|
    ensures forall i :: 0 <= i < |requests| ==> events[i] == Invoked(requests[i])
  {
    if requests == [] then [] else [Invoked(requests[0])] + Invocations(requests[1..])
  }

  /** The events of one test: its calls, then the write of its record. */
  function TestEvents(rt: Runtime, run: TestRun): seq<Event> {
    Invocations(run.requests) + [Wrote(FileName(rt, run.result.testId), run.result)]
  }

  /** `len(test_id)` in the progress line: only strings, lists and dicts have a length. */
  predicate Sized(j: Json) {
    j.JStr? || j.JArr? || j.JObj?
  }

  /** The runs of the tests, the next call number, and the exception that stopped the loop, if any. */
  datatype SuiteRun = SuiteRun(runs: seq<TestRun>, calls: nat, fault: Option<Fault>)

  /**
   * The loop of `run_test_suite` over `tests`, calls numbered from `k`, where
   * `single(k, test)` runs one test. A test id without a length makes the
   * progress line raise TypeError after that test's record is written.
   */
  function RunSuite(single: (nat, Json) -> TestRun, tests: seq<Json>, k: nat): (s: SuiteRun)
    decreases |tests|
  {
    if tests == [] then SuiteRun([], k, None)
    else
      var run := single(k, tests[0]);
      if !Sized(run.result.testId) then
        SuiteRun([run], k + |run.requests|, Some(Fault(TypeError, run.result.testId)))
      else
        var rest := RunSuite(single, tests[1..], k + |run.requests|);
        SuiteRun([run] + rest.runs, rest.calls, rest.fault)
  }

  /** One step of `RunSuite`. */
  lemma RunSuiteCons(single: (nat, Json) -> TestRun, test: Json, more: seq<Json>, k: nat)
    ensures var run := single(k, test);
            var s := RunSuite(single, [test] + more, k);
            if !Sized(run.result.testId) then s == SuiteRun([run], k + |run.requests|, Some(Fault(TypeError, run.result.testId)))
            else var rest := RunSuite(single, more, k + |run.requests|);
                 s == SuiteRun([run] + rest.runs, rest.calls, rest.fault)
  {
    assert ([test] + more)[0] == test && ([test] + more)[1..] == more;
  }

  /** `RunSuite` from test `i` on. */
  lemma RunSuiteAt(single: (nat, Json) -> TestRun, tests: seq<Json>, i: nat, k: nat)
    requires i < |tests|
    ensures var run := single(k, tests[i]);
            var s := RunSuite(single, tests[i..], k);
            && (!Sized(run.result.testId) ==> s == SuiteRun([run], k + |run.requests|, Some(Fault(TypeError, run.result.testId))))
            && (Sized(run.result.testId) ==>
                  var rest := RunSuite(single, tests[i + 1..], k + |run.requests|);
                  s == SuiteRun([run] + rest.runs, rest.calls, rest.fault))
  {
    assert tests[i..] == [tests[i]] + tests[i + 1..];
    RunSuiteCons(single, tests[i], tests[i + 1..], k);
  }

  /** The runs so far followed by the run of the remaining tests. */
  function Glue(done: seq<TestRun>, s: SuiteRun): SuiteRun {
    SuiteRun(done + s.runs, s.calls, s.fault)
  }

  /**
   * After test `i`: a test whose id has a length hands over to the next one,
   * one whose id has none ends the suite.
   */
  lemma GlueNext(single: (nat, Json) -> TestRun, tests: seq<Json>, i: nat, k: nat, done: seq<TestRun>)
    requires i < |tests|
    ensures var run := single(k, tests[i]);
            var now := Glue(done, RunSuite(single, tests[i..], k));
            && (Sized(run.result.testId) ==>
                  now == Glue(done + [run], RunSuite(single, tests[i + 1..], k + |run.requests|)))
            && (!Sized(run.result.testId) ==>
                  now == SuiteRun(done + [run], k + |run.requests|, Some(Fault(TypeError, run.result.testId))))
  {
    RunSuiteAt(single, tests, i, k);
    var run := single(k, tests[i]);
    AppendAssoc(done, [run], RunSuite(single, tests[i + 1..], k + |run.requests|).runs);
  }

  /** `run_single_test` for the suite, as `RunSuite` calls it. */
  function Single(turn: (nat, Request) -> TurnResult, clock: nat -> Timing, suite: Dict, timeout: Option<int>): (nat, Json) -> TestRun {
    (k: nat, test: Json) => SingleTest(turn, clock, suite, timeout, k, test)
  }

  /** `single` gives what `run_single_test` gives. */
  ghost predicate RunsLikeSingleTest(single: (nat, Json) -> TestRun, turn: (nat, Request) -> TurnResult,
                                     clock: nat -> Timing, suite: Dict, timeout: Option<int>) {
    forall k, t {:trigger SingleTest(turn, clock, suite, timeout, k, t)} ::
      single(k, t) == SingleTest(turn, clock, suite, timeout, k, t)
  }

  lemma SingleRunsLikeSingleTest(turn: (nat, Request) -> TurnResult, clock: nat -> Timing, suite: Dict, timeout: Option<int>)
    returns (single: (nat, Json) -> TestRun)
    ensures RunsLikeSingleTest(single, turn, clock, suite, timeout)
  {
    single := Single(turn, clock, suite, timeout);
  }

  /** A suite run depends only on what `single` gives. */
  lemma {:induction false} RunSuiteAgrees(f: (nat, Json) -> TestRun, g: (nat, Json) -> TestRun, tests: seq<Json>, k: nat)
    requires forall n, t :: f(n, t) == g(n, t)
    ensures RunSuite(f, tests, k) == RunSuite(g, tests, k)
    decreases |tests|
  {
    if tests != [] {
      RunSuiteAgrees(f, g, tests[1..], k + |f(k, tests[0]).requests|);
    }
  }

  /**
   * The suite stops only at a test whose id has no length, right after that
   * test, with the TypeError `len` raises; otherwise every test runs.
   */
  lemma {:induction false} SuiteRunStops(single: (nat, Json) -> TestRun, tests: seq<Json>, k: nat)
    ensures var s := RunSuite(single, tests, k);
            && |s.runs| <= |tests|
            && (s.fault.None? ==> |s.runs| == |tests|)
            && (s.fault.Some? ==> 0 < |s.runs| && !Sized(s.runs[|s.runs| - 1].result.testId)
                                  && s.fault == Some(Fault(TypeError, s.runs[|s.runs| - 1].result.testId)))
            && (forall i :: 0 <= i < |s.runs| - 1 ==> Sized(s.runs[i].result.testId))
    decreases |tests|
  {
    if tests != [] {
      var run := single(k, tests[0]);
      if Sized(run.result.testId) {
        SuiteRunStops(single, tests[1..], k + |run.requests|);
      }
    }
  }

  /** When each run records its test's id, the records carry the tests' ids in suite order. */
  lemma {:induction false} SuiteRunIds(single: (nat, Json) -> TestRun, tests: seq<Json>, k: nat)
    requires forall n, t :: single(n, t).result.testId == Field(t, "id")
    ensures var s := RunSuite(single, tests, k);
            forall i :: 0 <= i < |s.runs| && i < |tests| ==> s.runs[i].result.testId == Field(tests[i], "id")
    decreases |tests|
  {
    if tests != [] {
      var run := single(k, tests[0]);
      if Sized(run.result.testId) {
        SuiteRunIds(single, tests[1..], k + |run.requests|);
        assert forall i :: 0 <= i < |tests| - 1 ==> tests[1..][i] == tests[i + 1];
      }
    }
  }

  /** `run_single_test` records the id of the test it ran. */
  lemma SingleRecordsId(turn: (nat, Request) -> TurnResult, clock: nat -> Timing, suite: Dict, timeout: Option<int>)
    ensures var single := Single(turn, clock, suite, timeout);
            forall n, t :: single(n, t).result.testId == Field(t, "id")
  {
  }

  function Results(runs: seq<TestRun>): (rs: seq<TestResult>)
    ensures |rs| == |runs| && forall i :: 0 <= i < |runs| ==> rs[i] == runs[i].result
  {
    if runs == [] then [] else [runs[0].result] + Results(runs[1..])
  }

  /** The events of the runs, test after test. */
  function EventsOf(rt: Runtime, runs: seq<TestRun>): (events: seq<Event>)
    ensures |events| >= |runs|
  {
    if runs == [] then [] else TestEvents(rt, runs[0]) + EventsOf(rt, runs[1..])
  }

  /** The number of successful records. */
  function Passed(results: seq<TestResult>): nat {
    if results == [] then 0 else (if results[0].success then 1 else 0) + Passed(results[1..])
  }

  /** The sum of the records' total costs. */
  function TotalCost(results: seq<TestResult>): real {
    if results == [] then 0.0 else results[0].totalCostUsd + TotalCost(results[1..])
  }

  lemma {:induction false} EventsOfAppend(rt: Runtime, a: seq<TestRun>, b: seq<TestRun>)
    ensures EventsOf(rt, a + b) == EventsOf(rt, a) + EventsOf(rt, b)
    ensures Results(a + b) == Results(a) + Results(b)
    decreases |a|
  {
    if a == [] {
      assert a + b == b;
    } else {
      var first := TestEvents(rt, a[0]);
      assert (a + b)[0] == a[0] && (a + b)[1..] == a[1..] + b;
      EventsOfAppend(rt, a[1..], b);
      assert EventsOf(rt, a + b) == first + (EventsOf(rt, a[1..]) + EventsOf(rt, b));
      AppendAssoc(first, EventsOf(rt, a[1..]), EventsOf(rt, b));
    }
  }

  lemma {:induction false} PassedAppend(a: seq<TestResult>, b: seq<TestResult>)
    ensures Passed(a + b) == Passed(a) + Passed(b)
    ensures TotalCost(a + b) == TotalCost(a) + TotalCost(b)
    decreases |a|
  {
    if a == [] {
      assert a + b == b;
    } else {
      assert (a + b)[1..] == a[1..] + b;
      PassedAppend(a[1..], b);
    }
  }

  /** Appending one more run to a suite's runs. */
  lemma RunsSnoc(rt: Runtime, runs: seq<TestRun>, run: TestRun)
    ensures EventsOf(rt, runs + [run]) == EventsOf(rt, runs) + TestEvents(rt, run)
    ensures Results(runs + [run]) == Results(runs) + [run.result]
  {
    EventsOfAppend(rt, runs, [run]);
    assert [run][1..] == [];
    assert EventsOf(rt, [run]) == TestEvents(rt, run) + [];
    assert Results([run]) == [run.result];
  }

  /** One more run adds its record to the count of successes and to the cost. */
  lemma ResultsSnoc(runs: seq<TestRun>, run: TestRun)
    ensures Results(runs + [run]) == Results(runs) + [run.result]
    ensures Passed(Results(runs + [run])) == Passed(Results(runs)) + (if run.result.success then 1 else 0)
    ensures TotalCost(Results(runs + [run])) == TotalCost(Results(runs)) + run.result.totalCostUsd
  {
    assert Results(runs + [run]) == Results(runs) + [run.result];
    PassedAppend(Results(runs), [run.result]);
    assert [run.result][1..] == [];
  }

  /** The counters after one more test: `passed` for a success, `total_cost` by its cost. */
  method Count(ghost runs: seq<TestRun>, ghost run: TestRun, result: TestResult,
               results: seq<TestResult>, passed: nat, totalCost: real)
    returns (results': seq<TestResult>, passed': nat, totalCost': real)
    requires result == run.result && results == Results(runs)
    requires passed == Passed(results) && totalCost == TotalCost(results)
    ensures results' == Results(runs + [run])
    ensures passed' == Passed(results') && totalCost' == TotalCost(results')
  {
    ResultsSnoc(runs, run);
    passed' := if result.success then passed + 1 else passed;
    totalCost' := totalCost + result.totalCostUsd;
    results' := results + [result];
  }

  /** The trace after one more test. */
  lemma TraceStep(rt: Runtime, start: seq<Event>, runs: seq<TestRun>, run: TestRun)
    ensures (start + EventsOf(rt, runs)) + TestEvents(rt, run) == start + EventsOf(rt, runs + [run])
  {
    AppendAssoc(start, EventsOf(rt, runs), TestEvents(rt, run));
    RunsSnoc(rt, runs, run);
  }

  lemma AppendAssoc<T>(a: seq<T>, b: seq<T>, c: seq<T>)
    ensures (a + b) + c == a + (b + c)
  {
  }

  /** The records written by a sequence of events, in order. */
  function Writes(events: seq<Event>): seq<TestResult> {
    if events == [] then []
    else (if events[0].Wrote? then [events[0].record] else []) + Writes(events[1..])
  }

  lemma {:induction false} WritesAppend(a: seq<Event>, b: seq<Event>)
    ensures Writes(a + b) == Writes(a) + Writes(b)
    decreases |a|
  {
    if a == [] {
      assert a + b == b;
    } else {
      var first := if a[0].Wrote? then [a[0].record] else [];
      assert (a + b)[0] == a[0] && (a + b)[1..] == a[1..] + b;
      WritesAppend(a[1..], b);
      assert Writes(a + b) == first + (Writes(a[1..]) + Writes(b));
      AppendAssoc(first, Writes(a[1..]), Writes(b));
    }
  }

  lemma {:induction false} WritesOfInvocations(requests: seq<Request>)
    ensures Writes(Invocations(requests)) == []
    decreases |requests|
  {
    if requests != [] {
      assert Invocations(requests)[1..] == Invocations(requests[1..]);
      WritesOfInvocations(requests[1..]);
    }
  }

  lemma WritesOfTest(rt: Runtime, run: TestRun)
    ensures Writes(TestEvents(rt, run)) == [run.result]
  {
    var write := Wrote(FileName(rt, run.result.testId), run.result);
    WritesOfInvocations(run.requests);
    WritesAppend(Invocations(run.requests), [write]);
    assert Writes([write]) == [run.result];
  }

  /** The events of a suite run write each test's record once, in suite order. */
  lemma {:induction false} WritesOfRuns(rt: Runtime, runs: seq<TestRun>)
    ensures Writes(EventsOf(rt, runs)) == Results(runs)
    decreases |runs|
  {
    if runs != [] {
      WritesOfRuns(rt, runs[1..]);
      WritesOfTest(rt, runs[0]);
      WritesAppend(TestEvents(rt, runs[0]), EventsOf(rt, runs[1..]));
    }
  }

  /**
   * Each record is written before the next test starts: the events up to
   * test `j` have written exactly the records of tests 0 .. j-1, in order,
   * and what follows them starts with test `j`'s first call.
   */
  lemma WrittenBeforeNext(rt: Runtime, runs: seq<TestRun>, j: nat)
    requires j < |runs| && |runs[j].requests| >= 1
    ensures EventsOf(rt, runs) == EventsOf(rt, runs[..j]) + EventsOf(rt, runs[j..])
    ensures EventsOf(rt, runs[j..])[0] == Invoked(runs[j].requests[0])
    ensures Writes(EventsOf(rt, runs[..j])) == Results(runs[..j])
  {
    assert runs == runs[..j] + runs[j..];
    EventsOfAppend(rt, runs[..j], runs[j..]);
    WritesOfRuns(rt, runs[..j]);
    assert runs[j..][0] == runs[j];
  }

  /** The test harness's view of the outside world. */
  class Harness {
    const rt: Runtime
    const respond: (nat, Request) -> ProcessOutcome
    const clock: nat -> Timing
    /** `run_claude_command` for the n-th call of a request. */
    const turn: (nat, Request) -> TurnResult
    var calls: nat
    var trace: seq<Event>

    constructor (rt: Runtime, respond: (nat, Request) -> ProcessOutcome, clock: nat -> Timing)
      ensures this.rt == rt && this.respond == respond && this.clock == clock
      ensures forall n, q :: turn(n, q) == Normalize(rt, q.timeout, respond(n, q))
      ensures calls == 0 && trace == []
    {
      this.rt := rt;
      this.respond := respond;
      this.clock := clock;
      this.turn := (n: nat, q: Request) => Normalize(rt, q.timeout, respond(n, q));
      calls := 0;
      trace := [];
    }

    /** `run_claude_command`: one call of the CLI. */
    method RunClaudeCommand(request: Request) returns (t: TurnResult)
      modifies this
      ensures t == turn(old(calls), request)
      ensures calls == old(calls) + 1 && trace == old(trace) + [Invoked(request)]
    {
      t := turn(calls, request);
      calls := calls + 1;
      trace := trace + [Invoked(request)];
    }

    /** `write_test_result`: the record goes to `<test_id>.json` at once. */
    method WriteTestResult(testId: Json, record: TestResult)
      modifies this
      ensures calls == old(calls)
      ensures trace == old(trace) + [Wrote(FileName(rt, testId), record)]
    {
      trace := trace + [Wrote(FileName(rt, testId), record)];
    }

    /** `run_single_test`: the task turn, then the reflection turn when there is a session. */
    method RunSingleTest(test: Json, suite: Dict, timeout: Option<int>) returns (r: TestResult)
      requires RunnableTest(test) && AgentDir(suite).Some?
      modifies this
      ensures var run := SingleTest(turn, clock, suite, timeout, old(calls), test);
              r == run.result && calls == old(calls) + |run.requests|
              && trace == old(trace) + Invocations(run.requests)
    {
      var timing := clock(calls);
      var testId := Lookup(test.fields, "id").value;
      var agentDir := AgentDir(suite).value;
      var taskRequest := Request(TaskPrompt(Lookup(test.fields, "prompt").value), agentDir,
                                 Get(suite, "allowed_tools", JNull), Get(suite, "permission_mode", JNull),
                                 Get(suite, "max_turns", DefaultMaxTurns), JNull, timeout);
      assert taskRequest == TaskRequest(test, suite, timeout);
      var task := RunClaudeCommand(taskRequest);
      var record := TurnOneRecord(task.result, task.sessionId, task.costUsd, task.numTurns, None);
      if KeptError(task.error).Some? {
        record := record.(error := task.error);
      }
      var totalCost := task.costUsd;
      var success := false;
      var reflection: Option<ReflectionRecord> := None;
      if !Truthy(task.sessionId) {
        record := record.(error := Some(record.error.GetOr("") + NoSessionSuffix));
        assert trace == old(trace) + Invocations([taskRequest]);
      } else {
        var reflectionRequest := ReflectionRequest(agentDir, task.sessionId, timeout);
        var turn2 := RunClaudeCommand(reflectionRequest);
        var second := ReflectionRecord(turn2.result, turn2.costUsd, None);
        if KeptError(turn2.error).Some? {
          second := second.(error := turn2.error);
        }
        reflection := Some(second);
        totalCost := totalCost + turn2.costUsd;
        success := task.success;
        assert trace == old(trace) + Invocations([taskRequest, reflectionRequest]);
      }
      r := TestResult(testId, success, record, reflection, totalCost, timing.durationSeconds, timing.timestamp);
    }

    /** One iteration of `run_test_suite`'s loop: run the test, then write its record. */
    method RunAndWrite(test: Json, suite: Dict, timeout: Option<int>, ghost single: (nat, Json) -> TestRun)
      returns (result: TestResult)
      requires RunnableTest(test) && AgentDir(suite).Some?
      requires RunsLikeSingleTest(single, turn, clock, suite, timeout)
      modifies this
      ensures var run := single(old(calls), test);
              result == run.result && calls == old(calls) + |run.requests|
              && trace == old(trace) + TestEvents(rt, run)
    {
      var testId := Lookup(test.fields, "id").value;
      result := RunSingleTest(test, suite, timeout);
      WriteTestResult(testId, result);
    }

    /**
     * Test `i` of the suite loop: runs and writes it, and carries the loop's
     * account of the suite (`whole`, the runs so far `runs`, the trace since
     * `start`) over to test `i + 1`.
     */
    method SuiteStep(tests: seq<Json>, i: nat, suite: Dict, timeout: Option<int>, ghost single: (nat, Json) -> TestRun,
                     ghost start: seq<Event>, ghost runs: seq<TestRun>, ghost whole: SuiteRun)
      returns (result: TestResult, ghost run: TestRun)
      requires i < |tests| && RunnableTest(tests[i]) && AgentDir(suite).Some?
      requires RunsLikeSingleTest(single, turn, clock, suite, timeout)
      requires whole == Glue(runs, RunSuite(single, tests[i..], calls))
      requires trace == start + EventsOf(rt, runs)
      modifies this
      ensures run == single(old(calls), tests[i]) && result == run.result
      ensures trace == start + EventsOf(rt, runs + [run])
      ensures Sized(result.testId) ==> whole == Glue(runs + [run], RunSuite(single, tests[i + 1..], calls))
      ensures !Sized(result.testId) ==> whole == SuiteRun(runs + [run], calls, Some(Fault(TypeError, result.testId)))
    {
      run := single(calls, tests[i]);
      GlueNext(single, tests, i, calls, runs);
      TraceStep(rt, start, runs, run);
      result := RunAndWrite(tests[i], suite, timeout, single);
    }

    /**
     * `run_test_suite`'s loop: runs the tests in order, writing each record
     * before the next test starts, and counts passes and cost.
     */
    method RunTests(tests: seq<Json>, suite: Dict, timeout: Option<int>, ghost single: (nat, Json) -> TestRun)
      returns (r: Result<seq<TestResult>, Fault>, passed: nat, totalCost: real)
      requires forall i :: 0 <= i < |tests| ==> RunnableTest(tests[i])
      requires AgentDir(suite).Some?
      requires RunsLikeSingleTest(single, turn, clock, suite, timeout)
      modifies this
      ensures var s := RunSuite(single, tests, old(calls));
              && trace == old(trace) + EventsOf(rt, s.runs)
              && calls == s.calls
              && r == (if s.fault.Some? then Err(s.fault.value) else Ok(Results(s.runs)))
              && passed == Passed(Results(s.runs)) && totalCost == TotalCost(Results(s.runs))
    {
      ghost var whole := RunSuite(single, tests, calls);
      ghost var runs: seq<TestRun> := [];
      var results: seq<TestResult> := [];
      passed, totalCost := 0, 0.0;
      var i := 0;
      assert tests[0..] == tests;
      assert whole == Glue(runs, RunSuite(single, tests[i..], calls));
      while i < |tests|
        invariant 0 <= i <= |tests| && |runs| == i && results == Results(runs)
        invariant trace == old(trace) + EventsOf(rt, runs)
        invariant whole == Glue(runs, RunSuite(single, tests[i..], calls))
        invariant passed == Passed(results) && totalCost == TotalCost(results)
      {
        var result;
        ghost var run;
        result, run := SuiteStep(tests, i, suite, timeout, single, old(trace), runs, whole);
        results, passed, totalCost := Count(runs, run, result, results, passed, totalCost);
        runs := runs + [run];
        if !Sized(result.testId) {
          return Err(Fault(TypeError, result.testId)), passed, totalCost;
        }
        i := i + 1;
      }
      assert tests[i..] == [];
      assert runs + [] == runs;
      r := Ok(results);
    }

    /** `run_test_suite` on a suite that passed validation. */
    method RunTestSuite(suite: Json, timeout: Option<int>) returns (r: Result<seq<TestResult>, Fault>, passed: nat, totalCost: real)
      requires Runnable(suite)
      modifies this
      ensures var s := RunSuite(Single(turn, clock, suite.fields, timeout), Lookup(suite.fields, "tests").value.items, old(calls));
              && trace == old(trace) + EventsOf(rt, s.runs)
              && calls == s.calls
              && r == (if s.fault.Some? then Err(s.fault.value) else Ok(Results(s.runs)))
              && passed == Passed(Results(s.runs)) && totalCost == TotalCost(Results(s.runs))
    {
      var tests := Lookup(suite.fields, "tests").value.items;
      ghost var single := SingleRunsLikeSingleTest(turn, clock, suite.fields, timeout);
      RunSuiteAgrees(single, Single(turn, clock, suite.fields, timeout), tests, calls);
      r, passed, totalCost := RunTests(tests, suite.fields, timeout, single);
    }
  }
}
