/**
 * How the stages fit together: a suite that passes validation can be run, and
 * the records the runner writes are read by the standalone aggregator the
 * way the inline one reads them.
 */
module Pipeline {
  import opened Wrappers
  import opened JsonValues
  import opened Runner
  import SuiteValidation
  import Statistics
  import FailedTests
  import InlineAggregation
  import Invoker

  /** A suite `validate_suite` accepts has everything `run_test_suite` reads from it. */
  lemma ValidatedSuiteRuns(suite: Json, probe: string -> SuiteValidation.DirState)
    requires SuiteValidation.ValidSuite(suite, probe)
    ensures Runnable(suite)
  {
    var tests := Get(suite.fields, "tests", JNull);
    var items := Iterate(tests).value;
    assert SuiteValidation.ValidTests(items);
    IterableShape(tests);
    assert Has(suite.fields, "tests");
    forall i | 0 <= i < |items|
      ensures RunnableTest(items[i])
    {
      assert SuiteValidation.GoodTest(items[i]);
    }
  }

  /** `for test in tests` over a truthy value that is not a list visits a non-dict first. */
  lemma IterableShape(tests: Json)
    requires Truthy(tests) && Iterate(tests).Ok?
    ensures tests.JArr? || (|Iterate(tests).value| > 0 && !Iterate(tests).value[0].JObj?)
  {
    if tests.JObj? {
      var d := tests.fields;
      assert Has(d, d[|d| - 1].0);
    }
  }

  /** The records as the dicts they are written as. */
  function Records(results: seq<TestResult>): (records: seq<Json>)
    ensures |records| == |results|
    ensures forall i :: 0 <= i < |results| ==> records[i] == ToJson(results[i])
  {
    if results == [] then [] else [ToJson(results[0])] + Records(results[1..])
  }

  /** The records of a prefix are the prefix of the records. */
  lemma RecordsPrefix(results: seq<TestResult>, n: nat)
    requires n <= |results|
    ensures Records(results)[..n] == Records(results[..n])
  {
    forall i | 0 <= i < n
      ensures Records(results)[..n][i] == Records(results[..n])[i]
    {
      assert results[..n][i] == results[i];
    }
  }

  /** What the aggregators read from one record. */
  lemma RecordFields(r: TestResult)
    ensures ToJson(r).JObj?
    ensures Statistics.Succeeded(ToJson(r).fields) == r.success
    ensures Get(ToJson(r).fields, "total_cost_usd", JNum(0.0)) == JNum(r.totalCostUsd)
    ensures Get(ToJson(r).fields, "duration_seconds", JNum(0.0)) == JNum(r.durationSeconds)
    ensures Statistics.TurnsOf(ToJson(r)) == Ok(r.turn1.numTurns as real)
    ensures Get(ToJson(r).fields, "test_id", JStr(FailedTests.UnknownTestId)) == r.testId
  {
    var d := ToJson(r).fields;
    LookupAt(d, "success", 2);
    LookupAt(d, "total_cost_usd", 5);
    LookupAt(d, "duration_seconds", 6);
    LookupAt(d, "test_id", 1);
    LookupAt(d, "turn1", 3);
    var t := d[3].1;
    LookupAt(t.fields, "num_turns", 3);
  }

  lemma {:induction false} PassedOfRecords(results: seq<TestResult>)
    ensures Statistics.PassedCount(Records(results)) == Ok(Passed(results))
    decreases |results|
  {
    if results != [] {
      RecordFields(results[0]);
      PassedOfRecords(results[1..]);
      assert Records(results)[1..] == Records(results[1..]);
    }
  }

  lemma {:induction false} CostOfRecords(results: seq<TestResult>)
    ensures Statistics.SumField(Records(results), "total_cost_usd") == Ok(TotalCost(results))
    decreases |results|
  {
    if results != [] {
      RecordFields(results[0]);
      CostOfRecords(results[1..]);
      assert Records(results)[1..] == Records(results[1..]);
    }
  }

  lemma {:induction false} DurationOfRecords(results: seq<TestResult>)
    ensures Statistics.SumField(Records(results), "duration_seconds") == Ok(InlineAggregation.TotalDuration(results))
    decreases |results|
  {
    if results != [] {
      RecordFields(results[0]);
      DurationOfRecords(results[1..]);
      assert Records(results)[1..] == Records(results[1..]);
    }
  }

  lemma {:induction false} TurnsOfRecords(results: seq<TestResult>)
    ensures Statistics.TotalTurns(Records(results)).Ok?
    decreases |results|
  {
    if results != [] {
      var front := results[..|results| - 1];
      RecordFields(results[|results| - 1]);
      TurnsOfRecords(front);
      RecordsPrefix(results, |results| - 1);
    }
  }

  /**
   * The statistics of the runner's records never raise, and agree with the
   * inline summary on the count of tests, passes, failures, cost and duration.
   */
  lemma StatisticsAgree(results: seq<TestResult>)
    requires results != []
    ensures Statistics.StatsOf(Records(results)).Ok?
    ensures var s := Statistics.StatsOf(Records(results)).value;
            var t := InlineAggregation.SummaryOf(results);
            && s.totalTests == t.totalTests && s.passed == t.passed && s.failed == t.failed
            && s.totalCostUsd == t.totalCostUsd && s.totalDurationSeconds == t.totalDurationSeconds
  {
    PassedOfRecords(results);
    CostOfRecords(results);
    DurationOfRecords(results);
    TurnsOfRecords(results);
    InlineAggregation.SummaryCounts(results);
  }

  /** The standalone failure list of the runner's records, with the ids the inline one gives. */
  lemma {:induction false} FailuresAgree(results: seq<TestResult>)
    ensures FailedTests.FailedOf(Records(results)).Ok?
    ensures var a := FailedTests.FailedOf(Records(results)).value;
            var b := InlineAggregation.FailuresOf(results);
            && |a| == |b| && forall i :: 0 <= i < |a| ==> a[i].testId == b[i].testId
    decreases |results|
  {
    if results != [] {
      var front := results[..|results| - 1];
      var last := results[|results| - 1];
      FailuresAgree(front);
      RecordsPrefix(results, |results| - 1);
      RecordFailure(last);
    }
  }

  /** A record yields one standalone entry, for its own id, exactly when it failed. */
  lemma RecordFailure(r: TestResult)
    ensures FailedTests.FailureOf(ToJson(r)).Ok?
    ensures FailedTests.FailureOf(ToJson(r)).value.Some? <==> !r.success
    ensures FailedTests.FailureOf(ToJson(r)).value.Some? ==> FailedTests.FailureOf(ToJson(r)).value.value.testId == r.testId
  {
    RecordFields(r);
    LookupAt(ToJson(r).fields, "turn1", 3);
  }

  /**
   * A test whose task turn returned no session id leaves a record that makes
   * the inline aggregation, as written, raise.
   */
  lemma NoSessionRecordCrashes(rt: Runtime, turn: (nat, Invoker.Request) -> Invoker.TurnResult, clock: nat -> Timing,
                               suite: Dict, timeout: Option<int>, k: nat, test: Json, results: seq<TestResult>, i: nat)
    requires i < |results| && results[i] == SingleTest(turn, clock, suite, timeout, k, test).result
    requires !Truthy(turn(k, TaskRequest(test, suite, timeout)).sessionId)
    ensures InlineAggregation.AggregateAsWritten(rt, results).Err?
  {
    SessionGatesReflection(turn, clock, suite, timeout, k, test);
    InlineAggregation.NoSessionCrashes(rt, results, i);
  }
}
