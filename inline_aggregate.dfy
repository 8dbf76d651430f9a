/**
 * The runner's own `aggregate_results(results, results_dir)`: a summary of the
 * run, the failed tests, and the suggestion lists of the reflections, each
 * list free of repeats and in order of first appearance. It reads the records
 * the suite loop returned, as the dicts written to disk.
 */
module InlineAggregation {
  import opened Wrappers
  import opened JsonValues
  import opened Text
  import opened Fences
  import opened Runner

  const UnknownError: string := "Unknown error"

  /** The "summary" object. */
  datatype Summary = Summary(totalTests: nat, passed: nat, failed: nat, totalCostUsd: real, totalDurationSeconds: real)

  /** An entry of "failed_tests". */
  datatype FailedEntry = FailedEntry(testId: Json, error: Json)

  /** The three lists the reflections fill. */
  datatype Lists = Lists(improvementSuggestions: seq<Json>, whatWorked: seq<Json>, whatDidntWork: seq<Json>)

  const NoLists: Lists := Lists([], [], [])

  /** The returned aggregation, without its schema version and clock-dependent timestamp. */
  datatype Aggregation = Aggregation(summary: Summary, failedTests: seq<FailedEntry>, lists: Lists)

  /** `sum(1 for r in results if not r["success"])` */
  function FailedCount(results: seq<TestResult>): nat {
    if results == [] then 0 else (if results[0].success then 0 else 1) + FailedCount(results[1..])
  }

  /** `sum(r["duration_seconds"] for r in results)` */
  function TotalDuration(results: seq<TestResult>): real {
    if results == [] then 0.0 else results[0].durationSeconds + TotalDuration(results[1..])
  }

  function SummaryOf(results: seq<TestResult>): Summary {
    Summary(|results|, Passed(results), FailedCount(results), TotalCost(results), TotalDuration(results))
  }

  /** Every record is counted as passed or as failed, never both. */
  lemma {:induction false} SummaryCounts(results: seq<TestResult>)
    ensures SummaryOf(results).passed + SummaryOf(results).failed == SummaryOf(results).totalTests
    ensures SummaryOf(results).failed == 0 <==> forall i :: 0 <= i < |results| ==> results[i].success
    decreases |results|
  {
    if results != [] {
      SummaryCounts(results[1..]);
      assert forall i :: 0 < i < |results| ==> results[i] == results[1..][i - 1];
      assert forall i :: 0 <= i < |results| - 1 ==> results[1..][i] == results[i + 1];
    }
  }

  /** Python's `==` on the values of a list, at the top level: `True == 1`, `False == 0`. */
  predicate ContainsEq(list: seq<Json>, x: Json) {
    exists i :: 0 <= i < |list| && HashKey(list[i]) == HashKey(x)
  }

  /** No two entries are equal in Python's sense. */
  predicate DistinctEq(list: seq<Json>) {
    forall i, j :: 0 <= i < j < |list| ==> HashKey(list[i]) != HashKey(list[j])
  }

  /** `for x in items: if x not in list: list.append(x)` */
  function AddNew(list: seq<Json>, items: seq<Json>): seq<Json>
    decreases |items|
  {
    if items == [] then list
    else
      var l := AddNew(list, items[..|items| - 1]);
      var x := items[|items| - 1];
      if ContainsEq(l, x) then l else l + [x]
  }

  /**
   * Adding keeps the list free of repeats, keeps what it held in place, and
   * leaves it holding exactly what it held and what was offered.
   */
  lemma {:induction false} AddNewProps(list: seq<Json>, items: seq<Json>)
    ensures DistinctEq(list) ==> DistinctEq(AddNew(list, items))
    ensures list <= AddNew(list, items)
    ensures forall x :: ContainsEq(AddNew(list, items), x) <==> ContainsEq(list, x) || ContainsEq(items, x)
    decreases |items|
  {
    if items != [] {
      var front := items[..|items| - 1];
      var x := items[|items| - 1];
      AddNewProps(list, front);
      var l := AddNew(list, front);
      assert forall k :: 0 <= k < |front| ==> front[k] == items[k];
      forall y
        ensures ContainsEq(items, y) <==> ContainsEq(front, y) || HashKey(x) == HashKey(y)
      {
        if ContainsEq(items, y) {
          var k :| 0 <= k < |items| && HashKey(items[k]) == HashKey(y);
          if k < |front| {
            assert HashKey(front[k]) == HashKey(y);
          }
        }
      }
      if !ContainsEq(l, x) {
        forall y
          ensures ContainsEq(l + [x], y) <==> ContainsEq(l, y) || HashKey(x) == HashKey(y)
        {
          if HashKey(x) == HashKey(y) {
            assert (l + [x])[|l|] == x;
          }
          if ContainsEq(l, y) {
            var k :| 0 <= k < |l| && HashKey(l[k]) == HashKey(y);
            assert (l + [x])[k] == l[k];
          }
        }
      }
    }
  }

  /** `key in d`, then every item of `d[key]` added; a value that cannot be iterated raises TypeError. */
  function AddKey(d: Dict, key: string, list: seq<Json>): Result<seq<Json>, Fault> {
    if !Has(d, key) then Ok(list)
    else
      var items :- Iterate(Lookup(d, key).value);
      Ok(AddNew(list, items))
  }

  /**
   * What one record's reflection adds. A reflection that is not a dict, or a
   * truthy text that is not a string, raises AttributeError; only a JSON
   * decoding error is caught.
   */
  function ReflectionStep(rt: Runtime, lists: Lists, reflection: Json): Result<Lists, Fault> {
    if !reflection.JObj? then Err(Fault(AttributeError, reflection))
    else
      var text := Get(reflection.fields, "result", JStr(""));
      if !Truthy(text) then Ok(lists)
      else if !text.JStr? then Err(Fault(AttributeError, text))
      else
        match rt.loads(FenceStripped(text.s))
        case Some(JObj(d)) =>
          var s :- AddKey(d, "improvement_suggestions", lists.improvementSuggestions);
          var w :- AddKey(d, "what_worked", lists.whatWorked);
          var n :- AddKey(d, "what_didnt_work", lists.whatDidntWork);
          Ok(Lists(s, w, n))
        case _ => Ok(lists)
  }

  /** `result.get("turn1", {}).get("error", "Unknown error")` */
  function TurnOneError(r: TestResult): Result<Json, Fault> {
    var turn1 := Get(ToJson(r).fields, "turn1", JObj([]));
    if turn1.JObj? then Ok(Get(turn1.fields, "error", JStr(UnknownError)))
    else Err(Fault(AttributeError, turn1))
  }

  /**
   * `result.get("turn2_reflection", {})`; with `orEmpty` the reflection is
   * also replaced by `{}` when it is None, as `... or {}` would.
   */
  function ReflectionOf(r: TestResult, orEmpty: bool): Json {
    var v := Get(ToJson(r).fields, "turn2_reflection", JObj([]));
    if orEmpty && v == JNull then JObj([]) else v
  }

  /** What the loop over `results` has built so far. */
  datatype Collected = Collected(failedTests: seq<FailedEntry>, lists: Lists)

  function FailedStep(failed: seq<FailedEntry>, r: TestResult): Result<seq<FailedEntry>, Fault> {
    if r.success then Ok(failed)
    else
      var error :- TurnOneError(r);
      Ok(failed + [FailedEntry(r.testId, error)])
  }

  /** The loop over the records, or the exception that ends it. */
  function Collect(rt: Runtime, results: seq<TestResult>, orEmpty: bool): Result<Collected, Fault>
    decreases |results|
  {
    if results == [] then Ok(Collected([], NoLists))
    else
      var r := results[|results| - 1];
      var acc :- Collect(rt, results[..|results| - 1], orEmpty);
      var failed :- FailedStep(acc.failedTests, r);
      var lists :- ReflectionStep(rt, acc.lists, ReflectionOf(r, orEmpty));
      Ok(Collected(failed, lists))
  }

  /** `aggregate_results(results, results_dir)` as written. */
  function AggregateAsWritten(rt: Runtime, results: seq<TestResult>): Result<Aggregation, Fault> {
    var c :- Collect(rt, results, false);
    Ok(Aggregation(SummaryOf(results), c.failedTests, c.lists))
  }

  /** `aggregate_results` with a missing reflection read as `{}`. */
  function Aggregate(rt: Runtime, results: seq<TestResult>): Result<Aggregation, Fault> {
    var c :- Collect(rt, results, true);
    Ok(Aggregation(SummaryOf(results), c.failedTests, c.lists))
  }

  /** The record stores turn 1 as a dict, whose "error" is turn 1's error when kept. */
  lemma RecordTurnOne(r: TestResult)
    ensures TurnOneError(r) == Ok(JStr(r.turn1.error.GetOr(UnknownError)))
  {
    var d := ToJson(r).fields;
    LookupAt(d, "turn1", 3);
    var t := [("result", r.turn1.result), ("session_id", r.turn1.sessionId),
              ("cost_usd", JNum(r.turn1.costUsd)), ("num_turns", JNum(r.turn1.numTurns as real))];
    var f := t + ErrorField(r.turn1.error);
    assert Get(d, "turn1", JObj([])) == JObj(f);
    if r.turn1.error.Some? {
      LookupAt(f, "error", 4);
    } else {
      assert f == t;
      HasIndex(f, "error");
    }
  }

  /** The record stores the reflection as a dict, or as None when turn 2 did not run. */
  lemma RecordTurnTwo(r: TestResult)
    ensures r.reflection.None? ==> ReflectionOf(r, false) == JNull && ReflectionOf(r, true) == JObj([])
    ensures r.reflection.Some? ==> ReflectionOf(r, false).JObj? && ReflectionOf(r, true) == ReflectionOf(r, false)
  {
    LookupAt(ToJson(r).fields, "turn2_reflection", 4);
  }

  /**
   * As written, any record of a test that had no session (its reflection is
   * None) makes the aggregation raise: `None.get("result", "")`.
   */
  lemma NoSessionCrashes(rt: Runtime, results: seq<TestResult>, i: nat)
    requires i < |results| && results[i].reflection.None?
    ensures AggregateAsWritten(rt, results).Err?
  {
    CollectStopsAt(rt, results, i, false);
  }

  lemma {:induction false} CollectStopsAt(rt: Runtime, results: seq<TestResult>, i: nat, orEmpty: bool)
    requires i < |results| && !orEmpty && results[i].reflection.None?
    ensures Collect(rt, results, orEmpty).Err?
    decreases |results|
  {
    var front := results[..|results| - 1];
    if i < |front| {
      assert front[i] == results[i];
      CollectStopsAt(rt, front, i, orEmpty);
    } else {
      RecordTurnTwo(results[i]);
    }
  }

  /** When every test reached turn 2, the corrected aggregation is the one written. */
  lemma {:induction false} AsWrittenAgrees(rt: Runtime, results: seq<TestResult>)
    requires forall i :: 0 <= i < |results| ==> results[i].reflection.Some?
    ensures Collect(rt, results, false) == Collect(rt, results, true)
    ensures AggregateAsWritten(rt, results) == Aggregate(rt, results)
    decreases |results|
  {
    if results != [] {
      var front := results[..|results| - 1];
      assert forall i :: 0 <= i < |front| ==> front[i] == results[i];
      AsWrittenAgrees(rt, front);
      RecordTurnTwo(results[|results| - 1]);
    }
  }

  /** The failing ids in order, and turn 1's error for each (or the stock text). */
  function FailuresOf(results: seq<TestResult>): seq<FailedEntry>
    decreases |results|
  {
    if results == [] then []
    else
      var r := results[|results| - 1];
      FailuresOf(results[..|results| - 1])
      + (if r.success then [] else [FailedEntry(r.testId, JStr(r.turn1.error.GetOr(UnknownError)))])
  }

  /**
   * Once the reflections are read without raising, "failed_tests" lists every
   * unsuccessful record in order, one entry each, with turn 1's error.
   */
  lemma {:induction false} CollectFailures(rt: Runtime, results: seq<TestResult>, orEmpty: bool)
    requires Collect(rt, results, orEmpty).Ok?
    ensures Collect(rt, results, orEmpty).value.failedTests == FailuresOf(results)
    decreases |results|
  {
    if results != [] {
      CollectFailures(rt, results[..|results| - 1], orEmpty);
      RecordTurnOne(results[|results| - 1]);
    }
  }

  lemma {:induction false} FailuresCount(results: seq<TestResult>)
    ensures |FailuresOf(results)| == FailedCount(results)
    decreases |results|
  {
    if results != [] {
      var front := results[..|results| - 1];
      FailuresCount(front);
      FailedCountSnoc(front, results[|results| - 1]);
      assert front + [results[|results| - 1]] == results;
    }
  }

  lemma {:induction false} FailedCountSnoc(front: seq<TestResult>, last: TestResult)
    ensures FailedCount(front + [last]) == FailedCount(front) + (if last.success then 0 else 1)
    decreases |front|
  {
    if front == [] {
      assert [last][1..] == [];
    } else {
      assert (front + [last])[1..] == front[1..] + [last];
      FailedCountSnoc(front[1..], last);
    }
  }

  /** The corrected aggregation lists as many failed tests as the summary counts failed. */
  lemma FailedTestsCounted(rt: Runtime, results: seq<TestResult>)
    requires Aggregate(rt, results).Ok?
    ensures |Aggregate(rt, results).value.failedTests| == Aggregate(rt, results).value.summary.failed
  {
    CollectFailures(rt, results, true);
    FailuresCount(results);
  }

  predicate ListsDistinct(l: Lists) {
    DistinctEq(l.improvementSuggestions) && DistinctEq(l.whatWorked) && DistinctEq(l.whatDidntWork)
  }

  /** `l` is a prefix of `m`, list by list. */
  predicate Extends(l: Lists, m: Lists) {
    l.improvementSuggestions <= m.improvementSuggestions && l.whatWorked <= m.whatWorked
    && l.whatDidntWork <= m.whatDidntWork
  }

  lemma AddKeyProps(d: Dict, key: string, list: seq<Json>)
    requires AddKey(d, key, list).Ok?
    ensures DistinctEq(list) ==> DistinctEq(AddKey(d, key, list).value)
    ensures list <= AddKey(d, key, list).value
  {
    if Has(d, key) {
      AddNewProps(list, Iterate(Lookup(d, key).value).value);
    }
  }

  /** A reflection only ever appends new entries. */
  lemma ReflectionStepProps(rt: Runtime, lists: Lists, reflection: Json)
    requires ReflectionStep(rt, lists, reflection).Ok?
    ensures ListsDistinct(lists) ==> ListsDistinct(ReflectionStep(rt, lists, reflection).value)
    ensures Extends(lists, ReflectionStep(rt, lists, reflection).value)
  {
    var text := Get(reflection.fields, "result", JStr(""));
    if Truthy(text) {
      match rt.loads(FenceStripped(text.s))
      case Some(JObj(d)) =>
        AddKeyProps(d, "improvement_suggestions", lists.improvementSuggestions);
        AddKeyProps(d, "what_worked", lists.whatWorked);
        AddKeyProps(d, "what_didnt_work", lists.whatDidntWork);
      case _ =>
    }
  }

  /**
   * The three lists never hold two equal entries, and a later record only
   * appends to what the earlier ones put there.
   */
  lemma {:induction false} CollectLists(rt: Runtime, results: seq<TestResult>, orEmpty: bool)
    requires Collect(rt, results, orEmpty).Ok?
    ensures ListsDistinct(Collect(rt, results, orEmpty).value.lists)
    ensures results != [] ==> Collect(rt, results[..|results| - 1], orEmpty).Ok?
                              && Extends(Collect(rt, results[..|results| - 1], orEmpty).value.lists,
                                         Collect(rt, results, orEmpty).value.lists)
    decreases |results|
  {
    if results != [] {
      var front := results[..|results| - 1];
      CollectLists(rt, front, orEmpty);
      ReflectionStepProps(rt, Collect(rt, front, orEmpty).value.lists, ReflectionOf(results[|results| - 1], orEmpty));
    }
  }

  /** Under the correction a test without a reflection adds nothing to the lists. */
  lemma NoSessionSkipped(rt: Runtime, lists: Lists, r: TestResult)
    requires r.reflection.None?
    ensures ReflectionStep(rt, lists, ReflectionOf(r, true)) == Ok(lists)
  {
    RecordTurnTwo(r);
  }

  /** Once a prefix of the records raises, the loop raises the same. */
  lemma {:induction false} CollectStops(rt: Runtime, results: seq<TestResult>, i: nat, orEmpty: bool)
    requires i <= |results| && Collect(rt, results[..i], orEmpty).Err?
    ensures Collect(rt, results, orEmpty) == Collect(rt, results[..i], orEmpty)
    decreases |results| - i
  {
    if i < |results| {
      assert results[..i + 1][..i] == results[..i];
      CollectStops(rt, results, i + 1, orEmpty);
    } else {
      assert results[..i] == results;
    }
  }

  /** `for x in items: if x not in list: list.append(x)` */
  method AddItems(list: seq<Json>, items: seq<Json>) returns (r: seq<Json>)
    ensures r == AddNew(list, items)
  {
    r := list;
    for i := 0 to |items|
      invariant r == AddNew(list, items[..i])
    {
      assert items[..i + 1][..i] == items[..i];
      if !ContainsEq(r, items[i]) {
        r := r + [items[i]];
      }
    }
    assert items[..|items|] == items;
  }

  /** The `key in reflection_data` block for one key. */
  method AddFromKey(d: Dict, key: string, list: seq<Json>) returns (r: Result<seq<Json>, Fault>)
    ensures r == AddKey(d, key, list)
  {
    if !Has(d, key) {
      return Ok(list);
    }
    var items := Iterate(Lookup(d, key).value);
    if items.Err? {
      return Err(items.error);
    }
    var added := AddItems(list, items.value);
    return Ok(added);
  }

  /** The reflection part of one iteration of the loop. */
  method AddReflection(rt: Runtime, lists: Lists, reflection: Json) returns (r: Result<Lists, Fault>)
    ensures r == ReflectionStep(rt, lists, reflection)
  {
    if !reflection.JObj? {
      return Err(Fault(AttributeError, reflection));
    }
    var text := Get(reflection.fields, "result", JStr(""));
    if !Truthy(text) {
      return Ok(lists);
    }
    if !text.JStr? {
      return Err(Fault(AttributeError, text));
    }
    var clean := StripMarkdownCodeFences(text.s);
    var data := rt.loads(clean);
    if data.None? || !data.value.JObj? {
      return Ok(lists);
    }
    var d := data.value.fields;
    var s := AddFromKey(d, "improvement_suggestions", lists.improvementSuggestions);
    if s.Err? {
      return Err(s.error);
    }
    var w := AddFromKey(d, "what_worked", lists.whatWorked);
    if w.Err? {
      return Err(w.error);
    }
    var n := AddFromKey(d, "what_didnt_work", lists.whatDidntWork);
    if n.Err? {
      return Err(n.error);
    }
    return Ok(Lists(s.value, w.value, n.value));
  }

  /** `aggregate_results`, with a missing reflection read as `{}`, as a loop over the records. */
  method AggregateResults(rt: Runtime, results: seq<TestResult>) returns (r: Result<Aggregation, Fault>)
    ensures r == Aggregate(rt, results)
  {
    var failed: seq<FailedEntry> := [];
    var lists := NoLists;
    for i := 0 to |results|
      invariant Collect(rt, results[..i], true) == Ok(Collected(failed, lists))
    {
      assert results[..i + 1][..i] == results[..i];
      var result := results[i];
      if !result.success {
        var error := TurnOneError(result);
        if error.Err? {
          CollectStops(rt, results, i + 1, true);
          return Err(error.error);
        }
        failed := failed + [FailedEntry(result.testId, error.value)];
      }
      var reflection := Get(ToJson(result).fields, "turn2_reflection", JObj([]));
      if reflection == JNull {
        reflection := JObj([]);
      }
      var next := AddReflection(rt, lists, reflection);
      if next.Err? {
        CollectStops(rt, results, i + 1, true);
        return Err(next.error);
      }
      lists := next.value;
    }
    assert results[..|results|] == results;
    return Ok(Aggregation(SummaryOf(results), failed, lists));
  }
}
