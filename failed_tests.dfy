/**
 * `collect_failed_tests`: one entry per result that did not succeed, in the
 * order of the results, naming the test and turn 1's error.
 */
module FailedTests {
  import opened Wrappers
  import opened JsonValues
  import opened Statistics

  const UnknownTestId: string := "unknown"
  const NoErrorMessage: string := "Test failed (no specific error message)"

  /** One entry of the returned list. */
  datatype FailedTest = FailedTest(testId: Json, error: Json)

  /**
   * The entry for one result, if it failed. A result that is not a dict, or a
   * truthy "turn1" that is not one, raises AttributeError.
   */
  function FailureOf(result: Json): Result<Option<FailedTest>, Fault> {
    if !result.JObj? then Err(Fault(AttributeError, result))
    else if Succeeded(result.fields) then Ok(None)
    else
      var testId := Get(result.fields, "test_id", JStr(UnknownTestId));
      var turn1 := Get(result.fields, "turn1", JObj([]));
      if Truthy(turn1) && !turn1.JObj? then Err(Fault(AttributeError, turn1))
      else
        var error := if Truthy(turn1) then Get(turn1.fields, "error", JNull) else JNull;
        Ok(Some(FailedTest(testId, if Truthy(error) then error else JStr(NoErrorMessage))))
  }

  /** The list `collect_failed_tests(results)` builds, or the exception it raises. */
  function FailedOf(results: seq<Json>): Result<seq<FailedTest>, Fault>
    decreases |results|
  {
    if results == [] then Ok([])
    else
      var failed :- FailedOf(results[..|results| - 1]);
      var entry :- FailureOf(results[|results| - 1]);
      Ok(failed + (if entry.Some? then [entry.value] else []))
  }

  /** Once a prefix of the results raises, the whole loop raises the same. */
  lemma {:induction false} FailedOfStops(results: seq<Json>, i: nat)
    requires i <= |results| && FailedOf(results[..i]).Err?
    ensures FailedOf(results) == FailedOf(results[..i])
    decreases |results| - i
  {
    if i < |results| {
      assert results[..i + 1][..i] == results[..i];
      FailedOfStops(results, i + 1);
    } else {
      assert results[..i] == results;
    }
  }

  /** `collect_failed_tests(results)` */
  method CollectFailedTests(results: seq<Json>) returns (r: Result<seq<FailedTest>, Fault>)
    ensures r == FailedOf(results)
  {
    var failed: seq<FailedTest> := [];
    var i := 0;
    while i < |results|
      invariant 0 <= i <= |results|
      invariant FailedOf(results[..i]) == Ok(failed)
    {
      assert results[..i + 1][..i] == results[..i];
      var result := results[i];
      if !result.JObj? {
        FailedOfStops(results, i + 1);
        return Err(Fault(AttributeError, result));
      }
      if !Succeeded(result.fields) {
        var testId := Get(result.fields, "test_id", JStr(UnknownTestId));
        var turn1 := Get(result.fields, "turn1", JObj([]));
        var error := JNull;
        if Truthy(turn1) {
          if !turn1.JObj? {
            FailedOfStops(results, i + 1);
            return Err(Fault(AttributeError, turn1));
          }
          error := Get(turn1.fields, "error", JNull);
        }
        if !Truthy(error) {
          error := JStr(NoErrorMessage);
        }
        assert FailureOf(result) == Ok(Some(FailedTest(testId, error)));
        FailedSnoc(results, i, failed);
        failed := failed + [FailedTest(testId, error)];
      } else {
        FailedSnoc(results, i, failed);
        assert failed + [] == failed;
      }
      i := i + 1;
    }
    assert results[..i] == results;
    return Ok(failed);
  }

  /** One more result that does not raise adds its entry, if any. */
  lemma FailedSnoc(results: seq<Json>, i: nat, failed: seq<FailedTest>)
    requires i < |results| && FailedOf(results[..i]) == Ok(failed) && FailureOf(results[i]).Ok?
    ensures var entry := FailureOf(results[i]).value;
            FailedOf(results[..i + 1]) == Ok(failed + (if entry.Some? then [entry.value] else []))
  {
    assert results[..i + 1][..i] == results[..i];
  }

  /** The number of results that did not succeed. */
  function FailingCount(results: seq<Json>): nat
    requires forall i :: 0 <= i < |results| ==> results[i].JObj?
    decreases |results|
  {
    if results == [] then 0
    else FailingCount(results[..|results| - 1]) + (if Succeeded(results[|results| - 1].fields) then 0 else 1)
  }

  /**
   * When the list is built, every entry names a test and carries a truthy
   * error, and there is one entry per result that did not succeed: the
   * entries and the passed count of the statistics add up to the results.
   */
  lemma {:induction false} FailedEntries(results: seq<Json>)
    requires FailedOf(results).Ok?
    ensures forall i :: 0 <= i < |results| ==> results[i].JObj?
    ensures |FailedOf(results).value| == FailingCount(results)
    ensures forall e :: e in FailedOf(results).value ==> Truthy(e.error)
    decreases |results|
  {
    if results != [] {
      var front := results[..|results| - 1];
      FailedEntries(front);
      assert forall i :: 0 <= i < |front| ==> front[i] == results[i];
    }
  }

  /** The positions of the dict results that did not succeed, in increasing order. */
  function FailingIndices(results: seq<Json>): seq<nat>
    decreases |results|
  {
    if results == [] then []
    else
      var last := results[|results| - 1];
      FailingIndices(results[..|results| - 1])
      + (if last.JObj? && !Succeeded(last.fields) then [|results| - 1] else [])
  }

  /**
   * What one failed result is listed as: its `test_id`, "unknown" without
   * one, and turn 1's error when that is truthy, the stock message otherwise.
   */
  lemma FailureEntry(result: Json)
    requires FailureOf(result).Ok?
    ensures result.JObj?
    ensures FailureOf(result).value.Some? <==> !Succeeded(result.fields)
    ensures FailureOf(result).value.Some? ==>
              var e := FailureOf(result).value.value;
              var turn1 := Get(result.fields, "turn1", JObj([]));
              && e.testId == Get(result.fields, "test_id", JStr(UnknownTestId))
              && (Truthy(turn1) ==> turn1.JObj?)
              && (Truthy(turn1) && Truthy(Get(turn1.fields, "error", JNull)) ==> e.error == Get(turn1.fields, "error", JNull))
              && (!(Truthy(turn1) && Truthy(Get(turn1.fields, "error", JNull))) ==> e.error == JStr(NoErrorMessage))
  {
  }

  /**
   * When the list is built, its k-th entry is the entry of the k-th failing
   * result, and every failing result has one: the entries follow the order
   * of the results.
   */
  lemma {:induction false} FailedEntryAt(results: seq<Json>)
    requires FailedOf(results).Ok?
    ensures var f := FailedOf(results).value;
            var ix := FailingIndices(results);
            && |ix| == |f|
            && (forall k :: 0 <= k < |ix| ==> ix[k] < |results| && FailureOf(results[ix[k]]) == Ok(Some(f[k])))
            && (forall k, l :: 0 <= k < l < |ix| ==> ix[k] < ix[l])
            && (forall i :: 0 <= i < |results| && results[i].JObj? && !Succeeded(results[i].fields) ==> i in ix)
    decreases |results|
  {
    if results != [] {
      var n := |results| - 1;
      var front := results[..n];
      FailedEntryAt(front);
      assert forall i :: 0 <= i < n ==> front[i] == results[i];
      FailureEntry(results[n]);
    }
  }

  /** The failing results and the passed ones make up all the results. */
  lemma {:induction false} FailingPlusPassed(results: seq<Json>)
    requires forall i :: 0 <= i < |results| ==> results[i].JObj?
    ensures PassedCount(results).Ok?
    ensures FailingCount(results) + PassedCount(results).value == |results|
    decreases |results|
  {
    PassedCountBounds(results);
    if results != [] {
      var front := results[..|results| - 1];
      var last := results[|results| - 1];
      assert forall i :: 0 <= i < |front| ==> front[i] == results[i];
      FailingPlusPassed(front);
      PassedCountSnoc(front, last);
      assert front + [last] == results;
    }
  }

  lemma {:induction false} PassedCountSnoc(front: seq<Json>, last: Json)
    requires PassedCount(front).Ok? && last.JObj?
    ensures PassedCount(front + [last]) ==
              Ok(PassedCount(front).value + (if Succeeded(last.fields) then 1 else 0))
    decreases |front|
  {
    if front == [] {
      assert [last][1..] == [];
    } else {
      assert (front + [last])[1..] == front[1..] + [last];
      PassedCountSnoc(front[1..], last);
    }
  }

  /** A failed result without a test id is listed as "unknown", and one without an error gets the stock message. */
  lemma FailedDefaults(fields: Dict)
    requires !Succeeded(fields) && !Has(fields, "test_id") && !Has(fields, "turn1")
    ensures FailureOf(JObj(fields)) == Ok(Some(FailedTest(JStr(UnknownTestId), JStr(NoErrorMessage))))
  {
  }
}
