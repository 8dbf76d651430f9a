/**
 * `calculate_statistics`: counts, sums and averages over the loaded result
 * records. Numbers are exact; the rounding of the returned figures is not
 * modelled.
 */
module Statistics {
  import opened Wrappers
  import opened JsonValues

  /** The dict `calculate_statistics` returns (before rounding). */
  datatype Stats = Stats(
    totalTests: nat,
    passed: nat,
    failed: int,
    successRate: real,
    totalCostUsd: real,
    totalDurationSeconds: real,
    avgTurnsPerTest: real,
    avgCostPerTest: real,
    avgDurationPerTest: real)

  /** The record for no results. */
  const ZeroStats: Stats := Stats(0, 0, 0, 0.0, 0.0, 0.0, 0.0, 0.0, 0.0)

  /** `r.get("success", False)` is truthy. */
  predicate Succeeded(r: Dict) {
    Truthy(Get(r, "success", JBool(false)))
  }

  /**
   * `sum(1 for r in results if r.get("success", False))`; the first result
   * that is not a dict raises AttributeError.
   */
  function PassedCount(results: seq<Json>): Result<nat, Fault>
    decreases |results|
  {
    if results == [] then Ok(0)
    else if !results[0].JObj? then Err(Fault(AttributeError, results[0]))
    else
      var rest :- PassedCount(results[1..]);
      Ok((if Succeeded(results[0].fields) then 1 else 0) + rest)
  }

  /** `sum(r.get(key, 0.0) for r in results)`; a value that is not a number raises TypeError. */
  function SumField(results: seq<Json>, key: string): Result<real, Fault>
    decreases |results|
  {
    if results == [] then Ok(0.0)
    else if !results[0].JObj? then Err(Fault(AttributeError, results[0]))
    else
      var x :- Number(Get(results[0].fields, key, JNum(0.0)));
      var rest :- SumField(results[1..], key);
      Ok(x + rest)
  }

  /** What one result adds to `total_turns`: `turn1.get("num_turns", 0) if turn1 else 0`. */
  function TurnsOf(r: Json): Result<real, Fault> {
    if !r.JObj? then Err(Fault(AttributeError, r))
    else
      var turn1 := Get(r.fields, "turn1", JObj([]));
      if !Truthy(turn1) then Ok(0.0)
      else if !turn1.JObj? then Err(Fault(AttributeError, turn1))
      else Number(Get(turn1.fields, "num_turns", JNum(0.0)))
  }

  /** `total_turns` after the loop over `results`. */
  function TotalTurns(results: seq<Json>): Result<real, Fault>
    decreases |results|
  {
    if results == [] then Ok(0.0)
    else
      var total :- TotalTurns(results[..|results| - 1]);
      var x :- TurnsOf(results[|results| - 1]);
      Ok(total + x)
  }

  /** What `calculate_statistics(results)` returns, or the exception it raises. */
  function StatsOf(results: seq<Json>): Result<Stats, Fault> {
    if results == [] then Ok(ZeroStats)
    else
      var passed :- PassedCount(results);
      var cost :- SumField(results, "total_cost_usd");
      var duration :- SumField(results, "duration_seconds");
      var turns :- TotalTurns(results);
      var n := |results| as real;
      Ok(Stats(|results|, passed, |results| - passed, passed as real / n,
               cost, duration, turns / n, cost / n, duration / n))
  }

  /** Once a prefix of the results raises, the turn loop raises the same. */
  lemma {:induction false} TotalTurnsStops(results: seq<Json>, i: nat)
    requires i <= |results| && TotalTurns(results[..i]).Err?
    ensures TotalTurns(results) == TotalTurns(results[..i])
    decreases |results| - i
  {
    if i < |results| {
      assert results[..i + 1][..i] == results[..i];
      TotalTurnsStops(results, i + 1);
    } else {
      assert results[..i] == results;
    }
  }

  /** `calculate_statistics`, with the loop over turn counts the source has. */
  method CalculateStatistics(results: seq<Json>) returns (r: Result<Stats, Fault>)
    ensures r == StatsOf(results)
  {
    if results == [] {
      return Ok(ZeroStats);
    }
    var totalTests := |results|;
    var passed := PassedCount(results);
    if passed.Err? {
      return Err(passed.error);
    }
    var totalCost := SumField(results, "total_cost_usd");
    if totalCost.Err? {
      return Err(totalCost.error);
    }
    var totalDuration := SumField(results, "duration_seconds");
    if totalDuration.Err? {
      return Err(totalDuration.error);
    }
    var totalTurns := 0.0;
    var i := 0;
    while i < |results|
      invariant 0 <= i <= |results|
      invariant TotalTurns(results[..i]) == Ok(totalTurns)
    {
      assert results[..i + 1][..i] == results[..i];
      var turns := TurnsOf(results[i]);
      if turns.Err? {
        TotalTurnsStops(results, i + 1);
        return Err(turns.error);
      }
      totalTurns := totalTurns + turns.value;
      i := i + 1;
    }
    assert results[..i] == results;
    var n := totalTests as real;
    r := Ok(Stats(totalTests, passed.value, totalTests - passed.value, passed.value as real / n,
                  totalCost.value, totalDuration.value, totalTurns / n, totalCost.value / n, totalDuration.value / n));
  }

  /** Every result is a dict exactly when the pass count does not raise. */
  lemma {:induction false} PassedCountBounds(results: seq<Json>)
    ensures PassedCount(results).Ok? <==> forall i :: 0 <= i < |results| ==> results[i].JObj?
    ensures PassedCount(results).Ok? ==> PassedCount(results).value <= |results|
    ensures PassedCount(results).Ok? ==>
              (PassedCount(results).value == |results| <==>
                 forall i :: 0 <= i < |results| ==> Succeeded(results[i].fields))
    ensures PassedCount(results).Ok? ==>
              (PassedCount(results).value == 0 <==>
                 forall i :: 0 <= i < |results| ==> !Succeeded(results[i].fields))
    decreases |results|
  {
    if results != [] {
      var rest := results[1..];
      PassedCountBounds(rest);
      assert forall i :: 0 < i < |results| ==> results[i] == rest[i - 1];
      if PassedCount(results).Ok? {
        assert forall i :: 0 <= i < |rest| ==> rest[i] == results[i + 1];
      }
    }
  }

  /**
   * For non-empty results that do not raise, every test is counted as passed
   * or failed, and the rate is the passed share.
   */
  lemma StatsCounts(results: seq<Json>)
    requires results != [] && StatsOf(results).Ok?
    ensures var s := StatsOf(results).value;
            && s.totalTests == |results|
            && 0 <= s.failed && s.passed + s.failed == s.totalTests
            && s.passed == PassedCount(results).value
            && 0.0 <= s.successRate <= 1.0
            && s.successRate == s.passed as real / s.totalTests as real
  {
    PassedCountBounds(results);
    Share(PassedCount(results).value as real, |results| as real);
  }

  lemma Share(a: real, n: real)
    requires 0.0 <= a <= n && n > 0.0
    ensures 0.0 <= a / n <= 1.0
  {
  }

  /** No results give the all-zero record. */
  lemma StatsEmpty()
    ensures StatsOf([]) == Ok(ZeroStats)
  {
  }
}
