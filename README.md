# Agent test harness: running suites and reducing their results

This project models the core of an agent test harness. The harness has two parts.

- `scripts/run_test_suite.py` runs a suite of prompts against the `claude` CLI. Every test is a
  task turn. When turn 1 returned a session id, a reflection turn in the same session follows.
  Each test's record is written to disk as soon as the test ends. An inline aggregation of the
  run comes last.
- `scripts/aggregate_results.py` loads a results directory and reduces the records. It computes
  statistics, ranks suggestions by frequency, and lists the failed tests.

The model covers, module by module:

- `Fences`: the fence stripper that both scripts define.
- `RecursionGuard`: the check of the `AGENT_TEST_DEPTH` environment variable.
- `Invoker`: how one CLI call's outcome is turned into a turn result.
- `Runner`: running a single test and the suite loop, with the disk modelled as a trace of events.
- `SuiteValidation`: the suite validator.
- `Navigation`: `safe_get`.
- `ResultLoader`: loading a results directory.
- `Reflections`: parsing a reflection.
- `Statistics`: the run statistics.
- `Suggestions`: the frequency-ranked suggestion lists.
- `FailedTests`: the standalone list of failed tests.
- `SuiteNames`: where a run is filed and how the suite name is read back from that path.
- `InlineAggregation`: the runner's inline aggregation.
- `Pipeline`: how the stages fit together. A validated suite can be run, and the standalone
  aggregator agrees with the inline one on the records the runner writes.

Modelling choices that hold throughout:

- JSON values are a datatype. An object is a sequence of key/value pairs read with Python dict
  semantics: the last pair with a key wins, and keys iterate in order of first appearance.
- Python truthiness, `==` between `True` and `1`, and hashability are written out.
- An exception the code would raise (AttributeError on `.get` of a non-dict, TypeError on
  iterating a number or hashing a list, ValueError from a conversion) is an `Err` result. It is
  never excluded by a precondition.
- Everything foreign is a parameter:
  - `Runtime` bundles the functions the model cannot see: `json.loads`/`json.load`, `json.dumps`
    of a dict reply text, `str()` of numbers, lists and dicts, `float()`/`int()` of strings, and
    `str(e)` of a caught exception.
  - The `claude` subprocess is a function from the call's index and its request to its outcome.
  - The clock is a function from the number of `claude` calls made before a test starts to that
    test's duration and timestamp.
  - The file system is a map from names to file states.
- Numbers are exact reals.

The fence stripper scans back from the end of the text, so when a reply contains several closing
fences, the last one ends the block, although the comment above that loop (scripts/run_test_suite.py:63,
scripts/aggregate_results.py:78) speaks of a single closing fence. `Fences.LastFenceWins` states the
behaviour.

The validator accepts any truthy, hashable test id, a number included, while the progress line
of the suite loop measures the id with `len` (scripts/run_test_suite.py:473). A suite with a
numeric id therefore stops with TypeError right after that test's record is written, and its
later tests and the inline aggregation do not run. `Runner.SuiteRunStops` states this stop.

## Model

| member | source | states |
|---|---|---|
| Fences.StripMarkdownCodeFences | scripts/run_test_suite.py:44-73 | Returns exactly `FenceStripped(text)`, whose cases are proved below |
| Fences.ScanBack | scripts/run_test_suite.py:64-66 | The backward scan stops at the last closing line after the first line, or at line 0 when there is none |
| Fences.FenceStrippedCases | scripts/run_test_suite.py:51-73 | Empty text comes back unchanged. Stripped text that is not a fenced block comes back stripped. A fenced block yields the lines strictly between the opener and the last closing line, joined and stripped |
| Fences.FencedPayload | scripts/run_test_suite.py:57-71 | An opener line starting with three backticks, a payload and a closing fence yield the stripped payload |
| Fences.LastFenceWins | scripts/run_test_suite.py:64-66 | With two closing fences, the block ends at the last one; the inner fence stays in the content |
| RecursionGuard.RunsAdmittedCount | scripts/run_test_suite.py:80-86 | Runs nested by re-invocation, starting at depth d, are admitted `MAX_RECURSION_DEPTH + 1 - d` times; none are admitted when d exceeds 2 |
| RecursionGuard.Environment.CheckRecursionDepth | scripts/run_test_suite.py:80-86 | An unparseable depth fails, and so does a depth over 2; in both cases the environment is unchanged. Otherwise it returns the depth and sets the variable to depth + 1, which a later read returns |
| Invoker.FirstPresentPicks | scripts/run_test_suite.py:292-297 | The first key of the fallback chain that is present decides the field |
| Invoker.FirstPresentDefault | scripts/run_test_suite.py:292-297 | With no key of the chain present, the default is used |
| Invoker.CostPriority | scripts/run_test_suite.py:296 | `total_cost_usd` takes precedence over `cost_usd`, which takes precedence over `costUsd`; with none of them the cost is 0 |
| Invoker.InterpretFields | scripts/run_test_suite.py:292-320 | The parsed output is read only when it is a dict whose cost and turn count convert. Success iff exit code 0 and subtype "success". A reply text that is a dict becomes its `json.dumps` text; any other text is kept. The max-turns subtype sets the limit message, keeps a truthy text and puts the placeholder in place of a falsy one. Otherwise a non-zero exit keeps stderr as the error |
| Invoker.NormalizeOutcomes | scripts/run_test_suite.py:263-348 | A call succeeds iff it exits 0 with parseable dict output whose cost and turn count convert, and subtype "success". A timeout, a missing CLI, another exception or unparseable output gives a failed result with no session, zero cost and zero turns, and the matching message. Otherwise the result is the interpreted output |
| Invoker.MaxTurnsOutcome | scripts/run_test_suite.py:305-314 | Hitting the turn limit is never a success and always carries an error; when the reply was read, the error is the limit message and the result is truthy |
| Runner.SingleTest | scripts/run_test_suite.py:355-438 | One test makes one or two calls, the first being the task request, and its record carries the test's id |
| Runner.SessionGatesReflection | scripts/run_test_suite.py:384-428 | Without a truthy session id from turn 1 there is one call: the test fails, has no reflection, costs turn 1's cost and gets the no-session error suffix. With one, the second call is the reflection request in that session |
| Runner.KeptError | scripts/run_test_suite.py:401-402 | An error is recorded iff there is one and it is not empty |
| Runner.SuiteRunStops | scripts/run_test_suite.py:453-477 | The suite loop runs every test, or stops at the first whose id cannot be measured with `len`, raising TypeError for that id |
| Runner.SuiteRunIds | scripts/run_test_suite.py:453-460 | Every record of the run carries the id of its test |
| Runner.WritesOfRuns | scripts/run_test_suite.py:465-466 | The records written to disk are exactly the results returned, in order |
| Runner.WrittenBeforeNext | scripts/run_test_suite.py:462-466 | Every record of earlier tests is written before the next test's first call |
| Runner.Count | scripts/run_test_suite.py:467-469 | After one more test, `passed` is the number of successful records and `total_cost` the sum of their costs |
| Runner.Harness.RunClaudeCommand | scripts/run_test_suite.py:229-348 | A call returns the normalised outcome of the next subprocess response and appends the call to the trace |
| Runner.Harness.WriteTestResult | scripts/run_test_suite.py:217-222 | Appends the write of `"{test_id}.json"` holding the record; nothing else changes |
| Runner.Harness.RunSingleTest | scripts/run_test_suite.py:355-438 | Performs exactly the calls `SingleTest` prescribes and returns its record |
| Runner.Harness.RunTestSuite | scripts/run_test_suite.py:441-486 | The trace gains each test's calls followed by its write. The result is the records, or the TypeError the loop stops at. `passed` and `total_cost` are the count of successes and the cost sum of the records |
| SuiteValidation.ValidateSuite | scripts/run_test_suite.py:107-148 | Returns exactly `Validate(suite, probe)`: the errors in the source's order, or the exception raised |
| SuiteValidation.CheckTests | scripts/run_test_suite.py:131-146 | The test loop's errors, from the loop with its id set |
| SuiteValidation.TestErrors | scripts/run_test_suite.py:133-146 | A test adds no error iff it is a dict with a truthy, new id and a truthy prompt. It raises iff its truthy id is unhashable |
| SuiteValidation.ValidateEmptyIffValid | scripts/run_test_suite.py:107-148 | The error list is empty iff the suite has a name, an existing agent directory, a non-empty list of tests, and every test is a dict with a truthy unique id and a prompt |
| SuiteValidation.HeaderReport | scripts/run_test_suite.py:115-128 | "Missing name" is reported iff the name is falsy, and "missing agent_dir" iff agent_dir is falsy. For a string agent_dir, "does not exist" and "not a directory" are reported iff the probe says so |
| SuiteValidation.ReportsShapeErrors | scripts/run_test_suite.py:133-139 | Every non-dict test, and every test without an id, is reported at its index |
| SuiteValidation.ReportsMissingPrompts | scripts/run_test_suite.py:145-146 | Every test without a prompt is reported |
| SuiteValidation.ReportsDuplicates | scripts/run_test_suite.py:140-141 | Every id seen at an earlier index is reported as a duplicate |
| Navigation.SafeGet | scripts/aggregate_results.py:48-56 | The loop returns exactly `SafeGetOf`, the reference definition the lemmas below describe |
| Navigation.SafeGetFollowsPath | scripts/aggregate_results.py:50-56 | When every key is present along the path, the value at the end of the path is returned |
| Navigation.SafeGetNotDict | scripts/aggregate_results.py:52-55 | Reaching a non-dict with keys left returns the default |
| Navigation.SafeGetMissingKey | scripts/aggregate_results.py:53 | A missing key continues the walk from the default |
| Navigation.SafeGetAppend | scripts/aggregate_results.py:50-56 | Walking `a + b` is walking `b` from the end of `a` |
| ResultLoader.JsonNames | scripts/aggregate_results.py:110 | The glob yields exactly the entries whose name ends in ".json" |
| ResultLoader.LoadTestResults | scripts/aggregate_results.py:95-132 | The loop over the sorted names returns exactly `LoadOf(path)` |
| ResultLoader.LoadFiles | scripts/aggregate_results.py:112-130 | The loop over the names, skipping, loading or warning file by file, returns exactly `LoadNames(names)` |
| ResultLoader.LoadFaults | scripts/aggregate_results.py:104-108 | The load succeeds iff the path is a directory; FileNotFoundError is raised iff the path is absent |
| ResultLoader.LoadedFiles | scripts/aggregate_results.py:110-130 | The records are those of the decodable, non-skipped `*.json` files, in strictly increasing name order. Every other such file gets a warning naming it |
| ResultLoader.LoadNamesSources | scripts/aggregate_results.py:112-130 | For any list of names: record i is the i-th loaded file. A name is loaded iff it is listed and decodes. A warning is given iff a listed file is unreadable or malformed |
| ResultLoader.ClassifyTotal | scripts/aggregate_results.py:113-130 | A file is skipped iff it starts with `_` or is `aggregate-summary.json`; a warning names its own file |
| ResultLoader.SkippedFileIgnored | scripts/aggregate_results.py:113-119 | The contents of a skipped file, readable or not, do not change the load |
| Reflections.ParseReflectionFaults | scripts/aggregate_results.py:156-165 | Parsing raises iff the reflection is truthy and either is not a dict or has a truthy non-string result |
| Reflections.ParseReflectionAbsent | scripts/aggregate_results.py:156-162 | A None reflection, or one with an empty result, gives the four empty lists |
| Reflections.ParseFencedReply | scripts/aggregate_results.py:164-177 | A fenced JSON object reply gives that object's four lists |
| Reflections.ParseProseReply | scripts/aggregate_results.py:168-183 | A reply that does not decode to a dict gives the empty lists |
| Statistics.CalculateStatistics | scripts/aggregate_results.py:190-237 | Returns exactly `StatsOf(results)`: the zero statistics for no results, otherwise the sums and averages, or the exception raised |
| Statistics.PassedCountBounds | scripts/aggregate_results.py:209 | Counting passes succeeds iff every result is a dict. The count is at most the number of results, equals it iff all succeeded, and is 0 iff none did |
| Statistics.StatsCounts | scripts/aggregate_results.py:205-230 | Total is the number of results and passed + failed = total. The success rate is passed / total and lies in [0, 1] |
| Statistics.StatsEmpty | scripts/aggregate_results.py:198-207 | No results give the zero statistics |
| Statistics.TotalTurnsStops | scripts/aggregate_results.py:217-220 | The first record whose turn count cannot be read ends the loop with its exception |
| Suggestions.CollectSuggestions | scripts/aggregate_results.py:244-286 | Returns exactly `Collect(results)`, whose shape is proved below |
| Suggestions.CollectedShape | scripts/aggregate_results.py:259-286 | Suggestions are distinct, are exactly the kept suggestions, and run from most to least frequent; each count is the number of occurrences. "What worked" and "what didn't" are sorted, without repeats, and hold exactly the kept items |
| Suggestions.CountSuggestions | scripts/aggregate_results.py:263-265 | The counter after the loop is the old counter bumped by each kept suggestion |
| Suggestions.AddItems | scripts/aggregate_results.py:267-273 | The set after the loop is the old set plus the kept items |
| Suggestions.KeptMembers | scripts/aggregate_results.py:264-265 | A string is kept iff some item is a non-empty string whose stripped form it is |
| Suggestions.TallyCounts | scripts/aggregate_results.py:259-265 | The counter holds each suggestion's number of occurrences |
| Suggestions.TallyKeys | scripts/aggregate_results.py:259-265 | The counter's keys are the suggestions in order of first occurrence |
| Suggestions.MostCommon | scripts/aggregate_results.py:277-279 | `most_common()` orders by non-increasing count, keeps each count's entries in insertion order, and keeps every entry |
| Suggestions.ByFrequencyOrder | scripts/aggregate_results.py:277-279 | The ranked list is distinct, holds every suggestion, and no suggestion is ranked below a rarer one |
| Suggestions.BlankKeptAsEmpty | scripts/aggregate_results.py:264-265 | For any items, one more blank but non-empty string adds one "" to what is counted; one more non-string or empty string adds nothing |
| Suggestions.GatherStops | scripts/aggregate_results.py:259-261 | A record whose reflection raises ends the collection with that exception |
| FailedTests.CollectFailedTests | scripts/aggregate_results.py:289-314 | Returns exactly `FailedOf(results)`: one entry per failed result, in order, or the exception raised |
| FailedTests.FailedEntries | scripts/aggregate_results.py:297-312 | When built, there is one entry per result that did not succeed, and every entry's error is truthy |
| FailedTests.FailureEntry | scripts/aggregate_results.py:298-312 | A result that does not raise has an entry iff it did not succeed; the entry carries its `test_id` or "unknown", and turn 1's error when that is truthy, else the stock message |
| FailedTests.FailedEntryAt | scripts/aggregate_results.py:297-314 | When the list is built, entry k is the entry of the k-th failing result, the positions increase, and every failing result is listed |
| FailedTests.FailingPlusPassed | scripts/aggregate_results.py:297-298 | Failing results and the statistics' passed count add up to the number of results |
| FailedTests.FailedDefaults | scripts/aggregate_results.py:299-307 | A failed result without an id or turn 1 is listed as "unknown" with the stock message |
| FailedTests.FailedOfStops | scripts/aggregate_results.py:296-312 | The first result that raises ends the loop with its exception |
| SuiteNames.SuiteNameRoundTrip | scripts/aggregate_results.py:321-327 | For a single-component suite name and timestamp, the name read back from `get_results_dir`'s path is the suite name, wherever the agent directory is |
| SuiteNames.OtherDirectory | scripts/aggregate_results.py:325-327 | A directory whose grandparent is not the results folder is named after itself |
| SuiteNames.NestedSuiteName | scripts/run_test_suite.py:212 | A suite name holding a slash files the run one level deeper, and the name read back is then the timestamp |
| SuiteNames.JoinSingle | scripts/run_test_suite.py:212 | Joining a single component makes it the path's name, with the old path as its parent |
| InlineAggregation.SummaryCounts | scripts/run_test_suite.py:505-509 | passed + failed = total, and failed is 0 iff every test succeeded |
| InlineAggregation.AddNewProps | scripts/run_test_suite.py:539-551 | Appending the new items keeps the list duplicate-free and keeps its prefix. An item is in the result iff it was in the list or the items, under Python equality |
| InlineAggregation.AddItems | scripts/run_test_suite.py:539-541 | The append loop returns exactly `AddNew(list, items)` |
| InlineAggregation.AddFromKey | scripts/run_test_suite.py:538-541 | A key that is absent leaves the list unchanged; iterating its value may raise |
| InlineAggregation.AddReflection | scripts/run_test_suite.py:526-554 | One record's reflection step returns exactly `ReflectionStep` |
| InlineAggregation.ReflectionStepProps | scripts/run_test_suite.py:529-554 | A reflection step keeps the lists duplicate-free and only appends |
| InlineAggregation.RecordTurnOne | scripts/run_test_suite.py:522 | The failed entry's error is turn 1's error, or "Unknown error" when there was none |
| InlineAggregation.RecordTurnTwo | scripts/run_test_suite.py:526 | A test with no reflection stores None (initialised at line 378), which `.get` returns in place of the `{}` default |
| InlineAggregation.NoSessionCrashes | scripts/run_test_suite.py:526-527 | As written, any record without a reflection makes the aggregation raise AttributeError |
| InlineAggregation.AsWrittenAgrees | scripts/run_test_suite.py:518-554 | When every record has a reflection, the as-written and corrected aggregations are equal |
| InlineAggregation.NoSessionSkipped | scripts/run_test_suite.py:526-529 | Corrected, a record without a reflection adds nothing to the lists |
| InlineAggregation.CollectFailures | scripts/run_test_suite.py:518-523 | The failed tests are exactly `FailuresOf(results)`: every failed record in order, with its id and turn 1's error |
| InlineAggregation.FailuresCount | scripts/run_test_suite.py:518-523 | There is one failed entry per failed record |
| InlineAggregation.FailedTestsCounted | scripts/run_test_suite.py:505-523 | The failed list and the summary's failed count agree |
| InlineAggregation.CollectLists | scripts/run_test_suite.py:518-554 | The three lists are duplicate-free, and each record only appends to them |
| InlineAggregation.CollectStops | scripts/run_test_suite.py:518-554 | The first record that raises ends the loop with its exception |
| InlineAggregation.AggregateResults | scripts/run_test_suite.py:493-590 | The corrected loop returns exactly `Aggregate(results)` |
| Pipeline.ValidatedSuiteRuns | scripts/run_test_suite.py:669-701 | A suite the validator accepts has everything the suite loop reads: an agent directory and a list of dict tests, each with an id and a prompt |
| Pipeline.RecordFields | scripts/run_test_suite.py:373-382 | The standalone aggregator reads back a written record's success, cost, duration, id and turn count |
| Pipeline.StatisticsAgree | scripts/aggregate_results.py:190-237 | On the runner's records, the statistics never raise, and agree with the inline summary on total, passed, failed, cost and duration |
| Pipeline.FailuresAgree | scripts/aggregate_results.py:289-314 | On the runner's records, the standalone failure list never raises and names the same tests, in the same order, as the inline one |
| Pipeline.RecordFailure | scripts/aggregate_results.py:297-312 | A record yields a standalone entry for its own id iff it failed |
| Pipeline.NoSessionRecordCrashes | scripts/run_test_suite.py:407-409 | A test whose turn 1 returned no session id leaves a record that makes the as-written inline aggregation raise |

## Left out

- Rounding: `round(..., 2)` of durations and costs, and float arithmetic in general. Numbers are
  exact reals, and the clock gives the already-rounded duration.
- `format_duration` and `format_cost` in both scripts: display only.
- Output writers: `generate_summary_json`, `generate_report_md` and `write_outputs` in
  `aggregate_results.py`, and the standalone `aggregate_results` and `main` that chain the
  modelled stages. Their inputs are the modelled results.
- Process glue: `load_test_suite` (YAML), `dry_run`, `main`, `prompt_yes_no` and `prompt_timeout`
  of `run_test_suite.py`, and argument parsing. These are I/O and terminal interaction.
- Printing. Progress lines and the inline summary are not modelled. The loader's warnings are
  returned as a list instead of written to standard error. Exception texts inside those warnings
  are left out.
- The inline aggregator's write of `_aggregation.json` and its call of the standalone script
  (`scripts/run_test_suite.py:556-580`). Both are I/O whose failure is only printed.
- `schema_version` and the clock-dependent `timestamp` of the inline aggregation, and
  `get_results_dir`'s `mkdir` and its timestamp. The timestamp is an input of
  `SuiteNames.ResultsDir`.
- `InlineAggregation.AddNewProps`: equality between list items is Python's for scalars (with
  `True == 1`). Nested lists and dicts are compared structurally: `[1]` is not equal to `[True]`,
  and two dicts with the same pairs in a different order are not equal.
- JSON integers and floats are one `JNum` of exact reals, so `str()` of a number (the turn count
  in the max-turns message, a numeric test id in a file name) is the `Runtime`'s `repr`, and the
  model cannot tell `3` from `3.0`.
- `SuiteNames.ParsePath`: the POSIX `//` anchor and symbolic links are not modelled, and `..`
  is kept as a component, as `pathlib` keeps it.
- `ResultLoader.LoadTestResults`: a directory entry named `*.json` that is itself a directory,
  or a file the OS refuses to read, is an `Unreadable` entry. Decoding a file is the `Runtime`'s
  `loads`.
- `Runner.Harness.RunClaudeCommand`: the subprocess, its command line and its timeout are the
  `respond` parameter. The model starts from the process outcome (exit code, stdout, stderr,
  timeout, missing CLI, other exception).

## Findings

| source | as written | input that shows it | evidently intended | confidence | as-written member | corrected member |
|---|---|---|---|---|---|---|
| scripts/run_test_suite.py:526-527 | `result.get("turn2_reflection", {})` returns the stored None for a test whose turn 1 gave no session id (initialised at line 378), and `.get("result", "")` on None raises AttributeError, so the whole inline aggregation fails | a run with one test whose reply has no `session_id` | a missing reflection read as `{}` (`... or {}`), contributing nothing | not executed | InlineAggregation.NoSessionCrashes | InlineAggregation.AggregateResults |
