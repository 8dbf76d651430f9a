/**
 * Results directories: where the runner puts a run's records
 * (`get_results_dir`) and how the aggregator recovers the suite name from such
 * a directory (`extract_suite_name`). Paths follow `pathlib.PurePosixPath`.
 */
module SuiteNames {
  import opened Text

  /** The folder all runs are kept under. */
  const ResultsRoot: string := ".agent-test-results"

  /** A POSIX path: rooted or not, and its components. */
  datatype PyPath = PyPath(rooted: bool, parts: seq<string>)

  /** `s.split("/")` */
  function SplitSlash(s: string): (r: seq<string>)
    ensures |r| >= 1
    decreases |s|
  {
    if s == [] then [""]
    else
      var rest := SplitSlash(s[1..]);
      if s[0] == '/' then [""] + rest else [[s[0]] + rest[0]] + rest[1..]
  }

  /** Components `pathlib` keeps: empty ones (repeated slashes) and "." are dropped. */
  function KeepParts(segments: seq<string>): seq<string>
    decreases |segments|
  {
    if segments == [] then []
    else if segments[0] == "" || segments[0] == "." then KeepParts(segments[1..])
    else [segments[0]] + KeepParts(segments[1..])
  }

  /** `Path(s)` */
  function ParsePath(s: string): PyPath {
    PyPath(StartsWith(s, "/"), KeepParts(SplitSlash(s)))
  }

  /** A string that is one path component on its own. */
  predicate SingleComponent(s: string) {
    s != "" && s != "." && '/' !in s
  }

  /** `p / s`: a rooted `s` replaces `p`. */
  function Join(p: PyPath, s: string): PyPath {
    var q := ParsePath(s);
    if q.rooted then q else PyPath(p.rooted, p.parts + q.parts)
  }

  /** `p.name`: the last component, or "" when there is none. */
  function Name(p: PyPath): string {
    if p.parts == [] then "" else p.parts[|p.parts| - 1]
  }

  /** `p.parent`: a path without components is its own parent. */
  function Parent(p: PyPath): PyPath {
    if p.parts == [] then p else PyPath(p.rooted, p.parts[..|p.parts| - 1])
  }

  /** `extract_suite_name(results_dir)` */
  function ExtractSuiteName(resultsDir: PyPath): string {
    if Name(Parent(Parent(resultsDir))) == ResultsRoot then Name(Parent(resultsDir))
    else Name(resultsDir)
  }

  /** `agent_dir / ".agent-test-results" / suite_name / timestamp` */
  function ResultsDir(agentDir: PyPath, suiteName: string, timestamp: string): PyPath {
    Join(Join(Join(agentDir, ResultsRoot), suiteName), timestamp)
  }

  lemma {:induction false} SplitSingle(s: string)
    requires '/' !in s
    ensures SplitSlash(s) == [s]
    decreases |s|
  {
    if s != [] {
      assert '/' !in s[1..];
      SplitSingle(s[1..]);
      assert [s[0]] + s[1..] == s;
    }
  }

  /** A single component parses to itself. */
  lemma ParseSingle(s: string)
    requires SingleComponent(s)
    ensures ParsePath(s) == PyPath(false, [s])
  {
    SplitSingle(s);
    KeepSingle(s);
    assert s[0] in s;
  }

  /** A component joined onto a path becomes its name, under the old path as parent. */
  lemma JoinSingle(p: PyPath, s: string)
    requires SingleComponent(s)
    ensures Join(p, s) == PyPath(p.rooted, p.parts + [s])
    ensures Name(Join(p, s)) == s && Parent(Join(p, s)) == p
  {
    ParseSingle(s);
    assert (p.parts + [s])[..|p.parts|] == p.parts;
  }

  /**
   * The aggregator recovers the name the runner filed the run under, wherever
   * the agent directory is, as long as the suite name is a single component.
   */
  lemma SuiteNameRoundTrip(agentDir: PyPath, suiteName: string, timestamp: string)
    requires SingleComponent(suiteName) && SingleComponent(timestamp)
    ensures ExtractSuiteName(ResultsDir(agentDir, suiteName, timestamp)) == suiteName
  {
    ParseSingle(ResultsRoot);
    JoinSingle(agentDir, ResultsRoot);
    JoinSingle(Join(agentDir, ResultsRoot), suiteName);
    JoinSingle(Join(Join(agentDir, ResultsRoot), suiteName), timestamp);
  }

  /** A directory that is not two levels below the results folder is named after itself. */
  lemma OtherDirectory(resultsDir: PyPath)
    requires Name(Parent(Parent(resultsDir))) != ResultsRoot
    ensures ExtractSuiteName(resultsDir) == Name(resultsDir)
  {
  }

  /**
   * A suite name holding a slash files the run one level deeper, and the
   * aggregator then reports the timestamp as the suite name.
   */
  lemma NestedSuiteName(agentDir: PyPath, a: string, b: string, timestamp: string)
    requires SingleComponent(a) && SingleComponent(b) && SingleComponent(timestamp) && a != ResultsRoot
    ensures ExtractSuiteName(ResultsDir(agentDir, a + "/" + b, timestamp)) == timestamp
  {
    var d := Join(agentDir, ResultsRoot);
    var e := Join(d, a + "/" + b);
    ParsePair(a, b);
    assert e == PyPath(d.rooted, d.parts + [a, b]);
    JoinSingle(e, timestamp);
    assert e.parts + [timestamp] == d.parts + [a, b, timestamp];
    ThreeDeep(d, a, b, timestamp);
  }

  lemma ThreeDeep(d: PyPath, a: string, b: string, c: string)
    requires a != ResultsRoot
    ensures ExtractSuiteName(PyPath(d.rooted, d.parts + [a, b, c])) == c
  {
    var p := d.parts + [a, b, c];
    assert p[..|p| - 1] == d.parts + [a, b];
    assert (d.parts + [a, b])[..|p| - 2] == d.parts + [a];
  }

  /** `Path("a/b")` has the two components. */
  lemma ParsePair(a: string, b: string)
    requires SingleComponent(a) && SingleComponent(b)
    ensures ParsePath(a + "/" + b) == PyPath(false, [a, b])
  {
    SplitSingle(b);
    SplitAround(a, b);
    KeepSingles(a, b);
    assert (a + "/" + b)[0] == a[0];
    assert a[0] in a;
  }

  lemma {:induction false} SplitAround(a: string, b: string)
    requires '/' !in a
    ensures SplitSlash(a + "/" + b) == [a] + SplitSlash(b)
    decreases |a|
  {
    if a == [] {
      assert a + "/" + b == ['/'] + b;
      assert (['/'] + b)[1..] == b;
    } else {
      assert (a + "/" + b)[1..] == a[1..] + "/" + b;
      assert '/' !in a[1..];
      SplitAround(a[1..], b);
      assert [a[0]] + a[1..] == a;
    }
  }

  lemma KeepSingles(a: string, b: string)
    requires SingleComponent(a) && SingleComponent(b)
    ensures KeepParts([a, b]) == [a, b]
  {
    assert [a, b][1..] == [b];
    KeepSingle(b);
    assert KeepParts([a, b]) == [a] + KeepParts([b]);
  }

  lemma KeepSingle(s: string)
    requires SingleComponent(s)
    ensures KeepParts([s]) == [s]
  {
    assert [s][1..] == [];
    assert KeepParts([s]) == [s] + KeepParts([]);
  }
}
