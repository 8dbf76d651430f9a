/**
 * `load_test_results`: the records of a results directory, one per `*.json`
 * file in sorted name order, leaving out the aggregator's own files. A file
 * that cannot be read or decoded is passed over with a warning.
 */
module ResultLoader {
  import opened Wrappers
  import opened JsonValues
  import opened Text
  import opened Ordering

  /** What opening and reading a directory entry gives. */
  datatype FileState = Readable(text: string) | Unreadable

  /** What the results path is on disk; a directory maps each entry name to its state. */
  datatype PathState = Absent | NotDirectory | Directory(entries: map<string, FileState>)

  /** FileNotFoundError and ValueError, raised before any file is read. */
  datatype LoadError = NotFound | NotADirectory

  /** A warning written to standard error for a file that was passed over. */
  datatype Warning = Malformed(name: string) | ReadFailed(name: string)

  /** The records loaded, and the warnings given, in the order of the files. */
  datatype Loaded = Loaded(results: seq<Json>, warnings: seq<Warning>)

  const SummaryFile: string := "aggregate-summary.json"

  predicate EndsWith(s: string, suffix: string) {
    |suffix| <= |s| && s[|s| - |suffix|..] == suffix
  }

  /** The glob pattern `*.json`. */
  predicate IsJsonName(name: string) {
    EndsWith(name, ".json")
  }

  /** Names the loader passes over without opening: `_`-prefixed files and the summary file. */
  predicate Skipped(name: string) {
    StartsWith(name, "_") || name == SummaryFile
  }

  /** The entries `results_dir.glob("*.json")` yields, as a set of names. */
  function JsonNames(entries: map<string, FileState>): (names: set<string>)
    ensures forall n :: n in names <==> n in entries && IsJsonName(n)
  {
    set n | n in entries && IsJsonName(n)
  }

  /** What happens to one file. */
  datatype Outcome = Skip | Load(value: Json) | Warn(warning: Warning)

  function Classify(rt: Runtime, entries: map<string, FileState>, name: string): Outcome
    requires name in entries
  {
    if Skipped(name) then Skip
    else
      match entries[name]
      case Unreadable => Warn(ReadFailed(name))
      case Readable(text) =>
        match rt.loads(text)
        case Some(j) => Load(j)
        case None => Warn(Malformed(name))
  }

  /** The loop over `names`, in their order. */
  function LoadNames(rt: Runtime, entries: map<string, FileState>, names: seq<string>): Loaded
    requires forall n :: n in names ==> n in entries
    decreases |names|
  {
    if names == [] then Loaded([], [])
    else
      var acc := LoadNames(rt, entries, names[..|names| - 1]);
      match Classify(rt, entries, names[|names| - 1])
      case Skip => acc
      case Load(j) => Loaded(acc.results + [j], acc.warnings)
      case Warn(w) => Loaded(acc.results, acc.warnings + [w])
  }

  /** What `load_test_results(results_dir)` returns, with the warnings, or what it raises. */
  ghost function LoadOf(rt: Runtime, path: PathState): Result<Loaded, LoadError> {
    match path
    case Absent => Err(NotFound)
    case NotDirectory => Err(NotADirectory)
    case Directory(entries) => Ok(LoadNames(rt, entries, SortedSeq(JsonNames(entries))))
  }

  /** `load_test_results(results_dir)` */
  method LoadTestResults(rt: Runtime, path: PathState) returns (r: Result<Loaded, LoadError>)
    ensures r == LoadOf(rt, path)
  {
    if path.Absent? {
      return Err(NotFound);
    }
    if path.NotDirectory? {
      return Err(NotADirectory);
    }
    var names := SortStrings(JsonNames(path.entries));
    var loaded := LoadFiles(rt, path.entries, names);
    return Ok(loaded);
  }

  /** The loop over the sorted `*.json` files. */
  method LoadFiles(rt: Runtime, entries: map<string, FileState>, names: seq<string>) returns (l: Loaded)
    requires forall n :: n in names ==> n in entries
    ensures l == LoadNames(rt, entries, names)
  {
    var results: seq<Json> := [];
    var warnings: seq<Warning> := [];
    for i := 0 to |names|
      invariant LoadNames(rt, entries, names[..i]) == Loaded(results, warnings)
    {
      LoadStep(rt, entries, names, i);
      var name := names[i];
      if StartsWith(name, "_") {
        continue;
      }
      if name == SummaryFile {
        continue;
      }
      match entries[name] {
        case Unreadable =>
          warnings := warnings + [ReadFailed(name)];
        case Readable(text) =>
          var parsed := rt.loads(text);
          if parsed.None? {
            warnings := warnings + [Malformed(name)];
          } else {
            results := results + [parsed.value];
          }
      }
    }
    assert names[..|names|] == names;
    return Loaded(results, warnings);
  }

  /** One more name adds what its file gives. */
  lemma LoadStep(rt: Runtime, entries: map<string, FileState>, names: seq<string>, i: nat)
    requires forall n :: n in names ==> n in entries
    requires i < |names|
    ensures names[i] in entries
    ensures var acc := LoadNames(rt, entries, names[..i]);
            LoadNames(rt, entries, names[..i + 1]) ==
              match Classify(rt, entries, names[i])
              case Skip => acc
              case Load(j) => Loaded(acc.results + [j], acc.warnings)
              case Warn(w) => Loaded(acc.results, acc.warnings + [w])
  {
    assert names[..i + 1][..i] == names[..i];
    assert names[..i + 1][i] == names[i];
  }

  /** The names whose files are loaded, in the order of `names`. */
  function Sources(rt: Runtime, entries: map<string, FileState>, names: seq<string>): seq<string>
    requires forall n :: n in names ==> n in entries
    decreases |names|
  {
    if names == [] then []
    else
      var front := Sources(rt, entries, names[..|names| - 1]);
      if Classify(rt, entries, names[|names| - 1]).Load? then front + [names[|names| - 1]] else front
  }

  /**
   * The i-th record is the decoded i-th loaded file; a name is loaded exactly
   * when it is listed, not skipped and decodes; a warning is given exactly for
   * the other files that are not skipped; and the loaded names keep the order
   * of the list.
   */
  lemma {:induction false} LoadNamesSources(rt: Runtime, entries: map<string, FileState>, names: seq<string>)
    requires forall n :: n in names ==> n in entries
    ensures var l := LoadNames(rt, entries, names);
            var src := Sources(rt, entries, names);
            && |l.results| == |src|
            && (forall i :: 0 <= i < |src| ==> src[i] in entries && Classify(rt, entries, src[i]) == Load(l.results[i]))
            && (forall n :: n in src <==> n in names && Classify(rt, entries, n).Load?)
            && (forall w :: w in l.warnings <==> w.name in names && w.name in entries && Classify(rt, entries, w.name) == Warn(w))
            && (StrictlyIncreasing(names) ==> StrictlyIncreasing(src))
    decreases |names|
  {
    if names != [] {
      var front := names[..|names| - 1];
      var last := names[|names| - 1];
      assert forall n :: n in names <==> n in front || n == last;
      LoadNamesSources(rt, entries, front);
      var src := Sources(rt, entries, names);
      var fsrc := Sources(rt, entries, front);
      assert forall k :: 0 <= k < |front| ==> front[k] == names[k];
      if StrictlyIncreasing(names) && Classify(rt, entries, last).Load? {
        forall n | n in fsrc
          ensures Less(n, last)
        {
          var k :| 0 <= k < |front| && front[k] == n;
        }
      }
    }
  }

  /** The path is read exactly when it is a directory, and then no file stops the load. */
  lemma LoadFaults(rt: Runtime, path: PathState)
    ensures LoadOf(rt, path).Ok? <==> path.Directory?
    ensures LoadOf(rt, path) == Err(NotFound) <==> path.Absent?
  {
  }

  /**
   * The records of a directory are those of its decodable `*.json` files that
   * are not skipped, in sorted name order; every other such file has a warning
   * naming it.
   */
  lemma LoadedFiles(rt: Runtime, entries: map<string, FileState>)
    ensures var l := LoadOf(rt, Directory(entries)).value;
            var src := Sources(rt, entries, SortedSeq(JsonNames(entries)));
            && StrictlyIncreasing(src)
            && |l.results| == |src|
            && (forall i :: 0 <= i < |src| ==> src[i] in entries && Classify(rt, entries, src[i]) == Load(l.results[i]))
            && (forall n :: n in src <==> n in entries && IsJsonName(n) && Classify(rt, entries, n).Load?)
            && (forall w :: w in l.warnings <==> w.name in entries && IsJsonName(w.name) && Classify(rt, entries, w.name) == Warn(w))
  {
    LoadNamesSources(rt, entries, SortedSeq(JsonNames(entries)));
  }

  /** Every non-skipped `*.json` file is either loaded or warned about. */
  lemma ClassifyTotal(rt: Runtime, entries: map<string, FileState>, name: string)
    requires name in entries
    ensures Classify(rt, entries, name).Skip? <==> Skipped(name)
    ensures Classify(rt, entries, name).Warn? ==> Classify(rt, entries, name).warning.name == name
  {
  }

  /** What a skipped file holds, readable or not, does not change the load. */
  lemma {:induction false} SkippedIgnored(rt: Runtime, entries: map<string, FileState>, names: seq<string>, name: string, s: FileState)
    requires forall n :: n in names ==> n in entries
    requires Skipped(name)
    ensures LoadNames(rt, entries[name := s], names) == LoadNames(rt, entries, names)
    decreases |names|
  {
    if names != [] {
      var front := names[..|names| - 1];
      assert forall n :: n in front ==> n in names;
      SkippedIgnored(rt, entries, front, name, s);
    }
  }

  /** So a directory's load does not depend on its skipped files. */
  lemma SkippedFileIgnored(rt: Runtime, entries: map<string, FileState>, name: string, s: FileState)
    requires name in entries && Skipped(name)
    ensures LoadOf(rt, Directory(entries[name := s])) == LoadOf(rt, Directory(entries))
  {
    assert JsonNames(entries[name := s]) == JsonNames(entries);
    SkippedIgnored(rt, entries, SortedSeq(JsonNames(entries)), name, s);
  }
}
