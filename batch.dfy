/**
 * The batch driver (`main` after argument parsing): build the provider
 * chain, enumerate the audio files, process each one, and produce the
 * report. The file system is given as values: the sorted-or-not directory
 * listing, the directories `os.walk` yields in the order it yields them, a
 * regular-file test, and the tags the extractor reads from each path.
 */
module Batch {
  import opened Wrappers
  import opened Seqs
  import opened Text
  import opened Order
  import opened Paths
  import opened Resolver
  import opened Process
  import opened Chain
  import opened Report
  import opened Metadata

  /** One directory `os.walk` yields: its path and the names of the files in it. */
  datatype WalkEntry = WalkEntry(root: string, files: seq<string>)

  /** The `--path` argument: a directory (with its listing and its walk) or anything else. */
  datatype Target =
    | Directory(path: string, listing: seq<string>, walk: seq<WalkEntry>)
    | Other(path: string)

  /** The remaining command-line options. */
  datatype Options = Options(noRecurse: bool, switches: Switches, reportPath: Option<string>)

  /** A call of `update_genre(path, genre)`. */
  datatype Write = Write(path: string, genre: string)

  datatype ReportFile = ReportFile(path: string, text: string)

  datatype RunResult =
    | NoProviders
    | InvalidPath
    | Done(results: seq<Outcome>, found: seq<string>, writes: seq<Write>, report: Option<ReportFile>)

  /** The file system facts the driver depends on. */
  datatype FileSystem = FileSystem(isFile: string -> bool, tagsOf: string -> Tags)

  // ---------------------------------------------------------------------
  // Which files are processed
  // ---------------------------------------------------------------------

  /** Non-recursive mode: the regular files among the sorted names, with a supported extension. */
  function FlatCandidates(dir: string, names: seq<string>, isFile: string -> bool): (r: seq<string>)
    ensures |r| <= |names|
  {
    if names == [] then []
    else
      var name := names[|names| - 1];
      var p := PathJoin(dir, name);
      FlatCandidates(dir, names[..|names| - 1], isFile) + (if isFile(p) && IsSupported(name) then [p] else [])
  }

  /** Recursive mode, one directory: its files with a supported extension, in the given order. */
  function DirCandidates(root: string, names: seq<string>): (r: seq<string>)
    ensures |r| <= |names|
  {
    if names == [] then []
    else
      var name := names[|names| - 1];
      DirCandidates(root, names[..|names| - 1]) + (if IsSupported(name) then [PathJoin(root, name)] else [])
  }

  /** Recursive mode: each walked directory in turn, its file names sorted. */
  function WalkCandidates(walk: seq<WalkEntry>): seq<string>
  {
    if walk == [] then []
    else
      var d := walk[|walk| - 1];
      WalkCandidates(walk[..|walk| - 1]) + DirCandidates(d.root, SortNames(d.files))
  }

  /** The paths handed to `process_file`, in order; None when the path is rejected. */
  function Candidates(target: Target, noRecurse: bool, isFile: string -> bool): Option<seq<string>>
  {
    match target
    case Directory(dir, listing, walk) =>
      Some(if noRecurse then FlatCandidates(dir, SortNames(listing), isFile) else WalkCandidates(walk))
    case Other(path) =>
      if isFile(path) && IsSupported(path) then Some([path]) else None
  }

  // ---------------------------------------------------------------------
  // Processing
  // ---------------------------------------------------------------------

  datatype Log = Log(results: seq<Outcome>, writes: seq<Write>)

  function WriteOf(path: string, run: FileRun): seq<Write>
  {
    if run.write.Some? then [Write(path, run.write.value)] else []
  }

  /** What `process_file` does to one path, given the tags the extractor reads there. */
  function Runner(ps: seq<Provider>, tagsOf: string -> Tags): string -> FileRun
  {
    p => ProcessFile(ps, p, tagsOf(p))
  }

  /** The outcome of each path, in order. */
  function Outcomes(run: string -> FileRun, paths: seq<string>): (r: seq<Outcome>)
    ensures |r| == |paths|
  {
    seq(|paths|, k requires 0 <= k < |paths| => run(paths[k]).outcome)
  }

  /** The writes each path causes (none or one), in order. */
  function WritesEach(run: string -> FileRun, paths: seq<string>): (r: seq<seq<Write>>)
    ensures |r| == |paths|
  {
    seq(|paths|, k requires 0 <= k < |paths| => WriteOf(paths[k], run(paths[k])))
  }

  /** The results list and the writes after running `run` on `paths` in order. */
  function Logged(run: string -> FileRun, paths: seq<string>): Log
  {
    Log(Outcomes(run, paths), Concat(WritesEach(run, paths)))
  }

  /** The providers asked for each path, in order: no `Log` entry records them. */
  function Lookups(ps: seq<Provider>, paths: seq<string>, tagsOf: string -> Tags): (r: seq<seq<string>>)
    ensures |r| == |paths|
  {
    seq(|paths|, k requires 0 <= k < |paths| => ProcessFile(ps, paths[k], tagsOf(paths[k])).invoked)
  }

  /** The results list and the writes after processing `paths` in order. */
  function Processed(ps: seq<Provider>, paths: seq<string>, tagsOf: string -> Tags): (l: Log)
    ensures |l.results| == |paths|
  {
    Logged(Runner(ps, tagsOf), paths)
  }

  /** The "Found: <path>" progress messages logged in directory mode. */
  function FoundLines(paths: seq<string>): (r: seq<string>)
    ensures |r| == |paths|
    ensures forall k :: 0 <= k < |paths| ==> r[k] == "Found: " + paths[k]
  {
    seq(|paths|, k requires 0 <= k < |paths| => "Found: " + paths[k])
  }

  /** `--report`, else genre_report.txt in the directory, else beside the file. */
  function ReportPath(arg: Option<string>, target: Target): (r: string)
    ensures Truthy(arg) ==> r == arg.value
    ensures !Truthy(arg) ==> Basename(r) == "genre_report.txt"
    ensures !Truthy(arg) ==>
              r == JoinHead(if target.Directory? then target.path else Dirname(target.path)) + "genre_report.txt"
  {
    BasenameJoin(if target.Directory? then target.path else Dirname(target.path), "genre_report.txt");
    JoinPrefix(if target.Directory? then target.path else Dirname(target.path), "genre_report.txt");
    if Truthy(arg) then arg.value
    else match target
      case Directory(dir, _, _) => PathJoin(dir, "genre_report.txt")
      case Other(path) => PathJoin(Dirname(path), "genre_report.txt")
  }

  /** What processing the target yields: None when the path is rejected. */
  function Collected(ps: seq<Provider>, target: Target, noRecurse: bool, fs: FileSystem): Option<Gathered>
  {
    match Candidates(target, noRecurse, fs.isFile)
    case None => None
    case Some(paths) =>
      var log := Processed(ps, paths, fs.tagsOf);
      Some(Gathered(log.results, log.writes, if target.Directory? then FoundLines(paths) else []))
  }

  datatype Gathered = Gathered(results: seq<Outcome>, writes: seq<Write>, found: seq<string>)

  function ReportFor(results: seq<Outcome>, arg: Option<string>, target: Target): Option<ReportFile>
  {
    if results != [] then Some(ReportFile(ReportPath(arg, target), FileText(ReportLines(results)))) else None
  }

  /** Everything one run of the tagger does, as a value. */
  function RunSpec(opts: Options, env: Environment, lookups: Source -> (string, string) -> CallOutcome,
                   target: Target, fs: FileSystem): RunResult
  {
    var chain := ChainFor(opts.switches, env);
    if chain == [] then NoProviders
    else
      match Collected(Providers(chain, lookups), target, opts.noRecurse, fs)
      case None => InvalidPath
      case Some(g) => Done(g.results, g.found, g.writes, ReportFor(g.results, opts.reportPath, target))
  }

  // ---------------------------------------------------------------------
  // The driver
  // ---------------------------------------------------------------------

  lemma LoggedSnoc(run: string -> FileRun, paths: seq<string>, p: string)
    ensures var before := Logged(run, paths);
            Logged(run, paths + [p]) == Log(before.results + [run(p).outcome], before.writes + WriteOf(p, run(p)))
  {
    assert Outcomes(run, paths + [p]) == Outcomes(run, paths) + [run(p).outcome];
    assert WritesEach(run, paths + [p]) == WritesEach(run, paths) + [WriteOf(p, run(p))];
    ConcatSnoc(WritesEach(run, paths), WriteOf(p, run(p)));
  }

  lemma ProcessedSnoc(ps: seq<Provider>, paths: seq<string>, p: string, tagsOf: string -> Tags)
    ensures var before, run := Processed(ps, paths, tagsOf), ProcessFile(ps, p, tagsOf(p));
            Processed(ps, paths + [p], tagsOf) == Log(before.results + [run.outcome], before.writes + WriteOf(p, run))
  {
    LoggedSnoc(Runner(ps, tagsOf), paths, p);
  }

  lemma DirCandidatesStep(root: string, names: seq<string>, i: nat)
    requires i < |names|
    ensures DirCandidates(root, names[..i + 1]) ==
            DirCandidates(root, names[..i]) + (if IsSupported(names[i]) then [PathJoin(root, names[i])] else [])
  {
    assert names[..i + 1][..i] == names[..i];
  }

  lemma FlatCandidatesStep(dir: string, names: seq<string>, isFile: string -> bool, i: nat)
    requires i < |names|
    ensures var p := PathJoin(dir, names[i]);
            FlatCandidates(dir, names[..i + 1], isFile) ==
            FlatCandidates(dir, names[..i], isFile) + (if isFile(p) && IsSupported(names[i]) then [p] else [])
  {
    assert names[..i + 1][..i] == names[..i];
  }

  lemma LoggedAppend(run: string -> FileRun, a: seq<string>, b: seq<string>)
    ensures var la, lb := Logged(run, a), Logged(run, b);
            Logged(run, a + b) == Log(la.results + lb.results, la.writes + lb.writes)
  {
    assert Outcomes(run, a + b) == Outcomes(run, a) + Outcomes(run, b);
    assert WritesEach(run, a + b) == WritesEach(run, a) + WritesEach(run, b);
    ConcatAppend(WritesEach(run, a), WritesEach(run, b));
  }

  /** Processing two lists of paths one after the other. */
  lemma ProcessedAppend(ps: seq<Provider>, a: seq<string>, b: seq<string>, tagsOf: string -> Tags)
    ensures var la, lb := Processed(ps, a, tagsOf), Processed(ps, b, tagsOf);
            Processed(ps, a + b, tagsOf) == Log(la.results + lb.results, la.writes + lb.writes)
  {
    LoggedAppend(Runner(ps, tagsOf), a, b);
  }

  lemma LoggedOne(run: string -> FileRun, p: string)
    ensures Logged(run, [p]) == Log([run(p).outcome], WriteOf(p, run(p)))
  {
    assert Outcomes(run, [p]) == [run(p).outcome];
    assert WritesEach(run, [p]) == [WriteOf(p, run(p))];
    assert WritesEach(run, [p])[..0] == [];
    assert Concat(WritesEach(run, [p])) == Concat<Write>([]) + WriteOf(p, run(p));
  }

  /** Processing a single path. */
  lemma ProcessedOne(ps: seq<Provider>, p: string, tagsOf: string -> Tags)
    ensures var run := ProcessFile(ps, p, tagsOf(p));
            Processed(ps, [p], tagsOf) == Log([run.outcome], WriteOf(p, run))
  {
    LoggedOne(Runner(ps, tagsOf), p);
  }

  lemma FoundAppend(a: seq<string>, b: seq<string>)
    ensures FoundLines(a + b) == FoundLines(a) + FoundLines(b)
  {
  }

  lemma FoundSnoc(paths: seq<string>, p: string)
    ensures FoundLines(paths + [p]) == FoundLines(paths) + ["Found: " + p]
  {
  }

  /**
   * One supported file: log it as found, process it, append its outcome
   * and record its write, if any.
   */
  method Visit(ps: seq<Provider>, p: string, tagsOf: string -> Tags, ghost paths: seq<string>,
               results0: seq<Outcome>, writes0: seq<Write>, found0: seq<string>)
    returns (results: seq<Outcome>, writes: seq<Write>, found: seq<string>)
    requires Processed(ps, paths, tagsOf) == Log(results0, writes0) && found0 == FoundLines(paths)
    ensures Processed(ps, paths + [p], tagsOf) == Log(results, writes) && found == FoundLines(paths + [p])
  {
    found := found0 + ["Found: " + p];
    var run := ProcessFile(ps, p, tagsOf(p));
    ProcessedSnoc(ps, paths, p, tagsOf);
    FoundSnoc(paths, p);
    results := results0 + [run.outcome];
    writes := writes0 + WriteOf(p, run);
  }

  /** One directory of the walk, its sorted names processed in turn. */
  method ProcessDirectory(ps: seq<Provider>, root: string, files: seq<string>, tagsOf: string -> Tags)
    returns (results: seq<Outcome>, writes: seq<Write>, found: seq<string>)
    ensures var paths := DirCandidates(root, SortNames(files));
            Processed(ps, paths, tagsOf) == Log(results, writes) && found == FoundLines(paths)
  {
    results, writes, found := [], [], [];
    ghost var paths: seq<string> := [];
    var names := SortNames(files);
    for i := 0 to |names|
      invariant paths == DirCandidates(root, names[..i])
      invariant Processed(ps, paths, tagsOf) == Log(results, writes) && found == FoundLines(paths)
    {
      DirCandidatesStep(root, names, i);
      if IsSupported(names[i]) {
        var p := PathJoin(root, names[i]);
        results, writes, found := Visit(ps, p, tagsOf, paths, results, writes, found);
        paths := paths + [p];
      }
    }
    assert names[..|names|] == names;
  }

  /** Non-recursive mode: the sorted listing, regular supported files only. */
  method ProcessFlat(ps: seq<Provider>, dir: string, listing: seq<string>, fs: FileSystem)
    returns (results: seq<Outcome>, writes: seq<Write>, found: seq<string>)
    ensures var paths := FlatCandidates(dir, SortNames(listing), fs.isFile);
            Processed(ps, paths, fs.tagsOf) == Log(results, writes) && found == FoundLines(paths)
  {
    results, writes, found := [], [], [];
    ghost var paths: seq<string> := [];
    var names := SortNames(listing);
    for i := 0 to |names|
      invariant paths == FlatCandidates(dir, names[..i], fs.isFile)
      invariant Processed(ps, paths, fs.tagsOf) == Log(results, writes) && found == FoundLines(paths)
    {
      FlatCandidatesStep(dir, names, fs.isFile, i);
      var p := PathJoin(dir, names[i]);
      if fs.isFile(p) && IsSupported(names[i]) {
        results, writes, found := Visit(ps, p, fs.tagsOf, paths, results, writes, found);
        paths := paths + [p];
      }
    }
    assert names[..|names|] == names;
  }

  /** Recursive mode: every directory the walk yields, in that order. */
  method ProcessWalk(ps: seq<Provider>, walk: seq<WalkEntry>, fs: FileSystem)
    returns (results: seq<Outcome>, writes: seq<Write>, found: seq<string>)
    ensures var paths := WalkCandidates(walk);
            Processed(ps, paths, fs.tagsOf) == Log(results, writes) && found == FoundLines(paths)
  {
    results, writes, found := [], [], [];
    for j := 0 to |walk|
      invariant Processed(ps, WalkCandidates(walk[..j]), fs.tagsOf) == Log(results, writes)
      invariant found == FoundLines(WalkCandidates(walk[..j]))
    {
      var r, w, f := ProcessDirectory(ps, walk[j].root, walk[j].files, fs.tagsOf);
      ghost var before, here := WalkCandidates(walk[..j]), DirCandidates(walk[j].root, SortNames(walk[j].files));
      assert walk[..j + 1][..j] == walk[..j];
      assert WalkCandidates(walk[..j + 1]) == before + here;
      ProcessedAppend(ps, before, here, fs.tagsOf);
      FoundAppend(before, here);
      results, writes, found := results + r, writes + w, found + f;
    }
    assert walk[..|walk|] == walk;
  }

  /** The writer step: a report only when at least one file was processed. */
  method MakeReport(results: seq<Outcome>, arg: Option<string>, target: Target) returns (report: Option<ReportFile>)
    ensures report == ReportFor(results, arg, target)
  {
    report := None;
    if results != [] {
      var text := RenderReport(results);
      report := Some(ReportFile(ReportPath(arg, target), text));
    }
  }

  /** Enumerating and processing the target's files. */
  method Collect(ps: seq<Provider>, target: Target, noRecurse: bool, fs: FileSystem) returns (g: Option<Gathered>)
    ensures g == Collected(ps, target, noRecurse, fs)
  {
    match target {
      case Directory(dir, listing, walk) =>
        var results: seq<Outcome>, writes: seq<Write>, found: seq<string>;
        ghost var paths := Candidates(target, noRecurse, fs.isFile).value;
        if noRecurse {
          results, writes, found := ProcessFlat(ps, dir, listing, fs);
        } else {
          results, writes, found := ProcessWalk(ps, walk, fs);
        }
        assert Processed(ps, paths, fs.tagsOf) == Log(results, writes);
        g := Some(Gathered(results, writes, found));
      case Other(path) =>
        if fs.isFile(path) && IsSupported(path) {
          var run := ProcessFile(ps, path, fs.tagsOf(path));
          ProcessedOne(ps, path, fs.tagsOf);
          g := Some(Gathered([run.outcome], WriteOf(path, run), []));
        } else {
          g := None;
        }
    }
  }

  /** `main`, after the command line is parsed. */
  method Run(opts: Options, env: Environment, lookups: Source -> (string, string) -> CallOutcome,
             target: Target, fs: FileSystem) returns (r: RunResult)
    ensures r == RunSpec(opts, env, lookups, target, fs)
  {
    var chain := BuildChain(opts.switches, env);
    if chain == [] {
      return NoProviders;
    }
    var g := Collect(Providers(chain, lookups), target, opts.noRecurse, fs);
    if g.None? {
      return InvalidPath;
    }
    var report := MakeReport(g.value.results, opts.reportPath, target);
    r := Done(g.value.results, g.value.found, g.value.writes, report);
  }

  // ---------------------------------------------------------------------
  // Properties of a run
  // ---------------------------------------------------------------------

  /** Result k is the outcome of processing path k. */
  lemma ProcessedAt(ps: seq<Provider>, paths: seq<string>, tagsOf: string -> Tags)
    ensures forall k :: 0 <= k < |paths| ==>
              Processed(ps, paths, tagsOf).results[k] == ProcessFile(ps, paths[k], tagsOf(paths[k])).outcome
  {
  }

  /** Without any usable provider the run stops before touching a file. */
  lemma NoProvidersIff(opts: Options, env: Environment, lookups: Source -> (string, string) -> CallOutcome,
                       target: Target, fs: FileSystem)
    ensures RunSpec(opts, env, lookups, target, fs) == NoProviders <==>
            forall s :: !Enabled(s, opts.switches, env)
  {
    ChainEmptyIff(opts.switches, env);
  }

  /** A path that is neither a directory nor a supported regular file ends the run with no result. */
  lemma InvalidPathIff(opts: Options, env: Environment, lookups: Source -> (string, string) -> CallOutcome,
                       path: string, fs: FileSystem)
    requires ChainFor(opts.switches, env) != []
    ensures RunSpec(opts, env, lookups, Other(path), fs) == InvalidPath <==> !(fs.isFile(path) && IsSupported(path))
  {
  }

  predicate NamesOk(names: seq<string>)
  {
    forall k :: 0 <= k < |names| ==> NoSlash(names[k])
  }

  /** Directory entries are plain names: they never contain a slash. */
  predicate EntriesAreNames(target: Target)
  {
    match target
    case Directory(_, listing, walk) =>
      NamesOk(listing) && forall j :: 0 <= j < |walk| ==> NamesOk(walk[j].files)
    case Other(_) => true
  }

  /**
   * What a real file system guarantees about the values of a directory
   * target: a listing names each entry once, so does each walked directory,
   * and the walk yields each directory once (under paths that stay apart
   * once a file name is joined on).
   */
  predicate ListingsDistinct(target: Target)
  {
    match target
    case Directory(_, listing, walk) =>
      && Distinct(listing)
      && (forall j :: 0 <= j < |walk| ==> Distinct(walk[j].files))
      && (forall i, j :: 0 <= i < j < |walk| ==> JoinHead(walk[i].root) != JoinHead(walk[j].root))
    case Other(_) => true
  }

  lemma SortKeepsNames(names: seq<string>)
    requires NamesOk(names)
    ensures NamesOk(SortNames(names))
  {
    var sorted := SortNames(names);
    forall k | 0 <= k < |sorted| ensures NoSlash(sorted[k]) {
      assert sorted[k] in multiset(names);
    }
  }

  // ---------------------------------------------------------------------
  // Every supported file is processed, and only those
  // ---------------------------------------------------------------------

  /** `p` is a regular file whose listed, supported name is joined onto `dir`. */
  predicate InListing(p: string, dir: string, names: seq<string>, isFile: string -> bool)
  {
    exists j :: 0 <= j < |names| && p == PathJoin(dir, names[j]) && isFile(p) && IsSupported(names[j])
  }

  /** `p` is one of the supported `names` joined onto `root`. */
  predicate InDir(p: string, root: string, names: seq<string>)
  {
    exists j :: 0 <= j < |names| && p == PathJoin(root, names[j]) && IsSupported(names[j])
  }

  /** `p` is a supported file name of some walked directory, joined onto that directory's path. */
  predicate InWalk(p: string, walk: seq<WalkEntry>)
  {
    exists j, i :: 0 <= j < |walk| && 0 <= i < |walk[j].files| &&
      p == PathJoin(walk[j].root, walk[j].files[i]) && IsSupported(walk[j].files[i])
  }

  /** Non-recursive mode processes only regular files joined from supported listed names. */
  lemma {:induction false} FlatCandidatesSound(dir: string, names: seq<string>, isFile: string -> bool)
    ensures forall k :: 0 <= k < |FlatCandidates(dir, names, isFile)| ==>
              InListing(FlatCandidates(dir, names, isFile)[k], dir, names, isFile)
  {
    if names != [] {
      var init := names[..|names| - 1];
      FlatCandidatesSound(dir, init, isFile);
      var c, c0 := FlatCandidates(dir, names, isFile), FlatCandidates(dir, init, isFile);
      forall k | 0 <= k < |c| ensures InListing(c[k], dir, names, isFile) {
        if k < |c0| {
          assert InListing(c0[k], dir, init, isFile);
          var j :| 0 <= j < |init| && c0[k] == PathJoin(dir, init[j]) && isFile(c0[k]) && IsSupported(init[j]);
          assert names[j] == init[j] && c[k] == c0[k];
        } else {
          assert c[k] == PathJoin(dir, names[|names| - 1]);
        }
      }
    } else {
      assert FlatCandidates(dir, names, isFile) == [];
    }
  }

  /** Non-recursive mode processes every regular file with a supported listed name. */
  lemma {:induction false} FlatCandidatesComplete(dir: string, names: seq<string>, isFile: string -> bool, j: nat)
    requires j < |names| && isFile(PathJoin(dir, names[j])) && IsSupported(names[j])
    ensures PathJoin(dir, names[j]) in FlatCandidates(dir, names, isFile)
  {
    var init := names[..|names| - 1];
    if j < |init| {
      assert init[j] == names[j];
      FlatCandidatesComplete(dir, init, isFile, j);
    }
  }

  /** Distinct names give distinct paths: no file is visited twice. */
  lemma {:induction false} FlatCandidatesDistinct(dir: string, names: seq<string>, isFile: string -> bool)
    requires NamesOk(names) && Distinct(names)
    ensures Distinct(FlatCandidates(dir, names, isFile))
  {
    if names != [] {
      var init, name := names[..|names| - 1], names[|names| - 1];
      DistinctInit(names);
      FlatCandidatesDistinct(dir, init, isFile);
      FlatCandidatesSound(dir, init, isFile);
      var c0, p := FlatCandidates(dir, init, isFile), PathJoin(dir, name);
      forall x, y | x in c0 && y in [p] ensures x != y {
        var k :| 0 <= k < |c0| && c0[k] == x;
        assert InListing(c0[k], dir, init, isFile);
        var j :| 0 <= j < |init| && c0[k] == PathJoin(dir, init[j]) && isFile(c0[k]) && IsSupported(init[j]);
        assert init[j] in init;
        NamesDiffer(dir, init[j], name);
      }
      DistinctAppend(c0, [p]);
    }
  }

  /** Recursive mode, one directory: only supported names, joined onto its path. */
  lemma {:induction false} DirCandidatesSound(root: string, names: seq<string>)
    ensures forall k :: 0 <= k < |DirCandidates(root, names)| ==> InDir(DirCandidates(root, names)[k], root, names)
  {
    if names != [] {
      var init := names[..|names| - 1];
      DirCandidatesSound(root, init);
      var c, c0 := DirCandidates(root, names), DirCandidates(root, init);
      forall k | 0 <= k < |c| ensures InDir(c[k], root, names) {
        if k < |c0| {
          assert InDir(c0[k], root, init);
          var j :| 0 <= j < |init| && c0[k] == PathJoin(root, init[j]) && IsSupported(init[j]);
          assert names[j] == init[j] && c[k] == c0[k];
        } else {
          assert c[k] == PathJoin(root, names[|names| - 1]);
        }
      }
    } else {
      assert DirCandidates(root, names) == [];
    }
  }

  /** Recursive mode, one directory: every supported name is visited. */
  lemma {:induction false} DirCandidatesComplete(root: string, names: seq<string>, j: nat)
    requires j < |names| && IsSupported(names[j])
    ensures PathJoin(root, names[j]) in DirCandidates(root, names)
  {
    var init := names[..|names| - 1];
    if j < |init| {
      assert init[j] == names[j];
      DirCandidatesComplete(root, init, j);
    }
  }

  lemma {:induction false} DirCandidatesDistinct(root: string, names: seq<string>)
    requires NamesOk(names) && Distinct(names)
    ensures Distinct(DirCandidates(root, names))
  {
    if names != [] {
      var init, name := names[..|names| - 1], names[|names| - 1];
      DistinctInit(names);
      DirCandidatesDistinct(root, init);
      DirCandidatesSound(root, init);
      var c0, p := DirCandidates(root, init), PathJoin(root, name);
      forall x, y | x in c0 && y in [p] ensures x != y {
        var k :| 0 <= k < |c0| && c0[k] == x;
        assert InDir(c0[k], root, init);
        var j :| 0 <= j < |init| && c0[k] == PathJoin(root, init[j]) && IsSupported(init[j]);
        assert init[j] in init;
        NamesDiffer(root, init[j], name);
      }
      DistinctAppend(c0, [p]);
    }
  }

  /** Reordering the names does not change which paths qualify. */
  lemma InDirPermuted(p: string, root: string, names: seq<string>, files: seq<string>)
    requires multiset(names) == multiset(files) && InDir(p, root, names)
    ensures InDir(p, root, files)
  {
    var m :| 0 <= m < |names| && p == PathJoin(root, names[m]) && IsSupported(names[m]);
    assert names[m] in multiset(files);
    var i :| 0 <= i < |files| && files[i] == names[m];
  }

  /** Recursive mode processes only supported names of walked directories, joined onto their paths. */
  lemma {:induction false} WalkCandidatesSound(walk: seq<WalkEntry>)
    ensures forall k :: 0 <= k < |WalkCandidates(walk)| ==> InWalk(WalkCandidates(walk)[k], walk)
  {
    if walk != [] {
      var init, d := walk[..|walk| - 1], walk[|walk| - 1];
      var sorted := SortNames(d.files);
      WalkCandidatesSound(init);
      DirCandidatesSound(d.root, sorted);
      var c, c0, c1 := WalkCandidates(walk), WalkCandidates(init), DirCandidates(d.root, sorted);
      assert c == c0 + c1;
      forall k | 0 <= k < |c| ensures InWalk(c[k], walk) {
        if k < |c0| {
          assert InWalk(c0[k], init);
          var j, i :| 0 <= j < |init| && 0 <= i < |init[j].files| &&
                      c0[k] == PathJoin(init[j].root, init[j].files[i]) && IsSupported(init[j].files[i]);
          assert walk[j] == init[j] && c[k] == c0[k];
        } else {
          assert c[k] == c1[k - |c0|] && InDir(c1[k - |c0|], d.root, sorted);
          InDirPermuted(c[k], d.root, sorted, d.files);
          var i :| 0 <= i < |d.files| && c[k] == PathJoin(d.root, d.files[i]) && IsSupported(d.files[i]);
          assert walk[|walk| - 1].files[i] == d.files[i];
        }
      }
    } else {
      assert WalkCandidates(walk) == [];
    }
  }

  /** Recursive mode processes every supported file of every walked directory. */
  lemma {:induction false} WalkCandidatesComplete(walk: seq<WalkEntry>, j: nat, i: nat)
    requires j < |walk| && i < |walk[j].files| && IsSupported(walk[j].files[i])
    ensures PathJoin(walk[j].root, walk[j].files[i]) in WalkCandidates(walk)
  {
    var init, d := walk[..|walk| - 1], walk[|walk| - 1];
    if j < |init| {
      assert init[j] == walk[j];
      WalkCandidatesComplete(init, j, i);
    } else {
      var sorted := SortNames(d.files);
      assert d.files[i] in multiset(sorted);
      var m :| 0 <= m < |sorted| && sorted[m] == d.files[i];
      DirCandidatesComplete(d.root, sorted, m);
    }
  }

  /** Each walked directory yielded once, with each name once: no file is visited twice. */
  lemma {:induction false} WalkCandidatesDistinct(walk: seq<WalkEntry>)
    requires forall j :: 0 <= j < |walk| ==> NamesOk(walk[j].files) && Distinct(walk[j].files)
    requires forall i, j :: 0 <= i < j < |walk| ==> JoinHead(walk[i].root) != JoinHead(walk[j].root)
    ensures Distinct(WalkCandidates(walk))
  {
    if walk != [] {
      var init, d := walk[..|walk| - 1], walk[|walk| - 1];
      var sorted := SortNames(d.files);
      WalkCandidatesDistinct(init);
      SortKeepsNames(d.files);
      SortDistinct(d.files);
      DirCandidatesDistinct(d.root, sorted);
      WalkCandidatesSound(init);
      DirCandidatesSound(d.root, sorted);
      var c0, c1 := WalkCandidates(init), DirCandidates(d.root, sorted);
      forall x, y | x in c0 && y in c1 ensures x != y {
        var k :| 0 <= k < |c0| && c0[k] == x;
        var l :| 0 <= l < |c1| && c1[l] == y;
        assert InWalk(c0[k], init) && InDir(c1[l], d.root, sorted);
        var j, i :| 0 <= j < |init| && 0 <= i < |init[j].files| &&
                    c0[k] == PathJoin(init[j].root, init[j].files[i]) && IsSupported(init[j].files[i]);
        var m :| 0 <= m < |sorted| && c1[l] == PathJoin(d.root, sorted[m]) && IsSupported(sorted[m]);
        assert init[j] == walk[j] && NamesOk(walk[j].files);
        HeadsDiffer(init[j].root, d.root, init[j].files[i], sorted[m]);
      }
      DistinctAppend(c0, c1);
    }
  }

  lemma FoundDistinct(paths: seq<string>)
    requires Distinct(paths)
    ensures Distinct(FoundLines(paths))
  {
    var f := FoundLines(paths);
    forall i, j | 0 <= i < j < |paths| ensures f[i] != f[j] {
      assert f[i][|"Found: "|..] == paths[i];
      assert f[j][|"Found: "|..] == paths[j];
    }
  }

  /**
   * In directory mode every processed file has a supported extension, a
   * "Found: <path>" message precedes each one, and result k is the outcome
   * of processing the k-th path found.
   */
  lemma DirectoryCollected(ps: seq<Provider>, target: Target, noRecurse: bool, fs: FileSystem)
    requires target.Directory? && EntriesAreNames(target)
    ensures var g := Collected(ps, target, noRecurse, fs);
            g.Some? && |g.value.found| == |g.value.results| &&
            forall k :: 0 <= k < |g.value.results| ==>
              var p := g.value.found[k][|"Found: "|..];
              g.value.found[k] == "Found: " + p &&
              IsSupported(Basename(p)) &&
              g.value.results[k] == ProcessFile(ps, p, fs.tagsOf(p)).outcome &&
              IsSupported(g.value.results[k].filename)
  {
    var paths := Candidates(target, noRecurse, fs.isFile).value;
    var sorted := SortNames(target.listing);
    if noRecurse {
      SortKeepsNames(target.listing);
      FlatCandidatesSound(target.path, sorted, fs.isFile);
    } else {
      WalkCandidatesSound(target.walk);
    }
    ProcessedAt(ps, paths, fs.tagsOf);
    var g := Collected(ps, target, noRecurse, fs).value;
    forall k | 0 <= k < |g.results|
      ensures g.found[k][|"Found: "|..] == paths[k]
      ensures IsSupported(Basename(paths[k]))
    {
      assert g.found[k] == "Found: " + paths[k];
      if noRecurse {
        assert InListing(paths[k], target.path, sorted, fs.isFile);
        var j :| 0 <= j < |sorted| && paths[k] == PathJoin(target.path, sorted[j]) &&
                 fs.isFile(paths[k]) && IsSupported(sorted[j]);
        BasenameJoin(target.path, sorted[j]);
      } else {
        assert InWalk(paths[k], target.walk);
        var j, i :| 0 <= j < |target.walk| && 0 <= i < |target.walk[j].files| &&
                    paths[k] == PathJoin(target.walk[j].root, target.walk[j].files[i]) &&
                    IsSupported(target.walk[j].files[i]);
        BasenameJoin(target.walk[j].root, target.walk[j].files[i]);
      }
    }
  }

  /** In directory mode no file is found, processed or written twice. */
  lemma DirectoryOnce(ps: seq<Provider>, target: Target, noRecurse: bool, fs: FileSystem)
    requires target.Directory? && EntriesAreNames(target) && ListingsDistinct(target)
    ensures Distinct(Collected(ps, target, noRecurse, fs).value.found)
  {
    var paths := Candidates(target, noRecurse, fs.isFile).value;
    if noRecurse {
      SortKeepsNames(target.listing);
      SortDistinct(target.listing);
      FlatCandidatesDistinct(target.path, SortNames(target.listing), fs.isFile);
    } else {
      WalkCandidatesDistinct(target.walk);
    }
    FoundDistinct(paths);
  }

  /** The found message and the outcome of processing path `p` appear at one index of a directory run. */
  predicate Reported(g: Gathered, ps: seq<Provider>, p: string, tagsOf: string -> Tags)
  {
    exists k :: 0 <= k < |g.found| && k < |g.results| &&
      g.found[k] == "Found: " + p && g.results[k] == ProcessFile(ps, p, tagsOf(p)).outcome
  }

  lemma CandidateReported(ps: seq<Provider>, target: Target, noRecurse: bool, fs: FileSystem, p: string)
    requires target.Directory? && p in Candidates(target, noRecurse, fs.isFile).value
    ensures Reported(Collected(ps, target, noRecurse, fs).value, ps, p, fs.tagsOf)
  {
    var paths := Candidates(target, noRecurse, fs.isFile).value;
    var g := Collected(ps, target, noRecurse, fs).value;
    var k :| 0 <= k < |paths| && paths[k] == p;
    ProcessedAt(ps, paths, fs.tagsOf);
    assert g.found[k] == "Found: " + p;
  }

  /** Non-recursive mode finds and processes every regular listed file with a supported extension. */
  lemma FlatRunFinds(ps: seq<Provider>, target: Target, fs: FileSystem, j: nat)
    requires target.Directory? && j < |target.listing|
    requires IsSupported(target.listing[j]) && fs.isFile(PathJoin(target.path, target.listing[j]))
    ensures Reported(Collected(ps, target, true, fs).value, ps, PathJoin(target.path, target.listing[j]), fs.tagsOf)
  {
    assert target.listing[j] in multiset(SortNames(target.listing));
    var i :| 0 <= i < |SortNames(target.listing)| && SortNames(target.listing)[i] == target.listing[j];
    FlatCandidatesComplete(target.path, SortNames(target.listing), fs.isFile, i);
    CandidateReported(ps, target, true, fs, PathJoin(target.path, target.listing[j]));
  }

  /** Recursive mode finds and processes every walked file with a supported extension. */
  lemma WalkRunFinds(ps: seq<Provider>, target: Target, fs: FileSystem, j: nat, i: nat)
    requires target.Directory? && j < |target.walk| && i < |target.walk[j].files|
    requires IsSupported(target.walk[j].files[i])
    ensures Reported(Collected(ps, target, false, fs).value, ps,
                     PathJoin(target.walk[j].root, target.walk[j].files[i]), fs.tagsOf)
  {
    WalkCandidatesComplete(target.walk, j, i);
    CandidateReported(ps, target, false, fs, PathJoin(target.walk[j].root, target.walk[j].files[i]));
  }

  /** A directory run always completes, with a report exactly when some file was processed. */
  lemma DirectoryRun(opts: Options, env: Environment, lookups: Source -> (string, string) -> CallOutcome,
                     target: Target, fs: FileSystem)
    requires target.Directory? && EntriesAreNames(target)
    requires ChainFor(opts.switches, env) != []
    ensures var r := RunSpec(opts, env, lookups, target, fs);
            r.Done? && |r.found| == |r.results| && (r.report.Some? <==> r.results != [])
  {
    DirectoryCollected(Providers(ChainFor(opts.switches, env), lookups), target, opts.noRecurse, fs);
  }

  // ---------------------------------------------------------------------
  // Order of the non-recursive listing
  // ---------------------------------------------------------------------

  /** Non-recursive mode visits the files in sorted order of their paths. */
  lemma {:induction false} FlatCandidatesSorted(dir: string, names: seq<string>, isFile: string -> bool)
    requires NamesOk(names) && Sorted(names)
    ensures Sorted(FlatCandidates(dir, names, isFile))
  {
    if names != [] {
      var init := names[..|names| - 1];
      var name := names[|names| - 1];
      FlatCandidatesSorted(dir, init, isFile);
      FlatCandidatesSound(dir, init, isFile);
      JoinPrefix(dir, name);
      var c0 := FlatCandidates(dir, init, isFile);
      forall k | 0 <= k < |c0| ensures LexLe(c0[k], JoinHead(dir) + name) {
        assert InListing(c0[k], dir, init, isFile);
        var j :| 0 <= j < |init| && c0[k] == PathJoin(dir, init[j]) && isFile(c0[k]) && IsSupported(init[j]);
        JoinPrefix(dir, init[j]);
        LexLePrefix(JoinHead(dir), init[j], name);
      }
    }
  }

  lemma FlatRunSorted(target: Target, isFile: string -> bool)
    requires target.Directory? && EntriesAreNames(target)
    ensures Sorted(Candidates(target, true, isFile).value)
  {
    SortKeepsNames(target.listing);
    FlatCandidatesSorted(target.path, SortNames(target.listing), isFile);
  }

  // ---------------------------------------------------------------------
  // Running twice
  // ---------------------------------------------------------------------

  /**
   * Running the same chain again over files that now carry the genres the
   * first run wrote gives the same results and writes nothing. A file that
   * reported a genre is not looked up again; one that reported none is
   * looked up again, with the same providers asked.
   */
  lemma RerunSameResults(ps: seq<Provider>, paths: seq<string>, tagsOf: string -> Tags, tagsOf': string -> Tags)
    requires forall k :: 0 <= k < |paths| ==> tagsOf'(paths[k]) == Retagged(ps, paths[k], tagsOf(paths[k]))
    ensures Processed(ps, paths, tagsOf').results == Processed(ps, paths, tagsOf).results
    ensures Processed(ps, paths, tagsOf').writes == []
    ensures forall k :: 0 <= k < |paths| ==>
              Lookups(ps, paths, tagsOf')[k] ==
              if Truthy(Processed(ps, paths, tagsOf).results[k].genre) then [] else Lookups(ps, paths, tagsOf)[k]
  {
    var again := WritesEach(Runner(ps, tagsOf'), paths);
    forall k | 0 <= k < |paths|
      ensures ProcessFile(ps, paths[k], tagsOf'(paths[k])).outcome == ProcessFile(ps, paths[k], tagsOf(paths[k])).outcome
      ensures again[k] == []
      ensures Lookups(ps, paths, tagsOf')[k] ==
              if Truthy(Processed(ps, paths, tagsOf).results[k].genre) then [] else Lookups(ps, paths, tagsOf)[k]
    {
      var tags := tagsOf(paths[k]);
      if ProcessFile(ps, paths[k], tags).write.Some? {
        RerunIsQuiet(ps, ps, paths[k], tags);
      }
      if Truthy(ProcessFile(ps, paths[k], tags).outcome.genre) {
        TaggedRerunQuiet(ps, paths[k], tags);
      } else {
        UntaggedRerunRepeats(ps, paths[k], tags);
      }
    }
    ConcatOfEmpties(again);
  }

  /** What `extract_metadata` reads at each path, when the files open as `files`. */
  function ReadAll(files: string -> Option<Store>): string -> Tags
  {
    p => Extract(p, files(p))
  }

  /** The same, reading the genre where `update_genre` writes it. */
  function ReadAllIntended(files: string -> Option<Store>): string -> Tags
  {
    p => ExtractIntended(p, files(p))
  }

  /** The files after a run that read each genre as `extract_metadata` does. */
  function AfterRun(ps: seq<Provider>, files: string -> Option<Store>): string -> Option<Store>
  {
    p => Written(ps, p, files(p), GenreKey(p))
  }

  /** The files after a run that read each genre where it is written. */
  function AfterRunIntended(ps: seq<Provider>, files: string -> Option<Store>): string -> Option<Store>
  {
    p => Written(ps, p, files(p), "genre")
  }

  /** A FLAC file read after a run carries exactly the genre the run wrote. */
  lemma FlacRetagged(ps: seq<Provider>, path: string, file: Option<Store>)
    requires IsFlac(path)
    ensures Extract(path, Written(ps, path, file, GenreKey(path))) == Retagged(ps, path, Extract(path, file))
  {
    var tags := Extract(path, file);
    var run := ProcessFile(ps, path, tags);
    if run.write.Some? {
      WriteNeedsTags(ps, path, tags);
      FlacReadsBack(path, file, run.write.value);
    }
  }

  /** Every file read where its genre is written carries exactly the genre the run wrote. */
  lemma IntendedRetagged(ps: seq<Provider>, path: string, file: Option<Store>)
    ensures ExtractIntended(path, Written(ps, path, file, "genre")) == Retagged(ps, path, ExtractIntended(path, file))
  {
    var tags := ExtractIntended(path, file);
    var run := ProcessFile(ps, path, tags);
    if run.write.Some? {
      WriteNeedsTags(ps, path, tags);
      IntendedReadsBack(path, file, run.write.value);
    }
  }

  /** Rerunning over FLAC files: the same results, and nothing written. */
  lemma FlacRerunSameResults(ps: seq<Provider>, paths: seq<string>, files: string -> Option<Store>)
    requires forall k :: 0 <= k < |paths| ==> IsFlac(paths[k])
    ensures Processed(ps, paths, ReadAll(AfterRun(ps, files))).results == Processed(ps, paths, ReadAll(files)).results
    ensures Processed(ps, paths, ReadAll(AfterRun(ps, files))).writes == []
    ensures forall k :: 0 <= k < |paths| ==>
              Lookups(ps, paths, ReadAll(AfterRun(ps, files)))[k] ==
              if Truthy(Processed(ps, paths, ReadAll(files)).results[k].genre) then []
              else Lookups(ps, paths, ReadAll(files))[k]
  {
    forall k | 0 <= k < |paths|
      ensures ReadAll(AfterRun(ps, files))(paths[k]) == Retagged(ps, paths[k], ReadAll(files)(paths[k]))
    {
      FlacRetagged(ps, paths[k], files(paths[k]));
    }
    RerunSameResults(ps, paths, ReadAll(files), ReadAll(AfterRun(ps, files)));
  }

  /** Reading the genre where it is written, rerunning over any files gives the same results and writes nothing. */
  lemma IntendedRerunSameResults(ps: seq<Provider>, paths: seq<string>, files: string -> Option<Store>)
    ensures Processed(ps, paths, ReadAllIntended(AfterRunIntended(ps, files))).results ==
            Processed(ps, paths, ReadAllIntended(files)).results
    ensures Processed(ps, paths, ReadAllIntended(AfterRunIntended(ps, files))).writes == []
    ensures forall k :: 0 <= k < |paths| ==>
              Lookups(ps, paths, ReadAllIntended(AfterRunIntended(ps, files)))[k] ==
              if Truthy(Processed(ps, paths, ReadAllIntended(files)).results[k].genre) then []
              else Lookups(ps, paths, ReadAllIntended(files))[k]
  {
    forall k | 0 <= k < |paths|
      ensures ReadAllIntended(AfterRunIntended(ps, files))(paths[k]) ==
              Retagged(ps, paths[k], ReadAllIntended(files)(paths[k]))
    {
      IntendedRetagged(ps, paths[k], files(paths[k]));
    }
    RerunSameResults(ps, paths, ReadAllIntended(files), ReadAllIntended(AfterRunIntended(ps, files)));
  }

  /** As written, rerunning over files that are not FLAC repeats every lookup and every write. */
  lemma OtherRerunSameWrites(ps: seq<Provider>, paths: seq<string>, files: string -> Option<Store>)
    requires forall k :: 0 <= k < |paths| ==> !IsFlac(paths[k])
    ensures Processed(ps, paths, ReadAll(AfterRun(ps, files))) == Processed(ps, paths, ReadAll(files))
    ensures Lookups(ps, paths, ReadAll(AfterRun(ps, files))) == Lookups(ps, paths, ReadAll(files))
  {
    var run, run' := Runner(ps, ReadAll(files)), Runner(ps, ReadAll(AfterRun(ps, files)));
    forall k | 0 <= k < |paths| ensures run'(paths[k]) == run(paths[k]) {
      OtherRerunRepeats(ps, paths[k], files(paths[k]));
    }
    assert Outcomes(run', paths) == Outcomes(run, paths);
    assert WritesEach(run', paths) == WritesEach(run, paths);
    assert Lookups(ps, paths, ReadAll(AfterRun(ps, files))) == Lookups(ps, paths, ReadAll(files));
  }
}
