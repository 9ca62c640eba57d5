/** qite/run_coverage_scripts.py: after a fuzzing run, the coverage
    collection scripts write Cobertura XML files into the input folder;
    these are moved into the next numbered subfolder of the output folder,
    beside the last line of the run's statistics and the time the
    collection took. The scripts themselves, the clock and the background
    call of qite/compute_coverage.py are outside the model: the input
    folder is taken as the scripts left it, and times are parameters. */
module RunCoverageScripts {
  import opened Py
  import opened PyStr
  import PySeq
  import PyPath

  const StatsName := "_qite_stats.jsonl"
  const TimeName := "time.json"
  const TimeoutName := ".timeout"
  const NoMax := "max() arg is an empty sequence"
  const NoFolder := "expected str, bytes or os.PathLike object, not NoneType"

  /** The numbers of the subfolders whose names are all digits. */
  ghost function Numbered(dirs: set<string>): set<nat>
  {
    set d | d in dirs && IsDigits(d) :: DigitsValue(d)
  }

  /** `next_num`: 1 when there are no subfolders, and otherwise one past
      the largest numbered subfolder. */
  ghost predicate IsNext(n: nat, dirs: set<string>)
  {
    if dirs == {} then n == 1
    else n >= 1 && n - 1 in Numbered(dirs) && forall v :: v in Numbered(dirs) ==> v < n
  }

  /** The rule picks one number. */
  lemma {:induction false} IsNextUnique(m: nat, n: nat, dirs: set<string>)
    requires IsNext(m, dirs) && IsNext(n, dirs)
    ensures m == n
  {
    if dirs != {} {
      assert m - 1 < n && n - 1 < m;
    }
  }

  /** The subfolder the rule names, `f"{next_num:04d}"`, is not one of the
      existing subfolders. */
  lemma {:induction false} NextFolderFresh(n: nat, dirs: set<string>)
    requires IsNext(n, dirs)
    ensures ZeroPad(n, 4) !in dirs
  {
    ZeroPadSpec(n, 4);
    if dirs != {} {
      forall d | d in dirs && IsDigits(d)
        ensures DigitsValue(d) < n
      {
        assert DigitsValue(d) in Numbered(dirs);
      }
    }
  }

  /** One more subfolder adds its number, if it has one. */
  lemma {:induction false} NumberedAdd(dirs: set<string>, d: string)
    ensures Numbered(dirs + {d}) == Numbered(dirs) + (if IsDigits(d) then {DigitsValue(d)} else {})
  {
  }

  /** The search for `next_num`: `max()` over no numbered subfolder raises
      ValueError. */
  method NextNumber(dirs: set<string>) returns (r: Result<nat>)
    ensures r.Ok? <==> dirs == {} || Numbered(dirs) != {}
    ensures r.Ok? ==> IsNext(r.value, dirs)
    ensures r.Err? ==> r.exc == ValueError(NoMax)
  {
    if dirs == {} {
      return Ok(1);
    }
    var rest := dirs;
    var best: int := -1;
    while rest != {}
      invariant rest <= dirs
      invariant Largest(dirs - rest, best)
      decreases |rest|
    {
      var d :| d in rest;
      LargestAdd(dirs - rest, best, d);
      assert dirs - (rest - {d}) == (dirs - rest) + {d};
      if IsDigits(d) && DigitsValue(d) > best {
        best := DigitsValue(d);
      }
      rest := rest - {d};
    }
    assert dirs - rest == dirs;
    if best == -1 {
      return Err(ValueError(NoMax));
    }
    r := Ok(best + 1);
  }

  /** `best` is the largest number among the subfolders seen, or -1 when
      none of them is numbered. */
  ghost predicate Largest(seen: set<string>, best: int)
  {
    && (best == -1 <==> Numbered(seen) == {})
    && (best >= 0 ==> best in Numbered(seen))
    && forall v :: v in Numbered(seen) ==> v <= best
  }

  lemma {:induction false} LargestAdd(seen: set<string>, best: int, d: string)
    requires Largest(seen, best)
    ensures Largest(seen + {d}, if IsDigits(d) && DigitsValue(d) > best then DigitsValue(d) else best)
  {
    NumberedAdd(seen, d);
  }

  /** The XML files of a folder, and the rest of it. */
  function XmlFiles(files: map<string, seq<string>>): map<string, seq<string>>
  {
    map f | f in files && EndsWith(f, ".xml") :: files[f]
  }

  function OtherFiles(files: map<string, seq<string>>): map<string, seq<string>>
  {
    map f | f in files && !EndsWith(f, ".xml") :: files[f]
  }

  /** Moving the XML files loses no file and no content: the two parts
      share no name and together are the folder. */
  lemma {:induction false} MovePartition(files: map<string, seq<string>>)
    ensures XmlFiles(files).Keys !! OtherFiles(files).Keys
    ensures XmlFiles(files).Keys + OtherFiles(files).Keys == files.Keys
    ensures forall f :: f in XmlFiles(files) ==> EndsWith(f, ".xml") && XmlFiles(files)[f] == files[f]
    ensures forall f :: f in OtherFiles(files) ==> !EndsWith(f, ".xml") && OtherFiles(files)[f] == files[f]
  {
  }

  /** The `collect_*.sh` files of the scripts folder, in listing order. */
  function CollectionScripts(names: seq<string>): seq<string>
  {
    PySeq.Filter(names, (f: string) => StartsWith(f, "collect_") && EndsWith(f, ".sh"))
  }

  lemma {:induction false} CollectionScriptsSpec(names: seq<string>)
    ensures forall f :: f in CollectionScripts(names) <==> f in names && StartsWith(f, "collect_") && EndsWith(f, ".sh")
  {
    PySeq.FilterSpec(names, (f: string) => StartsWith(f, "collect_") && EndsWith(f, ".sh"));
  }

  /** `{"coverage_computation_time": t}` as json.dump writes it, for the
      text of the elapsed time. */
  function TimeJson(elapsed: string): string
  {
    "{\"coverage_computation_time\": " + elapsed + "}"
  }

  /** The moves of the XML files one by one: what leaves the folder and
      what stays. */
  method SplitXml(files: map<string, seq<string>>) returns (moved: map<string, seq<string>>, kept: map<string, seq<string>>)
    ensures moved == XmlFiles(files) && kept == OtherFiles(files)
  {
    var xmlNames := set f | f in files && EndsWith(f, ".xml");
    moved := map[];
    kept := files;
    var rest := xmlNames;
    while rest != {}
      invariant rest <= xmlNames
      invariant moved.Keys == xmlNames - rest
      invariant kept.Keys == files.Keys - (xmlNames - rest)
      invariant forall f :: f in moved ==> moved[f] == files[f]
      invariant forall f :: f in kept ==> kept[f] == files[f]
      decreases |rest|
    {
      var f :| f in rest;
      moved := moved[f := kept[f]];
      kept := kept - {f};
      rest := rest - {f};
    }
    MovedAll(files, xmlNames, moved, kept);
  }

  lemma {:induction false} MovedAll(files: map<string, seq<string>>, xmlNames: set<string>, moved: map<string, seq<string>>, kept: map<string, seq<string>>)
    requires xmlNames == set f | f in files && EndsWith(f, ".xml")
    requires moved.Keys == xmlNames && kept.Keys == files.Keys - xmlNames
    requires forall f :: f in moved ==> moved[f] == files[f]
    requires forall f :: f in kept ==> kept[f] == files[f]
    ensures moved == XmlFiles(files) && kept == OtherFiles(files)
  {
    assert moved.Keys == XmlFiles(files).Keys;
    assert kept.Keys == OtherFiles(files).Keys;
  }

  /** The last line of the statistics file, when it has one. */
  function StatsTail(files: map<string, seq<string>>): map<string, seq<string>>
  {
    if StatsName in files && files[StatsName] != [] then map[StatsName := [files[StatsName][|files[StatsName]| - 1]]]
    else map[]
  }

  /** Moving the XML files away keeps the statistics file. */
  lemma {:induction false} StatsTailOther(files: map<string, seq<string>>)
    ensures StatsTail(OtherFiles(files)) == StatsTail(files)
  {
    assert !EndsWith(StatsName, ".xml");
  }

  /** Storing the XML files and then finishing the subfolder leaves it
      holding `NewFolder`. */
  lemma FinishedFolder(dirs: map<string, map<string, seq<string>>>, folder: string,
                       input: map<string, seq<string>>, elapsed: string)
    ensures var stored := dirs[folder := XmlFiles(input)];
      stored[folder := (stored[folder] + StatsTail(OtherFiles(input)))[TimeName := [TimeJson(elapsed)]]]
        == dirs[folder := NewFolder(input, elapsed)]
  {
    StatsTailOther(input);
  }

  /** What the new subfolder holds: the XML files of the input folder,
      the last statistics line and the time the collection took. */
  function NewFolder(input: map<string, seq<string>>, elapsed: string): map<string, seq<string>>
  {
    (XmlFiles(input) + StatsTail(input))[TimeName := [TimeJson(elapsed)]]
  }

  datatype RunOutcome =
    | NoScriptsFolder              // the environment variable is unset or empty
    | NoScripts                    // the folder holds no collection script
    | Collected(scripts: seq<string>, folder: string)

  /** The input folder and the output folder. Names are relative to their
      folder, and a file is its list of lines. */
  class CoverageFolders {
    var inputIsDir: bool
    var input: map<string, seq<string>>
    /** The subfolders of the output folder and their files. */
    var outputDirs: map<string, map<string, seq<string>>>
    /** The other entries of the output folder. */
    var outputFiles: set<string>

    constructor(inputIsDir: bool, input: map<string, seq<string>>,
                outputDirs: map<string, map<string, seq<string>>>, outputFiles: set<string>)
      ensures this.inputIsDir == inputIsDir && this.input == input
      ensures this.outputDirs == outputDirs && this.outputFiles == outputFiles
    {
      this.inputIsDir := inputIsDir;
      this.input := input;
      this.outputDirs := outputDirs;
      this.outputFiles := outputFiles;
    }

    /** collect_and_store_xml_files: nothing to do when the input folder is
        missing or holds no XML file; otherwise every XML file moves,
        content and name kept, into a new subfolder `f"{next_num:04d}"`,
        whose name is returned. The ValueError of `max()` and the
        FileExistsError of a plain file of that name leave the folders as
        they were. */
    method CollectAndStore() returns (r: Result<Option<string>>)
      modifies this
      ensures inputIsDir == old(inputIsDir) && outputFiles == old(outputFiles)
      ensures !old(inputIsDir) || XmlFiles(old(input)) == map[] ==>
                r == Ok(None) && input == old(input) && outputDirs == old(outputDirs)
      ensures old(inputIsDir) && XmlFiles(old(input)) != map[] && old(outputDirs) != map[] && Numbered(old(outputDirs).Keys) == {} ==>
                r == Err(ValueError(NoMax)) && input == old(input) && outputDirs == old(outputDirs)
      ensures r.Err? ==> input == old(input) && outputDirs == old(outputDirs)
      ensures r.Err? && r.exc != ValueError(NoMax) ==>
                exists n :: IsNext(n, old(outputDirs).Keys) && ZeroPad(n, 4) in outputFiles
                               && r.exc == Raised("[Errno 17] File exists: '" + ZeroPad(n, 4) + "'")
      ensures r == Ok(None) <==> !old(inputIsDir) || XmlFiles(old(input)) == map[]
      ensures r.Ok? && r.value.Some? ==>
                && old(inputIsDir) && XmlFiles(old(input)) != map[]
                && (exists n :: IsNext(n, old(outputDirs).Keys) && r.value.value == ZeroPad(n, 4))
                && r.value.value !in old(outputDirs) && r.value.value !in outputFiles
                && outputDirs == old(outputDirs)[r.value.value := XmlFiles(old(input))]
                && input == OtherFiles(old(input))
    {
      if !inputIsDir {
        return Ok(None);
      }
      var xmlNames := set f | f in input && EndsWith(f, ".xml");
      if xmlNames == {} {
        assert XmlFiles(input).Keys == xmlNames;
        return Ok(None);
      }
      assert XmlFiles(input).Keys == xmlNames;
      var next := NextNumber(outputDirs.Keys);
      if next.Err? {
        return Err(next.exc);
      }
      var name := ZeroPad(next.value, 4);
      NextFolderFresh(next.value, outputDirs.Keys);
      if name in outputFiles {
        return Err(Raised("[Errno 17] File exists: '" + name + "'"));
      }
      var moved, kept := SplitXml(input);
      input := kept;
      outputDirs := outputDirs[name := moved];
      r := Ok(Some(name));
    }

    /** run_coverage_scripts, from the listing of the scripts folder (None
        when the environment variable is unset or empty), after the
        scripts have run: an input path that is no folder raises
        ValueError; with no XML file to collect the joins with the missing
        folder raise TypeError; otherwise the new subfolder also receives
        the last line of the statistics file, when there is one, and the
        time the collection took. */
    method RunCoverageScripts(inputPath: string, scriptsDir: Option<seq<string>>, elapsed: string)
      returns (r: Result<RunOutcome>)
      modifies this
      ensures inputIsDir == old(inputIsDir) && outputFiles == old(outputFiles)
      ensures scriptsDir.None? ==> r == Ok(NoScriptsFolder) && unchanged(this)
      ensures scriptsDir.Some? && !old(inputIsDir) ==>
                r == Err(ValueError("Input folder " + inputPath + " is not a valid directory")) && unchanged(this)
      ensures scriptsDir.Some? && old(inputIsDir) && CollectionScripts(scriptsDir.value) == [] ==>
                r == Ok(NoScripts) && unchanged(this)
      ensures scriptsDir.Some? && old(inputIsDir) && CollectionScripts(scriptsDir.value) != [] && XmlFiles(old(input)) == map[] ==>
                r == Err(TypeError(NoFolder)) && input == old(input) && outputDirs == old(outputDirs)
      ensures r.Ok? && r.value.Collected? ==>
                && r.value.scripts == CollectionScripts(scriptsDir.value)
                && r.value.folder !in old(outputDirs)
                && input == OtherFiles(old(input))
                && inputIsDir
                && outputDirs == old(outputDirs)[r.value.folder := NewFolder(old(input), elapsed)]
    {
      if scriptsDir.None? {
        return Ok(NoScriptsFolder);
      }
      if !inputIsDir {
        return Err(ValueError("Input folder " + inputPath + " is not a valid directory"));
      }
      var scripts := CollectionScripts(scriptsDir.value);
      if scripts == [] {
        return Ok(NoScripts);
      }
      var collected := CollectAndFinish(elapsed);
      if collected.Err? {
        return Err(collected.exc);
      }
      if collected.value.None? {
        return Err(TypeError(NoFolder));
      }
      r := Ok(Collected(scripts, collected.value.value));
    }

    /** The collection and the files written beside it. */
    method CollectAndFinish(elapsed: string) returns (r: Result<Option<string>>)
      modifies this
      ensures inputIsDir == old(inputIsDir) && outputFiles == old(outputFiles)
      ensures r == Ok(None) <==> !old(inputIsDir) || XmlFiles(old(input)) == map[]
      ensures r.Ok? && r.value.None? ==> input == old(input) && outputDirs == old(outputDirs)
      ensures r.Err? ==> input == old(input) && outputDirs == old(outputDirs)
      ensures r.Ok? && r.value.Some? ==>
                && r.value.value !in old(outputDirs)
                && input == OtherFiles(old(input))
                && inputIsDir
                && outputDirs == old(outputDirs)[r.value.value := NewFolder(old(input), elapsed)]
    {
      ghost var input0, dirs0 := input, outputDirs;
      r := CollectAndStore();
      if r.Ok? && r.value.Some? {
        var folder := r.value.value;
        FinishedFolder(dirs0, folder, input0, elapsed);
        FinishFolder(folder, elapsed);
      }
    }

    /** The last statistics line and time.json, written into a new
        subfolder. */
    method FinishFolder(folder: string, elapsed: string)
      requires folder in outputDirs
      modifies this
      ensures inputIsDir == old(inputIsDir) && outputFiles == old(outputFiles) && input == old(input)
      ensures outputDirs == old(outputDirs)[folder := (old(outputDirs)[folder] + StatsTail(input))[TimeName := [TimeJson(elapsed)]]]
    {
      var files := outputDirs[folder];
      if StatsName in input && input[StatsName] != [] {
        var lines := input[StatsName];
        files := files[StatsName := [lines[|lines| - 1]]];
        assert StatsTail(input) == map[StatsName := [lines[|lines| - 1]]];
      }
      assert files == old(outputDirs)[folder] + StatsTail(input);
      files := files[TimeName := [TimeJson(elapsed)]];
      outputDirs := outputDirs[folder := files];
    }

    /** cli: a `.timeout` file in the input folder stops everything; after
        the collection, a set end time that `now` is past leaves a
        `.timeout` file for the next call, and writing it into an input
        folder that does not exist raises FileNotFoundError. */
    method Cli(inputPath: string, scriptsDir: Option<seq<string>>, elapsed: string,
               endTimestamp: Option<int>, now: real, nowText: string)
      returns (r: Result<Option<RunOutcome>>)
      modifies this
      ensures inputIsDir == old(inputIsDir) && outputFiles == old(outputFiles)
      ensures old(inputIsDir) && TimeoutName in old(input) ==> r == Ok(None) && unchanged(this)
      ensures r.Ok? && r.value.Some? && r.value.value.Collected? ==>
                && inputIsDir
                && (TimeoutName in input <==>
                      (TimeoutName in old(input) || (endTimestamp.Some? && endTimestamp.value != 0 && now > endTimestamp.value as real)))
      ensures !old(inputIsDir) && scriptsDir.Some? ==>
                r == Err(ValueError("Input folder " + inputPath + " is not a valid directory")) && input == old(input)
      ensures !old(inputIsDir) && scriptsDir.None? && endTimestamp.Some? && endTimestamp.value != 0
              && now > endTimestamp.value as real ==>
                && r == Err(FileNotFoundError("[Errno 2] No such file or directory: '" + PyPath.Join(inputPath, TimeoutName) + "'"))
                && input == old(input)
    {
      if inputIsDir && TimeoutName in input {
        return Ok(None);
      }
      var run := RunCoverageScripts(inputPath, scriptsDir, elapsed);
      if run.Err? {
        return Err(run.exc);
      }
      assert run.value.Collected? ==> (TimeoutName in input <==> TimeoutName in old(input));
      if endTimestamp.Some? && endTimestamp.value != 0 && now > endTimestamp.value as real {
        if !inputIsDir {
          return Err(FileNotFoundError("[Errno 2] No such file or directory: '" + PyPath.Join(inputPath, TimeoutName) + "'"));
        }
        input := input[TimeoutName := ["Time limit exceeded: " + nowText + " > " + IntToString(endTimestamp.value)]];
      }
      r := Ok(Some(run.value));
    }
  }

  /** A stopped run stays stopped: when a call collects coverage and
      leaves the `.timeout` marker, the next call does nothing. */
  method TimeoutIsSticky(c: CoverageFolders, inputPath: string, scriptsDir: Option<seq<string>>, elapsed: string,
                         endTimestamp: Option<int>, now: real, nowText: string)
    returns (first: Result<Option<RunOutcome>>, marked: bool, second: Result<Option<RunOutcome>>)
    modifies c
    ensures first.Ok? && first.value.Some? && first.value.value.Collected? && marked ==> second == Ok(None)
  {
    first := c.Cli(inputPath, scriptsDir, elapsed, endTimestamp, now, nowText);
    marked := TimeoutName in c.input;
    second := c.Cli(inputPath, scriptsDir, elapsed, endTimestamp, now, nowText);
  }
}
