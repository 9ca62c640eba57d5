/** qite/qite_replay.py: replaying recorded QITE runs. The metadata of a
    run names its input program, its output program, its platform and its
    transformers; the input program is copied into a debug folder, a
    processor for the platform gets the transformers in the recorded
    order, and the QITE loop is run again with every exception let through
    and the recorded output name. Reading the metadata JSON and the run of
    the processor itself are parameters; the file system is the set of
    paths that exist. As written, nothing on this path gives the processor
    a round number, so its QITE loop raises AttributeError on every replay
    (`ExecuteAsWritten`); `RunQite` and `Chain` are stated for any run, and
    their general lemmas describe a replay whose processor has a round. */
module QiteReplay {
  import opened Py
  import PyPath
  import PlatformProcessor

  const Supported: seq<string> := ["qiskit", "pytket", "pennylane"]

  /** The keys of a metadata file that the replay reads, absent ones as
      None. */
  datatype Metadata = Metadata(inputQasm: Option<string>, outputQasm: Option<string>,
                               platform: Option<string>, transformerFunctions: Option<seq<string>>)

  /** A processor as setup_processor builds it: its platform, the debug
      folder it uses for metadata, errors and output, and its transformers
      in the order they were added. */
  datatype Processor<T> = Processor(platform: string, folder: string, transformers: seq<T>)

  /** One replayed run: the processor, the program it reads, and the output
      file name it must use; exceptions are always let through. */
  datatype Replay<T> = Replay(processor: Processor<T>, qasmFile: string, outputName: string)

  // copy_qasm_file

  /** The path of the recorded input program inside `folder`. */
  function InFolder(folder: string, recorded: string): string
  {
    PyPath.Join(folder, PyPath.Name(recorded))
  }

  /** copy_qasm_file over the set of existing paths: the program is looked
      for under its name in the input folder and copied under the same name
      into the output folder, unless both paths are the same; a missing
      source raises FileNotFoundError. */
  function CopyQasmFile(m: Metadata, inputFolder: string, outputFolder: string, fs: set<string>)
    : (Result<string>, set<string>)
  {
    if m.inputQasm.None? then (Err(KeyError("input_qasm")), fs)
    else
      var source := InFolder(inputFolder, m.inputQasm.value);
      var dest := PyPath.Join(outputFolder, PyPath.Name(source));
      if source == dest then (Ok(dest), fs)
      else if source !in fs then
        (Err(FileNotFoundError("[Errno 2] No such file or directory: '" + source + "'")), fs)
      else (Ok(dest), fs + {dest})
  }

  /** The copy lands in the output folder under the recorded name, adds
      that one path and nothing else, and copies nothing when the two
      folders are the same. */
  lemma {:induction false} CopyQasmFileSpec(m: Metadata, inputFolder: string, outputFolder: string, fs: set<string>)
    requires m.inputQasm.Some?
    ensures var (r, fs') := CopyQasmFile(m, inputFolder, outputFolder, fs);
      && (r.Ok? ==> && PyPath.Name(r.value) == PyPath.Name(m.inputQasm.value)
                    && PyPath.Parent(r.value) == outputFolder
                    && fs' == (if inputFolder == outputFolder then fs else fs + {r.value}))
      && (r.Err? ==> fs' == fs && InFolder(inputFolder, m.inputQasm.value) !in fs)
      && (inputFolder == outputFolder ==> r.Ok? && fs' == fs)
  {
    var n := PyPath.Name(m.inputQasm.value);
    PyPath.NameOfJoin(inputFolder, n);
    PyPath.NameOfJoin(outputFolder, n);
    PyPath.ParentOfJoin(outputFolder, n);
    var source := PyPath.Join(inputFolder, n);
    var dest := PyPath.Join(outputFolder, n);
    if source == dest {
      assert |inputFolder| == |outputFolder|;
      assert source[..|inputFolder|] == inputFolder && dest[..|outputFolder|] == outputFolder;
    }
  }

  // pick_relevant_transformers

  /** The transformers named in the metadata, looked up in order; the first
      unknown name raises ValueError. */
  function PickRelevant<T>(lookup: map<string, T>, names: seq<string>): Result<seq<T>>
  {
    if names == [] then Ok([])
    else if names[0] !in lookup then Err(ValueError("Unsupported transformer: " + names[0]))
    else Prepend([lookup[names[0]]], PickRelevant(lookup, names[1..]))
  }

  /** The pick is the dictionary lookup of the names, with ValueError in
      place of its KeyError. */
  lemma {:induction false} PickRelevantLookup<T>(lookup: map<string, T>, names: seq<string>)
    ensures PickRelevant(lookup, names).Ok? <==> Lookup(lookup, names).Ok?
    ensures PickRelevant(lookup, names).Ok? ==> PickRelevant(lookup, names).value == Lookup(lookup, names).value
    ensures PickRelevant(lookup, names).Err? ==>
      && Lookup(lookup, names).exc.KeyError?
      && PickRelevant(lookup, names).exc == ValueError("Unsupported transformer: " + Lookup(lookup, names).exc.key)
  {
    if names != [] && names[0] in lookup {
      PickRelevantLookup(lookup, names[1..]);
    }
  }

  /** pick_relevant_transformers. */
  method PickRelevantTransformers<T>(lookup: map<string, T>, names: seq<string>) returns (r: Result<seq<T>>)
    ensures r == PickRelevant(lookup, names)
  {
    var ts: seq<T> := [];
    PrependEmpty(PickRelevant(lookup, names));
    for i := 0 to |names|
      invariant PickRelevant(lookup, names) == Prepend(ts, PickRelevant(lookup, names[i..]))
    {
      assert names[i..][1..] == names[i + 1..];
      if names[i] !in lookup {
        return Err(ValueError("Unsupported transformer: " + names[i]));
      }
      PrependPrepend(ts, [lookup[names[i]]], PickRelevant(lookup, names[i + 1..]));
      ts := ts + [lookup[names[i]]];
    }
    assert names[|names|..] == [];
    assert ts + [] == ts;
    r := Ok(ts);
  }

  /** Every name known gives the transformer of each name in metadata
      order; otherwise the first unknown name is reported. */
  lemma {:induction false} PickRelevantSpec<T>(lookup: map<string, T>, names: seq<string>)
    ensures PickRelevant(lookup, names).Ok? <==> forall i :: 0 <= i < |names| ==> names[i] in lookup
    ensures PickRelevant(lookup, names).Ok? ==>
      && |PickRelevant(lookup, names).value| == |names|
      && forall i :: 0 <= i < |names| ==> PickRelevant(lookup, names).value[i] == lookup[names[i]]
    ensures PickRelevant(lookup, names).Err? ==>
      exists i :: && 0 <= i < |names| && names[i] !in lookup
                  && PickRelevant(lookup, names).exc == ValueError("Unsupported transformer: " + names[i])
                  && forall j :: 0 <= j < i ==> names[j] in lookup
  {
    LookupSpec(lookup, names);
    PickRelevantLookup(lookup, names);
  }

  // setup_processor

  /** setup_processor: an unsupported platform raises ValueError before
      any transformer is looked up. */
  function SetupProcessor<T>(m: Metadata, lookup: map<string, T>, folder: string): Result<Processor<T>>
  {
    if m.platform.None? then Err(KeyError("platform"))
    else if m.platform.value !in Supported then Err(ValueError("Unsupported platform: " + m.platform.value))
    else if m.transformerFunctions.None? then Err(KeyError("transformer_functions"))
    else
      match PickRelevant(lookup, m.transformerFunctions.value)
      case Err(e) => Err(e)
      case Ok(ts) => Ok(Processor(m.platform.value, folder, ts))
  }

  /** A processor is built exactly for the three supported platforms with
      every transformer known, and then holds them in metadata order. */
  lemma {:induction false} SetupProcessorSpec<T>(m: Metadata, lookup: map<string, T>, folder: string)
    requires m.platform.Some? && m.transformerFunctions.Some?
    ensures var r := SetupProcessor(m, lookup, folder);
      var names := m.transformerFunctions.value;
      && (r.Ok? <==> m.platform.value in Supported && forall i :: 0 <= i < |names| ==> names[i] in lookup)
      && (m.platform.value !in Supported ==> r == Err(ValueError("Unsupported platform: " + m.platform.value)))
      && (r.Ok? ==> && r.value.platform == m.platform.value && |r.value.transformers| == |names|
                    && forall i :: 0 <= i < |names| ==> r.value.transformers[i] == lookup[names[i]])
  {
    PickRelevantSpec(lookup, m.transformerFunctions.value);
  }

  // run_qite and run_qite_chain

  /** run_qite for loaded metadata: copy, set up, then replay with the name
      of the recorded output; the replay's exception is raised. */
  function RunQite<T>(m: Metadata, lookup: map<string, T>, inputFolder: string, debugFolder: string,
                      fs: set<string>, execute: Replay<T> -> Result<()>): (Result<Replay<T>>, set<string>)
  {
    var (copied, fs1) := CopyQasmFile(m, inputFolder, debugFolder, fs);
    if copied.Err? then (Err(copied.exc), fs1)
    else
      match SetupProcessor(m, lookup, debugFolder)
      case Err(e) => (Err(e), fs1)
      case Ok(p) =>
        if m.outputQasm.None? then (Err(KeyError("output_qasm")), fs1)
        else
          var replay := Replay(p, copied.value, PyPath.Name(m.outputQasm.value));
          match execute(replay)
          case Err(e) => (Err(e), fs1)
          case Ok(_) => (Ok(replay), fs1)
  }

  /** The class setup_processor instantiates for a supported platform. */
  function ProcessorClass(platform: string): string
  {
    if platform == "qiskit" then "QiskitProcessor"
    else if platform == "pytket" then "PytketProcessor"
    else "PennyLaneProcessor"
  }

  /** The exception execute_qite_loop raises on a processor whose round was
      never set. */
  function NoRound(platform: string): Exception
  {
    AttributeError("'" + ProcessorClass(platform) + "' object has no attribute 'round_number'")
  }

  /** execute_qite_loop on a processor that setup_processor built: nothing
      on the replay path calls set_round, so reading the round number for
      the first status raises before the program is read. */
  function ExecuteAsWritten<T>(replay: Replay<T>): Result<()>
  {
    Err(NoRound(replay.processor.platform))
  }

  /** The call run_qite makes, on the processor class itself: a processor
      with all three folders the debug folder and no round number raises
      AttributeError and writes no metadata, whatever the foreign code. */
  method ExecuteOnNewProcessor<C, T>(replay: Replay<T>, f: PlatformProcessor.Foreign<C>)
    returns (r: Result<Option<string>>, written: seq<(string, Py.Dict)>)
    ensures r.Err? && r.exc.AttributeError? && written == []
  {
    var folder := replay.processor.folder;
    var p := new PlatformProcessor.PlatformProcessor(folder, folder, folder);
    r := p.ExecuteQiteLoop(replay.qasmFile, true, Some(replay.outputName), f);
    written := p.metadataFiles;
  }

  /** run_qite as written never returns normally: once the copy, the
      set-up and the output name succeed, the QITE loop raises the missing
      round number of the platform's processor, and every other path raises
      earlier. */
  lemma {:induction false} RunQiteRaisesAsWritten<T>(m: Metadata, lookup: map<string, T>, inputFolder: string,
                                                     debugFolder: string, fs: set<string>)
    ensures var (r, fs') := RunQite(m, lookup, inputFolder, debugFolder, fs, ExecuteAsWritten);
      && r.Err?
      && (CopyQasmFile(m, inputFolder, debugFolder, fs).0.Ok? && SetupProcessor(m, lookup, debugFolder).Ok?
          && m.outputQasm.Some? ==>
            && m.platform.Some? && m.platform.value in Supported
            && r == Err(NoRound(m.platform.value))
            && fs' == CopyQasmFile(m, inputFolder, debugFolder, fs).1)
  {
    if m.platform.Some? && m.transformerFunctions.Some? {
      SetupProcessorSpec(m, lookup, debugFolder);
    }
  }

  /** run_qite_chain as written completes only on an empty list: on any
      other it stops at the first metadata file, with that file's
      exception and file system, and replays none of the rest. */
  lemma {:induction false} ChainFailsFirstAsWritten<T>(paths: seq<string>, load: string -> Result<Metadata>,
                                                       lookup: map<string, T>, inputFolder: string,
                                                       debugFolder: string, fs: set<string>)
    ensures var (r, fs') := Chain(paths, load, lookup, inputFolder, debugFolder, fs, ExecuteAsWritten);
      && (r.Ok? <==> paths == [])
      && (paths != [] && load(paths[0]).Ok? ==>
            var (r1, fs1) := RunQite(load(paths[0]).value, lookup, inputFolder, debugFolder, fs, ExecuteAsWritten);
            r == Err(r1.exc) && fs' == fs1)
  {
    if paths != [] && load(paths[0]).Ok? {
      RunQiteRaisesAsWritten(load(paths[0]).value, lookup, inputFolder, debugFolder, fs);
    }
  }

  /** A replay that runs reads the copy in the debug folder, writes under
      the recorded output name, and uses a processor whose folders are all
      the debug folder. */
  lemma {:induction false} RunQiteSpec<T>(m: Metadata, lookup: map<string, T>, inputFolder: string, debugFolder: string,
                       fs: set<string>, execute: Replay<T> -> Result<()>)
    requires m.inputQasm.Some? && m.outputQasm.Some?
    ensures var (r, _) := RunQite(m, lookup, inputFolder, debugFolder, fs, execute);
      r.Ok? ==> && PyPath.Name(r.value.qasmFile) == PyPath.Name(m.inputQasm.value)
                && PyPath.Parent(r.value.qasmFile) == debugFolder
                && r.value.outputName == PyPath.Name(m.outputQasm.value)
                && r.value.processor.folder == debugFolder
                && execute(r.value).Ok?
  {
    CopyQasmFileSpec(m, inputFolder, debugFolder, fs);
  }

  /** The replays of a chain of metadata files, in order; the first
      exception stops the chain. */
  function Chain<T>(paths: seq<string>, load: string -> Result<Metadata>, lookup: map<string, T>,
                    inputFolder: string, debugFolder: string, fs: set<string>,
                    execute: Replay<T> -> Result<()>): (Result<seq<Replay<T>>>, set<string>)
  {
    if paths == [] then (Ok([]), fs)
    else
      match load(paths[0])
      case Err(e) => (Err(e), fs)
      case Ok(m) =>
        var (r, fs1) := RunQite(m, lookup, inputFolder, debugFolder, fs, execute);
        if r.Err? then (Err(r.exc), fs1)
        else
          var (rest, fs2) := Chain(paths[1..], load, lookup, inputFolder, debugFolder, fs1, execute);
          (Prepend([r.value], rest), fs2)
  }

  /** run_qite_chain. */
  method RunQiteChain<T>(paths: seq<string>, load: string -> Result<Metadata>, lookup: map<string, T>,
                         inputFolder: string, debugFolder: string, fs0: set<string>,
                         execute: Replay<T> -> Result<()>)
    returns (r: Result<seq<Replay<T>>>, fs: set<string>)
    ensures (r, fs) == Chain(paths, load, lookup, inputFolder, debugFolder, fs0, execute)
  {
    var done: seq<Replay<T>> := [];
    fs := fs0;
    PrependEmpty(Chain(paths, load, lookup, inputFolder, debugFolder, fs0, execute).0);
    for i := 0 to |paths|
      invariant Chain(paths, load, lookup, inputFolder, debugFolder, fs0, execute).0
                == Prepend(done, Chain(paths[i..], load, lookup, inputFolder, debugFolder, fs, execute).0)
      invariant Chain(paths, load, lookup, inputFolder, debugFolder, fs0, execute).1
                == Chain(paths[i..], load, lookup, inputFolder, debugFolder, fs, execute).1
    {
      assert paths[i..][0] == paths[i] && paths[i..][1..] == paths[i + 1..];
      var m := load(paths[i]);
      if m.Err? {
        return Err(m.exc), fs;
      }
      var step, fs1 := RunQiteStep(m.value, lookup, inputFolder, debugFolder, fs, execute);
      if step.Err? {
        return Err(step.exc), fs1;
      }
      PrependPrepend(done, [step.value], Chain(paths[i + 1..], load, lookup, inputFolder, debugFolder, fs1, execute).0);
      done := done + [step.value];
      fs := fs1;
    }
    assert paths[|paths|..] == [];
    assert done + [] == done;
    r := Ok(done);
  }

  /** run_qite after the metadata is loaded. */
  method RunQiteStep<T>(m: Metadata, lookup: map<string, T>, inputFolder: string, debugFolder: string,
                        fs0: set<string>, execute: Replay<T> -> Result<()>)
    returns (r: Result<Replay<T>>, fs: set<string>)
    ensures (r, fs) == RunQite(m, lookup, inputFolder, debugFolder, fs0, execute)
  {
    var copy := CopyQasmFile(m, inputFolder, debugFolder, fs0);
    var copied := copy.0;
    fs := copy.1;
    if copied.Err? {
      return Err(copied.exc), fs;
    }
    var p := SetupProcessor(m, lookup, debugFolder);
    if p.Err? {
      return Err(p.exc), fs;
    }
    if m.outputQasm.None? {
      return Err(KeyError("output_qasm")), fs;
    }
    var replay := Replay(p.value, copied.value, PyPath.Name(m.outputQasm.value));
    var ran := execute(replay);
    r := if ran.Err? then Err(ran.exc) else Ok(replay);
  }

  /** A chain that completes replays every metadata file once, in order;
      one that fails has replayed a proper prefix of them and the failing
      one raised. */
  lemma {:induction false} ChainSpec<T>(paths: seq<string>, load: string -> Result<Metadata>, lookup: map<string, T>,
                                        inputFolder: string, debugFolder: string, fs: set<string>,
                                        execute: Replay<T> -> Result<()>)
    ensures var (r, _) := Chain(paths, load, lookup, inputFolder, debugFolder, fs, execute);
      && (r.Ok? ==> |r.value| == |paths| && forall i :: 0 <= i < |paths| ==> execute(r.value[i]).Ok?)
      && (r.Err? ==> paths != [])
  {
    if paths != [] {
      match load(paths[0])
      case Err(_) =>
      case Ok(m) =>
        var (r1, fs1) := RunQite(m, lookup, inputFolder, debugFolder, fs, execute);
        if r1.Ok? {
          ChainSpec(paths[1..], load, lookup, inputFolder, debugFolder, fs1, execute);
          RunQiteExecutes(m, lookup, inputFolder, debugFolder, fs, execute);
        }
    }
  }

  /** A replay that is returned ran without an exception. */
  lemma {:induction false} RunQiteExecutes<T>(m: Metadata, lookup: map<string, T>, inputFolder: string, debugFolder: string,
                           fs: set<string>, execute: Replay<T> -> Result<()>)
    ensures var (r, _) := RunQite(m, lookup, inputFolder, debugFolder, fs, execute);
      r.Ok? ==> execute(r.value).Ok?
  {
  }
}
