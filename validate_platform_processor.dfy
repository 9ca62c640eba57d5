/** validate/platform_processor.py: the older platform processor. Its
    operations behave as those of qite/base/primitives.py (the `Operation`
    class there is the same, line for line, so `Primitives.Operation` models
    both). The processor is the later one without its additions: no
    conversion loop, no round number, no timing and no predefined output
    name; the import, the transformers and the export are recorded the
    same way, names included when an operation crashes. */
module ValidatePlatformProcessor {
  import opened Py
  import opened PyStr
  import PySeq
  import PyPath
  import opened Primitives
  import PP = PlatformProcessor

  /** What the foreign code does in one run: the importer's, the `i`-th
      transformer's and the exporter's result or exception, the trace and
      clock reading an error record gets, and the uuid hex forms drawn for
      the error file and for the output name. */
  datatype Foreign<!C> = Foreign(
    importQasm: string -> Result<C>,
    transform: (nat, C) -> Result<C>,
    exportQasm: (C, string, string) -> Result<string>,
    traceback: string,
    timestamp: int,
    logHex: string,
    outputHex: string)

  /** The base name of a run's output files: the input's program id (the
      first `_`-separated token of its name), `_qite_` and six characters of
      a fresh uuid's hex form. */
  function OutputBase(qasmFile: string, hex: string): string
  {
    Before(PyPath.Name(qasmFile), "_") + "_qite_" + PySeq.Slice(hex, 0, 6)
  }

  /** An output's program id is its input's, and the output name is the
      later processor's name when no predefined name is given. */
  lemma {:induction false} ProgramIdSurvives(qasmFile: string, hex: string)
    requires '_' !in hex
    ensures Before(OutputBase(qasmFile, hex) + ".qasm", "_") == Before(PyPath.Name(qasmFile), "_")
    ensures OutputBase(qasmFile, hex) == PP.OutputBase(qasmFile, hex, None)
  {
    PP.ProgramIdSurvives(qasmFile, hex);
  }

  /** The status a run starts from: no round and no times. */
  function InitialStatus(qasmFile: string, platform: string): (s: Dict)
  {
    map["input_qasm" := Str(qasmFile), "platform" := Str(platform),
        "importer_function" := Null, "transformer_functions" := List([]),
        "exporter_function" := Null]
  }

  /** The status once the import returned, a circuit or a crash. */
  function Imported(s: Dict, importer: string): Dict
  {
    s["importer_function" := Str(importer)]
  }

  /** The status once the first `k` transformers were listed. */
  function Named(s: Dict, ts: seq<Operation>, k: nat): Dict
    requires k <= |ts|
  {
    s["transformer_functions" := List(PP.NameValues(ts, k))]
  }

  /** The status once the export returned, a path or a crash. */
  function Exported(s: Dict, exporter: string, out: Outcome<string>): Dict
  {
    s["exporter_function" := Str(exporter)]["output_qasm" := PP.OutputValue(out)]
  }

  /** execute_qite_loop once the operations are configured, from status
      `s0`: an import crash stops the run; otherwise the transformers and the
      exporter run on the imported circuit. With exceptions let through, the
      first exception is raised instead of the crash. */
  function QiteLoop<C>(s0: Dict, importer: string, ts: seq<Operation>, exporter: string,
                       qasmFile: string, outputFolder: string, fileName: string,
                       raiseAny: bool, f: Foreign<C>): PP.Run
  {
    match f.importQasm(qasmFile)
    case Err(e) =>
      if raiseAny then PP.Run(Err(e), s0) else PP.Run(Ok(None), Imported(s0, importer))
    case Ok(qc) =>
      TransformThenExport(Imported(s0, importer), qc, ts, exporter, outputFolder, fileName, raiseAny, f)
  }

  /** The rest of the run after the import returned circuit `qc`. */
  function TransformThenExport<C>(s1: Dict, qc: C, ts: seq<Operation>, exporter: string,
                                  outputFolder: string, fileName: string, raiseAny: bool, f: Foreign<C>): PP.Run
  {
    var n := |ts|;
    match PP.Apply(f.transform, qc, n)
    case Err(e) =>
      PP.Run(if raiseAny then Err(e) else Ok(None), Named(s1, ts, PP.Attempted(f.transform, qc, n)))
    case Ok(q) => ExportStep(Named(s1, ts, n), q, exporter, outputFolder, fileName, raiseAny, f)
  }

  /** The export of the last circuit `q`. */
  function ExportStep<C>(s2: Dict, q: C, exporter: string, outputFolder: string, fileName: string,
                         raiseAny: bool, f: Foreign<C>): PP.Run
  {
    match f.exportQasm(q, outputFolder, fileName)
    case Err(e) =>
      if raiseAny then PP.Run(Err(e), s2)
      else PP.Run(Ok(None), Exported(s2, exporter, Crashed(GenericCrash)))
    case Ok(p) => PP.Run(Ok(Some(p)), Exported(s2, exporter, Done(p)))
  }

  /** A run returns a path exactly when the import, every transformer and
      the export succeed, and that path is the exporter's; the status then
      lists every transformer and names the path as the output. */
  lemma {:induction false} QiteLoopSucceeds<C>(s0: Dict, importer: string, ts: seq<Operation>, exporter: string,
                                               qasmFile: string, outputFolder: string, fileName: string,
                                               raiseAny: bool, f: Foreign<C>)
    ensures var run := QiteLoop(s0, importer, ts, exporter, qasmFile, outputFolder, fileName, raiseAny, f);
      run.result.Ok? && run.result.value.Some? <==>
        && f.importQasm(qasmFile).Ok?
        && PP.Apply(f.transform, f.importQasm(qasmFile).value, |ts|).Ok?
        && f.exportQasm(PP.Apply(f.transform, f.importQasm(qasmFile).value, |ts|).value, outputFolder, fileName).Ok?
    ensures var run := QiteLoop(s0, importer, ts, exporter, qasmFile, outputFolder, fileName, raiseAny, f);
      run.result.Ok? && run.result.value.Some? ==>
        && run.result.value.value
           == f.exportQasm(PP.Apply(f.transform, f.importQasm(qasmFile).value, |ts|).value, outputFolder, fileName).value
        && run.status["output_qasm"] == Str(run.result.value.value)
        && run.status["transformer_functions"] == List(PP.NameValues(ts, |ts|))
  {
  }

  /** An import crash ends the run with None; the importer is named and
      nothing else in the status changes. */
  lemma {:induction false} ImportCrashStatus<C>(s0: Dict, importer: string, ts: seq<Operation>, exporter: string,
                                                qasmFile: string, outputFolder: string, fileName: string, f: Foreign<C>)
    requires f.importQasm(qasmFile).Err?
    ensures var run := QiteLoop(s0, importer, ts, exporter, qasmFile, outputFolder, fileName, false, f);
      && run.result == Ok(None)
      && run.status == s0["importer_function" := Str(importer)]
  {
  }

  /** After a transformer crash the result is None and the status lists the
      transformers up to and including the crashing one, and no export. */
  lemma {:induction false} TransformerCrashStatus<C>(s0: Dict, importer: string, ts: seq<Operation>, exporter: string,
                                                     qasmFile: string, outputFolder: string, fileName: string,
                                                     f: Foreign<C>, i: nat)
    requires f.importQasm(qasmFile).Ok?
    requires i < |ts|
    requires PP.Apply(f.transform, f.importQasm(qasmFile).value, i).Ok?
    requires PP.Apply(f.transform, f.importQasm(qasmFile).value, i + 1).Err?
    ensures var run := QiteLoop(s0, importer, ts, exporter, qasmFile, outputFolder, fileName, false, f);
      && run.result == Ok(None)
      && run.status["transformer_functions"].List?
      && |run.status["transformer_functions"].items| == i + 1
      && (forall j :: 0 <= j <= i ==> run.status["transformer_functions"].items[j] == Str(ts[j].name))
      && run.status - {"importer_function", "transformer_functions"} == s0 - {"importer_function", "transformer_functions"}
  {
    var qc := f.importQasm(qasmFile).value;
    PP.StopsAtFirstFailure(f.transform, qc, |ts|, i);
    forall j | 0 <= j <= i
      ensures PP.NameValues(ts, i + 1)[j] == Str(ts[j].name)
    {
      PP.NameValuesAt(ts, i + 1, j);
    }
  }

  /** An export crash ends the run with None, but the exporter is named
      and the crash marker is recorded as the output. */
  lemma {:induction false} ExportCrashStatus<C>(s0: Dict, importer: string, ts: seq<Operation>, exporter: string,
                                                qasmFile: string, outputFolder: string, fileName: string, f: Foreign<C>)
    requires f.importQasm(qasmFile).Ok?
    requires PP.Apply(f.transform, f.importQasm(qasmFile).value, |ts|).Ok?
    requires f.exportQasm(PP.Apply(f.transform, f.importQasm(qasmFile).value, |ts|).value, outputFolder, fileName).Err?
    ensures var run := QiteLoop(s0, importer, ts, exporter, qasmFile, outputFolder, fileName, false, f);
      && run.result == Ok(None)
      && run.status["exporter_function"] == Str(exporter)
      && run.status["output_qasm"] == PP.OutputValue(Crashed(GenericCrash))
      && run.status["transformer_functions"] == List(PP.NameValues(ts, |ts|))
  {
  }

  /** One turn of the transformer loop, on values: transformer `i` ran on
      the circuit the first `i` produced, so its outcome is the chain's after
      `i + 1`; the status lists `i + 1` names; and a failure is the last
      transformer attempted. */
  lemma {:induction false} TransformerTurn<C>(s: Dict, ts: seq<Operation>, transform: (nat, C) -> Result<C>, qc0: C, qc: C,
                                              i: nat, out: Result<Outcome<C>>, raiseAny: bool)
    requires i < |ts| && PP.Apply(transform, qc0, i) == Ok(qc)
    requires out == PP.RunResult(transform(i, qc), raiseAny)
    ensures out == PP.RunResult(PP.Apply(transform, qc0, i + 1), raiseAny)
    ensures PP.Listed(Named(s, ts, i), ts[i].name) == Named(s, ts, i + 1)
    ensures out.Err? || out.value.Crashed? ==>
      PP.Attempted(transform, qc0, |ts|) == i + 1 && PP.Apply(transform, qc0, |ts|) == PP.Apply(transform, qc0, i + 1)
  {
    if out.Err? || out.value.Crashed? {
      PP.StopsAtFirstFailure(transform, qc0, |ts|, i);
    }
  }

  class PlatformProcessor {
    var importer: Operation?
    var transformers: seq<Operation>
    var exporter: Operation?
    const name: string
    const metadataFolder: string
    const errorFolder: string
    const outputFolder: string
    var currentStatus: Dict
    /** The metadata files written, path and content, in order. */
    var metadataFiles: seq<(string, Dict)>

    constructor (metadataFolder: string, errorFolder: string, outputFolder: string)
      ensures importer == null && transformers == [] && exporter == null
      ensures name == "base_class_processor"
      ensures this.metadataFolder == metadataFolder && this.errorFolder == errorFolder
      ensures this.outputFolder == outputFolder
      ensures currentStatus == map[] && metadataFiles == []
    {
      importer := null;
      transformers := [];
      exporter := null;
      name := "base_class_processor";
      this.metadataFolder := metadataFolder;
      this.errorFolder := errorFolder;
      this.outputFolder := outputFolder;
      currentStatus := map[];
      metadataFiles := [];
    }

    /** The operations the processor holds. */
    function Ops(): set<Operation>
      reads this`importer, this`transformers, this`exporter
    {
      (if importer == null then {} else {importer}) + (set t | t in transformers)
      + (if exporter == null then {} else {exporter})
    }

    predicate SlotsSet()
      reads this`importer, this`exporter
    {
      importer != null && exporter != null
    }

    /** Every transformer lets exceptions through as asked and knows the
        processor's folders. */
    predicate TransformersReady(raiseAny: bool)
      reads this`transformers
      reads transformers`raiseAnyException, transformers`metadataFolder, transformers`errorFolder
    {
      forall j :: 0 <= j < |transformers| ==> transformers[j].Ready(raiseAny, metadataFolder, errorFolder)
    }

    /** Every operation lets exceptions through as asked and knows the
        processor's folders. */
    predicate Configured(raiseAny: bool)
      reads this`importer, this`transformers, this`exporter
      reads {importer, exporter}`raiseAnyException, {importer, exporter}`metadataFolder, {importer, exporter}`errorFolder
      reads transformers`raiseAnyException, transformers`metadataFolder, transformers`errorFolder
    {
      && SlotsSet()
      && importer.Ready(raiseAny, metadataFolder, errorFolder)
      && exporter.Ready(raiseAny, metadataFolder, errorFolder)
      && TransformersReady(raiseAny)
    }

    method SetImporter(op: Operation?)
      modifies this`importer
      ensures importer == op
    {
      importer := op;
    }

    /** add_transformer: transformers run in the order they were added. */
    method AddTransformer(op: Operation)
      modifies this`transformers
      ensures transformers == old(transformers) + [op]
    {
      transformers := transformers + [op];
    }

    method SetExporter(op: Operation?)
      modifies this`exporter
      ensures exporter == op
    {
      exporter := op;
    }

    /** The operations in one sequence, each at least once. */
    function OpList(): (ops: seq<Operation>)
      requires SlotsSet()
      reads this`importer, this`transformers, this`exporter
    {
      [importer] + transformers + [exporter]
    }

    /** set_exception_handling: every operation gets the flag. An unset
        importer or exporter slot holds None, which has no such method;
        which operations were updated before it is reached depends on set
        order, so nothing is said about their flags then. */
    method SetExceptionHandling(raiseAny: bool) returns (r: Result<()>)
      modifies Ops()`raiseAnyException
      ensures r.Ok? <==> SlotsSet()
      ensures r.Err? ==> r.exc.AttributeError?
      ensures r.Ok? ==> forall o :: o in Ops() ==> o.raiseAnyException == raiseAny
    {
      if !SlotsSet() {
        return Err(AttributeError("'NoneType' object has no attribute 'set_exception_handling'"));
      }
      var ops := OpList();
      assert forall o :: o in Ops() ==> o in ops;
      for i := 0 to |ops|
        invariant forall j :: 0 <= j < i ==> ops[j].raiseAnyException == raiseAny
      {
        ops[i].SetExceptionHandling(raiseAny);
      }
      return Ok(());
    }

    /** set_folders: every operation gets both folders. */
    method SetFolders(metadata: string, error: string) returns (r: Result<()>)
      modifies Ops()`metadataFolder, Ops()`errorFolder
      ensures r.Ok? <==> SlotsSet()
      ensures r.Err? ==> r.exc.AttributeError?
      ensures r.Ok? ==> forall o :: o in Ops() ==> o.metadataFolder == Some(metadata) && o.errorFolder == Some(error)
    {
      if !SlotsSet() {
        return Err(AttributeError("'NoneType' object has no attribute 'set_folders'"));
      }
      var ops := OpList();
      assert forall o :: o in Ops() ==> o in ops;
      for i := 0 to |ops|
        invariant forall j :: 0 <= j < i ==> ops[j].metadataFolder == Some(metadata) && ops[j].errorFolder == Some(error)
      {
        ops[i].SetFolders(metadata, error);
      }
      return Ok(());
    }

    /** set_exception_handling followed by set_folders with the
        processor's own folders, as the loop begins. */
    method Configure(raiseAny: bool) returns (r: Result<()>)
      modifies Ops()`raiseAnyException, Ops()`metadataFolder, Ops()`errorFolder
      ensures r.Ok? <==> SlotsSet()
      ensures r.Err? ==> r.exc.AttributeError?
      ensures r.Ok? ==> Configured(raiseAny)
    {
      r := SetExceptionHandling(raiseAny);
      if r.Err? {
        return;
      }
      r := SetFolders(metadataFolder, errorFolder);
    }

    /** _handle_import: load the status into the importer, run it (its
        `import_qasm` returned or raised `imported`), then record the
        importer's name, whether the run returned a circuit or a crash. */
    method HandleImport<C>(imported: Result<C>, tb: string, clock: int, hex: string, ghost raiseAny: bool)
      returns (r: Result<Outcome<C>>)
      requires Configured(raiseAny)
      requires "input_qasm" in currentStatus && currentStatus["input_qasm"].Str?
      modifies this`currentStatus, importer`currentStatus, importer`inputBaseQasmName, importer`errorFiles
      ensures r == PP.RunResult(imported, raiseAny)
      ensures r.Err? ==> currentStatus == old(currentStatus)
      ensures r.Ok? ==> currentStatus == Imported(old(currentStatus), importer.name)
    {
      var loaded := importer.LoadCurrentStatus(currentStatus);
      r := importer.Run(imported, tb, clock, hex);
      if r.Err? {
        return;
      }
      currentStatus := Imported(currentStatus, importer.name);
    }

    /** Transformer `i` of the loop, run on the circuit the first `i`
        produced: its name is listed, it is given the status and run, and its
        outcome is the chain's after `i + 1` transformers. */
    method TransformerAt<C>(t: Operation, i: nat, qc0: C, qc: C, transform: (nat, C) -> Result<C>,
                            tb: string, clock: int, hex: string, ghost raiseAny: bool, ghost s1: Dict)
      returns (r: Result<Outcome<C>>)
      requires i < |transformers| && t == transformers[i] && t.Ready(raiseAny, metadataFolder, errorFolder)
      requires PP.Apply(transform, qc0, i) == Ok(qc)
      requires "input_qasm" in s1 && s1["input_qasm"].Str?
      requires currentStatus == Named(s1, transformers, i)
      modifies this`currentStatus, t`currentStatus, t`inputBaseQasmName, t`errorFiles
      ensures r == PP.RunResult(PP.Apply(transform, qc0, i + 1), raiseAny)
      ensures currentStatus == Named(s1, transformers, i + 1)
      ensures r.Err? || r.value.Crashed? ==>
        PP.Attempted(transform, qc0, |transformers|) == i + 1
        && PP.Apply(transform, qc0, |transformers|) == PP.Apply(transform, qc0, i + 1)
    {
      r := ListAndRun(t, transform(i, qc), tb, clock, hex, raiseAny);
      TransformerTurn(s1, transformers, transform, qc0, qc, i, r, raiseAny);
    }

    /** The transformer's name is listed, then the transformer is given the
        status and run (its `transform` returned or raised `transformed`). */
    method ListAndRun<C>(t: Operation, transformed: Result<C>, tb: string, clock: int, hex: string, ghost raiseAny: bool)
      returns (r: Result<Outcome<C>>)
      requires t.Ready(raiseAny, metadataFolder, errorFolder)
      requires "input_qasm" in currentStatus && currentStatus["input_qasm"].Str?
      requires "transformer_functions" in currentStatus && currentStatus["transformer_functions"].List?
      modifies this`currentStatus, t`currentStatus, t`inputBaseQasmName, t`errorFiles
      ensures r == PP.RunResult(transformed, raiseAny)
      ensures currentStatus == PP.Listed(old(currentStatus), t.name)
    {
      currentStatus := PP.Listed(currentStatus, t.name);
      var loaded := t.LoadCurrentStatus(currentStatus);
      r := t.Run(transformed, tb, clock, hex);
    }

    /** The transformer loop: the list of transformer names starts empty;
        each transformer in turn is listed and run on the previous one's
        circuit; a crash ends the loop. */
    method RunTransformers<C>(qc0: C, transform: (nat, C) -> Result<C>,
                              tb: string, clock: int, hex: string, ghost raiseAny: bool, ghost s1: Dict)
      returns (r: Result<Outcome<C>>)
      requires TransformersReady(raiseAny)
      requires currentStatus == s1 && "input_qasm" in s1 && s1["input_qasm"].Str?
      modifies this`currentStatus, transformers`currentStatus, transformers`inputBaseQasmName, transformers`errorFiles
      ensures r == PP.RunResult(PP.Apply(transform, qc0, |transformers|), raiseAny)
      ensures currentStatus == Named(s1, transformers, PP.Attempted(transform, qc0, |transformers|))
    {
      currentStatus := currentStatus["transformer_functions" := List([])];
      var qc := qc0;
      var i := 0;
      while i < |transformers|
        invariant 0 <= i <= |transformers|
        invariant PP.Apply(transform, qc0, i) == Ok(qc)
        invariant currentStatus == Named(s1, transformers, i)
      {
        var out := TransformerAt(transformers[i], i, qc0, qc, transform, tb, clock, hex, raiseAny, s1);
        if out.Err? || out.value.Crashed? {
          return out;
        }
        qc := out.value.value;
        i := i + 1;
      }
      return Ok(Done(qc));
    }

    /** _handle_export: load the status into the exporter, run it (its
        `export` returned or raised `exported`), then record the exporter's
        name and what the run returned as the output, a crash included. */
    method HandleExport(exported: Result<string>, tb: string, clock: int, hex: string, ghost raiseAny: bool)
      returns (r: Result<Outcome<string>>)
      requires Configured(raiseAny)
      requires "input_qasm" in currentStatus && currentStatus["input_qasm"].Str?
      modifies this`currentStatus, exporter`currentStatus, exporter`inputBaseQasmName, exporter`errorFiles
      ensures r == PP.RunResult(exported, raiseAny)
      ensures r.Err? ==> currentStatus == old(currentStatus)
      ensures r.Ok? ==> currentStatus == Exported(old(currentStatus), exporter.name, r.value)
    {
      var loaded := exporter.LoadCurrentStatus(currentStatus);
      r := exporter.Run(exported, tb, clock, hex);
      if r.Err? {
        return;
      }
      currentStatus := Exported(currentStatus, exporter.name, r.value);
    }

    /** execute_qite_loop: the status starts afresh; every slot must hold an
        operation; then the run follows `QiteLoop`, and only a run that
        returns a path writes the status as `<base>.json` into the metadata
        folder. */
    method ExecuteQiteLoop<C>(qasmFile: string, raiseAny: bool, f: Foreign<C>)
      returns (r: Result<Option<string>>)
      modifies this`currentStatus, this`metadataFiles, Ops()
      ensures !SlotsSet() ==>
        && r.Err? && r.exc.AttributeError?
        && currentStatus == InitialStatus(qasmFile, name)
        && metadataFiles == old(metadataFiles)
      ensures SlotsSet() ==>
        var base := OutputBase(qasmFile, f.outputHex);
        var run := QiteLoop(InitialStatus(qasmFile, name), importer.name, transformers,
                            exporter.name, qasmFile, outputFolder, base + ".qasm", raiseAny, f);
        && Configured(raiseAny)
        && r == run.result && currentStatus == run.status
        && metadataFiles == old(metadataFiles) + PP.Stored(metadataFolder, base, run)
    {
      currentStatus := InitialStatus(qasmFile, name);
      var base := OutputBase(qasmFile, f.outputHex);
      r := ConfigureAndRun(qasmFile, base, raiseAny, f);
    }

    /** The part of execute_qite_loop after the output base name is chosen:
        the operations are configured, and a run from the current status
        follows. */
    method ConfigureAndRun<C>(qasmFile: string, base: string, raiseAny: bool, f: Foreign<C>)
      returns (r: Result<Option<string>>)
      requires "input_qasm" in currentStatus && currentStatus["input_qasm"].Str?
      modifies this`currentStatus, this`metadataFiles, Ops()
      ensures !SlotsSet() ==>
        r.Err? && r.exc.AttributeError? && currentStatus == old(currentStatus) && metadataFiles == old(metadataFiles)
      ensures SlotsSet() ==>
        var run := QiteLoop(old(currentStatus), importer.name, transformers, exporter.name,
                            qasmFile, outputFolder, base + ".qasm", raiseAny, f);
        && Configured(raiseAny)
        && r == run.result && currentStatus == run.status
        && metadataFiles == old(metadataFiles) + PP.Stored(metadataFolder, base, run)
    {
      var configured := Configure(raiseAny);
      if configured.Err? {
        return Err(configured.exc);
      }
      r := ImportAndContinue(qasmFile, base, raiseAny, f);
    }

    /** The part of execute_qite_loop after the operations are configured:
        _handle_import, then the rest unless the import crashed. */
    method ImportAndContinue<C>(qasmFile: string, base: string, ghost raiseAny: bool, f: Foreign<C>)
      returns (r: Result<Option<string>>)
      requires Configured(raiseAny)
      requires "input_qasm" in currentStatus && currentStatus["input_qasm"].Str?
      modifies this`currentStatus, this`metadataFiles, Ops()`currentStatus, Ops()`inputBaseQasmName, Ops()`errorFiles
      ensures var run := QiteLoop(old(currentStatus), importer.name, transformers, exporter.name,
                                  qasmFile, outputFolder, base + ".qasm", raiseAny, f);
        && r == run.result && currentStatus == run.status
        && metadataFiles == old(metadataFiles) + PP.Stored(metadataFolder, base, run)
    {
      var qc := HandleImport(f.importQasm(qasmFile), f.traceback, f.timestamp, f.logHex, raiseAny);
      if qc.Err? {
        return Err(qc.exc);
      }
      if qc.value.Crashed? {
        return Ok(None);
      }
      r := TransformAndExport(qc.value.value, base, raiseAny, f);
    }

    /** The part of execute_qite_loop after a successful import. */
    method TransformAndExport<C>(qc: C, base: string, ghost raiseAny: bool, f: Foreign<C>)
      returns (r: Result<Option<string>>)
      requires Configured(raiseAny)
      requires "input_qasm" in currentStatus && currentStatus["input_qasm"].Str?
      modifies this`currentStatus, this`metadataFiles, transformers`currentStatus, transformers`inputBaseQasmName
      modifies transformers`errorFiles, exporter`currentStatus, exporter`inputBaseQasmName, exporter`errorFiles
      ensures var run := TransformThenExport(old(currentStatus), qc, transformers, exporter.name,
                                             outputFolder, base + ".qasm", raiseAny, f);
        && r == run.result && currentStatus == run.status
        && metadataFiles == old(metadataFiles) + PP.Stored(metadataFolder, base, run)
    {
      ghost var s1 := currentStatus;
      var out := RunTransformers(qc, f.transform, f.traceback, f.timestamp, f.logHex, raiseAny, s1);
      PP.AttemptedSpec(f.transform, qc, |transformers|);
      if out.Err? {
        return Err(out.exc);
      }
      if out.value.Crashed? {
        return Ok(None);
      }
      r := ExportAndStore(out.value.value, base, raiseAny, f);
    }

    /** _handle_export and, when it returned a path, the provenance
        metadata. */
    method ExportAndStore<C>(q: C, base: string, ghost raiseAny: bool, f: Foreign<C>)
      returns (r: Result<Option<string>>)
      requires Configured(raiseAny)
      requires "input_qasm" in currentStatus && currentStatus["input_qasm"].Str?
      modifies this`currentStatus, this`metadataFiles, exporter`currentStatus, exporter`inputBaseQasmName
      modifies exporter`errorFiles
      ensures var run := ExportStep(old(currentStatus), q, exporter.name, outputFolder, base + ".qasm", raiseAny, f);
        && r == run.result && currentStatus == run.status
        && metadataFiles == old(metadataFiles) + PP.Stored(metadataFolder, base, run)
    {
      var path := HandleExport(f.exportQasm(q, outputFolder, base + ".qasm"), f.traceback, f.timestamp, f.logHex, raiseAny);
      if path.Err? {
        return Err(path.exc);
      }
      if path.value.Crashed? {
        return Ok(None);
      }
      metadataFiles := metadataFiles + [(PyPath.Join(metadataFolder, base + ".json"), currentStatus)];
      return Ok(Some(path.value.value));
    }
  }
}
