/** qite/processors/platform_processor.py: a platform processor runs one
    QASM program through its importer, its transformers in order and its
    exporter, stops at the first crash, and records what it did in a status
    dict that becomes the program's provenance metadata. */
module PlatformProcessor {
  import opened Py
  import opened PyStr
  import PySeq
  import PyPath
  import opened Primitives

  /** The `.qasm` entries of a directory listing, in listing order. */
  function QasmFiles(listing: seq<string>): (r: seq<string>)
    ensures forall f :: f in r <==> f in listing && EndsWith(f, ".qasm")
  {
    if listing == [] then []
    else (if EndsWith(listing[0], ".qasm") then [listing[0]] else []) + QasmFiles(listing[1..])
  }

  /** QasmSelector.pick: one of the folder's QASM files, joined to the
      folder. `draw` stands for `random.choice`'s choice; with no QASM file
      the choice raises. */
  function Pick(folder: string, listing: seq<string>, draw: nat): (r: Result<string>)
    ensures r.Ok? <==> exists f :: f in listing && EndsWith(f, ".qasm")
    ensures r.Ok? ==> exists f :: f in listing && EndsWith(f, ".qasm") && r.value == PyPath.Join(folder, f)
    ensures r.Err? ==> r.exc.IndexError?
  {
    var files := QasmFiles(listing);
    if files == [] then Err(IndexError("Cannot choose from an empty sequence"))
    else
      assert files[draw % |files|] in files;
      Ok(PyPath.Join(folder, files[draw % |files|]))
  }

  /** The base name of a run's output files: a predefined file name's stem,
      or the input's program id (the first `_`-separated token of its name),
      `_qite_` and six characters of a fresh uuid's hex form. */
  function OutputBase(qasmFile: string, hex: string, predefined: Option<string>): string
  {
    if Truthy(predefined) then PyPath.Stem(predefined.value)
    else Before(PyPath.Name(qasmFile), "_") + "_qite_" + PySeq.Slice(hex, 0, 6)
  }

  /** Without a predefined name, an output's program id is its input's, so
      the id survives every round of the loop. */
  lemma {:induction false} ProgramIdSurvives(qasmFile: string, hex: string)
    requires '_' !in hex
    ensures Before(OutputBase(qasmFile, hex, None) + ".qasm", "_") == Before(PyPath.Name(qasmFile), "_")
  {
    var t := Before(PyPath.Name(qasmFile), "_");
    ContainsChar(t, '_');
    var u := PySeq.Slice(hex, 0, 6);
    assert OutputBase(qasmFile, hex, None) + ".qasm" == t + ['_'] + ("qite_" + u + ".qasm");
    BeforeCons(t, '_', "qite_" + u + ".qasm");
  }

  /** What the foreign code does in one run: the importer's, the `i`-th
      transformer's and the exporter's result or exception, the time each
      step takes (step 0 is the import, step `i + 1` the `i`-th transformer,
      the step after the last transformer the export), the trace and clock
      reading an error record gets, and the uuid hex forms drawn for the
      error file and for the output name. */
  datatype Foreign<!C> = Foreign(
    importQasm: string -> Result<C>,
    transform: (nat, C) -> Result<C>,
    exportQasm: (C, string, string) -> Result<string>,
    elapsed: nat -> int,
    traceback: string,
    timestamp: int,
    logHex: string,
    outputHex: string)

  /** What `run` of an operation returns or raises once its folders are set
      and its status names a string input: the result, the exception when
      exceptions are let through, and otherwise GENERIC_CRASH. */
  function RunResult<T>(execute: Result<T>, raiseAny: bool): (r: Result<Outcome<T>>)
  {
    match execute
    case Ok(v) => Ok(Done(v))
    case Err(e) => if raiseAny then Err(e) else Ok(Crashed(GenericCrash))
  }

  /** The circuit after the first `k` transformers, or the first exception
      one of them raised. */
  function Apply<C>(transform: (nat, C) -> Result<C>, qc: C, k: nat): Result<C>
  {
    if k == 0 then Ok(qc)
    else match Apply(transform, qc, k - 1)
      case Err(e) => Err(e)
      case Ok(q) => transform(k - 1, q)
  }

  /** How many of `n` transformers run: up to and including the first that
      fails, or all of them. */
  function Attempted<C>(transform: (nat, C) -> Result<C>, qc: C, n: nat): (k: nat)
    ensures k <= n
    ensures n > 0 ==> k > 0
  {
    if n == 0 then 0
    else if Apply(transform, qc, n - 1).Err? then Attempted(transform, qc, n - 1)
    else n
  }

  /** Once a transformer fails, the chain's result is that failure. */
  lemma {:induction false} ApplyStaysErr<C>(transform: (nat, C) -> Result<C>, qc: C, k: nat, m: nat)
    requires k <= m && Apply(transform, qc, k).Err?
    ensures Apply(transform, qc, m) == Apply(transform, qc, k)
    decreases m
  {
    if k < m {
      ApplyStaysErr(transform, qc, k, m - 1);
    }
  }

  /** The transformers before the last one attempted all succeed; when the
      chain fails, the last one attempted raised the chain's exception; when
      it succeeds, every transformer ran. */
  lemma {:induction false} AttemptedSpec<C>(transform: (nat, C) -> Result<C>, qc: C, n: nat)
    ensures var k := Attempted(transform, qc, n);
      && (n > 0 ==> 0 < k && Apply(transform, qc, k - 1).Ok?)
      && Apply(transform, qc, k) == Apply(transform, qc, n)
      && (Apply(transform, qc, n).Ok? ==> k == n)
  {
    if n > 0 && Apply(transform, qc, n - 1).Err? {
      AttemptedSpec(transform, qc, n - 1);
      assert n - 1 > 0;
    }
  }

  /** A transformer that fails after all earlier ones succeeded is the last
      one attempted, and its exception is the chain's. */
  lemma {:induction false} StopsAtFirstFailure<C>(transform: (nat, C) -> Result<C>, qc: C, n: nat, i: nat)
    requires i < n && Apply(transform, qc, i + 1).Err? && Apply(transform, qc, i).Ok?
    ensures Attempted(transform, qc, n) == i + 1
    ensures Apply(transform, qc, n) == Apply(transform, qc, i + 1)
    decreases n
  {
    ApplyStaysErr(transform, qc, i + 1, n);
    if n > i + 1 {
      ApplyStaysErr(transform, qc, i + 1, n - 1);
      StopsAtFirstFailure(transform, qc, n - 1, i);
    }
  }

  /** The names of the first `k` transformers, as the status lists them. */
  function NameValues(ts: seq<Operation>, k: nat): (r: seq<Value>)
    requires k <= |ts|
    ensures |r| == k
  {
    if k == 0 then [] else NameValues(ts, k - 1) + [Str(ts[k - 1].name)]
  }

  /** Entry `j` of the list is the `j`-th transformer's name. */
  lemma {:induction false} NameValuesAt(ts: seq<Operation>, k: nat, j: nat)
    requires j < k <= |ts|
    ensures NameValues(ts, k)[j] == Str(ts[j].name)
    decreases k
  {
    if j < k - 1 {
      NameValuesAt(ts, k - 1, j);
    }
  }

  /** The times of the first `k` transformers. */
  function TimeValues(elapsed: nat -> int, k: nat): (r: seq<Value>)
    ensures |r| == k
  {
    if k == 0 then [] else TimeValues(elapsed, k - 1) + [Int(elapsed(k))]
  }

  /** The status a run starts from. */
  function InitialStatus(qasmFile: string, platform: string, round: int): Dict
  {
    map["input_qasm" := Str(qasmFile), "platform" := Str(platform), "round" := Int(round),
        "importer_function" := Null, "transformer_functions" := List([]),
        "exporter_function" := Null, "importer_time" := Null,
        "transformation_time" := List([]), "exporter_time" := Null]
  }

  /** The status after the import returned (a circuit or a crash). */
  function Imported(s: Dict, importer: string, time: int): Dict
  {
    s["importer_function" := Str(importer)]["importer_time" := Int(time)]
  }

  /** The status once `named` transformers were listed and `timed` of them
      returned. */
  function Transformed(s: Dict, ts: seq<Operation>, named: nat, timed: nat, elapsed: nat -> int): Dict
    requires named <= |ts|
  {
    s["transformer_functions" := List(NameValues(ts, named))]["transformation_time" := List(TimeValues(elapsed, timed))]
  }

  /** The status with one more transformer name listed. */
  function Listed(s: Dict, name: string): Dict
    requires "transformer_functions" in s && s["transformer_functions"].List?
  {
    s["transformer_functions" := List(s["transformer_functions"].items + [Str(name)])]
  }

  /** The status with one more transformation time recorded. */
  function Timed(s: Dict, time: int): Dict
    requires "transformation_time" in s && s["transformation_time"].List?
  {
    s["transformation_time" := List(s["transformation_time"].items + [Int(time)])]
  }

  /** Listing the `i`-th transformer and then recording its time takes the
      status from `i` transformers listed and timed to `i + 1`. */
  lemma {:induction false} TransformedStep(s: Dict, ts: seq<Operation>, i: nat, elapsed: nat -> int)
    requires i < |ts|
    ensures Listed(Transformed(s, ts, i, i, elapsed), ts[i].name) == Transformed(s, ts, i + 1, i, elapsed)
    ensures Timed(Transformed(s, ts, i + 1, i, elapsed), elapsed(i + 1)) == Transformed(s, ts, i + 1, i + 1, elapsed)
  {
  }

  /** One turn of the transformer loop, on values: transformer `i` ran on
      the circuit the first `i` produced, so its outcome is the chain's after
      `i + 1`; the status ends with `i + 1` names and as many times as runs
      that returned; and a failure is the last transformer attempted. */
  lemma {:induction false} TransformerTurn<C>(s: Dict, ts: seq<Operation>, transform: (nat, C) -> Result<C>, qc0: C, qc: C,
                                              i: nat, elapsed: nat -> int, out: Result<Outcome<C>>, raiseAny: bool)
    requires i < |ts| && Apply(transform, qc0, i) == Ok(qc)
    requires out == RunResult(transform(i, qc), raiseAny)
    ensures out == RunResult(Apply(transform, qc0, i + 1), raiseAny)
    ensures var listed := Listed(Transformed(s, ts, i, i, elapsed), ts[i].name);
      (if out.Ok? then Timed(listed, elapsed(i + 1)) else listed) == Transformed(s, ts, i + 1, if out.Ok? then i + 1 else i, elapsed)
    ensures out.Err? || out.value.Crashed? ==>
      Attempted(transform, qc0, |ts|) == i + 1 && Apply(transform, qc0, |ts|) == Apply(transform, qc0, i + 1)
  {
    TransformedStep(s, ts, i, elapsed);
    if out.Err? || out.value.Crashed? {
      StopsAtFirstFailure(transform, qc0, |ts|, i);
    }
  }

  /** How the status records what the exporter returned. */
  function OutputValue(out: Outcome<string>): Value
  {
    match out
    case Done(p) => Str(p)
    case Crashed(c) => Other("<CrashType: " + CrashValue(c) + ">")
  }

  /** The status after _handle_export: the exporter's name, the path it
      returned or the crash marker in its place, and its time. */
  function Exported(s: Dict, exporter: string, out: Outcome<string>, time: int): Dict
  {
    s["exporter_function" := Str(exporter)]["output_qasm" := OutputValue(out)]["exporter_time" := Int(time)]
  }

  /** The result of a run and the status it leaves. */
  datatype Run = Run(result: Result<Option<string>>, status: Dict)

  /** execute_qite_loop once the operations are configured, from status `s0`:
      the import is recorded, and a crash there ends the run with None
      before any transformer; otherwise the transformers and the exporter
      run on the imported circuit. With exceptions let through, the first
      exception is raised instead, and the status keeps only what was
      recorded before it. */
  function QiteLoop<C>(s0: Dict, importer: string, ts: seq<Operation>, exporter: string,
                       qasmFile: string, outputFolder: string, fileName: string,
                       raiseAny: bool, f: Foreign<C>): Run
  {
    match f.importQasm(qasmFile)
    case Err(e) =>
      if raiseAny then Run(Err(e), s0) else Run(Ok(None), Imported(s0, importer, f.elapsed(0)))
    case Ok(qc) =>
      TransformThenExport(Imported(s0, importer, f.elapsed(0)), qc, ts, exporter, outputFolder, fileName, raiseAny, f)
  }

  /** The rest of the run after the import returned circuit `qc`: the
      transformers run in order, each on the previous one's circuit, up to
      the first crash; a crash makes the result None, or is raised when
      exceptions are let through. */
  function TransformThenExport<C>(s1: Dict, qc: C, ts: seq<Operation>, exporter: string,
                                  outputFolder: string, fileName: string, raiseAny: bool, f: Foreign<C>): Run
  {
    var n := |ts|;
    var k := Attempted(f.transform, qc, n);
    match Apply(f.transform, qc, n)
    case Err(e) =>
      Run(if raiseAny then Err(e) else Ok(None), Transformed(s1, ts, k, if raiseAny then k - 1 else k, f.elapsed))
    case Ok(q) => ExportStep(Transformed(s1, ts, n, n, f.elapsed), q, exporter, outputFolder, fileName, raiseAny, f, n)
  }

  /** The export of the last circuit `q`, after `n` transformers. */
  function ExportStep<C>(s2: Dict, q: C, exporter: string, outputFolder: string, fileName: string,
                         raiseAny: bool, f: Foreign<C>, n: nat): Run
  {
    match f.exportQasm(q, outputFolder, fileName)
    case Err(e) =>
      if raiseAny then Run(Err(e), s2)
      else Run(Ok(None), Exported(s2, exporter, Crashed(GenericCrash), f.elapsed(n + 1)))
    case Ok(p) => Run(Ok(Some(p)), Exported(s2, exporter, Done(p), f.elapsed(n + 1)))
  }

  /** The metadata file a run writes: the final status as `<base>.json`
      in the metadata folder, and only when the run returned a path. */
  function Stored(metadataFolder: string, base: string, run: Run): seq<(string, Dict)>
  {
    if run.result.Ok? && run.result.value.Some? then [(PyPath.Join(metadataFolder, base + ".json"), run.status)] else []
  }

  /** A run returns a path exactly when the import, every transformer and
      the export succeed, and that path is the exporter's. */
  lemma {:induction false} QiteLoopSucceeds<C>(s0: Dict, importer: string, ts: seq<Operation>, exporter: string,
                                               qasmFile: string, outputFolder: string, fileName: string,
                                               raiseAny: bool, f: Foreign<C>)
    ensures var run := QiteLoop(s0, importer, ts, exporter, qasmFile, outputFolder, fileName, raiseAny, f);
      run.result.Ok? && run.result.value.Some? <==>
        && f.importQasm(qasmFile).Ok?
        && Apply(f.transform, f.importQasm(qasmFile).value, |ts|).Ok?
        && f.exportQasm(Apply(f.transform, f.importQasm(qasmFile).value, |ts|).value, outputFolder, fileName).Ok?
    ensures var run := QiteLoop(s0, importer, ts, exporter, qasmFile, outputFolder, fileName, raiseAny, f);
      run.result.Ok? && run.result.value.Some? ==>
        run.result.value.value == f.exportQasm(Apply(f.transform, f.importQasm(qasmFile).value, |ts|).value, outputFolder, fileName).value
  {
  }

  /** After a transformer crash the status lists the transformers up to
      and including the crashing one, with one time for each, and the
      result is None. */
  lemma {:induction false} TransformerCrashStatus<C>(s0: Dict, importer: string, ts: seq<Operation>, exporter: string,
                                                     qasmFile: string, outputFolder: string, fileName: string,
                                                     f: Foreign<C>, i: nat)
    requires f.importQasm(qasmFile).Ok?
    requires i < |ts|
    requires Apply(f.transform, f.importQasm(qasmFile).value, i).Ok?
    requires Apply(f.transform, f.importQasm(qasmFile).value, i + 1).Err?
    ensures var run := QiteLoop(s0, importer, ts, exporter, qasmFile, outputFolder, fileName, false, f);
      && run.result == Ok(None)
      && run.status["transformer_functions"].List?
      && |run.status["transformer_functions"].items| == i + 1
      && (forall j :: 0 <= j <= i ==> run.status["transformer_functions"].items[j] == Str(ts[j].name))
      && run.status["transformation_time"] == List(TimeValues(f.elapsed, i + 1))
  {
    var qc := f.importQasm(qasmFile).value;
    StopsAtFirstFailure(f.transform, qc, |ts|, i);
    forall j | 0 <= j <= i
      ensures NameValues(ts, i + 1)[j] == Str(ts[j].name)
    {
      NameValuesAt(ts, i + 1, j);
    }
  }

  class PlatformProcessor {
    var importer: Operation?
    var transformers: seq<Operation>
    var exporter: Operation?
    var converter: Operation?
    const name: string
    const metadataFolder: string
    const errorFolder: string
    const outputFolder: string
    var roundNumber: Option<int>
    var currentStatus: Dict
    /** The metadata files written, path and content, in order. */
    var metadataFiles: seq<(string, Dict)>

    constructor (metadataFolder: string, errorFolder: string, outputFolder: string)
      ensures importer == null && transformers == [] && exporter == null && converter == null
      ensures name == "base_class_processor" && roundNumber == None
      ensures this.metadataFolder == metadataFolder && this.errorFolder == errorFolder
      ensures this.outputFolder == outputFolder
      ensures currentStatus == map[] && metadataFiles == []
    {
      importer := null;
      transformers := [];
      exporter := null;
      converter := null;
      name := "base_class_processor";
      this.metadataFolder := metadataFolder;
      this.errorFolder := errorFolder;
      this.outputFolder := outputFolder;
      roundNumber := None;
      currentStatus := map[];
      metadataFiles := [];
    }

    /** The operations the processor holds. */
    function Ops(): set<Operation>
      reads this`importer, this`transformers, this`exporter, this`converter
    {
      (if importer == null then {} else {importer}) + (set t | t in transformers)
      + (if exporter == null then {} else {exporter}) + (if converter == null then {} else {converter})
    }

    predicate SlotsSet()
      reads this`importer, this`exporter, this`converter
    {
      importer != null && exporter != null && converter != null
    }

    /** Every transformer lets exceptions through as asked and knows the
        processor's folders. */
    predicate TransformersReady(raiseAny: bool)
      reads this`transformers
      reads transformers`raiseAnyException, transformers`metadataFolder, transformers`errorFolder
    {
      forall j :: 0 <= j < |transformers| ==> transformers[j].Ready(raiseAny, metadataFolder, errorFolder)
    }

    /** Every operation lets exceptions through as asked and knows the
        processor's folders. */
    predicate Configured(raiseAny: bool)
      reads this`importer, this`transformers, this`exporter, this`converter
      reads {importer, exporter, converter}`raiseAnyException, {importer, exporter, converter}`metadataFolder
      reads {importer, exporter, converter}`errorFolder
      reads transformers`raiseAnyException, transformers`metadataFolder, transformers`errorFolder
    {
      && SlotsSet()
      && importer.Ready(raiseAny, metadataFolder, errorFolder)
      && exporter.Ready(raiseAny, metadataFolder, errorFolder)
      && converter.Ready(raiseAny, metadataFolder, errorFolder)
      && TransformersReady(raiseAny)
    }

    method SetImporter(op: Operation?)
      modifies this`importer
      ensures importer == op
    {
      importer := op;
    }

    /** add_transformer: transformers run in the order they were added. */
    method AddTransformer(op: Operation)
      modifies this`transformers
      ensures transformers == old(transformers) + [op]
    {
      transformers := transformers + [op];
    }

    method SetExporter(op: Operation?)
      modifies this`exporter
      ensures exporter == op
    {
      exporter := op;
    }

    method SetConverter(op: Operation?)
      modifies this`converter
      ensures converter == op
    {
      converter := op;
    }

    method SetRound(round: int)
      modifies this`roundNumber
      ensures roundNumber == Some(round)
    {
      roundNumber := Some(round);
    }

    /** The operations in one sequence, each at least once. */
    function OpList(): (ops: seq<Operation>)
      requires SlotsSet()
      reads this
    {
      [importer] + transformers + [exporter, converter]
    }

    /** set_exception_handling: every operation gets the flag. An unset
        importer, exporter or converter slot holds None, which has no such
        method; which operations were updated before it is reached depends
        on set order, so nothing is said about their flags then. */
    method SetExceptionHandling(raiseAny: bool) returns (r: Result<()>)
      modifies Ops()`raiseAnyException
      ensures r.Ok? <==> SlotsSet()
      ensures r.Err? ==> r.exc.AttributeError?
      ensures r.Ok? ==> forall o :: o in Ops() ==> o.raiseAnyException == raiseAny
    {
      if !SlotsSet() {
        return Err(AttributeError("'NoneType' object has no attribute 'set_exception_handling'"));
      }
      var ops := OpList();
      assert forall o :: o in Ops() ==> o in ops;
      for i := 0 to |ops|
        invariant forall j :: 0 <= j < i ==> ops[j].raiseAnyException == raiseAny
      {
        ops[i].SetExceptionHandling(raiseAny);
      }
      return Ok(());
    }

    /** set_folders: every operation gets both folders. */
    method SetFolders(metadata: string, error: string) returns (r: Result<()>)
      modifies Ops()`metadataFolder, Ops()`errorFolder
      ensures r.Ok? <==> SlotsSet()
      ensures r.Err? ==> r.exc.AttributeError?
      ensures r.Ok? ==> forall o :: o in Ops() ==> o.metadataFolder == Some(metadata) && o.errorFolder == Some(error)
    {
      if !SlotsSet() {
        return Err(AttributeError("'NoneType' object has no attribute 'set_folders'"));
      }
      var ops := OpList();
      assert forall o :: o in Ops() ==> o in ops;
      for i := 0 to |ops|
        invariant forall j :: 0 <= j < i ==> ops[j].metadataFolder == Some(metadata) && ops[j].errorFolder == Some(error)
      {
        ops[i].SetFolders(metadata, error);
      }
      return Ok(());
    }

    /** _handle_import: load the status into the importer, run it (the
        importer's `import_qasm` returned or raised `imported`), then record
        the importer's name and time. */
    method HandleImport<C>(imported: Result<C>, time: int, tb: string, clock: int, hex: string, ghost raiseAny: bool)
      returns (r: Result<Outcome<C>>)
      requires Configured(raiseAny)
      requires "input_qasm" in currentStatus && currentStatus["input_qasm"].Str?
      modifies this`currentStatus, importer`currentStatus, importer`inputBaseQasmName, importer`errorFiles
      ensures r == RunResult(imported, raiseAny)
      ensures r.Err? ==> currentStatus == old(currentStatus)
      ensures r.Ok? ==> currentStatus == Imported(old(currentStatus), importer.name, time)
    {
      var loaded := importer.LoadCurrentStatus(currentStatus);
      r := importer.Run(imported, tb, clock, hex);
      if r.Err? {
        return;
      }
      currentStatus := Imported(currentStatus, importer.name, time);
    }

    /** One pass of the transformer loop: the `i`-th transformer's name is
        listed, the transformer is given the status and run (its `transform`
        returned or raised `transformed`), and unless `run` raised, its time
        is recorded. */
    method TransformStep<C>(t: Operation, transformed: Result<C>, time: int, tb: string, clock: int, hex: string,
                            ghost raiseAny: bool)
      returns (r: Result<Outcome<C>>)
      requires t.Ready(raiseAny, metadataFolder, errorFolder)
      requires "input_qasm" in currentStatus && currentStatus["input_qasm"].Str?
      requires "transformer_functions" in currentStatus && currentStatus["transformer_functions"].List?
      requires "transformation_time" in currentStatus && currentStatus["transformation_time"].List?
      modifies this`currentStatus, t`currentStatus, t`inputBaseQasmName, t`errorFiles
      ensures r == RunResult(transformed, raiseAny)
      ensures var listed := Listed(old(currentStatus), t.name);
        currentStatus == if r.Ok? then Timed(listed, time) else listed
    {
      currentStatus := currentStatus["transformer_functions" :=
        List(currentStatus["transformer_functions"].items + [Str(t.name)])];
      var loaded := t.LoadCurrentStatus(currentStatus);
      r := t.Run(transformed, tb, clock, hex);
      if r.Err? {
        return;
      }
      currentStatus := currentStatus["transformation_time" :=
        List(currentStatus["transformation_time"].items + [Int(time)])];
    }

    /** Transformer `i` of the loop, run on the circuit the first `i`
        produced: its outcome is the chain's after `i + 1` transformers, and
        the status lists `i + 1` names and as many times as runs returned. */
    method TransformerAt<C>(t: Operation, i: nat, qc0: C, qc: C, transform: (nat, C) -> Result<C>, elapsed: nat -> int,
                            tb: string, clock: int, hex: string, ghost raiseAny: bool, ghost s1: Dict)
      returns (r: Result<Outcome<C>>)
      requires i < |transformers| && t == transformers[i] && t.Ready(raiseAny, metadataFolder, errorFolder)
      requires Apply(transform, qc0, i) == Ok(qc)
      requires "input_qasm" in s1 && s1["input_qasm"].Str?
      requires currentStatus == Transformed(s1, transformers, i, i, elapsed)
      modifies this`currentStatus, t`currentStatus, t`inputBaseQasmName, t`errorFiles
      ensures r == RunResult(Apply(transform, qc0, i + 1), raiseAny)
      ensures currentStatus == Transformed(s1, transformers, i + 1, if r.Ok? then i + 1 else i, elapsed)
      ensures r.Err? || r.value.Crashed? ==>
        Attempted(transform, qc0, |transformers|) == i + 1 && Apply(transform, qc0, |transformers|) == Apply(transform, qc0, i + 1)
    {
      r := TransformStep(t, transform(i, qc), elapsed(i + 1), tb, clock, hex, raiseAny);
      TransformerTurn(s1, transformers, transform, qc0, qc, i, elapsed, r, raiseAny);
    }

    /** The transformer loop: the list of transformer names starts empty;
        each transformer in turn is run on the previous one's circuit; a
        crash ends the loop. */
    method RunTransformers<C>(qc0: C, transform: (nat, C) -> Result<C>, elapsed: nat -> int,
                              tb: string, clock: int, hex: string, ghost raiseAny: bool, ghost s1: Dict)
      returns (r: Result<Outcome<C>>)
      requires TransformersReady(raiseAny)
      requires currentStatus == s1 && "input_qasm" in s1 && s1["input_qasm"].Str?
      requires "transformation_time" in s1 && s1["transformation_time"] == List([])
      modifies this`currentStatus, transformers`currentStatus, transformers`inputBaseQasmName, transformers`errorFiles
      ensures r == RunResult(Apply(transform, qc0, |transformers|), raiseAny)
      ensures var k := Attempted(transform, qc0, |transformers|);
        currentStatus == Transformed(s1, transformers, k, if r.Err? then k - 1 else k, elapsed)
    {
      currentStatus := currentStatus["transformer_functions" := List([])];
      var qc := qc0;
      var i := 0;
      while i < |transformers|
        invariant 0 <= i <= |transformers|
        invariant Apply(transform, qc0, i) == Ok(qc)
        invariant currentStatus == Transformed(s1, transformers, i, i, elapsed)
      {
        var out := TransformerAt(transformers[i], i, qc0, qc, transform, elapsed, tb, clock, hex, raiseAny, s1);
        if out.Err? || out.value.Crashed? {
          return out;
        }
        qc := out.value.value;
        i := i + 1;
      }
      return Ok(Done(qc));
    }

    /** _handle_export: load the status into the exporter, run it (the
        exporter's `export` returned or raised `exported`), then record the
        exporter's name, what it returned and its time. */
    method HandleExport(exported: Result<string>, time: int, tb: string, clock: int, hex: string, ghost raiseAny: bool)
      returns (r: Result<Outcome<string>>)
      requires Configured(raiseAny)
      requires "input_qasm" in currentStatus && currentStatus["input_qasm"].Str?
      modifies this`currentStatus, exporter`currentStatus, exporter`inputBaseQasmName, exporter`errorFiles
      ensures r == RunResult(exported, raiseAny)
      ensures r.Err? ==> currentStatus == old(currentStatus)
      ensures r.Ok? ==> currentStatus == Exported(old(currentStatus), exporter.name, r.value, time)
    {
      var loaded := exporter.LoadCurrentStatus(currentStatus);
      r := exporter.Run(exported, tb, clock, hex);
      if r.Err? {
        return;
      }
      currentStatus := Exported(currentStatus, exporter.name, r.value, time);
    }

    /** set_exception_handling followed by set_folders with the
        processor's own folders, as both loops begin. */
    method Configure(raiseAny: bool) returns (r: Result<()>)
      modifies Ops()`raiseAnyException, Ops()`metadataFolder, Ops()`errorFolder
      ensures r.Ok? <==> SlotsSet()
      ensures r.Err? ==> r.exc.AttributeError?
      ensures r.Ok? ==> Configured(raiseAny)
    {
      r := SetExceptionHandling(raiseAny);
      if r.Err? {
        return;
      }
      r := SetFolders(metadataFolder, errorFolder);
    }

    /** execute_qite_loop: the round must have been set; every slot must
        hold an operation; then the run follows `QiteLoop`, and only a run
        that returns a path writes the status as `<base>.json` into the
        metadata folder. */
    method ExecuteQiteLoop<C>(qasmFile: string, raiseAny: bool, predefined: Option<string>, f: Foreign<C>)
      returns (r: Result<Option<string>>)
      modifies this`currentStatus, this`metadataFiles, Ops()
      ensures old(roundNumber).None? ==>
        r.Err? && r.exc.AttributeError? && currentStatus == old(currentStatus) && metadataFiles == old(metadataFiles)
      ensures old(roundNumber).Some? && !SlotsSet() ==>
        && r.Err? && r.exc.AttributeError?
        && currentStatus == InitialStatus(qasmFile, name, roundNumber.value)
        && metadataFiles == old(metadataFiles)
      ensures old(roundNumber).Some? && SlotsSet() ==>
        var base := OutputBase(qasmFile, f.outputHex, predefined);
        var run := QiteLoop(InitialStatus(qasmFile, name, roundNumber.value), importer.name, transformers,
                            exporter.name, qasmFile, outputFolder, base + ".qasm", raiseAny, f);
        && Configured(raiseAny)
        && r == run.result && currentStatus == run.status
        && metadataFiles == old(metadataFiles) + Stored(metadataFolder, base, run)
    {
      if roundNumber.None? {
        return Err(AttributeError("'PlatformProcessor' object has no attribute 'round_number'"));
      }
      currentStatus := InitialStatus(qasmFile, name, roundNumber.value);
      var base := OutputBase(qasmFile, f.outputHex, predefined);
      r := ConfigureAndRun(qasmFile, base, raiseAny, f);
    }

    /** The part of execute_qite_loop after the output base name is chosen:
        the operations are configured, and a run from the current status
        follows. */
    method ConfigureAndRun<C>(qasmFile: string, base: string, raiseAny: bool, f: Foreign<C>)
      returns (r: Result<Option<string>>)
      requires "input_qasm" in currentStatus && currentStatus["input_qasm"].Str?
      requires "transformation_time" in currentStatus && currentStatus["transformation_time"] == List([])
      modifies this`currentStatus, this`metadataFiles, Ops()
      ensures !SlotsSet() ==>
        r.Err? && r.exc.AttributeError? && currentStatus == old(currentStatus) && metadataFiles == old(metadataFiles)
      ensures SlotsSet() ==>
        var run := QiteLoop(old(currentStatus), importer.name, transformers, exporter.name,
                            qasmFile, outputFolder, base + ".qasm", raiseAny, f);
        && Configured(raiseAny)
        && r == run.result && currentStatus == run.status
        && metadataFiles == old(metadataFiles) + Stored(metadataFolder, base, run)
    {
      var configured := Configure(raiseAny);
      if configured.Err? {
        return Err(configured.exc);
      }
      r := ImportAndContinue(qasmFile, base, raiseAny, f);
    }

    /** The part of execute_qite_loop after the operations are configured:
        _handle_import, then the rest unless the import crashed. */
    method ImportAndContinue<C>(qasmFile: string, base: string, ghost raiseAny: bool, f: Foreign<C>)
      returns (r: Result<Option<string>>)
      requires Configured(raiseAny)
      requires "input_qasm" in currentStatus && currentStatus["input_qasm"].Str?
      requires "transformation_time" in currentStatus && currentStatus["transformation_time"] == List([])
      modifies this`currentStatus, this`metadataFiles, Ops()`currentStatus, Ops()`inputBaseQasmName, Ops()`errorFiles
      ensures var run := QiteLoop(old(currentStatus), importer.name, transformers, exporter.name,
                                  qasmFile, outputFolder, base + ".qasm", raiseAny, f);
        && r == run.result && currentStatus == run.status
        && metadataFiles == old(metadataFiles) + Stored(metadataFolder, base, run)
    {
      var qc := HandleImport(f.importQasm(qasmFile), f.elapsed(0), f.traceback, f.timestamp, f.logHex, raiseAny);
      if qc.Err? {
        return Err(qc.exc);
      }
      if qc.value.Crashed? {
        return Ok(None);
      }
      r := TransformAndExport(qc.value.value, base, raiseAny, f);
    }

    /** The part of execute_qite_loop after a successful import. */
    method TransformAndExport<C>(qc: C, base: string, ghost raiseAny: bool, f: Foreign<C>)
      returns (r: Result<Option<string>>)
      requires Configured(raiseAny)
      requires "input_qasm" in currentStatus && currentStatus["input_qasm"].Str?
      requires "transformation_time" in currentStatus && currentStatus["transformation_time"] == List([])
      modifies this`currentStatus, this`metadataFiles, transformers`currentStatus, transformers`inputBaseQasmName
      modifies transformers`errorFiles, exporter`currentStatus, exporter`inputBaseQasmName, exporter`errorFiles
      ensures var run := TransformThenExport(old(currentStatus), qc, transformers, exporter.name,
                                             outputFolder, base + ".qasm", raiseAny, f);
        && r == run.result && currentStatus == run.status
        && metadataFiles == old(metadataFiles) + Stored(metadataFolder, base, run)
    {
      ghost var s1 := currentStatus;
      var out := RunTransformers(qc, f.transform, f.elapsed, f.traceback, f.timestamp, f.logHex, raiseAny, s1);
      AttemptedSpec(f.transform, qc, |transformers|);
      if out.Err? {
        return Err(out.exc);
      }
      if out.value.Crashed? {
        return Ok(None);
      }
      r := ExportAndStore(out.value.value, |transformers|, base, raiseAny, f);
    }

    /** _handle_export and, when it returned a path, the provenance
        metadata. */
    method ExportAndStore<C>(q: C, n: nat, base: string, ghost raiseAny: bool, f: Foreign<C>)
      returns (r: Result<Option<string>>)
      requires Configured(raiseAny)
      requires "input_qasm" in currentStatus && currentStatus["input_qasm"].Str?
      modifies this`currentStatus, this`metadataFiles, exporter`currentStatus, exporter`inputBaseQasmName
      modifies exporter`errorFiles
      ensures var run := ExportStep(old(currentStatus), q, exporter.name, outputFolder, base + ".qasm", raiseAny, f, n);
        && r == run.result && currentStatus == run.status
        && metadataFiles == old(metadataFiles) + Stored(metadataFolder, base, run)
    {
      var path := HandleExport(f.exportQasm(q, outputFolder, base + ".qasm"), f.elapsed(n + 1),
                               f.traceback, f.timestamp, f.logHex, raiseAny);
      if path.Err? {
        return Err(path.exc);
      }
      if path.value.Crashed? {
        return Ok(None);
      }
      metadataFiles := metadataFiles + [(PyPath.Join(metadataFolder, base + ".json"), currentStatus)];
      return Ok(Some(path.value.value));
    }

    /** execute_conversion_loop: the round is set to 0 and the status
        names the input Python file under `input_py`. Loading that status
        into the converter reads `input_qasm`, which it lacks, so
        `Path(None)` raises a TypeError before the conversion runs. */
    method ExecuteConversionLoop(circuitFileName: string, raiseAny: bool, predefined: Option<string>)
      returns (r: Result<Option<string>>)
      modifies this`roundNumber, this`currentStatus, Ops()
      ensures roundNumber == Some(0)
      ensures currentStatus == ConversionStatus(circuitFileName, name)
      ensures !SlotsSet() ==> r.Err? && r.exc.AttributeError?
      ensures SlotsSet() ==> r == Err(PathTypeError(None)) && converter.currentStatus == currentStatus
    {
      SetRound(0);
      currentStatus := ConversionStatus(circuitFileName, name);
      var configured := SetExceptionHandling(raiseAny);
      if configured.Err? {
        return Err(configured.exc);
      }
      configured := SetFolders(metadataFolder, errorFolder);
      var loaded := converter.LoadCurrentStatus(currentStatus);
      return Err(loaded.exc);
    }
  }

  /** The status execute_conversion_loop starts from. */
  function ConversionStatus(circuitFileName: string, platform: string): (s: Dict)
    ensures "input_qasm" !in s
  {
    map["input_py" := Str(circuitFileName), "platform" := Str(platform), "round" := Int(0),
        "importer_function" := Null, "transformer_functions" := List([]),
        "exporter_function" := Null, "importer_time" := Null,
        "transformation_time" := List([]), "exporter_time" := Null]
  }
}
