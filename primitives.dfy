/** qite/base/primitives.py: the operations a platform processor chains
    (importer, transformers, exporter, converter). Running one turns an
    exception into a crash marker and an error file, unless the operation is
    told to let exceptions through.

    `execute` is abstract in the source and each subclass only forwards it
    (a transformer to `transform`, an importer to `import_qasm`, an
    exporter to `export`), all of them foreign code; `Run` therefore takes
    the result that forwarded call returned or raised as its `execute`
    argument. */
module Primitives {
  import opened Py
  import opened PyStr
  import PySeq
  import PyPath

  datatype CrashType = ImporterCrash | ExporterCrash | TransformerCrash | GenericCrash

  /** The enum member's value. */
  function CrashValue(c: CrashType): string
  {
    match c
    case ImporterCrash => "importer_crash"
    case ExporterCrash => "exporter_crash"
    case TransformerCrash => "transformer_crash"
    case GenericCrash => "generic_crash"
  }

  /** Distinct members have distinct values, so the enum can be read back
      from its value. */
  lemma {:induction false} CrashValueInjective(a: CrashType, b: CrashType)
    ensures CrashValue(a) == CrashValue(b) <==> a == b
  {
  }

  /** What `run` hands back: what `execute` returned, or a crash marker. */
  datatype Outcome<T> = Done(value: T) | Crashed(crash: CrashType)

  /** The message `Path(x)` raises when `x` is not a string. */
  function PathTypeError(v: Option<Value>): Exception
  {
    TypeError("expected str, bytes or os.PathLike object, not " +
      match v
      case None => "NoneType"
      case Some(Null) => "NoneType"
      case Some(Bool(_)) => "bool"
      case Some(Int(_)) => "int"
      case Some(Str(_)) => "str"
      case Some(List(_)) => "list"
      case Some(Other(_)) => "object")
  }

  /** `Path(status.get("input_qasm")).stem`: the stem of the input file, or
      the TypeError `Path` raises when the key is missing or not a string. */
  function InputBase(status: Dict): (r: Result<string>)
    ensures r.Ok? <==> "input_qasm" in status && status["input_qasm"].Str?
    ensures r.Err? ==> r.exc.TypeError?
  {
    if "input_qasm" in status && status["input_qasm"].Str? then Ok(PyPath.Stem(status["input_qasm"].s))
    else Err(PathTypeError(if "input_qasm" in status then Some(status["input_qasm"]) else None))
  }

  const ErrorKeys: set<string> := {"error", "traceback", "timestamp", "crashing_operation"}

  /** The record `run` logs: the error, its trace, the time and the
      operation's name, followed by `**current_status`. */
  function ErrorRecord(error: string, traceback: string, timestamp: int, operation: string, status: Dict): Dict
  {
    map["error" := Str(error), "traceback" := Str(traceback), "timestamp" := Int(timestamp),
        "crashing_operation" := Str(operation)] + status
  }

  /** The record holds the four error keys and every status key, and a
      status key with one of the error keys' names overrides it. */
  lemma {:induction false} ErrorRecordOverride(error: string, traceback: string, timestamp: int, operation: string, status: Dict)
    ensures var rec := ErrorRecord(error, traceback, timestamp, operation, status);
      && rec.Keys == ErrorKeys + status.Keys
      && (forall k :: k in status ==> rec[k] == status[k])
      && ("error" !in status ==> rec["error"] == Str(error))
      && ("traceback" !in status ==> rec["traceback"] == Str(traceback))
      && ("timestamp" !in status ==> rec["timestamp"] == Int(timestamp))
      && ("crashing_operation" !in status ==> rec["crashing_operation"] == Str(operation))
  {
  }

  /** The error file name: the input's base name, the first six characters
      of a fresh uuid's hex form, and `_error.json`. */
  function ErrorFileName(inputBase: string, hex: string): string
  {
    inputBase + "_" + PySeq.Slice(hex, 0, 6) + "_error.json"
  }

  /** The name starts with the base name and `_`, ends with `_error.json`,
      and holds no `/` when neither the base nor the hex form does. */
  lemma {:induction false} ErrorFileNameShape(inputBase: string, hex: string)
    ensures var n := ErrorFileName(inputBase, hex);
      && StartsWith(n, inputBase + "_") && EndsWith(n, "_error.json")
      && ('/' !in inputBase && '/' !in hex ==> '/' !in n)
  {
    var u := PySeq.Slice(hex, 0, 6);
    assert forall i :: 0 <= i < |u| ==> u[i] in hex;
    var n := ErrorFileName(inputBase, hex);
    assert n[..|inputBase| + 1] == inputBase + "_";
    assert n[|n| - 11..] == "_error.json";
  }

  /** Where `log_error` writes: `error_folder / file name`, or the
      AttributeError raised when the folders or the input base were never
      set. The error folder is read first. */
  function ErrorLogPath(errorFolder: Option<string>, inputBase: Option<string>, hex: string): (r: Result<string>)
    ensures r.Ok? <==> errorFolder.Some? && inputBase.Some?
    ensures r.Err? ==> r.exc.AttributeError?
  {
    if errorFolder.None? then Err(AttributeError("'Operation' object has no attribute 'error_folder'"))
    else if inputBase.None? then Err(AttributeError("'Operation' object has no attribute 'input_base_qasm_name'"))
    else Ok(PyPath.Join(errorFolder.value, ErrorFileName(inputBase.value, hex)))
  }

  /** An operation of a platform processor. The files its `log_error`
      writes are recorded in `errorFiles`, path and content, in order. */
  class Operation {
    const name: string
    var currentStatus: Dict
    var raiseAnyException: bool
    var inputBaseQasmName: Option<string>
    var metadataFolder: Option<string>
    var errorFolder: Option<string>
    var errorFiles: seq<(string, Dict)>

    constructor (name: string)
      ensures this.name == name && currentStatus == map[] && !raiseAnyException
      ensures inputBaseQasmName == None && metadataFolder == None && errorFolder == None
      ensures errorFiles == []
    {
      this.name := name;
      currentStatus := map[];
      raiseAnyException := false;
      inputBaseQasmName := None;
      metadataFolder := None;
      errorFolder := None;
      errorFiles := [];
    }

    /** The operation lets exceptions through as asked and knows both
        folders. */
    predicate Ready(raiseAny: bool, metadata: string, error: string)
      reads this`raiseAnyException, this`metadataFolder, this`errorFolder
    {
      raiseAnyException == raiseAny && metadataFolder == Some(metadata) && errorFolder == Some(error)
    }

    /** load_current_status: the status is stored before its input file is
        read, so it is stored even when reading the input raises. */
    method LoadCurrentStatus(status: Dict) returns (r: Result<()>)
      modifies this`currentStatus, this`inputBaseQasmName
      ensures currentStatus == status
      ensures r.Ok? <==> InputBase(status).Ok?
      ensures r.Err? ==> r.exc == InputBase(status).exc && inputBaseQasmName == old(inputBaseQasmName)
      ensures r.Ok? ==> inputBaseQasmName == Some(InputBase(status).value)
    {
      currentStatus := status;
      var base := InputBase(status);
      if base.Err? {
        return Err(base.exc);
      }
      inputBaseQasmName := Some(base.value);
      return Ok(());
    }

    /** log_error: one more error file, under a name drawn from `hex`. */
    method LogError(info: Dict, hex: string) returns (r: Result<()>)
      modifies this`errorFiles
      ensures r.Ok? <==> ErrorLogPath(errorFolder, inputBaseQasmName, hex).Ok?
      ensures r.Ok? ==> errorFiles == old(errorFiles) + [(ErrorLogPath(errorFolder, inputBaseQasmName, hex).value, info)]
      ensures r.Err? ==> r.exc == ErrorLogPath(errorFolder, inputBaseQasmName, hex).exc && errorFiles == old(errorFiles)
    {
      var path := ErrorLogPath(errorFolder, inputBaseQasmName, hex);
      if path.Err? {
        return Err(path.exc);
      }
      errorFiles := errorFiles + [(path.value, info)];
      return Ok(());
    }

    /** run: what `execute` returned passes through; an exception is raised
        again when the operation lets exceptions through, and otherwise is
        logged with the current status and becomes GENERIC_CRASH. When the
        logging itself fails, its exception is what `run` raises. */
    method Run<T>(execute: Result<T>, traceback: string, timestamp: int, hex: string) returns (r: Result<Outcome<T>>)
      modifies this`errorFiles
      ensures execute.Ok? ==> r == Ok(Done(execute.value)) && errorFiles == old(errorFiles)
      ensures execute.Err? && raiseAnyException ==> r == Err(execute.exc) && errorFiles == old(errorFiles)
      ensures execute.Err? && !raiseAnyException ==>
        var path := ErrorLogPath(errorFolder, inputBaseQasmName, hex);
        var rec := ErrorRecord(Message(execute.exc), traceback, timestamp, name, currentStatus);
        if path.Ok? then r == Ok(Crashed(GenericCrash)) && errorFiles == old(errorFiles) + [(path.value, rec)]
        else r == Err(path.exc) && errorFiles == old(errorFiles)
    {
      if execute.Ok? {
        return Ok(Done(execute.value));
      }
      if raiseAnyException {
        return Err(execute.exc);
      }
      var logged := LogError(ErrorRecord(Message(execute.exc), traceback, timestamp, name, currentStatus), hex);
      if logged.Err? {
        return Err(logged.exc);
      }
      return Ok(Crashed(GenericCrash));
    }

    method SetExceptionHandling(raiseAny: bool)
      modifies this`raiseAnyException
      ensures raiseAnyException == raiseAny
    {
      raiseAnyException := raiseAny;
    }

    method SetFolders(metadata: string, error: string)
      modifies this`metadataFolder, this`errorFolder
      ensures metadataFolder == Some(metadata) && errorFolder == Some(error)
    {
      metadataFolder := Some(metadata);
      errorFolder := Some(error);
    }
  }

  /** Once the folders are set and a status naming a string input is
      loaded, a crash that is not let through is always logged: the file
      lies in the error folder, and its name is the input's stem, `_`, and
      the rest of the error file name. */
  lemma {:induction false} CrashIsLogged(errorFolder: string, status: Dict, hex: string)
    requires InputBase(status).Ok? && '/' !in hex
    ensures var path := ErrorLogPath(Some(errorFolder), Some(InputBase(status).value), hex);
      && path.Ok?
      && PyPath.Parent(path.value) == errorFolder
      && PyPath.Name(path.value) == ErrorFileName(PyPath.Stem(status["input_qasm"].s), hex)
      && StartsWith(PyPath.Name(path.value), PyPath.Stem(status["input_qasm"].s) + "_")
  {
    var base := PyPath.Stem(status["input_qasm"].s);
    PyPath.StemNoSlash(status["input_qasm"].s);
    ErrorFileNameShape(base, hex);
    PyPath.ParentOfJoin(errorFolder, ErrorFileName(base, hex));
  }
}
