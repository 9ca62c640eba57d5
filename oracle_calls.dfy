/** validate/functions_oracle_calls.py: the oracle functions appended to every
    generated program. They find the exporters and optimizers of the module by
    name, run each on every circuit of the program, and log each failure to a
    JSON file instead of stopping. The platform calls themselves are not part
    of this model: their outcome is a parameter. */
module OracleCalls {
  import opened Py
  import opened PyStr
  import PyPath

  // ---------------------------------------------------------------------
  // get_functions

  /** `name.split("_")[-1]`: the platform a function name ends with. */
  function LastToken(name: string): (t: string)
    ensures '_' !in t
  {
    var parts := Split(name, '_');
    SplitNoSep(name, '_');
    parts[|parts| - 1]
  }

  predicate Selected(name: string, prefix: string, key: string)
  {
    StartsWith(name, prefix) && LastToken(name) == key
  }

  /** get_functions over the function names of the module, in the order
      `inspect.getmembers` lists them: the names with the prefix, each under
      its last `_`-separated token; a later name replaces an earlier one with
      the same token. */
  function GetFunctions(names: seq<string>, prefix: string): (r: map<string, string>)
    decreases |names|
  {
    if names == [] then map[]
    else
      var last := names[|names| - 1];
      var r := GetFunctions(names[..|names| - 1], prefix);
      if StartsWith(last, prefix) then r[LastToken(last) := last] else r
  }

  /** A platform is listed exactly when some name with the prefix ends with
      it; the function listed under it has the prefix and that token, and no
      later name with the prefix has the same token. */
  lemma {:induction false} GetFunctionsSpec(names: seq<string>, prefix: string, key: string)
    ensures key in GetFunctions(names, prefix) <==>
      exists i :: 0 <= i < |names| && Selected(names[i], prefix, key)
    ensures key in GetFunctions(names, prefix) ==>
      exists i :: 0 <= i < |names| && names[i] == GetFunctions(names, prefix)[key]
        && Selected(names[i], prefix, key)
        && forall j :: i < j < |names| ==> !Selected(names[j], prefix, key)
  {
    GetFunctionsKeys(names, prefix, key);
    if key in GetFunctions(names, prefix) {
      GetFunctionsLast(names, prefix, key);
    }
  }

  lemma {:induction false} GetFunctionsKeys(names: seq<string>, prefix: string, key: string)
    ensures key in GetFunctions(names, prefix) <==>
      exists i :: 0 <= i < |names| && Selected(names[i], prefix, key)
    decreases |names|
  {
    if names != [] {
      var n := |names| - 1;
      var init := names[..n];
      GetFunctionsKeys(init, prefix, key);
      var r := GetFunctions(names, prefix);
      if Selected(names[n], prefix, key) {
        assert key in r;
      } else {
        assert key in r <==> key in GetFunctions(init, prefix);
        if exists i :: 0 <= i < |names| && Selected(names[i], prefix, key) {
          var i :| 0 <= i < |names| && Selected(names[i], prefix, key);
          assert i < n && init[i] == names[i];
        }
        if key in GetFunctions(init, prefix) {
          var i :| 0 <= i < n && Selected(init[i], prefix, key);
          assert names[i] == init[i];
        }
      }
    }
  }

  lemma {:induction false} GetFunctionsLast(names: seq<string>, prefix: string, key: string)
    requires key in GetFunctions(names, prefix)
    ensures exists i ::
      && 0 <= i < |names| && names[i] == GetFunctions(names, prefix)[key]
      && Selected(names[i], prefix, key)
      && (forall j :: i < j < |names| ==> !Selected(names[j], prefix, key))
    decreases |names|
  {
    var n := |names| - 1;
    var init := names[..n];
    var r := GetFunctions(names, prefix);
    if Selected(names[n], prefix, key) {
      assert r[key] == names[n];
    } else {
      assert key in GetFunctions(init, prefix) && r[key] == GetFunctions(init, prefix)[key];
      GetFunctionsLast(init, prefix, key);
      var i :| 0 <= i < n && init[i] == r[key] && Selected(init[i], prefix, key)
        && forall j :: i < j < n ==> !Selected(init[j], prefix, key);
      assert names[i] == init[i];
      forall j | i < j < |names| ensures !Selected(names[j], prefix, key) {
        if j < n { assert names[j] == init[j]; }
      }
    }
  }

  // ---------------------------------------------------------------------
  // log_exception_to_json

  /** The record a failure leaves: the exception and the functions involved. */
  datatype Failure = Failure(exc: Exception, involvedFunctions: seq<string>)

  /** The JSON file of one failure; `currentFile` is the program the oracle
      functions were appended to. */
  datatype ErrorLog = ErrorLog(
    path: string,
    exceptionMessage: string,
    stackTrace: string,
    currentFile: string,
    involvedFunctions: seq<string>,
    timestamp: int)


  /** `{stem}_{uuid6}_error.json`. */
  function LogFileName(currentFile: string, uuid: string): string
  {
    PyPath.Stem(currentFile) + "_" + uuid[..if |uuid| < 6 then |uuid| else 6] + "_error.json"
  }

  /** log_exception_to_json; `uuid` and `timestamp` stand for the random
      suffix and the clock reading, `stackTrace` for the formatted trace. */
  function LogExceptionToJson(f: Failure, stackTrace: string, outputDir: Option<string>,
                              currentFile: string, uuid: string, timestamp: int): (log: ErrorLog)
    ensures Truthy(outputDir) ==> log.path == PyPath.Join(outputDir.value, LogFileName(currentFile, uuid))
    ensures '/' !in uuid ==> PyPath.Name(log.path) == LogFileName(currentFile, uuid)
    ensures '/' !in uuid && !Truthy(outputDir) ==> PyPath.Parent(log.path) == PyPath.Parent(currentFile)
    ensures log.exceptionMessage == Message(f.exc) && log.involvedFunctions == f.involvedFunctions
  {
    var name := LogFileName(currentFile, uuid);
    var path := if Truthy(outputDir) then PyPath.Join(outputDir.value, name) else PyPath.WithName(currentFile, name);
    LogNameHasNoSlash(currentFile, uuid);
    if Truthy(outputDir) then PyPath.NameOfJoinIf(outputDir.value, name); ErrorLog(path, Message(f.exc), stackTrace, PyPath.Name(currentFile), f.involvedFunctions, timestamp)
    else ErrorLog(path, Message(f.exc), stackTrace, PyPath.Name(currentFile), f.involvedFunctions, timestamp)
  }

  lemma {:induction false} LogNameHasNoSlash(currentFile: string, uuid: string)
    ensures '/' !in uuid ==> '/' !in LogFileName(currentFile, uuid)
    ensures '/' !in uuid ==> PyPath.Parent(PyPath.WithName(currentFile, LogFileName(currentFile, uuid))) == PyPath.Parent(currentFile)
  {
    if '/' !in uuid {
      PyPath.StemNoSlash(currentFile);
      var u := uuid[..if |uuid| < 6 then |uuid| else 6];
      assert forall i :: 0 <= i < |u| ==> u[i] == uuid[i];
      ParentOfWithName(currentFile, LogFileName(currentFile, uuid));
    }
  }

  lemma {:induction false} ParentOfWithName(p: string, n: string)
    requires '/' !in n
    ensures PyPath.Parent(PyPath.WithName(p, n)) == PyPath.Parent(p)
  {
  }

  // ---------------------------------------------------------------------
  // oracle_exporter and oracle_optimizer

  /** The (circuit variable, (platform, function)) pairs of the two nested
      loops, in the order they run. */
  function Product(vars: seq<string>, calls: seq<(string, string)>): (r: seq<(string, (string, string))>)
    ensures |r| == |vars| * |calls|
  {
    if vars == [] then []
    else Product(vars[..|vars| - 1], calls) + Row(vars[|vars| - 1], calls)
  }

  function Row(v: string, calls: seq<(string, string)>): (r: seq<(string, (string, string))>)
    ensures |r| == |calls|
    ensures forall j :: 0 <= j < |calls| ==> r[j] == (v, calls[j])
  {
    seq(|calls|, j requires 0 <= j < |calls| => (v, calls[j]))
  }

  /** The pair at position `i * |calls| + j` is variable `i` with call `j`:
      every circuit meets every function exactly once. */
  lemma {:induction false} ProductAt(vars: seq<string>, calls: seq<(string, string)>, i: nat, j: nat)
    requires i < |vars| && j < |calls|
    ensures i * |calls| + j < |Product(vars, calls)|
    ensures Product(vars, calls)[i * |calls| + j] == (vars[i], calls[j])
    decreases |vars|
  {
    var n := |vars| - 1;
    var m := |calls|;
    assert Product(vars, calls) == Product(vars[..n], calls) + Row(vars[n], calls);
    assert |Product(vars[..n], calls)| == n * m;
    assert i * m + j < (i + 1) * m <= |vars| * m;
    if i < n {
      ProductAt(vars[..n], calls, i, j);
      assert i * m + j < n * m;
    } else {
      assert i * m + j - n * m == j;
    }
  }

  /** `{var}_{platform}_exporter.qasm` in the output folder, or None. */
  function ExportFile(outputDir: Option<string>, v: string, platform: string): Option<string>
  {
    if Truthy(outputDir) then Some(PyPath.Join(outputDir.value, v + "_" + platform + "_exporter.qasm")) else None
  }

  /** The failures of the exporter loop over the given attempts: `exporter`
      tells whether the named function raised on the circuit and file. */
  function ExportFailures(attempts: seq<(string, (string, string))>, outputDir: Option<string>,
                          exporter: (string, string, Option<string>) -> Option<Exception>): (r: seq<Failure>)
    ensures |r| <= |attempts|
  {
    if attempts == [] then []
    else
      var (v, (platform, call)) := attempts[|attempts| - 1];
      ExportFailures(attempts[..|attempts| - 1], outputDir, exporter)
      + match exporter(call, v, ExportFile(outputDir, v, platform))
        case Some(e) => [Failure(e, [call])]
        case None => []
  }

  /** The failures of two runs one after the other are those of the first,
      then those of the second. */
  lemma {:induction false} ExportFailuresAppend(a: seq<(string, (string, string))>, b: seq<(string, (string, string))>,
                                                outputDir: Option<string>,
                                                exporter: (string, string, Option<string>) -> Option<Exception>)
    ensures ExportFailures(a + b, outputDir, exporter)
         == ExportFailures(a, outputDir, exporter) + ExportFailures(b, outputDir, exporter)
    decreases |b|
  {
    if b == [] {
      assert a + b == a;
    } else {
      var n := |b| - 1;
      assert (a + b)[..|a + b| - 1] == a + b[..n];
      ExportFailuresAppend(a, b[..n], outputDir, exporter);
    }
  }

  /** Every exporter on one circuit, in order. */
  method ExportCircuit(v: string, exportCalls: seq<(string, string)>, outputDir: Option<string>,
                       exporter: (string, string, Option<string>) -> Option<Exception>)
    returns (failures: seq<Failure>)
    ensures failures == ExportFailures(Row(v, exportCalls), outputDir, exporter)
  {
    failures := [];
    for j := 0 to |exportCalls|
      invariant failures == ExportFailures(Row(v, exportCalls[..j]), outputDir, exporter)
    {
      var (platform, call) := exportCalls[j];
      var outcome := exporter(call, v, ExportFile(outputDir, v, platform));
      if outcome.Some? {
        failures := failures + [Failure(outcome.value, [call])];
      }
      assert Row(v, exportCalls[..j + 1])[..j] == Row(v, exportCalls[..j]);
    }
    assert exportCalls[..|exportCalls|] == exportCalls;
  }

  /** oracle_exporter: every exporter runs on every circuit; a failure is
      logged (with the exporter's name) and the loops go on. `exportCalls`
      is the result of get_functions in dictionary order. */
  method OracleExporter(vars: seq<string>, exportCalls: seq<(string, string)>, outputDir: Option<string>,
                        exporter: (string, string, Option<string>) -> Option<Exception>)
    returns (failures: seq<Failure>)
    ensures failures == ExportFailures(Product(vars, exportCalls), outputDir, exporter)
  {
    failures := [];
    for i := 0 to |vars|
      invariant failures == ExportFailures(Product(vars[..i], exportCalls), outputDir, exporter)
    {
      var more := ExportCircuit(vars[i], exportCalls, outputDir, exporter);
      assert vars[..i + 1][..i] == vars[..i];
      ExportFailuresAppend(Product(vars[..i], exportCalls), Row(vars[i], exportCalls), outputDir, exporter);
      failures := failures + more;
    }
    assert vars[..|vars|] == vars;
  }

  /** `converters_calls[platform].__name__`, for the four platforms that have
      a converter; None for any other. */
  function ConverterName(platform: string): Option<string>
  {
    if platform == "bqskit" then Some("qiskit_to_bqskit")
    else if platform == "pytket" then Some("qiskit_to_tk")
    else if platform == "pennylane" then Some("from_qiskit")
    else if platform == "qiskit" then Some("converter_to_qiskit")
    else None
  }

  /** What an optimizer platform without a converter raises: calling None
      fails inside the `try`, and the `except` block then fails itself on
      `None.__name__`. */
  const NoConverterName: Exception := AttributeError("'NoneType' object has no attribute '__name__'")

  /** The failures logged by the optimizer loop over the given attempts, and
      the exception that ends it, if any. `optimize` tells whether the
      conversion followed by the optimization raised. */
  function OptimizeRun(attempts: seq<(string, (string, string))>,
                       optimize: (string, string, string) -> Option<Exception>): (r: (seq<Failure>, Option<Exception>))
    ensures |r.0| <= |attempts|
  {
    if attempts == [] then ([], None)
    else
      var prev := OptimizeRun(attempts[..|attempts| - 1], optimize);
      var (v, (platform, call)) := attempts[|attempts| - 1];
      if prev.1.Some? then prev
      else match ConverterName(platform)
        case None => (prev.0, Some(NoConverterName))
        case Some(conv) =>
          match optimize(conv, call, v)
          case Some(e) => (prev.0 + [Failure(e, [conv, call])], None)
          case None => prev
  }

  /** A run over two parts: the first part's outcome if it raised, otherwise
      its failures followed by the second part's run. */
  function Then(first: (seq<Failure>, Option<Exception>), second: (seq<Failure>, Option<Exception>)): (seq<Failure>, Option<Exception>)
  {
    if first.1.Some? then first else (first.0 + second.0, second.1)
  }

  lemma {:induction false} OptimizeRunAppend(a: seq<(string, (string, string))>, b: seq<(string, (string, string))>,
                                             optimize: (string, string, string) -> Option<Exception>)
    ensures OptimizeRun(a + b, optimize) == Then(OptimizeRun(a, optimize), OptimizeRun(b, optimize))
    decreases |b|
  {
    if b == [] {
      assert a + b == a;
      assert OptimizeRun(a, optimize).0 + [] == OptimizeRun(a, optimize).0;
    } else {
      var n := |b| - 1;
      assert (a + b)[..|a + b| - 1] == a + b[..n];
      assert (a + b)[|a + b| - 1] == b[n];
      OptimizeRunAppend(a, b[..n], optimize);
      var x, y := OptimizeRun(a, optimize), OptimizeRun(b[..n], optimize);
      var (v, (platform, call)) := b[n];
      if x.1.None? && y.1.None? && ConverterName(platform).Some? {
        var conv := ConverterName(platform).value;
        if optimize(conv, call, v).Some? {
          var f := Failure(optimize(conv, call, v).value, [conv, call]);
          assert x.0 + y.0 + [f] == x.0 + (y.0 + [f]);
        }
      }
    }
  }

  /** One more call on a circuit: the run so far, then that attempt. */
  lemma {:induction false} RowStep(v: string, calls: seq<(string, string)>, j: nat,
                                   optimize: (string, string, string) -> Option<Exception>)
    requires j < |calls|
    ensures var row := Row(v, calls[..j + 1]);
            && row[..j] == Row(v, calls[..j])
            && row[j] == (v, calls[j])
            && OptimizeRun(row, optimize) == Attempt(OptimizeRun(Row(v, calls[..j]), optimize), v, calls[j], optimize)
  {
    var row := Row(v, calls[..j + 1]);
    assert row[..j] == Row(v, calls[..j]);
  }

  /** The last step of OptimizeRun, on the circuit `v` and the call `c`. */
  function Attempt(prev: (seq<Failure>, Option<Exception>), v: string, c: (string, string),
                   optimize: (string, string, string) -> Option<Exception>): (seq<Failure>, Option<Exception>)
  {
    if prev.1.Some? then prev
    else match ConverterName(c.0)
      case None => (prev.0, Some(NoConverterName))
      case Some(conv) =>
        match optimize(conv, c.1, v)
        case Some(e) => (prev.0 + [Failure(e, [conv, c.1])], None)
        case None => prev
  }

  /** Once a call has raised, the later ones change nothing. */
  lemma {:induction false} RowStop(v: string, calls: seq<(string, string)>, j: nat,
                                   optimize: (string, string, string) -> Option<Exception>)
    requires j <= |calls| && OptimizeRun(Row(v, calls[..j]), optimize).1.Some?
    ensures OptimizeRun(Row(v, calls), optimize) == OptimizeRun(Row(v, calls[..j]), optimize)
  {
    OptimizeRunAppend(Row(v, calls[..j]), Row(v, calls[j..]), optimize);
    assert Row(v, calls[..j]) + Row(v, calls[j..]) == Row(v, calls);
  }

  /** Every optimizer on one circuit, in order, until a platform without a
      converter raises. */
  method OptimizeCircuit(v: string, optimizeCalls: seq<(string, string)>,
                         optimize: (string, string, string) -> Option<Exception>)
    returns (failures: seq<Failure>, raised: Option<Exception>)
    ensures (failures, raised) == OptimizeRun(Row(v, optimizeCalls), optimize)
  {
    failures, raised := [], None;
    for j := 0 to |optimizeCalls|
      invariant (failures, raised) == OptimizeRun(Row(v, optimizeCalls[..j]), optimize) && raised.None?
    {
      var (platform, call) := optimizeCalls[j];
      var converter := ConverterName(platform);
      RowStep(v, optimizeCalls, j, optimize);
      if converter.None? {
        raised := Some(NoConverterName);
        RowStop(v, optimizeCalls, j + 1, optimize);
        return;
      }
      var outcome := optimize(converter.value, call, v);
      if outcome.Some? {
        failures := failures + [Failure(outcome.value, [converter.value, call])];
      }
    }
    assert optimizeCalls[..|optimizeCalls|] == optimizeCalls;
  }

  /** oracle_optimizer: each circuit is converted to the optimizer's platform
      and optimized; a failure is logged with both the converter's and the
      optimizer's names and the loops go on, unless the platform has no
      converter, which ends the run with an AttributeError. */
  method OracleOptimizer(vars: seq<string>, optimizeCalls: seq<(string, string)>,
                         optimize: (string, string, string) -> Option<Exception>)
    returns (failures: seq<Failure>, raised: Option<Exception>)
    ensures (failures, raised) == OptimizeRun(Product(vars, optimizeCalls), optimize)
  {
    failures, raised := [], None;
    for i := 0 to |vars|
      invariant (failures, raised) == OptimizeRun(Product(vars[..i], optimizeCalls), optimize) && raised.None?
    {
      var more, stop := OptimizeCircuit(vars[i], optimizeCalls, optimize);
      assert vars[..i + 1][..i] == vars[..i];
      OptimizeRunAppend(Product(vars[..i], optimizeCalls), Row(vars[i], optimizeCalls), optimize);
      failures := failures + more;
      if stop.Some? {
        raised := stop;
        OptimizeRunAppend(Product(vars[..i + 1], optimizeCalls), Rest(vars, i + 1, optimizeCalls), optimize);
        ProductSplit(vars, i + 1, optimizeCalls);
        return;
      }
    }
    assert vars[..|vars|] == vars;
  }

  /** The attempts for the circuits from `i` on. */
  function Rest(vars: seq<string>, i: nat, calls: seq<(string, string)>): seq<(string, (string, string))>
    requires i <= |vars|
  {
    MulMonotone(i, |vars|, |calls|);
    Product(vars, calls)[|Product(vars[..i], calls)|..]
  }

  lemma {:induction false} MulMonotone(a: nat, b: nat, c: nat)
    requires a <= b
    ensures a * c <= b * c
  {
    assert b * c == a * c + (b - a) * c;
  }

  lemma {:induction false} ProductSplit(vars: seq<string>, i: nat, calls: seq<(string, string)>)
    requires i <= |vars|
    ensures Product(vars[..i], calls) + Rest(vars, i, calls) == Product(vars, calls)
  {
    ProductPrefix(vars, i, calls);
  }

  /** The attempts for the first `i` circuits open the whole run. */
  lemma {:induction false} ProductPrefix(vars: seq<string>, i: nat, calls: seq<(string, string)>)
    requires i <= |vars|
    ensures |Product(vars[..i], calls)| <= |Product(vars, calls)|
    ensures Product(vars, calls)[..|Product(vars[..i], calls)|] == Product(vars[..i], calls)
    decreases |vars|
  {
    assert |vars[..i]| == i;
    assert i * |calls| <= |vars| * |calls| by {
      assert (|vars| - i) * |calls| >= 0;
    }
    if i < |vars| {
      var n := |vars| - 1;
      assert vars[..n][..i] == vars[..i];
      ProductPrefix(vars[..n], i, calls);
      assert Product(vars, calls) == Product(vars[..n], calls) + Row(vars[n], calls);
    } else {
      assert vars[..i] == vars;
    }
  }

  /** With a converter for every optimizer platform, nothing is raised. */
  lemma {:induction false} OptimizeRunCompletes(attempts: seq<(string, (string, string))>,
                                                optimize: (string, string, string) -> Option<Exception>)
    requires forall k :: 0 <= k < |attempts| ==> ConverterName(attempts[k].1.0).Some?
    ensures OptimizeRun(attempts, optimize).1.None?
    decreases |attempts|
  {
    if attempts != [] {
      OptimizeRunCompletes(attempts[..|attempts| - 1], optimize);
    }
  }

  /** An optimizer platform without a converter makes the run raise, as soon
      as there is a circuit. */
  lemma {:induction false} OptimizeRunRaises(attempts: seq<(string, (string, string))>, k: nat,
                                             optimize: (string, string, string) -> Option<Exception>)
    requires k < |attempts| && ConverterName(attempts[k].1.0).None?
    ensures OptimizeRun(attempts, optimize).1 == Some(NoConverterName)
    decreases |attempts|
  {
    var n := |attempts| - 1;
    var prev := OptimizeRun(attempts[..n], optimize);
    if k < n {
      OptimizeRunRaises(attempts[..n], k, optimize);
    } else if prev.1.Some? {
      RaisedIsNoConverter(attempts[..n], optimize);
    }
  }

  /** The only exception the run raises is the missing-converter one. */
  lemma {:induction false} RaisedIsNoConverter(attempts: seq<(string, (string, string))>,
                                               optimize: (string, string, string) -> Option<Exception>)
    ensures OptimizeRun(attempts, optimize).1.Some? ==> OptimizeRun(attempts, optimize).1 == Some(NoConverterName)
    decreases |attempts|
  {
    if attempts != [] {
      RaisedIsNoConverter(attempts[..|attempts| - 1], optimize);
    }
  }
}
