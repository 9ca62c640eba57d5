# A verified model of the QITE differential-testing harness

The repository is a differential-testing harness for quantum-circuit
compilers. It generates random quantum programs (OpenQASM 2 and Qiskit
scripts), sends each program through chains of platform processors
(import, transformers, export: Qiskit, pytket, PennyLane, BQSKit), and
feeds the exported programs into the next round. It then compares the
programs of one provenance family with an equivalence checker, minimises
the failures it finds by delta debugging, and triages and labels the
crashes. Around this core sit coverage bookkeeping, a launcher that turns
a YAML configuration into command lines, and the information-distillation
scripts that mine Qiskit's history for deprecations.

This project models that core in Dafny, one module per source file. Each
module's doc comment names the file it models. The modules are:

- **Pipeline**:
  - `Primitives`: operations and crash markers.
  - `PlatformProcessor` and `ValidatePlatformProcessor`: the status dict, the import, transformers and export state machine, and the conversion loop.
  - `QiteLoop`: rounds, the program-id filter and the deadline.
  - `QiteReplay`: replay from metadata.
  - `Entry`: commands, placeholders and batches.
  - `PennylaneProcessor`: the exporter's rewrite of the op list.
- **Generators**:
  - `QiskitGates`: the `DistinctSampler` and the gate templates.
  - `QiskitCodeGen` and `QiskitGateGen`.
  - `QasmGates`, `QasmCodeGen` and `LegacyQasmCodeGen`.
  - `Numbering`: numbered output files.
  - `FixedFilesGenerator`: the use-each-seed-once strategy.
  - `LlmGenerator`.
  - `InterleavedKnitter` and `Sanitizers`: circuit knitting.
  - `SourceCodeManipulation`.
  - `TestSuiteInstrumentation`.
- **Divergence checking and minimisation**:
  - `QasmCompare`, `Qcec` and `OracleCalls`.
  - `SpotDivergences`.
  - `DeltaDebugging` and `DeltaDebuggingComparison`.
  - `DdminTargetFile`.
  - `Triage` and `SampleCrashes`.
- **Coverage**: `ComputeCoverage`, `CoverageNotebook` and `RunCoverageScripts`.
- **Information distillation**:
  - `ContextRetriever` and `GetApiMapping`.
  - `FilterCodeChanges`.
  - `GetCodeHunksWithDeprecate` and `GetChangelogs`.
  - `LogUnderstanding` and `ModelUnderstanding`.
  - `ScanFunctions`.
- **Shared helpers** (no rows of their own):
  - `Py`: Option, exceptions and results.
  - `PyStr`: Python `str` methods.
  - `PySeq`: slicing and list helpers.
  - `PyPath`: `pathlib` names.
  - `Sorting`: stable sort by key, and string order.

Objects whose fields the source updates are classes with `modifies`
clauses. Examples are the platform processor's status dict and transformer
list, an operation's folders and flags, the QASM line buffer, the sampler's
sets, the use-once strategy's set of used files, the coverage store and the
AST visitor's current class. Loops are methods proved equal to a
specification function. Pure code is functions, with lemmas relating them.

Foreign code is a parameter. This covers the compilers, the equivalence
checker, Python's parser, regular expressions, JSON and YAML, the file
system, the clock, randomness, Docker and the language model. Each module
says which parameters stand for what.

Where the documentation and the code disagree, the model follows the code:

- `Entry.FillConfigUnmarked` (entry.py:180-189). The docstring says a
  missing batch size raises only when `<<BATCH_SIZE>>` occurs in the text.
  The code raises whenever the batch size is missing.
- `PlatformProcessor.PlatformProcessor.ExecuteConversionLoop`
  (qite/processors/platform_processor.py:166-193). It always ends in a TypeError,
  because the status it builds has no `input_qasm` and `Path(None)`
  raises.
- `LlmGenerator`. The recursive retry of `generate` is modelled as a loop
  with the same counter.
- `DistinctSampler` appears three times in the source, identically
  (qite/generators/qiskit_gates.py, qite/generators/qiskit_code_gen.py and
  generators/qiskit_gate_gen.py). It is modelled once, as
  `QiskitGates.DistinctSampler`.
- `Operation`. The one in validate/platform_processor.py is the same code
  as the one in qite/base/primitives.py, and `Primitives.Operation` models
  both.
- `APIVisitor`. The two copies, in scan_functions.py and
  aiexchange/knowledge_base/scan_functions.py, are modelled once.

## Model

| member | source | states |
|---|---|---|
| ComputeCoverage.CoverageInputsSpec | qite/compute_coverage.py:29-42 | a name is a coverage input iff it is in the folder, ends in `.xml` and does not start with `merged_coverage` (lines 309-311 included) |
| ComputeCoverage.StripFirstSpec | qite/compute_coverage.py:92-105 | a path with no known prefix is unchanged; otherwise exactly the first matching prefix in PACKAGE_PATHS order is removed |
| ComputeCoverage.CleanStripsOnce | qite/compute_coverage.py:101-104 | only one prefix is removed, even when what remains starts with another known prefix |
| ComputeCoverage.PlatformFromPathNone | qite/compute_coverage.py:126-128 | the site-packages scan finds nothing iff no supported platform's `/site-packages/{platform}/` occurs in the path |
| ComputeCoverage.PlatformFromPathFirst | qite/compute_coverage.py:126-128 | a found platform is the first supported one whose site-packages folder occurs in the path |
| ComputeCoverage.DeterminePlatform | qite/compute_coverage.py:108-130 | the platform is always one of the supported platforms, so it is never None |
| ComputeCoverage.DeterminePlatformSpec | qite/compute_coverage.py:121-130 | `crates` in the package name gives qiskit; otherwise a `.cpp` file gives pytket; otherwise the site-packages scan; otherwise qiskit |
| ComputeCoverage.Initial | qite/compute_coverage.py:156-168 | one entry per supported platform, each with empty covered and total sets |
| ComputeCoverage.RecordAllAppend | qite/compute_coverage.py:133-153 | recording two hit lists one after the other is recording their concatenation |
| ComputeCoverage.RecordAllSound | qite/compute_coverage.py:151-153 | recording hits keeps every covered set inside its total set |
| ComputeCoverage.RecordAllSpec | qite/compute_coverage.py:151-153 | a line id ends in a platform's total set iff it was there or some hit of that platform names it, and in its covered set iff it was there or a hit with count > 0 names it |
| ComputeCoverage.LineHits | qite/compute_coverage.py:147-149 | one hit per line, in order, with the id `clean_path:number` and covered iff its hit count is positive |
| ComputeCoverage.ClassHitsSpec | qite/compute_coverage.py:171-201 | a class gives a hit iff its file name holds no `test` (case-insensitive) and does not end in `.hpp`, and that hit comes from one of its lines on the platform determine_platform picks |
| ComputeCoverage.ReportHitsFrom | qite/compute_coverage.py:218-226 | every hit of a report comes from a line of a class of a package of that report |
| ComputeCoverage.ReportHitsOf | qite/compute_coverage.py:218-226 | every line of every class not skipped gives its hit |
| ComputeCoverage.CoverageStore.ProcessCoverageLine | qite/compute_coverage.py:133-153 | the line id joins the platform's total set, and its covered set when the hit count is positive; nothing else changes |
| ComputeCoverage.CoverageStore.ProcessClassCoverage | qite/compute_coverage.py:171-201 | the store becomes the old store with the class's hits recorded, and every platform keeps its entry |
| ComputeCoverage.CoverageStore.ProcessPackage | qite/compute_coverage.py:219-226 | the store becomes the old store with the hits of every class of the package recorded in order |
| ComputeCoverage.ExtractCoverageData | qite/compute_coverage.py:204-228 | a report without packages fails with an AttributeError; otherwise the data is every hit of every package recorded over the initial data |
| ComputeCoverage.ExtractSound | qite/compute_coverage.py:204-228 | in the extracted data every platform's covered lines are among its total lines |
| ComputeCoverage.ExtractTotal | qite/compute_coverage.py:204-228 | a line id is in a platform's total set iff some line of a class not skipped, on that platform, has that id |
| ComputeCoverage.ExtractCovered | qite/compute_coverage.py:204-228 | a line id is in a platform's covered set iff some such line has that id and a positive hit count |
| ComputeCoverage.CoverageMetrics | qite/compute_coverage.py:231-258 | metrics are computed for exactly the platforms of the data |
| ComputeCoverage.MetricsSpec | qite/compute_coverage.py:243-247 | covered <= total; a platform with no lines has 0 %; the percentage lies in 0..100; it is 0 iff nothing is covered and 100 iff there are lines and all of them are covered |
| ComputeCoverage.MergedSpec | qite/compute_coverage.py:45-89 | the merged report is the first report with every later report's packages appended in order; a first report without packages stays without |
| ComputeCoverage.MergeCoverageFiles | qite/compute_coverage.py:63-89 | no report is an AttributeError (serialising None); otherwise the merged report |
| ComputeCoverage.ProcessCoverage | qite/compute_coverage.py:297-332 | no input file gives no result; a merged report without packages is the ClickException `Error during processing: ...`; otherwise the metrics of the data extracted from the merged report |
| ComputeCoverage.PlatformFromPath | qite/compute_coverage.py:126-128 | a platform found in the path is one of the platforms scanned |
| ComputeCoverage.RecordAll | qite/compute_coverage.py:133-153 | recording lines adds no platform and removes none |
| ComputeCoverage.ClassHits | qite/compute_coverage.py:171-201 | every hit of a class goes to a supported platform |
| ComputeCoverage.ClassesHits | qite/compute_coverage.py:221-226 | every hit of the classes of a package goes to a supported platform |
| ComputeCoverage.PackagesHits | qite/compute_coverage.py:218-226 | every hit of a report goes to a supported platform, so the dict lookups of process_coverage_line never fail |
| ComputeCoverage.CoverageStore.constructor | qite/compute_coverage.py:156-168 | the store starts as the initial data: one empty entry per supported platform |
| ComputeCoverage.CoverageStore.ProcessLines | qite/compute_coverage.py:194-201 | the line loop records the hits of the class's lines, in order, into the platform's entry |
| ContextRetriever.PaddedDefaults | information_distillation/context_retriever.py:20-21 | `[None] * (n - k) + defaults` has n entries when there are no more defaults than arguments, and never fewer than n |
| ContextRetriever.DefaultsAsWritten | information_distillation/context_retriever.py:20-28 | zipping with the arguments keeps exactly one default slot per positional argument |
| ContextRetriever.AlignedDefaultsSpec | information_distillation/context_retriever.py:20-21 | argument i gets the default at the same distance from the end of the default list when it is among the last len(defaults) arguments, and no default otherwise |
| ContextRetriever.SignatureAgrees | information_distillation/context_retriever.py:7-47 | for a function with no positional-only parameters the signature as written and the aligned one agree |
| ContextRetriever.PosonlyDefaultShifts | information_distillation/context_retriever.py:20-21 | for `def f(a=1, /, b=2)`, whose positional-only parameter has a default, the code as written prints `f(b=1)` instead of `f(b=2)` |
| ContextRetriever.GetFunctionSignature | information_distillation/context_retriever.py:7-47 | a FunctionDef gives its signature as written (defaults paired with `args` by `zip`, so those of positional-only parameters shift onto the first ones); any other node is a TypeError |
| ContextRetriever.ContextWindow | information_distillation/context_retriever.py:76-83 | the context is the lines from max(0, line-k) to min(len, line+k+1) joined with newlines: it holds the line and at most 2k+1 lines |
| ContextRetriever.ParentClassesSpec | information_distillation/context_retriever.py:50-60 | an AttributeError iff some attribute base has no `id` on its value; otherwise at most one name per base |
| ContextRetriever.ParentClassesOfNames | information_distillation/context_retriever.py:54-58 | Name bases give their ids in order and other kinds of base are skipped |
| ContextRetriever.ParentClassesStep | information_distillation/context_retriever.py:54-58 | one base at a time: a bad base raises, a Name or Attribute base is prepended as `id` or `value.attr`, anything else is skipped |
| ContextRetriever.GetParentClasses | information_distillation/context_retriever.py:50-60 | a ClassDef gives its parent class list; any other node is a TypeError |
| ContextRetriever.First | information_distillation/context_retriever.py:67-73 | the first node from i in walk order that matches the search, or None when none matches |
| ContextRetriever.FunctionName | information_distillation/context_retriever.py:63-73 | None iff no FunctionDef in the walk spans the line (end line included) |
| ContextRetriever.FunctionNameFirst | information_distillation/context_retriever.py:67-72 | the first spanning FunctionDef in walk order gives its name, or its signature as written when asked for |
| ContextRetriever.GetFunctionName | information_distillation/context_retriever.py:63-73 | the walk loop returns FunctionName |
| ContextRetriever.ParentLabel | information_distillation/context_retriever.py:86-97 | None iff no FunctionDef or ClassDef spans the line with the end line excluded |
| ContextRetriever.ParentLabelFirst | information_distillation/context_retriever.py:90-96 | the first such node gives `Function: name` or `Class: name` |
| ContextRetriever.GetParents | information_distillation/context_retriever.py:86-97 | the walk loop returns ParentLabel |
| ContextRetriever.LastLineOfFunction | information_distillation/context_retriever.py:69-92 | on a function's last line get_function_name finds the function but get_parents does not; on the line before, both do |
| ContextRetriever.Entry | information_distillation/context_retriever.py:107-127 | a FunctionDef gives a `function` entry and a ClassDef a `class` entry with the node's span; only a class with a bad base fails |
| ContextRetriever.Enclosing | information_distillation/context_retriever.py:106-108 | every node kept spans the line, end line included |
| ContextRetriever.ListOfParentsFails | information_distillation/context_retriever.py:100-128 | the list fails iff some enclosing node's entry fails |
| ContextRetriever.ListOfParentsSpec | information_distillation/context_retriever.py:100-128 | the parents are the entries of the enclosing nodes, one for one, in walk order |
| ContextRetriever.ParentsSpanLine | information_distillation/context_retriever.py:108-119 | every parent's span holds the line |
| ContextRetriever.GetListOfParents | information_distillation/context_retriever.py:100-128 | the walk loop returns ListOfParents |
| ContextRetriever.InnerFunctionParents | information_distillation/context_retriever.py:100-128 | on a sample module, a line of an inner function lists the outer then the inner function with their signatures as written |
| ContextRetriever.ClassMethodParents | information_distillation/context_retriever.py:118-127 | a line of a method lists `class TestClass(ParentClass)` then the method |
| ContextRetriever.Indent | information_distillation/context_retriever.py:149 | the indentation is 4 spaces per level |
| ContextRetriever.HeadersStop | information_distillation/context_retriever.py:146-147 | the header loop stops at the first parent starting below the top line |
| ContextRetriever.HeadersAll | information_distillation/context_retriever.py:141-153 | when every parent starts at or above the top line, every parent gets its header |
| ContextRetriever.SingleLineCompressed | information_distillation/context_retriever.py:131-157 | with no context lines, the result is every parent's header followed by the line itself |
| ContextRetriever.CompressedTail | information_distillation/context_retriever.py:154-156 | the result is the headers, the context window, and `...` exactly when lines follow the window before the end of the file |
| ContextRetriever.WriteHeaders | information_distillation/context_retriever.py:141-153 | the header loop builds Headers of the parents |
| ContextRetriever.GetContextParentsCompressed | information_distillation/context_retriever.py:131-157 | an error from the parent list is passed on; otherwise the compressed context of the parents |
| ContextRetriever.SampleSignature1 | information_distillation/test_context_retriever.py:70-72 | in the sample file, the signature of test_function_2 is `test_function_2(with_signature: str)` |
| DeltaDebugging.RunQiteWrapper | qite/delta_debugging.py:17-30 | False ("reproduced") iff the replay raised, the clue is non-empty and it is a substring of the exception message; no exception or a non-matching one gives True |
| DeltaDebugging.OwnMessageIsClue | qite/delta_debugging.py:25-30 | an exception's own non-empty message is a matching clue; a missing or empty clue never reproduces |
| DeltaDebugging.AskUserToConfirmClue | qite/delta_debugging.py:38-43 | the stripped user input when non-empty, otherwise the record's `error` field, otherwise "" |
| DeltaDebugging.ReplayMetadata | qite/delta_debugging.py:65-71 | the copied metadata has the same keys plus `input_qasm`, which points to `test.qasm` in the temporary folder; every other key keeps its value |
| DeltaDebugging.MinimizedQasmPath | qite/delta_debugging.py:88-91 | the minimised file keeps the input program's file name |
| DeltaDebugging.DebugSession.Test | qite/delta_debugging.py:73-81 | the test closure writes exactly the candidate lines to `test.qasm`, then returns the clue oracle's verdict on the replay of that file |
| DeltaDebuggingComparison.OutputsSpec | qite/delta_debugging_comparison.py:38 | the set built from tree1 holds exactly its nodes' output_qasm values |
| DeltaDebuggingComparison.FirstOutputIn | qite/delta_debugging_comparison.py:39-41 | the scan returns the first node of tree2 whose output is in the set, and None only if no node's output is |
| DeltaDebuggingComparison.CommonAncestor | qite/delta_debugging_comparison.py:30-37 | tree2[0] when tree1 is empty, tree1[0] when only tree2 is empty, an IndexError when both are empty |
| DeltaDebuggingComparison.CommonAncestorShared | qite/delta_debugging_comparison.py:38-42 | with both trees non-empty: no ancestor ({}) iff no output_qasm of tree2 occurs in tree1; otherwise a node of tree2 whose output occurs in tree1 |
| DeltaDebuggingComparison.FindCommonAncestor | qite/delta_debugging_comparison.py:30-42 | the imperative scan computes CommonAncestor |
| DeltaDebuggingComparison.FromFirstInputSkips | qite/delta_debugging_comparison.py:56-66 | the collected nodes are a suffix of the tree and no node before it has the ancestor's input_qasm |
| DeltaDebuggingComparison.FromFirstInputAt | qite/delta_debugging_comparison.py:56-66 | when node i is the first with the ancestor's input_qasm, the result is the suffix from i |
| DeltaDebuggingComparison.FromFirstInputNone | qite/delta_debugging_comparison.py:56-66 | when no node has the ancestor's input_qasm, the result is [] |
| DeltaDebuggingComparison.GetNodesFromAncestor | qite/delta_debugging_comparison.py:56-66 | the start-flag loop returns FromFirstInput of the tree and the ancestor's input_qasm |
| DeltaDebuggingComparison.NodeFileNamesDistinct | qite/delta_debugging_comparison.py:81 | two different node indices give different `{tree_name}_node{idx+1}.json` paths |
| DeltaDebuggingComparison.Sandbox.WriteTreeToDisk | qite/delta_debugging_comparison.py:76-85 | one path per node in order, named `{tree_name}_node{idx+1}.json` in the folder, and each node written to its path |
| DeltaDebuggingComparison.WrittenTreeFiles | qite/delta_debugging_comparison.py:76-85 | path i is the name of node i, write i stores node i at it, and no two writes share a path |
| DeltaDebuggingComparison.ComparedFiles | qite/delta_debugging_comparison.py:159-168 | an error iff both trees are empty; with both non-empty, the compared files are the names of the last output of each tree |
| DeltaDebuggingComparison.ReproFunc | qite/delta_debugging_comparison.py:138-192 | True as soon as any chain replay raised; otherwise False iff the recomputed equivalence text equals the original verdict |
| DeltaDebuggingComparison.CheckerErrorVerdict | qite/delta_debugging_comparison.py:185-192 | when no replay raised and the checker itself raised, the `error: ...` text differs from an original verdict not starting with `error: `, so the run counts as not reproduced |
| DeltaDebuggingComparison.CountAllReproduced | qite/delta_debugging_comparison.py:197-199 | the number of reproducing runs equals the number of runs iff no run returned "not reproduced" |
| DeltaDebuggingComparison.ReproducibilityGate | qite/delta_debugging_comparison.py:196-210 | with 10 trials, minimisation goes ahead iff all 10 reproduce; otherwise an AssertionError |
| DeltaDebugging.DebugSession.constructor | qite/delta_debugging.py:55-60 | a session starts with an empty fresh temporary folder, the confirmed clue and the replay of the chain |
| DeltaDebuggingComparison.Sandbox.constructor | qite/delta_debugging_comparison.py:122-123 | the comparison starts in a fresh temporary folder with nothing written |
| DeltaDebuggingComparison.FirstOutputAt | qite/delta_debugging_comparison.py:39-41 | the scan stops at the first node of the second tree whose output the first tree also produced |
| DeltaDebuggingComparison.FromFirstInput | qite/delta_debugging_comparison.py:56-66 | the collected nodes are no more than the tree, and start with a node reading the ancestor's input |
| DeltaDebuggingComparison.GateWithRaisingReplays | qite/delta_debugging_comparison.py:138-210 | when every preliminary run has a chain replay that raised, as the replay as written does, every run reports "not reproduced" and the gate raises AssertionError |
| DdminTargetFile.ExtractSplitsAtTags | analysis_and_reporting/ddmin_target_file.py:72-87 | with the start tag before the end tag, before ++ instructions ++ after is the whole line list, the start-tag line closes `before`, the end-tag line opens `after`, and no instruction is the end tag |
| DdminTargetFile.ExtractMissingTag | analysis_and_reporting/ddmin_target_file.py:79-82 | a start or end tag that no stripped line equals makes `next` raise StopIteration |
| DdminTargetFile.ExtractTagsOutOfOrder | analysis_and_reporting/ddmin_target_file.py:84-87 | with the end tag at or before the start tag, the instruction slice is empty and the two outer chunks overlap |
| DdminTargetFile.ReproFunc | analysis_and_reporting/ddmin_target_file.py:97-136 | the result is False exactly when the run finished, wrote an `_error.json` and the first one's `exception_message` (default "") contains the clue; every other outcome is True |
| DdminTargetFile.ReproFuncEdgeCases | analysis_and_reporting/ddmin_target_file.py:116-135 | an empty clue matches any logged error; a Docker exception always yields True whatever the clue |
| DdminTargetFile.SplitIndexAsWritten | analysis_and_reporting/ddmin_target_file.py:145-147 | the split index of `rfind(' ', 0, max_length)` with the hard-split fallback never exceeds max_length |
| DdminTargetFile.WrapStallsAsWritten | analysis_and_reporting/ddmin_target_file.py:144-149 | an over-long line made of indentation and one space-free word is rebuilt unchanged by one pass, so the `while` loop never ends |
| DdminTargetFile.SplitIndex | analysis_and_reporting/ddmin_target_file.py:145-147 | corrected split index: strictly past the indentation and at most max_length, so every pass makes progress |
| DdminTargetFile.Continuation | analysis_and_reporting/ddmin_target_file.py:149 | the continuation line is shorter than the line it came from and holds a newline only if that line did |
| DdminTargetFile.WrapFits | analysis_and_reporting/ddmin_target_file.py:143-150 | every piece one line is cut into is at most max_length long and holds a newline only if the line did |
| DdminTargetFile.WrapAllFits | analysis_and_reporting/ddmin_target_file.py:141-150 | every emitted line of all input lines is at most max_length long, and none holds a newline when no input line did |
| DdminTargetFile.WrapKeepsText | analysis_and_reporting/ddmin_target_file.py:148-149 | cutting a line loses no text: its non-whitespace characters come out unchanged and in order |
| DdminTargetFile.DumpJsonWithMaxLength | analysis_and_reporting/ddmin_target_file.py:139-151 | the text is the wrapped lines joined by newlines, and every line of it is at most max_length long |
| DdminTargetFile.DumpedLinesFit | analysis_and_reporting/ddmin_target_file.py:141-151 | splitting the joined wrapped text on newlines gives lines of at most max_length |
| DdminTargetFile.MinimizedFileText | analysis_and_reporting/ddmin_target_file.py:154-171 | the file starts with the docstring holding the dumped error record and ends with a newline and the footer (or, without a footer, with the minimised lines) |
| DdminTargetFile.MinimizedFileName | analysis_and_reporting/ddmin_target_file.py:234 | the minimised file is named `{error_stem}_min.py` |
| DdminTargetFile.RaiseLine | analysis_and_reporting/ddmin_target_file.py:181-183 | the inserted line is `raise e` with exactly the indentation of the log call |
| DdminTargetFile.DropRaisesInverse | analysis_and_reporting/ddmin_target_file.py:174-184 | dropping the line after each `log_exception_to_json` call gives back the footer's lines: every line is kept, in order |
| DdminTargetFile.AddRaiseExceptionToFooter | analysis_and_reporting/ddmin_target_file.py:174-184 | the result is the footer's lines with `raise e` inserted after each line starting with `log_exception_to_json`, joined by newlines |
| DdminTargetFile.NotInvolved | analysis_and_reporting/ddmin_target_file.py:218-221 | a function is removed iff it is a footer function and not in involved_functions |
| DdminTargetFile.FunctionsToRemove | analysis_and_reporting/ddmin_target_file.py:208-221 | exactly the footer's `def`s with prefix export_to_qasm, import_from_qasm or compare_qasm that are not involved are removed |
| DdminTargetFile.MinimizedFooter | analysis_and_reporting/ddmin_target_file.py:222-223 | the footer given to every candidate defines none of the functions to remove |
| DdminTargetFile.InsertRaises | analysis_and_reporting/ddmin_target_file.py:177-183 | the loop over the footer's lines keeps every line in order and puts `raise e`, at the line's indentation, right after each line that starts a `log_exception_to_json` call |
| Entry.ListOptions | entry.py:225-227 | one `--key 'item'` option per list item |
| Entry.SetItemSpec | entry.py:217 | after `arguments['end_timestamp'] = t` the key maps to t, every other key is unchanged, setting twice is setting once, and an existing key keeps its place |
| Entry.AppendArgOptions | entry.py:221-230 | one argument's options are appended after the parts built so far |
| Entry.BuildCommandLine | entry.py:219-240 | the command line is the space-joined parts: the module call, each argument's options in order, then `--config path` when the config is non-empty |
| Entry.BuildCommand | entry.py:212-240 | a missing `module` or `arguments` key is a KeyError; otherwise the command line, with `end_timestamp` written into the command's own arguments |
| Entry.ArgOptionsSpec | entry.py:222-230 | True or "True" gives the bare flag `--key`, False or "False" gives nothing, a list gives one quoted option per item, anything else `--key value` |
| Entry.ListOptionsAt | entry.py:226-227 | item i of a list gives `--key 'item_i'` at position i |
| Entry.IntStringNotFlag | entry.py:222 | an integer never prints as True or False, so the end timestamp is never taken for a flag |
| Entry.OptionsAppend | entry.py:221-230 | the options of two argument lists in a row are the options of each, concatenated |
| Entry.CommandSpec | entry.py:212-240 | the command starts with `python -m module`, holds `--end_timestamp t`, and ends with `--config path` when a non-empty config is given |
| Entry.EndTimestampOption | entry.py:217-230 | the end timestamp written into the arguments gives the option `--end_timestamp t` |
| Entry.ReplaceProgramRange | entry.py:271-282 | the command list keeps its length |
| Entry.ReplaceProgramRangeSpec | entry.py:271-282 | every command keeps its module and arguments; a config with `program_id_range` gets the new range and every other config key and every config without it is unchanged |
| Entry.BatchesShareBoundary | entry.py:337-340 | batch b+1 starts where batch b ends, and each range spans batch_size programs |
| Entry.RunAll | entry.py:345-354 | running the commands in order stops at the first build error or non-zero exit (CalledProcessError); otherwise it yields every command line |
| Entry.RunCommandsSpec | entry.py:345-354 | every command keeps its module; when all succeed there is one command line per command, each starting with its module call and exiting with 0 |
| Entry.SingleCommandNeverRuns | entry.py:342-359 | with only `command` in the config, replace_program_range already fails on `config['commands']`, so the single-command branch never runs |
| Entry.SingleBranchRaises | entry.py:355-359 | the single-command branch as written calls build_command without its required end_timestamp, so it raises TypeError and changes nothing, where the intended batch would run its command |
| Entry.SingleBatchSpec | entry.py:342-359 | the intended single-command branch (not the code as written, which raises): it runs exactly one command line, built from that command with the end timestamp in its arguments like the `commands` form |
| Entry.ContinuesSpec | entry.py:361-367 | without continuous mode there is one batch only; with a positive budget, a batch ending after start + budget is the last |
| Entry.FirstQiteLoop | entry.py:379-382 | the first command whose module is `qite.qite_loop`, or None when there is none |
| Entry.OutputFolderQiteLoop | entry.py:377-386 | the printed folder is the first qite_loop command's non-empty `input_folder` |
| Entry.FillConfigUnmarked | entry.py:173-192 | a text with no placeholder comes back unchanged when `batch_size` converts to an integer (an integer, a boolean or a float), and a missing `batch_size` raises even then |
| Entry.FillConfigOutcome | entry.py:181-189 | the text is filled iff `batch_size` is a float, an integer, a boolean or an integer string; the placeholder exception iff the key is missing; TypeError iff the document is not a mapping or the value is null, a list or a mapping; ValueError iff it is a non-integer string |
| Entry.IntOf | entry.py:183 | `int()` on a parsed value succeeds iff it is an integer, a boolean or a string spelling an integer, keeps integers, and raises TypeError on null, lists and mappings |
| Entry.Truncate | entry.py:183 | `int()` on a float truncates toward zero: the result has the float's sign and lies within 1 of it, on the zero side |
| Entry.OutputFolderFallback | entry.py:383-386 | with no `qite.qite_loop` command the last command's input folder is printed; an empty command list fails with an IndexError |
| FilterCodeChanges.TagSpec | information_distillation/filter_code_changes.py:76-77 | a tagged change has its own keys plus `hash` and `commit_number`, set to the commit's, and keeps every other value |
| FilterCodeChanges.Tagged | information_distillation/filter_code_changes.py:75-78 | one tagged change per code change of the commit |
| FilterCodeChanges.FlattenFails | information_distillation/filter_code_changes.py:71-78 | flattening fails iff some commit lacks `hash`, `commit_number` or `code_changes` |
| FilterCodeChanges.FlattenLength | information_distillation/filter_code_changes.py:70-78 | the flattened list has one entry per code change of every commit |
| FilterCodeChanges.FlattenAppend | information_distillation/filter_code_changes.py:71-78 | flattening two commit lists in a row is flattening each, concatenated; the first failure wins |
| FilterCodeChanges.FlattenOne | information_distillation/filter_code_changes.py:71-78 | a single commit flattens to its own tagged changes |
| FilterCodeChanges.FlattenTagged | information_distillation/filter_code_changes.py:75-78 | every flattened change carries the hash and commit number of a commit it came from |
| FilterCodeChanges.FlattenCodeChanges | information_distillation/filter_code_changes.py:56-82 | the nested loops compute Flatten |
| FilterCodeChanges.DeduplicateFails | information_distillation/filter_code_changes.py:107-108 | deduplication fails iff some item lacks the field |
| FilterCodeChanges.DeduplicateSpec | information_distillation/filter_code_changes.py:105-111 | kept items have pairwise different field values; each kept item is the first with its value; every value of the input is kept by some item |
| FilterCodeChanges.DeduplicateOrder | information_distillation/filter_code_changes.py:107-111 | the kept items keep their input order |
| FilterCodeChanges.DeduplicateIdempotent | information_distillation/filter_code_changes.py:85-119 | deduplicating twice is deduplicating once |
| FilterCodeChanges.RemoveDuplicatesOnField | information_distillation/filter_code_changes.py:85-119 | the loop with its seen set computes Deduplicate |
| FilterCodeChanges.PunctuationRuns | information_distillation/filter_code_changes.py:113-115 | a character counts as punctuation iff it is in `string.punctuation` |
| FilterCodeChanges.DefaultSuffix | information_distillation/filter_code_changes.py:112-115 | the default suffix is as long as the field name |
| FilterCodeChanges.DefaultSuffixSpec | information_distillation/filter_code_changes.py:112-115 | punctuation becomes `_`, every other character stays, and a name without punctuation other than `_` is its own suffix |
| FilterCodeChanges.RemoveLinesSpec | information_distillation/filter_code_changes.py:140-143 | filtering fails iff some item lacks `target_line_content`; otherwise an item is kept iff it is in the input and its target line does not match |
| FilterCodeChanges.RemoveLinesAppend | information_distillation/filter_code_changes.py:141-143 | filtering two lists in a row is filtering each, concatenated |
| FilterCodeChanges.RemoveLinesIdempotent | information_distillation/filter_code_changes.py:122-147 | filtering twice is filtering once |
| FilterCodeChanges.RemoveLinesWithRegex | information_distillation/filter_code_changes.py:122-147 | the loop computes RemoveLines |
| FilterCodeChanges.ProcessData | information_distillation/filter_code_changes.py:164-193 | the pipeline flattens, deduplicates on `context_compressed`, then drops deprecated imports |
| FilterCodeChanges.ProcessCounts | information_distillation/filter_code_changes.py:175-187 | each step keeps at most as many items as the one before, and the flattened count is the number of code changes |
| FilterCodeChanges.ProcessKept | information_distillation/filter_code_changes.py:175-187 | every kept item is a flattened change whose target line does not match, and the deduplicated items have distinct contexts |
| FilterCodeChanges.ContextSuffix | information_distillation/filter_code_changes.py:112-116 | `context_compressed` is its own default suffix |
| FilterCodeChanges.StepPath | information_distillation/filter_code_changes.py:79-144 | for a path whose only dot is that of `.json`, each step writes to `<stem>_<suffix>.json` |
| FilterCodeChanges.ProcessPath | information_distillation/filter_code_changes.py:175-193 | the final file is `<stem>_flattened_context_compressed_deprecated_import.json` |
| FixedFilesGenerator.Available | generators/strategies/fixed_files_generator.py:26-27 | a file is available iff it is a seed file not used yet |
| FixedFilesGenerator.TestSuiteOnlyStrategy.constructor | generators/strategies/fixed_files_generator.py:13-15 | a new strategy has used no file |
| FixedFilesGenerator.TestSuiteOnlyStrategy.Generate | generators/strategies/fixed_files_generator.py:17-49 | no seed file is FileNotFoundError; otherwise a newly used file whose circuit exports is returned, files whose dump fails are marked used and passed over, and FileNotFoundError comes once every file is used; a loading error is passed on |
| FixedFilesGenerator.GenerateAsWritten | generators/strategies/fixed_files_generator.py:31-35 | as written, the call `self.load_circuit` fails with an AttributeError after one unused file has been marked used |
| FixedFilesGenerator.FirstCallAsWritten | generators/strategies/fixed_files_generator.py:13-35 | on a fresh strategy over a non-empty folder, the first call already fails with that AttributeError |
| FixedFilesGenerator.DrainFolder | generators/strategies/fixed_files_generator.py:17-49 | with every file loadable, repeated calls return each seed file exactly once, then FileNotFoundError |
| GetApiMapping.ExtractContext | information_distillation/get_api_mapping.py:198-203 | the context is never longer than the file |
| GetApiMapping.ExtractContextSpec | information_distillation/get_api_mapping.py:198-203 | for a valid index the context is the contiguous slice from max(0, i-k) to min(len, i+k+1): it holds line i and at most 2k+1 lines |
| GetApiMapping.CreatePromptSpec | information_distillation/get_api_mapping.py:206-217 | the prompt contains the file path, the newline-joined context, the JSON schema and the target line |
| GetApiMapping.Merge | information_distillation/get_api_mapping.py:344-351 | the merged mapping has the keys of the change and of the answer except `lines_added` and `lines_removed`; answer values override change values |
| GetApiMapping.PartitionFails | information_distillation/get_api_mapping.py:313-316 | the loop fails iff some change lacks `file`, `context_compressed` or `target_line_content` |
| GetApiMapping.PartitionSpec | information_distillation/get_api_mapping.py:311-352 | every change lands in exactly one list: a change without an answer among the failures, one with an answer merged among the mappings, and the two lists together have one entry per change |
| GetApiMapping.PartitionOnly | information_distillation/get_api_mapping.py:311-352 | every failure is a change whose call failed, and every mapping is a change merged with its own answer |
| GetApiMapping.PartitionChanges | information_distillation/get_api_mapping.py:306-352 | the loop computes Partition, keeping the order of the changes |
| GetApiMapping.OutputFilesSpec | information_distillation/get_api_mapping.py:374-384 | `<stem>_mapping.json` always receives the mappings; `<stem>_mapping_failed.json` is written iff there are failures, and then holds them |
| GetCodeHunksWithDeprecate.Texts | information_distillation/get_code_hunks_with_deprecate.py:163-170 | one text per diff line, in order |
| GetCodeHunksWithDeprecate.RecordSpec | information_distillation/get_code_hunks_with_deprecate.py:199-208 | the entry names the file (new path or else old path), every added and removed line, the target line's number and text, both contexts and the context size |
| GetCodeHunksWithDeprecate.SkippedFile | information_distillation/get_code_hunks_with_deprecate.py:155-161 | a file with more lines of code than loc_limit, or a source larger than file_size_limit KB, gives no entry |
| GetCodeHunksWithDeprecate.LineRecordsFrom | information_distillation/get_code_hunks_with_deprecate.py:176-208 | every entry is the record of one of the lines examined |
| GetCodeHunksWithDeprecate.LineRecordSpec | information_distillation/get_code_hunks_with_deprecate.py:176-208 | an entry made for a line is that line's record |
| GetCodeHunksWithDeprecate.FileRecordsMention | information_distillation/get_code_hunks_with_deprecate.py:172-208 | every entry of a file comes from an added line that contains `deprecate` in any letter case |
| GetCodeHunksWithDeprecate.OtherFileRecords | information_distillation/get_code_hunks_with_deprecate.py:178-208 | in a file not ending in `.py`, every line gives its entry, in order, with a None compressed context |
| GetCodeHunksWithDeprecate.PythonLineRecord | information_distillation/get_code_hunks_with_deprecate.py:178-189 | in a `.py` file a line is skipped iff its compressed context raises, and otherwise its entry carries that context |
| GetCodeHunksWithDeprecate.PythonFileRecords | information_distillation/get_code_hunks_with_deprecate.py:176-189 | a `.py` file never fails and gives at most one entry per line |
| GetCodeHunksWithDeprecate.AnalyzeLines | information_distillation/get_code_hunks_with_deprecate.py:176-208 | the line loop computes LineRecords |
| GetCodeHunksWithDeprecate.AnalyzeCommitSpec | information_distillation/get_code_hunks_with_deprecate.py:148-210 | the commit gives None iff no entry was produced; otherwise a commit record with its hash, ISO date and entries, in the shape filter_code_changes reads |
| GetCodeHunksWithDeprecate.AnalyzeCommitLoop | information_distillation/get_code_hunks_with_deprecate.py:148-210 | the file loop computes AnalyzeCommit |
| GetCodeHunksWithDeprecate.CollectCap | information_distillation/get_code_hunks_with_deprecate.py:239-250 | with a positive max_commits, at most that many commits are kept |
| GetCodeHunksWithDeprecate.CollectFrom | information_distillation/get_code_hunks_with_deprecate.py:245-250 | every kept commit is the non-empty analysis of a commit of the repository |
| GetCodeHunksWithDeprecate.CollectFlattens | information_distillation/get_code_hunks_with_deprecate.py:236-255 | the output file is always valid input for the flattening step of filter_code_changes |
| GetCodeHunksWithDeprecate.CollectCommits | information_distillation/get_code_hunks_with_deprecate.py:236-250 | the commit loop, which counts only commits that produced data, computes Collect |
| GetChangelogs.GetVersionFromFile | information_distillation/get_changelogs.py:81-91 | a version is only found in a path under `releasenotes/notes/`, and it consists only of digits and dots |
| GetChangelogs.VersionOfPath | information_distillation/get_changelogs.py:86-91 | a path `.../releasenotes/notes/<v>/<rest>` with v made of digits and dots gives v (the `0.18` example) |
| GetChangelogs.NoVersionOfPath | information_distillation/get_changelogs.py:88-91 | a segment with any character other than a digit or a dot gives None (`invalid_version`, `0.18a`) |
| GetChangelogs.NoteUnderNotesDir | information_distillation/get_changelogs.py:88 | for a note directly under the notes folder, the segment read is the file name itself |
| GetChangelogs.PathVersionsSpec | information_distillation/get_changelogs.py:97-106 | a path adds a version iff it is present, its version is found and that version is non-empty |
| GetChangelogs.GetVersionsFromCommit | information_distillation/get_changelogs.py:94-107 | the set holds exactly the non-empty versions read from the new and old paths of the modifications, and never "" |
| GetChangelogs.FlattenAt | information_distillation/get_changelogs.py:59-62 | `replace('/', '_')` keeps the length and changes exactly the slashes to underscores |
| GetChangelogs.FlattenNoSlash | information_distillation/get_changelogs.py:59-62 | the flattened path holds no slash |
| GetChangelogs.HunkDir | information_distillation/get_changelogs.py:57-62 | the hunk folder fails (None has no `replace`) iff there is neither a new path nor an old path |
| GetChangelogs.HunkDirSpec | information_distillation/get_changelogs.py:55-62 | the hunk folder sits directly in the commit folder and is named after the flattened new path, or `DELETED_` plus the flattened old path |
| GetChangelogs.NoVersionsNoHunks | information_distillation/get_changelogs.py:51-54 | a commit without release-note versions writes no hunk |
| GetChangelogs.HunksSpec | information_distillation/get_changelogs.py:50-71 | with versions, it fails iff some modification has no path; otherwise one hunk per modification, in its folder, tagged with the commit's versions and with the new path or else the old one |
| GetChangelogs.AddPathVersion | information_distillation/get_changelogs.py:97-101 | one path adds exactly its release-notes version, when it has a non-empty one, to the set, and never adds the empty string |
| InterleavedKnitter.Tag | generators/knitting/interleaved_knitter.py:69-73 | each register is paired with its circuit of origin, in order |
| InterleavedKnitter.Scan | generators/knitting/interleaved_knitter.py:91-109 | the while loop performs exactly the dictionary writes Writes lists, in order |
| InterleavedKnitter.GetRegisterMapping | generators/knitting/interleaved_knitter.py:62-131 | the mapping is the quantum scan then the classical scan over the size-sorted registers |
| InterleavedKnitter.StepApply | generators/knitting/interleaved_knitter.py:98-109 | one step of the scan writes the current register (and the next one when origins differ), then the scan goes on from 1 or 2 places further |
| InterleavedKnitter.ScanSpec | generators/knitting/interleaved_knitter.py:91-109 | over registers with distinct names, the scan adds an entry for every register name and keeps older entries; every register is paired: mapped to itself, or to the register just before it when that one has another origin |
| InterleavedKnitter.SortedOfKindSpec | generators/knitting/interleaved_knitter.py:74-85 | one kind's list holds exactly the registers of that kind from both circuits, with distinct names, sorted by size descending |
| InterleavedKnitter.FilterDistinct | generators/knitting/interleaved_knitter.py:74-81 | keeping one kind keeps names distinct |
| InterleavedKnitter.RegisterMappingSpec | generators/knitting/interleaved_knitter.py:62-131 | every register name, and only those, has an entry; every target maps to itself, has the same kind and at least the size, and is the register itself or one from the other circuit |
| InterleavedKnitter.ScansSpec | generators/knitting/interleaved_knitter.py:91-129 | the quantum scan covers the quantum names with well-paired registers, and the classical scan does the same for classical names without touching quantum entries |
| InterleavedKnitter.MappingKeys | generators/knitting/interleaved_knitter.py:91-131 | the mapping's keys are exactly the names of all registers |
| InterleavedKnitter.ExampleSorted | generators/knitting/interleaved_knitter.py:74-85 | for a 2-qubit q0 and c0 in circuit 1 and a 3-qubit q1 and c1 in circuit 2, the larger registers of circuit 2 come first |
| InterleavedKnitter.MappingExample | generators/knitting/interleaved_knitter.py:91-131 | on that example, q0 maps to circuit 2's q1 and c0 to its c1, and both targets map to themselves |
| InterleavedKnitter.Rounds | generators/knitting/interleaved_knitter.py:164-174 | n rounds take min(n, len) operations from each circuit |
| InterleavedKnitter.RoundsSpec | generators/knitting/interleaved_knitter.py:166-174 | the rounds alternate circuit 1 and circuit 2 while both have operations, then continue with the longer circuit's tail |
| InterleavedKnitter.Interleave | generators/knitting/interleaved_knitter.py:162-174 | the combined list has all the operations of both circuits: c1[0], c2[0], c1[1], c2[1], ..., then the rest of the longer one |
| InterleavedKnitter.InterleaveEnds | generators/knitting/interleaved_knitter.py:164-174 | the combined list starts with circuit 1's first operation then circuit 2's, and ends with circuit 2's last when circuit 2 is at least as long |
| InterleavedKnitter.TaggedSpec | generators/knitting/interleaved_knitter.py:69-73 | with names distinct across both circuits, the tagged list keeps names distinct and holds exactly each circuit's registers paired with that circuit's number |
| LlmGenerator.StripUnchanged | generators/strategies/llm_generator.py:71 | a text with no surrounding whitespace is its own strip |
| LlmGenerator.CleanFenced | generators/strategies/llm_generator.py:69-78 | a fenced answer ```` ```tag\nbody\n``` ```` is cleaned to exactly its body |
| LlmGenerator.CleanUnfenced | generators/strategies/llm_generator.py:69-78 | a stripped text that neither starts nor ends with a fence is returned stripped and otherwise unchanged |
| LlmGenerator.CleanLoneFence | generators/strategies/llm_generator.py:72-77 | a lone fence: `find` gives -1 so nothing is cut at the start, and `rfind` gives -1 so only the last character is dropped |
| LlmGenerator.WrapAll | generators/strategies/llm_generator.py:91-116 | wrapping keeps the number of top-level statements |
| LlmGenerator.WrapImports | generators/strategies/llm_generator.py:91-116 | the loop over the module body computes WrapAll |
| LlmGenerator.WrapAllSpec | generators/strategies/llm_generator.py:91-116 | no top-level import is left bare: each import becomes a try/except printing the error around it, and every other statement is unchanged |
| LlmGenerator.WrapAllIdempotent | generators/strategies/llm_generator.py:91-116 | wrapping twice is wrapping once |
| LlmGenerator.SurroundImports | generators/strategies/llm_generator.py:80-121 | the method computes Surround |
| LlmGenerator.SurroundSpec | generators/strategies/llm_generator.py:86-121 | unparsable code is returned unchanged; otherwise the unparsed module with each top-level import wrapped, or the original code when unparsing fails |
| LlmGenerator.LlmGenerationStrategy.constructor | generators/strategies/llm_generator.py:62 | the retry counter starts at 0 |
| LlmGenerator.LlmGenerationStrategy.Generate | generators/strategies/llm_generator.py:123-141 | every call but the last failed; a success resets the counter and returns the cleaned program with its imports wrapped; a failure adds one to the counter, and the error is raised once the counter reaches 10 |
| LlmGenerator.TenFailuresRaise | generators/strategies/llm_generator.py:125-137 | from a fresh counter, ten failures in a row raise the tenth error after exactly ten calls |
| LogUnderstanding.TracebackNotFixed | aiexchange/feedback/log_understanding.py:5-6 | a log containing `traceback` in any letter case is not fixed |
| LogUnderstanding.SyntaxErrorNotFixed | aiexchange/feedback/log_understanding.py:5-6 | a log containing `SyntaxError` is not fixed |
| LogUnderstanding.UniqueSpec | aiexchange/feedback/log_understanding.py:21 | `list(set(matches))` holds each match exactly once |
| LogUnderstanding.ExtractFilenamesSpec | aiexchange/feedback/log_understanding.py:9-31 | a file is listed iff a `File "..."` or an ImportError capture names it and it is not `/workspace/code_sample.py`; the File captures are deduplicated and come first, then the ImportError captures, which are not deduplicated |
| LogUnderstanding.ExtractObjectsSpec | aiexchange/feedback/log_understanding.py:34-78 | an object is listed iff one of the NameError, AttributeError (module, type or object), ImportError or TypeError captures names it; a lone TypeError capture gives just that name |
| LogUnderstanding.ExtractMissingModulesSpec | aiexchange/feedback/log_understanding.py:81-94 | the missing modules are sorted, no more numerous than the captures, exactly the captured names, and empty when nothing was captured |
| ModelUnderstanding.KeptLines | aiexchange/feedback/model_understanding.py:4-7 | the result's lines are the input's lines not starting with a fence, in order; with none left the result is "" |
| ModelUnderstanding.NoFenceLeft | aiexchange/feedback/model_understanding.py:5-6 | no line of the result starts with a fence, and every other line of the input is kept |
| ModelUnderstanding.RemoveBackticksIdempotent | aiexchange/feedback/model_understanding.py:4-7 | removing fence lines twice is removing them once |
| Numbering.Numbers | qite/generators/qasm_code_gen.py:113 | one parsed number per file stem |
| Numbering.LatestSpec | qite/generators/qiskit_code_gen.py:550-554 | the latest number fails iff some stem's prefix is not an integer; otherwise every number is at most the latest, which is one of them |
| Numbering.LatestIndexSpec | qite/generators/qasm_code_gen.py:108-115 | with no file the latest index is 0; it fails iff a stem's prefix does not parse, and then with that stem's error; otherwise it bounds every number and is 0 or one of them |
| Numbering.LatestFirstErr | qite/generators/qasm_code_gen.py:113 | a failure is the failure of one of the stems |
| Numbering.LatestSnoc | qite/generators/qasm_code_gen.py:114 | one more file raises the latest to the maximum of the two |
| Numbering.LatestConcat | qite/generators/qasm_code_gen.py:110-114 | the latest over two groups of files (the `py` and `qasm` globs) is the maximum of each group's latest |
| Numbering.NumberOfName | qite/generators/qasm_code_gen.py:113-163 | a name written as `str(i).zfill(w) + "_" + suffix` reads back as i |
| Numbering.Names | qite/generators/qasm_code_gen.py:149-163 | one file name per program |
| Numbering.NumbersOfNames | qite/generators/qasm_code_gen.py:149-163 | the names written from a start index read back as start, start+1, ... |
| Numbering.NameNumber | qite/generators/qasm_code_gen.py:163 | the k-th name written reads back as start + k |
| Numbering.ContinueNumbering | qite/generators/qasm_code_gen.py:146-163 | after writing programs numbered from latest + 1, the latest index is latest plus the number written: numbering continues without collision |
| Numbering.ContinueNumberingAbove | qite/generators/qasm_code_gen.py:146-163 | the same from any start at or above the folder's latest number |
| Numbering.StemsOfFiles | qite/generators/qasm_code_gen.py:162-168 | the written files have exactly those names as stems |
| Numbering.RandomSuffix | qite/generators/qasm_code_gen.py:162 | the suffix is six hexadecimal digits |
| LegacyQasmCodeGen.LegacyPool | generators/qasm_code_gen.py:27-51 | the pool is H, CX, RX and U3, with 1, 2, 1 and 1 qubits and 0, 0, 1 and 3 parameters |
| LegacyQasmCodeGen.LegacyFit | generators/qasm_code_gen.py:16-51 | every gate of the pool fits the register iff it has at least 2 qubits, so registers of 1 qubit and of 0 or fewer qubits both fail it |
| LegacyQasmCodeGen.NewLegacyGenerator | generators/qasm_code_gen.py:48-53 | a new generator has an empty buffer, the four-gate pool and both registers |
| LegacyQasmCodeGen.GenerateLegacyQasm | generators/qasm_code_gen.py:55-79 | with at least 2 qubits the program's lines are the two header lines, `qreg` and `creg`, one line per gate drawn from the pool (max(0, num_gates) of them) and `measure q -> c;` iff asked for; a failure is the ValueError of a draw of more qubits than the register holds, so it happens only below 2 qubits: a CX on a 1-qubit register, or any gate on a register of 0 or fewer qubits, which `range` makes empty |
| CoverageNotebook.RemoveRedundantPrefix | notebooks/025_Coverage_Rust.py:235-253 | the loop applies every prefix in turn (qiskit repo, qiskit site, pytket, pennylane) to what the earlier ones left |
| CoverageNotebook.StripEachSuffix | notebooks/025_Coverage_Rust.py:245-253 | the cleaned identifier is a suffix of the original |
| CoverageNotebook.StripEachUnmatched | notebooks/025_Coverage_Rust.py:251 | an identifier starting with no prefix is unchanged |
| CoverageNotebook.StripEachBeyondFirst | notebooks/025_Coverage_Rust.py:245-253 | the notebook strips at least as much as clean_file_path, which stops after the first prefix |
| CoverageNotebook.StripsBothPrefixes | notebooks/025_Coverage_Rust.py:245-253 | a path under the qiskit repo and then site-packages loses both prefixes in the notebook and only the first in qite/compute_coverage.py |
| CoverageNotebook.NotebookPlatformAgrees | notebooks/025_Coverage_Rust.py:323-332 | with the three supported platforms, the notebook's platform choice is determine_platform's |
| CoverageNotebook.NotebookPlatformIn | notebooks/025_Coverage_Rust.py:256-271 | the chosen platform is one of the given platforms, or the fallbacks qiskit or pytket |
| CoverageNotebook.NotebookLineHits | notebooks/025_Coverage_Rust.py:318-341 | one hit per line, in order, with the id `filename:number` stripped of prefixes, covered iff the hit count is positive |
| CoverageNotebook.AddAllAppend | notebooks/025_Coverage_Rust.py:337-341 | adding two hit lists in turn is adding their concatenation, and the first KeyError stops everything |
| CoverageNotebook.AddAllSpec | notebooks/025_Coverage_Rust.py:337-341 | adding succeeds iff every hit's platform has an entry, and then equals recording the hits; otherwise it is a KeyError for the first missing platform |
| CoverageNotebook.AddAllErrPrefix | notebooks/025_Coverage_Rust.py:337-341 | once a prefix of the hits fails, the whole list fails the same way |
| CoverageNotebook.RecordLines | notebooks/025_Coverage_Rust.py:318-341 | the line loop adds the class's line hits |
| CoverageNotebook.RecordClasses | notebooks/025_Coverage_Rust.py:311-341 | the class loop adds the hits of every class of the package, in order |
| CoverageNotebook.ExtractCoverageData | notebooks/025_Coverage_Rust.py:288-343 | no packages is an AttributeError; otherwise every hit added to one empty entry per given platform |
| CoverageNotebook.ExtractSound | notebooks/025_Coverage_Rust.py:288-343 | when extraction succeeds, covered lines are among the total lines, and a line is in a platform's total iff some hit of that platform names it |
| CoverageNotebook.SupportedNeverMissing | notebooks/025_Coverage_Rust.py:326-337 | with qiskit, pennylane and pytket as platforms the dictionary lookup never fails |
| CoverageNotebook.MissingQiskitRaises | notebooks/025_Coverage_Rust.py:326-337 | with qiskit left out of the platforms, a line from a `crates` package raises KeyError('qiskit') |
| CoverageNotebook.VennPartition | notebooks/025_Coverage_Rust.py:832-850 | the two exclusive sets and the intersection are pairwise disjoint; they make up the union, and set1 and set2 are each their exclusive set plus the intersection |
| CoverageNotebook.CreateLineCoverageData | notebooks/025_Coverage_Rust.py:594-623 | one row per line, in order, when every line splits into a file and a number; otherwise the first failing line's error |
| CoverageNotebook.LineRecordSpec | notebooks/025_Coverage_Rust.py:611-621 | the row is covered iff the line is in the covered set; the file name holds no `:` and is the line's first part; the top folder is `root` for a flat path, otherwise the first path part |
| OracleCalls.LastToken | validate/functions_oracle_calls.py:39 | the key, the last `_`-separated token, holds no underscore |
| OracleCalls.GetFunctionsSpec | validate/functions_oracle_calls.py:31-40 | a key is present iff some function name with the prefix ends in that token, and it maps to the last such name in enumeration order |
| OracleCalls.LogExceptionToJson | validate/functions_oracle_calls.py:43-79 | with output_dir the log is `<stem>_<uuid6>_error.json` in it, otherwise next to the module file; it records the exception message and the involved functions |
| OracleCalls.LogNameHasNoSlash | validate/functions_oracle_calls.py:60-61 | the log file name has no slash, so `with_name` keeps the module's folder |
| OracleCalls.Product | validate/functions_oracle_calls.py:110-111 | the nested loops make one attempt per (circuit, function) pair |
| OracleCalls.Row | validate/functions_oracle_calls.py:111 | one circuit is tried with every function, in order |
| OracleCalls.ProductAt | validate/functions_oracle_calls.py:110-111 | attempt i * n + j is circuit i with function j |
| OracleCalls.ExportFailures | validate/functions_oracle_calls.py:110-127 | at most one failure is logged per attempt |
| OracleCalls.ExportFailuresAppend | validate/functions_oracle_calls.py:110-127 | a failure does not stop the loop: the failures of two runs in a row are those of each, concatenated |
| OracleCalls.ExportCircuit | validate/functions_oracle_calls.py:111-127 | the inner loop logs the failures of one circuit with every exporter, each naming its exporter; with output_dir the file is `{var}_{platform}_exporter.qasm` |
| OracleCalls.OracleExporter | validate/functions_oracle_calls.py:97-127 | the outer loop logs the failures of every attempt, in order |
| OracleCalls.OptimizeRun | validate/functions_oracle_calls.py:155-172 | at most one failure is logged per attempt |
| OracleCalls.OptimizeRunAppend | validate/functions_oracle_calls.py:155-172 | a run over two parts is the first part's run followed, unless it raised, by the second's |
| OracleCalls.OptimizeCircuit | validate/functions_oracle_calls.py:156-172 | the inner loop over the optimizers of one circuit computes OptimizeRun; each failure names the converter and the optimizer |
| OracleCalls.OracleOptimizer | validate/functions_oracle_calls.py:130-172 | the outer loop computes OptimizeRun over every (circuit, optimizer) pair |
| OracleCalls.OptimizeRunCompletes | validate/functions_oracle_calls.py:155-172 | when every optimizer platform has a converter, the loop never raises |
| OracleCalls.OptimizeRunRaises | validate/functions_oracle_calls.py:157-168 | an optimizer platform without a converter makes the loop raise an AttributeError on `None.__name__` |
| OracleCalls.RaisedIsNoConverter | validate/functions_oracle_calls.py:157-168 | that AttributeError is the only exception the loop lets through |
| PennylaneProcessor.MaxOf | qite/processors/pennylane_processor.py:58 | the highest wire of an operation bounds all its wires and is one of them; an operation without wires counts as 0 |
| PennylaneProcessor.HighestWire | qite/processors/pennylane_processor.py:56-59 | the loop finds the highest wire used by any operation, 0 when there is none |
| PennylaneProcessor.Identities | qite/processors/pennylane_processor.py:61-63 | one Identity per wire 0..n-1, in order |
| PennylaneProcessor.Unmeasured | qite/processors/pennylane_processor.py:70-75 | removing measurements never adds operations |
| PennylaneProcessor.UnmeasuredAppend | qite/processors/pennylane_processor.py:70-75 | the kept operations of two lists in a row are those of each, concatenated |
| PennylaneProcessor.SplitMeasurements | qite/processors/pennylane_processor.py:68-75 | the loop keeps the operations that are not mid-circuit measurements, in order, and collects the measured wires |
| PennylaneProcessor.ExportScript | qite/processors/pennylane_processor.py:52-82 | the script is an Identity on every wire up to the highest, then the operations without mid-circuit measurements, with PauliZ expectations on exactly the measured wires and `measure_all=False` |
| PennylaneProcessor.IdentitiesKept | qite/processors/pennylane_processor.py:61-75 | the identity prefix survives the measurement split untouched and measures nothing |
| PennylaneProcessor.MeasuredAppend | qite/processors/pennylane_processor.py:70-73 | the measured wires of two lists in a row are the union of each |
| PennylaneProcessor.SplitSpec | qite/processors/pennylane_processor.py:70-78 | an operation is kept iff it is not a MidMeasureMP, and a wire is measured iff some MidMeasureMP acts on it |
| ValidatePennylaneProcessor.ExportScript | validate/pennylane_processor.py:46-63 | the older export has no identity prefix: the operations without mid-circuit measurements, the measured wires, and `measure_all=True` |
| PlatformProcessor.QasmFiles | qite/processors/platform_processor.py:20 | a file is kept iff it is in the listing and ends in `.qasm` |
| PlatformProcessor.Pick | qite/processors/platform_processor.py:19-22 | a pick succeeds iff the folder holds a `.qasm` file, and then it is such a file joined to the folder; an empty choice raises IndexError |
| PlatformProcessor.ProgramIdSurvives | qite/processors/platform_processor.py:114-119 | without a predefined name the output's program id (the text before its first `_`) is the input's |
| PlatformProcessor.Attempted | qite/processors/platform_processor.py:135-145 | at most all transformers run, and at least one when there is any |
| PlatformProcessor.ApplyStaysErr | qite/processors/platform_processor.py:142-145 | once a transformer crashes, no later transformer changes the outcome |
| PlatformProcessor.AttemptedSpec | qite/processors/platform_processor.py:135-145 | the transformers that run are exactly those up to the first crash: the one before the last attempted succeeded, and the chain's outcome is the last attempted one's |
| PlatformProcessor.StopsAtFirstFailure | qite/processors/platform_processor.py:142-145 | when transformer `i` is the first to crash, exactly `i + 1` transformers run and the chain ends with that crash |
| PlatformProcessor.NameValues | qite/processors/platform_processor.py:136-137 | one listed name per transformer that ran |
| PlatformProcessor.NameValuesAt | qite/processors/platform_processor.py:136-137 | the `j`-th listed name is the `j`-th transformer's |
| PlatformProcessor.TimeValues | qite/processors/platform_processor.py:140-141 | one recorded time per transformer that returned |
| PlatformProcessor.TransformedStep | qite/processors/platform_processor.py:136-141 | appending a transformer's name and then its time moves the status from `i` transformers recorded to `i + 1` |
| PlatformProcessor.TransformerTurn | qite/processors/platform_processor.py:135-145 | one turn of the transformer loop yields the chain's outcome after `i + 1` transformers and the status that records it |
| PlatformProcessor.QiteLoopSucceeds | qite/processors/platform_processor.py:129-164 | a run returns a path iff the import, every transformer and the export succeed, and the path is the exporter's |
| PlatformProcessor.TransformerCrashStatus | qite/processors/platform_processor.py:135-145 | after transformer `i` crashes the run returns None and the status lists transformers 0..i with one time each |
| PlatformProcessor.PlatformProcessor.constructor | qite/processors/platform_processor.py:48-56 | no importer, transformers, exporter or converter; name `base_class_processor`; the three folders as given |
| PlatformProcessor.PlatformProcessor.SetImporter | qite/processors/platform_processor.py:58-60 | the importer slot holds the given operation |
| PlatformProcessor.PlatformProcessor.AddTransformer | qite/processors/platform_processor.py:62-64 | the transformer is appended after the existing ones |
| PlatformProcessor.PlatformProcessor.SetExporter | qite/processors/platform_processor.py:66-68 | the exporter slot holds the given operation |
| PlatformProcessor.PlatformProcessor.SetConverter | qite/processors/platform_processor.py:70-72 | the converter slot holds the given operation |
| PlatformProcessor.PlatformProcessor.SetRound | qite/processors/platform_processor.py:91-94 | the round number is set |
| PlatformProcessor.PlatformProcessor.SetExceptionHandling | qite/processors/platform_processor.py:74-80 | succeeds iff no operation slot is empty (an empty slot raises AttributeError on None), and then every operation carries the flag |
| PlatformProcessor.PlatformProcessor.SetFolders | qite/processors/platform_processor.py:82-89 | succeeds iff no operation slot is empty, and then every operation carries both folders |
| PlatformProcessor.PlatformProcessor.Configure | qite/processors/platform_processor.py:122-125 | succeeds iff no slot is empty, and then every operation is configured with the flag and the processor's folders |
| PlatformProcessor.PlatformProcessor.HandleImport | qite/processors/platform_processor.py:228-234 | the import's outcome is the importer's run result; when it returns, the status names the importer and its time; when it raises, the status is untouched |
| PlatformProcessor.PlatformProcessor.TransformStep | qite/processors/platform_processor.py:136-141 | the transformer is listed before it runs and its time is recorded only when it returns |
| PlatformProcessor.PlatformProcessor.TransformerAt | qite/processors/platform_processor.py:135-145 | the `i`-th turn's outcome is the chain's after `i + 1` transformers; a crash there makes `i + 1` the number attempted |
| PlatformProcessor.PlatformProcessor.RunTransformers | qite/processors/platform_processor.py:134-145 | the loop's outcome is the whole chain's, and the status lists every transformer attempted with a time for each that returned |
| PlatformProcessor.PlatformProcessor.HandleExport | qite/processors/platform_processor.py:236-246 | the export's outcome is the exporter's run result; when it returns, the status names the exporter, the output (path or crash) and its time |
| PlatformProcessor.PlatformProcessor.ExecuteQiteLoop | qite/processors/platform_processor.py:96-164 | without a round the call raises AttributeError; with an empty slot it raises after resetting the status; otherwise the result and status are those of the run from the initial status, and a metadata file is stored exactly when a path is returned |
| PlatformProcessor.PlatformProcessor.ConfigureAndRun | qite/processors/platform_processor.py:122-164 | configuration failure raises before anything runs; otherwise the outcome, status and stored metadata are the run's |
| PlatformProcessor.PlatformProcessor.ImportAndContinue | qite/processors/platform_processor.py:129-164 | an import crash stops the run; otherwise the outcome, status and metadata are the run's |
| PlatformProcessor.PlatformProcessor.TransformAndExport | qite/processors/platform_processor.py:134-164 | the transformers and export after a successful import give the outcome, status and metadata of that part of the run |
| PlatformProcessor.PlatformProcessor.ExportAndStore | qite/processors/platform_processor.py:151-164 | the exported path is returned and the status stored as `<base>.json` exactly when the export succeeds |
| PlatformProcessor.PlatformProcessor.ExecuteConversionLoop | qite/processors/platform_processor.py:166-193 | the round becomes 0 and the status names the input under `input_py`; loading that status into the converter raises a TypeError on the missing `input_qasm` |
| PlatformProcessor.ConversionStatus | qite/processors/platform_processor.py:173-183 | the conversion status has no `input_qasm` entry |
| Primitives.CrashValueInjective | qite/base/primitives.py:11-15 | the four crash types have distinct values |
| Primitives.InputBase | qite/base/primitives.py:26 | the input base exists iff the status names a string `input_qasm`; otherwise `Path` raises a TypeError |
| Primitives.ErrorRecordOverride | qite/base/primitives.py:41-47 | the logged record has the four error keys and every status key, and a status key overrides an error key of the same name |
| Primitives.ErrorFileNameShape | qite/base/primitives.py:51-54 | the error file name starts with the input base and `_`, ends in `_error.json`, and has no `/` when its parts have none |
| Primitives.ErrorLogPath | qite/base/primitives.py:50-54 | the error path exists iff the error folder and the input base were set; otherwise the attribute lookup raises AttributeError |
| Primitives.Operation.constructor | qite/base/primitives.py:19-22 | a new operation has its name, an empty status and lets no exception through |
| Primitives.Operation.LoadCurrentStatus | qite/base/primitives.py:24-26 | the status is stored first; the input base is set iff the status names a string input, and otherwise the TypeError is raised |
| Primitives.Operation.LogError | qite/base/primitives.py:50-56 | one error file with the record is added iff the error path exists; otherwise the AttributeError is raised and nothing is written |
| Primitives.Operation.Run | qite/base/primitives.py:31-48 | a result passes through; an exception is re-raised when exceptions are let through, and otherwise is logged with the status and becomes GENERIC_CRASH, unless logging raises |
| Primitives.Operation.SetExceptionHandling | qite/base/primitives.py:58-59 | the flag is set |
| Primitives.Operation.SetFolders | qite/base/primitives.py:61-63 | both folders are set |
| Primitives.CrashIsLogged | qite/base/primitives.py:24-54 | once the folders are set and a status naming a string input is loaded, a crash's error file lies in the error folder and its name starts with the input's stem |
| Qcec.TextInjective | qite/spot_divergences.py:76 | distinct verdicts have distinct texts, so the recorded text names the verdict |
| Qcec.VerdictText | qite/spot_divergences.py:72-79 | the recorded text starts with `error: ` iff the checker raised, and then the rest is the exception's message |
| Qcec.VerdictTextInjective | qite/delta_debugging_comparison.py:179-190 | equal recorded texts mean equal verdicts, or two failures with the same message |
| QasmCompare.CompareQasm | validate/functions_qasm_compare.py:3-15 | returns normally iff the verdict is `equivalent` or `equivalent_up_to_global_phase`; every other verdict raises ValueError; an exception of the checker propagates unchanged |
| QasmCompare.RejectionNamesBothFiles | validate/functions_qasm_compare.py:14-15 | the rejection message names the first file and then the second |
| QasmCodeGen.GateLines | qite/generators/qasm_code_gen.py:59-60 | one gate line per drawn gate |
| QasmCodeGen.AppendProgramLines | qite/generators/qasm_code_gen.py:56-62 | appending header, registers, gate lines and measurement one after the other appends the program's lines |
| QasmCodeGen.PoolSpec | qite/generators/qasm_code_gen.py:28-32 | the pool is the named gates in order, or all gates when no names are given; a name missing from GATE_MAP raises KeyError; the pool is never empty and every gate in it is well formed |
| QasmCodeGen.MapWellFormed | qite/generators/qasm_code_gen.py:28 | every gate of GATE_MAP is well formed |
| QasmCodeGen.QasmCodeGenerator.constructor | qite/generators/qasm_code_gen.py:22-32 | the generator keeps the register size, the pool and the flag, with an empty buffer |
| QasmCodeGen.QasmCodeGenerator.ResetMemory | qite/generators/qasm_code_gen.py:37-38 | the buffer is emptied |
| QasmCodeGen.QasmCodeGenerator.GenerateHeader | qite/generators/qasm_code_gen.py:40-42 | the two header lines are appended |
| QasmCodeGen.QasmCodeGenerator.GenerateRegisters | qite/generators/qasm_code_gen.py:44-47 | `qreg q[n];` is appended, followed by `creg c[n];` unless only quantum registers are asked for |
| QasmCodeGen.QasmCodeGenerator.AddGate | qite/generators/qasm_code_gen.py:49-50 | the gate fails iff it needs more qubits than the register has, with ValueError and nothing appended; otherwise one line of a valid draw is appended |
| QasmCodeGen.QasmCodeGenerator.AddRandomGate | qite/generators/qasm_code_gen.py:52-54 | the gate is one of the pool, and its line is appended exactly as by `add_gate` |
| QasmCodeGen.QasmCodeGenerator.GenerateRandomQasm | qite/generators/qasm_code_gen.py:56-62 | the buffer grows by header, registers, one line per requested gate, each from the pool, and the measurement iff asked for with a classical register; a gate too large raises ValueError after the lines so far, and cannot happen when every gate fits |
| QasmCodeGen.QasmCodeGenerator.QasmCode | qite/generators/qasm_code_gen.py:64-65 | a buffer of one line joins to that line |
| QasmCodeGen.NewGenerator | qite/generators/qasm_code_gen.py:22-32 | construction fails iff the pool lookup does, with its KeyError; otherwise a fresh generator over that pool with an empty buffer |
| QasmCodeGen.FixedLinesPlain | qite/generators/qasm_code_gen.py:41-62 | the header and measurement lines hold no newline |
| QasmCodeGen.RegisterLinesPlain | qite/generators/qasm_code_gen.py:44-47 | the register lines hold no newline |
| QasmCodeGen.GateLinesPlain | qite/generators/qasm_code_gen.py:49-50 | the gate lines of pool gates hold no newline |
| QasmCodeGen.LinesPlain | qite/generators/qasm_code_gen.py:56-62 | no line of a generated program holds a newline |
| QasmCodeGen.ProgramReadsBack | qite/generators/qasm_code_gen.py:56-65 | splitting the program text at newlines gives back its lines: two header lines, one or two register lines, one per gate, and the measurement iff asked for with a classical register |
| QasmCodeGen.GateLineReadsBack | qite/generators/qasm_code_gen.py:49-54 | each gate line names a pool gate, on exactly its number of distinct qubits of `q`, each below the register size, with exactly its number of parameters |
| QasmCodeGen.LatestOverSpec | qite/generators/qasm_code_gen.py:108-115 | the latest index is never negative; it fails iff some name does not start with an integer; otherwise it bounds every name's number and is 0 or one of them |
| QasmCodeGen.LatestOverStep | qite/generators/qasm_code_gen.py:110-114 | one more extension with files raises the latest index to the maximum with its largest number, or fails with its failure |
| QasmCodeGen.GetLatestIndex | qite/generators/qasm_code_gen.py:108-115 | the loop computes the latest index over the extensions' names |
| QasmCodeGen.LatestOverErr | qite/generators/qasm_code_gen.py:113 | names after a failing one do not change the failure |
| QasmCodeGen.ContinueQasmNumbering | qite/generators/qasm_code_gen.py:146-163 | after a run writes files numbered from the latest index plus one, the latest index is the last number written |
| QasmCodeGen.WritePrograms | qite/generators/qasm_code_gen.py:149-168 | every program written is the text of gates drawn from the pool with a six-hex-digit suffix; all requested programs are written unless a gate does not fit, which raises ValueError |
| QasmCodeGen.RunFrom | qite/generators/qasm_code_gen.py:146-168 | the files are numbered on from the latest index, hold the generated texts, and leave the folder's latest index at the last number written |
| QasmCodeGen.GeneratePrograms | qite/generators/qasm_code_gen.py:118-173 | an unknown gate name (when the generator is built) raises KeyError, and a malformed file name (when the latest index is read) raises, both before any program is written; otherwise the run writes numbered programs as `RunFrom` states |
| QasmCodeGen.FilesContinueNumbering | qite/generators/qasm_code_gen.py:146-168 | the files numbered on from the folder's latest index leave its latest index at the old one plus the number of files written |
| QasmGates.DrawExists | qite/generators/qasm_gates.py:15 | whenever the register has at least the gate's number of qubits, `random.sample` has a valid draw |
| QasmGates.ToQasm | qite/generators/qasm_gates.py:14-24 | the line fails iff the gate needs more qubits than the register has, with the ValueError `random.sample` raises |
| QasmGates.OperandsWords | qite/generators/qasm_gates.py:16 | the joined operand list splits back at commas into the qubit references |
| QasmGates.ParamsWords | qite/generators/qasm_gates.py:18-21 | the joined angle list splits back at commas into the angles |
| QasmGates.LineReadsBack | qite/generators/qasm_gates.py:14-24 | a formatted line reads back as the gate's name, exactly its number of qubit references in draw order, and the drawn angles, one per parameter (none without parameters), with no newline |
| QasmGates.AllGatesWellFormed | qite/generators/qasm_gates.py:237-279 | GATE_MAP holds 42 gates, each with a plain lower-case name and one to five qubits |
| QasmGates.Arities | qite/generators/qasm_gates.py:42-279 | the map fixes cx at 2 qubits, ccx at 3, c3x at 4, c4x at 5, and cu at 4 parameters |
| QasmGates.FirstGeneratorEntries | qite/generators/qasm_gates.py:237-279 | u3, h, cx and rx have their declared qubit and parameter counts |
| QiskitCodeGen.PoolSpec | qite/generators/qiskit_code_gen.py:506-528 | the pool is never empty, so `random.choice` always has a gate class; the lookup fails iff a name of the gate set is not in GATE_MAP |
| QiskitCodeGen.FillStatements | qite/generators/qiskit_code_gen.py:537-547 | the loop keeps each statement whose gate did not raise ValueError, each from a gate class of the pool that fits the registers; it stops with the requested number of statements or when the tries run out |
| QiskitCodeGen.NeededAtLeast | qite/generators/qiskit_code_gen.py:134-146 | the qubits a gate draws are at least those of any one of its slots |
| QiskitCodeGen.NeedsQubit | qite/generators/qiskit_code_gen.py:134-146 | every gate class draws at least one qubit, so none fits an empty register |
| QiskitCodeGen.EmptyRegisterYieldsNothing | qite/generators/qiskit_code_gen.py:539-546 | with no qubits no try yields a statement, so the source's unbounded loop never ends when a statement is asked for |
| QiskitCodeGen.GenerateCode | qite/generators/qiskit_code_gen.py:533-547 | with no statements asked for nothing is drawn and nothing raised; otherwise an unknown gate name raises KeyError, and every statement comes from a gate class of the pool |
| QiskitCodeGen.JoinAppend | qite/generators/qiskit_code_gen.py:608 | joining two non-empty line lists is joining each with a separator between |
| QiskitCodeGen.JoinLayout | qite/generators/qiskit_code_gen.py:599-610 | the declarations, the joined statements and the measurement footer, as written, are the program's lines joined by newlines |
| QiskitCodeGen.TerminatedJoin | qite/generators/qiskit_code_gen.py:600-607 | writing each declaration with its newline is joining them and adding one newline |
| QiskitCodeGen.ProgramLines | qite/generators/qiskit_code_gen.py:599-610 | a program file's text is its lines joined by newlines: the import, the quantum register, the classical register and circuit (or the circuit alone with only quantum registers), one line per statement, and the measurement iff asked for with a classical register |
| QiskitCodeGen.StemsOfMade | qite/generators/qiskit_code_gen.py:584-595 | the stems of programs written in a row are the padded numbers from the first index on, each with its suffix |
| QiskitCodeGen.NumberOn | qite/generators/qiskit_code_gen.py:550-595 | a run's stems continue the folder's numbering: the latest index afterwards is the latest before plus the number written |
| QiskitCodeGen.ProgramCode | qite/generators/qiskit_code_gen.py:586-589 | one program's statements, on circuit `qc` and registers `qr`, `cr`, fail iff statements are asked for and a gate name is unknown, and are never more than asked for |
| QiskitCodeGen.WritePrograms | qite/generators/qiskit_code_gen.py:584-610 | all requested programs are written, numbered on from the start, each with a six-hex-digit suffix and its statements, unless an unknown gate name raises at the first program |
| QiskitCodeGen.GeneratePrograms | qite/generators/qiskit_code_gen.py:557-615 | a stem without a leading number raises before anything is written; an unknown gate name raises KeyError; otherwise the programs are numbered on from the latest index and a later run numbers on from the last of them |
| QiskitGates.RangeMember | qite/generators/qiskit_gates.py:73 | `x` is in `set(range(n))` iff `0 <= x < n` |
| QiskitGates.RangeSize | qite/generators/qiskit_gates.py:73 | `set(range(n))` has `n` elements, none for a negative `n` |
| QiskitGates.DistinctSize | qite/generators/qiskit_gates.py:76-82 | a list without repetitions has as many distinct elements as entries |
| QiskitGates.Remaining | qite/generators/qiskit_gates.py:71-86 | while the partition holds, the available values and the distinct values drawn add up to the sampler's size |
| QiskitGates.SampledBound | qite/generators/qiskit_gates.py:71-86 | at most `max_value` values are sampled between resets, and the sampler is exhausted exactly when all of them are |
| QiskitGates.DistinctSampler.constructor | qite/generators/qiskit_gates.py:71-74 | every value below `max_value` is available and none sampled, so the partition invariant holds |
| QiskitGates.DistinctSampler.Sample | qite/generators/qiskit_gates.py:76-82 | an exhausted sampler raises ValueError and changes nothing; otherwise the value returned was available and moves to the sampled set, keeping the partition invariant |
| QiskitGates.DistinctSampler.Reset | qite/generators/qiskit_gates.py:84-86 | back to every value available and none sampled |
| QiskitGates.DistinctSampler.GetRemaining | qite/generators/qiskit_gates.py:88-89 | the list holds exactly the available values, each once, in ascending order |
| QiskitGates.MoveOne | qite/generators/qiskit_gates.py:80-81 | moving a value from the available to the sampled side keeps both together unchanged and disjoint |
| QiskitGates.TemplateOf | qite/generators/qiskit_gates.py:113-460 | every gate class draws its list length from a non-empty range and draws at least one qubit |
| QiskitGates.NeededPrefix | qite/generators/qiskit_gates.py:113-460 | the first arguments of a statement never draw more indices than all of them |
| QiskitGates.DrawIndices | qite/generators/qiskit_gates.py:113-118 | drawing `count` indices fails iff fewer are available, with ValueError; otherwise they are pairwise distinct, were available, and move to the sampled set |
| QiskitGates.Exhausted | qite/generators/qiskit_gates.py:77-78 | once every available value is drawn, the sampler held no more than were drawn |
| QiskitGates.TakeOne | qite/generators/qiskit_gates.py:79-82 | one more sampled value keeps the drawn indices distinct and the partition intact |
| QiskitGates.DrawSlot | qite/generators/qiskit_gates.py:113-460 | one argument fails iff a sampler lacks the indices it needs; otherwise it draws exactly what it needs, distinct and previously available |
| QiskitGates.DistinctAppend | qite/generators/qiskit_gates.py:93-99 | indices from one sampler drawn in two batches stay pairwise distinct |
| QiskitGates.ArgsSnoc | qite/generators/qiskit_gates.py:113-460 | one more argument appends its own text to the argument list |
| QiskitGates.DrawArgs | qite/generators/qiskit_gates.py:93-460 | with fresh samplers the arguments are drawn iff the registers are large enough, else ValueError; the qubit and clbit indices are pairwise distinct and below the register sizes |
| QiskitGates.Instantiate | qite/generators/qiskit_gates.py:93-118 | a fresh gate draws its list length within its range, raises ValueError exactly when the registers are too small, and otherwise emits `circ.name(args)` over distinct in-range indices |
| QiskitGates.BarrierFits | qite/generators/qiskit_gates.py:113-118 | a barrier of `count` qubits succeeds iff `count` is at most the register size |
| QiskitGateGen.PoolExcludes | generators/qiskit_gate_gen.py:496-521 | the gate list leaves out Delay, Initialize, Measure, Pauli, PrepareState, Reset, Store, U and Unit |
| QiskitGateGen.GenerateCode | generators/qiskit_gate_gen.py:527-541 | the loop keeps each statement whose gate did not raise ValueError, each from a gate class of the list that fits the registers, and stops with the requested number or when the tries run out |
| QiteLoop.KeepBySpec | qite/qite_loop.py:110-113 | a filter whose test raises for no file keeps, in order, exactly the files that pass |
| QiteLoop.KeepInRangeSpec | qite/qite_loop.py:109-113 | with two bounds and parseable ids, a file is kept iff its id lies between the bounds, both included, and the kept files keep their sorted order |
| QiteLoop.OneBoundRaises | qite/qite_loop.py:111-113 | with a one-element range, the first file whose id is not below the bound makes `program_id_range[1]` raise IndexError |
| QiteLoop.SampledSpec | qite/qite_loop.py:193 | `random.sample(pool, n)` gives `n` elements of the pool, none twice when the pool has none twice |
| QiteLoop.SelectedSpec | qite/qite_loop.py:192-196 | fewer transformers than available asked for gives that many distinct ones of the platform; as many or more gives all of them once, in order; a negative count raises |
| QiteLoop.BuildProcessors | qite/qite_loop.py:181-199 | the loop builds the processors `Processors` defines, one per platform in order, or raises the first error |
| QiteLoop.ProcessSwallowsRunErrors | qite/qite_loop.py:211-251 | once the processors are built, every exception of the worker, its timeout and an empty result give None; a result path is returned as it is |
| QiteLoop.ProcessorsSpec | qite/qite_loop.py:181-199 | known platforms and a non-negative count build one processor per platform, in order, each set to the round |
| QiteLoop.PrependEndAssoc | qite/qite_loop.py:147-148 | collecting outputs in two steps collects them in one |
| QiteLoop.RunRound | qite/qite_loop.py:138-148 | the loop over a round's programs gives the round's outcome: the non-None outputs in order, the deadline exit, or the first exception |
| QiteLoop.RoundsStep | qite/qite_loop.py:151-164 | a finished round appends its stats entry and hands its sorted outputs to the next round |
| QiteLoop.RunRounds | qite/qite_loop.py:123-164 | the loop over the rounds gives the stats entries and the end `Rounds` defines |
| QiteLoop.ApplyQiteAlgorithm | qite/qite_loop.py:99-164 | a selection that raises ends the run with no stats line; otherwise the rounds run on the sorted selected files |
| QiteLoop.RoundSpec | qite/qite_loop.py:138-148 | a round produces at most one program per input; it exits only with a deadline set and passed at some program; an exception is one some call raised |
| QiteLoop.RoundsSpec | qite/qite_loop.py:123-164 | the stats entries number the completed rounds 1, 2, …, there are at most as many as rounds, the first count is at most the selected files, and the counts never grow |
| QiteLoop.CoverageConfigPlain | qite/qite_loop.py:264-269 | a template without placeholders is written unchanged |
| QiteLoop.CoverageConfigPlatforms | qite/qite_loop.py:267-269 | the platforms placeholder becomes the platform list joined with commas |
| QiteLoop.PlatformsToRunSpec | qite/qite_loop.py:357-360 | a configured platform is run iff PLATFORMS knows it, in configured order |
| QiteLoop.MainPlatformsKnown | qite/qite_loop.py:334-374 | a configured run uses only known platforms, and none when the configuration names none |
| QiteReplay.CopyQasmFileSpec | qite/qite_replay.py:62-73 | the copy is the recorded file's name in the output folder; nothing is copied when source and destination coincide; a missing source raises and copies nothing |
| QiteReplay.PickRelevantLookup | qite/qite_replay.py:76-84 | the transformers picked are the lookup's values for the recorded names, and a name the lookup lacks raises ValueError instead of KeyError |
| QiteReplay.PickRelevantTransformers | qite/qite_replay.py:76-84 | the loop picks the transformers `PickRelevant` defines |
| QiteReplay.PickRelevantSpec | qite/qite_replay.py:76-84 | picking succeeds iff every recorded name is known, and gives their transformers in metadata order; otherwise it raises `Unsupported transformer` for the first unknown name |
| QiteReplay.SetupProcessorSpec | qite/qite_replay.py:87-116 | a processor is set up iff the platform is qiskit, pytket or pennylane and every transformer name is known; any other platform raises `Unsupported platform`; the processor's transformers are the recorded ones in order |
| QiteReplay.RunQiteSpec | qite/qite_replay.py:119-142 | the intended replay (a processor with a round number, not the code as written, which raises): a replay runs on the copy of the recorded input in the debug folder, with the debug folder for all outputs and the recorded output's name as the output file name, and its run (exceptions let through) succeeded |
| QiteReplay.RunQiteStep | qite/qite_replay.py:128-142 | copying, setting up and running proceed in that order and the first failure is raised, as `RunQite` defines |
| QiteReplay.RunQiteChain | qite/qite_replay.py:145-162 | the loop over the metadata files replays them in order and stops at the first failure, as `Chain` defines |
| QiteReplay.ChainSpec | qite/qite_replay.py:155-162 | for any run of the processor, including the intended one with a round number: a chain that completes has replayed every metadata file, each successfully; a failing chain had at least one file |
| QiteReplay.RunQiteExecutes | qite/qite_replay.py:137-142 | for any run of the processor, including the intended one with a round number: a replay that returns has run successfully |
| QiteReplay.ExecuteOnNewProcessor | qite/processors/platform_processor.py:48-105 | execute_qite_loop on a processor built as setup_processor builds it (all folders the debug folder, no set_round) raises AttributeError and writes no metadata, whatever the foreign code does |
| QiteReplay.RunQiteRaisesAsWritten | qite/qite_replay.py:119-142 | run_qite as written never returns normally; once copy, set-up and output name succeed, it raises `'<Platform>Processor' object has no attribute 'round_number'` with only the copy made |
| QiteReplay.ChainFailsFirstAsWritten | qite/qite_replay.py:145-162 | run_qite_chain as written completes iff the list is empty; otherwise it raises the first file's exception and replays none of the rest |
| RunCoverageScripts.IsNextUnique | qite/run_coverage_scripts.py:26-30 | the next-folder rule (1 with no subfolders, else one past the largest numeric subfolder) determines a single number |
| RunCoverageScripts.NextFolderFresh | qite/run_coverage_scripts.py:28-34 | the zero-padded 4-digit name of the next number is not an existing subfolder, so makedirs does not clash with a subfolder |
| RunCoverageScripts.NumberedAdd | qite/run_coverage_scripts.py:30 | adding one subfolder adds its number to the numeric subfolders exactly when its name is all digits |
| RunCoverageScripts.NextNumber | qite/run_coverage_scripts.py:26-30 | succeeds exactly when there are no subfolders or some is numeric, then returns the next number; otherwise max() over nothing raises ValueError |
| RunCoverageScripts.LargestAdd | qite/run_coverage_scripts.py:30 | the running maximum over the numeric subfolders stays the maximum when one more subfolder is seen |
| RunCoverageScripts.MovePartition | qite/run_coverage_scripts.py:17-40 | the .xml files and the other files of a folder share no name, together are the folder, and keep each file's content |
| RunCoverageScripts.CollectionScriptsSpec | qite/run_coverage_scripts.py:59-62 | a script is run exactly when it is in the scripts folder and is named `collect_*.sh` |
| RunCoverageScripts.SplitXml | qite/run_coverage_scripts.py:36-40 | moving the XML files one by one moves exactly the .xml files and leaves exactly the others |
| RunCoverageScripts.MovedAll | qite/run_coverage_scripts.py:36-40 | once every .xml name has moved with its content, the moved files are the XML part and the rest is the other part |
| RunCoverageScripts.StatsTailOther | qite/run_coverage_scripts.py:83-90 | moving the XML files away does not change the last statistics line that is copied |
| RunCoverageScripts.CoverageFolders.constructor | qite/run_coverage_scripts.py:10 | the input folder (whether it is a folder, its files) and the output folder (subfolders, other entries) are as given |
| RunCoverageScripts.CoverageFolders.CollectAndStore | qite/run_coverage_scripts.py:10-43 | None and nothing changes when the input is no folder or has no .xml file; ValueError when no subfolder is numeric; FileExistsError when a plain file has the name; otherwise a fresh `{next:04d}` subfolder receives exactly the XML files, which leave the input, and its name is returned |
| RunCoverageScripts.CoverageFolders.RunCoverageScripts | qite/run_coverage_scripts.py:46-101 | returns early without change when the scripts variable is unset or no `collect_*.sh` exists; ValueError when the input is no folder; TypeError when nothing was collected; otherwise the new subfolder holds the XML files, the last statistics line and time.json |
| RunCoverageScripts.CoverageFolders.CollectAndFinish | qite/run_coverage_scripts.py:79-96 | None exactly when nothing is collected; on success the new subfolder is fresh and holds the XML files, the last statistics line and time.json, and the input keeps only its other files |
| RunCoverageScripts.CoverageFolders.FinishFolder | qite/run_coverage_scripts.py:82-96 | the subfolder gains the last line of `_qite_stats.jsonl` when there is one, and `time.json` with the coverage computation time; nothing else changes |
| RunCoverageScripts.CoverageFolders.Cli | qite/run_coverage_scripts.py:109-122 | an existing `.timeout` marker ends the call with no change; after a collection the marker exists exactly when it existed or a set end timestamp has passed; with no input folder, a set scripts folder raises ValueError, and otherwise a passed end timestamp raises FileNotFoundError on writing the marker |
| RunCoverageScripts.TimeoutIsSticky | qite/run_coverage_scripts.py:111-121 | a call that collects and leaves the `.timeout` marker makes the next call do nothing |
| Sanitizers.RemoveMeasurements | generators/knitting/sanitizers.py:47-57 | the new circuit has the same qubit and clbit counts and holds exactly the non-`measure` instructions, in order; no measure remains |
| Sanitizers.RemoveMidCircuitMeasurements | generators/knitting/sanitizers.py:68-84 | the reverse scan with dirty qubits keeps exactly the operations KeepFinal keeps: every non-measure in order, and afterwards every measurement is final on its qubits |
| Sanitizers.KeepFinalGates | generators/knitting/sanitizers.py:79-81 | no non-measure operation is removed and their order is kept |
| Sanitizers.KeepFinalTouched | generators/knitting/sanitizers.py:79-83 | the kept operations touch the same qubits through non-measures as the whole list |
| Sanitizers.KeepFinalFinal | generators/knitting/sanitizers.py:70-84 | after sanitizing, no later non-measure operation shares a qubit with any remaining measurement |
| Sanitizers.KeepFinalUnchanged | generators/knitting/sanitizers.py:70-74 | a circuit whose measurements are all at the end of their lines is left as it is |
| Sanitizers.KeepFinalIdempotent | generators/knitting/sanitizers.py:68-84 | sanitizing twice gives the same as sanitizing once |
| Sanitizers.KeepFinal | generators/knitting/sanitizers.py:76-84 | removing mid-circuit measurements never adds an operation |
| SampleCrashes.NoStartTag | labeling/sample_crashes.py:78-80 | without the start tag the content between the tags is "" |
| SampleCrashes.BetweenTagsSpec | labeling/sample_crashes.py:78-85 | when both tags are found, the result sits in the content right after the first start tag and right before the first end tag that follows it, with no earlier start tag and no end tag inside it |
| SampleCrashes.BetweenTagsOf | labeling/sample_crashes.py:78-85 | for content `pre + start + mid + end + post` with the start tag first found after `pre` and the end tag first found after `mid`, the result is exactly `mid` |
| SampleCrashes.NoEndTag | labeling/sample_crashes.py:81-84 | when the end tag does not occur after the start tag the result is "" |
| SampleCrashes.RelatedPrefixOf | labeling/sample_crashes.py:111-114 | the related-QASM prefix of `p_a_b` (a and b without `_`) is `p`: the last two `_` tokens are dropped |
| SampleCrashes.ShortStemRelatesAll | labeling/sample_crashes.py:111-116 | a stem of one or two tokens gives the empty prefix, so every QASM file under the folder is related |
| SampleCrashes.RelatedQasmFilesSpec | labeling/sample_crashes.py:108-116 | a file is related exactly when it is walked under the report's folder and its name starts with the prefix and ends with `.qasm` |
| SampleCrashes.CompressEntries | labeling/sample_crashes.py:119-125 | the loop builds the concatenation of `// {file}\n{content}\n` over the files, in order |
| SampleCrashes.CompressedStep | labeling/sample_crashes.py:123-124 | one more file appends exactly its section |
| SampleCrashes.CompressedAppend | labeling/sample_crashes.py:119-125 | the compressed text of two lists of files is the compressed text of the first followed by that of the second |
| SampleCrashes.CompressedHeader | labeling/sample_crashes.py:124 | the first line of the compressed text is `// ` followed by the first file's path |
| SampleCrashes.CompressedCons | labeling/sample_crashes.py:123-124 | the compressed text is the first file's section followed by the compressed rest |
| SampleCrashes.ReadAll | labeling/sample_crashes.py:121 | reading succeeds exactly when every file exists, and pairs each file with its text in order |
| SampleCrashes.GetFileContent | labeling/sample_crashes.py:88-105 | a successful read gives exactly the four fields of the program: its path, its text, its gate section and the compressed QASM |
| SampleCrashes.CopyFileSpec | labeling/sample_crashes.py:132-146 | a record keeps every other field of the report, sets original_filepath_error to the report's path, adds the four program fields, and is written under the output folder with the report's own name |
| SampleCrashes.CopyAllSpec | labeling/sample_crashes.py:128-146 | the records written are those of the leading files that copy; the loop copies all files exactly when no exception stops it, and the exception is that of the first file that fails |
| SampleCrashes.CopyFilesToOutput | labeling/sample_crashes.py:128-146 | the loop writes the same records and stops with the same exception as the specification |
| SampleCrashes.CopyAllAt | labeling/sample_crashes.py:132-146 | from any file on, the copy either stops at that file's exception or writes its record and continues with the rest |
| SourceCodeManipulation.DefBeforeParen | generators/source_code_manipulation.py:37-41 | on a line whose stripped form starts with `def `, the text before the first `(` still holds `def `, so the `[1]` index of the name extraction never fails |
| SourceCodeManipulation.DefAfterIndent | generators/source_code_manipulation.py:37-38 | a def line is its indentation followed by `def ` |
| SourceCodeManipulation.DefNames | generators/source_code_manipulation.py:35-41 | at most one name is extracted per line |
| SourceCodeManipulation.KeepPrefixed | generators/source_code_manipulation.py:43-44 | every name kept starts with the prefix, and a name is kept exactly when it was extracted and starts with the prefix |
| SourceCodeManipulation.IndentedDefName | generators/source_code_manipulation.py:37-41 | a line `indent + "def " + name + "(" + rest` at any indentation is a def line and yields exactly `name`, so nested functions and methods are listed |
| SourceCodeManipulation.IndentedIsDefLine | generators/source_code_manipulation.py:37-38 | whitespace before `def name(` still makes a def line |
| SourceCodeManipulation.RemoveAll | generators/source_code_manipulation.py:54-58 | removing functions never adds a node to a list |
| SourceCodeManipulation.RemovedEverywhere | generators/source_code_manipulation.py:54-77 | after the rewrite no function with a listed name remains, at any nesting depth |
| SourceCodeManipulation.NothingToRemove | generators/source_code_manipulation.py:54-58 | a tree that defines no listed function is left unchanged |
| SourceCodeManipulation.RemoveIdempotent | generators/source_code_manipulation.py:61-77 | removing the same functions twice gives the same tree as removing them once |
| SpotDivergences.Row | qite/spot_divergences.py:30-31 | the inner comprehension pairs `x` with each later file, in order |
| SpotDivergences.Pairs | qite/spot_divergences.py:30-31 | the pair list of k files has k(k-1)/2 entries (with PairCountClosedForm) |
| SpotDivergences.PairCountClosedForm | qite/spot_divergences.py:30-31 | twice the number of pairs i < j among k files is k(k-1) |
| SpotDivergences.PairsAt | qite/spot_divergences.py:30-31 | every (group[i], group[j]) with i < j appears in the pair list, at the position the nested loops give it |
| SpotDivergences.PairsOnly | qite/spot_divergences.py:30-31 | every entry of the pair list is some (group[i], group[j]) with i < j |
| SpotDivergences.PairsDistinct | qite/spot_divergences.py:30-31 | a group of distinct files gives pairwise distinct pairs |
| SpotDivergences.MostDifferentCount | qite/spot_divergences.py:24-31 | the most-different picker returns min(n, k(k-1)/2) pairs |
| SpotDivergences.MostDifferentPairsOrdered | qite/spot_divergences.py:27-31 | each picked pair joins two files of the group, the one with more lines first |
| SpotDivergences.MostDifferentFirstPair | qite/spot_divergences.py:27-31 | with two files or more and n > 0, the first pair starts with a file no other file has more lines than |
| SpotDivergences.PickMostDifferent | qite/spot_divergences.py:25-31 | the group is sorted in place by line count, longest first and stable, and the result is the first n pairs of the sorted group |
| SpotDivergences.RandomPairs | qite/spot_divergences.py:34-40 | random.sample succeeds exactly when 0 <= n <= the number of pairs, and raises ValueError otherwise |
| SpotDivergences.RandomPairsSpec | qite/spot_divergences.py:37-40 | a successful sample holds n pairs (group[i], group[j]) with i < j, pairwise distinct when the files are |
| SpotDivergences.Get | qite/spot_divergences.py:55 | `.get(key, default)` gives the default for a missing key |
| SpotDivergences.WalkFollowsLinks | qite/spot_divergences.py:45-55 | record k of the chain is the metadata loaded for the `input_qasm` path record k-1 names (the file itself for k = 0) |
| SpotDivergences.WalkStops | qite/spot_divergences.py:45-51 | the chain holds at most the given number of records and ends early only at a path that is not a `_qite_` file or has no metadata file |
| SpotDivergences.GetMetadata | qite/spot_divergences.py:43-56 | the loop returns exactly the chain of the link walk, at most 10 records |
| SpotDivergences.Provenance | qite/spot_divergences.py:153-160 | the provenance is the first record's platform, and "generator" when there is no metadata or the first record has no platform |
| SpotDivergences.KeepInRangeSpec | qite/spot_divergences.py:99-101 | the filter raises ValueError exactly when some file's 7-character prefix does not parse as an integer, and otherwise keeps exactly the files whose id lies in the inclusive range |
| SpotDivergences.FilterByRange | qite/spot_divergences.py:99-101 | without a range the files are kept as they are; with one, the range filter decides |
| SpotDivergences.RangeFilterRejects | qite/spot_divergences.py:99-110 | with a range set, one file whose prefix holds a letter stops the whole run before the digit check could skip it |
| SpotDivergences.GroupKeys | qite/spot_divergences.py:103-113 | no group key appears twice |
| SpotDivergences.GroupKeysSpec | qite/spot_divergences.py:104-113 | the groups are exactly the all-digit prefixes of the files; other files are skipped |
| SpotDivergences.MembersSpec | qite/spot_divergences.py:111-113 | a group holds exactly the files with its prefix |
| SpotDivergences.GroupKeysSnoc | qite/spot_divergences.py:104-112 | one more file adds its prefix as a new group exactly when the prefix is all digits and new |
| SpotDivergences.MembersSnoc | qite/spot_divergences.py:111-113 | one more file is appended to the group of its own prefix only |
| SpotDivergences.GroupByPrefix | qite/spot_divergences.py:103-113 | the grouping loop builds exactly the groups and keys of the grouping specification |
| SpotDivergences.GroupSortKeepsOrder | qite/spot_divergences.py:121 | all members of a group share the numeric prefix, so the stable sort by it leaves the group in folder order |
| SpotDivergences.EquivalenceField | qite/spot_divergences.py:70-142 | the equivalence field is "timeout" exactly when the check outlived 5 s, and otherwise the verdict text or `error: ...` |
| SpotDivergences.Entries | qite/spot_divergences.py:125-169 | one log entry per compared pair |
| SpotDivergences.EntriesAt | qite/spot_divergences.py:125-169 | entry k is the log entry of pair k |
| SpotDivergences.FirstLate | qite/spot_divergences.py:115-118 | the run stops before the first group whose time check fires, with a deadline of -1 never firing, and processes every group before it |
| SpotDivergences.FirstLateIs | qite/spot_divergences.py:115-118 | the stopping group is the first late one, or the end when none is late |
| SpotDivergences.ComparePair | qite/spot_divergences.py:125-169 | one comparison gives the entry `{stem_a}_vs_{stem_b}.json` with both file names, provenances and metadata chains and the equivalence field |
| SpotDivergences.ComparePairs | qite/spot_divergences.py:125-169 | the pairs of a group are compared and logged in order |
| SpotDivergences.CompareGroup | qite/spot_divergences.py:120-125 | a group is sorted by program id, its five most different pairs picked, and each compared |
| SpotDivergences.CompareGroups | qite/spot_divergences.py:115-125 | the groups are compared in turn until the time check fires, which ends the run (exit(0)) exactly when some group is late |
| SpotDivergences.ProcessGroups | qite/spot_divergences.py:115-169 | the groups are taken in ascending prefix order, with the same stop and entries |
| SpotDivergences.ProcessFiles | qite/spot_divergences.py:82-169 | process_files fails exactly when the range filter raises, and otherwise writes the entries of the grouped files, group by group in prefix order, up to the first late group |
| ScanFunctions.NamesAppend | scan_functions.py:69 | the names of two runs of records appended are the names of each, appended |
| ScanFunctions.OneRecordPerDef | scan_functions.py:62-76 | visiting a node yields one record per function definition in it, nested ones included, in visiting order, whatever class it starts in |
| ScanFunctions.OneRecordPerDefAll | scan_functions.py:56-76 | visiting a list of nodes yields one record per function definition in them, in order |
| ScanFunctions.RecordsWellFormed | scan_functions.py:64-75 | each record's full_api_name is its api_name or `Class.name` with a non-empty class, its signature is `name(a1, a2, …)` and its file is the file being parsed |
| ScanFunctions.RecordsWellFormedAll | aiexchange/knowledge_base/scan_functions.py:20-34 | the same holds for every record of a list of nodes |
| ScanFunctions.StaysUnscoped | scan_functions.py:54-60 | a visit that starts outside any class ends outside any class, since leaving a class resets the field to "" |
| ScanFunctions.WalkLeafDef | scan_functions.py:62-76 | a function with no nested definitions adds exactly its own record and keeps the class |
| ScanFunctions.WalkEmptyClass | aiexchange/knowledge_base/scan_functions.py:14-18 | leaving a class resets the class name to "" whatever it was before |
| ScanFunctions.ScopeResetExample | scan_functions.py:56-67 | in class C holding f, a nested class D, then g: f is listed as `C.f` and g, after D resets the scope, as plain `g` |
| ScanFunctions.ScopeResetNames | scan_functions.py:64-75 | the two records of that example in full: names, full names, descriptions, signatures `f(self)`, `g(self)` and file |
| ScanFunctions.ApiVisitor.constructor | scan_functions.py:52-54 | the visitor starts with no records and the class name "" |
| ScanFunctions.ApiVisitor.Visit | scan_functions.py:56-76 | a visit appends the records the Walk specification gives and leaves its class name |
| ScanFunctions.ApiVisitor.GenericVisit | scan_functions.py:59-76 | visiting the children in order appends their records and threads the class name from one to the next |
| ScanFunctions.ApiVisitor.Parse | scan_functions.py:78-86 | the file path is recorded; a file that does not parse adds nothing and is not fatal, one that parses adds its tree's records |
| ScanFunctions.WalkAllSnoc | scan_functions.py:59 | visiting one more child continues from the class name the earlier children left |
| ScanFunctions.ScanFolder | scan_functions.py:89-96 | one visitor over all listed files returns the records of the folder specification, in file order |
| ScanFunctions.ScanSkipsUnparsable | aiexchange/knowledge_base/scan_functions.py:36-54 | a folder yields exactly one record per function definition of the files that parse, and ends outside any class |
| Triage.InferredProgramOfLog | analysis_and_reporting/triage.py:97-99 | for an error record named the way the oracle logger names it beside a program, dropping the last 18 characters and appending `.py` gives back that program's path |
| Triage.MinimizedProgramIsWritten | analysis_and_reporting/triage.py:114-115 | the minimised program path, the record's path without `.json` plus `_min.py`, is the file the minimiser writes beside the record |
| Triage.ExtractCircuitVariableName | analysis_and_reporting/triage.py:153-164 | the assertion fails exactly when the path does not contain `error_min_` |
| Triage.ExtractNameOf | analysis_and_reporting/triage.py:153-164 | a path `pre + "error_min_" + v + "_" + platform` (platform without `_`) gives back exactly v, as in `..._error_min_random_qc_pytket.qasm` giving `random_qc` |
| Triage.ExtractNameWithoutPlatform | analysis_and_reporting/triage.py:160-162 | with no `_` after the marker the name is "" |
| Triage.AfterMarker | analysis_and_reporting/triage.py:157-158 | the text after the marker is what follows it |
| Triage.LastUnderscore | analysis_and_reporting/triage.py:160-163 | the last `_` of `v + "_" + platform` is the one before the platform, and cutting there gives v |
| Triage.Partner | analysis_and_reporting/triage.py:176-181 | the partner found lies among the remaining files |
| Triage.Without | analysis_and_reporting/triage.py:180 | removing one file shortens the list by one |
| Triage.Turn | analysis_and_reporting/triage.py:172-183 | each turn leaves fewer files than it started with |
| Triage.Members | analysis_and_reporting/triage.py:183 | the files of the pairs, two per pair |
| Triage.PartnerMatches | analysis_and_reporting/triage.py:176-181 | the partner found has the same extracted variable name |
| Triage.TurnSpec | analysis_and_reporting/triage.py:172-183 | one turn yields at most one pair, whose two files have equal names, and uses each listed file at most once |
| Triage.QasmPairsSpec | analysis_and_reporting/triage.py:167-184 | both files of every pair share their variable name, every file is in at most one pair, and there are at most ⌊n/2⌋ pairs |
| Triage.MembersAppend | analysis_and_reporting/triage.py:183 | the files of two pair lists appended are the files of each, appended |
| Triage.PairsMatchAppend | analysis_and_reporting/triage.py:183 | appending pair lists keeps every pair matching |
| Triage.WithoutMultiset | analysis_and_reporting/triage.py:180 | removing one file leaves the other files, counted with multiplicity |
| Triage.FindPartner | analysis_and_reporting/triage.py:176-181 | the loop finds the same partner as the specification, or raises the same assertion |
| Triage.TakePair | analysis_and_reporting/triage.py:172-183 | one pass of the while loop gives the turn of the specification |
| Triage.GetQasmPairs | analysis_and_reporting/triage.py:167-184 | the loop gives the pairs of the specification, or its exception |
| Triage.AfterAfter | analysis_and_reporting/triage.py:183 | collecting pairs in two steps equals collecting them at once |
| TestSuiteInstrumentation.InstrumentAppend | docker_circuit_fragments_miner/test_suite_inspired_generator.py:223-231 | instrumenting two statement lists appended is instrumenting each, appended |
| TestSuiteInstrumentation.InstrumentStatements | docker_circuit_fragments_miner/test_suite_inspired_generator.py:223-231 | the loop builds the statement list with a log call after every statement that is not an import |
| TestSuiteInstrumentation.InstrumentSpec | docker_circuit_fragments_miner/test_suite_inspired_generator.py:223-231 | the result has one entry per statement plus one log call per non-import, and dropping the added log calls gives back the statements in order |
| TestSuiteInstrumentation.InstrumentPositions | docker_circuit_fragments_miner/test_suite_inspired_generator.py:226-230 | each statement keeps its place, a log call follows each non-import right away, and an import is followed directly by the next statement |
| TestSuiteInstrumentation.VisitAll | docker_circuit_fragments_miner/test_suite_inspired_generator.py:181 | visiting a statement list keeps its length |
| TestSuiteInstrumentation.VisitAllAppend | docker_circuit_fragments_miner/test_suite_inspired_generator.py:181 | visiting two lists appended is visiting each, appended |
| TestSuiteInstrumentation.VisitInstrumentCommute | docker_circuit_fragments_miner/test_suite_inspired_generator.py:173-177 | instrumenting a function body and then visiting it equals visiting it and then instrumenting it |
| TestSuiteInstrumentation.TopLevelFunctionUninstrumented | docker_circuit_fragments_miner/test_suite_inspired_generator.py:218-221 | as written, a function at the top of a module keeps its body with no log call, since visit_Module does not visit it |
| TestSuiteInstrumentation.TopLevelFunctionInstrumented | docker_circuit_fragments_miner/test_suite_inspired_generator.py:168-177 | with the intended recursive visit, the same function body gets its log call |
| TestSuiteInstrumentation.VisitModuleSpec | docker_circuit_fragments_miner/test_suite_inspired_generator.py:168-231 | the intended module visit equals instrumenting and then visiting; every top-level function comes out with its body visited and instrumented, followed by a log call |
| TestSuiteInstrumentation.VisitAllAt | docker_circuit_fragments_miner/test_suite_inspired_generator.py:181 | entry i of a visited list is statement i visited |
| TestSuiteInstrumentation.AdjacentFutureSurvives | docker_circuit_fragments_miner/test_suite_inspired_generator.py:96-101 | of two adjacent `__future__` imports, the removal as written keeps the second, while the intended removal keeps neither |
| TestSuiteInstrumentation.NoAdjacentFutureTail | docker_circuit_fragments_miner/test_suite_inspired_generator.py:96-101 | a list without adjacent `__future__` imports keeps that property in every suffix |
| TestSuiteInstrumentation.SkipRemovedSpec | docker_circuit_fragments_miner/test_suite_inspired_generator.py:96-101 | the removal as written drops only `__future__` imports and keeps every other statement in order; without adjacent `__future__` imports it removes them all |
| TestSuiteInstrumentation.RemoveFutureSpec | docker_circuit_fragments_miner/test_suite_inspired_generator.py:96-101 | the intended removal keeps exactly the statements that are not `__future__` imports, and applying it twice is applying it once |
| TestSuiteInstrumentation.ModuleTree.constructor | docker_circuit_fragments_miner/test_suite_inspired_generator.py:118-133 | the tree holds the parsed module's statements |
| TestSuiteInstrumentation.ModuleTree.RemoveFromFuturePrefix | docker_circuit_fragments_miner/test_suite_inspired_generator.py:96-101 | removing from the list while iterating over it skips the statement right after each removal |
| TestSuiteInstrumentation.ModuleTree.RemoveFutureImports | docker_circuit_fragments_miner/test_suite_inspired_generator.py:96-101 | every `__future__` import is removed and the rest keep their order |
| TestSuiteInstrumentation.ModuleTree.AddInstrumentationAsWritten | docker_circuit_fragments_miner/test_suite_inspired_generator.py:136-164 | the module body as visit_Module instruments it, under `import sys`, `sys.path.append(path)` and the import of the log function, in that order |
| TestSuiteInstrumentation.ModuleTree.AddInstrumentation | docker_circuit_fragments_miner/test_suite_inspired_generator.py:136-164 | the module visited recursively and instrumented, under the same three-statement header |
| TestSuiteInstrumentation.ModuleTree.AddFromFuturePrefix | docker_circuit_fragments_miner/test_suite_inspired_generator.py:104-111 | `from __future__ import annotations` is inserted at index 0 and nothing else changes |
| TestSuiteInstrumentation.InstrumentFile | docker_circuit_fragments_miner/test_suite_inspired_generator.py:114-127 | instrument_file produces the future import, the logger header and the instrumented module, with the module's own future imports removed |
| TestSuiteInstrumentation.InstrumentFileAsWritten | docker_circuit_fragments_miner/test_suite_inspired_generator.py:114-127 | the code as written produces the future import, the logger header and the module as visit_Module leaves it, after the removal that skips elements |
| TestSuiteInstrumentation.InstrumentedSpec | docker_circuit_fragments_miner/test_suite_inspired_generator.py:104-164 | the written file starts with the future import, `import sys`, the path append and the logger import; no other statement is a `__future__` import; its length is 4 plus the kept statements plus one log call per non-import |
| TestSuiteInstrumentation.InstrumentKeepsFuture | docker_circuit_fragments_miner/test_suite_inspired_generator.py:223-231 | instrumenting adds only log calls, so no `__future__` import appears |
| TestSuiteInstrumentation.VisitKeepsImports | docker_circuit_fragments_miner/test_suite_inspired_generator.py:173-216 | a visit keeps each statement an import or not, so the same statements get log calls |
| TestSuiteInstrumentation.LateFutureAsWritten | docker_circuit_fragments_miner/test_suite_inspired_generator.py:96-127 | with two adjacent `__future__` imports, the file as written has the second one after the logger header, while the intended file has only the one on top |
| TestSuiteInstrumentation.ConvertTestSuite | docker_circuit_fragments_miner/test_suite_inspired_generator.py:56-69 | the loop over the Python files, calling instrument_file as written on each, gives the same result as the conversion specification |
| TestSuiteInstrumentation.ConvertAllSpec | docker_circuit_fragments_miner/test_suite_inspired_generator.py:56-133 | the run succeeds exactly when every file parses, and then writes one file per Python file at the same relative path, instrumented as instrument_file is written |
| TestSuiteInstrumentation.InstrumentedNoFuture | docker_circuit_fragments_miner/test_suite_inspired_generator.py:118-122 | after the `__future__` imports are removed, the instrumented body holds none |
| ValidatePlatformProcessor.ProgramIdSurvives | validate/platform_processor.py:181-184 | the output name `{first_token}_qite_{hex6}` keeps the input's program id as its first token, and equals the later processor's name when no predefined name is given |
| ValidatePlatformProcessor.QiteLoopSucceeds | validate/platform_processor.py:171-224 | a run returns a path exactly when the import, every transformer and the export succeed; the path is the exporter's, the status names it as the output and lists every transformer |
| ValidatePlatformProcessor.ImportCrashStatus | validate/platform_processor.py:194-231 | an import crash ends the run with None; the importer is named in the status even so, and nothing else changes |
| ValidatePlatformProcessor.TransformerCrashStatus | validate/platform_processor.py:199-208 | after the first transformer crash the result is None and transformer_functions lists the transformers up to and including the crashing one |
| ValidatePlatformProcessor.ExportCrashStatus | validate/platform_processor.py:211-242 | an export crash ends the run with None, but the exporter is named and the crash marker is recorded as output_qasm |
| ValidatePlatformProcessor.TransformerTurn | validate/platform_processor.py:200-208 | one turn of the transformer loop gives the chain's outcome after i + 1 transformers, lists i + 1 names, and a failure there is the last transformer attempted |
| ValidatePlatformProcessor.PlatformProcessor.constructor | validate/platform_processor.py:133-140 | no importer, no transformers, no exporter, the name `base_class_processor` and the three folders as given |
| ValidatePlatformProcessor.PlatformProcessor.SetImporter | validate/platform_processor.py:142-144 | the importer slot is set and nothing else changes |
| ValidatePlatformProcessor.PlatformProcessor.AddTransformer | validate/platform_processor.py:146-148 | the transformer is appended to the list |
| ValidatePlatformProcessor.PlatformProcessor.SetExporter | validate/platform_processor.py:150-152 | the exporter slot is set and nothing else changes |
| ValidatePlatformProcessor.PlatformProcessor.SetExceptionHandling | validate/platform_processor.py:154-160 | with the importer and exporter set, every operation gets the flag; an unset slot (None) raises AttributeError |
| ValidatePlatformProcessor.PlatformProcessor.SetFolders | validate/platform_processor.py:162-169 | with both slots set, every operation gets the metadata and error folders; an unset slot raises AttributeError |
| ValidatePlatformProcessor.PlatformProcessor.Configure | validate/platform_processor.py:187-190 | both settings applied to every operation of the set {importer, transformers, exporter}, or AttributeError when a slot is unset |
| ValidatePlatformProcessor.PlatformProcessor.HandleImport | validate/platform_processor.py:226-231 | the import's outcome is the importer's run result, and the importer is named in the status whether it crashed or not |
| ValidatePlatformProcessor.PlatformProcessor.TransformerAt | validate/platform_processor.py:200-208 | one transformer is listed in the status before it runs on the circuit the earlier ones produced |
| ValidatePlatformProcessor.PlatformProcessor.RunTransformers | validate/platform_processor.py:199-209 | the loop's outcome is the chain's outcome over all transformers, and the status lists exactly the transformers attempted |
| ValidatePlatformProcessor.PlatformProcessor.HandleExport | validate/platform_processor.py:233-242 | the export's outcome is the exporter's run result; the exporter and the returned path or crash marker are recorded |
| ValidatePlatformProcessor.PlatformProcessor.ExecuteQiteLoop | validate/platform_processor.py:171-224 | from the initial status, a run of the loop specification with the output base `{id}_qite_{hex6}`; metadata is stored only on success; an unset slot raises AttributeError |
| ValidatePlatformProcessor.PlatformProcessor.ConfigureAndRun | validate/platform_processor.py:187-224 | the operations are configured and the run follows the loop specification from the current status |
| ValidatePlatformProcessor.PlatformProcessor.ImportAndContinue | validate/platform_processor.py:194-224 | the import, then the transformers and the export, as the loop specification gives them |
| ValidatePlatformProcessor.PlatformProcessor.TransformAndExport | validate/platform_processor.py:199-224 | the transformers and then the export, as the specification's rest of the run |
| ValidatePlatformProcessor.PlatformProcessor.ExportAndStore | validate/platform_processor.py:211-224 | the export and, on success, the metadata file named after the output base |
| ValidatePlatformProcessor.PlatformProcessor.ListAndRun | validate/platform_processor.py:200-208 | the transformer's name is appended to the status's list, then its outcome is the transformed circuit, the exception it raised, or a crash |

## Left out

- The delta-debugging class itself (`DDMin` of analysis_and_reporting/ddmin.py and qite/inspection/ddmin.py) is not part of this model. Its source is not available. The model covers the oracles, the candidate assembly and the files around it.
- `run_with_time` (called at qite/processors/platform_processor.py:139, 230, 238 and 250) is not defined in any of the repository's files that are available. The model assumes it returns `(result, elapsed)`, where the result follows `Operation.run`'s crash-to-`CrashType` handling.
- Docker, subprocesses, multiprocessing, signals and timeouts are outside the model. Only their outcome enters it, as a parameter: a result, "timeout" or an error.
- The foreign libraries are outside the model: Qiskit, pytket, PennyLane, BQSKit, the qcec equivalence checker, and Python's `ast`, `re`, `json` and `yaml`. Their results are parameters or abstract datatypes.
- Floating point is not modelled: random angles, `u0`'s rounding up, and coverage percentages (whose rounding is also left out). Angles are carried as text.
- Randomness is not modelled: `random.choice` and `random.sample`, uuid suffixes and seeds. A random draw is a parameter, constrained only by membership and distinctness.
- Clocks and timestamps are parameters.
- The `end_timestamp` check with `exit(0)` before each program (qite/generators/qasm_code_gen.py:150-152) is not modelled.
- The language model, the network and the sixty-second wait between model calls are parameters or left out.
- Plotting, notebook cells, the CLI, click and YAML plumbing, and printing are left out.
- `print_intermediate_qasm` is left out.
- The coverage object passed to the QITE loop is not modelled.
- The ordering of a directory listing or of a glob is taken as given.
- QiskitCodeGen.FillStatements: the source's `while` loop runs until exactly `num_statements` statements exist, and never ends when no gate fits. The model bounds the loop by an attempt budget. It therefore promises exactly `n` statements or an exhausted budget (qite/generators/qiskit_code_gen.py:533-547).
- QiskitCodeGen.GenerateCode: the same attempt budget applies, because it is built on `FillStatements`.
- QiskitGateGen.GenerateCode: the same attempt budget applies to the loop of generators/qiskit_gate_gen.py:527-540.
- PyStr.IsDigit: accepts the ASCII digits only. Python's `str.isdigit` also accepts other Unicode digits, such as '²'.
- PyStr.Lower: folds the ASCII letters only. Python's `str.lower` folds all of Unicode.
- FilterCodeChanges.DeduplicateSpec: JSON values are compared structurally, so `true` and `1` are different keys. In a Python set, `True == 1` and the two collide.
- OracleCalls.OracleExporter: the order of the export functions is a parameter. It is not tied to the order in which `get_functions` lists the module's globals.
- SampleCrashes.CopyAll: two related files with the same name overwrite each other in the output folder, and the model does not capture this. It records both copies.
- The `inspect`- and `importlib`-based lookups get_source_code_functions_w_prefix and get_functions_w_prefix (generators/source_code_manipulation.py:8-29) are not modelled. They read live Python objects.
- The `main` of qite/spot_divergences.py is partly left out: its loading of the configuration and its initial time check (:189-202) are not modelled.
- qite/run_coverage_scripts.py is partly left out. The collection scripts themselves and the background `Popen` of the coverage computation are not modelled. `os.path.exists` on the input folder in `collect_and_store_xml_files` (qite/run_coverage_scripts.py:12) is modelled as "is a directory". The output folder is created with `os.makedirs(..., exist_ok=True)` (line 23), so it always exists after that call.
- labeling/sample_crashes.py's random choice of reports and its timestamped output folder are left out.
- `copy_non_python_files` and the unparsing of the rewritten tree, in docker_circuit_fragments_miner/test_suite_inspired_generator.py, are left out. A file is a list of abstract statements.
- The report folders, file copies, Docker run and notebook of analysis_and_reporting/triage.py are left out.
- The docstring lookup and `save_to_json` of scan_functions.py are left out.
- Primitives.Operation.LoadCurrentStatus: the operation keeps its own copy of the status, while the source shares the processor's dict object. The processor does not write to that dict between an operation's load and the operation's error record, so the records agree, but the sharing itself is not modelled.
- SpotDivergences.Entry: a comparison record leaves out `comparator_time`, the wall-clock time of the comparison (qite/spot_divergences.py:144-145, 163), because clocks are not modelled.
- QasmCodeGen.GeneratePrograms: the `_seed.txt` file and the `generation_time` folder, with one timing file per program, are not modelled (qite/generators/qasm_code_gen.py:134-141, 153-172). Only the programs are.
- QiskitCodeGen.GeneratePrograms: the `_seed.txt` file and the `generation_time` timing files are not modelled either (qite/generators/qiskit_code_gen.py:573-613).
- ConvertAllSpec: on a file that does not parse, the model returns only the SyntaxError. The instrumented files the source already wrote for the earlier files stay on disk, and the model's result does not list them.
- HunksSpec: on a modification with neither path, the model returns only the error. The hunk folders the source already wrote for the earlier modifications stay on disk, and the model's result does not list them.
- GetChangelogs.Hunks: a hunk records its folder, its file path and the commit's versions. The commit id and timestamp, the added and deleted lines of the diff, and the `content.txt` file with the new source (information_distillation/get_changelogs.py:64-76) are left out, because the repository history is an input from outside.
- DeltaDebuggingComparison.CommonAncestor: a provenance node always has `input_qasm`, `output_qasm` and `platform` in the model. A node of the JSON file that lacks one makes the source raise KeyError (qite/delta_debugging_comparison.py:38-62), and the model does not capture this.
- RunCoverageScripts.CoverageFolders.CollectAndStore: the FileExistsError message names the new folder by its bare name, while the source names the joined path `output_folder/NNNN`. The model returns the new folder's name, which the source only prints (the function returns None).
- RunCoverageScripts.CollectionScripts: the `os.path.isfile` filter on the `collect_*.sh` names is left out, as is the error of listing a scripts folder that does not exist. The scripts folder is given as a list of file names.
- FixedFilesGenerator.TestSuiteOnlyStrategy.Generate: the jinja rendering of `circuit_qasm_embedded.jinja` (generators/strategies/fixed_files_generator.py:44-50) is abstracted. The model's result is a Seed record of the QASM text and its file, and the template text is not modelled.
- Entry.FillConfig: YAML's `.inf` and `.nan` are left out of the float case. On them `int()` raises OverflowError and ValueError, and the model has only finite floats. A batch_size value that is neither null, a boolean, a number, a string nor a list is taken as a nested mapping, and its TypeError message names `dict`.
- RunCoverageScripts.CoverageFolders.Cli: an input path that exists but is a file is treated like a missing one. Python raises NotADirectoryError there when writing `.timeout`, and the model raises FileNotFoundError.
- Primitives.Operation.Run: the `breakpoint()` call for an exception whose message holds `'NoneType' object has no attribute 'n_gates_of_type'` (qite/base/primitives.py:38-39) is left out, because it only opens the interactive debugger. Without a debugger attached, the run goes on to log the error as for any other exception, which is what the model does.
- ComputeCoverage.MergeCoverageFiles: a report that is not well-formed XML makes `ET.parse` raise ParseError, and a `hits` attribute that is not an integer makes `int(hits)` raise ValueError. Neither is modelled, because the model takes each report as an already parsed tree with integer hit counts.
- GetChangelogs.Hunks: two modifications whose paths flatten to the same name under `replace('/', '_')` (for example `a/b_c.py` and `a_b/c.py`) write the same hunk folder, and the second overwrites the first on disk. The model does not capture this. It records both hunks.
- OracleCalls.ExportFile: the output folder is used as given. `Path(output_dir).resolve()` (validate/functions_oracle_calls.py:108 and 151) makes the folder handed to the export and optimize calls absolute against the working directory, and it follows symbolic links. Neither the working directory nor the links are part of the model, so a relative folder stays relative here. The error logs use `output_dir` unresolved, as in the model.

## Findings

| source | as written | input that shows it | evidently intended | confidence | as-written member | corrected member |
|---|---|---|---|---|---|---|
| analysis_and_reporting/ddmin_target_file.py:144-149 | `dump_json_with_max_length` splits an over-long line at the last space before `max_length`. That space may be inside the indentation, and the rest is re-indented, so the line can come back unchanged and the `while` loop never ends | with the defaults (indent 4, `max_length` 80), a JSON line of four spaces and a space-free string of 77 characters or more | every pass shortens the line: split past the indentation, or hard-split at `max_length` | high, not executed | DdminTargetFile.WrapStallsAsWritten | DdminTargetFile.DumpJsonWithMaxLength |
| information_distillation/context_retriever.py:20-28 | `get_function_signature` aligns `defaults` with `node.args.args` only. Positional-only parameters with defaults shift every default onto the wrong parameter | `def f(a=1, /, b=2)`: the signature printed is `f(b=1)` instead of `f(b=2)` | `defaults` aligned with `posonlyargs + args`, so the last defaults go to the last positional parameters | high, not executed | ContextRetriever.PosonlyDefaultShifts | ContextRetriever.AlignedDefaultsSpec |
| generators/strategies/fixed_files_generator.py:35 | `generate` calls `self.load_circuit`, which neither the strategy nor its base class defines. Every call on a folder with unused files marks one file used and then raises AttributeError | any seed folder with one `.qasm` file, first call to `generate` | load the selected file as a circuit, dump it as QASM, and hand out each file once | high, not executed | FixedFilesGenerator.FirstCallAsWritten | FixedFilesGenerator.DrainFolder |
| docker_circuit_fragments_miner/test_suite_inspired_generator.py:218-221 | `visit_Module` instruments the module's top-level statements but does not call `generic_visit`, so no function or class body is visited or instrumented | a module holding `def f(): s` | instrument the top level and then visit the children, so every body gets its log calls | medium, not executed | TestSuiteInstrumentation.TopLevelFunctionUninstrumented | TestSuiteInstrumentation.VisitModuleSpec |
| docker_circuit_fragments_miner/test_suite_inspired_generator.py:96-101 | `remove_from_future_prefix` removes items from `tree.body` while iterating over it, so the statement after each removed one is skipped | a module starting with two `from __future__ import …` statements: the second one survives and ends up after `import sys`, which Python rejects | remove every `__future__` import | high, not executed | TestSuiteInstrumentation.LateFutureAsWritten | TestSuiteInstrumentation.RemoveFutureSpec |
| entry.py:342-359 | the single `command` branch calls `build_command` without its required `end_timestamp` and passes `end_timestamp` to `run_command`, which takes none; and `replace_program_range` reads `config['commands']` before the branch is chosen | a configuration with `command` and no `commands`: KeyError('commands') from replace_program_range, and TypeError from build_command were the branch reached | build the single command with the end timestamp and run it, like each command of the `commands` form | high, not executed | Entry.SingleCommandNeverRuns, Entry.SingleBranchRaises | Entry.SingleBatchSpec |
| qite/qite_replay.py:119-142 | `run_qite` calls `execute_qite_loop` on a processor from `setup_processor`, and nothing on that path calls `set_round`. Building the first status reads `self.round_number` (qite/processors/platform_processor.py:105), which raises AttributeError. So every replay fails, and the reproducibility gate of qite/delta_debugging_comparison.py:196-210 always fails. qite/delta_debugging.py reproduces a failure only when its clue is part of this message | any metadata file whose input program exists and whose platform and transformers are known | set the round on the replayed processor (for example `set_round(0)`) before running the loop, so the recorded run is replayed | high, not executed | QiteReplay.ExecuteOnNewProcessor, QiteReplay.RunQiteRaisesAsWritten, QiteReplay.ChainFailsFirstAsWritten, DeltaDebuggingComparison.GateWithRaisingReplays | QiteReplay.RunQiteSpec, QiteReplay.ChainSpec |
