/** labeling/sample_crashes.py: turning sampled crash reports into labelling
    records, each holding the report, the generated program, the gate
    section of that program and the QASM files the run produced.

    The disk is a parameter: the text of each file, the parsed JSON of each
    report, and the files `rglob` walks under each folder, in its order.
    Picking the random sample and the timestamped output folder are not
    modelled. */
module SampleCrashes {
  import opened Py
  import opened PyStr
  import PySeq
  import PyPath

  /** get_content_between_tags: the text after the first start tag up to
      the next end tag; "" when either tag is missing. */
  function GetContentBetweenTags(content: string, startTag: string, endTag: string): (r: string)
  {
    var i := FindFrom(content, startTag, 0);
    if i == -1 then ""
    else
      var start := i + |startTag|;
      var j := FindFrom(content, endTag, start);
      if j == -1 then "" else content[start..j]
  }

  /** Without the start tag the result is "". */
  lemma {:induction false} NoStartTag(content: string, startTag: string, endTag: string)
    requires !Contains(content, startTag)
    ensures GetContentBetweenTags(content, startTag, endTag) == ""
  {
    FindFromZero(content, startTag);
  }

  /** When both tags are found, the result is the text between the first
      start tag and the first end tag after it. */
  lemma {:induction false} BetweenTagsSpec(content: string, startTag: string, endTag: string)
    requires FindFrom(content, startTag, 0) >= 0
    requires FindFrom(content, endTag, FindFrom(content, startTag, 0) + |startTag|) >= 0
    ensures var i := FindFrom(content, startTag, 0);
      var r := GetContentBetweenTags(content, startTag, endTag);
      && i + |startTag| + |r| + |endTag| <= |content|
      && content[i..i + |startTag| + |r| + |endTag|] == startTag + r + endTag
      && (forall k :: 0 <= k < i ==> !StartsWith(content[k..], startTag))
      && (forall k :: i + |startTag| <= k < i + |startTag| + |r| ==> !StartsWith(content[k..], endTag))
  {
    BetweenTagsLayout(content, startTag, endTag);
    var start := FindFrom(content, startTag, 0) + |startTag|;
    assert GetContentBetweenTags(content, startTag, endTag) == content[start..FindFrom(content, endTag, start)];
    FindFromSpec(content, startTag, 0);
    FindFromSpec(content, endTag, start);
  }

  lemma {:induction false} BetweenTagsLayout(content: string, startTag: string, endTag: string)
    requires FindFrom(content, startTag, 0) >= 0
    requires FindFrom(content, endTag, FindFrom(content, startTag, 0) + |startTag|) >= 0
    ensures var i := FindFrom(content, startTag, 0);
      var r := GetContentBetweenTags(content, startTag, endTag);
      && i + |startTag| + |r| + |endTag| <= |content|
      && content[i..i + |startTag| + |r| + |endTag|] == startTag + r + endTag
  {
    var i := FindFrom(content, startTag, 0);
    var start := i + |startTag|;
    var j := FindFrom(content, endTag, start);
    var r := GetContentBetweenTags(content, startTag, endTag);
    assert r == content[start..j];
    FoundSlice(content, startTag, 0);
    FoundSlice(content, endTag, start);
    TagsAround(content, startTag, endTag, i, j);
  }

  /** Two tags found at `i` and at `j`, the second after the first. */
  lemma {:induction false} TagsAround(s: string, startTag: string, endTag: string, i: nat, j: nat)
    requires i + |startTag| <= j && j + |endTag| <= |s|
    requires s[i..i + |startTag|] == startTag && s[j..j + |endTag|] == endTag
    ensures s[i..j + |endTag|] == startTag + s[i + |startTag|..j] + endTag
  {
    SliceSplit3(s, i, i + |startTag|, j, j + |endTag|);
  }

  /** The index found holds `sub`. */
  lemma {:induction false} FoundSlice(s: string, sub: string, start: nat)
    requires start <= |s| && FindFrom(s, sub, start) >= 0
    ensures s[FindFrom(s, sub, start)..FindFrom(s, sub, start) + |sub|] == sub
  {
    var k := FindFrom(s, sub, start);
    FindFromSpec(s, sub, start);
    assert s[k..][..|sub|] == s[k..k + |sub|];
  }

  lemma {:induction false} SliceSplit3(s: string, a: nat, b: nat, c: nat, d: nat)
    requires a <= b <= c <= d <= |s|
    ensures s[a..d] == s[a..b] + s[b..c] + s[c..d]
  {
  }

  /** The text between a start tag, first found after `pre`, and the first
      end tag after it: "<START_GATES>x<END_GATES>" gives "x". */
  lemma {:induction false} BetweenTagsOf(pre: string, startTag: string, mid: string, endTag: string, post: string)
    requires FindFrom(pre + startTag + mid + endTag + post, startTag, 0) == |pre|
    requires FindFrom(mid + endTag + post, endTag, 0) == |mid|
    ensures GetContentBetweenTags(pre + startTag + mid + endTag + post, startTag, endTag) == mid
  {
    var content := pre + startTag + mid + endTag + post;
    var start := |pre| + |startTag|;
    assert content[start..] == mid + endTag + post;
    FindFromShift(content, endTag, start);
    assert content[start..start + |mid|] == mid;
  }

  /** A start tag with no end tag after it gives "". */
  lemma {:induction false} NoEndTag(content: string, startTag: string, endTag: string)
    requires FindFrom(content, startTag, 0) >= 0
    requires !Contains(content[FindFrom(content, startTag, 0) + |startTag|..], endTag)
    ensures GetContentBetweenTags(content, startTag, endTag) == ""
  {
    var start := FindFrom(content, startTag, 0) + |startTag|;
    FindFromShift(content, endTag, start);
    FindFromZero(content[start..], endTag);
  }

  /** `"_".join(stem.split("_")[:-2])`. */
  function RelatedPrefix(stem: string): string
  {
    Join("_", PySeq.Slice(Split(stem, '_'), 0, -2))
  }

  /** get_all_related_QASM_files' prefix drops the last two `_` tokens of
      the report's stem: "qiskit_circuit_32q_10g_9183_bb397f_73e91e_error"
      relates "qiskit_circuit_32q_10g_9183_bb397f". */
  lemma {:induction false} RelatedPrefixOf(p: string, a: string, b: string)
    requires '_' !in a && '_' !in b
    ensures RelatedPrefix(p + "_" + a + "_" + b) == p
  {
    SplitTwoTokens(p, a, b);
    DropLastTwo(Split(p, '_'), a, b);
    JoinSplit(p, '_');
  }

  lemma {:induction false} SplitTwoTokens(p: string, a: string, b: string)
    requires '_' !in a && '_' !in b
    ensures Split(p + "_" + a + "_" + b, '_') == Split(p, '_') + [a, b]
  {
    var tail := a + "_" + b;
    assert p + "_" + a + "_" + b == p + ['_'] + tail;
    SplitAppend(p, tail, '_');
    SplitCons(a, b, '_');
    NoSepNotFound(b, '_');
    assert Split(b, '_') == [b];
  }

  lemma {:induction false} DropLastTwo<T>(s: seq<T>, x: T, y: T)
    ensures PySeq.Slice(s + [x, y], 0, -2) == s
  {
    assert (s + [x, y])[0..|s|] == s;
  }

  /** A stem with fewer than two underscores relates every QASM file of
      the folder. */
  lemma {:induction false} ShortStemRelatesAll(a: string, b: string)
    requires '_' !in a && '_' !in b
    ensures RelatedPrefix(a) == ""
    ensures RelatedPrefix(a + "_" + b) == ""
  {
    NoSepNotFound(a, '_');
    SplitCons(a, b, '_');
    NoSepNotFound(b, '_');
  }

  /** `rglob(prefix + "*.qasm")` matches a name that starts with the prefix
      and ends with ".qasm", the two not overlapping. */
  predicate MatchesRelated(prefix: string, path: string)
  {
    var n := PyPath.Name(path);
    |n| >= |prefix| + 5 && StartsWith(n, prefix) && EndsWith(n, ".qasm")
  }

  /** A folder's view of the disk. */
  datatype Disk = Disk(
    text: map<string, string>,
    json: map<string, Dict>,
    walk: map<string, seq<string>>)
  {
    /** The files `rglob` visits under `folder`, in its order. */
    function Below(folder: string): seq<string>
    {
      if folder in walk then walk[folder] else []
    }

    /** `path.read_text()`. */
    function Read(path: string): Result<string>
    {
      if path in text then Ok(text[path]) else Err(FileNotFoundError(path))
    }
  }

  /** get_all_related_QASM_files. */
  function RelatedQasmFiles(disk: Disk, jsonPath: string): seq<string>
  {
    var prefix := RelatedPrefix(PyPath.Stem(jsonPath));
    PySeq.Filter(disk.Below(PyPath.Parent(jsonPath)), p => MatchesRelated(prefix, p))
  }

  /** The related files are the QASM files under the report's folder whose
      names start with the prefix, in walk order. */
  lemma {:induction false} RelatedQasmFilesSpec(disk: Disk, jsonPath: string)
    ensures forall p :: p in RelatedQasmFiles(disk, jsonPath) <==>
      p in disk.Below(PyPath.Parent(jsonPath)) && MatchesRelated(RelatedPrefix(PyPath.Stem(jsonPath)), p)
  {
    var prefix := RelatedPrefix(PyPath.Stem(jsonPath));
    PySeq.FilterSpec(disk.Below(PyPath.Parent(jsonPath)), p => MatchesRelated(prefix, p));
  }

  /** One file's section of the compressed QASM. */
  function Section(entry: (string, string)): string
  {
    "// " + entry.0 + "\n" + entry.1 + "\n"
  }

  /** The compressed QASM: the sections of the files, in order. */
  function Compressed(entries: seq<(string, string)>): string
  {
    Concat(PySeq.Map(entries, Section))
  }

  /** The loop of get_compressed_QASM_files. */
  method CompressEntries(entries: seq<(string, string)>) returns (qasm: string)
    ensures qasm == Compressed(entries)
  {
    qasm := "";
    var i := 0;
    while i < |entries|
      invariant 0 <= i <= |entries|
      invariant qasm == Compressed(entries[..i])
    {
      var (file, content) := entries[i];
      CompressedStep(entries, i);
      qasm := qasm + "// " + file + "\n" + content + "\n";
      i := i + 1;
    }
    assert entries[..|entries|] == entries;
  }

  lemma {:induction false} CompressedStep(entries: seq<(string, string)>, i: nat)
    requires i < |entries|
    ensures Compressed(entries[..i + 1]) == Compressed(entries[..i]) + Section(entries[i])
  {
    CompressedAppend(entries[..i], [entries[i]]);
    assert entries[..i] + [entries[i]] == entries[..i + 1];
  }

  /** Compressing two lists of files one after the other is compressing
      them together; one file gives its own section. */
  lemma {:induction false} CompressedAppend(a: seq<(string, string)>, b: seq<(string, string)>)
    ensures Compressed(a + b) == Compressed(a) + Compressed(b)
    ensures |b| == 1 ==> Compressed(b) == Section(b[0])
    decreases |a|
  {
    if |b| == 1 {
      assert b[1..] == [];
    }
    if a != [] {
      assert (a + b)[1..] == a[1..] + b;
      CompressedAppend(a[1..], b);
      ConcatAssoc(Section(a[0]), Compressed(a[1..]), Compressed(b));
    } else {
      assert a + b == b;
    }
  }

  lemma {:induction false} ConcatAssoc(x: string, y: string, z: string)
    ensures x + (y + z) == (x + y) + z
  {
  }

  /** The first line of the compressed QASM is the header of the first
      file. */
  lemma {:induction false} CompressedHeader(entries: seq<(string, string)>)
    requires entries != [] && '\n' !in entries[0].0
    ensures Split(Compressed(entries), '\n')[0] == "// " + entries[0].0
  {
    var e := entries[0];
    var rest := Compressed(entries[1..]);
    CompressedCons(entries);
    SectionCut(e, rest);
    assert '\n' !in "// " + e.0;
    SplitCons("// " + e.0, e.1 + "\n" + rest, '\n');
  }

  lemma {:induction false} SectionCut(e: (string, string), rest: string)
    ensures Section(e) + rest == ("// " + e.0) + ['\n'] + (e.1 + "\n" + rest)
  {
  }

  lemma {:induction false} CompressedCons(entries: seq<(string, string)>)
    requires entries != []
    ensures Compressed(entries) == Section(entries[0]) + Compressed(entries[1..])
  {
  }

  /** The files of a list paired with their texts, failing at the first
      one that cannot be read. */
  function ReadAll(disk: Disk, files: seq<string>): (r: Result<seq<(string, string)>>)
    ensures r.Ok? ==> |r.value| == |files| && forall i :: 0 <= i < |files| ==> files[i] in disk.text && r.value[i] == (files[i], disk.text[files[i]])
    ensures r.Err? <==> exists i :: 0 <= i < |files| && files[i] !in disk.text
  {
    if files == [] then Ok([])
    else
      var content :- disk.Read(files[0]);
      var rest :- ReadAll(disk, files[1..]);
      assert forall i :: 1 <= i < |files| ==> files[1..][i - 1] == files[i];
      Ok([(files[0], content)] + rest)
  }

  /** get_compressed_QASM_files. */
  function GetCompressedQasmFiles(disk: Disk, jsonPath: string): Result<string>
  {
    var entries :- ReadAll(disk, RelatedQasmFiles(disk, jsonPath));
    Ok(Compressed(entries))
  }

  const StartGates := "<START_GATES>"
  const EndGates := "<END_GATES>"

  /** get_file_content: the fields describing the generated program of a
      report, which sits beside the report. */
  function GetFileContent(disk: Disk, jsonPath: string, pythonFilename: string): (r: Result<Dict>)
    ensures r.Ok? ==> r.value.Keys == {"original_filepath_python", "content_python_file", "content_gates", "qasm_compressed"}
  {
    var pythonFile := PyPath.Join(PyPath.Parent(jsonPath), pythonFilename);
    var qasm :- GetCompressedQasmFiles(disk, jsonPath);
    var python :- disk.Read(pythonFile);
    Ok(map[
      "original_filepath_python" := Str(pythonFile),
      "content_python_file" := Str(python),
      "content_gates" := Str(Strip(GetContentBetweenTags(python, StartGates, EndGates))),
      "qasm_compressed" := Str(qasm)])
  }

  /** A labelling record: the JSON `{"data": data}` written at `path`. */
  datatype Sample = Sample(path: string, data: Dict)

  /** One turn of copy_files_to_output: the report's fields, the report's
      path, then the program's fields over them. */
  function CopyFile(disk: Disk, outputFolder: string, file: string): Result<Sample>
  {
    if file !in disk.json then Err(FileNotFoundError(file))
    else
      var data := disk.json[file];
      if "current_file" !in data then Err(KeyError("current_file"))
      else if !data["current_file"].Str? then Err(TypeError("unsupported operand type(s) for /"))
      else
        var info :- GetFileContent(disk, file, data["current_file"].s);
        Ok(Sample(PyPath.Join(outputFolder, PyPath.Name(file)), data["original_filepath_error":= Str(file)] + info))
  }

  /** A record keeps every field of the report, names the report, and adds
      the program's fields; it is written under the output folder with the
      report's own name. */
  lemma {:induction false} CopyFileSpec(disk: Disk, outputFolder: string, file: string)
    requires CopyFile(disk, outputFolder, file).Ok?
    ensures var s := CopyFile(disk, outputFolder, file).value;
      && s.data.Keys == disk.json[file].Keys + {"original_filepath_error", "original_filepath_python", "content_python_file", "content_gates", "qasm_compressed"}
      && s.data["original_filepath_error"] == Str(file)
      && (forall k :: k in disk.json[file] && k !in {"original_filepath_error", "original_filepath_python", "content_python_file", "content_gates", "qasm_compressed"}
           ==> s.data[k] == disk.json[file][k])
      && PyPath.Name(s.path) == PyPath.Name(file)
      && PyPath.Parent(s.path) == outputFolder
  {
    var data := disk.json[file];
    var info := GetFileContent(disk, file, data["current_file"].s).value;
    assert CopyFile(disk, outputFolder, file).value
      == Sample(PyPath.Join(outputFolder, PyPath.Name(file)), data["original_filepath_error":= Str(file)] + info);
    MergedRecord(data, file, info);
    PyPath.NameOfJoin(outputFolder, PyPath.Name(file));
    PyPath.ParentOfJoin(outputFolder, PyPath.Name(file));
  }

  /** The report's fields, its path, then the program's four fields over
      them. */
  lemma MergedRecord(data: Dict, file: string, info: Dict)
    requires info.Keys == {"original_filepath_python", "content_python_file", "content_gates", "qasm_compressed"}
    ensures var d := data["original_filepath_error":= Str(file)] + info;
      && d.Keys == data.Keys + {"original_filepath_error", "original_filepath_python", "content_python_file", "content_gates", "qasm_compressed"}
      && d["original_filepath_error"] == Str(file)
      && (forall k :: k in data && k !in {"original_filepath_error", "original_filepath_python", "content_python_file", "content_gates", "qasm_compressed"}
           ==> d[k] == data[k])
  {
  }

  /** copy_files_to_output as the records written before it stops, and
      the exception that stops it, if any. */
  function CopyAll(disk: Disk, outputFolder: string, files: seq<string>): (seq<Sample>, Option<Exception>)
  {
    if files == [] then ([], None)
    else match CopyFile(disk, outputFolder, files[0])
      case Err(e) => ([], Some(e))
      case Ok(s) =>
        var (rest, err) := CopyAll(disk, outputFolder, files[1..]);
        ([s] + rest, err)
  }

  /** The records written are those of the leading files that could be
      copied; all files are copied exactly when no exception stops the
      loop. */
  lemma {:induction false} CopyAllSpec(disk: Disk, outputFolder: string, files: seq<string>)
    ensures var (written, err) := CopyAll(disk, outputFolder, files);
      && |written| <= |files|
      && (forall i :: 0 <= i < |written| ==> CopyFile(disk, outputFolder, files[i]) == Ok(written[i]))
      && (err.None? <==> |written| == |files|)
      && (err.Some? ==> CopyFile(disk, outputFolder, files[|written|]) == Err(err.value))
  {
    if files != [] {
      var (rest, err) := CopyAll(disk, outputFolder, files[1..]);
      CopyAllSpec(disk, outputFolder, files[1..]);
      var c := CopyFile(disk, outputFolder, files[0]);
      if c.Ok? {
        var written := [c.value] + rest;
        assert CopyAll(disk, outputFolder, files) == (written, err);
        WrittenCons(file => CopyFile(disk, outputFolder, file), files, c.value, rest);
        if err.Some? {
          assert files[|written|] == files[1..][|rest|];
        }
      }
    }
  }

  /** The first file's result, then those of the files after it. */
  lemma WrittenCons<T>(copy: string -> Result<T>, files: seq<string>, first: T, rest: seq<T>)
    requires files != [] && |rest| < |files| && copy(files[0]) == Ok(first)
    requires forall i :: 0 <= i < |rest| ==> copy(files[1..][i]) == Ok(rest[i])
    ensures var written := [first] + rest;
      forall i :: 0 <= i < |written| ==> copy(files[i]) == Ok(written[i])
  {
    var written := [first] + rest;
    forall i | 1 <= i < |written| ensures written[i] == rest[i - 1] && files[i] == files[1..][i - 1] {
    }
  }

  /** copy_files_to_output: copies the sampled reports in order, stopping
      at the first exception. */
  method CopyFilesToOutput(disk: Disk, outputFolder: string, files: seq<string>)
    returns (written: seq<Sample>, err: Option<Exception>)
    ensures (written, err) == CopyAll(disk, outputFolder, files)
  {
    written, err := [], None;
    AfterAfter([], [], CopyAll(disk, outputFolder, files));
    assert files[0..] == files;
    var i := 0;
    while i < |files|
      invariant 0 <= i <= |files|
      invariant CopyAll(disk, outputFolder, files) == After(written, CopyAll(disk, outputFolder, files[i..]))
    {
      var r := CopyFile(disk, outputFolder, files[i]);
      CopyAllAt(disk, outputFolder, files, i);
      if r.Err? {
        err := Some(r.exc);
        assert written + [] == written;
        return;
      }
      AfterAfter(written, [r.value], CopyAll(disk, outputFolder, files[i + 1..]));
      written := written + [r.value];
      i := i + 1;
    }
    assert files[i..] == [];
    assert written + [] == written;
  }

  /** One turn of the copying loop. */
  lemma {:induction false} CopyAllAt(disk: Disk, outputFolder: string, files: seq<string>, i: nat)
    requires i < |files|
    ensures var r := CopyFile(disk, outputFolder, files[i]);
      CopyAll(disk, outputFolder, files[i..])
      == if r.Err? then ([], Some(r.exc)) else After([r.value], CopyAll(disk, outputFolder, files[i + 1..]))
  {
    assert files[i..][1..] == files[i + 1..];
  }

  /** The records `written` so far put before what the rest of the loop
      yields. */
  function After(written: seq<Sample>, rest: (seq<Sample>, Option<Exception>)): (seq<Sample>, Option<Exception>)
  {
    (written + rest.0, rest.1)
  }

  lemma {:induction false} AfterAfter(a: seq<Sample>, b: seq<Sample>, rest: (seq<Sample>, Option<Exception>))
    ensures After(a, (b + rest.0, rest.1)) == After(a + b, rest)
    ensures After([], rest) == rest
  {
    assert a + (b + rest.0) == (a + b) + rest.0;
    assert [] + rest.0 == rest.0;
  }
}
