/** information_distillation/get_code_hunks_with_deprecate.py: the scraper
    that walks the commits of a repository, newest first, and records for
    every added line mentioning "deprecate" the file, the diff's lines, the
    target line and two contexts around it.

    Each modified file is given with what the repository miner reports
    about it: its paths, name, number of lines of code, source text, the
    lines of its diff, and `walk`, the nodes of its syntax tree (None when
    the source does not parse). The commit date is given as its ISO text. */
module GetCodeHunksWithDeprecate {
  import opened Py
  import opened PyStr
  import PySeq
  import PyPath
  import ContextRetriever
  import FilterCodeChanges

  /** One line of a diff: its number in the file and its text. */
  datatype DiffLine = DiffLine(lineno: int, text: string)

  datatype ModifiedFile = ModifiedFile(
    newPath: Option<string>,
    oldPath: Option<string>,
    filename: string,
    nloc: Option<int>,
    source: Option<string>,
    walk: Option<seq<ContextRetriever.Node>>,
    added: seq<DiffLine>,
    deleted: seq<DiffLine>)

  datatype RawCommit = RawCommit(hash: string, date: string, files: seq<ModifiedFile>)

  /** The limits and the context size given on the command line. */
  datatype Limits = Limits(locLimit: int, fileSizeLimit: int, contextSize: int)

  // analyze_commit

  /** A file too long in lines of code, or a source larger than the limit
      in KB (`len(source) / 1024 > limit`, so more than `1024 * limit`
      characters), is not analysed. A zero or missing count and an empty
      or missing source never skip. */
  predicate Skipped(f: ModifiedFile, lim: Limits)
  {
    || (f.nloc.Some? && f.nloc.value != 0 && f.nloc.value > lim.locLimit)
    || (Truthy(f.source) && |f.source.value| > 1024 * lim.fileSizeLimit)
  }

  /** `'deprecate' in line.lower()`. */
  predicate MentionsDeprecate(d: DiffLine)
  {
    Contains(Lower(d.text), "deprecate")
  }

  function DeprecateTest(): DiffLine -> bool
  {
    d => MentionsDeprecate(d)
  }

  /** The added lines that mention "deprecate", in diff order. */
  function DeprecateLines(added: seq<DiffLine>): seq<DiffLine>
  {
    PySeq.Filter(added, DeprecateTest())
  }

  function Texts(lines: seq<DiffLine>): (r: seq<Value>)
    ensures |r| == |lines|
  {
    seq(|lines|, i requires 0 <= i < |lines| => Str(lines[i].text))
  }

  /** `modified_file.new_path or modified_file.old_path`. */
  function FilePath(f: ModifiedFile): Value
  {
    if Truthy(f.newPath) then Str(f.newPath.value)
    else if f.oldPath.Some? then Str(f.oldPath.value)
    else Null
  }

  predicate IsPython(f: ModifiedFile)
  {
    EndsWith(f.filename, ".py")
  }

  /** get_context_parents_compressed with the signatures, or None when it
      raises: a missing source or one that does not parse, or a parent
      class it cannot name. */
  function CompressedContext(f: ModifiedFile, lineno: int, k: int): Option<string>
  {
    if f.source.None? || f.walk.None? then None
    else
      match ContextRetriever.ListOfParents(f.walk.value, lineno, true)
      case Err(_) => None
      case Ok(parents) => Some(ContextRetriever.Compressed(f.source.value, parents, lineno, k))
  }

  /** The record of one line. */
  function Record(f: ModifiedFile, d: DiffLine, compressed: Value, base: string, k: int): Dict
  {
    map[
      "file" := FilePath(f),
      "lines_removed" := List(Texts(f.deleted)),
      "lines_added" := List(Texts(f.added)),
      "target_line" := Int(d.lineno),
      "target_line_content" := Str(d.text),
      "context_compressed" := compressed,
      "context_base" := Str(base),
      "context_size" := Int(k)]
  }

  /** `x` is a record about line `d` of file `f`, with context size `k`. */
  predicate RecordFor(x: Dict, f: ModifiedFile, d: DiffLine, k: int)
  {
    && "file" in x && "target_line" in x && "target_line_content" in x && "context_size" in x
    && x["file"] == FilePath(f) && x["target_line"] == Int(d.lineno) && x["target_line_content"] == Str(d.text)
    && x["context_size"] == Int(k)
  }

  /** A record holds the line, the file and the context size, and the
      contexts it was given. */
  lemma {:induction false} RecordSpec(f: ModifiedFile, d: DiffLine, compressed: Value, base: string, k: int)
    ensures RecordFor(Record(f, d, compressed, base, k), f, d, k)
    ensures "context_compressed" in Record(f, d, compressed, base, k)
    ensures Record(f, d, compressed, base, k)["context_compressed"] == compressed
  {
  }

  /** What one line adds: nothing when the compressed context of a Python
      file raises (the exception is caught), the exception of get_context
      on a missing source (it is not caught), or the record. */
  function LineRecord(f: ModifiedFile, d: DiffLine, k: int): Result<Option<Dict>>
  {
    var compressed: Option<Value> :=
      if !IsPython(f) then Some(Null)
      else if CompressedContext(f, d.lineno, k).Some? then Some(Str(CompressedContext(f, d.lineno, k).value))
      else None;
    if compressed.None? then Ok(None)
    else if f.source.None? then Err(AttributeError("'NoneType' object has no attribute 'split'"))
    else Ok(Some(Record(f, d, compressed.value, ContextRetriever.GetContext(f.source.value, d.lineno, k), k)))
  }

  /** The records of the lines `lines` of a file, in order. */
  function LineRecords(f: ModifiedFile, lines: seq<DiffLine>, k: int): Result<seq<Dict>>
  {
    if lines == [] then Ok([])
    else
      var r :- LineRecord(f, lines[0], k);
      Prepend(if r.Some? then [r.value] else [], LineRecords(f, lines[1..], k))
  }

  /** The records of one file. */
  function FileRecords(f: ModifiedFile, lim: Limits): Result<seq<Dict>>
  {
    if Skipped(f, lim) then Ok([]) else LineRecords(f, DeprecateLines(f.added), lim.contextSize)
  }

  /** The records of the files `files`, file after file. */
  function CommitRecords(files: seq<ModifiedFile>, lim: Limits): Result<seq<Dict>>
  {
    if files == [] then Ok([])
    else
      var rs :- FileRecords(files[0], lim);
      Prepend(rs, CommitRecords(files[1..], lim))
  }

  /** analyze_commit: the commit with its records, None when it has none. */
  function AnalyzeCommit(c: RawCommit, lim: Limits): Result<Option<FilterCodeChanges.Commit>>
  {
    var records :- CommitRecords(c.files, lim);
    if records == [] then Ok(None)
    else Ok(Some(FilterCodeChanges.Commit(map["hash" := Str(c.hash), "commit_number" := Str(c.date)], Some(records))))
  }

  /** A skipped file contributes nothing. */
  lemma {:induction false} SkippedFile(f: ModifiedFile, lim: Limits)
    requires Skipped(f, lim)
    ensures FileRecords(f, lim) == Ok([])
  {
  }

  /** Every record is about one of the lines `lines`. */
  lemma {:induction false} LineRecordsFrom(f: ModifiedFile, lines: seq<DiffLine>, k: int)
    requires LineRecords(f, lines, k).Ok?
    ensures forall x :: x in LineRecords(f, lines, k).value ==> exists j :: 0 <= j < |lines| && RecordFor(x, f, lines[j], k)
  {
    if lines != [] {
      LineRecordsFrom(f, lines[1..], k);
      var r := LineRecord(f, lines[0], k).value;
      forall x | x in LineRecords(f, lines, k).value
        ensures exists j :: 0 <= j < |lines| && RecordFor(x, f, lines[j], k)
      {
        if r.Some? && x == r.value {
          LineRecordSpec(f, lines[0], k);
        } else {
          var j :| 0 <= j < |lines[1..]| && RecordFor(x, f, lines[1..][j], k);
          assert lines[1..][j] == lines[j + 1];
        }
      }
    }
  }

  /** A record of a line is about that line. */
  lemma {:induction false} LineRecordSpec(f: ModifiedFile, d: DiffLine, k: int)
    requires LineRecord(f, d, k).Ok? && LineRecord(f, d, k).value.Some?
    ensures RecordFor(LineRecord(f, d, k).value.value, f, d, k)
  {
    var compressed: Value :=
      if !IsPython(f) then Null else Str(CompressedContext(f, d.lineno, k).value);
    RecordSpec(f, d, compressed, ContextRetriever.GetContext(f.source.value, d.lineno, k), k);
  }

  /** Every target line of a file's records is an added line that mentions
      "deprecate", whatever its case. */
  lemma {:induction false} FileRecordsMention(f: ModifiedFile, lim: Limits)
    requires FileRecords(f, lim).Ok?
    ensures forall x :: x in FileRecords(f, lim).value ==>
      exists d :: d in f.added && MentionsDeprecate(d) && RecordFor(x, f, d, lim.contextSize)
  {
    if !Skipped(f, lim) {
      var lines := DeprecateLines(f.added);
      LineRecordsFrom(f, lines, lim.contextSize);
      PySeq.FilterSpec(f.added, DeprecateTest());
      forall x | x in FileRecords(f, lim).value
        ensures exists d :: d in f.added && MentionsDeprecate(d) && RecordFor(x, f, d, lim.contextSize)
      {
        var j :| 0 <= j < |lines| && RecordFor(x, f, lines[j], lim.contextSize);
        assert lines[j] in lines;
      }
    }
  }

  /** Outside Python files every line gets a record, with no compressed
      context: one record per line, in order, when the source is there. */
  lemma {:induction false} OtherFileRecords(f: ModifiedFile, lines: seq<DiffLine>, k: int)
    requires !IsPython(f) && f.source.Some?
    ensures LineRecords(f, lines, k).Ok?
    ensures |LineRecords(f, lines, k).value| == |lines|
    ensures forall j :: 0 <= j < |lines| ==> RecordFor(LineRecords(f, lines, k).value[j], f, lines[j], k)
    ensures forall j :: 0 <= j < |lines| ==> LineRecords(f, lines, k).value[j] == Record(f, lines[j], Null, ContextRetriever.GetContext(f.source.value, lines[j].lineno, k), k)
  {
    OtherFileRecordsAre(f, lines, k);
    var rs := LineRecords(f, lines, k).value;
    forall j | 0 <= j < |lines| ensures RecordFor(rs[j], f, lines[j], k) {
      RecordSpec(f, lines[j], Null, ContextRetriever.GetContext(f.source.value, lines[j].lineno, k), k);
    }
  }

  /** The record of a line outside Python files: no compressed context. */
  function OtherRecord(f: ModifiedFile, d: DiffLine, k: int): Dict
    requires f.source.Some?
  {
    Record(f, d, Null, ContextRetriever.GetContext(f.source.value, d.lineno, k), k)
  }

  /** The records outside Python files, line by line. */
  lemma {:induction false} OtherFileRecordsAre(f: ModifiedFile, lines: seq<DiffLine>, k: int)
    requires !IsPython(f) && f.source.Some?
    ensures LineRecords(f, lines, k).Ok?
    ensures |LineRecords(f, lines, k).value| == |lines|
    ensures forall j :: 0 <= j < |lines| ==> LineRecords(f, lines, k).value[j] == OtherRecord(f, lines[j], k)
  {
    if lines != [] {
      var rest := lines[1..];
      OtherFileRecordsAre(f, rest, k);
      OtherFileRecordsCons(f, lines, k);
      OtherRecordsCons(f, lines, k, LineRecords(f, rest, k).value);
    }
  }

  /** The first line's record, then the records of the others. */
  lemma OtherRecordsCons(f: ModifiedFile, lines: seq<DiffLine>, k: int, tail: seq<Dict>)
    requires f.source.Some? && lines != [] && |tail| == |lines| - 1
    requires forall j :: 0 <= j < |lines| - 1 ==> tail[j] == OtherRecord(f, lines[1..][j], k)
    ensures var all := [OtherRecord(f, lines[0], k)] + tail;
      forall j :: 0 <= j < |lines| ==> all[j] == OtherRecord(f, lines[j], k)
  {
    var all := [OtherRecord(f, lines[0], k)] + tail;
    forall j | 1 <= j < |lines|
      ensures all[j] == tail[j - 1] && lines[j] == lines[1..][j - 1]
    {
    }
  }

  /** Outside Python files the first line's record comes first. */
  lemma OtherFileRecordsCons(f: ModifiedFile, lines: seq<DiffLine>, k: int)
    requires !IsPython(f) && f.source.Some? && lines != [] && LineRecords(f, lines[1..], k).Ok?
    ensures LineRecords(f, lines, k) == Ok([OtherRecord(f, lines[0], k)] + LineRecords(f, lines[1..], k).value)
  {
  }

  /** In a Python file a line gets a record exactly when its compressed
      context can be built, and the record holds it. */
  lemma {:induction false} PythonLineRecord(f: ModifiedFile, d: DiffLine, k: int)
    requires IsPython(f)
    ensures LineRecord(f, d, k) == Ok(None) <==> CompressedContext(f, d.lineno, k).None?
    ensures LineRecord(f, d, k).Ok? && LineRecord(f, d, k).value.Some? ==>
      && "context_compressed" in LineRecord(f, d, k).value.value
      && LineRecord(f, d, k).value.value["context_compressed"] == Str(CompressedContext(f, d.lineno, k).value)
  {
    if LineRecord(f, d, k).Ok? && LineRecord(f, d, k).value.Some? {
      RecordSpec(f, d, Str(CompressedContext(f, d.lineno, k).value), ContextRetriever.GetContext(f.source.value, d.lineno, k), k);
    }
  }

  /** A Python file has at most one record per line. */
  lemma {:induction false} PythonFileRecords(f: ModifiedFile, lines: seq<DiffLine>, k: int)
    requires IsPython(f)
    ensures LineRecords(f, lines, k).Ok?
    ensures |LineRecords(f, lines, k).value| <= |lines|
  {
    if lines != [] {
      PythonFileRecords(f, lines[1..], k);
    }
  }

  /** analyze_commit returns None exactly when the commit has no records;
      otherwise the commit carries its hash and date. */
  lemma {:induction false} AnalyzeCommitSpec(c: RawCommit, lim: Limits)
    requires CommitRecords(c.files, lim).Ok?
    ensures AnalyzeCommit(c, lim) == Ok(None) <==> CommitRecords(c.files, lim).value == []
    ensures AnalyzeCommit(c, lim).value.Some? ==>
      && FilterCodeChanges.CommitItems(AnalyzeCommit(c, lim).value.value).Ok?
      && AnalyzeCommit(c, lim).value.value.changes == Some(CommitRecords(c.files, lim).value)
  {
  }

  /** One line of the inner loop. */
  lemma {:induction false} LineRecordsStep(f: ModifiedFile, lines: seq<DiffLine>, k: int, j: nat)
    requires j < |lines|
    ensures LineRecord(f, lines[j], k).Err? ==> LineRecords(f, lines[j..], k) == Err(LineRecord(f, lines[j], k).exc)
    ensures LineRecord(f, lines[j], k) == Ok(None) ==> LineRecords(f, lines[j..], k) == LineRecords(f, lines[j + 1..], k)
    ensures LineRecord(f, lines[j], k).Ok? && LineRecord(f, lines[j], k).value.Some? ==>
      LineRecords(f, lines[j..], k) == Prepend([LineRecord(f, lines[j], k).value.value], LineRecords(f, lines[j + 1..], k))
  {
    assert lines[j..][0] == lines[j];
    assert lines[j..][1..] == lines[j + 1..];
    if LineRecord(f, lines[j], k) == Ok(None) {
      PrependEmpty(LineRecords(f, lines[j + 1..], k));
    }
  }

  /** The loop over the lines of one file that mention "deprecate". */
  method AnalyzeLines(f: ModifiedFile, lines: seq<DiffLine>, k: int) returns (r: Result<seq<Dict>>)
    ensures r == LineRecords(f, lines, k)
  {
    var changes: seq<Dict> := [];
    var j := 0;
    assert lines[0..] == lines;
    PrependEmpty(LineRecords(f, lines, k));
    while j < |lines|
      invariant 0 <= j <= |lines|
      invariant Prepend(changes, LineRecords(f, lines[j..], k)) == LineRecords(f, lines, k)
    {
      var d := lines[j];
      LineRecordsStep(f, lines, k, j);
      var compressed := Null;
      if IsPython(f) {
        if f.source.None? || f.walk.None? {
          j := j + 1;
          continue;
        }
        var c := ContextRetriever.GetContextParentsCompressed(f.source.value, f.walk.value, d.lineno, true, k);
        if c.Err? {
          j := j + 1;
          continue;
        }
        compressed := Str(c.value);
      }
      if f.source.None? {
        return Err(AttributeError("'NoneType' object has no attribute 'split'"));
      }
      var base := ContextRetriever.GetContext(f.source.value, d.lineno, k);
      var record := Record(f, d, compressed, base, k);
      PrependPrepend(changes, [record], LineRecords(f, lines[j + 1..], k));
      changes := changes + [record];
      j := j + 1;
    }
    assert lines[j..] == [];
    assert changes + [] == changes;
    r := Ok(changes);
  }

  /** One file of the outer loop. */
  lemma {:induction false} CommitRecordsStep(files: seq<ModifiedFile>, lim: Limits, i: nat)
    requires i < |files|
    ensures FileRecords(files[i], lim).Err? ==> CommitRecords(files[i..], lim) == Err(FileRecords(files[i], lim).exc)
    ensures FileRecords(files[i], lim).Ok? ==>
      CommitRecords(files[i..], lim) == Prepend(FileRecords(files[i], lim).value, CommitRecords(files[i + 1..], lim))
  {
    assert files[i..][0] == files[i];
    assert files[i..][1..] == files[i + 1..];
  }

  /** analyze_commit: the loop over the modified files, skipping those over
      the limits. */
  method AnalyzeCommitLoop(c: RawCommit, lim: Limits) returns (r: Result<Option<FilterCodeChanges.Commit>>)
    ensures r == AnalyzeCommit(c, lim)
  {
    var changes: seq<Dict> := [];
    var i := 0;
    assert c.files[0..] == c.files;
    PrependEmpty(CommitRecords(c.files, lim));
    while i < |c.files|
      invariant 0 <= i <= |c.files|
      invariant Prepend(changes, CommitRecords(c.files[i..], lim)) == CommitRecords(c.files, lim)
    {
      var f := c.files[i];
      CommitRecordsStep(c.files, lim, i);
      if Skipped(f, lim) {
        PrependEmpty(CommitRecords(c.files[i + 1..], lim));
        i := i + 1;
        continue;
      }
      var lines := DeprecateLines(f.added);
      var rs :- AnalyzeLines(f, lines, lim.contextSize);
      PrependPrepend(changes, rs, CommitRecords(c.files[i + 1..], lim));
      changes := changes + rs;
      i := i + 1;
    }
    assert c.files[i..] == [];
    assert changes + [] == changes;
    if changes == [] {
      r := Ok(None);
    } else {
      r := Ok(Some(FilterCodeChanges.Commit(map["hash" := Str(c.hash), "commit_number" := Str(c.date)], Some(changes))));
    }
  }

  // main

  /** The commits main keeps, from the `count`-th kept one on: a commit is
      analysed only while fewer than `maxCommits` were kept (no cap when
      `maxCommits` is not positive), and kept when it has records. */
  function Collect(commits: seq<RawCommit>, lim: Limits, maxCommits: int, count: nat): Result<seq<FilterCodeChanges.Commit>>
  {
    if commits == [] || 0 < maxCommits <= count then Ok([])
    else
      var d :- AnalyzeCommit(commits[0], lim);
      if d.Some? then Prepend([d.value], Collect(commits[1..], lim, maxCommits, count + 1))
      else Collect(commits[1..], lim, maxCommits, count)
  }

  /** With a cap, at most `maxCommits` commits are kept; only commits with
      records count toward it. */
  lemma {:induction false} CollectCap(commits: seq<RawCommit>, lim: Limits, maxCommits: int, count: nat)
    requires Collect(commits, lim, maxCommits, count).Ok?
    requires 0 < maxCommits && count <= maxCommits
    ensures |Collect(commits, lim, maxCommits, count).value| <= maxCommits - count
  {
    if commits != [] && count < maxCommits {
      var d := AnalyzeCommit(commits[0], lim).value;
      if d.Some? {
        CollectCap(commits[1..], lim, maxCommits, count + 1);
      } else {
        CollectCap(commits[1..], lim, maxCommits, count);
      }
    }
  }

  /** Every kept commit is the analysis of one of the commits, and has
      records. */
  lemma {:induction false} CollectFrom(commits: seq<RawCommit>, lim: Limits, maxCommits: int, count: nat)
    requires Collect(commits, lim, maxCommits, count).Ok?
    ensures forall x :: x in Collect(commits, lim, maxCommits, count).value ==>
      exists i :: 0 <= i < |commits| && AnalyzeCommit(commits[i], lim) == Ok(Some(x))
  {
    if commits != [] && !(0 < maxCommits <= count) {
      var d := AnalyzeCommit(commits[0], lim).value;
      var count' := if d.Some? then count + 1 else count;
      CollectFrom(commits[1..], lim, maxCommits, count');
      forall x | x in Collect(commits, lim, maxCommits, count).value
        ensures exists i :: 0 <= i < |commits| && AnalyzeCommit(commits[i], lim) == Ok(Some(x))
      {
        if d.Some? && x == d.value {
          assert AnalyzeCommit(commits[0], lim) == Ok(Some(x));
        } else {
          assert x in Collect(commits[1..], lim, maxCommits, count').value;
          var i :| 0 <= i < |commits[1..]| && AnalyzeCommit(commits[1..][i], lim) == Ok(Some(x));
          assert commits[1..][i] == commits[i + 1];
        }
      }
    }
  }

  /** The kept commits are what the next stage reads: they flatten
      without a KeyError. */
  lemma {:induction false} CollectFlattens(commits: seq<RawCommit>, lim: Limits, maxCommits: int, count: nat)
    requires Collect(commits, lim, maxCommits, count).Ok?
    ensures FilterCodeChanges.Flatten(Collect(commits, lim, maxCommits, count).value).Ok?
  {
    var kept := Collect(commits, lim, maxCommits, count).value;
    CollectFrom(commits, lim, maxCommits, count);
    forall i | 0 <= i < |kept| ensures FilterCodeChanges.CommitItems(kept[i]).Ok? {
      assert kept[i] in kept;
      var j :| 0 <= j < |commits| && AnalyzeCommit(commits[j], lim) == Ok(Some(kept[i]));
    }
    FilterCodeChanges.FlattenFails(kept);
  }

  /** One commit of the main loop, below the cap. */
  lemma {:induction false} CollectStep(commits: seq<RawCommit>, lim: Limits, maxCommits: int, count: nat, i: nat)
    requires i < |commits| && !(0 < maxCommits <= count)
    ensures AnalyzeCommit(commits[i], lim).Err? ==>
      Collect(commits[i..], lim, maxCommits, count) == Err(AnalyzeCommit(commits[i], lim).exc)
    ensures AnalyzeCommit(commits[i], lim) == Ok(None) ==>
      Collect(commits[i..], lim, maxCommits, count) == Collect(commits[i + 1..], lim, maxCommits, count)
    ensures AnalyzeCommit(commits[i], lim).Ok? && AnalyzeCommit(commits[i], lim).value.Some? ==>
      Collect(commits[i..], lim, maxCommits, count)
        == Prepend([AnalyzeCommit(commits[i], lim).value.value], Collect(commits[i + 1..], lim, maxCommits, count + 1))
  {
    assert commits[i..][0] == commits[i];
    assert commits[i..][1..] == commits[i + 1..];
  }

  /** The loop of main, with its commit counter. */
  method CollectCommits(commits: seq<RawCommit>, lim: Limits, maxCommits: int) returns (r: Result<seq<FilterCodeChanges.Commit>>)
    ensures r == Collect(commits, lim, maxCommits, 0)
  {
    var all: seq<FilterCodeChanges.Commit> := [];
    var count: nat := 0;
    var i := 0;
    assert commits[0..] == commits;
    PrependEmpty(Collect(commits, lim, maxCommits, 0));
    while i < |commits|
      invariant 0 <= i <= |commits|
      invariant Prepend(all, Collect(commits[i..], lim, maxCommits, count)) == Collect(commits, lim, maxCommits, 0)
    {
      if 0 < maxCommits <= count {
        break;
      }
      CollectStep(commits, lim, maxCommits, count, i);
      var d :- AnalyzeCommitLoop(commits[i], lim);
      if d.Some? {
        PrependPrepend(all, [d.value], Collect(commits[i + 1..], lim, maxCommits, count + 1));
        all := all + [d.value];
        count := count + 1;
      }
      i := i + 1;
    }
    if i == |commits| {
      assert commits[i..] == [];
    }
    assert all + [] == all;
    r := Ok(all);
  }

  /** The file main writes: `{name of the repository}_{max_commits}.json`
      in the output folder. */
  function OutputPath(outputFolder: string, repoName: string, maxCommits: int): string
  {
    PyPath.Join(outputFolder, PyPath.Name(repoName) + "_" + IntToString(maxCommits) + ".json")
  }
}
