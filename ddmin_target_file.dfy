/** analysis_and_reporting/ddmin_target_file.py: cutting a reproducer program
    into the fixed header, the gate instructions that delta debugging
    minimises and the fixed footer; the oracle that decides whether a candidate
    still shows the same failure; and the minimised file that is written. */
module DdminTargetFile {
  import opened Py
  import opened PyStr
  import opened PySeq
  import SCM = SourceCodeManipulation

  const StartGates: string := "# <START_GATES>"
  const EndGates: string := "# <END_GATES>"

  // ---------------------------------------------------------------------
  // extract_instructions

  /** Each line with surrounding whitespace removed (`line.strip()`). */
  function Stripped(lines: seq<string>): (r: seq<string>)
    ensures |r| == |lines|
  {
    Map(lines, Strip)
  }

  /** The first index holding `x`. */
  function FirstIndex(xs: seq<string>, x: string): (r: Option<nat>)
    ensures r.Some? ==> r.value < |xs| && xs[r.value] == x && forall j :: 0 <= j < r.value ==> xs[j] != x
    ensures r.None? ==> forall j :: 0 <= j < |xs| ==> xs[j] != x
  {
    if xs == [] then None
    else if xs[0] == x then Some(0)
    else match FirstIndex(xs[1..], x)
      case None => None
      case Some(k) => Some(k + 1)
  }

  /** `next(i for i, line in enumerate(lines) if line.strip() == tag)`;
      `None` where `next` raises StopIteration. */
  function TagIndex(lines: seq<string>, tag: string): Option<nat>
  {
    FirstIndex(Stripped(lines), tag)
  }

  datatype Chunks = Chunks(before: seq<string>, instructions: seq<string>, after: seq<string>)

  /** extract_instructions on the lines of the file (each still ending in its
      newline): up to and including the first start-tag line, the lines
      strictly between the two tags, and from the first end-tag line on. */
  function ExtractInstructions(lines: seq<string>, startTag: string, endTag: string): Result<Chunks>
  {
    match TagIndex(lines, startTag)
    case None => Err(StopIteration)
    case Some(s) =>
      match TagIndex(lines, endTag)
      case None => Err(StopIteration)
      case Some(e) => Ok(Chunks(lines[..s + 1], Slice(lines, s + 1, e), lines[e..]))
  }

  /** The stripped line `k` is the tag, and no earlier one is. */
  predicate FirstTagAt(lines: seq<string>, tag: string, k: nat)
  {
    k < |lines| && Stripped(lines)[k] == tag && tag !in Stripped(lines)[..k]
  }

  lemma {:induction false} TagIndexAt(lines: seq<string>, tag: string, k: nat)
    requires FirstTagAt(lines, tag, k)
    ensures TagIndex(lines, tag) == Some(k)
  {
    var st := Stripped(lines);
    assert forall j :: 0 <= j < k ==> st[j] == st[..k][j];
  }

  /** With the start tag before the end tag, the three chunks put back
      together are the file; the start-tag line closes the header, the
      end-tag line opens the footer, and no instruction is an end tag. */
  lemma {:induction false} ExtractSplitsAtTags(lines: seq<string>, startTag: string, endTag: string, s: nat, e: nat)
    requires s < e && FirstTagAt(lines, startTag, s) && FirstTagAt(lines, endTag, e)
    ensures ExtractInstructions(lines, startTag, endTag).Ok?
    ensures var c := ExtractInstructions(lines, startTag, endTag).value;
      && c.before + c.instructions + c.after == lines
      && |c.before| == s + 1 && Stripped(c.before)[s] == startTag
      && c.after != [] && Stripped(c.after)[0] == endTag
      && endTag !in Stripped(c.instructions)
  {
    TagIndexAt(lines, startTag, s);
    TagIndexAt(lines, endTag, e);
    var c := ExtractInstructions(lines, startTag, endTag).value;
    assert c == Chunks(lines[..s + 1], lines[s + 1..e], lines[e..]);
    SplitThree(lines, s + 1, e);
    StrippedSliceAt(lines, 0, s + 1, s);
    StrippedSliceAt(lines, e, |lines|, e);
    NoTagBefore(lines, endTag, s + 1, e);
  }

  lemma {:induction false} SplitThree(lines: seq<string>, a: nat, b: nat)
    requires a <= b <= |lines|
    ensures lines[..a] + lines[a..b] + lines[b..] == lines
  {
  }

  lemma {:induction false} StrippedSliceAt(lines: seq<string>, a: nat, b: nat, i: nat)
    requires a <= i < b <= |lines|
    ensures Stripped(lines[a..b])[i - a] == Stripped(lines)[i]
  {
    MapSlice(lines, Strip, a, b);
  }

  lemma {:induction false} NoTagBefore(lines: seq<string>, tag: string, a: nat, e: nat)
    requires a <= e && FirstTagAt(lines, tag, e)
    ensures tag !in Stripped(lines[a..e])
  {
    MapSlice(lines, Strip, a, e);
    var st := Stripped(lines);
    forall k | 0 <= k < e - a ensures st[a..e][k] != tag {
      assert st[a..e][k] == st[..e][a + k];
    }
  }

  /** A tag that no stripped line equals makes `next` raise StopIteration. */
  lemma {:induction false} ExtractMissingTag(lines: seq<string>, startTag: string, endTag: string)
    requires startTag !in Stripped(lines) || endTag !in Stripped(lines)
    ensures ExtractInstructions(lines, startTag, endTag) == Err(StopIteration)
  {
    var st := Stripped(lines);
    var a, b := TagIndex(lines, startTag), TagIndex(lines, endTag);
    assert a.Some? ==> st[a.value] == startTag;
    assert b.Some? ==> st[b.value] == endTag;
  }

  /** With the end tag first, no instruction is extracted. */
  lemma {:induction false} ExtractTagsOutOfOrder(lines: seq<string>, startTag: string, endTag: string, s: nat, e: nat)
    requires e <= s && FirstTagAt(lines, startTag, s) && FirstTagAt(lines, endTag, e)
    ensures ExtractInstructions(lines, startTag, endTag) == Ok(Chunks(lines[..s + 1], [], lines[e..]))
  {
    TagIndexAt(lines, startTag, s);
    TagIndexAt(lines, endTag, e);
  }

  // ---------------------------------------------------------------------
  // repro_func

  /** The text of the candidate program: header, the chosen steps, footer. */
  function CandidateFile(header: string, steps: seq<string>, footer: string): string
  {
    header + Concat(steps) + footer
  }

  /** What running a candidate in Docker leaves behind: either an exception
      (from Docker or from reading the log), or the `exception_message` field
      of each `*_error.json` file found, in directory order (`None` when the
      field is absent). */
  datatype DockerRun =
    | Crashed(e: Exception)
    | Finished(errorMessages: seq<Option<string>>)

  /** `error_info.get("exception_message", "")`. */
  function MessageOrEmpty(m: Option<string>): string
  {
    if m.Some? then m.value else ""
  }

  /** repro_func: `False` ("the failure is reproduced") exactly when an error
      log was written and the first one's message contains the clue. */
  function ReproFunc(run: DockerRun, errorClue: string): (notReproduced: bool)
    ensures !notReproduced <==>
      run.Finished? && |run.errorMessages| > 0 && Contains(MessageOrEmpty(run.errorMessages[0]), errorClue)
  {
    match run
    case Crashed(_) => true
    case Finished(msgs) =>
      if |msgs| > 0 && Contains(MessageOrEmpty(msgs[0]), errorClue) then false else true
  }

  /** An empty clue matches any logged error, and a Docker failure never
      counts as a reproduction. */
  lemma {:induction false} ReproFuncEdgeCases(run: DockerRun)
    ensures run.Finished? && |run.errorMessages| > 0 ==> !ReproFunc(run, "")
    ensures run.Crashed? ==> forall clue :: ReproFunc(run, clue)
  {
    if run.Finished? && |run.errorMessages| > 0 {
      var m := MessageOrEmpty(run.errorMessages[0]);
      assert StartsWith(m[0..], "");
    }
  }

  // ---------------------------------------------------------------------
  // dump_json_with_max_length

  function Spaces(n: nat): (r: string)
    ensures |r| == n && forall i :: 0 <= i < n ==> r[i] == ' '
  {
    seq(n, _ => ' ')
  }

  /** The split index of one pass of the `while` loop as written: the last
      space in `line[0:maxLength]`, or `maxLength` when there is none. */
  function SplitIndexAsWritten(line: string, maxLength: nat): (k: nat)
    requires |line| > maxLength
    ensures k <= maxLength
  {
    var s := RFind(line[..maxLength], ' ');
    if s == -1 then maxLength else s
  }

  /** The line the loop continues with, as written. */
  function ContinuationAsWritten(line: string, indent: nat, maxLength: nat): string
    requires |line| > maxLength
  {
    Spaces(indent) + LStrip(line[SplitIndexAsWritten(line, maxLength)..])
  }

  /** As written, the loop never ends on an over-long line whose only spaces
      before `maxLength` are its indentation: the one pass re-creates the
      same line. With the defaults (indent 4, 80 columns) any JSON line of
      four spaces and a space-free token of 77 or more characters does it. */
  lemma {:induction false} WrapStallsAsWritten(indent: nat, maxLength: nat, word: string)
    requires 0 < indent < maxLength < indent + |word|
    requires forall i :: 0 <= i < |word| ==> !IsSpace(word[i])
    ensures |Spaces(indent) + word| > maxLength
    ensures ContinuationAsWritten(Spaces(indent) + word, indent, maxLength) == Spaces(indent) + word
  {
    var line := Spaces(indent) + word;
    var window := line[..maxLength];
    assert window[indent - 1] == ' ';
    assert forall j :: indent <= j < maxLength ==> window[j] == word[j - indent];
    var s := RFind(window, ' ');
    RFindSpec(window, ' ');
    assert s == indent - 1;
    assert line[indent - 1..] == [' '] + word;
    assert LStrip([' '] + word) == LStrip(word);
  }

  /** The split index with the evident intent restored: a space inside the
      indentation is no place to split, so the line is cut hard at
      `maxLength` instead, and every pass makes progress. */
  function SplitIndex(line: string, indent: nat, maxLength: nat): (k: nat)
    requires indent < maxLength < |line|
    ensures indent < k <= maxLength
  {
    var s := RFind(line[..maxLength], ' ');
    if s <= indent then maxLength else s
  }

  /** The pieces one over-long line is cut into. */
  function Wrap(line: string, indent: nat, maxLength: nat): (pieces: seq<string>)
    requires indent < maxLength
    ensures |pieces| >= 1
    decreases |line|
  {
    if |line| <= maxLength then [line]
    else
      var k := SplitIndex(line, indent, maxLength);
      [line[..k]] + Wrap(Continuation(line, k, indent), indent, maxLength)
  }

  /** Every piece fits in `maxLength`, and a piece holds a newline only if
      the line did. */
  lemma {:induction false} WrapFits(line: string, indent: nat, maxLength: nat)
    requires indent < maxLength
    ensures forall i :: 0 <= i < |Wrap(line, indent, maxLength)| ==>
      |Wrap(line, indent, maxLength)[i]| <= maxLength && ('\n' in Wrap(line, indent, maxLength)[i] ==> '\n' in line)
    decreases |line|
  {
    if |line| > maxLength {
      var k := SplitIndex(line, indent, maxLength);
      var rest := Continuation(line, k, indent);
      WrapFits(rest, indent, maxLength);
      var tail := Wrap(rest, indent, maxLength);
      var pieces := Wrap(line, indent, maxLength);
      assert pieces == [line[..k]] + tail;
      forall i | 0 <= i < |pieces|
        ensures |pieces[i]| <= maxLength && ('\n' in pieces[i] ==> '\n' in line)
      {
        if i == 0 {
          assert '\n' in line[..k] ==> '\n' in line;
        } else {
          assert pieces[i] == tail[i - 1];
        }
      }
    }
  }

  /** The line the loop goes on with after cutting at `k`: the indentation,
      then the rest with its leading whitespace dropped. */
  function Continuation(line: string, k: nat, indent: nat): (rest: string)
    requires indent < k <= |line|
    ensures |rest| < |line|
    ensures '\n' !in line ==> '\n' !in rest
  {
    var t := LStrip(line[k..]);
    LStripSuffix(line[k..]);
    assert line[k..][|line[k..]| - |t|..] == line[|line| - |t|..];
    Spaces(indent) + t
  }

  function WrapAll(lines: seq<string>, indent: nat, maxLength: nat): (r: seq<string>)
    requires indent < maxLength
  {
    if lines == [] then []
    else WrapAll(lines[..|lines| - 1], indent, maxLength) + Wrap(lines[|lines| - 1], indent, maxLength)
  }

  /** Every wrapped line fits in `maxLength`, and none holds a newline when
      no input line did. */
  lemma {:induction false} WrapAllFits(lines: seq<string>, indent: nat, maxLength: nat)
    requires indent < maxLength
    ensures forall i :: 0 <= i < |WrapAll(lines, indent, maxLength)| ==> |WrapAll(lines, indent, maxLength)[i]| <= maxLength
    ensures (forall i :: 0 <= i < |lines| ==> '\n' !in lines[i]) ==>
      forall i :: 0 <= i < |WrapAll(lines, indent, maxLength)| ==> '\n' !in WrapAll(lines, indent, maxLength)[i]
  {
    if lines != [] {
      var init := lines[..|lines| - 1];
      var last := lines[|lines| - 1];
      WrapAllFits(init, indent, maxLength);
      WrapFits(last, indent, maxLength);
      var a := WrapAll(init, indent, maxLength);
      var b := Wrap(last, indent, maxLength);
      var r := WrapAll(lines, indent, maxLength);
      assert r == a + b;
      var clean := forall i :: 0 <= i < |lines| ==> '\n' !in lines[i];
      if clean {
        assert forall i :: 0 <= i < |init| ==> init[i] == lines[i];
        assert '\n' !in last;
      }
      forall i | 0 <= i < |r|
        ensures |r[i]| <= maxLength && (clean ==> '\n' !in r[i])
      {
        if i < |a| {
          assert r[i] == a[i];
        } else {
          assert r[i] == b[i - |a|];
        }
      }
    }
  }

  /** The non-whitespace characters of a string, in order. */
  function NonSpace(s: string): string
  {
    if s == [] then [] else (if IsSpace(s[0]) then [] else [s[0]]) + NonSpace(s[1..])
  }

  lemma {:induction false} NonSpaceAppend(a: string, b: string)
    ensures NonSpace(a + b) == NonSpace(a) + NonSpace(b)
    decreases |a|
  {
    if a != [] {
      assert (a + b)[0] == a[0];
      assert (a + b)[1..] == a[1..] + b;
      NonSpaceAppend(a[1..], b);
    } else {
      assert a + b == b;
    }
  }

  lemma {:induction false} NonSpaceOfSpaces(s: string)
    requires forall i :: 0 <= i < |s| ==> IsSpace(s[i])
    ensures NonSpace(s) == []
    decreases |s|
  {
    if s != [] { NonSpaceOfSpaces(s[1..]); }
  }

  lemma {:induction false} NonSpaceLStrip(s: string)
    ensures NonSpace(LStrip(s)) == NonSpace(s)
  {
    var l := LStrip(s);
    var m := |s| - |l|;
    LStripSuffix(s);
    assert s == s[..m] + l;
    NonSpaceAppend(s[..m], l);
    NonSpaceOfSpaces(s[..m]);
  }

  lemma {:induction false} NonSpaceContinuation(line: string, k: nat, indent: nat)
    requires indent < k <= |line|
    ensures NonSpace(Continuation(line, k, indent)) == NonSpace(line[k..])
  {
    NonSpaceAppend(Spaces(indent), LStrip(line[k..]));
    NonSpaceOfSpaces(Spaces(indent));
    NonSpaceLStrip(line[k..]);
  }

  /** Cutting a line loses no text: only whitespace is dropped or added. */
  lemma {:induction false} WrapKeepsText(line: string, indent: nat, maxLength: nat)
    requires indent < maxLength
    ensures NonSpace(Concat(Wrap(line, indent, maxLength))) == NonSpace(line)
    decreases |line|
  {
    if |line| > maxLength {
      var k := SplitIndex(line, indent, maxLength);
      var rest := Continuation(line, k, indent);
      var tail := Concat(Wrap(rest, indent, maxLength));
      WrapKeepsText(rest, indent, maxLength);
      NonSpaceContinuation(line, k, indent);
      assert Concat(Wrap(line, indent, maxLength)) == line[..k] + tail;
      NonSpaceAppend(line[..k], tail);
      assert line == line[..k] + line[k..];
      NonSpaceAppend(line[..k], line[k..]);
    } else {
      assert Wrap(line, indent, maxLength) == [line];
      assert [line][1..] == [];
      assert Concat([line][1..]) == "";
      assert Concat([line]) == line;
    }
  }

  /** dump_json_with_max_length over the text `json.dumps` produced, with the
      split rule corrected as in SplitIndex. */
  method DumpJsonWithMaxLength(jsonText: string, indent: nat, maxLength: nat) returns (text: string)
    requires indent < maxLength
    ensures text == Join("\n", WrapAll(Split(jsonText, '\n'), indent, maxLength))
    ensures forall l :: l in Split(text, '\n') ==> |l| <= maxLength
  {
    var lines := Split(jsonText, '\n');
    var formatted: seq<string> := [];
    var i := 0;
    while i < |lines|
      invariant 0 <= i <= |lines|
      invariant formatted == WrapAll(lines[..i], indent, maxLength)
    {
      var line := lines[i];
      assert lines[..i + 1][..i] == lines[..i];
      while |line| > maxLength
        invariant formatted + Wrap(line, indent, maxLength) == WrapAll(lines[..i + 1], indent, maxLength)
        decreases |line|
      {
        var k := SplitIndex(line, indent, maxLength);
        formatted := formatted + [line[..k]];
        line := Continuation(line, k, indent);
      }
      formatted := formatted + [line];
      i := i + 1;
    }
    assert lines[..i] == lines;
    text := Join("\n", formatted);
    DumpedLinesFit(jsonText, indent, maxLength);
  }

  /** Every line of the dumped text fits in `maxLength`: the wrapped pieces
      hold no newline, so splitting their join gives them back. */
  lemma {:induction false} DumpedLinesFit(jsonText: string, indent: nat, maxLength: nat)
    requires indent < maxLength
    ensures forall l :: l in Split(Join("\n", WrapAll(Split(jsonText, '\n'), indent, maxLength)), '\n') ==> |l| <= maxLength
  {
    var lines := Split(jsonText, '\n');
    var pieces := WrapAll(lines, indent, maxLength);
    SplitNoSep(jsonText, '\n');
    WrapAllFits(lines, indent, maxLength);
    assert |Wrap(lines[|lines| - 1], indent, maxLength)| >= 1;
    SplitJoin(pieces, '\n');
  }

  // ---------------------------------------------------------------------
  // save_minimized_file and the footer

  const DocOpen: string := "\"\"\"This is the content of the error message:\n"

  /** The text save_minimized_file writes: the error record in a docstring,
      then the header and a newline when there is a header, the minimised
      lines, then a newline and the footer when there is a footer. */
  function MinimizedFileText(errorDump: string, header: string, minimized: seq<string>, footer: string): (text: string)
    ensures StartsWith(text, DocOpen + errorDump + "\n\"\"\"\n")
    ensures footer != "" ==> EndsWith(text, "\n" + footer)
    ensures footer == "" ==> EndsWith(text, Concat(minimized))
  {
    DocOpen + errorDump + "\n\"\"\"\n"
    + (if header != "" then header + "\n" else "")
    + Concat(minimized)
    + (if footer != "" then "\n" + footer else "")
  }

  /** The minimised program is written as `{error_stem}_min.py`. */
  function MinimizedFileName(errorStem: string): (name: string)
    ensures StartsWith(name, errorStem) && EndsWith(name, "_min.py")
  {
    errorStem + "_min.py"
  }

  /** A footer line that calls `log_exception_to_json`. */
  predicate IsLogCall(line: string) { StartsWith(LStrip(line), "log_exception_to_json") }

  /** `raise e` at the indentation of `line`. */
  function RaiseLine(line: string): (r: string)
    ensures LStrip(r) == "raise e"
    ensures |r| - |LStrip(r)| == |line| - |LStrip(line)|
  {
    var n := |line| - |LStrip(line)|;
    var r := Spaces(n) + "raise e";
    LStripSpaces(n, "raise e");
    r
  }

  lemma {:induction false} LStripSpaces(n: nat, s: string)
    requires s != [] && !IsSpace(s[0])
    ensures LStrip(Spaces(n) + s) == s
    decreases n
  {
    if n > 0 {
      assert (Spaces(n) + s)[1..] == Spaces(n - 1) + s;
      LStripSpaces(n - 1, s);
    }
  }

  /** The footer lines with `raise e` inserted after every log call. */
  function WithRaises(lines: seq<string>): seq<string>
  {
    if lines == [] then []
    else [lines[0]] + (if IsLogCall(lines[0]) then [RaiseLine(lines[0])] else []) + WithRaises(lines[1..])
  }

  /** Drops the line that follows each log call: the inverse of WithRaises. */
  function DropRaises(lines: seq<string>): seq<string>
    decreases |lines|
  {
    if lines == [] then []
    else if IsLogCall(lines[0]) && |lines| > 1 then [lines[0]] + DropRaises(lines[2..])
    else [lines[0]] + DropRaises(lines[1..])
  }

  /** No line is lost or reordered: dropping what was inserted gives back
      the footer's lines. */
  lemma {:induction false} DropRaisesInverse(lines: seq<string>)
    ensures DropRaises(WithRaises(lines)) == lines
    decreases |lines|
  {
    if lines != [] {
      DropRaisesInverse(lines[1..]);
      var w := WithRaises(lines);
      if IsLogCall(lines[0]) {
        assert w[2..] == WithRaises(lines[1..]);
      } else {
        assert w[1..] == WithRaises(lines[1..]);
      }
      assert lines == [lines[0]] + lines[1..];
    }
  }

  lemma {:induction false} WithRaisesAppend(lines: seq<string>, l: string)
    ensures WithRaises(lines + [l]) == WithRaises(lines) + WithRaises([l])
    decreases |lines|
  {
    if lines != [] {
      assert (lines + [l])[1..] == lines[1..] + [l];
      WithRaisesAppend(lines[1..], l);
    }
  }

  /** The loop of add_raise_exception_to_footer over the footer's lines. */
  method InsertRaises(lines: seq<string>) returns (newLines: seq<string>)
    ensures newLines == WithRaises(lines)
  {
    newLines := [];
    var i := 0;
    while i < |lines|
      invariant 0 <= i <= |lines|
      invariant newLines == WithRaises(lines[..i])
    {
      var l := lines[i];
      var step := if IsLogCall(l) then [l, RaiseLine(l)] else [l];
      assert WithRaises([l]) == step;
      WithRaisesAppend(lines[..i], l);
      assert lines[..i + 1] == lines[..i] + [l];
      newLines := newLines + step;
      i := i + 1;
    }
    assert lines[..i] == lines;
  }

  /** add_raise_exception_to_footer. */
  method AddRaiseExceptionToFooter(footer: string) returns (r: string)
    ensures r == Join("\n", WithRaises(Split(footer, '\n')))
  {
    var lines := Split(footer, '\n');
    var newLines := InsertRaises(lines);
    r := Join("\n", newLines);
  }

  /** The oracle and instrumentation functions that the footer defines. */
  function FooterFunctions(footer: string): seq<string>
  {
    SCM.FunctionNamesWithPrefix(footer, "export_to_qasm")
    + SCM.FunctionNamesWithPrefix(footer, "import_from_qasm")
    + SCM.FunctionNamesWithPrefix(footer, "compare_qasm")
  }

  function NotInvolved(names: seq<string>, involved: seq<string>): (r: seq<string>)
    ensures forall f :: f in r <==> f in names && f !in involved
  {
    if names == [] then []
    else (if names[0] in involved then [] else [names[0]]) + NotInvolved(names[1..], involved)
  }

  /** The functions minimize_instructions removes from the footer: exactly the
      export, import and comparison functions it defines that the error record
      does not list as involved. */
  function FunctionsToRemove(footer: string, involved: seq<string>): (r: seq<string>)
    ensures forall f :: f in r <==>
      && f in SCM.DefNames(Split(footer, '\n'))
      && (StartsWith(f, "export_to_qasm") || StartsWith(f, "import_from_qasm") || StartsWith(f, "compare_qasm"))
      && f !in involved
  {
    NotInvolved(FooterFunctions(footer), involved)
  }

  /** The footer that goes into every candidate: the parsed footer with the
      uninvolved oracle functions removed, at any depth. */
  function MinimizedFooter(footerTree: seq<SCM.Node>, footer: string, involved: seq<string>): (r: seq<SCM.Node>)
    ensures !SCM.DefinesIn(r, set f | f in FunctionsToRemove(footer, involved))
  {
    var names := set f | f in FunctionsToRemove(footer, involved);
    SCM.RemovedEverywhere(footerTree, names);
    SCM.RemoveAll(footerTree, names)
  }
}
